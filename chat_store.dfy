/**
 * The chat store of the agent project (a zustand store): the message list, the current role,
 * the loading flag and the error, with adding, updating, regenerating and clearing messages.
 * `StorageService` is not part of this model: every list it is asked to save is kept in
 * `cached`, and clearing its cache empties that field. Roles are named by their ids; the AI
 * reply, `nanoid()` and `Date.now()` are parameters.
 */
module ChatStore {
  import opened Wrappers

  datatype MessageType = UserMessage | AssistantMessage

  datatype MessageStatus = Pending | Success | Failed

  datatype Message = Message(
    id: string, content: string, role: string, timestamp: int, kind: MessageType,
    status: MessageStatus, parentId: Option<string>, version: Option<int>)

  /**
   * The message handed to `addMessage`. Its typed fields always win over the defaults; the
   * defaulted ones (`id`, `timestamp`, `status`, `version`) may be absent at run time.
   */
  datatype NewMessage = NewMessage(
    id: Option<string>, content: string, role: string, timestamp: Option<int>, kind: MessageType,
    status: Option<MessageStatus>, parentId: Option<string>, version: Option<int>)

  /** `Partial<Message>` */
  datatype MessageUpdate = MessageUpdate(
    id: Option<string>, content: Option<string>, role: Option<string>, timestamp: Option<int>,
    kind: Option<MessageType>, status: Option<MessageStatus>, parentId: Option<Option<string>>,
    version: Option<Option<int>>)

  /** What `APIService.chatWithAI` gives back: a status and a content, or a thrown error. */
  datatype Reply = Reply(status: string, content: string) | Threw

  const RegenerateError := "重新生成失败"

  function Or<T>(given: Option<T>, default: T): T
  {
    if given.Some? then given.value else default
  }

  /** `{ id: nanoid(), timestamp: Date.now(), status: "success", version: 1, ...message }` */
  function WithDefaults(m: NewMessage, freshId: string, now: int): (r: Message)
    ensures r.id == (if m.id.Some? then m.id.value else freshId)
    ensures r.timestamp == (if m.timestamp.Some? then m.timestamp.value else now)
    ensures r.status == (if m.status.Some? then m.status.value else Success)
    ensures r.version == (if m.version.Some? then m.version else Some(1))
    ensures r.content == m.content && r.role == m.role && r.kind == m.kind && r.parentId == m.parentId
  {
    Message(Or(m.id, freshId), m.content, m.role, Or(m.timestamp, now), m.kind, Or(m.status, Success),
            m.parentId, if m.version.Some? then m.version else Some(1))
  }

  /** `{ ...msg, ...updates }` */
  function Merge(m: Message, u: MessageUpdate): Message
  {
    Message(Or(u.id, m.id), Or(u.content, m.content), Or(u.role, m.role), Or(u.timestamp, m.timestamp),
            Or(u.kind, m.kind), Or(u.status, m.status), Or(u.parentId, m.parentId), Or(u.version, m.version))
  }

  /** The `map` of `updateMessage`: the messages with id `id` get the update, the others stay. */
  function UpdateMessages(messages: seq<Message>, id: string, u: MessageUpdate): (r: seq<Message>)
    ensures |r| == |messages|
    ensures forall i :: 0 <= i < |r| ==> r[i] == if messages[i].id == id then Merge(messages[i], u) else messages[i]
  {
    seq(|messages|, i requires 0 <= i < |messages| => if messages[i].id == id then Merge(messages[i], u) else messages[i])
  }

  /** An update that sets every field to the message's own values. */
  function Replacing(m: Message): MessageUpdate
  {
    MessageUpdate(Some(m.id), Some(m.content), Some(m.role), Some(m.timestamp), Some(m.kind), Some(m.status),
                  Some(m.parentId), Some(m.version))
  }

  /** An update with every field set replaces the message outright. */
  lemma MergeReplacing(m: Message, n: Message)
    ensures Merge(m, Replacing(n)) == n
  {
  }

  /** `messages.find(m => m.id === id)`, as a position. */
  function FirstWithId(messages: seq<Message>, id: string): (i: int)
    ensures -1 <= i < |messages|
    ensures i >= 0 ==> messages[i].id == id
    ensures forall j :: 0 <= j < |messages| && (i < 0 || j < i) ==> messages[j].id != id
  {
    if messages == [] then -1
    else if messages[0].id == id then 0
    else
      var k := FirstWithId(messages[1..], id);
      if k < 0 then -1 else k + 1
  }

  /** `slice(0, index).reverse().find(m => m.type === "user")`: the nearest user message before `index`. */
  function NearestUserBefore(messages: seq<Message>, index: nat): (r: Option<Message>)
    requires index <= |messages|
    ensures r.None? <==> forall j :: 0 <= j < index ==> messages[j].kind != UserMessage
    ensures r.Some? ==> exists j :: (0 <= j < index && messages[j] == r.value && r.value.kind == UserMessage
      && forall k :: j < k < index ==> messages[k].kind != UserMessage)
  {
    if index == 0 then None
    else if messages[index - 1].kind == UserMessage then Some(messages[index - 1])
    else NearestUserBefore(messages, index - 1)
  }

  /** `version || 1`: a missing version and version 0 both count as 1. */
  function VersionOrOne(version: Option<int>): int
  {
    if version.Some? && version.value != 0 then version.value else 1
  }

  /** The message after a successful regeneration: the new content and time, and the version one higher. */
  function Regenerated(m: Message, content: string, now: int): (r: Message)
    ensures r.version == Some(VersionOrOne(m.version) + 1)
    ensures r.id == m.id && r.role == m.role && r.kind == m.kind && r.content == content && r.timestamp == now
    ensures r.status == m.status && r.parentId == m.parentId
  {
    m.(content := content, timestamp := now, version := Some(VersionOrOne(m.version) + 1))
  }

  class ChatStore {
    var messages: seq<Message>
    var currentRole: Option<string>
    var isLoading: bool
    var error: Option<string>
    /** What `StorageService` last saved. */
    var cached: seq<Message>

    constructor ()
      ensures messages == [] && currentRole == None && !isLoading && error == None && cached == []
    {
      messages := [];
      currentRole := None;
      isLoading := false;
      error := None;
      cached := [];
    }

    method SetCurrentRole(role: string)
      modifies this
      ensures currentRole == Some(role)
      ensures messages == old(messages) && isLoading == old(isLoading) && error == old(error) && cached == old(cached)
    {
      currentRole := Some(role);
    }

    /** `addMessage`: the message with its defaults filled in goes at the end, and the list is saved. */
    method AddMessage(m: NewMessage, freshId: string, now: int)
      modifies this
      ensures messages == old(messages) + [WithDefaults(m, freshId, now)]
      ensures cached == messages
      ensures currentRole == old(currentRole) && isLoading == old(isLoading) && error == old(error)
    {
      var newMessage := WithDefaults(m, freshId, now);
      messages := messages + [newMessage];
      cached := messages;
    }

    /** `updateMessage`: the update goes into every message with that id, and the list is saved. */
    method UpdateMessage(id: string, u: MessageUpdate)
      modifies this
      ensures messages == UpdateMessages(old(messages), id, u)
      ensures cached == messages
      ensures currentRole == old(currentRole) && isLoading == old(isLoading) && error == old(error)
    {
      messages := UpdateMessages(messages, id, u);
      cached := messages;
    }

    /**
     * `regenerateMessage`: nothing happens for an unknown id or when no user message comes before
     * the message; otherwise the AI is asked again with the nearest earlier user message (`request`),
     * and a successful reply with content replaces the message with its regenerated version.
     */
    method RegenerateMessage(id: string, reply: Reply, now: int) returns (request: Option<(string, string)>)
      modifies this
      ensures var i := FirstWithId(old(messages), id);
        && (i < 0 || NearestUserBefore(old(messages), i).None? ==>
              request.None? && messages == old(messages) && isLoading == old(isLoading)
              && error == old(error) && cached == old(cached))
        && (i >= 0 && NearestUserBefore(old(messages), i).Some? ==>
              && request == Some((old(messages)[i].role, NearestUserBefore(old(messages), i).value.content))
              && !isLoading
              && (reply.Reply? && reply.status == "success" && reply.content != "" ==>
                    messages == UpdateMessages(old(messages), id, Replacing(Regenerated(old(messages)[i], reply.content, now)))
                    && cached == messages && error == old(error))
              && (reply.Threw? ==> messages == old(messages) && error == Some(RegenerateError) && cached == old(cached))
              && (reply.Reply? && !(reply.status == "success" && reply.content != "") ==>
                    messages == old(messages) && error == old(error) && cached == old(cached)))
      ensures currentRole == old(currentRole)
    {
      var index := FirstWithId(messages, id);
      if index < 0 {
        return None;
      }
      var target := messages[index];
      var userMessage := NearestUserBefore(messages, index);
      if userMessage.None? {
        return None;
      }
      isLoading := true;
      request := Some((target.role, userMessage.value.content));
      ApplyReply(id, target, reply, now);
      isLoading := false;
    }

    /** The reply half of `regenerateMessage`: a successful reply with content replaces the message, a thrown error is recorded. */
    method ApplyReply(id: string, target: Message, reply: Reply, now: int)
      modifies this
      ensures reply.Reply? && reply.status == "success" && reply.content != "" ==>
        messages == UpdateMessages(old(messages), id, Replacing(Regenerated(target, reply.content, now)))
        && cached == messages && error == old(error)
      ensures reply.Threw? ==> messages == old(messages) && error == Some(RegenerateError) && cached == old(cached)
      ensures reply.Reply? && !(reply.status == "success" && reply.content != "") ==>
        messages == old(messages) && error == old(error) && cached == old(cached)
      ensures currentRole == old(currentRole) && isLoading == old(isLoading)
    {
      match reply {
        case Reply(status, content) =>
          if status == "success" && content != "" {
            var updated := target.(content := content, timestamp := now, version := Some(VersionOrOne(target.version) + 1));
            UpdateMessage(id, Replacing(updated));
          }
        case Threw =>
          error := Some(RegenerateError);
      }
    }

    /** `clearMessages`: no messages, and the saved list is cleared. */
    method ClearMessages()
      modifies this
      ensures messages == [] && cached == []
      ensures currentRole == old(currentRole) && isLoading == old(isLoading) && error == old(error)
    {
      cached := [];
      messages := [];
    }

    /** `loadMessages`: the saved list becomes the message list. */
    method LoadMessages()
      modifies this
      ensures messages == old(cached) && cached == old(cached)
      ensures currentRole == old(currentRole) && isLoading == old(isLoading) && error == old(error)
    {
      messages := cached;
    }

    method SetLoading(loading: bool)
      modifies this
      ensures isLoading == loading
      ensures messages == old(messages) && currentRole == old(currentRole) && error == old(error) && cached == old(cached)
    {
      isLoading := loading;
    }

    method SetError(e: Option<string>)
      modifies this
      ensures error == e
      ensures messages == old(messages) && currentRole == old(currentRole) && isLoading == old(isLoading) && cached == old(cached)
    {
      error := e;
    }
  }

  /** A successful regeneration bumps the version: a message without one, or with version 0, counts as version 1. */
  lemma RegeneratedVersion(m: Message, content: string, now: int)
    ensures m.version.None? || m.version == Some(0) ==> Regenerated(m, content, now).version == Some(2)
    ensures m.version.Some? && m.version.value != 0 ==> Regenerated(m, content, now).version == Some(m.version.value + 1)
  {
  }

  /** Updating keeps every message whose id differs, and the length. */
  lemma UpdateKeepsOthers(messages: seq<Message>, id: string, u: MessageUpdate, i: nat)
    requires i < |messages| && messages[i].id != id
    ensures |UpdateMessages(messages, id, u)| == |messages| && UpdateMessages(messages, id, u)[i] == messages[i]
  {
  }
}
