/**
 * `SettingCollaborationService` of tale-weaver: which AI roles collaborate on each kind of
 * setting, the opening context message, merging the accepted suggestions of a session, listing
 * the open ones, and storing a finished setting. The `AI_ROLES` table (`@/config/ai`) is not part
 * of this model: its three roles are named by a datatype.
 */
module SettingCollaboration {
  import opened Wrappers
  import opened Strings
  import opened Seqs
  import opened ErrorHandler
  import opened Session

  /** The four setting kinds of `SettingType`, and any other string a caller may pass. */
  datatype SettingType = World | CharacterSetting | Plot | MagicSystem | OtherType(name: string)

  datatype AiRole = StoryBuilder | PlotAdvisor | DialogueMaster

  /** `getRolesForSettingType` */
  function RolesFor(t: SettingType): (roles: seq<AiRole>)
    ensures t.OtherType? <==> roles == [StoryBuilder]
    ensures !t.OtherType? ==> |roles| == 2 && roles[0] != roles[1]
    ensures StoryBuilder in roles
    ensures t == CharacterSetting <==> DialogueMaster in roles
  {
    match t
    case World => [StoryBuilder, PlotAdvisor]
    case CharacterSetting => [DialogueMaster, StoryBuilder]
    case Plot => [PlotAdvisor, StoryBuilder]
    case MagicSystem => [StoryBuilder, PlotAdvisor]
    case OtherType(_) => [StoryBuilder]
  }

  /** `getSettingTypeTitle`: the `titles` lookup, which is `undefined` for any other type. */
  function Title(t: SettingType): (r: Option<string>)
    ensures r.None? <==> t.OtherType?
  {
    match t
    case World => Some("世界观")
    case CharacterSetting => Some("角色")
    case Plot => Some("剧情")
    case MagicSystem => Some("魔法体系")
    case OtherType(_) => None
  }

  /** A template literal prints a missing title as `undefined`. */
  function TitleText(t: SettingType): string
  {
    match Title(t)
    case Some(s) => s
    case None => "undefined"
  }

  /** The session title of `startSettingSession`. */
  function SessionTitle(t: SettingType): (r: string)
    ensures HasPrefix(r, TitleText(t))
  {
    TitleText(t) + "设定会话"
  }

  datatype SettingContext = SettingContext(
    kind: SettingType, currentContent: string, existingSettings: Option<string>, requirements: Option<string>)

  /** An optional string is truthy: present and not empty. */
  predicate Truthy(s: Option<string>)
  {
    s.Some? && s.value != ""
  }

  function Header(t: SettingType): string
  {
    "正在创建" + TitleText(t) + "设定：\n\n"
  }

  const RequestSentence := "请提供专业的建议和完善方案。"

  /** One labelled section of the context message, or nothing when the text is falsy. */
  function Section(name: string, text: Option<string>): string
  {
    if Truthy(text) then name + "：\n" + text.value + "\n\n" else ""
  }

  /** The sections of the context message in their fixed order; each is empty when its text is falsy. */
  function Sections(context: SettingContext): seq<string>
  {
    [ Section("现有设定", context.existingSettings),
      Section("当前内容", Some(context.currentContent)),
      Section("特殊要求", context.requirements) ]
  }

  /** `generateContextMessage`: the header, then each non-empty section in turn, then the request. */
  method GenerateContextMessage(context: SettingContext) returns (message: string)
    ensures message == Header(context.kind) + Concat(Sections(context)) + RequestSentence
  {
    var sections := Sections(context);
    var s0, s1, s2 := sections[0], sections[1], sections[2];
    message := Header(context.kind);
    ghost var header := message;
    message := AddSection(message, Truthy(context.existingSettings), s0);
    message := AddSection(message, context.currentContent != "", s1);
    message := AddSection(message, Truthy(context.requirements), s2);
    Associate(header, s0, s1, s2);
    ConcatThree(s0, s1, s2);
    assert sections == [s0, s1, s2];
    message := message + RequestSentence;
  }

  /** One `if (...) message += ...` step: a section is appended when its text is truthy, and is empty otherwise. */
  method AddSection(message: string, present: bool, section: string) returns (r: string)
    requires !present ==> section == ""
    ensures r == message + section
  {
    r := message;
    if present {
      r := r + section;
    } else {
      AppendEmpty(message);
    }
  }

  lemma Associate(h: string, a: string, b: string, c: string)
    ensures h + a + b + c == h + (a + b + c)
  {
  }

  /** The strings of a list, one after the other. */
  function Concat(parts: seq<string>): (r: string)
    ensures |parts| == 0 ==> r == ""
  {
    if parts == [] then "" else parts[0] + Concat(parts[1..])
  }

  lemma ConcatThree(a: string, b: string, c: string)
    ensures Concat([a, b, c]) == a + b + c
  {
    assert [a, b, c][1..] == [b, c];
    assert [b, c][1..] == [c];
    assert [c][1..] == [];
    assert Concat([c]) == c + "" == c;
    assert Concat([b, c]) == b + c;
    assert Concat([a, b, c]) == a + (b + c);
  }

  /** A string built as header, middle and tail starts with the header and ends with the tail. */
  lemma FramedBy(message: string, header: string, middle: string, tail: string)
    requires message == header + middle + tail
    ensures HasPrefix(message, header)
    ensures |message| >= |tail| && message[|message| - |tail|..] == tail
  {
    assert message[..|header|] == header;
  }

  /**
   * The context message starts with the header and ends with the request sentence; with every
   * section empty it is those two alone.
   */
  lemma ContextMessageShape(context: SettingContext, message: string)
    requires message == Header(context.kind) + Concat(Sections(context)) + RequestSentence
    ensures HasPrefix(message, Header(context.kind))
    ensures |message| >= |RequestSentence| && message[|message| - |RequestSentence|..] == RequestSentence
    ensures !Truthy(context.existingSettings) && context.currentContent == "" && !Truthy(context.requirements)
      ==> message == Header(context.kind) + RequestSentence
  {
    FramedBy(message, Header(context.kind), Concat(Sections(context)), RequestSentence);
    var sections := Sections(context);
    ConcatThree(sections[0], sections[1], sections[2]);
    assert sections == [sections[0], sections[1], sections[2]];
  }

  /** A section is in the message exactly when its text is truthy, and then it holds the text. */
  lemma SectionPresent(name: string, text: Option<string>)
    ensures Truthy(text) ==> Contains(Section(name, text), text.value)
    ensures !Truthy(text) ==> Section(name, text) == ""
  {
    if Truthy(text) {
      var s := Section(name, text);
      var k := |name + "：\n"|;
      assert s == (name + "：\n") + text.value + "\n\n";
      assert s[k..k + |text.value|] == text.value;
      OccursImpliesContains(s, text.value, k);
    }
  }

  /** An accepted suggestion as `applyAcceptedSuggestions` collects it. */
  datatype Suggestion = Suggestion(content: string, roleId: string, timestamp: int)

  /** `msg.metadata?.suggestion && msg.metadata?.accepted` */
  predicate IsAccepted(m: Message)
  {
    m.metadata.Some? && m.metadata.value.suggestion == Some(true) && m.metadata.value.accepted == Some(true)
  }

  /** The accepted suggestions of one participant's messages, in order. */
  function AcceptedOf(messages: seq<Message>, roleId: string): (r: seq<Suggestion>)
    ensures |r| <= |messages|
  {
    if messages == [] then []
    else
      var m := messages[0];
      (if IsAccepted(m) then [Suggestion(m.content, roleId, m.timestamp)] else []) + AcceptedOf(messages[1..], roleId)
  }

  /** The accepted suggestions of all participants: the `flatMap`, before sorting. */
  function Accepted(participants: seq<Participant>): seq<Suggestion>
  {
    if participants == [] then []
    else AcceptedOf(participants[0].messages, participants[0].role.id) + Accepted(participants[1..])
  }

  /** A suggestion is collected exactly for an accepted suggestion message of that role. */
  lemma {:induction false} AcceptedOfMember(messages: seq<Message>, roleId: string, s: Suggestion)
    ensures s in AcceptedOf(messages, roleId)
      <==> (s.roleId == roleId
        && exists i :: 0 <= i < |messages| && IsAccepted(messages[i])
              && messages[i].content == s.content && messages[i].timestamp == s.timestamp)
    decreases |messages|
  {
    if messages != [] {
      AcceptedOfMember(messages[1..], roleId, s);
      if s in AcceptedOf(messages[1..], roleId) {
        var i :| 0 <= i < |messages[1..]| && IsAccepted(messages[1..][i])
          && messages[1..][i].content == s.content && messages[1..][i].timestamp == s.timestamp;
        assert messages[i + 1] == messages[1..][i];
      }
      forall i | 1 <= i < |messages| && IsAccepted(messages[i]) && messages[i].content == s.content
        && messages[i].timestamp == s.timestamp && s.roleId == roleId
        ensures s in AcceptedOf(messages[1..], roleId) {
        assert messages[1..][i - 1] == messages[i];
      }
    }
  }

  function ByTime(): Suggestion -> int
  {
    (s: Suggestion) => s.timestamp
  }

  /** The contents, each followed by a blank line: what the `+=` loop builds. */
  function Paragraphs(suggestions: seq<Suggestion>): string
  {
    if suggestions == [] then "" else Paragraphs(suggestions[..|suggestions| - 1]) + suggestions[|suggestions| - 1].content + "\n\n"
  }

  function Contents(suggestions: seq<Suggestion>): (r: seq<string>)
    ensures |r| == |suggestions| && forall i :: 0 <= i < |r| ==> r[i] == suggestions[i].content
  {
    seq(|suggestions|, i requires 0 <= i < |suggestions| => suggestions[i].content)
  }

  /** The accumulated paragraphs are the contents joined by blank lines, with one more blank line at the end. */
  lemma {:induction false} ParagraphsJoin(suggestions: seq<Suggestion>)
    requires suggestions != []
    ensures Paragraphs(suggestions) == Join(Contents(suggestions), "\n\n") + "\n\n"
    decreases |suggestions|
  {
    var init := suggestions[..|suggestions| - 1];
    var last := suggestions[|suggestions| - 1];
    assert Contents(suggestions) == Contents(init) + [last.content];
    if init != [] {
      ParagraphsJoin(init);
      JoinSnoc(Contents(init), last.content, "\n\n");
    } else {
      assert Contents(suggestions) == [last.content];
    }
  }

  /**
   * `applyAcceptedSuggestions`: the accepted suggestions sorted by timestamp (stably), each content
   * followed by a blank line, the whole trimmed.
   */
  method ApplyAcceptedSuggestions(session: CollaborationSession) returns (finalContent: string)
    ensures finalContent == JsTrim(Join(Contents(SortBy(Accepted(session.participants), ByTime())), "\n\n"))
  {
    var accepted := SortBy(Accepted(session.participants), ByTime());
    var content := "";
    var i := 0;
    while i < |accepted|
      invariant 0 <= i <= |accepted|
      invariant content == Paragraphs(accepted[..i])
    {
      assert accepted[..i + 1][..i] == accepted[..i];
      content := content + accepted[i].content + "\n\n";
      i := i + 1;
    }
    assert accepted[..i] == accepted;
    if accepted != [] {
      ParagraphsJoin(accepted);
      TrimSpaces(Join(Contents(accepted), "\n\n"), "\n\n", IsJsSpace);
    }
    finalContent := JsTrim(content);
  }

  /** The merged suggestions come in timestamp order and are exactly the accepted ones. */
  lemma AcceptedSorted(participants: seq<Participant>)
    ensures var sorted := SortBy(Accepted(participants), ByTime());
      && multiset(sorted) == multiset(Accepted(participants))
      && forall i, j :: 0 <= i < j < |sorted| ==> sorted[i].timestamp <= sorted[j].timestamp
  {
    SortByPermutation(Accepted(participants), ByTime());
    SortBySorted(Accepted(participants), ByTime());
  }

  /** `msg.metadata?.suggestion && !msg.metadata?.accepted && !msg.metadata?.rejected` */
  predicate IsOpen(m: Message)
  {
    && m.metadata.Some? && m.metadata.value.suggestion == Some(true)
    && m.metadata.value.accepted != Some(true) && m.metadata.value.rejected != Some(true)
  }

  /** The open suggestions with non-empty content (`.filter(Boolean)`), participant by participant. */
  function OpenSuggestions(participants: seq<Participant>): (r: seq<string>)
    ensures forall i :: 0 <= i < |r| ==> r[i] != ""
  {
    if participants == [] then [] else OpenOf(participants[0].messages) + OpenSuggestions(participants[1..])
  }

  function OpenOf(messages: seq<Message>): (r: seq<string>)
    ensures forall i :: 0 <= i < |r| ==> r[i] != ""
    ensures |r| <= |messages|
  {
    if messages == [] then []
    else
      var m := messages[0];
      (if IsOpen(m) && m.content != "" then [m.content] else []) + OpenOf(messages[1..])
  }

  /** An open list holds a content exactly when some open suggestion carries it. */
  lemma {:induction false} OpenOfMember(messages: seq<Message>, c: string)
    ensures c in OpenOf(messages) <==> c != "" && exists i :: 0 <= i < |messages| && IsOpen(messages[i]) && messages[i].content == c
    decreases |messages|
  {
    if messages != [] {
      OpenOfMember(messages[1..], c);
      if c in OpenOf(messages[1..]) {
        var i :| 0 <= i < |messages[1..]| && IsOpen(messages[1..][i]) && messages[1..][i].content == c;
        assert messages[i + 1] == messages[1..][i];
      }
      forall i | 1 <= i < |messages| && IsOpen(messages[i]) && messages[i].content == c
        ensures c == "" || c in OpenOf(messages[1..]) {
        assert messages[1..][i - 1] == messages[i];
      }
    }
  }

  /** Accepting a suggestion takes it out of the open list. */
  lemma AcceptedIsNotOpen(m: Message)
    requires IsAccepted(m)
    ensures !IsOpen(m)
  {
  }

  /** `getLatestSuggestions`: fails like `getSession` on an unknown session. */
  function GetLatestSuggestions(sessions: SessionService, sessionId: string): (r: Result<seq<string>, AppError>)
    reads sessions
    ensures r.Err? <==> sessionId !in sessions.sessions
    ensures r.Err? ==> r.error == SessionNotFound
    ensures r.Ok? ==> r.value == OpenSuggestions(sessions.sessions[sessionId].participants)
  {
    match sessions.GetSession(sessionId)
    case Err(e) => Err(e)
    case Ok(session) => Ok(OpenSuggestions(session.participants))
  }

  /** A row of the `settings` table. */
  datatype Setting = Setting(id: string, storyId: string, kind: string, content: string, updatedAt: int)

  const StoryNotFound := AppError("Story not found", UnknownErrorCode)

  /** The `stories` and `settings` tables `updateSetting` reads and writes. */
  class SettingStore {
    /** The ids of the rows of `stories`. */
    var stories: set<string>
    /** The `settings` table, by id. */
    var settings: map<string, Setting>

    constructor (stories: set<string>, settings: map<string, Setting>)
      ensures this.stories == stories && this.settings == settings
    {
      this.stories := stories;
      this.settings := settings;
    }

    /**
     * `updateSetting`: fails on an unknown story; a world or character setting is put under
     * `<storyId>-world` / `<storyId>-character`; the other types write nothing.
     */
    method UpdateSetting(storyId: string, settingType: SettingType, content: string, now: int)
      returns (r: Result<(), AppError>)
      modifies this
      ensures storyId !in old(stories) ==> r == Err(StoryNotFound) && settings == old(settings)
      ensures storyId in old(stories) ==> r.Ok?
      ensures stories == old(stories)
      ensures storyId in old(stories) && settingType == World ==>
        settings == old(settings)[storyId + "-world" := Setting(storyId + "-world", storyId, "world", content, now)]
      ensures storyId in old(stories) && settingType == CharacterSetting ==>
        settings == old(settings)[storyId + "-character" := Setting(storyId + "-character", storyId, "character", content, now)]
      ensures settingType != World && settingType != CharacterSetting ==> settings == old(settings)
    {
      if storyId !in stories {
        return Err(StoryNotFound);
      }
      match settingType {
        case World =>
          settings := settings[storyId + "-world" := Setting(storyId + "-world", storyId, "world", content, now)];
        case CharacterSetting =>
          settings := settings[storyId + "-character" := Setting(storyId + "-character", storyId, "character", content, now)];
        case _ =>
      }
      r := Ok(());
    }
  }
}
