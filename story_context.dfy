/**
 * `storyReducer` of tale-weaver's story context: the selected role, the chat messages and the
 * loading flag. Two actions also touch `localStorage` under `tale-weaver-messages`; the reducer
 * returns that write as an effect next to the new state.
 */
module StoryContext {
  import opened Wrappers
  import opened Session

  datatype Speaker = Assistant | User

  datatype ChatMessage = ChatMessage(role: Speaker, content: string, timestamp: int)

  datatype StoryState = StoryState(selectedRole: Option<Role>, messages: seq<ChatMessage>, isLoading: bool)

  /** The five actions, and any other `type` string, which the reducer ignores. */
  datatype StoryAction =
    | SetRole(role: Option<Role>)
    | AddMessage(message: ChatMessage)
    | SetLoading(loading: bool)
    | LoadMessages(loaded: seq<ChatMessage>)
    | ClearMessages
    | OtherAction(kind: string)

  /** What the reducer does to `localStorage["tale-weaver-messages"]`. */
  datatype StorageEffect = KeepStorage | SaveMessages(saved: seq<ChatMessage>) | RemoveMessages

  datatype Step = Step(state: StoryState, effect: StorageEffect)

  const InitialState := StoryState(None, [], false)

  function Reduce(state: StoryState, action: StoryAction): (r: Step)
    ensures action.SetRole? ==> r.state == state.(selectedRole := action.role) && r.effect == KeepStorage
    ensures action.AddMessage? ==>
      && r.state.messages == state.messages + [action.message]
      && r.state.selectedRole == state.selectedRole && r.state.isLoading == state.isLoading
      && r.effect == SaveMessages(r.state.messages)
    ensures action.SetLoading? ==> r.state == state.(isLoading := action.loading) && r.effect == KeepStorage
    ensures action.LoadMessages? ==> r.state == state.(messages := action.loaded) && r.effect == KeepStorage
    ensures action.ClearMessages? ==> r.state == state.(messages := []) && r.effect == RemoveMessages
    ensures action.OtherAction? ==> r == Step(state, KeepStorage)
  {
    match action
    case SetRole(role) => Step(state.(selectedRole := role), KeepStorage)
    case AddMessage(message) =>
      var newMessages := state.messages + [message];
      Step(state.(messages := newMessages), SaveMessages(newMessages))
    case SetLoading(loading) => Step(state.(isLoading := loading), KeepStorage)
    case LoadMessages(loaded) => Step(state.(messages := loaded), KeepStorage)
    case ClearMessages => Step(state.(messages := []), RemoveMessages)
    case OtherAction(_) => Step(state, KeepStorage)
  }

  /** `localStorage["tale-weaver-messages"]` after an effect. */
  function ApplyEffect(stored: Option<seq<ChatMessage>>, effect: StorageEffect): Option<seq<ChatMessage>>
  {
    match effect
    case KeepStorage => stored
    case SaveMessages(saved) => Some(saved)
    case RemoveMessages => None
  }

  /** The stored history is the state's: saved as it is, or absent while there are no messages. */
  predicate Synced(stored: Option<seq<ChatMessage>>, state: StoryState)
  {
    stored == Some(state.messages) || (stored.None? && state.messages == [])
  }

  /** Dispatching a list of actions in order; with the storage they leave behind. */
  function Run(state: StoryState, stored: Option<seq<ChatMessage>>, actions: seq<StoryAction>): (StoryState, Option<seq<ChatMessage>>)
    decreases |actions|
  {
    if actions == [] then (state, stored)
    else
      var step := Reduce(state, actions[0]);
      Run(step.state, ApplyEffect(stored, step.effect), actions[1..])
  }

  /** Loading replaces the messages, so only a load of something else can put the state out of step with storage. */
  predicate KeepsSync(state: StoryState, action: StoryAction)
  {
    action.LoadMessages? ==> action.loaded == state.messages
  }

  /** Every action but a foreign load keeps the stored history and the state in step. */
  lemma ReduceKeepsSync(state: StoryState, stored: Option<seq<ChatMessage>>, action: StoryAction)
    requires Synced(stored, state) && KeepsSync(state, action)
    ensures Synced(ApplyEffect(stored, Reduce(state, action).effect), Reduce(state, action).state)
  {
  }

  /** The provider starts from the initial state, loads the stored history once, and stays in step from then on. */
  lemma {:induction false} RunKeepsSync(state: StoryState, stored: Option<seq<ChatMessage>>, actions: seq<StoryAction>)
    requires Synced(stored, state)
    requires forall i :: 0 <= i < |actions| ==> !actions[i].LoadMessages?
    ensures Synced(Run(state, stored, actions).1, Run(state, stored, actions).0)
    decreases |actions|
  {
    if actions != [] {
      var step := Reduce(state, actions[0]);
      ReduceKeepsSync(state, stored, actions[0]);
      RunKeepsSync(step.state, ApplyEffect(stored, step.effect), actions[1..]);
    }
  }

  /** Loading the stored history into the initial state puts the two in step. */
  lemma StartupSynced(saved: seq<ChatMessage>)
    ensures Synced(Some(saved), Reduce(InitialState, LoadMessages(saved)).state)
    ensures Synced(None, InitialState)
  {
  }

  function Added(actions: seq<StoryAction>): seq<ChatMessage>
    requires forall i :: 0 <= i < |actions| ==> actions[i].AddMessage?
  {
    if actions == [] then [] else [actions[0].message] + Added(actions[1..])
  }

  /** A run of `ADD_MESSAGE`s appends their payloads in dispatch order and changes nothing else. */
  lemma {:induction false} AddsAppend(state: StoryState, stored: Option<seq<ChatMessage>>, actions: seq<StoryAction>)
    requires forall i :: 0 <= i < |actions| ==> actions[i].AddMessage?
    ensures Run(state, stored, actions).0 == state.(messages := state.messages + Added(actions))
    decreases |actions|
  {
    if actions != [] {
      var step := Reduce(state, actions[0]);
      AddsAppend(step.state, ApplyEffect(stored, step.effect), actions[1..]);
      assert state.messages + [actions[0].message] + Added(actions[1..]) == state.messages + Added(actions);
    }
  }
}
