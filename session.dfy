/**
 * `SessionService` of tale-weaver: collaboration sessions kept in the `sessions` table of the
 * database, which is modelled as a map from session id to session. Every operation runs inside
 * `withErrorHandling`, so a thrown `Error` reaches the caller as an `AppError` with the same
 * message. `crypto.randomUUID()` and `Date.now()` are parameters.
 */
module Session {
  import opened Wrappers
  import opened Seqs
  import opened ErrorHandler

  datatype Role = Role(id: string, name: string, description: string, systemPrompt: string)

  /** The optional flags of a message; an absent flag is falsy. */
  datatype Metadata = Metadata(suggestion: Option<bool>, accepted: Option<bool>, rejected: Option<bool>, kind: Option<string>)

  datatype Message = Message(id: string, role: string, content: string, timestamp: int, metadata: Option<Metadata>)

  datatype Participant = Participant(role: Role, messages: seq<Message>)

  datatype Status = Active | Archived

  datatype CollaborationSession = CollaborationSession(
    id: string, storyId: string, title: string, participants: seq<Participant>,
    status: Status, createdAt: int, updatedAt: int)

  const SessionNotFound := AppError("Session not found", UnknownErrorCode)
  const RoleNotFound := AppError("Role not found in session", UnknownErrorCode)

  /** `message.metadata?.suggestion` is truthy. */
  predicate IsSuggestion(m: Message)
  {
    m.metadata.Some? && m.metadata.value.suggestion == Some(true)
  }

  /** `participants.find(p => p.role.id === roleId)`, as an index; `|participants|` when there is none. */
  function FindParticipant(participants: seq<Participant>, roleId: string): (k: nat)
    ensures k <= |participants|
    ensures k < |participants| ==> participants[k].role.id == roleId
    ensures forall j :: 0 <= j < k ==> participants[j].role.id != roleId
  {
    if participants == [] then 0
    else if participants[0].role.id == roleId then 0
    else 1 + FindParticipant(participants[1..], roleId)
  }

  /** `messages.find(m => m.id === messageId)`, as an index; `|messages|` when there is none. */
  function FindMessage(messages: seq<Message>, messageId: string): (k: nat)
    ensures k <= |messages|
    ensures k < |messages| ==> messages[k].id == messageId
    ensures forall j :: 0 <= j < k ==> messages[j].id != messageId
  {
    if messages == [] then 0
    else if messages[0].id == messageId then 0
    else 1 + FindMessage(messages[1..], messageId)
  }

  /** Which flag a review sets: `accepted` or `rejected`. */
  datatype Verdict = Accept | Reject

  function SetFlag(m: Metadata, verdict: Verdict): Metadata
  {
    if verdict == Accept then m.(accepted := Some(true)) else m.(rejected := Some(true))
  }

  /** The participant's first message with that id is the one the review finds; it counts only if it is a suggestion. */
  predicate Hit(p: Participant, messageId: string)
  {
    var k := FindMessage(p.messages, messageId);
    k < |p.messages| && IsSuggestion(p.messages[k])
  }

  /** The participant with its found suggestion flagged. */
  function Flag(p: Participant, messageId: string, verdict: Verdict): (q: Participant)
    requires Hit(p, messageId)
    ensures q.role == p.role && |q.messages| == |p.messages|
  {
    var k := FindMessage(p.messages, messageId);
    var m := p.messages[k];
    p.(messages := p.messages[k := m.(metadata := Some(SetFlag(m.metadata.value, verdict)))])
  }

  /**
   * The participants after `acceptSuggestion` / `rejectSuggestion`: in the first participant whose
   * found message is a suggestion, that message gets the flag; the search then stops.
   */
  function Review(participants: seq<Participant>, messageId: string, verdict: Verdict): (r: seq<Participant>)
    ensures |r| == |participants|
  {
    if participants == [] then []
    else if Hit(participants[0], messageId) then [Flag(participants[0], messageId, verdict)] + participants[1..]
    else [participants[0]] + Review(participants[1..], messageId, verdict)
  }

  /** Participant `i` is the first one whose found message is a suggestion. */
  predicate FirstHit(participants: seq<Participant>, messageId: string, i: nat)
    requires i < |participants|
  {
    Hit(participants[i], messageId) && forall j :: 0 <= j < i ==> !Hit(participants[j], messageId)
  }

  /**
   * A review changes at most one participant: the first one whose found message is a suggestion,
   * and in it only that message; every role is kept.
   */
  lemma {:induction false} ReviewChangesOne(participants: seq<Participant>, messageId: string, verdict: Verdict, i: nat)
    requires i < |participants|
    ensures FirstHit(participants, messageId, i)
      ==> Review(participants, messageId, verdict)[i] == Flag(participants[i], messageId, verdict)
    ensures !FirstHit(participants, messageId, i) ==> Review(participants, messageId, verdict)[i] == participants[i]
    decreases i
  {
    var rest := participants[1..];
    if Hit(participants[0], messageId) {
      if i > 0 {
        assert !FirstHit(participants, messageId, i);
        assert Review(participants, messageId, verdict)[i] == rest[i - 1];
      }
    } else if i > 0 {
      ReviewChangesOne(rest, messageId, verdict, i - 1);
      assert Review(participants, messageId, verdict)[i] == Review(rest, messageId, verdict)[i - 1];
      assert rest[i - 1] == participants[i];
      FirstHitShift(participants, messageId, i);
    }
  }

  /** Past a participant without a hit, the first hit is the first hit of the rest. */
  lemma FirstHitShift(participants: seq<Participant>, messageId: string, i: nat)
    requires 0 < i < |participants| && !Hit(participants[0], messageId)
    ensures FirstHit(participants, messageId, i) <==> FirstHit(participants[1..], messageId, i - 1)
  {
    var rest := participants[1..];
    assert forall j :: 0 <= j < i - 1 ==> rest[j] == participants[j + 1];
    assert rest[i - 1] == participants[i];
    if FirstHit(rest, messageId, i - 1) {
      forall j | 0 <= j < i ensures !Hit(participants[j], messageId) {
        if j > 0 {
          assert participants[j] == rest[j - 1];
        }
      }
    }
  }

  /** Flagging changes only the found message, and in it only the flag. */
  lemma FlagOnly(p: Participant, messageId: string, verdict: Verdict, j: nat)
    requires Hit(p, messageId) && j < |p.messages|
    ensures var k := FindMessage(p.messages, messageId);
      && (j != k ==> Flag(p, messageId, verdict).messages[j] == p.messages[j])
      && (j == k ==> Flag(p, messageId, verdict).messages[j].(metadata := p.messages[j].metadata) == p.messages[j])
      && (j == k && verdict == Accept ==> Flag(p, messageId, verdict).messages[j].metadata.value.accepted == Some(true))
      && (j == k && verdict == Reject ==> Flag(p, messageId, verdict).messages[j].metadata.value.rejected == Some(true))
  {
  }

  /** A review for an id that no participant holds as a suggestion changes nothing. */
  lemma {:induction false} ReviewMiss(participants: seq<Participant>, messageId: string, verdict: Verdict)
    requires forall j :: 0 <= j < |participants| ==> !Hit(participants[j], messageId)
    ensures Review(participants, messageId, verdict) == participants
    decreases |participants|
  {
    if participants != [] {
      ReviewMiss(participants[1..], messageId, verdict);
    }
  }

  /** Every message of the session, participant by participant: `participants.flatMap(p => p.messages)`. */
  function AllMessages(participants: seq<Participant>): (r: seq<Message>)
  {
    if participants == [] then [] else participants[0].messages + AllMessages(participants[1..])
  }

  function ByTimestamp(): Message -> int
  {
    (m: Message) => m.timestamp
  }

  /**
   * `allMessages.slice(-limit)`: for a positive limit the last `limit` messages (all when fewer);
   * `slice(-0)` is `slice(0)`, so a zero limit gives every message; a negative limit drops that many
   * from the front.
   */
  function SliceFromEnd<T>(s: seq<T>, limit: int): (r: seq<T>)
    ensures |r| <= |s| && r == s[|s| - |r|..]
    ensures limit > 0 ==> |r| == if limit < |s| then limit else |s|
    ensures limit == 0 ==> r == s
    ensures limit < 0 ==> |r| == if -limit < |s| then |s| + limit else 0
  {
    if limit > 0 then (if limit < |s| then s[|s| - limit..] else s)
    else if -limit < |s| then s[-limit..]
    else []
  }

  /**
   * What `getRecentMessages` promises of `r`: the slice from the end of `all` sorted by timestamp,
   * the last min(limit, |all|) of them for a positive limit and all of them for 0, in time order,
   * and no message left out is later than one kept.
   */
  ghost predicate RecentOf(all: seq<Message>, limit: int, r: seq<Message>)
  {
    && (limit > 0 ==> |r| == if limit < |all| then limit else |all|)
    && (limit == 0 ==> multiset(r) == multiset(all))
    && multiset(r) <= multiset(all)
    && (forall i, j :: 0 <= i < j < |r| ==> r[i].timestamp <= r[j].timestamp)
    && |r| <= |all| && r == SortBy(all, ByTimestamp())[|all| - |r|..]
    && (forall m, j :: m in multiset(all) - multiset(r) && 0 <= j < |r| ==> m.timestamp <= r[j].timestamp)
  }

  /** `getRecentMessages`: the last `limit` messages of the session by timestamp. */
  function GetRecentMessages(session: CollaborationSession, limit: int): (r: seq<Message>)
    ensures RecentOf(AllMessages(session.participants), limit, r)
  {
    var all := AllMessages(session.participants);
    RecentShape(all, limit);
    SliceFromEnd(SortBy(all, ByTimestamp()), limit)
  }

  /** The last `limit` of the messages sorted by time are the recent messages. */
  lemma RecentShape(all: seq<Message>, limit: int)
    ensures RecentOf(all, limit, SliceFromEnd(SortBy(all, ByTimestamp()), limit))
  {
    var sorted := SortBy(all, ByTimestamp());
    SortByPermutation(all, ByTimestamp());
    SortBySorted(all, ByTimestamp());
    SuffixSorted(sorted, limit, ByTimestamp());
    var r := SliceFromEnd(sorted, limit);
    forall i, j | 0 <= i < j < |r| ensures r[i].timestamp <= r[j].timestamp {
      assert ByTimestamp()(r[i]) <= ByTimestamp()(r[j]);
    }
    RecentAreLatest(all, limit);
  }

  /** The recent messages are the latest: every message left out is no later than any message kept. */
  lemma RecentAreLatest(all: seq<Message>, limit: int)
    ensures var r := SliceFromEnd(SortBy(all, ByTimestamp()), limit);
      forall m, j :: m in multiset(all) - multiset(r) && 0 <= j < |r| ==> m.timestamp <= r[j].timestamp
  {
    var sorted := SortBy(all, ByTimestamp());
    SortByPermutation(all, ByTimestamp());
    SortBySorted(all, ByTimestamp());
    var r := SliceFromEnd(sorted, limit);
    LeftOutNotLater(sorted, r, ByTimestamp());
    forall m, j | m in multiset(all) - multiset(r) && 0 <= j < |r| ensures m.timestamp <= r[j].timestamp {
      assert ByTimestamp()(m) <= ByTimestamp()(r[j]);
    }
  }

  /** In a sorted sequence, whatever a suffix leaves out has a key no larger than any key in the suffix. */
  lemma LeftOutNotLater<T>(sorted: seq<T>, r: seq<T>, key: T -> int)
    requires SortedBy(sorted, key) && |r| <= |sorted| && r == sorted[|sorted| - |r|..]
    ensures forall m, j :: m in multiset(sorted) - multiset(r) && 0 <= j < |r| ==> key(m) <= key(r[j])
  {
    var from := |sorted| - |r|;
    var older := sorted[..from];
    assert sorted == older + r;
    forall m, j | m in multiset(sorted) - multiset(r) && 0 <= j < |r| ensures key(m) <= key(r[j]) {
      LeftOutIsOlder(older, r, m);
      var i :| 0 <= i < |older| && older[i] == m;
      assert sorted[i] == m && sorted[from + j] == r[j];
    }
  }

  /** What is left of `older + r` once `r` is taken away comes from `older`. */
  lemma LeftOutIsOlder<T>(older: seq<T>, r: seq<T>, m: T)
    requires m in multiset(older + r) - multiset(r)
    ensures m in older
  {
    assert multiset(older + r) == multiset(older) + multiset(r);
  }

  /** A slice from the end of a sorted sequence is sorted and holds some of its elements. */
  lemma SuffixSorted<T>(s: seq<T>, limit: int, key: T -> int)
    requires SortedBy(s, key)
    ensures SortedBy(SliceFromEnd(s, limit), key)
    ensures multiset(SliceFromEnd(s, limit)) <= multiset(s)
  {
    var r := SliceFromEnd(s, limit);
    var from := |s| - |r|;
    assert s == s[..from] + r;
    assert multiset(s) == multiset(s[..from]) + multiset(r);
  }

  /** A new session: one participant per role, in order, without messages, active. */
  function NewSession(id: string, storyId: string, title: string, roles: seq<Role>, now: int): (s: CollaborationSession)
    ensures s.id == id && s.storyId == storyId && s.title == title
    ensures |s.participants| == |roles|
    ensures forall i :: 0 <= i < |roles| ==> s.participants[i] == Participant(roles[i], [])
    ensures s.status == Active && s.createdAt == now && s.updatedAt == now
    ensures AllMessages(s.participants) == []
  {
    var ps := seq(|roles|, i requires 0 <= i < |roles| => Participant(roles[i], []));
    NoMessages(ps);
    CollaborationSession(id, storyId, title, ps, Active, now, now)
  }

  lemma {:induction false} NoMessages(ps: seq<Participant>)
    requires forall i :: 0 <= i < |ps| ==> ps[i].messages == []
    ensures AllMessages(ps) == []
    decreases |ps|
  {
    if ps != [] {
      NoMessages(ps[1..]);
    }
  }

  /**
   * The loop of `acceptSuggestion` / `rejectSuggestion`: participant by participant, find the
   * message; flag it and `break` if it is a suggestion.
   */
  method ReviewParticipants(participants: seq<Participant>, messageId: string, verdict: Verdict)
    returns (ps: seq<Participant>)
    ensures ps == Review(participants, messageId, verdict)
  {
    ps := participants;
    var i := 0;
    while i < |participants|
      invariant 0 <= i <= |participants|
      invariant forall j :: 0 <= j < i ==> !Hit(participants[j], messageId)
    {
      if Hit(participants[i], messageId) {
        ps := participants[i := Flag(participants[i], messageId, verdict)];
        ReviewAt(participants, messageId, verdict, i);
        return;
      }
      i := i + 1;
    }
    ReviewMiss(participants, messageId, verdict);
  }

  /** The review flags the first participant that has a hit, and no other. */
  lemma {:induction false} ReviewAt(participants: seq<Participant>, messageId: string, verdict: Verdict, i: nat)
    requires i < |participants| && Hit(participants[i], messageId)
    requires forall j :: 0 <= j < i ==> !Hit(participants[j], messageId)
    ensures Review(participants, messageId, verdict) == participants[i := Flag(participants[i], messageId, verdict)]
    decreases i
  {
    if i > 0 {
      assert !Hit(participants[0], messageId);
      ReviewAt(participants[1..], messageId, verdict, i - 1);
      assert participants[1..][i - 1 := Flag(participants[i], messageId, verdict)]
        == participants[i := Flag(participants[i], messageId, verdict)][1..];
    }
  }

  class SessionService {
    /** The `sessions` table, by session id. */
    var sessions: map<string, CollaborationSession>

    constructor (sessions: map<string, CollaborationSession>)
      ensures this.sessions == sessions
    {
      this.sessions := sessions;
    }

    /**
     * `createSession`: stores and returns a new session. `id` stands for `crypto.randomUUID()`,
     * which does not repeat, and `now` for `Date.now()`.
     */
    method CreateSession(id: string, storyId: string, title: string, roles: seq<Role>, now: int)
      returns (session: CollaborationSession)
      requires id !in sessions
      modifies this
      ensures session == NewSession(id, storyId, title, roles, now)
      ensures sessions == old(sessions)[id := session]
    {
      session := NewSession(id, storyId, title, roles, now);
      sessions := sessions[id := session];
    }

    /**
     * `addMessage`: fails when the session or a participant with that role is missing, changing
     * nothing; otherwise appends the message to that participant only and refreshes `updatedAt`.
     */
    method AddMessage(sessionId: string, content: string, roleId: string, metadata: Option<Metadata>,
                      messageId: string, timestamp: int, now: int)
      returns (r: Result<Message, AppError>)
      modifies this
      ensures sessionId !in old(sessions) ==> r == Err(SessionNotFound) && sessions == old(sessions)
      ensures sessionId in old(sessions) && FindParticipant(old(sessions)[sessionId].participants, roleId) == |old(sessions)[sessionId].participants|
        ==> r == Err(RoleNotFound) && sessions == old(sessions)
      ensures sessionId in old(sessions) && FindParticipant(old(sessions)[sessionId].participants, roleId) < |old(sessions)[sessionId].participants|
        ==> r.Ok?
      ensures r.Ok? ==> r.value == Message(messageId, roleId, content, timestamp, metadata)
      ensures r.Ok? ==>
        var s := old(sessions)[sessionId];
        var k := FindParticipant(s.participants, roleId);
        && sessionId in old(sessions) && k < |s.participants|
        && sessions == old(sessions)[sessionId := s.(
             participants := s.participants[k := s.participants[k].(messages := s.participants[k].messages + [r.value])],
             updatedAt := now)]
    {
      var message := Message(messageId, roleId, content, timestamp, metadata);
      if sessionId !in sessions {
        return Err(SessionNotFound);
      }
      var session := sessions[sessionId];
      var k := FindParticipant(session.participants, roleId);
      if k == |session.participants| {
        return Err(RoleNotFound);
      }
      var participant := session.participants[k];
      participant := participant.(messages := participant.messages + [message]);
      session := session.(participants := session.participants[k := participant]);
      session := session.(updatedAt := now);
      sessions := sessions[sessionId := session];
      r := Ok(message);
    }

    /** `acceptSuggestion` and `rejectSuggestion`: the loop over the participants with its `break`. */
    method ReviewSuggestion(sessionId: string, messageId: string, verdict: Verdict) returns (r: Result<(), AppError>)
      modifies this
      ensures sessionId !in old(sessions) ==> r == Err(SessionNotFound) && sessions == old(sessions)
      ensures sessionId in old(sessions) ==> (r.Ok? &&
        var s := old(sessions)[sessionId];
        sessions == old(sessions)[sessionId := s.(participants := Review(s.participants, messageId, verdict))])
    {
      if sessionId !in sessions {
        return Err(SessionNotFound);
      }
      var session := sessions[sessionId];
      var ps := ReviewParticipants(session.participants, messageId, verdict);
      sessions := sessions[sessionId := session.(participants := ps)];
      r := Ok(());
    }

    method AcceptSuggestion(sessionId: string, messageId: string) returns (r: Result<(), AppError>)
      modifies this
      ensures sessionId !in old(sessions) ==> r == Err(SessionNotFound) && sessions == old(sessions)
      ensures sessionId in old(sessions) ==> (r.Ok? &&
        var s := old(sessions)[sessionId];
        sessions == old(sessions)[sessionId := s.(participants := Review(s.participants, messageId, Accept))])
    {
      r := ReviewSuggestion(sessionId, messageId, Accept);
    }

    method RejectSuggestion(sessionId: string, messageId: string) returns (r: Result<(), AppError>)
      modifies this
      ensures sessionId !in old(sessions) ==> r == Err(SessionNotFound) && sessions == old(sessions)
      ensures sessionId in old(sessions) ==> (r.Ok? &&
        var s := old(sessions)[sessionId];
        sessions == old(sessions)[sessionId := s.(participants := Review(s.participants, messageId, Reject))])
    {
      r := ReviewSuggestion(sessionId, messageId, Reject);
    }

    /** `getSession` */
    function GetSession(sessionId: string): (r: Result<CollaborationSession, AppError>)
      reads this
      ensures r.Ok? <==> sessionId in sessions
      ensures r.Ok? ==> r.value == sessions[sessionId]
      ensures r.Err? ==> r.error == SessionNotFound
    {
      if sessionId in sessions then Ok(sessions[sessionId]) else Err(SessionNotFound)
    }

    /** `listSessions`: the sessions of a story (the database's order is not modelled). */
    function ListSessions(storyId: string): (r: set<CollaborationSession>)
      reads this
      ensures forall s :: s in r <==> s in sessions.Values && s.storyId == storyId
    {
      set s | s in sessions.Values && s.storyId == storyId
    }

    /** `updateSessionStatus`: only `status` and `updatedAt` change. */
    method UpdateSessionStatus(sessionId: string, status: Status, now: int) returns (r: Result<(), AppError>)
      modifies this
      ensures sessionId !in old(sessions) ==> r == Err(SessionNotFound) && sessions == old(sessions)
      ensures sessionId in old(sessions) ==> (r.Ok? &&
        sessions == old(sessions)[sessionId := old(sessions)[sessionId].(status := status, updatedAt := now)])
    {
      if sessionId !in sessions {
        return Err(SessionNotFound);
      }
      var session := sessions[sessionId];
      sessions := sessions[sessionId := session.(status := status, updatedAt := now)];
      r := Ok(());
    }
  }
}
