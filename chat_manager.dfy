/**
 * The `ChatManager` of the web app: the message history, the context handed to the AI (the last
 * five messages), and turning the product manager's suggestions into activated roles by keyword.
 * The `chat:newMessage` events it emits are kept as a log.
 */
module ChatManager {
  import opened Wrappers
  import opened Strings
  import opened Seqs
  import opened RoleManager

  datatype MessageKind = Decision | Suggestion | OtherMessageKind(name: string)

  datatype RoleMessage = RoleMessage(id: string, roleId: string, content: string, timestamp: int, kind: MessageKind)

  /** The keyword table of `mapSuggestionToRole`, in its declaration order. */
  const Mappings: seq<(string, seq<string>)> := [
    ("world_builder", ["世界观", "设定", "背景"]),
    ("character_designer", ["人物", "角色", "性格"]),
    ("plot_designer", ["情节", "剧情", "故事"]),
    ("battle_designer", ["战斗", "功法", "修炼"]),
    ("quality_controller", ["质量", "逻辑", "一致性"])
  ]

  const ContextSize := 5

  /** `keywords.some(keyword => suggestion.includes(keyword))` */
  predicate AnyKeyword(suggestion: string, keywords: seq<string>)
  {
    exists i :: 0 <= i < |keywords| && Contains(suggestion, keywords[i])
  }

  /** The role of the first table row with a keyword in the suggestion, in table order. */
  function RoleFor(table: seq<(string, seq<string>)>, suggestion: string): (r: Option<string>)
    ensures r.None? <==> forall i :: 0 <= i < |table| ==> !AnyKeyword(suggestion, table[i].1)
  {
    if table == [] then None
    else if AnyKeyword(suggestion, table[0].1) then Some(table[0].0)
    else
      var rest := RoleFor(table[1..], suggestion);
      assert rest.None? ==> forall i :: 0 <= i < |table| ==> !AnyKeyword(suggestion, table[i].1) by {
        if rest.None? {
          forall i | 1 <= i < |table| ensures !AnyKeyword(suggestion, table[i].1) {
            assert table[i] == table[1..][i - 1];
          }
        }
      }
      rest
  }

  /** `RoleFor` answers the role of a matching row with no matching row before it. */
  lemma {:induction false} RoleForFirst(table: seq<(string, seq<string>)>, suggestion: string, k: nat)
    requires k < |table| && AnyKeyword(suggestion, table[k].1)
    requires forall i :: 0 <= i < k ==> !AnyKeyword(suggestion, table[i].1)
    ensures RoleFor(table, suggestion) == Some(table[k].0)
    decreases k
  {
    if k > 0 {
      RoleForFirst(table[1..], suggestion, k - 1);
    }
  }

  /** The `some` of one row, as a loop over its keywords. */
  method HasKeyword(suggestion: string, keywords: seq<string>) returns (found: bool)
    ensures found <==> AnyKeyword(suggestion, keywords)
  {
    var j := 0;
    while j < |keywords|
      invariant 0 <= j <= |keywords|
      invariant forall i :: 0 <= i < j ==> !Contains(suggestion, keywords[i])
    {
      if Contains(suggestion, keywords[j]) {
        return true;
      }
      j := j + 1;
    }
    return false;
  }

  /** `mapSuggestionToRole`: the loop over the table that returns at the first row with a keyword in the suggestion. */
  method MapSuggestionToRole(suggestion: string) returns (roleId: Option<string>)
    ensures roleId == RoleFor(Mappings, suggestion)
  {
    var k := 0;
    while k < |Mappings|
      invariant 0 <= k <= |Mappings|
      invariant forall i :: 0 <= i < k ==> !AnyKeyword(suggestion, Mappings[i].1)
    {
      var found := HasKeyword(suggestion, Mappings[k].1);
      if found {
        RoleForFirst(Mappings, suggestion, k);
        return Some(Mappings[k].0);
      }
      k := k + 1;
    }
    return None;
  }

  /** `[roleId]: content` */
  function ContextLine(m: RoleMessage): string
  {
    "[" + m.roleId + "]: " + m.content
  }

  /** `messages.slice(-5)`: the last five messages, or all when there are fewer. */
  function LastFive(messages: seq<RoleMessage>): (r: seq<RoleMessage>)
    ensures |r| == if |messages| < ContextSize then |messages| else ContextSize
    ensures r == messages[|messages| - |r|..]
  {
    if |messages| < ContextSize then messages else messages[|messages| - ContextSize..]
  }

  function ContextLines(messages: seq<RoleMessage>): (r: seq<string>)
    ensures |r| == |messages| && forall i :: 0 <= i < |r| ==> r[i] == ContextLine(messages[i])
  {
    seq(|messages|, i requires 0 <= i < |messages| => ContextLine(messages[i]))
  }

  /** The role ids in a list of mapped suggestions, with the `null`s dropped. */
  function Present(mapped: seq<Option<string>>): (r: seq<string>)
    ensures forall x :: x in r <==> Some(x) in mapped
  {
    if mapped == [] then []
    else (if mapped[0].Some? then [mapped[0].value] else []) + Present(mapped[1..])
  }

  function MapAll(suggestions: seq<string>): (r: seq<Option<string>>)
    ensures |r| == |suggestions| && forall i :: 0 <= i < |r| ==> r[i] == RoleFor(Mappings, suggestions[i])
  {
    seq(|suggestions|, i requires 0 <= i < |suggestions| => RoleFor(Mappings, suggestions[i]))
  }

  /** The active ids after activating each id in turn: registered ids are added as `Set.add` does. */
  function ActivateAll(active: seq<string>, roles: map<string, Role>, ids: seq<string>): seq<string>
    decreases |ids|
  {
    if ids == [] then active
    else ActivateAll(if ids[0] in roles then AddToSet(active, ids[0]) else active, roles, ids[1..])
  }

  /** After activating, an id is active exactly when it was, or it is registered and was asked for. */
  lemma {:induction false} ActivateAllMember(active: seq<string>, roles: map<string, Role>, ids: seq<string>, x: string)
    ensures x in ActivateAll(active, roles, ids) <==> x in active || (x in ids && x in roles)
    decreases |ids|
  {
    if ids != [] {
      var next := if ids[0] in roles then AddToSet(active, ids[0]) else active;
      ActivateAllMember(next, roles, ids[1..], x);
      assert ids == [ids[0]] + ids[1..];
    }
  }

  /** A role that suggestions newly activate is registered and is one of the table's role ids. */
  lemma ActivatesMapped(active: seq<string>, roles: map<string, Role>, suggestions: seq<string>, x: string)
    requires x in ActivateAll(active, roles, Present(MapAll(suggestions)))
    requires x !in active
    ensures x in roles && exists i :: 0 <= i < |Mappings| && Mappings[i].0 == x
  {
    var mapped := MapAll(suggestions);
    ActivateAllMember(active, roles, Present(mapped), x);
    var k :| 0 <= k < |mapped| && mapped[k] == Some(x);
    RoleForIn(Mappings, suggestions[k]);
  }

  /** With only the default roles registered, suggestions can activate nothing but the world builder. */
  lemma OnlyWorldBuilderActivates(active: seq<string>, suggestions: seq<string>, x: string)
    requires x in ActivateAll(active, DefaultRoles(), Present(MapAll(suggestions)))
    requires x !in active
    ensures x == "world_builder"
  {
    ActivatesMapped(active, DefaultRoles(), suggestions, x);
    var i :| 0 <= i < |Mappings| && Mappings[i].0 == x;
    NotProductManager(i);
  }

  /** The table never maps a suggestion to the product manager. */
  lemma NotProductManager(i: nat)
    requires i < |Mappings|
    ensures Mappings[i].0 != "product_manager"
  {
    var id := Mappings[i].0;
    assert id[1] != 'r' by {
      assert [Mappings[0].0[1], Mappings[1].0[1], Mappings[2].0[1], Mappings[3].0[1], Mappings[4].0[1]]
        == ['o', 'h', 'l', 'a', 'u'];
    }
  }

  /** What `RoleFor` answers is one of the table's role ids. */
  lemma {:induction false} RoleForIn(table: seq<(string, seq<string>)>, suggestion: string)
    ensures RoleFor(table, suggestion).Some? ==> exists i :: 0 <= i < |table| && table[i].0 == RoleFor(table, suggestion).value
    decreases |table|
  {
    if table != [] && !AnyKeyword(suggestion, table[0].1) {
      RoleForIn(table[1..], suggestion);
      if RoleFor(table[1..], suggestion).Some? {
        var i :| 0 <= i < |table[1..]| && table[1..][i].0 == RoleFor(table[1..], suggestion).value;
        assert table[i + 1] == table[1..][i];
      }
    }
  }

  class ChatManager {
    var messages: seq<RoleMessage>
    /** The messages emitted as `chat:newMessage`, in order. */
    var emitted: seq<RoleMessage>
    const roleManager: RoleManager

    constructor (roleManager: RoleManager)
      ensures this.roleManager == roleManager && messages == [] && emitted == []
    {
      this.roleManager := roleManager;
      messages := [];
      emitted := [];
    }

    /** `getContextMessages`: the last five messages as `[roleId]: content` lines. */
    function GetContextMessages(): (r: seq<string>)
      reads this
      ensures |r| <= ContextSize && |r| <= |messages|
      ensures |messages| >= ContextSize ==> |r| == ContextSize
      ensures forall i :: 0 <= i < |r| ==> r[i] == ContextLine(messages[|messages| - |r| + i])
    {
      var last := LastFive(messages);
      var r := ContextLines(last);
      assert forall i :: 0 <= i < |r| ==> last[i] == messages[|messages| - |r| + i];
      r
    }

    /** `addMessage`: appended to the history and emitted. */
    method AddMessage(message: RoleMessage)
      modifies this
      ensures messages == old(messages) + [message]
      ensures emitted == old(emitted) + [message]
    {
      messages := messages + [message];
      emitted := emitted + [message];
    }

    /** `activateRelevantRoles`: each suggestion mapped to a role id, the `null`s dropped, each id activated in turn. */
    method ActivateRelevantRoles(suggestions: seq<string>)
      requires roleManager.Valid()
      modifies roleManager
      ensures roleManager.Valid() && roleManager.roles == old(roleManager.roles)
      ensures roleManager.activeRoles == ActivateAll(old(roleManager.activeRoles), roleManager.roles, Present(MapAll(suggestions)))
    {
      var mapped: seq<Option<string>> := [];
      var i := 0;
      while i < |suggestions|
        invariant 0 <= i <= |suggestions|
        invariant mapped == MapAll(suggestions[..i])
        modifies {}
      {
        var roleId := MapSuggestionToRole(suggestions[i]);
        assert suggestions[..i + 1] == suggestions[..i] + [suggestions[i]];
        mapped := mapped + [roleId];
        i := i + 1;
      }
      assert suggestions[..i] == suggestions;
      var relevant := Present(mapped);
      var j := 0;
      while j < |relevant|
        invariant 0 <= j <= |relevant|
        invariant roleManager.Valid() && roleManager.roles == old(roleManager.roles)
        invariant ActivateAll(roleManager.activeRoles, roleManager.roles, relevant[j..])
          == ActivateAll(old(roleManager.activeRoles), roleManager.roles, relevant)
      {
        DropStep(relevant, j);
        var _ := roleManager.ActivateRole(relevant[j]);
        j := j + 1;
      }
    }
  }
}
