/**
 * The list logic of the `OutlineList` component: building the outline tree, cascading deletes,
 * saving, the two kinds of drag-and-drop, and the search filter. Handlers return the list they
 * would hand to `onUpdate`, or `None` where they return early.
 */
module OutlineList {
  import opened Wrappers
  import opened Strings
  import opened Seqs

  /**
   * An outline item. `parentId` is optional; a `children` list is present only on items that
   * carry one, and is empty otherwise.
   */
  datatype Outline = Outline(
    id: string, title: string, content: string, kind: string,
    parentId: Option<string>, order: int, children: seq<Outline>)

  /** `outline.parentId` is truthy: present and not the empty string. */
  predicate HasParent(o: Outline)
  {
    o.parentId.Some? && o.parentId.value != ""
  }

  /** The ids of a list, in order. */
  function OIds(s: seq<Outline>): (r: seq<string>)
    ensures |r| == |s| && forall i :: 0 <= i < |s| ==> r[i] == s[i].id
  {
    seq(|s|, i requires 0 <= i < |s| => s[i].id)
  }

  // ---------------------------------------------------------------------------------------------
  // buildOutlineTree

  /**
   * Where `buildOutlineTree` puts an outline: under its parent if it has one and the parent id is
   * among the ids of the list, at the root otherwise.
   */
  function Slot(o: Outline, ids: set<string>): (r: Option<string>)
    ensures r.Some? <==> HasParent(o) && o.parentId.value in ids
    ensures r.Some? ==> r.value == o.parentId.value && r.value in ids
  {
    if HasParent(o) && o.parentId.value in ids then Some(o.parentId.value) else None
  }

  /** The ids placed in slot `slot`, in input order. */
  function Placed(s: seq<Outline>, ids: set<string>, slot: Option<string>): (r: seq<string>)
    ensures |r| <= |s|
  {
    if s == [] then []
    else Placed(s[..|s| - 1], ids, slot) + (if Slot(s[|s| - 1], ids) == slot then [s[|s| - 1].id] else [])
  }

  /** An id is placed in a slot exactly when an outline with that id belongs to it. */
  lemma {:induction false} PlacedMember(s: seq<Outline>, ids: set<string>, slot: Option<string>, x: string)
    ensures x in Placed(s, ids, slot) <==> exists i :: 0 <= i < |s| && s[i].id == x && Slot(s[i], ids) == slot
    decreases |s|
  {
    if s != [] {
      var t := s[..|s| - 1];
      PlacedMember(t, ids, slot, x);
      if x in Placed(t, ids, slot) {
        var i :| 0 <= i < |t| && t[i].id == x && Slot(t[i], ids) == slot;
        assert s[i] == t[i];
      }
      forall i | 0 <= i < |t| && t[i].id == x && Slot(t[i], ids) == slot
        ensures exists j :: 0 <= j < |s| && s[j].id == x && Slot(s[j], ids) == slot {
        assert s[i] == t[i];
      }
      forall i | 0 <= i < |s| - 1 && s[i].id == x && Slot(s[i], ids) == slot
        ensures exists j :: 0 <= j < |t| && t[j].id == x && Slot(t[j], ids) == slot {
        assert s[i] == t[i];
      }
    }
  }

  /** Every outline is placed in exactly one slot: the slot of its own parent, and no other. */
  lemma PlacedOnce(s: seq<Outline>, ids: set<string>, i: nat, slot: Option<string>)
    requires i < |s|
    ensures s[i].id in Placed(s, ids, Slot(s[i], ids))
    ensures Slot(s[i], ids) == None ==> s[i].id in Placed(s, ids, None)
    ensures HasParent(s[i]) && s[i].parentId.value in ids ==> s[i].id in Placed(s, ids, Some(s[i].parentId.value))
    ensures slot != Slot(s[i], ids) ==> |Placed(s, ids, slot)| + 1 <= |s|
  {
    PlacedMember(s, ids, Slot(s[i], ids), s[i].id);
    if slot != Slot(s[i], ids) {
      PlacedMiss(s, ids, slot, i);
    }
  }

  /** An outline outside a slot takes no room in it. */
  lemma {:induction false} PlacedMiss(s: seq<Outline>, ids: set<string>, slot: Option<string>, i: nat)
    requires i < |s| && Slot(s[i], ids) != slot
    ensures |Placed(s, ids, slot)| + 1 <= |s|
    decreases |s|
  {
    var t := s[..|s| - 1];
    if i < |s| - 1 {
      assert t[i] == s[i];
      PlacedMiss(t, ids, slot, i);
    }
  }

  /** The ids of the list. */
  function IdSet(s: seq<Outline>): (r: set<string>)
    ensures forall i :: 0 <= i < |s| ==> s[i].id in r
    ensures forall x :: x in r ==> exists i :: 0 <= i < |s| && s[i].id == x
  {
    set i | 0 <= i < |s| :: s[i].id
  }

  /** The copy `{ ...outline, children: [] }` stored under an id: the last outline with that id wins. */
  function LastCopy(s: seq<Outline>, x: string): Option<Outline>
  {
    if s == [] then None
    else if s[|s| - 1].id == x then Some(s[|s| - 1].(children := []))
    else LastCopy(s[..|s| - 1], x)
  }

  /**
   * The tree `buildOutlineTree` returns, as node copies by id and, for the roots and for every
   * node, the ids of the nodes pushed under it, in push order.
   */
  datatype OutlineTree = OutlineTree(nodes: map<string, Outline>, roots: seq<string>, children: map<string, seq<string>>)

  /** One more outline adds its id to the id set. */
  lemma IdSetSnoc(s: seq<Outline>, o: Outline)
    ensures IdSet(s + [o]) == IdSet(s) + {o.id}
  {
    assert (s + [o])[|s|] == o;
    forall x | x in IdSet(s) ensures x in IdSet(s + [o]) {
      var i :| 0 <= i < |s| && s[i].id == x;
      assert (s + [o])[i] == s[i];
    }
    forall x | x in IdSet(s + [o]) ensures x in IdSet(s) + {o.id} {
      var i :| 0 <= i < |s| + 1 && (s + [o])[i].id == x;
      if i < |s| {
        assert (s + [o])[i] == s[i];
      }
    }
  }

  /** One more outline is copied under its id, and only there. */
  lemma LastCopySnoc(s: seq<Outline>, o: Outline, x: string)
    ensures LastCopy(s + [o], x) == if x == o.id then Some(o.(children := [])) else LastCopy(s, x)
  {
    assert (s + [o])[..|s|] == s;
  }

  /** One more outline is placed at the end of its own slot and nowhere else. */
  lemma PlacedSnoc(s: seq<Outline>, o: Outline, ids: set<string>, slot: Option<string>)
    ensures Placed(s + [o], ids, slot) == Placed(s, ids, slot) + (if Slot(o, ids) == slot then [o.id] else [])
  {
    assert (s + [o])[..|s|] == s;
  }

  /** The state after the first pass over `s`: a copy and an empty child list for every id. */
  predicate Copied(s: seq<Outline>, nodes: map<string, Outline>, children: map<string, seq<string>>)
  {
    && nodes.Keys == IdSet(s) && children.Keys == nodes.Keys
    && (forall x :: x in nodes ==> Some(nodes[x]) == LastCopy(s, x))
    && (forall x :: x in children ==> children[x] == [])
  }

  lemma CopiedStep(s: seq<Outline>, o: Outline, nodes: map<string, Outline>, children: map<string, seq<string>>)
    requires Copied(s, nodes, children)
    ensures Copied(s + [o], nodes[o.id := o.(children := [])], children[o.id := []])
  {
    IdSetSnoc(s, o);
    var n := nodes[o.id := o.(children := [])];
    forall x | x in n ensures Some(n[x]) == LastCopy(s + [o], x) {
      LastCopySnoc(s, o, x);
    }
  }

  /** The state after the second pass over `s`: each slot lists the ids placed in it. */
  predicate Pushed(s: seq<Outline>, ids: set<string>, roots: seq<string>, children: map<string, seq<string>>)
  {
    && children.Keys == ids
    && roots == Placed(s, ids, None)
    && (forall x :: x in children ==> children[x] == Placed(s, ids, Some(x)))
  }

  lemma PushedStep(s: seq<Outline>, o: Outline, ids: set<string>, roots: seq<string>, children: map<string, seq<string>>)
    requires Pushed(s, ids, roots, children)
    ensures HasParent(o) && o.parentId.value in children
      ==> Pushed(s + [o], ids, roots, children[o.parentId.value := children[o.parentId.value] + [o.id]])
    ensures !(HasParent(o) && o.parentId.value in children) ==> Pushed(s + [o], ids, roots + [o.id], children)
  {
    PlacedSnoc(s, o, ids, None);
    forall x | x in children
      ensures Placed(s + [o], ids, Some(x)) == Placed(s, ids, Some(x)) + (if Slot(o, ids) == Some(x) then [o.id] else [])
    {
      PlacedSnoc(s, o, ids, Some(x));
    }
  }

  /** `buildOutlineTree`: a first pass stores the copies; a second pass pushes each node under its parent or at the root. */
  method BuildOutlineTree(outlines: seq<Outline>) returns (tree: OutlineTree)
    ensures tree.nodes.Keys == IdSet(outlines) && tree.children.Keys == IdSet(outlines)
    ensures forall x :: x in tree.nodes ==> Some(tree.nodes[x]) == LastCopy(outlines, x)
    ensures tree.roots == Placed(outlines, IdSet(outlines), None)
    ensures forall x :: x in tree.children ==> tree.children[x] == Placed(outlines, IdSet(outlines), Some(x))
  {
    var nodes, empty := CopyOutlines(outlines);
    var roots, children := PushOutlines(outlines, nodes.Keys, empty);
    tree := OutlineTree(nodes, roots, children);
  }

  /** The first pass of `buildOutlineTree`: a copy and an empty child list for every id. */
  method CopyOutlines(outlines: seq<Outline>) returns (nodes: map<string, Outline>, children: map<string, seq<string>>)
    ensures Copied(outlines, nodes, children)
  {
    nodes, children := map[], map[];
    var i := 0;
    while i < |outlines|
      invariant 0 <= i <= |outlines|
      invariant Copied(outlines[..i], nodes, children)
    {
      var o := outlines[i];
      TakeSnoc(outlines, i);
      CopiedStep(outlines[..i], o, nodes, children);
      nodes := nodes[o.id := o.(children := [])];
      children := children[o.id := []];
      i := i + 1;
    }
    assert outlines[..i] == outlines;
  }

  /** The second pass of `buildOutlineTree`: each node goes under its parent when the parent is known, else at the root. */
  method PushOutlines(outlines: seq<Outline>, ids: set<string>, empty: map<string, seq<string>>)
    returns (roots: seq<string>, children: map<string, seq<string>>)
    requires empty.Keys == ids && forall x :: x in empty ==> empty[x] == []
    ensures Pushed(outlines, ids, roots, children)
  {
    roots, children := [], empty;
    assert Pushed([], ids, roots, children);
    var i := 0;
    while i < |outlines|
      invariant 0 <= i <= |outlines|
      invariant Pushed(outlines[..i], ids, roots, children)
    {
      var o := outlines[i];
      TakeSnoc(outlines, i);
      PushedStep(outlines[..i], o, ids, roots, children);
      if HasParent(o) && o.parentId.value in children {
        children := children[o.parentId.value := children[o.parentId.value] + [o.id]];
      } else {
        roots := roots + [o.id];
      }
      i := i + 1;
    }
    assert outlines[..i] == outlines;
  }

  // ---------------------------------------------------------------------------------------------
  // handleDelete

  /** `getDescendantIds` over a list of children: each child's id, then its descendants, child by child. */
  function DescendantsOf(children: seq<Outline>): seq<string>
    decreases children
  {
    if children == [] then []
    else [children[0].id] + DescendantsOf(children[0].children) + DescendantsOf(children[1..])
  }

  /** `getDescendantIds(outline)`: the outline's id followed by the ids of everything under it. */
  function DescendantIds(o: Outline): (r: seq<string>)
    ensures |r| >= 1 && r[0] == o.id
  {
    [o.id] + DescendantsOf(o.children)
  }

  /** The descendant ids of a list contain every child's own descendant ids. */
  lemma {:induction false} DescendantsOfClosed(children: seq<Outline>, k: nat)
    requires k < |children|
    ensures forall x :: x in DescendantIds(children[k]) ==> x in DescendantsOf(children)
    decreases k
  {
    if k > 0 {
      DescendantsOfClosed(children[1..], k - 1);
      assert children[1..][k - 1] == children[k];
    }
  }

  /** Deleting an outline reaches its own id and, through `children`, every id below it. */
  lemma DescendantsClosed(o: Outline, k: nat)
    requires k < |o.children|
    ensures o.id in DescendantIds(o)
    ensures forall x :: x in DescendantIds(o.children[k]) ==> x in DescendantIds(o)
  {
    DescendantsOfClosed(o.children, k);
  }

  /** `outlines.find(o => o.id === id)` */
  function FindById(s: seq<Outline>, x: string): (r: Option<Outline>)
    ensures r.None? <==> x !in OIds(s)
    ensures r.Some? ==> r.value.id == x && r.value in s
  {
    if s == [] then None
    else if s[0].id == x then Some(s[0])
    else
      var r := FindById(s[1..], x);
      assert OIds(s)[1..] == OIds(s[1..]);
      assert r.Some? ==> r.value in s;
      r
  }

  function NotIn(doomed: seq<string>): Outline -> bool
  {
    (o: Outline) => o.id !in doomed
  }

  /**
   * `handleDelete`: an unknown id updates nothing; otherwise the outline with that id and all its
   * descendants (through its `children`) are dropped, the rest kept in order.
   */
  function HandleDelete(outlines: seq<Outline>, outlineId: string): (r: Option<seq<Outline>>)
    ensures r.None? <==> outlineId !in OIds(outlines)
    ensures r.Some? ==> r.value == Filter(outlines, NotIn(DescendantIds(FindById(outlines, outlineId).value)))
    ensures r.Some? ==> outlineId !in OIds(r.value)
  {
    match FindById(outlines, outlineId)
    case None => None
    case Some(o) =>
      var kept := Filter(outlines, NotIn(DescendantIds(o)));
      assert outlineId !in OIds(kept) by {
        forall i | 0 <= i < |kept| ensures kept[i].id != outlineId {
          assert NotIn(DescendantIds(o))(kept[i]);
        }
      }
      Some(kept)
  }

  /** A delete keeps an outline exactly when its id is not one of the deleted ids. */
  lemma DeleteKeeps(outlines: seq<Outline>, outlineId: string, o: Outline)
    requires outlineId in OIds(outlines)
    ensures o in HandleDelete(outlines, outlineId).value
      <==> o in outlines && o.id !in DescendantIds(FindById(outlines, outlineId).value)
  {
    FilterMember(outlines, NotIn(DescendantIds(FindById(outlines, outlineId).value)), o);
  }

  /**
   * On the flat list the component is given, whose outlines carry no `children`, a delete drops
   * only the outlines with that id: an outline whose `parentId` names it stays.
   */
  lemma FlatDeleteKeepsChildren(outlines: seq<Outline>, outlineId: string, o: Outline)
    requires outlineId in OIds(outlines)
    requires forall i :: 0 <= i < |outlines| ==> outlines[i].children == []
    ensures o in HandleDelete(outlines, outlineId).value <==> o in outlines && o.id != outlineId
  {
    var found := FindById(outlines, outlineId).value;
    assert DescendantIds(found) == [outlineId];
    DeleteKeeps(outlines, outlineId, o);
  }

  // ---------------------------------------------------------------------------------------------
  // handleSave

  /** `outlines.map(o => o.id === outline.id ? outline : o)` */
  function ReplaceById(outlines: seq<Outline>, outline: Outline): (r: seq<Outline>)
    ensures |r| == |outlines|
    ensures forall i :: 0 <= i < |r| ==> r[i] == if outlines[i].id == outline.id then outline else outlines[i]
  {
    seq(|outlines|, i requires 0 <= i < |outlines| => if outlines[i].id == outline.id then outline else outlines[i])
  }

  /**
   * `handleSave`: an edit replaces by id; a new outline is appended with the parent chosen in the
   * form (`form.parentId || undefined`) and `order` = the old length.
   */
  function HandleSave(outlines: seq<Outline>, editing: bool, outline: Outline, formParentId: string): (r: seq<Outline>)
    ensures editing ==> r == ReplaceById(outlines, outline)
    ensures !editing ==> |r| == |outlines| + 1 && r[..|outlines|] == outlines
    ensures !editing ==> r[|outlines|].id == outline.id && r[|outlines|].order == |outlines|
    ensures !editing ==> (r[|outlines|].parentId.None? <==> formParentId == "")
    ensures !editing && formParentId != "" ==> r[|outlines|].parentId == Some(formParentId)
    ensures !editing ==> r[|outlines|].(parentId := outline.parentId, order := outline.order) == outline
  {
    if editing then ReplaceById(outlines, outline)
    else outlines + [outline.(parentId := if formParentId != "" then Some(formParentId) else None, order := |outlines|)]
  }

  /** Editing an outline that is not in the list changes nothing. */
  lemma SaveAbsent(outlines: seq<Outline>, outline: Outline)
    requires outline.id !in OIds(outlines)
    ensures HandleSave(outlines, true, outline, "") == outlines
  {
    assert forall i :: 0 <= i < |outlines| ==> OIds(outlines)[i] == outlines[i].id;
  }

  // ---------------------------------------------------------------------------------------------
  // handleDragEnd

  /** The parent id encoded in a droppable id: `droppableId.replace('children-', '')`. */
  function DroppableParent(droppableId: string): string
  {
    ReplaceFirst(droppableId, "children-", "")
  }

  /** Membership of the level a same-level drag reorders: the parentless items for `'root'`. */
  predicate InLevel(o: Outline, droppableId: string)
  {
    if droppableId == "root" then !HasParent(o) else o.parentId == Some(DroppableParent(droppableId))
  }

  function LevelFilter(droppableId: string): Outline -> bool
  {
    (o: Outline) => InLevel(o, droppableId)
  }

  /** The items of the dragged level, in list order. */
  function Level(outlines: seq<Outline>, droppableId: string): (r: seq<Outline>)
    ensures forall i :: 0 <= i < |r| ==> InLevel(r[i], droppableId)
  {
    Filter(outlines, LevelFilter(droppableId))
  }

  /** `list.findIndex(r => r.id === id)`: the first index with that id, or -1. */
  function FindIndex(list: seq<Outline>, x: string): (k: int)
    ensures -1 <= k < |list|
    ensures k == -1 <==> forall j :: 0 <= j < |list| ==> list[j].id != x
    ensures k >= 0 ==> list[k].id == x && forall j :: 0 <= j < k ==> list[j].id != x
  {
    if list == [] then -1
    else if list[0].id == x then 0
    else
      var k := FindIndex(list[1..], x);
      if k == -1 then -1 else k + 1
  }

  /** The new `order` of every item in the level: its index in the reordered level. */
  function Reindex(outlines: seq<Outline>, droppableId: string, reordered: seq<Outline>): (r: seq<Outline>)
    ensures |r| == |outlines|
    ensures forall i :: 0 <= i < |r| ==>
      r[i] == if InLevel(outlines[i], droppableId) then outlines[i].(order := FindIndex(reordered, outlines[i].id)) else outlines[i]
  {
    seq(|outlines|, i requires 0 <= i < |outlines| =>
      if InLevel(outlines[i], droppableId) then outlines[i].(order := FindIndex(reordered, outlines[i].id)) else outlines[i])
  }

  /** `{ ...o, parentId: newParentId }` for every item with the dragged id. */
  function Reparent(outlines: seq<Outline>, itemId: string, newParent: Option<string>): (r: seq<Outline>)
    ensures |r| == |outlines|
    ensures forall i :: 0 <= i < |r| ==>
      r[i] == if outlines[i].id == itemId then outlines[i].(parentId := newParent) else outlines[i]
  {
    seq(|outlines|, i requires 0 <= i < |outlines| =>
      if outlines[i].id == itemId then outlines[i].(parentId := newParent) else outlines[i])
  }

  /** Where a drag ends. */
  datatype Destination = Destination(droppableId: string, index: nat)

  /**
   * `handleDragEnd`: no destination, or a cross-level drag of an unknown item, updates nothing.
   * Within one level the item moves inside that level and the level's items are renumbered by
   * their new positions; across levels only the dragged item's parent changes. The drag library
   * reports indices inside the level.
   */
  function HandleDragEnd(outlines: seq<Outline>, sourceId: string, sourceIndex: nat,
                         destination: Option<Destination>, draggableId: string): (r: Option<seq<Outline>>)
    requires destination.Some? && destination.value.droppableId == sourceId ==>
      sourceIndex < |Level(outlines, sourceId)| && destination.value.index < |Level(outlines, sourceId)|
    ensures destination.None? ==> r.None?
    ensures destination.Some? && destination.value.droppableId == sourceId ==>
      r == Some(Reindex(outlines, sourceId, Move(Level(outlines, sourceId), sourceIndex, destination.value.index)))
    ensures destination.Some? && destination.value.droppableId != sourceId ==>
      (r.None? <==> draggableId !in OIds(outlines))
    ensures destination.Some? && destination.value.droppableId != sourceId && r.Some? ==>
      var newParent := if destination.value.droppableId == "root" then None else Some(DroppableParent(destination.value.droppableId));
      r.value == Reparent(outlines, draggableId, newParent)
  {
    if destination.None? then None
    else if sourceId == destination.value.droppableId then
      Some(Reindex(outlines, sourceId, Move(Level(outlines, sourceId), sourceIndex, destination.value.index)))
    else
      match FindById(outlines, draggableId)
      case None => None
      case Some(item) =>
        var destinationId := destination.value.droppableId;
        Some(Reparent(outlines, item.id, if destinationId == "root" then None else Some(DroppableParent(destinationId))))
  }

  /** A same-level drag touches only the items of that level, and only their `order`. */
  lemma SameLevelOnly(outlines: seq<Outline>, sourceId: string, reordered: seq<Outline>, i: nat)
    requires i < |outlines|
    ensures !InLevel(outlines[i], sourceId) ==> Reindex(outlines, sourceId, reordered)[i] == outlines[i]
    ensures Reindex(outlines, sourceId, reordered)[i].(order := outlines[i].order) == outlines[i]
  {
  }

  /** The ids of a moved level are the moved ids. */
  lemma MoveOIds(level: seq<Outline>, from: nat, to: nat)
    requires from < |level| && to < |level|
    ensures OIds(Move(level, from, to)) == Move(OIds(level), from, to)
  {
    var m := Move(level, from, to);
    var n := Move(OIds(level), from, to);
    forall i | 0 <= i < |m| ensures OIds(m)[i] == n[i] {
      MoveAt(level, from, to, i);
      MoveAt(OIds(level), from, to, i);
    }
  }

  /**
   * When the ids of the level are distinct, every item of the level gets an order in
   * `0..|level|-1`, and the dragged item gets the destination index.
   */
  lemma SameLevelOrders(outlines: seq<Outline>, sourceId: string, from: nat, to: nat, i: nat)
    requires from < |Level(outlines, sourceId)| && to < |Level(outlines, sourceId)|
    requires Distinct(OIds(Level(outlines, sourceId)))
    requires i < |outlines| && InLevel(outlines[i], sourceId)
    ensures var r := Reindex(outlines, sourceId, Move(Level(outlines, sourceId), from, to));
      && 0 <= r[i].order < |Level(outlines, sourceId)|
      && (outlines[i].id == Level(outlines, sourceId)[from].id ==> r[i].order == to)
  {
    var level := Level(outlines, sourceId);
    var m := Move(level, from, to);
    MovedDistinct(level, from, to);
    FilterMember(outlines, LevelFilter(sourceId), outlines[i]);
    FoundIn(m, outlines[i]);
    if outlines[i].id == level[from].id {
      FindIndexDistinct(m, to);
    }
  }

  /** Moving an item keeps the ids distinct. */
  lemma MovedDistinct(level: seq<Outline>, from: nat, to: nat)
    requires from < |level| && to < |level| && Distinct(OIds(level))
    ensures Distinct(OIds(Move(level, from, to)))
  {
    MoveOIds(level, from, to);
    PermutationDistinct(OIds(level), OIds(Move(level, from, to)));
  }

  /** An item of a list with distinct ids is found. */
  lemma FoundIn(list: seq<Outline>, o: Outline)
    requires o in multiset(list) && Distinct(OIds(list))
    ensures 0 <= FindIndex(list, o.id) < |list|
  {
    var j :| 0 <= j < |list| && list[j] == o;
    FindIndexDistinct(list, j);
  }

  /** In a list with distinct ids, `findIndex` finds each item at its own position. */
  lemma FindIndexDistinct(list: seq<Outline>, j: nat)
    requires j < |list| && Distinct(OIds(list))
    ensures FindIndex(list, list[j].id) == j
  {
  }

  /** A cross-level drag changes only the dragged item, and only its parent. */
  lemma CrossLevelOnly(outlines: seq<Outline>, itemId: string, newParent: Option<string>, i: nat)
    requires i < |outlines|
    ensures outlines[i].id != itemId ==> Reparent(outlines, itemId, newParent)[i] == outlines[i]
    ensures Reparent(outlines, itemId, newParent)[i].(parentId := outlines[i].parentId) == outlines[i]
    ensures outlines[i].id == itemId ==> Reparent(outlines, itemId, newParent)[i].parentId == newParent
  {
  }

  // ---------------------------------------------------------------------------------------------
  // filteredOutlines

  /** The condition of `filteredOutlines`; `None` is the `'all'` type. */
  predicate Matches(o: Outline, query: string, kindFilter: Option<string>)
  {
    && (ContainsIgnoreCase(o.title, query) || ContainsIgnoreCase(o.content, query))
    && (kindFilter.None? || o.kind == kindFilter.value)
  }

  function MatchFilter(query: string, kindFilter: Option<string>): Outline -> bool
  {
    (o: Outline) => Matches(o, query, kindFilter)
  }

  function FilteredOutlines(outlines: seq<Outline>, query: string, kindFilter: Option<string>): (r: seq<Outline>)
    ensures |r| <= |outlines|
    ensures forall i :: 0 <= i < |r| ==> Matches(r[i], query, kindFilter)
  {
    Filter(outlines, MatchFilter(query, kindFilter))
  }

  /** An outline is shown exactly when it is in the list and matches the query and the type. */
  lemma FilteredMember(outlines: seq<Outline>, query: string, kindFilter: Option<string>, o: Outline)
    ensures o in FilteredOutlines(outlines, query, kindFilter) <==> o in outlines && Matches(o, query, kindFilter)
  {
    FilterMember(outlines, MatchFilter(query, kindFilter), o);
  }
}
