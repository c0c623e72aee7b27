/**
 * The list logic of the `ChapterList` component: sorting by one of three modes, filtering by a
 * search query and a status, saving, drag-and-drop reordering and deleting. The component hands
 * every new list to its `onUpdate` callback; here each handler returns that list instead
 * (`None` where it calls nothing).
 */
module ChapterList {
  import opened Wrappers
  import opened Strings
  import opened Seqs

  datatype Status = Draft | Published

  /** A chapter as the component reads it; timestamps are milliseconds. */
  datatype Chapter = Chapter(
    id: string, storyId: string, title: string, content: string,
    order: int, status: Status, wordCount: int, createdAt: int, updatedAt: int)

  /** The three states of the sort selector. */
  datatype SortMode = ByOrder | ByWordCount | ByUpdated

  /** The status selector: `'all'` or one status. */
  datatype StatusFilter = AllStatuses | Only(status: Status)

  /**
   * The sort key whose ascending order the comparator of each mode gives:
   * `b.wordCount - a.wordCount` and `b.updatedAt - a.updatedAt` sort descending, `a.order - b.order` ascending.
   */
  function SortKey(mode: SortMode): Chapter -> int
  {
    match mode
    case ByWordCount => (c: Chapter) => -c.wordCount
    case ByUpdated => (c: Chapter) => -c.updatedAt
    case ByOrder => (c: Chapter) => c.order
  }

  /** `sortedChapters`: a sorted copy of the list; `Array.prototype.sort` is stable. */
  function SortedChapters(chapters: seq<Chapter>, mode: SortMode): (r: seq<Chapter>)
    ensures multiset(r) == multiset(chapters)
    ensures mode == ByWordCount ==> forall i, j :: 0 <= i < j < |r| ==> r[i].wordCount >= r[j].wordCount
    ensures mode == ByUpdated ==> forall i, j :: 0 <= i < j < |r| ==> r[i].updatedAt >= r[j].updatedAt
    ensures mode == ByOrder ==> forall i, j :: 0 <= i < j < |r| ==> r[i].order <= r[j].order
    ensures forall k :: WithKey(r, SortKey(mode), k) == WithKey(chapters, SortKey(mode), k)
  {
    var key := SortKey(mode);
    SortByPermutation(chapters, key);
    SortBySorted(chapters, key);
    forall k ensures WithKey(SortBy(chapters, key), key, k) == WithKey(chapters, key, k) {
      SortByStable(chapters, key, k);
    }
    SortBy(chapters, key)
  }

  /** The condition of `filteredChapters` for one chapter. */
  predicate Matches(c: Chapter, query: string, statusFilter: StatusFilter)
  {
    && (ContainsIgnoreCase(c.title, query) || ContainsIgnoreCase(c.content, query))
    && (statusFilter.AllStatuses? || c.status == statusFilter.status)
  }

  /** `filteredChapters`: the sorted chapters that match, in sorted order. */
  function FilteredChapters(sorted: seq<Chapter>, query: string, statusFilter: StatusFilter): (r: seq<Chapter>)
    ensures |r| <= |sorted|
    ensures forall i :: 0 <= i < |r| ==> Matches(r[i], query, statusFilter)
  {
    Filter(sorted, (c: Chapter) => Matches(c, query, statusFilter))
  }

  /** A chapter is shown exactly when it is in the list and matches both the query and the status. */
  lemma FilteredMember(sorted: seq<Chapter>, query: string, statusFilter: StatusFilter, c: Chapter)
    ensures c in FilteredChapters(sorted, query, statusFilter) <==> c in sorted && Matches(c, query, statusFilter)
  {
    FilterMember(sorted, (c: Chapter) => Matches(c, query, statusFilter), c);
  }

  /** The empty query and the `'all'` status show every chapter. */
  lemma {:induction false} FilterNothing(sorted: seq<Chapter>)
    ensures FilteredChapters(sorted, "", AllStatuses) == sorted
  {
    forall i | 0 <= i < |sorted| ensures Matches(sorted[i], "", AllStatuses) {
      assert Lower("") == "";
      assert HasPrefix(Lower(sorted[i].title), "");
    }
    FilterAll(sorted, (c: Chapter) => Matches(c, "", AllStatuses));
  }

  /** `chapters.map(c => c.id === chapter.id ? chapter : c)` */
  function ReplaceById(chapters: seq<Chapter>, chapter: Chapter): (r: seq<Chapter>)
    ensures |r| == |chapters|
    ensures forall i :: 0 <= i < |r| ==> r[i] == if chapters[i].id == chapter.id then chapter else chapters[i]
  {
    seq(|chapters|, i requires 0 <= i < |chapters| => if chapters[i].id == chapter.id then chapter else chapters[i])
  }

  /** Saving a chapter whose id is not in the list leaves the list as it is. */
  lemma ReplaceAbsent(chapters: seq<Chapter>, chapter: Chapter)
    requires forall i :: 0 <= i < |chapters| ==> chapters[i].id != chapter.id
    ensures ReplaceById(chapters, chapter) == chapters
  {
  }

  /** After a save the saved chapter is the one listed under its id. */
  lemma {:induction false} ReplaceFound(chapters: seq<Chapter>, chapter: Chapter, i: nat)
    requires i < |chapters| && chapters[i].id == chapter.id
    ensures chapter in ReplaceById(chapters, chapter)
    ensures forall c :: c in ReplaceById(chapters, chapter) && c.id == chapter.id ==> c == chapter
  {
    assert ReplaceById(chapters, chapter)[i] == chapter;
  }

  /**
   * `handleSave`: an edited chapter (`selectedChapter` set) replaces the entry with its id; a new
   * chapter is appended with the story id and `order` = the old length.
   */
  function HandleSave(chapters: seq<Chapter>, editing: bool, chapter: Chapter, storyId: string): (r: seq<Chapter>)
    ensures editing ==> r == ReplaceById(chapters, chapter)
    ensures !editing ==> |r| == |chapters| + 1 && r[..|chapters|] == chapters
    ensures !editing ==> r[|chapters|] == chapter.(storyId := storyId, order := |chapters|)
  {
    if editing then ReplaceById(chapters, chapter)
    else chapters + [chapter.(storyId := storyId, order := |chapters|)]
  }

  /** `items.map((item, index) => ({ ...item, order: index }))` */
  function Renumber(items: seq<Chapter>): (r: seq<Chapter>)
    ensures |r| == |items|
    ensures forall i :: 0 <= i < |r| ==> r[i] == items[i].(order := i)
  {
    seq(|items|, i requires 0 <= i < |items| => items[i].(order := i))
  }

  /** The ids of a list, in order. */
  function Ids(chapters: seq<Chapter>): (r: seq<string>)
    ensures |r| == |chapters| && forall i :: 0 <= i < |r| ==> r[i] == chapters[i].id
  {
    seq(|chapters|, i requires 0 <= i < |chapters| => chapters[i].id)
  }

  /**
   * A renumbered list has the orders 0..n-1, keeps every other field, and is already sorted for the
   * default mode, so sorting it by order changes nothing.
   */
  lemma RenumberSorted(items: seq<Chapter>)
    ensures Ids(Renumber(items)) == Ids(items)
    ensures SortedChapters(Renumber(items), ByOrder) == Renumber(items)
  {
    SortBySortedInput(Renumber(items), SortKey(ByOrder));
  }

  /** Renumbering twice is renumbering once. */
  lemma RenumberIdempotent(items: seq<Chapter>)
    ensures Renumber(Renumber(items)) == Renumber(items)
  {
  }

  /**
   * `handleDragEnd`: without a destination nothing is updated; otherwise the item at the source
   * index is moved to the destination index of the sorted list and the list is renumbered.
   * react-beautiful-dnd reports indices inside the list.
   */
  function HandleDragEnd(sorted: seq<Chapter>, source: nat, destination: Option<nat>): (r: Option<seq<Chapter>>)
    requires source < |sorted|
    requires destination.Some? ==> destination.value < |sorted|
    ensures destination.None? <==> r.None?
    ensures r.Some? ==> |r.value| == |sorted| && r.value[destination.value] == sorted[source].(order := destination.value)
    ensures r.Some? ==> forall i :: 0 <= i < |sorted| ==> r.value[i].order == i
    ensures r.Some? ==> Ids(r.value) == Move(Ids(sorted), source, destination.value)
  {
    if destination.None? then None
    else
      var moved := Move(sorted, source, destination.value);
      MoveIds(sorted, source, destination.value);
      Some(Renumber(moved))
  }

  /** The ids of a moved list are the moved ids. */
  lemma MoveIds(items: seq<Chapter>, from: nat, to: nat)
    requires from < |items| && to < |items|
    ensures Ids(Renumber(Move(items, from, to))) == Move(Ids(items), from, to)
  {
    var m := Move(items, from, to);
    var n := Move(Ids(items), from, to);
    assert Ids(Renumber(m)) == Ids(m);
    forall i | 0 <= i < |m| ensures Ids(m)[i] == n[i] {
      MoveAt(items, from, to, i);
      MoveAt(Ids(items), from, to, i);
    }
  }

  /** Dragging an item and dropping it where it was gives the same list, renumbered. */
  lemma DragInPlace(sorted: seq<Chapter>, i: nat)
    requires i < |sorted|
    ensures HandleDragEnd(sorted, i, Some(i)) == Some(Renumber(sorted))
  {
    var m := Move(sorted, i, i);
    assert m[..i] + m[i + 1..] == sorted[..i] + sorted[i + 1..];
    forall k | 0 <= k < |sorted| ensures m[k] == sorted[k] {
      if k < i {
        assert m[k] == (m[..i] + m[i + 1..])[k];
        assert sorted[k] == (sorted[..i] + sorted[i + 1..])[k];
      } else if k > i {
        assert m[k] == (m[..i] + m[i + 1..])[k - 1];
        assert sorted[k] == (sorted[..i] + sorted[i + 1..])[k - 1];
      }
    }
    assert m == sorted;
  }

  function OtherChapter(chapterId: string): Chapter -> bool
  {
    (c: Chapter) => c.id != chapterId
  }

  function OtherId(chapterId: string): string -> bool
  {
    (id: string) => id != chapterId
  }

  /** `handleDelete`: drop the chapters with that id, keep the others in order and renumber them. */
  function HandleDelete(chapters: seq<Chapter>, chapterId: string): (r: seq<Chapter>)
    ensures |r| <= |chapters|
    ensures forall i :: 0 <= i < |r| ==> r[i].id != chapterId && r[i].order == i
  {
    Renumber(Filter(chapters, OtherChapter(chapterId)))
  }

  /** The ids kept by a delete are exactly the other ids, in their order. */
  lemma DeleteKeepsOthers(chapters: seq<Chapter>, chapterId: string)
    ensures Ids(HandleDelete(chapters, chapterId)) == Filter(Ids(chapters), OtherId(chapterId))
  {
    var kept := Filter(chapters, OtherChapter(chapterId));
    assert Ids(Renumber(kept)) == Ids(kept);
    FilterIds(chapters, chapterId);
  }

  /** Filtering the chapters and taking their ids is taking the ids and filtering them. */
  lemma {:induction false} FilterIds(chapters: seq<Chapter>, chapterId: string)
    ensures Ids(Filter(chapters, OtherChapter(chapterId))) == Filter(Ids(chapters), OtherId(chapterId))
    decreases |chapters|
  {
    if chapters != [] {
      var p := OtherChapter(chapterId);
      FilterIds(chapters[1..], chapterId);
      assert Ids(chapters)[1..] == Ids(chapters[1..]);
      var head := if p(chapters[0]) then [chapters[0]] else [];
      var tail := Filter(chapters[1..], p);
      assert Filter(chapters, p) == head + tail;
      assert Ids(head + tail) == Ids(head) + Ids(tail);
    }
  }

  /** Deleting an id that is not in the list only renumbers it. */
  lemma DeleteAbsent(chapters: seq<Chapter>, chapterId: string)
    requires forall i :: 0 <= i < |chapters| ==> chapters[i].id != chapterId
    ensures HandleDelete(chapters, chapterId) == Renumber(chapters)
  {
    FilterAll(chapters, OtherChapter(chapterId));
  }
}
