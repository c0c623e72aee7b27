/**
 * The list logic of tale-weaver's character tag manager: adding a tag (and recording a new one
 * among the suggestions), removing a tag, and the tags and suggestions matching the search box.
 * The component hands new lists to its callbacks; the model returns what each callback receives.
 */
module TagManager {
  import opened Wrappers
  import opened Strings
  import opened Seqs

  /**
   * What one `addTag` does: the list handed to `onChange` (if it is called), the list handed to
   * `onSuggestionsChange` (if it is called), and the new content of the input box.
   */
  datatype AddOutcome = AddOutcome(tags: Option<seq<string>>, suggestions: Option<seq<string>>, input: string)

  /** `addTag(tag)`; `hasSuggestionsCallback` says whether `onSuggestionsChange` was given. */
  function AddTag(tags: seq<string>, suggestions: seq<string>, hasSuggestionsCallback: bool, tag: string): (r: AddOutcome)
    ensures r.input == ""
    ensures r.tags.Some? <==> tag != "" && tag !in tags
    ensures r.tags.Some? ==> r.tags.value == tags + [tag]
    ensures r.suggestions.Some? <==> tag != "" && tag !in tags && tag !in suggestions && hasSuggestionsCallback
    ensures r.suggestions.Some? ==> r.suggestions.value == suggestions + [tag]
  {
    if tag != "" && tag !in tags then
      AddOutcome(Some(tags + [tag]),
                 if tag !in suggestions && hasSuggestionsCallback then Some(suggestions + [tag]) else None,
                 "")
    else AddOutcome(None, None, "")
  }

  /** Adding keeps the tag list free of duplicates. */
  lemma AddTagDistinct(tags: seq<string>, suggestions: seq<string>, hasSuggestionsCallback: bool, tag: string)
    requires Distinct(tags)
    ensures var r := AddTag(tags, suggestions, hasSuggestionsCallback, tag);
      r.tags.Some? ==> Distinct(r.tags.value) && tag in r.tags.value
  {
    var r := AddTag(tags, suggestions, hasSuggestionsCallback, tag);
    if r.tags.Some? {
      var t := r.tags.value;
      forall i, j | 0 <= i < j < |t| ensures t[i] != t[j] {
        if j == |tags| {
          assert t[i] == tags[i];
        }
      }
      assert t[|tags|] == tag;
    }
  }

  function NotTag(tag: string): string -> bool
  {
    (t: string) => t != tag
  }

  /** `removeTag`: the tags other than `tag`, in their order. */
  function RemoveTag(tags: seq<string>, tag: string): seq<string>
  {
    Filter(tags, NotTag(tag))
  }

  /** Every copy of the tag goes, and every other tag stays. */
  lemma RemoveTagMember(tags: seq<string>, tag: string, t: string)
    ensures t in RemoveTag(tags, tag) <==> t in tags && t != tag
  {
    FilterMember(tags, NotTag(tag), t);
  }

  /** Removing a tag that is absent hands back the same list. */
  lemma RemoveAbsentTag(tags: seq<string>, tag: string)
    requires tag !in tags
    ensures RemoveTag(tags, tag) == tags
  {
    FilterAll(tags, NotTag(tag));
  }

  /** Adding a new tag and then removing it gives back the tag list. */
  lemma AddThenRemove(tags: seq<string>, suggestions: seq<string>, hasSuggestionsCallback: bool, tag: string)
    requires tag != "" && tag !in tags
    ensures RemoveTag(AddTag(tags, suggestions, hasSuggestionsCallback, tag).tags.value, tag) == tags
  {
    FilterConcat(tags, [tag], NotTag(tag));
    FilterAll(tags, NotTag(tag));
    assert Filter([tag], NotTag(tag)) == [];
  }

  function MatchesQuery(query: string): string -> bool
  {
    (t: string) => ContainsIgnoreCase(t, query)
  }

  function SuggestionShown(tags: seq<string>, query: string): string -> bool
  {
    (t: string) => ContainsIgnoreCase(t, query) && t !in tags
  }

  /** `filteredTags` */
  function FilteredTags(tags: seq<string>, query: string): seq<string>
  {
    Filter(tags, MatchesQuery(query))
  }

  /** `filteredSuggestions` */
  function FilteredSuggestions(tags: seq<string>, suggestions: seq<string>, query: string): seq<string>
  {
    Filter(suggestions, SuggestionShown(tags, query))
  }

  /** A suggestion is shown exactly when it matches the search, ignoring case, and is not already a tag. */
  lemma FilteredSuggestionsMember(tags: seq<string>, suggestions: seq<string>, query: string, t: string)
    ensures t in FilteredSuggestions(tags, suggestions, query)
      <==> t in suggestions && ContainsIgnoreCase(t, query) && t !in tags
  {
    FilterMember(suggestions, SuggestionShown(tags, query), t);
  }

  /** A tag is shown exactly when it matches the search, ignoring case. */
  lemma FilteredTagsMember(tags: seq<string>, query: string, t: string)
    ensures t in FilteredTags(tags, query) <==> t in tags && ContainsIgnoreCase(t, query)
  {
    FilterMember(tags, MatchesQuery(query), t);
  }

  /** With an empty search every tag is shown. */
  lemma EmptyQueryShowsAll(tags: seq<string>)
    ensures FilteredTags(tags, "") == tags
  {
    forall i | 0 <= i < |tags| ensures MatchesQuery("")(tags[i]) {
      assert Lower("") == "";
      assert Lower(tags[i])[..0] == "";
    }
    FilterAll(tags, MatchesQuery(""));
  }
}
