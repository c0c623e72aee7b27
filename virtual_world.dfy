/**
 * The keyword and structure helpers of `VirtualWorldGenerator`: theme scoring, the timeline
 * built from time indicators, terrain detection and the novel-style description. The jieba
 * keyword extractor is not modelled; `ProcessInput` receives its keywords as a parameter.
 */
module VirtualWorld {
  import opened Wrappers
  import opened Strings
  import opened Seqs

  /** `self.theme_keywords`, as two parallel tables in dict order. */
  const ThemeNames: seq<string> := ["科技", "魔法", "自然", "战争", "和平"]
  const ThemeKeywords: seq<seq<string>> := [
    ["科技", "机器", "发明", "进步", "文明", "现代"],
    ["魔法", "巫师", "法术", "神秘", "魔力", "咒语"],
    ["自然", "生态", "森林", "山脉", "河流", "生命"],
    ["战争", "冲突", "战斗", "军队", "武器", "征服"],
    ["和平", "和谐", "共存", "友好", "合作", "发展"]
  ]

  /** How many of the keywords (counted with repetition) lie in `words`. */
  function Score(keywords: seq<string>, words: seq<string>): nat
  {
    if keywords == [] then 0
    else Score(keywords[..|keywords| - 1], words) + (if keywords[|keywords| - 1] in words then 1 else 0)
  }

  /** One more keyword adds one to the score of every list it lies in. */
  lemma ScoreSnoc(keywords: seq<string>, keyword: string, words: seq<string>)
    ensures Score(keywords + [keyword], words) == Score(keywords, words) + (if keyword in words then 1 else 0)
  {
    SnocInit(keywords, keyword);
  }

  /** A theme scores above zero exactly when some keyword lies in its list. */
  lemma {:induction false} ScorePositive(keywords: seq<string>, words: seq<string>)
    ensures Score(keywords, words) > 0 <==> exists k :: 0 <= k < |keywords| && keywords[k] in words
    decreases |keywords|
  {
    if keywords != [] {
      var init := keywords[..|keywords| - 1];
      ScorePositive(init, words);
      if Score(init, words) > 0 {
        var k :| 0 <= k < |init| && init[k] in words;
        assert keywords[k] == init[k];
      }
      forall k | 0 <= k < |init| && init[k] in words ensures Score(init, words) > 0 {
        assert init[k] == keywords[k];
      }
    }
  }

  /** The score of a theme name in the tables; a name outside the tables scores zero. */
  function ScoreOf(keywords: seq<string>, names: seq<string>, tables: seq<seq<string>>, name: string): nat
    requires |names| == |tables|
  {
    if name in names then Score(keywords, tables[IndexIn(names, name)]) else 0
  }

  /** The first components of a `dict.items()` list. */
  function Names(items: seq<(string, nat)>): (r: seq<string>)
    ensures |r| == |items| && forall j :: 0 <= j < |items| ==> r[j] == items[j].0
  {
    seq(|items|, j requires 0 <= j < |items| => items[j].0)
  }

  /** `theme_scores[name] += 1` on a `defaultdict(int)` kept as its items in insertion order. */
  function Increment(scores: seq<(string, nat)>, name: string): (r: seq<(string, nat)>)
    requires Distinct(Names(scores))
    ensures |r| == |scores| + (if name in Names(scores) then 0 else 1)
    ensures forall j :: 0 <= j < |scores| ==>
              r[j].0 == scores[j].0 && r[j].1 == scores[j].1 + (if scores[j].0 == name then 1 else 0)
    ensures name !in Names(scores) ==> r[|scores|] == (name, 1)
  {
    if scores == [] then [(name, 1)]
    else
      assert Names(scores[1..]) == Names(scores)[1..];
      if scores[0].0 == name then
        assert name !in Names(scores)[1..];
        [(name, scores[0].1 + 1)] + scores[1..]
      else [scores[0]] + Increment(scores[1..], name)
  }

  /** The score the theme `t` has once the first `done` themes have seen `now` and the rest only `before`. */
  function Expected(tables: seq<seq<string>>, now: seq<string>, before: seq<string>, done: nat, t: nat): nat
    requires t < |tables|
  {
    if t < done then Score(now, tables[t]) else Score(before, tables[t])
  }

  /** Every entry of the score dict names a theme and holds its positive score. */
  ghost predicate ScoreValues(
    scores: seq<(string, nat)>, names: seq<string>, tables: seq<seq<string>>,
    now: seq<string>, before: seq<string>, done: nat)
    requires |names| == |tables|
  {
    forall j :: 0 <= j < |scores| ==>
      scores[j].0 in names && scores[j].1 > 0
      && scores[j].1 == Expected(tables, now, before, done, IndexIn(names, scores[j].0))
  }

  /** Every theme with a positive score has an entry. */
  ghost predicate ScoreCovers(
    scores: seq<(string, nat)>, names: seq<string>, tables: seq<seq<string>>,
    now: seq<string>, before: seq<string>, done: nat)
    requires |names| == |tables|
  {
    forall t :: 0 <= t < |names| && Expected(tables, now, before, done, t) > 0 ==> names[t] in Names(scores)
  }

  /** The score dict: one entry per theme with a positive score, holding that score. */
  ghost predicate ScoreTable(
    scores: seq<(string, nat)>, names: seq<string>, tables: seq<seq<string>>,
    now: seq<string>, before: seq<string>, done: nat)
    requires |names| == |tables|
  {
    ScoreValues(scores, names, tables, now, before, done) && Distinct(Names(scores))
    && ScoreCovers(scores, names, tables, now, before, done)
  }

  /**
   * What `_identify_themes` promises: at most three distinct themes, each with a positive score,
   * in non-increasing score order, and no theme left out that scores above one of them or that
   * would have fitted in the three places.
   */
  ghost predicate RankedThemes(keywords: seq<string>, names: seq<string>, tables: seq<seq<string>>, themes: seq<string>)
    requires |names| == |tables|
  {
    && |themes| <= 3
    && (forall k :: 0 <= k < |themes| ==> themes[k] in names && ScoreOf(keywords, names, tables, themes[k]) > 0)
    && Distinct(themes)
    && (forall j, k :: 0 <= j < k < |themes| ==>
          ScoreOf(keywords, names, tables, themes[j]) >= ScoreOf(keywords, names, tables, themes[k]))
    && (forall t :: 0 <= t < |names| && Score(keywords, tables[t]) > 0 && names[t] !in themes ==>
          |themes| == 3 && forall k :: 0 <= k < 3 ==> ScoreOf(keywords, names, tables, themes[k]) >= Score(keywords, tables[t]))
  }

  /**
   * The body of `_identify_themes` over any theme table: score every theme, sort by score
   * descending (stable), keep the first three with a positive score.
   */
  method RankThemes(keywords: seq<string>, names: seq<string>, tables: seq<seq<string>>) returns (themes: seq<string>)
    requires |names| == |tables| && Distinct(names)
    ensures RankedThemes(keywords, names, tables, themes)
  {
    var scores := ScoreThemes(keywords, names, tables);
    var key := (p: (string, nat)) => -(p.1 as int);
    var sorted := SortBy(scores, key);
    var top := sorted[..if |sorted| < 3 then |sorted| else 3];
    var kept := Filter(top, (p: (string, nat)) => p.1 > 0);
    themes := Names(kept);
    SortedScores(keywords, names, tables, scores, key, sorted);
    TopThree(keywords, names, tables, sorted, top, kept, themes);
  }

  /** The counting loops of `_identify_themes`: every keyword adds one to each theme whose list holds it. */
  method ScoreThemes(keywords: seq<string>, names: seq<string>, tables: seq<seq<string>>) returns (scores: seq<(string, nat)>)
    requires |names| == |tables| && Distinct(names)
    ensures ScoreTable(scores, names, tables, keywords, keywords, 0)
  {
    scores := [];
    ghost var seen: seq<string> := [];
    var i := 0;
    while i < |keywords|
      invariant 0 <= i <= |keywords| && seen == keywords[..i]
      invariant ScoreTable(scores, names, tables, seen, seen, 0)
    {
      var keyword := keywords[i];
      scores := CountKeyword(scores, names, tables, seen, keyword);
      RoundDone(scores, names, tables, seen + [keyword], seen);
      TakeSnoc(keywords, i);
      seen := seen + [keyword];
      i := i + 1;
    }
    assert keywords[..i] == keywords;
  }

  /** The inner loop of `_identify_themes`: one keyword against every theme's list, in dict order. */
  method CountKeyword(
    scores: seq<(string, nat)>, names: seq<string>, tables: seq<seq<string>>, ghost seen: seq<string>, keyword: string)
    returns (scores': seq<(string, nat)>)
    requires |names| == |tables| && Distinct(names)
    requires ScoreTable(scores, names, tables, seen + [keyword], seen, 0)
    ensures ScoreTable(scores', names, tables, seen + [keyword], seen, |names|)
  {
    scores' := scores;
    var t := 0;
    while t < |names|
      invariant 0 <= t <= |names|
      invariant ScoreTable(scores', names, tables, seen + [keyword], seen, t)
    {
      ScoreSnoc(seen, keyword, tables[t]);
      if keyword in tables[t] {
        IncrementStep(scores', names, tables, seen + [keyword], seen, t);
        scores' := Increment(scores', names[t]);
      } else {
        SkipStep(scores', names, tables, seen + [keyword], seen, t);
      }
      t := t + 1;
    }
  }

  /** One `+= 1` for theme `t` keeps the score dict right once theme `t` has seen the new keyword. */
  lemma IncrementStep(
    scores: seq<(string, nat)>, names: seq<string>, tables: seq<seq<string>>,
    now: seq<string>, before: seq<string>, t: nat)
    requires |names| == |tables| && Distinct(names) && t < |names|
    requires ScoreTable(scores, names, tables, now, before, t)
    requires Score(now, tables[t]) == Score(before, tables[t]) + 1
    ensures ScoreTable(Increment(scores, names[t]), names, tables, now, before, t + 1)
  {
    IncrementValues(scores, names, tables, now, before, t);
    IncrementDistinct(scores, names[t]);
    IncrementCovers(scores, names, tables, now, before, t);
  }

  lemma IncrementValues(
    scores: seq<(string, nat)>, names: seq<string>, tables: seq<seq<string>>,
    now: seq<string>, before: seq<string>, t: nat)
    requires |names| == |tables| && Distinct(names) && t < |names| && Distinct(Names(scores))
    requires ScoreValues(scores, names, tables, now, before, t)
    requires ScoreCovers(scores, names, tables, now, before, t)
    requires Score(now, tables[t]) == Score(before, tables[t]) + 1
    ensures ScoreValues(Increment(scores, names[t]), names, tables, now, before, t + 1)
  {
    var r := Increment(scores, names[t]);
    assert IndexIn(names, names[t]) == t;
    forall j | 0 <= j < |r|
      ensures r[j].0 in names && r[j].1 > 0 && r[j].1 == Expected(tables, now, before, t + 1, IndexIn(names, r[j].0))
    {
      if j == |scores| {
        assert r[j] == (names[t], 1);
        assert Expected(tables, now, before, t, t) == 0;
      } else if scores[j].0 == names[t] {
        assert r[j] == (names[t], scores[j].1 + 1);
        assert scores[j].1 == Expected(tables, now, before, t, t);
      } else {
        var u := IndexIn(names, scores[j].0);
        assert u != t;
        assert r[j] == scores[j];
        assert Expected(tables, now, before, t + 1, u) == Expected(tables, now, before, t, u);
      }
    }
  }

  lemma IncrementDistinct(scores: seq<(string, nat)>, name: string)
    requires Distinct(Names(scores))
    ensures Distinct(Names(Increment(scores, name)))
  {
    assert Names(Increment(scores, name)) == Names(scores) + (if name in Names(scores) then [] else [name]);
  }

  lemma IncrementCovers(
    scores: seq<(string, nat)>, names: seq<string>, tables: seq<seq<string>>,
    now: seq<string>, before: seq<string>, t: nat)
    requires |names| == |tables| && t < |names| && Distinct(Names(scores))
    requires ScoreCovers(scores, names, tables, now, before, t)
    ensures ScoreCovers(Increment(scores, names[t]), names, tables, now, before, t + 1)
  {
    var r := Increment(scores, names[t]);
    forall u | 0 <= u < |names| && Expected(tables, now, before, t + 1, u) > 0 ensures names[u] in Names(r) {
      if u != t {
        assert Expected(tables, now, before, t, u) > 0;
        assert names[u] in Names(scores);
        var j := IndexIn(Names(scores), names[u]);
        assert Names(r)[j] == names[u];
      } else if names[t] !in Names(scores) {
        assert Names(r)[|scores|] == names[t];
      } else {
        var j := IndexIn(Names(scores), names[t]);
        assert Names(r)[j] == names[t];
      }
    }
  }

  /** A theme whose list misses the new keyword keeps its score. */
  lemma SkipStep(
    scores: seq<(string, nat)>, names: seq<string>, tables: seq<seq<string>>,
    now: seq<string>, before: seq<string>, t: nat)
    requires |names| == |tables| && t < |names|
    requires ScoreTable(scores, names, tables, now, before, t)
    requires Score(now, tables[t]) == Score(before, tables[t])
    ensures ScoreTable(scores, names, tables, now, before, t + 1)
  {
    assert forall u :: 0 <= u < |names| ==> Expected(tables, now, before, t + 1, u) == Expected(tables, now, before, t, u);
  }

  /** Once every theme has seen the new keyword, the dict holds the scores of the longer keyword list. */
  lemma RoundDone(
    scores: seq<(string, nat)>, names: seq<string>, tables: seq<seq<string>>,
    now: seq<string>, before: seq<string>)
    requires |names| == |tables|
    requires ScoreTable(scores, names, tables, now, before, |names|)
    ensures ScoreTable(scores, names, tables, now, now, 0)
  {
    assert forall u :: 0 <= u < |names| ==> Expected(tables, now, before, |names|, u) == Expected(tables, now, now, 0, u);
  }

  /** A rearrangement of the score dict's items still holds the right scores. */
  lemma PermutedValues(
    a: seq<(string, nat)>, b: seq<(string, nat)>, names: seq<string>, tables: seq<seq<string>>, keywords: seq<string>)
    requires |names| == |tables| && multiset(a) == multiset(b)
    requires ScoreValues(a, names, tables, keywords, keywords, 0)
    ensures ScoreValues(b, names, tables, keywords, keywords, 0)
  {
    forall m | 0 <= m < |b|
      ensures b[m].0 in names && b[m].1 > 0 && b[m].1 == Expected(tables, keywords, keywords, 0, IndexIn(names, b[m].0))
    {
      assert b[m] in multiset(a);
      var j := IndexIn(a, b[m]);
    }
  }

  /** A rearrangement of the score dict's items still has one entry per name. */
  lemma PermutedNamesDistinct(
    a: seq<(string, nat)>, b: seq<(string, nat)>, names: seq<string>, tables: seq<seq<string>>, keywords: seq<string>)
    requires |names| == |tables| && multiset(a) == multiset(b)
    requires Distinct(Names(a)) && ScoreValues(b, names, tables, keywords, keywords, 0)
    ensures Distinct(Names(b))
  {
    assert Distinct(a) by {
      forall i, j | 0 <= i < j < |a| ensures a[i] != a[j] {
        assert Names(a)[i] != Names(a)[j];
      }
    }
    PermutationDistinct(a, b);
    forall i, j | 0 <= i < j < |b| ensures Names(b)[i] != Names(b)[j] {
      assert b[i] != b[j];
      assert b[i] == (b[i].0, Expected(tables, keywords, keywords, 0, IndexIn(names, b[i].0)));
      assert b[j] == (b[j].0, Expected(tables, keywords, keywords, 0, IndexIn(names, b[j].0)));
    }
  }

  /** A rearrangement of the score dict's items still covers every scoring theme. */
  lemma PermutedCovers(
    a: seq<(string, nat)>, b: seq<(string, nat)>, names: seq<string>, tables: seq<seq<string>>, keywords: seq<string>)
    requires |names| == |tables| && multiset(a) == multiset(b)
    requires ScoreCovers(a, names, tables, keywords, keywords, 0)
    ensures ScoreCovers(b, names, tables, keywords, keywords, 0)
  {
    forall t | 0 <= t < |names| && Expected(tables, keywords, keywords, 0, t) > 0 ensures names[t] in Names(b) {
      assert names[t] in Names(a);
      var j := IndexIn(Names(a), names[t]);
      assert a[j] in multiset(b);
      var m := IndexIn(b, a[j]);
      assert Names(b)[m] == names[t];
    }
  }

  /** Sorting the score dict's items keeps it a score dict and orders it by score, highest first. */
  lemma SortedScores(
    keywords: seq<string>, names: seq<string>, tables: seq<seq<string>>,
    scores: seq<(string, nat)>, key: ((string, nat)) -> int, sorted: seq<(string, nat)>)
    requires |names| == |tables|
    requires ScoreTable(scores, names, tables, keywords, keywords, 0)
    requires forall p: (string, nat) :: key(p) == -(p.1 as int)
    requires sorted == SortBy(scores, key)
    ensures ScoreTable(sorted, names, tables, keywords, keywords, 0)
    ensures forall i, j :: 0 <= i < j < |sorted| ==> sorted[i].1 >= sorted[j].1
  {
    SortByPermutation(scores, key);
    SortBySorted(scores, key);
    PermutedValues(scores, sorted, names, tables, keywords);
    PermutedNamesDistinct(scores, sorted, names, tables, keywords);
    PermutedCovers(scores, sorted, names, tables, keywords);
    forall i, j | 0 <= i < j < |sorted| ensures sorted[i].1 >= sorted[j].1 {
      assert key(sorted[i]) <= key(sorted[j]);
    }
  }

  /** The names of the first items of the sorted score dict, with their scores. */
  lemma TopNames(
    keywords: seq<string>, names: seq<string>, tables: seq<seq<string>>,
    sorted: seq<(string, nat)>, top: seq<(string, nat)>, themes: seq<string>)
    requires |names| == |tables|
    requires ScoreValues(sorted, names, tables, keywords, keywords, 0) && Distinct(Names(sorted))
    requires |top| <= |sorted| && top == sorted[..|top|] && themes == Names(top)
    ensures forall k :: 0 <= k < |themes| ==> themes[k] == sorted[k].0 && themes[k] in names
    ensures forall k :: 0 <= k < |themes| ==> ScoreOf(keywords, names, tables, themes[k]) == sorted[k].1 > 0
    ensures Distinct(themes)
  {
    forall i, j | 0 <= i < j < |themes| ensures themes[i] != themes[j] {
      assert Names(sorted)[i] != Names(sorted)[j];
    }
  }

  /** A scoring theme missing from the first three items scores no more than any of them. */
  lemma MissingScoresLower(
    keywords: seq<string>, names: seq<string>, tables: seq<seq<string>>,
    sorted: seq<(string, nat)>, top: seq<(string, nat)>, themes: seq<string>, t: nat)
    requires |names| == |tables| && Distinct(names)
    requires ScoreValues(sorted, names, tables, keywords, keywords, 0)
    requires ScoreCovers(sorted, names, tables, keywords, keywords, 0)
    requires forall i, j :: 0 <= i < j < |sorted| ==> sorted[i].1 >= sorted[j].1
    requires top == sorted[..if |sorted| < 3 then |sorted| else 3]
    requires |themes| == |top| && forall k :: 0 <= k < |themes| ==> themes[k] == sorted[k].0 && ScoreOf(keywords, names, tables, themes[k]) == sorted[k].1
    requires t < |names| && Score(keywords, tables[t]) > 0 && names[t] !in themes
    ensures |themes| == 3 && forall k :: 0 <= k < 3 ==> ScoreOf(keywords, names, tables, themes[k]) >= Score(keywords, tables[t])
  {
    assert Expected(tables, keywords, keywords, 0, t) > 0;
    assert names[t] in Names(sorted);
    var m := IndexIn(Names(sorted), names[t]);
    assert forall k :: 0 <= k < |top| ==> themes[k] != names[t];
    assert m >= |top|;
    assert IndexIn(names, names[t]) == t;
    assert sorted[m].1 == Score(keywords, tables[t]);
  }

  /** Taking the first three of the sorted score dict's items gives ranked themes. */
  lemma TopThree(
    keywords: seq<string>, names: seq<string>, tables: seq<seq<string>>,
    sorted: seq<(string, nat)>, top: seq<(string, nat)>, kept: seq<(string, nat)>, themes: seq<string>)
    requires |names| == |tables| && Distinct(names)
    requires ScoreTable(sorted, names, tables, keywords, keywords, 0)
    requires forall i, j :: 0 <= i < j < |sorted| ==> sorted[i].1 >= sorted[j].1
    requires top == sorted[..if |sorted| < 3 then |sorted| else 3]
    requires kept == Filter(top, (p: (string, nat)) => p.1 > 0)
    requires themes == Names(kept)
    ensures RankedThemes(keywords, names, tables, themes)
  {
    FilterAll(top, (p: (string, nat)) => p.1 > 0);
    TopNames(keywords, names, tables, sorted, top, themes);
    forall t | 0 <= t < |names| && Score(keywords, tables[t]) > 0 && names[t] !in themes
      ensures |themes| == 3 && forall k :: 0 <= k < 3 ==> ScoreOf(keywords, names, tables, themes[k]) >= Score(keywords, tables[t])
    {
      MissingScoresLower(keywords, names, tables, sorted, top, themes, t);
    }
  }

  /** The theme names are distinct, so the score dict has one entry per theme. */
  lemma ThemeNamesDistinct()
    ensures Distinct(ThemeNames)
  {
  }

  /** `_identify_themes` on `self.theme_keywords`. */
  method IdentifyThemes(keywords: seq<string>) returns (themes: seq<string>)
    ensures RankedThemes(keywords, ThemeNames, ThemeKeywords, themes)
  {
    ThemeNamesDistinct();
    themes := RankThemes(keywords, ThemeNames, ThemeKeywords);
  }

  /** The index of the first word that occurs in `s`, or `|words|` when none does. */
  function FirstContained(words: seq<string>, s: string): (r: nat)
    ensures r <= |words|
    ensures forall j :: 0 <= j < r ==> !Contains(s, words[j])
    ensures r < |words| ==> Contains(s, words[r])
  {
    if words == [] then 0
    else if Contains(s, words[0]) then 0
    else 1 + FirstContained(words[1..], s)
  }

  /** Some word is found exactly when one of the words occurs in `s`. */
  lemma FirstContainedFound(words: seq<string>, s: string)
    ensures FirstContained(words, s) < |words| <==> exists w :: w in words && Contains(s, w)
  {
    if exists w :: w in words && Contains(s, w) {
      var w :| w in words && Contains(s, w);
      var j := IndexIn(words, w);
      assert FirstContained(words, s) <= j;
    }
  }

  /** The loop `for word in words: if word in s: ... break`: the first word found, or `|words|`. */
  method FindFirst(words: seq<string>, s: string) returns (j: nat)
    ensures j == FirstContained(words, s)
  {
    j := 0;
    while j < |words|
      invariant j <= |words|
      invariant forall k :: 0 <= k < j ==> !Contains(s, words[k])
    {
      if Contains(s, words[j]) {
        break;
      }
      j := j + 1;
    }
  }

  /** `_create_timeline`'s indicators, in the order they are tried. */
  const TimeIndicators: seq<string> := ["最初", "然后", "之后", "最终", "现在"]

  /** A sentence that mentions one of the indicators. */
  predicate Mentions(indicators: seq<string>, sentence: string)
  {
    FirstContained(indicators, sentence) < |indicators|
  }

  /** The first indicator, in table order, that a sentence mentions. */
  function IndicatorOf(indicators: seq<string>, sentence: string): string
    requires Mentions(indicators, sentence)
  {
    indicators[FirstContained(indicators, sentence)]
  }

  /** The sentences that mention an indicator, in order. */
  function Matching(sentences: seq<string>, indicators: seq<string>): (m: seq<string>)
    ensures |m| <= |sentences|
    ensures forall k :: 0 <= k < |m| ==> Mentions(indicators, m[k])
  {
    if sentences == [] then []
    else
      var last := sentences[|sentences| - 1];
      Matching(sentences[..|sentences| - 1], indicators) + (if Mentions(indicators, last) then [last] else [])
  }

  /** A sentence is kept exactly when it is one of the sentences and mentions an indicator. */
  lemma {:induction false} MatchingMember(sentences: seq<string>, indicators: seq<string>, s: string)
    ensures s in Matching(sentences, indicators) <==> s in sentences && Mentions(indicators, s)
    decreases |sentences|
  {
    if sentences != [] {
      var init := sentences[..|sentences| - 1];
      MatchingMember(init, indicators, s);
      assert sentences == init + [sentences[|sentences| - 1]];
    }
  }

  datatype TimelineEntry = TimelineEntry(time: string, event: string)

  /** `current_time` after the given matching sentences: the indicator of the last one, or `start`. */
  function TimeAfter(matching: seq<string>, indicators: seq<string>, start: string): string
    requires forall k :: 0 <= k < |matching| ==> Mentions(indicators, matching[k])
  {
    if |matching| == 0 then start else IndicatorOf(indicators, matching[|matching| - 1])
  }

  /**
   * The timeline for the sentences that mention an indicator: one entry per such sentence, in
   * order, with its text passed through `strip` and the time current before it.
   */
  function TimelineFor(matching: seq<string>, indicators: seq<string>, start: string, strip: string -> string): (r: seq<TimelineEntry>)
    requires forall k :: 0 <= k < |matching| ==> Mentions(indicators, matching[k])
    ensures |r| == |matching|
  {
    if matching == [] then []
    else
      var init := matching[..|matching| - 1];
      TimelineFor(init, indicators, start, strip)
        + [TimelineEntry(TimeAfter(init, indicators, start), strip(matching[|matching| - 1]))]
  }

  /**
   * What that timeline looks like entry by entry: each event is its sentence cleaned up; the first
   * entry's time is `start` and each later one carries the first indicator of the sentence before it.
   */
  ghost predicate TimelineOf(
    matching: seq<string>, indicators: seq<string>, start: string, strip: string -> string, timeline: seq<TimelineEntry>)
  {
    && |timeline| == |matching|
    && (forall k :: 0 <= k < |timeline| ==> timeline[k].event == strip(matching[k]))
    && (|timeline| > 0 ==> timeline[0].time == start)
    && (forall k :: 0 < k < |timeline| ==>
          Mentions(indicators, matching[k - 1]) && timeline[k].time == IndicatorOf(indicators, matching[k - 1]))
  }

  /** Entry by entry, the timeline follows its sentences. */
  lemma TimelineForShape(matching: seq<string>, indicators: seq<string>, start: string, strip: string -> string)
    requires forall k :: 0 <= k < |matching| ==> Mentions(indicators, matching[k])
    ensures TimelineOf(matching, indicators, start, strip, TimelineFor(matching, indicators, start, strip))
  {
    TimelineForEvents(matching, indicators, start, strip);
    TimelineForTimes(matching, indicators, start, strip);
  }

  /** Each event of the timeline is its sentence cleaned up. */
  lemma {:induction false} TimelineForEvents(matching: seq<string>, indicators: seq<string>, start: string, strip: string -> string)
    requires forall k :: 0 <= k < |matching| ==> Mentions(indicators, matching[k])
    ensures forall k :: 0 <= k < |matching| ==> TimelineFor(matching, indicators, start, strip)[k].event == strip(matching[k])
    decreases |matching|
  {
    if matching != [] {
      var n := |matching| - 1;
      var init := matching[..n];
      TimelineForEvents(init, indicators, start, strip);
      var t := TimelineFor(init, indicators, start, strip);
      var r := TimelineFor(matching, indicators, start, strip);
      assert r == t + [TimelineEntry(TimeAfter(init, indicators, start), strip(matching[n]))];
      forall k | 0 <= k < n ensures r[k].event == strip(matching[k]) {
        assert r[k] == t[k] && matching[k] == init[k];
      }
    }
  }

  /** The first entry's time is `start`; each later one carries the first indicator of the sentence before it. */
  lemma {:induction false} TimelineForTimes(matching: seq<string>, indicators: seq<string>, start: string, strip: string -> string)
    requires forall k :: 0 <= k < |matching| ==> Mentions(indicators, matching[k])
    ensures |matching| > 0 ==> TimelineFor(matching, indicators, start, strip)[0].time == start
    ensures forall k :: 0 < k < |matching| ==> TimelineFor(matching, indicators, start, strip)[k].time == IndicatorOf(indicators, matching[k - 1])
    decreases |matching|
  {
    if matching != [] {
      var n := |matching| - 1;
      var init := matching[..n];
      TimelineForTimes(init, indicators, start, strip);
      var t := TimelineFor(init, indicators, start, strip);
      var r := TimelineFor(matching, indicators, start, strip);
      assert r == t + [TimelineEntry(TimeAfter(init, indicators, start), strip(matching[n]))];
      forall k | 0 < k < |matching| ensures r[k].time == IndicatorOf(indicators, matching[k - 1]) {
        assert matching[k - 1] == init[k - 1];
        if k < n {
          assert r[k] == t[k];
        }
      }
    }
  }

  /** One pass of the loop of `_create_timeline`: a sentence with an indicator adds an entry and moves the time on. */
  method TimelineSentence(
    sentence: string, indicators: seq<string>, strip: string -> string, timeline: seq<TimelineEntry>, currentTime: string)
    returns (timeline': seq<TimelineEntry>, currentTime': string)
    ensures Mentions(indicators, sentence)
      ==> timeline' == timeline + [TimelineEntry(currentTime, strip(sentence))] && currentTime' == IndicatorOf(indicators, sentence)
    ensures !Mentions(indicators, sentence) ==> timeline' == timeline && currentTime' == currentTime
  {
    timeline', currentTime' := timeline, currentTime;
    var j := FindFirst(indicators, sentence);
    if j < |indicators| {
      timeline' := timeline + [TimelineEntry(currentTime, strip(sentence))];
      currentTime' := indicators[j];
    }
  }

  /** One more sentence is kept exactly when it mentions an indicator. */
  lemma MatchingSnoc(prefix: seq<string>, sentence: string, indicators: seq<string>)
    ensures Mentions(indicators, sentence) ==> Matching(prefix + [sentence], indicators) == Matching(prefix, indicators) + [sentence]
    ensures !Mentions(indicators, sentence) ==> Matching(prefix + [sentence], indicators) == Matching(prefix, indicators)
  {
    SnocInit(prefix, sentence);
    AppendEmpty(Matching(prefix, indicators));
  }

  /** A timeline grows by the entry of its newest sentence. */
  lemma TimelineForSnoc(matching: seq<string>, sentence: string, indicators: seq<string>, start: string, strip: string -> string)
    requires forall k :: 0 <= k < |matching| ==> Mentions(indicators, matching[k])
    requires Mentions(indicators, sentence)
    ensures TimelineFor(matching + [sentence], indicators, start, strip)
      == TimelineFor(matching, indicators, start, strip) + [TimelineEntry(TimeAfter(matching, indicators, start), strip(sentence))]
    ensures TimeAfter(matching + [sentence], indicators, start) == IndicatorOf(indicators, sentence)
  {
    SnocInit(matching, sentence);
  }

  /** The loop of `_create_timeline` over any indicator table, initial time and text clean-up. */
  method BuildTimeline(
    sentences: seq<string>, indicators: seq<string>, start: string, strip: string -> string) returns (timeline: seq<TimelineEntry>)
    ensures timeline == TimelineFor(Matching(sentences, indicators), indicators, start, strip)
    ensures TimelineOf(Matching(sentences, indicators), indicators, start, strip, timeline)
  {
    var currentTime := start;
    timeline := [];
    ghost var seen: seq<string> := [];
    var i := 0;
    while i < |sentences|
      invariant 0 <= i <= |sentences| && seen == sentences[..i]
      invariant timeline == TimelineFor(Matching(seen, indicators), indicators, start, strip)
      invariant currentTime == TimeAfter(Matching(seen, indicators), indicators, start)
    {
      var sentence := sentences[i];
      MatchingSnoc(seen, sentence, indicators);
      if Mentions(indicators, sentence) {
        TimelineForSnoc(Matching(seen, indicators), sentence, indicators, start, strip);
      }
      timeline, currentTime := TimelineSentence(sentence, indicators, strip, timeline, currentTime);
      TakeSnoc(sentences, i);
      seen := seen + [sentence];
      i := i + 1;
    }
    assert sentences[..i] == sentences;
    TimelineForShape(Matching(sentences, indicators), indicators, start, strip);
  }

  /** `_create_timeline`: the story split at "。", starting from "起初". */
  method CreateTimeline(story: string) returns (timeline: seq<TimelineEntry>)
    ensures TimelineOf(Matching(Split(story, '。'), TimeIndicators), TimeIndicators, "起初", PyStrip, timeline)
    ensures |timeline| <= |Split(story, '。')|
  {
    timeline := BuildTimeline(Split(story, '。'), TimeIndicators, "起初", PyStrip);
  }

  /** `terrain_keywords` of `_identify_terrain_types`, as two parallel tables in dict order. */
  const TerrainTypes: seq<string> := ["山地", "平原", "水域", "森林", "沙漠"]
  const TerrainKeywords: seq<seq<string>> := [
    ["山", "山脉", "高山", "丘陵"],
    ["平原", "草原", "平地", "草场"],
    ["海洋", "河流", "湖泊", "水系"],
    ["森林", "树林", "丛林", "密林"],
    ["沙漠", "荒漠", "戈壁"]
  ]

  datatype TerrainEntry = TerrainEntry(kind: string, description: string)

  /** The terrain types an entry list names, in order. */
  function Kinds(found: seq<TerrainEntry>): (r: seq<string>)
    ensures |r| == |found| && forall k :: 0 <= k < |found| ==> r[k] == found[k].kind
  {
    seq(|found|, k requires 0 <= k < |found| => found[k].kind)
  }

  /**
   * What `_identify_terrain_types` promises over a terrain table: one entry per type that has a
   * keyword in the description, in table order, each described by the first such keyword.
   */
  ghost predicate TerrainsOf(description: string, types: seq<string>, tables: seq<seq<string>>, found: seq<TerrainEntry>)
    requires |types| == |tables|
  {
    && (forall k :: 0 <= k < |found| ==> found[k].kind in types)
    && (forall j, k :: 0 <= j < k < |found| ==> IndexIn(types, found[j].kind) < IndexIn(types, found[k].kind))
    && (forall t :: 0 <= t < |types| ==>
          (types[t] in Kinds(found) <==> FirstContained(tables[t], description) < |tables[t]|))
    && (forall k :: 0 <= k < |found| ==>
          var t := IndexIn(types, found[k].kind);
          var w := FirstContained(tables[t], description);
          w < |tables[t]| && found[k].description == "包含" + tables[t][w] + "地形")
  }

  /** The loop state of `_identify_terrain_types` after the first `t` types; `ranks` are the types' positions. */
  ghost predicate TerrainsSoFar(
    description: string, types: seq<string>, tables: seq<seq<string>>, found: seq<TerrainEntry>, ranks: seq<nat>, t: nat)
    requires |types| == |tables| && t <= |types|
  {
    && |ranks| == |found|
    && (forall k :: 0 <= k < |found| ==> ranks[k] < t && found[k].kind == types[ranks[k]])
    && (forall j, k :: 0 <= j < k < |found| ==> ranks[j] < ranks[k])
    && (forall u :: 0 <= u < |types| ==>
          (types[u] in Kinds(found) <==> u < t && FirstContained(tables[u], description) < |tables[u]|))
    && (forall k :: 0 <= k < |found| ==>
          var w := FirstContained(tables[ranks[k]], description);
          w < |tables[ranks[k]]| && found[k].description == "包含" + tables[ranks[k]][w] + "地形")
  }

  /** A type with a keyword in the description adds its entry; any other leaves the list as it is. */
  lemma TerrainStep(
    description: string, types: seq<string>, tables: seq<seq<string>>, found: seq<TerrainEntry>, ranks: seq<nat>, t: nat)
    requires |types| == |tables| && Distinct(types) && t < |types|
    requires TerrainsSoFar(description, types, tables, found, ranks, t)
    ensures var w := FirstContained(tables[t], description);
      && (w < |tables[t]| ==>
            TerrainsSoFar(description, types, tables, found + [TerrainEntry(types[t], "包含" + tables[t][w] + "地形")], ranks + [t], t + 1))
      && (w == |tables[t]| ==> TerrainsSoFar(description, types, tables, found, ranks, t + 1))
  {
    if FirstContained(tables[t], description) < |tables[t]| {
      TerrainHit(description, types, tables, found, ranks, t);
    } else {
      TerrainMiss(description, types, tables, found, ranks, t);
    }
  }

  /** A type with a keyword in the description joins the entries. */
  lemma TerrainHit(
    description: string, types: seq<string>, tables: seq<seq<string>>, found: seq<TerrainEntry>, ranks: seq<nat>, t: nat)
    requires |types| == |tables| && Distinct(types) && t < |types|
    requires TerrainsSoFar(description, types, tables, found, ranks, t)
    requires FirstContained(tables[t], description) < |tables[t]|
    ensures var w := FirstContained(tables[t], description);
      TerrainsSoFar(description, types, tables, found + [TerrainEntry(types[t], "包含" + tables[t][w] + "地形")], ranks + [t], t + 1)
  {
    var w := FirstContained(tables[t], description);
    var e := TerrainEntry(types[t], "包含" + tables[t][w] + "地形");
    assert forall u :: 0 <= u < |types| && u != t ==> types[u] != types[t];
    assert Kinds(found + [e]) == Kinds(found) + [types[t]];
  }

  /** A type without one leaves them as they are. */
  lemma TerrainMiss(
    description: string, types: seq<string>, tables: seq<seq<string>>, found: seq<TerrainEntry>, ranks: seq<nat>, t: nat)
    requires |types| == |tables| && Distinct(types) && t < |types|
    requires TerrainsSoFar(description, types, tables, found, ranks, t)
    requires FirstContained(tables[t], description) == |tables[t]|
    ensures TerrainsSoFar(description, types, tables, found, ranks, t + 1)
  {
    assert forall u :: 0 <= u < |types| && u != t ==> types[u] != types[t];
  }


  /** The body of `_identify_terrain_types` over any terrain table. */
  method DetectTerrains(description: string, types: seq<string>, tables: seq<seq<string>>) returns (found: seq<TerrainEntry>)
    requires |types| == |tables| && Distinct(types)
    ensures TerrainsOf(description, types, tables, found)
  {
    found := [];
    ghost var ranks: seq<nat> := [];
    var t := 0;
    while t < |types|
      invariant 0 <= t <= |types|
      invariant TerrainsSoFar(description, types, tables, found, ranks, t)
    {
      var j := FindFirst(tables[t], description);
      TerrainStep(description, types, tables, found, ranks, t);
      if j < |tables[t]| {
        found := found + [TerrainEntry(types[t], "包含" + tables[t][j] + "地形")];
        ranks := ranks + [t];
      }
      t := t + 1;
    }
    TerrainsDone(description, types, tables, found, ranks);
  }

  /** After the last type the entries are those `_identify_terrain_types` promises. */
  lemma TerrainsDone(description: string, types: seq<string>, tables: seq<seq<string>>, found: seq<TerrainEntry>, ranks: seq<nat>)
    requires |types| == |tables| && Distinct(types)
    requires TerrainsSoFar(description, types, tables, found, ranks, |types|)
    ensures TerrainsOf(description, types, tables, found)
  {
    forall k | 0 <= k < |found| ensures IndexIn(types, found[k].kind) == ranks[k] {
      assert types[ranks[k]] == found[k].kind;
    }
  }

  lemma TerrainTypesDistinct()
    ensures Distinct(TerrainTypes)
  {
  }

  /** `_identify_terrain_types` on its own table. */
  method IdentifyTerrainTypes(description: string) returns (found: seq<TerrainEntry>)
    ensures TerrainsOf(description, TerrainTypes, TerrainKeywords, found)
  {
    TerrainTypesDistinct();
    found := DetectTerrains(description, TerrainTypes, TerrainKeywords);
  }

  /** The three descriptions `generate_novel_description` reads from the world structure. */
  datatype WorldStructure = WorldStructure(originStory: string, geographyDescription: string, developmentDescription: string)

  /** `generate_novel_description`: the origin, geography and development sections, in that order. */
  method GenerateNovelDescription(world: WorldStructure) returns (text: string)
    ensures text == "## 世界的起源\n" + world.originStory
                  + "\n\n## 地理环境\n" + world.geographyDescription
                  + "\n\n## 文明发展\n" + world.developmentDescription
  {
    var sections: seq<string> := [];
    sections := sections + ["## 世界的起源"];
    sections := sections + [world.originStory];
    sections := sections + ["\n## 地理环境"];
    sections := sections + [world.geographyDescription];
    sections := sections + ["\n## 文明发展"];
    sections := sections + [world.developmentDescription];
    text := Join(sections, "\n");
    assert Join(sections[4..], "\n") == sections[4] + "\n" + sections[5];
    assert Join(sections[3..], "\n") == sections[3] + "\n" + Join(sections[4..], "\n");
    assert Join(sections[2..], "\n") == sections[2] + "\n" + Join(sections[3..], "\n");
    assert Join(sections[1..], "\n") == sections[1] + "\n" + Join(sections[2..], "\n");
  }

  datatype ParsedInput = ParsedInput(rawInput: string, keywords: seq<string>, themes: seq<string>)

  /** `process_input`, with the extracted keywords given. */
  method ProcessInput(userInput: string, keywords: seq<string>) returns (parsed: ParsedInput)
    ensures parsed.rawInput == userInput && parsed.keywords == keywords
    ensures RankedThemes(keywords, ThemeNames, ThemeKeywords, parsed.themes)
  {
    var themes := IdentifyThemes(keywords);
    parsed := ParsedInput(userInput, keywords, themes);
  }
}
