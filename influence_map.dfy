/**
 * `calculateInfluenceScores` of tale-weaver's character influence map: for every character, a
 * score of how strongly the viewed character's relationship to it weighs, a classification, the
 * reasons, and the list sorted by the size of the score; and the count of key influences.
 */
module InfluenceMap {
  import opened Wrappers
  import opened Strings
  import opened Seqs
  import opened Characters

  datatype InfluenceKind = Positive | Negative | Neutral

  datatype InfluenceScore = InfluenceScore(character: Character, score: int, kind: InfluenceKind, reason: string)

  /** The bonus each relationship type adds to the score. */
  function KindBonus(kind: RelationKind): int
  {
    match kind
    case Friend => 3
    case Enemy => -2
    case Family => 4
    case Lover => 5
    case OtherKind(_) => 0
  }

  function KindReason(kind: RelationKind): seq<string>
  {
    match kind
    case Friend => ["友好关系"]
    case Enemy => ["对立关系"]
    case Family => ["家庭关系"]
    case Lover => ["亲密关系"]
    case OtherKind(_) => []
  }

  const MutualReason := "双向影响"

  /** Whether the +2 for mutual influence applies: the target points back and the relationship is marked bidirectional. */
  predicate Mutual(relationship: CharacterRelationship, character: Character, target: Character)
  {
    FindTo(target.relationships, character.id).Some? && relationship.bidirectional
  }

  /** The score as a formula: twice the strength, the type's bonus, and 2 for a mutual relationship; 0 without one. */
  function Score(character: Character, target: Character): int
  {
    match FindTo(character.relationships, target.id)
    case None => 0
    case Some(r) => 2 * r.strength + KindBonus(r.kind) + (if Mutual(r, character, target) then 2 else 0)
  }

  function Reasons(character: Character, target: Character): seq<string>
  {
    match FindTo(character.relationships, target.id)
    case None => []
    case Some(r) => KindReason(r.kind) + (if Mutual(r, character, target) then [MutualReason] else [])
  }

  /** Above 5 is positive, below -2 negative, anything between neutral. */
  function Classify(score: int): (k: InfluenceKind)
    ensures k == Positive <==> score > 5
    ensures k == Negative <==> score < -2
    ensures k == Neutral <==> -2 <= score <= 5
  {
    if score > 5 then Positive else if score < -2 then Negative else Neutral
  }

  /** The entry for one target, as a specification. */
  function Influence(character: Character, target: Character): InfluenceScore
  {
    var s := Score(character, target);
    InfluenceScore(target, s, Classify(s), Join(Reasons(character, target), "、"))
  }

  /**
   * The body of the `map` callback: the score and the reasons built up step by step from the
   * relationship to the target and the one back.
   */
  method ScoreTarget(character: Character, target: Character) returns (entry: InfluenceScore)
    ensures entry == Influence(character, target)
  {
    var score := 0;
    var kind := Neutral;
    var reasons: seq<string> := [];
    var relationship := FindTo(character.relationships, target.id);
    var reverse := FindTo(target.relationships, character.id);
    if relationship.Some? {
      var r := relationship.value;
      score := score + r.strength * 2;
      match r.kind {
        case Friend =>
          score := score + 3;
          reasons := reasons + ["友好关系"];
        case Enemy =>
          score := score - 2;
          reasons := reasons + ["对立关系"];
        case Family =>
          score := score + 4;
          reasons := reasons + ["家庭关系"];
        case Lover =>
          score := score + 5;
          reasons := reasons + ["亲密关系"];
        case OtherKind(_) =>
      }
      if reverse.Some? && r.bidirectional {
        score := score + 2;
        reasons := reasons + ["双向影响"];
      }
    }
    if score > 5 {
      kind := Positive;
    } else if score < -2 {
      kind := Negative;
    }
    entry := InfluenceScore(target, score, kind, Join(reasons, "、"));
  }

  /** `Math.abs(b.score) - Math.abs(a.score)`: larger scores in size first, ties in input order. */
  function ByMagnitude(): InfluenceScore -> int
  {
    (e: InfluenceScore) => if e.score < 0 then e.score else -e.score
  }

  function Influences(character: Character, characters: seq<Character>): (r: seq<InfluenceScore>)
    ensures |r| == |characters|
    ensures forall i :: 0 <= i < |r| ==> r[i] == Influence(character, characters[i])
  {
    seq(|characters|, i requires 0 <= i < |characters| => Influence(character, characters[i]))
  }

  function Abs(n: int): nat
  {
    if n < 0 then -n else n
  }

  /** `calculateInfluenceScores`: one entry per character, then the stable sort by size of score. */
  method CalculateInfluenceScores(character: Character, characters: seq<Character>) returns (scores: seq<InfluenceScore>)
    ensures scores == SortBy(Influences(character, characters), ByMagnitude())
  {
    var entries: seq<InfluenceScore> := [];
    var i := 0;
    while i < |characters|
      invariant 0 <= i <= |characters|
      invariant entries == Influences(character, characters[..i])
    {
      var entry := ScoreTarget(character, characters[i]);
      assert characters[..i + 1] == characters[..i] + [characters[i]];
      entries := entries + [entry];
      i := i + 1;
    }
    assert characters[..i] == characters;
    scores := SortBy(entries, ByMagnitude());
  }

  /** The sorted list holds each character's entry once and runs from the largest score in size down. */
  lemma ScoresSorted(character: Character, characters: seq<Character>)
    ensures var r := SortBy(Influences(character, characters), ByMagnitude());
      && multiset(r) == multiset(Influences(character, characters))
      && forall i, j :: 0 <= i < j < |r| ==> Abs(r[i].score) >= Abs(r[j].score)
  {
    SortByPermutation(Influences(character, characters), ByMagnitude());
    SortBySorted(Influences(character, characters), ByMagnitude());
  }

  /** A character the viewed one has no relationship to scores 0, is neutral and has no reason. */
  lemma NoRelationshipNeutral(character: Character, target: Character)
    requires forall i :: 0 <= i < |character.relationships| ==> character.relationships[i].targetId != target.id
    ensures Influence(character, target) == InfluenceScore(target, 0, Neutral, "")
  {
  }

  /** With every strength at least 1 no score is below 0, so no entry is negative. */
  lemma NoNegativeInfluence(character: Character, target: Character)
    requires forall i :: 0 <= i < |character.relationships| ==> character.relationships[i].strength >= 1
    ensures Influence(character, target).score >= 0
    ensures Influence(character, target).kind != Negative
  {
    var r := FindTo(character.relationships, target.id);
    if r.Some? {
      var k :| 0 <= k < |character.relationships| && character.relationships[k] == r.value;
      assert r.value.strength >= 1;
    }
  }

  /** Entries with a score above 5 in size: the "key influences" count. */
  function KeyCount(scores: seq<InfluenceScore>): (n: nat)
    ensures n <= |scores|
  {
    if scores == [] then 0 else IsKey(scores[0]) + KeyCount(scores[1..])
  }

  function IsKey(e: InfluenceScore): nat
  {
    if Abs(e.score) > 5 then 1 else 0
  }

  lemma {:induction false} KeyCountInsert(x: InfluenceScore, s: seq<InfluenceScore>)
    ensures KeyCount(Insert(x, s, ByMagnitude())) == IsKey(x) + KeyCount(s)
    decreases |s|
  {
    if s != [] && ByMagnitude()(x) > ByMagnitude()(s[0]) {
      KeyCountInsert(x, s[1..]);
      assert Insert(x, s, ByMagnitude())[1..] == Insert(x, s[1..], ByMagnitude());
    } else if s != [] {
      assert ([x] + s)[1..] == s;
    }
  }

  lemma {:induction false} KeyCountSortBy(s: seq<InfluenceScore>)
    ensures KeyCount(SortBy(s, ByMagnitude())) == KeyCount(s)
    decreases |s|
  {
    if s != [] {
      KeyCountSortBy(s[1..]);
      KeyCountInsert(s[0], SortBy(s[1..], ByMagnitude()));
    }
  }

  /** The key-influence count does not depend on the order: it counts the characters whose score exceeds 5 in size. */
  lemma KeyCountOfSorted(character: Character, characters: seq<Character>)
    ensures KeyCount(SortBy(Influences(character, characters), ByMagnitude())) == KeyCount(Influences(character, characters))
  {
    KeyCountSortBy(Influences(character, characters));
  }
}
