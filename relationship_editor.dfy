/**
 * The list operations of tale-weaver's character relationship editor: adding a default
 * relationship, removing or updating one by position, and the characters still available as
 * targets.
 */
module RelationshipEditor {
  import opened Wrappers
  import opened Seqs
  import opened Characters

  /** The relationship `addRelationship` appends: no target yet, a friend of strength 3, one-way. */
  const DefaultRelationship := CharacterRelationship("", Friend, "", 3, false)

  function AddRelationship(relationships: seq<CharacterRelationship>): (r: seq<CharacterRelationship>)
    ensures |r| == |relationships| + 1
    ensures r[..|relationships|] == relationships && r[|relationships|] == DefaultRelationship
  {
    relationships + [DefaultRelationship]
  }

  /** `relationships.filter((_, i) => i !== index)`, walking the list with the position left to `index`. */
  function RemoveRelationship(relationships: seq<CharacterRelationship>, index: int): (r: seq<CharacterRelationship>)
    decreases |relationships|
  {
    if relationships == [] then []
    else (if index == 0 then [] else [relationships[0]]) + RemoveRelationship(relationships[1..], index - 1)
  }

  /** Removing drops exactly the relationship at `index`, and nothing when there is none. */
  lemma {:induction false} RemoveRelationshipAt(relationships: seq<CharacterRelationship>, index: int)
    ensures 0 <= index < |relationships| ==>
      RemoveRelationship(relationships, index) == relationships[..index] + relationships[index + 1..]
    ensures !(0 <= index < |relationships|) ==> RemoveRelationship(relationships, index) == relationships
    decreases |relationships|
  {
    if relationships != [] {
      RemoveRelationshipAt(relationships[1..], index - 1);
      if index == 0 {
        assert relationships[1..] == relationships[..0] + relationships[1..];
      } else if 0 < index < |relationships| {
        assert [relationships[0]] + (relationships[1..][..index - 1] + relationships[1..][index..])
          == relationships[..index] + relationships[index + 1..];
      } else {
        assert [relationships[0]] + relationships[1..] == relationships;
      }
    }
  }

  /** `Partial<CharacterRelationship>`: the fields an update sets. */
  datatype RelationshipUpdate = RelationshipUpdate(
    targetId: Option<string>, kind: Option<RelationKind>, description: Option<string>,
    strength: Option<int>, bidirectional: Option<bool>)

  function Pick<T>(current: T, given: Option<T>): T
  {
    if given.Some? then given.value else current
  }

  /** `{ ...rel, ...updates }` */
  function Apply(rel: CharacterRelationship, u: RelationshipUpdate): CharacterRelationship
  {
    CharacterRelationship(Pick(rel.targetId, u.targetId), Pick(rel.kind, u.kind), Pick(rel.description, u.description),
      Pick(rel.strength, u.strength), Pick(rel.bidirectional, u.bidirectional))
  }

  /** `updateRelationship`: the update goes into position `index` only. */
  function UpdateRelationship(relationships: seq<CharacterRelationship>, index: int, u: RelationshipUpdate): (r: seq<CharacterRelationship>)
    ensures |r| == |relationships|
    ensures forall i :: 0 <= i < |r| && i != index ==> r[i] == relationships[i]
    ensures 0 <= index < |r| ==> r[index] == Apply(relationships[index], u)
  {
    seq(|relationships|, i requires 0 <= i < |relationships| => if i == index then Apply(relationships[i], u) else relationships[i])
  }

  /** An empty update changes nothing. */
  lemma EmptyUpdate(relationships: seq<CharacterRelationship>, index: int)
    ensures UpdateRelationship(relationships, index, RelationshipUpdate(None, None, None, None, None)) == relationships
  {
  }

  /** Whether a character can still be picked as a target: not the character itself, nor one already targeted. */
  function Available(character: Character, relationships: seq<CharacterRelationship>): Character -> bool
  {
    (c: Character) => c.id != character.id && FindTo(relationships, c.id).None?
  }

  /** `availableCharacters` */
  function AvailableCharacters(character: Character, characters: seq<Character>, relationships: seq<CharacterRelationship>): seq<Character>
  {
    Filter(characters, Available(character, relationships))
  }

  /** A character is offered exactly when it is in the list, is not the character itself and is not yet a target. */
  lemma AvailableMember(character: Character, characters: seq<Character>, relationships: seq<CharacterRelationship>, c: Character)
    ensures c in AvailableCharacters(character, characters, relationships)
      <==> (c in characters && c.id != character.id
            && forall i :: 0 <= i < |relationships| ==> relationships[i].targetId != c.id)
  {
    FilterMember(characters, Available(character, relationships), c);
  }

  /** The add button is disabled exactly when no character is available. */
  function AddDisabled(character: Character, characters: seq<Character>, relationships: seq<CharacterRelationship>): (d: bool)
    ensures d <==> forall c :: c in characters ==> !Available(character, relationships)(c)
  {
    var avail := AvailableCharacters(character, characters, relationships);
    assert avail == [] <==> forall c :: c in characters ==> !Available(character, relationships)(c) by {
      forall c | c in characters {
        FilterMember(characters, Available(character, relationships), c);
      }
      if avail != [] {
        FilterMember(characters, Available(character, relationships), avail[0]);
      }
    }
    |avail| == 0
  }
}
