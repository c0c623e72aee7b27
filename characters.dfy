/**
 * The character record the tale-weaver character components work on: a character and its
 * relationships to other characters, each with a kind, a strength and a bidirectional flag.
 */
module Characters {
  import opened Wrappers

  /** The relationship types the components name, and any other string. */
  datatype RelationKind = Friend | Enemy | Family | Lover | OtherKind(name: string)

  datatype CharacterRelationship = CharacterRelationship(
    targetId: string, kind: RelationKind, description: string, strength: int, bidirectional: bool)

  datatype Character = Character(id: string, name: string, relationships: seq<CharacterRelationship>)

  /** `relationships.find(r => r.targetId === id)`: the first relationship to `id`. */
  function FindTo(relationships: seq<CharacterRelationship>, id: string): (r: Option<CharacterRelationship>)
    ensures r.None? <==> forall i :: 0 <= i < |relationships| ==> relationships[i].targetId != id
    ensures r.Some? ==> r.value in relationships && r.value.targetId == id
    ensures r.Some? ==> exists i :: (0 <= i < |relationships| && relationships[i] == r.value
      && forall j :: 0 <= j < i ==> relationships[j].targetId != id)
  {
    if relationships == [] then None
    else if relationships[0].targetId == id then Some(relationships[0])
    else
      var rest := FindTo(relationships[1..], id);
      assert rest.None? ==> forall i :: 1 <= i < |relationships| ==> relationships[i].targetId != id by {
        if rest.None? {
          forall i | 1 <= i < |relationships| ensures relationships[i].targetId != id {
            assert relationships[1..][i - 1] == relationships[i];
          }
        }
      }
      assert rest.Some? ==> exists i :: (0 <= i < |relationships| && relationships[i] == rest.value
        && forall j :: 0 <= j < i ==> relationships[j].targetId != id) by {
        if rest.Some? {
          var k :| 0 <= k < |relationships[1..]| && relationships[1..][k] == rest.value
            && forall j :: 0 <= j < k ==> relationships[1..][j].targetId != id;
          assert relationships[k + 1] == rest.value;
          forall j | 0 <= j < k + 1 ensures relationships[j].targetId != id {
            if j > 0 {
              assert relationships[j] == relationships[1..][j - 1];
            }
          }
        }
      }
      rest
  }
}
