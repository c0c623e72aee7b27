/**
 * The `RoleManager` of the web app: a table of registered roles and the set of active ones.
 * A JavaScript `Set` iterates in insertion order, so the active roles are a duplicate-free
 * sequence in the order they were activated.
 */
module RoleManager {
  import opened Seqs

  datatype RoleKind = Management | Creation | OtherRoleKind(name: string)

  datatype Role = Role(id: string, name: string, kind: RoleKind, priority: int, description: string, avatar: string)

  const ProductManager := Role("product_manager", "产品经理", Management, 1, "需求分析和任务分配，把控创作方向", "/avatars/pm.png")
  const WorldBuilder := Role("world_builder", "世界观架构师", Creation, 2, "构建小说世界观和设定", "/avatars/world.png")

  /** `initializeRoles`: the two default roles, by id. */
  function DefaultRoles(): (roles: map<string, Role>)
    ensures roles.Keys == {"product_manager", "world_builder"}
    ensures |roles| == 2
    ensures forall id :: id in roles ==> roles[id].id == id
  {
    assert "product_manager" != "world_builder" by {
      assert "product_manager"[0] != "world_builder"[0];
    }
    map["product_manager" := ProductManager, "world_builder" := WorldBuilder]
  }

  /** `Set.add`: a new id goes at the end, a present one stays where it is. */
  function AddToSet(active: seq<string>, id: string): (r: seq<string>)
    ensures forall x :: x in r <==> x in active || x == id
    ensures Distinct(active) ==> Distinct(r)
  {
    if id in active then active else active + [id]
  }

  /** Activating an id twice is activating it once. */
  lemma AddToSetIdempotent(active: seq<string>, id: string)
    ensures AddToSet(AddToSet(active, id), id) == AddToSet(active, id)
  {
  }

  function NotId(id: string): string -> bool
  {
    (x: string) => x != id
  }

  function ByPriority(): Role -> int
  {
    (r: Role) => r.priority
  }

  /** The roles of the given ids, looked up in the table. */
  function RolesOf(roles: map<string, Role>, ids: seq<string>): (r: seq<Role>)
    requires forall i :: 0 <= i < |ids| ==> ids[i] in roles
    ensures |r| == |ids| && forall i :: 0 <= i < |r| ==> r[i] == roles[ids[i]]
  {
    seq(|ids|, i requires 0 <= i < |ids| => roles[ids[i]])
  }

  class RoleManager {
    var roles: map<string, Role>
    /** `activeRoles`, in insertion order. */
    var activeRoles: seq<string>

    /** Every active id is registered, each once, and every role is stored under its own id. */
    ghost predicate Valid()
      reads this
    {
      && Distinct(activeRoles)
      && (forall i :: 0 <= i < |activeRoles| ==> activeRoles[i] in roles)
      && (forall id :: id in roles ==> roles[id].id == id)
    }

    /** Two roles are registered and none is active. */
    constructor ()
      ensures roles == DefaultRoles() && |roles| == 2 && activeRoles == []
      ensures Valid()
    {
      roles := DefaultRoles();
      activeRoles := [];
    }

    /** `activateRole`: false and no change for an unregistered id; otherwise the id is active. */
    method ActivateRole(roleId: string) returns (ok: bool)
      requires Valid()
      modifies this
      ensures ok <==> roleId in roles
      ensures roles == old(roles)
      ensures !ok ==> activeRoles == old(activeRoles)
      ensures ok ==> activeRoles == AddToSet(old(activeRoles), roleId)
      ensures Valid()
    {
      if roleId !in roles {
        return false;
      }
      activeRoles := AddToSet(activeRoles, roleId);
      return true;
    }

    /** `deactivateRole`: whether the id was active; afterwards it is not. */
    method DeactivateRole(roleId: string) returns (was: bool)
      requires Valid()
      modifies this
      ensures was <==> roleId in old(activeRoles)
      ensures roles == old(roles)
      ensures activeRoles == Filter(old(activeRoles), NotId(roleId))
      ensures roleId !in activeRoles
      ensures Valid()
    {
      was := roleId in activeRoles;
      FilterMember(activeRoles, NotId(roleId), roleId);
      FilterKeepsDistinct(activeRoles, NotId(roleId));
      forall i | 0 <= i < |Filter(activeRoles, NotId(roleId))| ensures Filter(activeRoles, NotId(roleId))[i] in roles {
        FilterMember(activeRoles, NotId(roleId), Filter(activeRoles, NotId(roleId))[i]);
      }
      activeRoles := Filter(activeRoles, NotId(roleId));
    }

    /** `getActiveRoles`: the active roles sorted by priority, ties in activation order. */
    function GetActiveRoles(): (r: seq<Role>)
      requires Valid()
      reads this
      ensures |r| == |activeRoles|
      ensures forall i, j :: 0 <= i < j < |r| ==> r[i].priority <= r[j].priority
      ensures multiset(r) == multiset(RolesOf(roles, activeRoles))
    {
      var listed := RolesOf(roles, activeRoles);
      SortByPermutation(listed, ByPriority());
      SortBySorted(listed, ByPriority());
      SortBy(listed, ByPriority())
    }

    /** Each active role is listed exactly once. */
    lemma ActiveRolesOnce()
      requires Valid()
      ensures forall i, j :: 0 <= i < j < |GetActiveRoles()| ==> GetActiveRoles()[i].id != GetActiveRoles()[j].id
      ensures forall id :: id in activeRoles ==> roles[id] in GetActiveRoles()
    {
      var r := GetActiveRoles();
      var listed := RolesOf(roles, activeRoles);
      assert forall i :: 0 <= i < |listed| ==> listed[i].id == activeRoles[i];
      assert Distinct(listed) by {
        forall i, j | 0 <= i < j < |listed| ensures listed[i] != listed[j] {
          assert listed[i].id == activeRoles[i] && listed[j].id == activeRoles[j];
        }
      }
      PermutationDistinct(listed, r);
      forall i, j | 0 <= i < j < |r| ensures r[i].id != r[j].id {
        assert r[i] in multiset(listed) && r[j] in multiset(listed);
        var a := IndexIn(listed, r[i]);
        var b := IndexIn(listed, r[j]);
        assert r[i] != r[j];
        assert r[i].id == activeRoles[a] && r[j].id == activeRoles[b];
      }
      forall id | id in activeRoles ensures roles[id] in r {
        var k := IndexIn(activeRoles, id);
        assert listed[k] == roles[id];
        assert roles[id] in multiset(listed);
      }
    }
  }
}
