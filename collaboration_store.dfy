/**
 * The collaboration store of the agent project: the collaborators present, by role id, with their
 * status and when they were last active. `Date.now()` is a parameter.
 */
module CollaborationStore {
  import opened Wrappers

  datatype CollaboratorStatus = Joined | Left | Typing

  /**
   * A collaborator. `roleId` is absent on an entry that `updateCollaboratorStatus` created for a
   * role id that had none: spreading `undefined` copies no fields.
   */
  datatype Collaborator = Collaborator(roleId: Option<string>, status: CollaboratorStatus, lastActive: int)

  type Collaborators = map<string, Collaborator>

  /** `addCollaborator`: the entry for `roleId` is set, or overwritten, with the given status. */
  function AddCollaborator(c: Collaborators, roleId: string, status: CollaboratorStatus, now: int): (r: Collaborators)
    ensures r.Keys == c.Keys + {roleId}
    ensures r[roleId] == Collaborator(Some(roleId), status, now)
    ensures forall k :: k in c && k != roleId ==> r[k] == c[k]
  {
    c[roleId := Collaborator(Some(roleId), status, now)]
  }

  /** `removeCollaborator`: only that key goes. */
  function RemoveCollaborator(c: Collaborators, roleId: string): (r: Collaborators)
    ensures r.Keys == c.Keys - {roleId}
    ensures forall k :: k in r ==> r[k] == c[k]
  {
    map k | k in c && k != roleId :: c[k]
  }

  /** `updateCollaboratorStatus`: the entry keeps its role id and gets the new status and time. */
  function UpdateCollaboratorStatus(c: Collaborators, roleId: string, status: CollaboratorStatus, now: int): (r: Collaborators)
    ensures r.Keys == c.Keys + {roleId}
    ensures roleId in c ==> r[roleId] == c[roleId].(status := status, lastActive := now)
    ensures roleId !in c ==> r[roleId] == Collaborator(None, status, now)
    ensures forall k :: k in c && k != roleId ==> r[k] == c[k]
  {
    var previous := if roleId in c then c[roleId].roleId else None;
    c[roleId := Collaborator(previous, status, now)]
  }

  /** Every entry the store builds through `addCollaborator` is filed under its own role id. */
  predicate Filed(c: Collaborators)
  {
    forall k :: k in c ==> c[k].roleId == Some(k)
  }

  /** Adding and removing keep every entry under its own role id; so does a status update of a present one. */
  lemma FiledPreserved(c: Collaborators, roleId: string, status: CollaboratorStatus, now: int)
    requires Filed(c)
    ensures Filed(AddCollaborator(c, roleId, status, now))
    ensures Filed(RemoveCollaborator(c, roleId))
    ensures roleId in c ==> Filed(UpdateCollaboratorStatus(c, roleId, status, now))
  {
  }

  /** A status update of a role that has no entry leaves one without a role id. */
  lemma UpdateAbsentUnfiled(c: Collaborators, roleId: string, status: CollaboratorStatus, now: int)
    requires roleId !in c
    ensures !Filed(UpdateCollaboratorStatus(c, roleId, status, now))
  {
    assert UpdateCollaboratorStatus(c, roleId, status, now)[roleId].roleId == None;
  }

  /** Removing after adding drops the role again. */
  lemma AddThenRemove(c: Collaborators, roleId: string, status: CollaboratorStatus, now: int)
    ensures RemoveCollaborator(AddCollaborator(c, roleId, status, now), roleId) == RemoveCollaborator(c, roleId)
  {
  }
}
