/** The admin's project table (src/pages/admin/AdminProjectsPage.tsx): the
    open/closed toggle and deletion, both through the project store. */
module AdminProjectsPage {
  import opened Wrappers
  import opened Types
  import opened ProjectStore

  /** toggleStatus's new status: a closed project opens, any other one
      closes. */
  function ToggledStatus(current: ProjectStatus): (next: ProjectStatus)
    ensures current == Closed ==> next == Open
    ensures current != Closed ==> next == Closed
  {
    if current == Closed then Open else Closed
  }

  /** The toggle is its own inverse except on 'closing-soon', which comes
      back as 'open' after two clicks. */
  lemma ToggleTwice(s: ProjectStatus)
    ensures ToggledStatus(ToggledStatus(s)) == s <==> s != ClosingSoon
    ensures ToggledStatus(ToggledStatus(ClosingSoon)) == Open
  {
  }

  /** The patch `{ status: next }`. */
  function StatusPatch(next: ProjectStatus): ProjectPatch {
    NoChange().(status := Some(next))
  }

  /** Toggling changes the status of the projects with the id and nothing
      else, in them or in any other project. */
  lemma ToggleChangesOnlyStatus(ps: seq<Project>, id: string, current: ProjectStatus)
    ensures var r := UpdateWhere(ps, id, StatusPatch(ToggledStatus(current)));
      && |r| == |ps|
      && (forall i :: 0 <= i < |ps| && ps[i].id == id ==>
            r[i] == ps[i].(status := ToggledStatus(current)))
      && (forall i :: 0 <= i < |ps| && ps[i].id != id ==> r[i] == ps[i])
  {
    UpdateWhereSpec(ps, id, StatusPatch(ToggledStatus(current)));
  }

  /** toggleStatus: the status the row shows decides the new one. */
  method ToggleStatus(store: Store, id: string, current: ProjectStatus)
    modifies store
    ensures store.projects == UpdateWhere(old(store.projects), id, StatusPatch(ToggledStatus(current)))
    ensures store.registrations == old(store.registrations)
  {
    store.UpdateProject(id, StatusPatch(ToggledStatus(current)));
  }

  /** handleDelete */
  method HandleDelete(store: Store, id: string)
    modifies store
    ensures store.projects == RemoveWhere(old(store.projects), id)
    ensures store.registrations == old(store.registrations)
  {
    store.DeleteProject(id);
  }
}
