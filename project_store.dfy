/** The project and registration store (src/hooks/useProjects.ts). It holds
    two lists, and every operation replaces one of them with a new list built
    by a map, a filter or an append. Persistence to local storage is left
    out; the lists live in memory. */
module ProjectStore {
  import opened Wrappers
  import opened Types
  import DemoData

  // ---------------------------------------------------------------------
  // Projects

  /** `Partial<Project>`: a present key replaces the field, an absent key
      keeps it. For the optional fields `Some(None)` is a key present with
      the value `undefined`, which the spread copies like any other value. */
  datatype ProjectPatch = ProjectPatch(
    id: Option<string>,
    title: Option<string>,
    description: Option<string>,
    requirements: Option<Option<string>>,
    startDate: Option<string>,
    endDate: Option<string>,
    image: Option<Option<string>>,
    status: Option<ProjectStatus>,
    registeredCount: Option<int>,
    formFields: Option<seq<string>>)

  /** The empty patch `{}`. */
  function NoChange(): ProjectPatch {
    ProjectPatch(None, None, None, None, None, None, None, None, None, None)
  }

  /** `{ ...p, ...u }` */
  function Merge(p: Project, u: ProjectPatch): Project {
    Project(
      u.id.GetOr(p.id),
      u.title.GetOr(p.title),
      u.description.GetOr(p.description),
      u.requirements.GetOr(p.requirements),
      u.startDate.GetOr(p.startDate),
      u.endDate.GetOr(p.endDate),
      u.image.GetOr(p.image),
      u.status.GetOr(p.status),
      u.registeredCount.GetOr(p.registeredCount),
      u.formFields.GetOr(p.formFields))
  }

  /** The empty patch changes nothing. */
  lemma MergeNoChange(p: Project)
    ensures Merge(p, NoChange()) == p
  {
  }

  /** What addProject receives: a project without id, status and count. */
  datatype ProjectDraft = ProjectDraft(
    title: string,
    description: string,
    requirements: Option<string>,
    startDate: string,
    endDate: string,
    image: Option<string>,
    formFields: seq<string>)

  /** The project addProject builds from a draft and a fresh id. */
  function NewProject(d: ProjectDraft, id: string): Project {
    Project(id, d.title, d.description, d.requirements, d.startDate, d.endDate,
            d.image, Open, 0, d.formFields)
  }

  /** The caller's part of a project. */
  function DraftOf(p: Project): ProjectDraft {
    ProjectDraft(p.title, p.description, p.requirements, p.startDate, p.endDate,
                 p.image, p.formFields)
  }

  /** A new project is open, has nobody registered, carries the given id and
      gives back exactly the caller's fields. */
  lemma NewProjectKeepsDraft(d: ProjectDraft, id: string)
    ensures DraftOf(NewProject(d, id)) == d
    ensures NewProject(d, id).id == id
    ensures NewProject(d, id).status == Open && NewProject(d, id).registeredCount == 0
  {
  }

  /** `ps.map(p => p.id === id ? { ...p, ...u } : p)` */
  function UpdateWhere(ps: seq<Project>, id: string, u: ProjectPatch): seq<Project> {
    if ps == [] then []
    else [if ps[0].id == id then Merge(ps[0], u) else ps[0]] + UpdateWhere(ps[1..], id, u)
  }

  /** updateProject merges the patch into every project with the id and
      leaves the others, the length and the order as they were. */
  lemma {:induction false} UpdateWhereSpec(ps: seq<Project>, id: string, u: ProjectPatch)
    ensures |UpdateWhere(ps, id, u)| == |ps|
    ensures forall i :: 0 <= i < |ps| ==>
      UpdateWhere(ps, id, u)[i] == if ps[i].id == id then Merge(ps[i], u) else ps[i]
  {
    if ps != [] {
      UpdateWhereSpec(ps[1..], id, u);
      var r := UpdateWhere(ps, id, u);
      forall i | 0 <= i < |ps|
        ensures r[i] == if ps[i].id == id then Merge(ps[i], u) else ps[i]
      {
        if i > 0 { assert r[i] == UpdateWhere(ps[1..], id, u)[i - 1]; }
      }
    }
  }

  /** updateProject with an id no project has changes nothing. */
  lemma UpdateUnknownIdIsNoOp(ps: seq<Project>, id: string, u: ProjectPatch)
    requires forall i :: 0 <= i < |ps| ==> ps[i].id != id
    ensures UpdateWhere(ps, id, u) == ps
  {
    UpdateWhereSpec(ps, id, u);
  }

  /** `ps.filter(p => p.id !== id)` */
  function RemoveWhere(ps: seq<Project>, id: string): seq<Project> {
    if ps == [] then []
    else (if ps[0].id != id then [ps[0]] else []) + RemoveWhere(ps[1..], id)
  }

  /** deleteProject keeps exactly the projects with another id. */
  lemma {:induction false} RemoveWhereMembers(ps: seq<Project>, id: string)
    ensures forall p :: p in RemoveWhere(ps, id) <==> p in ps && p.id != id
  {
    if ps != [] {
      RemoveWhereMembers(ps[1..], id);
      assert forall p :: p in ps <==> p == ps[0] || p in ps[1..];
    }
  }

  /** deleteProject keeps the order: filtering a concatenation filters each
      part in place. */
  lemma {:induction false} RemoveWhereAppend(a: seq<Project>, b: seq<Project>, id: string)
    ensures RemoveWhere(a + b, id) == RemoveWhere(a, id) + RemoveWhere(b, id)
  {
    if a == [] {
      assert a + b == b;
    } else {
      assert (a + b)[0] == a[0] && (a + b)[1..] == a[1..] + b;
      RemoveWhereAppend(a[1..], b, id);
    }
  }

  /** The position of the first project with the id, or `|ps|` if none. */
  function FirstIndex(ps: seq<Project>, id: string): (k: nat)
    ensures k <= |ps|
    ensures k < |ps| ==> ps[k].id == id
    ensures forall j :: 0 <= j < k ==> ps[j].id != id
  {
    if ps == [] then 0
    else if ps[0].id == id then 0
    else 1 + FirstIndex(ps[1..], id)
  }

  /** `ps.find(p => p.id === id)` */
  function Find(ps: seq<Project>, id: string): Option<Project> {
    var k := FirstIndex(ps, id);
    if k < |ps| then Some(ps[k]) else None
  }

  /** getProject returns the first project with the id, and nothing exactly
      when no project has it. */
  lemma FindIsFirstMatch(ps: seq<Project>, id: string)
    ensures Find(ps, id).None? <==> forall i :: 0 <= i < |ps| ==> ps[i].id != id
    ensures Find(ps, id).Some? ==>
      exists k :: 0 <= k < |ps| && Find(ps, id).value == ps[k] && ps[k].id == id
                  && forall j :: 0 <= j < k ==> ps[j].id != id
  {
    var k := FirstIndex(ps, id);
    if k < |ps| {
      assert Find(ps, id).value == ps[k];
    }
  }

  // ---------------------------------------------------------------------
  // Registrations

  /** The registration registerForProject builds; `now` is the ISO time. */
  function NewRegistration(id: string, projectId: string, project: Project,
                           formData: map<string, string>, now: string): Registration
  {
    Registration(id, projectId, project.title, now, Registered, 0, None, None, None, Some(formData))
  }

  /** The patch `{ registeredCount: n }`. */
  function CountPatch(n: int): ProjectPatch {
    NoChange().(registeredCount := Some(n))
  }

  /** Registering raises the registered count of the first project with the
      id by exactly one; every project with that id gets the same new count,
      and only the count changes; projects with other ids are untouched. */
  lemma RegisterBumpsCount(ps: seq<Project>, projectId: string)
    requires FirstIndex(ps, projectId) < |ps|
    ensures var k := FirstIndex(ps, projectId);
            var n := ps[k].registeredCount + 1;
            var r := UpdateWhere(ps, projectId, CountPatch(n));
            && |r| == |ps|
            && r[k].registeredCount == ps[k].registeredCount + 1
            && (forall i :: 0 <= i < |ps| && ps[i].id == projectId ==>
                  r[i] == ps[i].(registeredCount := n))
            && (forall i :: 0 <= i < |ps| && ps[i].id != projectId ==> r[i] == ps[i])
  {
    var k := FirstIndex(ps, projectId);
    UpdateWhereSpec(ps, projectId, CountPatch(ps[k].registeredCount + 1));
  }

  /** The file data addFileToRegistration receives. */
  datatype FileData = FileData(name: string, size: string, fileType: string, url: string)

  function NewFile(fd: FileData, fileId: string, now: string): UploadedFile {
    UploadedFile(fileId, fd.name, fd.fileType, fd.size, now, fd.url)
  }

  /** `regs.map(reg => reg.id === regId ? { ...reg, uploadedFiles, filesCount, status } : reg)` */
  function AttachWhere(regs: seq<Registration>, regId: string, f: UploadedFile): seq<Registration> {
    if regs == [] then []
    else
      var r := regs[0];
      var files := r.uploadedFiles.GetOr([]) + [f];
      [if r.id == regId
       then r.(uploadedFiles := Some(files), filesCount := |files|, status := InProgress)
       else r]
      + AttachWhere(regs[1..], regId, f)
  }

  /** addFileToRegistration appends the file to every registration with the
      id, sets its count to the new list's length and its status to
      in-progress, and changes nothing else. */
  lemma {:induction false} AttachWhereSpec(regs: seq<Registration>, regId: string, f: UploadedFile)
    ensures |AttachWhere(regs, regId, f)| == |regs|
    ensures forall i :: 0 <= i < |regs| && regs[i].id != regId ==> AttachWhere(regs, regId, f)[i] == regs[i]
    ensures forall i :: 0 <= i < |regs| && regs[i].id == regId ==>
      var r := AttachWhere(regs, regId, f)[i];
      && r.uploadedFiles == Some(regs[i].uploadedFiles.GetOr([]) + [f])
      && r.filesCount == |r.uploadedFiles.value|
      && r.status == InProgress
      && r.(uploadedFiles := regs[i].uploadedFiles, filesCount := regs[i].filesCount,
            status := regs[i].status) == regs[i]
  {
    if regs != [] {
      AttachWhereSpec(regs[1..], regId, f);
      var out := AttachWhere(regs, regId, f);
      forall i | 1 <= i < |regs| ensures out[i] == AttachWhere(regs[1..], regId, f)[i - 1] {
      }
    }
  }

  // ---------------------------------------------------------------------
  // The store

  class Store {
    var projects: seq<Project>
    var registrations: seq<Registration>

    /** Without saved data the projects are the demo list and there are no
        registrations; saved lists are used as they are. */
    constructor (savedProjects: Option<seq<Project>>, savedRegistrations: Option<seq<Registration>>)
      ensures projects == savedProjects.GetOr(DemoData.DemoProjects())
      ensures registrations == savedRegistrations.GetOr([])
    {
      projects := savedProjects.GetOr(DemoData.DemoProjects());
      registrations := savedRegistrations.GetOr([]);
    }

    /** addProject: appends one open project with no registrations. */
    method AddProject(draft: ProjectDraft, freshId: string) returns (p: Project)
      modifies this
      ensures p == NewProject(draft, freshId)
      ensures projects == old(projects) + [p]
      ensures registrations == old(registrations)
    {
      p := NewProject(draft, freshId);
      projects := projects + [p];
    }

    /** updateProject */
    method UpdateProject(id: string, u: ProjectPatch)
      modifies this
      ensures projects == UpdateWhere(old(projects), id, u)
      ensures registrations == old(registrations)
    {
      projects := UpdateWhere(projects, id, u);
    }

    /** deleteProject */
    method DeleteProject(id: string)
      modifies this
      ensures projects == RemoveWhere(old(projects), id)
      ensures registrations == old(registrations)
    {
      projects := RemoveWhere(projects, id);
    }

    /** getProject */
    function GetProject(id: string): Option<Project>
      reads this
    {
      Find(projects, id)
    }

    /** registerForProject: fails on an unknown project and changes nothing;
        otherwise appends one registration and bumps the project's count. */
    method RegisterForProject(projectId: string, formData: map<string, string>,
                              freshId: string, now: string)
      returns (r: Result<Registration, string>)
      modifies this
      ensures old(Find(projects, projectId)).None? ==>
        r == Err("Project not found")
        && projects == old(projects) && registrations == old(registrations)
      ensures old(Find(projects, projectId)).Some? ==>
        var p := old(Find(projects, projectId)).value;
        && r == Ok(NewRegistration(freshId, projectId, p, formData, now))
        && registrations == old(registrations) + [r.value]
        && projects == UpdateWhere(old(projects), projectId, CountPatch(p.registeredCount + 1))
    {
      var found := GetProject(projectId);
      if found.None? {
        return Err("Project not found");
      }
      var project := found.value;
      var reg := NewRegistration(freshId, projectId, project, formData, now);
      registrations := registrations + [reg];
      UpdateProject(projectId, CountPatch(project.registeredCount + 1));
      r := Ok(reg);
    }

    /** addFileToRegistration */
    method AddFileToRegistration(registrationId: string, fileData: FileData,
                                 fileId: string, now: string)
      modifies this
      ensures registrations == AttachWhere(old(registrations), registrationId, NewFile(fileData, fileId, now))
      ensures projects == old(projects)
    {
      registrations := AttachWhere(registrations, registrationId, NewFile(fileData, fileId, now));
    }
  }
}
