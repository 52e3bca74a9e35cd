/** The student's project list (src/pages/student/StudentHomePage.tsx): the
    demo projects filtered by a search term and a status filter. The page
    reads the demo list directly, not the project store. */
module StudentHome {
  import opened Types
  import opened Text
  import DemoData

  /** The status filter: `'all'` or one status. */
  datatype StatusFilter = All | Only(status: ProjectStatus)

  /** The filter's predicate: the term occurs in the title or the
      description, and the filter is 'all' or names the project's status. */
  predicate Shown(p: Project, term: string, filter: StatusFilter) {
    (Contains(p.title, term) || Contains(p.description, term))
    && (filter == All || p.status == filter.status)
  }

  /** `ps.filter(...)` */
  function FilterProjects(ps: seq<Project>, term: string, filter: StatusFilter): (r: seq<Project>)
    ensures |r| <= |ps|
  {
    if ps == [] then []
    else (if Shown(ps[0], term, filter) then [ps[0]] else []) + FilterProjects(ps[1..], term, filter)
  }

  /** What the page lists. */
  function VisibleProjects(term: string, filter: StatusFilter): seq<Project> {
    FilterProjects(DemoData.DemoProjects(), term, filter)
  }

  /** A project is listed exactly when it is in the input and passes the
      predicate. */
  lemma {:induction false} FilterMembers(ps: seq<Project>, term: string, filter: StatusFilter)
    ensures forall p :: p in FilterProjects(ps, term, filter) <==> p in ps && Shown(p, term, filter)
  {
    if ps != [] {
      FilterMembers(ps[1..], term, filter);
      assert forall p :: p in ps <==> p == ps[0] || p in ps[1..];
    }
  }

  /** The results keep the input order: filtering a concatenation filters
      each part in place. */
  lemma {:induction false} FilterAppend(a: seq<Project>, b: seq<Project>, term: string, filter: StatusFilter)
    ensures FilterProjects(a + b, term, filter) == FilterProjects(a, term, filter) + FilterProjects(b, term, filter)
  {
    if a == [] {
      assert a + b == b;
    } else {
      assert (a + b)[0] == a[0] && (a + b)[1..] == a[1..] + b;
      FilterAppend(a[1..], b, term, filter);
    }
  }

  /** With an empty term and the 'all' filter every project is listed, in
      order. */
  lemma {:induction false} EmptySearchShowsAll(ps: seq<Project>)
    ensures FilterProjects(ps, "", All) == ps
  {
    if ps != [] {
      ContainsEmpty(ps[0].title);
      EmptySearchShowsAll(ps[1..]);
    }
  }

  /** The results for one status are the results for 'all' narrowed to that
      status, so they are a sub-list of them. */
  lemma {:induction false} OneStatusNarrowsAll(ps: seq<Project>, term: string, s: ProjectStatus)
    ensures FilterProjects(ps, term, Only(s)) == FilterByStatus(FilterProjects(ps, term, All), s)
    ensures forall p :: p in FilterProjects(ps, term, Only(s)) ==> p in FilterProjects(ps, term, All)
  {
    FilterMembers(ps, term, Only(s));
    FilterMembers(ps, term, All);
    if ps != [] {
      OneStatusNarrowsAll(ps[1..], term, s);
      var rest := FilterProjects(ps[1..], term, All);
      if Shown(ps[0], term, All) {
        assert FilterProjects(ps, term, All) == [ps[0]] + rest;
        assert ([ps[0]] + rest)[1..] == rest;
      } else {
        assert FilterProjects(ps, term, All) == rest;
      }
    }
  }

  /** The projects of a list with the given status, in order. */
  function FilterByStatus(ps: seq<Project>, s: ProjectStatus): seq<Project> {
    if ps == [] then []
    else (if ps[0].status == s then [ps[0]] else []) + FilterByStatus(ps[1..], s)
  }

  /** Only demo projects are listed, so a project added through the store
      never shows up here; with no term and no filter the list is the demo
      list itself. */
  lemma OnlyDemoProjects(term: string, filter: StatusFilter)
    ensures forall p :: p in VisibleProjects(term, filter) ==> p in DemoData.DemoProjects()
    ensures VisibleProjects("", All) == DemoData.DemoProjects()
  {
    FilterMembers(DemoData.DemoProjects(), term, filter);
    EmptySearchShowsAll(DemoData.DemoProjects());
  }
}
