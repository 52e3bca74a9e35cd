/** The project wizard (src/pages/admin/AddProjectPage.tsx): three steps,
    the registration-field selection, the grouping of field options by
    category, loading a project for editing, and publishing. */
module AddProjectPage {
  import opened Wrappers
  import opened Types
  import DemoData
  import opened ProjectStore
  import opened NotificationStore

  // ---------------------------------------------------------------------
  // Field selection

  /** `sel.filter(f => f !== field)` */
  function Without(sel: seq<string>, field: string): seq<string> {
    if sel == [] then []
    else (if sel[0] != field then [sel[0]] else []) + Without(sel[1..], field)
  }

  /** toggleField: a selected field is removed, every copy of it; any other
      field is appended at the end. */
  function ToggleField(sel: seq<string>, field: string): seq<string> {
    if field in sel then Without(sel, field) else sel + [field]
  }

  /** Removing keeps every other field and drops all copies of this one. */
  lemma {:induction false} WithoutMembers(sel: seq<string>, field: string)
    ensures forall x :: x in Without(sel, field) <==> x in sel && x != field
    ensures |Without(sel, field)| <= |sel|
  {
    if sel != [] {
      WithoutMembers(sel[1..], field);
      assert forall x :: x in sel <==> x == sel[0] || x in sel[1..];
    }
  }

  /** Removing a field that is not there changes nothing. */
  lemma {:induction false} WithoutAbsent(sel: seq<string>, field: string)
    requires field !in sel
    ensures Without(sel, field) == sel
  {
    if sel != [] {
      assert field !in sel[1..] by {
        assert forall x :: x in sel[1..] ==> x in sel;
      }
      WithoutAbsent(sel[1..], field);
    }
  }

  /** Removing from a concatenation removes from each part in place, so the
      order of the remaining fields is kept. */
  lemma {:induction false} WithoutAppend(a: seq<string>, b: seq<string>, field: string)
    ensures Without(a + b, field) == Without(a, field) + Without(b, field)
  {
    if a == [] {
      assert a + b == b;
    } else {
      assert (a + b)[0] == a[0] && (a + b)[1..] == a[1..] + b;
      WithoutAppend(a[1..], b, field);
    }
  }

  /** Toggling an unselected field twice gives back the selection; toggling
      a selected field twice drops its duplicates and moves it to the end. */
  lemma ToggleTwice(sel: seq<string>, field: string)
    ensures field !in sel ==> ToggleField(ToggleField(sel, field), field) == sel
    ensures field in sel ==> ToggleField(ToggleField(sel, field), field) == Without(sel, field) + [field]
  {
    WithoutMembers(sel, field);
    if field !in sel {
      assert field in sel + [field];
      WithoutAppend(sel, [field], field);
      WithoutAbsent(sel, field);
      assert Without([field], field) == [];
    }
  }

  // ---------------------------------------------------------------------
  // Grouping the field options

  /** The options of one category, in their original order. */
  function InCategory(opts: seq<FormField>, c: FieldCategory): seq<FormField> {
    if opts == [] then []
    else (if opts[0].category == c then [opts[0]] else []) + InCategory(opts[1..], c)
  }

  lemma {:induction false} InCategoryAppend(a: seq<FormField>, b: seq<FormField>, c: FieldCategory)
    ensures InCategory(a + b, c) == InCategory(a, c) + InCategory(b, c)
  {
    if a == [] {
      assert a + b == b;
    } else {
      assert (a + b)[0] == a[0] && (a + b)[1..] == a[1..] + b;
      InCategoryAppend(a[1..], b, c);
    }
  }

  /** A group holds exactly the options of its category. */
  lemma {:induction false} InCategoryMembers(opts: seq<FormField>, c: FieldCategory)
    ensures forall f :: f in InCategory(opts, c) <==> f in opts && f.category == c
  {
    if opts != [] {
      InCategoryMembers(opts[1..], c);
      assert forall f :: f in opts <==> f == opts[0] || f in opts[1..];
    }
  }

  /** A category no option has gets an empty group. */
  lemma {:induction false} InCategoryNone(opts: seq<FormField>, c: FieldCategory)
    requires forall j :: 0 <= j < |opts| ==> opts[j].category != c
    ensures InCategory(opts, c) == []
  {
    if opts != [] {
      InCategoryNone(opts[1..], c);
    }
  }

  /** fieldsByCategory: one pass over the options, creating a category's
      group on its first option and appending to it. Every category that
      occurs gets its group, holding its options in order, and no other
      category gets one. */
  method GroupByCategory(opts: seq<FormField>) returns (groups: map<FieldCategory, seq<FormField>>)
    ensures forall c :: c in groups <==> exists j :: 0 <= j < |opts| && opts[j].category == c
    ensures forall c :: c in groups ==> groups[c] == InCategory(opts, c)
  {
    groups := map[];
    var i := 0;
    while i < |opts|
      invariant 0 <= i <= |opts|
      invariant forall c :: c in groups <==> exists j :: 0 <= j < i && opts[j].category == c
      invariant forall c :: c in groups ==> groups[c] == InCategory(opts[..i], c)
    {
      var field := opts[i];
      InCategoryAppend(opts[..i], [field], field.category);
      assert opts[..i + 1] == opts[..i] + [field];
      if field.category !in groups {
        groups := groups[field.category := []];
        InCategoryNone(opts[..i], field.category);
      }
      groups := groups[field.category := groups[field.category] + [field]];
      forall c | c in groups
        ensures groups[c] == InCategory(opts[..i + 1], c)
      {
        InCategoryAppend(opts[..i], [field], c);
      }
      i := i + 1;
    }
    assert opts[..i] == opts;
  }

  // ---------------------------------------------------------------------
  // The wizard

  /** The project part of the form; requirements is plain text there. */
  datatype ProjectForm = ProjectForm(
    title: string,
    description: string,
    requirements: string,
    startDate: string,
    endDate: string,
    image: Option<string>)

  function EmptyForm(): ProjectForm {
    ProjectForm("", "", "", "", "", None)
  }

  /** The form filled from a stored project; missing requirements become
      the empty text. */
  function FormOf(p: Project): ProjectForm {
    ProjectForm(p.title, p.description, p.requirements.GetOr(""), p.startDate, p.endDate, p.image)
  }

  /** `{ ...projectData, formFields: selected }` as a patch: every key is
      present, the requirements text included even when empty. */
  function PublishPatch(f: ProjectForm, sel: seq<string>): ProjectPatch {
    ProjectPatch(None, Some(f.title), Some(f.description), Some(Some(f.requirements)),
                 Some(f.startDate), Some(f.endDate), Some(f.image), None, None, Some(sel))
  }

  /** The same data as addProject receives it. */
  function PublishDraft(f: ProjectForm, sel: seq<string>): ProjectDraft {
    ProjectDraft(f.title, f.description, Some(f.requirements), f.startDate, f.endDate, f.image, sel)
  }

  /** Publishing an edit leaves the id, status and count and sets every
      form field; a new project gets the same fields. */
  lemma PublishAgrees(p: Project, f: ProjectForm, sel: seq<string>, id: string)
    ensures Merge(p, PublishPatch(f, sel)).id == p.id
    ensures Merge(p, PublishPatch(f, sel)).status == p.status
    ensures Merge(p, PublishPatch(f, sel)).registeredCount == p.registeredCount
    ensures DraftOf(Merge(p, PublishPatch(f, sel))) == PublishDraft(f, sel)
    ensures DraftOf(NewProject(PublishDraft(f, sel), id)) == PublishDraft(f, sel)
  {
    NewProjectKeepsDraft(PublishDraft(f, sel), id);
  }

  const NewProjectTitle: string := "مشروع جديد متاح"

  /** The message of the notification announcing a new project. */
  function NewProjectMessage(title: string): string {
    "تم إضافة مشروع جديد: " + title + ". سارع بالتسجيل الآن!"
  }

  class Wizard {
    var step: int
    var form: ProjectForm
    var selected: seq<string>
    var editId: Option<string>

    /** The steps run from 1 to 3. */
    predicate Valid()
      reads this
    {
      1 <= step <= 3
    }

    /** `!!id`: a non-empty route id puts the wizard in edit mode. */
    predicate EditMode()
      reads this
    {
      editId.Some? && editId.value != ""
    }

    /** The wizard opens on step 1 with an empty form and the name and email
        fields selected. */
    constructor (routeId: Option<string>)
      ensures Valid() && step == 1
      ensures form == EmptyForm() && selected == ["fullName", "email"]
      ensures editId == routeId
    {
      step := 1;
      form := EmptyForm();
      selected := ["fullName", "email"];
      editId := routeId;
    }

    /** The "next" button exists only below step 3. */
    method Next()
      requires Valid() && step < 3
      modifies this
      ensures Valid() && step == old(step) + 1
      ensures form == old(form) && selected == old(selected) && editId == old(editId)
    {
      step := step + 1;
    }

    /** The "previous" button is disabled on step 1. */
    method Previous()
      requires Valid() && step != 1
      modifies this
      ensures Valid() && step == old(step) - 1
      ensures form == old(form) && selected == old(selected) && editId == old(editId)
    {
      step := step - 1;
    }

    /** A checkbox click. */
    method Toggle(field: string)
      modifies this
      ensures selected == ToggleField(old(selected), field)
      ensures step == old(step) && form == old(form) && editId == old(editId)
    {
      selected := ToggleField(selected, field);
    }

    /** The edit-mode effect: a project found under the route id fills the
        form and replaces the selection with its fields; otherwise nothing
        changes. */
    method LoadForEdit(store: Store)
      modifies this
      ensures step == old(step) && editId == old(editId)
      ensures var found := if old(EditMode()) then Find(store.projects, editId.value) else None;
        && (found.Some? ==> form == FormOf(found.value) && selected == found.value.formFields)
        && (found.None? ==> form == old(form) && selected == old(selected))
    {
      if EditMode() {
        var project := store.GetProject(editId.value);
        if project.Some? {
          form := FormOf(project.value);
          selected := project.value.formFields;
        }
      }
    }

    /** handlePublish, whose button replaces "next" on step 3: in edit mode
        the project with the route id gets the form and the selection;
        otherwise a new project is added and one success notification
        announces it. Either way the admin goes back to the project list. */
    method Publish(store: Store, notifications: NotificationStore,
                   freshProjectId: string, freshNotificationId: string, now: string)
      returns (destination: string)
      requires Valid() && step == 3
      modifies store, notifications
      ensures destination == "/admin/projects"
      ensures store.registrations == old(store.registrations)
      ensures EditMode() ==>
        && store.projects == UpdateWhere(old(store.projects), editId.value, PublishPatch(form, selected))
        && notifications.notifications == old(notifications.notifications)
      ensures !EditMode() ==>
        && store.projects == old(store.projects) + [NewProject(PublishDraft(form, selected), freshProjectId)]
        && notifications.notifications ==
             [NewNotification(freshNotificationId, NewProjectTitle, NewProjectMessage(form.title), now, Some(Success))]
             + old(notifications.notifications)
    {
      if EditMode() {
        store.UpdateProject(editId.value, PublishPatch(form, selected));
      } else {
        var _ := store.AddProject(PublishDraft(form, selected), freshProjectId);
        var _ := notifications.AddNotification(NewProjectTitle, NewProjectMessage(form.title),
                                               Some(Success), freshNotificationId, now);
      }
      destination := "/admin/projects";
    }
  }

  /** The options offered by the wizard, grouped: every one of the six
      categories has a group. */
  method DemoGroups() returns (groups: map<FieldCategory, seq<FormField>>)
    ensures forall c :: c in groups ==> groups[c] == InCategory(DemoData.FormFieldOptions(), c)
    ensures forall c: FieldCategory :: c in groups
  {
    groups := GroupByCategory(DemoData.FormFieldOptions());
    var opts := DemoData.FormFieldOptions();
    assert opts[0].category == Basic && opts[6].category == Education && opts[10].category == Additional;
    assert opts[15].category == Links && opts[19].category == Files && opts[24].category == Custom;
  }
}
