/** The admin's registrant list (src/pages/admin/RegistrantsPage.tsx): a
    filter by search term and selected project, and the file-download
    request with its guards. */
module RegistrantsPage {
  import opened Wrappers
  import opened Types
  import opened Text

  // ---------------------------------------------------------------------
  // Filtering

  /** The list's predicate as written: the term occurs in the name or the
      email, and either no project is selected (the empty string) or the
      registrant's project is the selected value. */
  predicate ShownAsWritten(r: Registrant, term: string, selected: string) {
    (Contains(r.name, term) || Contains(r.email, term))
    && (selected == "" || r.projectId == selected)
  }

  /** The predicate with the select's "all projects" option (value 'all')
      treated like no selection, as its label promises. */
  predicate Shown(r: Registrant, term: string, selected: string) {
    (Contains(r.name, term) || Contains(r.email, term))
    && (selected == "" || selected == "all" || r.projectId == selected)
  }

  /** As written, choosing "all projects" hides every registrant whose
      project id is not literally 'all', even one that matches the search. */
  lemma AllOptionHidesEveryone(r: Registrant, term: string)
    requires r.projectId != "all"
    ensures !ShownAsWritten(r, term, "all")
    ensures Contains(r.name, term) ==> Shown(r, term, "all")
  {
  }

  /** With the correction, "all projects" lists the same registrants as no
      selection, and any other selection keeps the written behaviour. */
  lemma AllOptionMeansNoSelection(r: Registrant, term: string, selected: string)
    ensures Shown(r, term, "all") <==> ShownAsWritten(r, term, "")
    ensures selected != "all" ==> (Shown(r, term, selected) <==> ShownAsWritten(r, term, selected))
  {
  }

  /** `registrants.filter(...)` as written. */
  function FilterRegistrantsAsWritten(rs: seq<Registrant>, term: string, selected: string): (out: seq<Registrant>)
    ensures |out| <= |rs|
  {
    if rs == [] then []
    else (if ShownAsWritten(rs[0], term, selected) then [rs[0]] else [])
         + FilterRegistrantsAsWritten(rs[1..], term, selected)
  }

  /** As written, a registrant is listed exactly when the term occurs in its
      name or email and either no project is selected or its project id is
      the selected value. */
  lemma {:induction false} FilterRegistrantsAsWrittenMembers(rs: seq<Registrant>, term: string, selected: string)
    ensures forall r :: r in FilterRegistrantsAsWritten(rs, term, selected) <==>
      r in rs && (Contains(r.name, term) || Contains(r.email, term))
      && (selected == "" || r.projectId == selected)
  {
    if rs != [] {
      FilterRegistrantsAsWrittenMembers(rs[1..], term, selected);
      assert forall r :: r in rs <==> r == rs[0] || r in rs[1..];
    }
  }

  /** As written, the "all projects" option lists only registrants whose
      project id is literally 'all', so with real project ids the list is
      empty. */
  lemma AllOptionAsWrittenListsNone(rs: seq<Registrant>, term: string)
    requires forall i :: 0 <= i < |rs| ==> rs[i].projectId != "all"
    ensures FilterRegistrantsAsWritten(rs, term, "all") == []
  {
    FilterRegistrantsAsWrittenMembers(rs, term, "all");
  }

  /** `registrants.filter(...)` with the corrected predicate. */
  function FilterRegistrants(rs: seq<Registrant>, term: string, selected: string): (out: seq<Registrant>)
    ensures |out| <= |rs|
  {
    if rs == [] then []
    else (if Shown(rs[0], term, selected) then [rs[0]] else []) + FilterRegistrants(rs[1..], term, selected)
  }

  /** A registrant is listed exactly when it passes the predicate. */
  lemma {:induction false} FilterRegistrantsMembers(rs: seq<Registrant>, term: string, selected: string)
    ensures forall r :: r in FilterRegistrants(rs, term, selected) <==> r in rs && Shown(r, term, selected)
  {
    if rs != [] {
      FilterRegistrantsMembers(rs[1..], term, selected);
      assert forall r :: r in rs <==> r == rs[0] || r in rs[1..];
    }
  }

  /** With no term and "all projects", everyone is listed, in order. */
  lemma {:induction false} AllProjectsListsEveryone(rs: seq<Registrant>)
    ensures FilterRegistrants(rs, "", "all") == rs
  {
    if rs != [] {
      ContainsEmpty(rs[0].name);
      AllProjectsListsEveryone(rs[1..]);
    }
  }

  // ---------------------------------------------------------------------
  // Downloading

  /** What a download request ends in: a refusal with a message, a download
      under a file name of a named original, or nothing at all. */
  datatype DownloadAction =
    | Refused(title: string, description: string)
    | Download(fileName: string, original: string)
    | NoAction

  const NotAuthorisedTitle: string := "غير مصرح"
  const NoFilesTitle: string := "لا توجد ملفات"

  /** The English download name: `${nameEn}_${projectTitleEn}.pdf`. */
  function DownloadName(r: Registrant): string {
    r.nameEn + "_" + r.projectTitleEn + ".pdf"
  }

  /** The first uploaded file with the id. */
  function FindFile(files: seq<UploadedFile>, id: string): (f: Option<UploadedFile>)
    ensures f.Some? ==> f.value in files && f.value.id == id
    ensures f.None? ==> forall i :: 0 <= i < |files| ==> files[i].id != id
    ensures f.Some? ==> exists i :: 0 <= i < |files| && files[i] == f.value
                                    && forall j :: 0 <= j < i ==> files[j].id != id
  {
    if files == [] then None
    else if files[0].id == id then Some(files[0])
    else FindFile(files[1..], id)
  }

  /** handleDownloadFile: refuse a non-admin, then refuse a registrant with
      no files; otherwise a missing or empty file id downloads everything,
      a known id downloads that file, and an unknown id does nothing. Every
      download gets the same English name, whichever file it is. */
  function HandleDownloadFile(role: Option<Role>, r: Registrant, fileId: Option<string>): (a: DownloadAction)
    ensures role != Some(Admin) ==> a == Refused(NotAuthorisedTitle, "ليس لديك صلاحية للوصول لهذه الميزة")
    ensures role == Some(Admin) && r.uploadedFiles == [] ==>
      a == Refused(NoFilesTitle, "هذا الطالب لم يقم برفع أي ملفات بعد")
    ensures a.Download? ==> a.fileName == DownloadName(r) && role == Some(Admin) && r.uploadedFiles != []
    ensures a.Download? && a.original != "all files" ==>
      fileId.Some? && exists i :: 0 <= i < |r.uploadedFiles| && r.uploadedFiles[i].id == fileId.value
                                    && r.uploadedFiles[i].name == a.original
    ensures a.NoAction? <==>
      role == Some(Admin) && r.uploadedFiles != [] && fileId.Some? && fileId.value != ""
      && forall i :: 0 <= i < |r.uploadedFiles| ==> r.uploadedFiles[i].id != fileId.value
    ensures role == Some(Admin) && r.uploadedFiles != [] && (fileId.None? || fileId.value == "") ==>
      a == Download(DownloadName(r), "all files")
    ensures role == Some(Admin) && r.uploadedFiles != [] && fileId.Some? && fileId.value != ""
            && FindFile(r.uploadedFiles, fileId.value).Some? ==>
      a == Download(DownloadName(r), FindFile(r.uploadedFiles, fileId.value).value.name)
  {
    if role != Some(Admin) then Refused(NotAuthorisedTitle, "ليس لديك صلاحية للوصول لهذه الميزة")
    else if |r.uploadedFiles| == 0 then Refused(NoFilesTitle, "هذا الطالب لم يقم برفع أي ملفات بعد")
    else if fileId.Some? && fileId.value != "" then
      match FindFile(r.uploadedFiles, fileId.value)
      case Some(f) => Download(DownloadName(r), f.name)
      case None => NoAction
    else Download(DownloadName(r), "all files")
  }
}
