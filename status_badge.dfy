/** The submission-status badge (src/components/admin/StatusBadge.tsx): the
    label table, the lookup with its fallback, and the list of statuses. */
module StatusBadge {
  import opened Types

  /** The value each status has in the data. */
  function WireName(s: SubmissionStatus): string {
    match s
    case PendingReview => "pending_review"
    case UnderReview => "under_review"
    case Graded => "graded"
    case NeedsResubmission => "needs_resubmission"
  }

  /** The configured label of each status. */
  function Label(s: SubmissionStatus): string {
    match s
    case PendingReview => "قيد المراجعة"
    case UnderReview => "تحت المراجعة"
    case Graded => "تم التقييم"
    case NeedsResubmission => "مطلوب إعادة رفع"
  }

  /** getStatusLabel on a value from the data: a status's value gets its
      label, any other value is shown as it is. */
  function StatusLabel(value: string): (shown: string)
    ensures forall s :: value == WireName(s) ==> shown == Label(s)
    ensures (forall s :: value != WireName(s)) ==> shown == value
  {
    assert WireName(PendingReview) == "pending_review" && WireName(UnderReview) == "under_review";
    assert WireName(Graded) == "graded" && WireName(NeedsResubmission) == "needs_resubmission";
    if value == "pending_review" then Label(PendingReview)
    else if value == "under_review" then Label(UnderReview)
    else if value == "graded" then Label(Graded)
    else if value == "needs_resubmission" then Label(NeedsResubmission)
    else value
  }

  /** allStatuses, in the order the filters offer them. */
  function AllStatuses(): seq<SubmissionStatus> {
    [PendingReview, UnderReview, Graded, NeedsResubmission]
  }

  /** The list holds every status exactly once. */
  lemma AllStatusesComplete()
    ensures |AllStatuses()| == 4
    ensures forall s :: s in AllStatuses()
    ensures forall i, j :: 0 <= i < j < |AllStatuses()| ==> AllStatuses()[i] != AllStatuses()[j]
  {
    forall s: SubmissionStatus
      ensures s in AllStatuses()
    {
      assert s == AllStatuses()[0] || s == AllStatuses()[1] || s == AllStatuses()[2] || s == AllStatuses()[3];
    }
  }

  /** The labels tell the statuses apart, none is empty, and none of them
      can be confused with a status's own value under the fallback. */
  lemma LabelsDistinct(s: SubmissionStatus, t: SubmissionStatus)
    ensures Label(s) == Label(t) ==> s == t
    ensures Label(s) != ""
    ensures StatusLabel(Label(s)) == Label(s)
  {
  }

  /** The values in the data are distinct too, so the lookup is well defined. */
  lemma WireNamesDistinct(s: SubmissionStatus, t: SubmissionStatus)
    ensures WireName(s) == WireName(t) ==> s == t
  {
  }
}
