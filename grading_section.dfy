/** The grade editor and grade display of a submission
    (src/components/admin/GradingSection.tsx): the editor's starting values,
    saving, the five-star row and which view a viewer gets. */
module GradingSection {
  import opened Wrappers
  import opened Types

  /** The values the editor holds while a grade is being written. */
  datatype Draft = Draft(score: int, maxScore: int, stars: int, feedback: string)

  /** The editor's starting values, with JavaScript's `||` fallbacks: a
      missing grade gives 0, 100, 0 and the empty text, and so does any value
      that is falsy, so a stored maximum of 0 starts as 100. */
  function Defaults(g: Option<Grade>): Draft {
    match g
    case None => Draft(0, 100, 0, "")
    case Some(grade) =>
      Draft(grade.score,
            if grade.maxScore != 0 then grade.maxScore else 100,
            grade.stars.GetOr(0),
            grade.feedback)
  }

  const Grader: string := "الأدمن"

  /** The grade handleSave emits: the draft as it stands, with no range check
      on the score, signed by the admin at the given time. */
  function SavedGrade(d: Draft, now: string): Grade {
    Grade(d.score, d.maxScore, Some(d.stars), d.feedback, Grader, now)
  }

  /** Opening the editor and saving at once reproduces the grade, apart from
      who signed it and when, except that a maximum of 0 becomes 100 and
      missing stars become 0 stars. With no grade the saved grade is 0 out of
      100 with no stars and no feedback. */
  lemma SaveWithoutEditing(g: Option<Grade>, now: string)
    ensures g.None? ==> SavedGrade(Defaults(g), now) == Grade(0, 100, Some(0), "", Grader, now)
    ensures g.Some? && g.value.maxScore != 0 && g.value.stars.Some? ==>
      SavedGrade(Defaults(g), now) == g.value.(gradedBy := Grader, gradedAt := now)
    ensures g.Some? ==>
      && SavedGrade(Defaults(g), now).score == g.value.score
      && SavedGrade(Defaults(g), now).maxScore == (if g.value.maxScore == 0 then 100 else g.value.maxScore)
      && SavedGrade(Defaults(g), now).stars == Some(g.value.stars.GetOr(0))
  {
  }

  /** Saving accepts any numbers: a score above the maximum or below zero is
      stored as given. */
  lemma SaveDoesNotCheckBounds(d: Draft, now: string)
    ensures SavedGrade(d, now).score == d.score && SavedGrade(d, now).maxScore == d.maxScore
    ensures d.score > d.maxScore ==> SavedGrade(d, now).score > SavedGrade(d, now).maxScore
  {
  }

  // ---------------------------------------------------------------------
  // The star row

  /** Which of the five stars are drawn filled for a value: star k (1 to 5)
      is filled when k is at most the value. */
  function StarFills(value: int): (fills: seq<bool>)
    ensures |fills| == 5
  {
    seq(5, i requires 0 <= i < 5 => i + 1 <= value)
  }

  /** The number of filled stars: the value clamped to 0..5. */
  function FilledCount(value: int): nat {
    if value <= 0 then 0 else if value >= 5 then 5 else value
  }

  /** The filled stars are always the first ones: star i is filled exactly
      when fewer than FilledCount stars precede it, so there are no gaps. */
  lemma StarFillsArePrefix(value: int)
    ensures forall i :: 0 <= i < 5 ==> (StarFills(value)[i] <==> i < FilledCount(value))
    ensures forall i, j :: 0 <= i < j < 5 && StarFills(value)[j] ==> StarFills(value)[i]
  {
  }

  /** What `{grade.stars && <StarRating …/>}` puts on the screen. */
  datatype StarRow = NoStars | ZeroText | Rating(value: int)

  /** As written: a missing value renders nothing, but a value of 0 is
      falsy and is itself rendered, as the text "0". */
  function StarRowAsWritten(stars: Option<int>): (row: StarRow)
    ensures row == ZeroText <==> stars == Some(0)
    ensures row.Rating? ==> stars == Some(row.value) && row.value != 0
  {
    match stars
    case None => NoStars
    case Some(v) => if v == 0 then ZeroText else Rating(v)
  }

  /** As intended: the row is hidden for a missing or zero value. */
  function StarRowShown(stars: Option<int>): (row: StarRow)
    ensures row != ZeroText
    ensures row.Rating? <==> stars.Some? && stars.value != 0
    ensures row.Rating? ==> row.value == stars.value
  {
    match stars
    case None => NoStars
    case Some(v) => if v == 0 then NoStars else Rating(v)
  }

  /** A grade saved without touching the stars has 0 stars, and as written
      its display shows a stray "0" beside the score; the intended row shows
      nothing there and otherwise agrees with the written one. */
  lemma ZeroStarsShowText(d: Draft, now: string)
    requires d.stars == 0
    ensures StarRowAsWritten(SavedGrade(d, now).stars) == ZeroText
    ensures StarRowShown(SavedGrade(d, now).stars) == NoStars
  {
  }

  lemma StarRowsAgreeOtherwise(stars: Option<int>)
    ensures stars != Some(0) ==> StarRowShown(stars) == StarRowAsWritten(stars)
  {
  }

  // ---------------------------------------------------------------------
  // Which view

  /** The body of the admin panel. */
  datatype AdminBody = EditForm | Summary(grade: Grade) | Empty

  datatype GradingView =
    | NotGradedYet
    | StudentView(grade: Grade)
    | AdminPanel(editButton: bool, body: AdminBody)

  /** The view for a viewer: a student sees the grade or the "not graded"
      note; an admin gets the panel, with the form while editing, and an
      edit button on a grade that is not being edited. */
  function SelectView(isAdmin: bool, grade: Option<Grade>, isEditing: bool): (v: GradingView)
    ensures v.NotGradedYet? <==> !isAdmin && grade.None?
    ensures v.StudentView? <==> !isAdmin && grade.Some?
    ensures v.StudentView? ==> v.grade == grade.value
    ensures v.AdminPanel? <==> isAdmin
    ensures v.AdminPanel? ==> (v.editButton <==> grade.Some? && !isEditing)
    ensures v.AdminPanel? ==> (v.body == EditForm <==> isEditing)
    ensures v.AdminPanel? && v.body.Summary? ==> grade == Some(v.body.grade)
  {
    if !isAdmin && grade.None? then NotGradedYet
    else if !isAdmin then StudentView(grade.value)
    else AdminPanel(grade.Some? && !isEditing,
                    if isEditing then EditForm
                    else if grade.Some? then Summary(grade.value) else Empty)
  }

  /** The admin editor's state. */
  class GradeEditor {
    const grade: Option<Grade>
    var isEditing: bool
    var score: int
    var maxScore: int
    var stars: int
    var feedback: string

    function CurrentDraft(): Draft
      reads this
    {
      Draft(score, maxScore, stars, feedback)
    }

    /** The editor starts editing exactly when there is no grade yet, and
        holds the defaults. */
    constructor (grade: Option<Grade>)
      ensures this.grade == grade
      ensures isEditing <==> grade.None?
      ensures CurrentDraft() == Defaults(grade)
    {
      this.grade := grade;
      isEditing := grade.None?;
      var d := Defaults(grade);
      score, maxScore, stars, feedback := d.score, d.maxScore, d.stars, d.feedback;
    }

    /** The edit button, shown only on a grade that is not being edited. */
    method StartEditing()
      requires grade.Some? && !isEditing
      modifies this
      ensures isEditing && CurrentDraft() == old(CurrentDraft())
    {
      isEditing := true;
    }

    /** A click on star k of the editable row. */
    method SetStars(k: int)
      requires 1 <= k <= 5
      modifies this
      ensures stars == k && FilledCount(stars) == k
      ensures score == old(score) && maxScore == old(maxScore) && feedback == old(feedback)
      ensures isEditing == old(isEditing)
    {
      stars := k;
    }

    method SetScore(v: int)
      modifies this
      ensures score == v && maxScore == old(maxScore) && stars == old(stars) && feedback == old(feedback)
      ensures isEditing == old(isEditing)
    {
      score := v;
    }

    method SetMaxScore(v: int)
      modifies this
      ensures maxScore == v && score == old(score) && stars == old(stars) && feedback == old(feedback)
      ensures isEditing == old(isEditing)
    {
      maxScore := v;
    }

    method SetFeedback(v: string)
      modifies this
      ensures feedback == v && score == old(score) && maxScore == old(maxScore) && stars == old(stars)
      ensures isEditing == old(isEditing)
    {
      feedback := v;
    }

    /** handleSave: the current draft goes out as a grade and editing ends;
        the draft itself is kept. */
    method HandleSave(now: string) returns (saved: Grade)
      modifies this
      ensures saved == SavedGrade(old(CurrentDraft()), now)
      ensures !isEditing && CurrentDraft() == old(CurrentDraft())
    {
      saved := SavedGrade(CurrentDraft(), now);
      isEditing := false;
    }
  }
}
