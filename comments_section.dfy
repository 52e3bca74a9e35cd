/** The comment thread of a submission (src/components/admin/CommentsSection.tsx):
    who may comment, the submit guards, and the initials shown beside each
    comment. */
module CommentsSection {
  import opened Wrappers
  import opened Types
  import opened Text

  /** Only admins may add comments. */
  predicate CanAddComment(role: Role) {
    role == Admin
  }

  /** getInitials: the first characters of the space-separated words, at
      most two, with their case kept. */
  function GetInitials(name: string): string {
    Prefix(FirstChars(Split(name, ' ')), 2)
  }

  /** The initials are the first two word starts of the name, as typed: no
      space, at most two characters, and nothing for an empty name. */
  lemma GetInitialsSpec(name: string)
    ensures GetInitials(name) == Prefix(WordStarts(name, ' ', true), 2)
    ensures |GetInitials(name)| <= 2 && ' ' !in GetInitials(name)
    ensures name == "" ==> GetInitials(name) == ""
  {
    FirstCharsOfSplit(name, ' ');
    WordStartsExcludeSeparator(name, ' ', true);
    var w := WordStarts(name, ' ', true);
    assert forall i :: 0 <= i < |Prefix(w, 2)| ==> Prefix(w, 2)[i] == w[i];
  }

  /** What a click on "send" does. */
  datatype SubmitOutcome = Ignored | RejectedEmpty | Sent(content: string)

  class CommentBox {
    const role: Role
    const hasCallback: bool
    var newComment: string

    constructor (role: Role, hasCallback: bool)
      ensures this.role == role && this.hasCallback == hasCallback && newComment == ""
    {
      this.role := role;
      this.hasCallback := hasCallback;
      newComment := "";
    }

    /** handleSubmit: nothing at all without the right or a callback; a text
        that is only whitespace is rejected and kept; otherwise the text, as
        typed, goes to the callback and the box is cleared. */
    method HandleSubmit() returns (r: SubmitOutcome)
      modifies this
      ensures !CanAddComment(role) || !hasCallback ==> r == Ignored && newComment == old(newComment)
      ensures CanAddComment(role) && hasCallback && Blank(old(newComment)) ==>
        r == RejectedEmpty && newComment == old(newComment)
      ensures CanAddComment(role) && hasCallback && !Blank(old(newComment)) ==>
        r == Sent(old(newComment)) && newComment == ""
    {
      if !CanAddComment(role) || !hasCallback {
        return Ignored;
      }
      TrimEmptyIffBlank(newComment);
      if Trim(newComment) == "" {
        return RejectedEmpty;
      }
      r := Sent(newComment);
      newComment := "";
    }
  }
}
