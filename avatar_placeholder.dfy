/** The initials avatar (src/components/ui/avatar-placeholder.tsx). */
module AvatarPlaceholder {
  import opened Text

  /** `name.split(' ').map(w => w[0]).join('').slice(0, 2).toUpperCase()` */
  function Initials(name: string): string {
    Upper(Prefix(FirstChars(Split(name, ' ')), 2))
  }

  /** The initials are the upper-cased first two word starts, where a word
      start is a non-space character at the beginning or after a space; so
      they have at most two characters, never a space, and an empty name or
      a run of spaces contributes nothing. */
  lemma InitialsSpec(name: string)
    ensures Initials(name) == Upper(Prefix(WordStarts(name, ' ', true), 2))
    ensures |Initials(name)| <= 2
    ensures ' ' !in Initials(name)
    ensures name == "" ==> Initials(name) == ""
  {
    FirstCharsOfSplit(name, ' ');
    WordStartsExcludeSeparator(name, ' ', true);
    var p := Prefix(WordStarts(name, ' ', true), 2);
    assert forall i :: 0 <= i < |p| ==> p[i] in WordStarts(name, ' ', true);
    assert forall i :: 0 <= i < |p| ==> Upper(p)[i] == UpperChar(p[i]);
  }

  /** Doubling a space between two words does not change the initials:
      the empty word it makes contributes nothing. */
  lemma {:induction false} DoubleSpaceIgnored(a: string, b: string)
    ensures Initials(a + "  " + b) == Initials(a + " " + b)
  {
    assert a + "  " + b == a + ("  " + b);
    assert a + " " + b == a + (" " + b);
    FirstCharsOfSplit(a + ("  " + b), ' ');
    FirstCharsOfSplit(a + (" " + b), ' ');
    WordStartsSplitAt(a, "  " + b, true);
    WordStartsSplitAt(a, " " + b, true);
    var after := AtStartAfter(a, true);
    assert ("  " + b)[0] == ' ' && ("  " + b)[1..] == " " + b;
    assert (" " + b)[0] == ' ' && (" " + b)[1..] == b;
    assert WordStarts("  " + b, ' ', after) == WordStarts(b, ' ', true);
    assert WordStarts(" " + b, ' ', after) == WordStarts(b, ' ', true);
  }

  /** The word starts of `a + c` are those of `a`, followed by those of `c`
      begun in the state `a` leaves behind. */
  lemma {:induction false} WordStartsSplitAt(a: string, c: string, atStart: bool)
    ensures WordStarts(a + c, ' ', atStart)
      == WordStarts(a, ' ', atStart) + WordStarts(c, ' ', AtStartAfter(a, atStart))
    decreases |a|
  {
    if a == [] {
      assert a + c == c;
    } else {
      assert (a + c)[0] == a[0] && (a + c)[1..] == a[1..] + c;
      WordStartsSplitAt(a[1..], c, a[0] == ' ');
    }
  }

  /** Whether the next character would start a word after reading `a`. */
  function AtStartAfter(a: string, atStart: bool): bool
    decreases |a|
  {
    if a == [] then atStart else AtStartAfter(a[1..], a[0] == ' ')
  }
}
