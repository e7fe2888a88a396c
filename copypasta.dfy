/** `sanitize` of `cf/gochujang/src/copypasta.js`: trim the text, then replace
    `([^\n])\n([^\n])` globally by `$1 $2`, which joins the hard-wrapped
    lines of a paragraph with spaces and keeps blank lines between
    paragraphs. */
module Copypasta {
  import opened Text

  /** The global replacement, scanning from position `i`: where a match
      starts it emits the two outer characters around a space and resumes
      after the match, as a global regular expression does; elsewhere it
      copies one character. */
  function Fold(t: string, i: nat): string
    requires i <= |t|
    decreases |t| - i
  {
    if i + 2 < |t| && t[i] != '\n' && t[i + 1] == '\n' && t[i + 2] != '\n' then
      [t[i], ' ', t[i + 2]] + Fold(t, i + 3)
    else if i < |t| then [t[i]] + Fold(t, i + 1)
    else []
  }

  /** `sanitize(s)`. */
  function Sanitize(s: string): string {
    Fold(Trim(s, JsSpace), 0)
  }

  /** Which newlines the replacement turns into spaces, stated without the
      scan: a newline between two other characters, unless the newline two
      places before it was replaced, since that match took the character
      in between. */
  predicate ReplacedAt(t: string, k: int)
    decreases k
  {
    && 0 < k < |t| - 1
    && t[k] == '\n' && t[k - 1] != '\n' && t[k + 1] != '\n'
    && !ReplacedAt(t, k - 2)
  }

  /** The character at `k` after the replacement. */
  function Out(t: string, k: int): char
    requires 0 <= k < |t|
  {
    if ReplacedAt(t, k) then ' ' else t[k]
  }

  /** Position `i` is where the scan looks for a match: not inside one. */
  predicate Boundary(t: string, i: int) {
    !ReplacedAt(t, i) && !ReplacedAt(t, i - 1)
  }

  /** A match at a boundary replaces its newline and ends at a boundary. */
  lemma MatchStep(t: string, i: nat)
    requires i + 2 < |t| && Boundary(t, i)
    requires t[i] != '\n' && t[i + 1] == '\n' && t[i + 2] != '\n'
    ensures Out(t, i) == t[i] && Out(t, i + 1) == ' ' && Out(t, i + 2) == t[i + 2]
    ensures Boundary(t, i + 3)
  {
    assert ReplacedAt(t, i + 1);
    assert !ReplacedAt(t, i + 2);
    assert !ReplacedAt(t, i + 3);
  }

  /** Where no match starts, the character is kept and the next position is
      a boundary. */
  lemma CopyStep(t: string, i: nat)
    requires i < |t| && Boundary(t, i)
    requires !(i + 2 < |t| && t[i] != '\n' && t[i + 1] == '\n' && t[i + 2] != '\n')
    ensures Out(t, i) == t[i]
    ensures Boundary(t, i + 1)
  {
    assert !ReplacedAt(t, i + 1);
  }

  /** From a boundary, the scan produces the reference output character by
      character. */
  lemma {:induction false} FoldFrom(t: string, i: nat)
    requires i <= |t| && Boundary(t, i)
    ensures |Fold(t, i)| == |t| - i
    ensures forall k :: i <= k < |t| ==> Fold(t, i)[k - i] == Out(t, k)
    decreases |t| - i
  {
    if i + 2 < |t| && t[i] != '\n' && t[i + 1] == '\n' && t[i + 2] != '\n' {
      MatchStep(t, i);
      FoldFrom(t, i + 3);
      Glue(t, i, [t[i], ' ', t[i + 2]], Fold(t, i + 3));
    } else if i < |t| {
      CopyStep(t, i);
      FoldFrom(t, i + 1);
      Glue(t, i, [t[i]], Fold(t, i + 1));
    }
  }

  /** Output for the positions from `i` on is the output for a first few
      positions followed by the output for the rest. */
  lemma Glue(t: string, i: nat, head: string, rest: string)
    requires i + |head| <= |t|
    requires forall j :: 0 <= j < |head| ==> head[j] == Out(t, i + j)
    requires |rest| == |t| - i - |head|
    requires forall k :: i + |head| <= k < |t| ==> rest[k - i - |head|] == Out(t, k)
    ensures forall k :: i <= k < |t| ==> (head + rest)[k - i] == Out(t, k)
  {
    forall k | i <= k < |t|
      ensures (head + rest)[k - i] == Out(t, k)
    {
      if k - i >= |head| {
        assert (head + rest)[k - i] == rest[k - i - |head|];
      } else {
        assert head[k - i] == Out(t, i + (k - i));
      }
    }
  }

  /** The whole replacement is the reference output. */
  lemma FoldIsOut(t: string)
    ensures |Fold(t, 0)| == |t|
    ensures forall k :: 0 <= k < |t| ==> Fold(t, 0)[k] == Out(t, k)
  {
    FoldFrom(t, 0);
  }

  /** One output character: only a newline may change, into a space; a
      newline next to another newline stays; a newline between two other
      characters becomes a space unless the one two places before did. */
  lemma OutChar(t: string, k: int)
    requires 0 <= k < |t|
    ensures Out(t, k) != t[k] ==> t[k] == '\n' && Out(t, k) == ' '
    ensures 0 < k < |t| - 1 && t[k] == '\n' && (t[k - 1] == '\n' || t[k + 1] == '\n') ==> Out(t, k) == '\n'
    ensures 0 < k < |t| - 1 && t[k] == '\n' && t[k - 1] != '\n' && t[k + 1] != '\n' ==>
      (Out(t, k) == ' ' <==> !ReplacedAt(t, k - 2))
  {
  }

  /** The output is as long as the trimmed text; only newlines may change,
      each into a space; a newline next to another newline, as in a blank
      line between paragraphs, stays; and a newline between two other
      characters is replaced unless the one two places before was. */
  lemma FoldChanges(t: string)
    ensures |Fold(t, 0)| == |t|
    ensures forall k :: 0 <= k < |t| && Fold(t, 0)[k] != t[k] ==> t[k] == '\n' && Fold(t, 0)[k] == ' '
    ensures forall k :: 0 < k < |t| - 1 && t[k] == '\n' && (t[k - 1] == '\n' || t[k + 1] == '\n') ==>
      Fold(t, 0)[k] == '\n'
    ensures forall k :: 0 < k < |t| - 1 && t[k] == '\n' && t[k - 1] != '\n' && t[k + 1] != '\n' ==>
      (Fold(t, 0)[k] == ' ' <==> !ReplacedAt(t, k - 2))
  {
    FoldIsOut(t);
    forall k | 0 <= k < |t|
      ensures Out(t, k) != t[k] ==> t[k] == '\n' && Out(t, k) == ' '
      ensures 0 < k < |t| - 1 && t[k] == '\n' && (t[k - 1] == '\n' || t[k + 1] == '\n') ==> Out(t, k) == '\n'
      ensures 0 < k < |t| - 1 && t[k] == '\n' && t[k - 1] != '\n' && t[k + 1] != '\n' ==>
        (Out(t, k) == ' ' <==> !ReplacedAt(t, k - 2))
    {
      OutChar(t, k);
    }
  }

  /** The first and last characters never change, so the output starts and
      ends as the trimmed text does: without whitespace. */
  lemma SanitizeEnds(s: string)
    ensures var r := Sanitize(s);
      r != [] ==> r[0] !in JsSpace && r[|r| - 1] !in JsSpace
  {
    var t := Trim(s, JsSpace);
    FoldIsOut(t);
    if t != [] {
      assert !ReplacedAt(t, 0) && !ReplacedAt(t, |t| - 1);
    }
  }

  /** Matches do not overlap: with one-character lines only every other
      newline is replaced. */
  lemma SanitizeOverlap()
    ensures Fold("a\nb\nc", 0) == "a b\nc"
  {
    assert Fold("a\nb\nc", 3) == "\nc" by {
      assert Fold("a\nb\nc", 5) == [];
      assert Fold("a\nb\nc", 4) == "c";
    }
  }
}
