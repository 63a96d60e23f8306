/**
 * The styling rules of the skill-gap table: the colour of a gap figure, the
 * five-segment level bar and the striping of the rows.
 */
module SkillGapSummary {

  const Rose := "text-rose-600"
  const Amber := "text-amber-600"
  const Emerald := "text-emerald-600"

  /** A gap of 2 or more is rose, from 1 up to 2 amber, below 1 emerald. */
  function GapColor(gap: real): (c: string)
    ensures gap >= 2.0 ==> c == Rose
    ensures 1.0 <= gap < 2.0 ==> c == Amber
    ensures gap < 1.0 ==> c == Emerald
  {
    if gap >= 2.0 then Rose
    else if gap >= 1.0 then Amber
    else Emerald
  }

  /** How alarming a colour is: emerald 0, amber 1, rose 2. */
  function Severity(c: string): nat {
    if c == Rose then 2 else if c == Amber then 1 else 0
  }

  /** A larger gap is never shown in a calmer colour. */
  lemma GapColorMonotone(a: real, b: real)
    requires a <= b
    ensures Severity(GapColor(a)) <= Severity(GapColor(b))
  {
  }

  const FilledSegment := "bg-blue-500"
  const EmptySegment := "bg-slate-200"

  /** The bar for a level: five segments, the `n`-th (counting from 1) filled exactly when `n <= value`. */
  function Bar(value: real): (segments: seq<string>)
    ensures |segments| == 5
    ensures forall i :: 0 <= i < 5 ==> (segments[i] == FilledSegment <==> (i + 1) as real <= value)
    ensures forall i :: 0 <= i < 5 ==> segments[i] == FilledSegment || segments[i] == EmptySegment
  {
    seq(5, i requires 0 <= i < 5 => if (i + 1) as real <= value then FilledSegment else EmptySegment)
  }

  /** The number of filled segments. */
  function FilledCount(segments: seq<string>): (k: nat)
    ensures k <= |segments|
  {
    if segments == [] then 0
    else FilledCount(segments[..|segments| - 1]) + (if segments[|segments| - 1] == FilledSegment then 1 else 0)
  }

  /** The filled segments come first: a filled segment has only filled ones before it. */
  lemma BarFillsFromTheLeft(value: real, i: nat, j: nat)
    requires i < j < 5 && Bar(value)[j] == FilledSegment
    ensures Bar(value)[i] == FilledSegment
  {
    assert (j + 1) as real <= value;
  }

  /** For a whole-number level the bar fills `value` segments, clamped to 0..5. */
  lemma BarFilledCount(value: int)
    ensures FilledCount(Bar(value as real)) == if value < 0 then 0 else if value > 5 then 5 else value
  {
    var b := Bar(value as real);
    assert FilledCount(b[..1]) == (if value >= 1 then 1 else 0) by {
      assert b[..1][..0] == [];
    }
    assert FilledCount(b[..2]) == FilledCount(b[..1]) + (if value >= 2 then 1 else 0) by {
      assert b[..2][..1] == b[..1];
    }
    assert FilledCount(b[..3]) == FilledCount(b[..2]) + (if value >= 3 then 1 else 0) by {
      assert b[..3][..2] == b[..2];
    }
    assert FilledCount(b[..4]) == FilledCount(b[..3]) + (if value >= 4 then 1 else 0) by {
      assert b[..4][..3] == b[..3];
    }
    assert FilledCount(b) == FilledCount(b[..4]) + (if value >= 5 then 1 else 0) by {
      assert b[..4] == b[..|b| - 1];
    }
  }

  /** Even rows are white and odd rows slate. */
  function RowBackground(idx: nat): (c: string)
    ensures idx % 2 == 0 ==> c == "bg-white"
    ensures idx % 2 == 1 ==> c == "bg-slate-50/60"
  {
    if idx % 2 == 0 then "bg-white" else "bg-slate-50/60"
  }

  /** Neighbouring rows always differ, and every second row repeats. */
  lemma RowsAlternate(idx: nat)
    ensures RowBackground(idx) != RowBackground(idx + 1)
    ensures RowBackground(idx) == RowBackground(idx + 2)
  {
  }
}
