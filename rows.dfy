/**
 * The list and row edits the onboarding wizard and the profile editors both
 * perform: appending a blank row, editing one field of one row, the
 * current/present check box that clears the end date, deleting a row, and
 * the filter and toggle used by the tag lists and the multi-select buttons.
 */
module Rows {
  import opened ProfileTypes

  /** `s.filter((_, i) => i !== idx)`: the list without position `idx`. */
  function RemoveAt<T>(s: seq<T>, idx: nat): (r: seq<T>)
    ensures idx >= |s| ==> r == s
    ensures idx < |s| ==> |r| == |s| - 1
    ensures forall i :: 0 <= i < idx && i < |r| ==> r[i] == s[i]
    ensures idx < |s| ==> forall i :: idx <= i < |r| ==> r[i] == s[i + 1]
  {
    if idx < |s| then s[..idx] + s[idx + 1..] else s
  }

  /** `s.filter((t) => t !== x)`: every occurrence of `x` removed. */
  function Without<T(==,!new)>(s: seq<T>, x: T): (r: seq<T>)
    ensures forall y :: y in r <==> y in s && y != x
    ensures multiset(r) == multiset(s)[x := 0]
    ensures x !in s ==> r == s
    decreases |s|
  {
    if s == [] then []
    else
      var rest := Without(s[1..], x);
      assert s == [s[0]] + s[1..];
      if s[0] == x then rest else [s[0]] + rest
  }

  /** Filtering distributes over concatenation, so the kept elements stay in their order. */
  lemma {:induction false} WithoutConcat<T(!new)>(a: seq<T>, b: seq<T>, x: T)
    ensures Without(a + b, x) == Without(a, x) + Without(b, x)
    decreases |a|
  {
    if a == [] {
      assert a + b == b;
    } else {
      assert (a + b)[1..] == a[1..] + b;
      WithoutConcat(a[1..], b, x);
    }
  }

  /**
   * The multi-select rule: `active ? s.filter((g) => g !== x) : [...s, x]`,
   * where `active` is `s.includes(x)`.
   */
  function Toggle<T(==,!new)>(s: seq<T>, x: T): (r: seq<T>)
    ensures x in r <==> x !in s
    ensures forall y :: y != x ==> (y in r <==> y in s)
    ensures x in s ==> r == Without(s, x)
    ensures x !in s ==> r == s + [x]
  {
    if x in s then Without(s, x) else s + [x]
  }

  /** Selecting an option that was not selected and then deselecting it restores the list. */
  lemma ToggleTwiceRestores<T(!new)>(s: seq<T>, x: T)
    requires x !in s
    ensures Toggle(Toggle(s, x), x) == s
  {
    WithoutConcat(s, [x], x);
    assert Without([x], x) == [];
  }

  /** The row appended by "Add education". */
  const BlankEducation := EducationEntry("", "", "", "", "", false)

  /** The row appended by "Add role". */
  const BlankRole := PreviousRole("", "", "", "", "", "", false, "")

  /** `{ ...edu, [f]: v }`: one text field of an education row replaced. */
  function WithEducationText(e: EducationEntry, f: EducationField, v: string): (e': EducationEntry)
    ensures EducationText(e', f) == v
    ensures forall g :: g != f ==> EducationText(e', g) == EducationText(e, g)
    ensures e'.isCurrent == e.isCurrent
  {
    match f
    case EduInstitution => e.(institution := v)
    case EduDegree => e.(degree := v)
    case EduField => e.(field := v)
    case EduStartYear => e.(startYear := v)
    case EduEndYear => e.(endYear := v)
  }

  /**
   * The "currently studying" check box: the flag takes the new value and a
   * checked box clears the end year; an unchecked one keeps it.
   */
  function SetCurrent(e: EducationEntry, checked: bool): (e': EducationEntry)
    ensures e'.isCurrent == checked
    ensures e'.endYear == (if checked then "" else e.endYear)
    ensures forall g :: g != EduEndYear ==> EducationText(e', g) == EducationText(e, g)
  {
    e.(isCurrent := checked, endYear := if checked then "" else e.endYear)
  }

  /** `{ ...role, [f]: v }`: one text field of a role row replaced. */
  function WithRoleText(r: PreviousRole, f: RoleField, v: string): (r': PreviousRole)
    ensures RoleText(r', f) == v
    ensures forall g :: g != f ==> RoleText(r', g) == RoleText(r, g)
    ensures r'.isPresent == r.isPresent
  {
    match f
    case RoleTitle => r.(title := v)
    case RoleCompany => r.(company := v)
    case RoleDescription => r.(description := v)
    case RoleStartMonth => r.(startMonth := v)
    case RoleStartYear => r.(startYear := v)
    case RoleEndMonth => r.(endMonth := v)
    case RoleEndYear => r.(endYear := v)
  }

  /**
   * The "I currently work here" check box: the flag takes the new value and a
   * checked box clears both end month and end year; an unchecked one keeps them.
   */
  function SetPresent(r: PreviousRole, checked: bool): (r': PreviousRole)
    ensures r'.isPresent == checked
    ensures r'.endMonth == (if checked then "" else r.endMonth)
    ensures r'.endYear == (if checked then "" else r.endYear)
    ensures forall g :: g != RoleEndMonth && g != RoleEndYear ==> RoleText(r', g) == RoleText(r, g)
  {
    r.(isPresent := checked,
       endMonth := if checked then "" else r.endMonth,
       endYear := if checked then "" else r.endYear)
  }
}
