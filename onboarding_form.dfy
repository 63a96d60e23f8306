/**
 * The six-step onboarding wizard: its default and hydrated state, the
 * per-step validation, the Next/Back/Submit gating, the role duration text
 * and the year options of its date pickers.
 */
module OnboardingForm {
  import opened Wrappers
  import opened JsValues
  import opened ProfileTypes
  import opened Editors

  /** The number of steps. */
  const Total: int := 6

  /** The state before anything is loaded or typed: every text "" and every list empty. */
  const DefaultState: OnboardingState :=
    OnboardingState("", "", "", "", "", "", "", [], [], "", [], [], [], [], [], "", [], "")

  /** The month options of the role date pickers. */
  const Months: seq<string> := [
    "January", "February", "March", "April", "May", "June",
    "July", "August", "September", "October", "November", "December"]

  /**
   * The year options, newest first: the current year down to 1970. The
   * current year is a parameter; a year before 1970 gives no options.
   */
  function Years(currentYear: int): (ys: seq<string>)
    ensures |ys| == (if currentYear > 1969 then currentYear - 1969 else 0)
    ensures forall i :: 0 <= i < |ys| ==> ys[i] == NatToDecimal(currentYear - i)
  {
    if currentYear <= 1969 then []
    else seq(currentYear - 1969, i requires 0 <= i < currentYear - 1969 => NatToDecimal(currentYear - i))
  }

  /** No year is offered twice. */
  lemma YearsDistinct(currentYear: int)
    ensures forall i, j :: 0 <= i < j < |Years(currentYear)| ==> Years(currentYear)[i] != Years(currentYear)[j]
  {
    var ys := Years(currentYear);
    forall i, j | 0 <= i < j < |ys| ensures ys[i] != ys[j] {
      if ys[i] == ys[j] {
        NatToDecimalInjective(currentYear - i, currentYear - j);
      }
    }
  }

  /**
   * The duration line under a role. Without both start fields it is empty,
   * whatever the end fields hold; otherwise it is the start, followed by
   * " - Present" for a current role or by " - {endMonth} {endYear}" when
   * both end fields are set.
   */
  function FormatDuration(r: PreviousRole): (d: string)
    ensures d == "" <==> (r.startMonth == "" || r.startYear == "")
    ensures r.startMonth != "" && r.startYear != "" ==>
      d == r.startMonth + " " + r.startYear
        + (if r.isPresent then " - Present"
           else if r.endMonth != "" && r.endYear != "" then " - " + r.endMonth + " " + r.endYear
           else "")
  {
    var start := if r.startMonth != "" && r.startYear != "" then r.startMonth + " " + r.startYear else "";
    var end :=
      if r.isPresent then "Present"
      else if r.endMonth != "" && r.endYear != "" then r.endMonth + " " + r.endYear
      else "";
    if start != "" && end != "" then start + " - " + end
    else if start != "" then start
    else ""
  }

  /** `(data[k] as string) ?? ""`: a missing value reads as "". */
  function StoredText(data: map<string, Json>, k: string): (v: string)
    ensures v == AsText(Field(data, k))
  {
    AsText(Coalesce(Field(data, k), Str("")))
  }

  /** `(data[k] as string[]) ?? []`: a missing list reads as []. */
  function StoredTags(data: map<string, Json>, k: string): (v: seq<string>)
    ensures v == TagsFromJson(Field(data, k))
  {
    TagsFromJson(Coalesce(Field(data, k), Arr([])))
  }

  /**
   * The state loaded from a stored profile: the user's name, or "" when it is
   * missing; each stored text and list, or its empty default when missing.
   * The two row lists are kept only when they are arrays.
   */
  function Hydrate(user: Option<User>, data: map<string, Json>): (s: OnboardingState)
    ensures s.fullName == (if user.Some? && user.value.fullName.Some? then user.value.fullName.value else "")
    ensures s.educationalBackground == EducationListFromJson(Field(data, "educationalBackground"))
    ensures s.previousRoles == RoleListFromJson(Field(data, "previousRoles"))
  {
    OnboardingState(
      fullName := if user.Some? && user.value.fullName.Some? then user.value.fullName.value else "",
      age := StoredText(data, "age"),
      location := StoredText(data, "location"),
      currentRole := StoredText(data, "currentRole"),
      education := StoredText(data, "education"),
      fieldOfStudy := StoredText(data, "fieldOfStudy"),
      graduationYear := StoredText(data, "graduationYear"),
      certifications := StoredTags(data, "certifications"),
      educationalBackground := EducationListFromJson(Field(data, "educationalBackground")),
      experienceLevel := StoredText(data, "experienceLevel"),
      previousRoles := RoleListFromJson(Field(data, "previousRoles")),
      technicalSkills := StoredTags(data, "technicalSkills"),
      softSkills := StoredTags(data, "softSkills"),
      skillsToImprove := StoredTags(data, "skillsToImprove"),
      careerGoals := StoredTags(data, "careerGoals"),
      timeframe := StoredText(data, "timeframe"),
      preferredIndustries := StoredTags(data, "preferredIndustries"),
      workPreference := StoredText(data, "workPreference"))
  }

  /** Every other field is read from the stored record under its own key. */
  lemma HydrateReadsStoredFields(user: Option<User>, data: map<string, Json>)
    ensures forall f :: f != FullName ==> Text(Hydrate(user, data), f) == AsText(Field(data, TextKey(f)))
    ensures forall l :: Tags(Hydrate(user, data), l) == TagsFromJson(Field(data, TagKey(l)))
  {
    var s := Hydrate(user, data);
    forall f | f != FullName ensures Text(s, f) == AsText(Field(data, TextKey(f))) {
      match f
      case Age =>
      case Location =>
      case CurrentRole =>
      case EducationLevel =>
      case FieldOfStudy =>
      case GraduationYear =>
      case ExperienceLevel =>
      case Timeframe =>
      case WorkPreference =>
    }
    forall l ensures Tags(s, l) == TagsFromJson(Field(data, TagKey(l))) {
      match l
      case Certifications =>
      case TechnicalSkills =>
      case SoftSkills =>
      case SkillsToImprove =>
      case CareerGoals =>
      case PreferredIndustries =>
    }
  }

  /** Loading an empty profile for a user without a name gives the default state. */
  lemma HydrateEmpty(user: Option<User>)
    requires user.None? || user.value.fullName.None?
    ensures Hydrate(user, map[]) == DefaultState
  {
  }

  /** Submitting the wizard and loading the stored record back gives the same state. */
  lemma HydrateRoundTrip(s: OnboardingState, u: User)
    requires u.fullName == Some(s.fullName)
    ensures Hydrate(Some(u), StateToJson(s)) == s
  {
    StateToJsonTexts(s);
    StateToJsonMoreTexts(s);
    StateToJsonLists(s);
    StateToJsonRows(s);
  }

  /** An education row lacking its institution or its degree. */
  predicate EntryIncomplete(e: EducationEntry) {
    e.institution == "" || e.degree == ""
  }

  /** The messages `validateStep` pushes for empty fields. */
  const FullNameRequired := "Full name is required"
  const AgeRequired := "Age is required"
  const LocationRequired := "Location is required"
  const CurrentRoleRequired := "Current role is required"
  const EducationRequired := "Education is required"
  const FieldOfStudyRequired := "Field of study is required"
  const ExperienceLevelRequired := "Experience level is required"
  const CareerGoalRequired := "Select at least one career goal"
  const TimeframeRequired := "Timeframe is required"

  /** The message for the incomplete education row at 1-based position `k`. */
  function EntryMessage(k: nat): string {
    "Education entry " + NatToDecimal(k) + " needs institution and degree"
  }

  /** Different positions give different messages. */
  lemma EntryMessageInjective(a: nat, b: nat)
    requires EntryMessage(a) == EntryMessage(b)
    ensures a == b
  {
    var p, q := "Education entry ", " needs institution and degree";
    var ma, mb := EntryMessage(a), EntryMessage(b);
    var da, db := NatToDecimal(a), NatToDecimal(b);
    assert ma == p + da + q && mb == p + db + q;
    assert |da| == |db|;
    assert da == ma[|p|..|p| + |da|];
    assert db == mb[|p|..|p| + |db|];
    NatToDecimalInjective(a, b);
  }

  /** One message per incomplete row, in row order. */
  function EntryErrors(rows: seq<EducationEntry>): (errs: seq<string>)
    ensures |errs| <= |rows|
    decreases |rows|
  {
    if rows == [] then []
    else
      var n := |rows|;
      EntryErrors(rows[..n - 1]) + (if EntryIncomplete(rows[n - 1]) then [EntryMessage(n)] else [])
  }

  /** Row `k` (from 1) is reported exactly when it is incomplete. */
  lemma {:induction false} EntryErrorsReport(rows: seq<EducationEntry>, k: nat)
    ensures EntryMessage(k) in EntryErrors(rows) <==> 1 <= k <= |rows| && EntryIncomplete(rows[k - 1])
    decreases |rows|
  {
    if rows != [] {
      var n := |rows|;
      var init := rows[..n - 1];
      var last := if EntryIncomplete(rows[n - 1]) then [EntryMessage(n)] else [];
      assert EntryErrors(rows) == EntryErrors(init) + last;
      EntryErrorsReport(init, k);
      if EntryMessage(k) in last {
        EntryMessageInjective(k, n);
      }
      if 1 <= k < n {
        assert init[k - 1] == rows[k - 1];
      }
    }
  }

  /** The rows raise no message exactly when every row names its institution and degree. */
  lemma {:induction false} EntryErrorsEmpty(rows: seq<EducationEntry>)
    ensures EntryErrors(rows) == [] <==> forall i :: 0 <= i < |rows| ==> !EntryIncomplete(rows[i])
    decreases |rows|
  {
    if rows != [] {
      var n := |rows|;
      var init := rows[..n - 1];
      EntryErrorsEmpty(init);
      if EntryErrors(rows) == [] {
        forall i | 0 <= i < n ensures !EntryIncomplete(rows[i]) {
          if i < n - 1 { assert init[i] == rows[i]; }
        }
      } else if forall i :: 0 <= i < n ==> !EntryIncomplete(rows[i]) {
        forall i | 0 <= i < n - 1 ensures !EntryIncomplete(init[i]) {
          assert init[i] == rows[i];
        }
        assert false;
      }
    }
  }

  /**
   * The messages `validateStep` collects, in the order it collects them.
   * Steps 4 and 6, and any other number, need nothing.
   */
  function StepErrors(step: int, s: OnboardingState): seq<string> {
    if step == 1 then PersonalErrors(s)
    else if step == 2 then EducationErrors(s)
    else if step == 3 then ExperienceErrors(s)
    else if step == 5 then GoalErrors(s)
    else []
  }

  /** Step 1: the four personal fields, in form order. */
  function PersonalErrors(s: OnboardingState): seq<string> {
    (if s.fullName == "" then [FullNameRequired] else [])
    + (if s.age == "" then [AgeRequired] else [])
    + (if s.location == "" then [LocationRequired] else [])
    + (if s.currentRole == "" then [CurrentRoleRequired] else [])
  }

  /** Step 2: the level, the field of study, then each incomplete row. */
  function EducationErrors(s: OnboardingState): seq<string> {
    (if s.education == "" then [EducationRequired] else [])
    + (if s.fieldOfStudy == "" then [FieldOfStudyRequired] else [])
    + EntryErrors(s.educationalBackground)
  }

  /** Step 3: the experience level. */
  function ExperienceErrors(s: OnboardingState): seq<string> {
    if s.experienceLevel == "" then [ExperienceLevelRequired] else []
  }

  /** Step 5: at least one goal, and the timeframe. */
  function GoalErrors(s: OnboardingState): seq<string> {
    (if |s.careerGoals| == 0 then [CareerGoalRequired] else [])
    + (if s.timeframe == "" then [TimeframeRequired] else [])
  }

  /** The `forEach` over the education rows: one message per incomplete row, in row order. */
  method CheckEntries(rows: seq<EducationEntry>) returns (errors: seq<string>)
    ensures errors == EntryErrors(rows)
  {
    errors := [];
    var i := 0;
    while i < |rows|
      invariant 0 <= i <= |rows|
      invariant errors == EntryErrors(rows[..i])
    {
      assert rows[..i + 1][..i] == rows[..i];
      if rows[i].institution == "" || rows[i].degree == "" {
        errors := errors + [EntryMessage(i + 1)];
      }
      i := i + 1;
    }
    assert rows[..|rows|] == rows;
  }

  /** `validateStep`: the messages pushed for the current step, one row at a time for step 2. */
  method ValidateStep(step: int, s: OnboardingState) returns (errors: seq<string>)
    ensures errors == StepErrors(step, s)
  {
    errors := [];
    if step == 1 {
      if s.fullName == "" { errors := errors + [FullNameRequired]; }
      ghost var e1 := errors;
      if s.age == "" { errors := errors + [AgeRequired]; }
      assert errors == e1 + (if s.age == "" then [AgeRequired] else []);
      ghost var e2 := errors;
      if s.location == "" { errors := errors + [LocationRequired]; }
      assert errors == e2 + (if s.location == "" then [LocationRequired] else []);
      ghost var e3 := errors;
      if s.currentRole == "" { errors := errors + [CurrentRoleRequired]; }
      assert errors == e3 + (if s.currentRole == "" then [CurrentRoleRequired] else []);
    } else if step == 2 {
      if s.education == "" { errors := errors + [EducationRequired]; }
      ghost var e1 := errors;
      if s.fieldOfStudy == "" { errors := errors + [FieldOfStudyRequired]; }
      assert errors == e1 + (if s.fieldOfStudy == "" then [FieldOfStudyRequired] else []);
      var entries := CheckEntries(s.educationalBackground);
      errors := errors + entries;
    } else if step == 3 {
      if s.experienceLevel == "" { errors := errors + [ExperienceLevelRequired]; }
    } else if step == 5 {
      if |s.careerGoals| == 0 { errors := errors + [CareerGoalRequired]; }
      ghost var e1 := errors;
      if s.timeframe == "" { errors := errors + [TimeframeRequired]; }
      assert errors == e1 + (if s.timeframe == "" then [TimeframeRequired] else []);
    }
  }

  /** Step 1 reports each empty personal field once, and passes exactly when all four are filled. */
  lemma PersonalStepRule(s: OnboardingState)
    ensures FullNameRequired in StepErrors(1, s) <==> s.fullName == ""
    ensures AgeRequired in StepErrors(1, s) <==> s.age == ""
    ensures LocationRequired in StepErrors(1, s) <==> s.location == ""
    ensures CurrentRoleRequired in StepErrors(1, s) <==> s.currentRole == ""
    ensures |StepErrors(1, s)| ==
      (if s.fullName == "" then 1 else 0) + (if s.age == "" then 1 else 0)
      + (if s.location == "" then 1 else 0) + (if s.currentRole == "" then 1 else 0)
    ensures StepErrors(1, s) == [] <==>
      s.fullName != "" && s.age != "" && s.location != "" && s.currentRole != ""
  {
    var a := if s.fullName == "" then [FullNameRequired] else [];
    var b := if s.age == "" then [AgeRequired] else [];
    var c := if s.location == "" then [LocationRequired] else [];
    var d := if s.currentRole == "" then [CurrentRoleRequired] else [];
    assert StepErrors(1, s) == a + b + c + d;
    // The four messages differ in length, hence in text.
    assert |FullNameRequired| == 21 && |AgeRequired| == 15;
    assert |LocationRequired| == 20 && |CurrentRoleRequired| == 24;
  }

  /**
   * Step 2 lists the level and field-of-study messages first, then one
   * message per incomplete row; it passes exactly when the level and the
   * field are set and every row names its institution and degree.
   */
  lemma EducationStepRule(s: OnboardingState, k: nat)
    ensures StepErrors(2, s)[..|StepErrors(2, s)| - |EntryErrors(s.educationalBackground)|] ==
      (if s.education == "" then [EducationRequired] else [])
      + (if s.fieldOfStudy == "" then [FieldOfStudyRequired] else [])
    ensures EntryMessage(k) in StepErrors(2, s) <==>
      1 <= k <= |s.educationalBackground| && EntryIncomplete(s.educationalBackground[k - 1])
    ensures StepErrors(2, s) == [] <==>
      s.education != "" && s.fieldOfStudy != ""
      && forall i :: 0 <= i < |s.educationalBackground| ==> !EntryIncomplete(s.educationalBackground[i])
  {
    EntryErrorsReport(s.educationalBackground, k);
    EntryErrorsEmpty(s.educationalBackground);
    var head := (if s.education == "" then [EducationRequired] else [])
      + (if s.fieldOfStudy == "" then [FieldOfStudyRequired] else []);
    assert StepErrors(2, s) == head + EntryErrors(s.educationalBackground);
    assert (head + EntryErrors(s.educationalBackground))[..|head|] == head;
    if EntryMessage(k) in head {
      assert |EntryMessage(k)| > 30;
    }
  }

  /**
   * Step 3 needs only the experience level, step 5 at least one goal and a
   * timeframe, and every other step but 1 and 2 nothing at all.
   */
  lemma OtherStepsRule(s: OnboardingState, step: int)
    ensures StepErrors(3, s) == (if s.experienceLevel == "" then [ExperienceLevelRequired] else [])
    ensures StepErrors(5, s) == [] <==> |s.careerGoals| > 0 && s.timeframe != ""
    ensures CareerGoalRequired in StepErrors(5, s) <==> |s.careerGoals| == 0
    ensures step != 1 && step != 2 && step != 3 && step != 5 ==> StepErrors(step, s) == []
  {
  }

  /** `handleNext`: one step forward, at most to the last, and only when validation passed. */
  function NextStep(step: int, s: OnboardingState): (n: int)
    ensures StepErrors(step, s) != [] ==> n == step
    ensures StepErrors(step, s) == [] ==> n == (if step < Total then step + 1 else Total)
  {
    if StepErrors(step, s) != [] then step
    else if Total < step + 1 then Total
    else step + 1
  }

  /** `handleBack`: one step back, at least to the first, without validating. */
  function BackStep(step: int): (n: int)
    ensures step > 1 ==> n == step - 1
    ensures step <= 1 ==> n == 1
  {
    if 1 > step - 1 then 1 else step - 1
  }

  /** A press of the Next or the Back button. */
  datatype Move = Forward | Backward

  /** The step reached after a sequence of button presses on an unchanged state. */
  function Run(step: int, s: OnboardingState, moves: seq<Move>): int
    decreases |moves|
  {
    if moves == [] then step
    else
      var next := if moves[0].Forward? then NextStep(step, s) else BackStep(step);
      Run(next, s, moves[1..])
  }

  /**
   * No step can be skipped: whatever the presses, the step stays in 1..6 and
   * every step before the one reached has passed its validation.
   */
  lemma {:induction false} RunPassesOnlyValidSteps(step: int, s: OnboardingState, moves: seq<Move>)
    requires 1 <= step <= Total
    requires forall j :: 1 <= j < step ==> StepErrors(j, s) == []
    ensures 1 <= Run(step, s, moves) <= Total
    ensures forall j :: 1 <= j < Run(step, s, moves) ==> StepErrors(j, s) == []
    decreases |moves|
  {
    if moves != [] {
      var next := if moves[0].Forward? then NextStep(step, s) else BackStep(step);
      RunPassesOnlyValidSteps(next, s, moves[1..]);
    }
  }

  /** Reaching the last step from the first means steps 1 to 5 all validated. */
  lemma ReachingTheEnd(s: OnboardingState, moves: seq<Move>)
    requires Run(1, s, moves) == Total
    ensures forall j :: 1 <= j < Total ==> StepErrors(j, s) == []
  {
    RunPassesOnlyValidSteps(1, s, moves);
  }

  /** What pressing "Submit & finish" does: block with the step's messages, or send the state. */
  datatype SubmitOutcome = Blocked(errors: seq<string>) | Submitted(payload: map<string, Json>)

  class Wizard {
    var step: int
    var state: OnboardingState

    /** The step shown is always one of the six. */
    ghost predicate Valid()
      reads this
    {
      1 <= step <= Total
    }

    constructor ()
      ensures Valid() && step == 1 && state == DefaultState
      ensures EndDatesCleared(state)
    {
      step := 1;
      state := DefaultState;
    }

    /**
     * The initial load: the stored profile replaces every field; when the
     * fetch fails (`None`) the state is left as it is.
     */
    method Load(snapshot: Option<Snapshot>)
      requires Valid()
      modifies this
      ensures Valid()
      ensures step == old(step)
      ensures snapshot.Some? ==> state == Hydrate(snapshot.value.user, snapshot.value.data)
      ensures snapshot.None? ==> state == old(state)
    {
      if snapshot.Some? {
        state := Hydrate(snapshot.value.user, snapshot.value.data);
      }
    }

    /** The Next button: validates the current step and advances only when it passed. */
    method Next() returns (errors: seq<string>)
      requires Valid()
      modifies this
      ensures Valid()
      ensures errors == StepErrors(old(step), old(state))
      ensures errors != [] ==> step == old(step)
      ensures errors == [] ==> step == (if old(step) < Total then old(step) + 1 else Total)
      ensures step == NextStep(old(step), old(state)) && state == old(state)
    {
      errors := ValidateStep(step, state);
      if errors != [] {
        return;
      }
      step := if Total < step + 1 then Total else step + 1;
    }

    /** The Back button: never validates. */
    method Back()
      requires Valid()
      modifies this
      ensures Valid()
      ensures step == BackStep(old(step)) && state == old(state)
    {
      step := if 1 > step - 1 then 1 else step - 1;
    }

    /** Any edit of a field: the state changes as the edit says and the step stays. */
    method Edit(c: Change)
      requires Valid() && Fits(state, c)
      modifies this
      ensures Valid()
      ensures state == Apply(old(state), c) && step == old(step)
      ensures EndDatesCleared(old(state)) ==> EndDatesCleared(state)
    {
      if EndDatesCleared(state) {
        ApplyKeepsEndDatesCleared(state, c);
      }
      state := Apply(state, c);
    }

    /**
     * "Submit & finish": validates the current step and, when it passes,
     * sends every field of the state. On the last step, where the button is
     * shown, validation always passes.
     */
    method Submit() returns (outcome: SubmitOutcome)
      requires Valid()
      ensures StepErrors(step, state) != [] ==> outcome == Blocked(StepErrors(step, state))
      ensures StepErrors(step, state) == [] ==> outcome == Submitted(StateToJson(state))
      ensures step == Total ==> outcome.Submitted?
    {
      var errors := ValidateStep(step, state);
      if errors != [] {
        return Blocked(errors);
      }
      outcome := Submitted(StateToJson(state));
    }
  }
}
