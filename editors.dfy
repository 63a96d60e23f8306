/**
 * The edits every form screen applies to the collected profile fields: the
 * wizard's `update(key, value)` handlers and the profile editors'
 * `updateForm(key, value)` handlers compute exactly these new states.
 */
module Editors {
  import opened ProfileTypes
  import opened Rows

  /** A single-line field takes a new value; nothing else changes. */
  function SetText(s: OnboardingState, f: TextField, v: string): (t: OnboardingState)
    ensures Text(t, f) == v
    ensures forall g :: g != f ==> Text(t, g) == Text(s, g)
    ensures forall l :: Tags(t, l) == Tags(s, l)
    ensures t.educationalBackground == s.educationalBackground && t.previousRoles == s.previousRoles
  {
    match f
    case FullName => s.(fullName := v)
    case Age => s.(age := v)
    case Location => s.(location := v)
    case CurrentRole => s.(currentRole := v)
    case EducationLevel => s.(education := v)
    case FieldOfStudy => s.(fieldOfStudy := v)
    case GraduationYear => s.(graduationYear := v)
    case ExperienceLevel => s.(experienceLevel := v)
    case Timeframe => s.(timeframe := v)
    case WorkPreference => s.(workPreference := v)
  }

  /** A string list (a tags editor's `onChange`) takes a new value; nothing else changes. */
  function SetTags(s: OnboardingState, l: TagList, tags: seq<string>): (t: OnboardingState)
    ensures Tags(t, l) == tags
    ensures forall m :: m != l ==> Tags(t, m) == Tags(s, m)
    ensures forall f :: Text(t, f) == Text(s, f)
    ensures t.educationalBackground == s.educationalBackground && t.previousRoles == s.previousRoles
  {
    match l
    case Certifications => s.(certifications := tags)
    case TechnicalSkills => s.(technicalSkills := tags)
    case SoftSkills => s.(softSkills := tags)
    case SkillsToImprove => s.(skillsToImprove := tags)
    case CareerGoals => s.(careerGoals := tags)
    case PreferredIndustries => s.(preferredIndustries := tags)
  }

  /** "Add education": one blank row appended, the existing rows kept in place. */
  function AddEducation(s: OnboardingState): (t: OnboardingState)
    ensures |t.educationalBackground| == |s.educationalBackground| + 1
    ensures t.educationalBackground[..|s.educationalBackground|] == s.educationalBackground
    ensures t.educationalBackground[|s.educationalBackground|] == BlankEducation
    ensures t == s.(educationalBackground := t.educationalBackground)
  {
    s.(educationalBackground := s.educationalBackground + [BlankEducation])
  }

  /** One text field of education row `idx` edited; every other row and field is kept. */
  function EditEducation(s: OnboardingState, idx: nat, f: EducationField, v: string): (t: OnboardingState)
    requires idx < |s.educationalBackground|
    ensures |t.educationalBackground| == |s.educationalBackground|
    ensures EducationText(t.educationalBackground[idx], f) == v
    ensures forall g :: g != f ==>
      EducationText(t.educationalBackground[idx], g) == EducationText(s.educationalBackground[idx], g)
    ensures t.educationalBackground[idx].isCurrent == s.educationalBackground[idx].isCurrent
    ensures forall j :: 0 <= j < |s.educationalBackground| && j != idx ==>
      t.educationalBackground[j] == s.educationalBackground[j]
    ensures t == s.(educationalBackground := t.educationalBackground)
  {
    var rows := s.educationalBackground;
    s.(educationalBackground := rows[idx := WithEducationText(rows[idx], f, v)])
  }

  /**
   * The "currently studying" check box of row `idx`: checking it clears that
   * row's end year, unchecking keeps it; every other row and field is kept.
   */
  function SetEducationCurrent(s: OnboardingState, idx: nat, checked: bool): (t: OnboardingState)
    requires idx < |s.educationalBackground|
    ensures |t.educationalBackground| == |s.educationalBackground|
    ensures t.educationalBackground[idx].isCurrent == checked
    ensures t.educationalBackground[idx].endYear ==
      (if checked then "" else s.educationalBackground[idx].endYear)
    ensures forall g :: g != EduEndYear ==>
      EducationText(t.educationalBackground[idx], g) == EducationText(s.educationalBackground[idx], g)
    ensures forall j :: 0 <= j < |s.educationalBackground| && j != idx ==>
      t.educationalBackground[j] == s.educationalBackground[j]
    ensures t == s.(educationalBackground := t.educationalBackground)
  {
    var rows := s.educationalBackground;
    s.(educationalBackground := rows[idx := SetCurrent(rows[idx], checked)])
  }

  /** "Remove" on education row `idx`: that row goes, the others keep their order. */
  function RemoveEducation(s: OnboardingState, idx: nat): (t: OnboardingState)
    ensures idx >= |s.educationalBackground| ==> t == s
    ensures idx < |s.educationalBackground| ==>
      |t.educationalBackground| == |s.educationalBackground| - 1
    ensures forall j :: 0 <= j < idx && j < |t.educationalBackground| ==>
      t.educationalBackground[j] == s.educationalBackground[j]
    ensures idx < |s.educationalBackground| ==> forall j :: idx <= j < |t.educationalBackground| ==>
      t.educationalBackground[j] == s.educationalBackground[j + 1]
    ensures t == s.(educationalBackground := t.educationalBackground)
  {
    s.(educationalBackground := RemoveAt(s.educationalBackground, idx))
  }

  /** "Add role": one blank role appended, the existing roles kept in place. */
  function AddRole(s: OnboardingState): (t: OnboardingState)
    ensures |t.previousRoles| == |s.previousRoles| + 1
    ensures t.previousRoles[..|s.previousRoles|] == s.previousRoles
    ensures t.previousRoles[|s.previousRoles|] == BlankRole
    ensures t == s.(previousRoles := t.previousRoles)
  {
    s.(previousRoles := s.previousRoles + [BlankRole])
  }

  /** One text field of role `idx` edited; every other role and field is kept. */
  function EditRole(s: OnboardingState, idx: nat, f: RoleField, v: string): (t: OnboardingState)
    requires idx < |s.previousRoles|
    ensures |t.previousRoles| == |s.previousRoles|
    ensures RoleText(t.previousRoles[idx], f) == v
    ensures forall g :: g != f ==> RoleText(t.previousRoles[idx], g) == RoleText(s.previousRoles[idx], g)
    ensures t.previousRoles[idx].isPresent == s.previousRoles[idx].isPresent
    ensures forall j :: 0 <= j < |s.previousRoles| && j != idx ==> t.previousRoles[j] == s.previousRoles[j]
    ensures t == s.(previousRoles := t.previousRoles)
  {
    var rows := s.previousRoles;
    s.(previousRoles := rows[idx := WithRoleText(rows[idx], f, v)])
  }

  /**
   * The "I currently work here" check box of role `idx`: checking it clears
   * both end fields of that role, unchecking keeps them; nothing else changes.
   */
  function SetRolePresent(s: OnboardingState, idx: nat, checked: bool): (t: OnboardingState)
    requires idx < |s.previousRoles|
    ensures |t.previousRoles| == |s.previousRoles|
    ensures t.previousRoles[idx].isPresent == checked
    ensures t.previousRoles[idx].endMonth == (if checked then "" else s.previousRoles[idx].endMonth)
    ensures t.previousRoles[idx].endYear == (if checked then "" else s.previousRoles[idx].endYear)
    ensures forall g :: g != RoleEndMonth && g != RoleEndYear ==>
      RoleText(t.previousRoles[idx], g) == RoleText(s.previousRoles[idx], g)
    ensures forall j :: 0 <= j < |s.previousRoles| && j != idx ==> t.previousRoles[j] == s.previousRoles[j]
    ensures t == s.(previousRoles := t.previousRoles)
  {
    var rows := s.previousRoles;
    s.(previousRoles := rows[idx := SetPresent(rows[idx], checked)])
  }

  /** "Remove" on role `idx`: that role goes, the others keep their order. */
  function RemoveRole(s: OnboardingState, idx: nat): (t: OnboardingState)
    ensures idx >= |s.previousRoles| ==> t == s
    ensures idx < |s.previousRoles| ==> |t.previousRoles| == |s.previousRoles| - 1
    ensures forall j :: 0 <= j < idx && j < |t.previousRoles| ==> t.previousRoles[j] == s.previousRoles[j]
    ensures idx < |s.previousRoles| ==>
      forall j :: idx <= j < |t.previousRoles| ==> t.previousRoles[j] == s.previousRoles[j + 1]
    ensures t == s.(previousRoles := t.previousRoles)
  {
    s.(previousRoles := RemoveAt(s.previousRoles, idx))
  }

  /** A career-goal button: selects the goal when it is not selected, deselects it otherwise. */
  function ToggleGoal(s: OnboardingState, goal: string): (t: OnboardingState)
    ensures goal in t.careerGoals <==> goal !in s.careerGoals
    ensures forall g :: g != goal ==> (g in t.careerGoals <==> g in s.careerGoals)
    ensures goal !in s.careerGoals ==> t.careerGoals == s.careerGoals + [goal]
    ensures goal in s.careerGoals ==> t.careerGoals == Without(s.careerGoals, goal)
    ensures t == s.(careerGoals := t.careerGoals)
  {
    s.(careerGoals := Toggle(s.careerGoals, goal))
  }

  /** An industry button: the same rule on the preferred industries. */
  function ToggleIndustry(s: OnboardingState, industry: string): (t: OnboardingState)
    ensures industry in t.preferredIndustries <==> industry !in s.preferredIndustries
    ensures forall g :: g != industry ==> (g in t.preferredIndustries <==> g in s.preferredIndustries)
    ensures industry !in s.preferredIndustries ==> t.preferredIndustries == s.preferredIndustries + [industry]
    ensures industry in s.preferredIndustries ==> t.preferredIndustries == Without(s.preferredIndustries, industry)
    ensures t == s.(preferredIndustries := t.preferredIndustries)
  {
    s.(preferredIndustries := Toggle(s.preferredIndustries, industry))
  }

  /** Clicking an unselected goal and then clicking it again gives back the original state. */
  lemma ToggleGoalTwice(s: OnboardingState, goal: string)
    requires goal !in s.careerGoals
    ensures ToggleGoal(ToggleGoal(s, goal), goal) == s
  {
    ToggleTwiceRestores(s.careerGoals, goal);
  }

  /** The same for an industry. */
  lemma ToggleIndustryTwice(s: OnboardingState, industry: string)
    requires industry !in s.preferredIndustries
    ensures ToggleIndustry(ToggleIndustry(s, industry), industry) == s
  {
    ToggleTwiceRestores(s.preferredIndustries, industry);
  }

  /** One user action on the shared fields. */
  datatype Change =
    | TextChanged(field: TextField, text: string)
    | TagsChanged(list: TagList, tags: seq<string>)
    | EducationAdded
    | EducationEdited(row: nat, efield: EducationField, etext: string)
    | EducationCurrentToggled(row: nat, checked: bool)
    | EducationRemoved(row: nat)
    | RoleAdded
    | RoleEdited(row: nat, rfield: RoleField, rtext: string)
    | RolePresentToggled(row: nat, checked: bool)
    | RoleRemoved(row: nat)
    | GoalToggled(goal: string)
    | IndustryToggled(industry: string)
    | WorkPreferenceChosen(option: string)

  /**
   * A row handler exists only for a row on screen, so its index is in range;
   * the end-date inputs are disabled while the row is current or present.
   */
  predicate Fits(s: OnboardingState, c: Change) {
    match c
    case EducationEdited(row, f, _) =>
      row < |s.educationalBackground| && !(f == EduEndYear && s.educationalBackground[row].isCurrent)
    case EducationCurrentToggled(row, _) => row < |s.educationalBackground|
    case RoleEdited(row, f, _) =>
      row < |s.previousRoles| && !((f == RoleEndMonth || f == RoleEndYear) && s.previousRoles[row].isPresent)
    case RolePresentToggled(row, _) => row < |s.previousRoles|
    case _ => true
  }

  /**
   * The new state after one action. Choosing a work preference sets
   * exactly that option; the list edits only ever touch their own list.
   */
  function Apply(s: OnboardingState, c: Change): (t: OnboardingState)
    requires Fits(s, c)
    ensures c.WorkPreferenceChosen? ==>
      (t.workPreference == c.option && forall f :: f != WorkPreference ==> Text(t, f) == Text(s, f))
    ensures !c.TextChanged? && !c.WorkPreferenceChosen? ==> forall f :: Text(t, f) == Text(s, f)
    ensures (!c.EducationAdded? && !c.EducationEdited? && !c.EducationCurrentToggled? && !c.EducationRemoved?)
      ==> t.educationalBackground == s.educationalBackground
    ensures (!c.RoleAdded? && !c.RoleEdited? && !c.RolePresentToggled? && !c.RoleRemoved?)
      ==> t.previousRoles == s.previousRoles
  {
    match c
    case TextChanged(f, v) => SetText(s, f, v)
    case TagsChanged(l, tags) => SetTags(s, l, tags)
    case EducationAdded => AddEducation(s)
    case EducationEdited(i, f, v) => EditEducation(s, i, f, v)
    case EducationCurrentToggled(i, b) => SetEducationCurrent(s, i, b)
    case EducationRemoved(i) => RemoveEducation(s, i)
    case RoleAdded => AddRole(s)
    case RoleEdited(i, f, v) => EditRole(s, i, f, v)
    case RolePresentToggled(i, b) => SetRolePresent(s, i, b)
    case RoleRemoved(i) => RemoveRole(s, i)
    case GoalToggled(g) => ToggleGoal(s, g)
    case IndustryToggled(x) => ToggleIndustry(s, x)
    case WorkPreferenceChosen(opt) => SetText(s, WorkPreference, opt)
  }

  /** Each action touches at most its own tag list: a tag edit or a toggle leaves the other lists, and every other action all of them. */
  lemma ApplyKeepsOtherTags(s: OnboardingState, c: Change)
    requires Fits(s, c)
    ensures c.TagsChanged? ==>
      Tags(Apply(s, c), c.list) == c.tags && forall m :: m != c.list ==> Tags(Apply(s, c), m) == Tags(s, m)
    ensures c.GoalToggled? ==> forall m :: m != CareerGoals ==> Tags(Apply(s, c), m) == Tags(s, m)
    ensures c.IndustryToggled? ==> forall m :: m != PreferredIndustries ==> Tags(Apply(s, c), m) == Tags(s, m)
    ensures !c.TagsChanged? && !c.GoalToggled? && !c.IndustryToggled? ==>
      forall m :: Tags(Apply(s, c), m) == Tags(s, m)
  {
    var t := Apply(s, c);
    match c
    case TextChanged(f, v) =>
      assert forall m :: Tags(t, m) == Tags(s, m);
    case TagsChanged(l, tags) =>
    case GoalToggled(g) =>
      assert t == s.(careerGoals := t.careerGoals);
    case IndustryToggled(x) =>
      assert t == s.(preferredIndustries := t.preferredIndustries);
    case WorkPreferenceChosen(opt) =>
      assert forall m :: Tags(t, m) == Tags(s, m);
    case _ =>
  }

  /**
   * The end dates the form keeps empty: a current education row has no end
   * year, and a present role has neither an end month nor an end year.
   */
  predicate EndDatesCleared(s: OnboardingState) {
    (forall i :: 0 <= i < |s.educationalBackground| && s.educationalBackground[i].isCurrent ==>
       s.educationalBackground[i].endYear == "")
    && (forall i :: 0 <= i < |s.previousRoles| && s.previousRoles[i].isPresent ==>
          s.previousRoles[i].endMonth == "" && s.previousRoles[i].endYear == "")
  }

  /** Every action the screens allow keeps the end dates of current rows and present roles empty. */
  lemma ApplyKeepsEndDatesCleared(s: OnboardingState, c: Change)
    requires Fits(s, c) && EndDatesCleared(s)
    ensures EndDatesCleared(Apply(s, c))
  {
    var t := Apply(s, c);
    match c
    case EducationAdded =>
      assert t.educationalBackground == s.educationalBackground + [BlankEducation];
    case EducationEdited(row, f, v) =>
      forall i | 0 <= i < |t.educationalBackground| && t.educationalBackground[i].isCurrent
        ensures t.educationalBackground[i].endYear == ""
      {
        if i == row {
          assert EducationText(t.educationalBackground[i], EduEndYear)
            == EducationText(s.educationalBackground[i], EduEndYear);
        }
      }
    case EducationRemoved(row) =>
      forall i | 0 <= i < |t.educationalBackground| && t.educationalBackground[i].isCurrent
        ensures t.educationalBackground[i].endYear == ""
      {
        if i >= row {
          assert t.educationalBackground[i] == s.educationalBackground[i + 1];
        }
      }
    case RoleAdded =>
      assert t.previousRoles == s.previousRoles + [BlankRole];
    case RoleEdited(row, f, v) =>
      forall i | 0 <= i < |t.previousRoles| && t.previousRoles[i].isPresent
        ensures t.previousRoles[i].endMonth == "" && t.previousRoles[i].endYear == ""
      {
        if i == row {
          assert RoleText(t.previousRoles[i], RoleEndMonth) == RoleText(s.previousRoles[i], RoleEndMonth);
          assert RoleText(t.previousRoles[i], RoleEndYear) == RoleText(s.previousRoles[i], RoleEndYear);
        }
      }
    case RoleRemoved(row) =>
      forall i | 0 <= i < |t.previousRoles| && t.previousRoles[i].isPresent
        ensures t.previousRoles[i].endMonth == "" && t.previousRoles[i].endYear == ""
      {
        if i >= row {
          assert t.previousRoles[i] == s.previousRoles[i + 1];
        }
      }
    case _ =>
  }
}
