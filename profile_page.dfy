/**
 * The profile page: the header initial, the normalisation of the stored
 * record, the editor's form built from it, the summary cards, and saving one
 * section (or the account settings) back.
 */
module ProfileRoute {
  import opened Wrappers
  import opened JsValues
  import opened JsText
  import opened ProfileTypes
  import opened Editors
  import opened SectionCard
  import OnboardingForm

  /** The sections of the page; each opens its own editor. */
  datatype Section = Personal | Education | Experience | Skills | Goals | Account

  // ---------------------------------------------------------------------------
  // Header
  // ---------------------------------------------------------------------------

  /** The text the initial is taken from: the trimmed name when it is not blank, else the email or "". */
  function InitialSource(name: Option<string>, email: Option<string>): (src: string)
    ensures name.Some? && !IsBlank(name.value) ==> src == Trim(name.value) && src != "" && IsTrimmed(src)
    ensures (name.None? || IsBlank(name.value)) ==> src == (if email.Some? then email.value else "")
  {
    TrimEmptyIffBlank(if name.Some? then name.value else "");
    if name.Some? && Trim(name.value) != "" then Trim(name.value)
    else if email.Some? then email.value
    else ""
  }

  /**
   * The avatar's fallback letter: the first character of the trimmed name
   * when the name is not blank, else of the email, upper-cased; "U" when
   * both are missing or empty.
   */
  function GetInitial(name: Option<string>, email: Option<string>): (c: string)
    ensures |c| == 1
    ensures name.Some? && !IsBlank(name.value) ==>
      c == [UpperCase(Trim(name.value)[0])] && !IsJsWhitespace(c[0])
    ensures (name.None? || IsBlank(name.value)) && email.Some? && email.value != "" ==>
      c == [UpperCase(email.value[0])]
    ensures (name.None? || IsBlank(name.value)) && (email.None? || email.value == "") ==> c == "U"
  {
    var source := InitialSource(name, email);
    if source != "" then [UpperCase(source[0])] else "U"
  }

  /** The header's name line: the user's name, or "Your name" when it is missing or empty. */
  function HeaderName(user: Option<User>): (n: string)
    ensures user.Some? && user.value.fullName.Some? && user.value.fullName.value != "" ==>
      n == user.value.fullName.value
    ensures !(user.Some? && user.value.fullName.Some? && user.value.fullName.value != "") ==>
      n == "Your name"
  {
    if user.Some? && user.value.fullName.Some? && user.value.fullName.value != "" then user.value.fullName.value
    else "Your name"
  }

  // ---------------------------------------------------------------------------
  // Normalising the stored record
  // ---------------------------------------------------------------------------

  /** The keys whose value is forced to be an array as-is. */
  const ListKeys: set<string> := {
    "certifications", "educationalBackground", "technicalSkills", "softSkills",
    "skillsToImprove", "careerGoals", "preferredIndustries"}

  /** Every key the normalisation rewrites. */
  const NormalizedKeys: set<string> := ListKeys + {"previousRoles"}

  /** `Array.isArray(v) ? v : []`. */
  function ArrayOrEmpty(v: Json): (r: Json)
    ensures r.Arr?
    ensures v.Arr? ==> r == v
    ensures !v.Arr? ==> r == Arr([])
  {
    if v.Arr? then v else Arr([])
  }

  /**
   * One stored role with every field present: each text field is the stored
   * one, or "" when it is null or missing; `isPresent` is the stored flag as
   * a boolean.
   */
  function NormalizeRole(role: Json): (r: Json)
    ensures r.Obj? && r.fields.Keys == RoleKeys
    ensures forall k :: k in RoleTextKeys ==>
      r.fields[k] == (if Nullish(OptionalGet(role, k)) then Str("") else OptionalGet(role, k))
    ensures r.fields["isPresent"] == Bool(Truthy(OptionalGet(role, "isPresent")))
  {
    Obj(map k | k in RoleKeys ::
      if k == "isPresent" then Bool(Truthy(OptionalGet(role, k)))
      else Coalesce(OptionalGet(role, k), Str("")))
  }

  /** Normalising a role changes nothing the typed record reads from it. */
  lemma NormalizeRoleReadsTheSame(role: Json)
    ensures RoleFromJson(NormalizeRole(role)) == RoleFromJson(role)
  {
    var r := NormalizeRole(role);
    assert "title" in RoleTextKeys && "company" in RoleTextKeys && "startMonth" in RoleTextKeys;
    assert "startYear" in RoleTextKeys && "endMonth" in RoleTextKeys && "endYear" in RoleTextKeys;
    assert "description" in RoleTextKeys;
  }

  /** Normalising a role twice is normalising it once. */
  lemma NormalizeRoleIdempotent(role: Json)
    ensures NormalizeRole(NormalizeRole(role)) == NormalizeRole(role)
  {
    var r := NormalizeRole(role);
    var rr := NormalizeRole(r);
    forall k | k in RoleKeys ensures rr.fields[k] == r.fields[k] {
      if k != "isPresent" {
        assert k in RoleTextKeys;
      }
    }
    assert rr.fields == r.fields;
  }

  /** A role the editor wrote is already normalised. */
  lemma NormalizeRoleKeepsWrittenRole(p: PreviousRole)
    ensures NormalizeRole(RoleToJson(p)) == RoleToJson(p)
  {
    var v := RoleToJson(p);
    var r := NormalizeRole(v);
    forall k | k in RoleKeys ensures r.fields[k] == v.fields[k] {
      if k != "isPresent" {
        assert k in RoleTextKeys;
      }
    }
    assert r.fields == v.fields;
  }

  /** The helper that maps `NormalizeRole` over a sequence of stored roles. */
  function NormalizeRoleItems(items: seq<Json>): (r: seq<Json>)
    ensures |r| == |items|
    ensures forall i :: 0 <= i < |items| ==> r[i] == NormalizeRole(items[i])
  {
    seq(|items|, i requires 0 <= i < |items| => NormalizeRole(items[i]))
  }

  /** The stored `previousRoles`: each role normalised when it is an array, else []. */
  function NormalizedRoles(v: Json): (r: Json)
    ensures r.Arr?
    ensures r.items == (if v.Arr? then NormalizeRoleItems(v.items) else [])
    ensures RoleListFromJson(r) == RoleListFromJson(v)
  {
    if v.Arr? then
      NormalizeRoleItemsReadTheSame(v.items);
      Arr(NormalizeRoleItems(v.items))
    else Arr([])
  }

  /** Normalising every role of a list changes nothing the typed rows read from it. */
  lemma NormalizeRoleItemsReadTheSame(items: seq<Json>)
    ensures RoleListFromJson(Arr(NormalizeRoleItems(items))) == RoleListFromJson(Arr(items))
  {
    forall i | 0 <= i < |items| ensures RoleFromJson(NormalizeRoleItems(items)[i]) == RoleFromJson(items[i]) {
      NormalizeRoleReadsTheSame(items[i]);
    }
  }

  /** The value the normalisation stores under `k`. */
  function NormalizedValue(raw: map<string, Json>, k: string): (v: Json)
    ensures k !in NormalizedKeys ==> v == Field(raw, k)
    ensures k in ListKeys ==> v == ArrayOrEmpty(Field(raw, k))
    ensures k == "previousRoles" ==> v == NormalizedRoles(Field(raw, k))
  {
    assert "previousRoles" !in ListKeys;
    if k == "previousRoles" then NormalizedRoles(Field(raw, "previousRoles"))
    else if k in ListKeys then ArrayOrEmpty(Field(raw, k))
    else Field(raw, k)
  }

  /**
   * `{ ...raw, certifications: …, previousRoles: … }`: every key of the raw
   * record is kept, the list keys always hold arrays (an array is kept, any
   * other value becomes []), and every stored role is normalised.
   */
  function NormalizeArrays(raw: map<string, Json>): map<string, Json> {
    map k | k in raw.Keys + NormalizedKeys :: NormalizedValue(raw, k)
  }

  /**
   * What the normalisation does, key by key: every key of the raw record is
   * kept, the list keys always hold arrays (an array is kept, any other value
   * becomes []), and every stored role is normalised.
   */
  lemma NormalizeArraysReads(raw: map<string, Json>)
    ensures NormalizeArrays(raw).Keys == raw.Keys + NormalizedKeys
    ensures forall k :: k !in NormalizedKeys ==> Field(NormalizeArrays(raw), k) == Field(raw, k)
    ensures forall k :: k in ListKeys ==> Field(NormalizeArrays(raw), k) == ArrayOrEmpty(Field(raw, k))
    ensures Field(NormalizeArrays(raw), "previousRoles") == NormalizedRoles(Field(raw, "previousRoles"))
  {
  }

  /** Normalising an already normalised record changes nothing. */
  lemma NormalizeArraysIdempotent(raw: map<string, Json>)
    ensures NormalizeArrays(NormalizeArrays(raw)) == NormalizeArrays(raw)
  {
    var n := NormalizeArrays(raw);
    var nn := NormalizeArrays(n);
    NormalizeArraysReads(raw);
    NormalizeArraysReads(n);
    var roles := Field(n, "previousRoles");
    assert roles.Arr?;
    forall i | 0 <= i < |roles.items| ensures NormalizeRole(roles.items[i]) == roles.items[i] {
      var v := Field(raw, "previousRoles");
      assert v.Arr?;
      NormalizeRoleIdempotent(v.items[i]);
    }
    assert NormalizeRoleItems(roles.items) == roles.items;
    forall k | k in nn.Keys ensures nn[k] == n[k] {
      assert Field(nn, k) == Field(n, k);
    }
    assert nn == n;
  }

  // ---------------------------------------------------------------------------
  // The editor's form
  // ---------------------------------------------------------------------------

  /** A stored text as the form reads it: `(normalized[k] as string) || ""`. */
  function FormText(n: map<string, Json>, k: string): (v: string)
    ensures Field(n, k).Str? ==> v == Field(n, k).s
    ensures !Field(n, k).Str? ==> v == ""
  {
    var t := AsText(Field(n, k));
    if t != "" then t else ""
  }

  /** The wizard's fields of the editor's form, read from the normalised record `n`. */
  function FormFields(n: map<string, Json>, user: Option<User>): (s: OnboardingState)
    ensures s.fullName == (if user.Some? && user.value.fullName.Some? then user.value.fullName.value else "")
  {
    OnboardingState(
      fullName := if user.Some? && user.value.fullName.Some? && user.value.fullName.value != "" then user.value.fullName.value else "",
      age := FormText(n, "age"),
      location := FormText(n, "location"),
      currentRole := FormText(n, "currentRole"),
      education := FormText(n, "education"),
      fieldOfStudy := FormText(n, "fieldOfStudy"),
      graduationYear := FormText(n, "graduationYear"),
      certifications := TagsFromJson(Field(n, "certifications")),
      educationalBackground := EducationListFromJson(Field(n, "educationalBackground")),
      experienceLevel := FormText(n, "experienceLevel"),
      previousRoles := RoleListFromJson(Field(n, "previousRoles")),
      technicalSkills := TagsFromJson(Field(n, "technicalSkills")),
      softSkills := TagsFromJson(Field(n, "softSkills")),
      skillsToImprove := TagsFromJson(Field(n, "skillsToImprove")),
      careerGoals := TagsFromJson(Field(n, "careerGoals")),
      timeframe := FormText(n, "timeframe"),
      preferredIndustries := TagsFromJson(Field(n, "preferredIndustries")),
      workPreference := FormText(n, "workPreference"))
  }

  /**
   * The form an editor opens with: the account fields from the user, every
   * other field from the normalised record, the password fields empty.
   */
  function BuildFormState(data: map<string, Json>, user: Option<User>): (f: FormState)
    ensures f.fields == FormFields(NormalizeArrays(data), user)
    ensures f.currentPassword == "" && f.newPassword == "" && f.confirmPassword == ""
    ensures f.email == (if user.Some? then user.value.email else "")
    ensures f.profileImage == (if user.Some? && user.value.profileImage.Some? then user.value.profileImage.value else "")
  {
    FormState(
      FormFields(NormalizeArrays(data), user),
      email := if user.Some? && user.value.email != "" then user.value.email else "",
      profileImage := if user.Some? && user.value.profileImage.Some? && user.value.profileImage.value != "" then user.value.profileImage.value else "",
      currentPassword := "", newPassword := "", confirmPassword := "")
  }

  /** No text field of the state is stored under a key the normalisation rewrites. */
  lemma TextKeysNotNormalized(t: TextField)
    ensures TextKey(t) !in NormalizedKeys
  {
  }

  /** Every list field of the state is stored under a key the normalisation forces to an array. */
  lemma TagKeysAreLists(l: TagList)
    ensures TagKey(l) in ListKeys
  {
  }

  /** The personal and education text fields of the editor's form are read as the wizard reads them. */
  lemma BuildFormTextsMatchWizard(data: map<string, Json>, user: Option<User>)
    ensures var a, b := FormFields(NormalizeArrays(data), user), OnboardingForm.Hydrate(user, data);
      a.age == b.age && a.location == b.location && a.currentRole == b.currentRole
      && a.education == b.education && a.fieldOfStudy == b.fieldOfStudy
  {
    PlainKeysNotNormalized();
    SameText(data, "age");
    SameText(data, "location");
    SameText(data, "currentRole");
    SameText(data, "education");
    SameText(data, "fieldOfStudy");
  }

  /** The remaining text fields of the editor's form are read as the wizard reads them. */
  lemma BuildFormMoreTextsMatchWizard(data: map<string, Json>, user: Option<User>)
    ensures var a, b := FormFields(NormalizeArrays(data), user), OnboardingForm.Hydrate(user, data);
      a.graduationYear == b.graduationYear && a.experienceLevel == b.experienceLevel
      && a.timeframe == b.timeframe && a.workPreference == b.workPreference
  {
    PlainKeysNotNormalized();
    SameText(data, "graduationYear");
    SameText(data, "experienceLevel");
    SameText(data, "timeframe");
    SameText(data, "workPreference");
  }

  /** The keys of the text fields are not among the keys the normalisation rewrites. */
  lemma PlainKeysNotNormalized()
    ensures "age" !in NormalizedKeys && "location" !in NormalizedKeys && "currentRole" !in NormalizedKeys
    ensures "education" !in NormalizedKeys && "fieldOfStudy" !in NormalizedKeys
    ensures "graduationYear" !in NormalizedKeys && "experienceLevel" !in NormalizedKeys
    ensures "timeframe" !in NormalizedKeys && "workPreference" !in NormalizedKeys
  {
  }

  /** A key the normalisation leaves alone reads the same before and after it. */
  lemma SameText(data: map<string, Json>, k: string)
    requires k !in NormalizedKeys
    ensures FormText(NormalizeArrays(data), k) == OnboardingForm.StoredText(data, k)
  {
    NormalizeArraysReads(data);
  }

  /** The list fields of the editor's form are read as the wizard reads them. */
  lemma BuildFormListsMatchWizard(data: map<string, Json>, user: Option<User>)
    ensures var a, b := FormFields(NormalizeArrays(data), user), OnboardingForm.Hydrate(user, data);
      a.certifications == b.certifications && a.technicalSkills == b.technicalSkills
      && a.softSkills == b.softSkills && a.skillsToImprove == b.skillsToImprove
      && a.careerGoals == b.careerGoals && a.preferredIndustries == b.preferredIndustries
      && a.educationalBackground == b.educationalBackground && a.previousRoles == b.previousRoles
  {
    ListKeysAreLists();
    SameTags(data, "certifications");
    SameTags(data, "technicalSkills");
    SameTags(data, "softSkills");
    SameTags(data, "skillsToImprove");
    SameTags(data, "careerGoals");
    SameTags(data, "preferredIndustries");
  }

  /** The keys of the list fields are among the keys the normalisation forces to arrays. */
  lemma ListKeysAreLists()
    ensures "certifications" in ListKeys && "technicalSkills" in ListKeys && "softSkills" in ListKeys
    ensures "skillsToImprove" in ListKeys && "careerGoals" in ListKeys && "preferredIndustries" in ListKeys
    ensures "educationalBackground" in ListKeys
  {
  }

  /** A list key reads the same list of strings before and after the normalisation. */
  lemma SameTags(data: map<string, Json>, k: string)
    requires k in ListKeys
    ensures TagsFromJson(Field(NormalizeArrays(data), k)) == OnboardingForm.StoredTags(data, k)
  {
    NormalizeArraysReads(data);
  }

  /**
   * Read through the typed record fields, the profile editor and the
   * onboarding wizard agree on a stored record: the two give the same
   * text for every text field, the same tags and the same typed rows.
   */
  lemma BuildFormStateMatchesWizard(data: map<string, Json>, user: Option<User>)
    ensures BuildFormState(data, user).fields == OnboardingForm.Hydrate(user, data)
  {
    BuildFormTextsMatchWizard(data, user);
    BuildFormMoreTextsMatchWizard(data, user);
    BuildFormListsMatchWizard(data, user);
  }

  // ---------------------------------------------------------------------------
  // The summary cards
  // ---------------------------------------------------------------------------

  /** `` `${v || fallback}` ``. */
  function OrText(v: Json, fallback: string): (t: string)
    ensures Truthy(v) ==> t == ToText(v)
    ensures !Truthy(v) ==> t == fallback
  {
    if Truthy(v) then ToText(v) else fallback
  }

  /** `` `${a} ${b}` `` */
  function Pair(a: Json, b: Json): (t: string)
    ensures t != ""
  {
    ToText(a) + " " + ToText(b)
  }

  /**
   * The page's own duration text for a stored role: "start - end", or just
   * "start", or "" when the start month or year is missing. The role counts
   * as current only when its flag is exactly `true`.
   */
  function RawFormatDuration(role: Json): (d: string)
    ensures d == "" <==> !(Truthy(OptionalGet(role, "startMonth")) && Truthy(OptionalGet(role, "startYear")))
    ensures d != "" && OptionalGet(role, "isPresent") == Bool(true) ==>
      d == Pair(OptionalGet(role, "startMonth"), OptionalGet(role, "startYear")) + " - Present"
    ensures (d != "" && OptionalGet(role, "isPresent") != Bool(true)
             && !(Truthy(OptionalGet(role, "endMonth")) && Truthy(OptionalGet(role, "endYear")))) ==>
      d == Pair(OptionalGet(role, "startMonth"), OptionalGet(role, "startYear"))
    ensures (d != "" && OptionalGet(role, "isPresent") != Bool(true)
             && Truthy(OptionalGet(role, "endMonth")) && Truthy(OptionalGet(role, "endYear"))) ==>
      d == Pair(OptionalGet(role, "startMonth"), OptionalGet(role, "startYear")) + " - "
           + Pair(OptionalGet(role, "endMonth"), OptionalGet(role, "endYear"))
  {
    var sm, sy := OptionalGet(role, "startMonth"), OptionalGet(role, "startYear");
    var em, ey := OptionalGet(role, "endMonth"), OptionalGet(role, "endYear");
    var start := if Truthy(sm) && Truthy(sy) then Pair(sm, sy) else "";
    var end :=
      if OptionalGet(role, "isPresent") == Bool(true) then "Present"
      else if Truthy(em) && Truthy(ey) then Pair(em, ey)
      else "";
    if start != "" && end != "" then start + " - " + end
    else if start != "" then start
    else ""
  }

  /** On a role the editor wrote, the page's duration text is the wizard's. */
  lemma RawFormatDurationOfWrittenRole(p: PreviousRole)
    ensures RawFormatDuration(RoleToJson(p)) == OnboardingForm.FormatDuration(p)
  {
    RoleToJsonReads(p);
  }

  /** The fields of a written role, one by one. */
  lemma RoleToJsonReads(p: PreviousRole)
    ensures OptionalGet(RoleToJson(p), "title") == Str(p.title)
    ensures OptionalGet(RoleToJson(p), "company") == Str(p.company)
    ensures OptionalGet(RoleToJson(p), "startMonth") == Str(p.startMonth)
    ensures OptionalGet(RoleToJson(p), "startYear") == Str(p.startYear)
    ensures OptionalGet(RoleToJson(p), "endMonth") == Str(p.endMonth)
    ensures OptionalGet(RoleToJson(p), "endYear") == Str(p.endYear)
    ensures OptionalGet(RoleToJson(p), "isPresent") == Bool(p.isPresent)
  {
  }

  /** One education row of the summary; reading a field of a null row throws. */
  function EducationLine(e: Json): (r: Eval<string>)
    ensures r.TypeError? <==> Nullish(e)
  {
    if Nullish(e) then TypeError
    else
      var end := OptionalGet(e, "endYear");
      Value(OrText(OptionalGet(e, "degree"), "Degree") + " @ " + OrText(OptionalGet(e, "institution"), "Institution")
            + (if Truthy(end) then " (" + ToText(end) + ")" else ""))
  }

  /** The summary of a typed education row: the degree at the institution, then the end year if any. */
  function EducationSummary(e: EducationEntry): string {
    (if e.degree != "" then e.degree else "Degree") + " @ "
    + (if e.institution != "" then e.institution else "Institution")
    + (if e.endYear != "" then " (" + e.endYear + ")" else "")
  }

  /** A written education row is summarised from its typed fields. */
  lemma EducationLineOfWrittenRow(e: EducationEntry)
    ensures EducationLine(EducationToJson(e)) == Value(EducationSummary(e))
  {
    var v := EducationToJson(e);
    assert OptionalGet(v, "degree") == Str(e.degree);
    assert OptionalGet(v, "institution") == Str(e.institution);
    assert OptionalGet(v, "endYear") == Str(e.endYear);
  }

  /** One role of the summary; reading a field of a null role throws. */
  function RoleLine(r: Json): (l: Eval<string>)
    ensures l.TypeError? <==> Nullish(r)
  {
    if Nullish(r) then TypeError
    else Value(OrText(OptionalGet(r, "title"), "Role") + " @ " + OrText(OptionalGet(r, "company"), "Company")
               + " (" + RawFormatDuration(r) + ")")
  }

  /** The summary of a typed role: the title at the company, then the wizard's duration text. */
  function RoleSummary(p: PreviousRole): string {
    (if p.title != "" then p.title else "Role") + " @ "
    + (if p.company != "" then p.company else "Company")
    + " (" + OnboardingForm.FormatDuration(p) + ")"
  }

  /** A written role is summarised from its typed fields. */
  lemma RoleLineOfWrittenRole(p: PreviousRole)
    ensures RoleLine(RoleToJson(p)) == Value(RoleSummary(p))
  {
    RoleToJsonReads(p);
    RawFormatDurationOfWrittenRole(p);
  }

  /** `items.map(line)`: the lines in order, or a TypeError as soon as one line throws. */
  function MapLines(items: seq<Json>, line: Json -> Eval<string>): (r: Eval<seq<string>>)
    ensures r.TypeError? <==> exists i :: 0 <= i < |items| && line(items[i]).TypeError?
    ensures r.Value? ==> |r.value| == |items| && forall i :: 0 <= i < |items| ==> r.value[i] == line(items[i]).value
    decreases |items|
  {
    if items == [] then Value([])
    else
      var init := MapLines(items[..|items| - 1], line);
      var last := line(items[|items| - 1]);
      if init.TypeError? then TypeError
      else if last.TypeError? then TypeError
      else Value(init.value + [last.value])
  }

  /**
   * A card value summarising a list of rows: the rows' lines joined by
   * " | " when the value is a non-empty array, else undefined.
   */
  function ListSummary(v: Json, line: Json -> Eval<string>): (r: Eval<Json>)
    ensures !v.Arr? || v.items == [] ==> r == Value(Undefined)
    ensures v.Arr? && v.items != [] ==>
      (r.TypeError? <==> MapLines(v.items, line).TypeError?)
      && (r.Value? ==> r.value == Str(JoinWith(MapLines(v.items, line).value, " | ")))
  {
    if v.Arr? && v.items != [] then
      var lines := MapLines(v.items, line);
      if lines.TypeError? then TypeError else Value(Str(JoinWith(lines.value, " | ")))
    else Value(Undefined)
  }

  /** `profile.user?.full_name`: undefined with no user, null when the name is null. */
  function UserNameValue(user: Option<User>): (v: Json)
    ensures user.None? ==> v == Undefined
    ensures user.Some? && user.value.fullName.None? ==> v == Null
    ensures user.Some? && user.value.fullName.Some? ==> v == Str(user.value.fullName.value)
  {
    if user.None? then Undefined
    else if user.value.fullName.None? then Null
    else Str(user.value.fullName.value)
  }

  /** A summary card before it is rendered: its title, the section its Edit opens, its entries. */
  datatype SectionView = SectionView(title: string, key: Section, entries: seq<Entry>)

  /** `(v as string[])?.join(", ")` throws on a present value that is not an array. */
  predicate JoinThrows(v: Json) {
    !Nullish(v) && !v.Arr?
  }

  /** An array holding a null or undefined row, whose summary line throws. */
  predicate HasNullishItem(v: Json) {
    v.Arr? && exists i :: 0 <= i < |v.items| && Nullish(v.items[i])
  }

  /** The stored records on which building the cards throws. */
  predicate SummaryThrows(data: map<string, Json>) {
    JoinThrows(Field(data, "certifications"))
    || HasNullishItem(Field(data, "educationalBackground"))
    || HasNullishItem(Field(data, "previousRoles"))
    || JoinThrows(Field(data, "technicalSkills")) || JoinThrows(Field(data, "softSkills"))
    || JoinThrows(Field(data, "skillsToImprove")) || JoinThrows(Field(data, "careerGoals"))
    || JoinThrows(Field(data, "preferredIndustries"))
  }

  /**
   * The five summary cards built from the raw stored record (it is not
   * normalised first). Building them throws exactly on the records
   * `SummaryThrows` describes.
   */
  function SectionsView(user: Option<User>, data: map<string, Json>): (r: Eval<seq<SectionView>>)
    ensures r.TypeError? <==> SummaryThrows(data)
    ensures r.Value? ==>
      |r.value| == 5
      && r.value[0].key == Personal && r.value[1].key == Education && r.value[2].key == Experience
      && r.value[3].key == Skills && r.value[4].key == Goals
  {
    var certs := OptionalJoin(Field(data, "certifications"), ", ");
    var background := ListSummary(Field(data, "educationalBackground"), EducationLine);
    var roles := ListSummary(Field(data, "previousRoles"), RoleLine);
    var tech := OptionalJoin(Field(data, "technicalSkills"), ", ");
    var soft := OptionalJoin(Field(data, "softSkills"), ", ");
    var improve := OptionalJoin(Field(data, "skillsToImprove"), ", ");
    var goals := OptionalJoin(Field(data, "careerGoals"), ", ");
    var industries := OptionalJoin(Field(data, "preferredIndustries"), ", ");
    if certs.TypeError? || background.TypeError? || roles.TypeError? || tech.TypeError?
       || soft.TypeError? || improve.TypeError? || goals.TypeError? || industries.TypeError?
    then TypeError
    else Value([
      SectionView("Personal", Personal, [
        Entry("Full name", UserNameValue(user)),
        Entry("Age", Field(data, "age")),
        Entry("Location", Field(data, "location")),
        Entry("Current role", Field(data, "currentRole"))]),
      SectionView("Education", Education, [
        Entry("Education", Field(data, "education")),
        Entry("Field of study", Field(data, "fieldOfStudy")),
        Entry("Graduation year", Field(data, "graduationYear")),
        Entry("Certifications", certs.value),
        Entry("Educational background", background.value)]),
      SectionView("Experience", Experience, [
        Entry("Experience level", Field(data, "experienceLevel")),
        Entry("Previous roles", roles.value)]),
      SectionView("Skills", Skills, [
        Entry("Technical skills", tech.value),
        Entry("Soft skills", soft.value),
        Entry("Skills to improve", improve.value)]),
      SectionView("Goals", Goals, [
        Entry("Career goals", goals.value),
        Entry("Timeframe", Field(data, "timeframe")),
        Entry("Preferred industries", industries.value),
        Entry("Work preference", Field(data, "workPreference"))])])
  }

  /** A record the onboarding wizard submitted never makes the cards throw; for a save see `SaveKeepsCardsRendering`. */
  lemma StoredStateRenders(s: OnboardingState, user: Option<User>)
    ensures SectionsView(user, StateToJson(s)).Value?
  {
    StateToJsonLists(s);
    StateToJsonRows(s);
    var eb := Field(StateToJson(s), "educationalBackground");
    var roles := Field(StateToJson(s), "previousRoles");
    forall i | 0 <= i < |eb.items| ensures !Nullish(eb.items[i]) {
      assert eb.items[i] == EducationToJson(s.educationalBackground[i]);
    }
    forall i | 0 <= i < |roles.items| ensures !Nullish(roles.items[i]) {
      assert roles.items[i] == RoleToJson(s.previousRoles[i]);
    }
  }

  /** A list stored as a plain string, as an older record might hold it, makes the cards throw. */
  lemma StringListThrows(data: map<string, Json>, text: string)
    ensures SectionsView(None, data["technicalSkills" := Str(text)]).TypeError?
  {
    assert JoinThrows(Field(data["technicalSkills" := Str(text)], "technicalSkills"));
  }

  // ---------------------------------------------------------------------------
  // Saving a section
  // ---------------------------------------------------------------------------

  /** The keys of the JSON form of the wizard's state. */
  const StateKeys: set<string> := {
    "fullName", "age", "location", "currentRole", "education", "fieldOfStudy", "graduationYear",
    "certifications", "educationalBackground", "experienceLevel", "previousRoles",
    "technicalSkills", "softSkills", "skillsToImprove", "careerGoals", "timeframe",
    "preferredIndustries", "workPreference"}

  lemma StateToJsonKeys(s: OnboardingState)
    ensures StateToJson(s).Keys == StateKeys
  {
  }

  /** The keys each section's editor writes back, educational background included. */
  function SectionKeys(sec: Section): (keys: set<string>)
    ensures keys <= StateKeys
    ensures sec == Account <==> keys == {}
    ensures "educationalBackground" in keys <==> sec == Education
    ensures "previousRoles" in keys <==> sec == Experience
  {
    match sec
    case Personal => {"fullName", "age", "location", "currentRole"}
    case Education => {"education", "fieldOfStudy", "graduationYear", "certifications", "educationalBackground"}
    case Experience => {"experienceLevel", "previousRoles"}
    case Skills => {"technicalSkills", "softSkills", "skillsToImprove"}
    case Goals => {"careerGoals", "timeframe", "preferredIndustries", "workPreference"}
    case Account => {}
  }

  /** The keys the page's save writes back for each section: the education rows are missing. */
  function SectionKeysAsWritten(sec: Section): (keys: set<string>)
    ensures keys <= StateKeys
    ensures "educationalBackground" !in keys
    ensures sec != Education ==> keys == SectionKeys(sec)
    ensures sec == Education ==> keys == SectionKeys(sec) - {"educationalBackground"}
  {
    match sec
    case Personal => {"fullName", "age", "location", "currentRole"}
    case Education => {"education", "fieldOfStudy", "graduationYear", "certifications"}
    case Experience => {"experienceLevel", "previousRoles"}
    case Skills => {"technicalSkills", "softSkills", "skillsToImprove"}
    case Goals => {"careerGoals", "timeframe", "preferredIndustries", "workPreference"}
    case Account => {}
  }

  /**
   * `{ ...current, key: form.key, … }` for the given keys: the stored record
   * with those keys replaced by the form's values in their JSON form, all
   * other keys kept.
   */
  function Overlay(current: map<string, Json>, f: OnboardingState, keys: set<string>): map<string, Json>
    requires keys <= StateKeys
  {
    StateToJsonKeys(f);
    current + map k | k in keys :: StateToJson(f)[k]
  }

  /** The overlaid record has the given keys added, takes those from the form and keeps the rest. */
  lemma OverlayReads(current: map<string, Json>, f: OnboardingState, keys: set<string>)
    requires keys <= StateKeys
    ensures Overlay(current, f, keys).Keys == current.Keys + keys
    ensures forall k :: k in keys ==> Field(Overlay(current, f, keys), k) == Field(StateToJson(f), k)
    ensures forall k :: k !in keys ==> Field(Overlay(current, f, keys), k) == Field(current, k)
  {
    StateToJsonKeys(f);
  }

  /** The record a section's save stores: `current` with the section's keys taken from the form. */
  function MergeSection(sec: Section, f: OnboardingState, current: map<string, Json>): (r: map<string, Json>)
    ensures sec == Account ==> r == current
  {
    OverlayReads(current, f, SectionKeys(sec));
    Overlay(current, f, SectionKeys(sec))
  }

  /** A section's save adds its keys, takes those from the form and keeps every other stored key. */
  lemma MergeSectionReads(sec: Section, f: OnboardingState, current: map<string, Json>)
    ensures MergeSection(sec, f, current).Keys == current.Keys + SectionKeys(sec)
    ensures forall k :: k in SectionKeys(sec) ==> Field(MergeSection(sec, f, current), k) == Field(StateToJson(f), k)
    ensures forall k :: k !in SectionKeys(sec) ==> Field(MergeSection(sec, f, current), k) == Field(current, k)
  {
    OverlayReads(current, f, SectionKeys(sec));
  }

  /** The record the page's save stores as the source writes it: the education rows are never written. */
  function MergeSectionAsWritten(sec: Section, f: OnboardingState, current: map<string, Json>): (r: map<string, Json>)
    ensures Field(r, "educationalBackground") == Field(current, "educationalBackground")
  {
    OverlayReads(current, f, SectionKeysAsWritten(sec));
    Overlay(current, f, SectionKeysAsWritten(sec))
  }

  /** As written, a section's save takes its keys from the form and keeps every other stored key. */
  lemma MergeSectionAsWrittenReads(sec: Section, f: OnboardingState, current: map<string, Json>)
    ensures forall k :: k in SectionKeysAsWritten(sec) ==>
      Field(MergeSectionAsWritten(sec, f, current), k) == Field(StateToJson(f), k)
    ensures forall k :: k !in SectionKeysAsWritten(sec) ==>
      Field(MergeSectionAsWritten(sec, f, current), k) == Field(current, k)
  {
    OverlayReads(current, f, SectionKeysAsWritten(sec));
  }

  /**
   * Reopening the editor after overlaying `keys` from the form `f`: every
   * field stored under one of those keys shows the form's value, every
   * other field shows what it showed before. The name is the user's.
   */
  lemma OverlayThenReopen(keys: set<string>, f: OnboardingState, data: map<string, Json>, u: Option<User>)
    requires keys <= StateKeys
    ensures var after := BuildFormState(Overlay(NormalizeArrays(data), f, keys), u).fields;
      var before := BuildFormState(data, u).fields;
      && after.fullName == before.fullName
      && (forall t :: t != FullName ==> Text(after, t) == (if TextKey(t) in keys then Text(f, t) else Text(before, t)))
      && (forall l :: Tags(after, l) == (if TagKey(l) in keys then Tags(f, l) else Tags(before, l)))
      && after.educationalBackground
         == (if "educationalBackground" in keys then f.educationalBackground else before.educationalBackground)
      && after.previousRoles == (if "previousRoles" in keys then f.previousRoles else before.previousRoles)
  {
    var n := NormalizeArrays(data);
    var merged := Overlay(n, f, keys);
    NormalizeArraysReads(data);
    OverlayReads(n, f, keys);
    BuildFormStateMatchesWizard(merged, u);
    BuildFormStateMatchesWizard(data, u);
    OnboardingForm.HydrateReadsStoredFields(u, merged);
    OnboardingForm.HydrateReadsStoredFields(u, data);
    StateToJsonLists(f);
    StateToJsonRows(f);
    forall t | t != FullName
      ensures Text(BuildFormState(merged, u).fields, t)
        == (if TextKey(t) in keys then Text(f, t) else Text(BuildFormState(data, u).fields, t))
    {
      TextKeysNotNormalized(t);
      if TextKey(t) in keys {
        StateToJsonText(f, t);
      }
    }
    forall l
      ensures Tags(BuildFormState(merged, u).fields, l)
        == (if TagKey(l) in keys then Tags(f, l) else Tags(BuildFormState(data, u).fields, l))
    {
      TagKeysAreLists(l);
      if TagKey(l) in keys {
        StateToJsonTagList(f, l);
      }
    }
    assert "educationalBackground" in ListKeys;
  }

  /**
   * With every section's keys written back, reopening the editor after a
   * save shows the saved values in that section and the old values
   * everywhere else.
   */
  lemma SaveThenReopen(sec: Section, f: OnboardingState, data: map<string, Json>, u: Option<User>)
    ensures var after := BuildFormState(MergeSection(sec, f, NormalizeArrays(data)), u).fields;
      var before := BuildFormState(data, u).fields;
      && (forall t :: t != FullName ==> Text(after, t) == (if TextKey(t) in SectionKeys(sec) then Text(f, t) else Text(before, t)))
      && (forall l :: Tags(after, l) == (if TagKey(l) in SectionKeys(sec) then Tags(f, l) else Tags(before, l)))
      && (sec == Education ==> after.educationalBackground == f.educationalBackground)
      && (sec == Experience ==> after.previousRoles == f.previousRoles)
      && (sec != Education ==> after.educationalBackground == before.educationalBackground)
      && (sec != Experience ==> after.previousRoles == before.previousRoles)
  {
    OverlayThenReopen(SectionKeys(sec), f, data, u);
  }

  /**
   * As the page saves the Education section, the education rows edited in
   * its editor are not written back: reopening shows the old rows.
   */
  lemma EducationSaveKeepsOldRows(f: OnboardingState, data: map<string, Json>, u: Option<User>)
    ensures BuildFormState(MergeSectionAsWritten(Education, f, NormalizeArrays(data)), u).fields.educationalBackground
      == BuildFormState(data, u).fields.educationalBackground
  {
    OverlayThenReopen(SectionKeysAsWritten(Education), f, data, u);
  }

  /** A concrete case: a row added to an empty profile is gone after saving and reopening. */
  lemma EducationRowLostOnSave()
    ensures var f := OnboardingForm.DefaultState.(educationalBackground := [Rows.BlankEducation]);
      BuildFormState(MergeSectionAsWritten(Education, f, NormalizeArrays(map[])), None).fields.educationalBackground == []
      && f.educationalBackground != []
  {
    var f := OnboardingForm.DefaultState.(educationalBackground := [Rows.BlankEducation]);
    EducationSaveKeepsOldRows(f, map[], None);
    assert BuildFormState(map[], None).fields.educationalBackground == [] by {
      BuildFormStateMatchesWizard(map[], None);
    }
  }

  /** Every list the state's JSON form holds is an array. */
  lemma StateToJsonListsAreArrays(f: OnboardingState)
    ensures forall k :: k in NormalizedKeys ==> Field(StateToJson(f), k).Arr?
  {
    StateToJsonLists(f);
    StateToJsonRows(f);
  }

  /** A record whose lists are arrays and whose roles are normalised is left alone by the normalisation. */
  lemma NormalizedRecordIsFixed(m: map<string, Json>)
    requires NormalizedKeys <= m.Keys
    requires forall k :: k in ListKeys ==> Field(m, k).Arr?
    requires NormalizedRoles(Field(m, "previousRoles")) == Field(m, "previousRoles")
    ensures NormalizeArrays(m) == m
  {
    var n := NormalizeArrays(m);
    NormalizeArraysReads(m);
    forall k | k in m.Keys ensures n[k] == m[k] {
      assert Field(n, k) == Field(m, k);
    }
    assert n == m;
  }

  /** Overlaying the same keys of the same form twice is overlaying them once. */
  lemma OverlayTwice(current: map<string, Json>, f: OnboardingState, keys: set<string>)
    requires keys <= StateKeys
    ensures Overlay(Overlay(current, f, keys), f, keys) == Overlay(current, f, keys)
  {
  }

  /** The roles of a section's save are normalised: written by the editor, or normalised on reading. */
  lemma SavedRolesNormalized(sec: Section, f: OnboardingState, data: map<string, Json>)
    ensures var saved := MergeSection(sec, f, NormalizeArrays(data));
      NormalizedRoles(Field(saved, "previousRoles")) == Field(saved, "previousRoles")
  {
    var n := NormalizeArrays(data);
    var keys := SectionKeys(sec);
    OverlayReads(n, f, keys);
    var roles := Field(Overlay(n, f, keys), "previousRoles");
    if "previousRoles" in keys {
      StateToJsonLists(f);
      StateToJsonRows(f);
      assert roles == RoleListToJson(f.previousRoles);
      forall i | 0 <= i < |roles.items| ensures NormalizeRole(roles.items[i]) == roles.items[i] {
        NormalizeRoleKeepsWrittenRole(f.previousRoles[i]);
      }
      assert NormalizeRoleItems(roles.items) == roles.items;
    } else {
      NormalizeArraysIdempotent(data);
      NormalizeArraysReads(n);
      assert roles == Field(n, "previousRoles");
    }
  }

  /** Every tag list of a saved record is an array: the editor's list, or the normalised one. */
  lemma SavedListIsArray(sec: Section, f: OnboardingState, data: map<string, Json>, l: TagList)
    ensures Field(MergeSection(sec, f, NormalizeArrays(data)), TagKey(l)).Arr?
  {
    var n := NormalizeArrays(data);
    var k := TagKey(l);
    MergeSectionReads(sec, f, n);
    if k in SectionKeys(sec) {
      StateToJsonTagList(f, l);
    } else {
      assert k in ListKeys;
      NormalizeArraysReads(data);
      assert Field(n, k) == ArrayOrEmpty(Field(data, k));
    }
  }


  /** Every role of a saved record is an object, so none is null or undefined. */
  lemma SavedRolesPresent(sec: Section, f: OnboardingState, data: map<string, Json>)
    ensures var roles := Field(MergeSection(sec, f, NormalizeArrays(data)), "previousRoles");
      roles.Arr? && !HasNullishItem(roles)
  {
    var roles := Field(MergeSection(sec, f, NormalizeArrays(data)), "previousRoles");
    SavedRolesNormalized(sec, f, data);
    assert roles == NormalizedRoles(roles);
    forall i | 0 <= i < |roles.items| ensures roles.items[i].Obj? {
      assert roles.items[i] == NormalizeRoleItems(roles.items)[i];
    }
  }

  /** The saved education rows: the editor's when the Education section is saved, else the stored ones. */
  lemma SavedEducationRows(sec: Section, f: OnboardingState, data: map<string, Json>)
    ensures HasNullishItem(Field(MergeSection(sec, f, NormalizeArrays(data)), "educationalBackground"))
      <==> sec != Education && HasNullishItem(Field(data, "educationalBackground"))
  {
    var n := NormalizeArrays(data);
    var eb := Field(MergeSection(sec, f, n), "educationalBackground");
    NormalizeArraysReads(data);
    MergeSectionReads(sec, f, n);
    if sec == Education {
      StateToJsonRows(f);
      forall i | 0 <= i < |eb.items| ensures !Nullish(eb.items[i]) {
        assert eb.items[i] == EducationToJson(f.educationalBackground[i]);
      }
    } else {
      assert eb == ArrayOrEmpty(Field(data, "educationalBackground"));
    }
  }

  /**
   * Saving a section keeps the cards renderable, with one exception: a stored
   * education row that is null or undefined survives the normalisation, so it
   * still makes the cards throw after any save that does not write the
   * education rows back.
   */
  lemma SaveKeepsCardsRendering(sec: Section, f: OnboardingState, data: map<string, Json>)
    ensures SummaryThrows(MergeSection(sec, f, NormalizeArrays(data)))
      <==> sec != Education && HasNullishItem(Field(data, "educationalBackground"))
  {
    var saved := MergeSection(sec, f, NormalizeArrays(data));
    forall l ensures Field(saved, TagKey(l)).Arr? {
      SavedListIsArray(sec, f, data, l);
    }
    SavedRolesPresent(sec, f, data);
    SavedEducationRows(sec, f, data);
    ListsPresentThrowsOnRows(saved);
  }

  /** On a record whose tag lists are arrays and whose roles are all present, only a null education row throws. */
  lemma ListsPresentThrowsOnRows(r: map<string, Json>)
    requires forall l :: Field(r, TagKey(l)).Arr?
    requires !HasNullishItem(Field(r, "previousRoles"))
    ensures SummaryThrows(r) <==> HasNullishItem(Field(r, "educationalBackground"))
  {
    assert Field(r, TagKey(Certifications)).Arr? && Field(r, TagKey(TechnicalSkills)).Arr?;
    assert Field(r, TagKey(SoftSkills)).Arr? && Field(r, TagKey(SkillsToImprove)).Arr?;
    assert Field(r, TagKey(CareerGoals)).Arr? && Field(r, TagKey(PreferredIndustries)).Arr?;
  }


  /** The record a save stores is already normalised. */
  lemma SavedRecordIsNormalized(sec: Section, f: OnboardingState, data: map<string, Json>)
    ensures var saved := MergeSection(sec, f, NormalizeArrays(data));
      NormalizeArrays(saved) == saved
  {
    var n := NormalizeArrays(data);
    var keys := SectionKeys(sec);
    var saved := Overlay(n, f, keys);
    NormalizeArraysReads(data);
    OverlayReads(n, f, keys);
    StateToJsonListsAreArrays(f);
    SavedRolesNormalized(sec, f, data);
    forall k | k in ListKeys ensures Field(saved, k).Arr? {
      assert k in NormalizedKeys;
    }
    NormalizedRecordIsFixed(saved);
  }

  /** Saving the same form twice stores the same record as saving it once. */
  lemma SaveTwiceSameRecord(sec: Section, f: OnboardingState, data: map<string, Json>)
    ensures var once := MergeSection(sec, f, NormalizeArrays(data));
      MergeSection(sec, f, NormalizeArrays(once)) == once
  {
    SavedRecordIsNormalized(sec, f, data);
    OverlayTwice(NormalizeArrays(data), f, SectionKeys(sec));
  }

  /**
   * The body sent to the server: the merged record with `fullName` set to
   * the form's name when the Personal section is saved and to the user's
   * stored name otherwise (an undefined value is left out of the JSON).
   */
  function SaveBody(sec: Section, f: OnboardingState, updated: map<string, Json>, user: Option<User>): (b: map<string, Json>)
    ensures b.Keys == updated.Keys + {"fullName"}
    ensures forall k :: k != "fullName" ==> Field(b, k) == Field(updated, k)
    ensures sec == Personal ==> b["fullName"] == Str(f.fullName)
    ensures sec != Personal ==> b["fullName"] == UserNameValue(user)
  {
    updated["fullName" := if sec == Personal then Str(f.fullName) else UserNameValue(user)]
  }

  /**
   * The user after a successful section save: for the Personal section the
   * name becomes the form's name, or the old name when the form's is empty;
   * the email is kept. Other sections leave the user alone.
   */
  function UserAfterSave(sec: Section, f: OnboardingState, prev: Option<User>): (u: Option<User>)
    ensures sec != Personal ==> u == prev
    ensures sec == Personal ==>
      u.Some? && u.value.fullName.Some?
      && u.value.fullName.value == (if f.fullName != "" then f.fullName
                                    else if prev.Some? && prev.value.fullName.Some? then prev.value.fullName.value
                                    else "")
      && u.value.email == (if prev.Some? then prev.value.email else "")
      && u.value.profileImage == (if prev.Some? then prev.value.profileImage else None)
  {
    if sec != Personal then prev
    else
      var name :=
        if f.fullName != "" then f.fullName
        else if prev.Some? && prev.value.fullName.Some? && prev.value.fullName.value != "" then prev.value.fullName.value
        else "";
      Some(User(Some(name), if prev.Some? && prev.value.email != "" then prev.value.email else "",
                if prev.Some? then prev.value.profileImage else None))
  }

  /** After saving the Personal section with a non-empty name, reopening shows that name. */
  lemma PersonalSaveShowsName(f: OnboardingState, data: map<string, Json>, prev: Option<User>)
    requires f.fullName != ""
    ensures BuildFormState(MergeSection(Personal, f, NormalizeArrays(data)), UserAfterSave(Personal, f, prev)).fields.fullName
      == f.fullName
  {
  }

  // ---------------------------------------------------------------------------
  // Saving the account settings
  // ---------------------------------------------------------------------------

  /** Why the account save is refused before any request. */
  datatype AccountError = EmailRequired | PasswordsDoNotMatch

  /**
   * The account update request: name, email and image, plus the current and
   * new password when a new password was typed. Refused when the email is
   * empty, or when a new password does not match its confirmation.
   */
  function AccountPayload(form: FormState): (r: Result<map<string, Json>, AccountError>)
    ensures form.email == "" ==> r == Failure(EmailRequired)
    ensures form.email != "" && form.newPassword != "" && form.newPassword != form.confirmPassword ==>
      r == Failure(PasswordsDoNotMatch)
    ensures r.Success? <==> form.email != "" && (form.newPassword == "" || form.newPassword == form.confirmPassword)
    ensures r.Success? ==>
      r.value.Keys == {"fullName", "email", "profileImage"} + (if form.newPassword != "" then {"currentPassword", "newPassword"} else {})
      && r.value["fullName"] == Str(form.fields.fullName) && r.value["email"] == Str(form.email)
      && r.value["profileImage"] == Str(form.profileImage)
      && (form.newPassword != "" ==>
            r.value["currentPassword"] == Str(form.currentPassword) && r.value["newPassword"] == Str(form.newPassword))
  {
    if form.email == "" then Failure(EmailRequired)
    else if form.newPassword != "" && form.newPassword != form.confirmPassword then Failure(PasswordsDoNotMatch)
    else
      var payload := map["fullName" := Str(form.fields.fullName), "email" := Str(form.email), "profileImage" := Str(form.profileImage)];
      Success(if form.newPassword != "" then
                payload["currentPassword" := Str(form.currentPassword)]["newPassword" := Str(form.newPassword)]
              else payload)
  }

  /** The account fields of the form edited as plain text. */
  datatype AccountField = AccountEmail | CurrentPassword | NewPassword | ConfirmPassword

  function SetAccountText(form: FormState, a: AccountField, text: string): (g: FormState)
    ensures a == AccountEmail ==> g == form.(email := text)
    ensures a == CurrentPassword ==> g == form.(currentPassword := text)
    ensures a == NewPassword ==> g == form.(newPassword := text)
    ensures a == ConfirmPassword ==> g == form.(confirmPassword := text)
  {
    match a
    case AccountEmail => form.(email := text)
    case CurrentPassword => form.(currentPassword := text)
    case NewPassword => form.(newPassword := text)
    case ConfirmPassword => form.(confirmPassword := text)
  }

  /** What pressing "Save changes" sends, if anything. */
  datatype SaveCall =
    | NoCall
    | Rejected(reason: AccountError)
    | AccountUpdate(payload: map<string, Json>)
    | DataSave(body: map<string, Json>)

  // ---------------------------------------------------------------------------
  // The page
  // ---------------------------------------------------------------------------

  /**
   * The page's state: the loaded user and stored record, the open section
   * and the editor's form. The request replies are parameters of the
   * methods that wait for them.
   */
  class ProfilePage {
    var user: Option<User>
    var data: map<string, Json>
    var activeSection: Option<Section>
    var form: Option<FormState>

    /** An open editor always has a form. */
    ghost predicate Valid()
      reads this
    {
      activeSection.Some? ==> form.Some?
    }

    constructor ()
      ensures Valid()
      ensures user.None? && data == map[] && activeSection.None? && form.None?
    {
      user, data, activeSection, form := None, map[], None, None;
    }

    /** The profile request: when it succeeds the user and record are replaced. */
    method Load(snapshot: Option<Snapshot>)
      requires Valid()
      modifies this
      ensures Valid()
      ensures snapshot.Some? ==> user == snapshot.value.user && data == snapshot.value.data
      ensures snapshot.None? ==> user == old(user) && data == old(data)
      ensures activeSection == old(activeSection) && form == old(form)
    {
      if snapshot.Some? {
        user := snapshot.value.user;
        data := snapshot.value.data;
      }
    }

    /** Opening a section's editor with a fresh form built from the stored record. */
    method OpenEditor(sec: Section)
      requires Valid()
      modifies this
      ensures Valid()
      ensures activeSection == Some(sec) && form == Some(BuildFormState(old(data), old(user)))
      ensures user == old(user) && data == old(data)
    {
      form := Some(BuildFormState(data, user));
      activeSection := Some(sec);
    }

    /** Close or Cancel: the editor goes away; the form is kept until the next opening. */
    method Close()
      requires Valid()
      modifies this
      ensures Valid()
      ensures activeSection.None? && form == old(form) && user == old(user) && data == old(data)
    {
      activeSection := None;
    }

    /** An edit in one of the section editors; nothing happens without a form. */
    method Edit(c: Change)
      requires Valid()
      requires form.Some? ==> Fits(form.value.fields, c)
      modifies this
      ensures Valid()
      ensures old(form).Some? ==> form == Some(old(form).value.(fields := Apply(old(form).value.fields, c)))
      ensures old(form).None? ==> form.None?
      ensures old(form).Some? && EndDatesCleared(old(form).value.fields) ==> EndDatesCleared(form.value.fields)
      ensures user == old(user) && data == old(data) && activeSection == old(activeSection)
    {
      if form.Some? {
        if EndDatesCleared(form.value.fields) {
          ApplyKeepsEndDatesCleared(form.value.fields, c);
        }
        form := Some(form.value.(fields := Apply(form.value.fields, c)));
      }
    }

    /** Typing into an account field; nothing happens without a form. */
    method EditAccount(a: AccountField, text: string)
      requires Valid()
      modifies this
      ensures Valid()
      ensures old(form).Some? ==> form == Some(SetAccountText(old(form).value, a, text))
      ensures old(form).None? ==> form.None?
      ensures user == old(user) && data == old(data) && activeSection == old(activeSection)
    {
      if form.Some? {
        form := Some(SetAccountText(form.value, a, text));
      }
    }

    /**
     * Choosing a picture: no file clears the image; a file's content, read
     * as a data URL, becomes the image.
     */
    method SelectFile(file: Option<string>)
      requires Valid()
      modifies this
      ensures Valid()
      ensures old(form).Some? ==> form == Some(old(form).value.(profileImage := if file.Some? then file.value else ""))
      ensures old(form).None? ==> form.None?
      ensures user == old(user) && data == old(data) && activeSection == old(activeSection)
    {
      if form.Some? {
        form := Some(form.value.(profileImage := if file.Some? then file.value else ""));
      }
    }

    /**
     * "Save changes". The account section is checked, then sent; when the
     * server answers with the updated user (`accountReply`), that user is
     * kept, the password fields are cleared and the editor closes. Any other
     * section merges its fields into the normalised stored record and sends
     * it; when the server accepts it (`saved`), the merged record becomes
     * the stored one, the user is updated and the editor closes. A refused
     * or failed request changes nothing.
     */
    method Save(accountReply: Option<User>, saved: bool) returns (call: SaveCall)
      requires Valid()
      modifies this
      ensures Valid()
      ensures old(activeSection).None? || old(form).None? ==>
        call == NoCall && user == old(user) && data == old(data)
        && activeSection == old(activeSection) && form == old(form)
      ensures old(activeSection) == Some(Account) && old(form).Some? ==>
        AccountSaved(old(form).value, accountReply, call, old(user), old(activeSection), old(form), old(data))
      ensures old(activeSection).Some? && old(activeSection) != Some(Account) && old(form).Some? ==>
        SectionSaved(old(activeSection).value, old(form).value, saved, call, old(user), old(data))
    {
      if activeSection.None? || form.None? {
        return NoCall;
      }
      if activeSection.value == Account {
        call := SaveAccount(accountReply);
      } else {
        call := SaveSection(saved);
      }
    }

    /**
     * The account branch: `call` and the new state are what the account
     * save makes of the form `f`, given the previous user, section, form and
     * record.
     */
    ghost predicate AccountSaved(f: FormState, accountReply: Option<User>, call: SaveCall,
                                 user0: Option<User>, section0: Option<Section>, form0: Option<FormState>,
                                 data0: map<string, Json>)
      reads this
    {
      var p := AccountPayload(f);
      data == data0
      && (p.Failure? ==> call == Rejected(p.error) && user == user0 && activeSection == section0 && form == form0)
      && (p.Success? ==> call == AccountUpdate(p.value))
      && (p.Success? && accountReply.Some? ==>
            user == accountReply && activeSection.None?
            && form == Some(f.(currentPassword := "", newPassword := "", confirmPassword := "")))
      && (p.Success? && accountReply.None? ==> user == user0 && activeSection == section0 && form == form0)
    }

    /**
     * The branch of every other section: `call` sends the merged record and,
     * once `saved`, the merged record is stored, the user updated and the
     * editor closed; the form is kept either way.
     */
    ghost predicate SectionSaved(sec: Section, f: FormState, saved: bool, call: SaveCall,
                                 user0: Option<User>, data0: map<string, Json>)
      reads this
    {
      var updated := MergeSection(sec, f.fields, NormalizeArrays(data0));
      call == DataSave(SaveBody(sec, f.fields, updated, user0)) && form == Some(f)
      && (saved ==> user == UserAfterSave(sec, f.fields, user0) && data == updated && activeSection.None?)
      && (!saved ==> user == user0 && data == data0 && activeSection == Some(sec))
    }

    method SaveAccount(accountReply: Option<User>) returns (call: SaveCall)
      requires Valid() && activeSection == Some(Account)
      modifies this
      ensures Valid()
      ensures AccountSaved(old(form).value, accountReply, call, old(user), old(activeSection), old(form), old(data))
    {
      var current := form.value;
      var payload := AccountPayload(current);
      if payload.Failure? {
        return Rejected(payload.error);
      }
      call := AccountUpdate(payload.value);
      if accountReply.Some? {
        user := accountReply;
        form := Some(current.(currentPassword := "", newPassword := "", confirmPassword := ""));
        activeSection := None;
      }
    }

    method SaveSection(saved: bool) returns (call: SaveCall)
      requires Valid() && activeSection.Some? && activeSection != Some(Account)
      modifies this
      ensures Valid()
      ensures SectionSaved(old(activeSection).value, old(form).value, saved, call, old(user), old(data))
    {
      var sec, current, data0, user0 := activeSection.value, form.value, data, user;
      var updated := MergeSection(sec, current.fields, NormalizeArrays(data0));
      var nextUser := UserAfterSave(sec, current.fields, user0);
      call := DataSave(SaveBody(sec, current.fields, updated, user0));
      if saved {
        user, data, activeSection := nextUser, updated, None;
      }
    }
  }
}
