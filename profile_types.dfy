/**
 * The record shapes shared by the onboarding wizard and the profile editor,
 * and their JSON form as the API stores them.
 */
module ProfileTypes {
  import opened Wrappers
  import opened JsValues

  /** One row of educational background. */
  datatype EducationEntry = EducationEntry(
    institution: string,
    degree: string,
    field: string,
    startYear: string,
    endYear: string,
    isCurrent: bool)

  /** One row of work history. */
  datatype PreviousRole = PreviousRole(
    title: string,
    company: string,
    startMonth: string,
    startYear: string,
    endMonth: string,
    endYear: string,
    isPresent: bool,
    description: string)

  /** Every field the wizard collects, across all of its steps. */
  datatype OnboardingState = OnboardingState(
    fullName: string,
    age: string,
    location: string,
    currentRole: string,
    education: string,
    fieldOfStudy: string,
    graduationYear: string,
    certifications: seq<string>,
    educationalBackground: seq<EducationEntry>,
    experienceLevel: string,
    previousRoles: seq<PreviousRole>,
    technicalSkills: seq<string>,
    softSkills: seq<string>,
    skillsToImprove: seq<string>,
    careerGoals: seq<string>,
    timeframe: string,
    preferredIndustries: seq<string>,
    workPreference: string)

  /**
   * The profile editor's form: the wizard's fields plus the account fields.
   * The source declares it as one flat record; here the fields it shares with
   * the wizard are grouped in `fields`.
   */
  datatype FormState = FormState(
    fields: OnboardingState,
    email: string,
    profileImage: string,
    currentPassword: string,
    newPassword: string,
    confirmPassword: string)

  /** The signed-in user as the API returns it (`full_name` may be null). */
  datatype User = User(fullName: Option<string>, email: string, profileImage: Option<string>)

  /** What the profile endpoint returns: the user and the stored profile record. */
  datatype Snapshot = Snapshot(user: Option<User>, data: map<string, Json>)

  /** The single-line text fields of the state. */
  datatype TextField =
    | FullName | Age | Location | CurrentRole | EducationLevel | FieldOfStudy
    | GraduationYear | ExperienceLevel | Timeframe | WorkPreference

  /** The plain string-list fields of the state. */
  datatype TagList =
    | Certifications | TechnicalSkills | SoftSkills | SkillsToImprove | CareerGoals | PreferredIndustries

  /** The text fields of an education row. */
  datatype EducationField = EduInstitution | EduDegree | EduField | EduStartYear | EduEndYear

  /** The text fields of a role row. */
  datatype RoleField =
    | RoleTitle | RoleCompany | RoleDescription | RoleStartMonth | RoleStartYear | RoleEndMonth | RoleEndYear

  /** The JSON key of each text field. */
  function TextKey(f: TextField): string {
    match f
    case FullName => "fullName"
    case Age => "age"
    case Location => "location"
    case CurrentRole => "currentRole"
    case EducationLevel => "education"
    case FieldOfStudy => "fieldOfStudy"
    case GraduationYear => "graduationYear"
    case ExperienceLevel => "experienceLevel"
    case Timeframe => "timeframe"
    case WorkPreference => "workPreference"
  }

  /** The JSON key of each list field. */
  function TagKey(l: TagList): string {
    match l
    case Certifications => "certifications"
    case TechnicalSkills => "technicalSkills"
    case SoftSkills => "softSkills"
    case SkillsToImprove => "skillsToImprove"
    case CareerGoals => "careerGoals"
    case PreferredIndustries => "preferredIndustries"
  }

  function Text(s: OnboardingState, f: TextField): string {
    match f
    case FullName => s.fullName
    case Age => s.age
    case Location => s.location
    case CurrentRole => s.currentRole
    case EducationLevel => s.education
    case FieldOfStudy => s.fieldOfStudy
    case GraduationYear => s.graduationYear
    case ExperienceLevel => s.experienceLevel
    case Timeframe => s.timeframe
    case WorkPreference => s.workPreference
  }

  function Tags(s: OnboardingState, l: TagList): seq<string> {
    match l
    case Certifications => s.certifications
    case TechnicalSkills => s.technicalSkills
    case SoftSkills => s.softSkills
    case SkillsToImprove => s.skillsToImprove
    case CareerGoals => s.careerGoals
    case PreferredIndustries => s.preferredIndustries
  }

  function EducationText(e: EducationEntry, f: EducationField): string {
    match f
    case EduInstitution => e.institution
    case EduDegree => e.degree
    case EduField => e.field
    case EduStartYear => e.startYear
    case EduEndYear => e.endYear
  }

  function RoleText(r: PreviousRole, f: RoleField): string {
    match f
    case RoleTitle => r.title
    case RoleCompany => r.company
    case RoleDescription => r.description
    case RoleStartMonth => r.startMonth
    case RoleStartYear => r.startYear
    case RoleEndMonth => r.endMonth
    case RoleEndYear => r.endYear
  }

  /** A list of strings as a JSON array. */
  function TagsToJson(tags: seq<string>): (v: Json)
    ensures v.Arr? && |v.items| == |tags|
    ensures TagsFromJson(v) == tags
  {
    Arr(seq(|tags|, i requires 0 <= i < |tags| => Str(tags[i])))
  }

  /** A JSON array read as a list of strings; anything else reads as []. */
  function TagsFromJson(v: Json): seq<string> {
    if v.Arr? then seq(|v.items|, i requires 0 <= i < |v.items| => AsText(v.items[i])) else []
  }

  function EducationToJson(e: EducationEntry): (v: Json)
    ensures v.Obj? && !Nullish(v)
    ensures EducationFromJson(v) == e
  {
    Obj(map[
      "institution" := Str(e.institution), "degree" := Str(e.degree), "field" := Str(e.field),
      "startYear" := Str(e.startYear), "endYear" := Str(e.endYear), "isCurrent" := Bool(e.isCurrent)])
  }

  /** A stored education row read into the typed record; a missing flag reads as false. */
  function EducationFromJson(v: Json): EducationEntry {
    EducationEntry(
      AsText(OptionalGet(v, "institution")), AsText(OptionalGet(v, "degree")),
      AsText(OptionalGet(v, "field")), AsText(OptionalGet(v, "startYear")),
      AsText(OptionalGet(v, "endYear")), Truthy(OptionalGet(v, "isCurrent")))
  }

  function RoleToJson(r: PreviousRole): (v: Json)
    ensures v.Obj? && v.fields.Keys == RoleKeys
    ensures RoleFromJson(v) == r
  {
    Obj(map[
      "title" := Str(r.title), "company" := Str(r.company),
      "startMonth" := Str(r.startMonth), "startYear" := Str(r.startYear),
      "endMonth" := Str(r.endMonth), "endYear" := Str(r.endYear),
      "isPresent" := Bool(r.isPresent), "description" := Str(r.description)])
  }

  /** A stored role read into the typed record; a missing flag reads as false. */
  function RoleFromJson(v: Json): PreviousRole {
    PreviousRole(
      AsText(OptionalGet(v, "title")), AsText(OptionalGet(v, "company")),
      AsText(OptionalGet(v, "startMonth")), AsText(OptionalGet(v, "startYear")),
      AsText(OptionalGet(v, "endMonth")), AsText(OptionalGet(v, "endYear")),
      Truthy(OptionalGet(v, "isPresent")), AsText(OptionalGet(v, "description")))
  }

  /** The string-valued keys of a stored role. */
  const RoleTextKeys: set<string> :=
    {"title", "company", "startMonth", "startYear", "endMonth", "endYear", "description"}

  /** All keys of a stored role. */
  const RoleKeys: set<string> := RoleTextKeys + {"isPresent"}

  function EducationListToJson(rows: seq<EducationEntry>): (v: Json)
    ensures v.Arr? && |v.items| == |rows|
    ensures forall i :: 0 <= i < |rows| ==> v.items[i] == EducationToJson(rows[i])
    ensures EducationListFromJson(v) == rows
  {
    Arr(seq(|rows|, i requires 0 <= i < |rows| => EducationToJson(rows[i])))
  }

  function RoleListToJson(rows: seq<PreviousRole>): (v: Json)
    ensures v.Arr? && |v.items| == |rows|
    ensures forall i :: 0 <= i < |rows| ==> v.items[i] == RoleToJson(rows[i])
    ensures RoleListFromJson(v) == rows
  {
    Arr(seq(|rows|, i requires 0 <= i < |rows| => RoleToJson(rows[i])))
  }

  function EducationListFromJson(v: Json): seq<EducationEntry> {
    if v.Arr? then seq(|v.items|, i requires 0 <= i < |v.items| => EducationFromJson(v.items[i])) else []
  }

  function RoleListFromJson(v: Json): seq<PreviousRole> {
    if v.Arr? then seq(|v.items|, i requires 0 <= i < |v.items| => RoleFromJson(v.items[i])) else []
  }

  /**
   * `{ ...state }` as the JSON body the wizard submits: every field of the
   * state under its own key.
   */
  function StateToJson(s: OnboardingState): map<string, Json> {
    map[
      "fullName" := Str(s.fullName), "age" := Str(s.age), "location" := Str(s.location),
      "currentRole" := Str(s.currentRole), "education" := Str(s.education),
      "fieldOfStudy" := Str(s.fieldOfStudy), "graduationYear" := Str(s.graduationYear),
      "certifications" := TagsToJson(s.certifications),
      "educationalBackground" := EducationListToJson(s.educationalBackground),
      "experienceLevel" := Str(s.experienceLevel),
      "previousRoles" := RoleListToJson(s.previousRoles),
      "technicalSkills" := TagsToJson(s.technicalSkills), "softSkills" := TagsToJson(s.softSkills),
      "skillsToImprove" := TagsToJson(s.skillsToImprove), "careerGoals" := TagsToJson(s.careerGoals),
      "timeframe" := Str(s.timeframe), "preferredIndustries" := TagsToJson(s.preferredIndustries),
      "workPreference" := Str(s.workPreference)]
  }

  // StateToJsonTexts, StateToJsonMoreTexts, StateToJsonLists and StateToJsonRows
  // read single keys out of the payload; they keep the per-field lemmas below cheap.

  lemma StateToJsonTexts(s: OnboardingState)
    ensures Field(StateToJson(s), "age") == Str(s.age)
    ensures Field(StateToJson(s), "location") == Str(s.location)
    ensures Field(StateToJson(s), "currentRole") == Str(s.currentRole)
    ensures Field(StateToJson(s), "education") == Str(s.education)
    ensures Field(StateToJson(s), "fieldOfStudy") == Str(s.fieldOfStudy)
  {
  }

  lemma StateToJsonMoreTexts(s: OnboardingState)
    ensures Field(StateToJson(s), "fullName") == Str(s.fullName)
    ensures Field(StateToJson(s), "graduationYear") == Str(s.graduationYear)
    ensures Field(StateToJson(s), "experienceLevel") == Str(s.experienceLevel)
    ensures Field(StateToJson(s), "timeframe") == Str(s.timeframe)
    ensures Field(StateToJson(s), "workPreference") == Str(s.workPreference)
  {
  }

  lemma StateToJsonLists(s: OnboardingState)
    ensures Field(StateToJson(s), "certifications") == TagsToJson(s.certifications)
    ensures Field(StateToJson(s), "technicalSkills") == TagsToJson(s.technicalSkills)
    ensures Field(StateToJson(s), "softSkills") == TagsToJson(s.softSkills)
    ensures Field(StateToJson(s), "skillsToImprove") == TagsToJson(s.skillsToImprove)
    ensures Field(StateToJson(s), "careerGoals") == TagsToJson(s.careerGoals)
    ensures Field(StateToJson(s), "preferredIndustries") == TagsToJson(s.preferredIndustries)
  {
  }

  lemma StateToJsonRows(s: OnboardingState)
    ensures Field(StateToJson(s), "educationalBackground") == EducationListToJson(s.educationalBackground)
    ensures Field(StateToJson(s), "previousRoles") == RoleListToJson(s.previousRoles)
  {
  }

  /** Every text field of the submitted payload is a string under the field's key and reads back as the field. */
  lemma StateToJsonText(f: OnboardingState, t: TextField)
    ensures Field(StateToJson(f), TextKey(t)) == Str(Text(f, t))
    ensures AsText(Field(StateToJson(f), TextKey(t))) == Text(f, t)
  {
    StateToJsonTexts(f);
    StateToJsonMoreTexts(f);
    match t
    case FullName =>
    case Age =>
    case Location =>
    case CurrentRole =>
    case EducationLevel =>
    case FieldOfStudy =>
    case GraduationYear =>
    case ExperienceLevel =>
    case Timeframe =>
    case WorkPreference =>
  }

  /** Every tag list of the submitted payload is an array of strings under the list's key and reads back as the list. */
  lemma StateToJsonTagList(f: OnboardingState, l: TagList)
    ensures Field(StateToJson(f), TagKey(l)) == TagsToJson(Tags(f, l))
    ensures TagsFromJson(Field(StateToJson(f), TagKey(l))) == Tags(f, l)
  {
    StateToJsonLists(f);
    match l
    case Certifications =>
    case TechnicalSkills =>
    case SoftSkills =>
    case SkillsToImprove =>
    case CareerGoals =>
    case PreferredIndustries =>
  }

  /** The education rows and roles of the submitted payload are arrays of records that read back as the same rows. */
  lemma StateToJsonRowsReadBack(f: OnboardingState)
    ensures Field(StateToJson(f), "educationalBackground").Arr?
    ensures EducationListFromJson(Field(StateToJson(f), "educationalBackground")) == f.educationalBackground
    ensures Field(StateToJson(f), "previousRoles").Arr?
    ensures RoleListFromJson(Field(StateToJson(f), "previousRoles")) == f.previousRoles
  {
    StateToJsonRows(f);
  }
}
