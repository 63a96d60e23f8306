# Career-guidance front end: a verified model of its form logic

This project is a Dafny model of the rules in a React career-guidance front
end:

- the six-step onboarding wizard: its state, per-step validation,
  Next/Back/Submit gating, row and toggle handlers, duration text and
  hydration from a stored profile;
- the profile page: the header initial, the normalisation of the stored
  record, the editor form built from it, the summary cards, and saving a
  section or the account settings;
- the shared section editors;
- the tag list editor;
- the summary card display rule;
- the skill-gap table styling;
- the sign-in and registration forms.

Each source file becomes one module:

| module | file | form |
|---|---|---|
| `OnboardingForm` | `onboarding_form.dfy` | the pure rules are functions; the wizard is a `class Wizard` with `step` and `state` fields; `validateStep`'s pushes and its `forEach` are methods with loops |
| `ProfileRoute` | `profile_page.dfy` | the pure helpers are functions; the page is a `class ProfilePage` holding the user, the stored record, the open section and the form; `handleSave` is a method |
| `Editors`, `Rows` | `editors.dfy`, `rows.dfy` | the `updateForm`/`update` handlers as functions from state to state; `Rows` holds the list edits both screens share |
| `TagsInput` | `tags_input.dfy` | a `class TagsInput` holding the pending `input` buffer |
| `SectionCard` | `section_card.dfy` | the display rule |
| `SkillGapSummary` | `skill_gap_summary.dfy` | gap colour, level bar and striping |
| `LoginForm`, `RegisterForm` | `login_form.dfy`, `register_form.dfy` | a class per form: its fields and error map |

Shared modules:

- `ProfileTypes` holds the record shapes of `app/components/profile/types.ts` and the wizard's state, with their JSON form.
- `JsValues` holds the JavaScript values and coercions the rules rely on: truthiness, `??`, `?.`, property access that throws on null, `String(v)` and `join`.
- `JsText` holds `String.prototype.trim`, with the exact ECMAScript whitespace set, and the upper-casing of one character.

Network calls are parameters:

- the profile fetch is an `Option<Snapshot>`;
- the account update's reply is an `Option<User>`;
- the save of the onboarding data is a `bool` reporting success.

The current year, which the source reads from the clock, is also a parameter. So is the picked file's data URL.

## Model

| member | source | states |
|---|---|---|
| JsText.Trim | app/components/onboarding/TagsInput.tsx:15 | `trim` yields the infix after the leading whitespace; it neither starts nor ends with whitespace |
| JsText.TrimDropsOnlyBlanks | app/components/onboarding/TagsInput.tsx:15 | every character `trim` drops, before or after the result, is ECMAScript whitespace |
| JsText.TrimEmptyIffBlank | app/components/onboarding/TagsInput.tsx:15-16 | a string trims to "" exactly when it is all whitespace |
| JsText.TrimmedIsFixed | app/components/onboarding/TagsInput.tsx:15 | trimming a trimmed string changes nothing |
| JsText.TrimIdempotent | app/components/onboarding/TagsInput.tsx:15 | `trim` is idempotent |
| JsValues.Get | app/routes/profile.tsx:288-290 | property access throws exactly on null or undefined and otherwise reads the field |
| JsValues.OptionalJoin | app/routes/profile.tsx:280 | `v?.join(sep)` is undefined for a missing value and joins an array; it throws exactly on a present non-array |
| JsValues.NatToDecimalInjective | app/components/onboarding/OnboardingForm.tsx:61-63 | distinct numbers print as distinct decimal strings |
| JsValues.JoinWithAppend | app/components/profile/SectionCard.tsx:48 | joining puts exactly one separator between neighbours |
| ProfileTypes.TagsToJson | app/components/profile/types.ts:34 | a list of strings stored as a JSON array reads back as the same list |
| ProfileTypes.EducationToJson | app/components/profile/types.ts:12-19 | an education row stored as JSON reads back as the same row |
| ProfileTypes.RoleToJson | app/components/profile/types.ts:1-10 | a role stored as JSON has exactly the role keys and reads back as the same role |
| ProfileTypes.EducationListToJson | app/components/profile/types.ts:35 | a list of education rows stored as JSON reads back as the same list, row by row |
| ProfileTypes.RoleListToJson | app/components/profile/types.ts:37 | a list of roles stored as JSON reads back as the same list, role by role |
| ProfileTypes.StateToJsonText | app/components/onboarding/OnboardingForm.tsx:266 | every text field of the submitted `{ ...state }` is a string under the field's own key and reads back as that field |
| ProfileTypes.StateToJsonTagList | app/components/onboarding/OnboardingForm.tsx:266 | every tag list of the submitted state is an array of strings under the list's own key and reads back as that list |
| ProfileTypes.StateToJsonRowsReadBack | app/components/onboarding/OnboardingForm.tsx:266 | the education rows and roles of the submitted state are arrays that read back as the same rows |
| Rows.RemoveAt | app/components/onboarding/OnboardingForm.tsx:523-527 | removing position idx deletes exactly that element and keeps the others in order; an index past the end changes nothing |
| Rows.Without | app/components/onboarding/TagsInput.tsx:21-23 | filtering out x removes every copy of x and keeps the multiset of the rest; an absent x is the identity |
| Rows.WithoutConcat | app/components/onboarding/TagsInput.tsx:22 | filtering distributes over concatenation, so the kept elements keep their order |
| Rows.Toggle | app/components/onboarding/OnboardingForm.tsx:818-829 | after a toggle x is selected exactly when it was not, and every other option keeps its selection; a selected x is removed by filtering, which keeps the other options in order; an unselected x is appended |
| Rows.ToggleTwiceRestores | app/components/profile/Editors.tsx:487-498 | toggling an unselected option twice restores the list |
| Rows.WithEducationText | app/components/profile/Editors.tsx:131-176 | editing one field of an education row sets that field and keeps the other fields and the flag |
| Rows.SetCurrent | app/components/profile/Editors.tsx:193-201 | checking "currently studying" clears the end year; unchecking keeps it; the other fields are kept |
| Rows.WithRoleText | app/components/profile/Editors.tsx:277-368 | editing one field of a role sets that field and keeps the other fields and the flag |
| Rows.SetPresent | app/components/profile/Editors.tsx:385-394 | checking "I currently work here" clears the end month and year; unchecking keeps them; the other fields are kept |
| Editors.SetText | app/components/profile/Editors.tsx:38-107 | a text field takes the new value and every other field is unchanged |
| Editors.SetTags | app/components/profile/Editors.tsx:119 | a tag list takes the new list and every other field is unchanged |
| Editors.AddEducation | app/components/profile/Editors.tsx:219-233 | "Add education" appends one blank row, keeps the existing rows and changes nothing else |
| Editors.EditEducation | app/components/profile/Editors.tsx:131-176 | editing row idx changes only that field of that row; the length and the other rows are unchanged |
| Editors.SetEducationCurrent | app/components/profile/Editors.tsx:193-201 | the check box of row idx sets its flag and clears its end year when checked; every other row and field is unchanged |
| Editors.RemoveEducation | app/components/profile/Editors.tsx:207-211 | removing row idx yields the rows without it, in their order |
| Editors.AddRole | app/components/profile/Editors.tsx:413-429 | "Add role" appends one blank role, keeps the existing roles and changes nothing else |
| Editors.EditRole | app/components/profile/Editors.tsx:277-368 | editing role idx changes only that field of that role; the length and the other roles are unchanged |
| Editors.SetRolePresent | app/components/profile/Editors.tsx:385-394 | the check box of role idx sets its flag and clears both end fields when checked; every other role and field is unchanged |
| Editors.RemoveRole | app/components/profile/Editors.tsx:401-405 | removing role idx yields the roles without it, in their order |
| Editors.ToggleGoal | app/components/profile/Editors.tsx:487-498 | a goal is selected after the click exactly when it was not before; the other goals and fields are unchanged; an unselected goal is appended and a selected one filtered out |
| Editors.ToggleIndustry | app/components/profile/Editors.tsx:524-535 | the same rule for a preferred industry: appended when unselected, filtered out when selected |
| Editors.ToggleGoalTwice | app/components/profile/Editors.tsx:487-498 | clicking an unselected goal twice restores the state |
| Editors.ToggleIndustryTwice | app/components/profile/Editors.tsx:524-535 | clicking an unselected industry twice restores the state |
| Editors.Apply | app/components/profile/Editors.tsx:38-553 | choosing a work preference sets exactly that option; each action leaves the text fields and the row lists it does not touch unchanged |
| Editors.ApplyKeepsOtherTags | app/components/profile/Editors.tsx:449-535 | a tag edit sets its own list, a goal or industry click touches only its own list, and every other action leaves all six tag lists unchanged |
| Editors.ApplyKeepsEndDatesCleared | app/components/onboarding/OnboardingForm.tsx:490-517 | with the end-date inputs disabled on a current row or a present role, every action keeps those end dates empty |
| OnboardingForm.Years | app/components/onboarding/OnboardingForm.tsx:61-63 | the year options are the current year down to 1970, newest first |
| OnboardingForm.YearsDistinct | app/components/onboarding/OnboardingForm.tsx:61-63 | no year is offered twice |
| OnboardingForm.FormatDuration | app/components/onboarding/OnboardingForm.tsx:118-131 | the text is "" exactly when a start field is empty; otherwise it is the start, then " - Present" for a current role, or the end when both end fields are set |
| OnboardingForm.Hydrate | app/components/onboarding/OnboardingForm.tsx:173-200 | the loaded name is the user's or ""; the row lists are read from the stored arrays |
| OnboardingForm.HydrateReadsStoredFields | app/components/onboarding/OnboardingForm.tsx:177-194 | every other text field and every tag list is read from the stored record under its own key |
| OnboardingForm.HydrateEmpty | app/components/onboarding/OnboardingForm.tsx:133-152 | loading an empty record for a user without a name gives the default state |
| OnboardingForm.HydrateRoundTrip | app/components/onboarding/OnboardingForm.tsx:173-200 | loading a submitted state back gives the same state |
| OnboardingForm.EntryMessageInjective | app/components/onboarding/OnboardingForm.tsx:232 | different row positions give different messages |
| OnboardingForm.EntryErrorsReport | app/components/onboarding/OnboardingForm.tsx:230-234 | row k is reported exactly when it lacks its institution or its degree |
| OnboardingForm.EntryErrorsEmpty | app/components/onboarding/OnboardingForm.tsx:230-234 | the rows raise no message exactly when every row is complete |
| OnboardingForm.CheckEntries | app/components/onboarding/OnboardingForm.tsx:230-234 | the loop over the rows collects one message per incomplete row, in row order |
| OnboardingForm.ValidateStep | app/components/onboarding/OnboardingForm.tsx:219-243 | the pushes of `validateStep` collect exactly the messages the step's rules give |
| OnboardingForm.PersonalStepRule | app/components/onboarding/OnboardingForm.tsx:221-226 | step 1 reports each empty personal field exactly once, and passes exactly when all four are filled |
| OnboardingForm.EducationStepRule | app/components/onboarding/OnboardingForm.tsx:227-235 | step 2 lists the level and field-of-study messages first, then one message per incomplete row; it passes exactly when all are set |
| OnboardingForm.OtherStepsRule | app/components/onboarding/OnboardingForm.tsx:236-243 | step 3 needs only the level; step 5 needs a goal and a timeframe; steps 4, 6 and any other number need nothing |
| OnboardingForm.NextStep | app/components/onboarding/OnboardingForm.tsx:255-258 | Next stays on a failing step and otherwise moves one forward, capped at 6 |
| OnboardingForm.BackStep | app/components/onboarding/OnboardingForm.tsx:260 | Back moves one step back, floored at 1, without validating |
| OnboardingForm.RunPassesOnlyValidSteps | app/components/onboarding/OnboardingForm.tsx:255-260 | whatever the presses, the step stays in 1..6 and every step before the one reached has passed its validation |
| OnboardingForm.ReachingTheEnd | app/components/onboarding/OnboardingForm.tsx:924-935 | reaching the last step from the first means steps 1 to 5 all validated |
| OnboardingForm.Wizard.constructor | app/components/onboarding/OnboardingForm.tsx:156-158 | the wizard starts on step 1 with the default state, whose end dates are cleared |
| OnboardingForm.Wizard.Load | app/components/onboarding/OnboardingForm.tsx:173-205 | a loaded profile replaces the state; a failed load leaves it |
| OnboardingForm.Wizard.Next | app/components/onboarding/OnboardingForm.tsx:255-258 | the step moves as `NextStep` says, the messages are the step's and the state is kept |
| OnboardingForm.Wizard.Back | app/components/onboarding/OnboardingForm.tsx:260 | the step moves as `BackStep` says and the state is kept |
| OnboardingForm.Wizard.Edit | app/components/onboarding/OnboardingForm.tsx:214-217 | an edit changes the state as `Apply` says and keeps the step; cleared end dates stay cleared |
| OnboardingForm.Wizard.Submit | app/components/onboarding/OnboardingForm.tsx:262-268 | Submit is blocked with the step's messages, or sends every field of the state; on the last step it always sends |
| TagsInput.PendingTag | app/components/onboarding/TagsInput.tsx:15-16 | the buffer yields no tag exactly when it is blank; otherwise the tag is its trimmed, non-empty text |
| TagsInput.TagsInput.Add | app/components/onboarding/TagsInput.tsx:14-19 | a blank buffer changes nothing; otherwise exactly the trimmed text is appended without de-duplication and the buffer is emptied; a well-formed list stays well formed |
| TagsInput.TagsInput.KeyDown | app/components/onboarding/TagsInput.tsx:32-37 | Enter does what Add does; other keys do nothing |
| TagsInput.TagsInput.SetInput | app/components/onboarding/TagsInput.tsx:30 | typing replaces the buffer |
| TagsInput.AppendKeepsWellFormed | app/components/onboarding/TagsInput.tsx:17 | appending a non-empty trimmed tag keeps every tag non-empty and trimmed |
| TagsInput.RemoveKeepsWellFormed | app/components/onboarding/TagsInput.tsx:21-23 | removing a tag keeps a well-formed list well formed |
| SectionCard.Display | app/components/profile/SectionCard.tsx:46-56 | "Not set" exactly for undefined, null, false, 0 and ""; an array shows its elements joined by ", "; every other truthy value shows `String(value)`: a string itself, a number its decimal text, `true` "true" and a record "[object Object]" |
| SectionCard.EmptyArrayShowsEmptyText | app/components/profile/SectionCard.tsx:46-48 | an empty array is truthy and shows "" rather than "Not set" |
| SectionCard.TagsDisplay | app/components/profile/SectionCard.tsx:47-48 | a stored list of strings shows as those strings joined by ", " |
| SectionCard.RenderCard | app/components/profile/SectionCard.tsx:21-65 | the card keeps its title and shows one line per entry, in entry order; it offers Edit exactly when `onEdit` is given |
| SkillGapSummary.GapColor | app/components/dashboard/overview/SkillGapSummary.tsx:16-20 | rose from 2, amber from 1 and below 2, emerald below 1 |
| SkillGapSummary.GapColorMonotone | app/components/dashboard/overview/SkillGapSummary.tsx:16-20 | a larger gap never shows a calmer colour |
| SkillGapSummary.Bar | app/components/dashboard/overview/SkillGapSummary.tsx:22-31 | five segments; segment n is filled exactly when n <= value |
| SkillGapSummary.BarFillsFromTheLeft | app/components/dashboard/overview/SkillGapSummary.tsx:24-27 | the filled segments come first |
| SkillGapSummary.BarFilledCount | app/components/dashboard/overview/SkillGapSummary.tsx:22-31 | for a whole number the bar fills the value clamped to 0..5 |
| SkillGapSummary.RowBackground | app/components/dashboard/overview/SkillGapSummary.tsx:59 | even rows are white and odd rows slate |
| SkillGapSummary.RowsAlternate | app/components/dashboard/overview/SkillGapSummary.tsx:59 | neighbouring rows differ and every second row repeats |
| LoginForm.WelcomeBack | app/components/auth/LoginForm.tsx:45 | "Welcome back, {name}!" for a non-empty name, else "Welcome back!" |
| LoginForm.LoginForm.Change | app/components/auth/LoginForm.tsx:21-26 | typing updates only that field and clears only that field's error |
| LoginForm.LoginForm.Validate | app/components/auth/LoginForm.tsx:30-32 | a field has an error exactly when it is empty, with its own message |
| LoginForm.LoginForm.Submit | app/components/auth/LoginForm.tsx:28-46 | with an empty field the errors are stored and no request is made; otherwise the credentials are sent and the greeting comes from the reply |
| RegisterForm.WelcomeAboard | app/components/auth/RegisterForm.tsx:54 | "Welcome aboard, {x}!" with the name when non-empty, else the email |
| RegisterForm.RegisterForm.Change | app/components/auth/RegisterForm.tsx:29-34 | typing updates only that field and clears only that field's error |
| RegisterForm.RegisterForm.Validate | app/components/auth/RegisterForm.tsx:38-41 | a field has an error exactly when it is empty, with its own message |
| RegisterForm.RegisterForm.Submit | app/components/auth/RegisterForm.tsx:36-55 | with an empty field the errors are stored and no request is made; otherwise the form is sent and the greeting comes from the reply |
| ProfileRoute.InitialSource | app/routes/profile.tsx:68 | the trimmed name when it is not blank, else the email, else "" |
| ProfileRoute.GetInitial | app/routes/profile.tsx:67-70 | one character: the upper-cased first character of the trimmed name, else of the email, else "U" |
| ProfileRoute.HeaderName | app/routes/profile.tsx:623 | the user's name, or "Your name" when it is missing or empty |
| ProfileRoute.ArrayOrEmpty | app/routes/profile.tsx:171 | an array is kept and any other value becomes [] |
| ProfileRoute.NormalizeRole | app/routes/profile.tsx:182-191 | the role has exactly the role keys; each text field is the stored one, or "" when null or missing; `isPresent` is a boolean |
| ProfileRoute.NormalizeRoleReadsTheSame | app/routes/profile.tsx:182-191 | normalising a role changes nothing the typed role reads |
| ProfileRoute.NormalizeRoleIdempotent | app/routes/profile.tsx:182-191 | normalising a role twice is normalising it once |
| ProfileRoute.NormalizeRoleKeepsWrittenRole | app/routes/profile.tsx:182-191 | a role the editor wrote is already normalised |
| ProfileRoute.NormalizedRoles | app/routes/profile.tsx:181-193 | the stored roles are always an array: each role normalised, or [] for a non-array; the typed roles read the same |
| ProfileRoute.NormalizeArraysReads | app/routes/profile.tsx:169-194 | every raw key is kept; the list keys always hold arrays (an array kept, anything else []); the other keys pass through; the roles are normalised |
| ProfileRoute.NormalizeArraysIdempotent | app/routes/profile.tsx:169-194 | normalising a normalised record changes nothing |
| ProfileRoute.FormText | app/routes/profile.tsx:203-220 | a stored string is read as itself and anything else as "" |
| ProfileRoute.BuildFormState | app/routes/profile.tsx:196-223 | the password fields start empty; the email and image come from the user; every other field comes from the normalised record |
| ProfileRoute.BuildFormStateMatchesWizard | app/routes/profile.tsx:196-223 | read through the typed record fields, the editor and the onboarding wizard agree on every field of a stored record |
| ProfileRoute.RawFormatDuration | app/routes/profile.tsx:242-256 | the page's duration text is "" exactly when the start month or year is falsy; a flag that is exactly `true` gives "start - Present"; otherwise both end fields truthy give "start - end", and no end gives the start alone |
| ProfileRoute.RawFormatDurationOfWrittenRole | app/routes/profile.tsx:242-256 | on a role the editor wrote, the page's duration text equals the wizard's |
| ProfileRoute.EducationLine | app/routes/profile.tsx:284-288 | an education summary line throws exactly on a null or undefined row |
| ProfileRoute.EducationLineOfWrittenRow | app/routes/profile.tsx:288 | a written row is summarised as its degree at its institution, with the end year when set |
| ProfileRoute.RoleLine | app/routes/profile.tsx:301-305 | a role summary line throws exactly on a null or undefined role |
| ProfileRoute.RoleLineOfWrittenRole | app/routes/profile.tsx:303 | a written role is summarised as its title at its company, with the wizard's duration text |
| ProfileRoute.MapLines | app/routes/profile.tsx:287-289 | the map throws exactly when some row's line throws, and otherwise gives the lines in order |
| ProfileRoute.ListSummary | app/routes/profile.tsx:283-291 | an absent or empty array gives undefined; otherwise the lines joined by " \| ", or a throw |
| ProfileRoute.UserNameValue | app/routes/profile.tsx:266 | `profile.user?.full_name` is undefined with no user, null for a null name, else the name |
| ProfileRoute.SectionsView | app/routes/profile.tsx:258-332 | building the five cards throws exactly on the records where a list is a present non-array or a row is null; otherwise the five cards come in page order |
| ProfileRoute.StoredStateRenders | app/routes/profile.tsx:258-332 | a record the onboarding wizard submitted never makes the cards throw |
| ProfileRoute.ListsPresentThrowsOnRows | app/routes/profile.tsx:258-332 | on a record whose tag lists are arrays and whose roles are all present, the cards throw exactly when an education row is null or undefined |
| ProfileRoute.StringListThrows | app/routes/profile.tsx:311 | a skills list stored as a plain string makes the cards throw |
| ProfileRoute.SectionKeys | app/routes/profile.tsx:422-463 | the keys each section writes back, including the education rows for Education; only Account writes none |
| ProfileRoute.SectionKeysAsWritten | app/routes/profile.tsx:431-439 | the keys the page's save writes back: the Education section leaves out the education rows |
| ProfileRoute.OverlayReads | app/routes/profile.tsx:422-463 | the merged record takes the section's keys from the form and keeps every other key |
| ProfileRoute.MergeSectionReads | app/routes/profile.tsx:422-463 | a section's save adds exactly that section's keys, takes their values from the form and keeps every other stored key |
| ProfileRoute.MergeSectionAsWritten | app/routes/profile.tsx:431-439 | as written, saving never changes the stored education rows |
| ProfileRoute.MergeSectionAsWrittenReads | app/routes/profile.tsx:422-463 | as written, a save takes the keys it lists from the form and keeps every other stored key |
| ProfileRoute.OverlayThenReopen | app/routes/profile.tsx:357-463 | after a merge, reopening shows the form's value for every overlaid field and the old value for every other field |
| ProfileRoute.SaveThenReopen | app/routes/profile.tsx:357-463 | after saving a section, reopening shows that section's saved values and the old values everywhere else |
| ProfileRoute.EducationSaveKeepsOldRows | app/routes/profile.tsx:431-439 | as written, saving Education and reopening shows the old education rows, not the edited ones |
| ProfileRoute.EducationRowLostOnSave | app/routes/profile.tsx:431-439 | a row added to an empty profile is gone after saving and reopening |
| ProfileRoute.NormalizedRecordIsFixed | app/routes/profile.tsx:169-194 | a record whose lists are arrays and whose roles are normalised is left alone by the normalisation |
| ProfileRoute.OverlayTwice | app/routes/profile.tsx:422-463 | merging the same keys of the same form twice is merging them once |
| ProfileRoute.SavedRolesNormalized | app/routes/profile.tsx:440-446 | the roles of a saved record are already normalised |
| ProfileRoute.SavedEducationRows | app/routes/profile.tsx:422-463 | a saved record holds a null education row exactly when the section saved is not Education and the stored record held one |
| ProfileRoute.SaveKeepsCardsRendering | app/routes/profile.tsx:422-463 | after a save the cards throw exactly when the section saved is not Education and a stored education row is null or undefined: that row survives the normalisation and the save |
| ProfileRoute.SavedRecordIsNormalized | app/routes/profile.tsx:357-479 | the record a save stores is already normalised |
| ProfileRoute.SaveTwiceSameRecord | app/routes/profile.tsx:357-479 | saving the same form twice stores the same record as saving once |
| ProfileRoute.SaveBody | app/routes/profile.tsx:466-469 | the body is the merged record with `fullName` from the form for Personal and the user's stored name otherwise |
| ProfileRoute.UserAfterSave | app/routes/profile.tsx:470-478 | a Personal save sets the name to the form's, or keeps the old one when the form's is empty, and keeps the email; other sections keep the user |
| ProfileRoute.PersonalSaveShowsName | app/routes/profile.tsx:466-478 | after a Personal save with a non-empty name, reopening shows that name |
| ProfileRoute.AccountPayload | app/routes/profile.tsx:360-389 | refused for an empty email, or for a new password that differs from its confirmation; otherwise name, email and image, plus both passwords exactly when a new password is typed |
| ProfileRoute.SetAccountText | app/components/profile/Editors.tsx:580-616 | typing into an account field changes only that field |
| ProfileRoute.ProfilePage.constructor | app/routes/profile.tsx:55-65 | the page starts with no user, an empty record, no open section and no form |
| ProfileRoute.ProfilePage.Load | app/routes/profile.tsx:225-238 | a fetched profile replaces the user and the record; a failed fetch changes nothing |
| ProfileRoute.ProfilePage.OpenEditor | app/routes/profile.tsx:334-337 | opening a section builds a fresh form from the stored record |
| ProfileRoute.ProfilePage.Close | app/routes/profile.tsx:581-588 | Close and Cancel close the editor and change nothing else |
| ProfileRoute.ProfilePage.Edit | app/routes/profile.tsx:339-340 | an edit changes the form as `Apply` says and keeps its cleared end dates cleared; nothing happens without a form |
| ProfileRoute.ProfilePage.EditAccount | app/routes/profile.tsx:339-340 | typing into an account field changes only the form |
| ProfileRoute.ProfilePage.SelectFile | app/routes/profile.tsx:342-352 | no file clears the image; a file's data URL becomes the image |
| ProfileRoute.ProfilePage.Save | app/routes/profile.tsx:354-496 | with nothing open nothing happens; the account branch checks, sends and on reply clears the passwords and closes; any other section sends the merged record and on success stores it, updates the user and closes |
| ProfileRoute.ProfilePage.SaveAccount | app/routes/profile.tsx:360-421 | a refused payload sends nothing and changes nothing; a reply becomes the user, the passwords are cleared and the editor closes |
| ProfileRoute.ProfilePage.SaveSection | app/routes/profile.tsx:422-486 | the merged record and name are sent; on success they become the stored record and user and the editor closes; the form is kept |

## Left out

- The onboarding wizard's saved-flag redirect, every `navigate` call, toasts, the `submitting`, `loading` and `saving` flags, the `cancelled` guards of the effects and `console.log`: these are browser storage, routing and UI lifecycle, with no rule to state.
- `fetchProfile`, `saveOnboarding`, `updateAccount`, `loginApi`, `registerApi` and `storeToken` in `app/lib/api-client.ts`: only their outcomes are modelled, as parameters. A failed account update or a failed section save leaves the page as it was.
- The FileReader of `handleFileSelected`: the data URL it produces is the parameter of `SelectFile`.
- The fixed option lists (ages, levels, timeframes, goals, industries, work preferences), the step indicator, the charts and the static dashboard cards are display only.
- The badge colours and the hard-coded rows of the skill-gap table are constants with nothing to prove.
- JsValues.AsText: a value the source casts with `as string` keeps its JavaScript type there (a stored number stays a number). The typed records read any non-string as "". So `Hydrate`, `FormText` and the typed readers do not capture a non-string that passes through. In the same way `EducationFromJson` and `RoleFromJson` read a stored row that is null or not an object as a blank row, whereas the wizard's step-2 check reads `edu.institution` on it and throws (app/components/onboarding/OnboardingForm.tsx:231).
- ProfileRoute.BuildFormStateMatchesWizard: the agreement is on the typed reading only. For a record holding ill-typed values the two screens differ in the source: `?? ""` keeps a stored number where `|| ""` drops it, `?? []` keeps a non-array list where `Array.isArray` replaces it with [], and the wizard uses the stored roles as they are while the editor normalises them.
- Editors.ApplyKeepsEndDatesCleared: the invariant is proved for edits only. A stored record can hold a current row with an end year, and loading it does not clear that.
- ProfileRoute.FormText: the `|| ""` of the source would keep a stored non-string truthy value; the model reads it as "".
- OnboardingForm.Hydrate: `?? []` keeps a stored non-array list value as it is. The model reads it as [].
- JsValues.Json: numbers are integers, with no fractions, NaN or infinities. The skill-gap rules use `real` and do not model NaN.
- ProfileRoute.GetInitial: `charAt(0)` reads one UTF-16 code unit, and the model reads one `char`. `toUpperCase` is modelled for a to z only; other letters are left as they are.
- `profile.data || {}` is not modelled: the stored record is always a map, so a null record is not represented.
- ProfileRoute.SaveBody: `JSON.stringify` drops a `fullName` that is undefined. The model keeps it as `Undefined`, which is the same thing once serialised.
- ProfileRoute.ProfilePage.Save: it, and `ProfileRoute.ProfilePage.SaveSection` which it calls, use the corrected `SectionKeys`, which write the education rows back. The behaviour as written is `SectionKeysAsWritten` and `MergeSectionAsWritten`; see Findings.
- ProfileRoute.ProfilePage.SaveSection: it merges with the corrected `SectionKeys`, so an Education save writes the edited rows back where the source keeps the old ones; the behaviour as written is `MergeSectionAsWritten`, see Findings.
- The `update` and `updateForm` of the source can set any key to any value. The model offers only the edits the screens perform (`Editors.Change`).
- The row handlers copy the row array before assigning `next[idx]`, so there is no aliasing to model. They are modelled on values.

## Findings

| source | as written | input that shows it | evidently intended | confidence | as-written member | corrected member |
|---|---|---|---|---|---|---|
| app/routes/profile.tsx:431-439 | saving the Education section writes back education, field of study, graduation year and certifications, but not `educationalBackground`, although its editor is opened with `includeBackground` (app/routes/profile.tsx:514-519) and edits those rows | an empty profile; open Education, press "Add education", then save and reopen: the rows are [] again | the Education save also writes `educationalBackground`, as the wizard's submit does | not executed | ProfileRoute.EducationRowLostOnSave | ProfileRoute.SaveThenReopen |
