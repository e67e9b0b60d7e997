# Pharmacy dashboard core, modelled in Dafny

This project models the decision logic of a prescription-management
dashboard. That logic includes:

- who may see protected screens (the role gate and the session provider's
  derived role, verification flag and `checkAccess`);
- the medication picker's case-insensitive search over a fixed catalogue;
- the dosage calculator's recommended range and the dosage text it hands back;
- the prescription form's presence check and the partial record it assembles;
- the QR payload and download name;
- the patient lookup by id or phone;
- the signup form's schema and its sent/verified/submitted flags;
- the licence verification screen's status texts, guard and audit labels;
- the analytics cards and chart colours.

There is one module per source component:

| module | file | models |
|---|---|---|
| `Types` | `types.dfy` | the shared records and enumerations |
| `RoleGate` | `role_gate.dfy` | the render gate |
| `Auth` | `auth_context.dfy` | the session provider |
| `MedicationSearch` | `medication_search.dfy` | the medication picker |
| `Dosage` | `dosage_calculator.dfy` | the dosage calculator |
| `Prescribing` | `prescription_creator.dfy` | the prescription form |
| `QRCode` | `qr_code_generator.dfy` | the QR generator |
| `PatientLookup` | `patient_search.dfy` | the patient search |
| `Signup` | `signup_form.dfy` | the signup form |
| `LicenseVerification` | `doctor_verification.dfy` | the doctor verification screen |
| `Analytics` | `analytics_dashboard.dfy` | the analytics dashboard |

Three shared modules stand for the JavaScript built-ins the components rely on:

- `Strings` (`strings.dfy`): ASCII `toLowerCase`, `includes`, `trim`,
  `split`, and rendering a number as decimal text.
- `Seqs` (`seqs.dfy`): `filter` and `find`.
- `Wrappers` (`wrappers.dfy`): `Option`.

Components that keep state and change it in handlers are classes with one
field per state variable. A handler that waits on a timer before finishing
becomes a pair of methods:

- the first does what happens before the delay and returns the values the
  delayed callback captures;
- the second does what the callback does.

Where the part before the delay changes none of the component's own state
(the authentication provider's mount effect, the QR generator's button), only
the callback is a method.

Random values (the prescription id suffix, the simulated licence status) and
clock readings are method parameters.

Where the code and a prose reading of it diverge, the model follows the code:

- The audit table's resource label is the text between the first and the
  second dash of the id (`split('-')[1]`), not everything after the first
  dash.
- The dosage range tests `perWeight` for truthiness, so an absent
  `perWeight` counts as a fixed dose.
- With no computable range the "final" dose is the empty string, so the
  dosage text then starts with a space and still passes the form's presence
  check.

## Model

| member | source | states |
|---|---|---|
| `Types.ToPartial` | src/types/index.ts:52-67 | viewing a complete prescription as a partial one keeps its id, patient, medication name, dosage, doctor name and status |
| `RoleGate.Render` | src/components/ui/RoleBasedComponent.tsx:21-28 | the children are rendered exactly when the role is allowed and verification passes (not required, or the actor is verified); otherwise the fallback is rendered |
| `RoleGate.RenderWithDefaults` | src/components/ui/RoleBasedComponent.tsx:15-16 | with the defaults (verification not required, fallback `null`) the gate renders the children exactly when the role is allowed, and nothing otherwise |
| `RoleGate.DefaultIgnoresVerification` | src/components/ui/RoleBasedComponent.tsx:16-22 | under the defaults, a verified and an unverified actor see the same thing |
| `RoleGate.UnverifiedDenied` | src/components/ui/RoleBasedComponent.tsx:22-24 | with `requireVerified`, an unverified actor is denied whatever the role |
| `RoleGate.VerifiedDecidedByRole` | src/components/ui/RoleBasedComponent.tsx:21-24 | with `requireVerified`, a verified actor is admitted exactly when the role is allowed |
| `RoleGate.EmptyAllowedDenies` | src/components/ui/RoleBasedComponent.tsx:21 | an empty list of allowed roles never admits anyone |
| `RoleGate.MoreRolesKeepAccess` | src/components/ui/RoleBasedComponent.tsx:21-24 | allowing more roles never revokes access (monotonicity) |
| `Auth.RoleOf` | src/contexts/AuthContext.tsx:68 | the derived role is the user's role, and `unauthorized` when there is no user |
| `Auth.NoUserNoAccess` | src/contexts/AuthContext.tsx:59-69 | without a user `checkAccess` fails for every role list, the role is `unauthorized` and the actor is not verified |
| `Auth.CheckAccessIgnoresVerification` | src/contexts/AuthContext.tsx:59-62 | `checkAccess` decides by role membership alone; the verification flag never changes its answer |
| `Auth.GateDisagreesWithCheckAccess` | src/contexts/AuthContext.tsx:59-69 | the render gate and `checkAccess` disagree in exactly two cases: an anonymous visitor where `unauthorized` is allowed without verification, and an unverified user with an allowed role where verification is required |
| `Auth.AuthProvider.constructor` | src/contexts/AuthContext.tsx:31-32 | the provider starts with no user and loading |
| `Auth.AuthProvider.LoadUser` | src/contexts/AuthContext.tsx:34-45 | once the mount effect's delay elapses, the demo user is installed and loading ends |
| `Auth.AuthProvider.BeginLogin` | src/contexts/AuthContext.tsx:47-50 | logging in turns loading on and leaves the user as it was until the delay elapses |
| `Auth.AuthProvider.FinishLogin` | src/contexts/AuthContext.tsx:50-52 | after the delay, any credentials end with the demo user installed, who is a verified doctor, and loading off |
| `Auth.AuthProvider.Logout` | src/contexts/AuthContext.tsx:55-57 | after logout there is no user, so the role is `unauthorized` and every `checkAccess` fails; the loading flag is untouched |
| `MedicationSearch.SearchIn` | src/components/Prescription/MedicationSearch.tsx:109-125 | an empty term shows the whole list; otherwise exactly the entries whose lower-cased name or generic name contains the lower-cased term, in list order (sound, complete, an order-preserving selection) |
| `MedicationSearch.EmptyTermFilterKeepsAll` | src/components/Prescription/MedicationSearch.tsx:112-123 | filtering with the empty term would keep every entry, so the empty-term shortcut agrees with the filter |
| `MedicationSearch.SearchIgnoresCase` | src/components/Prescription/MedicationSearch.tsx:114-115 | a term and its lower-cased form select the same entries |
| `MedicationSearch.CatalogueDosesOrdered` | src/components/Prescription/MedicationSearch.tsx:22-93 | every catalogue entry has a reference dose whose minimum does not exceed its maximum |
| `MedicationSearch.CatalogueIdsDistinct` | src/components/Prescription/MedicationSearch.tsx:22-93 | catalogue ids are pairwise distinct |
| `Dosage.ComputeRange` | src/components/Prescription/DosageCalculator.tsx:36-52 | there is no range exactly when there is no medication, no reference dose, or a per-weight dose without a non-zero weight; the unit is the reference unit; an ordered reference dose gives an ordered range |
| `Dosage.ScaleMonotone` | src/components/Prescription/DosageCalculator.tsx:42-43 | scaling both ends by the weight keeps them ordered |
| `Dosage.PerWeightScales` | src/components/Prescription/DosageCalculator.tsx:37-45 | a per-weight dose with a non-zero weight gives both ends multiplied by the weight |
| `Dosage.FixedIgnoresWeight` | src/components/Prescription/DosageCalculator.tsx:46-48 | a dose whose `perWeight` is false or absent gives the reference range whatever the weight |
| `Dosage.ParseUpperOfParts` | src/components/Prescription/DosageCalculator.tsx:45 | the upper half of a range text (`<digits> <unit>`) reads back as its value and unit |
| `Dosage.ParseRangeOfParts` | src/components/Prescription/DosageCalculator.tsx:45 | `<digits>-<digits> <unit>` reads back as its two values and unit |
| `Dosage.ParseFormatRange` | src/components/Prescription/DosageCalculator.tsx:45-48 | the range text `${min}-${max} ${unit}` loses nothing: it parses back to the range (round trip) |
| `Dosage.RangeText` | src/components/Prescription/DosageCalculator.tsx:36-52 | the recommendation is empty exactly when no range can be computed, and otherwise parses back to the computed range |
| `Dosage.DosageText` | src/components/Prescription/DosageCalculator.tsx:56 | the dosage text starts with the chosen dose, ends with the duration unit, and is 7 characters longer than its four parts together, so it is never empty |
| `Dosage.DosageCalculator.constructor` | src/components/Prescription/DosageCalculator.tsx:28-34 | the weight is seeded from the prop, frequency/duration/unit default to daily/7/days, the custom dose is empty and off, and the recommendation is the text of the computed range |
| `Dosage.DosageCalculator.ReceiveProps` | src/components/Prescription/DosageCalculator.tsx:28-52 | a new medication prop recomputes the recommendation; a new weight prop is ignored after mounting |
| `Dosage.DosageCalculator.SetCustomWeight` | src/components/Prescription/DosageCalculator.tsx:69 | typing a weight recomputes the recommendation for that weight and changes nothing else |
| `Dosage.DosageCalculator.SetFrequency` | src/components/Prescription/DosageCalculator.tsx:110 | the frequency select stores its value |
| `Dosage.DosageCalculator.SetDuration` | src/components/Prescription/DosageCalculator.tsx:131 | the duration input stores its value |
| `Dosage.DosageCalculator.SetDurationUnit` | src/components/Prescription/DosageCalculator.tsx:135 | the unit select stores its value |
| `Dosage.DosageCalculator.SetCustomDosage` | src/components/Prescription/DosageCalculator.tsx:101 | the custom dose input stores its value |
| `Dosage.DosageCalculator.SetIsCustomDosage` | src/components/Prescription/DosageCalculator.tsx:94 | the custom dose checkbox stores its value |
| `Dosage.DosageCalculator.Calculate` | src/components/Prescription/DosageCalculator.tsx:54-58 | the text handed to the form is the dosage text of the custom dose when ticked and of the recommended range otherwise, and it is never empty |
| `Dosage.DosageCalculator.CalculateEnabled` | src/components/Prescription/DosageCalculator.tsx:152 | the calculate button is enabled exactly when a medication is selected |
| `Dosage.EnabledWithoutRecommendation` | src/components/Prescription/DosageCalculator.tsx:29-56 | with a medication that has no reference dose, the button is enabled while the recommendation is empty |
| `Dosage.DefaultTextWithoutDose` | src/components/Prescription/DosageCalculator.tsx:29-56 | with no computable range and the defaults, the text handed over is ` daily for 7 days` |
| `Prescribing.FormOnlyForVerifiedPrescribers` | src/components/Prescription/PrescriptionCreator.tsx:95-98 | the form and the create button are shown exactly to verified doctors and admins |
| `Prescribing.Assemble` | src/components/Prescription/PrescriptionCreator.tsx:56-66 | the new record's id starts with `rx-`; it carries the form's patient id, dosage, instructions and medication id and name, the user's id and name when signed in, and the creation time; status, frequency, duration, expiry and QR URL stay absent |
| `Prescribing.AssembledPayload` | src/components/Prescription/PrescriptionCreator.tsx:56-66 | a created prescription's QR payload carries its new id, the medication name, dosage, patient id and doctor name, and the QR button is enabled exactly when the medication name is non-empty |
| `Prescribing.PresenceCheckMissesMissingDose` | src/components/Prescription/PrescriptionCreator.tsx:43 | when no range can be computed, the calculator's text is still non-empty and passes the presence check |
| `Prescribing.PrescriptionCreator.constructor` | src/components/Prescription/PrescriptionCreator.tsx:21-28 | the form starts empty, not creating, not generating, with no record |
| `Prescribing.PrescriptionCreator.SetPatientId` | src/components/Prescription/PrescriptionCreator.tsx:114 | the patient id input stores its value |
| `Prescribing.PrescriptionCreator.SetPatientWeight` | src/components/Prescription/PrescriptionCreator.tsx:125 | the weight input stores its value |
| `Prescribing.PrescriptionCreator.SetInstructions` | src/components/Prescription/PrescriptionCreator.tsx:156 | the instructions input stores its value |
| `Prescribing.PrescriptionCreator.SelectMedication` | src/components/Prescription/PrescriptionCreator.tsx:30-32 | selecting a medication changes only the selection; a dosage computed for another medication is kept |
| `Prescribing.PrescriptionCreator.DosageCalculated` | src/components/Prescription/PrescriptionCreator.tsx:34-40 | the calculator's text becomes the dosage |
| `Prescribing.PrescriptionCreator.StartCreate` | src/components/Prescription/PrescriptionCreator.tsx:42-55 | a missing patient id, medication or dosage rejects creation and changes nothing; otherwise creation starts with the form's current values captured |
| `Prescribing.PrescriptionCreator.FinishCreate` | src/components/Prescription/PrescriptionCreator.tsx:55-69 | the assembled record is stored and creation ends; the form's fields are untouched |
| `Prescribing.PrescriptionCreator.GenerateQR` | src/components/Prescription/PrescriptionCreator.tsx:78-81 | the generating flag is set |
| `Prescribing.PrescriptionCreator.CreateEnabled` | src/components/Prescription/PrescriptionCreator.tsx:183 | the create button is enabled exactly when the presence check passes and no creation is in progress |
| `QRCode.IdOr` | src/components/Prescription/QRCodeGenerator.tsx:23 | the prescription's id when present and non-empty, otherwise the fallback |
| `QRCode.Payload` | src/components/Prescription/QRCodeGenerator.tsx:21-29 | the payload id is the prescription id, or `temp-id` when it has none, and never empty; the date is the clock reading; its medication, dosage, patient and doctor are the prescription's medication name, dosage, patient id and doctor name |
| `QRCode.PayloadIgnoresOtherFields` | src/components/Prescription/QRCodeGenerator.tsx:22-29 | prescriptions that agree on those five fields give the same payload |
| `QRCode.PayloadOfCompletePrescription` | src/components/Prescription/QRCodeGenerator.tsx:22-29 | a complete prescription's payload carries its own id, medication name, dosage, patient id and doctor name |
| `QRCode.DownloadFileName` | src/components/Prescription/QRCodeGenerator.tsx:43 | the file name is `prescription-`, then the id (or `new`), then `.png`, and the id can be read back from it |
| `QRCode.DownloadNamesDistinct` | src/components/Prescription/QRCodeGenerator.tsx:43 | different ids give different file names |
| `QRCode.FallbacksDiffer` | src/components/Prescription/QRCodeGenerator.tsx:23-43 | for a prescription without an id the payload says `temp-id` while the file name says `new` |
| `QRCode.GenerateEnabled` | src/components/Prescription/QRCodeGenerator.tsx:90 | the generate button is enabled only when not generating and a prescription is given, and then exactly when its medication name is present and non-empty |
| `QRCode.QRCodeGenerator.constructor` | src/components/Prescription/QRCodeGenerator.tsx:18 | the QR code starts not generated |
| `QRCode.QRCodeGenerator.Generate` | src/components/Prescription/QRCodeGenerator.tsx:31-37 | after the delay the QR code is generated |
| `PatientLookup.SearchIn` | src/components/Patient/PatientSearch.tsx:113-117 | exactly the patients whose lower-cased id contains the lower-cased query or whose phone contains the query as typed, in list order |
| `PatientLookup.MockPrescriptionsBelongToOwner` | src/components/Patient/PatientSearch.tsx:10-87 | every active prescription in the mock data names its own patient |
| `PatientLookup.PaddedQueryFindsNothing` | src/components/Patient/PatientSearch.tsx:100-117 | the query is not trimmed before matching, so any query containing a space finds no mock patient |
| `PatientLookup.PaddedQueryPassesGuard` | src/components/Patient/PatientSearch.tsx:100 | such a query (` pat-001`) still passes the blank check |
| `PatientLookup.PatientSearch.constructor` | src/components/Patient/PatientSearch.tsx:95-97 | the search starts with an empty query, not searching, no results |
| `PatientLookup.PatientSearch.SetSearchQuery` | src/components/Patient/PatientSearch.tsx:137 | the search box stores its value |
| `PatientLookup.PatientSearch.StartSearch` | src/components/Patient/PatientSearch.tsx:99-112 | a blank query is refused and nothing changes; otherwise searching starts with the untrimmed query captured |
| `PatientLookup.PatientSearch.FinishSearch` | src/components/Patient/PatientSearch.tsx:112-128 | the results are the search over the mock patients, searching ends, and the "No Patients Found" notice is raised exactly when there are no results |
| `PatientLookup.PatientSearch.SearchDisabled` | src/components/Patient/PatientSearch.tsx:140 | the search button is disabled exactly while a search is running |
| `Signup.SchemaErrors` | src/components/Auth/SignupForm.tsx:24-40 | the values pass exactly when the name has at least 2 characters, the e-mail is accepted, the licence id has at least 5 characters and the code is absent or has exactly 6 characters; each of the four rules is reported exactly when its own condition fails |
| `Signup.ErrorMessage` | src/components/Auth/SignupForm.tsx:24-40 | every rule has a non-empty message |
| `Signup.ErrorMessagesDistinct` | src/components/Auth/SignupForm.tsx:24-40 | no two rules share a message, so the message names the rule broken |
| `Signup.DefaultsBreakEveryRule` | src/components/Auth/SignupForm.tsx:24-58 | the initial values break all four rules, the empty code being a present string of the wrong length |
| `Signup.SignupForm.constructor` | src/components/Auth/SignupForm.tsx:45-58 | the form starts with the default values and all three flags off |
| `Signup.SignupForm.SetName` | src/components/Auth/SignupForm.tsx:141 | the name input stores its value, and changes nothing while the form is loading (the input is disabled) |
| `Signup.SignupForm.SetEmail` | src/components/Auth/SignupForm.tsx:155 | the e-mail input stores its value, and changes nothing while the form is loading (the input is disabled) |
| `Signup.SignupForm.SetLicenseId` | src/components/Auth/SignupForm.tsx:173 | typing in the licence input is ignored while loading or once a code has been sent |
| `Signup.SignupForm.SetVerificationCode` | src/components/Auth/SignupForm.tsx:205-224 | the code entry, which holds at most six characters, stores its value only while it is shown (a code was sent and not yet verified) and the form is not loading; otherwise nothing changes |
| `Signup.SignupForm.BeginSendCode` | src/components/Auth/SignupForm.tsx:60-74 | reachable only from its button, shown until a code is sent and disabled while loading (:175-181); sending is refused, with nothing changed, unless both the licence id and the e-mail are filled in; otherwise loading starts |
| `Signup.SignupForm.EndSendCode` | src/components/Auth/SignupForm.tsx:76-78 | the code counts as sent and loading ends |
| `Signup.SignupForm.BeginVerifyCode` | src/components/Auth/SignupForm.tsx:85-87 | reachable only from the verify button, while the code entry is shown and the button enabled (:205, :239); verifying starts loading and keeps the six-character code |
| `Signup.SignupForm.EndVerifyCode` | src/components/Auth/SignupForm.tsx:89-91 | verification completes for the six-character code entered, never checked against anything, and loading ends; a verified form keeps a code of six characters |
| `Signup.SignupForm.BeginSubmit` | src/components/Auth/SignupForm.tsx:99-109 | schema errors come first and block the handler; then an unverified licence refuses; either refusal changes nothing; otherwise registration starts; a verified form never fails on the code rule |
| `Signup.SignupForm.EndSubmit` | src/components/Auth/SignupForm.tsx:126-128 | loading ends whatever the outcome |
| `Signup.SignupForm.VerifyCodeEnabled` | src/components/Auth/SignupForm.tsx:239 | the verify button is enabled exactly when the form is not loading and the code has exactly 6 characters |
| `Signup.SignupForm.CodeEntryShown` | src/components/Auth/SignupForm.tsx:205 | the code entry is shown exactly when a code was sent and not yet verified |
| `Signup.SignupForm.SubmitEnabled` | src/components/Auth/SignupForm.tsx:261 | the submit button is enabled exactly when the form is not loading and the code is verified |
| `Signup.VerifyButtonMatchesCodeRule` | src/components/Auth/SignupForm.tsx:36-39 | the verify button's length test agrees with the schema's code rule: it is enabled exactly when not loading, a code is present and the code rule is not broken |
| `Signup.StepsInOrder` | src/components/Auth/SignupForm.tsx:205-261 | while the code entry is shown the form cannot be submitted, and a form that can be submitted has had its code sent |
| `Signup.VerifiedCodePassesRule` | src/components/Auth/SignupForm.tsx:36-39 | a verified form never breaks the schema's code rule, since the entry is gone once the code is verified |
| `LicenseVerification.Capitalize` | src/components/Doctor/DoctorVerification.tsx:123 | the first character is upper-cased and the rest kept |
| `LicenseVerification.StatusLabel` | src/components/Doctor/DoctorVerification.tsx:122-124 | the badge text is never empty: `Not Verified` without a status, otherwise the status name with only its first character changed |
| `LicenseVerification.StatusLabels` | src/components/Doctor/DoctorVerification.tsx:122-124 | the badge reads Verified, Pending, Expired or Not Verified, one label per status |
| `LicenseVerification.StatusMessage` | src/components/Doctor/DoctorVerification.tsx:128-134 | the text under the badge is one of the four fixed messages, and the unverified message appears exactly when there is no status |
| `LicenseVerification.StatusMessagesDistinct` | src/components/Doctor/DoctorVerification.tsx:128-134 | each status (and the absence of one) has its own message |
| `LicenseVerification.StatusBadge` | src/components/Doctor/DoctorVerification.tsx:112-120 | a verified status gets the default badge, a pending one the outline badge, and any other status (expired or none) the failure badge; the secondary style is never used |
| `LicenseVerification.StatusIcon` | src/components/Doctor/DoctorVerification.tsx:101-107 | the check icon is shown exactly for a verified status, the clock exactly for a pending one, and the alert icon for every other status |
| `LicenseVerification.IconMatchesBadge` | src/components/Doctor/DoctorVerification.tsx:101-120 | icon and badge agree case by case (check with default, clock with outline, alert with failure), and an expired status looks like no status |
| `LicenseVerification.DoctorVerification.constructor` | src/components/Doctor/DoctorVerification.tsx:52-56 | the licence id is seeded from the user's (or empty) and the status from the user's, not verifying |
| `LicenseVerification.DoctorVerification.SetLicenseId` | src/components/Doctor/DoctorVerification.tsx:147 | the licence input stores its value |
| `LicenseVerification.DoctorVerification.BeginVerify` | src/components/Doctor/DoctorVerification.tsx:58-68 | a blank licence id is refused and nothing changes; otherwise verifying starts |
| `LicenseVerification.DoctorVerification.EndVerify` | src/components/Doctor/DoctorVerification.tsx:71-77 | the drawn status is stored and verifying ends |
| `LicenseVerification.DoctorVerification.VerifyEnabled` | src/components/Doctor/DoctorVerification.tsx:156 | the verify button is enabled exactly when not verifying and the licence id is not blank |
| `LicenseVerification.IdSegmentOfDashedId` | src/components/Doctor/DoctorVerification.tsx:196 | for an id `prefix-number` the label shows the number, and anything after a second dash is dropped |
| `LicenseVerification.IdSegmentWithoutDash` | src/components/Doctor/DoctorVerification.tsx:196 | an id without a dash shows no number |
| `LicenseVerification.ResourceLabel` | src/components/Doctor/DoctorVerification.tsx:196 | the resource cell is the resource type, then ` #`, then the segment of the id after its first dash |
| `LicenseVerification.ResourceLabelOfDashedId` | src/components/Doctor/DoctorVerification.tsx:196 | for an id of the form prefix-number the cell reads type ` #` number |
| `LicenseVerification.MockFirstResourceLabel` | src/components/Doctor/DoctorVerification.tsx:15-47 | the first demo audit entry is shown as `Prescription #001` |
| `LicenseVerification.MockResourceSegments` | src/components/Doctor/DoctorVerification.tsx:15-47 | the mock logs' resources `rx-001` and `rx-002` show as `#001` and `#002` |
| `LicenseVerification.ActionBadge` | src/components/Doctor/DoctorVerification.tsx:183-190 | `Created` gets the default badge, `Updated` the outline badge and every other action the secondary badge; the failure style is never used |
| `LicenseVerification.MockActionsHaveOwnBadges` | src/components/Doctor/DoctorVerification.tsx:15-47 | no mock log entry falls to the catch-all badge |
| `Analytics.ReduceIsSum` | src/components/Analytics/AnalyticsDashboard.tsx:73 | the left fold from an accumulator equals the accumulator plus the sum of the counts |
| `Analytics.SumAppend` | src/components/Analytics/AnalyticsDashboard.tsx:73 | appending a month adds exactly its count to the sum |
| `Analytics.TotalIsSumOfMonths` | src/components/Analytics/AnalyticsDashboard.tsx:73 | the total card is the sum of the monthly counts, 0 for no months, and one more month adds exactly its count |
| `Analytics.MonthWithinSum` | src/components/Analytics/AnalyticsDashboard.tsx:73 | no single month exceeds the total |
| `Analytics.MockTotal` | src/components/Analytics/AnalyticsDashboard.tsx:28-36 | the built-in data totals 337 |
| `Analytics.MostCommonMedication` | src/components/Analytics/AnalyticsDashboard.tsx:74 | the card shows the first entry's name when there is one and it is not empty, and `N/A` otherwise; it is never empty |
| `Analytics.MostCommonIgnoresLaterEntries` | src/components/Analytics/AnalyticsDashboard.tsx:74 | entries after the first never change the card |
| `Analytics.MostCommonIsNotMaximum` | src/components/Analytics/AnalyticsDashboard.tsx:74 | on a list not sorted by count the card names an outnumbered medication |
| `Analytics.MockMostCommonIsMaximum` | src/components/Analytics/AnalyticsDashboard.tsx:37-43 | the built-in list is sorted by descending count, so there the first entry, Amoxicillin, is the maximum |
| `Analytics.VerifiedDoctorsCount` | src/components/Analytics/AnalyticsDashboard.tsx:75 | the count of the first verified entry, wherever it is in the list, and 0 when no entry is verified |
| `Analytics.VerifiedCountSkipsOthers` | src/components/Analytics/AnalyticsDashboard.tsx:75 | entries of other statuses placed before the verified ones do not change the count |
| `Analytics.VerifiedCountOfFirst` | src/components/Analytics/AnalyticsDashboard.tsx:75 | a verified entry at the head is the one counted, whatever follows |
| `Analytics.MockVerifiedCount` | src/components/Analytics/AnalyticsDashboard.tsx:44-48 | the built-in data counts 42 verified doctors |
| `Analytics.SliceColor` | src/components/Analytics/AnalyticsDashboard.tsx:170-171 | every slice colour comes from the five-colour palette |
| `Analytics.SliceColorsCycle` | src/components/Analytics/AnalyticsDashboard.tsx:51-171 | colours repeat every five slices, neighbouring slices differ, and the first five follow the palette order |
| `Analytics.FiveSlicesDistinct` | src/components/Analytics/AnalyticsDashboard.tsx:51-171 | no colour repeats among five consecutive slices |
| `Analytics.BarColor` | src/components/Analytics/AnalyticsDashboard.tsx:196-202 | green exactly for verified, amber exactly for pending, red exactly for the rest |
| `Analytics.BarColorsFromPalette` | src/components/Analytics/AnalyticsDashboard.tsx:51-202 | the bar colours are the palette's last three entries |
| `Strings.Lower` | src/components/Prescription/MedicationSearch.tsx:114-115 | lower-casing keeps the length, leaves no upper-case letter and keeps every other character |
| `Strings.LowerIdempotent` | src/components/Prescription/MedicationSearch.tsx:114-115 | lower-casing twice is lower-casing once |
| `Strings.LowerKeepsNonLetter` | src/components/Patient/PatientSearch.tsx:115 | a non-letter occurs in the lower-cased text exactly when it occurs in the text |
| `Strings.ContainsIffOccurs` | src/components/Patient/PatientSearch.tsx:115-116 | `includes` holds exactly when the needle occurs at some position |
| `Strings.ContainsNeedsEveryChar` | src/components/Patient/PatientSearch.tsx:115-116 | a needle with a character the text lacks is not included |
| `Strings.ContainsEmpty` | src/components/Prescription/MedicationSearch.tsx:114-115 | the empty needle is included in every text |
| `Strings.Trim` | src/components/Patient/PatientSearch.tsx:100 | the trimmed text is a slice of the text that neither starts nor ends with white space, and only white space was cut off |
| `Strings.TrimEmptyIffBlank` | src/components/Doctor/DoctorVerification.tsx:59 | trimming gives the empty text exactly when the text is all white space |
| `Strings.Split` | src/components/Doctor/DoctorVerification.tsx:196 | splitting gives at least one piece and no piece contains the separator |
| `Strings.JoinSplit` | src/components/Doctor/DoctorVerification.tsx:196 | joining the pieces with the separator gives the text back (round trip) |
| `Strings.SplitAfterPiece` | src/components/Doctor/DoctorVerification.tsx:196 | a separator-free piece followed by the separator splits off as the first piece |
| `Strings.NatToString` | src/components/Prescription/DosageCalculator.tsx:45-48 | a number's decimal text is non-empty, all digits, without a leading zero |
| `Strings.DigitsValueOfNatToString` | src/components/Prescription/DosageCalculator.tsx:45-48 | the decimal text reads back as the number (round trip) |
| `Seqs.Filter` | src/components/Prescription/MedicationSearch.tsx:112-116 | `filter` keeps only elements of the list that pass, and is never longer |
| `Seqs.FilterComplete` | src/components/Patient/PatientSearch.tsx:113-117 | `filter` keeps every element that passes |
| `Seqs.FilterIsSubsequence` | src/components/Patient/PatientSearch.tsx:113-117 | `filter` keeps the list order |
| `Seqs.FindFirst` | src/components/Analytics/AnalyticsDashboard.tsx:75 | `find` returns the first element that passes, or nothing when none does |

## Left out

- Rendering (JSX, layout, icons, styling) and notifications: only the
  choices that decide what is rendered are modelled, as values.
- Timers and `await`: a delayed handler is a start method and a finish
  method, and interleavings of several pending callbacks are not modelled.
- `Auth.AuthProvider.LoadUser`: only the mount effect's callback is
  modelled; before its delay the effect changes nothing, because the
  constructor already sets loading.
- `QRCode.QRCodeGenerator.Generate`: only the callback after the delay is
  modelled; before it the handler only calls the parent's `onGenerate`,
  which is `Prescribing.PrescriptionCreator.GenerateQR`.
- `Dosage.ParseFormatRange`: the round trip holds for unbounded naturals.
  JavaScript numbers are doubles, which lose precision above 2^53 and are
  written in exponent form from 1e21, so there the source's text would not
  read back.
- `Math.random()` and `new Date()`: the random id suffix, the random licence
  status and the clock strings are parameters.
- JSON serialisation, `encodeURIComponent`, the external QR image service,
  the download link and `window.print()`: the model stops at the payload
  record and the file name.
- The schema library's e-mail check: it is the `isEmail` parameter of
  `Signup.SchemaErrors`.
- String lengths: they are counted in characters, not UTF-16 code units.
- `toLowerCase` and `toUpperCase`: only ASCII letters change case.
- Numbers: weights, doses and counts are naturals, so fractional or negative
  inputs, `NaN`, and the number-to-text of non-integers are not modelled.
- Number formatting: percentage labels (`toFixed`) and date/time
  formatting of the audit timestamps are not modelled.
- `MedicationSearch.SearchIn`: it is stated over any list. No concrete
  search of the catalogue is evaluated, because evaluating the lower-casing
  of its literal names is beyond the verifier's budget.
- The picker's popover state, the CSV export toast of the analytics screen,
  and navigation after signup are UI effects without decisions.
- The login form, the pages, the layout and the patient records view are
  not part of this model.
