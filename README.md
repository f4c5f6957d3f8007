# Signup wizards and waitlist approval drawer, modelled in Dafny

This project models the decision logic of three pages of a healthcare appointment-booking
front end:

- **Patient signup** (`src/modules/Auth/pages/Signup.js`): a three-step wizard. The
  step index `activeStep` is changed by Continue (+1), Back (−1), a click on a progress dot
  (set to that index) and Finish. Finish runs the error-field router `handleErrorField`
  and then submits a 16-field multipart payload.
- **Doctor signup** (`src/modules/Auth/pages/DoctorSignup.js`): the same wizard with two
  dots and a 10-field payload. Its router is a verbatim copy of the patient router, applied
  to the doctor form's values.
- **Waitlist drawer** (`src/modules/Doctor/components/Waitlist/ViewWailtlist.js`): a
  two-phase approval. While `approve` is false the doctor decides; once it is true the
  doctor schedules. The drawer also has the schedule form's date rules, the decline and
  approve request bodies, and `convertToWAT`, the shift of an instant by one hour.
- **Failure notices**: every mutation's `onError` picks the text of the error notification.

Modules, one per component or page:

- `JsValues` (`js_values.dfy`): JavaScript `undefined` as `None`, and truthiness of
  `undefined`-or-string values.
- `Submission` (`submission.dfy`): the `onError` chains as pure functions returning a
  `Notice`. A notice is a text, the error object itself, or `Throws` when the handler raises
  a TypeError on an unguarded read. `FirstTruthy` is the reference meaning of a
  `a || b || … || fallback` chain.
- `Wizard` (`wizard.dfy`): the router, the click semantics `StepAfter`/`Run`, the payload
  and the `SignupWizard` class. The class holds `activeStep` and has one method per handler
  and per button.
- `Signup` and `DoctorSignup` (`signup.dfy`, `doctor_signup.dfy`): each page's
  configuration (dot count, payload keys) and the properties that are particular to it.
- `Waitlist` (`waitlist.dfy`): the date rules, the payloads, the view and the
  `ApprovalDrawer` class, which holds `approve`, the form values and the bound appointment.

Instants are integer milliseconds. The wall clock is the parameter `now`. Form values are
a `map<string, string>`, where a missing key reads as `undefined`. The router counts a field
as missing only when it is exactly `""`.

Where the pages' intended design and their code differ, the model follows the code:

- Neither success handler of the drawer resets `approve`. Only a change of
  `appointmentData` does, and that change leaves the form values alone.
- The doctor router never tests `specialty`. A blank phone number or address sends the
  doctor to step 2, which has no step component and no dot.
- The decline chain is not the approve chain: it puts the error object itself before
  `error.error`.
- Every `onError` handler reads some properties without a guard, and a TypeError there
  replaces the notification. A 400/500 rejection whose response has no body throws. Any
  other failure throws when it has no `response`, no body, or a body without an `errors`
  list. So a 401 whose body is `{message: "Unauthorized"}` never shows "Unauthorized".

## Model

| member | source | states |
|---|---|---|
| `Submission.FirstTruthy` | src/modules/Doctor/components/Waitlist/ViewWailtlist.js:204-208 | an `||` chain yields the fallback when no candidate is truthy, and otherwise the value of the first truthy candidate |
| `Submission.FailureNotice` | src/modules/Doctor/components/Waitlist/ViewWailtlist.js:188-213 | the approve/signup handler throws exactly when the body of a 400/500 rejection, or `errors` of any other failure, cannot be read; it never hands over the error object; any text it shows is non-empty |
| `Submission.DeclineFailureNotice` | src/modules/Doctor/components/Waitlist/ViewWailtlist.js:143-169 | the decline handler throws in exactly the same cases as the shared chain, and any text it shows is non-empty |
| `Submission.ServerRejectionShowsServerMessage` | src/modules/Doctor/components/Waitlist/ViewWailtlist.js:144-154 | a 400/500 rejection with a body shows the server message if it is truthy, else "Internal Server Error"; decline and approve agree on it |
| `Submission.UnclassifiedFollowsFallbackChain` | src/modules/Auth/pages/Signup.js:26-37 | any other failure shows the first truthy of `errors[0]`, `data.message`, `error.message` and `error.error`, else "An error occurred" |
| `Submission.DeclineDiffersOnlyAtErrorObject` | src/modules/Doctor/components/Waitlist/ViewWailtlist.js:158-164 | the decline notice differs from the approve notice exactly when an unclassified failure has no truthy `errors[0]`, server message or `error.message`; it then hands over the error object, so `error.error` and "An error occurred" are never reached |
| `Submission.NoResponseThrows` | src/modules/Auth/pages/DoctorSignup.js:20-38 | a failure without a response throws instead of notifying, in every handler |
| `Wizard.RouteErrorField` | src/modules/Auth/pages/Signup.js:75-108 | the router targets the first of the three field groups that has a field equal to `""`, and makes no redirect exactly when no group has one |
| `Wizard.SingleBlankRoutesToItsGroup` | src/modules/Auth/pages/Signup.js:79-103 | a record whose only `""` field belongs to group g is routed to step g |
| `Wizard.GroupsDisjoint` | src/modules/Auth/pages/Signup.js:79-101 | no field appears in two router groups |
| `Wizard.NoBlankNoRedirect` | src/modules/Auth/pages/Signup.js:79-106 | without any field equal to `""` the router does not redirect; a missing (`undefined`) field never triggers one |
| `Wizard.RouteIgnoresUngroupedField` | src/modules/Auth/pages/Signup.js:79-101 | the value of a field that no group lists never changes the router's target |
| `Wizard.ContinueLabel` | src/modules/Auth/pages/Signup.js:251 | the button reads "Continue" or "Finish", "Finish" exactly from the last dot's step on, so among the dotted steps only the last reads "Finish" (DoctorSignup.js:242 uses the same rule with two dots) |
| `Wizard.BackVisible` | src/modules/Auth/pages/Signup.js:195-219 | the back arrow shows on every non-negative step except step 0, and only where going back leaves a non-negative index (DoctorSignup.js:186 has the same guard) |
| `Wizard.StepAfter` | src/modules/Auth/pages/Signup.js:229-276 | one click: Continue before the last dot's step adds 1; Finish moves to the router's target, or stays when there is none; Back subtracts 1 exactly when the arrow is shown and otherwise changes nothing; a dot sets its own index, and an index with no dot changes nothing (DoctorSignup.js:220-227 has the same onClick) |
| `Wizard.Run` | src/modules/Auth/pages/Signup.js:229-276 | a sequence of clicks is applied one at a time: the result is the last click applied to the index the earlier clicks reach |
| `Wizard.StepAfterStaysInRange` | src/modules/Auth/pages/Signup.js:118-128 | one click (Continue/Finish, Back, dot) keeps the step index between 0 and the highest step (2 on both pages) |
| `Wizard.RunStaysInRange` | src/modules/Auth/pages/Signup.js:195-276 | any sequence of clicks keeps the step index in that range |
| `Wizard.DotClickIdempotent` | src/modules/Auth/pages/Signup.js:126-128 | a dot click sets the index to the dot's index, and a repeated click leaves it there |
| `Wizard.ContinueAdvancesOrRoutes` | src/modules/Auth/pages/Signup.js:229-236 | the label is "Continue" exactly before the last dot's step; there a click adds exactly 1; from there on it only applies the router |
| `Wizard.Payload` | src/modules/Auth/pages/Signup.js:44-65 | the payload has one entry per key, in order, each holding the form's value for that key |
| `Wizard.PayloadNames` | src/modules/Auth/pages/Signup.js:45-64 | a payload carries exactly its keys, carries distinct keys once each, and takes each value from the form |
| `Wizard.SignupReaction` | src/modules/Auth/pages/Signup.js:19-43 | success replaces the page with "/verify"; a failure yields the shared chain's notice, which is `Throws` (no notification at all) when the chain reads an unguarded property |
| `Wizard.SignupWizard.constructor` | src/modules/Auth/pages/Signup.js:73 | the wizard starts at step 0 |
| `Wizard.SignupWizard.HandleNext` | src/modules/Auth/pages/Signup.js:118-120 | `handleNext` adds 1 with no bound of its own |
| `Wizard.SignupWizard.HandleBack` | src/modules/Auth/pages/Signup.js:122-124 | `handleBack` subtracts 1 with no bound of its own |
| `Wizard.SignupWizard.HandleSlide` | src/modules/Auth/pages/Signup.js:126-128 | `handleSlide` sets the index |
| `Wizard.SignupWizard.HandleErrorField` | src/modules/Auth/pages/Signup.js:75-108 | the step becomes the router's target, or stays unchanged when there is none |
| `Wizard.SignupWizard.ContinueClicked` | src/modules/Auth/pages/Signup.js:229-236 | Continue moves as `StepAfter` says and keeps the index in range; it submits exactly when the label is "Finish" and the form schema accepts the values, and what it submits is the payload |
| `Wizard.SignupWizard.BackClicked` | src/modules/Auth/pages/Signup.js:195-219 | Back acts exactly when the arrow is rendered (step ≥ 1), so the index never becomes negative |
| `Wizard.SignupWizard.DotClicked` | src/modules/Auth/pages/Signup.js:261-276 | a dot sets the index to its own index, which stays in range |
| `Signup.PatientPayloadCarriesRecordFields` | src/modules/Auth/pages/Signup.js:44-66 | the patient payload has 16 entries: each field the page watches, once, with its form value |
| `Signup.ErrorGroupsCoverPatientRecord` | src/modules/Auth/pages/Signup.js:70-103 | the router's three groups together list exactly the fields the page watches |
| `Signup.PatientStepStaysRendered` | src/modules/Auth/pages/Signup.js:221-223 | on the patient page the index always stays 0, 1 or 2, a step with a component |
| `Signup.PatientContinueLabel` | src/modules/Auth/pages/Signup.js:251 | the patient button reads "Continue" exactly on steps 0 and 1 |
| `Signup.FirstFailingGroupWins` | src/modules/Auth/pages/Signup.js:79-103 | blanks in both the first and the third group route to step 0 |
| `Signup.EmailTakenShownVerbatim` | src/modules/Auth/pages/Signup.js:21-25 | a 400 rejection with message "Email taken" shows exactly "Email taken" |
| `DoctorSignup.DoctorPayloadCarriesRecordFields` | src/modules/Auth/pages/DoctorSignup.js:47-60 | the doctor payload has 10 entries: profilePicture, lastName, firstName, email, specialty, password, phoneNumber, address, gender and confirmPassword, once each, with their form values |
| `DoctorSignup.SpecialtyNeverRouted` | src/modules/Auth/pages/DoctorSignup.js:73-106 | `specialty` is a doctor field that no router group tests, so it never changes the router's target |
| `DoctorSignup.BlankSpecialtyStaysOnStep` | src/modules/Auth/pages/DoctorSignup.js:220-227 | Finish on step 1 with only `specialty` blank does not redirect |
| `DoctorSignup.RouterReachesStepWithoutComponent` | src/modules/Auth/pages/DoctorSignup.js:94-101 | a blank phone number sends Finish to step 2, an index beyond the last dot; there the label is still "Finish" and Back leads to step 1 |
| `DoctorSignup.DoctorStepStaysInRange` | src/modules/Auth/pages/DoctorSignup.js:109-119 | under any clicks the doctor step index stays within 0..2 |
| `DoctorSignup.DoctorContinueLabel` | src/modules/Auth/pages/DoctorSignup.js:242 | the doctor button reads "Continue" exactly on step 0 |
| `Waitlist.ConvertToWAT` | src/modules/Doctor/components/Waitlist/ViewWailtlist.js:63-70 | the result is exactly 60 × 60000 = 3,600,000 ms after the input |
| `Waitlist.ConvertToWATPreservesOrder` | src/modules/Doctor/components/Waitlist/ViewWailtlist.js:63-70 | the shift preserves order, in both directions, and the distance between two instants |
| `Waitlist.StartDateError` | src/modules/Doctor/components/Waitlist/ViewWailtlist.js:90-107 | a missing start fails only the required rule; a present one passes exactly when it is strictly after `now`, so a start equal to `now` fails |
| `Waitlist.EndDateError` | src/modules/Doctor/components/Waitlist/ViewWailtlist.js:108-126 | a missing end fails the required rule; a present end fails the comparison exactly when the start is present and later than the end, and passes exactly when the start is missing or not after it, so an end equal to the start passes |
| `Waitlist.Validate` | src/modules/Doctor/components/Waitlist/ViewWailtlist.js:89-127 | the schedule form passes exactly when both dates are present and now < start ≤ end |
| `Waitlist.PassingScheduleIsFutureRange` | src/modules/Doctor/components/Waitlist/ViewWailtlist.js:108-126 | a passing form also ends after `now`; with end equal to start the form passes exactly when the start is in the future |
| `Waitlist.DeclinePayload` | src/modules/Doctor/components/Waitlist/ViewWailtlist.js:178-183 | the decline body is just the appointment's id |
| `Waitlist.ApprovePayload` | src/modules/Doctor/components/Waitlist/ViewWailtlist.js:223-232 | the approve body holds the appointment id and the doctor id, and both instants shifted by exactly one hour |
| `Waitlist.ApprovedRangeIsOrdered` | src/modules/Doctor/components/Waitlist/ViewWailtlist.js:223-232 | the body built from a passing form starts after the shifted `now`, does not end before it starts, and keeps the chosen duration |
| `Waitlist.Render` | src/modules/Doctor/components/Waitlist/ViewWailtlist.js:357-479 | decline is visible exactly when `approve` is false; the schedule section is visible exactly when it is true; the primary label is "Schedule" exactly when it is true, else "Approve" |
| `Waitlist.ApprovalDrawer.constructor` | src/modules/Doctor/components/Waitlist/ViewWailtlist.js:77 | the drawer starts in the decide phase with an empty form |
| `Waitlist.ApprovalDrawer.AppointmentChanged` | src/modules/Doctor/components/Waitlist/ViewWailtlist.js:234-236 | a different appointment resets `approve` to false and leaves the form as it is |
| `Waitlist.ApprovalDrawer.StartPicked` | src/modules/Doctor/components/Waitlist/ViewWailtlist.js:79-82 | picking a start sets only the form's start, and only in the schedule phase: its picker sits in the section hidden while deciding (line 357) |
| `Waitlist.ApprovalDrawer.EndPicked` | src/modules/Doctor/components/Waitlist/ViewWailtlist.js:83-87 | picking an end sets only the form's end, and only in the schedule phase: its picker sits in the section hidden while deciding (line 357) |
| `Waitlist.ApprovalDrawer.PrimaryClicked` | src/modules/Doctor/components/Waitlist/ViewWailtlist.js:467-471 | in the decide phase the click only sets `approve` and submits nothing; in the schedule phase it submits the approve body exactly when the form passes, and otherwise reports the errors |
| `Waitlist.ApprovalDrawer.DeclineClicked` | src/modules/Doctor/components/Waitlist/ViewWailtlist.js:448-462 | decline sends `{appointmentId}` exactly while its button is visible, that is while deciding |
| `Waitlist.ApprovalDrawer.SubmissionSucceeded` | src/modules/Doctor/components/Waitlist/ViewWailtlist.js:171-175 | success resets the form, asks to close the drawer and shows the server's message, leaving `approve` unchanged |

## Left out

- Rendering, MUI styling, the Drawer and Timeline layout, and `window.scrollTo`: these are presentation only.
- The react-hook-form and yup machinery (`trigger`, `handleSubmit`, `watch` snapshots, date casting): the date rules are modelled as functions over an explicit form record.
- The signup pages' validation schema lives in `SignupContext`, which is not part of this model. Whether `handleSubmit` calls `onSubmit` is the parameter `schemaAccepts`.
- `handleErrorField` is async and not awaited before `handleSubmit`. The model applies the router and then the submission within one click; it does not model their interleaving.
- The react-query lifecycle, the `isLoading` gate on the buttons, and anything after unmount: these are about asynchrony and in-flight requests.
- HTTP calls, the `FormData` encoding of `undefined`, and binary profile pictures: they are I/O and library code. A payload entry carries `Option<string>`, and `profilePicture` is a string.
- `getDecodedJwt`, `navigate` and `showNotification` are foreign calls. The doctor id is a parameter; navigation and notifications are returned as values.
- `new Date(...)` parsing, invalid dates, and the `toISOString` formatting in `convertToWAT`: instants are integer milliseconds and `now` is a parameter.
- `console.log` in the error handlers, and the drawer's close icon and backdrop: the parent owns `onClose`.
- Server `errors` entries that are not strings: the model's `errors` list holds strings.
- Waitlist.ApprovalDrawer.AppointmentChanged: compares appointments by value, while the effect fires on any new `appointmentData` object (a reference comparison). A fresh object with equal contents resets `approve` in the page but not in the model.
