/** The patient signup page: three steps, three progress dots, a 16-field multipart payload. */
module Signup {
  import opened JsValues
  import opened Submission
  import opened Wizard

  /** Progress dots rendered by the page; Finish is shown from the last one (step 2) on. */
  const PatientDots: nat := 3

  /** The keys `onSubmit` appends, in the order it appends them. */
  const PatientPayloadKeys: seq<string> := [
    "profilePicture", "lastName", "firstName", "email", "dateOfBirth", "relationshipStatus",
    "emergencyContactName", "emergencyContactNumber", "emergencyContactAddress", "password",
    "phoneNumber", "address", "gender", "existingMedicalConditions", "confirmPassword", "allergies"
  ]

  lemma PayloadKeysAreWatched()
    ensures forall i | 0 <= i < |PatientPayloadKeys| :: PatientPayloadKeys[i] in WatchedFields
  {
  }

  lemma WatchedArePayloadKeys()
    ensures forall i | 0 <= i < |WatchedFields| :: WatchedFields[i] in PatientPayloadKeys
  {
  }

  lemma PayloadKeysDistinct()
    ensures forall i, j | 0 <= i < j < |PatientPayloadKeys| :: PatientPayloadKeys[i] != PatientPayloadKeys[j]
  {
  }

  /**
   * The payload holds each of the 16 record fields exactly once, with the value the form
   * holds for it.
   */
  lemma PatientPayloadCarriesRecordFields(values: FormValues)
    ensures |Payload(PatientPayloadKeys, values)| == 16
    ensures Names(Payload(PatientPayloadKeys, values)) == Elems(WatchedFields)
    ensures NamesDistinct(Payload(PatientPayloadKeys, values))
    ensures forall e | e in Payload(PatientPayloadKeys, values) :: e.value == Get(values, e.name)
  {
    PayloadKeysAreWatched();
    WatchedArePayloadKeys();
    PayloadKeysDistinct();
    SameElems(PatientPayloadKeys, WatchedFields);
    PayloadNames(PatientPayloadKeys, values);
  }

  lemma GroupedAreWatched()
    ensures forall i | 0 <= i < |PersonalFields + ProfileFields + ContactFields| ::
              (PersonalFields + ProfileFields + ContactFields)[i] in WatchedFields
  {
  }

  lemma WatchedAreGrouped()
    ensures forall i | 0 <= i < |WatchedFields| :: WatchedFields[i] in PersonalFields + ProfileFields + ContactFields
  {
  }

  /** The three router groups together list exactly the fields of the patient record. */
  lemma ErrorGroupsCoverPatientRecord()
    ensures Elems(ErrorGroups[0] + ErrorGroups[1] + ErrorGroups[2]) == Elems(WatchedFields)
  {
    GroupedAreWatched();
    WatchedAreGrouped();
    SameElems(PersonalFields + ProfileFields + ContactFields, WatchedFields);
  }

  /** Under any clicks the patient step index stays a step the page renders: 0, 1 or 2. */
  lemma PatientStepStaysRendered(step: int, clicks: seq<Click>)
    requires 0 <= step < PatientDots
    ensures 0 <= Run(PatientDots, step, clicks) < PatientDots
  {
    RunStaysInRange(PatientDots, step, clicks);
  }

  /** The button reads "Continue" exactly on steps 0 and 1. */
  lemma PatientContinueLabel(step: int)
    ensures ContinueLabel(PatientDots, step) == "Continue" <==> step < 2
  {
  }

  /** First failing group wins: blanks in the first and the third group route to step 0. */
  lemma FirstFailingGroupWins(values: FormValues, first: string, third: string)
    requires first in PersonalFields && third in ContactFields
    requires IsBlank(values, first) && IsBlank(values, third)
    ensures RouteErrorField(values) == Some(0)
  {
    var i :| 0 <= i < |PersonalFields| && PersonalFields[i] == first;
    assert ErrorGroups[0][i] == first;
  }

  /** A 400 rejection whose body says "Email taken" is shown as exactly that text. */
  lemma EmailTakenShownVerbatim()
    ensures SignupReaction(Failed(SubmitError(Some(Response(400, Some(ResponseData(Some("Email taken"), None)))), None, None)))
            == Notify(Text("Email taken"))
  {
  }

  /** A session on the patient page: advance to the last step, go back, jump ahead, then Finish with a blank email. */
  method PatientSession(values: FormValues)
    requires Get(values, "email") == Some("")
  {
    var w := new SignupWizard(PatientDots, PatientPayloadKeys);
    var none := w.ContinueClicked(values, false);
    assert w.activeStep == 1;
    none := w.ContinueClicked(values, false);
    assert w.activeStep == 2;
    var back := w.BackClicked();
    assert back && w.activeStep == 1;
    w.DotClicked(2);
    assert RouteErrorField(values) == Some(0);
    // A schema that requires every field rejects the blank email, so nothing is sent.
    var sent := w.ContinueClicked(values, false);
    assert w.activeStep == 0 && sent.None?;
  }
}
