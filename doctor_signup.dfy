/**
 * The doctor signup page: two steps, two progress dots, a 10-field multipart payload. Its
 * error router is the patient page's, applied to the doctor form's values.
 */
module DoctorSignup {
  import opened JsValues
  import opened Wizard

  /** Progress dots rendered by the page; Finish is shown from the last one (step 1) on. */
  const DoctorDots: nat := 2

  /** The keys `onSubmit` appends, in the order it appends them. */
  const DoctorPayloadKeys: seq<string> := [
    "profilePicture", "lastName", "firstName", "email", "specialty",
    "password", "phoneNumber", "address", "gender", "confirmPassword"
  ]

  /** The fields of the doctor signup record. */
  const DoctorRecordFields: seq<string> := [
    "profilePicture", "lastName", "firstName", "email", "specialty",
    "password", "confirmPassword", "phoneNumber", "address", "gender"
  ]

  lemma PayloadKeysAreRecordFields()
    ensures forall i | 0 <= i < |DoctorPayloadKeys| :: DoctorPayloadKeys[i] in DoctorRecordFields
  {
  }

  lemma RecordFieldsArePayloadKeys()
    ensures forall i | 0 <= i < |DoctorRecordFields| :: DoctorRecordFields[i] in DoctorPayloadKeys
  {
  }

  lemma PayloadKeysDistinct()
    ensures forall i, j | 0 <= i < j < |DoctorPayloadKeys| :: DoctorPayloadKeys[i] != DoctorPayloadKeys[j]
  {
  }

  /**
   * The payload holds each of the 10 doctor record fields exactly once, with the value the
   * form holds for it.
   */
  lemma DoctorPayloadCarriesRecordFields(values: FormValues)
    ensures |Payload(DoctorPayloadKeys, values)| == 10
    ensures Names(Payload(DoctorPayloadKeys, values)) == Elems(DoctorRecordFields)
    ensures NamesDistinct(Payload(DoctorPayloadKeys, values))
    ensures forall e | e in Payload(DoctorPayloadKeys, values) :: e.value == Get(values, e.name)
  {
    PayloadKeysAreRecordFields();
    RecordFieldsArePayloadKeys();
    PayloadKeysDistinct();
    SameElems(DoctorPayloadKeys, DoctorRecordFields);
    PayloadNames(DoctorPayloadKeys, values);
  }

  /**
   * `specialty` is a doctor field that no router group lists, so its value never changes
   * where the router sends the doctor, even when it is blank.
   */
  lemma SpecialtyNeverRouted(values: FormValues, specialty: string)
    ensures "specialty" in DoctorRecordFields
    ensures forall g | 0 <= g < |ErrorGroups| :: "specialty" !in ErrorGroups[g]
    ensures RouteErrorField(values["specialty" := specialty]) == RouteErrorField(values)
  {
    assert "specialty" !in ErrorGroups[0] && "specialty" !in ErrorGroups[1] && "specialty" !in ErrorGroups[2];
    RouteIgnoresUngroupedField(values, "specialty", specialty);
  }

  /**
   * Finish on step 1 with every doctor field filled except a blank `specialty` does not
   * redirect: the page stays on step 1.
   */
  lemma BlankSpecialtyStaysOnStep(values: FormValues)
    requires forall name | name in values && name != "specialty" :: values[name] != ""
    ensures StepAfter(DoctorDots, 1, ContinueClick(values["specialty" := ""])) == 1
  {
    NoBlankNoRedirect(values - {"specialty"});
    SpecialtyNeverRouted(values - {"specialty"}, "");
    assert (values - {"specialty"})["specialty" := ""] == values["specialty" := ""];
  }

  /**
   * The router can set step 2 on the doctor page, an index with no step component and no
   * dot: a blank phone number, every other field filled, sends Finish there. On step 2 the
   * button still reads "Finish" and Back leads to step 1.
   */
  lemma RouterReachesStepWithoutComponent(values: FormValues)
    requires IsBlank(values, "phoneNumber")
    requires forall name | name in values && name != "phoneNumber" :: values[name] != ""
    ensures Run(DoctorDots, 0, [DotClick(1), ContinueClick(values)]) == 2
    ensures 2 >= DoctorDots && ContinueLabel(DoctorDots, 2) == "Finish" && BackVisible(2)
    ensures StepAfter(DoctorDots, 2, BackClick) == 1
  {
    assert "phoneNumber" == ErrorGroups[2][3];
    SingleBlankRoutesToItsGroup(values, 2, "phoneNumber");
    var clicks := [DotClick(1), ContinueClick(values)];
    assert clicks[1..] == [ContinueClick(values)] && clicks[1..][1..] == [];
    assert StepAfter(DoctorDots, 0, clicks[0]) == 1;
    assert StepAfter(DoctorDots, 1, clicks[1..][0]) == 2;
    calc {
      Run(DoctorDots, 0, clicks);
      Run(DoctorDots, 1, clicks[1..]);
      Run(DoctorDots, 2, []);
    }
  }

  /** Under any clicks the doctor step index stays within 0..2, one more than its last dot. */
  lemma DoctorStepStaysInRange(step: int, clicks: seq<Click>)
    requires 0 <= step <= 2
    ensures 0 <= Run(DoctorDots, step, clicks) <= 2
  {
    RunStaysInRange(DoctorDots, step, clicks);
  }

  /** The button reads "Continue" exactly on step 0. */
  lemma DoctorContinueLabel(step: int)
    ensures ContinueLabel(DoctorDots, step) == "Continue" <==> step < 1
  {
  }

  /** A session on the doctor page: continue to step 1, then Finish with only the phone number blank. */
  method DoctorSession(values: FormValues)
    requires IsBlank(values, "phoneNumber")
    requires forall name | name in values && name != "phoneNumber" :: values[name] != ""
  {
    var w := new SignupWizard(DoctorDots, DoctorPayloadKeys);
    var none := w.ContinueClicked(values, false);
    assert w.activeStep == 1;
    assert "phoneNumber" == ErrorGroups[2][3];
    SingleBlankRoutesToItsGroup(values, 2, "phoneNumber");
    // A schema that requires every field rejects the blank phone number, so nothing is sent.
    var sent := w.ContinueClicked(values, false);
    assert w.activeStep == 2 && sent.None?;
    var back := w.BackClicked();
    assert back && w.activeStep == 1;
  }
}
