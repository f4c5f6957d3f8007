/**
 * The doctor's waitlist drawer: a two-phase approval (`approve` false: decide; true:
 * schedule), the schedule form's date rules, the decline and approve request bodies, and
 * the shift of the chosen instants to West Africa Time. Instants are integer milliseconds
 * since the epoch; the wall clock `new Date()` is the parameter `now`.
 */
module Waitlist {
  import opened JsValues

  /** West Africa Time is UTC+01:00: the offset in minutes. */
  const WatOffsetMinutes: int := 60
  const MillisPerMinute: int := 60000

  /** `convertToWAT`: the instant `WatOffsetMinutes` after `t`. */
  function ConvertToWAT(t: int): (r: int)
    ensures r - t == 3600000
  {
    t + WatOffsetMinutes * MillisPerMinute
  }

  /** The shift keeps the order of two instants and the distance between them. */
  lemma ConvertToWATPreservesOrder(a: int, b: int)
    ensures a <= b <==> ConvertToWAT(a) <= ConvertToWAT(b)
    ensures a < b <==> ConvertToWAT(a) < ConvertToWAT(b)
    ensures ConvertToWAT(b) - ConvertToWAT(a) == b - a
  {
  }

  /** The schedule form's values; `None` is a date that was never picked (or was reset). */
  datatype ScheduleForm = ScheduleForm(startDateTime: Option<int>, endDateTime: Option<int>)

  const EmptyForm := ScheduleForm(None, None)

  const StartRequired := "Start date And Time Is Required"
  const StartNotInFuture := "Start date and time should be in the future"
  const EndRequired := "End date And Time Is Required"
  const EndBeforeStart := "End date and time should not be less than start date and time"

  /**
   * The `startDateTime` rule: required, then strictly after `now`. The future test passes
   * on a missing value, so a missing start fails only the required rule.
   */
  function StartDateError(form: ScheduleForm, now: int): (error: Option<string>)
    ensures error == Some(StartRequired) <==> form.startDateTime.None?
    ensures error == Some(StartNotInFuture) <==> form.startDateTime.Some? && form.startDateTime.value <= now
    ensures error.None? <==> form.startDateTime.Some? && form.startDateTime.value > now
  {
    match form.startDateTime
    case None => Some(StartRequired)
    case Some(start) => if start > now then None else Some(StartNotInFuture)
  }

  /**
   * The `endDateTime` rule: required, then not before the start. The comparison passes
   * when either value is missing, so a missing start never fails the end rule.
   */
  function EndDateError(form: ScheduleForm): (error: Option<string>)
    ensures error == Some(EndRequired) <==> form.endDateTime.None?
    ensures error == Some(EndBeforeStart) <==>
              form.startDateTime.Some? && form.endDateTime.Some? && form.endDateTime.value < form.startDateTime.value
    ensures form.startDateTime.None? ==> error != Some(EndBeforeStart)
    ensures error.None? <==>
              form.endDateTime.Some? &&
              (form.startDateTime.None? || form.startDateTime.value <= form.endDateTime.value)
  {
    match form.endDateTime
    case None => Some(EndRequired)
    case Some(end) =>
      if form.startDateTime.None? then None
      else if end >= form.startDateTime.value then None
      else Some(EndBeforeStart)
  }

  /** The message shown under each picker, `None` when its rules pass. */
  datatype ScheduleErrors = ScheduleErrors(startDateTime: Option<string>, endDateTime: Option<string>)

  predicate Passes(errors: ScheduleErrors) {
    errors.startDateTime.None? && errors.endDateTime.None?
  }

  /** The form's schema, evaluated at the instant `now`. */
  function Validate(form: ScheduleForm, now: int): (errors: ScheduleErrors)
    ensures Passes(errors) <==>
              form.startDateTime.Some? && form.endDateTime.Some? &&
              now < form.startDateTime.value <= form.endDateTime.value
  {
    ScheduleErrors(StartDateError(form, now), EndDateError(form))
  }

  /** A form that passes ends in the future too, and an end equal to the start passes. */
  lemma PassingScheduleIsFutureRange(form: ScheduleForm, now: int)
    ensures Passes(Validate(form, now)) ==> now < form.endDateTime.value
    ensures form.startDateTime.Some? && form.startDateTime == form.endDateTime ==>
              (Passes(Validate(form, now)) <==> now < form.startDateTime.value)
  {
  }

  /** `props.appointmentData`: the waitlist entry the drawer shows. */
  datatype Appointment = Appointment(id: string, additionalInformation: Option<string>)

  /** The decline request body. */
  datatype DeclineRequest = DeclineRequest(appointmentId: string)

  /** The approve request body: the chosen instants shifted to West Africa Time. */
  datatype ApproveRequest = ApproveRequest(appointmentId: string, startDateTime: int, endDateTime: int, doctorId: string)

  /** `onSubmitDecline`'s payload. */
  function DeclinePayload(appointment: Appointment): (r: DeclineRequest)
    ensures r.appointmentId == appointment.id
  {
    DeclineRequest(appointment.id)
  }

  /** `onSubmitApprove`'s payload, built from the values the schema has accepted. */
  function ApprovePayload(appointment: Appointment, form: ScheduleForm, doctorId: string): (r: ApproveRequest)
    requires form.startDateTime.Some? && form.endDateTime.Some?
    ensures r.appointmentId == appointment.id && r.doctorId == doctorId
    ensures r.startDateTime - form.startDateTime.value == 3600000
    ensures r.endDateTime - form.endDateTime.value == 3600000
  {
    ApproveRequest(appointment.id, ConvertToWAT(form.startDateTime.value), ConvertToWAT(form.endDateTime.value), doctorId)
  }

  /** An approve request built from a passing form is a range after `now`, both shifted alike. */
  lemma ApprovedRangeIsOrdered(appointment: Appointment, form: ScheduleForm, doctorId: string, now: int)
    requires Passes(Validate(form, now))
    ensures ConvertToWAT(now) < ApprovePayload(appointment, form, doctorId).startDateTime
    ensures ApprovePayload(appointment, form, doctorId).startDateTime <= ApprovePayload(appointment, form, doctorId).endDateTime
    ensures ApprovePayload(appointment, form, doctorId).endDateTime - ApprovePayload(appointment, form, doctorId).startDateTime
            == form.endDateTime.value - form.startDateTime.value
  {
    ConvertToWATPreservesOrder(now, form.startDateTime.value);
    ConvertToWATPreservesOrder(form.startDateTime.value, form.endDateTime.value);
  }

  /** What the drawer renders from the phase flag. */
  datatype DrawerView = DrawerView(declineVisible: bool, scheduleVisible: bool, primaryLabel: string)

  /** The decline button and the schedule section trade places; the primary label follows. */
  function Render(approve: bool): (view: DrawerView)
    ensures view.declineVisible <==> !approve
    ensures view.scheduleVisible <==> approve
    ensures view.declineVisible != view.scheduleVisible
    ensures view.primaryLabel == "Schedule" <==> approve
    ensures view.primaryLabel == "Approve" <==> !approve
  {
    DrawerView(!approve, approve, if approve then "Schedule" else "Approve")
  }

  /** What a click on the primary button did. */
  datatype PrimaryOutcome = EnteredSchedule | Rejected(errors: ScheduleErrors) | Submitted(request: ApproveRequest)

  /** The drawer component's state for one mounted instance. */
  class ApprovalDrawer {
    /** `props.appointmentData`. */
    var appointment: Appointment
    /** The phase flag: false to decide, true to schedule. */
    var approve: bool
    /** The react-hook-form values of the schedule section. */
    var form: ScheduleForm

    /** Mounting: `useState(false)` and an empty form. */
    constructor (appointment: Appointment)
      ensures this.appointment == appointment && !approve && form == EmptyForm
    {
      this.appointment := appointment;
      approve := false;
      form := EmptyForm;
    }

    /** The parent passes another entry: the effect on `appointmentData` resets the phase only. */
    method AppointmentChanged(next: Appointment)
      modifies this
      ensures appointment == next && form == old(form)
      ensures approve == (if next == old(appointment) then old(approve) else false)
    {
      if next != appointment {
        approve := false;
      }
      appointment := next;
    }

    /**
     * `handleStartDateTimeChange`: `setValue("startDateTime", ...)`. The picker sits in the schedule
     * section, hidden while deciding, so a pick lands only in the schedule phase.
     */
    method StartPicked(t: int)
      modifies this
      ensures form == if old(approve) then old(form).(startDateTime := Some(t)) else old(form)
      ensures appointment == old(appointment) && approve == old(approve)
    {
      if approve {
        form := form.(startDateTime := Some(t));
      }
    }

    /**
     * `handleEndDateTimeChange`: `setValue("endDateTime", ...)`. The picker sits in the schedule
     * section, hidden while deciding, so a pick lands only in the schedule phase.
     */
    method EndPicked(t: int)
      modifies this
      ensures form == if old(approve) then old(form).(endDateTime := Some(t)) else old(form)
      ensures appointment == old(appointment) && approve == old(approve)
    {
      if approve {
        form := form.(endDateTime := Some(t));
      }
    }

    /**
     * The primary button. In the decide phase it only enters the schedule phase and submits
     * nothing; in the schedule phase `handleSubmit` validates the form at `now` and builds
     * the approve request only when both rules pass.
     */
    method PrimaryClicked(now: int, doctorId: string) returns (outcome: PrimaryOutcome)
      modifies this
      ensures approve && appointment == old(appointment) && form == old(form)
      ensures !old(approve) ==> outcome == EnteredSchedule
      ensures old(approve) && Passes(Validate(form, now)) ==>
                outcome == Submitted(ApprovePayload(appointment, form, doctorId))
      ensures old(approve) && !Passes(Validate(form, now)) ==> outcome == Rejected(Validate(form, now))
    {
      if approve {
        var errors := Validate(form, now);
        if Passes(errors) {
          outcome := Submitted(ApprovePayload(appointment, form, doctorId));
        } else {
          outcome := Rejected(errors);
        }
      } else {
        approve := true;
        outcome := EnteredSchedule;
      }
    }

    /** The decline button: a hidden button cannot be clicked, so it sends only while deciding. */
    method DeclineClicked() returns (request: Option<DeclineRequest>)
      ensures request.Some? <==> Render(approve).declineVisible
      ensures request.Some? ==> request.value == DeclinePayload(appointment)
    {
      request := if approve then None else Some(DeclinePayload(appointment));
    }

    /**
     * Either mutation's `onSuccess`: reset the form, ask the parent to close the drawer and
     * show the server's message. The phase flag is left as it was.
     */
    method SubmissionSucceeded(serverMessage: Option<string>) returns (closeRequested: bool, notification: Option<string>)
      modifies this
      ensures form == EmptyForm && approve == old(approve) && appointment == old(appointment)
      ensures closeRequested && notification == serverMessage
    {
      form := EmptyForm;
      closeRequested := true;
      notification := serverMessage;
    }
  }

  /** Rebinding the drawer from entry A, mid-schedule, to entry B puts it back in the decide phase. */
  method RebindResetsPhase(a: Appointment, b: Appointment, now: int)
    requires a != b
  {
    var drawer := new ApprovalDrawer(a);
    var entered := drawer.PrimaryClicked(now, "doctor");
    assert entered == EnteredSchedule && drawer.approve;
    drawer.AppointmentChanged(b);
    assert !drawer.approve && Render(drawer.approve).primaryLabel == "Approve";
    var declined := drawer.DeclineClicked();
    assert declined == Some(DeclineRequest(b.id));
  }

  /** Scheduling a range that starts an hour from now and lasts half an hour. */
  method ScheduleOneHourAhead(appointment: Appointment, now: int, doctorId: string)
  {
    var drawer := new ApprovalDrawer(appointment);
    var outcome := drawer.PrimaryClicked(now, doctorId);
    outcome := drawer.PrimaryClicked(now, doctorId);
    assert outcome == Rejected(ScheduleErrors(Some(StartRequired), Some(EndRequired)));
    drawer.StartPicked(now + 3600000);
    drawer.EndPicked(now + 5400000);
    outcome := drawer.PrimaryClicked(now, doctorId);
    assert outcome == Submitted(ApproveRequest(appointment.id, now + 7200000, now + 9000000, doctorId));
    var close, message := drawer.SubmissionSucceeded(None);
    assert close && drawer.form == EmptyForm && drawer.approve;
  }
}
