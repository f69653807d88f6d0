/** The booking dialog: the component that owns the wizard's state and is
    the only place it changes. Each method is one event the dialog reacts
    to; the backend's answers to a submission are an argument of the event
    that delivers them. */
module BookingModal {
  import opened Options
  import opened Catalog
  import opened Steps
  import opened Submission
  import opened Selection
  import opened Pricing
  import opened ContactDetails
  import opened Schedule

  /** The backend's answer to the primary insert. */
  datatype Inserted = Inserted(orderNumber: string) | InsertFailed

  /** Everything the backend decides during one submission: the signed-in
      user (if any), the primary insert, and the batch insert of the
      secondary rows (only consulted when there are some). */
  datatype BackendOutcome = BackendOutcome(user: Option<string>, primary: Inserted, batchOk: bool)

  /** Whether the Continue button of a step is there and enabled: the
      services step shows it for a non-empty selection, the personal and
      date-time steps enable it for valid input; review and confirmation
      have no Continue button. */
  function ContinueEnabled(step: Step, d: Draft): (enabled: bool)
    ensures enabled ==> Position(NextStep(step)) == Position(step) + 1
  {
    match step
    case Services => ContinueOffered(d.services)
    case Personal => !PersonalContinueDisabled(d.name, d.email, d.phone)
    case DateTime => !DateTimeContinueDisabled(d.date, d.time)
    case _ => false
  }

  /** Whether a Back button is there and enabled: always on the personal and
      date-time steps, on review unless a submission is in flight. */
  function BackEnabled(step: Step, loading: bool): (enabled: bool)
    ensures enabled ==> Position(BackStep(step)) + 1 == Position(step)
    ensures step == Personal || step == DateTime ==> enabled
    ensures step == Services || step == Confirmation ==> !enabled
  {
    match step
    case Personal => true
    case DateTime => true
    case Review => !ReviewBackDisabled(loading)
    case _ => false
  }

  /** The split between handleNext and the step buttons: Continue is usable
      exactly when the step's own check passes, Back is never disabled on
      the personal and date-time steps and is disabled on review exactly
      while a submission is in flight. */
  lemma StepButtonGating(d: Draft, loading: bool)
    ensures ContinueEnabled(Services, d) <==> d.services != []
    ensures ContinueEnabled(Personal, d) <==> ContactValid(d.name, d.email, d.phone)
    ensures ContinueEnabled(DateTime, d) <==> DateTimeValid(d.date, d.time)
    ensures !ContinueEnabled(Review, d) && !ContinueEnabled(Confirmation, d)
    ensures BackEnabled(Personal, loading) && BackEnabled(DateTime, loading)
    ensures BackEnabled(Review, loading) <==> !loading
  {
  }

  /** A submission reaches the confirmation step when the primary insert
      succeeds and, if there are secondary rows, so does their batch. */
  predicate Succeeds(d: Draft, outcome: BackendOutcome) {
    outcome.primary.Inserted? && (|d.services| <= 1 || outcome.batchOk)
  }

  /** The rows one submission sends: the primary row, then, once the
      primary insert has succeeded and only if there are any, the
      secondary rows as one batch. */
  function SentRecords(d: Draft, outcome: BackendOutcome): (rs: seq<BookingRecord>)
    requires ConfirmGuard(d)
    ensures |rs| >= 1 && rs[0] == PrimaryRecord(d, outcome.user)
    ensures outcome.primary.InsertFailed? ==> |rs| == 1
    ensures outcome.primary.Inserted? ==> |rs| == |d.services|
  {
    match outcome.primary
    case InsertFailed => [PrimaryRecord(d, outcome.user)]
    case Inserted(number) =>
      if |d.services| > 1
      then [PrimaryRecord(d, outcome.user)] + SecondaryRecords(d, outcome.user, number)
      else [PrimaryRecord(d, outcome.user)]
  }

  /** After a successful primary insert the rows sent are exactly the
      submission's rows, whatever the number of services. */
  lemma SentRecordsOnInsert(d: Draft, outcome: BackendOutcome)
    requires ConfirmGuard(d) && outcome.primary.Inserted?
    ensures SentRecords(d, outcome) == SubmittedRecords(d, outcome.user, outcome.primary.orderNumber)
  {
    if |d.services| <= 1 {
      assert SecondaryRecords(d, outcome.user, outcome.primary.orderNumber) == [];
    }
  }

  /** What a step needs before the next one can be reached through the
      step buttons. */
  ghost predicate GatesHold(step: Step, d: Draft) {
    && (step == Personal || step == DateTime || step == Review ==> ContinueOffered(d.services))
    && (step == DateTime || step == Review ==> ContactValid(d.name, d.email, d.phone))
    && (step == Review ==> DateTimeValid(d.date, d.time))
  }

  /** With the gates held, the review step always passes the confirm
      handler's own check. */
  lemma ReviewGatesImplyConfirmGuard(d: Draft)
    requires GatesHold(Review, d)
    ensures ConfirmGuard(d)
  {
    ContactValidPassesConfirmGuard(d.name, d.email, d.phone);
  }

  /** What the form fields can hold: a time offered by the select, no
      service twice, and no Sunday. */
  predicate DraftInvariant(d: Draft) {
    && IsTimeOption(d.time)
    && UniqueIds(d.services)
    && (d.date.Some? ==> Weekday(d.date.value) != 0)
  }

  class BookingWizard {
    var step: Step
    var draft: Draft
    var loading: bool
    var orderNumber: string
    /** The draft the confirm handler captured when it started, while its
        backend calls are outstanding. */
    var submitting: Option<Draft>

    ghost predicate Valid()
      reads this
    {
      && DraftInvariant(draft)
      && (loading <==> submitting.Some?)
      && (submitting.Some? ==> ConfirmGuard(submitting.value))
    }

    /** What the buttons have let the visitor reach: see GatesHold. */
    ghost predicate StepGatesHeld()
      reads this
    {
      GatesHold(step, draft)
    }

    /** The once-only initialiser run when the dialog is first rendered: a
        preselected service starts the wizard on the personal step. */
    constructor (service: Option<Service>, isOpen: bool)
      ensures Valid() && StepGatesHeld()
      ensures isOpen && service.Some? ==>
        step == Personal && draft == EmptyDraft.(services := [service.value])
      ensures !(isOpen && service.Some?) ==> step == Services && draft == EmptyDraft
      ensures !loading && orderNumber == "" && submitting.None?
    {
      if isOpen && service.Some? {
        step := Personal;
        draft := EmptyDraft.(services := [service.value]);
      } else {
        step := Services;
        draft := EmptyDraft;
      }
      loading := false;
      orderNumber := "";
      submitting := None;
    }

    /** getTotalAmount, the total passed to the confirmation screen; it
        agrees with the review step's total for the same draft. */
    function TotalAmount(): (amount: nat)
      reads this
      ensures amount == Total(draft.services, draft.location)
      ensures draft.services == [] ==> amount == TravelFee(draft.location)
    {
      Sum(draft.services, Price) + (if draft.location == AtHome then 25 else 0)
    }

    /** resetForm, run when the dialog is closed: every form field and the
        order number go back to their initial values. The in-flight flag is
        not touched. */
    method Reset()
      requires Valid()
      modifies this
      ensures Valid() && StepGatesHeld()
      ensures step == Services && draft == EmptyDraft && orderNumber == ""
      ensures loading == old(loading) && submitting == old(submitting)
    {
      step := Services;
      draft := EmptyDraft;
      orderNumber := "";
    }

    /** handleNext: moves forward without looking at the draft. */
    method Next()
      requires Valid()
      modifies this
      ensures Valid()
      ensures step == NextStep(old(step))
      ensures draft == old(draft) && loading == old(loading)
      ensures orderNumber == old(orderNumber) && submitting == old(submitting)
    {
      match step
      case Services => step := Personal;
      case Personal => step := DateTime;
      case DateTime => step := Review;
      case _ =>
    }

    /** handleBack: moves back without touching the draft. */
    method Back()
      requires Valid()
      modifies this
      ensures Valid()
      ensures step == BackStep(old(step))
      ensures draft == old(draft) && loading == old(loading)
      ensures orderNumber == old(orderNumber) && submitting == old(submitting)
      ensures old(StepGatesHeld()) ==> StepGatesHeld()
    {
      match step
      case Personal => step := Services;
      case DateTime => step := Personal;
      case Review => step := DateTime;
      case _ =>
    }

    /** A press of the current step's Continue button: handleNext runs only
        when the step offers the button and enables it. */
    method PressContinue()
      requires Valid()
      modifies this
      ensures Valid()
      ensures step == if ContinueEnabled(old(step), old(draft)) then NextStep(old(step)) else old(step)
      ensures step == Confirmation ==> old(step) == Confirmation
      ensures draft == old(draft) && loading == old(loading)
      ensures orderNumber == old(orderNumber) && submitting == old(submitting)
      ensures old(StepGatesHeld()) ==> StepGatesHeld()
    {
      if ContinueEnabled(step, draft) {
        Next();
      }
    }

    /** A press of the current step's Back button, if it has an enabled one. */
    method PressBack()
      requires Valid()
      modifies this
      ensures Valid()
      ensures step == if BackEnabled(old(step), old(loading)) then BackStep(old(step)) else old(step)
      ensures old(step) == Review && old(loading) ==> step == Review
      ensures draft == old(draft) && loading == old(loading)
      ensures orderNumber == old(orderNumber) && submitting == old(submitting)
      ensures old(StepGatesHeld()) ==> StepGatesHeld()
    {
      if BackEnabled(step, loading) {
        Back();
      }
    }

    /** toggleService, reachable only while the services step is shown. */
    method ToggleService(svc: Service)
      requires Valid() && step == Services
      modifies this`draft
      ensures Valid() && StepGatesHeld()
      ensures draft == old(draft).(services := Toggle(old(draft.services), svc))
      ensures step == old(step) && loading == old(loading)
      ensures orderNumber == old(orderNumber) && submitting == old(submitting)
    {
      ToggleKeepsUnique(draft.services, svc);
      draft := draft.(services := Toggle(draft.services, svc));
    }

    /** removeService, reachable only while the services step is shown. */
    method RemoveService(id: ServiceId)
      requires Valid() && step == Services
      modifies this`draft
      ensures Valid() && StepGatesHeld()
      ensures draft == old(draft).(services := RemoveId(old(draft.services), id))
      ensures step == old(step) && loading == old(loading)
      ensures orderNumber == old(orderNumber) && submitting == old(submitting)
    {
      RemoveIdKeepsUnique(draft.services, id);
      draft := draft.(services := RemoveId(draft.services, id));
    }

    /** The three contact inputs of the personal step. */
    method EditContact(name: string, email: string, phone: string)
      requires Valid() && step == Personal
      modifies this`draft
      ensures Valid()
      ensures old(StepGatesHeld()) ==> StepGatesHeld()
      ensures draft == old(draft).(name := name, email := email, phone := phone)
      ensures step == old(step) && loading == old(loading)
      ensures orderNumber == old(orderNumber) && submitting == old(submitting)
    {
      draft := draft.(name := name, email := email, phone := phone);
    }

    /** The location radio group of the personal step. */
    method ChooseLocation(loc: Location)
      requires Valid() && step == Personal
      modifies this`draft
      ensures Valid()
      ensures old(StepGatesHeld()) ==> StepGatesHeld()
      ensures draft == old(draft).(location := loc)
      ensures step == old(step) && loading == old(loading)
      ensures orderNumber == old(orderNumber) && submitting == old(submitting)
    {
      draft := draft.(location := loc);
    }

    /** The calendar of the date-time step. It hands over only days it does
        not disable at the moment `now` of the click, or clears the date. */
    method SelectDate(date: Option<Day>, ghost now: Instant)
      requires Valid() && step == DateTime
      requires date.Some? ==> !DateDisabled(date.value, now)
      modifies this`draft
      ensures Valid()
      ensures old(StepGatesHeld()) ==> StepGatesHeld()
      ensures draft == old(draft).(date := date)
      ensures step == old(step) && loading == old(loading)
      ensures orderNumber == old(orderNumber) && submitting == old(submitting)
    {
      draft := draft.(date := date);
    }

    /** The time select of the date-time step: the placeholder or a slot. */
    method ChooseTime(time: string)
      requires Valid() && step == DateTime
      requires IsTimeOption(time)
      modifies this`draft
      ensures Valid()
      ensures old(StepGatesHeld()) ==> StepGatesHeld()
      ensures draft == old(draft).(time := time)
      ensures step == old(step) && loading == old(loading)
      ensures orderNumber == old(orderNumber) && submitting == old(submitting)
    {
      draft := draft.(time := time);
    }

    /** The notes box of the date-time step. */
    method EditNotes(notes: string)
      requires Valid() && step == DateTime
      modifies this`draft
      ensures Valid()
      ensures old(StepGatesHeld()) ==> StepGatesHeld()
      ensures draft == old(draft).(notes := notes)
      ensures step == old(step) && loading == old(loading)
      ensures orderNumber == old(orderNumber) && submitting == old(submitting)
    {
      draft := draft.(notes := notes);
    }

    /** handleConfirmBooking up to its first backend call: an incomplete
        draft is refused with nothing changed; otherwise the in-flight flag
        is raised and the draft is captured for the calls that follow. The
        handler is only reachable through the Confirm button, which is
        disabled while a submission is in flight. */
    method BeginConfirmBooking() returns (started: bool)
      requires Valid() && !loading
      modifies this
      ensures Valid()
      ensures started <==> ConfirmGuard(old(draft))
      ensures started ==> loading && submitting == Some(old(draft))
      ensures !started ==> !loading && submitting == old(submitting)
      ensures step == old(step) && draft == old(draft) && orderNumber == old(orderNumber)
    {
      started := |draft.services| > 0 && draft.date.Some? && draft.time != ""
        && draft.name != "" && draft.email != "" && draft.phone != "";
      if started {
        loading := true;
        submitting := Some(draft);
      }
    }

    /** A press of the review step's Confirm button. When the visitor got
        here through the step buttons, the handler's check always passes. */
    method PressConfirm() returns (started: bool)
      requires Valid() && step == Review
      modifies this
      ensures Valid()
      ensures old(loading) ==> !started && loading && submitting == old(submitting)
      ensures !old(loading) ==> (started <==> ConfirmGuard(old(draft)))
      ensures !old(loading) && old(StepGatesHeld()) ==> started
      ensures started ==> loading && submitting == Some(old(draft))
      ensures !started ==> loading == old(loading) && submitting == old(submitting)
      ensures step == old(step) && draft == old(draft) && orderNumber == old(orderNumber)
      ensures old(StepGatesHeld()) ==> StepGatesHeld()
    {
      if ConfirmDisabled(loading) {
        started := false;
      } else {
        if StepGatesHeld() {
          ReviewGatesImplyConfirmGuard(draft);
        }
        started := BeginConfirmBooking();
      }
    }

    /** The rest of handleConfirmBooking, once the backend has answered.
        The rows are built from the captured draft. A failed primary insert
        stops before the batch; a failed batch is reported like any failure
        although the primary row already exists. Only full success moves to
        the confirmation step and records the order number. The in-flight
        flag is lowered in every case. Returns the rows sent to the backend. */
    method FinishConfirmBooking(outcome: BackendOutcome) returns (sent: seq<BookingRecord>)
      requires Valid() && loading
      modifies this
      ensures Valid() && !loading && submitting.None?
      ensures draft == old(draft)
      ensures old(StepGatesHeld()) ==> StepGatesHeld()
      ensures sent == SentRecords(old(submitting).value, outcome)
      ensures Succeeds(old(submitting).value, outcome) ==>
        step == Confirmation && orderNumber == outcome.primary.orderNumber
      ensures !Succeeds(old(submitting).value, outcome) ==>
        step == old(step) && orderNumber == old(orderNumber)
    {
      var d := submitting.value;
      ghost var gatesHeld := StepGatesHeld();
      sent := SentRecords(d, outcome);
      if Succeeds(d, outcome) {
        orderNumber := outcome.primary.orderNumber;
        step := Confirmation;
      }
      loading := false;
      submitting := None;
      assert gatesHeld ==> GatesHold(step, draft);
    }
  }
}
