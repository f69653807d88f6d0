/** Whole runs of the wizard, each driven through the same methods the
    dialog's events call, with the outcome each run must have. */
module Scenarios {
  import opened Options
  import opened Text
  import opened Catalog
  import opened Pricing
  import opened Durations
  import opened ContactDetails
  import opened Schedule
  import opened Steps
  import opened Submission
  import opened BookingModal

  lemma TenOClockOffered()
    ensures IsTimeOption("10:00")
  {
    assert TimeOptions[3] == "10:00";
  }

  /** One service booked in the salon costs its price. */
  lemma SingleServiceTotal(svc: Service)
    ensures Total([svc], InSalon) == svc.price
  {
    assert [svc][..0] == [];
    assert Sum([svc], Price) == Sum([], Price) + svc.price;
  }

  /** Two services of $40 / 30 minutes and $60 / 45 minutes booked at home:
      subtotal $100, travel fee $25, total $125, 75 minutes shown as "1h 15m". */
  method TwoServicesAtHome(a: Service, b: Service)
    returns (subtotal: nat, fee: nat, total: nat, minutes: nat, shown: string)
    requires a.price == 40 && a.duration == 30 && b.price == 60 && b.duration == 45
    ensures subtotal == 100 && fee == 25 && total == 125
    ensures minutes == 75 && shown == "1h 15m"
  {
    var s := [a, b];
    assert s[..1] == [a] && [a][..0] == [];
    SelectingAddsItsAmounts([], a);
    assert [] + [a] == [a];
    assert Sum([a], Price) == 40 && Sum([a], Duration) == 30;
    assert Sum(s, Price) == 100 && Sum(s, Duration) == 75;
    subtotal := Subtotal(s);
    fee := TravelFee(AtHome);
    total := Total(s, AtHome);
    minutes := TotalDuration(s);
    FormatDurationExamples();
    shown := FormatDuration(minutes);
  }

  /** One service, valid details, a weekday in the future at ten o'clock;
      the backend answers with order number ORD-1234. The wizard ends on
      the confirmation step showing that number and the service's price. */
  method SingleServiceBooking(svc: Service, name: string, email: string, phone: string,
                              day: Day, now: Instant)
    returns (step: Step, order: string, total: nat, sent: seq<BookingRecord>)
    requires ContactValid(name, email, phone) && !DateDisabled(day, now)
    ensures step == Confirmation && order == "ORD-1234" && total == svc.price
    ensures |sent| == 1 && sent[0].serviceId == svc.id && sent[0].bookingDate == day
    ensures sent[0].bookingTime == "10:00" && sent[0].customerName == name
  {
    var w := new BookingWizard(None, false);
    w.ToggleService(svc);
    assert w.draft.services == [svc];
    w.PressContinue();
    assert w.step == Personal;
    w.EditContact(name, email, phone);
    w.PressContinue();
    assert w.step == DateTime;
    w.SelectDate(Some(day), now);
    TenOClockOffered();
    w.ChooseTime("10:00");
    ghost var d := EmptyDraft.(services := [svc], name := name, email := email, phone := phone,
                               date := Some(day), time := "10:00");
    assert w.draft == d;
    assert ContinueEnabled(DateTime, d) by {
      assert DateTimeValid(d.date, d.time);
    }
    w.PressContinue();
    assert w.step == Review;
    var started := w.PressConfirm();
    assert started && w.submitting == Some(d);
    var outcome := BackendOutcome(None, Inserted("ORD-1234"), false);
    assert Succeeds(d, outcome);
    sent := w.FinishConfirmBooking(outcome);
    assert w.draft == d;
    step, order, total := w.step, w.orderNumber, w.TotalAmount();
    assert |sent| == 1 && sent[0] == RecordFor(d, svc, PrimaryNotes(d.notes), None);
    assert total == Total([svc], InSalon);
    SingleServiceTotal(svc);
  }

  /** With the time left on the placeholder the date-time step's Continue
      does nothing; even reaching the review step through the unguarded
      handleNext, the confirm handler refuses before any request is made. */
  method EmptyTimeRejected(svc: Service, name: string, email: string, phone: string,
                           day: Day, now: Instant)
    returns (afterContinue: Step, started: bool, loading: bool)
    requires ContactValid(name, email, phone) && !DateDisabled(day, now)
    ensures afterContinue == DateTime && !started && !loading
  {
    var w := new BookingWizard(Some(svc), true);
    assert w.step == Personal;
    w.EditContact(name, email, phone);
    assert ContinueEnabled(Personal, w.draft);
    w.PressContinue();
    assert w.step == DateTime;
    w.SelectDate(Some(day), now);
    assert w.draft.time == "";
    assert !ContinueEnabled(DateTime, w.draft);
    w.PressContinue();
    afterContinue := w.step;
    w.Next();
    assert w.step == Review && !w.loading && !ConfirmGuard(w.draft);
    started := w.PressConfirm();
    loading := w.loading;
  }

  /** Filling in the details and then closing the dialog empties every
      field and returns to the first step. */
  method CloseAfterPartialInput(svc: Service) returns (step: Step, d: Draft)
    ensures step == Services && d == EmptyDraft
    ensures d.services == [] && d.name == "" && d.location == InSalon && d.date.None?
  {
    var w := new BookingWizard(Some(svc), true);
    w.EditContact("Ada", "ada@example.com", "555-0100");
    w.ChooseLocation(AtHome);
    w.Reset();
    step, d := w.step, w.draft;
  }
}
