/** The draft a wizard session accumulates, the check the confirm handler
    applies to it, and the booking rows built from it: one primary row for
    the first service and one secondary row per further service. */
module Submission {
  import opened Options
  import opened Text
  import opened Catalog
  import opened Schedule

  /** The wizard's form fields. */
  datatype Draft = Draft(
    services: seq<Service>,
    name: string,
    email: string,
    phone: string,
    location: Location,
    date: Option<Day>,
    time: string,
    notes: string)

  /** Every field at its initial value. */
  const EmptyDraft: Draft := Draft([], "", "", "", InSalon, None, "", "")

  /** The handler's own check: a service is selected, a date is set and the
      time and the three contact fields are not the empty string. The contact
      fields are NOT trimmed here. */
  function ConfirmGuard(d: Draft): (ok: bool)
    ensures ok ==> d.services != [] && DateTimeValid(d.date, d.time)
  {
    |d.services| > 0 && d.date.Some? && d.time != ""
    && d.name != "" && d.email != "" && d.phone != ""
  }

  /** A row of the bookings table as the wizard inserts it. */
  datatype BookingRecord = BookingRecord(
    serviceId: ServiceId,
    customerName: string,
    customerEmail: string,
    customerPhone: string,
    bookingDate: Day,
    bookingTime: string,
    serviceLocation: Location,
    notes: Option<string>,
    userId: Option<string>)

  /** `user?.id || null`: absent for anonymous visitors (and for an empty id). */
  function UserIdColumn(user: Option<string>): (r: Option<string>)
    ensures r.Some? ==> user == r && r.value != ""
    ensures user.None? ==> r.None?
    ensures user.Some? && user.value != "" ==> r == user
  {
    if user.Some? && user.value != "" then user else None
  }

  /** `notes.trim() || null` */
  function PrimaryNotes(notes: string): (r: Option<string>)
    ensures r.None? <==> !HasVisibleChar(notes)
    ensures r.Some? ==> r.value == Trim(notes)
  {
    TrimEmptyIff(notes);
    if Trim(notes) == "" then None else Some(Trim(notes))
  }

  /** The note carried by every secondary row. */
  function SecondaryNotes(orderNumber: string): string {
    "Additional service for booking " + orderNumber
  }

  function RecordFor(d: Draft, svc: Service, notes: Option<string>, user: Option<string>): BookingRecord
    requires d.date.Some?
  {
    BookingRecord(svc.id, d.name, d.email, d.phone, d.date.value, d.time, d.location,
                  notes, UserIdColumn(user))
  }

  /** The row inserted first, for the first selected service. */
  function PrimaryRecord(d: Draft, user: Option<string>): (r: BookingRecord)
    requires ConfirmGuard(d)
    ensures r.serviceId == d.services[0].id
    ensures r.customerName == d.name && r.customerEmail == d.email && r.customerPhone == d.phone
    ensures r.bookingDate == d.date.value && r.bookingTime == d.time
    ensures r.serviceLocation == d.location && r.userId == UserIdColumn(user)
    ensures r.notes.None? <==> !HasVisibleChar(d.notes)
    ensures r.notes.Some? ==> r.notes.value == Trim(d.notes)
  {
    RecordFor(d, d.services[0], PrimaryNotes(d.notes), user)
  }

  /** `selectedServices.slice(1).map(...)`: one row per further service,
      each pointing at the primary row's order number. */
  function SecondaryRecords(d: Draft, user: Option<string>, orderNumber: string): (rs: seq<BookingRecord>)
    requires ConfirmGuard(d)
    ensures |rs| == |d.services| - 1
    ensures forall j :: 0 <= j < |rs| ==>
      && rs[j].serviceId == d.services[j + 1].id
      && rs[j].notes == Some(SecondaryNotes(orderNumber))
      && SharesDraftDetails(rs[j], d, user)
  {
    seq(|d.services| - 1, i requires 0 <= i < |d.services| - 1 =>
      RecordFor(d, d.services[i + 1], Some(SecondaryNotes(orderNumber)), user))
  }

  /** Everything one successful submission writes, primary row first. */
  function SubmittedRecords(d: Draft, user: Option<string>, orderNumber: string): (rs: seq<BookingRecord>)
    requires ConfirmGuard(d)
    ensures |rs| == |d.services| && rs[0] == PrimaryRecord(d, user)
    ensures forall i :: 1 <= i < |rs| ==>
      rs[i].serviceId == d.services[i].id && rs[i].notes == Some(SecondaryNotes(orderNumber))
  {
    var rest := SecondaryRecords(d, user, orderNumber);
    FollowOnRows(PrimaryRecord(d, user), rest, d.services, SecondaryNotes(orderNumber));
    [PrimaryRecord(d, user)] + rest
  }

  /** Rows shifted one place behind the primary row keep their service
      and note. */
  lemma FollowOnRows(p: BookingRecord, rest: seq<BookingRecord>, services: seq<Service>, note: string)
    requires |rest| + 1 == |services|
    requires forall j :: 0 <= j < |rest| ==>
      rest[j].serviceId == services[j + 1].id && rest[j].notes == Some(note)
    ensures forall i :: 1 <= i < |[p] + rest| ==>
      ([p] + rest)[i].serviceId == services[i].id && ([p] + rest)[i].notes == Some(note)
  {
    forall i | 1 <= i < |[p] + rest|
      ensures ([p] + rest)[i].serviceId == services[i].id && ([p] + rest)[i].notes == Some(note)
    {
      assert ([p] + rest)[i] == rest[i - 1];
    }
  }

  /** The columns every row of one submission copies from the draft. */
  predicate SharesDraftDetails(r: BookingRecord, d: Draft, user: Option<string>)
    requires d.date.Some?
  {
    && r.customerName == d.name && r.customerEmail == d.email && r.customerPhone == d.phone
    && r.bookingDate == d.date.value && r.bookingTime == d.time
    && r.serviceLocation == d.location && r.userId == UserIdColumn(user)
  }

  /** Row i of a submission is the row for selected service i. */
  lemma SubmittedRecordAt(d: Draft, user: Option<string>, orderNumber: string, i: nat)
    requires ConfirmGuard(d) && i < |d.services|
    ensures |SubmittedRecords(d, user, orderNumber)| == |d.services|
    ensures SubmittedRecords(d, user, orderNumber)[i] ==
      RecordFor(d, d.services[i],
                if i == 0 then PrimaryNotes(d.notes) else Some(SecondaryNotes(orderNumber)), user)
  {
    var p := PrimaryRecord(d, user);
    var rest := SecondaryRecords(d, user, orderNumber);
    assert SubmittedRecords(d, user, orderNumber) == [p] + rest;
    if i > 0 {
      assert ([p] + rest)[i] == rest[i - 1];
    }
  }

  /** One row per selected service, in selection order; all rows share the
      customer, date, time, location and user; the primary row carries the
      trimmed notes and every other row the reference to the primary order. */
  lemma SubmittedRecordsMatchSelection(d: Draft, user: Option<string>, orderNumber: string)
    requires ConfirmGuard(d)
    ensures |SubmittedRecords(d, user, orderNumber)| == |d.services|
    ensures forall i :: 0 <= i < |d.services| ==>
      SubmittedRecords(d, user, orderNumber)[i].serviceId == d.services[i].id
      && SharesDraftDetails(SubmittedRecords(d, user, orderNumber)[i], d, user)
    ensures SubmittedRecords(d, user, orderNumber)[0].notes == PrimaryNotes(d.notes)
    ensures forall i :: 1 <= i < |d.services| ==>
      SubmittedRecords(d, user, orderNumber)[i].notes == Some(SecondaryNotes(orderNumber))
  {
    forall i | 0 <= i < |d.services|
      ensures SubmittedRecords(d, user, orderNumber)[i] ==
        RecordFor(d, d.services[i],
                  if i == 0 then PrimaryNotes(d.notes) else Some(SecondaryNotes(orderNumber)), user)
    {
      SubmittedRecordAt(d, user, orderNumber, i);
    }
  }

  /** An anonymous visitor's rows carry no user id. */
  lemma AnonymousRowsHaveNoUser(d: Draft, orderNumber: string)
    requires ConfirmGuard(d)
    ensures forall r :: r in SubmittedRecords(d, None, orderNumber) ==> r.userId.None?
  {
    SubmittedRecordsMatchSelection(d, None, orderNumber);
  }

  /** A single-service draft produces just the primary row. */
  lemma SingleServiceHasNoSecondaryRows(d: Draft, user: Option<string>, orderNumber: string)
    requires ConfirmGuard(d) && |d.services| == 1
    ensures SubmittedRecords(d, user, orderNumber) == [PrimaryRecord(d, user)]
  {
  }
}
