/** The administrators' dashboard: the booking list as fetched, the five
    figures computed from it, the status actions each row offers, and the
    colour and the cells a row is shown with. */
module AdminDashboard {
  import opened Options
  import opened Durations

  type BookingId = string

  /** The status strings the dashboard knows. A row may carry any other
      string; it is then shown in gray and offers no action. */
  const Pending: string := "pending"
  const Confirmed: string := "confirmed"
  const Completed: string := "completed"
  const Cancelled: string := "cancelled"

  predicate KnownStatus(status: string) {
    status == Pending || status == Confirmed || status == Completed || status == Cancelled
  }

  /** The joined `services` columns of a row; absent when the join found
      no service. */
  datatype ServiceSummary = ServiceSummary(name: string, price: nat, duration: nat)

  /** A row of the bookings listing. */
  datatype AdminBooking = AdminBooking(
    id: BookingId,
    customerName: string,
    customerEmail: string,
    customerPhone: string,
    bookingDate: string,
    bookingTime: string,
    status: string,
    notes: Option<string>,
    createdAt: string,
    service: Option<ServiceSummary>)

  // ---------------------------------------------------------------------
  // Cells of the table

  /** `services?.price || 0`: the price, or 0 without a service. */
  function PriceCell(service: Option<ServiceSummary>): (p: nat)
    ensures service.None? ==> p == 0
    ensures service.Some? ==> p == service.value.price
  {
    if service.Some? then service.value.price else 0
  }

  /** `services?.duration ? formatDuration(duration) : '-'`: a dash when
      there is no service or its duration is 0, otherwise a duration that
      reads back as the service's minutes. */
  function DurationCell(service: Option<ServiceSummary>): (r: string)
    ensures r == "-" <==> service.None? || service.value.duration == 0
    ensures r != "-" ==> ParseDuration(r) == Some(service.value.duration)
  {
    if service.Some? && service.value.duration != 0 then
      ParseFormatRoundTrip(service.value.duration);
      FormatDuration(service.value.duration)
    else "-"
  }

  // ---------------------------------------------------------------------
  // The five figures

  /** `rows.filter(b => b.status === status)`, keeping listing order. */
  function Filter(rows: seq<AdminBooking>, status: string): (r: seq<AdminBooking>)
    ensures |r| <= |rows|
    ensures forall x :: x in r ==> x in rows && x.status == status
    ensures forall x :: x in rows && x.status == status ==> x in r
  {
    if rows == [] then []
    else
      var last := rows[|rows| - 1];
      Filter(rows[..|rows| - 1], status) + (if last.status == status then [last] else [])
  }

  /** Some row carries exactly that status string. */
  predicate HasStatus(rows: seq<AdminBooking>, status: string) {
    exists x :: x in rows && x.status == status
  }

  /** The number of rows carrying exactly that status string. */
  function Count(rows: seq<AdminBooking>, status: string): (n: nat)
    ensures n <= |rows|
    ensures n > 0 <==> HasStatus(rows, status)
  {
    var f := Filter(rows, status);
    assert f != [] ==> f[0] in f;
    |f|
  }

  /** `rows.reduce((sum, b) => sum + (b.services?.price || 0), 0)` */
  function PriceTotal(rows: seq<AdminBooking>): nat {
    if rows == [] then 0
    else PriceTotal(rows[..|rows| - 1]) + PriceCell(rows[|rows| - 1].service)
  }

  /** Revenue: the prices of the completed bookings. */
  function Revenue(rows: seq<AdminBooking>): (r: nat)
    ensures r <= PriceTotal(rows)
    ensures !HasStatus(rows, Completed) ==> r == 0
  {
    FilterPriceTotalBound(rows, Completed);
    PriceTotal(Filter(rows, Completed))
  }

  datatype Stats = Stats(total: nat, pending: nat, confirmed: nat, completed: nat, revenue: nat)

  const NoStats: Stats := Stats(0, 0, 0, 0, 0)

  /** The figures computed after every successful fetch. */
  function ComputeStats(rows: seq<AdminBooking>): (st: Stats)
    ensures st.total == |rows|
    ensures st.pending + st.confirmed + st.completed <= st.total
    ensures st.revenue <= PriceTotal(rows)
    ensures st.completed == 0 ==> st.revenue == 0
    ensures rows == [] ==> st == NoStats
  {
    CountsWithinTotal(rows);
    FilterPriceTotalBound(rows, Completed);
    Stats(|rows|, Count(rows, Pending), Count(rows, Confirmed), Count(rows, Completed), Revenue(rows))
  }

  lemma {:induction false} FilterAppend(a: seq<AdminBooking>, b: seq<AdminBooking>, status: string)
    ensures Filter(a + b, status) == Filter(a, status) + Filter(b, status)
    decreases |b|
  {
    if b == [] {
      assert a + b == a;
    } else {
      var init, last := b[..|b| - 1], b[|b| - 1];
      var tail := if last.status == status then [last] else [];
      assert (a + b)[..|a + b| - 1] == a + init;
      assert (a + b)[|a + b| - 1] == last;
      assert Filter(a + b, status) == Filter(a + init, status) + tail;
      FilterAppend(a, init, status);
      assert Filter(b, status) == Filter(init, status) + tail;
    }
  }

  lemma {:induction false} PriceTotalAppend(a: seq<AdminBooking>, b: seq<AdminBooking>)
    ensures PriceTotal(a + b) == PriceTotal(a) + PriceTotal(b)
    decreases |b|
  {
    if b == [] {
      assert a + b == a;
    } else {
      assert (a + b)[..|a + b| - 1] == a + b[..|b| - 1];
      assert (a + b)[|a + b| - 1] == b[|b| - 1];
      PriceTotalAppend(a, b[..|b| - 1]);
    }
  }

  /** The pending, confirmed and completed counts never add up to more
      than the number of rows. */
  lemma {:induction false} CountsWithinTotal(rows: seq<AdminBooking>)
    ensures Count(rows, Pending) + Count(rows, Confirmed) + Count(rows, Completed) <= |rows|
    decreases |rows|
  {
    if rows != [] {
      CountsWithinTotal(rows[..|rows| - 1]);
    }
  }

  /** The prices of the rows with one status are part of the prices of
      all rows. */
  lemma {:induction false} FilterPriceTotalBound(rows: seq<AdminBooking>, status: string)
    ensures PriceTotal(Filter(rows, status)) <= PriceTotal(rows)
    decreases |rows|
  {
    if rows != [] {
      var init, last := rows[..|rows| - 1], rows[|rows| - 1];
      FilterPriceTotalBound(init, status);
      assert PriceTotal(rows) == PriceTotal(init) + PriceCell(last.service);
      if last.status == status {
        var f := Filter(init, status) + [last];
        assert Filter(rows, status) == f;
        assert f[..|f| - 1] == Filter(init, status);
      } else {
        var f := Filter(init, status);
        assert f + [] == f;
        assert Filter(rows, status) == f;
      }
    }
  }

  /** Contribution of one row to the count of a status. */
  function Indicator(b: bool): nat {
    if b then 1 else 0
  }

  /** Filtering around one row: the rows before it, the row itself when it
      matches, the rows after it. */
  lemma FilterAround(a: seq<AdminBooking>, x: AdminBooking, b: seq<AdminBooking>, status: string)
    ensures Filter(a + [x] + b, status)
      == Filter(a, status) + (if x.status == status then [x] else []) + Filter(b, status)
  {
    FilterAppend(a + [x], b, status);
    FilterAppend(a, [x], status);
    assert [x][..0] == [];
  }

  /** The prices around one row. */
  lemma PriceTotalAround(a: seq<AdminBooking>, t: seq<AdminBooking>, b: seq<AdminBooking>)
    ensures PriceTotal(a + t + b) == PriceTotal(a) + PriceTotal(t) + PriceTotal(b)
  {
    PriceTotalAppend(a + t, b);
    PriceTotalAppend(a, t);
  }

  /** Changing the status of row i moves it from the count of its old
      status to the count of its new one. */
  lemma CountShift(rows: seq<AdminBooking>, i: nat, status: string, s: string)
    requires i < |rows|
    ensures Count(rows[i := rows[i].(status := status)], s) + Indicator(rows[i].status == s)
         == Count(rows, s) + Indicator(status == s)
  {
    var after := rows[i := rows[i].(status := status)];
    var a, x, y, b := rows[..i], rows[i], after[i], rows[i + 1..];
    assert rows == a + [x] + b;
    assert after == a + [y] + b;
    FilterAround(a, x, b, s);
    FilterAround(a, y, b, s);
  }

  /** Changing the status of row i moves its price into or out of the
      revenue as the row becomes or stops being completed. */
  lemma RevenueShift(rows: seq<AdminBooking>, i: nat, status: string)
    requires i < |rows|
    ensures Revenue(rows[i := rows[i].(status := status)])
            + (if rows[i].status == Completed then PriceCell(rows[i].service) else 0)
         == Revenue(rows) + (if status == Completed then PriceCell(rows[i].service) else 0)
  {
    var after := rows[i := rows[i].(status := status)];
    var a, x, y, b := rows[..i], rows[i], after[i], rows[i + 1..];
    assert rows == a + [x] + b;
    assert after == a + [y] + b;
    FilterAround(a, x, b, Completed);
    FilterAround(a, y, b, Completed);
    var fa, fb := Filter(a, Completed), Filter(b, Completed);
    var tx := if x.status == Completed then [x] else [];
    var ty := if y.status == Completed then [y] else [];
    PriceTotalAround(fa, tx, fb);
    PriceTotalAround(fa, ty, fb);
    assert [x][..0] == [] && [y][..0] == [];
    assert PriceTotal([x]) == PriceCell(x.service);
    assert PriceTotal([y]) == PriceCell(y.service);
  }

  /** Changing the status of row i moves it between the counts and moves
      its price into or out of the revenue; nothing else changes. */
  lemma StatusChangeShiftsStats(rows: seq<AdminBooking>, i: nat, status: string)
    requires i < |rows|
    ensures var after := rows[i := rows[i].(status := status)];
      && |after| == |rows|
      && (forall s :: Count(after, s) + Indicator(rows[i].status == s)
                      == Count(rows, s) + Indicator(status == s))
      && Revenue(after) + (if rows[i].status == Completed then PriceCell(rows[i].service) else 0)
         == Revenue(rows) + (if status == Completed then PriceCell(rows[i].service) else 0)
  {
    forall s ensures Count(rows[i := rows[i].(status := status)], s) + Indicator(rows[i].status == s)
                  == Count(rows, s) + Indicator(status == s) {
      CountShift(rows, i, status, s);
    }
    RevenueShift(rows, i, status);
  }

  // ---------------------------------------------------------------------
  // Status actions

  /** The three buttons of the Actions column. */
  datatype Action = Confirm | Complete | Cancel

  /** The buttons a row shows, in rendering order. */
  function OfferedActions(status: string): (acts: seq<Action>)
    ensures Confirm in acts <==> status == Pending
    ensures Complete in acts <==> status == Confirmed
    ensures Cancel in acts <==> status == Pending || status == Confirmed
  {
    if status == Pending then [Confirm, Cancel]
    else if status == Confirmed then [Complete, Cancel]
    else []
  }

  /** The status each button asks the backend to store. */
  function TargetStatus(a: Action): (s: string)
    ensures KnownStatus(s) && s != Pending
    ensures a == Cancel <==> s == Cancelled
  {
    match a
    case Confirm => Confirmed
    case Complete => Completed
    case Cancel => Cancelled
  }

  /** A status can become another through one of the buttons it offers. */
  predicate CanTransition(from: string, to: string) {
    exists a :: a in OfferedActions(from) && TargetStatus(a) == to
  }

  /** The transition relation spelled out: pending to confirmed or
      cancelled, confirmed to completed or cancelled, and nothing else. */
  lemma TransitionRelation(from: string, to: string)
    ensures CanTransition(from, to) <==>
      (from == Pending && (to == Confirmed || to == Cancelled))
      || (from == Confirmed && (to == Completed || to == Cancelled))
  {
    if from == Pending && to == Confirmed {
      assert Confirm in OfferedActions(from);
    } else if from == Confirmed && to == Completed {
      assert Complete in OfferedActions(from);
    } else if (from == Pending || from == Confirmed) && to == Cancelled {
      assert Cancel in OfferedActions(from);
    }
  }

  /** Completed, cancelled and unknown statuses offer no action, so they
      are terminal. */
  lemma TerminalStatuses(status: string)
    requires status != Pending && status != Confirmed
    ensures OfferedActions(status) == []
    ensures forall to :: !CanTransition(status, to)
  {
  }

  /** How far along the life of a booking a status is. */
  function Rank(status: string): nat {
    if status == Pending then 0 else if status == Confirmed then 1 else 2
  }

  lemma TransitionRaisesRank(from: string, to: string)
    requires CanTransition(from, to)
    ensures Rank(from) < Rank(to)
  {
    TransitionRelation(from, to);
  }

  /** Along a chain of transitions the k-th status has rank at least k. */
  lemma {:induction false} ChainRank(chain: seq<string>, k: nat)
    requires forall j :: 0 <= j < |chain| - 1 ==> CanTransition(chain[j], chain[j + 1])
    requires k < |chain|
    ensures Rank(chain[k]) >= k
  {
    if k > 0 {
      ChainRank(chain, k - 1);
      TransitionRaisesRank(chain[k - 1], chain[k]);
    }
  }

  /** No booking passes through more than three statuses. */
  lemma ChainsAreShort(chain: seq<string>)
    requires forall j :: 0 <= j < |chain| - 1 ==> CanTransition(chain[j], chain[j + 1])
    ensures |chain| <= 3
  {
    if |chain| > 0 {
      ChainRank(chain, |chain| - 1);
    }
  }

  // ---------------------------------------------------------------------
  // Badge colour

  /** getStatusColor */
  function StatusColor(status: string): (c: string)
    ensures c == "bg-gray-500" <==> !KnownStatus(status)
  {
    if status == Pending then "bg-yellow-500"
    else if status == Confirmed then "bg-blue-500"
    else if status == Completed then "bg-green-500"
    else if status == Cancelled then "bg-red-500"
    else "bg-gray-500"
  }

  /** The four known statuses get four different colours. */
  lemma StatusColorsDistinct(s: string, t: string)
    requires KnownStatus(s) && KnownStatus(t) && s != t
    ensures StatusColor(s) != StatusColor(t)
  {
  }

  // ---------------------------------------------------------------------
  // The backend's status update, as seen in the next listing

  /** `update({ status }).eq("id", id)`: every row with that id gets the
      new status, all other columns and rows stay as they were. */
  function ApplyStatusUpdate(rows: seq<AdminBooking>, id: BookingId, status: string): (r: seq<AdminBooking>)
    ensures |r| == |rows|
    ensures forall k :: 0 <= k < |rows| && rows[k].id == id ==> r[k] == rows[k].(status := status)
    ensures forall k :: 0 <= k < |rows| && rows[k].id != id ==> r[k] == rows[k]
  {
    seq(|rows|, k requires 0 <= k < |rows| =>
      if rows[k].id == id then rows[k].(status := status) else rows[k])
  }

  predicate UniqueIds(rows: seq<AdminBooking>) {
    forall j, k :: 0 <= j < k < |rows| ==> rows[j].id != rows[k].id
  }

  /** With ids unique, the update touches exactly the row pressed. */
  lemma UpdateTouchesOneRow(rows: seq<AdminBooking>, i: nat, status: string)
    requires UniqueIds(rows) && i < |rows|
    ensures ApplyStatusUpdate(rows, rows[i].id, status) == rows[i := rows[i].(status := status)]
  {
  }

  /** Pressing an offered button on row i, then listing the updated rows,
      moves that row between the counts; Complete adds its price to the
      revenue and the other two buttons leave the revenue as it was. */
  lemma ActionShiftsStats(rows: seq<AdminBooking>, i: nat, a: Action)
    requires UniqueIds(rows) && i < |rows| && a in OfferedActions(rows[i].status)
    ensures var before, after := ComputeStats(rows),
                                 ComputeStats(ApplyStatusUpdate(rows, rows[i].id, TargetStatus(a)));
      && after.total == before.total
      && (a == Confirm ==> after.pending + 1 == before.pending
                           && after.confirmed == before.confirmed + 1
                           && after.completed == before.completed
                           && after.revenue == before.revenue)
      && (a == Complete ==> after.confirmed + 1 == before.confirmed
                            && after.completed == before.completed + 1
                            && after.revenue == before.revenue + PriceCell(rows[i].service))
      && (a == Cancel ==> after.pending + after.confirmed + 1 == before.pending + before.confirmed
                          && after.completed == before.completed
                          && after.revenue == before.revenue)
  {
    var target := TargetStatus(a);
    UpdateTouchesOneRow(rows, i, target);
    StatusChangeShiftsStats(rows, i, target);
    var after := rows[i := rows[i].(status := target)];
    assert Count(after, Pending) + Indicator(rows[i].status == Pending)
      == Count(rows, Pending) + Indicator(target == Pending);
    assert Count(after, Confirmed) + Indicator(rows[i].status == Confirmed)
      == Count(rows, Confirmed) + Indicator(target == Confirmed);
    assert Count(after, Completed) + Indicator(rows[i].status == Completed)
      == Count(rows, Completed) + Indicator(target == Completed);
  }

  // ---------------------------------------------------------------------
  // The page's state

  /** What a fetch returns: an error, or `data`, which may be null. */
  datatype FetchResult = FetchError | Fetched(data: Option<seq<AdminBooking>>)

  /** `data || []` */
  function RowsOf(data: Option<seq<AdminBooking>>): (rows: seq<AdminBooking>)
    ensures data.None? ==> rows == []
    ensures data.Some? ==> rows == data.value
  {
    if data.Some? then data.value else []
  }

  class Dashboard {
    var bookings: seq<AdminBooking>
    var stats: Stats
    var loading: bool

    /** The figures always describe the rows shown. */
    ghost predicate Valid()
      reads this
    {
      stats == ComputeStats(bookings)
    }

    /** The page mounts with no rows, zero figures and the spinner on. */
    constructor ()
      ensures bookings == [] && stats == NoStats && loading
      ensures Valid()
    {
      bookings := [];
      stats := NoStats;
      loading := true;
    }

    /** fetchBookings: on success the rows and the figures are replaced
        together; on error both stay as they were; the spinner goes off
        either way. */
    method FetchBookings(result: FetchResult)
      modifies this
      ensures !loading
      ensures result.Fetched? ==>
        bookings == RowsOf(result.data) && stats == ComputeStats(RowsOf(result.data))
      ensures result.FetchError? ==> bookings == old(bookings) && stats == old(stats)
      ensures old(Valid()) ==> Valid()
    {
      if result.Fetched? {
        var rows := RowsOf(result.data);
        bookings := rows;
        stats := ComputeStats(rows);
      }
      loading := false;
    }

    /** updateBookingStatus: sends the update of `status` for the rows with
        `id`; when the backend accepts it, the page fetches the listing
        again; when it refuses, nothing changes. */
    method UpdateBookingStatus(id: BookingId, status: string, updateOk: bool, refetch: FetchResult)
      returns (sentId: BookingId, sentStatus: string)
      modifies this
      ensures sentId == id && sentStatus == status
      ensures !updateOk ==> bookings == old(bookings) && stats == old(stats) && loading == old(loading)
      ensures updateOk && refetch.Fetched? ==>
        bookings == RowsOf(refetch.data) && stats == ComputeStats(RowsOf(refetch.data)) && !loading
      ensures updateOk && refetch.FetchError? ==>
        bookings == old(bookings) && stats == old(stats) && !loading
      ensures old(Valid()) ==> Valid()
    {
      sentId, sentStatus := id, status;
      if updateOk {
        FetchBookings(refetch);
      }
    }

    /** Pressing button `a` on row i; the rows are only rendered once the
        spinner is off, and a row shows only the buttons its status offers. */
    method PressAction(i: nat, a: Action, updateOk: bool, refetch: FetchResult)
      returns (sentId: BookingId, sentStatus: string)
      requires !loading && i < |bookings| && a in OfferedActions(bookings[i].status)
      modifies this
      ensures sentId == old(bookings)[i].id && sentStatus == TargetStatus(a)
      ensures var listed := ApplyStatusUpdate(old(bookings), old(bookings)[i].id, TargetStatus(a));
        updateOk && refetch == Fetched(Some(listed)) ==>
          bookings == listed && stats == ComputeStats(listed)
      ensures updateOk && refetch.Fetched? ==>
        bookings == RowsOf(refetch.data) && stats == ComputeStats(bookings)
      ensures updateOk && refetch.FetchError? ==> bookings == old(bookings) && stats == old(stats)
      ensures !updateOk ==> bookings == old(bookings) && stats == old(stats)
      ensures !loading
      ensures old(Valid()) ==> Valid()
    {
      sentId, sentStatus := UpdateBookingStatus(bookings[i].id, TargetStatus(a), updateOk, refetch);
    }
  }
}
