/** The price summary of the review step: subtotal, travel fee, total and
    total duration of a selection, and the two controls that the in-flight
    submission disables. */
module Pricing {
  import opened Catalog

  /** The flat surcharge for an appointment at the customer's home. */
  const AtHomeTravelFee: nat := 25

  /** Sum of the selected services' prices. */
  function Subtotal(s: seq<Service>): (subtotal: nat)
    ensures s == [] ==> subtotal == 0
    ensures forall i :: 0 <= i < |s| ==> s[i].price <= subtotal
  {
    Sum(s, Price)
  }

  /** Sum of the selected services' durations, in minutes. */
  function TotalDuration(s: seq<Service>): (minutes: nat)
    ensures s == [] ==> minutes == 0
    ensures forall i :: 0 <= i < |s| ==> s[i].duration <= minutes
  {
    Sum(s, Duration)
  }

  /** The travel fee is charged for at-home appointments and only for them. */
  function TravelFee(loc: Location): (fee: nat)
    ensures loc == AtHome ==> fee == AtHomeTravelFee
    ensures loc == InSalon ==> fee == 0
  {
    if loc == AtHome then AtHomeTravelFee else 0
  }

  /** What the customer pays. */
  function Total(s: seq<Service>, loc: Location): (total: nat)
    ensures total >= TravelFee(loc)
    ensures total >= Subtotal(s)
  {
    Subtotal(s) + TravelFee(loc)
  }

  /** The "Travel Fee" line of the summary is rendered when the fee is positive. */
  predicate ShowsTravelFeeLine(loc: Location) {
    TravelFee(loc) > 0
  }

  /** The Back and Confirm buttons of the review step are both disabled by
      the same flag: the one set while a submission is in flight. */
  predicate ReviewBackDisabled(loading: bool) {
    loading
  }

  predicate ConfirmDisabled(loading: bool) {
    loading
  }

  /** With nothing selected the total is just the travel fee. */
  lemma TotalOfEmptySelection(loc: Location)
    ensures Total([], loc) == TravelFee(loc)
    ensures loc == InSalon ==> Total([], loc) == 0
  {
  }

  /** Total is the subtotal plus 25 at home and the subtotal in the salon. */
  lemma TotalByLocation(s: seq<Service>)
    ensures Total(s, AtHome) == Subtotal(s) + 25
    ensures Total(s, InSalon) == Subtotal(s)
  {
  }

  /** The subtotal, and so the total, does not depend on the order in which
      services were selected. */
  lemma TotalIgnoresOrder(a: seq<Service>, b: seq<Service>, loc: Location)
    requires multiset(a) == multiset(b)
    ensures Subtotal(a) == Subtotal(b)
    ensures Total(a, loc) == Total(b, loc)
    ensures TotalDuration(a) == TotalDuration(b)
  {
    SumPermutation(a, b, Price);
    SumPermutation(a, b, Duration);
  }

  /** Selecting one more service adds exactly its price and its duration. */
  lemma SelectingAddsItsAmounts(s: seq<Service>, svc: Service)
    ensures Subtotal(s + [svc]) == Subtotal(s) + svc.price
    ensures TotalDuration(s + [svc]) == TotalDuration(s) + svc.duration
  {
    assert (s + [svc])[..|s|] == s;
  }

  /** Each selected service's price is part of the subtotal. */
  lemma SubtotalCoversEachPrice(s: seq<Service>, i: nat)
    requires i < |s|
    ensures s[i].price <= Subtotal(s)
    ensures s[i].duration <= TotalDuration(s)
  {
    SumBoundsElement(s, Price, i);
    SumBoundsElement(s, Duration, i);
  }

  /** The travel-fee line is shown exactly for at-home appointments. */
  lemma TravelFeeLineIffAtHome(loc: Location)
    ensures ShowsTravelFeeLine(loc) <==> loc == AtHome
  {
  }
}
