/** Reference data the wizard reads but never changes: services and where
    they are performed, and the two sums every screen takes over a list
    of services (price and duration). */
module Catalog {

  type ServiceId = string

  /** A bookable service. Prices are whole currency units and durations
      whole minutes, both non-negative. */
  datatype Service = Service(
    id: ServiceId,
    categoryId: string,
    name: string,
    description: string,
    duration: nat,
    price: nat,
    imageUrl: string)

  /** Where the appointment takes place; the radio group offers only these two. */
  datatype Location = InSalon | AtHome

  /** The two quantities that are summed over a selection. */
  datatype Measure = Price | Duration

  function Amount(svc: Service, m: Measure): nat {
    match m
    case Price => svc.price
    case Duration => svc.duration
  }

  /** `services.reduce((total, s) => total + s.<m>, 0)`: a left fold, so the
      last element is added last. */
  function Sum(s: seq<Service>, m: Measure): (total: nat)
    ensures s == [] ==> total == 0
    ensures forall i :: 0 <= i < |s| ==> Amount(s[i], m) <= total
  {
    if s == [] then 0 else Sum(s[..|s| - 1], m) + Amount(s[|s| - 1], m)
  }

  /** Summing a concatenation is adding the sums of the parts. */
  lemma {:induction false} SumAppend(a: seq<Service>, b: seq<Service>, m: Measure)
    ensures Sum(a + b, m) == Sum(a, m) + Sum(b, m)
    decreases |b|
  {
    if b == [] {
      assert a + b == a;
    } else {
      assert (a + b)[..|a + b| - 1] == a + b[..|b| - 1];
      assert (a + b)[|a + b| - 1] == b[|b| - 1];
      SumAppend(a, b[..|b| - 1], m);
    }
  }

  /** Every element's amount is bounded by the sum. */
  lemma {:induction false} SumBoundsElement(s: seq<Service>, m: Measure, i: nat)
    requires i < |s|
    ensures Amount(s[i], m) <= Sum(s, m)
    decreases |s|
  {
    if i < |s| - 1 {
      SumBoundsElement(s[..|s| - 1], m, i);
    }
  }

  /** Removing the element at index i takes exactly its amount off the sum. */
  lemma SumRemoveAt(s: seq<Service>, m: Measure, i: nat)
    requires i < |s|
    ensures Sum(s, m) == Sum(s[..i] + s[i + 1..], m) + Amount(s[i], m)
  {
    assert s == s[..i] + ([s[i]] + s[i + 1..]);
    SumAppend(s[..i], [s[i]] + s[i + 1..], m);
    SumAppend([s[i]], s[i + 1..], m);
    SumAppend(s[..i], s[i + 1..], m);
    assert Sum([s[i]], m) == Amount(s[i], m) by {
      assert [s[i]][..0] == [];
    }
  }

  lemma MultisetRemoveAt(b: seq<Service>, i: nat)
    requires i < |b|
    ensures multiset(b[..i] + b[i + 1..]) == multiset(b) - multiset{b[i]}
  {
    assert b == b[..i] + [b[i]] + b[i + 1..];
  }

  /** The sum does not depend on the order of the selection: any two
      selections holding the same services the same number of times have
      the same sum. */
  lemma {:induction false} SumPermutation(a: seq<Service>, b: seq<Service>, m: Measure)
    requires multiset(a) == multiset(b)
    ensures Sum(a, m) == Sum(b, m)
    decreases |a|
  {
    if a == [] {
      assert |b| == |multiset(b)| == 0;
    } else {
      var x := a[|a| - 1];
      var a' := a[..|a| - 1];
      MultisetRemoveAt(a, |a| - 1);
      assert a[..|a| - 1] + a[|a|..] == a';
      assert x in multiset(b);
      var i :| 0 <= i < |b| && b[i] == x;
      MultisetRemoveAt(b, i);
      var b' := b[..i] + b[i + 1..];
      SumPermutation(a', b', m);
      SumRemoveAt(b, m, i);
    }
  }
}
