/** The services step: selecting and deselecting services by id, and when
    its Continue button is offered. */
module Selection {
  import opened Catalog

  /** `selection.some(s => s.id === id)` */
  predicate HasId(s: seq<Service>, id: ServiceId) {
    exists i :: 0 <= i < |s| && s[i].id == id
  }

  /** No two selected services share an id. */
  predicate UniqueIds(s: seq<Service>) {
    forall i, j :: 0 <= i < j < |s| ==> s[i].id != s[j].id
  }

  /** `selection.filter(s => s.id !== id)` (removeService). */
  function RemoveId(s: seq<Service>, id: ServiceId): (r: seq<Service>)
    ensures |r| <= |s|
    ensures forall x :: x in r <==> x in s && x.id != id
    ensures !HasId(r, id)
  {
    if s == [] then []
    else (if s[0].id == id then [] else [s[0]]) + RemoveId(s[1..], id)
  }

  /** toggleService: deselect the service if its id is selected, otherwise
      append it after the services already selected. */
  function Toggle(s: seq<Service>, svc: Service): (r: seq<Service>)
    ensures HasId(r, svc.id) <==> !HasId(s, svc.id)
  {
    if HasId(s, svc.id) then RemoveId(s, svc.id)
    else assert (s + [svc])[|s|] == svc; s + [svc]
  }

  /** The services step shows its Continue button only for a non-empty selection. */
  function ContinueOffered(s: seq<Service>): (offered: bool)
    ensures offered <==> exists id :: HasId(s, id)
  {
    assert |s| > 0 ==> HasId(s, s[0].id);
    |s| > 0
  }

  /** Filtering distributes over concatenation: the kept elements stay in
      their original order. Together with the one-element cases this pins
      RemoveId down to an order-preserving filter. */
  lemma {:induction false} RemoveIdAppend(a: seq<Service>, b: seq<Service>, id: ServiceId)
    ensures RemoveId(a + b, id) == RemoveId(a, id) + RemoveId(b, id)
    decreases |a|
  {
    if a == [] {
      assert a + b == b;
    } else {
      assert (a + b)[1..] == a[1..] + b;
      RemoveIdAppend(a[1..], b, id);
    }
  }

  lemma RemoveIdSingleton(x: Service, id: ServiceId)
    ensures RemoveId([x], id) == if x.id == id then [] else [x]
  {
    assert [x][1..] == [];
  }

  /** Removing an id that is not selected changes nothing. */
  lemma {:induction false} RemoveIdAbsent(s: seq<Service>, id: ServiceId)
    requires !HasId(s, id)
    ensures RemoveId(s, id) == s
    decreases |s|
  {
    if s != [] {
      assert s[0].id != id;
      assert !HasId(s[1..], id);
      RemoveIdAbsent(s[1..], id);
      assert s == [s[0]] + s[1..];
    }
  }

  /** removeService is idempotent. */
  lemma RemoveIdIdempotent(s: seq<Service>, id: ServiceId)
    ensures RemoveId(RemoveId(s, id), id) == RemoveId(s, id)
  {
    RemoveIdAbsent(RemoveId(s, id), id);
  }

  /** Removing a selected id strictly shortens the selection. */
  lemma {:induction false} RemoveIdShrinks(s: seq<Service>, id: ServiceId)
    requires HasId(s, id)
    ensures |RemoveId(s, id)| < |s|
    decreases |s|
  {
    if s[0].id != id {
      var i :| 0 <= i < |s| && s[i].id == id;
      assert s[1..][i - 1].id == id;
      RemoveIdShrinks(s[1..], id);
    }
  }

  /** When ids are unique, removing a selected id removes exactly one service. */
  lemma {:induction false} RemoveIdUniqueDropsOne(s: seq<Service>, id: ServiceId)
    requires UniqueIds(s) && HasId(s, id)
    ensures |RemoveId(s, id)| == |s| - 1
    decreases |s|
  {
    if s[0].id == id {
      assert !HasId(s[1..], id);
      RemoveIdAbsent(s[1..], id);
    } else {
      var i :| 0 <= i < |s| && s[i].id == id;
      assert s[1..][i - 1].id == id;
      RemoveIdUniqueDropsOne(s[1..], id);
    }
  }

  /** Removing preserves the absence of duplicate ids. */
  lemma {:induction false} RemoveIdKeepsUnique(s: seq<Service>, id: ServiceId)
    requires UniqueIds(s)
    ensures UniqueIds(RemoveId(s, id))
    decreases |s|
  {
    if s != [] {
      var tail := RemoveId(s[1..], id);
      RemoveIdKeepsUnique(s[1..], id);
      if s[0].id != id {
        forall j | 0 <= j < |tail| ensures tail[j].id != s[0].id {
          assert tail[j] in s[1..];
          var k :| 0 <= k < |s[1..]| && s[1..][k] == tail[j];
          assert s[k + 1] == tail[j];
        }
        assert RemoveId(s, id) == [s[0]] + tail;
      }
    }
  }

  /** Toggling a service that is not selected appends it and keeps every
      earlier selection, in order. */
  lemma ToggleAbsentAppends(s: seq<Service>, svc: Service)
    requires !HasId(s, svc.id)
    ensures |Toggle(s, svc)| == |s| + 1
    ensures Toggle(s, svc)[..|s|] == s && Toggle(s, svc)[|s|] == svc
  {
  }

  /** Toggling a selected service removes every service with its id and
      keeps the others in order. */
  lemma TogglePresentRemoves(s: seq<Service>, svc: Service)
    requires HasId(s, svc.id)
    ensures Toggle(s, svc) == RemoveId(s, svc.id)
    ensures |Toggle(s, svc)| < |s|
  {
    RemoveIdShrinks(s, svc.id);
  }

  /** Toggling the same service twice, starting from a selection without
      it, gives back exactly the original selection. */
  lemma ToggleTwice(s: seq<Service>, svc: Service)
    requires !HasId(s, svc.id)
    ensures Toggle(Toggle(s, svc), svc) == s
  {
    assert HasId(s + [svc], svc.id) by {
      assert (s + [svc])[|s|] == svc;
    }
    RemoveIdAppend(s, [svc], svc.id);
    RemoveIdAbsent(s, svc.id);
    RemoveIdSingleton(svc, svc.id);
    assert s + [] == s;
  }

  /** Toggling preserves the absence of duplicate ids. */
  lemma ToggleKeepsUnique(s: seq<Service>, svc: Service)
    requires UniqueIds(s)
    ensures UniqueIds(Toggle(s, svc))
  {
    if HasId(s, svc.id) {
      RemoveIdKeepsUnique(s, svc.id);
    } else {
      var r := s + [svc];
      forall i, j | 0 <= i < j < |r| ensures r[i].id != r[j].id {
        if j == |s| {
          assert r[i] == s[i];
        }
      }
    }
  }
}
