/**
 Deletes by label and the creates they catch.
 */
module Inflight {
  import opened Hotels

  /** How long a delete by label catches creates in flight. */
  const TOMBSTONE_TTL: Time := 15 * MINUTE

  datatype Tombstone = Tombstone(want: map<string, string>, at: Time)

  /** Every wanted label is there with the wanted value. */
  predicate MatchesLabels(want: map<string, string>, labels: map<string, string>) {
    forall k :: k in want ==> k in labels && labels[k] == want[k]
  }

  predicate Catches(t: Tombstone, labels: map<string, string>, recv: Time, now: Time) {
    recv < t.at && now - t.at < TOMBSTONE_TTL && MatchesLabels(t.want, labels)
  }

  /** Some delete by label that came after recv matches labels. */
  predicate Tombstoned(tombs: seq<Tombstone>, labels: map<string, string>, recv: Time, now: Time) {
    exists i :: 0 <= i < |tombs| && Catches(tombs[i], labels, recv, now)
  }

  /** The tombstones that a delete at time `at` keeps. */
  function Kept(tombs: seq<Tombstone>, at: Time): (r: seq<Tombstone>)
    ensures forall t :: t in r <==> t in tombs && at - t.at < TOMBSTONE_TTL
  {
    if tombs == [] then []
    else
      var head := if at - tombs[0].at < TOMBSTONE_TTL then [tombs[0]] else [];
      head + Kept(tombs[1..], at)
  }

  function AddTombstone(tombs: seq<Tombstone>, want: map<string, string>, at: Time): seq<Tombstone> {
    Kept(tombs, at) + [Tombstone(want, at)]
  }

  // ------------------------------------------------------------ the loops

  lemma {:induction false} KeptMore(tombs: seq<Tombstone>, t: Tombstone, at: Time)
    ensures Kept(tombs + [t], at) == Kept(tombs, at) + if at - t.at < TOMBSTONE_TTL then [t] else []
  {
    if tombs == [] {
      assert tombs + [t] == [t] && [t][1..] == [];
    } else {
      assert (tombs + [t])[1..] == tombs[1..] + [t];
      KeptMore(tombs[1..], t, at);
    }
  }

  /** The filter of a delete by label: the kept entries move to the front of
      the same array, behind the entries still to be read. */
  method FilterInPlace(a: array<Tombstone>, at: Time) returns (kept: nat)
    modifies a
    ensures kept <= a.Length && a[..kept] == Kept(old(a[..]), at)
  {
    kept := 0;
    var i := 0;
    ghost var before := a[..];
    while i < a.Length
      invariant 0 <= kept <= i <= a.Length
      invariant forall j :: i <= j < a.Length ==> a[j] == before[j]
      invariant a[..kept] == Kept(before[..i], at)
    {
      assert before[..i + 1] == before[..i] + [a[i]];
      KeptMore(before[..i], a[i], at);
      if at - a[i].at < TOMBSTONE_TTL {
        a[kept] := a[i];
        kept := kept + 1;
      }
      i := i + 1;
    }
    assert before[..a.Length] == before;
  }

  /** The label loop of a tombstone. */
  method LabelsMatch(want: map<string, string>, labels: map<string, string>) returns (same: bool)
    ensures same <==> MatchesLabels(want, labels)
  {
    same := true;
    var rest := want.Keys;
    while rest != {}
      invariant rest <= want.Keys
      invariant same <==> forall k :: k in want && k !in rest ==> k in labels && labels[k] == want[k]
      decreases |rest|
    {
      var k :| k in rest;
      if k !in labels || labels[k] != want[k] {
        return false;
      }
      rest := rest - {k};
    }
  }

  class Tombstones {
    var tombs: map<string, seq<Tombstone>>

    constructor ()
      ensures tombs == map[]
    {
      tombs := map[];
    }

    function Of(guest: string): seq<Tombstone>
      reads this
    {
      if guest in tombs then tombs[guest] else []
    }

    method Add(guest: string, want: map<string, string>, at: Time)
      modifies this
      ensures tombs == old(tombs)[guest := AddTombstone(old(Of(guest)), want, at)]
    {
      var before := Of(guest);
      var buffer := new Tombstone[|before|](i requires 0 <= i < |before| => before[i]);
      assert buffer[..] == before;
      var kept := FilterInPlace(buffer, at);
      tombs := tombs[guest := buffer[..kept] + [Tombstone(want, at)]];
    }

    /** Whether a delete by label of the guest that came after recv matches labels. */
    method Catch(guest: string, labels: map<string, string>, recv: Time, now: Time) returns (caught: bool)
      ensures caught <==> Tombstoned(Of(guest), labels, recv, now)
    {
      var list, i := Of(guest), 0;
      while i < |list|
        invariant 0 <= i <= |list|
        invariant forall j :: 0 <= j < i ==> !Catches(list[j], labels, recv, now)
      {
        var t := list[i];
        if recv < t.at && now - t.at < TOMBSTONE_TTL {
          var hit := LabelsMatch(t.want, labels);
          if hit {
            return true;
          }
        }
        i := i + 1;
      }
      caught := false;
    }
  }
}
