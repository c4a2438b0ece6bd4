/**
 The weighted draw of a hotel, its agreement with the guest catalog, and the
 "prefer" fallback.
 */
module Picking {
  import opened Options
  import opened Hotels
  import opened Placement
  import opened Waits

  // ------------------------------------------------------------ the draw

  /** The draw weight of a hotel for a request; 0 when it is not a candidate. */
  function DrawWeight(b: BrokerConfig, h: Hotel, exclude: set<string>, r: Request, now: Time): (w: real)
    requires h.queued + h.creating >= 0
    ensures w >= 0.0
    ensures w > 0.0 <==> h.cfg.id !in exclude && Allows(r, h.cfg) && AdmissibleFree(b, h, now) > 0
  {
    if h.cfg.id in exclude || !Allows(r, h.cfg) then 0.0
    else if AdmissibleFree(b, h, now) > 0 then Weight(h, AdmissibleFree(b, h, now))
    else 0.0
  }

  predicate Counted(hotels: seq<Hotel>) {
    forall h :: h in hotels ==> h.queued + h.creating >= 0
  }

  /** The sum of the first n weights. */
  function Prefix(ws: seq<real>, n: nat): real
    requires n <= |ws|
  {
    if n == 0 then 0.0 else Prefix(ws, n - 1) + ws[n - 1]
  }

  predicate Weights(ws: seq<real>) {
    forall i :: 0 <= i < |ws| ==> ws[i] >= 0.0
  }

  lemma {:induction false} PrefixGrows(ws: seq<real>, i: nat, j: nat)
    requires Weights(ws) && i <= j <= |ws|
    ensures 0.0 <= Prefix(ws, i) <= Prefix(ws, j)
  {
    if j > 0 {
      PrefixGrows(ws, if i < j then i else j - 1, j - 1);
    }
  }

  lemma {:induction false} PrefixOf(ws: seq<real>, w: real, n: nat)
    requires n <= |ws|
    ensures Prefix(ws + [w], n) == Prefix(ws, n)
  {
    if n > 0 {
      PrefixOf(ws, w, n - 1);
    }
  }

  /** The interval of draws that belongs to place i. */
  predicate DrawnAt(ws: seq<real>, i: nat, x: real)
    requires i < |ws|
  {
    Prefix(ws, i) <= x < Prefix(ws, i + 1)
  }

  /** The intervals do not overlap, and place i has one of length ws[i]. */
  lemma DrawnOnce(ws: seq<real>, i: nat, j: nat, x: real)
    requires Weights(ws) && i < |ws| && j < |ws| && DrawnAt(ws, i, x) && DrawnAt(ws, j, x)
    ensures i == j && Prefix(ws, i + 1) - Prefix(ws, i) == ws[i] > 0.0
  {
    if i < j {
      PrefixGrows(ws, i + 1, j);
    } else if j < i {
      PrefixGrows(ws, j + 1, i);
    }
  }

  /** Zero weights add up to zero, and only they. */
  lemma {:induction false} NoWeight(ws: seq<real>, n: nat)
    requires Weights(ws) && n <= |ws|
    ensures Prefix(ws, n) <= 0.0 <==> forall i :: 0 <= i < n ==> ws[i] == 0.0
  {
    if n > 0 {
      NoWeight(ws, n - 1);
      PrefixGrows(ws, 0, n - 1);
    }
  }

  /** A draw below the whole sum finds its place: the loop of the draw. */
  method Draw(ws: seq<real>, x: real) returns (k: nat)
    requires Weights(ws) && 0.0 <= x <= Prefix(ws, |ws|) && Prefix(ws, |ws|) > 0.0
    ensures k < |ws| && ws[k] > 0.0
    ensures x < Prefix(ws, |ws|) ==> DrawnAt(ws, k, x)
    ensures x == Prefix(ws, |ws|) ==> forall i :: k < i < |ws| ==> ws[i] == 0.0
  {
    var n, i := x, 0;
    while i < |ws|
      invariant 0 <= i <= |ws| && n == x - Prefix(ws, i) && n >= 0.0
    {
      if ws[i] > 0.0 && n < ws[i] {
        PrefixGrows(ws, i + 1, |ws|);
        return i;
      }
      n := n - ws[i];
      i := i + 1;
    }
    NoWeight(ws, |ws|);
    k := |ws| - 1;
    while ws[k] <= 0.0
      invariant 0 <= k < |ws|
      invariant forall j :: k < j < |ws| ==> ws[j] == 0.0
      invariant exists j :: 0 <= j <= k && ws[j] > 0.0
      decreases k
    {
      k := k - 1;
    }
  }

  function AllWeights(b: BrokerConfig, hotels: seq<Hotel>, exclude: set<string>, r: Request, now: Time): (ws: seq<real>)
    requires Counted(hotels)
    ensures |ws| == |hotels| && Weights(ws)
  {
    seq(|hotels|, i requires 0 <= i < |hotels| => DrawWeight(b, hotels[i], exclude, r, now))
  }

  method Weigh(b: BrokerConfig, hotels: seq<Hotel>, exclude: set<string>, r: Request, now: Time)
    returns (weight: seq<real>, total: real)
    requires Counted(hotels)
    ensures weight == AllWeights(b, hotels, exclude, r, now) && total == Prefix(weight, |weight|)
  {
    weight, total := [], 0.0;
    var i := 0;
    while i < |hotels|
      invariant 0 <= i <= |hotels| && |weight| == i && total == Prefix(weight, i)
      invariant forall j :: 0 <= j < i ==> weight[j] == DrawWeight(b, hotels[j], exclude, r, now)
    {
      var h, w := hotels[i], 0.0;
      if h.cfg.id !in exclude && Allows(r, h.cfg) {
        var f := AdmissibleFree(b, h, now);
        if f > 0 {
          w := Weight(h, f);
          total := total + w;
        }
      }
      assert w == DrawWeight(b, h, exclude, r, now);
      PrefixOf(weight, w, i);
      weight := weight + [w];
      i := i + 1;
    }
  }

  /** x falls in the interval of place k and in no other. */
  ghost predicate OnlyDrawnAt(ws: seq<real>, k: nat, x: real)
    requires k < |ws|
  {
    forall i :: 0 <= i < |ws| ==> (i == k <==> DrawnAt(ws, i, x))
  }

  /** A random number in 0..1 scaled to the sum of the weights. */
  function Scaled(draw: real, total: real): (x: real)
    requires 0.0 <= draw <= 1.0 && total >= 0.0
    ensures 0.0 <= x <= total && (draw < 1.0 && total > 0.0 ==> x < total)
  {
    assert (1.0 - draw) * total == total - draw * total;
    draw * total
  }

  /** One draw: the random number times the sum, or the sum itself when
      rounding takes it there. No place: k == |ws|. */
  method DrawFrom(ws: seq<real>, total: real, draw: real) returns (k: nat)
    requires Weights(ws) && 0.0 <= total == Prefix(ws, |ws|) && 0.0 <= draw <= 1.0
    ensures k <= |ws| && (k == |ws| <==> forall i :: 0 <= i < |ws| ==> ws[i] == 0.0)
    ensures k < |ws| ==> ws[k] > 0.0
    ensures k < |ws| && draw < 1.0 ==> OnlyDrawnAt(ws, k, Scaled(draw, total))
  {
    NoWeight(ws, |ws|);
    if total <= 0.0 {
      return |ws|;
    }
    var x := Scaled(draw, total);
    k := Draw(ws, x);
    if draw < 1.0 {
      OnlyPlace(ws, k, x);
    }
  }

  /** pickIn. No hotel: k == |hotels|. */
  method PickIn(b: BrokerConfig, hotels: seq<Hotel>, exclude: set<string>, r: Request, now: Time, draw: real)
    returns (k: nat)
    requires Counted(hotels) && 0.0 <= draw <= 1.0
    ensures k <= |hotels|
    ensures var ws := AllWeights(b, hotels, exclude, r, now);
      && Prefix(ws, |ws|) >= 0.0
      && (k == |hotels| <==> forall i :: 0 <= i < |hotels| ==> ws[i] == 0.0)
      && (k < |hotels| ==> ws[k] > 0.0)
      && (k < |hotels| && draw < 1.0 ==> OnlyDrawnAt(ws, k, Scaled(draw, Prefix(ws, |ws|))))
  {
    var weight, total := Weigh(b, hotels, exclude, r, now);
    PrefixGrows(weight, 0, |weight|);
    k := DrawFrom(weight, total, draw);
  }

  lemma OnlyPlace(ws: seq<real>, k: nat, x: real)
    requires Weights(ws) && k < |ws| && DrawnAt(ws, k, x)
    ensures OnlyDrawnAt(ws, k, x)
  {
    forall i | 0 <= i < |ws| && DrawnAt(ws, i, x)
      ensures i == k
    {
      DrawnOnce(ws, i, k, x);
    }
  }

  // ------------------------------------------------------------ pick

  predicate DistinctIds(hotels: seq<Hotel>) {
    forall i, j :: 0 <= i < j < |hotels| ==> hotels[i].cfg.id != hotels[j].cfg.id
  }

  ghost function ById(hotels: seq<Hotel>): (m: map<string, Hotel>)
    requires DistinctIds(hotels)
    ensures forall h :: h in hotels ==> h.cfg.id in m && m[h.cfg.id] == h
    ensures forall id :: id in m ==> m[id] in hotels && m[id].cfg.id == id
  {
    if hotels == [] then map[]
    else
      var last := hotels[|hotels| - 1];
      ById(hotels[..|hotels| - 1])[last.cfg.id := last]
  }

  lemma WeightIsEligible(b: BrokerConfig, hotels: seq<Hotel>, exclude: set<string>, r: Request, now: Time, i: nat)
    requires DistinctIds(hotels) && Counted(hotels) && i < |hotels|
    ensures AllWeights(b, hotels, exclude, r, now)[i] > 0.0 <==> Eligible(b, ById(hotels), exclude, r, now, hotels[i].cfg.id)
  {
    assert hotels[i] in hotels;
  }

  lemma NoWeightNoneEligible(b: BrokerConfig, hotels: seq<Hotel>, exclude: set<string>, r: Request, now: Time)
    requires DistinctIds(hotels) && Counted(hotels)
    requires forall i :: 0 <= i < |hotels| ==> AllWeights(b, hotels, exclude, r, now)[i] == 0.0
    ensures !AnyEligible(b, ById(hotels), exclude, r, now)
  {
    forall id | id in ById(hotels)
      ensures !Eligible(b, ById(hotels), exclude, r, now, id)
    {
      var i :| 0 <= i < |hotels| && hotels[i] == ById(hotels)[id];
      WeightIsEligible(b, hotels, exclude, r, now, i);
    }
  }

  /** pick: with a policy and no tier set, the preferred hotels first. It finds
      a hotel that MayPick, and finds none exactly when there is none. */
  method Pick(b: BrokerConfig, hotels: seq<Hotel>, exclude: set<string>, r: Request, now: Time, draw: seq<real>)
    returns (k: nat)
    requires DistinctIds(hotels) && Counted(hotels) && |draw| == 2 && forall i :: 0 <= i < 2 ==> 0.0 <= draw[i] <= 1.0
    ensures k <= |hotels|
    ensures k < |hotels| ==> MayPick(b, ById(hotels), exclude, r, now, hotels[k].cfg.id)
    ensures k == |hotels| <==> PickFails(b, ById(hotels), exclude, r, now)
  {
    if r.policy.Some? && r.tier.None? {
      var tiers, t := [Prefer, Allow], 0;
      while t < 2
        invariant 0 <= t <= 2
        invariant t > 0 ==> !AnyEligible(b, ById(hotels), exclude, r.(tier := Some(Prefer)), now)
        invariant t > 1 ==> !AnyEligible(b, ById(hotels), exclude, r.(tier := Some(Allow)), now)
      {
        var tp := r.(tier := Some(tiers[t]));
        k := PickIn(b, hotels, exclude, tp, now, draw[t]);
        if k < |hotels| {
          WeightIsEligible(b, hotels, exclude, tp, now, k);
          return;
        }
        NoWeightNoneEligible(b, hotels, exclude, tp, now);
        t := t + 1;
      }
      return |hotels|;
    }
    k := PickIn(b, hotels, exclude, r, now, draw[0]);
    if k < |hotels| {
      WeightIsEligible(b, hotels, exclude, r, now, k);
    } else {
      NoWeightNoneEligible(b, hotels, exclude, r, now);
    }
  }

  // ------------------------------------------------------------ the fallback

  function SealedOf(hotels: map<string, Hotel>, ids: set<string>): set<string>
    requires ids <= hotels.Keys
  {
    set id | id in ids && SealedClass(hotels[id].cfg)
  }

  lemma AllSealed(hotels: map<string, Hotel>, ids: set<string>)
    requires ids <= hotels.Keys
    ensures |SealedOf(hotels, ids)| == |ids| <==> SealedOf(hotels, ids) == ids
    ensures |SealedOf(hotels, ids)| == 0 <==> SealedOf(hotels, ids) == {}
  {
    var sealed := SealedOf(hotels, ids);
    assert ids == sealed + (ids - sealed);
    assert |ids| == |sealed| + |ids - sealed|;
  }

  predicate AllPresent(hotels: map<string, Hotel>, ids: set<string>) {
    forall id :: id in ids ==> id in hotels && InSet(hotels[id])
  }

  lemma CountOne(hotels: map<string, Hotel>, done: set<string>, id: string)
    requires AllPresent(hotels, done) && id in hotels && id !in done
    ensures |SealedOf(hotels, done + {id})| == |SealedOf(hotels, done)| + if SealedClass(hotels[id].cfg) then 1 else 0
  {
    if SealedClass(hotels[id].cfg) {
      assert SealedOf(hotels, done + {id}) == SealedOf(hotels, done) + {id};
    } else {
      assert SealedOf(hotels, done + {id}) == SealedOf(hotels, done);
    }
  }

  /** The named hotels and the sealed ones among them, or not ok when a hotel is gone. */
  method CountNamed(hotels: map<string, Hotel>, ids: set<string>) returns (ok: bool, n: nat, sealed: nat)
    ensures ok <==> AllPresent(hotels, ids)
    ensures ok ==> n == |ids| && sealed == |SealedOf(hotels, ids)|
  {
    n, sealed := 0, 0;
    var done, rest := {}, ids;
    while rest != {}
      invariant done !! rest && done + rest == ids && AllPresent(hotels, done)
      invariant n == |done| && sealed == |SealedOf(hotels, done)|
      decreases |rest|
    {
      var id :| id in rest;
      if id !in hotels || !InSet(hotels[id]) {
        return false, n, sealed;
      }
      CountOne(hotels, done, id);
      n, sealed := n + 1, sealed + if SealedClass(hotels[id].cfg) then 1 else 0;
      done, rest := done + {id}, rest - {id};
    }
    assert done == ids;
    ok := true;
  }

  /** fallbackFor, by counting. */
  method Fallback(hotels: map<string, Hotel>, r: Request) returns (fb: Option<Request>)
    ensures fb == FallbackFor(hotels, r)
  {
    if !r.prefer || r.ids == {} || r.only.Some? {
      return None;
    }
    var ok, n, sealed := CountNamed(hotels, r.ids);
    if !ok {
      return None;
    }
    AllSealed(hotels, r.ids);
    if (sealed != 0 && sealed != n) || (sealed == n && r.allowed == {} && r.policy.None?) {
      return None;
    }
    fb := Some(r.(ids := {}, roomClass := if sealed == n then "sealed" else "unsealed"));
  }

  // ------------------------------------------------------------ the catalog

  /** The catalog lists the hotel for this guest, with free rooms. */
  predicate CatalogFree(b: BrokerConfig, guest: string, l: GuestLimits, h: Hotel, now: Time) {
    TierOf(guest, l, h.cfg) != Unreached && AdmissibleFree(b, h, now) > 0
  }

  /** Any hotel a pick may return, and any a "prefer" fallback of the request
      may return, is one the catalog shows; a fallback keeps the class. */
  lemma PickIsReached(b: BrokerConfig, hotels: map<string, Hotel>, exclude: set<string>, guest: string, l: GuestLimits,
                      r: Request, now: Time, id: string)
    requires guest != "" && ScopedFor(r, guest, l)
    ensures MayPick(b, hotels, exclude, r, now, id) ==> CatalogFree(b, guest, l, hotels[id], now)
    ensures var fb := FallbackFor(hotels, r);
      fb.Some? && MayPick(b, hotels, exclude, fb.value, now, id) ==>
        && CatalogFree(b, guest, l, hotels[id], now)
        && forall named :: named in r.ids ==> SealedClass(hotels[named].cfg) == SealedClass(hotels[id].cfg)
  {
    if MayPick(b, hotels, exclude, r, now, id) {
      MayPickSelects(b, hotels, exclude, r, guest, l, now, id);
    }
    var fb := FallbackFor(hotels, r);
    if fb.Some? && MayPick(b, hotels, exclude, fb.value, now, id) {
      MayPickSelects(b, hotels, exclude, fb.value, guest, l, now, id);
    }
  }

  lemma MayPickSelects(b: BrokerConfig, hotels: map<string, Hotel>, exclude: set<string>, r: Request, guest: string,
                       l: GuestLimits, now: Time, id: string)
    requires guest != "" && ScopedFor(r, guest, l) && MayPick(b, hotels, exclude, r, now, id)
    ensures CatalogFree(b, guest, l, hotels[id], now)
    ensures r.roomClass == "sealed" ==> SealedClass(hotels[id].cfg)
    ensures r.roomClass == "unsealed" ==> !SealedClass(hotels[id].cfg)
  {
    var c := hotels[id].cfg;
    if Selects(r, c) {
      SelectedIsReached(r, guest, l, c);
    } else if Selects(r.(tier := Some(Prefer)), c) {
      SelectedIsReached(r.(tier := Some(Prefer)), guest, l, c);
    } else {
      SelectedIsReached(r.(tier := Some(Allow)), guest, l, c);
    }
  }

  /** A create that asks for nothing. */
  predicate Plain(r: Request) {
    Parsed(r) && r.ids == {} && r.labels == map[] && r.exclude == map[] && r.only.None? && r.images == {} && !r.noLent
  }

  /** For a policy guest's plain create the placer and the catalog agree tier by tier. */
  lemma PlainSelects(guest: string, l: GuestLimits, r: Request, t: Tier, c: HotelConfig)
    requires guest != "" && l.policy.Some? && Plain(r) && t != Unreached
    ensures Allows(Scope(guest, l, r, false, false).(tier := Some(t)), c) <==> TierOf(guest, l, c) == t
  {
  }

  ghost predicate AnyFree(b: BrokerConfig, hotels: map<string, Hotel>, exclude: set<string>, guest: string, l: GuestLimits, t: Tier,
                          now: Time)
  {
    exists id :: id in hotels && id !in exclude && TierOf(guest, l, hotels[id].cfg) == t && AdmissibleFree(b, hotels[id], now) > 0
  }

  lemma TierEligible(b: BrokerConfig, hotels: map<string, Hotel>, exclude: set<string>, guest: string, l: GuestLimits,
                     r: Request, t: Tier, now: Time)
    requires guest != "" && l.policy.Some? && Plain(r) && t != Unreached
    ensures AnyEligible(b, hotels, exclude, Scope(guest, l, r, false, false).(tier := Some(t)), now)
       <==> AnyFree(b, hotels, exclude, guest, l, t, now)
  {
    var q := Scope(guest, l, r, false, false).(tier := Some(t));
    forall id | id in hotels
      ensures Eligible(b, hotels, exclude, q, now, id)
         <==> id !in exclude && TierOf(guest, l, hotels[id].cfg) == t && AdmissibleFree(b, hotels[id], now) > 0
    {
      PlainSelects(guest, l, r, t, hotels[id].cfg);
    }
  }

  /** A policy guest's plain create finds a hotel exactly when the catalog lists
      one with free rooms, and it is a preferred one when such a one is free. */
  lemma PlainPick(b: BrokerConfig, hotels: map<string, Hotel>, exclude: set<string>, guest: string, l: GuestLimits,
                  r: Request, now: Time, id: string)
    requires guest != "" && l.policy.Some? && Plain(r) && id in hotels
    ensures MayPick(b, hotels, exclude, Scope(guest, l, r, false, false), now, id) <==>
      && id !in exclude && CatalogFree(b, guest, l, hotels[id], now)
      && (TierOf(guest, l, hotels[id].cfg) == Prefer || !AnyFree(b, hotels, exclude, guest, l, Prefer, now))
  {
    TierEligible(b, hotels, exclude, guest, l, r, Prefer, now);
    PlainSelects(guest, l, r, Prefer, hotels[id].cfg);
    PlainSelects(guest, l, r, Allow, hotels[id].cfg);
  }

  lemma PlainPickFails(b: BrokerConfig, hotels: map<string, Hotel>, exclude: set<string>, guest: string, l: GuestLimits,
                       r: Request, now: Time)
    requires guest != "" && l.policy.Some? && Plain(r)
    ensures PickFails(b, hotels, exclude, Scope(guest, l, r, false, false), now)
       <==> forall id :: id in hotels && id !in exclude ==> !CatalogFree(b, guest, l, hotels[id], now)
  {
    var q := Scope(guest, l, r, false, false);
    forall id | id in hotels
      ensures MayPick(b, hotels, exclude, q, now, id) ==> id !in exclude && CatalogFree(b, guest, l, hotels[id], now)
    {
      PlainPick(b, hotels, exclude, guest, l, r, now, id);
    }
    if x :| x in hotels && x !in exclude && CatalogFree(b, guest, l, hotels[x], now) {
      PlainPick(b, hotels, exclude, guest, l, r, now, x);
      if AnyFree(b, hotels, exclude, guest, l, Prefer, now) {
        var y :| y in hotels && y !in exclude && TierOf(guest, l, hotels[y].cfg) == Prefer && AdmissibleFree(b, hotels[y], now) > 0;
        PlainPick(b, hotels, exclude, guest, l, r, now, y);
      }
    }
  }
}
