/**
 Queue moves stop. The potential of a state is the sum, over hotels and over the
 places of each queue, of the wait at that place. A move leaves the last place
 of one queue for a new last place in another, so it takes one term out and puts
 a term of less than half of it in.
 */
module BookingMoves {
  import opened Hotels
  import opened Placement
  import opened Waits
  import opened Booking
  import opened BookingFrames
  import opened BookingCounts
  import opened Sums

  /** The creates that count for the queue of a hotel. */
  function Length(h: Hotel): int {
    h.queued + h.creating
  }

  /** The waits of the first n places of the queue. */
  function PlacesWait(h: Hotel, n: int): (w: real)
    ensures w >= 0.0
    decreases if n < 0 then 0 else n
  {
    if n <= 0 then 0.0 else PlacesWait(h, n - 1) + WaitAt(h, n)
  }

  function HotelWaits(hotels: map<string, Hotel>): map<string, real> {
    map h | h in hotels :: PlacesWait(hotels[h], Length(hotels[h]))
  }

  ghost function Potential(hotels: map<string, Hotel>): real {
    Total(HotelWaits(hotels))
  }

  /** Half the time between two slots of the hotel. */
  function HalfTurn(h: Hotel): real {
    CreateTime(h) / Concurrency(h) as real / 2.0
  }

  predicate SamePace(h: Hotel, r: Hotel) {
    Concurrency(r) == Concurrency(h) && CreateTime(r) == CreateTime(h)
  }

  lemma {:induction false} SamePlaces(h: Hotel, r: Hotel, n: int)
    requires SamePace(h, r)
    ensures PlacesWait(h, n) == PlacesWait(r, n)
    decreases if n < 0 then 0 else n
  {
    if n > 0 {
      SamePlaces(h, r, n - 1);
    }
  }

  lemma Positive(x: real, k: real)
    requires x > 0.0 && k > 0.0
    ensures x * k > 0.0 && x / k > 0.0
  {
    if x / k <= 0.0 {
      assert x / k * k == x;
    }
  }

  lemma DivGrows(a: real, b: real, k: real)
    requires a >= b && k > 0.0
    ensures a / k >= b / k
  {
    if a > b {
      Positive(a - b, k);
      assert (a - b) / k == a / k - b / k;
    }
  }

  lemma MulGrows(a: real, b: real, x: real)
    requires a >= b && x > 0.0
    ensures a * x >= b * x
  {
    if a > b {
      Positive(a - b, x);
      assert (a - b) * x == a * x - b * x;
    }
  }

  lemma QuotientTimes(x: real, k: real)
    requires k > 0.0
    ensures x / k * k == x
  {
  }

  lemma Regroup(a: real, b: real, c: real)
    ensures a * (b * c) == a * c * b
  {
  }

  lemma OverTimes(x: real, k: real)
    requires k > 0.0
    ensures 1.0 / k * x == x / k
  {
    QuotientTimes(1.0, k);
    QuotientTimes(x, k);
    Regroup(1.0 / k, x / k, k);
  }

  lemma HalvesTwice(x: real)
    ensures 2.0 * (x / 2.0) == x
  {
  }

  lemma AtLeastATurn(ahead: real, k: real, x: real)
    requires ahead >= 1.0 && k > 0.0 && x > 0.0
    ensures ahead / k * x >= 2.0 * (x / k / 2.0)
  {
    DivGrows(ahead, 1.0, k);
    MulGrows(ahead / k, 1.0 / k, x);
    OverTimes(x, k);
    HalvesTwice(x / k);
  }

  /** A place that waits at all waits at least one turn. */
  lemma WaitIsATurn(h: Hotel, place: int)
    requires WaitAt(h, place) > 0.0
    ensures WaitAt(h, place) >= 2.0 * HalfTurn(h)
  {
    AtLeastATurn((place - Concurrency(h)) as real, Concurrency(h) as real, CreateTime(h));
  }

  /** The hotels after one create leaves the queue of `from` and joins that of `to`. */
  predicate Moved(a: map<string, Hotel>, b: map<string, Hotel>, from: string, to: string) {
    && from in a && to in a && from != to
    && a.Keys == b.Keys
    && Length(b[from]) == Length(a[from]) - 1 && SamePace(a[from], b[from])
    && Length(b[to]) == Length(a[to]) + 1 && SamePace(a[to], b[to])
    && forall h :: h in a && h != from && h != to ==> b[h] == a[h]
  }

  lemma TotalOfTwo(a: map<string, real>, b: map<string, real>, x: string, y: string)
    requires x in a && y in a && x != y && a.Keys == b.Keys
    requires forall k :: k in a && k != x && k != y ==> b[k] == a[k]
    ensures Total(b) == Total(a) - a[x] - a[y] + b[x] + b[y]
  {
    assert b == a[x := b[x]][y := b[y]];
    TotalUpdate(a, x, b[x]);
    TotalUpdate(a[x := b[x]], y, b[y]);
  }

  lemma LastPlace(h: Hotel, r: Hotel, n: int)
    requires SamePace(h, r) && n > 0
    ensures PlacesWait(h, n) == PlacesWait(r, n - 1) + WaitAt(h, n)
    ensures PlacesWait(r, n) == PlacesWait(h, n - 1) + WaitAt(h, n)
  {
    SamePlaces(h, r, n - 1);
    SamePlaces(h, r, n);
  }

  lemma WaitsElsewhere(a: map<string, Hotel>, b: map<string, Hotel>, from: string, to: string)
    requires Moved(a, b, from, to)
    ensures HotelWaits(a).Keys == HotelWaits(b).Keys == a.Keys
    ensures forall k :: k in HotelWaits(a) && k != from && k != to ==> HotelWaits(b)[k] == HotelWaits(a)[k]
  {
  }

  lemma PotentialMoves(a: map<string, Hotel>, b: map<string, Hotel>, from: string, to: string, gone: real, come: real)
    requires Moved(a, b, from, to)
    requires PlacesWait(a[from], Length(a[from])) == PlacesWait(b[from], Length(b[from])) + gone
    requires PlacesWait(b[to], Length(b[to])) == PlacesWait(a[to], Length(a[to])) + come
    ensures Potential(b) == Potential(a) - gone + come
  {
    WaitsElsewhere(a, b, from, to);
    TotalOfTwo(HotelWaits(a), HotelWaits(b), from, to);
  }

  lemma MoveMoves(s: State, id: nat, to: string)
    requires CanMove(s, id, to)
    ensures Moved(s.hotels, ApplyMove(s, id, to).hotels, s.creates[id].phase.hotel, to)
    ensures ApplyMove(s, id, to).creates[id].phase == Queued(to)
  {
    var c := s.creates[id];
    PickedTakes(s.cfg, s.hotels, {c.phase.hotel}, MoveRequest(c.request, s.hotels[c.phase.hotel].cfg), s.now, to);
  }

  /** No queue is shorter than empty, and a queue someone waits in is not empty. */
  lemma QueuesCount(s: State, h: string)
    requires Balanced(s) && h in s.hotels
    ensures Length(s.hotels[h]) >= 0
    ensures forall id :: id in s.creates && WaitsOn(s.creates[id], h) ==> Length(s.hotels[h]) > 0
  {
    NoneBound(s, h);
  }

  /** Halving a wait saves more than half a turn. */
  lemma MoveSaves(from: Hotel, to: Hotel)
    requires ExpectedWait(to, 1) < ExpectedWait(from, 0) / 2.0
    ensures ExpectedWait(from, 0) - ExpectedWait(to, 1) > HalfTurn(from)
  {
    assert ExpectedWait(from, 0) > 0.0;
    WaitIsATurn(from, Length(from));
  }

  /** Every move lowers the potential by more than half a turn of the hotel left. */
  lemma MoveLowers(s: State, id: nat, to: string)
    requires Balanced(s) && CanMove(s, id, to)
    ensures Potential(ApplyMove(s, id, to).hotels) < Potential(s.hotels) - HalfTurn(s.hotels[s.creates[id].phase.hotel])
  {
    var from := s.creates[id].phase.hotel;
    MoveMoves(s, id, to);
    QueuesCount(s, from);
    QueuesCount(s, to);
    var hotels := ApplyMove(s, id, to).hotels;
    var a, b := ExpectedWait(s.hotels[from], 0), ExpectedWait(s.hotels[to], 1);
    LastPlace(s.hotels[from], hotels[from], Length(s.hotels[from]));
    LastPlace(s.hotels[to], hotels[to], Length(hotels[to]));
    PotentialMoves(s.hotels, hotels, from, to, a, b);
    MoveSaves(s.hotels[from], s.hotels[to]);
  }

  /** A create that moved does not want to move back. */
  lemma NoMoveBack(s: State, id: nat, to: string)
    requires Balanced(s) && CanMove(s, id, to)
    ensures !CanMove(ApplyMove(s, id, to), id, s.creates[id].phase.hotel)
  {
    var from, t := s.creates[id].phase.hotel, ApplyMove(s, id, to);
    MoveMoves(s, id, to);
    SameWait(s.hotels[from], 0, t.hotels[from], 1);
    SameWait(s.hotels[to], 1, t.hotels[to], 0);
  }

  lemma SameWait(h: Hotel, n: int, r: Hotel, m: int)
    requires SamePace(h, r) && Length(h) + n == Length(r) + m
    ensures ExpectedWait(r, m) == ExpectedWait(h, n) && ExpectedWait(h, n) >= 0.0
  {
  }

  predicate AllMoves(es: seq<Event>) {
    forall i :: 0 <= i < |es| ==> es[i].OfCreate? && es[i].create.Move?
  }

  ghost predicate TurnsAtLeast(hotels: map<string, Hotel>, d: real) {
    forall h :: h in hotels ==> HalfTurn(hotels[h]) >= d
  }

  lemma TurnsKept(a: map<string, Hotel>, b: map<string, Hotel>, from: string, to: string, d: real)
    requires Moved(a, b, from, to) && TurnsAtLeast(a, d)
    ensures TurnsAtLeast(b, d)
  {
    forall h | h in b
      ensures HalfTurn(b[h]) >= d
    {
      assert HalfTurn(b[h]) == HalfTurn(a[h]);
    }
  }

  lemma MoveStep(s: State, e: Event, d: real)
    requires Balanced(s) && TurnsAtLeast(s.hotels, d) && Enabled(s, e) && e.OfCreate? && e.create.Move?
    ensures Balanced(Next(s, e)) && TurnsAtLeast(Next(s, e).hotels, d)
    ensures Potential(Next(s, e).hotels) <= Potential(s.hotels) - d
  {
    var from := s.creates[e.id].phase.hotel;
    StepBalanced(s, e);
    MoveMoves(s, e.id, e.create.to);
    var hotels := ApplyMove(s, e.id, e.create.to).hotels;
    assert Next(s, e).hotels == hotels;
    TurnsKept(s.hotels, hotels, from, e.create.to, d);
    MoveLowers(s, e.id, e.create.to);
  }

  lemma PotentialIsPositive(hotels: map<string, Hotel>)
    ensures Potential(hotels) >= 0.0
  {
    TotalAtLeast(HotelWaits(hotels));
  }

  /** n times d. */
  function Repeat(n: nat, d: real): real {
    if n == 0 then 0.0 else Repeat(n - 1, d) + d
  }

  lemma {:induction false} RepeatIsProduct(n: nat, d: real)
    ensures Repeat(n, d) == n as real * d
  {
    if n > 0 {
      RepeatIsProduct(n - 1, d);
      assert n as real * d == (n - 1) as real * d + d;
    }
  }

  lemma RestMoves(es: seq<Event>)
    requires AllMoves(es) && es != []
    ensures es[0].OfCreate? && es[0].create.Move? && AllMoves(es[1..])
  {
  }

  /** s has no more than this left for its moves. */
  ghost predicate Left(s: State, d: real, p: real) {
    Balanced(s) && TurnsAtLeast(s.hotels, d) && Potential(s.hotels) <= p
  }

  lemma NoneLeft(s: State, d: real, p: real)
    requires Left(s, d, p)
    ensures Within([], d, p)
  {
    PotentialIsPositive(s.hotels);
  }

  lemma FirstMove(s: State, es: seq<Event>, t: State, d: real, p: real) returns (u: State)
    requires Left(s, d, p) && Run(s, es, t) && AllMoves(es) && es != []
    ensures Left(u, d, p - d) && Run(u, es[1..], t) && AllMoves(es[1..])
  {
    RestMoves(es);
    MoveStep(s, es[0], d);
    u := Next(s, es[0]);
  }

  /** d for each event is within p. */
  ghost predicate Within(es: seq<Event>, d: real, p: real) {
    Repeat(|es|, d) <= p
  }

  lemma WithinMore(es: seq<Event>, d: real, p: real)
    requires es != [] && Within(es[1..], d, p - d)
    ensures Within(es, d, p)
  {
  }

  lemma {:induction false} MovesSpend(s: State, es: seq<Event>, t: State, d: real, p: real)
    requires Left(s, d, p) && Run(s, es, t) && AllMoves(es)
    ensures Within(es, d, p)
    decreases |es|
  {
    if es == [] {
      NoneLeft(s, d, p);
    } else {
      var u := FirstMove(s, es, t, d, p);
      MovesSpend(u, es[1..], t, d, p - d);
      WithinMore(es, d, p);
    }
  }

  /** A run of moves alone is at most Potential / d moves long, for any d that
      is at most the half turn of every hotel. */
  lemma MovesStop(s: State, es: seq<Event>, t: State, d: real)
    requires Balanced(s) && Run(s, es, t) && AllMoves(es) && TurnsAtLeast(s.hotels, d) && d > 0.0
    ensures |es| as real <= Potential(s.hotels) / d
  {
    MovesSpend(s, es, t, d, Potential(s.hotels));
    BoundedCount(|es|, d, Potential(s.hotels));
  }

  lemma BoundedCount(n: nat, d: real, p: real)
    requires Repeat(n, d) <= p && d > 0.0
    ensures n as real <= p / d
  {
    RepeatIsProduct(n, d);
    var over := n as real - p / d;
    assert over * d == n as real * d - p;
    if over > 0.0 {
      Positive(over, d);
    }
  }

  /** Such a d exists for every finite set of hotels. */
  lemma {:induction false} LeastTurn(hotels: map<string, Hotel>) returns (d: real)
    ensures d > 0.0 && TurnsAtLeast(hotels, d)
    decreases |hotels|
  {
    d := 1.0;
    if hotels != map[] {
      var h :| h in hotels;
      d := LeastTurn(hotels - {h});
      var own := HalfTurn(hotels[h]);
      assert own > 0.0;
      if own < d {
        d := own;
      }
      assert forall x :: x in hotels && x != h ==> x in hotels - {h} && (hotels - {h})[x] == hotels[x];
    }
  }
}
