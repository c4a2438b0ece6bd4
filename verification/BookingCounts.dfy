/**
 The counters of central booking are exact: in every reachable state each
 hotel's and guest's queue counter, each hotel's creating counter and
 semaphore and each guest's pending counter equals the number of creates in
 the matching phases.
 */
module BookingCounts {
  import opened Options
  import opened Hotels
  import opened Placement
  import opened Booking
  import opened BookingFrames

  /** The counters of the broker. */
  datatype Meter =
    | HotelQueue(hotel: string)
    | HotelCreating(hotel: string)
    | HotelSlots(hotel: string)
    | GuestQueue(guest: string)
    | GuestPending(guest: string)

  /** What the broker keeps for a meter. */
  function Reading(s: State, m: Meter): int {
    match m
    case HotelQueue(h) => if h in s.hotels then s.hotels[h].queued else 0
    case HotelCreating(h) => if h in s.hotels then s.hotels[h].creating else 0
    case HotelSlots(h) => if h in s.hotels then s.hotels[h].sem else 0
    case GuestQueue(g) => if g in s.guests then s.guests[g].queued else 0
    case GuestPending(g) => if g in s.guests then s.guests[g].pending else 0
  }

  /** Whether a create belongs to a meter, by its phase alone. */
  predicate Metered(m: Meter, c: Create) {
    match m
    case HotelQueue(h) => WaitsOn(c, h)
    case HotelCreating(h) => CallOn(c, h)
    case HotelSlots(h) => SlotOn(c, h)
    case GuestQueue(g) => c.guest == g && (c.phase.Queued? || c.phase.Holding? || c.phase.Cleared?)
    case GuestPending(g) => c.guest == g && !c.phase.Done?
  }

  function Members(creates: map<nat, Create>, m: Meter): set<nat> {
    set id | id in creates && Metered(m, creates[id])
  }

  function Tally(creates: map<nat, Create>, m: Meter): nat {
    |Members(creates, m)|
  }

  ghost predicate Balanced(s: State) {
    forall m: Meter :: Reading(s, m) == Tally(s.creates, m)
  }

  function One(b: bool): int {
    if b then 1 else 0
  }

  lemma TallyUpdate(creates: map<nat, Create>, id: nat, c: Create, m: Meter)
    ensures Tally(creates[id := c], m)
         == Tally(creates, m) - One(id in creates && Metered(m, creates[id])) + One(Metered(m, c))
  {
    var before, after := Members(creates, m), Members(creates[id := c], m);
    assert before - {id} == after - {id} by {
      assert forall i :: i in before - {id} <==> i in after - {id};
    }
    assert id in after <==> Metered(m, c);
    assert |after| == |after - {id}| + One(id in after);
    assert |before| == |before - {id}| + One(id in before);
  }

  /** Keeping the books when one create changes. */
  lemma Rebalance(s: State, t: State, id: nat, c: Create)
    requires Balanced(s)
    requires t.creates == s.creates[id := c]
    requires forall m: Meter :: Reading(t, m) - Reading(s, m)
                             == One(Metered(m, c)) - One(id in s.creates && Metered(m, s.creates[id]))
    ensures Balanced(t)
  {
    forall m: Meter
      ensures Reading(t, m) == Tally(t.creates, m)
    {
      TallyUpdate(s.creates, id, c, m);
    }
  }

  predicate SameReadings(s: State, t: State) {
    && s.creates == t.creates
    && s.guests == t.guests
    && (forall h :: h in s.hotels ==>
          && h in t.hotels
          && t.hotels[h].queued == s.hotels[h].queued
          && t.hotels[h].creating == s.hotels[h].creating
          && t.hotels[h].sem == s.hotels[h].sem)
    && (forall h :: h in t.hotels && h !in s.hotels ==>
          t.hotels[h].queued == 0 && t.hotels[h].creating == 0 && t.hotels[h].sem == 0)
  }

  lemma SameBooksBalanced(s: State, t: State)
    requires Balanced(s)
    requires t.hotels == s.hotels && t.guests == s.guests && t.creates == s.creates
    ensures Balanced(t)
  {
    forall m: Meter
      ensures Reading(t, m) == Reading(s, m)
    {
    }
  }

  lemma SameStaysBalanced(s: State, t: State)
    requires Balanced(s) && SameReadings(s, t)
    ensures Balanced(t)
  {
    forall m: Meter
      ensures Reading(t, m) == Reading(s, m)
    {
    }
  }

  predicate OnOrNowhere(p: Phase, h: string) {
    p.Ready? || p.Finished? || p.Done? || p.hotel == h
  }

  predicate Waiting(c: Create) {
    c.phase.Queued? || c.phase.Holding? || c.phase.Cleared?
  }

  /** The counters of h move as the create does. */
  predicate HotelMoves(c: Create, d: Create, h: string, before: Hotel, after: Hotel) {
    && after.queued - before.queued == One(WaitsOn(d, h)) - One(WaitsOn(c, h))
    && after.creating - before.creating == One(CallOn(d, h)) - One(CallOn(c, h))
    && after.sem - before.sem == One(SlotOn(d, h)) - One(SlotOn(c, h))
  }

  predicate GuestMoves(c: Create, d: Create, before: Guest, after: Guest) {
    && after.queued - before.queued == One(Waiting(d)) - One(Waiting(c))
    && after.pending - before.pending == One(!d.phase.Done?) - One(!c.phase.Done?)
  }

  lemma PostBalanced(s: State, id: nat, d: Create, h: string, r: Hotel, g: Guest)
    requires Balanced(s) && On(s, id, h) && d.guest == s.creates[id].guest
    requires OnOrNowhere(s.creates[id].phase, h) && OnOrNowhere(d.phase, h)
    requires HotelMoves(s.creates[id], d, h, s.hotels[h], r)
    requires GuestMoves(s.creates[id], d, s.guests[d.guest], g)
    ensures Balanced(Post(s, id, d, h, r, g))
  {
    var c, t := s.creates[id], Post(s, id, d, h, r, g);
    forall m: Meter
      ensures Reading(t, m) - Reading(s, m) == One(Metered(m, d)) - One(Metered(m, c))
    {
      match m
      case HotelQueue(x) =>
      case HotelCreating(x) =>
      case HotelSlots(x) =>
      case GuestQueue(x) =>
      case GuestPending(x) =>
    }
    Rebalance(s, t, id, d);
  }

  /** A step of a create that no hotel counts. */
  lemma PostGuestBalanced(s: State, id: nat, d: Create, g: Guest)
    requires Balanced(s) && At(s, id) && d.guest == s.creates[id].guest
    requires forall h :: WaitsOn(d, h) == WaitsOn(s.creates[id], h) && CallOn(d, h) == CallOn(s.creates[id], h)
                      && SlotOn(d, h) == SlotOn(s.creates[id], h)
    requires GuestMoves(s.creates[id], d, s.guests[d.guest], g)
    ensures Balanced(PostGuest(s, id, d, g))
  {
    Rebalance(s, PostGuest(s, id, d, g), id, d);
  }

  lemma JoinQueueBalanced(s: State, id: nat, c: Create, h: string)
    requires Balanced(s) && On(s, id, h) && c.guest == s.creates[id].guest && s.creates[id].phase.Ready?
    ensures Balanced(JoinQueue(s, id, c, h))
  {
    var t := JoinQueue(s, id, c, h);
    PostBalanced(s, id, t.creates[id], h, t.hotels[h], t.guests[c.guest]);
  }

  lemma LeaveQueueBalanced(s: State, id: nat, c: Create, h: string)
    requires Balanced(s) && On(s, id, h) && c.guest == s.creates[id].guest && WaitsOn(s.creates[id], h)
    requires !Waiting(c) && OnOrNowhere(c.phase, h) && !CallOn(c, h) && !c.phase.Done?
    requires SlotOn(c, h) == SlotOn(s.creates[id], h)
    ensures Balanced(LeaveQueue(s, id, c, h))
  {
    var t := LeaveQueue(s, id, c, h);
    PostBalanced(s, id, t.creates[id], h, t.hotels[h], t.guests[c.guest]);
  }

  lemma MoveBalanced(s: State, id: nat, to: string)
    requires Balanced(s) && InQueue(s, id) && to in s.hotels
    ensures Balanced(ApplyMove(s, id, to))
  {
    var c := s.creates[id];
    LeaveQueueBalanced(s, id, c.(phase := Ready), c.phase.hotel);
    JoinQueueBalanced(LeaveQueue(s, id, c.(phase := Ready), c.phase.hotel), id, c, to);
  }

  lemma RecheckBalanced(s: State, id: nat, turnedAway: bool, doomed: bool)
    requires Balanced(s) && CanRecheck(s, id)
    ensures Balanced(ApplyRecheck(s, id, turnedAway, doomed))
  {
    var c := s.creates[id];
    var h := c.phase.hotel;
    LeaveQueueBalanced(s, id, c.(phase := Returning(h, true)), h);
    LeaveQueueBalanced(s, id, c.(phase := Returning(h, false), outcome := NoRoom), h);
    LeaveQueueBalanced(s, id, c.(phase := Returning(h, false), outcome := Deleted), h);
    PostGuestBalanced(s, id, c.(phase := Cleared(h)), s.guests[c.guest]);
  }

  /** A step of a create on its own hotel. */
  lemma OwnHotelBalanced(s: State, id: nat, t: State)
    requires Balanced(s) && At(s, id)
    requires var p := s.creates[id].phase;
      (p.Queued? || p.Returning? || p.Cleared? || p.Dispatched? || p.Answered? || p.Reaping?) && p.hotel in s.hotels
    requires id in t.creates && s.creates[id].phase.hotel in t.hotels && s.creates[id].guest in t.guests
    requires t.creates[id].guest == s.creates[id].guest && OnOrNowhere(t.creates[id].phase, s.creates[id].phase.hotel)
    requires HotelMoves(s.creates[id], t.creates[id], s.creates[id].phase.hotel,
                        s.hotels[s.creates[id].phase.hotel], t.hotels[s.creates[id].phase.hotel])
    requires GuestMoves(s.creates[id], t.creates[id], s.guests[s.creates[id].guest], t.guests[s.creates[id].guest])
    requires t == Post(s, id, t.creates[id], s.creates[id].phase.hotel, t.hotels[s.creates[id].phase.hotel],
                       t.guests[s.creates[id].guest])
    ensures Balanced(t)
  {
    var h := s.creates[id].phase.hotel;
    PostBalanced(s, id, t.creates[id], h, t.hotels[h], t.guests[s.creates[id].guest]);
  }

  lemma SettleBalanced(s: State, id: nat, doomed: bool)
    requires Balanced(s) && CanSettle(s, id)
    ensures Balanced(ApplySettle(s, id, doomed))
  {
    OwnHotelBalanced(s, id, ApplySettle(s, id, doomed));
  }

  lemma ArriveBalanced(s: State, id: nat, g: string, r: Request, labels: map<string, string>, recv: Time, tunables: bool)
    requires Balanced(s) && CanArrive(s, id, g, r, recv)
    ensures Balanced(ApplyArrive(s, id, g, r, labels, recv, tunables))
  {
    var t := ApplyArrive(s, id, g, r, labels, recv, tunables);
    Rebalance(s, t, id, t.creates[id]);
  }

  lemma SlotStepBalanced(s: State, id: nat, e: CreateEvent)
    requires Balanced(s) && CreateEnabled(s, id, e) && (e.TakeSlot? || e.Abandon? || e.ReturnSlot?)
    ensures Balanced(CreateEffect(s, id, e))
  {
    match e
    case TakeSlot => OwnHotelBalanced(s, id, ApplyTakeSlot(s, id));
    case Abandon => OwnHotelBalanced(s, id, ApplyAbandon(s, id));
    case ReturnSlot => OwnHotelBalanced(s, id, ApplyReturnSlot(s, id));
  }

  lemma CallStepBalanced(s: State, id: nat, e: CreateEvent)
    requires Balanced(s) && CreateEnabled(s, id, e) && (e.Dispatch? || e.HotelAnswers? || e.BookReaped?)
    ensures Balanced(CreateEffect(s, id, e))
  {
    match e
    case Dispatch => OwnHotelBalanced(s, id, ApplyDispatch(s, id));
    case HotelAnswers(a) => OwnHotelBalanced(s, id, ApplyAnswer(s, id, a));
    case BookReaped => OwnHotelBalanced(s, id, ApplyBookReaped(s, id));
  }

  lemma GuestStepBalanced(s: State, id: nat, e: CreateEvent)
    requires Balanced(s) && CreateEnabled(s, id, e) && (e.GiveUp? || e.Unreserve? || e.GuestGone?)
    ensures Balanced(CreateEffect(s, id, e))
  {
    var t := CreateEffect(s, id, e);
    PostGuestBalanced(s, id, t.creates[id], t.guests[s.creates[id].guest]);
  }

  lemma CreateBalanced(s: State, id: nat, e: CreateEvent)
    requires Balanced(s) && CreateEnabled(s, id, e)
    ensures Balanced(CreateEffect(s, id, e))
  {
    match e
    case Arrive(g, r, labels, recv, tunables) => ArriveBalanced(s, id, g, r, labels, recv, tunables);
    case PlaceOn(h) =>
      var c, r := s.creates[id], PickRequest(s, s.creates[id]);
      JoinQueueBalanced(s, id, c.(request := r, fellBack := c.fellBack || r != c.request), h);
    case Move(to) => MoveBalanced(s, id, to);
    case Recheck => RecheckBalanced(s, id, TurnedAway(s, s.creates[id].phase.hotel), Doomed(s, s.creates[id]));
    case Settle => SettleBalanced(s, id, Doomed(s, s.creates[id]));
    case GiveUp => GuestStepBalanced(s, id, e);
    case Unreserve => GuestStepBalanced(s, id, e);
    case GuestGone => GuestStepBalanced(s, id, e);
    case TakeSlot => SlotStepBalanced(s, id, e);
    case Abandon => SlotStepBalanced(s, id, e);
    case ReturnSlot => SlotStepBalanced(s, id, e);
    case _ => CallStepBalanced(s, id, e);
  }

  lemma HotelBalanced(s: State, h: string, r: Hotel)
    requires Balanced(s) && h in s.hotels && SameBooks(s.hotels[h], r)
    ensures Balanced(WithHotel(s, h, r))
  {
    SameStaysBalanced(s, WithHotel(s, h, r));
  }

  lemma PatchBalanced(s: State, saved: bool)
    requires Balanced(s) && CanCommit(s)
    ensures Balanced(ApplyPatchCommit(s, saved))
  {
    if PatchAnswer(s, saved).None? {
      var p := s.patch.value;
      var h := PatchedHotel(p, s.hotels[p.id]);
      HotelBalanced(s, p.id, h);
      SameBooksBalanced(WithHotel(s, p.id, h), ApplyPatchCommit(s, saved));
    } else {
      SameBooksBalanced(s, ApplyPatchCommit(s, saved));
    }
  }

  /** A hotel that no create is on has all counters at zero. */
  lemma NoneOn(s: State, h: string)
    requires Balanced(s) && h in s.hotels && forall i :: i in s.creates ==> OffHotel(s.creates[i].phase, h)
    ensures s.hotels[h].queued == 0 && s.hotels[h].creating == 0 && s.hotels[h].sem == 0
  {
    assert Members(s.creates, HotelQueue(h)) == {} && Members(s.creates, HotelCreating(h)) == {}
        && Members(s.creates, HotelSlots(h)) == {};
    assert Reading(s, HotelQueue(h)) == 0 && Reading(s, HotelCreating(h)) == 0 && Reading(s, HotelSlots(h)) == 0;
  }

  lemma JoinBalanced(s: State, c: HotelConfig, adm: Admission)
    requires Balanced(s) && CanJoin(s, c)
    ensures Balanced(ApplyJoinAdd(s, c, adm))
  {
    if c.id in s.hotels {
      NoneOn(s, c.id);
    }
    SameStaysBalanced(s, ApplyJoinAdd(s, c, adm));
  }

  lemma StageBalanced(s: State, h: string, r: Hotel, t: State)
    requires Balanced(s) && h in s.hotels && SameBooks(s.hotels[h], r)
    requires t.hotels == s.hotels[h := r] && t.guests == s.guests && t.creates == s.creates
    ensures Balanced(t)
  {
    HotelBalanced(s, h, r);
    SameBooksBalanced(WithHotel(s, h, r), t);
  }

  lemma RestartBalanced(s: State, file: map<string, HotelConfig>, skipped: set<string>, overCap: set<string>)
    requires ValidFile(s, file)
    ensures Balanced(ApplyRestart(s, file, skipped, overCap))
  {
    NoCreatesBalanced(ApplyRestart(s, file, skipped, overCap));
  }

  lemma AdminBalanced(s: State, e: AdminEvent)
    requires Balanced(s) && AdminEnabled(s, e)
    ensures Balanced(AdminEffect(s, e))
  {
    match e
    case PatchCommit(saved) => PatchBalanced(s, saved);
    case JoinAdd(c, adm) => JoinBalanced(s, c, adm);
    case Restart(file, skipped, overCap) => RestartBalanced(s, file, skipped, overCap);
    case _ =>
      MoverFramed(s, e);
      AdminFramed(s, e);
      StageBalanced(s, e.hotel, AdminEffect(s, e).hotels[e.hotel], AdminEffect(s, e));
  }

  lemma NoCreatesBalanced(s: State)
    requires s.creates == map[]
    requires forall h :: h in s.hotels ==> s.hotels[h].queued == 0 && s.hotels[h].creating == 0 && s.hotels[h].sem == 0
    requires forall g :: g in s.guests ==> s.guests[g] == Guest(0, 0)
    ensures Balanced(s)
  {
    forall m: Meter
      ensures Tally(s.creates, m) == 0
    {
      assert Members(s.creates, m) == {};
    }
  }

  lemma StepBalanced(s: State, e: Event)
    requires Balanced(s) && Enabled(s, e)
    ensures Balanced(Next(s, e))
  {
    match e {
      case OfCreate(id, c) => CreateBalanced(s, id, c);
      case OfHotel(h, x) => HotelBalanced(s, h, HotelEffect(s, h, x));
      case OfDesk(d) => SameBooksBalanced(s, DeskEffect(s, d));
      case OfAdmin(a) => AdminBalanced(s, a);
    }
    SameBooksBalanced(Effect(s, e), Next(s, e));
  }

  lemma InitBalanced(s: State)
    requires Init(s)
    ensures Balanced(s)
  {
    NoCreatesBalanced(s);
  }

  /** No counter is below zero, and a hotel with none queued or creating has
      no create waiting or being called. */
  lemma NoneBound(s: State, h: string)
    requires Balanced(s) && h in s.hotels
    ensures s.hotels[h].queued >= 0 && s.hotels[h].creating >= 0 && s.hotels[h].sem >= 0
    ensures s.hotels[h].queued + s.hotels[h].creating == 0 ==> forall id :: id in s.creates ==> !Bound(s.creates[id], h)
  {
    var waiting, calling := Members(s.creates, HotelQueue(h)), Members(s.creates, HotelCreating(h));
    assert Reading(s, HotelQueue(h)) == |waiting|;
    assert Reading(s, HotelCreating(h)) == |calling|;
    assert Reading(s, HotelSlots(h)) == Tally(s.creates, HotelSlots(h));
    forall id | id in s.creates && Bound(s.creates[id], h)
      ensures s.hotels[h].queued + s.hotels[h].creating > 0
    {
      assert id in waiting || id in calling;
    }
  }

  /** No create is bound to a hotel whose id is free. */
  lemma NoneAbsent(s: State, h: string)
    requires Balanced(s) && IdFree(s, h)
    ensures forall id :: id in s.creates ==> !Bound(s.creates[id], h)
  {
    var waiting, calling := Members(s.creates, HotelQueue(h)), Members(s.creates, HotelCreating(h));
    assert Reading(s, HotelQueue(h)) == |waiting|;
    assert Reading(s, HotelCreating(h)) == |calling|;
    forall id | id in s.creates
      ensures !Bound(s.creates[id], h)
    {
      if h !in s.hotels {
        assert id !in waiting && id !in calling;
      }
    }
  }

  lemma {:induction false} RunBalanced(s: State, es: seq<Event>, t: State)
    requires Balanced(s) && Run(s, es, t)
    ensures Balanced(t)
    decreases |es|
  {
    if es != [] {
      StepBalanced(s, es[0]);
      RunBalanced(Next(s, es[0]), es[1..], t);
    }
  }
}
