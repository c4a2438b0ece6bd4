/**
 What the counters bound. In every reachable state the creates that hold a slot
 of a hotel are at most its concurrency, and when every create is over all
 counters are zero. A hotel's used rooms stay within its slots exactly until a
 reaped room, a room list, a health report or a PATCH overfills it.
 */
module BookingSlots {
  import opened Options
  import opened Hotels
  import opened Placement
  import opened Lend
  import opened Booking
  import opened BookingFrames
  import opened BookingCounts
  import opened Sums

  // ------------------------------------------------------------ semaphores

  predicate SlotsKept(s: State) {
    forall h :: h in s.hotels ==> s.hotels[h].sem <= Concurrency(s.hotels[h])
  }

  lemma OneHotelSlots(s: State, t: State, h: string)
    requires SlotsKept(s) && h in t.hotels && t.hotels == s.hotels[h := t.hotels[h]]
    requires t.hotels[h].sem <= Concurrency(t.hotels[h])
    ensures SlotsKept(t)
  {
  }

  lemma SlotStepSlots(s: State, id: nat, e: CreateEvent)
    requires SlotsKept(s) && CreateEnabled(s, id, e)
    requires e.TakeSlot? || e.Abandon? || e.ReturnSlot? || e.Dispatch? || e.HotelAnswers? || e.BookReaped?
    ensures SlotsKept(CreateEffect(s, id, e))
  {
    OneHotelSlots(s, CreateEffect(s, id, e), s.creates[id].phase.hotel);
  }

  lemma SettleSlots(s: State, id: nat, doomed: bool)
    requires SlotsKept(s) && CanSettle(s, id)
    ensures SlotsKept(ApplySettle(s, id, doomed))
  {
    OneHotelSlots(s, ApplySettle(s, id, doomed), s.creates[id].phase.hotel);
  }

  lemma RecheckSlots(s: State, id: nat, turnedAway: bool, doomed: bool)
    requires SlotsKept(s) && CanRecheck(s, id)
    ensures SlotsKept(ApplyRecheck(s, id, turnedAway, doomed))
  {
  }

  lemma MoveSlots(s: State, id: nat, to: string)
    requires SlotsKept(s) && InQueue(s, id) && to in s.hotels
    ensures SlotsKept(ApplyMove(s, id, to))
  {
    var c := s.creates[id];
    var s1 := LeaveQueue(s, id, c.(phase := Ready), c.phase.hotel);
    OneHotelSlots(s, s1, c.phase.hotel);
    OneHotelSlots(s1, JoinQueue(s1, id, c, to), to);
  }

  lemma CreateSlots(s: State, id: nat, e: CreateEvent)
    requires SlotsKept(s) && CreateEnabled(s, id, e)
    ensures SlotsKept(CreateEffect(s, id, e))
  {
    match e
    case Arrive(g, r, labels, recv, tunables) =>
    case PlaceOn(h) => OneHotelSlots(s, CreateEffect(s, id, e), h);
    case Move(to) => MoveSlots(s, id, to);
    case Recheck => RecheckSlots(s, id, TurnedAway(s, s.creates[id].phase.hotel), Doomed(s, s.creates[id]));
    case Settle => SettleSlots(s, id, Doomed(s, s.creates[id]));
    case GiveUp =>
    case Unreserve =>
    case GuestGone =>
    case _ => SlotStepSlots(s, id, e);
  }

  lemma CommitSlots(s: State, saved: bool)
    requires SlotsKept(s) && CanCommit(s)
    ensures SlotsKept(ApplyPatchCommit(s, saved))
  {
    if PatchAnswer(s, saved).None? {
      OneHotelSlots(s, ApplyPatchCommit(s, saved), s.patch.value.id);
    }
  }

  lemma AdminSlots(s: State, e: AdminEvent)
    requires SlotsKept(s) && AdminEnabled(s, e)
    ensures SlotsKept(AdminEffect(s, e))
  {
    match e
    case PatchCommit(saved) => CommitSlots(s, saved);
    case Restart(file, skipped, overCap) =>
    case JoinAdd(c, adm) => OneHotelSlots(s, ApplyJoinAdd(s, c, adm), c.id);
    case _ =>
      MoverFramed(s, e);
      OneHotelSlots(s, AdminEffect(s, e), e.hotel);
  }

  lemma StepSlots(s: State, e: Event)
    requires SlotsKept(s) && Enabled(s, e)
    ensures SlotsKept(Next(s, e))
  {
    match e
    case OfCreate(id, c) => CreateSlots(s, id, c);
    case OfHotel(h, x) => OneHotelSlots(s, Effect(s, e), h);
    case OfDesk(d) =>
    case OfAdmin(a) => AdminSlots(s, a);
  }

  lemma {:induction false} RunSlots(s: State, es: seq<Event>, t: State)
    requires SlotsKept(s) && Run(s, es, t)
    ensures SlotsKept(t)
    decreases |es|
  {
    if es != [] {
      StepSlots(s, es[0]);
      RunSlots(Next(s, es[0]), es[1..], t);
    }
  }

  /** At any time at most Concurrency creates hold a slot of a hotel. */
  lemma SlotHoldersBounded(t: State, h: string)
    requires Reachable(t) && h in t.hotels
    ensures Tally(t.creates, HotelSlots(h)) <= Concurrency(t.hotels[h])
  {
    var s, es :| Init(s) && Run(s, es, t);
    RunSlots(s, es, t);
    ReachableBalanced(t);
    assert Reading(t, HotelSlots(h)) == t.hotels[h].sem;
  }

  /** Every counter of a reachable state equals its count of creates. */
  lemma ReachableBalanced(t: State)
    requires Reachable(t)
    ensures Balanced(t)
  {
    var s, es :| Init(s) && Run(s, es, t);
    InitBalanced(s);
    RunBalanced(s, es, t);
  }

  /** Once all creates are over, every count they took has been given back. */
  lemma AllReturned(t: State)
    requires Reachable(t) && forall id :: id in t.creates ==> t.creates[id].phase.Done?
    ensures forall h :: h in t.hotels ==> t.hotels[h].queued == 0 && t.hotels[h].creating == 0 && t.hotels[h].sem == 0
    ensures forall g :: g in t.guests ==> t.guests[g] == Guest(0, 0)
  {
    ReachableBalanced(t);
    forall m: Meter
      ensures Reading(t, m) == 0
    {
      assert Members(t.creates, m) == {};
    }
    forall h | h in t.hotels
      ensures t.hotels[h].queued == 0 && t.hotels[h].creating == 0 && t.hotels[h].sem == 0
    {
      assert Reading(t, HotelQueue(h)) == Reading(t, HotelCreating(h)) == Reading(t, HotelSlots(h)) == 0;
    }
    forall g | g in t.guests
      ensures t.guests[g] == Guest(0, 0)
    {
      assert Reading(t, GuestQueue(g)) == Reading(t, GuestPending(g)) == 0;
    }
  }

  // ------------------------------------------------------------ used rooms

  predicate Fits(h: Hotel) {
    Used(h) <= h.slots
  }

  predicate AllFit(s: State) {
    forall h :: h in s.hotels ==> Fits(s.hotels[h])
  }

  /** The slots a health report leaves the hotel with. */
  function ReportedSlots(h: Hotel, slots: int): int {
    var capped := if h.cfg.maxSlots > 0 && slots > h.cfg.maxSlots then h.cfg.maxSlots else slots;
    if capped <= 0 then h.slots else capped
  }

  /** The rooms in use after a room list: known or listed, and not released. */
  function ListedUse(h: Hotel, listed: map<string, string>, released: set<string>): int {
    |h.rooms.Keys + listed.Keys - released| + h.creating + h.queued
  }

  predicate PatchLowers(s: State, saved: bool)
    requires CanCommit(s)
  {
    && PatchAnswer(s, saved).None?
    && s.patch.value.request.maxSlots.Some?
    && 0 < s.patch.value.request.maxSlots.value < Used(s.hotels[s.patch.value.id])
  }

  predicate ReapOverfills(s: State, id: nat)
    requires CanBookReaped(s, id)
  {
    var p := s.creates[id].phase;
    p.hid !in s.hotels[p.hotel].rooms && Used(s.hotels[p.hotel]) == s.hotels[p.hotel].slots
  }

  predicate SyncOverfills(h: Hotel, e: HotelEvent) {
    || (e.Health? && e.up && Used(h) > ReportedSlots(h, e.slots))
    || (e.RoomList? && ListedUse(h, e.listed, e.released) > h.slots)
  }

  /** The event leaves its hotel with more used rooms than slots. */
  predicate Overfills(s: State, e: Event)
    requires Enabled(s, e)
  {
    match e
    case OfCreate(id, c) => c.BookReaped? && ReapOverfills(s, id)
    case OfHotel(h, x) => SyncOverfills(s.hotels[h], x)
    case OfDesk(d) => false
    case OfAdmin(a) => a.PatchCommit? && PatchLowers(s, a.saved)
  }

  /** Only hotel h can stop fitting. */
  lemma OneHotelFits(s: State, t: State, h: string)
    requires AllFit(s) && h in t.hotels && t.hotels == s.hotels[h := t.hotels[h]]
    ensures AllFit(t) <==> Fits(t.hotels[h])
  {
  }

  lemma GrowsByOne(m: map<string, Room>, hid: string, rm: Room)
    ensures |m[hid := rm]| == |m| + One(hid !in m)
  {
    KeysOf(m);
    KeysOf(m[hid := rm]);
    assert m[hid := rm].Keys == m.Keys + {hid};
  }

  lemma SettleFits(s: State, id: nat, doomed: bool)
    requires AllFit(s) && CanSettle(s, id)
    ensures AllFit(ApplySettle(s, id, doomed))
  {
    var c := s.creates[id];
    var h := c.phase.hotel;
    if c.phase.answer.Started? {
      GrowsByOne(s.hotels[h].rooms, c.phase.answer.hid, Room(c.guest, Running, s.now, 0, false, false));
    }
    OneHotelFits(s, ApplySettle(s, id, doomed), h);
  }

  lemma ReapedFits(s: State, id: nat)
    requires AllFit(s) && CanBookReaped(s, id)
    ensures AllFit(ApplyBookReaped(s, id)) <==> !ReapOverfills(s, id)
  {
    var c := s.creates[id];
    GrowsByOne(s.hotels[c.phase.hotel].rooms, c.phase.hid, Room(c.guest, Deleting, s.now, s.now, false, true));
    OneHotelFits(s, ApplyBookReaped(s, id), c.phase.hotel);
  }

  lemma JoinQueueFits(s: State, id: nat, c: Create, h: string)
    requires AllFit(s) && h in s.hotels && c.guest in s.guests && Used(s.hotels[h]) < s.hotels[h].slots
    ensures AllFit(JoinQueue(s, id, c, h))
  {
    OneHotelFits(s, JoinQueue(s, id, c, h), h);
  }

  lemma MoveFits(s: State, id: nat, to: string)
    requires AllFit(s) && CanMove(s, id, to)
    ensures AllFit(ApplyMove(s, id, to))
  {
    var c := s.creates[id];
    var s1 := LeaveQueue(s, id, c.(phase := Ready), c.phase.hotel);
    PickedTakes(s.cfg, s.hotels, {c.phase.hotel}, MoveRequest(c.request, s.hotels[c.phase.hotel].cfg), s.now, to);
    OneHotelFits(s, s1, c.phase.hotel);
    JoinQueueFits(s1, id, c, to);
  }

  lemma RecheckFits(s: State, id: nat, turnedAway: bool, doomed: bool)
    requires AllFit(s) && CanRecheck(s, id)
    ensures AllFit(ApplyRecheck(s, id, turnedAway, doomed))
  {
  }

  lemma SlotStepFits(s: State, id: nat, e: CreateEvent)
    requires AllFit(s) && CreateEnabled(s, id, e)
    requires e.TakeSlot? || e.Abandon? || e.ReturnSlot? || e.Dispatch? || e.HotelAnswers?
    ensures AllFit(CreateEffect(s, id, e))
  {
    OneHotelFits(s, CreateEffect(s, id, e), s.creates[id].phase.hotel);
  }

  lemma CreateFits(s: State, id: nat, e: CreateEvent)
    requires AllFit(s) && CreateEnabled(s, id, e)
    ensures AllFit(CreateEffect(s, id, e)) <==> !(e.BookReaped? && ReapOverfills(s, id))
  {
    match e
    case Arrive(g, r, labels, recv, tunables) =>
    case PlaceOn(h) =>
      var c, r := s.creates[id], PickRequest(s, s.creates[id]);
      PickedTakes(s.cfg, s.hotels, c.tried, r, s.now, h);
      JoinQueueFits(s, id, c.(request := r, fellBack := c.fellBack || r != c.request), h);
    case Move(to) => MoveFits(s, id, to);
    case Recheck => RecheckFits(s, id, TurnedAway(s, s.creates[id].phase.hotel), Doomed(s, s.creates[id]));
    case Settle => SettleFits(s, id, Doomed(s, s.creates[id]));
    case BookReaped => ReapedFits(s, id);
    case GiveUp =>
    case Unreserve =>
    case GuestGone =>
    case _ => SlotStepFits(s, id, e);
  }

  lemma CheckKeepsRooms(h: Hotel)
    ensures Used(CheckReservedRooms(h)) == Used(h) && CheckReservedRooms(h).slots == h.slots
  {
  }

  lemma ListingKeys(h: Hotel, listed: map<string, string>, now: Time)
    ensures Listing(h, listed, now).rooms.Keys == h.rooms.Keys + listed.Keys
  {
    var known := map hid | hid in h.rooms :: Relisted(h.rooms[hid], hid in listed, now);
    var added := map hid | hid in listed && hid !in h.rooms :: Room(listed[hid], Running, now, 0, false, false);
    assert Listing(h, listed, now).rooms == known + added;
    assert known.Keys == h.rooms.Keys;
    assert added.Keys == listed.Keys - h.rooms.Keys;
  }

  lemma ReleasedUse(l: Hotel, released: set<string>)
    ensures Used(l.(rooms := l.rooms - released)) == |l.rooms.Keys - released| + l.creating + l.queued
  {
    KeysOf(l.rooms - released);
    assert (l.rooms - released).Keys == l.rooms.Keys - released;
  }

  lemma ListedRooms(h: Hotel, listed: map<string, string>, released: set<string>, now: Time)
    ensures Used(ApplyRoomList(h, listed, released, now)) == ListedUse(h, listed, released)
    ensures ApplyRoomList(h, listed, released, now).slots == h.slots
  {
    var l := Listing(h, listed, now);
    ListingKeys(h, listed, now);
    ReleasedUse(l, released);
    CheckKeepsRooms(l.(rooms := l.rooms - released));
  }

  lemma HealthFits(h: Hotel, up: bool, slots: int, mem: real, cpu: real)
    requires Fits(h)
    ensures Fits(ApplyHealth(h, up, slots, mem, cpu)) <==> !(up && Used(h) > ReportedSlots(h, slots))
  {
    assert Used(ApplyHealth(h, up, slots, mem, cpu)) == Used(h);
  }

  lemma DeleteFits(h: Hotel, hid: string, now: Time)
    requires hid in h.rooms
    ensures Used(ApplyDeleteRoom(h, hid, now)) == Used(h) && ApplyDeleteRoom(h, hid, now).slots == h.slots
  {
    GrowsByOne(h.rooms, hid, ApplyDeleteRoom(h, hid, now).rooms[hid]);
  }

  lemma AttestFits(b: BrokerConfig, hotels: map<string, Hotel>, h: string, r: Attestation, now: Time)
    requires h in hotels
    ensures Fits(NoteAttestation(b, hotels, h, r, now)) == Fits(hotels[h])
  {
  }

  lemma BaselineFits(h: Hotel, rid: string)
    ensures Fits(FillBaseline(h, rid)) == Fits(h)
  {
  }

  lemma HotelFits(s: State, h: string, e: HotelEvent)
    requires AllFit(s) && h in s.hotels && HotelEnabled(s, h, e)
    ensures Fits(HotelEffect(s, h, e)) <==> !SyncOverfills(s.hotels[h], e)
  {
    match e
    case Health(up, slots, mem, cpu) => HealthFits(s.hotels[h], up, slots, mem, cpu);
    case RoomList(listed, released) => ListedRooms(s.hotels[h], listed, released, s.now);
    case DeleteRoom(hid) => DeleteFits(s.hotels[h], hid, s.now);
    case Attest(r) => AttestFits(s.cfg, s.hotels, h, r, s.now);
    case Baseline(rid) => BaselineFits(s.hotels[h], rid);
  }

  lemma CommitFits(s: State, saved: bool)
    requires AllFit(s) && CanCommit(s)
    ensures AllFit(ApplyPatchCommit(s, saved)) <==> !PatchLowers(s, saved)
  {
    if PatchAnswer(s, saved).None? {
      var p := s.patch.value;
      assert Used(PatchedHotel(p, s.hotels[p.id])) == Used(s.hotels[p.id]);
      OneHotelFits(s, ApplyPatchCommit(s, saved), p.id);
    }
  }

  lemma AdminFits(s: State, e: AdminEvent)
    requires AllFit(s) && AdminEnabled(s, e)
    ensures AllFit(AdminEffect(s, e)) <==> !(e.PatchCommit? && PatchLowers(s, e.saved))
  {
    match e
    case PatchCommit(saved) => CommitFits(s, saved);
    case JoinAdd(c, adm) => OneHotelFits(s, ApplyJoinAdd(s, c, adm), c.id);
    case Restart(file, skipped, overCap) => RestartFits(s, file, skipped, overCap);
    case _ =>
      MoverFramed(s, e);
      OneHotelFits(s, AdminEffect(s, e), e.hotel);
  }

  lemma RestartFits(s: State, file: map<string, HotelConfig>, skipped: set<string>, overCap: set<string>)
    requires ValidFile(s, file)
    ensures AllFit(ApplyRestart(s, file, skipped, overCap))
  {
  }

  /** Used rooms stay within the slots exactly when the event does not overfill. */
  lemma StepFitsIff(s: State, e: Event)
    requires AllFit(s) && Enabled(s, e)
    ensures AllFit(Next(s, e)) <==> !Overfills(s, e)
  {
    assert AllFit(Next(s, e)) == AllFit(Effect(s, e));
    match e
    case OfCreate(id, c) => CreateFits(s, id, c);
    case OfHotel(h, x) =>
      HotelFits(s, h, x);
      OneHotelFits(s, WithHotel(s, h, HotelEffect(s, h, x)), h);
    case OfDesk(d) => assert AllFit(DeskEffect(s, d));
    case OfAdmin(a) => AdminFits(s, a);
  }

  /** No event of the run overfills a hotel. */
  ghost predicate NeverOverfills(s: State, es: seq<Event>)
    decreases |es|
  {
    es == [] || (Enabled(s, es[0]) && !Overfills(s, es[0]) && NeverOverfills(Next(s, es[0]), es[1..]))
  }

  lemma {:induction false} FitsOn(s: State, es: seq<Event>, t: State)
    requires AllFit(s) && Run(s, es, t) && NeverOverfills(s, es)
    ensures AllFit(t)
    decreases |es|
  {
    if es != [] {
      StepFitsIff(s, es[0]);
      FitsOn(Next(s, es[0]), es[1..], t);
    }
  }

  /** From every start, used rooms stay within the slots of all hotels over
      every run without such an event. */
  lemma RunFits(s: State, es: seq<Event>, t: State)
    requires Init(s) && Run(s, es, t) && NeverOverfills(s, es)
    ensures AllFit(t)
  {
    assert AllFit(s);
    FitsOn(s, es, t);
  }

  lemma SettleFrees(s: State, x: nat, doomed: bool)
    requires CanSettle(s, x) && s.creates[x].gone && s.creates[x].phase.answer.Started?
    ensures var h, t := s.creates[x].phase.hotel, ApplySettle(s, x, doomed);
      && CanBookReaped(t, x) && t.creates[x].phase == Reaping(h, s.creates[x].phase.answer.hid, false)
      && t.hotels[h].rooms == s.hotels[h].rooms && t.hotels[h].slots == s.hotels[h].slots
      && Used(t.hotels[h]) == Used(s.hotels[h]) - 1
  {
  }

  lemma PlaceFills(s: State, y: nat, h: string, r: Request, x: nat)
    requires On(s, y, h) && x != y && CanBookReaped(s, x)
    ensures var t := ApplyPlace(s, y, h, r);
      && CanBookReaped(t, x) && t.creates[x] == s.creates[x]
      && t.hotels[h].rooms == s.hotels[h].rooms && t.hotels[h].slots == s.hotels[h].slots
      && Used(t.hotels[h]) == Used(s.hotels[h]) + 1
  {
  }

  /** y takes the last slot before the room of x is booked. */
  lemma ReapAfterPlace(s: State, x: nat, y: nat, h: string) returns (t: State)
    requires AllFit(s) && x != y && CanBookReaped(s, x) && s.creates[x].phase.hotel == h && CanPlace(s, y, h)
    requires s.creates[x].phase.hid !in s.hotels[h].rooms && Used(s.hotels[h]) == s.hotels[h].slots - 1
    ensures Run(s, [OfCreate(y, PlaceOn(h))] + ([OfCreate(x, BookReaped)] + []), t) && !AllFit(t)
    ensures h in t.hotels && t.hotels[h].slots == s.hotels[h].slots && Used(t.hotels[h]) == t.hotels[h].slots + 1
  {
    var place, book := OfCreate(y, PlaceOn(h)), OfCreate(x, BookReaped);
    PlaceFills(s, y, h, PickRequest(s, s.creates[y]), x);
    StepFitsIff(s, place);
    var u := Next(s, place);
    StepFitsIff(u, book);
    t := Next(u, book);
    RunCons(u, book, [], t);
    RunCons(s, place, [book] + [], t);
  }

  /** The call of x answered with a room that must go, and its hotel is full.
      Once x is settled and before its room is booked, y takes the slot. */
  lemma ReapCanOverfill(s: State, x: nat, y: nat, h: string) returns (t: State)
    requires AllFit(s) && x != y && CanSettle(s, x) && s.creates[x].phase.hotel == h
    requires s.creates[x].gone && s.creates[x].phase.answer.Started? && s.creates[x].phase.answer.hid !in s.hotels[h].rooms
    requires Used(s.hotels[h]) == s.hotels[h].slots && CanPlace(Next(s, OfCreate(x, Settle)), y, h)
    ensures Run(s, [OfCreate(x, Settle)] + ([OfCreate(y, PlaceOn(h))] + ([OfCreate(x, BookReaped)] + [])), t)
    ensures !AllFit(t) && h in t.hotels && t.hotels[h].slots == s.hotels[h].slots && Used(t.hotels[h]) == t.hotels[h].slots + 1
  {
    var settle := OfCreate(x, Settle);
    SettleFrees(s, x, Doomed(s, s.creates[x]));
    StepFitsIff(s, settle);
    t := ReapAfterPlace(Next(s, settle), x, y, h);
    RunCons(s, settle, [OfCreate(y, PlaceOn(h))] + ([OfCreate(x, BookReaped)] + []), t);
  }
}
