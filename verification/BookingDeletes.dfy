/**
 Deletes by label against creates in flight. Over every interleaving, a create
 received before a matching delete was recorded starts no room, has its room
 reaped, or had its room in the books before the delete was recorded (and so
 before the delete went to the hotels), unless the create took longer than the
 lifetime of the tombstone.
 */
module BookingDeletes {
  import opened Hotels
  import opened Placement
  import opened Inflight
  import opened Booking
  import opened BookingFrames

  /** d is a later delete by label that matches c. */
  predicate Hits(d: Delete, c: Create) {
    d.guest == c.guest && c.recv < d.at && MatchesLabels(d.want, c.labels)
  }

  /** c came out before d was recorded, or after d's tombstone ran out. */
  predicate Ordered(d: Delete, c: Create) {
    c.outcome.Booked? ==> c.outcome.step < d.step || c.outcome.at - d.at >= TOMBSTONE_TTL
  }

  predicate Caused(deletes: seq<Delete>, c: Create) {
    exists d :: d in deletes && Hits(d, c)
  }

  predicate BookedIsOver(c: Create) {
    c.outcome.Booked? ==> c.phase.Finished? || c.phase.Done?
  }

  /** A finished create has an outcome; one that says "deleted" or "reaped"
      has a delete by label that came after it, or a guest that went away. */
  predicate Explained(deletes: seq<Delete>, c: Create) {
    && (c.phase.Finished? || c.phase.Done? ==> !c.outcome.Open?)
    && BookedIsOver(c)
    && ((c.phase.Returning? || c.phase.Reaping?) && !c.phase.again ==> !c.outcome.Open?)
    && (c.outcome.Deleted? ==> Caused(deletes, c))
    && (c.outcome.Reaped? ==> c.gone || Caused(deletes, c))
  }

  predicate Recorded(deletes: seq<Delete>, g: string, t: Tombstone) {
    exists d :: d in deletes && d.guest == g && d.want == t.want && d.at == t.at
  }

  /** The tombstones are the deletes that have not run out. */
  predicate TombsOk(s: State) {
    && (forall d :: d in s.deletes && s.now - d.at < TOMBSTONE_TTL ==>
          d.guest in s.tombs && Tombstone(d.want, d.at) in s.tombs[d.guest])
    && (forall g, t :: g in s.tombs && t in s.tombs[g] ==> Recorded(s.deletes, g, t))
    && (forall d :: d in s.deletes ==> d.step < s.steps)
  }

  predicate CreateOk(s: State, c: Create) {
    && (c.outcome.Booked? ==> c.outcome.step < s.steps)
    && Explained(s.deletes, c)
    && forall d :: d in s.deletes && Hits(d, c) ==> Ordered(d, c)
  }

  predicate DeleteInv(s: State) {
    TombsOk(s) && forall id :: id in s.creates ==> CreateOk(s, s.creates[id])
  }

  // ------------------------------------------------------------ tombstones

  /** A create is doomed exactly when a delete that has not run out hits it. */
  lemma DoomedIffHit(s: State, c: Create)
    requires TombsOk(s)
    ensures Doomed(s, c) <==> exists d :: d in s.deletes && Hits(d, c) && s.now - d.at < TOMBSTONE_TTL
  {
    if Doomed(s, c) {
      var i :| 0 <= i < |s.tombs[c.guest]| && Catches(s.tombs[c.guest][i], c.labels, c.recv, s.now);
      var t := s.tombs[c.guest][i];
      assert Recorded(s.deletes, c.guest, t);
      var d :| d in s.deletes && d.guest == c.guest && d.want == t.want && d.at == t.at;
      assert Hits(d, c);
    }
    if d :| d in s.deletes && Hits(d, c) && s.now - d.at < TOMBSTONE_TTL {
      var t := Tombstone(d.want, d.at);
      assert t in s.tombs[c.guest];
      var i :| 0 <= i < |s.tombs[c.guest]| && s.tombs[c.guest][i] == t;
      assert Catches(s.tombs[c.guest][i], c.labels, c.recv, s.now);
    }
  }

  lemma RecordedTombs(s: State, g: string, want: map<string, string>)
    requires TombsOk(s)
    ensures TombsOk(ApplyLabelDelete(s, g, want).(steps := s.steps + 1))
  {
    var t := ApplyLabelDelete(s, g, want).(steps := s.steps + 1);
    var n := Delete(g, want, s.now, s.steps);
    var before := if g in s.tombs then s.tombs[g] else [];
    assert t.deletes == s.deletes + [n];
    assert t.tombs == s.tombs[g := Kept(before, s.now) + [Tombstone(want, s.now)]];
    forall g1, x | g1 in t.tombs && x in t.tombs[g1]
      ensures Recorded(t.deletes, g1, x)
    {
      if g1 == g && x == Tombstone(want, s.now) {
        assert n in t.deletes;
      } else {
        assert g1 in s.tombs && x in s.tombs[g1];
        var d :| d in s.deletes && d.guest == g1 && d.want == x.want && d.at == x.at;
        assert d in t.deletes;
      }
    }
    forall d | d in t.deletes && t.now - d.at < TOMBSTONE_TTL
      ensures d.guest in t.tombs && Tombstone(d.want, d.at) in t.tombs[d.guest]
    {
      if d != n {
        assert d in s.deletes;
        assert Tombstone(d.want, d.at) in s.tombs[d.guest];
      }
    }
  }

  /** A new delete comes after everything that is booked. */
  lemma RecordedCreate(s: State, c: Create, n: Delete, t: State)
    requires CreateOk(s, c) && n.step == s.steps && t.deletes == s.deletes + [n] && t.steps == s.steps + 1
    ensures CreateOk(t, c)
  {
    if Caused(s.deletes, c) {
      var d :| d in s.deletes && Hits(d, c);
      assert d in t.deletes;
    }
  }

  // ------------------------------------------------------------ outcomes

  /** How one step of a create may change its outcome. */
  predicate OutcomeStep(c: Create, d: Create, doomed: bool, steps: nat, now: Time) {
    && (c.gone ==> d.gone)
    && (|| d.outcome == c.outcome
        || d.outcome.NoRoom?
        || (d.outcome.Deleted? && doomed)
        || (d.outcome.Reaped? && (c.gone || doomed))
        || (d.outcome == Booked(steps, now) && !doomed))
    && (d.phase.Finished? || d.phase.Done? ==>
          !d.outcome.Open? || c.phase.Finished? || c.phase.Done? || ((c.phase.Returning? || c.phase.Reaping?) && !c.phase.again))
    && ((d.phase.Returning? || d.phase.Reaping?) && !d.phase.again ==>
          !d.outcome.Open? || ((c.phase.Returning? || c.phase.Reaping?) && !c.phase.again))
    && (d.outcome.Open? ==> c.outcome.Open?)
    && (BookedIsOver(c) ==> BookedIsOver(d))
  }

  lemma QueueOutcome(s: State, id: nat, e: CreateEvent, doomed: bool)
    requires CreateEnabled(s, id, e)
    requires e.GiveUp? || e.TakeSlot? || e.Abandon? || e.ReturnSlot? || e.GuestGone? || e.Unreserve?
    ensures OutcomeStep(s.creates[id], CreateEffect(s, id, e).creates[id], doomed, s.steps, s.now)
  {
  }

  lemma PlaceOutcome(s: State, id: nat, to: string, r: Request, doomed: bool)
    requires On(s, id, to) && s.creates[id].phase.Ready?
    ensures OutcomeStep(s.creates[id], ApplyPlace(s, id, to, r).creates[id], doomed, s.steps, s.now)
  {
  }

  lemma CallOutcome(s: State, id: nat, e: CreateEvent, doomed: bool)
    requires CreateEnabled(s, id, e) && (e.Dispatch? || e.HotelAnswers? || e.BookReaped? || e.Move?)
    ensures OutcomeStep(s.creates[id], CreateEffect(s, id, e).creates[id], doomed, s.steps, s.now)
  {
  }

  lemma RecheckOutcome(s: State, id: nat, turnedAway: bool, doomed: bool)
    requires CanRecheck(s, id)
    ensures OutcomeStep(s.creates[id], ApplyRecheck(s, id, turnedAway, doomed).creates[id], doomed, s.steps, s.now)
  {
  }

  lemma SettleOutcome(s: State, id: nat, doomed: bool)
    requires CanSettle(s, id)
    ensures OutcomeStep(s.creates[id], ApplySettle(s, id, doomed).creates[id], doomed, s.steps, s.now)
  {
  }

  lemma StepOutcome(s: State, id: nat, e: CreateEvent)
    requires CreateEnabled(s, id, e) && !e.Arrive?
    ensures OutcomeStep(s.creates[id], CreateEffect(s, id, e).creates[id], Doomed(s, s.creates[id]), s.steps, s.now)
  {
    var doomed := Doomed(s, s.creates[id]);
    match e
    case PlaceOn(to) => PlaceOutcome(s, id, to, PickRequest(s, s.creates[id]), doomed);
    case Recheck => RecheckOutcome(s, id, TurnedAway(s, s.creates[id].phase.hotel), doomed);
    case Settle => SettleOutcome(s, id, doomed);
    case Dispatch => CallOutcome(s, id, e, doomed);
    case HotelAnswers(_) => CallOutcome(s, id, e, doomed);
    case BookReaped => CallOutcome(s, id, e, doomed);
    case Move(_) => CallOutcome(s, id, e, doomed);
    case _ => QueueOutcome(s, id, e, doomed);
  }

  /** A create that comes out now is in order with every delete. */
  lemma SteppedCreate(s: State, c: Create, d: Create)
    requires TombsOk(s) && CreateOk(s, c) && SameRequest(c, d)
    requires OutcomeStep(c, d, Doomed(s, c), s.steps, s.now)
    ensures CreateOk(s.(steps := s.steps + 1), d)
  {
    DoomedIffHit(s, c);
    forall x | x in s.deletes
      ensures Hits(x, c) == Hits(x, d)
    {
    }
    if Caused(s.deletes, c) {
      var x :| x in s.deletes && Hits(x, c);
      assert Hits(x, d);
    }
    if Doomed(s, c) {
      var x :| x in s.deletes && Hits(x, c) && s.now - x.at < TOMBSTONE_TTL;
      assert Hits(x, d);
    }
  }

  // ------------------------------------------------------------ runs

  lemma OneCreateDeletes(s: State, id: nat, t: State)
    requires DeleteInv(s) && CreateFrame(s, id, t) && CreateOk(t.(steps := s.steps + 1), t.creates[id])
    ensures DeleteInv(t.(steps := s.steps + 1))
  {
    forall i | i in t.creates
      ensures CreateOk(t.(steps := s.steps + 1), t.creates[i])
    {
      if i != id {
        assert CreateOk(s, s.creates[i]);
      }
    }
  }

  lemma CreateDeletes(s: State, id: nat, e: CreateEvent)
    requires DeleteInv(s) && CreateEnabled(s, id, e)
    ensures DeleteInv(CreateEffect(s, id, e).(steps := s.steps + 1))
  {
    var t := CreateEffect(s, id, e);
    CreateFramed(s, id, e);
    if e.Arrive? {
      ArrivedCreate(s, t, id, e);
    } else {
      StepOutcome(s, id, e);
      OutcomeKept(s, id, t);
    }
    OneCreateDeletes(s, id, t);
  }

  lemma ArrivedCreate(s: State, t: State, id: nat, e: CreateEvent)
    requires DeleteInv(s) && CreateEnabled(s, id, e) && e.Arrive? && t == CreateEffect(s, id, e)
    ensures CreateOk(t.(steps := s.steps + 1), t.creates[id])
  {
  }

  lemma OutcomeKept(s: State, id: nat, t: State)
    requires DeleteInv(s) && CreateFrame(s, id, t) && id in s.creates
    requires OutcomeStep(s.creates[id], t.creates[id], Doomed(s, s.creates[id]), s.steps, s.now)
    ensures CreateOk(t.(steps := s.steps + 1), t.creates[id])
  {
    assert CreateOk(s, s.creates[id]);
    SteppedCreate(s, s.creates[id], t.creates[id]);
  }

  /** A step that records no delete and moves no create. */
  lemma OtherDeletes(s: State, t: State)
    requires DeleteInv(s)
    requires t.tombs == s.tombs && t.deletes == s.deletes && t.creates == s.creates
    requires t.steps == s.steps + 1 && t.now >= s.now
    ensures DeleteInv(t)
  {
    forall i | i in t.creates
      ensures CreateOk(t, t.creates[i])
    {
      assert CreateOk(s, s.creates[i]);
    }
  }

  lemma LabelDeletes(s: State, g: string, want: map<string, string>)
    requires DeleteInv(s)
    ensures DeleteInv(ApplyLabelDelete(s, g, want).(steps := s.steps + 1))
  {
    var t := ApplyLabelDelete(s, g, want).(steps := s.steps + 1);
    RecordedTombs(s, g, want);
    forall i | i in t.creates
      ensures CreateOk(t, t.creates[i])
    {
      RecordedCreate(s, s.creates[i], Delete(g, want, s.now, s.steps), t);
    }
  }

  lemma DeskDeletes(s: State, e: DeskEvent)
    requires DeleteInv(s) && DeskEnabled(s, e)
    ensures DeleteInv(DeskEffect(s, e).(steps := s.steps + 1))
  {
    if e.LabelDelete? {
      LabelDeletes(s, e.guest, e.want);
    } else {
      OtherDeletes(s, DeskEffect(s, e).(steps := s.steps + 1));
    }
  }

  lemma AdminDeletes(s: State, e: AdminEvent)
    requires DeleteInv(s) && AdminEnabled(s, e)
    ensures DeleteInv(AdminEffect(s, e).(steps := s.steps + 1))
  {
    if !e.Restart? {
      AdminFramed(s, e);
      OtherDeletes(s, AdminEffect(s, e).(steps := s.steps + 1));
    }
  }

  lemma StepDeletes(s: State, e: Event)
    requires DeleteInv(s) && Enabled(s, e)
    ensures DeleteInv(Next(s, e))
  {
    match e
    case OfCreate(id, c) => CreateDeletes(s, id, c);
    case OfHotel(h, x) => OtherDeletes(s, Next(s, e));
    case OfDesk(d) => DeskDeletes(s, d);
    case OfAdmin(a) => AdminDeletes(s, a);
  }

  lemma {:induction false} RunDeletes(s: State, es: seq<Event>, t: State)
    requires DeleteInv(s) && Run(s, es, t)
    ensures DeleteInv(t)
    decreases |es|
  {
    if es != [] {
      StepDeletes(s, es[0]);
      RunDeletes(Next(s, es[0]), es[1..], t);
    }
  }

  /** The linearization: whatever the interleaving, a finished create that a
      later delete matches has no room, a reaped room, or a room that was in
      the books before the delete was recorded, unless its hotel answered only
      after the tombstone ran out. */
  lemma LaterDeleteCatches(t: State, id: nat, d: Delete)
    requires Reachable(t) && id in t.creates && d in t.deletes && Hits(d, t.creates[id])
    requires t.creates[id].phase.Finished? || t.creates[id].phase.Done?
    ensures var o := t.creates[id].outcome;
      || o.NoRoom? || o.Reaped? || o.Deleted?
      || (o.Booked? && (o.step < d.step || o.at - d.at >= TOMBSTONE_TTL))
  {
    var s, es :| Init(s) && Run(s, es, t);
    RunDeletes(s, es, t);
    assert CreateOk(t, t.creates[id]);
  }

  /** A create is answered "deleted" only if a later delete matched it, and its
      room is reaped only for that or because its guest went away. */
  lemma OnlyHitIsDeleted(t: State, id: nat)
    requires Reachable(t) && id in t.creates
    ensures t.creates[id].outcome.Deleted? ==> exists d :: d in t.deletes && Hits(d, t.creates[id])
    ensures t.creates[id].outcome.Reaped? ==> t.creates[id].gone || exists d :: d in t.deletes && Hits(d, t.creates[id])
  {
    var s, es :| Init(s) && Run(s, es, t);
    RunDeletes(s, es, t);
    assert CreateOk(t, t.creates[id]);
  }

  // ------------------------------------------------------------ rooms

  /** The room of c as the books first hold it: running, or on its way out. */
  function RunningRoom(c: Create, now: Time): Room {
    Room(c.guest, Running, now, 0, false, false)
  }

  function ReapedRoom(c: Create, now: Time): Room {
    Room(c.guest, Deleting, now, now, false, true)
  }

  predicate SameRooms(s: State, t: State) {
    forall h :: h in s.hotels ==> h in t.hotels && t.hotels[h].rooms == s.hotels[h].rooms
  }

  /** Of all hotels only the rooms of h have changed, to these. */
  predicate OnlyRoomsOf(s: State, t: State, h: string, rooms: map<string, Room>) {
    && h in t.hotels && t.hotels[h].rooms == rooms
    && forall x :: x in s.hotels && x != h ==> x in t.hotels && t.hotels[x].rooms == s.hotels[x].rooms
  }

  /** The hotel answered with a room that is still wanted. */
  predicate Keeps(c: Create, doomed: bool)
    requires c.phase.Answered?
  {
    c.phase.answer.Started? && !MustReap(c, c.phase.answer, doomed)
  }

  lemma SettledRooms(s: State, id: nat, doomed: bool)
    requires CanSettle(s, id)
    ensures var c, t := s.creates[id], ApplySettle(s, id, doomed);
      if Keeps(c, doomed) then
        && t.creates[id].outcome == Booked(s.steps, s.now)
        && OnlyRoomsOf(s, t, c.phase.hotel, s.hotels[c.phase.hotel].rooms[c.phase.answer.hid := RunningRoom(c, s.now)])
      else
        SameRooms(s, t) && t.creates[id].outcome in {c.outcome, NoRoom, Reaped}
  {
  }

  lemma ReapedRooms(s: State, id: nat)
    requires CanBookReaped(s, id)
    ensures var c, t := s.creates[id], ApplyBookReaped(s, id);
      && t.creates[id].outcome == c.outcome
      && OnlyRoomsOf(s, t, c.phase.hotel, s.hotels[c.phase.hotel].rooms[c.phase.hid := ReapedRoom(c, s.now)])
  {
  }

  lemma ReachableDeletes(s: State)
    requires Reachable(s)
    ensures DeleteInv(s)
  {
    var s0, es :| Init(s0) && Run(s0, es, s);
    RunDeletes(s0, es, s);
  }

  /** Every recorded delete that hits c has run out. */
  predicate RanOut(s: State, c: Create) {
    forall d :: d in s.deletes && Hits(d, c) ==> s.now - d.at >= TOMBSTONE_TTL
  }

  /** The answer is a room that the guest still wants, as asked for. */
  predicate Wanted(c: Create) {
    c.phase.Answered? && c.phase.answer.Started? && !c.gone && (c.wantTunables ==> c.phase.answer.tunablesApplied)
  }

  lemma SettledPhase(s: State, id: nat, doomed: bool)
    requires CanSettle(s, id) && Wanted(s.creates[id])
    ensures Keeps(s.creates[id], doomed) <==> !doomed
    ensures var c, t := s.creates[id], ApplySettle(s, id, doomed);
      t.creates[id].phase == if doomed then Reaping(c.phase.hotel, c.phase.answer.hid, false) else Finished
  {
  }

  /** From s to t the room of create id went into the books, or to the reaper. */
  predicate RoomKept(s: State, t: State, id: nat, kept: bool)
    requires CanSettle(s, id) && s.creates[id].phase.answer.Started?
  {
    var c := s.creates[id];
    id in t.creates &&
    if kept then
      t.creates[id].outcome.Booked?
      && OnlyRoomsOf(s, t, c.phase.hotel, s.hotels[c.phase.hotel].rooms[c.phase.answer.hid := RunningRoom(c, s.now)])
    else
      !t.creates[id].outcome.Booked? && SameRooms(s, t) && t.creates[id].phase == Reaping(c.phase.hotel, c.phase.answer.hid, false)
  }

  lemma SettledIff(s: State, id: nat)
    requires TombsOk(s) && CanSettle(s, id) && Wanted(s.creates[id]) && !s.creates[id].outcome.Booked?
    ensures RoomKept(s, ApplySettle(s, id, Doomed(s, s.creates[id])), id, RanOut(s, s.creates[id]))
  {
    DoomedIffHit(s, s.creates[id]);
    SettledRooms(s, id, Doomed(s, s.creates[id]));
    SettledPhase(s, id, Doomed(s, s.creates[id]));
  }

  /** A create whose hotel answered with a room that the guest still wants: its
      settle books the room, and it stays in the books as a running one, if and
      only if every delete that hits the create has run out; otherwise the books
      hold what they held and the room goes to the reaper. */
  lemma BookedIffRanOut(s: State, id: nat)
    requires Reachable(s) && CanSettle(s, id) && Wanted(s.creates[id])
    ensures RoomKept(s, ApplySettle(s, id, Doomed(s, s.creates[id])), id, RanOut(s, s.creates[id]))
  {
    assert TombsOk(s) && !s.creates[id].outcome.Booked? by {
      ReachableDeletes(s);
      assert CreateOk(s, s.creates[id]);
    }
    SettledIff(s, id);
  }

  lemma QueueRooms(s: State, id: nat, e: CreateEvent)
    requires CreateEnabled(s, id, e) && id in s.creates
    requires e.GiveUp? || e.TakeSlot? || e.Abandon? || e.ReturnSlot? || e.GuestGone? || e.Unreserve? || e.Dispatch? || e.HotelAnswers?
    ensures SameRooms(s, CreateEffect(s, id, e)) && CreateEffect(s, id, e).creates[id].outcome in {s.creates[id].outcome, NoRoom}
  {
  }

  lemma PlacedRooms(s: State, id: nat, to: string, r: Request)
    requires On(s, id, to)
    ensures SameRooms(s, ApplyPlace(s, id, to, r)) && ApplyPlace(s, id, to, r).creates[id].outcome == s.creates[id].outcome
  {
  }

  lemma MovedRooms(s: State, id: nat, to: string)
    requires InQueue(s, id) && to in s.hotels
    ensures SameRooms(s, ApplyMove(s, id, to)) && ApplyMove(s, id, to).creates[id].outcome == s.creates[id].outcome
  {
  }

  lemma RecheckedRooms(s: State, id: nat, turnedAway: bool, doomed: bool)
    requires CanRecheck(s, id)
    ensures SameRooms(s, ApplyRecheck(s, id, turnedAway, doomed))
    ensures ApplyRecheck(s, id, turnedAway, doomed).creates[id].outcome in {s.creates[id].outcome, NoRoom, Deleted}
  {
  }

  /** What the outcome of a create says of the books: an event of the create
      turns its outcome into Booked exactly when it puts a running room of the
      create into them, and no other of its events but a reap changes them. */
  lemma OutcomeIsRoom(s: State, id: nat, e: CreateEvent)
    requires CreateEnabled(s, id, e) && id in s.creates && !s.creates[id].outcome.Booked?
    ensures var c, t := s.creates[id], CreateEffect(s, id, e);
      if t.creates[id].outcome.Booked? then
        && e.Settle? && c.phase.answer.Started?
        && OnlyRoomsOf(s, t, c.phase.hotel, s.hotels[c.phase.hotel].rooms[c.phase.answer.hid := RunningRoom(c, s.now)])
      else if e.BookReaped? then
        OnlyRoomsOf(s, t, c.phase.hotel, s.hotels[c.phase.hotel].rooms[c.phase.hid := ReapedRoom(c, s.now)])
      else SameRooms(s, t)
  {
    var c := s.creates[id];
    match e
    case PlaceOn(to) => PlacedRooms(s, id, to, PickRequest(s, c));
    case Move(to) => MovedRooms(s, id, to);
    case Recheck => RecheckedRooms(s, id, TurnedAway(s, c.phase.hotel), Doomed(s, c));
    case Settle => SettledRooms(s, id, Doomed(s, c));
    case BookReaped => ReapedRooms(s, id);
    case _ => QueueRooms(s, id, e);
  }

  lemma OverRooms(s: State, id: nat, e: CreateEvent)
    requires CreateEnabled(s, id, e) && id in s.creates && (s.creates[id].phase.Finished? || s.creates[id].phase.Done?)
    ensures SameRooms(s, CreateEffect(s, id, e))
  {
    assert e.Unreserve? || e.GuestGone?;
    QueueRooms(s, id, e);
  }

  lemma HitIsReaped(s: State, id: nat, d: Delete)
    requires TombsOk(s) && CanSettle(s, id) && d in s.deletes && Hits(d, s.creates[id]) && s.now - d.at < TOMBSTONE_TTL
    ensures SameRooms(s, CreateEffect(s, id, Settle))
  {
    DoomedIffHit(s, s.creates[id]);
    SettledRooms(s, id, Doomed(s, s.creates[id]));
  }

  /** From the time a delete is recorded until it runs out, no event of a create
      that it hits puts a running room into the books of any hotel. */
  lemma HitAddsNoRoom(s: State, id: nat, e: CreateEvent, d: Delete)
    requires Reachable(s) && CreateEnabled(s, id, e) && id in s.creates
    requires d in s.deletes && Hits(d, s.creates[id]) && s.now - d.at < TOMBSTONE_TTL
    ensures var c, t := s.creates[id], CreateEffect(s, id, e);
      SameRooms(s, t) || (e.BookReaped? && OnlyRoomsOf(s, t, c.phase.hotel, s.hotels[c.phase.hotel].rooms[c.phase.hid := ReapedRoom(c, s.now)]))
  {
    ReachableDeletes(s);
    assert CreateOk(s, s.creates[id]);
    if s.creates[id].outcome.Booked? {
      OverRooms(s, id, e);
    } else if e.Settle? {
      HitIsReaped(s, id, d);
    } else {
      OutcomeIsRoom(s, id, e);
    }
  }
}
