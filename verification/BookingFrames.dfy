/**
 What the events of a create leave as they were. Later proofs read these facts
 instead of the steps.
 */
module BookingFrames {
  import opened Hotels
  import opened Booking

  predicate WaitsOn(c: Create, h: string) {
    (c.phase.Queued? || c.phase.Holding? || c.phase.Cleared?) && c.phase.hotel == h
  }

  predicate CallOn(c: Create, h: string) {
    (c.phase.Dispatched? || c.phase.Answered?) && c.phase.hotel == h
  }

  /** Queued on h, or dispatched to it and not settled. */
  predicate Bound(c: Create, h: string) {
    WaitsOn(c, h) || CallOn(c, h)
  }

  predicate SlotOn(c: Create, h: string) {
    (c.phase.Holding? || c.phase.Cleared? || c.phase.Returning? || c.phase.Dispatched?) && c.phase.hotel == h
  }

  predicate CreateFrame(s: State, id: nat, t: State) {
    && id in t.creates && t.creates == s.creates[id := t.creates[id]]
    && (id in s.creates ==> t.creates[id].guest == s.creates[id].guest && t.creates[id].labels == s.creates[id].labels
                            && t.creates[id].recv == s.creates[id].recv)
    && t.hotels.Keys == s.hotels.Keys
    && (forall h :: h in s.hotels ==> SameHotel(s.hotels[h], t.hotels[h]))
    && t.cfg == s.cfg && t.now == s.now && t.steps == s.steps && t.tombs == s.tombs && t.deletes == s.deletes
    && t.patch == s.patch && t.moving == s.moving && t.disk == s.disk && t.otherLends == s.otherLends && t.lentClean == s.lentClean
  }

  predicate SameRequest(c: Create, d: Create) {
    d.guest == c.guest && d.labels == c.labels && d.recv == c.recv
  }

  lemma PostFramed(s: State, id: nat, d: Create, h: string, r: Hotel, g: Guest)
    requires h in s.hotels && SameHotel(s.hotels[h], r)
    requires id in s.creates && SameRequest(s.creates[id], d)
    ensures CreateFrame(s, id, Post(s, id, d, h, r, g))
  {
  }

  lemma PostGuestFramed(s: State, id: nat, d: Create, g: Guest)
    requires id in s.creates ==> SameRequest(s.creates[id], d)
    ensures CreateFrame(s, id, PostGuest(s, id, d, g))
  {
  }

  lemma FramedTwice(s: State, id: nat, s1: State, t: State)
    requires id in s.creates && CreateFrame(s, id, s1) && CreateFrame(s1, id, t)
    ensures CreateFrame(s, id, t)
  {
    assert s.creates[id := s1.creates[id]][id := t.creates[id]] == s.creates[id := t.creates[id]];
  }

  lemma LeaveQueueFramed(s: State, id: nat, c: Create, h: string)
    requires h in s.hotels && c.guest in s.guests && id in s.creates && SameRequest(s.creates[id], c)
    ensures CreateFrame(s, id, LeaveQueue(s, id, c, h))
  {
    var r, g := s.hotels[h].(queued := s.hotels[h].queued - 1), s.guests[c.guest].(queued := s.guests[c.guest].queued - 1);
    assert LeaveQueue(s, id, c, h) == Post(s, id, c, h, r, g);
    PostFramed(s, id, c, h, r, g);
  }

  lemma JoinQueueFramed(s: State, id: nat, c: Create, h: string)
    requires h in s.hotels && c.guest in s.guests && id in s.creates && SameRequest(s.creates[id], c)
    ensures CreateFrame(s, id, JoinQueue(s, id, c, h))
  {
    var r, g := s.hotels[h].(queued := s.hotels[h].queued + 1), s.guests[c.guest].(queued := s.guests[c.guest].queued + 1);
    var d := c.(phase := Queued(h), tried := c.tried + {h});
    assert JoinQueue(s, id, c, h) == Post(s, id, d, h, r, g);
    PostFramed(s, id, d, h, r, g);
  }

  lemma MoveFramed(s: State, id: nat, to: string)
    requires InQueue(s, id) && to in s.hotels
    ensures CreateFrame(s, id, ApplyMove(s, id, to))
  {
    var c := s.creates[id];
    var s1 := LeaveQueue(s, id, c.(phase := Ready), c.phase.hotel);
    LeaveQueueFramed(s, id, c.(phase := Ready), c.phase.hotel);
    JoinQueueFramed(s1, id, c, to);
    FramedTwice(s, id, s1, JoinQueue(s1, id, c, to));
  }

  lemma RecheckFramed(s: State, id: nat, turnedAway: bool, doomed: bool)
    requires CanRecheck(s, id)
    ensures CreateFrame(s, id, ApplyRecheck(s, id, turnedAway, doomed))
  {
    var c := s.creates[id];
    var h := c.phase.hotel;
    LeaveQueueFramed(s, id, c.(phase := Returning(h, true)), h);
    LeaveQueueFramed(s, id, c.(phase := Returning(h, false), outcome := NoRoom), h);
    LeaveQueueFramed(s, id, c.(phase := Returning(h, false), outcome := Deleted), h);
    PostGuestFramed(s, id, c.(phase := Cleared(h)), s.guests[c.guest]);
  }

  lemma SettleFramed(s: State, id: nat, doomed: bool)
    requires CanSettle(s, id)
    ensures CreateFrame(s, id, ApplySettle(s, id, doomed))
  {
    var t := ApplySettle(s, id, doomed);
    var h := s.creates[id].phase.hotel;
    PostFramed(s, id, t.creates[id], h, t.hotels[h], t.guests[s.creates[id].guest]);
  }

  lemma OwnHotelFramed(s: State, id: nat, e: CreateEvent)
    requires CreateEnabled(s, id, e)
    requires e.TakeSlot? || e.Abandon? || e.ReturnSlot? || e.Dispatch? || e.HotelAnswers? || e.BookReaped?
    ensures CreateFrame(s, id, CreateEffect(s, id, e))
  {
    var t := CreateEffect(s, id, e);
    var h := s.creates[id].phase.hotel;
    PostFramed(s, id, t.creates[id], h, t.hotels[h], t.guests[s.creates[id].guest]);
  }

  lemma CreateFramed(s: State, id: nat, e: CreateEvent)
    requires CreateEnabled(s, id, e)
    ensures CreateFrame(s, id, CreateEffect(s, id, e))
  {
    var t := CreateEffect(s, id, e);
    match e
    case Arrive(g, r, labels, recv, tunables) => PostGuestFramed(s, id, t.creates[id], t.guests[g]);
    case PlaceOn(h) =>
      var c, r := s.creates[id], PickRequest(s, s.creates[id]);
      JoinQueueFramed(s, id, c.(request := r, fellBack := c.fellBack || r != c.request), h);
    case Move(to) => MoveFramed(s, id, to);
    case Recheck => RecheckFramed(s, id, TurnedAway(s, s.creates[id].phase.hotel), Doomed(s, s.creates[id]));
    case Settle => SettleFramed(s, id, Doomed(s, s.creates[id]));
    case GiveUp => PostGuestFramed(s, id, t.creates[id], t.guests[s.creates[id].guest]);
    case Unreserve => PostGuestFramed(s, id, t.creates[id], t.guests[s.creates[id].guest]);
    case GuestGone => PostGuestFramed(s, id, t.creates[id], t.guests[s.creates[id].guest]);
    case _ => OwnHotelFramed(s, id, e);
  }

  // ------------------------------------------------------------ admin events

  /** What no event of the operator but a restart changes. */
  predicate AdminFrame(s: State, t: State) {
    && t.creates == s.creates && t.guests == s.guests && t.tombs == s.tombs && t.deletes == s.deletes
    && t.now == s.now && t.steps == s.steps && t.cfg == s.cfg && t.otherLends == s.otherLends
  }

  lemma CommitFramed(s: State, saved: bool)
    requires CanCommit(s)
    ensures AdminFrame(s, ApplyPatchCommit(s, saved))
  {
  }

  lemma EndMoveFramed(s: State, h: string, stage: Stage, saved: bool)
    requires h in s.hotels
    ensures AdminFrame(s, EndMove(s, h, stage, saved))
  {
  }

  lemma AdminFramed(s: State, e: AdminEvent)
    requires AdminEnabled(s, e) && !e.Restart?
    ensures AdminFrame(s, AdminEffect(s, e))
  {
    match e
    case PatchCommit(saved) => CommitFramed(s, saved);
    case JoinAdd(c, adm) => assert AdminFrame(s, ApplyJoinAdd(s, c, adm));
    case JoinRefuse(h) => assert AdminFrame(s, ApplyJoinRefuse(s, h));
    case JoinCheck(h) =>
    case JoinSave(h, saved) => EndMoveFramed(s, h, if saved then InPlace else Gone, saved);
    case LeaveMark(h) =>
    case LeaveDrop(h) =>
    case LeaveSave(h, saved) => EndMoveFramed(s, h, if saved then Gone else InPlace, saved);
  }

  predicate SameContents(h: Hotel, r: Hotel) {
    && r.cfg == h.cfg && r.runtime == h.runtime && r.slots == h.slots && r.rooms == h.rooms
    && r.queued == h.queued && r.creating == h.creating && r.sem == h.sem && r.roomsUnchecked == h.roomsUnchecked
  }

  predicate MoverFrame(s: State, t: State, h: string) {
    && h in s.hotels && h in t.hotels && t.hotels == s.hotels[h := t.hotels[h]]
    && SameContents(s.hotels[h], t.hotels[h])
  }

  lemma EndMoveMoves(s: State, h: string, stage: Stage, saved: bool)
    requires h in s.hotels
    ensures MoverFrame(s, EndMove(s, h, stage, saved), h)
  {
  }

  lemma RefuseMoves(s: State, h: string)
    requires h in s.hotels
    ensures MoverFrame(s, ApplyJoinRefuse(s, h), h)
  {
  }

  /** After its first step a join, and a leave at each step, changes the stage
      and the attestation of one hotel. */
  lemma MoverFramed(s: State, e: AdminEvent)
    requires AdminEnabled(s, e) && !e.PatchCommit? && !e.Restart? && !e.JoinAdd?
    ensures MoverFrame(s, AdminEffect(s, e), e.hotel)
  {
    match e
    case JoinRefuse(h) => RefuseMoves(s, h);
    case JoinCheck(h) =>
    case JoinSave(h, saved) => EndMoveMoves(s, h, if saved then InPlace else Gone, saved);
    case LeaveMark(h) =>
    case LeaveDrop(h) =>
    case LeaveSave(h, saved) => EndMoveMoves(s, h, if saved then Gone else InPlace, saved);
  }

  // ------------------------------------------------------------ seats

  /** The create is bound to no hotel it was not bound to before. */
  ghost predicate KeepsSeat(c: Create, d: Create) {
    d.request.guest == c.request.guest && forall h :: Bound(d, h) ==> Bound(c, h)
  }

  lemma QueueKeepsSeat(s: State, id: nat, e: CreateEvent)
    requires CreateEnabled(s, id, e)
    requires e.GiveUp? || e.TakeSlot? || e.Abandon? || e.ReturnSlot? || e.GuestGone? || e.Unreserve?
    ensures KeepsSeat(s.creates[id], CreateEffect(s, id, e).creates[id])
  {
  }

  lemma CallKeepsSeat(s: State, id: nat, e: CreateEvent)
    requires CreateEnabled(s, id, e) && (e.Dispatch? || e.HotelAnswers? || e.BookReaped?)
    ensures KeepsSeat(s.creates[id], CreateEffect(s, id, e).creates[id])
  {
  }

  lemma RecheckKeepsSeat(s: State, id: nat, turnedAway: bool, doomed: bool)
    requires CanRecheck(s, id)
    ensures KeepsSeat(s.creates[id], ApplyRecheck(s, id, turnedAway, doomed).creates[id])
  {
  }

  lemma SettleKeepsSeat(s: State, id: nat, doomed: bool)
    requires CanSettle(s, id)
    ensures KeepsSeat(s.creates[id], ApplySettle(s, id, doomed).creates[id])
  {
  }

  lemma StepKeepsSeat(s: State, id: nat, e: CreateEvent)
    requires CreateEnabled(s, id, e) && !e.Arrive? && !e.PlaceOn? && !e.Move?
    ensures KeepsSeat(s.creates[id], CreateEffect(s, id, e).creates[id])
  {
    match e
    case Recheck => RecheckKeepsSeat(s, id, TurnedAway(s, s.creates[id].phase.hotel), Doomed(s, s.creates[id]));
    case Settle => SettleKeepsSeat(s, id, Doomed(s, s.creates[id]));
    case Dispatch => CallKeepsSeat(s, id, e);
    case HotelAnswers(_) => CallKeepsSeat(s, id, e);
    case BookReaped => CallKeepsSeat(s, id, e);
    case _ => QueueKeepsSeat(s, id, e);
  }
}
