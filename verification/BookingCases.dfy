/**
 Runs from a start of the broker, used to show that a state can occur.
 */
module BookingCases {
  import opened Options
  import opened Hotels
  import opened Placement
  import opened Lend
  import opened Booking

  // ------------------------------------------------------------ runs

  predicate Patches(e: Event) {
    e.OfAdmin? && (e.admin.PatchCommit? || e.admin.Restart?)
  }

  /** What a run keeps to: no PATCH and no restart, or no time that passes but
      while create id waits for hotel and all slots of the hotel are taken. */
  datatype Mode = Any | Quiet | Held(id: nat, hotel: string)

  predicate IsHeld(s: State, id: nat, h: string) {
    && id in s.creates && s.creates[id].phase == Queued(h)
    && h in s.hotels && s.hotels[h].sem >= Concurrency(s.hotels[h])
  }

  predicate Passes(e: Event) {
    e.OfDesk? && e.desk.Tick?
  }

  predicate StepOk(mode: Mode, s: State, e: Event) {
    match mode
    case Any => true
    case Quiet => !Patches(e)
    case Held(id, h) => Passes(e) ==> IsHeld(s, id, h)
  }

  ghost predicate Path(mode: Mode, s: State, es: seq<Event>, t: State)
    decreases |es|
  {
    if es == [] then s == t else Enabled(s, es[0]) && StepOk(mode, s, es[0]) && Path(mode, Next(s, es[0]), es[1..], t)
  }

  /** Some run of this kind leads from u to t. */
  ghost predicate Leads(u: State, t: State, mode: Mode) {
    exists es :: Path(mode, u, es, t)
  }

  lemma SplitFirst(es: seq<Event>, e: Event)
    ensures es == [] ==> es + [e] == [e]
    ensures es != [] ==> (es + [e])[0] == es[0] && (es + [e])[1..] == es[1..] + [e]
  {
  }

  lemma {:induction false} PathMore(mode: Mode, s: State, es: seq<Event>, t: State, e: Event, r: State)
    requires Path(mode, s, es, t) && Enabled(t, e) && StepOk(mode, t, e) && r == Next(t, e)
    ensures Path(mode, s, es + [e], r)
    decreases |es|
  {
    SplitFirst(es, e);
    if es == [] {
      assert [e][1..] == [];
    } else {
      PathMore(mode, Next(s, es[0]), es[1..], t, e, r);
    }
  }

  lemma {:induction false} PathIsRun(mode: Mode, s: State, es: seq<Event>, t: State)
    requires Path(mode, s, es, t)
    ensures Run(s, es, t)
    decreases |es|
  {
    if es != [] {
      PathIsRun(mode, Next(s, es[0]), es[1..], t);
    }
  }

  lemma LeadsMore(u: State, t: State, mode: Mode, e: Event)
    requires Leads(u, t, mode) && Enabled(t, e) && StepOk(mode, t, e)
    ensures Leads(u, Next(t, e), mode)
  {
    var es :| Path(mode, u, es, t);
    PathMore(mode, u, es, t, e, Next(t, e));
  }

  lemma LeadsNowhere(u: State, mode: Mode)
    ensures Leads(u, u, mode)
  {
    assert Path(mode, u, [], u);
  }

  lemma {:induction false} LeadsOn(u: State, s: State, es: seq<Event>, t: State)
    requires Leads(u, s, Any) && Run(s, es, t)
    ensures Leads(u, t, Any)
    decreases |es|
  {
    if es != [] {
      LeadsMore(u, s, Any, es[0]);
      LeadsOn(u, Next(s, es[0]), es[1..], t);
    }
  }

  // ------------------------------------------------------------ sets of states

  /** P keeps the step e of s. */
  ghost predicate Stays(P: State -> bool, mode: Mode, s: State, e: Event) {
    P(s) && Enabled(s, e) && StepOk(mode, s, e) ==> P(Next(s, e))
  }

  /** No run of this kind leaves P. The steps below are for every such P, and so
      for the states that a run reaches. */
  ghost predicate Closed(P: State -> bool, mode: Mode) {
    forall s, e :: Stays(P, mode, s, e)
  }

  lemma StepIn(P: State -> bool, s: State, mode: Mode, e: Event)
    requires Closed(P, mode) && P(s) && Enabled(s, e) && StepOk(mode, s, e)
    ensures P(Next(s, e))
  {
    assert Stays(P, mode, s, e);
  }

  /** The states that a run of this kind reaches from u. */
  ghost function From(u: State, mode: Mode): State -> bool {
    t => Leads(u, t, mode)
  }

  lemma FromClosed(u: State, mode: Mode)
    ensures Closed(From(u, mode), mode) && From(u, mode)(u)
  {
    LeadsNowhere(u, mode);
    forall s, e
      ensures Stays(From(u, mode), mode, s, e)
    {
      if Leads(u, s, mode) && Enabled(s, e) && StepOk(mode, s, e) {
        LeadsMore(u, s, mode, e);
      }
    }
  }

  // ------------------------------------------------------------ a start

  const CONFIG := BrokerConfig(true, false, 600 * SECOND, -1.0, true)

  /** A broker without hotels, and with one guest. */
  function Start(guest: string): State {
    State(CONFIG, 0, 0, map[], map[guest := Guest(0, 0)], map[], map[], [], None, None, Disk(map[], map[]), map[], {})
  }

  lemma StartInit(guest: string)
    ensures Init(Start(guest))
  {
    var s, file: map<string, HotelConfig> := Start(guest), map[];
    assert LoadHotels(file, s.disk, {}, {}) == map[] && OtherLends(file, s.disk) == map[];
    assert ValidFile(s, file);
  }

  lemma FromStart(guest: string, t: State)
    requires Leads(Start(guest), t, Any)
    ensures Reachable(t)
  {
    StartInit(guest);
    var es :| Path(Any, Start(guest), es, t);
    PathIsRun(Any, Start(guest), es, t);
  }

  // ------------------------------------------------------------ joins and leaves

  /** What a join or a leave keeps. */
  predicate SameDesk(s: State, t: State) {
    && t.cfg == s.cfg && t.now == s.now && t.guests == s.guests && t.creates == s.creates
    && t.tombs == s.tombs && t.deletes == s.deletes && t.patch == s.patch && t.moving == s.moving
  }

  function Joined(c: HotelConfig, adm: Admission): Hotel {
    NewHotel(c, true, InPlace, false).(adm := adm)
  }

  lemma SameHolders(s: State, t: State, id: string, chip: string)
    requires t.hotels.Keys == s.hotels.Keys + {id} && t.cfg == s.cfg && t.now == s.now
    requires forall o :: o in s.hotels && o != id ==> t.hotels[o] == s.hotels[o]
    ensures ChipTaken(t.cfg, t.hotels, id, chip, t.now) ==> ChipTaken(s.cfg, s.hotels, id, chip, s.now)
  {
  }

  /** Hotel h is now r, and h is on the move or nothing is. */
  predicate Moving(s: State, t: State, h: string, r: Hotel, moving: Option<string>) {
    t.hotels == s.hotels[h := r] && SameDesk(s.(moving := moving), t)
  }

  lemma IsAdded(P: State -> bool, s: State, mode: Mode, c: HotelConfig, adm: Admission) returns (t: State)
    requires Closed(P, mode) && P(s) && CanJoin(s, c)
    ensures P(t) && Moving(s, t, c.id, Joined(c, adm).(stage := Joining), Some(c.id))
  {
    StepIn(P, s, mode, OfAdmin(JoinAdd(c, adm)));
    t := Next(s, OfAdmin(JoinAdd(c, adm)));
  }

  lemma IsChecked(P: State -> bool, s: State, mode: Mode, h: string) returns (t: State)
    requires Closed(P, mode) && P(s) && h in s.hotels && s.hotels[h].stage.Joining? && !CanRefuseJoin(s, h)
    ensures P(t) && Moving(s, t, h, s.hotels[h].(stage := Checked), s.moving)
  {
    StepIn(P, s, mode, OfAdmin(JoinCheck(h)));
    t := Next(s, OfAdmin(JoinCheck(h)));
  }

  lemma IsSaved(P: State -> bool, s: State, mode: Mode, h: string) returns (t: State)
    requires Closed(P, mode) && P(s) && h in s.hotels && s.hotels[h].stage.Checked?
    ensures P(t) && Moving(s, t, h, s.hotels[h].(stage := InPlace), None)
  {
    StepIn(P, s, mode, OfAdmin(JoinSave(h, true)));
    t := Next(s, OfAdmin(JoinSave(h, true)));
  }

  lemma JoinFacts(s: State, s1: State, s2: State, t: State, c: HotelConfig, adm: Admission)
    requires MutationFree(s) && Moving(s, s1, c.id, Joined(c, adm).(stage := Joining), Some(c.id))
    requires Moving(s1, s2, c.id, s1.hotels[c.id].(stage := Checked), s1.moving)
    requires Moving(s2, t, c.id, s2.hotels[c.id].(stage := InPlace), None)
    ensures SameDesk(s, t) && t.hotels == s.hotels[c.id := Joined(c, adm)]
  {
    assert t.hotels[c.id] == Joined(c, adm);
  }

  /** A hotel joins whose chip no other hotel holds. */
  lemma Join(P: State -> bool, s: State, mode: Mode, c: HotelConfig, adm: Admission) returns (t: State)
    requires Closed(P, mode) && P(s) && CanJoin(s, c) && !ChipTaken(s.cfg, s.hotels, c.id, adm.chipFull, s.now)
    ensures P(t) && SameDesk(s, t) && t.hotels == s.hotels[c.id := Joined(c, adm)]
  {
    var s1 := IsAdded(P, s, mode, c, adm);
    assert !CanRefuseJoin(s1, c.id) by {
      SameHolders(s, s1, c.id, adm.chipFull);
    }
    var s2 := IsChecked(P, s1, mode, c.id);
    t := IsSaved(P, s2, mode, c.id);
    JoinFacts(s, s1, s2, t, c, adm);
  }

  lemma IsMarked(P: State -> bool, s: State, mode: Mode, h: string) returns (t: State)
    requires Closed(P, mode) && P(s) && CanMarkLeaving(s, h)
    ensures P(t) && Moving(s, t, h, s.hotels[h].(stage := Leaving), Some(h))
  {
    StepIn(P, s, mode, OfAdmin(LeaveMark(h)));
    t := Next(s, OfAdmin(LeaveMark(h)));
  }

  lemma IsDropped(P: State -> bool, s: State, mode: Mode, h: string) returns (t: State)
    requires Closed(P, mode) && P(s) && h in s.hotels && s.hotels[h].stage.Leaving?
    ensures P(t) && Moving(s, t, h, s.hotels[h].(stage := Dropped), s.moving)
  {
    StepIn(P, s, mode, OfAdmin(LeaveDrop(h)));
    t := Next(s, OfAdmin(LeaveDrop(h)));
  }

  lemma IsGone(P: State -> bool, s: State, mode: Mode, h: string) returns (t: State)
    requires Closed(P, mode) && P(s) && h in s.hotels && s.hotels[h].stage.Dropped?
    ensures P(t) && Moving(s, t, h, s.hotels[h].(stage := Gone), None)
  {
    StepIn(P, s, mode, OfAdmin(LeaveSave(h, true)));
    t := Next(s, OfAdmin(LeaveSave(h, true)));
  }

  lemma LeaveFacts(s: State, s1: State, s2: State, t: State, h: string)
    requires MutationFree(s) && h in s.hotels && Moving(s, s1, h, s.hotels[h].(stage := Leaving), Some(h))
    requires Moving(s1, s2, h, s1.hotels[h].(stage := Dropped), s1.moving) && Moving(s2, t, h, s2.hotels[h].(stage := Gone), None)
    ensures SameDesk(s, t) && t.hotels == s.hotels[h := s.hotels[h].(stage := Gone)]
  {
    assert t.hotels[h] == s.hotels[h].(stage := Gone);
  }

  /** An idle joined hotel leaves. */
  lemma Leave(P: State -> bool, s: State, mode: Mode, h: string) returns (t: State)
    requires Closed(P, mode) && P(s) && CanMarkLeaving(s, h)
    ensures P(t) && SameDesk(s, t) && t.hotels == s.hotels[h := s.hotels[h].(stage := Gone)]
  {
    var s1 := IsMarked(P, s, mode, h);
    var s2 := IsDropped(P, s1, mode, h);
    t := IsGone(P, s2, mode, h);
    LeaveFacts(s, s1, s2, t, h);
  }

  // ------------------------------------------------------------ creates

  predicate SameRest(s: State, t: State) {
    && t.cfg == s.cfg && t.now == s.now && t.tombs == s.tombs && t.deletes == s.deletes
    && t.patch == s.patch && t.moving == s.moving && t.guests.Keys == s.guests.Keys
  }

  function NewCreate(g: string, r: Request, labels: map<string, string>, recv: Time): Create {
    Create(g, r, labels, recv, false, false, 0, {}, false, Ready, Outcome.Open)
  }

  lemma Arrives(P: State -> bool, s: State, mode: Mode, id: nat, g: string, r: Request, labels: map<string, string>) returns (t: State)
    requires Closed(P, mode) && P(s) && CanArrive(s, id, g, r, s.now)
    ensures P(t) && SameRest(s, t) && t.hotels == s.hotels && t.creates == s.creates[id := NewCreate(g, r, labels, s.now)]
  {
    var e := OfCreate(id, Arrive(g, r, labels, s.now, false));
    StepIn(P, s, mode, e);
    t := Next(s, e);
  }

  /** Hotel x takes a create now. */
  predicate Takes(b: BrokerConfig, x: Hotel, now: Time) {
    && x.up && x.stage.InPlace? && !x.cfg.drain && x.backoffUntil <= now && Admitted(b, x, now)
    && !AwaitsRoomCheck(x) && !MemFull(b, x) && Used(x) < x.slots
  }

  /** A create asks for h and h takes it. */
  predicate Welcome(s: State, id: nat, h: string) {
    && On(s, id, h) && s.creates[id].phase.Ready? && s.creates[id].attempt == 0 && s.creates[id].tried == {}
    && Allows(s.creates[id].request, s.hotels[h].cfg) && s.creates[id].request.policy.None? && !s.creates[id].request.prefer
    && Takes(s.cfg, s.hotels[h], s.now)
  }

  lemma WelcomeCanPlace(s: State, id: nat, h: string)
    requires Welcome(s, id, h)
    ensures CanPlace(s, id, h) && PickRequest(s, s.creates[id]) == s.creates[id].request
  {
    assert FallbackFor(s.hotels, s.creates[id].request).None?;
    assert Eligible(s.cfg, s.hotels, {}, s.creates[id].request, s.now, h);
  }

  lemma Places(P: State -> bool, s: State, mode: Mode, id: nat, h: string) returns (t: State)
    requires Closed(P, mode) && P(s) && Welcome(s, id, h)
    ensures P(t) && SameRest(s, t)
    ensures t.hotels == s.hotels[h := s.hotels[h].(queued := s.hotels[h].queued + 1)]
    ensures t.creates == s.creates[id := s.creates[id].(phase := Queued(h), tried := {h})]
  {
    WelcomeCanPlace(s, id, h);
    var e := OfCreate(id, PlaceOn(h));
    StepIn(P, s, mode, e);
    t := Next(s, e);
    PlaceFacts(s, id, h);
  }

  lemma PlaceFacts(s: State, id: nat, h: string)
    requires On(s, id, h) && s.creates[id].tried == {}
    ensures var t := ApplyPlace(s, id, h, s.creates[id].request);
      && t.hotels == s.hotels[h := s.hotels[h].(queued := s.hotels[h].queued + 1)]
      && t.creates == s.creates[id := s.creates[id].(phase := Queued(h), tried := {h})]
  {
    assert s.creates[id].tried + {h} == {h};
  }

  /** A queued create can go on to the call. */
  predicate Goes(s: State, id: nat, h: string) {
    && On(s, id, h) && s.creates[id].phase == Queued(h) && !s.creates[id].gone && !Doomed(s, s.creates[id])
    && s.hotels[h].sem < Concurrency(s.hotels[h]) && s.hotels[h].stage.InPlace? && Admitted(s.cfg, s.hotels[h], s.now)
  }

  function CallHotel(x: Hotel): Hotel {
    x.(sem := x.sem + 1, queued := x.queued - 1, creating := x.creating + 1)
  }

  lemma SlotStep(s: State, id: nat, h: string)
    requires Goes(s, id, h)
    ensures var t := ApplyTakeSlot(s, id);
      && CanTakeSlot(s, id) && CanRecheck(t, id) && !TurnedAway(t, h) && !Doomed(t, t.creates[id]) && SameRest(s, t)
      && t.hotels == s.hotels[h := s.hotels[h].(sem := s.hotels[h].sem + 1)]
      && t.creates == s.creates[id := s.creates[id].(phase := Holding(h))]
  {
  }

  lemma ClearStep(s: State, id: nat, h: string)
    requires CanRecheck(s, id) && s.creates[id].phase.hotel == h && !s.creates[id].gone
    ensures var t := ApplyRecheck(s, id, false, false);
      && CanDispatch(t, id) && SameRest(s, t) && t.hotels == s.hotels
      && t.creates == s.creates[id := s.creates[id].(phase := Cleared(h))]
  {
  }

  lemma DispatchStep(s: State, id: nat, h: string)
    requires CanDispatch(s, id) && s.creates[id].phase.hotel == h
    ensures var t := ApplyDispatch(s, id);
      && AtCall(t, id) && SameRest(s, t)
      && t.hotels == s.hotels[h := s.hotels[h].(queued := s.hotels[h].queued - 1, creating := s.hotels[h].creating + 1)]
      && t.creates == s.creates[id := s.creates[id].(phase := Dispatched(h))]
  {
  }

  lemma Calls(P: State -> bool, s: State, mode: Mode, id: nat, h: string) returns (t: State)
    requires Closed(P, mode) && P(s) && Goes(s, id, h)
    ensures P(t) && SameRest(s, t) && AtCall(t, id)
    ensures t.hotels == s.hotels[h := CallHotel(s.hotels[h])]
    ensures t.creates == s.creates[id := s.creates[id].(phase := Dispatched(h))]
  {
    var s1 := TakesSlot(P, s, mode, id, h);
    var s2 := IsCleared(P, s1, mode, id, h);
    t := IsCalled(P, s2, mode, id, h);
    CallFacts(s, s1, s2, t, id, h);
  }

  lemma CallFacts(s: State, s1: State, s2: State, t: State, id: nat, h: string)
    requires h in s.hotels && id in s.creates
    requires s1.hotels == s.hotels[h := s.hotels[h].(sem := s.hotels[h].sem + 1)] && s2.hotels == s1.hotels
    requires s1.creates == s.creates[id := s.creates[id].(phase := Holding(h))]
    requires s2.creates == s1.creates[id := s1.creates[id].(phase := Cleared(h))]
    requires t.hotels == s2.hotels[h := s2.hotels[h].(queued := s2.hotels[h].queued - 1, creating := s2.hotels[h].creating + 1)]
    requires t.creates == s2.creates[id := s2.creates[id].(phase := Dispatched(h))]
    ensures t.hotels == s.hotels[h := CallHotel(s.hotels[h])]
    ensures t.creates == s.creates[id := s.creates[id].(phase := Dispatched(h))]
  {
    assert t.hotels[h] == CallHotel(s.hotels[h]);
    assert t.creates[id] == s.creates[id].(phase := Dispatched(h));
  }

  lemma TakesSlot(P: State -> bool, s: State, mode: Mode, id: nat, h: string) returns (t: State)
    requires Closed(P, mode) && P(s) && Goes(s, id, h)
    ensures t.hotels == s.hotels[h := s.hotels[h].(sem := s.hotels[h].sem + 1)]
    ensures t.creates == s.creates[id := s.creates[id].(phase := Holding(h))]
    ensures P(t) && SameRest(s, t) && CanRecheck(t, id) && !TurnedAway(t, h) && !Doomed(t, t.creates[id])
  {
    SlotStep(s, id, h);
    StepIn(P, s, mode, OfCreate(id, TakeSlot));
    t := Next(s, OfCreate(id, TakeSlot));
  }

  lemma IsCleared(P: State -> bool, s: State, mode: Mode, id: nat, h: string) returns (t: State)
    requires Closed(P, mode) && P(s) && CanRecheck(s, id) && s.creates[id].phase == Holding(h)
    requires !TurnedAway(s, h) && !Doomed(s, s.creates[id]) && !s.creates[id].gone
    ensures P(t) && SameRest(s, t) && CanDispatch(t, id) && t.hotels == s.hotels
    ensures t.creates == s.creates[id := s.creates[id].(phase := Cleared(h))]
  {
    ClearStep(s, id, h);
    StepIn(P, s, mode, OfCreate(id, Recheck));
    t := Next(s, OfCreate(id, Recheck));
  }

  lemma IsCalled(P: State -> bool, s: State, mode: Mode, id: nat, h: string) returns (t: State)
    requires Closed(P, mode) && P(s) && CanDispatch(s, id) && s.creates[id].phase == Cleared(h)
    ensures P(t) && SameRest(s, t) && AtCall(t, id)
    ensures t.hotels == s.hotels[h := s.hotels[h].(queued := s.hotels[h].queued - 1, creating := s.hotels[h].creating + 1)]
    ensures t.creates == s.creates[id := s.creates[id].(phase := Dispatched(h))]
  {
    DispatchStep(s, id, h);
    StepIn(P, s, mode, OfCreate(id, Dispatch));
    t := Next(s, OfCreate(id, Dispatch));
  }

  const ROOM := Started("room", true, 1.0)

  /** The hotel answers the call. */
  lemma Answers(P: State -> bool, s: State, mode: Mode, id: nat, h: string, a: Answer) returns (t: State)
    requires Closed(P, mode) && P(s) && CanAnswer(s, id, a) && s.creates[id].phase == Dispatched(h)
    ensures P(t) && SameRest(s, t) && CanSettle(t, id)
    ensures t.hotels == s.hotels[h := s.hotels[h].(sem := s.hotels[h].sem - 1)]
    ensures t.creates == s.creates[id := s.creates[id].(phase := Answered(h, a))]
  {
    AnswerStep(s, id, h, a);
    StepIn(P, s, mode, OfCreate(id, HotelAnswers(a)));
    t := Next(s, OfCreate(id, HotelAnswers(a)));
  }

  lemma AnswerStep(s: State, id: nat, h: string, a: Answer)
    requires AtCall(s, id) && s.creates[id].phase == Dispatched(h)
    ensures var t := ApplyAnswer(s, id, a);
      && CanSettle(t, id) && SameRest(s, t)
      && t.hotels == s.hotels[h := s.hotels[h].(sem := s.hotels[h].sem - 1)]
      && t.creates == s.creates[id := s.creates[id].(phase := Answered(h, a))]
  {
  }

  /** An answer that ends the create without a room and does not rest the hotel. */
  const REFUSAL := Other(false, true)

  lemma RefusalStep(s: State, id: nat, h: string, doomed: bool)
    requires CanSettle(s, id) && s.creates[id].phase == Answered(h, REFUSAL)
    ensures var t := ApplySettle(s, id, doomed);
      && SameRest(s, t) && t.hotels == s.hotels[h := s.hotels[h].(creating := s.hotels[h].creating - 1)]
      && t.creates == s.creates[id := s.creates[id].(phase := Finished, outcome := NoRoom)]
  {
  }

  lemma IsRefused(P: State -> bool, s: State, mode: Mode, id: nat, h: string) returns (t: State)
    requires Closed(P, mode) && P(s) && CanSettle(s, id) && s.creates[id].phase == Answered(h, REFUSAL)
    ensures P(t) && SameRest(s, t) && t.hotels == s.hotels[h := s.hotels[h].(creating := s.hotels[h].creating - 1)]
    ensures t.creates == s.creates[id := s.creates[id].(phase := Finished, outcome := NoRoom)]
  {
    RefusalStep(s, id, h, Doomed(s, s.creates[id]));
    StepIn(P, s, mode, OfCreate(id, Settle));
    t := Next(s, OfCreate(id, Settle));
  }

  lemma Reports(P: State -> bool, s: State, mode: Mode, h: string, slots: int) returns (t: State)
    requires Closed(P, mode) && P(s) && h in s.hotels && slots > 0 && s.hotels[h].cfg.maxSlots == 0
    ensures P(t) && SameRest(s, t) && t.creates == s.creates && t.guests == s.guests
    ensures t.hotels == s.hotels[h := s.hotels[h].(slots := slots, up := true, memPct := 0.0, cpuPct := 0.0)]
  {
    var e := OfHotel(h, HotelEvent.Health(true, slots, 0.0, 0.0));
    StepIn(P, s, mode, e);
    t := Next(s, e);
  }

  lemma TimePasses(P: State -> bool, s: State, mode: Mode, d: Time) returns (t: State)
    requires Closed(P, mode) && P(s) && d >= 0 && StepOk(mode, s, OfDesk(Tick(d)))
    ensures P(t) && t.now == s.now + d && SameRest(s.(now := t.now), t) && t.hotels == s.hotels && t.creates == s.creates
    ensures t.guests == s.guests
  {
    StepIn(P, s, mode, OfDesk(Tick(d)));
    t := Next(s, OfDesk(Tick(d)));
  }
}
