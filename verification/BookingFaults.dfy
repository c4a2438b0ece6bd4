/**
 Where the broker does not keep a promise, shown from a start: more rooms used
 than a hotel has slots, a room that outlives the delete that came after its
 create, two admitted hotels on one chip, and an owner back on a lent machine
 without a reclaim.
 */
module BookingFaults {
  import opened Options
  import opened Hotels
  import opened Placement
  import opened Lend
  import opened Inflight
  import opened Booking
  import opened BookingFrames
  import opened BookingCases
  import opened BookingSlots
  import opened BookingDeletes
  import opened BookingChips
  import opened BookingTransit

  // ------------------------------------------------------------ a plain hotel

  /** One create call at a time. */
  const PLAIN := HotelConfig("h", map[], false, "", false, false, 1, false, 0, "", "", "")

  const ASK := Request({}, map[], map[], None, {}, {}, false, "", None, None, "g", false)

  /** The hotel with its slots and its counters. */
  function Inn(slots: int, queued: int, creating: int, sem: int): Hotel {
    Joined(PLAIN, NO_ADMISSION).(slots := slots, up := true, queued := queued, creating := creating, sem := sem)
  }

  lemma InnFacts(slots: int, queued: int, creating: int, sem: int, now: Time)
    ensures var x := Inn(slots, queued, creating, sem);
      && Admitted(CONFIG, x, now) && x.stage.InPlace? && Concurrency(x) == 1 && Allows(ASK, x.cfg)
      && (queued + creating < slots && now >= 0 ==> Takes(CONFIG, x, now))
  {
    assert FixedLabels(PLAIN, map[]) == map[];
  }

  /** A broker with the plain hotel. */
  predicate OneInn(s: State, x: Hotel) {
    s.cfg == CONFIG && s.hotels == map["h" := x] && s.guests.Keys == {"g"} && s.patch.None? && s.moving.None?
  }

  lemma OpenInn(P: State -> bool, slots: int) returns (s: State)
    requires Closed(P, Any) && P(Start("g"))
    requires slots > 0
    ensures P(s) && OneInn(s, Inn(slots, 0, 0, 0))
    ensures s.now == 0 && s.creates == map[] && s.tombs == map[] && s.deletes == []
  {
    var s1 := Join(P, Start("g"), Any, PLAIN, NO_ADMISSION);
    s := Reports(P, s1, Any, "h", slots);
    assert s.hotels == map["h" := Inn(slots, 0, 0, 0)];
  }

  lemma InnWelcomes(s: State, id: nat, slots: int, queued: int, creating: int, sem: int)
    requires OneInn(s, Inn(slots, queued, creating, sem)) && queued + creating < slots && s.now >= 0 && id in s.creates
    requires s.creates[id].phase.Ready? && s.creates[id].attempt == 0
    requires s.creates[id].tried == {} && s.creates[id].request == ASK && s.creates[id].guest == "g"
    ensures Welcome(s, id, "h")
  {
    InnFacts(slots, queued, creating, sem, s.now);
  }

  /** A create in the queue of the hotel. */
  function Waiting(labels: map<string, string>, recv: Time): Create {
    NewCreate("g", ASK, labels, recv).(phase := Queued("h"), tried := {"h"})
  }

  lemma QueueFacts(s: State, s1: State, t: State, id: nat, c: Create, slots: int, queued: int, creating: int, sem: int)
    requires OneInn(s, Inn(slots, queued, creating, sem)) && SameRest(s, s1) && s1.hotels == s.hotels && s1.creates == s.creates[id := c]
    requires SameRest(s1, t) && t.hotels == s1.hotels["h" := s1.hotels["h"].(queued := s1.hotels["h"].queued + 1)]
    requires t.creates == s1.creates[id := s1.creates[id].(phase := Queued("h"), tried := {"h"})]
    ensures OneInn(t, Inn(slots, queued + 1, creating, sem)) && SameRest(s, t)
    ensures t.creates == s.creates[id := c.(phase := Queued("h"), tried := {"h"})]
  {
    assert t.hotels == map["h" := Inn(slots, queued + 1, creating, sem)];
  }

  /** Create id arrives and joins the queue of the hotel. */
  lemma Queue(P: State -> bool, s: State, mode: Mode, id: nat, labels: map<string, string>, slots: int, queued: int, creating: int, sem: int)
    returns (t: State)
    requires Closed(P, mode) && P(s) && OneInn(s, Inn(slots, queued, creating, sem)) && queued + creating < slots && id !in s.creates && s.now >= 0
    ensures P(t) && OneInn(t, Inn(slots, queued + 1, creating, sem)) && SameRest(s, t)
    ensures t.creates == s.creates[id := Waiting(labels, s.now)]
  {
    var s1 := Comes(P, s, mode, id, labels, slots, queued, creating, sem);
    t := Places(P, s1, mode, id, "h");
    QueueFacts(s, s1, t, id, NewCreate("g", ASK, labels, s.now), slots, queued, creating, sem);
  }

  lemma Comes(P: State -> bool, s: State, mode: Mode, id: nat, labels: map<string, string>, slots: int, queued: int, creating: int, sem: int)
    returns (t: State)
    requires Closed(P, mode) && P(s) && OneInn(s, Inn(slots, queued, creating, sem)) && queued + creating < slots && id !in s.creates && s.now >= 0
    ensures P(t) && SameRest(s, t) && t.hotels == s.hotels && t.creates == s.creates[id := NewCreate("g", ASK, labels, s.now)]
    ensures Welcome(t, id, "h")
  {
    t := Arrives(P, s, mode, id, "g", ASK, labels);
    InnWelcomes(t, id, slots, queued, creating, sem);
  }

  predicate ReadyToGo(s: State, id: nat) {
    && id in s.creates && s.creates[id].guest == "g" && s.creates[id].phase == Queued("h")
    && !s.creates[id].gone && !Doomed(s, s.creates[id])
  }

  lemma InnGoes(s: State, id: nat, slots: int, queued: int, creating: int)
    requires OneInn(s, Inn(slots, queued, creating, 0)) && ReadyToGo(s, id)
    ensures Goes(s, id, "h")
  {
    InnFacts(slots, queued, creating, 0, s.now);
  }

  /** A queued create takes the slot and is called. */
  lemma IsCalledNow(P: State -> bool, s: State, mode: Mode, id: nat, slots: int, queued: int, creating: int) returns (t: State)
    requires Closed(P, mode) && P(s) && OneInn(s, Inn(slots, queued, creating, 0)) && ReadyToGo(s, id)
    ensures P(t) && OneInn(t, Inn(slots, queued - 1, creating + 1, 1)) && SameRest(s, t) && AtCall(t, id)
    ensures t.creates == s.creates[id := s.creates[id].(phase := Dispatched("h"))]
  {
    InnGoes(s, id, slots, queued, creating);
    t := Calls(P, s, mode, id, "h");
    assert t.hotels == map["h" := Inn(slots, queued - 1, creating + 1, 1)];
  }

  lemma IsAnswered(P: State -> bool, s: State, mode: Mode, id: nat, a: Answer, slots: int, queued: int, creating: int) returns (t: State)
    requires Closed(P, mode) && P(s) && OneInn(s, Inn(slots, queued, creating, 1)) && CanAnswer(s, id, a) && s.creates[id].phase == Dispatched("h")
    ensures P(t) && OneInn(t, Inn(slots, queued, creating, 0)) && SameRest(s, t) && CanSettle(t, id)
    ensures t.creates == s.creates[id := s.creates[id].(phase := Answered("h", a))]
  {
    t := Answers(P, s, mode, id, "h", a);
    assert t.hotels == map["h" := Inn(slots, queued, creating, 0)];
  }

  // ------------------------------------------------------------ one room too many

  lemma Departs(P: State -> bool, s: State, id: nat) returns (t: State)
    requires Closed(P, Any) && P(s) && At(s, id)
    ensures P(t) && SameRest(s, t) && t.hotels == s.hotels
    ensures t.creates == s.creates[id := s.creates[id].(gone := true)]
  {
    StepIn(P, s, Any, OfCreate(id, GuestGone));
    t := Next(s, OfCreate(id, GuestGone));
  }

  lemma ReapSettled(s: State, id: nat, doomed: bool)
    requires CanSettle(s, id) && s.creates[id].gone && s.creates[id].phase.answer.Started?
    ensures var h, t := s.creates[id].phase.hotel, ApplySettle(s, id, doomed);
      && t.hotels == s.hotels[h := s.hotels[h].(creating := s.hotels[h].creating - 1)] && SameRest(s, t)
      && t.creates.Keys == s.creates.Keys && forall i :: i in s.creates && i != id ==> t.creates[i] == s.creates[i]
  {
  }

  /** Create 0 was called and its hotel answered with a room. */
  lemma OneAnswered(P: State -> bool) returns (s: State)
    requires Closed(P, Any) && P(Start("g"))
    ensures P(s) && OneInn(s, Inn(1, 0, 1, 0)) && CanSettle(s, 0) && s.now == 0
    ensures s.creates == map[0 := Waiting(map[], 0).(phase := Answered("h", ROOM))]
  {
    var s0 := OpenInn(P, 1);
    var s1 := Queue(P, s0, Any, 0, map[], 1, 0, 0, 0);
    var s2 := IsCalledNow(P, s1, Any, 0, 1, 1, 0);
    s := IsAnswered(P, s2, Any, 0, ROOM, 1, 0, 1);
  }

  /** The guest of create 0 is gone, its hotel answered, and create 1 arrived. */
  predicate FullInn(s: State) {
    && OneInn(s, Inn(1, 0, 1, 0)) && s.now == 0
    && s.creates == map[0 := Waiting(map[], 0).(phase := Answered("h", ROOM), gone := true), 1 := NewCreate("g", ASK, map[], 0)]
  }

  lemma BecomesFull(P: State -> bool) returns (s: State)
    requires Closed(P, Any) && P(Start("g"))
    ensures P(s) && FullInn(s)
  {
    var s0 := OneAnswered(P);
    var s1 := Departs(P, s0, 0);
    s := Arrives(P, s1, Any, 1, "g", ASK, map[]);
  }

  lemma SecondFits(s: State)
    requires FullInn(s)
    ensures AllFit(s) && CanSettle(s, 0) && CanPlace(Next(s, OfCreate(0, Settle)), 1, "h")
  {
    ReapSettled(s, 0, Doomed(s, s.creates[0]));
    var t := Next(s, OfCreate(0, Settle));
    assert t.hotels["h"] == Inn(1, 0, 0, 0);
    InnFacts(1, 0, 0, 0, 0);
    WelcomeCanPlace(t, 1, "h");
  }

  /** From a start: a hotel with one slot, a reaped room and a queued create. */
  lemma Overfilled() returns (t: State)
    ensures Reachable(t) && "h" in t.hotels && t.hotels["h"].slots == 1 && Used(t.hotels["h"]) == 2
  {
    FromClosed(Start("g"), Any);
    var s := BecomesFull(From(Start("g"), Any));
    SecondFits(s);
    t := ReapCanOverfill(s, 0, 1, "h");
    LeadsOn(Start("g"), s, [OfCreate(0, Settle)] + ([OfCreate(1, PlaceOn("h"))] + ([OfCreate(0, BookReaped)] + [])), t);
    FromStart("g", t);
  }

  // ------------------------------------------------------------ a delete that comes too early

  const MINE := map["a" := "b"]

  /** The longest a create call may take. */
  const CALL_LIMIT: Time := 12 * MINUTE

  lemma Deletes(P: State -> bool, s: State, mode: Mode) returns (t: State)
    requires Closed(P, mode) && P(s) && "g" in s.guests && s.tombs == map[] && s.deletes == []
    ensures P(t) && t.deletes == [Delete("g", MINE, s.now, s.steps)] && t.tombs == map["g" := [Tombstone(MINE, s.now)]]
    ensures t.hotels == s.hotels && t.creates == s.creates && t.guests == s.guests && t.cfg == s.cfg && t.now == s.now
    ensures t.patch == s.patch && t.moving == s.moving
  {
    StepIn(P, s, mode, OfDesk(LabelDelete("g", MINE)));
    t := Next(s, OfDesk(LabelDelete("g", MINE)));
    assert AddTombstone([], MINE, s.now) == [Tombstone(MINE, s.now)];
  }

  /** Create 0 waits for the slot. It came at time 0 with the labels MINE, and
      creates 1 and 2 came before it without them. */
  predicate Contended(s: State, queued: int, creating: int, sem: int, one: Create, two: Create) {
    OneInn(s, Inn(3, queued, creating, sem)) && s.creates == map[0 := Waiting(MINE, 0), 1 := one, 2 := two]
  }

  predicate Undeleted(s: State) {
    s.deletes == [] && s.tombs == map[]
  }

  /** A delete of MINE was recorded at time 1. */
  predicate DeletedAtOne(s: State) {
    |s.deletes| == 1 && s.deletes[0].guest == "g" && s.deletes[0].want == MINE && s.deletes[0].at == 1
    && s.tombs == map["g" := [Tombstone(MINE, 1)]]
  }

  const OTHER := Waiting(map[], 0)
  const CALLED := OTHER.(phase := Dispatched("h"))
  const OVER := OTHER.(phase := Finished, outcome := NoRoom)

  lemma ContendedHeld(s: State, queued: int, creating: int, one: Create, two: Create, d: Time)
    requires Contended(s, queued, creating, 1, one, two)
    ensures StepOk(Held(0, "h"), s, OfDesk(Tick(d)))
  {
    InnFacts(3, queued, creating, 1, s.now);
  }

  /** Create 1 holds the slot; 2 and then 0 are queued. */
  lemma ThreeCome(P: State -> bool) returns (s: State)
    requires Closed(P, Any) && P(Start("g"))
    ensures P(s) && s.now == 0 && Contended(s, 2, 1, 1, CALLED, OTHER) && Undeleted(s)
  {
    var s0 := OpenInn(P, 3);
    var s1 := Queue(P, s0, Any, 1, map[], 3, 0, 0, 0);
    var s2 := IsCalledNow(P, s1, Any, 1, 3, 1, 0);
    var s3 := Queue(P, s2, Any, 2, map[], 3, 0, 1, 1);
    s := Queue(P, s3, Any, 0, MINE, 3, 1, 1, 1);
    assert s.creates == map[0 := Waiting(MINE, 0), 1 := CALLED, 2 := OTHER];
  }

  /** A delete that matches create 0 alone comes, and eight minutes pass. */
  lemma DeleteComes(P: State -> bool, s: State) returns (t: State)
    requires Closed(P, Held(0, "h")) && P(s) && s.now == 0 && Contended(s, 2, 1, 1, CALLED, OTHER) && Undeleted(s)
    ensures P(t) && t.now == 8 * MINUTE + 1 && Contended(t, 2, 1, 1, CALLED, OTHER) && DeletedAtOne(t)
  {
    ContendedHeld(s, 2, 1, CALLED, OTHER, 1);
    var s1 := TimePasses(P, s, Held(0, "h"), 1);
    var s2 := Deletes(P, s1, Held(0, "h"));
    ContendedHeld(s2, 2, 1, CALLED, OTHER, 8 * MINUTE);
    t := TimePasses(P, s2, Held(0, "h"), 8 * MINUTE);
  }

  lemma OtherNotDoomed(s: State, id: nat)
    requires DeletedAtOne(s) && id in s.creates && (s.creates[id].labels == map[] || s.now - 1 >= TOMBSTONE_TTL)
    requires s.creates[id].guest == "g"
    ensures !Doomed(s, s.creates[id])
  {
    assert "a" in MINE;
  }

  /** The call of 1 ends without a room. */
  lemma FirstEnds(P: State -> bool, s: State) returns (t: State)
    requires Closed(P, Held(0, "h")) && P(s) && Contended(s, 2, 1, 1, CALLED, OTHER)
    ensures P(t) && SameRest(s, t) && Contended(t, 2, 0, 0, OVER, OTHER)
  {
    var s1 := IsAnswered(P, s, Held(0, "h"), 1, REFUSAL, 3, 2, 1);
    t := IsRefused(P, s1, Held(0, "h"), 1, "h");
    EndFacts(s, s1, t, 1, 2, 1, CALLED, OTHER);
  }

  /** Create i, which was being called, is over. */
  lemma EndFacts(s: State, s1: State, t: State, i: nat, queued: int, creating: int, one: Create, two: Create)
    requires Contended(s, queued, creating, 1, one, two) && (i == 1 || i == 2) && s.creates[i] == CALLED
    requires OneInn(s1, Inn(3, queued, creating, 0)) && SameRest(s, s1) && SameRest(s1, t)
    requires s1.creates == s.creates[i := s.creates[i].(phase := Answered("h", REFUSAL))]
    requires t.hotels == s1.hotels["h" := s1.hotels["h"].(creating := s1.hotels["h"].creating - 1)]
    requires t.creates == s1.creates[i := s1.creates[i].(phase := Finished, outcome := NoRoom)]
    ensures SameRest(s, t) && Contended(t, queued, creating - 1, 0, if i == 1 then OVER else one, if i == 2 then OVER else two)
  {
    assert t.hotels == map["h" := Inn(3, queued, creating - 1, 0)];
    assert t.creates[i] == OVER;
  }

  /** Create 2, which came before 0, takes the slot. */
  lemma SecondGoes(P: State -> bool, s: State) returns (t: State)
    requires Closed(P, Held(0, "h")) && P(s) && Contended(s, 2, 0, 0, OVER, OTHER) && DeletedAtOne(s)
    ensures P(t) && SameRest(s, t) && Contended(t, 1, 1, 1, OVER, CALLED)
  {
    OtherNotDoomed(s, 2);
    t := IsCalledNow(P, s, Held(0, "h"), 2, 3, 2, 0);
    assert t.creates == map[0 := Waiting(MINE, 0), 1 := OVER, 2 := CALLED];
  }

  /** Eight more minutes pass, and the call of 2 ends without a room. */
  lemma SecondEnds(P: State -> bool, s: State) returns (t: State)
    requires Closed(P, Held(0, "h")) && P(s) && Contended(s, 1, 1, 1, OVER, CALLED) && DeletedAtOne(s)
    ensures P(t) && t.now == s.now + 8 * MINUTE && Contended(t, 1, 0, 0, OVER, OVER) && DeletedAtOne(t) && t.deletes == s.deletes
  {
    ContendedHeld(s, 1, 1, OVER, CALLED, 8 * MINUTE);
    var s1 := TimePasses(P, s, Held(0, "h"), 8 * MINUTE);
    var s2 := IsAnswered(P, s1, Held(0, "h"), 2, REFUSAL, 3, 1, 1);
    t := IsRefused(P, s2, Held(0, "h"), 2, "h");
    EndFacts(s1, s2, t, 2, 1, 1, OVER, CALLED);
  }

  /** Create 0 takes the slot after the delete has run out, and its hotel answers
      with a room. */
  lemma LastGoes(P: State -> bool, s: State) returns (t: State)
    requires Closed(P, Held(0, "h")) && P(s) && Contended(s, 1, 0, 0, OVER, OVER) && DeletedAtOne(s) && s.now - 1 >= TOMBSTONE_TTL
    ensures P(t) && SameRest(s, t) && CanSettle(t, 0) && OneInn(t, Inn(3, 0, 1, 0))
    ensures t.creates[0] == Waiting(MINE, 0).(phase := Answered("h", ROOM))
  {
    OtherNotDoomed(s, 0);
    var s1 := IsCalledNow(P, s, Held(0, "h"), 0, 3, 1, 0);
    t := IsAnswered(P, s1, Held(0, "h"), 0, ROOM, 3, 0, 1);
  }

  /** The room of create 0 is in the books although d hits it. */
  predicate BookedTooLate(t: State, d: Delete) {
    && 0 in t.creates && t.creates[0].phase.Finished? && t.deletes == [d] && Hits(d, t.creates[0])
    && t.creates[0].outcome.Booked? && t.creates[0].outcome.at - d.at >= TOMBSTONE_TTL
    && "h" in t.hotels && "room" in t.hotels["h"].rooms && t.hotels["h"].rooms["room"].state == Running
    && t.hotels["h"].rooms["room"].guest == t.creates[0].guest
  }

  lemma BookedFacts(s: State, doomed: bool)
    requires CanSettle(s, 0) && OneInn(s, Inn(3, 0, 1, 0)) && s.creates[0] == Waiting(MINE, 0).(phase := Answered("h", ROOM))
    requires DeletedAtOne(s) && s.now - 1 >= TOMBSTONE_TTL && !doomed
    ensures BookedTooLate(ApplySettle(s, 0, doomed), s.deletes[0]) && ApplySettle(s, 0, doomed).now == s.now
  {
  }

  lemma LastIsBooked(P: State -> bool, s: State) returns (t: State)
    requires Closed(P, Held(0, "h")) && P(s) && CanSettle(s, 0) && OneInn(s, Inn(3, 0, 1, 0))
    requires s.creates[0] == Waiting(MINE, 0).(phase := Answered("h", ROOM)) && DeletedAtOne(s) && s.now - 1 >= TOMBSTONE_TTL
    ensures P(t) && t.now == s.now && BookedTooLate(t, s.deletes[0])
  {
    OtherNotDoomed(s, 0);
    BookedFacts(s, Doomed(s, s.creates[0]));
    StepIn(P, s, Held(0, "h"), OfCreate(0, Settle));
    t := Next(s, OfCreate(0, Settle));
  }

  /** The call of create 1 and the start of the call of create 2. */
  lemma WaitsOnce(a: State) returns (b: State)
    requires a.now == 0 && Contended(a, 2, 1, 1, CALLED, OTHER) && Undeleted(a)
    ensures Leads(a, b, Held(0, "h")) && b.now == 8 * MINUTE + 1 && Contended(b, 1, 1, 1, OVER, CALLED) && DeletedAtOne(b)
  {
    var P := From(a, Held(0, "h"));
    FromClosed(a, Held(0, "h"));
    var s := DeleteComes(P, a);
    s := FirstEnds(P, s);
    b := SecondGoes(P, s);
  }

  /** The first half of the wait: the call of create 1. */
  lemma FirstHalf() returns (a: State, b: State)
    ensures Leads(Start("g"), a, Any) && a.now == 0 && Contended(a, 2, 1, 1, CALLED, OTHER) && Undeleted(a)
    ensures Leads(a, b, Held(0, "h")) && b.now == 8 * MINUTE + 1 && Contended(b, 1, 1, 1, OVER, CALLED) && DeletedAtOne(b)
  {
    FromClosed(Start("g"), Any);
    a := ThreeCome(From(Start("g"), Any));
    b := WaitsOnce(a);
  }

  /** The second half: the call of create 2, and then create 0. */
  lemma SecondHalf(b: State) returns (t: State)
    requires b.now == 8 * MINUTE + 1 && Contended(b, 1, 1, 1, OVER, CALLED) && DeletedAtOne(b)
    ensures Leads(b, t, Held(0, "h")) && t.now == 16 * MINUTE + 1 && BookedTooLate(t, b.deletes[0])
  {
    var P := From(b, Held(0, "h"));
    FromClosed(b, Held(0, "h"));
    var s := SecondEnds(P, b);
    s := LastGoes(P, s);
    t := LastIsBooked(P, s);
  }

  /** Some path of any kind is a run. */
  lemma LeadsAnyway(u: State, s: State, t: State, mode: Mode)
    requires Leads(u, s, Any) && Leads(s, t, mode)
    ensures Leads(u, t, Any)
  {
    var es :| Path(mode, s, es, t);
    PathIsRun(mode, s, es, t);
    LeadsOn(u, s, es, t);
  }

  /** From a start, on a hotel that takes one create call at a time: create 1 is
      being called in a and create 2 in b, each for less than the longest time a
      call may take, and create 0 waits. A delete comes that matches create 0
      alone. No time passes but while create 0 waits for a slot that another
      create holds. It gets the slot after the delete has run out, and its room
      stays in the books. */
  lemma Outlived() returns (a: State, b: State, t: State, d: Delete)
    ensures Reachable(a) && a.now == 0 && a.creates == map[0 := Waiting(MINE, 0), 1 := CALLED, 2 := OTHER] && a.deletes == []
    ensures Leads(a, b, Held(0, "h")) && b.now - a.now <= CALL_LIMIT && b.creates == map[0 := Waiting(MINE, 0), 1 := OVER, 2 := CALLED]
    ensures Leads(b, t, Held(0, "h")) && t.now - b.now <= CALL_LIMIT && Reachable(t) && BookedTooLate(t, d)
  {
    a, b := FirstHalf();
    t := SecondHalf(b);
    d := b.deletes[0];
    FromStart("g", a);
    LeadsAnyway(Start("g"), a, b, Held(0, "h"));
    LeadsAnyway(Start("g"), b, t, Held(0, "h"));
    FromStart("g", t);
  }

  // ------------------------------------------------------------ one chip, two hotels

  const PASS := Admission(Some(0), Some(0), false, "chip", "report")

  /** A sealed hotel with the strict gate, reserved for this guest or for none. */
  function Sealed(id: string, reservedFor: string): HotelConfig {
    HotelConfig(id, map[], true, "", true, false, 0, false, 0, reservedFor, "", "")
  }

  lemma SealedHolds(id: string, reservedFor: string, adm: Admission)
    requires adm.chipFull == "chip" && adm.attestedAt == Some(0)
    ensures HoldsChip(CONFIG, Joined(Sealed(id, reservedFor), adm), "chip", 0)
    ensures NeedsAttestation(CONFIG, Joined(Sealed(id, reservedFor), NO_ADMISSION))
  {
  }

  /** Hotel a is admitted on the chip, hotel b waits for its check. */
  predicate TwoSealed(s: State) {
    && s.cfg == CONFIG && s.now == 0 && MutationFree(s)
    && s.hotels == map["a" := Joined(Sealed("a", ""), PASS), "b" := Joined(Sealed("b", ""), NO_ADMISSION)]
  }

  lemma JoinBoth(P: State -> bool) returns (s: State)
    requires Closed(P, Any) && P(Start("g"))
    ensures P(s) && TwoSealed(s)
  {
    var s1 := Join(P, Start("g"), Any, Sealed("a", ""), PASS);
    s := Join(P, s1, Any, Sealed("b", ""), NO_ADMISSION);
  }

  lemma TwoSealedFacts(s: State)
    requires TwoSealed(s)
    ensures OnePerChip(s) && HoldsChip(s.cfg, s.hotels["a"], "chip", 0) && NeedsAttestation(s.cfg, s.hotels["b"])
    ensures HoldsChip(s.cfg, s.hotels["b"].(adm := Admission(Some(0), Some(0), false, "chip", "new")), "chip", 0)
    ensures forall o :: o in s.hotels && o != "a" ==> !HoldsChip(s.cfg, s.hotels[o], "chip", 0)
  {
    SealedHolds("a", "", PASS);
    SealedHolds("b", "", Admission(Some(0), Some(0), false, "chip", "new"));
  }

  /** From a start: two admitted hotels on one chip. */
  lemma SharedChip() returns (t: State)
    ensures Reachable(t) && !OnePerChip(t)
  {
    FromClosed(Start("g"), Any);
    var s := JoinBoth(From(Start("g"), Any));
    FromStart("g", s);
    TwoSealedFacts(s);
    SafeAtRest(s);
    var es;
    es, t := UndoneLeaveShares(s, "a", "b", "chip", "new");
    LeadsOn(Start("g"), s, es, t);
    FromStart("g", t);
  }

  // ------------------------------------------------------------ leave and join again

  /** Any idle joined hotel, lent or not, leaves and comes back as the join says. */
  lemma ComesBack(P: State -> bool, s: State, h: string, c: HotelConfig, adm: Admission) returns (t: State)
    requires Closed(P, Quiet) && P(s) && CanMarkLeaving(s, h) && (forall i :: i in s.creates ==> OffHotel(s.creates[i].phase, h))
    requires c.id == h && h != "" && s.cfg.stateDir && c.lentFrom == "" && c.lentReportId == ""
    requires c.reservedFor == "" || c.reservedFor in s.guests
    requires (c.requireAttestation ==> c.sealed) && (c.minerHotkey != "" ==> c.sealed)
    requires !ChipTaken(s.cfg, s.hotels, h, adm.chipFull, s.now)
    ensures P(t) && SameDesk(s, t) && t.hotels == s.hotels[h := Joined(c, adm)]
  {
    var s1 := Leave(P, s, Quiet, h);
    assert CanJoin(s1, c) && !ChipTaken(s1.cfg, s1.hotels, c.id, adm.chipFull, s1.now) by {
      SameHolders(s, s1, h, adm.chipFull);
    }
    t := Join(P, s1, Quiet, c, adm);
  }

  const LEND := PatchRequest(None, None, None, None, true)

  const OWNED := Sealed("h", "g")

  function LentHotel(): Hotel {
    Joined(OWNED, PASS).(cfg := Joined(OWNED, PASS).cfg.(lentFrom := "g", lentReportId := "report", reservedFor := ""))
  }

  /** The hotel of guest g is lent to the pool. */
  predicate IsLent(s: State) {
    s.cfg == CONFIG && s.now == 0 && MutationFree(s) && s.creates == map[] && "g" in s.guests && s.hotels == map["h" := LentHotel()]
  }

  function LendPatch(reportId: string, fetching: bool): Patch {
    Patch("h", LEND, LendChange(true, false, "g", reportId, "", false), fetching)
  }

  lemma LendBegins(s: State)
    requires MutationFree(s) && s.hotels == map["h" := Joined(OWNED, PASS)]
    ensures CanBeginPatch(s, "h", LEND) && ApplyPatchBegin(s, "h", LEND) == s.(patch := Some(LendPatch("", true)))
  {
  }

  lemma LendFetched(s: State)
    requires s.patch == Some(LendPatch("", true))
    ensures CanFetch(s, ReportId("report")) && ApplyPatchFetched(s, ReportId("report")) == s.(patch := Some(LendPatch("report", false)))
  {
  }

  lemma LendCommits(s: State)
    requires s.patch == Some(LendPatch("report", false)) && s.hotels == map["h" := Joined(OWNED, PASS)]
    ensures CanCommit(s)
    ensures var t := ApplyPatchCommit(s, true);
      && t.hotels == map["h" := LentHotel()] && t.patch.None? && t.moving == s.moving && t.cfg == s.cfg && t.now == s.now
      && t.creates == s.creates && t.guests == s.guests
  {
    assert PatchAnswer(s, true).None?;
  }

  lemma BecomesLent(P: State -> bool) returns (s: State)
    requires Closed(P, Any) && P(Start("g"))
    ensures P(s) && IsLent(s)
  {
    var s0 := Join(P, Start("g"), Any, OWNED, PASS);
    LendBegins(s0);
    StepIn(P, s0, Any, OfDesk(PatchBegin("h", LEND)));
    var s1 := Next(s0, OfDesk(PatchBegin("h", LEND)));
    LendFetched(s1);
    StepIn(P, s1, Any, OfDesk(PatchFetched(ReportId("report"))));
    var s2 := Next(s1, OfDesk(PatchFetched(ReportId("report"))));
    LendCommits(s2);
    StepIn(P, s2, Any, OfAdmin(PatchCommit(true)));
    s := Next(s2, OfAdmin(PatchCommit(true)));
  }

  const ASK_SEALED := ASK.(labels := map["sealed" := "true"])

  lemma OwnedTakes(x: Hotel)
    requires x == Joined(OWNED, PASS).(slots := 1, up := true)
    ensures Takes(CONFIG, x, 0) && Allows(ASK_SEALED, x.cfg)
  {
  }

  /** The hotel is back, reserved for guest g, and up. */
  predicate IsOpen(s: State) {
    && s.cfg == CONFIG && s.now == 0 && s.creates == map[] && "g" in s.guests
    && s.hotels == map["h" := Joined(OWNED, PASS).(slots := 1, up := true)]
  }

  lemma OpenFacts(s: State, s1: State, t: State)
    requires IsLent(s) && SameDesk(s, s1) && s1.hotels == s.hotels["h" := Joined(OWNED, PASS)] && SameRest(s1, t) && t.creates == s1.creates
    requires t.hotels == s1.hotels["h" := s1.hotels["h"].(slots := 1, up := true, memPct := 0.0, cpuPct := 0.0)]
    ensures IsOpen(t)
  {
    assert t.hotels == map["h" := Joined(OWNED, PASS).(slots := 1, up := true)];
  }

  lemma OpensAgain(P: State -> bool, s: State) returns (t: State)
    requires Closed(P, Quiet) && P(s) && IsLent(s)
    ensures P(t) && IsOpen(t)
  {
    LentFacts(s);
    var s1 := ComesBack(P, s, "h", OWNED, PASS);
    t := Reports(P, s1, Quiet, "h", 1);
    OpenFacts(s, s1, t);
  }

  /** A create of the owner is placed on the open hotel. */
  lemma OwnerPlaced(P: State -> bool, s: State) returns (t: State)
    requires Closed(P, Quiet) && P(s) && IsOpen(s)
    ensures P(t) && "h" in t.hotels && t.hotels["h"].cfg == Joined(OWNED, PASS).cfg && t.hotels["h"].adm == PASS
    ensures 0 in t.creates && t.creates[0].guest == "g" && Bound(t.creates[0], "h")
  {
    var s1 := Arrives(P, s, Quiet, 0, "g", ASK_SEALED, map[]);
    OwnedTakes(s1.hotels["h"]);
    t := Places(P, s1, Quiet, 0, "h");
  }

  lemma LentFacts(s: State)
    requires IsLent(s)
    ensures CanMarkLeaving(s, "h") && !ChipTaken(s.cfg, s.hotels, "h", "chip", 0)
  {
  }

  /** From a start: guest g lends its hotel to the pool; the hotel leaves and
      joins again reserved for g, on the launch that the lend recorded; and a
      create of g is placed on it. There was no reclaim and no restart. */
  lemma BackWithoutReclaim() returns (s: State, t: State)
    ensures Reachable(s) && "h" in s.hotels && s.hotels["h"].cfg.lentFrom == "g"
    ensures Leads(s, t, Quiet) && "h" in t.hotels && t.hotels["h"].cfg.reservedFor == "g" && t.hotels["h"].cfg.lentFrom == ""
    ensures t.hotels["h"].adm.reportId == s.hotels["h"].cfg.lentReportId && IsReportId(s.hotels["h"].cfg.lentReportId)
    ensures 0 in t.creates && t.creates[0].guest == "g" && Bound(t.creates[0], "h")
  {
    FromClosed(Start("g"), Any);
    s := BecomesLent(From(Start("g"), Any));
    FromStart("g", s);
    FromClosed(s, Quiet);
    var open := OpensAgain(From(s, Quiet), s);
    t := OwnerPlaced(From(s, Quiet), open);
  }
}
