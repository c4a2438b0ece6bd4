/**
 One hotel per chip over whole runs. A hotel between its chip check and the end
 of its join, or between the mark and the end of its leave, is in transit: it
 may come back in place, but the search for the holder of a chip skips it. One
 hotel per chip is safe exactly until a check passes on the chip of a hotel in
 transit.
 */
module BookingTransit {
  import opened Options
  import opened Hotels
  import opened Lend
  import opened Booking
  import opened BookingFrames
  import opened BookingDurable
  import opened BookingChips

  predicate InTransit(h: Hotel) {
    h.stage.Checked? || h.stage.Leaving? || h.stage.Dropped?
  }

  ghost predicate TransitOk(s: State) {
    forall h :: h in s.hotels && InTransit(s.hotels[h]) ==> !WouldShare(s, h)
  }

  /** No two hotels share a chip, and none in transit would if it came back. */
  ghost predicate Safe(s: State) {
    OnePerChip(s) && GatesOk(s) && Placed(s) && TransitOk(s)
  }

  /** h, once in place, holds this chip. */
  predicate WouldHold(s: State, h: string, chip: string)
    requires h in s.hotels
  {
    chip != "" && HoldsChip(s.cfg, s.hotels[h].(stage := InPlace), chip, s.now)
  }

  /** Hotel o with a check that passed just now. */
  function WithPass(s: State, o: string, a: Attestation): Hotel
    requires o in s.hotels && a.Passed?
  {
    s.hotels[o].(adm := Admission(Some(s.now), Some(s.now), false, a.chipFull, a.reportId))
  }

  /** A pass of o counts: o is in place and gated, and no hotel in place holds
      the chip. */
  predicate PassCounts(s: State, o: string, a: Attestation)
    requires o in s.hotels && a.Passed?
  {
    a.chipFull != "" && !ChipTaken(s.cfg, s.hotels, o, a.chipFull, s.now) && HoldsChip(s.cfg, WithPass(s, o, a), a.chipFull, s.now)
  }

  /** o passes its check on the chip of h. */
  predicate TakesChipOf(s: State, o: string, a: Attestation, h: string)
    requires o in s.hotels && h in s.hotels
  {
    a.Passed? && PassCounts(s, o, a) && h != o && WouldHold(s, h, a.chipFull)
  }

  /** A check of one hotel passes on the chip of a hotel in transit. */
  predicate Sneaks(s: State, e: Event) {
    && e.OfHotel? && e.event.Attest? && e.hotel in s.hotels
    && exists h :: h in s.hotels && InTransit(s.hotels[h]) && TakesChipOf(s, e.hotel, e.event.result, h)
  }

  // ------------------------------------------------------------ events

  /** Without a hotel on the move none is in transit. */
  lemma NoneMoving(s: State)
    requires Placed(s) && s.moving.None?
    ensures TransitOk(s)
  {
  }

  /** Hotels that hold no more than before share no more than before. */
  lemma TransitLess(s: State, t: State)
    requires TransitOk(s) && t.cfg == s.cfg && t.hotels.Keys == s.hotels.Keys
    requires forall h :: h in s.hotels ==> t.hotels[h].stage == s.hotels[h].stage
    requires forall h :: h in s.hotels ==>
      HoldsLess(s.cfg, s.hotels[h].(stage := InPlace), t.hotels[h].(stage := InPlace), s.now, t.now)
    ensures TransitOk(t)
  {
    forall h | h in t.hotels && InTransit(t.hotels[h])
      ensures !WouldShare(t, h)
    {
      if WouldShare(t, h) {
        var chip := t.hotels[h].adm.chipFull;
        var o :| o in t.hotels && o != h && HoldsChip(t.cfg, t.hotels[o], chip, t.now);
        assert t.hotels[o].(stage := InPlace) == t.hotels[o] && s.hotels[o].(stage := InPlace) == s.hotels[o];
        assert HoldsChip(s.cfg, s.hotels[o], chip, s.now);
        assert WouldShare(s, h);
      }
    }
  }

  lemma CreateTransit(s: State, id: nat, t: State)
    requires TransitOk(s) && CreateFrame(s, id, t)
    ensures TransitOk(t)
  {
    forall h | h in s.hotels
      ensures t.hotels[h].stage == s.hotels[h].stage
      ensures HoldsLess(s.cfg, s.hotels[h].(stage := InPlace), t.hotels[h].(stage := InPlace), s.now, t.now)
    {
      assert SameHotel(s.hotels[h], t.hotels[h]);
      SameGate(s.cfg, s.hotels[h].(stage := InPlace), t.hotels[h].(stage := InPlace), s.now, t.now);
    }
    TransitLess(s, t);
  }

  lemma SameHolds(s: State, now: Time)
    requires s.now <= now
    ensures forall h :: h in s.hotels ==>
      HoldsLess(s.cfg, s.hotels[h].(stage := InPlace), s.hotels[h].(stage := InPlace), s.now, now)
  {
  }

  lemma DeskTransit(s: State, e: DeskEvent)
    requires TransitOk(s) && DeskEnabled(s, e)
    ensures TransitOk(DeskEffect(s, e))
  {
    var t := DeskEffect(s, e);
    SameHolds(s, t.now);
    TransitLess(s, t);
  }

  lemma HotelTransit(s: State, h: string, r: Hotel)
    requires TransitOk(s) && h in s.hotels && r.stage == s.hotels[h].stage
    requires HoldsLess(s.cfg, s.hotels[h].(stage := InPlace), r.(stage := InPlace), s.now, s.now)
    ensures TransitOk(WithHotel(s, h, r))
  {
    SameHolds(s, s.now);
    TransitLess(s, WithHotel(s, h, r));
  }

  lemma OtherHolds(s: State, h: string, e: HotelEvent)
    requires h in s.hotels && HotelEnabled(s, h, e) && !e.Attest?
    ensures HoldsLess(s.cfg, s.hotels[h].(stage := InPlace), HotelEffect(s, h, e).(stage := InPlace), s.now, s.now)
  {
    var x := s.hotels[h];
    match e
    case Health(up, slots, mem, cpu) => HealthHolds(s.cfg, x, up, slots, mem, cpu, s.now);
    case RoomList(listed, released) => ListHolds(s.cfg, x, listed, released, s.now);
    case DeleteRoom(hid) => SameGate(s.cfg, x.(stage := InPlace), ApplyDeleteRoom(x, hid, s.now).(stage := InPlace), s.now, s.now);
    case Baseline(rid) => SameGate(s.cfg, x.(stage := InPlace), FillBaseline(x, rid).(stage := InPlace), s.now, s.now);
  }

  lemma HealthHolds(b: BrokerConfig, h: Hotel, up: bool, slots: int, mem: real, cpu: real, now: Time)
    ensures HoldsLess(b, h.(stage := InPlace), ApplyHealth(h, up, slots, mem, cpu).(stage := InPlace), now, now)
  {
    if up {
      SameGate(b, h.(stage := InPlace), ApplyHealth(h, up, slots, mem, cpu).(stage := InPlace), now, now);
    }
  }

  lemma ListHolds(b: BrokerConfig, h: Hotel, listed: map<string, string>, released: set<string>, now: Time)
    ensures HoldsLess(b, h.(stage := InPlace), ApplyRoomList(h, listed, released, now).(stage := InPlace), now, now)
  {
    SameGate(b, h.(stage := InPlace), ApplyRoomList(h, listed, released, now).(stage := InPlace), now, now);
  }

  lemma OtherHotelTransit(s: State, h: string, e: HotelEvent)
    requires TransitOk(s) && h in s.hotels && HotelEnabled(s, h, e) && !e.Attest?
    ensures TransitOk(WithHotel(s, h, HotelEffect(s, h, e)))
  {
    HotelKeepsStage(s, h, e);
    OtherHolds(s, h, e);
    HotelTransit(s, h, HotelEffect(s, h, e));
  }

  /** The hotel that is checked is itself in transit, or it does not take the
      chip of one that is. */
  lemma AttestTransit(s: State, o: string, a: Attestation)
    requires TransitOk(s) && o in s.hotels
    ensures var t := WithHotel(s, o, NoteAttestation(s.cfg, s.hotels, o, a, s.now));
      TransitOk(t) <==> forall h :: h in s.hotels && InTransit(s.hotels[h]) ==> !TakesChipOf(s, o, a, h)
  {
    var r := NoteAttestation(s.cfg, s.hotels, o, a, s.now);
    var t := WithHotel(s, o, r);
    forall h | h in s.hotels && InTransit(s.hotels[h])
      ensures WouldShare(t, h) <==> TakesChipOf(s, o, a, h)
    {
      AttestShares(s, o, a, h);
    }
  }

  lemma AttestShares(s: State, o: string, a: Attestation, h: string)
    requires o in s.hotels && h in s.hotels && !WouldShare(s, h)
    ensures var t := WithHotel(s, o, NoteAttestation(s.cfg, s.hotels, o, a, s.now));
      WouldShare(t, h) <==> TakesChipOf(s, o, a, h)
  {
    var r := NoteAttestation(s.cfg, s.hotels, o, a, s.now);
    var t := WithHotel(s, o, r);
    var chip := t.hotels[h].adm.chipFull;
    TakenAfter(s, o, r, h, chip);
    if h != o && a.Passed? && PassCounts(s, o, a) {
      assert r == WithPass(s, o, a);
    }
  }

  /** Whether another hotel has the chip of h, once hotel o is r. */
  lemma TakenAfter(s: State, o: string, r: Hotel, h: string, chip: string)
    requires o in s.hotels
    ensures var t := WithHotel(s, o, r);
      ChipTaken(t.cfg, t.hotels, h, chip, t.now)
      <==> (h != o && HoldsChip(s.cfg, r, chip, s.now))
           || exists x :: x in s.hotels && x != h && x != o && HoldsChip(s.cfg, s.hotels[x], chip, s.now)
  {
    var t := WithHotel(s, o, r);
    if h != o && HoldsChip(s.cfg, r, chip, s.now) {
      assert t.hotels[o] == r;
    }
    if x :| x in s.hotels && x != h && x != o && HoldsChip(s.cfg, s.hotels[x], chip, s.now) {
      assert t.hotels[x] == s.hotels[x];
    }
  }

  // ------------------------------------------------------------ join and leave

  lemma CheckTransit(s: State, h: string)
    requires Placed(s) && AdminEnabled(s, JoinCheck(h))
    ensures TransitOk(AdminEffect(s, JoinCheck(h)))
  {
    var t := AdminEffect(s, JoinCheck(h));
    StageShares(s, h, Checked, t);
    assert s.moving == Some(h);
  }

  lemma MarkTransit(s: State, h: string)
    requires Placed(s) && OnePerChip(s) && AdminEnabled(s, LeaveMark(h))
    ensures TransitOk(AdminEffect(s, LeaveMark(h)))
  {
    var t := AdminEffect(s, LeaveMark(h));
    StageShares(s, h, Leaving, t);
    assert s.hotels[h].(stage := InPlace) == s.hotels[h];
    if WouldShare(s, h) {
      var o :| o in s.hotels && o != h && HoldsChip(s.cfg, s.hotels[o], s.hotels[h].adm.chipFull, s.now);
      assert Rivals(s, h, o);
    }
  }

  lemma DropTransit(s: State, h: string)
    requires Placed(s) && TransitOk(s) && AdminEnabled(s, LeaveDrop(h))
    ensures TransitOk(AdminEffect(s, LeaveDrop(h)))
  {
    StageShares(s, h, Dropped, AdminEffect(s, LeaveDrop(h)));
    assert s.moving == Some(h);
  }

  /** The stage of a hotel does not change whether it would share. */
  lemma StageShares(s: State, h: string, stage: Stage, t: State)
    requires h in s.hotels && t.hotels == s.hotels[h := s.hotels[h].(stage := stage)] && t.cfg == s.cfg && t.now == s.now
    ensures WouldShare(t, h) <==> WouldShare(s, h)
  {
    var chip := s.hotels[h].adm.chipFull;
    assert t.hotels[h].(stage := InPlace) == s.hotels[h].(stage := InPlace);
    if ChipTaken(s.cfg, s.hotels, h, chip, s.now) {
      var o :| o in s.hotels && o != h && HoldsChip(s.cfg, s.hotels[o], chip, s.now);
      assert t.hotels[o] == s.hotels[o];
      assert ChipTaken(t.cfg, t.hotels, h, chip, t.now);
    }
  }

  lemma AdminTransit(s: State, e: AdminEvent)
    requires Placed(s) && OnePerChip(s) && TransitOk(s) && AdminEnabled(s, e)
    ensures TransitOk(AdminEffect(s, e))
  {
    var t := AdminEffect(s, e);
    AdminKeepsPlaced(s, e);
    match e
    case JoinCheck(h) => CheckTransit(s, h);
    case LeaveMark(h) => MarkTransit(s, h);
    case LeaveDrop(h) => DropTransit(s, h);
    case JoinAdd(c, adm) => AddTransit(s, c, adm);
    case PatchCommit(saved) => NoneMoving(t);
    case JoinRefuse(h) => NoneMoving(t);
    case JoinSave(h, saved) => NoneMoving(t);
    case LeaveSave(h, saved) => NoneMoving(t);
    case Restart(file, skipped, overCap) => NoneMoving(t);
  }

  lemma AddTransit(s: State, c: HotelConfig, adm: Admission)
    requires Placed(s) && CanJoin(s, c)
    ensures TransitOk(ApplyJoinAdd(s, c, adm))
  {
    NoneMoving(s);
  }

  // ------------------------------------------------------------ steps and runs

  lemma SameTransit(s: State, t: State)
    requires t.cfg == s.cfg && t.now == s.now && t.hotels == s.hotels
    ensures TransitOk(t) <==> TransitOk(s)
  {
  }

  lemma EffectTransit(s: State, e: Event)
    requires Safe(s) && Enabled(s, e)
    ensures TransitOk(Effect(s, e)) <==> !Sneaks(s, e)
  {
    match e
    case OfCreate(id, c) => CreateFramed(s, id, c); CreateTransit(s, id, CreateEffect(s, id, c));
    case OfHotel(h, x) => if x.Attest? { AttestTransit(s, h, x.result); } else { OtherHotelTransit(s, h, x); }
    case OfDesk(d) => DeskTransit(s, d);
    case OfAdmin(a) => AdminTransit(s, a);
  }

  /** The end of a join or of an undone leave finds its hotel in transit. */
  lemma SafeIsCareful(s: State, e: Event)
    requires TransitOk(s) && Enabled(s, e)
    ensures Careful(s, e)
  {
  }

  /** An event keeps a safe state safe if and only if it is not a check that
      passes on the chip of a hotel in transit. */
  lemma StepSafeIff(s: State, e: Event)
    requires Safe(s) && Enabled(s, e)
    ensures Safe(Next(s, e)) <==> !Sneaks(s, e)
  {
    SafeIsCareful(s, e);
    StepChips(s, e);
    StepGates(s, e);
    StepPlaced(s, e);
    EffectTransit(s, e);
    SameTransit(Effect(s, e), Next(s, e));
  }

  ghost predicate NoSneak(s: State, es: seq<Event>)
    decreases |es|
  {
    es == [] || (Enabled(s, es[0]) && !Sneaks(s, es[0]) && NoSneak(Next(s, es[0]), es[1..]))
  }

  lemma {:induction false} RunSafe(s: State, es: seq<Event>, t: State)
    requires Safe(s) && Run(s, es, t) && NoSneak(s, es)
    ensures Safe(t)
    decreases |es|
  {
    if es != [] {
      StepSafeIff(s, es[0]);
      RunSafe(Next(s, es[0]), es[1..], t);
    }
  }

  lemma InitSafe(s: State)
    requires Init(s)
    ensures Safe(s)
  {
    InitOnePerChip(s);
    InitPlaced(s);
    NoneMoving(s);
  }

  lemma {:induction false} RunGates(s: State, es: seq<Event>, t: State)
    requires GatesOk(s) && Run(s, es, t)
    ensures GatesOk(t)
    decreases |es|
  {
    if es != [] {
      StepGates(s, es[0]);
      RunGates(Next(s, es[0]), es[1..], t);
    }
  }

  /** A reachable state without a hotel on the move is safe when its hotels are
      on chips of their own. */
  lemma SafeAtRest(t: State)
    requires Reachable(t) && t.moving.None? && OnePerChip(t)
    ensures Safe(t)
  {
    var s, es :| Init(s) && Run(s, es, t);
    InitOnePerChip(s);
    RunGates(s, es, t);
    ReachablePlaced(t);
    NoneMoving(t);
  }

  /** At most one admitted gated hotel per chip, over every run from every start
      in which no check passes on the chip of a hotel in transit: any mix of
      checks, fetch failures, expiries, downs, joins, leaves, failed saves, label
      changes and restarts. */
  lemma RunKeepsOnePerChip(s: State, es: seq<Event>, t: State)
    requires Init(s) && Run(s, es, t) && NoSneak(s, es)
    ensures OnePerChip(t)
  {
    InitSafe(s);
    RunSafe(s, es, t);
  }

  // ------------------------------------------------------------ the other half

  /** What the join or the leave of h does next when a leave cannot be saved. */
  function ComeBack(h: Hotel, id: string): seq<Event> {
    if h.stage.Checked? then [OfAdmin(JoinSave(id, true))] + []
    else if h.stage.Leaving? then [OfAdmin(LeaveDrop(id))] + ([OfAdmin(LeaveSave(id, false))] + [])
    else [OfAdmin(LeaveSave(id, false))] + []
  }

  lemma ReopenShares(s: State, e: AdminEvent, h: string)
    requires AdminEnabled(s, e) && Reopens(e, h) && WouldShare(s, h)
    ensures !OnePerChip(Next(s, OfAdmin(e)))
  {
    var t := Next(s, OfAdmin(e));
    var r := s.hotels[h].(stage := InPlace);
    var o :| o in s.hotels && o != h && HoldsChip(s.cfg, s.hotels[o], r.adm.chipFull, s.now);
    assert t.hotels == s.hotels[h := r];
    assert Rivals(t, h, o);
  }

  /** A hotel in transit that would share its chip comes back and shares it. */
  lemma UnsafeBreaks(s: State, h: string) returns (t: State)
    requires h in s.hotels && InTransit(s.hotels[h]) && WouldShare(s, h)
    ensures Run(s, ComeBack(s.hotels[h], h), t) && !OnePerChip(t)
  {
    if s.hotels[h].stage.Leaving? {
      var s1 := Next(s, OfAdmin(LeaveDrop(h)));
      StageShares(s, h, Dropped, s1);
      t := LastBreaks(s1, LeaveSave(h, false), h);
      RunCons(s, OfAdmin(LeaveDrop(h)), [OfAdmin(LeaveSave(h, false))] + [], t);
    } else {
      t := LastBreaks(s, if s.hotels[h].stage.Checked? then JoinSave(h, true) else LeaveSave(h, false), h);
    }
  }

  lemma LastBreaks(s: State, e: AdminEvent, h: string) returns (t: State)
    requires AdminEnabled(s, e) && Reopens(e, h) && WouldShare(s, h)
    ensures Run(s, [OfAdmin(e)] + [], t) && !OnePerChip(t)
  {
    ReopenShares(s, e, h);
    t := Next(s, OfAdmin(e));
    RunCons(s, OfAdmin(e), [], t);
  }

  /** After a check on the chip of a hotel in transit, at most two more events
      put two admitted hotels on one chip. */
  lemma SneakBreaks(s: State, e: Event) returns (es: seq<Event>, t: State)
    requires Safe(s) && Enabled(s, e) && Sneaks(s, e)
    ensures |es| <= 2 && Run(Next(s, e), es, t) && !OnePerChip(t)
  {
    StepSafeIff(s, e);
    EffectTransit(s, e);
    SameTransit(Effect(s, e), Next(s, e));
    var u := Next(s, e);
    var h :| h in u.hotels && InTransit(u.hotels[h]) && WouldShare(u, h);
    es := ComeBack(u.hotels[h], h);
    t := UnsafeBreaks(u, h);
  }

  /** An idle joined hotel a that holds a chip leaves; b, on the same chip and
      not admitted, can then pass its check. */
  lemma LeaveLetsIn(s: State, a: string, b: string, chip: string, report: string)
    requires MutationFree(s) && a in s.hotels && b in s.hotels && a != b && chip != ""
    requires s.hotels[a].runtime && Used(s.hotels[a]) == 0 && HoldsChip(s.cfg, s.hotels[a], chip, s.now)
    requires NeedsAttestation(s.cfg, s.hotels[b])
    requires HoldsChip(s.cfg, s.hotels[b].(adm := Admission(Some(s.now), Some(s.now), false, chip, report)), chip, s.now)
    requires forall o :: o in s.hotels && o != a ==> !HoldsChip(s.cfg, s.hotels[o], chip, s.now)
    ensures Enabled(s, OfAdmin(LeaveMark(a)))
    ensures var e, s1 := OfHotel(b, Attest(Passed(chip, report))), Next(s, OfAdmin(LeaveMark(a)));
      Enabled(s1, e) && Sneaks(s1, e)
  {
    var s1 := Next(s, OfAdmin(LeaveMark(a)));
    assert s1.hotels == s.hotels[a := s.hotels[a].(stage := Leaving)];
    assert s1.hotels[a].(stage := InPlace) == s.hotels[a] && s1.hotels[b] == s.hotels[b];
    assert !ChipTaken(s1.cfg, s1.hotels, b, chip, s1.now);
    assert TakesChipOf(s1, b, Passed(chip, report), a);
  }

  /** So a leave that cannot be saved ends with a and b admitted on one chip. */
  lemma UndoneLeaveShares(s: State, a: string, b: string, chip: string, report: string) returns (es: seq<Event>, t: State)
    requires Safe(s) && MutationFree(s) && a in s.hotels && b in s.hotels && a != b && chip != ""
    requires s.hotels[a].runtime && Used(s.hotels[a]) == 0 && HoldsChip(s.cfg, s.hotels[a], chip, s.now)
    requires NeedsAttestation(s.cfg, s.hotels[b])
    requires HoldsChip(s.cfg, s.hotels[b].(adm := Admission(Some(s.now), Some(s.now), false, chip, report)), chip, s.now)
    requires forall o :: o in s.hotels && o != a ==> !HoldsChip(s.cfg, s.hotels[o], chip, s.now)
    ensures |es| <= 4 && Run(s, es, t) && !OnePerChip(t)
  {
    LeaveLetsIn(s, a, b, chip, report);
    var mark, check := OfAdmin(LeaveMark(a)), OfHotel(b, Attest(Passed(chip, report)));
    StepSafeIff(s, mark);
    var s1 := Next(s, mark);
    es, t := SneakBreaks(s1, check);
    RunCons(s1, check, es, t);
    RunCons(s, mark, [check] + es, t);
    es := [mark] + ([check] + es);
  }
}
