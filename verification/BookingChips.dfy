/**
 One hotel per chip: at most one admitted gated hotel in place for each SNP
 CHIP_ID. The one step that can break it is the one that puts a hotel back in
 place without looking at the chip again: the end of a join, and a leave whose
 save failed. It breaks it exactly when another hotel took the chip meanwhile.
 */
module BookingChips {
  import opened Options
  import opened Hotels
  import opened Lend
  import opened Booking
  import opened BookingFrames
  import opened BookingLend

  predicate Rivals(s: State, h: string, o: string) {
    && h in s.hotels && o in s.hotels && h != o && s.hotels[h].adm.chipFull != ""
    && HoldsChip(s.cfg, s.hotels[h], s.hotels[h].adm.chipFull, s.now)
    && HoldsChip(s.cfg, s.hotels[o], s.hotels[h].adm.chipFull, s.now)
  }

  ghost predicate OnePerChip(s: State) {
    forall h, o :: !Rivals(s, h, o)
  }

  /** A hotel with the strict gate is sealed, in memory and in hotels.json. */
  predicate GatesOk(s: State) {
    && (forall h :: h in s.hotels ==> (s.hotels[h].cfg.requireAttestation ==> s.hotels[h].cfg.sealed) && Labelled(s.hotels[h].cfg))
    && (forall h :: h in s.disk.hotels ==> (s.disk.hotels[h].requireAttestation ==> s.disk.hotels[h].sealed))
  }

  /** r holds no chip that h did not hold. */
  predicate HoldsLess(b: BrokerConfig, h: Hotel, r: Hotel, now: Time, later: Time) {
    HoldsChip(b, r, r.adm.chipFull, later) ==> r.adm.chipFull == h.adm.chipFull && HoldsChip(b, h, h.adm.chipFull, now)
  }

  lemma FewerHold(s: State, t: State)
    requires OnePerChip(s) && t.cfg == s.cfg
    requires forall h :: h in t.hotels && HoldsChip(t.cfg, t.hotels[h], t.hotels[h].adm.chipFull, t.now) ==>
               h in s.hotels && HoldsLess(s.cfg, s.hotels[h], t.hotels[h], s.now, t.now)
    ensures OnePerChip(t)
  {
    forall h, o
      ensures !Rivals(t, h, o)
    {
      assert !Rivals(s, h, o);
    }
  }

  /** Of two hotels that agree on what the gate reads, the later holds less. */
  lemma SameGate(b: BrokerConfig, h: Hotel, r: Hotel, now: Time, later: Time)
    requires now <= later && r.adm == h.adm && r.stage == h.stage && r.runtime == h.runtime
    requires r.cfg.labels == h.cfg.labels && r.cfg.minerHotkey == h.cfg.minerHotkey && r.cfg.sealed == h.cfg.sealed
    requires r.cfg.requireAttestation == h.cfg.requireAttestation && r.cfg.tlsPinned == h.cfg.tlsPinned
    ensures HoldsLess(b, h, r, now, later)
  {
  }

  // ------------------------------------------------------------ events

  lemma CreateChips(s: State, id: nat, t: State)
    requires OnePerChip(s) && CreateFrame(s, id, t)
    ensures OnePerChip(t)
  {
    forall h | h in t.hotels
      ensures HoldsLess(s.cfg, s.hotels[h], t.hotels[h], s.now, t.now)
    {
      assert SameHotel(s.hotels[h], t.hotels[h]);
      SameGate(s.cfg, s.hotels[h], t.hotels[h], s.now, t.now);
    }
    FewerHold(s, t);
  }

  lemma HotelChips(s: State, h: string, r: Hotel)
    requires OnePerChip(s) && h in s.hotels && HoldsLess(s.cfg, s.hotels[h], r, s.now, s.now)
    ensures OnePerChip(WithHotel(s, h, r))
  {
    FewerHold(s, WithHotel(s, h, r));
  }

  /** A check that passes on a chip no other hotel in place holds. */
  lemma AttestChips(s: State, h: string, a: Attestation)
    requires OnePerChip(s) && h in s.hotels
    ensures OnePerChip(WithHotel(s, h, NoteAttestation(s.cfg, s.hotels, h, a, s.now)))
  {
    var r := NoteAttestation(s.cfg, s.hotels, h, a, s.now);
    var t := WithHotel(s, h, r);
    forall x, o
      ensures !Rivals(t, x, o)
    {
      assert !Rivals(s, x, o);
      if x == h || o == h {
        var other := if x == h then o else x;
        if other in s.hotels && other != h && a.Passed? && a.chipFull != "" && HoldsChip(s.cfg, s.hotels[other], a.chipFull, s.now) {
          assert ChipTaken(s.cfg, s.hotels, h, a.chipFull, s.now);
        }
      }
    }
  }

  lemma OtherHotelChips(s: State, h: string, e: HotelEvent)
    requires OnePerChip(s) && h in s.hotels && HotelEnabled(s, h, e) && !e.Attest?
    ensures OnePerChip(WithHotel(s, h, HotelEffect(s, h, e)))
  {
    var r := HotelEffect(s, h, e);
    if !e.Health? || e.up {
      SameGate(s.cfg, s.hotels[h], r, s.now, s.now);
    }
    HotelChips(s, h, r);
  }

  /** A PATCH of the labels opens no gate. */
  lemma PatchedGate(b: BrokerConfig, p: Patch, h: Hotel, now: Time)
    requires (h.cfg.requireAttestation ==> h.cfg.sealed) && Labelled(h.cfg)
    ensures HoldsLess(b, h, PatchedHotel(p, h), now, now)
  {
  }

  lemma CommitChips(s: State, saved: bool)
    requires OnePerChip(s) && GatesOk(s) && CanCommit(s)
    ensures OnePerChip(ApplyPatchCommit(s, saved))
  {
    var p, t := s.patch.value, ApplyPatchCommit(s, saved);
    var r := PatchedHotel(p, s.hotels[p.id]);
    PatchedGate(s.cfg, p, s.hotels[p.id], s.now);
    HotelChips(s, p.id, r);
    SameHotelsChips(s, s.(patch := None));
    if t != s.(patch := None) {
      SameHotelsChips(WithHotel(s, p.id, r), t);
    }
  }

  lemma SameHotelsChips(s: State, t: State)
    requires OnePerChip(s) && t.cfg == s.cfg && t.now == s.now && t.hotels == s.hotels
    ensures OnePerChip(t)
  {
    forall h, o
      ensures !Rivals(t, h, o)
    {
      assert !Rivals(s, h, o);
    }
  }

  // ------------------------------------------------------------ back in place

  /** e puts h in place: the end of a join, or a leave that could not be saved. */
  predicate Reopens(e: AdminEvent, h: string) {
    e == JoinSave(h, true) || e == LeaveSave(h, false)
  }

  /** h, put in place now, would share its chip with a hotel in place. */
  predicate WouldShare(s: State, h: string)
    requires h in s.hotels
  {
    var r := s.hotels[h].(stage := InPlace);
    && r.adm.chipFull != "" && HoldsChip(s.cfg, r, r.adm.chipFull, s.now)
    && ChipTaken(s.cfg, s.hotels, h, r.adm.chipFull, s.now)
  }

  /** Putting h in place keeps one hotel per chip exactly when it would not share. */
  lemma ReopenKeepsIff(s: State, e: AdminEvent, h: string)
    requires OnePerChip(s) && AdminEnabled(s, e) && Reopens(e, h)
    ensures OnePerChip(AdminEffect(s, e)) <==> !WouldShare(s, h)
  {
    var t := AdminEffect(s, e);
    var r := s.hotels[h].(stage := InPlace);
    assert t.hotels == s.hotels[h := r];
    if WouldShare(s, h) {
      var o :| o in s.hotels && o != h && HoldsChip(s.cfg, s.hotels[o], r.adm.chipFull, s.now);
      assert Rivals(t, h, o);
    } else {
      forall x, o
        ensures !Rivals(t, x, o)
      {
        assert !Rivals(s, x, o);
      }
    }
  }

  // ------------------------------------------------------------ runs

  lemma DeskChips(s: State, e: DeskEvent)
    requires OnePerChip(s) && DeskEnabled(s, e)
    ensures OnePerChip(DeskEffect(s, e))
  {
    if e.Tick? {
      var t := DeskEffect(s, e);
      forall h | h in s.hotels
        ensures HoldsLess(s.cfg, s.hotels[h], s.hotels[h], s.now, t.now)
      {
        SameGate(s.cfg, s.hotels[h], s.hotels[h], s.now, t.now);
      }
      FewerHold(s, t);
    } else {
      SameHotelsChips(s, DeskEffect(s, e));
    }
  }

  /** A stage outside placement holds no chip. */
  lemma OutChips(s: State, h: string, r: Hotel, t: State)
    requires OnePerChip(s) && !r.stage.InPlace?
    requires t.hotels == s.hotels[h := r] && t.cfg == s.cfg && t.now == s.now
    ensures OnePerChip(t)
  {
    forall x, o
      ensures !Rivals(t, x, o)
    {
      assert !Rivals(s, x, o);
    }
  }

  lemma RestartChips(s: State, file: map<string, HotelConfig>, skipped: set<string>, overCap: set<string>)
    requires ValidFile(s, file)
    ensures OnePerChip(ApplyRestart(s, file, skipped, overCap))
  {
    var hotels := LoadHotels(file, s.disk, skipped, overCap);
    assert ApplyRestart(s, file, skipped, overCap).hotels == hotels;
  }

  lemma AdminChips(s: State, e: AdminEvent)
    requires OnePerChip(s) && GatesOk(s) && AdminEnabled(s, e)
    requires forall h :: Reopens(e, h) && h in s.hotels ==> !WouldShare(s, h)
    ensures OnePerChip(AdminEffect(s, e))
  {
    var t := AdminEffect(s, e);
    match e
    case PatchCommit(saved) => CommitChips(s, saved);
    case JoinAdd(c, adm) => OutChips(s, c.id, t.hotels[c.id], t);
    case JoinRefuse(h) => OutChips(s, h, t.hotels[h], t);
    case JoinCheck(h) => OutChips(s, h, t.hotels[h], t);
    case JoinSave(h, saved) => if saved { ReopenKeepsIff(s, e, h); } else { OutChips(s, h, t.hotels[h], t); }
    case LeaveMark(h) => OutChips(s, h, t.hotels[h], t);
    case LeaveDrop(h) => OutChips(s, h, t.hotels[h], t);
    case LeaveSave(h, saved) => if !saved { ReopenKeepsIff(s, e, h); } else { OutChips(s, h, t.hotels[h], t); }
    case Restart(file, skipped, overCap) => RestartChips(s, file, skipped, overCap);
  }

  /** e puts no hotel in place whose chip was taken meanwhile. */
  ghost predicate Careful(s: State, e: Event) {
    e.OfAdmin? ==> forall h :: Reopens(e.admin, h) && h in s.hotels ==> !WouldShare(s, h)
  }

  lemma StepChips(s: State, e: Event)
    requires OnePerChip(s) && GatesOk(s) && Enabled(s, e) && Careful(s, e)
    ensures OnePerChip(Next(s, e))
  {
    match e {
      case OfCreate(id, c) => CreateFramed(s, id, c); CreateChips(s, id, CreateEffect(s, id, c));
      case OfHotel(h, x) => if x.Attest? { AttestChips(s, h, x.result); } else { OtherHotelChips(s, h, x); }
      case OfDesk(d) => DeskChips(s, d);
      case OfAdmin(a) => AdminChips(s, a);
    }
    SameHotelsChips(Effect(s, e), Next(s, e));
  }

  // ------------------------------------------------------------ gates

  lemma CreateGates(s: State, id: nat, t: State)
    requires GatesOk(s) && CreateFrame(s, id, t)
    ensures GatesOk(t)
  {
    forall h | h in t.hotels
      ensures t.hotels[h].cfg == s.hotels[h].cfg
    {
      assert SameHotel(s.hotels[h], t.hotels[h]);
    }
  }

  lemma HotelGates(s: State, h: string, r: Hotel, t: State)
    requires GatesOk(s) && (r.cfg.requireAttestation ==> r.cfg.sealed) && Labelled(r.cfg)
    requires t.hotels == s.hotels[h := r]
    requires t.disk.hotels == s.disk.hotels || t.disk.hotels == RuntimeHotels(t.hotels)
    ensures GatesOk(t)
  {
  }

  lemma HotelEffectGates(s: State, h: string, e: HotelEvent)
    requires GatesOk(s) && h in s.hotels && HotelEnabled(s, h, e)
    ensures GatesOk(WithHotel(s, h, HotelEffect(s, h, e)))
  {
    var r := HotelEffect(s, h, e);
    HotelConfigs(s, h, e);
    HotelGates(s, h, r, WithHotel(s, h, r));
  }

  lemma CommitGates(s: State, saved: bool)
    requires GatesOk(s) && CanCommit(s)
    ensures GatesOk(ApplyPatchCommit(s, saved))
  {
    var p, t := s.patch.value, ApplyPatchCommit(s, saved);
    if t != s.(patch := None) {
      HotelGates(s, p.id, PatchedHotel(p, s.hotels[p.id]), t);
    }
  }

  lemma RestartGates(s: State, file: map<string, HotelConfig>, skipped: set<string>, overCap: set<string>)
    requires GatesOk(s) && ValidFile(s, file)
    ensures GatesOk(ApplyRestart(s, file, skipped, overCap))
  {
    var hotels := LoadHotels(file, s.disk, skipped, overCap);
    assert ApplyRestart(s, file, skipped, overCap).hotels == hotels;
    forall h | h in hotels
      ensures (hotels[h].cfg.requireAttestation ==> hotels[h].cfg.sealed) && Labelled(hotels[h].cfg)
    {
      if h in file {
        assert hotels[h] == NewHotel(WithLend(file[h], s.disk.lends), false, InPlace, true);
      }
    }
  }

  lemma StageGates(s: State, h: string, stage: Stage, moving: Option<string>)
    requires GatesOk(s) && h in s.hotels
    ensures GatesOk(WithHotel(s, h, s.hotels[h].(stage := stage)).(moving := moving))
  {
    var r := s.hotels[h].(stage := stage);
    HotelGates(s, h, r, WithHotel(s, h, r).(moving := moving));
  }

  lemma EndMoveGates(s: State, h: string, stage: Stage, saved: bool)
    requires GatesOk(s) && h in s.hotels
    ensures GatesOk(EndMove(s, h, stage, saved))
  {
    HotelGates(s, h, s.hotels[h].(stage := stage), EndMove(s, h, stage, saved));
  }

  lemma AdminGates(s: State, e: AdminEvent)
    requires GatesOk(s) && AdminEnabled(s, e)
    ensures GatesOk(AdminEffect(s, e))
  {
    var t := AdminEffect(s, e);
    match e
    case PatchCommit(saved) => CommitGates(s, saved);
    case JoinAdd(c, adm) => HotelGates(s, c.id, t.hotels[c.id], t);
    case JoinRefuse(h) => HotelGates(s, h, t.hotels[h], t);
    case JoinCheck(h) => StageGates(s, h, Checked, s.moving);
    case JoinSave(h, saved) => EndMoveGates(s, h, if saved then InPlace else Gone, saved);
    case LeaveMark(h) => StageGates(s, h, Leaving, Some(h));
    case LeaveDrop(h) => StageGates(s, h, Dropped, s.moving);
    case LeaveSave(h, saved) => EndMoveGates(s, h, if saved then Gone else InPlace, saved);
    case Restart(file, skipped, overCap) => RestartGates(s, file, skipped, overCap);
  }

  lemma DeskGates(s: State, e: DeskEvent)
    requires GatesOk(s) && DeskEnabled(s, e)
    ensures GatesOk(DeskEffect(s, e))
  {
  }

  lemma StepGates(s: State, e: Event)
    requires GatesOk(s) && Enabled(s, e)
    ensures GatesOk(Next(s, e))
  {
    match e
    case OfCreate(id, c) => CreateFramed(s, id, c); CreateGates(s, id, CreateEffect(s, id, c));
    case OfHotel(h, x) => HotelEffectGates(s, h, x);
    case OfDesk(d) => DeskGates(s, d);
    case OfAdmin(a) => AdminGates(s, a);
  }

  lemma InitOnePerChip(s: State)
    requires Init(s)
    ensures OnePerChip(s) && GatesOk(s)
  {
    var file, skipped, overCap :| ValidFile(s, file) && s.hotels == LoadHotels(file, s.disk, skipped, overCap)
                                  && s.otherLends == OtherLends(file, s.disk);
    var empty := s.(hotels := map[]);
    RestartGates(empty, file, skipped, overCap);
    assert ApplyRestart(empty, file, skipped, overCap).hotels == s.hotels;
  }
}
