/**
 The lend invariant over whole runs, and what follows from it.
 */
module BookingLendRuns {
  import opened Options
  import opened Hotels
  import opened Lend
  import opened Booking
  import opened BookingFrames
  import opened BookingCounts
  import opened BookingLend

  ghost predicate LendInv(s: State) {
    Balanced(s) && Seats(s) && FieldsOk(s) && PatchOk(s) && OwnRequests(s) && AllOwnRooms(s)
  }

  // ------------------------------------------------------------ create and hotel events

  lemma CreateFields(s: State, id: nat, t: State)
    requires FieldsOk(s) && PatchOk(s) && CreateFrame(s, id, t)
    ensures FieldsOk(t) && PatchOk(t)
  {
    forall h | h in t.hotels
      ensures t.hotels[h].cfg == s.hotels[h].cfg
    {
      assert SameHotel(s.hotels[h], t.hotels[h]);
    }
  }

  lemma CreateInv(s: State, id: nat, e: CreateEvent)
    requires LendInv(s) && CreateEnabled(s, id, e)
    ensures LendInv(CreateEffect(s, id, e))
  {
    CreateBalanced(s, id, e);
    CreateSeats(s, id, e);
    CreateRequests(s, id, e);
    CreateRooms(s, id, e);
    CreateFramed(s, id, e);
    CreateFields(s, id, CreateEffect(s, id, e));
  }

  lemma HotelInv(s: State, h: string, e: HotelEvent)
    requires LendInv(s) && h in s.hotels && HotelEnabled(s, h, e)
    ensures LendInv(WithHotel(s, h, HotelEffect(s, h, e)))
  {
    HotelBalanced(s, h, HotelEffect(s, h, e));
    HotelSeats(s, h, e);
    HotelFields(s, h, e);
    HotelRooms(s, h, e);
  }

  // ------------------------------------------------------------ desk events

  /** Both files, written from good books, are good. */
  lemma SavedFiles(hotels: map<string, Hotel>, other: map<string, LendEntry>)
    requires HotelsOk(hotels) && EntriesOk(other)
    ensures ConfigsOk(RuntimeHotels(hotels)) && EntriesOk(ConfigLends(hotels, other))
  {
  }

  lemma BegunPatch(s: State, h: string, r: PatchRequest)
    requires PatchOk(s) && FieldsOk(s) && CanBeginPatch(s, h, r)
    ensures PatchOk(ApplyPatchBegin(s, h, r))
  {
  }

  lemma FetchedPatch(s: State, f: Fetched)
    requires PatchOk(s) && CanFetch(s, f)
    ensures PatchOk(ApplyPatchFetched(s, f))
  {
  }

  lemma DeskFields(s: State, e: DeskEvent)
    requires FieldsOk(s) && PatchOk(s) && DeskEnabled(s, e)
    ensures FieldsOk(DeskEffect(s, e)) && PatchOk(DeskEffect(s, e))
  {
    match e
    case Tick(_) =>
    case LabelDelete(_, _) =>
    case SaveLend(h, saved) => SavedFiles(s.hotels, s.otherLends);
    case PatchBegin(h, r) => BegunPatch(s, h, r);
    case PatchFetched(f) => FetchedPatch(s, f);
  }

  /** The parts of the invariant that read hotels, creates and lentClean only. */
  lemma SameCore(s: State, t: State)
    requires Balanced(s) && Seats(s) && OwnRequests(s) && AllOwnRooms(s)
    requires t.hotels == s.hotels && t.guests == s.guests && t.creates == s.creates && t.lentClean == s.lentClean
    ensures Balanced(t) && Seats(t) && OwnRequests(t) && AllOwnRooms(t)
  {
    SameBooksBalanced(s, t);
  }

  lemma DeskInv(s: State, e: DeskEvent)
    requires LendInv(s) && DeskEnabled(s, e)
    ensures LendInv(DeskEffect(s, e))
  {
    DeskFields(s, e);
    SameCore(s, DeskEffect(s, e));
  }

  // ------------------------------------------------------------ admin events

  lemma CommitFields(s: State, saved: bool)
    requires FieldsOk(s) && PatchOk(s) && CanCommit(s) && PatchAnswer(s, saved).None?
    ensures FieldsOk(ApplyPatchCommit(s, saved))
  {
    var p := s.patch.value;
    var r := PatchedHotel(p, s.hotels[p.id]);
    var t := ApplyPatchCommit(s, saved);
    PatchedFields(s.hotels[p.id], p);
    assert t.hotels == s.hotels[p.id := r];
    SavedFiles(t.hotels, s.otherLends);
  }

  lemma AcceptedInv(s: State, saved: bool)
    requires LendInv(s) && CanCommit(s) && PatchAnswer(s, saved).None?
    ensures LendInv(ApplyPatchCommit(s, saved))
  {
    var p := s.patch.value;
    var r := PatchedHotel(p, s.hotels[p.id]);
    var t := ApplyPatchCommit(s, saved);
    CommitFields(s, saved);
    assert t.patch.None?;
    PatchedSeats(s, p, t.lentClean);
    HotelBalanced(s, p.id, r);
    PatchedOwnRooms(s, p);
    RoomsHotel(s, p.id, r);
    var m := WithHotel(s, p.id, r).(lentClean := t.lentClean);
    SameBooksBalanced(WithHotel(s, p.id, r), m);
    assert t.hotels == m.hotels && t.creates == m.creates && t.guests == m.guests;
    SameCore(m, t);
  }

  lemma CommitInv(s: State, saved: bool)
    requires LendInv(s) && CanCommit(s)
    ensures LendInv(ApplyPatchCommit(s, saved))
  {
    if PatchAnswer(s, saved).None? {
      AcceptedInv(s, saved);
    } else {
      SameCore(s, ApplyPatchCommit(s, saved));
    }
  }

  lemma JoinInv(s: State, c: HotelConfig, adm: Admission)
    requires LendInv(s) && CanJoin(s, c)
    ensures LendInv(ApplyJoinAdd(s, c, adm))
  {
    JoinBalanced(s, c, adm);
    NoneAbsent(s, c.id);
    var t := ApplyJoinAdd(s, c, adm);
    forall x, i | x in t.hotels && i in t.creates && Bound(t.creates[i], x)
      ensures MaySit(t.hotels[x].cfg, x in t.lentClean, t.creates[i].guest)
    {
      assert x != c.id;
      assert MaySit(s.hotels[x].cfg, x in s.lentClean, s.creates[i].guest);
    }
  }

  /** A step that changes only stages, attestations and the hotel file. */
  lemma StageInv(s: State, h: string, r: Hotel, t: State)
    requires LendInv(s) && h in s.hotels
    requires r.cfg == s.hotels[h].cfg && r.rooms == s.hotels[h].rooms && r.roomsUnchecked == s.hotels[h].roomsUnchecked
    requires SameBooks(s.hotels[h], r)
    requires t.hotels == s.hotels[h := r] && t.guests == s.guests && t.creates == s.creates && t.lentClean == s.lentClean
    requires t.patch == s.patch && t.otherLends == s.otherLends
    requires t.disk == s.disk || t.disk == s.disk.(hotels := RuntimeHotels(t.hotels))
    ensures LendInv(t)
  {
    StageBalanced(s, h, r, t);
    SeatsHotel(s, h, r);
    assert OwnRooms(s.hotels[h]);
    RoomsHotel(s, h, r);
    SameCore(WithHotel(s, h, r), t);
    StageFields(s, h, r, t);
  }

  lemma StageFields(s: State, h: string, r: Hotel, t: State)
    requires FieldsOk(s) && h in s.hotels && r.cfg == s.hotels[h].cfg
    requires t.hotels == s.hotels[h := r] && t.lentClean == s.lentClean && t.otherLends == s.otherLends
    requires t.disk == s.disk || t.disk == s.disk.(hotels := RuntimeHotels(t.hotels))
    ensures FieldsOk(t)
  {
    FieldsHotel(s, h, r);
    SavedFiles(t.hotels, s.otherLends);
  }

  lemma EndMoveInv(s: State, h: string, stage: Stage, saved: bool)
    requires LendInv(s) && h in s.hotels
    ensures LendInv(EndMove(s, h, stage, saved))
  {
    StageInv(s, h, s.hotels[h].(stage := stage), EndMove(s, h, stage, saved));
  }

  lemma MarkInv(s: State, h: string, stage: Stage, moving: Option<string>)
    requires LendInv(s) && h in s.hotels
    ensures LendInv(WithHotel(s, h, s.hotels[h].(stage := stage)).(moving := moving))
  {
    var r := s.hotels[h].(stage := stage);
    StageInv(s, h, r, WithHotel(s, h, r).(moving := moving));
  }

  lemma RefuseInv(s: State, h: string)
    requires LendInv(s) && h in s.hotels
    ensures LendInv(ApplyJoinRefuse(s, h))
  {
    StageInv(s, h, ApplyJoinRefuse(s, h).hotels[h], ApplyJoinRefuse(s, h));
  }

  lemma LoadedHotels(s: State, file: map<string, HotelConfig>, skipped: set<string>, overCap: set<string>)
    requires ConfigsOk(s.disk.hotels) && EntriesOk(s.disk.lends) && ValidFile(s, file)
    ensures HotelsOk(LoadHotels(file, s.disk, skipped, overCap))
  {
    var hotels := LoadHotels(file, s.disk, skipped, overCap);
    forall h | h in hotels
      ensures hotels[h].cfg.id == h && LendFieldsOk(hotels[h].cfg) && Labelled(hotels[h].cfg)
    {
      if h in file {
        assert hotels[h] == NewHotel(WithLend(file[h], s.disk.lends), false, InPlace, true);
      }
    }
  }

  lemma LoadedFields(s: State, file: map<string, HotelConfig>, skipped: set<string>, overCap: set<string>)
    requires FieldsOk(s) && ValidFile(s, file)
    ensures FieldsOk(ApplyRestart(s, file, skipped, overCap))
  {
    var hotels := LoadHotels(file, s.disk, skipped, overCap);
    LoadedHotels(s, file, skipped, overCap);
    assert ApplyRestart(s, file, skipped, overCap).hotels == hotels;
  }

  lemma RestartInv(s: State, file: map<string, HotelConfig>, skipped: set<string>, overCap: set<string>)
    requires FieldsOk(s) && ValidFile(s, file)
    ensures LendInv(ApplyRestart(s, file, skipped, overCap))
  {
    RestartBalanced(s, file, skipped, overCap);
    LoadedFields(s, file, skipped, overCap);
  }

  lemma AdminInv(s: State, e: AdminEvent)
    requires LendInv(s) && AdminEnabled(s, e)
    ensures LendInv(AdminEffect(s, e))
  {
    match e
    case PatchCommit(saved) => CommitInv(s, saved);
    case JoinAdd(c, adm) => JoinInv(s, c, adm);
    case JoinRefuse(h) => RefuseInv(s, h);
    case JoinSave(h, saved) => EndMoveInv(s, h, if saved then InPlace else Gone, saved);
    case JoinCheck(h) => MarkInv(s, h, Checked, s.moving);
    case LeaveMark(h) => MarkInv(s, h, Leaving, Some(h));
    case LeaveDrop(h) => MarkInv(s, h, Dropped, s.moving);
    case LeaveSave(h, saved) => EndMoveInv(s, h, if saved then Gone else InPlace, saved);
    case Restart(file, skipped, overCap) => RestartInv(s, file, skipped, overCap);
  }

  // ------------------------------------------------------------ runs

  lemma EffectInv(s: State, e: Event)
    requires LendInv(s) && Enabled(s, e)
    ensures LendInv(Effect(s, e))
  {
    match e
    case OfCreate(id, c) => CreateInv(s, id, c);
    case OfHotel(h, x) => HotelInv(s, h, x);
    case OfDesk(d) => DeskInv(s, d);
    case OfAdmin(a) => AdminInv(s, a);
  }

  lemma AnyStepNumber(s: State, n: nat)
    requires LendInv(s)
    ensures LendInv(s.(steps := n))
  {
    SameCore(s, s.(steps := n));
  }

  lemma StepInv(s: State, e: Event)
    requires LendInv(s) && Enabled(s, e)
    ensures LendInv(Next(s, e))
  {
    var t := Effect(s, e);
    EffectInv(s, e);
    AnyStepNumber(t, s.steps + 1);
    assert Next(s, e) == t.(steps := s.steps + 1);
  }

  lemma {:induction false} RunInv(s: State, es: seq<Event>, t: State)
    requires LendInv(s) && Run(s, es, t)
    ensures LendInv(t)
    decreases |es|
  {
    if es != [] {
      StepInv(s, es[0]);
      RunInv(Next(s, es[0]), es[1..], t);
    }
  }

  lemma SameStart(r: State, s: State)
    requires LendInv(r) && s.patch.None? && s.hotels == r.hotels && s.guests == r.guests && s.creates == r.creates
    requires s.lentClean == r.lentClean && s.otherLends == r.otherLends && s.disk == r.disk
    ensures LendInv(s)
  {
    SameCore(r, s);
  }

  lemma InitInv(s: State)
    requires Init(s)
    ensures LendInv(s)
  {
    var file, skipped, overCap :| ValidFile(s, file) && s.hotels == LoadHotels(file, s.disk, skipped, overCap)
                                  && s.otherLends == OtherLends(file, s.disk);
    StartedInv(s, file, skipped, overCap);
  }

  lemma StartedInv(s: State, file: map<string, HotelConfig>, skipped: set<string>, overCap: set<string>)
    requires ValidFile(s, file) && s.hotels == LoadHotels(file, s.disk, skipped, overCap) && s.otherLends == OtherLends(file, s.disk)
    requires s.creates == map[] && s.patch.None? && s.lentClean == (set id | id in s.hotels && s.hotels[id].cfg.lentFrom != "")
    requires forall g :: g in s.guests ==> s.guests[g] == Guest(0, 0)
    requires ConfigsOk(s.disk.hotels) && EntriesOk(s.disk.lends)
    ensures LendInv(s)
  {
    var e := s.(otherLends := map[], lentClean := {}, hotels := map[]);
    RestartInv(e, file, skipped, overCap);
    var r := ApplyRestart(e, file, skipped, overCap);
    assert s.guests == r.guests;
    SameStart(r, s);
  }

  lemma ReachableInv(t: State)
    requires Reachable(t)
    ensures LendInv(t)
  {
    var s, es :| Init(s) && Run(s, es, t);
    InitInv(s);
    RunInv(s, es, t);
  }

  // ------------------------------------------------------------ what it gives

  /** A sealed hotel reserved for a guest is that guest's alone: every create
      queued on it or being called there is theirs, and so is every room in its
      books that was listed since the start, but for rooms being reaped. */
  lemma SealedIsAlone(t: State, h: string)
    requires Reachable(t) && h in t.hotels && t.hotels[h].cfg.sealed && t.hotels[h].cfg.reservedFor != ""
    ensures forall id :: id in t.creates && Bound(t.creates[id], h) ==> t.creates[id].guest == t.hotels[h].cfg.reservedFor
    ensures t.hotels[h].roomsUnchecked
         || forall hid :: hid in t.hotels[h].rooms ==>
              t.hotels[h].rooms[hid].guest == t.hotels[h].cfg.reservedFor || t.hotels[h].rooms[hid].reaped
    ensures t.hotels[h].cfg.lentFrom == "" && t.hotels[h].cfg.lentReportId == ""
  {
    ReachableInv(t);
    assert OwnRooms(t.hotels[h]);
    forall id | id in t.creates && Bound(t.creates[id], h)
      ensures t.creates[id].guest == t.hotels[h].cfg.reservedFor
    {
      assert MaySit(t.hotels[h].cfg, h in t.lentClean, t.creates[id].guest);
    }
  }

  /** A commit that gives h back from the pool. */
  predicate Reclaims(s: State, e: Event, h: string) {
    && e.OfAdmin? && e.admin.PatchCommit? && CanCommit(s)
    && s.patch.value.id == h && s.patch.value.change.reclaim && PatchAnswer(s, e.admin.saved).None?
  }

  /** A hotel joins under the id of h, which has left. */
  predicate Rejoins(e: Event, h: string) {
    e.OfAdmin? && e.admin.JoinAdd? && e.admin.config.id == h
  }

  predicate Restarts(e: Event) {
    e.OfAdmin? && e.admin.Restart?
  }

  lemma CommitKeepsLent(s: State, saved: bool, h: string)
    requires FieldsOk(s) && PatchOk(s) && CanCommit(s) && h in s.hotels && s.hotels[h].cfg.lentFrom != ""
    requires !(s.patch.value.id == h && s.patch.value.change.reclaim && PatchAnswer(s, saved).None?)
    ensures h in ApplyPatchCommit(s, saved).hotels
    ensures ApplyPatchCommit(s, saved).hotels[h].cfg.lentFrom == s.hotels[h].cfg.lentFrom
    ensures h in s.lentClean ==> h in ApplyPatchCommit(s, saved).lentClean
  {
    if PatchAnswer(s, saved).None? {
      var p := s.patch.value;
      PatchedFields(s.hotels[p.id], p);
      assert ApplyPatchCommit(s, saved).hotels == s.hotels[p.id := PatchedHotel(p, s.hotels[p.id])];
    }
  }

  lemma MoveKeepsConfig(s: State, e: AdminEvent, h: string)
    requires AdminEnabled(s, e) && h in s.hotels && !e.Restart? && !e.PatchCommit? && !Rejoins(OfAdmin(e), h)
    ensures h in AdminEffect(s, e).hotels && AdminEffect(s, e).hotels[h].cfg == s.hotels[h].cfg
    ensures h in s.lentClean ==> h in AdminEffect(s, e).lentClean
  {
    match e
    case JoinAdd(c, adm) => JoinKeepsConfig(s, c, adm, h);
    case JoinRefuse(x) => assert ApplyJoinRefuse(s, x).hotels[h].cfg == s.hotels[h].cfg;
    case JoinSave(x, saved) => EndMoveKeepsConfig(s, x, if saved then InPlace else Gone, saved, h);
    case JoinCheck(x) =>
    case LeaveMark(x) =>
    case LeaveDrop(x) =>
    case LeaveSave(x, saved) => EndMoveKeepsConfig(s, x, if saved then Gone else InPlace, saved, h);
  }

  lemma JoinKeepsConfig(s: State, c: HotelConfig, adm: Admission, h: string)
    requires c.id != h && h in s.hotels
    ensures h in ApplyJoinAdd(s, c, adm).hotels && ApplyJoinAdd(s, c, adm).hotels[h] == s.hotels[h]
    ensures h in s.lentClean ==> h in ApplyJoinAdd(s, c, adm).lentClean
  {
  }

  lemma EndMoveKeepsConfig(s: State, x: string, stage: Stage, saved: bool, h: string)
    requires x in s.hotels && h in s.hotels
    ensures h in EndMove(s, x, stage, saved).hotels && EndMove(s, x, stage, saved).hotels[h].cfg == s.hotels[h].cfg
    ensures EndMove(s, x, stage, saved).lentClean == s.lentClean
  {
  }

  lemma AdminKeepsLent(s: State, e: AdminEvent, h: string)
    requires FieldsOk(s) && PatchOk(s) && AdminEnabled(s, e) && h in s.hotels && s.hotels[h].cfg.lentFrom != ""
    requires !e.Restart? && !Reclaims(s, OfAdmin(e), h) && !Rejoins(OfAdmin(e), h)
    ensures h in AdminEffect(s, e).hotels && AdminEffect(s, e).hotels[h].cfg.lentFrom == s.hotels[h].cfg.lentFrom
    ensures h in s.lentClean ==> h in AdminEffect(s, e).lentClean
  {
    if e.PatchCommit? {
      CommitKeepsLent(s, e.saved, h);
    } else {
      MoveKeepsConfig(s, e, h);
    }
  }

  lemma LentKept(s: State, e: Event, h: string)
    requires LendInv(s) && Enabled(s, e) && h in s.hotels && s.hotels[h].cfg.lentFrom != ""
    requires !Restarts(e) && !Reclaims(s, e, h) && !Rejoins(e, h)
    ensures h in Next(s, e).hotels && Next(s, e).hotels[h].cfg.lentFrom == s.hotels[h].cfg.lentFrom
    ensures h in s.lentClean ==> h in Next(s, e).lentClean
  {
    match e
    case OfCreate(id, c) =>
      CreateFramed(s, id, c);
      assert SameHotel(s.hotels[h], CreateEffect(s, id, c).hotels[h]);
    case OfHotel(x, v) => HotelConfigs(s, x, v);
    case OfDesk(d) =>
    case OfAdmin(a) => AdminKeepsLent(s, a, h);
  }

  lemma ReclaimEmpty(s: State, p: Patch, h: Hotel)
    requires Balanced(s) && FieldsOk(s) && PatchOk(s) && s.patch == Some(p) && p.id in s.hotels && h == s.hotels[p.id]
    requires p.change.reclaim && !p.fetching && PatchErr(p.change, p.request, h).None?
    ensures h.cfg.lentFrom != "" && h.cfg.lentReportId != LENT_REPORT_UNKNOWN
    ensures IsReportId(p.change.reportId) && p.change.reportId != h.cfg.lentReportId
    ensures h.rooms == map[] && forall id :: id in s.creates ==> !Bound(s.creates[id], p.id)
  {
    AcceptedFindsNone(s, p, h);
  }

  lemma ReclaimedFields(p: Patch, h: Hotel)
    requires p.change.reclaim && !p.change.lend
    ensures var c := PatchedHotel(p, h).cfg; c.reservedFor == p.change.owner && c.lentFrom == "" && c.lentReportId == ""
  {
  }

  /** A reclaim finds the books empty and a launch other than the recorded one. */
  lemma ReclaimAfterReseal(s: State, e: Event, h: string)
    requires LendInv(s) && Reclaims(s, e, h)
    ensures s.hotels[h].cfg.lentFrom != "" && s.hotels[h].cfg.lentReportId != LENT_REPORT_UNKNOWN
    ensures IsReportId(s.patch.value.change.reportId) && s.patch.value.change.reportId != s.hotels[h].cfg.lentReportId
    ensures s.hotels[h].rooms == map[] && forall id :: id in s.creates ==> !Bound(s.creates[id], h)
    ensures Next(s, e).hotels[h].cfg.reservedFor == s.patch.value.change.owner != ""
    ensures Next(s, e).hotels[h].cfg.lentFrom == "" && Next(s, e).hotels[h].cfg.lentReportId == ""
  {
    ReclaimEmpty(s, s.patch.value, s.hotels[h]);
    ReclaimedFields(s.patch.value, s.hotels[h]);
    assert Next(s, e).hotels[h] == PatchedHotel(s.patch.value, s.hotels[h]);
  }

  /** Within a run of the broker the lent state of an id ends if and only if the
      hotel is reclaimed, or it has left and a hotel of that id joins. */
  lemma LentEndsIff(s: State, e: Event, h: string)
    requires LendInv(s) && Enabled(s, e) && h in s.hotels && s.hotels[h].cfg.lentFrom != "" && !Restarts(e)
    ensures h in Next(s, e).hotels
    ensures Next(s, e).hotels[h].cfg.lentFrom == "" <==> Reclaims(s, e, h) || Rejoins(e, h)
    ensures Next(s, e).hotels[h].cfg.lentFrom != "" ==> Next(s, e).hotels[h].cfg.lentFrom == s.hotels[h].cfg.lentFrom
    ensures Rejoins(e, h) ==> s.hotels[h].stage.Gone?
  {
    if Reclaims(s, e, h) {
      ReclaimAfterReseal(s, e, h);
    } else if !Rejoins(e, h) {
      LentKept(s, e, h);
    }
  }

  /** No event of the run restarts the broker, reclaims h or joins under its id. */
  ghost predicate StaysLent(s: State, es: seq<Event>, h: string)
    decreases |es|
  {
    es == [] || (Enabled(s, es[0]) && !Restarts(es[0]) && !Reclaims(s, es[0], h) && !Rejoins(es[0], h)
                 && StaysLent(Next(s, es[0]), es[1..], h))
  }

  /** From an accepted lend on, no create of the owner is queued on the hotel
      or being called there, however the run goes, until it is reclaimed or
      another hotel joins under its id. */
  lemma {:induction false} LentOwnerStaysOut(s: State, es: seq<Event>, t: State, h: string)
    requires LendInv(s) && h in s.lentClean && Run(s, es, t) && StaysLent(s, es, h)
    ensures h in t.hotels && h in s.hotels && t.hotels[h].cfg.lentFrom == s.hotels[h].cfg.lentFrom
    ensures forall id :: id in t.creates && Bound(t.creates[id], h) ==> t.creates[id].guest != s.hotels[h].cfg.lentFrom
    decreases |es|
  {
    if es == [] {
      forall id | id in t.creates && Bound(t.creates[id], h)
        ensures t.creates[id].guest != s.hotels[h].cfg.lentFrom
      {
        assert MaySit(t.hotels[h].cfg, h in t.lentClean, t.creates[id].guest);
      }
    } else {
      StepInv(s, es[0]);
      LentKept(s, es[0], h);
      LentOwnerStaysOut(Next(s, es[0]), es[1..], t, h);
    }
  }

  /** An accepted lend starts with no create and no room of the owner there. */
  lemma LendStartsClean(s: State, saved: bool)
    requires LendInv(s) && CanCommit(s) && s.patch.value.change.lend && PatchAnswer(s, saved).None?
    ensures var h, owner := s.patch.value.id, s.patch.value.change.owner;
      && h in ApplyPatchCommit(s, saved).lentClean
      && s.hotels[h].cfg.reservedFor == owner && ApplyPatchCommit(s, saved).hotels[h].cfg.lentFrom == owner
      && RoomsOf(s.hotels[h], owner) == {}
      && forall id :: id in s.creates ==> !Bound(s.creates[id], h)
  {
    AcceptedFindsNone(s, s.patch.value, s.hotels[s.patch.value.id]);
    NoneBound(s, s.patch.value.id);
  }
}
