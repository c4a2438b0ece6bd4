/**
 The lend state on disk: what a save writes is what a start reads, and no
 other event of a run takes the two apart.
 */
module BookingDurable {
  import opened Options
  import opened Hotels
  import opened Lend
  import opened Booking
  import opened BookingFrames
  import opened BookingLend
  import opened BookingLendRuns

  /** The files hold the lend state of h as it is in memory: hotels.json for a
      joined hotel, hotel-lends.json for a hotel of the config file. */
  predicate Kept(h: string, r: Hotel, d: Disk) {
    if r.runtime then
      && h in d.hotels && d.hotels[h].reservedFor == r.cfg.reservedFor
      && d.hotels[h].lentFrom == r.cfg.lentFrom && d.hotels[h].lentReportId == r.cfg.lentReportId
    else if r.cfg.lentFrom != "" then
      h in d.lends && d.lends[h] == LendEntry(r.cfg.lentFrom, r.cfg.lentReportId)
    else
      h !in d.lends
  }

  predicate Durable(s: State, h: string) {
    h in s.hotels && !s.hotels[h].stage.Gone? && !s.hotels[h].stage.Joining? && !s.hotels[h].stage.Checked? && Kept(h, s.hotels[h], s.disk)
  }

  /** Hotels join and leave one at a time, under the mutation lock, and none
      while a PATCH is under way; config hotels do neither, and the kept entries
      are of other hotels. */
  predicate Placed(s: State) {
    && (s.moving.Some? ==> s.patch.None?)
    && (s.patch.Some? && s.patch.value.id in s.hotels ==> s.hotels[s.patch.value.id].stage.InPlace?)
    && (forall h :: h in s.hotels ==> s.hotels[h].stage.InPlace? || s.hotels[h].stage.Gone? || s.moving == Some(h))
    && (forall h :: h in s.hotels && !s.hotels[h].runtime ==> s.hotels[h].stage.InPlace? && h !in s.otherLends)
  }

  // ------------------------------------------------------------ saves

  /** Each file, once written, holds every hotel of its kind. */
  lemma SnapshotKeeps(hotels: map<string, Hotel>, other: map<string, LendEntry>, d: Disk, h: string)
    requires h in hotels
    ensures hotels[h].runtime && InSet(hotels[h]) ==> Kept(h, hotels[h], d.(hotels := RuntimeHotels(hotels)))
    ensures !hotels[h].runtime && h !in other ==> Kept(h, hotels[h], d.(lends := ConfigLends(hotels, other)))
  {
  }

  /** A save that works makes the hotel durable. */
  lemma SaveMakesDurable(s: State, h: string)
    requires Placed(s) && MutationFree(s) && h in s.hotels && s.hotels[h].stage.InPlace?
    requires SaveWorks(s, s.hotels[h], true)
    ensures Durable(ApplySaveLend(s, h, true), h)
  {
    SnapshotKeeps(s.hotels, s.otherLends, s.disk, h);
  }

  /** A save for any hotel keeps the others durable. */
  lemma SaveKeepsDurable(s: State, hotels: map<string, Hotel>, x: string, h: string)
    requires x in hotels && h in hotels && Kept(h, hotels[h], s.disk)
    requires hotels[h].runtime ==> InSet(hotels[h])
    requires !hotels[h].runtime ==> h !in s.otherLends
    ensures Kept(h, hotels[h], SaveLendState(hotels, s.otherLends, x, s.disk))
    ensures Kept(h, hotels[h], s.disk.(hotels := RuntimeHotels(hotels)))
  {
    SnapshotKeeps(hotels, s.otherLends, s.disk, h);
  }

  // ------------------------------------------------------------ start

  /** What a start reads for a durable hotel: a joined hotel has all its
      fields back; a config hotel its lend, which wins over the config file. */
  lemma DurableLoads(s: State, h: string, file: map<string, HotelConfig>, skipped: set<string>, overCap: set<string>)
    requires Durable(s, h) && FieldsOk(s) && ValidFile(s, file)
    requires if s.hotels[h].runtime then h !in file && h !in skipped else h in file
    ensures var t := ApplyRestart(s, file, skipped, overCap);
      && Durable(t, h) && t.hotels[h].runtime == s.hotels[h].runtime
      && t.hotels[h].cfg.lentFrom == s.hotels[h].cfg.lentFrom
      && t.hotels[h].cfg.lentReportId == s.hotels[h].cfg.lentReportId
      && t.hotels[h].cfg.reservedFor == (if s.hotels[h].runtime then s.hotels[h].cfg.reservedFor
                                         else if s.hotels[h].cfg.lentFrom != "" then "" else file[h].reservedFor)
      && AwaitsRoomCheck(t.hotels[h]) == (t.hotels[h].cfg.reservedFor != "")
  {
  }

  // ------------------------------------------------------------ every event

  /** h leaves, or a start finds it neither in the config file (for a config
      hotel) nor readable in hotels.json (for a joined one). */
  predicate Drops(s: State, e: Event, h: string)
    requires h in s.hotels
  {
    && e.OfAdmin?
    && (|| e.admin == LeaveSave(h, true)
        || (e.admin.Restart? && if s.hotels[h].runtime then h in e.admin.file || h in e.admin.skipped else h !in e.admin.file))
  }

  lemma AcceptedKeepsDurable(s: State, p: Patch, r: Hotel, t: State, h: string)
    requires Placed(s) && s.moving.None? && Durable(s, h) && p.id in s.hotels
    requires r.runtime == s.hotels[p.id].runtime && r.stage == s.hotels[p.id].stage
    requires p.change.lend || p.change.reclaim
             || (r.cfg.lentFrom == s.hotels[p.id].cfg.lentFrom && r.cfg.lentReportId == s.hotels[p.id].cfg.lentReportId)
    requires t.hotels == s.hotels[p.id := r] && t.disk == PatchedDisk(s, p, t.hotels)
    ensures Durable(t, h)
  {
    SnapshotKeeps(t.hotels, s.otherLends, s.disk, h);
  }

  lemma CommitKeepsDurable(s: State, saved: bool, h: string)
    requires Placed(s) && CanCommit(s) && Durable(s, h)
    ensures Durable(ApplyPatchCommit(s, saved), h)
  {
    var p, t := s.patch.value, ApplyPatchCommit(s, saved);
    if PatchAnswer(s, saved).None? {
      AcceptedKeepsDurable(s, p, PatchedHotel(p, s.hotels[p.id]), t, h);
    } else {
      assert t == s.(patch := None);
    }
  }

  /** An accepted lend or reclaim is on disk before it is answered. */
  lemma CommitMakesDurable(s: State, saved: bool)
    requires Placed(s) && CanCommit(s) && PatchAnswer(s, saved).None?
    requires s.patch.value.change.lend || s.patch.value.change.reclaim
    ensures Durable(ApplyPatchCommit(s, saved), s.patch.value.id)
  {
    var p := s.patch.value;
    SnapshotKeeps(s.hotels[p.id := PatchedHotel(p, s.hotels[p.id])], s.otherLends, s.disk, p.id);
  }

  lemma EndMoveKeepsDurable(s: State, x: string, stage: Stage, saved: bool, h: string)
    requires Placed(s) && Durable(s, h) && x in s.hotels && s.moving == Some(x)
    requires s.hotels[x].runtime
    requires h != x || (stage.InPlace? && !saved) || (saved && stage.InPlace?)
    ensures Durable(EndMove(s, x, stage, saved), h)
  {
    var t := WithHotel(s, x, s.hotels[x].(stage := stage));
    if saved {
      SaveKeepsDurable(s, t.hotels, x, h);
    }
  }

  lemma HotelKeepsStage(s: State, h: string, e: HotelEvent)
    requires h in s.hotels && HotelEnabled(s, h, e)
    ensures HotelEffect(s, h, e).stage == s.hotels[h].stage
  {
  }

  lemma CreateKeepsDurable(s: State, id: nat, t: State, h: string)
    requires CreateFrame(s, id, t)
    ensures Placed(s) ==> Placed(t)
    ensures Durable(s, h) ==> Durable(t, h)
  {
    forall x | x in s.hotels
      ensures t.hotels[x].cfg == s.hotels[x].cfg && t.hotels[x].stage == s.hotels[x].stage && t.hotels[x].runtime == s.hotels[x].runtime
    {
      assert SameHotel(s.hotels[x], t.hotels[x]);
    }
  }

  lemma DeskKeepsDurable(s: State, e: DeskEvent, h: string)
    requires Placed(s) && DeskEnabled(s, e) && Durable(s, h)
    ensures Durable(DeskEffect(s, e), h)
  {
    if e.SaveLend? {
      SaveKeepsDurable(s, s.hotels, e.hotel, h);
    }
  }

  /** A step that leaves h and the files as they were, or only moves h. */
  lemma SameKeepsDurable(s: State, t: State, h: string)
    requires Durable(s, h) && h in t.hotels && t.disk == s.disk
    requires t.hotels[h] == s.hotels[h] || t.hotels[h] == s.hotels[h].(stage := Leaving)
             || t.hotels[h] == s.hotels[h].(stage := Dropped)
    ensures Durable(t, h)
  {
  }

  lemma AdminKeepsDurable(s: State, e: AdminEvent, h: string)
    requires Placed(s) && AdminEnabled(s, e) && Durable(s, h)
    requires !e.Restart? && e != LeaveSave(h, true)
    ensures Durable(AdminEffect(s, e), h)
  {
    match e
    case PatchCommit(saved) => CommitKeepsDurable(s, saved, h);
    case JoinSave(x, saved) => EndMoveKeepsDurable(s, x, if saved then InPlace else Gone, saved, h);
    case LeaveSave(x, saved) => EndMoveKeepsDurable(s, x, if saved then Gone else InPlace, saved, h);
    case JoinAdd(c, adm) => SameKeepsDurable(s, ApplyJoinAdd(s, c, adm), h);
    case JoinRefuse(x) => SameKeepsDurable(s, ApplyJoinRefuse(s, x), h);
    case JoinCheck(x) => SameKeepsDurable(s, AdminEffect(s, e), h);
    case LeaveMark(x) => SameKeepsDurable(s, AdminEffect(s, e), h);
    case LeaveDrop(x) => SameKeepsDurable(s, AdminEffect(s, e), h);
  }

  // ------------------------------------------------------------ the lock

  /** The hotel that joins or leaves changes its stage. */
  lemma MovePlaced(s: State, h: string, r: Hotel, t: State)
    requires Placed(s) && (h in s.hotels ==> s.hotels[h].runtime) && r.runtime && s.patch.None?
    requires s.moving == None || s.moving == Some(h)
    requires t.hotels == s.hotels[h := r] && t.patch == s.patch && t.otherLends == s.otherLends
    requires t.moving == Some(h) || (t.moving == None && (r.stage.InPlace? || r.stage.Gone?))
    ensures Placed(t)
  {
  }

  lemma MarkPlaced(s: State, h: string, stage: Stage)
    requires Placed(s) && h in s.hotels && s.hotels[h].runtime && s.patch.None? && (s.moving == None || s.moving == Some(h))
    ensures Placed(WithHotel(s, h, s.hotels[h].(stage := stage)).(moving := Some(h)))
  {
    var r := s.hotels[h].(stage := stage);
    MovePlaced(s, h, r, WithHotel(s, h, r).(moving := Some(h)));
  }

  lemma EndMovePlaced(s: State, h: string, stage: Stage, saved: bool)
    requires Placed(s) && h in s.hotels && s.hotels[h].runtime && s.patch.None? && s.moving == Some(h)
    requires stage.InPlace? || stage.Gone?
    ensures Placed(EndMove(s, h, stage, saved))
  {
    MovePlaced(s, h, s.hotels[h].(stage := stage), EndMove(s, h, stage, saved));
  }

  lemma AdminKeepsPlaced(s: State, e: AdminEvent)
    requires Placed(s) && AdminEnabled(s, e)
    ensures Placed(AdminEffect(s, e))
  {
    var t := AdminEffect(s, e);
    match e
    case PatchCommit(saved) => CommitKeepsPlaced(s, saved);
    case JoinAdd(c, adm) => MovePlaced(s, c.id, t.hotels[c.id], t);
    case JoinRefuse(h) => MovePlaced(s, h, t.hotels[h], t);
    case JoinCheck(h) => MarkPlaced(s, h, Checked);
    case JoinSave(h, saved) => EndMovePlaced(s, h, if saved then InPlace else Gone, saved);
    case LeaveMark(h) => MarkPlaced(s, h, Leaving);
    case LeaveDrop(h) => MarkPlaced(s, h, Dropped);
    case LeaveSave(h, saved) => EndMovePlaced(s, h, if saved then Gone else InPlace, saved);
    case Restart(file, skipped, overCap) => RestartPlaced(s, file, skipped, overCap);
  }

  lemma ConfigPlaced(s: State, h: string, r: Hotel, t: State)
    requires Placed(s) && h in s.hotels && r.runtime == s.hotels[h].runtime && r.stage == s.hotels[h].stage
    requires t.hotels == s.hotels[h := r] && t.patch.None? && t.otherLends == s.otherLends && t.moving == s.moving
    ensures Placed(t)
  {
  }

  lemma CommitKeepsPlaced(s: State, saved: bool)
    requires Placed(s) && CanCommit(s)
    ensures Placed(ApplyPatchCommit(s, saved))
  {
    var p, t := s.patch.value, ApplyPatchCommit(s, saved);
    ConfigPlaced(s, p.id, s.hotels[p.id], s.(patch := None));
    if t != s.(patch := None) {
      ConfigPlaced(s, p.id, PatchedHotel(p, s.hotels[p.id]), t);
    }
  }

  lemma RestartPlaced(s: State, file: map<string, HotelConfig>, skipped: set<string>, overCap: set<string>)
    requires ValidFile(s, file)
    ensures Placed(ApplyRestart(s, file, skipped, overCap))
  {
  }

  lemma DeskKeepsPlaced(s: State, e: DeskEvent)
    requires Placed(s) && DeskEnabled(s, e)
    ensures Placed(DeskEffect(s, e))
  {
    var t := DeskEffect(s, e);
    if e.PatchBegin? {
      assert t.patch == s.patch || t.patch.value.id == e.hotel;
    } else if e.PatchFetched? {
      assert t.patch.Some? ==> t.patch.value.id == s.patch.value.id;
    }
  }

  lemma HotelKeepsPlaced(s: State, h: string, r: Hotel)
    requires Placed(s) && h in s.hotels && r.stage == s.hotels[h].stage && r.runtime == s.hotels[h].runtime
    ensures Placed(WithHotel(s, h, r))
  {
  }

  lemma EffectPlaced(s: State, e: Event)
    requires Placed(s) && Enabled(s, e)
    ensures Placed(Effect(s, e))
  {
    match e
    case OfCreate(id, c) =>
      CreateFramed(s, id, c);
      CreateKeepsDurable(s, id, CreateEffect(s, id, c), "");
    case OfHotel(h, x) =>
      HotelKeepsStage(s, h, x);
      HotelKeepsPlaced(s, h, HotelEffect(s, h, x));
    case OfDesk(d) => DeskKeepsPlaced(s, d);
    case OfAdmin(a) => AdminKeepsPlaced(s, a);
  }

  lemma StepPlaced(s: State, e: Event)
    requires Placed(s) && Enabled(s, e)
    ensures Placed(Next(s, e))
  {
    EffectPlaced(s, e);
    AnyStepPlaced(Effect(s, e), s.steps + 1);
  }

  lemma AnyStepPlaced(s: State, n: nat)
    requires Placed(s)
    ensures Placed(s.(steps := n))
  {
  }

  lemma {:induction false} RunPlaced(s: State, es: seq<Event>, t: State)
    requires Placed(s) && Run(s, es, t)
    ensures Placed(t)
    decreases |es|
  {
    if es != [] {
      StepPlaced(s, es[0]);
      RunPlaced(Next(s, es[0]), es[1..], t);
    }
  }

  lemma InitPlaced(s: State)
    requires Init(s)
    ensures Placed(s)
  {
    var file, skipped, overCap :| ValidFile(s, file) && s.hotels == LoadHotels(file, s.disk, skipped, overCap)
                                  && s.otherLends == OtherLends(file, s.disk);
    RestartPlaced(s, file, skipped, overCap);
  }

  /** In every reachable state one hotel at most joins or leaves, and no PATCH
      is under way meanwhile. */
  lemma ReachablePlaced(t: State)
    requires Reachable(t)
    ensures Placed(t)
  {
    var s, es :| Init(s) && Run(s, es, t);
    InitPlaced(s);
    RunPlaced(s, es, t);
  }

  // ------------------------------------------------------------ a lend survives

  /** h is lent from `owner` since the launch `report`, in memory and on disk. */
  predicate LentAndKept(s: State, h: string, owner: string, report: string) {
    && Durable(s, h) && owner != "" && IsReportId(report)
    && s.hotels[h].cfg.lentFrom == owner && s.hotels[h].cfg.lentReportId == report
  }

  lemma HotelKeepsLend(s: State, h: string, e: HotelEvent, x: string, owner: string, report: string)
    requires FieldsOk(s) && h in s.hotels && HotelEnabled(s, h, e) && LentAndKept(s, x, owner, report)
    ensures LentAndKept(WithHotel(s, h, HotelEffect(s, h, e)), x, owner, report)
  {
    HotelConfigs(s, h, e);
    HotelKeepsStage(s, h, e);
  }

  lemma AdminKeepsLend(s: State, e: AdminEvent, h: string, owner: string, report: string)
    requires LendInv(s) && Placed(s) && AdminEnabled(s, e) && LentAndKept(s, h, owner, report)
    requires !e.Restart? && !Reclaims(s, OfAdmin(e), h) && !Drops(s, OfAdmin(e), h)
    ensures LentAndKept(AdminEffect(s, e), h, owner, report) && (h in s.lentClean ==> h in AdminEffect(s, e).lentClean)
  {
    AdminKeepsDurable(s, e, h);
    AdminKeepsLent(s, e, h);
    AdminKeepsReport(s, e, h);
  }

  lemma AdminKeepsReport(s: State, e: AdminEvent, h: string)
    requires FieldsOk(s) && PatchOk(s) && AdminEnabled(s, e) && h in s.hotels && s.hotels[h].cfg.lentFrom != ""
    requires !e.Restart? && !Reclaims(s, OfAdmin(e), h) && !Rejoins(OfAdmin(e), h)
    ensures h in AdminEffect(s, e).hotels && AdminEffect(s, e).hotels[h].cfg.lentReportId == s.hotels[h].cfg.lentReportId
  {
    if !e.PatchCommit? {
      MoveKeepsConfig(s, e, h);
    }
  }

  lemma RestartKeepsLend(s: State, e: AdminEvent, h: string, owner: string, report: string)
    requires LendInv(s) && AdminEnabled(s, e) && e.Restart? && LentAndKept(s, h, owner, report) && !Drops(s, OfAdmin(e), h)
    ensures LentAndKept(AdminEffect(s, e), h, owner, report) && h in AdminEffect(s, e).lentClean
  {
    DurableLoads(s, h, e.file, e.skipped, e.overCap);
  }

  lemma StepKeepsLend(s: State, e: Event, h: string, owner: string, report: string)
    requires LendInv(s) && Placed(s) && Enabled(s, e) && LentAndKept(s, h, owner, report)
    requires !Reclaims(s, e, h) && !Drops(s, e, h)
    ensures LentAndKept(Next(s, e), h, owner, report) && (h in s.lentClean ==> h in Next(s, e).lentClean)
  {
    match e
    case OfCreate(id, c) =>
      CreateFramed(s, id, c);
      CreateKeepsDurable(s, id, CreateEffect(s, id, c), h);
      assert SameHotel(s.hotels[h], CreateEffect(s, id, c).hotels[h]);
    case OfHotel(x, v) => HotelKeepsLend(s, x, v, h, owner, report);
    case OfDesk(d) => DeskKeepsDurable(s, d, h);
    case OfAdmin(a) =>
      if a.Restart? {
        RestartKeepsLend(s, a, h, owner, report);
      } else {
        AdminKeepsLend(s, a, h, owner, report);
      }
  }

  /** h is not reclaimed and not dropped anywhere in the run. */
  ghost predicate KeepsHotel(s: State, es: seq<Event>, h: string)
    decreases |es|
  {
    es == [] || (h in s.hotels && Enabled(s, es[0]) && !Reclaims(s, es[0], h) && !Drops(s, es[0], h)
                 && KeepsHotel(Next(s, es[0]), es[1..], h))
  }

  lemma {:induction false} RunKeepsLend(s: State, es: seq<Event>, t: State, h: string, owner: string, report: string)
    requires LendInv(s) && Placed(s) && LentAndKept(s, h, owner, report)
    requires Run(s, es, t) && KeepsHotel(s, es, h)
    ensures LendInv(t) && LentAndKept(t, h, owner, report) && (h in s.lentClean ==> h in t.lentClean)
    decreases |es|
  {
    if es != [] {
      StepInv(s, es[0]);
      StepPlaced(s, es[0]);
      StepKeepsLend(s, es[0], h, owner, report);
      RunKeepsLend(Next(s, es[0]), es[1..], t, h, owner, report);
    }
  }

  /** No create of this guest is queued on h or being called there. */
  predicate StaysOut(s: State, h: string, guest: string) {
    forall id :: id in s.creates && Bound(s.creates[id], h) ==> s.creates[id].guest != guest
  }

  lemma CleanStaysOut(s: State, h: string)
    requires LendInv(s) && h in s.lentClean && h in s.hotels
    ensures StaysOut(s, h, s.hotels[h].cfg.lentFrom)
  {
    forall id | id in s.creates && Bound(s.creates[id], h)
      ensures s.creates[id].guest != s.hotels[h].cfg.lentFrom
    {
      assert MaySit(s.hotels[h].cfg, h in s.lentClean, s.creates[id].guest);
    }
  }

  /** A saved lend with a recorded launch, however it came about, survives every
      run, with restarts and failed saves anywhere in it, until it is reclaimed
      or the hotel is gone. After a lend that found no create of the owner, the
      owner has none on the hotel meanwhile. */
  lemma LendSurvives(s: State, es: seq<Event>, t: State, h: string, owner: string, report: string)
    requires Reachable(s) && LentAndKept(s, h, owner, report)
    requires Run(s, es, t) && KeepsHotel(s, es, h)
    ensures LentAndKept(t, h, owner, report)
    ensures h in s.lentClean ==> StaysOut(t, h, owner)
  {
    ReachableInv(s);
    ReachablePlaced(s);
    RunKeepsLend(s, es, t, h, owner, report);
    if h in s.lentClean {
      CleanStaysOut(t, h);
    }
  }

  /** From the accepted PATCH on: its owner and its launch are in memory and in
      the file, and the owner has no create on the hotel. */
  lemma AcceptedLendSurvives(s: State, saved: bool, es: seq<Event>, t: State)
    requires Reachable(s) && CanCommit(s) && s.patch.value.change.lend && PatchAnswer(s, saved).None?
    requires Run(Next(s, OfAdmin(PatchCommit(saved))), es, t) && KeepsHotel(Next(s, OfAdmin(PatchCommit(saved))), es, s.patch.value.id)
    ensures var p := s.patch.value;
      LentAndKept(t, p.id, p.change.owner, p.change.reportId) && StaysOut(t, p.id, p.change.owner)
  {
    ReachableInv(s);
    ReachablePlaced(s);
    var p, u := s.patch.value, Next(s, OfAdmin(PatchCommit(saved)));
    AcceptedIsKept(s, saved);
    StepInv(s, OfAdmin(PatchCommit(saved)));
    StepPlaced(s, OfAdmin(PatchCommit(saved)));
    RunKeepsLend(u, es, t, p.id, p.change.owner, p.change.reportId);
    CleanStaysOut(t, p.id);
  }

  lemma LentFields(p: Patch, h: Hotel)
    requires p.change.lend && !p.change.reclaim && p.request.reserve.None?
    ensures var c := PatchedHotel(p, h).cfg; c.lentFrom == p.change.owner && c.lentReportId == p.change.reportId
  {
  }

  lemma CommitIsKept(s: State, saved: bool)
    requires PatchOk(s) && Placed(s) && CanCommit(s) && s.patch.value.change.lend && PatchAnswer(s, saved).None?
    ensures var p, t := s.patch.value, ApplyPatchCommit(s, saved);
      LentAndKept(t, p.id, p.change.owner, p.change.reportId) && p.id in t.lentClean
  {
    CommitMakesDurable(s, saved);
    LentFields(s.patch.value, s.hotels[s.patch.value.id]);
  }

  lemma AcceptedIsKept(s: State, saved: bool)
    requires PatchOk(s) && Placed(s) && CanCommit(s) && s.patch.value.change.lend && PatchAnswer(s, saved).None?
    ensures var p, u := s.patch.value, Next(s, OfAdmin(PatchCommit(saved)));
      LentAndKept(u, p.id, p.change.owner, p.change.reportId) && p.id in u.lentClean
  {
    CommitIsKept(s, saved);
    AnyStepKept(ApplyPatchCommit(s, saved), s.steps + 1);
  }

  lemma AnyStepKept(s: State, n: nat)
    ensures forall h, owner, report :: LentAndKept(s, h, owner, report) ==> LentAndKept(s.(steps := n), h, owner, report)
    ensures forall h, owner :: OwnerKept(s, h, owner) ==> OwnerKept(s.(steps := n), h, owner)
  {
  }

  // ------------------------------------------------------------ an unknown launch

  predicate FileOwner(h: string, runtime: bool, d: Disk, owner: string) {
    if runtime then h in d.hotels && d.hotels[h].lentFrom == owner else h in d.lends && d.lends[h].lentFrom == owner
  }

  /** h is lent from `owner`, in memory and on disk, whatever its launch. */
  predicate OwnerKept(s: State, h: string, owner: string) {
    && h in s.hotels && !s.hotels[h].stage.Gone? && !s.hotels[h].stage.Joining? && !s.hotels[h].stage.Checked?
    && owner != "" && s.hotels[h].cfg.lentFrom == owner && FileOwner(h, s.hotels[h].runtime, s.disk, owner)
  }

  lemma DurableKeepsOwner(s: State, h: string)
    requires Durable(s, h) && s.hotels[h].cfg.lentFrom != ""
    ensures OwnerKept(s, h, s.hotels[h].cfg.lentFrom)
  {
  }

  /** A file that is as it was, or written from these books. */
  predicate FileFrom(d: Disk, hotels: map<string, Hotel>, other: map<string, LendEntry>, before: Disk) {
    (d.hotels == before.hotels || d.hotels == RuntimeHotels(hotels)) && (d.lends == before.lends || d.lends == ConfigLends(hotels, other))
  }

  lemma DeskKeepsOwner(s: State, e: DeskEvent, h: string, owner: string)
    requires Placed(s) && DeskEnabled(s, e) && OwnerKept(s, h, owner)
    ensures OwnerKept(DeskEffect(s, e), h, owner)
  {
    if e.SaveLend? && SaveWorks(s, s.hotels[e.hotel], e.saved) {
      var d := SaveLendState(s.hotels, s.otherLends, e.hotel, s.disk);
      SaveKeepsOwner(s, d, h, owner);
    }
  }

  lemma SaveKeepsOwner(s: State, d: Disk, h: string, owner: string)
    requires Placed(s) && MutationFree(s) && OwnerKept(s, h, owner) && FileFrom(d, s.hotels, s.otherLends, s.disk)
    ensures FileOwner(h, s.hotels[h].runtime, d, owner)
  {
  }

  lemma CommitKeepsOwner(s: State, saved: bool, h: string, owner: string)
    requires FieldsOk(s) && PatchOk(s) && Placed(s) && CanCommit(s) && OwnerKept(s, h, owner)
    requires !Reclaims(s, OfAdmin(PatchCommit(saved)), h)
    ensures OwnerKept(ApplyPatchCommit(s, saved), h, owner)
  {
    var p, t := s.patch.value, ApplyPatchCommit(s, saved);
    if PatchAnswer(s, saved).None? {
      CommitKeepsLent(s, saved, h);
      AcceptedKeepsOwner(s, p, PatchedHotel(p, s.hotels[p.id]), t, h, owner);
    } else {
      SameKeepsOwner(s, t, h, owner);
    }
  }

  lemma AcceptedKeepsOwner(s: State, p: Patch, r: Hotel, t: State, h: string, owner: string)
    requires Placed(s) && s.moving.None? && OwnerKept(s, h, owner) && p.id in s.hotels
    requires r.runtime == s.hotels[p.id].runtime && r.stage == s.hotels[p.id].stage
    requires t.hotels == s.hotels[p.id := r] && t.disk == PatchedDisk(s, p, t.hotels) && t.hotels[h].cfg.lentFrom == owner
    ensures OwnerKept(t, h, owner)
  {
  }

  /** A step that leaves the files and the configuration of h as they were. */
  lemma SameKeepsOwner(s: State, t: State, h: string, owner: string)
    requires OwnerKept(s, h, owner) && h in t.hotels && t.disk == s.disk && t.hotels[h].runtime == s.hotels[h].runtime
    requires t.hotels[h].cfg.lentFrom == s.hotels[h].cfg.lentFrom
    requires t.hotels[h].stage == s.hotels[h].stage || t.hotels[h].stage.Leaving? || t.hotels[h].stage.Dropped?
    ensures OwnerKept(t, h, owner)
  {
  }

  lemma EndMoveKeepsOwner(s: State, x: string, stage: Stage, saved: bool, h: string, owner: string)
    requires Placed(s) && OwnerKept(s, h, owner) && x in s.hotels && s.moving == Some(x) && s.hotels[x].runtime
    requires h != x || stage.InPlace?
    ensures OwnerKept(EndMove(s, x, stage, saved), h, owner)
  {
  }

  lemma MarkKeepsOwner(s: State, e: AdminEvent, h: string, owner: string)
    requires AdminEnabled(s, e) && OwnerKept(s, h, owner) && (e.JoinAdd? || e.JoinRefuse? || e.JoinCheck? || e.LeaveMark? || e.LeaveDrop?)
    ensures OwnerKept(AdminEffect(s, e), h, owner)
  {
    SameKeepsOwner(s, AdminEffect(s, e), h, owner);
  }

  lemma AdminKeepsOwner(s: State, e: AdminEvent, h: string, owner: string)
    requires FieldsOk(s) && PatchOk(s) && Placed(s) && AdminEnabled(s, e) && OwnerKept(s, h, owner)
    requires !e.Restart? && !Reclaims(s, OfAdmin(e), h) && !Drops(s, OfAdmin(e), h)
    ensures OwnerKept(AdminEffect(s, e), h, owner)
  {
    match e
    case PatchCommit(saved) => CommitKeepsOwner(s, saved, h, owner);
    case JoinSave(x, saved) => EndMoveKeepsOwner(s, x, if saved then InPlace else Gone, saved, h, owner);
    case LeaveSave(x, saved) => EndMoveKeepsOwner(s, x, if saved then Gone else InPlace, saved, h, owner);
    case _ => MarkKeepsOwner(s, e, h, owner);
  }

  lemma RestartKeepsOwner(s: State, e: AdminEvent, h: string, owner: string)
    requires FieldsOk(s) && AdminEnabled(s, e) && e.Restart? && OwnerKept(s, h, owner) && !Drops(s, OfAdmin(e), h)
    ensures OwnerKept(AdminEffect(s, e), h, owner)
  {
    var hotels := LoadHotels(e.file, s.disk, e.skipped, e.overCap);
    assert h in hotels && hotels[h].cfg.lentFrom == owner && hotels[h].runtime == s.hotels[h].runtime;
  }

  lemma HotelKeepsOwner(s: State, x: string, e: HotelEvent, h: string, owner: string)
    requires FieldsOk(s) && x in s.hotels && HotelEnabled(s, x, e) && OwnerKept(s, h, owner)
    ensures OwnerKept(WithHotel(s, x, HotelEffect(s, x, e)), h, owner)
  {
    HotelConfigs(s, x, e);
    HotelKeepsStage(s, x, e);
    SameKeepsOwner(s, WithHotel(s, x, HotelEffect(s, x, e)), h, owner);
  }

  lemma CreateKeepsOwner(s: State, id: nat, t: State, h: string, owner: string)
    requires CreateFrame(s, id, t) && OwnerKept(s, h, owner)
    ensures OwnerKept(t, h, owner)
  {
    assert SameHotel(s.hotels[h], t.hotels[h]);
    SameKeepsOwner(s, t, h, owner);
  }

  lemma StepKeepsOwner(s: State, e: Event, h: string, owner: string)
    requires FieldsOk(s) && PatchOk(s) && Placed(s) && Enabled(s, e) && OwnerKept(s, h, owner)
    requires !Reclaims(s, e, h) && !Drops(s, e, h)
    ensures OwnerKept(Next(s, e), h, owner)
  {
    AnyStepKept(Effect(s, e), s.steps + 1);
    match e
    case OfCreate(id, c) =>
      CreateFramed(s, id, c);
      CreateKeepsOwner(s, id, CreateEffect(s, id, c), h, owner);
    case OfHotel(x, v) => HotelKeepsOwner(s, x, v, h, owner);
    case OfDesk(d) => DeskKeepsOwner(s, d, h, owner);
    case OfAdmin(a) =>
      if a.Restart? {
        RestartKeepsOwner(s, a, h, owner);
      } else {
        AdminKeepsOwner(s, a, h, owner);
      }
  }

  lemma {:induction false} RunKeepsOwner(s: State, es: seq<Event>, t: State, h: string, owner: string)
    requires LendInv(s) && Placed(s) && OwnerKept(s, h, owner) && Run(s, es, t) && KeepsHotel(s, es, h)
    ensures OwnerKept(t, h, owner)
    decreases |es|
  {
    if es != [] {
      StepInv(s, es[0]);
      StepPlaced(s, es[0]);
      StepKeepsOwner(s, es[0], h, owner);
      RunKeepsOwner(Next(s, es[0]), es[1..], t, h, owner);
    }
  }

  /** A saved lend whose launch may still be unknown: the hotel stays lent from
      its owner, in memory and in the file, over every run with restarts, failed
      saves and a launch that is filled in but not saved yet. */
  lemma LentFromSurvives(s: State, es: seq<Event>, t: State, h: string, owner: string)
    requires Reachable(s) && OwnerKept(s, h, owner) && Run(s, es, t) && KeepsHotel(s, es, h)
    ensures OwnerKept(t, h, owner)
  {
    ReachableInv(s);
    ReachablePlaced(s);
    RunKeepsOwner(s, es, t, h, owner);
  }

  /** From a save that works on, for a lent hotel of any kind, also one that the
      room check made lent: its owner stays in memory and in the file, and so
      does its launch once it is known. */
  lemma SavedLendSurvives(s: State, h: string, es: seq<Event>, t: State)
    requires Reachable(s) && DeskEnabled(s, SaveLend(h, true)) && SaveWorks(s, s.hotels[h], true)
    requires s.hotels[h].stage.InPlace? && s.hotels[h].cfg.lentFrom != ""
    requires Run(Next(s, OfDesk(SaveLend(h, true))), es, t) && KeepsHotel(Next(s, OfDesk(SaveLend(h, true))), es, h)
    ensures OwnerKept(t, h, s.hotels[h].cfg.lentFrom)
    ensures IsReportId(s.hotels[h].cfg.lentReportId) ==> LentAndKept(t, h, s.hotels[h].cfg.lentFrom, s.hotels[h].cfg.lentReportId)
  {
    var e, u := OfDesk(SaveLend(h, true)), Next(s, OfDesk(SaveLend(h, true)));
    ReachableInv(s);
    ReachablePlaced(s);
    SavedIsDurable(s, h);
    StepInv(s, e);
    StepPlaced(s, e);
    RunKeepsOwner(u, es, t, h, s.hotels[h].cfg.lentFrom);
    if IsReportId(s.hotels[h].cfg.lentReportId) {
      RunKeepsLend(u, es, t, h, s.hotels[h].cfg.lentFrom, s.hotels[h].cfg.lentReportId);
    }
  }

  lemma SavedIsDurable(s: State, h: string)
    requires Placed(s) && DeskEnabled(s, SaveLend(h, true)) && SaveWorks(s, s.hotels[h], true)
    requires s.hotels[h].stage.InPlace? && s.hotels[h].cfg.lentFrom != ""
    ensures var u := Next(s, OfDesk(SaveLend(h, true)));
      Durable(u, h) && OwnerKept(u, h, s.hotels[h].cfg.lentFrom) && u.hotels == s.hotels
  {
    SaveMakesDurable(s, h);
    DurableKeepsOwner(ApplySaveLend(s, h, true), h);
  }
}
