/**
 Central booking as a transition system. Each event is one hold of the broker
 lock, or one semaphore operation, of the source; any event may follow any
 other that is enabled. Restarts, failed saves and hotel answers are events
 with free parameters.
 */
module Booking {
  import opened Options
  import opened Hotels
  import opened Placement
  import opened Lend
  import opened Inflight
  import opened Waits

  const MAX_ATTEMPTS := 3
  const FAIL_BACKOFF: Time := 10 * SECOND
  const VANISH_AFTER: Time := 5 * SECOND
  const RELEASE_AFTER: Time := 2 * SECOND

  // ------------------------------------------------------------ creates

  /** How a hotel answered a create call. A lost answer is Other(true, false). */
  datatype Answer =
    | Started(hid: string, tunablesApplied: bool, seconds: real)
    | TooMany(retryAfter: int)
    | Other(rest: bool, final: bool)

  /** Where a create is. Ready, Finished and Done are on no hotel. */
  datatype Phase =
    | Ready
    | Queued(hotel: string)
    | Holding(hotel: string)
    | Cleared(hotel: string)
    | Returning(hotel: string, again: bool)
    | Dispatched(hotel: string)
    | Answered(hotel: string, answer: Answer)
    | Reaping(hotel: string, hid: string, again: bool)
    | Finished
    | Done

  /** What became of a create: history, read by no rule of the broker. */
  datatype Outcome = Open | NoRoom | Reaped | Deleted | Booked(step: nat, at: Time)

  datatype Create = Create(
    guest: string,
    request: Request,
    labels: map<string, string>,
    recv: Time,
    wantTunables: bool,
    gone: bool,
    attempt: nat,
    tried: set<string>,
    fellBack: bool,
    phase: Phase,
    outcome: Outcome)

  datatype Guest = Guest(queued: int, pending: int)

  /** A delete by label that was recorded: history. */
  datatype Delete = Delete(guest: string, want: map<string, string>, at: Time, step: nat)

  /** A PATCH between its check and its commit. */
  datatype Patch = Patch(id: string, request: PatchRequest, change: LendChange, fetching: bool)

  /** patch and moving are the holder of the mutation lock: a PATCH, or a hotel
      that joins or leaves. lentClean is history: the lent hotels that had no
      create of the owner when they became lent. */
  datatype State = State(
    cfg: BrokerConfig,
    now: Time,
    steps: nat,
    hotels: map<string, Hotel>,
    guests: map<string, Guest>,
    creates: map<nat, Create>,
    tombs: map<string, seq<Tombstone>>,
    deletes: seq<Delete>,
    patch: Option<Patch>,
    moving: Option<string>,
    disk: Disk,
    otherLends: map<string, LendEntry>,
    lentClean: set<string>)

  /** Events of one create. */
  datatype CreateEvent =
    | Arrive(guest: string, request: Request, labels: map<string, string>, recv: Time, tunables: bool)
    | PlaceOn(hotel: string)
    | GiveUp
    | TakeSlot
    | Abandon
    | Move(to: string)
    | Recheck
    | ReturnSlot
    | Dispatch
    | HotelAnswers(answer: Answer)
    | Settle
    | BookReaped
    | Unreserve
    | GuestGone

  /** Events that change one hotel as a function of the books. */
  datatype HotelEvent =
    | Health(up: bool, slots: int, mem: real, cpu: real)
    | RoomList(listed: map<string, string>, released: set<string>)
    | DeleteRoom(hid: string)
    | Attest(result: Attestation)
    | Baseline(reportId: string)

  /** Events that change no hotel and no create. */
  datatype DeskEvent =
    | Tick(elapsed: Time)
    | LabelDelete(guest: string, want: map<string, string>)
    | SaveLend(hotel: string, saved: bool)
    | PatchBegin(hotel: string, patch: PatchRequest)
    | PatchFetched(fetched: Fetched)

  /** Events that change the set of hotels, or a hotel and a file. */
  datatype AdminEvent =
    | PatchCommit(saved: bool)
    | JoinAdd(config: HotelConfig, adm: Admission)
    | JoinRefuse(hotel: string)
    | JoinCheck(hotel: string)
    | JoinSave(hotel: string, saved: bool)
    | LeaveMark(hotel: string)
    | LeaveDrop(hotel: string)
    | LeaveSave(hotel: string, saved: bool)
    | Restart(file: map<string, HotelConfig>, skipped: set<string>, overCap: set<string>)

  datatype Event =
    | OfCreate(id: nat, create: CreateEvent)
    | OfHotel(hotel: string, event: HotelEvent)
    | OfDesk(desk: DeskEvent)
    | OfAdmin(admin: AdminEvent)

  // ------------------------------------------------------------ attestation

  datatype Attestation = NotFetched | Failed | Passed(chipFull: string, reportId: string)

  predicate HoldsChip(b: BrokerConfig, h: Hotel, chip: string, now: Time) {
    && h.stage.InPlace?
    && NeedsAttestation(b, h)
    && h.adm.chipFull == chip
    && h.adm.attestedAt.Some?
    && Admitted(b, h, now)
  }

  /** Another admitted gated hotel has this chip. */
  predicate ChipTaken(b: BrokerConfig, hotels: map<string, Hotel>, id: string, chip: string, now: Time) {
    exists o :: o in hotels && o != id && HoldsChip(b, hotels[o], chip, now)
  }

  function NoteAttestation(b: BrokerConfig, hotels: map<string, Hotel>, id: string, r: Attestation, now: Time): Hotel
    requires id in hotels
  {
    var h := hotels[id];
    match r
    case NotFetched => h.(adm := h.adm.(checkedAt := Some(now), refused := true))
    case Failed => h.(adm := h.adm.(checkedAt := Some(now), attestedAt := None, refused := true))
    case Passed(chip, report) =>
      if chip != "" && ChipTaken(b, hotels, id, chip, now)
      then h.(adm := Admission(None, Some(now), true, chip, report))
      else h.(adm := Admission(Some(now), Some(now), false, chip, report))
  }

  // ------------------------------------------------------------ guards

  predicate At(s: State, id: nat) {
    id in s.creates && s.creates[id].guest in s.guests
  }

  predicate On(s: State, id: nat, hotel: string) {
    At(s, id) && hotel in s.hotels
  }

  /** The request a pick for c uses: its own, or the "prefer" fallback when
      its own finds no hotel. */
  function PickRequest(s: State, c: Create): Request {
    if PickFails(s.cfg, s.hotels, c.tried, c.request, s.now) && !c.fellBack && FallbackFor(s.hotels, c.request).Some?
    then FallbackFor(s.hotels, c.request).value
    else c.request
  }

  /** A create queued on a preferred hotel moves only to a preferred hotel. */
  function MoveRequest(r: Request, from: HotelConfig): Request {
    if r.policy.Some? && r.tier.None? && PolicyTier(r.policy.value, from) == Prefer
    then r.(tier := Some(Prefer))
    else r
  }

  predicate Doomed(s: State, c: Create) {
    c.guest in s.tombs && Tombstoned(s.tombs[c.guest], c.labels, c.recv, s.now)
  }

  predicate IsReportId(id: string) {
    id != "" && id != LENT_REPORT_UNKNOWN
  }

  predicate ValidPatch(s: State, r: PatchRequest) {
    && (r.lend ==> r.reserve.None?)
    && (r.maxSlots.Some? ==> r.maxSlots.value >= 0)
    && (r.reserve.Some? ==> r.reserve.value == "" || r.reserve.value in s.guests)
  }

  predicate ValidFile(s: State, file: map<string, HotelConfig>) {
    forall id :: id in file ==>
      && file[id].id == id && id != ""
      && file[id].minerHotkey == "" && (file[id].requireAttestation ==> file[id].sealed)
      && file[id].lentFrom == "" && file[id].lentReportId == ""
      && (file[id].reservedFor == "" || file[id].reservedFor in s.guests)
  }

  predicate MayRelease(h: Hotel, listed: map<string, string>, now: Time, hid: string) {
    && hid in h.rooms && hid !in listed
    && h.rooms[hid].state == Deleting && now - h.rooms[hid].vanished > RELEASE_AFTER
  }

  predicate CanArrive(s: State, id: nat, g: string, r: Request, recv: Time) {
    id !in s.creates && g in s.guests && g != "" && r.guest == g && recv <= s.now
  }

  predicate CanPlace(s: State, id: nat, h: string) {
    && On(s, id, h) && s.creates[id].phase.Ready? && s.creates[id].attempt < MAX_ATTEMPTS
    && MayPick(s.cfg, s.hotels, s.creates[id].tried, PickRequest(s, s.creates[id]), s.now, h)
  }

  predicate CanGiveUp(s: State, id: nat) {
    && At(s, id) && s.creates[id].phase.Ready?
    && (s.creates[id].attempt >= MAX_ATTEMPTS
        || PickFails(s.cfg, s.hotels, s.creates[id].tried, PickRequest(s, s.creates[id]), s.now))
  }

  predicate InQueue(s: State, id: nat) {
    At(s, id) && s.creates[id].phase.Queued? && s.creates[id].phase.hotel in s.hotels
  }

  predicate CanTakeSlot(s: State, id: nat) {
    InQueue(s, id) && s.hotels[s.creates[id].phase.hotel].sem < Concurrency(s.hotels[s.creates[id].phase.hotel])
  }

  predicate CanAbandon(s: State, id: nat) {
    InQueue(s, id) && s.creates[id].gone
  }

  predicate CanMove(s: State, id: nat, to: string) {
    InQueue(s, id) && to in s.hotels && MovesTo(s, s.creates[id], to)
  }

  predicate CanRecheck(s: State, id: nat) {
    At(s, id) && s.creates[id].phase.Holding? && s.creates[id].phase.hotel in s.hotels
  }

  predicate CanReturnSlot(s: State, id: nat) {
    At(s, id) && s.creates[id].phase.Returning? && s.creates[id].phase.hotel in s.hotels
  }

  predicate CanDispatch(s: State, id: nat) {
    At(s, id) && s.creates[id].phase.Cleared? && s.creates[id].phase.hotel in s.hotels
  }

  predicate AtCall(s: State, id: nat) {
    At(s, id) && s.creates[id].phase.Dispatched? && s.creates[id].phase.hotel in s.hotels
  }

  predicate CanAnswer(s: State, id: nat, a: Answer) {
    && AtCall(s, id)
    && (a.Started? ==> a.hid != "" && a.seconds >= 0.0)
  }

  predicate CanSettle(s: State, id: nat) {
    At(s, id) && s.creates[id].phase.Answered? && s.creates[id].phase.hotel in s.hotels
  }

  predicate CanBookReaped(s: State, id: nat) {
    At(s, id) && s.creates[id].phase.Reaping? && s.creates[id].phase.hotel in s.hotels
  }

  predicate CanUnreserve(s: State, id: nat) {
    At(s, id) && s.creates[id].phase.Finished?
  }

  predicate CanList(s: State, h: string, listed: map<string, string>, released: set<string>) {
    && h in s.hotels
    && forall hid :: hid in released ==> MayRelease(Listing(s.hotels[h], listed, s.now), listed, s.now, hid)
  }

  predicate MutationFree(s: State) {
    s.patch.None? && s.moving.None?
  }

  predicate CanBeginPatch(s: State, h: string, r: PatchRequest) {
    MutationFree(s) && h in s.hotels && InSet(s.hotels[h]) && ValidPatch(s, r)
  }

  predicate CanFetch(s: State, f: Fetched) {
    s.patch.Some? && s.patch.value.fetching && (f.ReportId? ==> IsReportId(f.id))
  }

  predicate CanCommit(s: State) {
    s.patch.Some? && !s.patch.value.fetching && s.patch.value.id in s.hotels
  }

  /** A create in this phase has nothing to do with h. */
  predicate OffHotel(p: Phase, h: string) {
    p.Ready? || p.Finished? || p.Done? || p.hotel != h
  }

  /** No hotel of this id is in the set: there was none, or it has left and no
      create is still on it. */
  predicate IdFree(s: State, id: string) {
    id in s.hotels ==> s.hotels[id].stage.Gone? && forall i :: i in s.creates ==> OffHotel(s.creates[i].phase, id)
  }

  predicate CanJoin(s: State, c: HotelConfig) {
    && MutationFree(s) && IdFree(s, c.id) && c.id != "" && s.cfg.stateDir
    && c.lentFrom == "" && c.lentReportId == "" && (c.reservedFor == "" || c.reservedFor in s.guests)
    && (c.requireAttestation ==> c.sealed) && (c.minerHotkey != "" ==> c.sealed)
  }

  predicate CanMarkLeaving(s: State, h: string) {
    MutationFree(s) && h in s.hotels && s.hotels[h].runtime && s.hotels[h].stage.InPlace? && Used(s.hotels[h]) == 0
  }

  /** The chip check of the join that is under way finds another holder. */
  predicate CanRefuseJoin(s: State, h: string) {
    && h in s.hotels && s.hotels[h].stage.Joining?
    && s.hotels[h].adm.chipFull != "" && s.hotels[h].adm.attestedAt.Some?
    && ChipTaken(s.cfg, s.hotels, h, s.hotels[h].adm.chipFull, s.now)
  }

  predicate CreateEnabled(s: State, id: nat, e: CreateEvent) {
    match e
    case Arrive(g, r, labels, recv, tunables) => CanArrive(s, id, g, r, recv)
    case PlaceOn(h) => CanPlace(s, id, h)
    case GiveUp => CanGiveUp(s, id)
    case TakeSlot => CanTakeSlot(s, id)
    case Abandon => CanAbandon(s, id)
    case Move(to) => CanMove(s, id, to)
    case Recheck => CanRecheck(s, id)
    case ReturnSlot => CanReturnSlot(s, id)
    case Dispatch => CanDispatch(s, id)
    case HotelAnswers(a) => CanAnswer(s, id, a)
    case Settle => CanSettle(s, id)
    case BookReaped => CanBookReaped(s, id)
    case Unreserve => CanUnreserve(s, id)
    case GuestGone => At(s, id)
  }

  predicate HotelEnabled(s: State, h: string, e: HotelEvent)
    requires h in s.hotels
  {
    match e
    case Health(up, slots, mem, cpu) => true
    case RoomList(listed, released) => CanList(s, h, listed, released)
    case DeleteRoom(hid) => hid in s.hotels[h].rooms
    case Attest(r) => NeedsAttestation(s.cfg, s.hotels[h])
    case Baseline(rid) => IsReportId(rid)
  }

  predicate DeskEnabled(s: State, e: DeskEvent) {
    match e
    case Tick(d) => d >= 0
    case LabelDelete(g, want) => g in s.guests
    case SaveLend(h, saved) => h in s.hotels && MutationFree(s)
    case PatchBegin(h, r) => CanBeginPatch(s, h, r)
    case PatchFetched(f) => CanFetch(s, f)
  }

  predicate AdminEnabled(s: State, e: AdminEvent) {
    match e
    case PatchCommit(saved) => CanCommit(s)
    case JoinAdd(c, adm) => CanJoin(s, c)
    case JoinRefuse(h) => CanRefuseJoin(s, h)
    case JoinCheck(h) => h in s.hotels && s.hotels[h].stage.Joining? && !CanRefuseJoin(s, h)
    case JoinSave(h, saved) => h in s.hotels && s.hotels[h].stage.Checked?
    case LeaveMark(h) => CanMarkLeaving(s, h)
    case LeaveDrop(h) => h in s.hotels && s.hotels[h].stage.Leaving?
    case LeaveSave(h, saved) => h in s.hotels && s.hotels[h].stage.Dropped?
    case Restart(file, skipped, overCap) => ValidFile(s, file)
  }

  predicate Enabled(s: State, e: Event) {
    match e
    case OfCreate(id, c) => CreateEnabled(s, id, c)
    case OfHotel(h, x) => h in s.hotels && HotelEnabled(s, h, x)
    case OfDesk(d) => DeskEnabled(s, d)
    case OfAdmin(a) => AdminEnabled(s, a)
  }

  predicate MovesTo(s: State, c: Create, to: string)
    requires c.phase.Queued? && c.phase.hotel in s.hotels && to in s.hotels
  {
    var from := s.hotels[c.phase.hotel];
    && MayPick(s.cfg, s.hotels, {c.phase.hotel}, MoveRequest(c.request, from.cfg), s.now, to)
    && ExpectedWait(s.hotels[to], 1) < ExpectedWait(from, 0) / 2.0
  }

  // ------------------------------------------------------------ state updates

  function WithHotel(s: State, id: string, h: Hotel): State {
    s.(hotels := s.hotels[id := h])
  }

  /** Create id is now c, and its guest has these counters. */
  function PostGuest(s: State, id: nat, c: Create, g: Guest): State {
    s.(creates := s.creates[id := c], guests := s.guests[c.guest := g])
  }

  /** PostGuest, and hotel h is now r. */
  function Post(s: State, id: nat, c: Create, h: string, r: Hotel, g: Guest): State {
    s.(creates := s.creates[id := c], guests := s.guests[c.guest := g], hotels := s.hotels[h := r])
  }

  /** The loop of a create starts again with one attempt more, or ends. */
  function LoopOn(c: Create, again: bool): Create {
    if again then c.(phase := Ready, attempt := c.attempt + 1) else c.(phase := Finished)
  }

  // ------------------------------------------------------------ frames

  /** What no event of a create changes about a hotel. */
  predicate SameHotel(h: Hotel, r: Hotel) {
    && r.cfg == h.cfg && r.stage == h.stage && r.slots == h.slots && r.adm == h.adm
    && r.runtime == h.runtime && r.roomsUnchecked == h.roomsUnchecked && r.up == h.up
  }

  // ------------------------------------------------------------ create path

  /** c, which is create id from now on, joins the queue of h. */
  function JoinQueue(s: State, id: nat, c: Create, h: string): State
    requires h in s.hotels && c.guest in s.guests
  {
    var r, g := s.hotels[h], s.guests[c.guest];
    Post(s, id, c.(phase := Queued(h), tried := c.tried + {h}), h, r.(queued := r.queued + 1), g.(queued := g.queued + 1))
  }

  /** Create id gives its place in the queue of h back and is c from now on. */
  function LeaveQueue(s: State, id: nat, c: Create, h: string): State
    requires h in s.hotels && c.guest in s.guests
  {
    var r, g := s.hotels[h], s.guests[c.guest];
    Post(s, id, c, h, r.(queued := r.queued - 1), g.(queued := g.queued - 1))
  }

  /** r: the request the pick used (PickRequest). */
  function ApplyPlace(s: State, id: nat, h: string, r: Request): State
    requires On(s, id, h)
  {
    var c := s.creates[id];
    JoinQueue(s, id, c.(request := r, fellBack := c.fellBack || r != c.request), h)
  }

  function ApplyGiveUp(s: State, id: nat): State
    requires At(s, id)
  {
    var c := s.creates[id];
    PostGuest(s, id, c.(phase := Finished, outcome := NoRoom), s.guests[c.guest])
  }

  function ApplyGone(s: State, id: nat): State
    requires At(s, id)
  {
    var c := s.creates[id];
    PostGuest(s, id, c.(gone := true), s.guests[c.guest])
  }

  function ApplyTakeSlot(s: State, id: nat): State
    requires InQueue(s, id)
  {
    var c := s.creates[id];
    var r := s.hotels[c.phase.hotel];
    Post(s, id, c.(phase := Holding(c.phase.hotel)), c.phase.hotel, r.(sem := r.sem + 1), s.guests[c.guest])
  }

  function ApplyAbandon(s: State, id: nat): State
    requires InQueue(s, id)
  {
    var c := s.creates[id];
    LeaveQueue(s, id, c.(phase := Finished, outcome := NoRoom), c.phase.hotel)
  }

  /** One less in the one queue, one more in the other; the guest's own count
      comes back to what it was. */
  function ApplyMove(s: State, id: nat, to: string): State
    requires InQueue(s, id) && to in s.hotels
  {
    var c := s.creates[id];
    JoinQueue(LeaveQueue(s, id, c.(phase := Ready), c.phase.hotel), id, c, to)
  }

  /** The hotel left placement while the create waited for its slot. */
  predicate TurnedAway(s: State, h: string)
    requires h in s.hotels
  {
    !s.hotels[h].stage.InPlace? || !Admitted(s.cfg, s.hotels[h], s.now)
  }

  function ApplyRecheck(s: State, id: nat, turnedAway: bool, doomed: bool): State
    requires CanRecheck(s, id)
  {
    var c := s.creates[id];
    var h := c.phase.hotel;
    if turnedAway
    then LeaveQueue(s, id, c.(phase := Returning(h, true)), h)
    else if c.gone then LeaveQueue(s, id, c.(phase := Returning(h, false), outcome := NoRoom), h)
    else if doomed then LeaveQueue(s, id, c.(phase := Returning(h, false), outcome := Deleted), h)
    else PostGuest(s, id, c.(phase := Cleared(h)), s.guests[c.guest])
  }

  function ApplyReturnSlot(s: State, id: nat): State
    requires CanReturnSlot(s, id)
  {
    var c := s.creates[id];
    var r := s.hotels[c.phase.hotel];
    Post(s, id, LoopOn(c, c.phase.again), c.phase.hotel, r.(sem := r.sem - 1), s.guests[c.guest])
  }

  function ApplyDispatch(s: State, id: nat): State
    requires CanDispatch(s, id)
  {
    var c := s.creates[id];
    var r, g := s.hotels[c.phase.hotel], s.guests[c.guest];
    Post(s, id, c.(phase := Dispatched(c.phase.hotel)), c.phase.hotel,
         r.(queued := r.queued - 1, creating := r.creating + 1), g.(queued := g.queued - 1))
  }

  function ApplyAnswer(s: State, id: nat, a: Answer): State
    requires AtCall(s, id)
  {
    var c := s.creates[id];
    var r := s.hotels[c.phase.hotel];
    Post(s, id, c.(phase := Answered(c.phase.hotel, a)), c.phase.hotel, r.(sem := r.sem - 1), s.guests[c.guest])
  }

  /** The hotel after the create call is settled. */
  function SettledHotel(h: Hotel, c: Create, a: Answer, reap: bool, now: Time): (r: Hotel)
    ensures r.creating == h.creating - 1 && r.queued == h.queued && r.sem == h.sem && SameHotel(h, r)
    ensures r.rooms == if a.Started? && !reap then h.rooms[a.hid := Room(c.guest, Running, now, 0, false, false)] else h.rooms
  {
    var h1 := h.(creating := h.creating - 1);
    match a
    case Started(hid, applied, seconds) =>
      if reap then h1
      else NoteCreate(h1.(rooms := h1.rooms[hid := Room(c.guest, Running, now, 0, false, false)]), seconds)
    case TooMany(retry) =>
      h1.(backoffUntil := now + (if retry <= 0 then 2 else retry) * SECOND)
    case Other(rest, final) =>
      if rest then h1.(backoffUntil := now + FAIL_BACKOFF) else h1
  }

  /** The create after its call is settled. */
  function SettledCreate(c: Create, h: string, a: Answer, doomed: bool, steps: nat, now: Time): (r: Create)
    ensures r.phase.Ready? || r.phase.Finished? || (r.phase.Reaping? && a.Started?)
    ensures r.guest == c.guest && r.request == c.request
  {
    match a
    case Started(hid, applied, seconds) =>
      if c.gone then c.(phase := Reaping(h, hid, false), outcome := Reaped)
      else if doomed then c.(phase := Reaping(h, hid, false), outcome := Reaped)
      else if c.wantTunables && !applied then c.(phase := Reaping(h, hid, true))
      else c.(phase := Finished, outcome := Booked(steps, now))
    case TooMany(retry) => c.(phase := Ready, attempt := c.attempt + 1)
    case Other(rest, final) =>
      if final then c.(phase := Finished, outcome := NoRoom) else c.(phase := Ready, attempt := c.attempt + 1)
  }

  predicate MustReap(c: Create, a: Answer, doomed: bool) {
    a.Started? && (c.gone || doomed || (c.wantTunables && !a.tunablesApplied))
  }

  function ApplySettle(s: State, id: nat, doomed: bool): State
    requires CanSettle(s, id)
  {
    var c := s.creates[id];
    var h := c.phase.hotel;
    var a := c.phase.answer;
    Post(s, id, SettledCreate(c, h, a, doomed, s.steps, s.now), h,
         SettledHotel(s.hotels[h], c, a, MustReap(c, a, doomed), s.now), s.guests[c.guest])
  }

  function ApplyBookReaped(s: State, id: nat): State
    requires CanBookReaped(s, id)
  {
    var c := s.creates[id];
    var r := s.hotels[c.phase.hotel];
    var rm := Room(c.guest, Deleting, s.now, s.now, false, true);
    Post(s, id, LoopOn(c, c.phase.again), c.phase.hotel, r.(rooms := r.rooms[c.phase.hid := rm]), s.guests[c.guest])
  }

  function ApplyUnreserve(s: State, id: nat): State
    requires CanUnreserve(s, id)
  {
    var c := s.creates[id];
    var g := s.guests[c.guest];
    PostGuest(s, id, c.(phase := Done), g.(pending := g.pending - 1))
  }

  function ApplyArrive(s: State, id: nat, g: string, r: Request, labels: map<string, string>, recv: Time, tunables: bool): State
    requires CanArrive(s, id, g, r, recv)
  {
    PostGuest(s, id, Create(g, r, labels, recv, tunables, false, 0, {}, false, Ready, Open),
              s.guests[g].(pending := s.guests[g].pending + 1))
  }

  /** What no event of the desk changes. */
  predicate DeskFrame(s: State, r: State) {
    && r.hotels == s.hotels && r.guests == s.guests && r.creates == s.creates && r.cfg == s.cfg
    && r.lentClean == s.lentClean && r.otherLends == s.otherLends && r.moving == s.moving
  }

  function ApplyLabelDelete(s: State, g: string, want: map<string, string>): (r: State)
    ensures DeskFrame(s, r)
  {
    var before := if g in s.tombs then s.tombs[g] else [];
    s.(tombs := s.tombs[g := AddTombstone(before, want, s.now)],
       deletes := s.deletes + [Delete(g, want, s.now, s.steps)])
  }

  // ------------------------------------------------------------ sync loop

  function Resized(h: Hotel, slots: int): Hotel {
    if slots <= 0 then h else h.(slots := slots)
  }

  function ApplyHealth(h: Hotel, up: bool, slots: int, mem: real, cpu: real): Hotel {
    if !up then h.(up := false, adm := h.adm.(attestedAt := None, checkedAt := None))
    else
      var capped := if h.cfg.maxSlots > 0 && slots > h.cfg.maxSlots then h.cfg.maxSlots else slots;
      Resized(h, capped).(up := true, memPct := mem, cpuPct := cpu)
  }

  /** The rooms after a room list is read, before gone rooms are released. */
  function Listing(h: Hotel, listed: map<string, string>, now: Time): Hotel {
    h.(rooms :=
       (map hid | hid in h.rooms :: Relisted(h.rooms[hid], hid in listed, now))
       + (map hid | hid in listed && hid !in h.rooms :: Room(listed[hid], Running, now, 0, false, false)))
  }

  function Relisted(rm: Room, seen: bool, now: Time): Room {
    if seen then
      if rm.state == Deleting && !rm.deleteSent
      then rm.(state := Running, since := now, vanished := 0, reaped := false)
      else rm.(reaped := false)
    else if rm.state == Running && now - rm.since > VANISH_AFTER then rm.(state := Deleting, vanished := now)
    else rm
  }

  /** A guest deleted a room and the hotel took the delete. */
  function ApplyDeleteRoom(h: Hotel, hid: string, now: Time): Hotel
    requires hid in h.rooms
  {
    var rm := h.rooms[hid];
    h.(rooms := h.rooms[hid := if rm.state == Running then rm.(state := Deleting, vanished := now, deleteSent := true)
                               else rm.(deleteSent := true)])
  }

  function ApplyRoomList(h: Hotel, listed: map<string, string>, released: set<string>, now: Time): Hotel {
    var l := Listing(h, listed, now);
    CheckReservedRooms(l.(rooms := l.rooms - released)).(roomsUnchecked := false)
  }

  // ------------------------------------------------------------ patch

  function ApplyPatchBegin(s: State, h: string, r: PatchRequest): (t: State)
    requires h in s.hotels
    ensures DeskFrame(s, t)
  {
    match PrepareLend(s.cfg.stateDir, s.hotels[h], r.lend, r.reserve)
    case Refuse(why) => s
    case NoFetch(c) => s.(patch := Some(Patch(h, r, c, false)))
    case Fetch(c) => s.(patch := Some(Patch(h, r, c, true)))
  }

  function ApplyPatchFetched(s: State, f: Fetched): (t: State)
    requires s.patch.Some?
    ensures DeskFrame(s, t)
  {
    match AfterFetch(s.patch.value.change, f)
    case Refuse(why) => s.(patch := None)
    case NoFetch(c) => s.(patch := Some(s.patch.value.(change := c, fetching := false)))
    case Fetch(c) => s
  }

  /** The hotel after an accepted PATCH. */
  function PatchedHotel(p: Patch, h: Hotel): (r: Hotel)
    ensures SameBooks(h, r) && r.cfg == PatchFields(p.change, p.request, h.cfg)
    ensures r.rooms == h.rooms && r.stage == h.stage && r.roomsUnchecked == h.roomsUnchecked && r.adm == h.adm
  {
    var h1 := h.(cfg := PatchFields(p.change, p.request, h.cfg));
    if p.request.maxSlots.Some? && h1.cfg.maxSlots > 0 && h1.slots > h1.cfg.maxSlots
    then h1.(slots := h1.cfg.maxSlots)
    else h1
  }

  predicate PatchSaves(p: Patch, h: Hotel) {
    p.change.lend || p.change.reclaim || h.runtime
  }

  /** The files after an accepted PATCH. */
  function PatchedDisk(s: State, p: Patch, hotels: map<string, Hotel>): Disk
    requires p.id in hotels
  {
    if p.change.lend || p.change.reclaim then SaveLendState(hotels, s.otherLends, p.id, s.disk)
    else if hotels[p.id].runtime then s.disk.(hotels := RuntimeHotels(hotels))
    else s.disk
  }

  predicate SaveWorks(s: State, h: Hotel, saved: bool) {
    saved && (h.runtime || s.cfg.stateDir)
  }

  /** The answer of a commit: None is 200. */
  function PatchAnswer(s: State, saved: bool): Option<Refusal>
    requires CanCommit(s)
  {
    var p := s.patch.value;
    var h := s.hotels[p.id];
    if PatchErr(p.change, p.request, h).Some? then PatchErr(p.change, p.request, h)
    else if PatchSaves(p, h) && !SaveWorks(s, h, saved) then Some(StateWriteFailed)
    else None
  }

  function ApplyPatchCommit(s: State, saved: bool): State
    requires CanCommit(s)
  {
    var p := s.patch.value;
    if PatchAnswer(s, saved).Some? then s.(patch := None)
    else
      var h := PatchedHotel(p, s.hotels[p.id]);
      var hotels := s.hotels[p.id := h];
      s.(patch := None, hotels := hotels, disk := PatchedDisk(s, p, hotels),
         lentClean := if p.change.lend then s.lentClean + {p.id}
                      else if p.change.reclaim then s.lentClean - {p.id} else s.lentClean)
  }

  function ApplySaveLend(s: State, h: string, saved: bool): (t: State)
    requires h in s.hotels
    ensures DeskFrame(s, t)
  {
    if SaveWorks(s, s.hotels[h], saved)
    then s.(disk := SaveLendState(s.hotels, s.otherLends, h, s.disk))
    else s
  }

  // ------------------------------------------------------------ join and leave

  /** The hotel that joins is a new one, whatever was known of its id. */
  function ApplyJoinAdd(s: State, c: HotelConfig, adm: Admission): State {
    WithHotel(s, c.id, NewHotel(c, true, Joining, false).(adm := adm)).(moving := Some(c.id), lentClean := s.lentClean - {c.id})
  }

  function SaveRuntime(s: State): State {
    s.(disk := s.disk.(hotels := RuntimeHotels(s.hotels)))
  }

  function ApplyJoinRefuse(s: State, h: string): State
    requires h in s.hotels
  {
    WithHotel(s, h, s.hotels[h].(stage := Gone, adm := s.hotels[h].adm.(attestedAt := None))).(moving := None)
  }

  /** The join or the leave ends with its hotel at this stage, saved or not. */
  function EndMove(s: State, h: string, stage: Stage, saved: bool): State
    requires h in s.hotels
  {
    var t := WithHotel(s, h, s.hotels[h].(stage := stage)).(moving := None);
    if saved then SaveRuntime(t) else t
  }

  function ApplyJoinSave(s: State, h: string, saved: bool): State
    requires h in s.hotels
  {
    EndMove(s, h, if saved then InPlace else Gone, saved)
  }

  /** A leave whose save fails puts the hotel back. */
  function ApplyLeaveSave(s: State, h: string, saved: bool): State
    requires h in s.hotels
  {
    EndMove(s, h, if saved then Gone else InPlace, saved)
  }

  function ApplyRestart(s: State, file: map<string, HotelConfig>, skipped: set<string>, overCap: set<string>): State
    requires ValidFile(s, file)
  {
    var hotels := LoadHotels(file, s.disk, skipped, overCap);
    s.(hotels := hotels,
       guests := map g | g in s.guests :: Guest(0, 0),
       creates := map[], tombs := map[], deletes := [], patch := None, moving := None,
       otherLends := OtherLends(file, s.disk),
       lentClean := set id | id in hotels && hotels[id].cfg.lentFrom != "")
  }

  // ------------------------------------------------------------ one step

  function CreateEffect(s: State, id: nat, e: CreateEvent): State
    requires CreateEnabled(s, id, e)
  {
    match e
    case Arrive(g, r, labels, recv, tunables) => ApplyArrive(s, id, g, r, labels, recv, tunables)
    case PlaceOn(h) => ApplyPlace(s, id, h, PickRequest(s, s.creates[id]))
    case GiveUp => ApplyGiveUp(s, id)
    case TakeSlot => ApplyTakeSlot(s, id)
    case Abandon => ApplyAbandon(s, id)
    case Move(to) => ApplyMove(s, id, to)
    case Recheck => ApplyRecheck(s, id, TurnedAway(s, s.creates[id].phase.hotel), Doomed(s, s.creates[id]))
    case ReturnSlot => ApplyReturnSlot(s, id)
    case Dispatch => ApplyDispatch(s, id)
    case HotelAnswers(a) => ApplyAnswer(s, id, a)
    case Settle => ApplySettle(s, id, Doomed(s, s.creates[id]))
    case BookReaped => ApplyBookReaped(s, id)
    case Unreserve => ApplyUnreserve(s, id)
    case GuestGone => ApplyGone(s, id)
  }

  /** What an event of the hotel or a PATCH leaves as it was. */
  predicate SameBooks(h: Hotel, r: Hotel) {
    && r.queued == h.queued && r.creating == h.creating && r.sem == h.sem && r.runtime == h.runtime
    && r.cfg.id == h.cfg.id && r.cfg.sealed == h.cfg.sealed && r.cfg.concurrency == h.cfg.concurrency
    && r.cfg.minerHotkey == h.cfg.minerHotkey && r.cfg.requireAttestation == h.cfg.requireAttestation
    && r.cfg.tlsPinned == h.cfg.tlsPinned
  }

  function HotelEffect(s: State, h: string, e: HotelEvent): (r: Hotel)
    requires h in s.hotels && HotelEnabled(s, h, e)
    ensures SameBooks(s.hotels[h], r)
  {
    match e
    case Health(up, slots, mem, cpu) => ApplyHealth(s.hotels[h], up, slots, mem, cpu)
    case RoomList(listed, released) => ApplyRoomList(s.hotels[h], listed, released, s.now)
    case DeleteRoom(hid) => ApplyDeleteRoom(s.hotels[h], hid, s.now)
    case Attest(r) => NoteAttestation(s.cfg, s.hotels, h, r, s.now)
    case Baseline(rid) => FillBaseline(s.hotels[h], rid)
  }

  function DeskEffect(s: State, e: DeskEvent): (r: State)
    requires DeskEnabled(s, e)
    ensures DeskFrame(s, r)
  {
    match e
    case Tick(d) => s.(now := s.now + d)
    case LabelDelete(g, want) => ApplyLabelDelete(s, g, want)
    case SaveLend(h, saved) => ApplySaveLend(s, h, saved)
    case PatchBegin(h, r) => ApplyPatchBegin(s, h, r)
    case PatchFetched(f) => ApplyPatchFetched(s, f)
  }

  function AdminEffect(s: State, e: AdminEvent): State
    requires AdminEnabled(s, e)
  {
    match e
    case PatchCommit(saved) => ApplyPatchCommit(s, saved)
    case JoinAdd(c, adm) => ApplyJoinAdd(s, c, adm)
    case JoinRefuse(h) => ApplyJoinRefuse(s, h)
    case JoinCheck(h) => WithHotel(s, h, s.hotels[h].(stage := Checked))
    case JoinSave(h, saved) => ApplyJoinSave(s, h, saved)
    case LeaveMark(h) => WithHotel(s, h, s.hotels[h].(stage := Leaving)).(moving := Some(h))
    case LeaveDrop(h) => WithHotel(s, h, s.hotels[h].(stage := Dropped))
    case LeaveSave(h, saved) => ApplyLeaveSave(s, h, saved)
    case Restart(file, skipped, overCap) => ApplyRestart(s, file, skipped, overCap)
  }

  function Effect(s: State, e: Event): State
    requires Enabled(s, e)
  {
    match e
    case OfCreate(id, c) => CreateEffect(s, id, c)
    case OfHotel(h, x) => WithHotel(s, h, HotelEffect(s, h, x))
    case OfDesk(d) => DeskEffect(s, d)
    case OfAdmin(a) => AdminEffect(s, a)
  }

  /** The state after event e; every event takes one step number. */
  function Next(s: State, e: Event): State
    requires Enabled(s, e)
  {
    Effect(s, e).(steps := s.steps + 1)
  }

  // ------------------------------------------------------------ runs

  /** A broker that starts with these files, guests and config file. */
  ghost predicate Init(s: State) {
    && s.now >= 0
    && (exists file: map<string, HotelConfig>, skipped: set<string>, overCap: set<string> ::
          ValidFile(s, file) && s.hotels == LoadHotels(file, s.disk, skipped, overCap)
          && s.otherLends == OtherLends(file, s.disk))
    && (forall g :: g in s.guests ==> s.guests[g] == Guest(0, 0))
    && s.creates == map[] && s.tombs == map[] && s.deletes == [] && s.patch == None && s.moving == None
    && s.lentClean == (set id | id in s.hotels && s.hotels[id].cfg.lentFrom != "")
    && (forall id :: id in s.disk.hotels ==>
          && s.disk.hotels[id].id == id && LendFieldsOk(s.disk.hotels[id])
          && (s.disk.hotels[id].requireAttestation ==> s.disk.hotels[id].sealed))
    && (forall id :: id in s.disk.lends ==> EntryOk(s.disk.lends[id]))
  }

  /** es leads from s to t. */
  ghost predicate Run(s: State, es: seq<Event>, t: State)
    decreases |es|
  {
    if es == [] then s == t
    else Enabled(s, es[0]) && Run(Next(s, es[0]), es[1..], t)
  }

  lemma RunCons(s: State, e: Event, es: seq<Event>, t: State)
    requires Enabled(s, e) && Run(Next(s, e), es, t)
    ensures Run(s, [e] + es, t)
  {
    assert ([e] + es)[1..] == es;
  }

  /** t is reached by some run of the broker. */
  ghost predicate Reachable(t: State) {
    exists s, es :: Init(s) && Run(s, es, t)
  }
}
