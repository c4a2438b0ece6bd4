/**
 A sealed hotel reserved for a guest is that guest's alone, and a lent hotel
 never takes its owner back: over every run of placements, queue moves, create
 completions, PATCHes, room lists, joins, leaves, restarts and failed saves.
 */
module BookingLend {
  import opened Options
  import opened Hotels
  import opened Placement
  import opened Lend
  import opened Booking
  import opened BookingCounts
  import opened BookingFrames

  // ------------------------------------------------------------ the invariant

  /** guest may have a create on h: not a stranger on a reserved sealed hotel,
      not the owner on a hotel that was empty of them when it was lent. */
  predicate MaySit(c: HotelConfig, lentClean: bool, guest: string) {
    && (c.sealed && c.reservedFor != "" ==> guest == c.reservedFor)
    && (lentClean ==> c.lentFrom != "" && guest != c.lentFrom)
  }

  ghost predicate Seats(s: State) {
    forall h, id :: h in s.hotels && id in s.creates && Bound(s.creates[id], h) ==>
      MaySit(s.hotels[h].cfg, h in s.lentClean, s.creates[id].guest)
  }

  predicate OwnRequests(s: State) {
    forall id :: id in s.creates ==> s.creates[id].request.guest == s.creates[id].guest
  }

  predicate HotelsOk(hotels: map<string, Hotel>) {
    forall h :: h in hotels ==> hotels[h].cfg.id == h && LendFieldsOk(hotels[h].cfg) && Labelled(hotels[h].cfg)
  }

  predicate CleanOk(hotels: map<string, Hotel>, lentClean: set<string>) {
    forall h :: h in lentClean ==> h in hotels && hotels[h].cfg.lentFrom != ""
  }

  predicate EntriesOk(lends: map<string, LendEntry>) {
    forall h :: h in lends ==> EntryOk(lends[h])
  }

  predicate ConfigsOk(hotels: map<string, HotelConfig>) {
    forall h :: h in hotels ==> hotels[h].id == h && LendFieldsOk(hotels[h])
  }

  /** The lend fields of every hotel and of both files. */
  predicate FieldsOk(s: State) {
    && HotelsOk(s.hotels) && CleanOk(s.hotels, s.lentClean)
    && ConfigsOk(s.disk.hotels) && EntriesOk(s.disk.lends) && EntriesOk(s.otherLends)
  }

  /** What the check before the attestation call, and the call, established. */
  predicate ChangeOk(p: Patch) {
    && p.change.reserve == p.request.reserve.Some?
    && !(p.change.lend && p.change.reclaim)
    && (p.change.lend ==> p.change.owner != "" && p.request.reserve.None?)
    && (p.change.reclaim ==> p.change.owner != "" && p.change.lentId != LENT_REPORT_UNKNOWN)
    && (!p.fetching && (p.change.lend || p.change.reclaim) ==> IsReportId(p.change.reportId))
    && (!p.fetching && p.change.reclaim ==> p.change.reportId != p.change.lentId)
  }

  predicate PatchOk(s: State) {
    s.patch.Some? ==> ChangeOk(s.patch.value)
  }

  /** The rooms in the books of a reserved sealed hotel are the owner's,
      except those the reaper booked while it deletes them. */
  predicate OwnRooms(h: Hotel) {
    h.cfg.sealed && h.cfg.reservedFor != "" && !h.roomsUnchecked ==>
      forall hid :: hid in h.rooms ==> h.rooms[hid].guest == h.cfg.reservedFor || h.rooms[hid].reaped
  }

  predicate AllOwnRooms(s: State) {
    forall h :: h in s.hotels ==> OwnRooms(s.hotels[h])
  }

  // ------------------------------------------------------------ seats

  /** A step that seats no create anew keeps the seats. */
  lemma SeatsKept(s: State, t: State, id: nat)
    requires Seats(s) && CreateFrame(s, id, t)
    requires forall h :: Bound(t.creates[id], h) ==> id in s.creates && Bound(s.creates[id], h)
    ensures Seats(t)
  {
    forall h, i | h in t.hotels && i in t.creates && Bound(t.creates[i], h)
      ensures MaySit(t.hotels[h].cfg, h in t.lentClean, t.creates[i].guest)
    {
      assert i in s.creates && Bound(s.creates[i], h);
      assert SameHotel(s.hotels[h], t.hotels[h]);
    }
  }

  /** A picked hotel seats the create. */
  lemma SeatsPicked(s: State, t: State, id: nat, to: string, exclude: set<string>, r: Request)
    requires Seats(s) && CreateFrame(s, id, t) && id in s.creates
    requires forall h :: h in s.lentClean ==> h in s.hotels && s.hotels[h].cfg.lentFrom != ""
    requires MayPick(s.cfg, s.hotels, exclude, r, s.now, to) && r.guest == s.creates[id].guest
    requires t.creates[id].phase == Queued(to)
    ensures Seats(t)
  {
    PickedTakes(s.cfg, s.hotels, exclude, r, s.now, to);
    forall h, i | h in t.hotels && i in t.creates && Bound(t.creates[i], h)
      ensures MaySit(t.hotels[h].cfg, h in t.lentClean, t.creates[i].guest)
    {
      assert SameHotel(s.hotels[h], t.hotels[h]);
      if i != id {
        assert Bound(s.creates[i], h);
      }
    }
  }

  lemma MoveSeats(s: State, id: nat, to: string)
    requires Seats(s) && FieldsOk(s) && OwnRequests(s) && CanMove(s, id, to)
    ensures Seats(ApplyMove(s, id, to))
  {
    var c := s.creates[id];
    MoveFramed(s, id, to);
    SeatsPicked(s, ApplyMove(s, id, to), id, to, {c.phase.hotel}, MoveRequest(c.request, s.hotels[c.phase.hotel].cfg));
  }

  lemma PlaceSeats(s: State, id: nat, to: string)
    requires Seats(s) && FieldsOk(s) && OwnRequests(s) && CanPlace(s, id, to)
    ensures Seats(ApplyPlace(s, id, to, PickRequest(s, s.creates[id])))
  {
    var c := s.creates[id];
    CreateFramed(s, id, PlaceOn(to));
    SeatsPicked(s, CreateEffect(s, id, PlaceOn(to)), id, to, c.tried, PickRequest(s, c));
  }

  lemma ArriveSeats(s: State, id: nat, e: CreateEvent)
    requires Seats(s) && CreateEnabled(s, id, e) && e.Arrive?
    ensures Seats(CreateEffect(s, id, e))
  {
    CreateFramed(s, id, e);
    SeatsKept(s, CreateEffect(s, id, e), id);
  }

  lemma KeptSeats(s: State, id: nat, e: CreateEvent)
    requires Seats(s) && CreateEnabled(s, id, e) && !e.Arrive? && !e.PlaceOn? && !e.Move?
    ensures Seats(CreateEffect(s, id, e))
  {
    CreateFramed(s, id, e);
    StepKeepsSeat(s, id, e);
    SeatsKept(s, CreateEffect(s, id, e), id);
  }

  lemma CreateSeats(s: State, id: nat, e: CreateEvent)
    requires Seats(s) && FieldsOk(s) && OwnRequests(s) && CreateEnabled(s, id, e)
    ensures Seats(CreateEffect(s, id, e))
  {
    if e.PlaceOn? {
      PlaceSeats(s, id, e.hotel);
    } else if e.Move? {
      MoveSeats(s, id, e.to);
    } else if e.Arrive? {
      ArriveSeats(s, id, e);
    } else {
      KeptSeats(s, id, e);
    }
  }

  lemma RequestsKept(s: State, t: State, id: nat)
    requires OwnRequests(s) && CreateFrame(s, id, t)
    requires t.creates[id].request.guest == t.creates[id].guest
    ensures OwnRequests(t)
  {
  }

  lemma PlaceRequests(s: State, id: nat, to: string, r: Request)
    requires OwnRequests(s) && On(s, id, to) && r.guest == s.creates[id].guest
    ensures OwnRequests(ApplyPlace(s, id, to, r))
  {
  }

  lemma PickRequestGuest(s: State, c: Create)
    ensures PickRequest(s, c).guest == c.request.guest
  {
  }

  lemma ArriveRequests(s: State, id: nat, e: CreateEvent)
    requires OwnRequests(s) && CreateEnabled(s, id, e) && e.Arrive?
    ensures OwnRequests(CreateEffect(s, id, e))
  {
    CreateFramed(s, id, e);
    RequestsKept(s, CreateEffect(s, id, e), id);
  }

  lemma KeptRequests(s: State, id: nat, e: CreateEvent)
    requires OwnRequests(s) && CreateEnabled(s, id, e) && !e.Arrive? && !e.PlaceOn? && !e.Move?
    ensures OwnRequests(CreateEffect(s, id, e))
  {
    CreateFramed(s, id, e);
    StepKeepsSeat(s, id, e);
    RequestsKept(s, CreateEffect(s, id, e), id);
  }

  lemma CreateRequests(s: State, id: nat, e: CreateEvent)
    requires OwnRequests(s) && CreateEnabled(s, id, e)
    ensures OwnRequests(CreateEffect(s, id, e))
  {
    match e
    case PlaceOn(to) =>
      PickRequestGuest(s, s.creates[id]);
      PlaceRequests(s, id, to, PickRequest(s, s.creates[id]));
    case Move(to) =>
      MoveFramed(s, id, to);
      RequestsKept(s, ApplyMove(s, id, to), id);
    case Arrive(_, _, _, _, _) => ArriveRequests(s, id, e);
    case _ => KeptRequests(s, id, e);
  }

  // ------------------------------------------------------------ hotel events

  /** The fail-closed check made c lent from its owner. */
  predicate Forced(c: HotelConfig, r: HotelConfig) {
    && c.lentFrom == "" && c.reservedFor != ""
    && r == c.(lentFrom := c.reservedFor, lentReportId := LENT_REPORT_UNKNOWN, reservedFor := "")
  }

  /** Of the lend fields, a hotel event changes none, all by the fail-closed
      check, or an unknown baseline. */
  lemma HotelConfigs(s: State, h: string, e: HotelEvent)
    requires h in s.hotels && HotelEnabled(s, h, e)
    ensures var c, r := s.hotels[h].cfg, HotelEffect(s, h, e).cfg;
      || r == c
      || (e.RoomList? && Forced(c, r))
      || (e.Baseline? && c.lentReportId == LENT_REPORT_UNKNOWN && r == c.(lentReportId := e.reportId) && IsReportId(e.reportId))
  {
  }

  lemma HotelSeats(s: State, h: string, e: HotelEvent)
    requires Seats(s) && FieldsOk(s) && h in s.hotels && HotelEnabled(s, h, e)
    ensures Seats(WithHotel(s, h, HotelEffect(s, h, e)))
  {
    var r := HotelEffect(s, h, e);
    HotelConfigs(s, h, e);
    SeatsHotel(s, h, r);
  }

  /** A hotel that is given back to the pool, or keeps its reservation and its
      lend, keeps the seats. */
  lemma SeatsHotel(s: State, h: string, r: Hotel)
    requires Seats(s) && h in s.hotels && r.cfg.sealed == s.hotels[h].cfg.sealed
    requires r.cfg.reservedFor == "" || r.cfg.reservedFor == s.hotels[h].cfg.reservedFor
    requires h in s.lentClean ==> r.cfg.lentFrom == s.hotels[h].cfg.lentFrom
    ensures Seats(WithHotel(s, h, r))
  {
    var t := WithHotel(s, h, r);
    forall x, i | x in t.hotels && i in t.creates && Bound(t.creates[i], x)
      ensures MaySit(t.hotels[x].cfg, x in t.lentClean, t.creates[i].guest)
    {
      assert MaySit(s.hotels[x].cfg, x in s.lentClean, s.creates[i].guest);
    }
  }

  lemma HotelFields(s: State, h: string, e: HotelEvent)
    requires FieldsOk(s) && h in s.hotels && HotelEnabled(s, h, e)
    ensures FieldsOk(WithHotel(s, h, HotelEffect(s, h, e)))
  {
    HotelConfigs(s, h, e);
    FieldsHotel(s, h, HotelEffect(s, h, e));
  }

  lemma FieldsHotel(s: State, h: string, r: Hotel)
    requires FieldsOk(s) && h in s.hotels
    requires r.cfg.id == h && LendFieldsOk(r.cfg) && Labelled(r.cfg)
    requires h in s.lentClean ==> r.cfg.lentFrom != ""
    ensures FieldsOk(WithHotel(s, h, r))
  {
  }

  // ------------------------------------------------------------ rooms

  lemma RoomsHotel(s: State, h: string, r: Hotel)
    requires AllOwnRooms(s) && OwnRooms(r)
    ensures AllOwnRooms(WithHotel(s, h, r))
  {
  }

  /** After the fail-closed check, a hotel that is still reserved has only
      its owner's rooms. */
  lemma CheckedOwnRooms(h: Hotel)
    requires Labelled(h.cfg) && LendFieldsOk(h.cfg)
    ensures OwnRooms(CheckReservedRooms(h).(roomsUnchecked := false))
  {
    var owner := h.cfg.reservedFor;
    if owner != "" && h.cfg.sealed && ForeignRooms(h, owner) == {} {
      forall hid | hid in h.rooms
        ensures h.rooms[hid].guest == owner
      {
        assert hid !in ForeignRooms(h, owner);
      }
    }
  }

  lemma ListedOwnRooms(h: Hotel, listed: map<string, string>, released: set<string>, now: Time)
    requires Labelled(h.cfg) && LendFieldsOk(h.cfg)
    ensures OwnRooms(ApplyRoomList(h, listed, released, now))
  {
    var l := Listing(h, listed, now);
    CheckedOwnRooms(l.(rooms := l.rooms - released));
  }

  lemma HealthOwnRooms(s: State, h: string, e: HotelEvent)
    requires h in s.hotels && OwnRooms(s.hotels[h]) && HotelEnabled(s, h, e) && !e.RoomList? && !e.DeleteRoom?
    ensures OwnRooms(HotelEffect(s, h, e))
  {
  }

  lemma DeletedOwnRooms(h: Hotel, hid: string, now: Time)
    requires hid in h.rooms && OwnRooms(h)
    ensures OwnRooms(ApplyDeleteRoom(h, hid, now))
  {
  }

  lemma HotelRooms(s: State, h: string, e: HotelEvent)
    requires AllOwnRooms(s) && FieldsOk(s) && h in s.hotels && HotelEnabled(s, h, e)
    ensures AllOwnRooms(WithHotel(s, h, HotelEffect(s, h, e)))
  {
    match e {
      case RoomList(listed, released) => ListedOwnRooms(s.hotels[h], listed, released, s.now);
      case DeleteRoom(hid) => DeletedOwnRooms(s.hotels[h], hid, s.now);
      case _ => HealthOwnRooms(s, h, e);
    }
    RoomsHotel(s, h, HotelEffect(s, h, e));
  }

  lemma SettledOwnRooms(h: Hotel, c: Create, a: Answer, reap: bool, now: Time)
    requires OwnRooms(h) && (h.cfg.sealed && h.cfg.reservedFor != "" ==> c.guest == h.cfg.reservedFor)
    ensures OwnRooms(SettledHotel(h, c, a, reap, now))
  {
  }

  lemma SettleRooms(s: State, id: nat, doomed: bool)
    requires AllOwnRooms(s) && Seats(s) && CanSettle(s, id)
    ensures AllOwnRooms(ApplySettle(s, id, doomed))
  {
    var c := s.creates[id];
    var h := c.phase.hotel;
    assert Bound(c, h);
    SettledOwnRooms(s.hotels[h], c, c.phase.answer, MustReap(c, c.phase.answer, doomed), s.now);
    RoomsHotel(s, h, SettledHotel(s.hotels[h], c, c.phase.answer, MustReap(c, c.phase.answer, doomed), s.now));
  }

  lemma BookReapedRooms(s: State, id: nat)
    requires AllOwnRooms(s) && CanBookReaped(s, id)
    ensures AllOwnRooms(ApplyBookReaped(s, id))
  {
    var h := s.creates[id].phase.hotel;
    var r := ApplyBookReaped(s, id).hotels[h];
    assert OwnRooms(s.hotels[h]);
    RoomsHotel(s, h, r);
  }

  /** A step that changes no room keeps the rooms. */
  lemma RoomsSame(s: State, t: State)
    requires AllOwnRooms(s) && t.hotels.Keys == s.hotels.Keys
    requires forall h :: h in s.hotels ==> SameHotel(s.hotels[h], t.hotels[h]) && t.hotels[h].rooms == s.hotels[h].rooms
    ensures AllOwnRooms(t)
  {
    forall h | h in t.hotels
      ensures OwnRooms(t.hotels[h])
    {
      assert OwnRooms(s.hotels[h]) && SameHotel(s.hotels[h], t.hotels[h]);
    }
  }

  predicate RoomsFrame(s: State, t: State) {
    forall h :: h in s.hotels ==> h in t.hotels && t.hotels[h].rooms == s.hotels[h].rooms
  }

  lemma DeskRooms(s: State, id: nat, e: CreateEvent)
    requires CreateEnabled(s, id, e) && (e.Arrive? || e.GiveUp? || e.Unreserve? || e.GuestGone?)
    ensures RoomsFrame(s, CreateEffect(s, id, e))
  {
  }

  lemma PlaceRooms(s: State, id: nat, to: string, r: Request)
    requires On(s, id, to)
    ensures RoomsFrame(s, ApplyPlace(s, id, to, r))
  {
  }

  lemma MoveRooms(s: State, id: nat, to: string)
    requires InQueue(s, id) && to in s.hotels
    ensures RoomsFrame(s, ApplyMove(s, id, to))
  {
  }

  lemma SlotRooms(s: State, id: nat, e: CreateEvent)
    requires CreateEnabled(s, id, e)
    requires e.TakeSlot? || e.Abandon? || e.ReturnSlot? || e.Dispatch? || e.HotelAnswers?
    ensures RoomsFrame(s, CreateEffect(s, id, e))
  {
  }

  lemma RecheckRooms(s: State, id: nat, turnedAway: bool, doomed: bool)
    requires CanRecheck(s, id)
    ensures RoomsFrame(s, ApplyRecheck(s, id, turnedAway, doomed))
  {
  }

  lemma RoomsFramed(s: State, id: nat, e: CreateEvent)
    requires CreateEnabled(s, id, e) && !e.Settle? && !e.BookReaped?
    ensures RoomsFrame(s, CreateEffect(s, id, e))
  {
    match e
    case Arrive(_, _, _, _, _) => DeskRooms(s, id, e);
    case GiveUp => DeskRooms(s, id, e);
    case Unreserve => DeskRooms(s, id, e);
    case GuestGone => DeskRooms(s, id, e);
    case PlaceOn(to) => PlaceRooms(s, id, to, PickRequest(s, s.creates[id]));
    case Move(to) => MoveRooms(s, id, to);
    case Recheck => RecheckRooms(s, id, TurnedAway(s, s.creates[id].phase.hotel), Doomed(s, s.creates[id]));
    case _ => SlotRooms(s, id, e);
  }

  lemma KeptRooms(s: State, id: nat, e: CreateEvent)
    requires AllOwnRooms(s) && CreateEnabled(s, id, e) && !e.Settle? && !e.BookReaped?
    ensures AllOwnRooms(CreateEffect(s, id, e))
  {
    CreateFramed(s, id, e);
    RoomsFramed(s, id, e);
    RoomsSame(s, CreateEffect(s, id, e));
  }

  lemma CreateRooms(s: State, id: nat, e: CreateEvent)
    requires AllOwnRooms(s) && Seats(s) && CreateEnabled(s, id, e)
    ensures AllOwnRooms(CreateEffect(s, id, e))
  {
    match e
    case Settle => SettleRooms(s, id, Doomed(s, s.creates[id]));
    case BookReaped => BookReapedRooms(s, id);
    case _ => KeptRooms(s, id, e);
  }

  // ------------------------------------------------------------ patch

  /** A hotel with no create bound to it may get any reservation and lend. */
  lemma SeatsEmpty(s: State, h: string, r: Hotel, lentClean: set<string>)
    requires Seats(s) && h in s.hotels
    requires forall id :: id in s.creates ==> !Bound(s.creates[id], h)
    requires forall x :: x != h ==> (x in lentClean <==> x in s.lentClean)
    ensures Seats(WithHotel(s, h, r).(lentClean := lentClean))
  {
    var t := WithHotel(s, h, r).(lentClean := lentClean);
    forall x, i | x in t.hotels && i in t.creates && Bound(t.creates[i], x)
      ensures MaySit(t.hotels[x].cfg, x in t.lentClean, t.creates[i].guest)
    {
      assert x != h;
      assert MaySit(s.hotels[x].cfg, x in s.lentClean, s.creates[i].guest);
    }
  }

  /** An accepted lend or reclaim found no create on the hotel; an accepted
      new reservation of a sealed hotel neither. */
  lemma AcceptedFindsNone(s: State, p: Patch, h: Hotel)
    requires Balanced(s) && p.id in s.hotels && h == s.hotels[p.id]
    requires PatchErr(p.change, p.request, h).None? && ChangeOk(p) && Labelled(h.cfg)
    ensures p.change.lend || p.change.reclaim || ReservesAnew(p, h.cfg) ==>
              forall id :: id in s.creates ==> !Bound(s.creates[id], p.id)
    ensures p.change.reclaim ==> h.rooms == map[]
    ensures ReservesAnew(p, h.cfg) ==> forall hid :: hid in h.rooms ==> h.rooms[hid].guest == p.request.reserve.value
  {
    NoneBound(s, p.id);
    if ReservesAnew(p, h.cfg) {
      forall hid | hid in h.rooms
        ensures h.rooms[hid].guest == p.request.reserve.value
      {
        assert hid !in ForeignRooms(h, p.request.reserve.value);
      }
    }
  }

  predicate ReservesAnew(p: Patch, c: HotelConfig) {
    && !p.change.reclaim && p.request.reserve.Some? && p.request.reserve.value != ""
    && p.request.reserve.value != c.reservedFor && c.sealed
  }

  lemma PatchedSeats(s: State, p: Patch, lentClean: set<string>)
    requires Seats(s) && Balanced(s) && FieldsOk(s) && p.id in s.hotels && ChangeOk(p)
    requires PatchErr(p.change, p.request, s.hotels[p.id]).None?
    requires lentClean == if p.change.lend then s.lentClean + {p.id}
                          else if p.change.reclaim then s.lentClean - {p.id} else s.lentClean
    ensures Seats(WithHotel(s, p.id, PatchedHotel(p, s.hotels[p.id])).(lentClean := lentClean))
  {
    var h := s.hotels[p.id];
    var r := PatchedHotel(p, h);
    AcceptedFindsNone(s, p, h);
    if p.change.lend || p.change.reclaim || ReservesAnew(p, h.cfg) {
      SeatsEmpty(s, p.id, r, lentClean);
    } else if h.cfg.sealed {
      SeatsHotel(s, p.id, r);
    } else {
      SeatsUnsealed(s, p.id, r);
    }
  }

  lemma SeatsUnsealed(s: State, h: string, r: Hotel)
    requires Seats(s) && h in s.hotels && !r.cfg.sealed && r.cfg.lentFrom == s.hotels[h].cfg.lentFrom
    ensures Seats(WithHotel(s, h, r))
  {
    var t := WithHotel(s, h, r);
    forall x, i | x in t.hotels && i in t.creates && Bound(t.creates[i], x)
      ensures MaySit(t.hotels[x].cfg, x in t.lentClean, t.creates[i].guest)
    {
      assert MaySit(s.hotels[x].cfg, x in s.lentClean, s.creates[i].guest);
    }
  }

  lemma PatchedOwnRooms(s: State, p: Patch)
    requires Balanced(s) && FieldsOk(s) && p.id in s.hotels && ChangeOk(p) && OwnRooms(s.hotels[p.id])
    requires PatchErr(p.change, p.request, s.hotels[p.id]).None?
    ensures OwnRooms(PatchedHotel(p, s.hotels[p.id]))
  {
    AcceptedFindsNone(s, p, s.hotels[p.id]);
  }

  lemma PatchedFields(h: Hotel, p: Patch)
    requires LendFieldsOk(h.cfg) && Labelled(h.cfg) && ChangeOk(p)
    requires PatchErr(p.change, p.request, h).None? && !p.fetching
    ensures LendFieldsOk(PatchedHotel(p, h).cfg) && Labelled(PatchedHotel(p, h).cfg)
    ensures p.change.lend ==> PatchedHotel(p, h).cfg.lentFrom != ""
    ensures !p.change.lend && !p.change.reclaim ==> PatchedHotel(p, h).cfg.lentFrom == h.cfg.lentFrom
  {
  }
}
