/**
 Lending a reserved sealed hotel to the pool and taking it back: the checks
 and the changes, as functions of one hotel, and the two files that keep the
 lend state over a restart.
 */
module Lend {
  import opened Options
  import opened Hotels

  datatype Refusal =
    | HotelLent | NotReserved | NotSealed | NoStateDir | ResealRequired
    | OwnerRoomsActive | RoomsActive | HotelChanged
    | Unreachable | AttestationFailed | StateWriteFailed

  /** A lend or a reclaim that a PATCH applies with its other fields. */
  datatype LendChange = LendChange(
    lend: bool, reclaim: bool, owner: string, reportId: string, lentId: string, reserve: bool)

  datatype PatchRequest = PatchRequest(
    drain: Option<bool>,
    maxSlots: Option<int>,
    labels: Option<map<string, string>>,
    reserve: Option<string>,
    lend: bool)

  /** What the attestation call before a change gave. */
  datatype Fetched = NoAnswer | BadReport | NoReportId | ReportId(id: string)

  datatype Prepared = Refuse(why: Refusal) | NoFetch(change: LendChange) | Fetch(change: LendChange)

  // ------------------------------------------------------------ busy rules

  function RoomsOf(h: Hotel, guest: string): set<string> {
    set hid | hid in h.rooms && h.rooms[hid].guest == guest
  }

  function ForeignRooms(h: Hotel, owner: string): set<string> {
    set hid | hid in h.rooms && h.rooms[hid].guest != owner
  }

  function OwnerBusy(h: Hotel, owner: string): int {
    h.creating + h.queued + |RoomsOf(h, owner)|
  }

  function BusyErr(c: LendChange, h: Hotel): Option<Refusal> {
    if c.lend then
      if OwnerBusy(h, c.owner) > 0 then Some(OwnerRoomsActive) else None
    else if c.reclaim then
      if Used(h) > 0 then Some(RoomsActive) else None
    else None
  }

  function ReserveErr(h: Hotel, owner: string): Option<Refusal> {
    if owner == "" || owner == h.cfg.reservedFor || !SealedClass(h.cfg) then None
    else if |ForeignRooms(h, owner)| + h.creating + h.queued > 0 then Some(RoomsActive)
    else None
  }

  // ------------------------------------------------------------ prepare

  /** The checks before the attestation call. reserve: Some("") is null. */
  function PrepareLend(stateDir: bool, h: Hotel, lend: bool, reserve: Option<string>): Prepared {
    var lent := h.cfg.lentFrom;
    var c := LendChange(false, false, "", "", "", reserve.Some?);
    if lend && lent != "" then Refuse(HotelLent)
    else if lend then
      var c := c.(lend := true, owner := h.cfg.reservedFor);
      if c.owner == "" then Refuse(NotReserved)
      else if !SealedClass(h.cfg) then Refuse(NotSealed)
      else if !h.runtime && !stateDir then Refuse(NoStateDir)
      else CheckBusy(c, h)
    else if reserve.Some? && lent != "" && reserve.value == "" then Refuse(HotelLent)
    else if reserve.Some? && lent != "" then
      var c := c.(reclaim := true, owner := reserve.value, lentId := h.cfg.lentReportId);
      if c.lentId == LENT_REPORT_UNKNOWN then Refuse(ResealRequired) else CheckBusy(c, h)
    else NoFetch(c)
  }

  function CheckBusy(c: LendChange, h: Hotel): Prepared {
    match BusyErr(c, h)
    case Some(e) => Refuse(e)
    case None => Fetch(c)
  }

  /** The change after the attestation call. */
  function AfterFetch(c: LendChange, f: Fetched): Prepared {
    match f
    case NoAnswer => Refuse(Unreachable)
    case BadReport => Refuse(AttestationFailed)
    case NoReportId => Refuse(AttestationFailed)
    case ReportId(id) =>
      if c.reclaim && id == c.lentId then Refuse(ResealRequired) else NoFetch(c.(reportId := id))
  }

  // ------------------------------------------------------------ apply

  /** The locked re-check. */
  function ApplyErr(c: LendChange, h: Hotel): Option<Refusal> {
    if c.lend then
      if h.cfg.lentFrom != "" || h.cfg.reservedFor != c.owner then Some(HotelChanged) else BusyErr(c, h)
    else if c.reclaim then
      if h.cfg.lentFrom == "" || h.cfg.lentReportId != c.lentId then Some(HotelChanged) else BusyErr(c, h)
    else if c.reserve && h.cfg.lentFrom != "" then Some(HotelChanged)
    else None
  }

  function ApplyLend(c: LendChange, cfg: HotelConfig): HotelConfig {
    if c.lend then cfg.(lentFrom := c.owner, lentReportId := c.reportId, reservedFor := "")
    else if c.reclaim then cfg.(lentFrom := "", lentReportId := "", reservedFor := c.owner)
    else cfg
  }

  /** The fields of an accepted PATCH. */
  function PatchFields(c: LendChange, r: PatchRequest, cfg: HotelConfig): HotelConfig {
    var a := ApplyLend(c, cfg);
    a.(drain := if r.drain.Some? then r.drain.value else a.drain,
       labels := if r.labels.Some? then FixedLabels(a, r.labels.value) else a.labels,
       maxSlots := if r.maxSlots.Some? then r.maxSlots.value else a.maxSlots,
       reservedFor := if r.reserve.Some? && !c.reclaim then r.reserve.value else a.reservedFor)
  }

  /** Why a prepared PATCH is refused under the locks, or None. */
  function PatchErr(c: LendChange, r: PatchRequest, h: Hotel): Option<Refusal> {
    if r.reserve.Some? && !c.reclaim && ReserveErr(h, r.reserve.value).Some?
    then ReserveErr(h, r.reserve.value)
    else ApplyErr(c, h)
  }

  // ------------------------------------------------------------ sync loop

  /** The fail-closed check after a room list. */
  function CheckReservedRooms(h: Hotel): Hotel {
    var owner := h.cfg.reservedFor;
    if owner == "" || !SealedClass(h.cfg) || ForeignRooms(h, owner) == {} || h.cfg.lentFrom != "" then h
    else h.(cfg := h.cfg.(lentFrom := owner, lentReportId := LENT_REPORT_UNKNOWN, reservedFor := ""))
  }

  function FillBaseline(h: Hotel, id: string): Hotel {
    if h.cfg.lentReportId == LENT_REPORT_UNKNOWN then h.(cfg := h.cfg.(lentReportId := id)) else h
  }

  // ------------------------------------------------------------ files

  datatype LendEntry = LendEntry(lentFrom: string, lentReportId: string)

  /** hotels.json (joined hotels) and hotel-lends.json (config hotels). */
  datatype Disk = Disk(hotels: map<string, HotelConfig>, lends: map<string, LendEntry>)

  function RuntimeHotels(hotels: map<string, Hotel>): map<string, HotelConfig> {
    map id | id in hotels && hotels[id].runtime && InSet(hotels[id]) :: hotels[id].cfg
  }

  /** The lent hotels of the config file, and the entries of hotels not in it. */
  function ConfigLends(hotels: map<string, Hotel>, other: map<string, LendEntry>): map<string, LendEntry> {
    other + map id | id in hotels && !hotels[id].runtime && hotels[id].cfg.lentFrom != "" ::
              LendEntry(hotels[id].cfg.lentFrom, hotels[id].cfg.lentReportId)
  }

  function SaveLendState(hotels: map<string, Hotel>, other: map<string, LendEntry>, id: string, d: Disk): Disk
    requires id in hotels
  {
    if hotels[id].runtime then d.(hotels := RuntimeHotels(hotels)) else d.(lends := ConfigLends(hotels, other))
  }

  /** A config hotel with the lend state of the file, which wins over reserved_for. */
  function WithLend(c: HotelConfig, lends: map<string, LendEntry>): HotelConfig {
    if c.id in lends
    then c.(lentFrom := lends[c.id].lentFrom, lentReportId := lends[c.id].lentReportId, reservedFor := "")
    else c
  }

  /** The hotels after a start. file: the config file; skipped: joined hotels
      whose key or TLS pin is missing; overCap: miner hotels outside the caps. */
  function LoadHotels(file: map<string, HotelConfig>, d: Disk, skipped: set<string>, overCap: set<string>): (r: map<string, Hotel>)
    requires forall id :: id in file ==> file[id].id == id
    ensures forall id :: id in r ==> JustStarted(r[id])
  {
    JoinedHotels(file, d, skipped, overCap) + ConfigHotels(file, d)
  }

  function JoinedHotels(file: map<string, HotelConfig>, d: Disk, skipped: set<string>, overCap: set<string>): (r: map<string, Hotel>)
    ensures forall id :: id in r ==> JustStarted(r[id])
  {
    map id | id in d.hotels && id !in file && id !in skipped :: StartedHotel(Drained(d.hotels[id], id in overCap), true)
  }

  function ConfigHotels(file: map<string, HotelConfig>, d: Disk): (r: map<string, Hotel>)
    ensures forall id :: id in r ==> JustStarted(r[id])
  {
    map id | id in file :: StartedHotel(WithLend(file[id], d.lends), false)
  }

  /** No create, no room and no check yet. */
  predicate JustStarted(h: Hotel) {
    && h.queued == 0 && h.creating == 0 && h.sem == 0 && h.rooms == map[] && h.slots == 0
    && h.stage.InPlace? && h.roomsUnchecked && h.adm == NO_ADMISSION
  }

  function Drained(c: HotelConfig, overCap: bool): HotelConfig {
    c.(drain := c.drain || overCap)
  }

  function StartedHotel(c: HotelConfig, runtime: bool): (r: Hotel)
    ensures JustStarted(r)
  {
    NewHotel(c, runtime, InPlace, true)
  }

  function OtherLends(file: map<string, HotelConfig>, d: Disk): map<string, LendEntry> {
    map id | id in d.lends && id !in file :: d.lends[id]
  }

  // ------------------------------------------------------------ what a state may be

  /** lent_from and lent_report_id go together, and not with reserved_for. */
  predicate LendFieldsOk(c: HotelConfig) {
    && (c.lentFrom == "" <==> c.lentReportId == "")
    && (c.lentFrom != "" ==> c.reservedFor == "")
  }

  predicate EntryOk(e: LendEntry) {
    e.lentFrom != "" && e.lentReportId != ""
  }
}
