/**
 The hotels of central booking as the broker keeps them, and the rules that
 only read them: class, labels, attestation gate and free rooms.
 */
module Hotels {
  import opened Options

  /** Times and durations are whole nanoseconds, as in the broker. */
  type Time = int

  const SECOND: Time := 1_000_000_000
  const MINUTE: Time := 60 * SECOND

  /** lent_report_id of a hotel that the fail-closed room check made lent. */
  const LENT_REPORT_UNKNOWN := "unknown"

  /** Host memory use, in percent, at which a hotel takes no new rooms. */
  const DEFAULT_MEM_FULL_PCT := 90.0

  datatype HotelConfig = HotelConfig(
    id: string,
    labels: map<string, string>,
    sealed: bool,
    minerHotkey: string,
    requireAttestation: bool,
    tlsPinned: bool,
    concurrency: int,
    drain: bool,
    maxSlots: int,
    reservedFor: string,
    lentFrom: string,
    lentReportId: string)

  datatype RoomState = Running | Deleting

  /** A room in the books. reaped: booked as deleting by the reaper and not
      listed by the hotel since (a history mark, not read by any rule). */
  datatype Room = Room(
    guest: string,
    state: RoomState,
    since: Time,
    vanished: Time,
    deleteSent: bool,
    reaped: bool)

  /** The attestation state of a hotel. attestedAt is None for the zero time. */
  datatype Admission = Admission(
    attestedAt: Option<Time>,
    checkedAt: Option<Time>,
    refused: bool,
    chipFull: string,
    reportId: string)

  const NO_ADMISSION := Admission(None, None, false, "", "")

  /** A hotel that joins (before and after its chip check) or leaves takes no
      rooms. It is in the hotel set except when Dropped (a leave waits for its
      save) or Gone. */
  datatype Stage = InPlace | Joining | Checked | Leaving | Dropped | Gone

  datatype Hotel = Hotel(
    cfg: HotelConfig,
    runtime: bool,
    stage: Stage,
    sem: int,
    slots: int,
    rooms: map<string, Room>,
    queued: int,
    creating: int,
    backoffUntil: Time,
    up: bool,
    roomsUnchecked: bool,
    memPct: real,
    cpuPct: real,
    createEwma: real,
    adm: Admission)

  datatype BrokerConfig = BrokerConfig(
    hasMeasurements: bool,
    sealedAdmissionOff: bool,
    attestTtl: Time,
    memFullPct: real,
    stateDir: bool)

  predicate InSet(h: Hotel) {
    h.stage.InPlace? || h.stage.Joining? || h.stage.Checked? || h.stage.Leaving?
  }

  const DEFAULT_CONCURRENCY := 16

  /** The creates that may hold a slot of the hotel at once. */
  function Concurrency(h: Hotel): (n: int)
    ensures n >= 1
  {
    if h.cfg.concurrency <= 0 then DEFAULT_CONCURRENCY else h.cfg.concurrency
  }

  /** A hotel as it is made at a start or a join: no rooms, no creates, no health yet. */
  function NewHotel(c: HotelConfig, runtime: bool, stage: Stage, unchecked: bool): Hotel {
    Hotel(c.(labels := FixedLabels(c, c.labels)), runtime, stage, 0, 0, map[], 0, 0, 0, false, unchecked,
          0.0, 0.0, 0.0, NO_ADMISSION)
  }

  // ------------------------------------------------------------ labels, class

  /** A missing label reads as the empty string. */
  function Label(c: HotelConfig, key: string): string {
    if key in c.labels then c.labels[key] else ""
  }

  predicate SealedClass(c: HotelConfig) {
    Label(c, "sealed") == "true"
  }

  /** The labels a hotel always carries, on top of the given ones. */
  function FixedLabels(c: HotelConfig, labels: map<string, string>): (r: map<string, string>)
    ensures c.sealed ==> "sealed" in r && r["sealed"] == "true"
    ensures c.minerHotkey != "" ==>
      && "miner" in r && r["miner"] == "true"
      && "miner_hotkey" in r && r["miner_hotkey"] == c.minerHotkey
    ensures forall k :: k in labels && k !in {"sealed", "miner", "miner_hotkey"} ==> k in r && r[k] == labels[k]
    ensures forall k :: k in r && k !in {"sealed", "miner", "miner_hotkey"} ==> k in labels
  {
    var withSealed := if c.sealed then labels["sealed" := "true"] else labels;
    if c.minerHotkey == "" then withSealed
    else withSealed["miner" := "true"]["miner_hotkey" := c.minerHotkey]
  }

  /** A hotel that is sealed in the configuration has the sealed label. */
  predicate Labelled(c: HotelConfig) {
    c.sealed ==> SealedClass(c)
  }

  // ------------------------------------------------------------ admission

  predicate StrictAttestation(c: HotelConfig) {
    c.minerHotkey != "" || c.requireAttestation
  }

  predicate NeedsAttestation(b: BrokerConfig, h: Hotel) {
    StrictAttestation(h.cfg) || (h.runtime && !b.sealedAdmissionOff && SealedClass(h.cfg))
  }

  predicate Admitted(b: BrokerConfig, h: Hotel, now: Time) {
    if StrictAttestation(h.cfg) && !b.hasMeasurements then false
    else if h.cfg.minerHotkey != "" && !h.cfg.sealed then false
    else if h.cfg.minerHotkey != "" && !h.cfg.tlsPinned then false
    else if h.runtime && !h.cfg.sealed && SealedClass(h.cfg) then false
    else if !NeedsAttestation(b, h) then true
    else h.adm.attestedAt.Some? && now - h.adm.attestedAt.value < b.attestTtl
  }

  // ------------------------------------------------------------ free rooms

  function Used(h: Hotel): int {
    |h.rooms| + h.creating + h.queued
  }

  predicate MemFull(b: BrokerConfig, h: Hotel) {
    if b.memFullPct < 0.0 then false
    else h.memPct >= if b.memFullPct == 0.0 then DEFAULT_MEM_FULL_PCT else b.memFullPct
  }

  function FreeFor(b: BrokerConfig, h: Hotel): int {
    if MemFull(b, h) then 0 else h.slots - Used(h)
  }

  /** A reserved hotel whose rooms were not listed since the start. */
  predicate AwaitsRoomCheck(h: Hotel) {
    h.roomsUnchecked && h.cfg.reservedFor != ""
  }

  function AdmissibleFree(b: BrokerConfig, h: Hotel, now: Time): (n: int)
    ensures n >= 0
    ensures n > 0 ==>
      && h.up && h.stage.InPlace? && !h.cfg.drain && h.backoffUntil <= now
      && Admitted(b, h, now) && !AwaitsRoomCheck(h)
      && Used(h) + n == h.slots
  {
    if !h.up || !h.stage.InPlace? || h.cfg.drain || now < h.backoffUntil || !Admitted(b, h, now) || AwaitsRoomCheck(h) then 0
    else if FreeFor(b, h) > 0 then FreeFor(b, h)
    else 0
  }
}
