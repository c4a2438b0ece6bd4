/**
 Where a create may go: selectors, guest policies and reservations. Two
 definitions in the broker say which hotels a guest reaches: Selects, used by
 the placer, and TierOf, used by the catalog and by hotel lists.
 */
module Placement {
  import opened Options
  import opened Hotels

  datatype Selector = Selector(roomClass: string, hotel: string, pairs: map<string, string>)

  datatype GuestPolicy = GuestPolicy(prefer: seq<Selector>, allow: seq<Selector>, deny: seq<Selector>)

  datatype Tier = Unreached | Prefer | Allow | Listed

  datatype GuestLimits = GuestLimits(
    maxRooms: int,
    maxCreatesPerMinute: int,
    defaultSealed: bool,
    hotels: seq<string>,
    policy: Option<GuestPolicy>)

  /** What a create asks for. An empty set, map or string asks for nothing. */
  datatype Request = Request(
    ids: set<string>,
    labels: map<string, string>,
    exclude: map<string, string>,
    only: Option<string>,
    allowed: set<string>,
    images: set<string>,
    prefer: bool,
    roomClass: string,
    policy: Option<GuestPolicy>,
    tier: Option<Tier>,
    guest: string,
    noLent: bool)

  function ClassName(c: HotelConfig): string {
    if SealedClass(c) then "sealed" else "unsealed"
  }

  predicate Matches(s: Selector, c: HotelConfig) {
    if s.roomClass != "" then ClassName(c) == s.roomClass
    else if s.hotel != "" then c.id == s.hotel
    else if s.pairs != map[] then forall k :: k in s.pairs ==> Label(c, k) == s.pairs[k]
    else false
  }

  predicate AnyMatch(list: seq<Selector>, c: HotelConfig) {
    exists s :: s in list && Matches(s, c)
  }

  predicate NamesMiners(s: Selector) {
    "miner" in s.pairs && s.pairs["miner"] == "true"
  }

  predicate MinerOptIn(p: Option<GuestPolicy>, c: HotelConfig) {
    p.Some? && exists s :: s in p.value.prefer + p.value.allow && NamesMiners(s) && Matches(s, c)
  }

  /** The tier of a policy; deny wins. */
  function PolicyTier(p: GuestPolicy, c: HotelConfig): Tier {
    if c.minerHotkey != "" && !MinerOptIn(Some(p), c) then Unreached
    else if AnyMatch(p.deny, c) then Unreached
    else if AnyMatch(p.prefer, c) then Prefer
    else if AnyMatch(p.allow, c) then Allow
    else Unreached
  }

  // ------------------------------------------------------------ the placer

  predicate Selects(r: Request, c: HotelConfig) {
    if c.minerHotkey != "" && !MinerOptIn(r.policy, c) then false
    else if r.allowed != {} && c.id !in r.allowed then false
    else if r.ids != {} && c.id !in r.ids then false
    else if r.images != {} && c.id !in r.images then false
    else if c.reservedFor != "" && c.reservedFor != r.guest then false
    else if c.lentFrom != "" && (c.lentFrom == r.guest || r.noLent) then false
    else if r.policy.Some? && !TierFits(r, PolicyTier(r.policy.value, c)) then false
    else if r.roomClass == "sealed" && !SealedClass(c) then false
    else if r.roomClass == "unsealed" && SealedClass(c) then false
    else if c.sealed && r.ids == {} && !AsksSealed(r) && r.roomClass != "sealed" && r.policy.None? then false
    else
      && (forall k :: k in r.labels ==> Label(c, k) == r.labels[k])
      && (forall k :: k in r.exclude ==> Label(c, k) != r.exclude[k])
  }

  predicate TierFits(r: Request, t: Tier) {
    t != Unreached && (r.tier.Some? ==> t == r.tier.value)
  }

  predicate AsksSealed(r: Request) {
    "sealed" in r.labels && r.labels["sealed"] == "true"
  }

  predicate Allows(r: Request, c: HotelConfig) {
    (r.only.Some? ==> r.only.value == c.id) && Selects(r, c)
  }

  // ------------------------------------------------------------ the catalog

  function LimitsTierOf(l: GuestLimits, c: HotelConfig): Tier {
    if c.minerHotkey != "" && !MinerOptIn(l.policy, c) then Unreached
    else if l.policy.Some? then PolicyTier(l.policy.value, c)
    else if l.hotels == [] || c.id in l.hotels then Listed
    else Unreached
  }

  function TierOf(guest: string, l: GuestLimits, c: HotelConfig): Tier {
    if c.reservedFor != "" && c.reservedFor != guest then Unreached
    else if c.lentFrom == guest then Unreached
    else LimitsTierOf(l, c)
  }

  // ------------------------------------------------------------ scope

  /** Puts the guest's own rules on a parsed request. named: it names hotels;
      sealedField: it has a "sealed" field. */
  function Scope(guest: string, l: GuestLimits, r: Request, named: bool, sealedField: bool): Request {
    if l.policy.Some? then r.(guest := guest, policy := l.policy)
    else
      var own := r.(guest := guest, allowed := if l.hotels == [] then r.allowed else set id | id in l.hotels);
      if l.defaultSealed && !named && !sealedField && Blank(own.labels) && Blank(own.exclude)
      then own.(labels := own.labels["sealed" := "true"])
      else own
  }

  predicate Blank(m: map<string, string>) {
    "sealed" !in m || m["sealed"] == ""
  }

  /** A request as parsed, before the guest's rules are applied. */
  predicate Parsed(r: Request) {
    r.allowed == {} && r.policy.None? && r.tier.None? && r.roomClass == ""
  }

  /** A request that carries the rules of this guest. */
  predicate ScopedFor(r: Request, guest: string, l: GuestLimits) {
    && r.guest == guest
    && r.policy == l.policy
    && (l.policy.None? ==> r.allowed == set id | id in l.hotels)
  }

  /** "placement": "prefer" when the named hotels are down or full: any hotel
      of their common class, under the same other rules. */
  function FallbackFor(hotels: map<string, Hotel>, r: Request): (fb: Option<Request>)
    ensures fb.Some? ==>
      && fb.value.guest == r.guest && fb.value.policy == r.policy && fb.value.allowed == r.allowed
      && fb.value.tier == r.tier && fb.value.ids == {} && r.ids != {} && r.ids <= hotels.Keys
      && (fb.value.roomClass == "sealed" || fb.value.roomClass == "unsealed")
      && forall id :: id in r.ids ==> (SealedClass(hotels[id].cfg) <==> fb.value.roomClass == "sealed")
  {
    if !r.prefer || r.ids == {} || r.only.Some? then None
    else if exists id :: id in r.ids && (id !in hotels || !InSet(hotels[id])) then None
    else
      var sealed := set id | id in r.ids && SealedClass(hotels[id].cfg);
      assert forall id :: id in r.ids ==> (id in sealed <==> SealedClass(hotels[id].cfg));
      if sealed != {} && sealed != r.ids then None
      else if sealed == r.ids && r.allowed == {} && r.policy.None? then None
      else Some(r.(ids := {}, roomClass := if sealed == r.ids then "sealed" else "unsealed"))
  }

  // ------------------------------------------------------------ agreement

  lemma ScopeGives(guest: string, l: GuestLimits, r: Request, named: bool, sealedField: bool)
    requires Parsed(r)
    ensures ScopedFor(Scope(guest, l, r, named, sealedField), guest, l)
  {
  }

  /** Whatever the placer selects, the catalog shows, in the tier asked for. */
  lemma SelectedIsReached(r: Request, guest: string, l: GuestLimits, c: HotelConfig)
    requires guest != ""
    requires ScopedFor(r, guest, l)
    requires Selects(r, c)
    ensures TierOf(guest, l, c) != Unreached
    ensures r.tier.Some? && r.policy.Some? ==> TierOf(guest, l, c) == r.tier.value
  {
    if l.policy.None? && l.hotels != [] {
      assert l.hotels[0] in r.allowed;
    }
  }

  /** The same for every request that was parsed and then scoped. */
  lemma ScopedIsReached(guest: string, l: GuestLimits, r: Request, named: bool, sealedField: bool, c: HotelConfig)
    requires guest != "" && Parsed(r) && Selects(Scope(guest, l, r, named, sealedField), c)
    ensures TierOf(guest, l, c) != Unreached
  {
    ScopeGives(guest, l, r, named, sealedField);
    SelectedIsReached(Scope(guest, l, r, named, sealedField), guest, l, c);
  }

  // ------------------------------------------------------------ pick

  predicate Eligible(b: BrokerConfig, hotels: map<string, Hotel>, exclude: set<string>, r: Request, now: Time, id: string) {
    && id in hotels
    && id !in exclude
    && Allows(r, hotels[id].cfg)
    && AdmissibleFree(b, hotels[id], now) > 0
  }

  predicate AnyEligible(b: BrokerConfig, hotels: map<string, Hotel>, exclude: set<string>, r: Request, now: Time) {
    exists id :: id in hotels && Eligible(b, hotels, exclude, r, now, id)
  }

  /** The hotels a pick may return: with a policy and no tier set, the
      preferred hotels, and the allowed ones only when no preferred hotel is
      eligible. */
  predicate MayPick(b: BrokerConfig, hotels: map<string, Hotel>, exclude: set<string>, r: Request, now: Time, id: string) {
    if r.policy.Some? && r.tier.None? then
      if AnyEligible(b, hotels, exclude, r.(tier := Some(Prefer)), now)
      then Eligible(b, hotels, exclude, r.(tier := Some(Prefer)), now, id)
      else Eligible(b, hotels, exclude, r.(tier := Some(Allow)), now, id)
    else Eligible(b, hotels, exclude, r, now, id)
  }

  predicate PickFails(b: BrokerConfig, hotels: map<string, Hotel>, exclude: set<string>, r: Request, now: Time) {
    forall id :: id in hotels ==> !MayPick(b, hotels, exclude, r, now, id)
  }

  /** A picked hotel takes the create: it is not reserved for another guest,
      not lent from this one, and has a free room. */
  lemma PickedTakes(b: BrokerConfig, hotels: map<string, Hotel>, exclude: set<string>, r: Request, now: Time, id: string)
    requires MayPick(b, hotels, exclude, r, now, id)
    ensures id in hotels && id !in exclude
    ensures hotels[id].cfg.reservedFor == "" || hotels[id].cfg.reservedFor == r.guest
    ensures hotels[id].cfg.lentFrom == "" || hotels[id].cfg.lentFrom != r.guest
    ensures Used(hotels[id]) < hotels[id].slots
    ensures hotels[id].stage.InPlace? && !AwaitsRoomCheck(hotels[id]) && Admitted(b, hotels[id], now)
  {
  }
}
