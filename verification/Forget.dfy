/**
 Forgetting the rooms of a dead miner hotel, next to the save loop of the client
 state. Every event is one hold of a lock or one file replacement, so a crash
 may come between any two events. Writes may fail. One save of the client state
 runs at a time, from its snapshot to its write.
 */
module Forget {
  import opened Options
  import opened Hotels

  const STATE_KEEP: Time := 48 * 60 * MINUTE
  const FORGET_DOWN_FOR: Time := 10 * MINUTE

  /** Deleted rooms that their clients may still ask for: client id to time. */
  type Tombs = map<string, Time>

  datatype Saver = Loop | Forgetter | Undoer

  /** The holder of the save lock: before or after its snapshot. */
  datatype Save = NoSave | Locked(who: Saver) | Snapped(who: Saver, tombs: Tombs)

  /** Where the forget is. Marked to Undone are under way. */
  datatype Step = Idle | Marked | Tombed | NotKept | Kept | Dropped | MustUndo | Undone | Removed | Over | Refused

  /** What decides whether a forget may start. */
  datatype Condition = Condition(miner: bool, drained: bool, up: bool, downSince: Option<Time>, lastAnswer: Time, busy: int)

  /** One hotel. rooms: its rooms and their client ids ("": none); ids: the
      client ids of all rooms; listed: hotels.json lists the hotel; file: the
      tombstones in client-state.json. captured and at: the client ids of the
      last forget and the time of their tombstones. */
  datatype State = State(
    now: Time,
    inSet: bool,
    leaving: bool,
    rooms: map<string, string>,
    ids: set<string>,
    tombs: Tombs,
    dirty: bool,
    save: Save,
    listed: bool,
    file: Tombs,
    step: Step,
    captured: set<string>,
    at: Time)

  datatype Event =
    | Tick(elapsed: Time)
    | Adopt(room: string, uuid: string)
    | FreeRoom(room: string)
    | ClientDelete(uuid: string)
    | LoopLock
    | Snap
    | Write(ok: bool)
    | Begin(condition: Condition)
    | OldGuestAnswers
    | SetTombs
    | ForgetLock
    | GiveUp
    | Drop
    | DropRefused
    | SaveHotels(ok: bool)
    | ClearTombs
    | UndoLock
    | ReleaseRooms
    | Restart

  // ------------------------------------------------------------ functions

  predicate MayForget(c: Condition, now: Time) {
    && c.miner && c.drained && !c.up && c.downSince.Some?
    && c.lastAnswer <= c.downSince.value
    && now - c.downSince.value >= FORGET_DOWN_FOR
    && c.busy <= 0
  }

  function ClientIds(rooms: map<string, string>): set<string> {
    (set room | room in rooms :: rooms[room]) - {""}
  }

  function WithTombs(tombs: Tombs, gone: set<string>, at: Time): Tombs {
    tombs + map u | u in gone :: at
  }

  function LiveTombs(tombs: Tombs, now: Time): Tombs {
    map u | u in tombs && now - tombs[u] <= STATE_KEEP :: tombs[u]
  }

  // ------------------------------------------------------------ steps

  predicate Enabled(s: State, e: Event) {
    match e
    case Tick(d) => d >= 0
    case Adopt(room, u) => s.inSet && room !in s.rooms && u !in s.ids
    case FreeRoom(room) => room in s.rooms
    case ClientDelete(u) => true
    case LoopLock => s.dirty && s.save.NoSave?
    case Snap => s.save.Locked?
    case Write(ok) => s.save.Snapped?
    case Begin(c) => (s.step.Idle? || s.step.Refused?) && s.inSet && !s.leaving && MayForget(c, s.now)
    case OldGuestAnswers => s.step.Marked?
    case SetTombs => s.step.Marked?
    case ForgetLock => s.step.Tombed? && s.save.NoSave?
    case GiveUp => s.step.NotKept?
    case Drop => s.step.Kept? && s.inSet
    case DropRefused => s.step.Kept?
    case SaveHotels(ok) => s.step.Dropped?
    case ClearTombs => s.step.MustUndo?
    case UndoLock => s.step.Undone? && s.save.NoSave?
    case ReleaseRooms => s.step.Removed?
    case Restart => true
  }

  /** The end of a save; a saver that waits for it goes on. */
  function AfterWrite(s: State, ok: bool): State
    requires s.save.Snapped?
  {
    var t := s.(save := NoSave, file := if ok then s.save.tombs else s.file);
    match s.save.who
    case Loop => t.(dirty := s.dirty || !ok)
    case Forgetter => t.(step := if ok then Kept else NotKept)
    case Undoer => t.(dirty := s.dirty || !ok, step := Refused, leaving := false)
  }

  function AfterRestart(s: State): State {
    s.(inSet := s.listed, leaving := false, rooms := map[], ids := {}, tombs := s.file, dirty := false, save := NoSave,
       step := Idle, captured := if s.listed then {} else s.captured)
  }

  function Next(s: State, e: Event): State
    requires Enabled(s, e)
  {
    match e
    case Tick(d) => s.(now := s.now + d)
    case Adopt(room, u) => s.(rooms := s.rooms[room := u], ids := s.ids + ({u} - {""}), dirty := true)
    case FreeRoom(room) => s.(rooms := s.rooms - {room}, ids := s.ids - {s.rooms[room]}, dirty := true)
    case ClientDelete(u) => s.(tombs := s.tombs[u := s.now], dirty := true)
    case LoopLock => s.(dirty := false, save := Locked(Loop))
    case Snap => s.(tombs := LiveTombs(s.tombs, s.now), save := Snapped(s.save.who, LiveTombs(s.tombs, s.now)))
    case Write(ok) => AfterWrite(s, ok)
    case Begin(c) => s.(step := Marked, leaving := true, captured := ClientIds(s.rooms))
    case OldGuestAnswers => s.(step := Refused, leaving := false)
    case SetTombs => s.(step := Tombed, tombs := WithTombs(s.tombs, s.captured, s.now), at := s.now)
    case ForgetLock => s.(save := Locked(Forgetter))
    case GiveUp => s.(step := Refused, tombs := s.tombs - s.captured, leaving := false)
    case Drop => s.(step := Step.Dropped, inSet := false)
    case DropRefused => s.(step := MustUndo)
    case SaveHotels(ok) => if ok then s.(step := Removed, listed := false) else s.(step := MustUndo, inSet := true)
    case ClearTombs => s.(step := Undone, tombs := s.tombs - s.captured)
    case UndoLock => s.(save := Locked(Undoer))
    case ReleaseRooms => s.(step := Over, rooms := map[], ids := s.ids - ClientIds(s.rooms), dirty := true)
    case Restart => AfterRestart(s)
  }

  ghost predicate Run(s: State, es: seq<Event>, t: State)
    decreases |es|
  {
    if es == [] then s == t else Enabled(s, es[0]) && Run(Next(s, es[0]), es[1..], t)
  }

  /** A broker with the hotel in its set and no forget or save under way. */
  predicate Init(s: State) {
    s.inSet && !s.leaving && s.listed && s.step.Idle? && s.save.NoSave? && s.captured == {}
  }

  // ------------------------------------------------------------ crash consistency

  /** Every captured id has its tombstone, or one from later, until it is as old
      as the broker keeps them. */
  predicate AllHeld(captured: set<string>, at: Time, now: Time, tombs: Tombs) {
    forall u :: u in captured ==> (u in tombs && tombs[u] >= at) || now - at > STATE_KEEP
  }

  predicate Holds(s: State, tombs: Tombs) {
    AllHeld(s.captured, s.at, s.now, tombs)
  }

  /** The tombstones are on disk for good. */
  predicate Committed(s: State) {
    s.step.Kept? || s.step.Dropped? || s.step.Removed? || s.step.Over? || !s.listed
  }

  predicate SaverOk(s: State) {
    && (s.save.NoSave? || s.save.who.Loop? || (s.save.who.Forgetter? && s.step.Tombed?) || (s.save.who.Undoer? && s.step.Undone?))
    && (s.save.Snapped? && (s.save.who.Forgetter? || Committed(s)) ==> Holds(s, s.save.tombs))
  }

  predicate Inv(s: State) {
    && (s.step.Tombed? || Committed(s) ==> Holds(s, s.tombs) && s.at <= s.now)
    && (Committed(s) ==> Holds(s, s.file))
    && SaverOk(s)
    && (!s.listed ==> !s.inSet && (s.step.Removed? || s.step.Over? || s.step.Idle?))
    && (s.step.Removed? || s.step.Over? ==> !s.listed)
    && (s.step.Dropped? ==> !s.inSet)
  }

  lemma LiveHolds(s: State, tombs: Tombs)
    requires Holds(s, tombs)
    ensures Holds(s, LiveTombs(tombs, s.now))
  {
  }

  lemma LockInv(s: State, e: Event)
    requires Inv(s) && Enabled(s, e) && (e.LoopLock? || e.ForgetLock? || e.UndoLock?)
    ensures Inv(Next(s, e))
  {
  }

  lemma SnapInv(s: State)
    requires Inv(s) && s.save.Locked?
    ensures Inv(Next(s, Snap))
  {
    if Holds(s, s.tombs) {
      LiveHolds(s, s.tombs);
    }
  }

  lemma WriteInv(s: State, ok: bool)
    requires Inv(s) && s.save.Snapped?
    ensures Inv(AfterWrite(s, ok))
  {
    var file := if ok then s.save.tombs else s.file;
    match s.save.who
    case Loop => WrittenInv(s, s.(save := NoSave, file := file, dirty := s.dirty || !ok));
    case Forgetter => WrittenInv(s, s.(save := NoSave, file := file, step := if ok then Kept else NotKept));
    case Undoer => WrittenInv(s, s.(save := NoSave, file := file, dirty := s.dirty || !ok, step := Refused, leaving := false));
  }

  /** The lock is free, and the step is the old one or follows from the save. */
  lemma WrittenInv(s: State, t: State)
    requires Inv(s) && s.save.Snapped? && t.save.NoSave? && (t.file == s.file || t.file == s.save.tombs)
    requires t.tombs == s.tombs && t.captured == s.captured && t.at == s.at && t.now == s.now
    requires t.listed == s.listed && t.inSet == s.inSet
    requires match s.save.who
      case Loop => t.step == s.step
      case Forgetter => t.step.NotKept? || (t.step.Kept? && t.file == s.save.tombs)
      case Undoer => t.step.Refused?
    ensures Inv(t)
  {
  }

  lemma OtherInv(s: State, e: Event)
    requires Inv(s) && Enabled(s, e) && (e.Adopt? || e.FreeRoom? || e.ClientDelete? || e.Restart?)
    ensures Inv(Next(s, e))
  {
  }

  lemma TickInv(s: State, d: Time)
    requires Inv(s) && d >= 0
    ensures Inv(s.(now := s.now + d))
  {
  }

  lemma ForgetInv(s: State, e: Event)
    requires Inv(s) && Enabled(s, e)
    requires e.Begin? || e.OldGuestAnswers? || e.SetTombs? || e.GiveUp? || e.ClearTombs? || e.DropRefused?
    ensures Inv(Next(s, e))
  {
  }

  lemma LeaveInv(s: State, e: Event)
    requires Inv(s) && Enabled(s, e) && (e.Drop? || e.SaveHotels? || e.ReleaseRooms?)
    ensures Inv(Next(s, e))
  {
  }

  lemma StepInv(s: State, e: Event)
    requires Inv(s) && Enabled(s, e)
    ensures Inv(Next(s, e))
  {
    match e
    case Tick(d) => TickInv(s, d);
    case Adopt(_, _) => OtherInv(s, e);
    case FreeRoom(_) => OtherInv(s, e);
    case ClientDelete(_) => OtherInv(s, e);
    case Restart => OtherInv(s, e);
    case LoopLock => LockInv(s, e);
    case Snap => SnapInv(s);
    case Write(ok) => WriteInv(s, ok);
    case ForgetLock => LockInv(s, e);
    case UndoLock => LockInv(s, e);
    case Drop => LeaveInv(s, e);
    case SaveHotels(_) => LeaveInv(s, e);
    case ReleaseRooms => LeaveInv(s, e);
    case _ => ForgetInv(s, e);
  }

  lemma {:induction false} RunInv(s: State, es: seq<Event>, t: State)
    requires Inv(s) && Run(s, es, t)
    ensures Inv(t)
    decreases |es|
  {
    if es != [] {
      StepInv(s, es[0]);
      RunInv(Next(s, es[0]), es[1..], t);
    }
  }

  /** At every crash point: when hotels.json no longer lists the hotel, the file
      of the client state has a tombstone for every captured client id. */
  lemma CrashConsistent(s: State, es: seq<Event>, t: State)
    requires Init(s) && Run(s, es, t)
    ensures !t.listed && t.now - t.at <= STATE_KEEP ==> forall u :: u in t.captured ==> u in t.file
  {
    RunInv(s, es, t);
  }

  /** After such a crash the clients of the forgotten rooms read "deleted". */
  lemma ForgottenReadsDeleted(s: State, es: seq<Event>, t: State, u: string)
    requires Init(s) && Run(s, es, t) && !t.listed && t.now - t.at <= STATE_KEEP && u in t.captured
    ensures u in AfterRestart(t).tombs && u !in AfterRestart(t).ids
  {
    RunInv(s, es, t);
  }

  /** A forget that ends well: the hotel is in neither the set nor the file, no
      client id of it is left, and the tombstones are on disk. */
  lemma ForgetEnds(s: State, es: seq<Event>, t: State)
    requires Init(s) && Run(s, es, t) && t.step.Removed?
    ensures var f := Next(t, ReleaseRooms);
      !f.inSet && !f.listed && f.rooms == map[] && f.ids !! ClientIds(t.rooms) && Holds(f, f.file)
  {
    RunInv(s, es, t);
  }

  // ------------------------------------------------------------ error answers

  predicate NoRestart(es: seq<Event>) {
    forall i :: 0 <= i < |es| ==> !es[i].Restart?
  }

  /** The rooms and client ids of the hotel, as the sync loop alone changes them. */
  datatype Known = Known(rooms: map<string, string>, ids: set<string>)

  function Synced(k: Known, e: Event): Known {
    if e.Adopt? then Known(k.rooms[e.room := e.uuid], k.ids + ({e.uuid} - {""}))
    else if e.FreeRoom? && e.room in k.rooms then Known(k.rooms - {e.room}, k.ids - {k.rooms[e.room]})
    else k
  }

  function AllSynced(k: Known, es: seq<Event>): Known
    decreases |es|
  {
    if es == [] then k else AllSynced(Synced(k, es[0]), es[1..])
  }

  predicate UnderWay(s: State) {
    s.step.Marked? || s.step.Tombed? || s.step.NotKept? || s.step.Kept? || s.step.Dropped? || s.step.MustUndo?
    || s.step.Undone? || s.step.Removed? || s.step.Over?
  }

  /** Before the release the forget has changed no room and no client id, and
      the hotel is in the set and takes rooms unless the forget is under way. */
  predicate Untouched(k: Known, s: State) {
    && (!s.step.Over? ==> s.rooms == k.rooms && s.ids == k.ids)
    && (s.leaving <==> UnderWay(s))
    && (s.inSet <==> !(s.step.Dropped? || s.step.Removed? || s.step.Over?))
    && (s.listed <==> !(s.step.Removed? || s.step.Over?))
  }

  lemma StepUntouched(k: Known, s: State, e: Event)
    requires Inv(s) && Untouched(k, s) && Enabled(s, e) && !e.Restart?
    ensures Untouched(Synced(k, e), Next(s, e))
  {
  }

  lemma {:induction false} RunUntouched(k: Known, s: State, es: seq<Event>, t: State)
    requires Inv(s) && Untouched(k, s) && Run(s, es, t) && NoRestart(es)
    ensures Untouched(AllSynced(k, es), t)
    decreases |es|
  {
    if es != [] {
      StepUntouched(k, s, es[0]);
      StepInv(s, es[0]);
      RunUntouched(Synced(k, es[0]), Next(s, es[0]), es[1..], t);
    }
  }

  /** A forget that is refused leaves the hotel in the set, in the file and open,
      with exactly the rooms and client ids that the sync loop alone would have
      left: those from before, the ones it adopted, without the ones it freed. */
  lemma RefusalKeepsAll(s: State, es: seq<Event>, t: State)
    requires Init(s) && Run(s, es, t) && NoRestart(es) && t.step.Refused?
    ensures Known(t.rooms, t.ids) == AllSynced(Known(s.rooms, s.ids), es)
    ensures t.inSet && t.listed && !t.leaving
  {
    RunUntouched(Known(s.rooms, s.ids), s, es, t);
  }

  // ------------------------------------------------------------ the loops

  /** The tombstones in memory while a save prunes them: those still to be
      looked at, and the young ones among the others. */
  function Remaining(tombs: Tombs, done: set<string>, rest: set<string>, now: Time): Tombs {
    map u | u in tombs && (u in rest || (u in done && now - tombs[u] <= STATE_KEEP)) :: tombs[u]
  }

  lemma PruneOne(tombs: Tombs, done: set<string>, rest: set<string>, u: string, now: Time)
    requires done !! rest && u in rest && u in tombs
    ensures Remaining(tombs, done + {u}, {}, now)
         == if now - tombs[u] > STATE_KEEP then Remaining(tombs, done, {}, now) else Remaining(tombs, done, {}, now)[u := tombs[u]]
    ensures Remaining(tombs, done + {u}, rest - {u}, now)
         == if now - tombs[u] > STATE_KEEP then Remaining(tombs, done, rest, now) - {u} else Remaining(tombs, done, rest, now)
  {
  }

  lemma PruneEnds(tombs: Tombs, now: Time)
    ensures Remaining(tombs, {}, {}, now) == map[] && Remaining(tombs, {}, tombs.Keys, now) == tombs
    ensures Remaining(tombs, tombs.Keys, {}, now) == LiveTombs(tombs, now)
  {
  }

  /** The pruning loop of a save: old tombstones leave the memory, the others
      go to the file. */
  method Prune(tombs: Tombs, now: Time) returns (memory: Tombs, file: Tombs)
    ensures file == LiveTombs(tombs, now) && memory == file
  {
    memory, file := tombs, map[];
    ghost var done := {};
    var rest := tombs.Keys;
    PruneEnds(tombs, now);
    while rest != {}
      invariant done !! rest && done + rest == tombs.Keys
      invariant file == Remaining(tombs, done, {}, now) && memory == Remaining(tombs, done, rest, now)
      decreases |rest|
    {
      var u :| u in rest;
      PruneOne(tombs, done, rest, u, now);
      if now - tombs[u] > STATE_KEEP {
        memory := memory - {u};
      } else {
        file := file[u := tombs[u]];
      }
      done, rest := done + {u}, rest - {u};
    }
    assert done == tombs.Keys;
  }

  lemma TombsMore(tombs: Tombs, done: set<string>, u: string, at: Time)
    ensures WithTombs(tombs, done + {u}, at) == WithTombs(tombs, done, at)[u := at]
    ensures tombs - (done + {u}) == tombs - done - {u}
    ensures WithTombs(tombs, {}, at) == tombs && tombs - {} == tombs
  {
  }

  /** setTombs: adds or removes the tombstones one by one. */
  method ChangeTombs(tombs: Tombs, gone: set<string>, on: bool, at: Time) returns (r: Tombs)
    ensures r == if on then WithTombs(tombs, gone, at) else tombs - gone
  {
    r := tombs;
    TombsMore(tombs, {}, "", at);
    var done, rest := {}, gone;
    while rest != {}
      invariant done !! rest && done + rest == gone
      invariant r == if on then WithTombs(tombs, done, at) else tombs - done
      decreases |rest|
    {
      var u :| u in rest;
      TombsMore(tombs, done, u, at);
      if on {
        r := r[u := at];
      } else {
        r := r - {u};
      }
      done, rest := done + {u}, rest - {u};
    }
    assert done == gone;
  }
}
