/**
 The request limiter of central access: one request in flight and a bounded rate
 for each caller, and few callers. Each hold of the limiter's lock and each half
 of a release is one step. acquire reads the clock before it takes the lock, so
 the stamps of its calls may come in any order. dropped is history: the times
 the limiter forgot.
 */
module Limiter {
  import opened Sums
  import opened Windows

  datatype Config = Config(perWindow: nat, span: int, maxCallers: nat)

  predicate ValidConfig(c: Config) {
    1 <= c.perWindow <= 10_000 && 0 < c.span <= 3600 * 1_000_000_000 && 1 <= c.maxCallers <= 256
  }

  /** What the limiter keeps. */
  datatype Books = Books(recent: map<string, seq<int>>, inFlight: map<string, int>)

  function Count(b: Books, caller: string): int {
    if caller in b.inFlight then b.inFlight[caller] else 0
  }

  function Times(b: Books, caller: string): seq<int> {
    if caller in b.recent then b.recent[caller] else []
  }

  // ------------------------------------------------------------ acquire

  datatype Verdict = NotCentral | Refused | Granted

  predicate IsCentral(caller: string) {
    "central:" <= caller
  }

  predicate IsIdle(c: Config, b: Books, caller: string, now: int)
    requires caller in b.recent
  {
    Count(b, caller) == 0 && (b.recent[caller] == [] || now - b.recent[caller][|b.recent[caller]| - 1] >= c.span)
  }

  function Idle(c: Config, b: Books, now: int): set<string> {
    set k | k in b.recent && IsIdle(c, b, k, now)
  }

  predicate MustEvict(c: Config, b: Books, caller: string) {
    caller !in b.recent && |b.recent| >= c.maxCallers
  }

  /** Known callers only grow when there is room, after the idle ones left. */
  function Evicted(c: Config, b: Books, caller: string, now: int): Books {
    if MustEvict(c, b, caller) then Books(b.recent - Idle(c, b, now), b.inFlight - Idle(c, b, now)) else b
  }

  /** The caller itself is never evicted, nor is one with a lease. */
  lemma EvictKeeps(c: Config, b: Books, caller: string, now: int)
    ensures var e := Evicted(c, b, caller, now);
      && Times(e, caller) == Times(b, caller)
      && (forall k :: Count(e, k) == Count(b, k))
      && (forall k :: k in e.recent ==> k in b.recent && e.recent[k] == b.recent[k])
  {
  }

  predicate Full(c: Config, b: Books, caller: string, now: int) {
    MustEvict(c, b, caller) && Idle(c, b, now) == {}
  }

  predicate Grants(c: Config, b: Books, caller: string, now: int) {
    && !Full(c, b, caller, now)
    && Count(b, caller) < 1
    && |Live(Times(b, caller), now, c.span)| < c.perWindow
  }

  /** The books after the check of a caller that has its place. */
  function Entered(c: Config, e: Books, caller: string, now: int): Books {
    var live := Live(Times(e, caller), now, c.span);
    if Count(e, caller) >= 1 || |live| >= c.perWindow then e.(recent := e.recent[caller := live])
    else Books(e.recent[caller := live + [now]], e.inFlight[caller := Count(e, caller) + 1])
  }

  /** A place without times is as good as none. */
  lemma EnteredNew(c: Config, e: Books, caller: string, now: int)
    requires caller !in e.recent
    ensures Entered(c, e.(recent := e.recent[caller := []]), caller, now) == Entered(c, e, caller, now)
  {
    var f := e.(recent := e.recent[caller := []]);
    assert Times(f, caller) == Times(e, caller) == [] && Count(f, caller) == Count(e, caller);
    assert Entered(c, f, caller, now).recent == Entered(c, e, caller, now).recent;
  }

  function AfterAcquire(c: Config, b: Books, caller: string, now: int): Books {
    if Full(c, b, caller, now) then b else Entered(c, Evicted(c, b, caller, now), caller, now)
  }

  function AfterRelease(b: Books, caller: string): Books {
    if Count(b, caller) <= 1 then b.(inFlight := b.inFlight - {caller})
    else b.(inFlight := b.inFlight[caller := Count(b, caller) - 1])
  }

  lemma MeetMore(all: set<string>, done: set<string>, key: string)
    ensures all * (done + {key}) == if key in all then all * done + {key} else all * done
  {
  }

  lemma MeetAll(all: set<string>, done: set<string>)
    requires all <= done
    ensures all * done == all
  {
  }

  class CentralLimiter {
    const config: Config
    var recent: map<string, seq<int>>
    var inFlight: map<string, int>

    constructor (c: Config)
      requires ValidConfig(c)
      ensures config == c && View() == Books(map[], map[])
    {
      config, recent, inFlight := c, map[], map[];
    }

    function View(): Books
      reads this
    {
      Books(recent, inFlight)
    }

    method IsFree(key: string, now: int) returns (free: bool)
      requires key in recent
      ensures free <==> key in Idle(config, View(), now)
    {
      var times := recent[key];
      free := (key !in inFlight || inFlight[key] == 0) && (times == [] || now - times[|times| - 1] >= config.span);
    }

    method FindIdle(now: int) returns (idle: set<string>)
      ensures idle == Idle(config, View(), now)
    {
      idle := {};
      ghost var all := Idle(config, View(), now);
      var done, rest := {}, recent.Keys;
      while rest != {}
        invariant done !! rest && done + rest == recent.Keys && idle == all * done
        decreases |rest|
      {
        var key :| key in rest;
        var free := IsFree(key, now);
        MeetMore(all, done, key);
        if free {
          idle := idle + {key};
        }
        done, rest := done + {key}, rest - {key};
      }
      MeetAll(all, done);
    }

    /** Room for the caller among the known ones, or not. */
    method Admit(caller: string, now: int) returns (ok: bool)
      modifies this
      ensures ok == !Full(config, old(View()), caller, now)
      ensures !ok ==> View() == old(View())
      ensures ok ==> var e := Evicted(config, old(View()), caller, now);
        View() == if caller in e.recent then e else e.(recent := e.recent[caller := []])
    {
      if caller !in recent {
        if |recent| >= config.maxCallers {
          var idle := FindIdle(now);
          if idle == {} {
            return false;
          }
          recent, inFlight := recent - idle, inFlight - idle;
        }
        recent := recent[caller := []];
      }
      ok := true;
    }

    /** The times of the caller that still count. */
    method Trim(caller: string, now: int)
      requires caller in recent
      modifies this`recent
      ensures recent == old(recent)[caller := Live(old(recent)[caller], now, config.span)]
    {
      var times, cut := recent[caller], 0;
      while cut < |times| && now - times[cut] >= config.span
        invariant 0 <= cut <= |times|
        invariant forall i :: 0 <= i < cut ==> now - times[i] >= config.span
      {
        cut := cut + 1;
      }
      LiveFrom(times, now, config.span, cut);
      recent := recent[caller := times[cut..]];
    }

    /** The caller has its place: its old times go, and it gets a lease unless it
        has one or is over its rate. */
    method Enter(caller: string, now: int) returns (granted: bool)
      requires caller in recent
      modifies this
      ensures View() == Entered(config, old(View()), caller, now)
      ensures granted <==> Count(old(View()), caller) < 1 && |Live(old(recent)[caller], now, config.span)| < config.perWindow
    {
      Trim(caller, now);
      var count := if caller in inFlight then inFlight[caller] else 0;
      if count >= 1 || |recent[caller]| >= config.perWindow {
        return false;
      }
      recent := recent[caller := recent[caller] + [now]];
      inFlight := inFlight[caller := count + 1];
      granted := true;
    }

    /** now was read before the lock was taken. */
    method Acquire(caller: string, now: int) returns (v: Verdict)
      modifies this
      ensures v.NotCentral? <==> !IsCentral(caller)
      ensures v.NotCentral? ==> View() == old(View())
      ensures v.Granted? <==> IsCentral(caller) && Grants(config, old(View()), caller, now)
      ensures !v.NotCentral? ==> View() == AfterAcquire(config, old(View()), caller, now)
    {
      if !("central:" <= caller) {
        return NotCentral;
      }
      var ok := Admit(caller, now);
      if !ok {
        return Refused;
      }
      ghost var e := Evicted(config, old(View()), caller, now);
      EvictKeeps(config, old(View()), caller, now);
      if caller !in e.recent {
        EnteredNew(config, e, caller, now);
      }
      var granted := Enter(caller, now);
      v := if granted then Granted else Refused;
    }

    method GiveBack(caller: string)
      modifies this`inFlight
      ensures View() == AfterRelease(old(View()), caller)
    {
      var count := if caller in inFlight then inFlight[caller] else 0;
      if count <= 1 {
        inFlight := inFlight - {caller};
      } else {
        inFlight := inFlight[caller := count - 1];
      }
    }
  }

  // ------------------------------------------------------------ leases

  /** Open: granted; Closing: marked released, not yet given back. */
  datatype Lease = Lease(caller: string, phase: LeasePhase)

  datatype LeasePhase = Open | Closing | Closed

  /** now is the latest stamp so far. */
  datatype State = State(books: Books, now: int, leases: map<nat, Lease>, dropped: map<string, seq<int>>)

  datatype Event =
    | Acquire(lease: nat, caller: string, at: int)
    | MarkReleased(lease: nat)
    | GiveBack(lease: nat)

  predicate Enabled(s: State, e: Event) {
    match e
    case Acquire(id, caller, at) => id !in s.leases && IsCentral(caller)
    case MarkReleased(id) => id in s.leases
    case GiveBack(id) => id in s.leases && s.leases[id].phase.Closing?
  }

  function Dropped(s: State, caller: string): seq<int> {
    if caller in s.dropped then s.dropped[caller] else []
  }

  /** Every time at which the caller got a lease. */
  function History(s: State, caller: string): seq<int> {
    Dropped(s, caller) + Times(s.books, caller)
  }

  /** The history keeps what an eviction or a trim throws away. */
  function Forgotten(c: Config, s: State, caller: string, at: int): map<string, seq<int>> {
    if Full(c, s.books, caller, at) then s.dropped
    else
      var gone := if MustEvict(c, s.books, caller) then Idle(c, s.books, at) else {};
      var kept := map k | k in gone + s.dropped.Keys :: if k in gone then Dropped(s, k) + s.books.recent[k] else s.dropped[k];
      kept[caller := Dropped(s, caller) + Expired(Times(s.books, caller), at, c.span)]
  }

  function Next(c: Config, s: State, e: Event): State
    requires Enabled(s, e)
  {
    match e
    case Acquire(id, caller, at) =>
      State(AfterAcquire(c, s.books, caller, at), if s.now <= at then at else s.now,
            if Grants(c, s.books, caller, at) then s.leases[id := Lease(caller, Open)] else s.leases,
            Forgotten(c, s, caller, at))
    case MarkReleased(id) =>
      // only the first release goes on to give the slot back
      if s.leases[id].phase.Open? then s.(leases := s.leases[id := s.leases[id].(phase := Closing)]) else s
    case GiveBack(id) =>
      s.(books := AfterRelease(s.books, s.leases[id].caller), leases := s.leases[id := s.leases[id].(phase := Closed)])
  }

  ghost predicate Run(c: Config, s: State, es: seq<Event>, t: State)
    decreases |es|
  {
    if es == [] then s == t else Enabled(s, es[0]) && Run(c, Next(c, s, es[0]), es[1..], t)
  }

  /** The stamp of e is at most this late: another one that was read up to late
      after it came first. */
  predicate OnTime(s: State, e: Event, late: nat) {
    e.Acquire? ==> s.now - late <= e.at
  }

  ghost predicate AllOnTime(c: Config, s: State, es: seq<Event>, late: nat)
    decreases |es|
  {
    es == [] || (Enabled(s, es[0]) && OnTime(s, es[0], late) && AllOnTime(c, Next(c, s, es[0]), es[1..], late))
  }

  const START := State(Books(map[], map[]), 0, map[], map[])

  // ------------------------------------------------------------ the invariant

  predicate Holds(l: Lease, caller: string) {
    l.caller == caller && !l.phase.Closed?
  }

  function Holders(leases: map<nat, Lease>, caller: string): set<nat> {
    set id | id in leases && Holds(leases[id], caller)
  }

  /** The count of a caller is its leases not yet given back: at most one. */
  ghost predicate CountsOk(s: State) {
    forall caller :: 0 <= Count(s.books, caller) <= 1 && Count(s.books, caller) == |Holders(s.leases, caller)|
  }

  /** What was dropped is out of the span; what is kept is in order and within the rate. */
  predicate CallerOk(c: Config, dropped: seq<int>, times: seq<int>, now: int) {
    Old(dropped, now, c.span) && Ordered(times, now) && |times| <= c.perWindow
  }

  ghost predicate TimesOk(c: Config, s: State) {
    forall caller :: CallerOk(c, Dropped(s, caller), Times(s.books, caller), s.now)
  }

  /** What holds whatever the order of the stamps. */
  ghost predicate BooksOk(c: Config, s: State) {
    CountsOk(s) && |s.books.recent| <= c.maxCallers
  }

  // ------------------------------------------------------------ counts

  lemma CountAfter(c: Config, b: Books, caller: string, at: int, k: string)
    ensures Count(AfterAcquire(c, b, caller, at), k)
         == Count(b, k) + if k == caller && Grants(c, b, caller, at) then 1 else 0
  {
    EvictKeeps(c, b, caller, at);
  }

  lemma HoldersAfter(leases: map<nat, Lease>, id: nat, caller: string, k: string)
    requires id !in leases
    ensures |Holders(leases[id := Lease(caller, Open)], k)| == |Holders(leases, k)| + if k == caller then 1 else 0
  {
    if k == caller {
      assert Holders(leases[id := Lease(caller, Open)], k) == Holders(leases, k) + {id};
    } else {
      assert Holders(leases[id := Lease(caller, Open)], k) == Holders(leases, k);
    }
  }

  lemma GrantCounts(c: Config, s: State, id: nat, caller: string, at: int)
    requires CountsOk(s) && id !in s.leases && IsCentral(caller)
    ensures CountsOk(Next(c, s, Acquire(id, caller, at)))
  {
    var t := Next(c, s, Acquire(id, caller, at));
    forall k
      ensures 0 <= Count(t.books, k) <= 1 && Count(t.books, k) == |Holders(t.leases, k)|
    {
      assert Count(s.books, k) == |Holders(s.leases, k)| && Count(s.books, caller) == |Holders(s.leases, caller)|;
      CountAfter(c, s.books, caller, at, k);
      HoldersAfter(s.leases, id, caller, k);
    }
  }

  lemma MarkCounts(s: State, id: nat)
    requires CountsOk(s) && id in s.leases && s.leases[id].phase.Open?
    ensures CountsOk(s.(leases := s.leases[id := s.leases[id].(phase := Closing)]))
  {
    var t := s.(leases := s.leases[id := s.leases[id].(phase := Closing)]);
    forall k
      ensures Holders(t.leases, k) == Holders(s.leases, k)
    {
    }
  }

  lemma GiveBackCounts(s: State, id: nat)
    requires CountsOk(s) && id in s.leases && s.leases[id].phase.Closing?
    ensures CountsOk(s.(books := AfterRelease(s.books, s.leases[id].caller),
                        leases := s.leases[id := s.leases[id].(phase := Closed)]))
  {
    var caller := s.leases[id].caller;
    var b, leases := AfterRelease(s.books, caller), s.leases[id := s.leases[id].(phase := Closed)];
    assert id in Holders(s.leases, caller);
    forall k
      ensures 0 <= Count(b, k) <= 1 && Count(b, k) == |Holders(leases, k)|
    {
      assert Count(s.books, k) == |Holders(s.leases, k)|;
      if k == caller {
        assert Holders(leases, k) == Holders(s.leases, k) - {id};
      } else {
        assert Holders(leases, k) == Holders(s.leases, k);
      }
    }
  }

  // ------------------------------------------------------------ times

  lemma OwnTimes(c: Config, s: State, id: nat, caller: string, at: int)
    requires id !in s.leases && IsCentral(caller) && !Full(c, s.books, caller, at)
    ensures var t := Next(c, s, Acquire(id, caller, at));
      && Dropped(t, caller) == Dropped(s, caller) + Expired(Times(s.books, caller), at, c.span)
      && Times(t.books, caller) == Live(Times(s.books, caller), at, c.span) + (if Grants(c, s.books, caller, at) then [at] else [])
  {
    EvictKeeps(c, s.books, caller, at);
  }

  lemma OtherTimes(c: Config, s: State, id: nat, caller: string, at: int, k: string)
    requires id !in s.leases && IsCentral(caller) && !Full(c, s.books, caller, at) && k != caller
    ensures var t := Next(c, s, Acquire(id, caller, at));
      if MustEvict(c, s.books, caller) && k in Idle(c, s.books, at) then
        Dropped(t, k) == Dropped(s, k) + s.books.recent[k] && Times(t.books, k) == []
      else Dropped(t, k) == Dropped(s, k) && Times(t.books, k) == Times(s.books, k)
  {
  }

  /** The times of every caller after an acquire. */
  lemma TimesAfter(c: Config, s: State, id: nat, caller: string, at: int, k: string)
    requires id !in s.leases && IsCentral(caller)
    ensures var t := Next(c, s, Acquire(id, caller, at));
      if Full(c, s.books, caller, at) then Dropped(t, k) == Dropped(s, k) && Times(t.books, k) == Times(s.books, k)
      else if k == caller then
        && Dropped(t, k) == Dropped(s, k) + Expired(Times(s.books, k), at, c.span)
        && Times(t.books, k) == Live(Times(s.books, k), at, c.span) + (if Grants(c, s.books, caller, at) then [at] else [])
      else if MustEvict(c, s.books, caller) && k in Idle(c, s.books, at) then
        Dropped(t, k) == Dropped(s, k) + s.books.recent[k] && Times(t.books, k) == []
      else Dropped(t, k) == Dropped(s, k) && Times(t.books, k) == Times(s.books, k)
  {
    if !Full(c, s.books, caller, at) {
      if k == caller {
        OwnTimes(c, s, id, caller, at);
      } else {
        OtherTimes(c, s, id, caller, at, k);
      }
    }
  }

  lemma CallerLater(c: Config, dropped: seq<int>, times: seq<int>, before: int, at: int)
    requires CallerOk(c, dropped, times, before) && before <= at
    ensures CallerOk(c, dropped, times, at)
  {
  }

  lemma CallerTrimmed(c: Config, dropped: seq<int>, times: seq<int>, at: int)
    requires CallerOk(c, dropped, times, at)
    ensures CallerOk(c, dropped + Expired(times, at, c.span), Live(times, at, c.span), at)
  {
    LiveSplit(times, at, c.span);
    OldMore(dropped, at, Expired(times, at, c.span), at, c.span);
    OrderedLive(times, at, c.span);
  }

  lemma CallerGranted(c: Config, dropped: seq<int>, times: seq<int>, at: int)
    requires CallerOk(c, dropped, times, at)
    ensures |times| < c.perWindow ==> CallerOk(c, dropped, times + [at], at)
    ensures times + [] == times
  {
  }

  lemma CallerEvicted(c: Config, dropped: seq<int>, times: seq<int>, at: int)
    requires CallerOk(c, dropped, times, at) && (times == [] || at - times[|times| - 1] >= c.span)
    ensures CallerOk(c, dropped + times, [], at)
  {
    assert forall i :: 0 <= i < |times| ==> times[i] <= times[|times| - 1];
    OldMore(dropped, at, times, at, c.span);
  }

  lemma GrantTimes(c: Config, s: State, id: nat, caller: string, at: int, k: string)
    requires TimesOk(c, s) && id !in s.leases && IsCentral(caller) && s.now <= at
    ensures var t := Next(c, s, Acquire(id, caller, at)); CallerOk(c, Dropped(t, k), Times(t.books, k), at)
  {
    var dropped, times := Dropped(s, k), Times(s.books, k);
    TimesAfter(c, s, id, caller, at, k);
    CallerLater(c, dropped, times, s.now, at);
    if !Full(c, s.books, caller, at) {
      if k == caller {
        CallerTrimmed(c, dropped, times, at);
        CallerGranted(c, dropped + Expired(times, at, c.span), Live(times, at, c.span), at);
      } else if MustEvict(c, s.books, caller) && k in Idle(c, s.books, at) {
        CallerEvicted(c, dropped, times, at);
      }
    }
  }

  /** Only a grant adds to a history, and it adds its own time. */
  lemma HistoryAfter(c: Config, s: State, id: nat, caller: string, at: int, k: string)
    requires id !in s.leases && IsCentral(caller)
    ensures History(Next(c, s, Acquire(id, caller, at)), k)
         == History(s, k) + if k == caller && Grants(c, s.books, caller, at) then [at] else []
  {
    var times := Times(s.books, k);
    TimesAfter(c, s, id, caller, at, k);
    LiveSplit(times, at, c.span);
    Regroup(Dropped(s, k), Expired(times, at, c.span), Live(times, at, c.span), [at]);
    assert History(s, k) + [] == History(s, k);
  }

  // ------------------------------------------------------------ callers

  lemma EvictMakesRoom(c: Config, b: Books, caller: string, at: int)
    requires |b.recent| <= c.maxCallers && !Full(c, b, caller, at)
    ensures var e := Evicted(c, b, caller, at); |e.recent| < c.maxCallers || (caller in e.recent && |e.recent| <= c.maxCallers)
  {
    if MustEvict(c, b, caller) {
      var e, gone := Evicted(c, b, caller, at), Idle(c, b, at);
      KeysOf(b.recent);
      KeysOf(e.recent);
      assert e.recent.Keys == b.recent.Keys - gone;
      assert |b.recent.Keys - gone| == |b.recent.Keys| - |gone|;
    }
  }

  lemma AddKey(m: map<string, seq<int>>, k: string, v: seq<int>)
    ensures |m[k := v]| == |m| + if k in m then 0 else 1
  {
    KeysOf(m);
    KeysOf(m[k := v]);
    assert m[k := v].Keys == m.Keys + {k};
  }

  lemma CallersAfter(c: Config, b: Books, caller: string, at: int)
    requires |b.recent| <= c.maxCallers
    ensures |AfterAcquire(c, b, caller, at).recent| <= c.maxCallers
  {
    if !Full(c, b, caller, at) {
      var e := Evicted(c, b, caller, at);
      EvictMakesRoom(c, b, caller, at);
      AddKey(e.recent, caller, AfterAcquire(c, b, caller, at).recent[caller]);
    }
  }

  // ------------------------------------------------------------ runs

  lemma StepBooks(c: Config, s: State, e: Event)
    requires BooksOk(c, s) && Enabled(s, e)
    ensures BooksOk(c, Next(c, s, e))
  {
    match e
    case Acquire(id, caller, at) =>
      GrantCounts(c, s, id, caller, at);
      CallersAfter(c, s.books, caller, at);
    case MarkReleased(id) =>
      if s.leases[id].phase.Open? {
        MarkCounts(s, id);
      }
    case GiveBack(id) =>
      GiveBackCounts(s, id);
  }

  lemma StepTimes(c: Config, s: State, e: Event)
    requires TimesOk(c, s) && Enabled(s, e) && OnTime(s, e, 0)
    ensures TimesOk(c, Next(c, s, e))
  {
    var t := Next(c, s, e);
    if e.Acquire? {
      forall k
        ensures CallerOk(c, Dropped(t, k), Times(t.books, k), e.at)
      {
        GrantTimes(c, s, e.lease, e.caller, e.at, k);
      }
    } else {
      SameTimes(c, s, t);
    }
  }

  lemma SameTimes(c: Config, s: State, t: State)
    requires TimesOk(c, s) && t.now == s.now && t.dropped == s.dropped && t.books.recent == s.books.recent
    ensures TimesOk(c, t)
  {
    forall k
      ensures Dropped(t, k) == Dropped(s, k) && Times(t.books, k) == Times(s.books, k)
    {
    }
  }

  /** A window of the span keeps to the rate, for the caller of the step. */
  lemma StepRate(c: Config, s: State, e: Event, k: string, w: int)
    requires TimesOk(c, s) && Enabled(s, e) && OnTime(s, e, 0) && CountIn(History(s, k), w, c.span) <= c.perWindow
    ensures CountIn(History(Next(c, s, e), k), w, c.span) <= c.perWindow
  {
    if e.Acquire? {
      HistoryAfter(c, s, e.lease, e.caller, e.at, k);
      assert History(s, k) + [] == History(s, k);
      CountConcat(History(s, k), [e.at], w, c.span);
      CountBound([e.at], w, c.span);
      if w <= e.at < w + c.span {
        assert CallerOk(c, Dropped(s, k), Times(s.books, k), s.now);
        OldMore(Dropped(s, k), s.now, [], e.at, c.span);
        WindowIsLive(Dropped(s, k), Times(s.books, k), e.at, c.span, w);
      }
    }
  }

  lemma {:induction false} RunBooks(c: Config, s: State, es: seq<Event>, t: State)
    requires BooksOk(c, s) && Run(c, s, es, t)
    ensures BooksOk(c, t)
    decreases |es|
  {
    if es != [] {
      StepBooks(c, s, es[0]);
      RunBooks(c, Next(c, s, es[0]), es[1..], t);
    }
  }

  lemma {:induction false} RunRate(c: Config, s: State, es: seq<Event>, t: State, k: string, w: int)
    requires TimesOk(c, s) && Run(c, s, es, t) && AllOnTime(c, s, es, 0) && CountIn(History(s, k), w, c.span) <= c.perWindow
    ensures CountIn(History(t, k), w, c.span) <= c.perWindow
    decreases |es|
  {
    if es != [] {
      StepTimes(c, s, es[0]);
      StepRate(c, s, es[0], k, w);
      RunRate(c, Next(c, s, es[0]), es[1..], t, k, w);
    }
  }

  lemma StartOk(c: Config)
    ensures BooksOk(c, START) && TimesOk(c, START)
  {
    forall k
      ensures Holders(START.leases, k) == {}
    {
    }
  }

  /** In every run a caller has at most one lease that is not released, and at
      most maxCallers callers are known. When the stamps are in order, no window
      of the span holds more than perWindow leases of a caller, also across
      evictions. */
  lemma LimiterHolds(c: Config, es: seq<Event>, t: State, k: string, w: int)
    requires ValidConfig(c) && Run(c, START, es, t)
    ensures |Holders(t.leases, k)| <= 1
    ensures |t.books.recent| <= c.maxCallers
    ensures AllOnTime(c, START, es, 0) ==> CountIn(History(t, k), w, c.span) <= c.perWindow
  {
    StartOk(c);
    RunBooks(c, START, es, t);
    assert Count(t.books, k) == |Holders(t.leases, k)|;
    if AllOnTime(c, START, es, 0) {
      RunRate(c, START, es, t, k, w);
    }
  }

  // ------------------------------------------------------------ releases

  /** How often the slot of a lease was given back. */
  function GivenBack(es: seq<Event>, id: nat): nat {
    if es == [] then 0 else GivenBack(es[1..], id) + if es[0] == GiveBack(id) then 1 else 0
  }

  predicate IsClosed(s: State, id: nat) {
    id in s.leases && s.leases[id].phase.Closed?
  }

  lemma StepCloses(c: Config, s: State, e: Event, id: nat)
    requires Enabled(s, e)
    ensures IsClosed(Next(c, s, e), id) <==> IsClosed(s, id) || e == GiveBack(id)
    ensures IsClosed(s, id) ==> e != GiveBack(id)
  {
  }

  lemma {:induction false} RunCloses(c: Config, s: State, es: seq<Event>, t: State, id: nat)
    requires Run(c, s, es, t)
    ensures GivenBack(es, id) == if IsClosed(t, id) && !IsClosed(s, id) then 1 else 0
    ensures IsClosed(s, id) ==> IsClosed(t, id)
    decreases |es|
  {
    if es != [] {
      StepCloses(c, s, es[0], id);
      RunCloses(c, Next(c, s, es[0]), es[1..], t, id);
    }
  }

  /** In every run, however often and from wherever a lease is released, its slot
      is given back at most once, and exactly once when the lease is closed. */
  lemma ReleasedOnce(c: Config, es: seq<Event>, t: State, id: nat)
    requires Run(c, START, es, t)
    ensures GivenBack(es, id) == if IsClosed(t, id) then 1 else 0
  {
    RunCloses(c, START, es, t, id);
  }
}
