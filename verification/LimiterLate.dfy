/**
 How late a stamp of the request limiter may be. acquire reads the clock and
 then waits for the lock, and it drops old times even when it then refuses. The
 rate therefore holds in every run exactly when no stamp is late: one nanosecond
 is enough to break it, whatever the configuration.
 */
module LimiterLate {
  import opened Windows
  import opened Limiter

  /** t is reached from an empty limiter with no stamp later than this. */
  ghost predicate Reaches(c: Config, late: nat, t: State) {
    exists es :: Run(c, START, es, t) && AllOnTime(c, START, es, late)
  }

  /** No window of the span ever holds more leases of a caller than the rate. */
  ghost predicate KeepsRate(c: Config, late: nat) {
    forall t, k, w :: Reaches(c, late, t) ==> CountIn(History(t, k), w, c.span) <= c.perWindow
  }

  lemma {:induction false} RunMore(c: Config, s: State, es: seq<Event>, t: State, e: Event, late: nat)
    requires Run(c, s, es, t) && AllOnTime(c, s, es, late) && Enabled(t, e) && OnTime(t, e, late)
    ensures Run(c, s, es + [e], Next(c, t, e)) && AllOnTime(c, s, es + [e], late)
    decreases |es|
  {
    if es == [] {
      assert [e][1..] == [];
      assert es + [e] == [e];
    } else {
      RunMore(c, Next(c, s, es[0]), es[1..], t, e, late);
      assert (es + [e])[1..] == es[1..] + [e];
    }
  }

  lemma ReachMore(c: Config, late: nat, s: State, e: Event)
    requires Reaches(c, late, s) && Enabled(s, e) && OnTime(s, e, late)
    ensures Reaches(c, late, Next(c, s, e))
  {
    var es :| Run(c, START, es, s) && AllOnTime(c, START, es, late);
    RunMore(c, START, es, s, e, late);
  }

  // ------------------------------------------------------------ a late stamp

  function Zeros(n: nat): (r: seq<int>)
    ensures |r| == n && forall i :: 0 <= i < n ==> r[i] == 0
  {
    seq(n, _ => 0)
  }

  lemma {:induction false} CountZeros(n: nat, span: int)
    requires span > 0
    ensures CountIn(Zeros(n), 0, span) == n
  {
    if n > 0 {
      assert Zeros(n)[..n - 1] == Zeros(n - 1);
      CountZeros(n - 1, span);
    }
  }

  /** k is the one known caller, had n leases at time 0 and has at most one now;
      lease n is not in use. */
  predicate Busy(s: State, k: string, n: nat, open: bool) {
    && IsCentral(k) && s.now == 0 && Times(s.books, k) == Zeros(n) && Dropped(s, k) == []
    && (forall o :: o in s.books.recent ==> o == k)
    && s.books.inFlight == (if open then map[k := 1] else map[])
    && (forall id :: id in s.leases ==> id < n)
    && (open ==> n > 0 && n - 1 in s.leases && s.leases[n - 1] == Lease(k, Open))
  }

  lemma OneKnown(c: Config, b: Books, k: string)
    requires ValidConfig(c) && forall o :: o in b.recent ==> o == k
    ensures !MustEvict(c, b, k)
  {
    if k !in b.recent {
      assert b.recent == map[];
    }
  }

  lemma Grant(c: Config, s: State, k: string, n: nat)
    requires ValidConfig(c) && Busy(s, k, n, false) && n < c.perWindow
    ensures Busy(Next(c, s, Acquire(n, k, 0)), k, n + 1, true)
  {
    OneKnown(c, s.books, k);
    assert Zeros(n) + [0] == Zeros(n + 1);
    assert [] + Expired(Zeros(n), 0, c.span) == [];
  }

  function Released(c: Config, s: State, id: nat): State
    requires id in s.leases && s.leases[id].phase.Open?
  {
    Next(c, Next(c, s, MarkReleased(id)), GiveBack(id))
  }

  lemma Release(c: Config, s: State, k: string, n: nat)
    requires Busy(s, k, n, true)
    ensures Busy(Released(c, s, n - 1), k, n, false)
  {
    assert map[k := 1] - {k} == map[];
  }

  lemma ReachReleased(c: Config, late: nat, s: State, id: nat)
    requires Reaches(c, late, s) && id in s.leases && s.leases[id].phase.Open?
    ensures Reaches(c, late, Released(c, s, id))
  {
    ReachMore(c, late, s, MarkReleased(id));
    ReachMore(c, late, Next(c, s, MarkReleased(id)), GiveBack(id));
  }

  lemma TakeOne(c: Config, late: nat, s: State, k: string, n: nat) returns (t: State)
    requires ValidConfig(c) && Reaches(c, late, s) && Busy(s, k, n, false) && n < c.perWindow
    ensures Reaches(c, late, t) && Busy(t, k, n + 1, true)
  {
    Grant(c, s, k, n);
    ReachMore(c, late, s, Acquire(n, k, 0));
    t := Next(c, s, Acquire(n, k, 0));
  }

  lemma GiveOne(c: Config, late: nat, s: State, k: string, n: nat) returns (t: State)
    requires Reaches(c, late, s) && Busy(s, k, n, true)
    ensures Reaches(c, late, t) && Busy(t, k, n, false)
  {
    Release(c, s, k, n);
    ReachReleased(c, late, s, n - 1);
    t := Released(c, s, n - 1);
  }

  lemma Start(c: Config, late: nat, k: string) returns (s: State)
    requires IsCentral(k)
    ensures Reaches(c, late, s) && Busy(s, k, 0, false)
  {
    s := START;
    assert Run(c, START, [], START) && AllOnTime(c, START, [], late);
    assert Zeros(0) == [];
  }

  /** One caller takes n leases at time 0, one after the other. */
  lemma {:induction false} TakeMany(c: Config, late: nat, k: string, n: nat) returns (s: State)
    requires ValidConfig(c) && IsCentral(k) && n <= c.perWindow
    ensures Reaches(c, late, s) && Busy(s, k, n, false)
  {
    if n == 0 {
      s := Start(c, late, k);
    } else {
      s := TakeMany(c, late, k, n - 1);
      s := TakeOne(c, late, s, k, n - 1);
      s := GiveOne(c, late, s, k, n);
    }
  }

  /** A call at the end of the span is refused, but it drops all times. */
  lemma RefusedDrops(c: Config, s: State, k: string, n: nat)
    requires ValidConfig(c) && Busy(s, k, n, true)
    ensures var t := Next(c, s, Acquire(n, k, c.span));
      && t.now == c.span && t.leases == s.leases && t.books.inFlight == s.books.inFlight
      && Times(t.books, k) == [] && k in t.books.recent && Dropped(t, k) == Zeros(n)
  {
    OneKnown(c, s.books, k);
    LiveFrom(Zeros(n), c.span, c.span, n);
    LiveSplit(Zeros(n), c.span, c.span);
    assert [] + Zeros(n) == Zeros(n);
  }

  /** The span is over, k holds no lease, and its n times were dropped. */
  predicate Emptied(c: Config, s: State, k: string, n: nat) {
    && IsCentral(k) && s.now == c.span && Dropped(s, k) == Zeros(n) && n !in s.leases
    && k in s.books.recent && s.books.recent[k] == [] && s.books.inFlight == map[]
  }

  lemma ReleasedFacts(c: Config, s: State, id: nat, k: string)
    requires id in s.leases && s.leases[id] == Lease(k, Open) && s.books.inFlight == map[k := 1]
    ensures var t := Released(c, s, id);
      t.books == Books(s.books.recent, map[]) && t.now == s.now && t.dropped == s.dropped && t.leases.Keys == s.leases.Keys
  {
    assert map[k := 1] - {k} == map[];
  }

  /** The span is over, and a refused call dropped the n times of k, which still
      holds lease n - 1. */
  predicate Refused(c: Config, s: State, k: string, n: nat) {
    && IsCentral(k) && s.now == c.span && Dropped(s, k) == Zeros(n) && n !in s.leases
    && k in s.books.recent && s.books.recent[k] == [] && s.books.inFlight == map[k := 1]
    && n > 0 && n - 1 in s.leases && s.leases[n - 1] == Lease(k, Open)
  }

  lemma IsRefused(c: Config, s: State, k: string, n: nat)
    requires ValidConfig(c) && Busy(s, k, n, true)
    ensures Enabled(s, Acquire(n, k, c.span)) && s.now <= c.span
    ensures Refused(c, Next(c, s, Acquire(n, k, c.span)), k, n)
  {
    RefusedDrops(c, s, k, n);
  }

  lemma Refuse(c: Config, late: nat, s: State, k: string, n: nat) returns (t: State)
    requires ValidConfig(c) && Reaches(c, late, s) && Busy(s, k, n, true)
    ensures Reaches(c, late, t) && Refused(c, t, k, n)
  {
    IsRefused(c, s, k, n);
    ReachMore(c, late, s, Acquire(n, k, c.span));
    t := Next(c, s, Acquire(n, k, c.span));
  }

  lemma DropAll(c: Config, late: nat, s: State, k: string, n: nat) returns (t: State)
    requires Reaches(c, late, s) && Refused(c, s, k, n)
    ensures Reaches(c, late, t) && Emptied(c, t, k, n)
  {
    ReleasedFacts(c, s, n - 1, k);
    ReachReleased(c, late, s, n - 1);
    t := Released(c, s, n - 1);
  }

  /** A call that read the clock before the span was over finds no times. */
  lemma LateGrant(c: Config, s: State, k: string, n: nat)
    requires ValidConfig(c) && Emptied(c, s, k, n)
    ensures CountIn(History(Next(c, s, Acquire(n, k, c.span - 1)), k), 0, c.span) == n + 1
  {
    HistoryAfter(c, s, n, k, c.span - 1, k);
    assert History(s, k) == Zeros(n);
    CountZeros(n, c.span);
    CountConcat(Zeros(n), [c.span - 1], 0, c.span);
  }

  /** After perWindow leases at time 0, a call that read the clock one nanosecond
      before the span was over gets another lease. */
  lemma LateBreaks(c: Config, late: nat, k: string) returns (t: State)
    requires ValidConfig(c) && IsCentral(k) && late > 0
    ensures Reaches(c, late, t) && CountIn(History(t, k), 0, c.span) == c.perWindow + 1
  {
    var n := c.perWindow;
    var s := TakeMany(c, late, k, n - 1);
    s := TakeOne(c, late, s, k, n - 1);
    s := Refuse(c, late, s, k, n);
    s := DropAll(c, late, s, k, n);
    ReachMore(c, late, s, Acquire(n, k, c.span - 1));
    LateGrant(c, s, k, n);
    t := Next(c, s, Acquire(n, k, c.span - 1));
  }

  /** The rate holds in every run if and only if no stamp is late. */
  lemma RateIffOnTime(c: Config, late: nat)
    requires ValidConfig(c)
    ensures KeepsRate(c, late) <==> late == 0
  {
    if late == 0 {
      forall t, k, w | Reaches(c, 0, t)
        ensures CountIn(History(t, k), w, c.span) <= c.perWindow
      {
        var es :| Run(c, START, es, t) && AllOnTime(c, START, es, 0);
        LimiterHolds(c, es, t, k, w);
      }
    } else {
      var k := "central:" + "a";
      var t := LateBreaks(c, late, k);
      assert !(CountIn(History(t, k), 0, c.span) <= c.perWindow);
    }
  }
}
