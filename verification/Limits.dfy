/**
 The room and rate limits of a guest. The broker keeps the times of the rooms it
 admitted in the last minute; the history of all admitted rooms is only here.
 */
module Limits {
  import opened Hotels
  import opened Placement
  import opened Windows

  const DEFAULT_MAX_ROOMS := 1000

  function MaxRooms(l: GuestLimits): (n: int)
    ensures n > 0
  {
    if l.maxRooms > 0 then l.maxRooms else DEFAULT_MAX_ROOMS
  }

  /** The answer to a create of n rooms; retry is the Retry-After in seconds. */
  datatype Verdict = Admit | RoomLimit(retry: int) | RateLimit(retry: int)

  // ------------------------------------------------------------ the rules

  predicate RatePasses(max: int, admits: seq<Time>, n: nat, now: Time) {
    |Live(admits, now, MINUTE)| + n <= max
  }

  /** Whole seconds, rounded up. */
  function CeilSeconds(d: Time): int {
    (d + SECOND - 1) / SECOND
  }

  function RetryAfter(max: int, live: seq<Time>, n: nat, now: Time): int
    requires |live| + n > max
  {
    if live != [] && n <= max then
      var wait := CeilSeconds(MINUTE - (now - live[|live| + n - max - 1]));
      if wait < 1 then 1 else wait
    else 60
  }

  function VerdictOf(l: GuestLimits, admits: seq<Time>, active: int, n: nat, now: Time): Verdict {
    if active + n > MaxRooms(l) then RoomLimit(10)
    else if l.maxCreatesPerMinute > 0 && !RatePasses(l.maxCreatesPerMinute, admits, n, now)
    then RateLimit(RetryAfter(l.maxCreatesPerMinute, Live(admits, now, MINUTE), n, now))
    else Admit
  }

  function Copies(n: nat, t: Time): seq<Time> {
    seq(n, i => t)
  }

  function AdmitsAfter(l: GuestLimits, admits: seq<Time>, active: int, n: nat, now: Time): seq<Time> {
    if l.maxCreatesPerMinute <= 0 || active + n > MaxRooms(l) then admits
    else if RatePasses(l.maxCreatesPerMinute, admits, n, now) then Live(admits, now, MINUTE) + Copies(n, now)
    else Live(admits, now, MINUTE)
  }

  // ------------------------------------------------------------ the guest

  class GuestState {
    var limits: GuestLimits
    var admits: seq<Time>
    var pending: int

    constructor (l: GuestLimits)
      ensures limits == l && admits == [] && pending == 0
    {
      limits, admits, pending := l, [], 0;
    }

    /** running: the guest's rooms that run now. */
    method Admit(running: int, n: nat, now: Time) returns (v: Verdict)
      modifies this`admits, this`pending
      ensures v == VerdictOf(limits, old(admits), running + old(pending), n, now)
      ensures admits == AdmitsAfter(limits, old(admits), running + old(pending), n, now)
      ensures pending == old(pending) + if v.Admit? then n else 0
    {
      if running + pending + n > MaxRooms(limits) {
        return RoomLimit(10);
      }
      var max := limits.maxCreatesPerMinute;
      if max > 0 {
        var cut := 0;
        while cut < |admits| && now - admits[cut] >= MINUTE
          invariant 0 <= cut <= |admits| && admits == old(admits) && pending == old(pending)
          invariant forall i :: 0 <= i < cut ==> now - admits[i] >= MINUTE
        {
          cut := cut + 1;
        }
        LiveFrom(admits, now, MINUTE, cut);
        admits := admits[cut..];
        if |admits| + n > max {
          var wait := 60;
          if |admits| > 0 && n <= max {
            var idx := |admits| + n - max - 1;
            wait := CeilSeconds(MINUTE - (now - admits[idx]));
            if wait < 1 {
              wait := 1;
            }
          }
          return RateLimit(wait);
        }
        ghost var live := admits;
        var i := 0;
        while i < n
          invariant 0 <= i <= n && admits == live + Copies(i, now) && pending == old(pending)
        {
          admits := admits + [now];
          i := i + 1;
        }
      }
      pending := pending + n;
      v := Verdict.Admit;
    }

    method Unreserve(n: nat)
      modifies this`pending
      ensures pending == old(pending) - n
    {
      pending := pending - n;
    }
  }

  // ------------------------------------------------------------ the rate

  /** One call of Admit, with the rooms in use when it came. */
  datatype Call = Call(at: Time, n: nat, active: int)

  /** The admits of a rate-limited guest: those the broker still keeps, and
      those it dropped. */
  datatype Book = Book(dropped: seq<Time>, admits: seq<Time>)

  /** Every room that was admitted. */
  function History(b: Book): seq<Time> {
    b.dropped + b.admits
  }

  function After(l: GuestLimits, b: Book, c: Call): (r: Book)
    requires l.maxCreatesPerMinute > 0
    ensures r.admits == AdmitsAfter(l, b.admits, c.active, c.n, c.at)
  {
    if c.active + c.n > MaxRooms(l) then b
    else Book(b.dropped + Expired(b.admits, c.at, MINUTE), AdmitsAfter(l, b.admits, c.active, c.n, c.at))
  }

  function Calls(l: GuestLimits, cs: seq<Call>): Book
    requires l.maxCreatesPerMinute > 0
  {
    if cs == [] then Book([], []) else After(l, Calls(l, cs[..|cs| - 1]), cs[|cs| - 1])
  }

  predicate InOrder(cs: seq<Call>) {
    forall i, j :: 0 <= i < j < |cs| ==> cs[i].at <= cs[j].at
  }

  /** What was dropped is old enough. */
  predicate Faithful(b: Book, now: Time) {
    Old(b.dropped, now, MINUTE) && Ordered(b.admits, now)
  }

  lemma OrderedMore(a: seq<Time>, n: nat, now: Time)
    requires Ordered(a, now)
    ensures Ordered(a + Copies(n, now), now)
  {
  }

  lemma FaithfulTrim(b: Book, before: Time, at: Time)
    requires Faithful(b, before) && before <= at
    ensures Faithful(b, at) && Faithful(Book(b.dropped + Expired(b.admits, at, MINUTE), Live(b.admits, at, MINUTE)), at)
  {
    LiveSplit(b.admits, at, MINUTE);
    OldMore(b.dropped, before, Expired(b.admits, at, MINUTE), at, MINUTE);
    OrderedLive(b.admits, at, MINUTE);
  }

  lemma FaithfulStep(l: GuestLimits, b: Book, before: Time, c: Call)
    requires Faithful(b, before) && before <= c.at && l.maxCreatesPerMinute > 0
    ensures Faithful(After(l, b, c), c.at)
  {
    FaithfulTrim(b, before, c.at);
    OrderedMore(Live(b.admits, c.at, MINUTE), c.n, c.at);
  }

  /** What a call adds to the history. */
  lemma HistoryGrows(l: GuestLimits, b: Book, c: Call)
    requires l.maxCreatesPerMinute > 0
    ensures History(After(l, b, c))
         == History(b) + if VerdictOf(l, b.admits, c.active, c.n, c.at).Admit? then Copies(c.n, c.at) else []
  {
    LiveSplit(b.admits, c.at, MINUTE);
    Regroup(b.dropped, Expired(b.admits, c.at, MINUTE), Live(b.admits, c.at, MINUTE), Copies(c.n, c.at));
  }

  lemma RateStep(l: GuestLimits, b: Book, before: Time, c: Call, w: Time)
    requires Faithful(b, before) && before <= c.at && l.maxCreatesPerMinute > 0
    requires CountIn(History(b), w, MINUTE) <= l.maxCreatesPerMinute
    ensures CountIn(History(After(l, b, c)), w, MINUTE) <= l.maxCreatesPerMinute
  {
    HistoryGrows(l, b, c);
    assert History(b) + [] == History(b);
    CountConcat(History(b), Copies(c.n, c.at), w, MINUTE);
    CountBound(Copies(c.n, c.at), w, MINUTE);
    if w <= c.at < w + MINUTE {
      WindowIsLive(b.dropped, b.admits, c.at, MINUTE, w);
    }
  }

  lemma {:induction false} CallsFaithful(l: GuestLimits, cs: seq<Call>)
    requires InOrder(cs) && cs != [] && l.maxCreatesPerMinute > 0
    ensures Faithful(Calls(l, cs), cs[|cs| - 1].at)
  {
    var before := cs[..|cs| - 1];
    if before == [] {
      FaithfulStep(l, Book([], []), cs[0].at, cs[0]);
    } else {
      CallsFaithful(l, before);
      FaithfulStep(l, Calls(l, before), before[|before| - 1].at, cs[|cs| - 1]);
    }
  }

  /** With fixed limits no 60 seconds hold more than max admitted rooms. */
  lemma {:induction false} RateHolds(l: GuestLimits, cs: seq<Call>, w: Time)
    requires InOrder(cs) && l.maxCreatesPerMinute > 0
    ensures CountIn(History(Calls(l, cs)), w, MINUTE) <= l.maxCreatesPerMinute
  {
    if cs != [] {
      var before, c := cs[..|cs| - 1], cs[|cs| - 1];
      RateHolds(l, before, w);
      if before != [] {
        CallsFaithful(l, before);
        RateStep(l, Calls(l, before), before[|before| - 1].at, c, w);
      } else {
        RateStep(l, Book([], []), c.at, c, w);
      }
    }
  }

  // ------------------------------------------------------------ Retry-After

  /** For a batch that can fit, Retry-After is the least whole number of seconds
      after which the same request passes the rate check. */
  lemma RetryIsLeast(max: int, admits: seq<Time>, n: nat, now: Time, s: nat)
    requires Ordered(admits, now) && n <= max && !RatePasses(max, admits, n, now)
    ensures RetryAfter(max, Live(admits, now, MINUTE), n, now) >= 1
    ensures RatePasses(max, Live(admits, now, MINUTE), n, now + s * SECOND) <==> s >= RetryAfter(max, Live(admits, now, MINUTE), n, now)
  {
    var live := Live(admits, now, MINUTE);
    OrderedLive(admits, now, MINUTE);
    LiveSplit(admits, now, MINUTE);
    RetryFrom(max, live, n, now, s, |live| + n - max - 1);
  }

  lemma RetryFrom(max: int, live: seq<Time>, n: nat, now: Time, s: nat, idx: nat)
    requires Sorted(live) && n <= max && idx == |live| + n - max - 1 && now - live[0] < MINUTE
    ensures RetryAfter(max, live, n, now) >= 1
    ensures RatePasses(max, live, n, now + s * SECOND) <==> s >= RetryAfter(max, live, n, now)
  {
    assert live[0] <= live[idx];
    LiveLater(live, now + s * SECOND, MINUTE, idx);
    SecondsUp(MINUTE - (now - live[idx]), s);
  }

  lemma SecondsUp(d: Time, s: nat)
    requires d > 0
    ensures CeilSeconds(d) >= 1
    ensures s * SECOND >= d <==> s >= CeilSeconds(d)
  {
  }
}
