/**
 Sliding windows: a list of times that forgets what is older than a span, and
 how much of its whole history any one window of that span can hold.
 */
module Windows {

  /** The times that still count at now; the oldest come first. */
  function Live(times: seq<int>, now: int, span: int): seq<int> {
    if times != [] && now - times[0] >= span then Live(times[1..], now, span) else times
  }

  /** The times that Live drops. */
  function Expired(times: seq<int>, now: int, span: int): seq<int> {
    if times != [] && now - times[0] >= span then [times[0]] + Expired(times[1..], now, span) else []
  }

  /** The number of times in the window of this span that starts at w. */
  function CountIn(times: seq<int>, w: int, span: int): nat {
    if times == [] then 0
    else CountIn(times[..|times| - 1], w, span) + if w <= times[|times| - 1] < w + span then 1 else 0
  }

  /** Every time is out of the span. */
  predicate Old(times: seq<int>, now: int, span: int) {
    forall i :: 0 <= i < |times| ==> now - times[i] >= span
  }

  predicate Sorted(times: seq<int>) {
    forall i, j :: 0 <= i < j < |times| ==> times[i] <= times[j]
  }

  /** In order, and not from the future. */
  predicate Ordered(times: seq<int>, now: int) {
    Sorted(times) && forall i :: 0 <= i < |times| ==> times[i] <= now
  }

  lemma {:induction false} LiveFrom(times: seq<int>, now: int, span: int, cut: nat)
    requires cut <= |times|
    requires forall i :: 0 <= i < cut ==> now - times[i] >= span
    requires cut == |times| || now - times[cut] < span
    ensures Live(times, now, span) == times[cut..]
    decreases cut
  {
    if cut > 0 {
      LiveFrom(times[1..], now, span, cut - 1);
      assert times[1..][cut - 1..] == times[cut..];
    }
  }

  lemma {:induction false} LiveSplit(times: seq<int>, now: int, span: int)
    ensures Expired(times, now, span) + Live(times, now, span) == times
    ensures Old(Expired(times, now, span), now, span)
    ensures Live(times, now, span) == [] || now - Live(times, now, span)[0] < span
  {
    if times != [] && now - times[0] >= span {
      LiveSplit(times[1..], now, span);
    }
  }

  lemma {:induction false} CountConcat(a: seq<int>, b: seq<int>, w: int, span: int)
    ensures CountIn(a + b, w, span) == CountIn(a, w, span) + CountIn(b, w, span)
  {
    if b == [] {
      assert a + b == a;
    } else {
      assert (a + b)[..|a + b| - 1] == a + b[..|b| - 1];
      CountConcat(a, b[..|b| - 1], w, span);
    }
  }

  lemma {:induction false} CountBound(a: seq<int>, w: int, span: int)
    ensures CountIn(a, w, span) <= |a|
    ensures (forall i :: 0 <= i < |a| ==> a[i] < w || a[i] >= w + span) ==> CountIn(a, w, span) == 0
  {
    if a != [] {
      CountBound(a[..|a| - 1], w, span);
    }
  }

  /** A window that holds now holds, of the whole history, only live times. */
  lemma WindowIsLive(dropped: seq<int>, times: seq<int>, now: int, span: int, w: int)
    requires Old(dropped, now, span) && w <= now < w + span
    ensures CountIn(dropped + times, w, span) <= |Live(times, now, span)|
  {
    LiveSplit(times, now, span);
    CountConcat(dropped, times, w, span);
    CountConcat(Expired(times, now, span), Live(times, now, span), w, span);
    CountBound(dropped, w, span);
    CountBound(Expired(times, now, span), w, span);
    CountBound(Live(times, now, span), w, span);
  }

  lemma OldMore(a: seq<int>, before: int, b: seq<int>, now: int, span: int)
    requires Old(a, before, span) && before <= now && Old(b, now, span)
    ensures Old(a, now, span) && Old(a + b, now, span)
  {
  }

  lemma OrderedLive(times: seq<int>, now: int, span: int)
    requires Ordered(times, now)
    ensures Ordered(Live(times, now, span), now)
  {
    LiveSplit(times, now, span);
    var cut, live := |Expired(times, now, span)|, Live(times, now, span);
    assert forall i :: 0 <= i < |live| ==> live[i] == times[cut + i];
  }

  lemma SortedRest(times: seq<int>)
    requires Sorted(times) && times != []
    ensures Sorted(times[1..]) && forall i :: 0 <= i < |times| ==> times[0] <= times[i]
  {
  }

  lemma {:induction false} LiveDrops(times: seq<int>, later: int, span: int, k: nat)
    requires Sorted(times) && k < |times| && later - times[k] >= span
    ensures |Live(times, later, span)| <= |times| - k - 1
    decreases k
  {
    SortedRest(times);
    if k > 0 {
      LiveDrops(times[1..], later, span, k - 1);
    } else {
      LiveSplit(times[1..], later, span);
    }
  }

  lemma {:induction false} LiveKeeps(times: seq<int>, later: int, span: int, k: nat)
    requires Sorted(times) && k < |times| && later - times[k] < span
    ensures |Live(times, later, span)| >= |times| - k
    decreases k
  {
    if later - times[0] >= span {
      SortedRest(times);
      LiveKeeps(times[1..], later, span, k - 1);
    }
  }

  /** In order, a time that is live keeps all after it, and one that is not
      takes all before it along. */
  lemma LiveLater(times: seq<int>, later: int, span: int, k: nat)
    requires Sorted(times) && k < |times|
    ensures later - times[k] >= span ==> |Live(times, later, span)| <= |times| - k - 1
    ensures later - times[k] < span ==> |Live(times, later, span)| >= |times| - k
  {
    if later - times[k] >= span {
      LiveDrops(times, later, span, k);
    } else {
      LiveKeeps(times, later, span, k);
    }
  }

  lemma Regroup(a: seq<int>, b: seq<int>, c: seq<int>, d: seq<int>)
    ensures a + b + c == a + (b + c) && a + b + (c + d) == a + (b + c) + d && a + (b + c) + [] == a + (b + c)
  {
  }
}
