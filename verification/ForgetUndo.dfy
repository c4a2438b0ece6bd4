/**
 What a refused forget leaves of the tombstones. Its rollback deletes the
 tombstone of every captured client id, whoever set it, and its own save drops
 the tombstones that are too old. The tombstones afterwards are therefore those
 that clients and saves alone would have left, less the captured ids.
 */
module ForgetUndo {
  import opened Options
  import opened Hotels
  import opened Forget

  /** s is reached from a broker with the hotel in its set. */
  ghost predicate Reached(s: State) {
    exists s0, es :: Init(s0) && Run(s0, es, s)
  }

  lemma ReachedInv(s: State)
    requires Reached(s)
    ensures Inv(s)
  {
    var s0, es :| Init(s0) && Run(s0, es, s);
    RunInv(s0, es, s);
  }

  /** No event starts another forget or another broker. */
  predicate OneForget(es: seq<Event>) {
    forall i :: 0 <= i < |es| ==> !es[i].Begin? && !es[i].Restart?
  }

  /** The event that takes the tombstones back. */
  predicate TakesBack(e: Event) {
    e.GiveUp? || e.ClearTombs?
  }

  // ------------------------------------------------------------ the tombstones of the others

  /** One event on tombstones that the forget does not add to. */
  function Changed(m: Tombs, now: Time, captured: set<string>, e: Event): Tombs {
    if e.ClientDelete? then m[e.uuid := now]
    else if e.Snap? then LiveTombs(m, now)
    else if TakesBack(e) then m - captured
    else m
  }

  function Later(now: Time, e: Event): Time {
    if e.Tick? then now + e.elapsed else now
  }

  /** What client deletes, saves and the removal of the captured ids make of m. */
  function Expected(m: Tombs, now: Time, captured: set<string>, es: seq<Event>): Tombs
    decreases |es|
  {
    if es == [] then m
    else Expected(Changed(m, now, captured, es[0]), Later(now, es[0]), captured, es[1..])
  }

  /** The same without the removal: as if there were no forget. */
  function Plain(m: Tombs, now: Time, es: seq<Event>): Tombs {
    Expected(m, now, {}, es)
  }

  /** The tombstone of u, if it has one. */
  function At(m: Tombs, u: string): Option<Time> {
    if u in m then Some(m[u]) else None
  }

  /** a and b differ at most at these ids. */
  ghost predicate AgreeOff(a: Tombs, b: Tombs, ids: set<string>) {
    forall u :: u !in ids ==> At(a, u) == At(b, u)
  }

  lemma AgreeLive(a: Tombs, b: Tombs, ids: set<string>, now: Time)
    requires AgreeOff(a, b, ids)
    ensures AgreeOff(LiveTombs(a, now), LiveTombs(b, now), ids)
  {
    forall u | u !in ids
      ensures At(LiveTombs(a, now), u) == At(LiveTombs(b, now), u)
    {
      assert At(a, u) == At(b, u);
    }
  }

  lemma AgreeDelete(a: Tombs, b: Tombs, ids: set<string>, u: string, now: Time)
    requires AgreeOff(a, b, ids)
    ensures AgreeOff(a[u := now], b[u := now], ids)
  {
    forall x | x !in ids
      ensures At(a[u := now], x) == At(b[u := now], x)
    {
      assert At(a, x) == At(b, x);
    }
  }

  lemma AgreeSet(a: Tombs, b: Tombs, ids: set<string>, at: Time)
    requires AgreeOff(a, b, ids)
    ensures AgreeOff(WithTombs(a, ids, at), b, ids)
  {
    forall u | u !in ids
      ensures At(WithTombs(a, ids, at), u) == At(b, u)
    {
      assert At(a, u) == At(b, u);
    }
  }

  lemma AgreeRemoved(a: Tombs, b: Tombs, ids: set<string>)
    requires AgreeOff(a, b, ids)
    ensures a - ids == b - ids
  {
    forall u
      ensures u in a - ids <==> u in b - ids
      ensures u in a - ids ==> a[u] == b[u]
    {
      assert u !in ids ==> At(a, u) == At(b, u);
    }
  }

  // ------------------------------------------------------------ runs of one forget

  predicate TombEvent(e: Event) {
    e.ClientDelete? || e.Snap? || e.SetTombs? || TakesBack(e)
  }

  lemma WriteKeeps(s: State, ok: bool)
    requires s.save.Snapped?
    ensures AfterWrite(s, ok).tombs == s.tombs && AfterWrite(s, ok).captured == s.captured && AfterWrite(s, ok).now == s.now
  {
  }

  lemma OtherTombs(s: State, m: Tombs, ids: set<string>, e: Event)
    requires Enabled(s, e) && !TombEvent(e) && !e.Restart?
    ensures Next(s, e).tombs == s.tombs && Changed(m, s.now, ids, e) == m
  {
    if e.Write? {
      WriteKeeps(s, e.ok);
    }
  }

  lemma StepCaptured(s: State, e: Event)
    requires Enabled(s, e) && !e.Begin? && !e.Restart?
    ensures Next(s, e).captured == s.captured
  {
    if e.Write? {
      WriteKeeps(s, e.ok);
    }
  }

  lemma StepClock(s: State, e: Event)
    requires Enabled(s, e) && !e.Restart?
    ensures Next(s, e).now == Later(s.now, e)
  {
    if e.Write? {
      WriteKeeps(s, e.ok);
    }
  }

  /** An event of the forget touches the captured ids only; all others do to
      the tombstones what they would do without it. */
  lemma StepAgree(s: State, m: Tombs, ids: set<string>, e: Event)
    requires Enabled(s, e) && !e.Restart? && AgreeOff(s.tombs, m, s.captured) && ids <= s.captured
    ensures AgreeOff(Next(s, e).tombs, Changed(m, s.now, ids, e), s.captured)
  {
    if e.ClientDelete? {
      AgreeDelete(s.tombs, m, s.captured, e.uuid, s.now);
    } else if e.Snap? {
      AgreeLive(s.tombs, m, s.captured, s.now);
    } else if e.SetTombs? {
      AgreeSet(s.tombs, m, s.captured, s.now);
    } else if TakesBack(e) {
      AgreeTaken(s.tombs, m, s.captured, ids);
    } else {
      OtherTombs(s, m, ids, e);
    }
  }

  lemma AgreeTaken(a: Tombs, b: Tombs, captured: set<string>, ids: set<string>)
    requires AgreeOff(a, b, captured) && ids <= captured
    ensures AgreeOff(a - captured, b - ids, captured)
  {
    forall u | u !in captured
      ensures At(a - captured, u) == At(b - ids, u)
    {
      assert At(a, u) == At(b, u);
    }
  }

  /** The forget has no tombstones set. */
  predicate Clear(s: State) {
    s.step.Marked? || s.step.Undone? || s.step.Refused?
  }

  /** The tombstones are the expected ones, but for those of the captured ids
      while the forget has them set. */
  ghost predicate Tracks(s: State, m: Tombs) {
    AgreeOff(s.tombs, m, s.captured) && (Clear(s) ==> s.tombs == m) && !s.step.Idle?
  }

  lemma WriteClear(s: State, ok: bool)
    requires Inv(s) && s.save.Snapped?
    ensures Clear(AfterWrite(s, ok)) ==> Clear(s)
    ensures AfterWrite(s, ok).step.Idle? ==> s.step.Idle?
  {
  }

  lemma StepClear(s: State, e: Event)
    requires Inv(s) && Enabled(s, e) && !e.Begin? && !e.Restart? && !s.step.Idle?
    ensures Clear(Next(s, e)) ==> TakesBack(e) || (Clear(s) && !e.SetTombs?)
    ensures !Next(s, e).step.Idle?
  {
    if e.Write? {
      WriteClear(s, e.ok);
    }
  }

  lemma StepTracks(s: State, m: Tombs, e: Event)
    requires Inv(s) && Tracks(s, m) && Enabled(s, e) && !e.Begin? && !e.Restart?
    ensures Tracks(Next(s, e), Changed(m, s.now, s.captured, e))
    ensures Next(s, e).captured == s.captured && Next(s, e).now == Later(s.now, e)
  {
    StepClock(s, e);
    StepCaptured(s, e);
    StepAgree(s, m, s.captured, e);
    StepClear(s, e);
    if TakesBack(e) {
      AgreeRemoved(s.tombs, m, s.captured);
    } else if !TombEvent(e) {
      OtherTombs(s, m, s.captured, e);
    }
  }

  lemma {:induction false} RunTracks(s: State, m: Tombs, es: seq<Event>, t: State)
    requires Inv(s) && Tracks(s, m) && Run(s, es, t) && OneForget(es)
    ensures Tracks(t, Expected(m, s.now, s.captured, es)) && t.captured == s.captured
    decreases |es|
  {
    if es != [] {
      StepTracks(s, m, es[0]);
      StepInv(s, es[0]);
      RunTracks(Next(s, es[0]), Changed(m, s.now, s.captured, es[0]), es[1..], t);
    }
  }

  /** However a forget is refused, and whatever clients, the save loop and the
      sync loop do meanwhile: the tombstones are the old ones with the client
      deletes, less those that a save dropped, less at the rollback those of
      every captured id. */
  lemma RefusedTombs(s: State, c: Condition, es: seq<Event>, t: State)
    requires Reached(s) && Enabled(s, Begin(c)) && Run(Next(s, Begin(c)), es, t) && OneForget(es) && t.step.Refused?
    ensures t.tombs == Expected(s.tombs, s.now, ClientIds(s.rooms), es)
  {
    ReachedInv(s);
    StepInv(s, Begin(c));
    RunTracks(Next(s, Begin(c)), s.tombs, es, t);
  }

  // ------------------------------------------------------------ one client id

  /** The time of the last tombstone of u that the rollback did not remove. */
  function Stamp(start: Option<Time>, now: Time, captured: set<string>, es: seq<Event>, u: string): Option<Time>
    decreases |es|
  {
    if es == [] then start
    else
      var next := if es[0] == ClientDelete(u) then Some(now) else if TakesBack(es[0]) && u in captured then None else start;
      Stamp(next, Later(now, es[0]), captured, es[1..], u)
  }

  /** The time of the last snapshot of a save. */
  function LastSave(start: Option<Time>, now: Time, es: seq<Event>): Option<Time>
    decreases |es|
  {
    if es == [] then start
    else LastSave(if es[0].Snap? then Some(now) else start, Later(now, es[0]), es[1..])
  }

  /** A tombstone of this time outlives a save at that time. */
  predicate Outlives(stamp: Option<Time>, save: Option<Time>) {
    stamp.Some? && (save.Some? ==> save.value - stamp.value <= STATE_KEEP)
  }

  predicate TicksOn(es: seq<Event>) {
    forall i :: 0 <= i < |es| ==> es[i].Tick? ==> es[i].elapsed >= 0
  }

  lemma {:induction false} SavesLater(start: Option<Time>, now: Time, es: seq<Event>)
    requires TicksOn(es) && (start.Some? ==> start.value <= now)
    ensures start.Some? ==> LastSave(start, now, es).Some? && LastSave(start, now, es).value >= start.value
    decreases |es|
  {
    if es != [] {
      SavesLater(if es[0].Snap? then Some(now) else start, Later(now, es[0]), es[1..]);
    }
  }

  /** A start that is dropped is the last stamp, or does not matter. */
  lemma {:induction false} StampFrom(start: Option<Time>, now: Time, captured: set<string>, es: seq<Event>, u: string)
    ensures Stamp(start, now, captured, es, u) == Stamp(None, now, captured, es, u)
         || (Stamp(start, now, captured, es, u) == start && Stamp(None, now, captured, es, u) == None)
    decreases |es|
  {
    if es != [] {
      StampFrom(start, Later(now, es[0]), captured, es[1..], u);
    }
  }

  /** The last save alone decides: u has a tombstone if and only if its last one
      outlives that save. */
  lemma {:induction false} ExpectedAt(m: Tombs, now: Time, captured: set<string>, es: seq<Event>, u: string, saved: Option<Time>)
    requires TicksOn(es) && (saved.Some? ==> saved.value <= now)
    requires u in m ==> Outlives(Some(m[u]), saved)
    ensures var last := Stamp(At(m, u), now, captured, es, u);
      At(Expected(m, now, captured, es), u) == if Outlives(last, LastSave(saved, now, es)) then last else None
    decreases |es|
  {
    if es != [] {
      var n, next := Changed(m, now, captured, es[0]), if es[0].Snap? then Some(now) else saved;
      ExpectedAt(n, Later(now, es[0]), captured, es[1..], u, next);
      if es[0].Snap? && u in m && u !in n {
        StampFrom(Some(m[u]), Later(now, es[0]), captured, es[1..], u);
        SavesLater(next, Later(now, es[0]), es[1..]);
      }
    }
  }

  // ------------------------------------------------------------ as before, exactly when

  predicate NoDeletes(es: seq<Event>) {
    forall i :: 0 <= i < |es| ==> !es[i].ClientDelete?
  }

  predicate RollsBack(es: seq<Event>) {
    exists i :: 0 <= i < |es| && TakesBack(es[i])
  }

  lemma {:induction false} StampKept(start: Option<Time>, now: Time, captured: set<string>, es: seq<Event>, u: string)
    requires NoDeletes(es)
    ensures Stamp(start, now, captured, es, u) == if RollsBack(es) && u in captured then None else start
    decreases |es|
  {
    if es != [] {
      var next := if TakesBack(es[0]) && u in captured then None else start;
      StampKept(next, Later(now, es[0]), captured, es[1..], u);
      assert RollsBack(es) <==> TakesBack(es[0]) || RollsBack(es[1..]) by {
        if RollsBack(es[1..]) {
          var i :| 0 <= i < |es[1..]| && TakesBack(es[1..][i]);
          assert TakesBack(es[i + 1]);
        }
        if i :| 0 < i < |es| && TakesBack(es[i]) {
          assert TakesBack(es[1..][i - 1]);
        }
      }
    }
  }

  lemma {:induction false} RunTicks(s: State, es: seq<Event>, t: State)
    requires Run(s, es, t)
    ensures TicksOn(es)
    decreases |es|
  {
    if es != [] {
      RunTicks(Next(s, es[0]), es[1..], t);
      assert forall i :: 0 < i < |es| ==> es[i] == es[1..][i - 1];
    }
  }

  /** The tombstone of u stays as it is in a forget that is refused. */
  predicate Spared(s: State, es: seq<Event>, u: string)
    requires u in s.tombs
  {
    && !(RollsBack(es) && u in ClientIds(s.rooms))
    && Outlives(Some(s.tombs[u]), LastSave(None, s.now, es))
  }

  /** Without client deletes meanwhile, a refused forget leaves the tombstones as
      they were if and only if none of them belongs to a room of the hotel, when
      tombstones were taken back, and none is too old at the last save. */
  lemma RollbackIff(s: State, c: Condition, es: seq<Event>, t: State)
    requires Reached(s) && Enabled(s, Begin(c)) && Run(Next(s, Begin(c)), es, t) && OneForget(es) && t.step.Refused?
    requires NoDeletes(es)
    ensures t.tombs == s.tombs <==> forall u :: u in s.tombs ==> Spared(s, es, u)
  {
    RefusedTombs(s, c, es, t);
    RunTicks(Next(s, Begin(c)), es, t);
    forall u
      ensures At(t.tombs, u) == if u in s.tombs && Spared(s, es, u) then Some(s.tombs[u]) else None
    {
      ExpectedAt(s.tombs, s.now, ClientIds(s.rooms), es, u, None);
      StampKept(At(s.tombs, u), s.now, ClientIds(s.rooms), es, u);
    }
    SameAt(s.tombs, t.tombs);
    if t.tombs == s.tombs {
      forall u | u in s.tombs
        ensures Spared(s, es, u)
      {
        assert At(t.tombs, u) == Some(s.tombs[u]);
      }
    }
  }

  lemma SameAt(a: Tombs, b: Tombs)
    ensures (forall u :: At(a, u) == At(b, u)) ==> a == b
  {
    if forall u :: At(a, u) == At(b, u) {
      forall u
        ensures u in a <==> u in b
        ensures u in a ==> a[u] == b[u]
      {
        assert At(a, u) == At(b, u);
      }
    }
  }

  // ------------------------------------------------------------ with client deletes

  lemma {:induction false} RunAgrees(s: State, m: Tombs, es: seq<Event>, t: State)
    requires AgreeOff(s.tombs, m, s.captured) && Run(s, es, t) && OneForget(es)
    ensures AgreeOff(t.tombs, Plain(m, s.now, es), s.captured) && t.captured == s.captured
    decreases |es|
  {
    if es != [] {
      StepClock(s, es[0]);
      StepCaptured(s, es[0]);
      StepAgree(s, m, {}, es[0]);
      RunAgrees(Next(s, es[0]), Changed(m, s.now, {}, es[0]), es[1..], t);
    }
  }

  /** u has a tombstone of its own: a client deleted u before the forget or in
      the course of it, and no save dropped that. */
  predicate OwnTomb(s: State, es: seq<Event>, u: string) {
    Outlives(Stamp(At(s.tombs, u), s.now, {}, es, u), LastSave(None, s.now, es))
  }

  /** The rollback leaves what clients and saves alone would have left if and
      only if no captured id has a tombstone of its own. */
  lemma RollbackSpares(s: State, c: Condition, es: seq<Event>, t: State, e: Event)
    requires Enabled(s, Begin(c)) && Run(Next(s, Begin(c)), es, t) && OneForget(es)
    requires TakesBack(e) && Enabled(t, e)
    ensures Next(t, e).tombs == Plain(s.tombs, s.now, es) - ClientIds(s.rooms)
    ensures Next(t, e).tombs == Plain(s.tombs, s.now, es) <==> forall u :: u in ClientIds(s.rooms) ==> !OwnTomb(s, es, u)
  {
    var s1, m := Next(s, Begin(c)), Plain(s.tombs, s.now, es);
    RunAgrees(s1, s.tombs, es, t);
    RunTicks(s1, es, t);
    forall u
      ensures u in m <==> OwnTomb(s, es, u)
    {
      ExpectedAt(s.tombs, s.now, {}, es, u, None);
    }
    AgreeRemoved(t.tombs, m, ClientIds(s.rooms));
    Removal(m, ClientIds(s.rooms));
  }

  lemma Removal(m: Tombs, gone: set<string>)
    ensures m - gone == m <==> forall u :: u in gone ==> u !in m
  {
    if u :| u in gone && u in m {
      assert u !in m - gone;
    }
  }

  // ------------------------------------------------------------ the inputs that fail

  lemma RunOne(s: State, e: Event, es: seq<Event>, t: State)
    requires Enabled(s, e) && Run(Next(s, e), es, t)
    ensures Run(s, [e] + es, t)
  {
    assert ([e] + es)[1..] == es;
  }

  /** The save of the forget fails, and the forget gives up. */
  const NOT_SAVED := [SetTombs] + ([ForgetLock] + ([Snap] + ([Write(false)] + ([GiveUp] + []))))

  lemma NotSaved(s: State) returns (t: State)
    requires s.step.Marked? && s.save.NoSave?
    ensures Run(s, NOT_SAVED, t) && t.step.Refused?
    ensures t.tombs == LiveTombs(WithTombs(s.tombs, s.captured, s.now), s.now) - s.captured
  {
    var s1 := Next(s, SetTombs);
    var s2 := Next(s1, ForgetLock);
    var s3 := Next(s2, Snap);
    var s4 := Next(s3, Write(false));
    t := Next(s4, GiveUp);
    RunOne(s4, GiveUp, [], t);
    RunOne(s3, Write(false), [GiveUp] + [], t);
    RunOne(s2, Snap, [Write(false)] + ([GiveUp] + []), t);
    RunOne(s1, ForgetLock, [Snap] + ([Write(false)] + ([GiveUp] + [])), t);
    RunOne(s, SetTombs, [ForgetLock] + ([Snap] + ([Write(false)] + ([GiveUp] + []))), t);
  }

  /** A broker whose hotel has the one room "r" of client id "u". */
  function OneRoom(now: Time, tombs: Tombs): (s: State)
    ensures Init(s) && ClientIds(s.rooms) == {"u"}
  {
    var s := State(now, true, false, map["r" := "u"], {"u"}, tombs, false, NoSave, true, map[], Idle, {}, now);
    assert (set room | room in s.rooms :: s.rooms[room]) == {"u"} by {
      assert "r" in s.rooms;
    }
    s
  }

  const DEAD := Condition(true, true, false, Some(0), 0, 0)

  /** An old tombstone of another client is gone after the rollback: the failed
      save dropped it, though no room of the hotel had one. */
  lemma OldTombLost(now: Time) returns (s: State, t: State)
    requires now >= FORGET_DOWN_FOR
    ensures Init(s) && Enabled(s, Begin(DEAD)) && Run(Next(s, Begin(DEAD)), NOT_SAVED, t) && t.step.Refused?
    ensures ClientIds(s.rooms) !! s.tombs.Keys && s.tombs.Keys == {"old"} && t.tombs == map[]
  {
    s := OneRoom(now, map["old" := now - STATE_KEEP - 1]);
    var s1 := Next(s, Begin(DEAD));
    t := NotSaved(s1);
    assert LiveTombs(WithTombs(s.tombs, {"u"}, now), now) - {"u"} == map[];
  }

  /** A tombstone that a client had set before the forget is gone after it. */
  lemma OwnTombLost(now: Time) returns (s: State, t: State)
    requires now >= FORGET_DOWN_FOR
    ensures Init(s) && Enabled(s, Begin(DEAD)) && Run(Next(s, Begin(DEAD)), NOT_SAVED, t) && t.step.Refused?
    ensures s.tombs == map["u" := now] && t.tombs == map[]
  {
    s := OneRoom(now, map["u" := now]);
    var s1 := Next(s, Begin(DEAD));
    t := NotSaved(s1);
    assert LiveTombs(WithTombs(s.tombs, {"u"}, now), now) - {"u"} == map[];
  }

  /** The same with a client that deletes its room while the forget saves. */
  const NOT_SAVED_DELETE := [SetTombs] + ([ForgetLock] + ([Snap] + ([ClientDelete("u")] + ([Write(false)] + ([GiveUp] + [])))))

  lemma NotSavedDelete(s: State) returns (t: State)
    requires s.step.Marked? && s.save.NoSave?
    ensures Run(s, NOT_SAVED_DELETE, t) && t.step.Refused?
    ensures t.tombs == LiveTombs(WithTombs(s.tombs, s.captured, s.now), s.now)["u" := s.now] - s.captured
  {
    var s1 := Next(s, SetTombs);
    var s2 := Next(s1, ForgetLock);
    var s3 := Next(s2, Snap);
    var s4 := Next(s3, ClientDelete("u"));
    var s5 := Next(s4, Write(false));
    t := Next(s5, GiveUp);
    RunOne(s5, GiveUp, [], t);
    RunOne(s4, Write(false), [GiveUp] + [], t);
    RunOne(s3, ClientDelete("u"), [Write(false)] + ([GiveUp] + []), t);
    RunOne(s2, Snap, [ClientDelete("u")] + ([Write(false)] + ([GiveUp] + [])), t);
    RunOne(s1, ForgetLock, [Snap] + ([ClientDelete("u")] + ([Write(false)] + ([GiveUp] + []))), t);
    RunOne(s, SetTombs, [ForgetLock] + ([Snap] + ([ClientDelete("u")] + ([Write(false)] + ([GiveUp] + [])))), t);
  }

  /** A client that deletes its room while the forget saves has no tombstone
      after the rollback. */
  lemma DeleteLost(now: Time) returns (s: State, t: State)
    requires now >= FORGET_DOWN_FOR
    ensures Init(s) && Enabled(s, Begin(DEAD)) && Run(Next(s, Begin(DEAD)), NOT_SAVED_DELETE, t) && t.step.Refused?
    ensures s.tombs == map[] && t.tombs == map[]
  {
    s := OneRoom(now, map[]);
    t := NotSavedDelete(Next(s, Begin(DEAD)));
    assert LiveTombs(WithTombs(s.tombs, {"u"}, now), now)["u" := now] - {"u"} == map[];
  }
}
