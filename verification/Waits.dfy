/**
 Create times, queue waits and draw weights of one hotel.
 */
module Waits {
  import opened Hotels

  const DEFAULT_CREATE_SEC := 1.0
  const MIN_HEADROOM := 0.05
  const EWMA_ALPHA := 0.2

  /** Seconds one create takes: the moving average, or the default before the first. */
  function CreateTime(h: Hotel): (t: real)
    ensures t > 0.0
  {
    if h.createEwma <= 0.0 then DEFAULT_CREATE_SEC else h.createEwma
  }

  function NoteCreate(h: Hotel, sec: real): Hotel {
    h.(createEwma := if h.createEwma == 0.0 then sec else EWMA_ALPHA * sec + (1.0 - EWMA_ALPHA) * h.createEwma)
  }

  /** Seconds until the create at place `place` of the queue can start. */
  function WaitAt(h: Hotel, place: int): (w: real)
    ensures w >= 0.0
  {
    var ahead := place - Concurrency(h);
    if ahead < 0 then 0.0 else ahead as real / Concurrency(h) as real * CreateTime(h)
  }

  /** Seconds until a create that joins now (extra = 1) or is in the queue (extra = 0) can start. */
  function ExpectedWait(h: Hotel, extra: int): real {
    WaitAt(h, h.queued + h.creating + extra)
  }

  function Headroom(h: Hotel): (r: real)
    ensures r >= MIN_HEADROOM
  {
    var raw := if h.cpuPct > 0.0 then (100.0 - h.cpuPct) / 100.0 else 1.0;
    if raw < MIN_HEADROOM then MIN_HEADROOM else raw
  }

  /** The draw weight of a hotel with `free` free rooms. */
  function Weight(h: Hotel, free: int): (w: real)
    requires h.queued + h.creating >= 0
    ensures free > 0 ==> w > 0.0
  {
    var create := CreateTime(h);
    var wait := (h.queued + h.creating) as real / Concurrency(h) as real * create;
    assert wait >= 0.0;
    var cost := create * (1.0 + wait);
    assert cost > 0.0;
    free as real * Headroom(h) / cost
  }
}
