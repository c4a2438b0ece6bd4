/**
 Workers that share one store of central access: the revocation list in force
 and the delegation high-water. A store call is one transaction and may fail,
 before or after its commit; a worker may start again at any time.
 */
module CentralAccess {
  import opened Options

  /** A revocation list. signer: the root key that signed it; wellFormed: its
      fields, order and size are right and the signature checks. */
  datatype Document = Document(sequence: int, revoked: set<string>, signer: string, wellFormed: bool)

  /** FailsAfter: the commit happened and the caller does not know. */
  datatype Outcome = Works | FailsBefore | FailsAfter

  const MAX_SEQUENCE := 0x8000_0000_0000_0000

  /** The tables of the state file. */
  datatype Tables = Tables(highWater: int, list: Option<Document>)

  /** What a worker keeps in memory. */
  datatype Worker = Worker(roots: set<string>, highWater: int, sequence: int, revoked: set<string>)

  // ------------------------------------------------------------ rules

  predicate Verifies(d: Document, roots: set<string>, minimum: int) {
    d.wellFormed && 1 <= d.sequence < MAX_SEQUENCE && d.sequence >= minimum && d.signer in roots
  }

  function ListSequence(s: Tables): int {
    if s.list.Some? then s.list.value.sequence else 0
  }

  function Max(a: int, b: int): int {
    if a < b then b else a
  }

  function RaisedTables(s: Tables, sequence: int, o: Outcome): Tables {
    if o.FailsBefore? then s else s.(highWater := Max(s.highWater, sequence))
  }

  function StoredTables(s: Tables, d: Document, o: Outcome): Tables {
    if o.FailsBefore? || (s.list.Some? && d.sequence <= s.list.value.sequence) then s else s.(list := Some(d))
  }

  /** The list the worker verified may be tried against the store. */
  predicate Installable(w: Worker, d: Document) {
    Verifies(d, w.roots, w.sequence) && (d.sequence == w.sequence ==> d.revoked == w.revoked)
  }

  /** What the store gave back is the list itself. */
  predicate Confirmed(w: Worker, d: Document, stored: Document) {
    stored.sequence == d.sequence && Verifies(stored, w.roots, d.sequence) && stored.revoked == d.revoked
  }

  predicate Installs(w: Worker, s: Tables, d: Document, o: Outcome) {
    && Installable(w, d) && o.Works?
    && StoredTables(s, d, o).list.Some? && Confirmed(w, d, StoredTables(s, d, o).list.value)
  }

  function AfterInstall(w: Worker, s: Tables, d: Document, o: Outcome): Worker {
    if Installs(w, s, d, o) then w.(sequence := d.sequence, revoked := d.revoked) else w
  }

  function TablesAfterInstall(w: Worker, s: Tables, d: Document, o: Outcome): Tables {
    if Installable(w, d) then StoredTables(s, d, o) else s
  }

  /** The last step of preauthorize. */
  function AfterRaise(w: Worker, s: Tables, sequence: int, o: Outcome): Worker {
    if o.Works? then w.(highWater := Max(w.highWater, RaisedTables(s, sequence, o).highWater)) else w
  }

  predicate RaiseAccepts(w: Worker, s: Tables, sequence: int, o: Outcome) {
    o.Works? && sequence >= AfterRaise(w, s, sequence, o).highWater
  }

  /** The high-water part of finalize; ok: the store can be read. */
  function AfterRead(w: Worker, s: Tables, digest: string, ok: bool): Worker {
    if ok && digest !in w.revoked then w.(highWater := Max(w.highWater, s.highWater)) else w
  }

  predicate ReadAccepts(w: Worker, s: Tables, digest: string, sequence: int, ok: bool) {
    ok && digest !in w.revoked && sequence >= Max(w.highWater, s.highWater)
  }

  /** A worker that starts: seen is the high-water it read. None: it does not start. */
  function Started(roots: set<string>, s: Tables, seen: int): Option<Worker> {
    if s.list.None? then Some(Worker(roots, seen, 0, {}))
    else if Verifies(s.list.value, roots, s.list.value.sequence)
    then Some(Worker(roots, seen, s.list.value.sequence, s.list.value.revoked))
    else None
  }

  // ------------------------------------------------------------ objects

  class Store {
    var highWater: int
    var list: Option<Document>

    constructor ()
      ensures View() == Tables(0, None)
    {
      highWater, list := 0, None;
    }

    function View(): Tables
      reads this
    {
      Tables(highWater, list)
    }

    method Raise(sequence: int, o: Outcome) returns (stored: Option<int>)
      modifies this`highWater
      ensures View() == RaisedTables(old(View()), sequence, o)
      ensures stored == if o.Works? then Some(highWater) else None
    {
      if o.FailsBefore? {
        return None;
      }
      if highWater < sequence {
        highWater := sequence;
      }
      stored := if o.Works? then Some(highWater) else None;
    }

    method Keep(d: Document, o: Outcome) returns (stored: Option<Document>)
      modifies this`list
      ensures View() == StoredTables(old(View()), d, o)
      ensures stored == if o.Works? then list else None
    {
      if o.FailsBefore? {
        return None;
      }
      if list.None? || d.sequence > list.value.sequence {
        list := Some(d);
      }
      stored := if o.Works? then list else None;
    }
  }

  class Authorizer {
    const roots: set<string>
    var highWater: int
    var sequence: int
    var revoked: set<string>

    constructor (keys: set<string>, seen: int, stored: Option<Document>)
      requires Started(keys, Tables(seen, stored), seen).Some?
      ensures View() == Started(keys, Tables(seen, stored), seen).value
    {
      roots, highWater := keys, seen;
      sequence := if stored.Some? then stored.value.sequence else 0;
      revoked := if stored.Some? then stored.value.revoked else {};
    }

    function View(): Worker
      reads this
    {
      Worker(roots, highWater, sequence, revoked)
    }

    method Install(store: Store, d: Document, o: Outcome) returns (ok: bool)
      modifies this`sequence, this`revoked, store`list
      ensures ok == Installs(old(View()), old(store.View()), d, o)
      ensures View() == AfterInstall(old(View()), old(store.View()), d, o)
      ensures store.View() == TablesAfterInstall(old(View()), old(store.View()), d, o)
    {
      if !Verifies(d, roots, sequence) || (d.sequence == sequence && d.revoked != revoked) {
        return false;
      }
      var stored := store.Keep(d, o);
      if stored.None? || stored.value.sequence != d.sequence || !Verifies(stored.value, roots, d.sequence)
         || stored.value.revoked != d.revoked {
        return false;
      }
      sequence, revoked := d.sequence, d.revoked;
      ok := true;
    }

    /** The last step of preauthorize. */
    method Accept(store: Store, delegation: int, o: Outcome) returns (ok: bool)
      modifies this`highWater, store`highWater
      ensures ok == RaiseAccepts(old(View()), old(store.View()), delegation, o)
      ensures View() == AfterRaise(old(View()), old(store.View()), delegation, o)
      ensures store.View() == RaisedTables(old(store.View()), delegation, o)
    {
      var stored := store.Raise(delegation, o);
      if stored.None? {
        return false;
      }
      highWater := Max(highWater, stored.value);
      ok := delegation >= highWater;
    }

    /** The revocation and high-water checks of finalize. */
    method Recheck(store: Store, digest: string, delegation: int, readable: bool) returns (ok: bool)
      modifies this`highWater
      ensures ok == ReadAccepts(old(View()), store.View(), digest, delegation, readable)
      ensures View() == AfterRead(old(View()), store.View(), digest, readable)
    {
      if digest in revoked || !readable {
        return false;
      }
      highWater := Max(highWater, store.highWater);
      ok := delegation >= highWater;
    }
  }

  // ------------------------------------------------------------ the system

  /** A request that passed the last step of preauthorize. */
  datatype Request = Request(worker: string, digest: string, sequence: int)

  /** log: the delegation sequences accepted, by any worker, in order. lists:
      the revoked set of every sequence that was ever stored. Both are history. */
  datatype System = System(
    store: Tables,
    workers: map<string, Worker>,
    requests: map<nat, Request>,
    log: seq<int>,
    lists: map<int, set<string>>)

  datatype Event =
    | Start(worker: string, roots: set<string>, seen: int)
    | Stop(worker: string)
    | Install(worker: string, list: Document, outcome: Outcome)
    | Preauthorize(id: nat, worker: string, digest: string, sequence: int, outcome: Outcome)
    | Finalize(id: nat, readable: bool)

  predicate Enabled(s: System, e: Event) {
    match e
    case Start(w, roots, seen) => w !in s.workers && 0 <= seen <= s.store.highWater && Started(roots, s.store, seen).Some?
    case Stop(w) => w in s.workers
    case Install(w, d, o) => w in s.workers
    case Preauthorize(id, w, digest, sequence, o) =>
      // the earlier check against the worker's memory can only refuse more
      w in s.workers && id !in s.requests && sequence >= 1
    case Finalize(id, readable) => id in s.requests && s.requests[id].worker in s.workers
  }

  function Recorded(lists: map<int, set<string>>, list: Option<Document>): map<int, set<string>> {
    if list.Some? then lists[list.value.sequence := list.value.revoked] else lists
  }

  function Next(s: System, e: Event): System
    requires Enabled(s, e)
  {
    match e
    case Start(w, roots, seen) => s.(workers := s.workers[w := Started(roots, s.store, seen).value])
    case Stop(w) => s.(workers := s.workers - {w})
    case Install(w, d, o) =>
      var store := TablesAfterInstall(s.workers[w], s.store, d, o);
      s.(store := store, workers := s.workers[w := AfterInstall(s.workers[w], s.store, d, o)],
         lists := Recorded(s.lists, store.list))
    case Preauthorize(id, w, digest, sequence, o) =>
      var accepted := RaiseAccepts(s.workers[w], s.store, sequence, o);
      s.(store := RaisedTables(s.store, sequence, o), workers := s.workers[w := AfterRaise(s.workers[w], s.store, sequence, o)],
         requests := if accepted then s.requests[id := Request(w, digest, sequence)] else s.requests,
         log := if accepted then s.log + [sequence] else s.log)
    case Finalize(id, readable) =>
      var r := s.requests[id];
      var w := s.workers[r.worker];
      s.(workers := s.workers[r.worker := AfterRead(w, s.store, r.digest, readable)],
         log := if ReadAccepts(w, s.store, r.digest, r.sequence, readable) then s.log + [r.sequence] else s.log)
  }

  ghost predicate Run(s: System, es: seq<Event>, t: System)
    decreases |es|
  {
    if es == [] then s == t else Enabled(s, es[0]) && Run(Next(s, es[0]), es[1..], t)
  }

  const EMPTY := System(Tables(0, None), map[], map[], [], map[])

  // ------------------------------------------------------------ the invariant

  /** The list a worker holds is the one list of its sequence. */
  predicate WorkerOk(s: System, w: Worker) {
    && 0 <= w.sequence <= ListSequence(s.store)
    && (w.sequence == 0 ==> w.revoked == {})
    && (w.sequence > 0 ==> w.sequence in s.lists && s.lists[w.sequence] == w.revoked)
  }

  predicate StoreOk(s: System) {
    && s.store.highWater >= 0
    && (s.store.list.Some? ==> s.store.list.value.sequence >= 1)
    && (s.store.list.Some? ==> s.store.list.value.sequence in s.lists
                               && s.lists[s.store.list.value.sequence] == s.store.list.value.revoked)
    && (forall q :: q in s.lists ==> q <= ListSequence(s.store))
  }

  predicate LogOk(s: System) {
    && (forall i :: 0 <= i < |s.log| ==> s.log[i] <= s.store.highWater)
    && (forall i, j :: 0 <= i < j < |s.log| ==> s.log[i] <= s.log[j])
    && (forall id :: id in s.requests ==> s.requests[id].sequence <= s.store.highWater)
  }

  predicate Inv(s: System) {
    StoreOk(s) && LogOk(s) && forall w :: w in s.workers ==> WorkerOk(s, s.workers[w])
  }

  /** What no step takes back: the two high-waters and every list once stored. */
  predicate Grows(s: System, t: System) {
    && s.store.highWater <= t.store.highWater
    && ListSequence(s.store) <= ListSequence(t.store)
    && (forall q :: q in s.lists ==> q in t.lists && t.lists[q] == s.lists[q])
    && s.log <= t.log
  }

  lemma InstallInv(s: System, w: string, d: Document, o: Outcome)
    requires Inv(s) && w in s.workers
    ensures Inv(Next(s, Install(w, d, o))) && Grows(s, Next(s, Install(w, d, o)))
  {
    var t := Next(s, Install(w, d, o));
    forall x | x in t.workers
      ensures WorkerOk(t, t.workers[x])
    {
      assert WorkerOk(s, s.workers[x]);
    }
  }

  lemma AcceptInv(s: System, e: Event)
    requires Inv(s) && Enabled(s, e) && (e.Preauthorize? || e.Finalize?)
    ensures Inv(Next(s, e)) && Grows(s, Next(s, e))
  {
    var t := Next(s, e);
    forall x | x in t.workers
      ensures WorkerOk(t, t.workers[x])
    {
      assert WorkerOk(s, s.workers[x]);
    }
  }

  lemma StepInv(s: System, e: Event)
    requires Inv(s) && Enabled(s, e)
    ensures Inv(Next(s, e)) && Grows(s, Next(s, e))
  {
    match e
    case Start(w, roots, seen) =>
    case Stop(w) =>
    case Install(w, d, o) => InstallInv(s, w, d, o);
    case _ => AcceptInv(s, e);
  }

  lemma {:induction false} RunInv(s: System, es: seq<Event>, t: System)
    requires Inv(s) && Run(s, es, t)
    ensures Inv(t) && Grows(s, t)
    decreases |es|
  {
    if es != [] {
      StepInv(s, es[0]);
      RunInv(Next(s, es[0]), es[1..], t);
    }
  }

  // ------------------------------------------------------------ theorems

  /** The stored revocation sequence and the stored high-water never fall. */
  lemma StoreNeverFalls(es: seq<Event>, s: System, more: seq<Event>, t: System)
    requires Run(EMPTY, es, s) && Run(s, more, t)
    ensures ListSequence(s.store) <= ListSequence(t.store) && s.store.highWater <= t.store.highWater
  {
    RunInv(EMPTY, es, s);
    RunInv(s, more, t);
  }

  /** Two workers on the same sequence hold the same revoked set, also when one
      of them is of an earlier time. */
  lemma SameSequenceSameList(es: seq<Event>, s: System, more: seq<Event>, t: System, a: string, b: string)
    requires Run(EMPTY, es, s) && Run(s, more, t) && a in s.workers && b in t.workers
    requires s.workers[a].sequence == t.workers[b].sequence
    ensures s.workers[a].revoked == t.workers[b].revoked
  {
    RunInv(EMPTY, es, s);
    RunInv(s, more, t);
    assert WorkerOk(s, s.workers[a]) && WorkerOk(t, t.workers[b]);
  }

  /** Once any worker accepts a delegation, no worker later accepts an older one. */
  lemma AcceptedInOrder(es: seq<Event>, t: System, i: nat, j: nat)
    requires Run(EMPTY, es, t) && i < j < |t.log|
    ensures t.log[i] <= t.log[j]
  {
    RunInv(EMPTY, es, t);
  }

  /** A worker that starts again holds a list at least as new as any worker held before. */
  lemma RestartKeepsList(es: seq<Event>, s: System, more: seq<Event>, t: System, a: string, roots: set<string>, seen: int)
    requires Run(EMPTY, es, s) && Run(s, more, t) && a in s.workers && Started(roots, t.store, seen).Some?
    ensures Started(roots, t.store, seen).value.sequence >= s.workers[a].sequence
  {
    RunInv(EMPTY, es, s);
    RunInv(s, more, t);
    assert WorkerOk(s, s.workers[a]);
  }
}
