/**
 The lend rules as the broker runs them on one hotel: counting loops over the
 rooms, and updates of the configuration in place that are undone when the save
 fails. Every method does what the function of module Lend or Booking says.
 */
module LendOps {
  import opened Options
  import opened Hotels
  import opened Lend
  import opened Booking

  lemma CountMore(rooms: map<string, Room>, done: set<string>, hid: string, all: set<string>)
    requires hid in rooms && hid !in done
    ensures |all * (done + {hid})| == |all * done| + if hid in all then 1 else 0
  {
    if hid in all {
      assert all * (done + {hid}) == all * done + {hid};
    } else {
      assert all * (done + {hid}) == all * done;
    }
  }

  /** The answer of the locked part of a PATCH. */
  function CommitAnswer(p: Patch, h: Hotel, saved: bool): Option<Refusal> {
    if PatchErr(p.change, p.request, h).Some? then PatchErr(p.change, p.request, h)
    else if PatchSaves(p, h) && !saved then Some(StateWriteFailed)
    else None
  }

  class LendHotel {
    const base: Hotel
    var drain: bool
    var labels: map<string, string>
    var maxSlots: int
    var reservedFor: string
    var lentFrom: string
    var lentReportId: string
    var slots: int
    var rooms: map<string, Room>
    var creating: int
    var queued: int

    constructor (h: Hotel)
      ensures View() == h
    {
      base := h;
      drain, labels, maxSlots := h.cfg.drain, h.cfg.labels, h.cfg.maxSlots;
      reservedFor, lentFrom, lentReportId := h.cfg.reservedFor, h.cfg.lentFrom, h.cfg.lentReportId;
      slots, rooms, creating, queued := h.slots, h.rooms, h.creating, h.queued;
    }

    function Config(): HotelConfig
      reads this
    {
      base.cfg.(drain := drain, labels := labels, maxSlots := maxSlots, reservedFor := reservedFor, lentFrom := lentFrom,
                lentReportId := lentReportId)
    }

    function View(): Hotel
      reads this
    {
      base.(cfg := Config(), slots := slots, rooms := rooms, creating := creating, queued := queued)
    }

    /** The rooms of a guest and the creates on the hotel. */
    method CountOwner(owner: string) returns (n: int)
      ensures n == OwnerBusy(View(), owner)
    {
      n := creating + queued;
      ghost var all := RoomsOf(View(), owner);
      var done, rest := {}, rooms.Keys;
      while rest != {}
        invariant done !! rest && done + rest == rooms.Keys
        invariant n == creating + queued + |all * done|
        decreases |rest|
      {
        var hid :| hid in rest;
        CountMore(rooms, done, hid, all);
        if rooms[hid].guest == owner {
          n := n + 1;
        }
        done, rest := done + {hid}, rest - {hid};
      }
      assert all * done == all;
    }

    /** The rooms that are not the guest's. */
    method CountForeign(owner: string) returns (n: nat)
      ensures n == |ForeignRooms(View(), owner)|
    {
      n := 0;
      ghost var all := ForeignRooms(View(), owner);
      var done, rest := {}, rooms.Keys;
      while rest != {}
        invariant done !! rest && done + rest == rooms.Keys
        invariant n == |all * done|
        decreases |rest|
      {
        var hid :| hid in rest;
        CountMore(rooms, done, hid, all);
        if rooms[hid].guest != owner {
          n := n + 1;
        }
        done, rest := done + {hid}, rest - {hid};
      }
      assert all * done == all;
    }

    method Busy(c: LendChange) returns (e: Option<Refusal>)
      ensures e == BusyErr(c, View())
    {
      e := None;
      if c.lend {
        var n := CountOwner(c.owner);
        if n > 0 {
          e := Some(OwnerRoomsActive);
        }
      } else if c.reclaim && |rooms| + creating + queued > 0 {
        e := Some(RoomsActive);
      }
    }

    method Reserve(owner: string) returns (e: Option<Refusal>)
      ensures e == ReserveErr(View(), owner)
    {
      if owner == "" || owner == reservedFor || !SealedClass(Config()) {
        return None;
      }
      var n := CountForeign(owner);
      e := if n + creating + queued > 0 then Some(RoomsActive) else None;
    }

    /** Checks a lend or a reclaim again and applies it, all or nothing. */
    method Apply(c: LendChange) returns (e: Option<Refusal>)
      modifies this`lentFrom, this`lentReportId, this`reservedFor
      ensures e == ApplyErr(c, old(View()))
      ensures Config() == if e.None? then ApplyLend(c, old(Config())) else old(Config())
    {
      if c.lend {
        if lentFrom != "" || reservedFor != c.owner {
          return Some(HotelChanged);
        }
      } else if c.reclaim {
        if lentFrom == "" || lentReportId != c.lentId {
          return Some(HotelChanged);
        }
      } else {
        return if c.reserve && lentFrom != "" then Some(HotelChanged) else None;
      }
      e := Busy(c);
      if e.Some? {
        return;
      }
      if c.lend {
        lentFrom, lentReportId, reservedFor := c.owner, c.reportId, "";
      } else {
        lentFrom, lentReportId, reservedFor := "", "", c.owner;
      }
    }

    method SetFields(p: Patch)
      modifies this`drain, this`labels, this`maxSlots, this`reservedFor
      ensures drain == if p.request.drain.Some? then p.request.drain.value else old(drain)
      ensures labels == if p.request.labels.Some? then FixedLabels(base.cfg, p.request.labels.value) else old(labels)
      ensures maxSlots == if p.request.maxSlots.Some? then p.request.maxSlots.value else old(maxSlots)
      ensures reservedFor == if p.request.reserve.Some? && !p.change.reclaim then p.request.reserve.value else old(reservedFor)
    {
      if p.request.drain.Some? {
        drain := p.request.drain.value;
      }
      if p.request.labels.Some? {
        labels := FixedLabels(base.cfg, p.request.labels.value);
      }
      if p.request.maxSlots.Some? {
        maxSlots := p.request.maxSlots.value;
      }
      if p.request.reserve.Some? && !p.change.reclaim {
        reservedFor := p.request.reserve.value;
      }
    }

    /** The checks and the new fields of a PATCH. */
    method Change(p: Patch) returns (e: Option<Refusal>)
      modifies this`drain, this`labels, this`maxSlots, this`reservedFor, this`lentFrom, this`lentReportId
      ensures e == PatchErr(p.change, p.request, old(View()))
      ensures Config() == if e.None? then PatchFields(p.change, p.request, old(Config())) else old(Config())
    {
      if p.request.reserve.Some? && !p.change.reclaim {
        e := Reserve(p.request.reserve.value);
        if e.Some? {
          return;
        }
      }
      e := Apply(p.change);
      if e.None? {
        ghost var applied := Config();
        SetFields(p);
        assert p.request.labels.Some? ==> FixedLabels(base.cfg, p.request.labels.value) == FixedLabels(applied, p.request.labels.value);
      }
    }

    method Undo(before: HotelConfig)
      modifies this`drain, this`labels, this`maxSlots, this`reservedFor, this`lentFrom, this`lentReportId
      ensures drain == before.drain && labels == before.labels && maxSlots == before.maxSlots
      ensures reservedFor == before.reservedFor && lentFrom == before.lentFrom && lentReportId == before.lentReportId
    {
      drain, labels, maxSlots := before.drain, before.labels, before.maxSlots;
      reservedFor, lentFrom, lentReportId := before.reservedFor, before.lentFrom, before.lentReportId;
    }

    /** The locked part of a PATCH. saved: whether a save, if there is one,
        works. A refused or unsaved PATCH leaves the hotel as it was. */
    method Commit(p: Patch, saved: bool) returns (e: Option<Refusal>)
      modifies this
      ensures e == CommitAnswer(p, old(View()), saved)
      ensures View() == if e.None? then PatchedHotel(p, old(View())) else old(View())
    {
      var before := Config();
      e := Change(p);
      if e.Some? {
        return;
      }
      if (p.change.lend || p.change.reclaim || base.runtime) && !saved {
        Undo(before);
        return Some(StateWriteFailed);
      }
      if p.request.maxSlots.Some? && maxSlots > 0 && slots > maxSlots {
        slots := maxSlots;
      }
    }

    /** The fail-closed check after a room list. */
    method CheckRooms() returns (changed: bool)
      modifies this`lentFrom, this`lentReportId, this`reservedFor
      ensures View() == CheckReservedRooms(old(View()))
      ensures changed <==> View() != old(View())
    {
      var owner := reservedFor;
      if owner == "" || !SealedClass(Config()) {
        return false;
      }
      var n := CountForeign(owner);
      if n == 0 {
        return false;
      }
      changed := reservedFor == owner && lentFrom == "";
      if changed {
        lentFrom, lentReportId, reservedFor := owner, LENT_REPORT_UNKNOWN, "";
      }
    }

    /** Records the launch of a hotel that the check made lent. */
    method Baseline(id: string) returns (changed: bool)
      modifies this`lentReportId
      ensures View() == FillBaseline(old(View()), id)
      ensures changed <==> old(lentReportId) == LENT_REPORT_UNKNOWN
    {
      changed := lentReportId == LENT_REPORT_UNKNOWN;
      if changed {
        lentReportId := id;
      }
    }
  }

  // ------------------------------------------------------------ files

  function OwnLends(hotels: map<string, Hotel>, ids: set<string>): map<string, LendEntry>
    requires ids <= hotels.Keys
  {
    map id | id in ids && !hotels[id].runtime && hotels[id].cfg.lentFrom != "" ::
      LendEntry(hotels[id].cfg.lentFrom, hotels[id].cfg.lentReportId)
  }

  lemma OwnLendsMore(hotels: map<string, Hotel>, other: map<string, LendEntry>, done: set<string>, id: string)
    requires done <= hotels.Keys && id in hotels && id !in done
    ensures other + OwnLends(hotels, done + {id}) ==
      if !hotels[id].runtime && hotels[id].cfg.lentFrom != ""
      then (other + OwnLends(hotels, done))[id := LendEntry(hotels[id].cfg.lentFrom, hotels[id].cfg.lentReportId)]
      else other + OwnLends(hotels, done)
  {
    if !hotels[id].runtime && hotels[id].cfg.lentFrom != "" {
      assert OwnLends(hotels, done + {id})
          == OwnLends(hotels, done)[id := LendEntry(hotels[id].cfg.lentFrom, hotels[id].cfg.lentReportId)];
    } else {
      assert OwnLends(hotels, done + {id}) == OwnLends(hotels, done);
    }
  }

  lemma OwnLendsEnds(hotels: map<string, Hotel>, other: map<string, LendEntry>)
    ensures other + OwnLends(hotels, {}) == other
    ensures other + OwnLends(hotels, hotels.Keys) == ConfigLends(hotels, other)
  {
    assert OwnLends(hotels, {}) == map[];
    assert OwnLends(hotels, hotels.Keys) == map id | id in hotels && !hotels[id].runtime && hotels[id].cfg.lentFrom != "" ::
      LendEntry(hotels[id].cfg.lentFrom, hotels[id].cfg.lentReportId);
  }

  /** The entries of hotel-lends.json: those of hotels not in the configuration,
      and the lent hotels of the configuration. */
  method CollectLends(hotels: map<string, Hotel>, other: map<string, LendEntry>) returns (entries: map<string, LendEntry>)
    ensures entries == ConfigLends(hotels, other)
  {
    entries := other;
    var done, rest := {}, hotels.Keys;
    OwnLendsEnds(hotels, other);
    while rest != {}
      invariant done !! rest && done + rest == hotels.Keys && entries == other + OwnLends(hotels, done)
      decreases |rest|
    {
      var id :| id in rest;
      var h := hotels[id];
      OwnLendsMore(hotels, other, done, id);
      if !h.runtime && h.cfg.lentFrom != "" {
        entries := entries[id := LendEntry(h.cfg.lentFrom, h.cfg.lentReportId)];
      }
      done, rest := done + {id}, rest - {id};
    }
    assert done == hotels.Keys;
  }

  /** The configuration after the entries of these hotels are applied. */
  function Lent(file: map<string, HotelConfig>, lends: map<string, LendEntry>, ids: set<string>): map<string, HotelConfig> {
    map id | id in file :: if id in ids then WithLend(file[id], lends) else file[id]
  }

  function Aside(file: map<string, HotelConfig>, lends: map<string, LendEntry>, ids: set<string>): map<string, LendEntry>
    requires ids <= lends.Keys
  {
    map id | id in ids && id !in file :: lends[id]
  }

  lemma LentMore(file: map<string, HotelConfig>, lends: map<string, LendEntry>, done: set<string>, id: string)
    requires done <= lends.Keys && id in lends && id !in done && forall x :: x in file ==> file[x].id == x
    ensures Lent(file, lends, done + {id}) ==
      if id in file then Lent(file, lends, done)[id := WithLend(file[id], lends)] else Lent(file, lends, done)
    ensures Aside(file, lends, done + {id}) ==
      if id in file then Aside(file, lends, done) else Aside(file, lends, done)[id := lends[id]]
  {
  }

  lemma LentEnds(file: map<string, HotelConfig>, lends: map<string, LendEntry>)
    requires forall x :: x in file ==> file[x].id == x
    ensures Lent(file, lends, {}) == file && Aside(file, lends, {}) == map[]
    ensures Lent(file, lends, lends.Keys) == map id | id in file :: WithLend(file[id], lends)
    ensures Aside(file, lends, lends.Keys) == map id | id in lends && id !in file :: lends[id]
  {
  }

  /** The lend entries applied to the hotels of the configuration at a start;
      the others are kept aside. */
  method ApplyLends(file: map<string, HotelConfig>, lends: map<string, LendEntry>)
    returns (hotels: map<string, HotelConfig>, other: map<string, LendEntry>)
    requires forall id :: id in file ==> file[id].id == id
    ensures hotels == map id | id in file :: WithLend(file[id], lends)
    ensures other == map id | id in lends && id !in file :: lends[id]
  {
    hotels, other := file, map[];
    LentEnds(file, lends);
    var done, rest := {}, lends.Keys;
    while rest != {}
      invariant done !! rest && done + rest == lends.Keys
      invariant hotels == Lent(file, lends, done) && other == Aside(file, lends, done)
      decreases |rest|
    {
      var id :| id in rest;
      var e := lends[id];
      LentMore(file, lends, done, id);
      if id in hotels {
        assert hotels[id] == file[id];
        hotels := hotels[id := hotels[id].(lentFrom := e.lentFrom, lentReportId := e.lentReportId, reservedFor := "")];
      } else {
        other := other[id := e];
      }
      done, rest := done + {id}, rest - {id};
    }
    assert done == lends.Keys;
  }
}
