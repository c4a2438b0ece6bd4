/**
 The room grid of a hotel, its room books and the client ids, as objects that
 the broker changes in place. A room object is shared by the grid, by the rooms
 of its hotel and by the client ids; every operation keeps the three in step.
 */
module Grid {
  import opened Hotels

  datatype RoomPhase = Starting | Up | Going | Failed

  class DrawnRoom {
    const owner: string
    var hid: string
    var uuid: string
    var slot: int
    var phase: RoomPhase
    var since: Time
    var vanished: Time
    var deleteSent: bool

    constructor (h: string, room: string, p: RoomPhase, now: Time)
      ensures owner == h && hid == room && uuid == "" && slot == 0 && phase == p && since == now && !deleteSent
    {
      owner, hid, uuid, slot, phase, since, vanished, deleteSent := h, room, "", 0, p, now, 0, false;
    }
  }

  class HotelGrid {
    const id: string
    var slots: int
    var grid: array<DrawnRoom?>
    var rooms: map<string, DrawnRoom>
    /** Every room object made for this hotel. */
    ghost var owned: set<DrawnRoom>

    constructor (name: string)
      ensures Valid() && id == name && slots == 0 && rooms == map[] && owned == {} && fresh(grid)
    {
      id, slots, rooms, owned := name, 0, map[], {};
      grid := new DrawnRoom?[0];
    }

    ghost predicate Owns(r: DrawnRoom)
      reads this
    {
      r in owned && r.owner == id
    }

    predicate Drawn(r: DrawnRoom)
      reads this, grid
    {
      exists i :: 0 <= i < grid.Length && grid[i] == r
    }

    ghost predicate GridOk()
      reads this, grid, owned
    {
      && slots == grid.Length
      && (forall i :: 0 <= i < grid.Length && grid[i] != null ==> Owns(grid[i]) && grid[i].slot == i)
    }

    ghost predicate RoomsOk()
      reads this, owned
    {
      forall hid :: hid in rooms ==> hid != "" && Owns(rooms[hid]) && rooms[hid].hid == hid
    }

    ghost predicate Valid()
      reads this, grid, owned
    {
      && GridOk() && RoomsOk() && forall r :: r in owned ==> r.owner == id
    }

    /** No room is drawn twice. */
    lemma DrawnOnce(i: nat, j: nat)
      requires Valid() && i < slots && j < slots && grid[i] == grid[j] != null
      ensures i == j
    {
      assert grid[i].slot == grid[j].slot;
    }

    /** The rooms that still have a place keep it; the others are not drawn. */
    method Resize(n: int)
      requires Valid()
      modifies this`slots, this`grid, owned`slot
      ensures Valid()
      ensures n <= 0 || n == old(slots) ==> slots == old(slots) && grid == old(grid)
      ensures n > 0 && n != old(slots) ==> slots == n && fresh(grid)
      ensures forall i :: 0 <= i < slots ==> grid[i] == if i < old(slots) then old(grid[i]) else null
      ensures forall r :: r in owned && !old(Drawn(r)) ==> r.slot == old(r.slot)
      ensures n > 0 ==> forall i :: n <= i < old(slots) && old(grid[i]) != null ==> old(grid[i]).slot == -1
    {
      if n <= 0 || n == slots {
        return;
      }
      var next := new DrawnRoom?[n](i => null);
      var i := 0;
      while i < grid.Length
        invariant 0 <= i <= grid.Length && grid == old(grid) && slots == old(slots)
        invariant forall k :: 0 <= k < grid.Length ==> grid[k] == old(grid[k])
        invariant forall k :: 0 <= k < n ==> next[k] == if k < i then grid[k] else null
        invariant forall k :: 0 <= k < grid.Length && (k >= i || k < n) && grid[k] != null ==> grid[k].slot == k
        invariant forall k :: n <= k < i && grid[k] != null ==> grid[k].slot == -1
        invariant forall r :: r in owned && !old(Drawn(r)) ==> r.slot == old(r.slot)
      {
        var r := grid[i];
        assert r != null ==> old(grid[i]) == r && old(Drawn(r));
        if r != null && 0 <= r.slot < n {
          next[r.slot] := r;
        } else if r != null {
          r.slot := -1;
        }
        i := i + 1;
      }
      grid, slots := next, n;
    }

    /** A room that is not drawn gets the first free place, or none. */
    method Place(r: DrawnRoom)
      requires Valid() && Owns(r) && !Drawn(r)
      modifies grid, r`slot
      ensures Valid()
      ensures r.slot == -1 || (0 <= r.slot < slots && grid[r.slot] == r && old(grid[..])[r.slot] == null)
      ensures r.slot == -1 <==> forall i :: 0 <= i < slots ==> old(grid[i]) != null
      ensures forall i :: 0 <= i < slots && i != r.slot ==> grid[i] == old(grid[i])
      ensures forall i :: 0 <= i < r.slot ==> grid[i] != null
    {
      r.slot := -1;
      var i := 0;
      while i < grid.Length
        invariant 0 <= i <= grid.Length && r.slot == -1
        invariant forall k :: 0 <= k < grid.Length ==> grid[k] == old(grid[k])
        invariant forall k :: 0 <= k < i ==> grid[k] != null
      {
        if grid[i] == null {
          grid[i], r.slot := r, i;
          return;
        }
        i := i + 1;
      }
    }

    /** The room leaves the grid and the books of the hotel. */
    method Release(r: DrawnRoom)
      requires Valid() && Owns(r)
      modifies this`rooms, grid, r`slot
      ensures Valid() && !Drawn(r) && r.slot == -1
      ensures rooms == if r.hid != "" && r.hid in old(rooms) && old(rooms)[r.hid] == r then old(rooms) - {r.hid} else old(rooms)
      ensures forall i :: 0 <= i < slots && old(grid[i]) != r ==> grid[i] == old(grid[i])
    {
      if 0 <= r.slot < grid.Length && grid[r.slot] == r {
        grid[r.slot] := null;
      }
      r.slot := -1;
      if r.hid != "" && r.hid in rooms && rooms[r.hid] == r {
        rooms := rooms - {r.hid};
      }
    }
  }

  /** The two agree on the rooms of all other hotels. */
  ghost predicate SameOff(a: map<string, DrawnRoom>, b: map<string, DrawnRoom>, id: string) {
    && (forall u :: u in a && a[u].owner != id ==> u in b && b[u] == a[u])
    && (forall u :: u in b && b[u].owner != id ==> u in a && a[u] == b[u])
  }

  lemma SameOffTwice(a: map<string, DrawnRoom>, b: map<string, DrawnRoom>, c: map<string, DrawnRoom>, id: string)
    requires SameOff(a, b, id) && SameOff(b, c, id)
    ensures SameOff(a, c, id)
  {
  }

  /** after holds the rooms of before that are not gone. */
  ghost predicate Freed(before: map<string, DrawnRoom>, after: map<string, DrawnRoom>, gone: seq<DrawnRoom>) {
    && (forall hid :: hid in after <==> hid in before && before[hid] !in gone)
    && (forall hid :: hid in after ==> after[hid] == before[hid])
  }

  lemma FreedMore(before: map<string, DrawnRoom>, mid: map<string, DrawnRoom>, gone: seq<DrawnRoom>, r: DrawnRoom, hid: string)
    requires Freed(before, mid, gone) && forall x :: x in mid && mid[x] == r ==> x == hid
    ensures Freed(before, if hid in mid && mid[hid] == r then mid - {hid} else mid, gone + [r])
  {
    var after := if hid in mid && mid[hid] == r then mid - {hid} else mid;
    forall x
      ensures x in after <==> x in before && before[x] !in gone + [r]
    {
    }
  }

  /** Every id of a room of h leads to a room in the books of h that has this id,
      and every room in the books that has an id is found by it. */
  ghost predicate LinkedIn(ids: map<string, DrawnRoom>, h: HotelGrid)
    reads h, h.owned
  {
    && (forall u :: u in ids && ids[u].owner == h.id ==> LiveUnder(ids, h, u))
    && (forall hid :: hid in h.rooms ==> Found(ids, h, hid))
  }

  ghost predicate LiveUnder(ids: map<string, DrawnRoom>, h: HotelGrid, u: string)
    requires u in ids
    reads h, h.owned
  {
    var r := ids[u];
    u != "" && r in h.owned && r.uuid == u && r.hid in h.rooms && h.rooms[r.hid] == r
  }

  ghost predicate Found(ids: map<string, DrawnRoom>, h: HotelGrid, hid: string)
    requires hid in h.rooms
    reads h, h.owned
  {
    h.rooms[hid] in h.owned && (var u := h.rooms[hid].uuid; u != "" ==> u in ids && ids[u] == h.rooms[hid])
  }

  /** An operation that changes the client ids of one hotel alone keeps those of
      every other hotel o in step with its rooms. */
  lemma OtherLinked(before: map<string, DrawnRoom>, after: map<string, DrawnRoom>, id: string, o: HotelGrid)
    requires SameOff(before, after, id) && o.id != id && o.Valid() && LinkedIn(before, o)
    ensures LinkedIn(after, o)
  {
    forall u | u in after && after[u].owner == o.id
      ensures LiveUnder(after, o, u)
    {
      assert LiveUnder(before, o, u);
    }
    forall hid | hid in o.rooms
      ensures Found(after, o, hid)
    {
      assert Found(before, o, hid);
    }
  }

  class Desk {
    var byUuid: map<string, DrawnRoom>
    /** Client ids of rooms from before a restart, by room. */
    var savedUuids: map<(string, string), string>

    constructor ()
      ensures byUuid == map[] && savedUuids == map[]
    {
      byUuid, savedUuids := map[], map[];
    }

    /** The client ids and the rooms of h point at each other. */
    ghost predicate Linked(h: HotelGrid)
      reads this, h, h.owned
    {
      LinkedIn(byUuid, h)
    }

    /** No operation on h changes the client ids of another hotel. */
    ghost predicate SameElsewhere(before: map<string, DrawnRoom>, h: HotelGrid)
      reads this
    {
      SameOff(before, byUuid, h.id)
    }

    /** Two hotels have nothing in common. */
    ghost predicate Apart(o: HotelGrid, h: HotelGrid)
      reads o, h
    {
      o.id != h.id && o.grid != h.grid && o.owned !! h.owned
    }

    /** A room gets its client id: the one it had before a restart, or a new
        one. newId: an id that no room has. */
    method Register(h: HotelGrid, r: DrawnRoom, newId: string)
      requires h.Valid() && h.Owns(r) && r.hid in h.rooms && h.rooms[r.hid] == r && r.uuid == ""
      requires newId != "" && newId !in byUuid
      requires Linked(h)
      modifies this, r`uuid
      ensures h.Valid() && Linked(h) && r.uuid != "" && r.uuid !in old(byUuid) && byUuid == old(byUuid)[r.uuid := r]
      ensures r.uuid == newId || r.uuid in old(savedUuids.Values)
      ensures savedUuids.Values <= old(savedUuids.Values)
    {
      var key := (r.owner, r.hid);
      if key in savedUuids && savedUuids[key] != "" && savedUuids[key] !in byUuid {
        r.uuid := savedUuids[key];
        savedUuids := savedUuids - {key};
      } else {
        r.uuid := newId;
      }
      byUuid := byUuid[r.uuid := r];
    }

    method Release(h: HotelGrid, r: DrawnRoom)
      requires h.Valid() && h.Owns(r) && Linked(h) && r.hid != ""
      modifies this`byUuid, h`rooms, h.grid, r`slot
      ensures h.Valid() && Linked(h) && !h.Drawn(r) && r.slot == -1
      ensures h.rooms == if r.hid in old(h.rooms) && old(h.rooms)[r.hid] == r then old(h.rooms) - {r.hid} else old(h.rooms)
      ensures forall i :: 0 <= i < h.slots && old(h.grid[i]) != r ==> h.grid[i] == old(h.grid[i])
      ensures SameElsewhere(old(byUuid), h)
      ensures byUuid.Keys <= old(byUuid.Keys)
    {
      if r.uuid != "" && r.uuid in byUuid && byUuid[r.uuid] == r {
        byUuid := byUuid - {r.uuid};
      }
      h.Release(r);
    }

    method NewRoom(h: HotelGrid, phase: RoomPhase, now: Time) returns (r: DrawnRoom)
      requires h.Valid() && Linked(h)
      modifies h`owned
      ensures h.Valid() && Linked(h) && fresh(r) && h.owned == old(h.owned) + {r} && h.Owns(r) && !h.Drawn(r)
      ensures r.hid == "" && r.uuid == "" && r.phase == phase
    {
      r := new DrawnRoom(h.id, "", phase, now);
      h.owned := h.owned + {r};
    }

    /** A create goes to the hotel: a new room, drawn when there is a place. */
    method Dispatch(h: HotelGrid, now: Time) returns (r: DrawnRoom)
      requires h.Valid() && Linked(h)
      modifies h`owned, h.grid
      ensures h.Valid() && Linked(h) && fresh(r) && h.owned == old(h.owned) + {r}
      ensures h.Owns(r) && r.hid == "" && r.uuid == "" && r.phase == Starting
    {
      r := NewRoom(h, Starting, now);
      h.Place(r);
    }

    /** The room takes a hotel id that the books do not hold. */
    method Put(h: HotelGrid, r: DrawnRoom, hid: string)
      requires h.Valid() && Linked(h) && h.Owns(r) && r.hid == "" && r.uuid == "" && hid != "" && hid !in h.rooms
      modifies h`rooms, r`hid
      ensures h.Valid() && Linked(h) && r.hid == hid && h.rooms == old(h.rooms)[hid := r]
    {
      assert forall x :: x in h.rooms ==> h.rooms[x] != r;
      assert forall u :: u in byUuid && byUuid[u].owner == h.id ==> byUuid[u] != r;
      r.hid := hid;
      h.rooms := h.rooms[hid := r];
    }

    /** The same, in place of a room that the sync loop saw first. */
    method Enter(h: HotelGrid, r: DrawnRoom, hid: string)
      requires h.Valid() && Linked(h) && h.Owns(r) && r.hid == "" && r.uuid == "" && hid != ""
      modifies this`byUuid, h`rooms, h.grid, h.owned`slot, r`hid
      ensures h.Valid() && Linked(h) && r.hid == hid && h.rooms == old(h.rooms)[hid := r]
      ensures SameElsewhere(old(byUuid), h) && byUuid.Keys <= old(byUuid.Keys)
    {
      if hid in h.rooms {
        Release(h, h.rooms[hid]);
        assert h.rooms == old(h.rooms) - {hid};
      }
      Put(h, r, hid);
      assert h.rooms == old(h.rooms)[hid := r];
    }

    /** The hotel started the room of a create. */
    method Book(h: HotelGrid, r: DrawnRoom, hid: string, now: Time, newId: string)
      requires h.Valid() && Linked(h) && h.Owns(r) && r.hid == "" && r.uuid == "" && hid != ""
      requires newId != "" && newId !in byUuid
      modifies this, h`rooms, h.grid, h.owned`slot, r
      ensures h.Valid() && Linked(h) && h.rooms == old(h.rooms)[hid := r] && r.phase == Up
      ensures r.uuid in byUuid && byUuid[r.uuid] == r && SameElsewhere(old(byUuid), h)
    {
      r.phase, r.since := Up, now;
      Enter(h, r, hid);
      Register(h, r, newId);
    }

    /** The same, seen from all hotels: the client ids and the rooms of each
        other hotel stay in step. */
    method BookAmong(h: HotelGrid, r: DrawnRoom, hid: string, now: Time, newId: string, ghost hotels: set<HotelGrid>)
      requires h.Valid() && Linked(h) && h.Owns(r) && r.hid == "" && r.uuid == "" && hid != ""
      requires newId != "" && newId !in byUuid
      requires forall o :: o in hotels && o != h ==> Apart(o, h) && o.Valid() && Linked(o)
      modifies this, h`rooms, h.grid, h.owned`slot, r
      ensures h.Valid() && Linked(h) && h.rooms == old(h.rooms)[hid := r]
      ensures forall o :: o in hotels && o != h ==> Linked(o)
    {
      Book(h, r, hid, now, newId);
      forall o | o in hotels && o != h
        ensures Linked(o)
      {
        OtherLinked(old(byUuid), byUuid, h.id, o);
      }
    }

    /** A room that nobody owns: it leaves the grid and is booked as going. */
    method Reap(h: HotelGrid, r: DrawnRoom, hid: string, now: Time)
      requires h.Valid() && Linked(h) && h.Owns(r) && r.hid == "" && r.uuid == "" && hid != ""
      modifies this`byUuid, h`rooms, h.grid, h.owned`slot, r
      ensures h.Valid() && Linked(h) && h.rooms == old(h.rooms)[hid := r] && r.phase == Going && r.uuid == ""
      ensures SameElsewhere(old(byUuid), h)
    {
      h.Release(r);
      r.phase, r.since, r.vanished := Going, now, now;
      Enter(h, r, hid);
    }

    // ---------------------------------------------------------- sync loop

    /** A room that a late list made going is listed again. */
    method Revive(h: HotelGrid, r: DrawnRoom, now: Time)
      requires h.Valid() && Linked(h) && h.Owns(r)
      modifies h.grid, r`phase, r`since, r`vanished, r`slot
      ensures h.Valid() && Linked(h)
    {
      if r.phase == Going && !r.deleteSent {
        r.phase, r.since, r.vanished := Up, now, 0;
        if r.slot < 0 {
          h.Place(r);
        }
      }
    }

    /** A listed room that the broker does not know. */
    method Adopt(h: HotelGrid, hid: string, now: Time, newId: string) returns (r: DrawnRoom)
      requires h.Valid() && Linked(h) && hid != "" && hid !in h.rooms && newId != "" && newId !in byUuid
      modifies this, h`rooms, h`owned, h.grid
      ensures h.Valid() && Linked(h) && fresh(r) && h.rooms == old(h.rooms)[hid := r] && h.owned == old(h.owned) + {r}
      ensures r.uuid !in old(byUuid) && byUuid == old(byUuid)[r.uuid := r] && r.owner == h.id
      ensures r.uuid == newId || r.uuid in old(savedUuids.Values)
      ensures savedUuids.Values <= old(savedUuids.Values)
    {
      r := NewRoom(h, Up, now);
      Put(h, r, hid);
      Register(h, r, newId);
      h.Place(r);
    }

    /** The listed rooms. newIds: ids that no room has or had. */
    method SeeRooms(h: HotelGrid, listed: seq<string>, now: Time, newIds: seq<string>)
      requires h.Valid() && Linked(h) && "" !in listed && |newIds| == |listed| && "" !in newIds
      requires forall i :: 0 <= i < |newIds| ==> newIds[i] !in byUuid && newIds[i] !in savedUuids.Values
      requires forall i, j :: 0 <= i < j < |newIds| ==> newIds[i] != newIds[j]
      modifies this, h`rooms, h`owned, h.grid, h.owned
      ensures h.Valid() && Linked(h)
      ensures forall hid :: hid in h.rooms <==> hid in old(h.rooms) || hid in listed
      ensures forall hid :: hid in old(h.rooms) ==> h.rooms[hid] == old(h.rooms)[hid]
      ensures old(h.owned) <= h.owned && forall r :: r in old(h.owned) ==> r.hid == old(r.hid) && r.uuid == old(r.uuid)
      ensures SameElsewhere(old(byUuid), h)
    {
      var i := 0;
      while i < |listed|
        invariant 0 <= i <= |listed| && h.Valid() && Linked(h) && SameElsewhere(old(byUuid), h)
        invariant h.grid == old(h.grid) && fresh(h.owned - old(h.owned))
        invariant forall k :: i <= k < |newIds| ==> newIds[k] !in byUuid && newIds[k] !in savedUuids.Values
        invariant old(h.owned) <= h.owned && forall r :: r in old(h.owned) ==> r.hid == old(r.hid) && r.uuid == old(r.uuid)
        invariant forall hid :: hid in h.rooms <==> hid in old(h.rooms) || hid in listed[..i]
        invariant forall hid :: hid in old(h.rooms) ==> h.rooms[hid] == old(h.rooms)[hid]
      {
        if listed[i] in h.rooms {
          Revive(h, h.rooms[listed[i]], now);
        } else {
          var r := Adopt(h, listed[i], now, newIds[i]);
        }
        i := i + 1;
      }
    }

    method SeeAmong(h: HotelGrid, listed: seq<string>, now: Time, newIds: seq<string>, ghost hotels: set<HotelGrid>)
      requires h.Valid() && Linked(h) && "" !in listed && |newIds| == |listed| && "" !in newIds
      requires forall i :: 0 <= i < |newIds| ==> newIds[i] !in byUuid && newIds[i] !in savedUuids.Values
      requires forall i, j :: 0 <= i < j < |newIds| ==> newIds[i] != newIds[j]
      requires forall o :: o in hotels && o != h ==> Apart(o, h) && o.Valid() && Linked(o)
      modifies this, h`rooms, h`owned, h.grid, h.owned
      ensures h.Valid() && Linked(h)
      ensures forall hid :: hid in h.rooms <==> hid in old(h.rooms) || hid in listed
      ensures forall hid :: hid in old(h.rooms) ==> h.rooms[hid] == old(h.rooms)[hid]
      ensures old(h.owned) <= h.owned && forall r :: r in old(h.owned) ==> r.hid == old(r.hid) && r.uuid == old(r.uuid)
      ensures forall o :: o in hotels && o != h ==> Linked(o)
    {
      SeeRooms(h, listed, now, newIds);
      forall o | o in hotels && o != h
        ensures Linked(o)
      {
        OtherLinked(old(byUuid), byUuid, h.id, o);
      }
    }

    /** One more room is freed. before, ids: the rooms and client ids at first. */
    method FreeNext(h: HotelGrid, r: DrawnRoom, ghost before: map<string, DrawnRoom>, ghost gone: seq<DrawnRoom>, ghost ids: map<string, DrawnRoom>)
      requires h.Valid() && Linked(h) && h.Owns(r) && r.hid != "" && Freed(before, h.rooms, gone) && SameElsewhere(ids, h)
      modifies this`byUuid, h`rooms, h.grid, r`slot
      ensures h.Valid() && Linked(h) && Freed(before, h.rooms, gone + [r]) && SameElsewhere(ids, h)
    {
      FreedMore(before, h.rooms, gone, r, r.hid);
      Release(h, r);
      SameOffTwice(ids, old(byUuid), byUuid, h.id);
    }

    /** The gone rooms that the sync loop frees. */
    method FreeRooms(h: HotelGrid, gone: seq<DrawnRoom>)
      requires h.Valid() && Linked(h) && forall r :: r in gone ==> h.Owns(r) && r.hid != ""
      modifies this`byUuid, h`rooms, h.grid, gone`slot
      ensures h.Valid() && Linked(h) && SameElsewhere(old(byUuid), h) && Freed(old(h.rooms), h.rooms, gone)
    {
      var i := 0;
      while i < |gone|
        invariant 0 <= i <= |gone| && h.Valid() && Linked(h) && SameElsewhere(old(byUuid), h)
        invariant forall r :: r in gone ==> h.Owns(r) && r.hid != ""
        invariant Freed(old(h.rooms), h.rooms, gone[..i])
      {
        FreeNext(h, gone[i], old(h.rooms), gone[..i], old(byUuid));
        assert gone[..i + 1] == gone[..i] + [gone[i]];
        i := i + 1;
      }
      assert gone[..|gone|] == gone;
    }

    method FreeAmong(h: HotelGrid, gone: seq<DrawnRoom>, ghost hotels: set<HotelGrid>)
      requires h.Valid() && Linked(h) && forall r :: r in gone ==> h.Owns(r) && r.hid != ""
      requires forall o :: o in hotels && o != h ==> Apart(o, h) && o.Valid() && Linked(o)
      modifies this`byUuid, h`rooms, h.grid, gone`slot
      ensures h.Valid() && Linked(h) && Freed(old(h.rooms), h.rooms, gone)
      ensures forall o :: o in hotels && o != h ==> Linked(o)
    {
      FreeRooms(h, gone);
      forall o | o in hotels && o != h
        ensures Linked(o)
      {
        assert forall x :: x in o.owned ==> x !in h.owned && x !in gone;
        OtherLinked(old(byUuid), byUuid, h.id, o);
      }
    }

    /** Failed creates leave the grid after a while. */
    method Sweep(h: HotelGrid, now: Time)
      requires h.Valid() && Linked(h)
      modifies h.grid
      ensures h.Valid() && Linked(h)
      ensures forall i :: 0 <= i < h.slots ==>
        h.grid[i] == if old(h.grid[i]) != null && old(h.grid[i]).phase == Failed && now - old(h.grid[i]).since > 30 * SECOND
                     then null else old(h.grid[i])
    {
      var i := 0;
      while i < h.grid.Length
        invariant 0 <= i <= h.grid.Length
        invariant forall k :: 0 <= k < h.grid.Length ==>
          h.grid[k] == if k < i && old(h.grid[k]) != null && old(h.grid[k]).phase == Failed && now - old(h.grid[k]).since > 30 * SECOND
                       then null else old(h.grid[k])
      {
        if h.grid[i] != null && h.grid[i].phase == Failed && now - h.grid[i].since > 30 * SECOND {
          h.grid[i] := null;
        }
        i := i + 1;
      }
    }
  }
}
