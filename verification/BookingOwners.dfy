/**
 The owner of a lent hotel, however it became lent: by a PATCH, or by the
 fail-closed room check, which does not stop the creates that the owner already
 has there. No new create of the owner comes to the hotel.
 */
module BookingOwners {
  import opened Placement
  import opened Booking
  import opened BookingFrames
  import opened BookingLend
  import opened BookingLendRuns

  /** The creates of guest that are queued on h or being called there. */
  function BoundOf(creates: map<nat, Create>, h: string, guest: string): set<nat> {
    set id | id in creates && Bound(creates[id], h) && creates[id].guest == guest
  }

  lemma NoneAdded(s: State, id: nat, t: State, h: string, guest: string)
    requires CreateFrame(s, id, t)
    requires Bound(t.creates[id], h) && t.creates[id].guest == guest ==> id in BoundOf(s.creates, h, guest)
    ensures BoundOf(t.creates, h, guest) <= BoundOf(s.creates, h, guest)
  {
  }

  /** A pick does not take the owner to a hotel that is lent from them. */
  lemma PickedElsewhere(s: State, c: Create, exclude: set<string>, r: Request, to: string, h: string)
    requires MayPick(s.cfg, s.hotels, exclude, r, s.now, to) && r.guest == c.guest
    requires h in s.hotels && s.hotels[h].cfg.lentFrom != "" && s.hotels[h].cfg.lentFrom == c.guest
    ensures to != h
  {
    PickedTakes(s.cfg, s.hotels, exclude, r, s.now, to);
  }

  lemma PlacedOwner(s: State, id: nat, to: string, h: string)
    requires OwnRequests(s) && CanPlace(s, id, to) && h in s.hotels && s.hotels[h].cfg.lentFrom != ""
    ensures BoundOf(CreateEffect(s, id, PlaceOn(to)).creates, h, s.hotels[h].cfg.lentFrom)
         <= BoundOf(s.creates, h, s.hotels[h].cfg.lentFrom)
  {
    var c, r := s.creates[id], PickRequest(s, s.creates[id]);
    PickRequestGuest(s, c);
    if s.hotels[h].cfg.lentFrom == c.guest {
      PickedElsewhere(s, c, c.tried, r, to, h);
    }
    CreateFramed(s, id, PlaceOn(to));
    NoneAdded(s, id, CreateEffect(s, id, PlaceOn(to)), h, s.hotels[h].cfg.lentFrom);
  }

  lemma MovedOwner(s: State, id: nat, to: string, h: string)
    requires OwnRequests(s) && CanMove(s, id, to) && h in s.hotels && s.hotels[h].cfg.lentFrom != ""
    ensures BoundOf(ApplyMove(s, id, to).creates, h, s.hotels[h].cfg.lentFrom) <= BoundOf(s.creates, h, s.hotels[h].cfg.lentFrom)
  {
    var c := s.creates[id];
    var r := MoveRequest(c.request, s.hotels[c.phase.hotel].cfg);
    if s.hotels[h].cfg.lentFrom == c.guest {
      PickedElsewhere(s, c, {c.phase.hotel}, r, to, h);
    }
    MoveFramed(s, id, to);
    NoneAdded(s, id, ApplyMove(s, id, to), h, s.hotels[h].cfg.lentFrom);
  }

  lemma SteppedOwner(s: State, id: nat, e: CreateEvent, h: string, guest: string)
    requires CreateEnabled(s, id, e) && !e.PlaceOn? && !e.Move?
    ensures BoundOf(CreateEffect(s, id, e).creates, h, guest) <= BoundOf(s.creates, h, guest)
  {
    CreateFramed(s, id, e);
    if !e.Arrive? {
      StepKeepsSeat(s, id, e);
    }
    NoneAdded(s, id, CreateEffect(s, id, e), h, guest);
  }

  /** No event takes a create of the owner to a hotel that is lent from them. */
  lemma StepOwner(s: State, e: Event, h: string)
    requires OwnRequests(s) && Enabled(s, e) && h in s.hotels && s.hotels[h].cfg.lentFrom != ""
    ensures BoundOf(Next(s, e).creates, h, s.hotels[h].cfg.lentFrom) <= BoundOf(s.creates, h, s.hotels[h].cfg.lentFrom)
  {
    match e
    case OfCreate(id, c) =>
      if c.PlaceOn? {
        PlacedOwner(s, id, c.hotel, h);
      } else if c.Move? {
        MovedOwner(s, id, c.to, h);
      } else {
        SteppedOwner(s, id, c, h, s.hotels[h].cfg.lentFrom);
      }
    case OfHotel(x, v) =>
    case OfDesk(d) =>
    case OfAdmin(a) =>
      if !a.Restart? {
        AdminFramed(s, a);
      }
  }

  /** Over every run of the broker, while the hotel stays lent, the creates that
      the owner has there only become fewer. */
  lemma {:induction false} OwnerOnlyLeaves(s: State, es: seq<Event>, t: State, h: string)
    requires LendInv(s) && h in s.hotels && s.hotels[h].cfg.lentFrom != "" && Run(s, es, t) && StaysLent(s, es, h)
    ensures h in t.hotels && t.hotels[h].cfg.lentFrom == s.hotels[h].cfg.lentFrom
    ensures BoundOf(t.creates, h, s.hotels[h].cfg.lentFrom) <= BoundOf(s.creates, h, s.hotels[h].cfg.lentFrom)
    decreases |es|
  {
    if es != [] {
      StepInv(s, es[0]);
      LentKept(s, es[0], h);
      StepOwner(s, es[0], h);
      OwnerOnlyLeaves(Next(s, es[0]), es[1..], t, h);
    }
  }
}
