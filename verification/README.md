# Verified models of the sandbox broker and its access layer

This project models the parts of the repository that carry its guarantees and
proves them in Dafny. Nothing here runs the original program.

**Central booking** (`broker/`). `Booking` is one transition system: each event
is one hold of the broker lock or one semaphore operation, and any enabled event
may follow any other. Hotel answers, failed saves, restarts, clocks and operator
requests are free parameters of the events. The theorems quantify over every run
from every start (`Run`, `Reachable`).

- `Hotels`, `Placement`, `Waits`, `Lend`, `Inflight`: the data and the rules that only read it.
- `Booking`, `BookingFrames`: the steps, and what each leaves alone.
- `BookingCounts`, `BookingSlots`: counters and slots.
- `BookingLend`, `BookingLendRuns`, `BookingOwners`, `BookingDurable`: lending a reserved sealed
  hotel, over runs and restarts.
- `BookingMoves`: queue moves stop.
- `BookingDeletes`: deletes by label against creates in flight.
- `BookingChips`, `BookingTransit`: one admitted hotel per chip.
- `BookingCases`, `BookingFaults`: runs from a start at which a promise is not kept.
- `Picking`: the weighted draw and its agreement with the catalog.
- `LendOps`, `Grid`, `Limits`, `Forget`, `ForgetUndo`: objects and loops of the lend code, the
  room grid and client ids, the guest limits, and forgetting a dead miner hotel.

**Access layer** (`cathedral/`). `CentralAccess`, `Limiter` and `LimiterLate` (workers sharing
one state file, and the request limiter), `WebSocket`, `DesTables`, `Des`, `Vnc`, `Der`
and `Routing`. `Binary`, `Sums`, `Windows` and `Options` are shared helpers.

## How the source is read

- Times are whole nanoseconds and clocks do not go back. Floating-point numbers are
  exact reals. Bytes are the integers 0 to 255; DES blocks are strings of binary digits.
- Hashes, signatures, attestation reports, JSON and HTTP are abstract: an event or a
  parameter says whether a check passed and what it returned.
- A batch of n creates is n arrivals. Hotels are named by id. A hotel that left may join
  again under its id once no create is on the old one, and a create tries an id once.
- A room list may free any set of rooms that were gone for long enough; which of them the
  broker keeps by vanish order is not fixed. Health report and room list are two events.
- `broker/inflight.go:28-30` says that the 15 minutes of a tombstone are longer than a
  create can take, with a hotel call of 5 minutes. The create call has a timeout of 12
  minutes and the wait for a slot has no upper limit. `BookingFaults.Outlived` is a run in
  which a create waits that long behind two others and keeps its room, and `BookingDeletes.BookedIffRanOut`
  the exact condition.
- `broker/lend.go:30` says that reclaim is the only way out of the lent state. A leave does
  not look at it and a join sets `reserved_for` anew: `BookingFaults.BackWithoutReclaim` is
  the run, `BookingLendRuns.LentEndsIff` the exact condition for every event.
- One hotel per chip does not hold of the code as it stands: `chipHolder` skips a hotel that
  joins or leaves, and the end of a join or the undoing of a leave puts it back without
  a new check. `BookingFaults.SharedChip` is a run from a start,
  `BookingTransit.StepSafeIff` the exact condition for every event, and `SneakBreaks` its
  other half.
- Used rooms within slots does not hold on the reap path: `creating` falls in one lock hold
  and the room is booked in a later one. `BookingSlots.StepFitsIff` gives the exact
  condition for every event, `BookingFaults.Overfilled` a run from a start.
- The request limiter reads the clock before it takes its lock, and drops old times also
  when it then refuses. Its rate holds in every run if and only if no stamp is late
  (`LimiterLate.RateIffOnTime`); its other two bounds always hold.
- A refused forget does not always leave the tombstones as they were: its rollback deletes
  those of all captured ids, whoever set them, and its own save drops old ones.
  `ForgetUndo.RefusedTombs` says what is left, `RollbackIff` and `RollbackSpares` when it is
  what was there, and `OldTombLost`, `OwnTombLost` and `DeleteLost` are runs that lose one.
- A hotel that lists a room with an empty id is outside `Grid`.

## Model

| member | source | states |
|---|---|---|
| BookingCounts.RunBalanced | broker/main.go:682-891 | Over every run each hotel's queued, creating and slot count and each guest's queued and pending count equals the number of creates in the matching phases |
| BookingCounts.StepBalanced | broker/main.go:682-891 | Every single event keeps all counters exact |
| BookingCounts.CreateBalanced | broker/main.go:692-777 | Every event on the path of a create moves each counter by exactly what its phase change says |
| BookingCounts.MoveBalanced | broker/placement.go:142-157 | A queue move takes one off one queue and puts one on the other, and leaves the guest's count as it was |
| BookingCounts.RecheckBalanced | broker/main.go:716-744 | The re-check after a slot was taken gives the queue counts back on each of its three refusals and keeps them otherwise |
| BookingCounts.SettleBalanced | broker/main.go:758-891 | Settling a hotel answer gives `creating` back on every outcome |
| BookingCounts.NoneBound | broker/lend.go:189-203 | No counter is negative, and a hotel with none queued and none creating has no create waiting there or being called there |
| BookingSlots.ReachableBalanced | broker/main.go:682-891 | Every counter of every reachable state is exact |
| BookingSlots.SlotHoldersBounded | broker/placement.go:119-161 | In every reachable state at most Concurrency creates hold a slot of a hotel |
| BookingSlots.AllReturned | broker/main.go:898-925 | Once all creates are over every counter is zero: every exit gave back what it took |
| BookingSlots.StepFitsIff | broker/main.go:579-579 | An event keeps used rooms within slots of all hotels if and only if it is not a reap of an unknown room on a full hotel, a health report or PATCH below the use, or a room list above the slots |
| BookingSlots.RunFits | broker/main.go:586-631 | From every start, over every run without such events, used rooms never exceed the slots |
| BookingSlots.ReapCanOverfill | broker/inflight.go:98-106 | On every full hotel with an answered create whose guest is gone: settle it, place another create, book the reaped room, and exactly one more is used than there are slots |
| BookingFaults.Overfilled | broker/main.go:758-799 | A reachable state in which a hotel of one slot uses two: the guest of a started create is gone, another create is queued before the room is booked, and the reaped room comes on top |
| BookingLendRuns.ReachableInv | broker/lend.go:87-98 | In every reachable state, with restarts and failed saves: lent_from and lent_report_id go together and never with reserved_for, in memory and in both files, next to exact counters and seats |
| BookingLendRuns.SealedIsAlone | broker/lend.go:286-295 | In every reachable state every create queued on or called at a sealed hotel reserved for X is X's, and so are its listed rooms but for those being reaped |
| BookingLendRuns.LentEndsIff | broker/lend.go:205-232 | Within a run of the broker the lent state of an id ends if and only if a reclaim is accepted, or a hotel joins under the id after the lent one has left |
| BookingFaults.BackWithoutReclaim | broker/hotels.go:656-721 | From a start: a guest lends its hotel, the hotel leaves and joins again reserved for the guest, on the REPORT_ID that the lend recorded, and a create of the guest is placed on it, with no reclaim and no restart |
| BookingLendRuns.ReclaimAfterReseal | broker/lend.go:163-185 | An accepted reclaim found no room, no create queued on the hotel or being called there, and a fetched REPORT_ID other than the recorded real one; the hotel is then reserved for the new owner and not lent |
| BookingLendRuns.LentOwnerStaysOut | broker/images.go:92-94 | From a clean lend on, over every run, no create of the owner is queued on the hotel or called there until it is reclaimed or a hotel joins under its id |
| BookingOwners.OwnerOnlyLeaves | broker/lend.go:301-320 | Over every run while a hotel stays lent, however it became lent, the creates that its owner has there only become fewer |
| BookingLendRuns.LendStartsClean | broker/lend.go:189-195 | An accepted lend starts with no room of the owner and no create queued on the hotel or being called there |
| BookingLendRuns.StepInv | broker/hotels.go:595-626 | Every event keeps the lend invariant: PATCH between its unlocked check and its locked one, placement, moves, room lists, joins, leaves and restarts |
| BookingLend.CreateSeats | broker/placement.go:142-157 | No event of a create seats a stranger on a reserved sealed hotel or the owner on a cleanly lent one |
| BookingLend.CheckedOwnRooms | broker/lend.go:301-320 | After the fail-closed check a sealed hotel that stays reserved has only rooms of its owner |
| BookingLend.AcceptedFindsNone | broker/lend.go:205-232 | A PATCH that lends, reclaims or reserves a sealed hotel anew passes its checks only with no create queued there or being called there, and with the rooms it may have |
| BookingDurable.LendSurvives | broker/lend.go:385-452 | From every reachable state a saved lend with a recorded launch, also a fail-closed one, keeps owner and launch in memory and in the file over every run with restarts and failed saves anywhere, until a reclaim or the end of the hotel; after a lend that found no create of the owner there, the owner has none meanwhile |
| BookingDurable.AcceptedLendSurvives | broker/hotels.go:627-647 | From every PATCH that is answered with an accepted lend on: its owner and its launch stay in memory and in the file, and the owner has no create queued there or being called there |
| BookingDurable.SavedLendSurvives | broker/lend.go:362-382 | From every save that works on, for a lent hotel of any kind: its owner stays in memory and in the file, and its launch too once it is known |
| BookingDurable.LentFromSurvives | broker/lend.go:301-355 | A saved lend whose launch may still be unknown keeps its owner in memory and in the file over every run, also between the time the launch is filled in and its save |
| BookingDurable.ReachablePlaced | broker/hotels.go:656-659 | In every reachable state at most one hotel joins or leaves, and no PATCH is under way meanwhile |
| BookingDurable.StepKeepsLend | broker/hotels.go:755-771 | No event but a reclaim or the end of the hotel changes owner or launch of a saved lend with a recorded launch, in memory or on disk |
| BookingMoves.MoveLowers | broker/placement.go:137-158 | Every queue move lowers the sum of the waits of all queue places by more than half of create time per slot of the hotel left |
| BookingMoves.MovesStop | broker/placement.go:78-92 | A run of moves alone is at most that sum divided by the least such half turn long |
| BookingMoves.NoMoveBack | broker/placement.go:142-157 | A move is never immediately reversed |
| BookingMoves.LeastTurn | broker/placement.go:78-92 | Every set of hotels has a positive least half turn, so the bound is finite |
| BookingMoves.WaitIsATurn | broker/placement.go:78-92 | A queue place that waits at all waits at least one create time per slot |
| BookingDeletes.LaterDeleteCatches | broker/inflight.go:46-79 | In every interleaving a finished create that a later delete by label matches has no room, a reaped room, or a room booked before the delete was recorded, unless the hotel answered after the tombstone ran out |
| BookingDeletes.HitAddsNoRoom | broker/inflight.go:61-106 | In every reachable state, from the record of a delete until it runs out, no event of a create that it hits puts a running room into the books of any hotel |
| BookingDeletes.BookedIffRanOut | broker/main.go:758-799 | In every reachable state, when a hotel answered with a room that is still wanted, the settle books it if and only if every delete that hits the create has run out; otherwise the books stay and the room goes to the reaper |
| BookingDeletes.OutcomeIsRoom | broker/main.go:778-799 | An event of a create makes its outcome Booked exactly when it puts a running room into the books, and no other of its events but a reap changes them |
| BookingFaults.Outlived | broker/inflight.go:28-30 | From a start, on a hotel of one call at a time: two calls of less than 12 minutes each hold the slot, no time passes but while the third create waits for it, and that create gets the slot after a later delete that matches it has run out; its room stays |
| BookingDeletes.OnlyHitIsDeleted | broker/main.go:731-778 | A create is answered as deleted only if a later delete matched it, and reaped only for that or because its guest went away |
| BookingDeletes.DoomedIffHit | broker/inflight.go:61-79 | The tombstones catch a create exactly when a recorded delete that came after it, matches it and has not run out exists |
| BookingDeletes.RunDeletes | broker/main.go:1632-1655 | Every run keeps the tombstones equal to the deletes that have not run out and every booked create ordered against them |
| BookingTransit.RunKeepsOnePerChip | broker/admission.go:412-457 | From every start, over every run in which no check passes on the chip of a hotel between its chip check and the end of its join or in the middle of its leave, at most one admitted gated hotel in place has a chip |
| BookingTransit.StepSafeIff | broker/hotels.go:492-516 | An event keeps the hotels, and those that may come back, on chips of their own if and only if it is not such a check |
| BookingTransit.SneakBreaks | broker/admission.go:412-422 | After every such check at most two more events put two admitted hotels on one chip |
| BookingChips.ReopenKeepsIff | broker/hotels.go:492-516 | The end of a join, or of a leave that is undone, keeps one hotel per chip if and only if no other hotel in place holds the chip |
| BookingTransit.UndoneLeaveShares | broker/hotels.go:684-715 | From every safe state with an idle joined hotel and a second one on its chip, a run of at most four events after which both are admitted: leave, check of the other hotel, failed save |
| BookingFaults.SharedChip | broker/hotels.go:698-715 | A reachable state in which two admitted hotels in place have one chip |
| BookingChips.AttestChips | broker/admission.go:424-457 | A check result of any kind keeps one hotel per chip |
| BookingChips.InitOnePerChip | broker/hotels.go:775-800 | Every start has at most one admitted hotel per chip |
| Hotels.FixedLabels | broker/hotels.go:84-101 | The sealed and miner labels are always there and all other given labels are kept |
| Hotels.AdmissibleFree | broker/capacity.go:174-182 | Free rooms are never negative, and positive only for a hotel that is up, in place, not draining or resting, admitted and checked |
| Waits.Weight | broker/placement.go:95-112 | A hotel with free rooms has a positive weight |
| Placement.SelectedIsReached | broker/images.go:76-131 | Whatever the placer selects for a scoped request the catalog reaches, in the tier asked for |
| Placement.ScopedIsReached | broker/guests.go:153-179 | For every parsed request, whatever the placer selects after scoping the catalog reaches |
| Placement.FallbackFor | broker/images.go:335-363 | A fallback keeps guest, policy, list and tier, and asks for the one class that all named hotels have |
| Picking.PickIsReached | broker/guests.go:315-323 | Any hotel a pick or a prefer fallback may return is one the catalog shows with free rooms, and a fallback keeps the class of the named hotels |
| Picking.PlainPick | broker/capacity.go:99-114 | For a policy guest's plain create the pick may return exactly the catalog's free hotels, the preferred ones alone when one of them is free |
| Picking.PlainPickFails | broker/main.go:586-598 | For a policy guest's plain create the pick fails exactly when the catalog lists no hotel with free rooms |
| Picking.Pick | broker/main.go:586-598 | pick finds a hotel that may be picked, the preferred tier first, and none exactly when there is none |
| Picking.PickIn | broker/main.go:601-631 | The draw falls in the interval of the returned hotel and of no other, a hotel of weight 0 is never drawn, and none is returned exactly when all weights are 0 |
| Picking.Draw | broker/main.go:617-630 | The subtracting loop finds the place whose interval holds the number; at the very end it gives the last place with a weight |
| Picking.DrawnOnce | broker/main.go:617-623 | The intervals do not overlap and each is as long as its weight |
| Picking.Fallback | broker/images.go:335-365 | The counting loop decides the fallback as its definition does |
| Inflight.FilterInPlace | broker/inflight.go:50-55 | The in-place filter leaves exactly the tombstones that have not run out, in order |
| Inflight.Tombstones.Add | broker/inflight.go:46-57 | A delete by label keeps the live tombstones of its guest, adds its own, and changes no other guest |
| Inflight.Tombstones.Catch | broker/inflight.go:61-79 | The search reports exactly whether a live tombstone after the time received matches all labels |
| LendOps.LendHotel.Apply | broker/lend.go:205-232 | The locked re-check refuses exactly as specified and applies a lend or reclaim all or nothing |
| LendOps.LendHotel.Commit | broker/hotels.go:595-655 | A PATCH that is refused or not saved leaves the hotel as it was; otherwise all its fields are as specified |
| LendOps.LendHotel.CountOwner | broker/lend.go:100-108 | The counting loop gives the owner's rooms plus all creates |
| LendOps.LendHotel.CountForeign | broker/lend.go:271-279 | The counting loop gives the rooms of other guests |
| LendOps.LendHotel.CheckRooms | broker/lend.go:301-320 | The fail-closed check makes a reserved sealed hotel with a foreign room lent from its owner, and reports exactly whether it changed it |
| LendOps.LendHotel.Baseline | broker/lend.go:345-355 | Only an unknown report id is replaced |
| LendOps.CollectLends | broker/lend.go:385-401 | The entries written are those of hotels not in the configuration and those of its lent hotels |
| LendOps.ApplyLends | broker/lend.go:435-452 | At a start every entry goes to its hotel and wins over reserved_for, and the others are kept |
| Limits.RateHolds | broker/guests.go:103-135 | With fixed limits no 60 seconds hold more admitted rooms than max_creates_per_minute, for every sequence of calls |
| Limits.RetryIsLeast | broker/guests.go:118-127 | For a batch that can fit, Retry-After is the least whole number of seconds after which the same request passes the rate check |
| Limits.GuestState.Admit | broker/guests.go:103-135 | Verdict, kept times and pending count are as specified, on every path |
| Limits.HistoryGrows | broker/guests.go:113-131 | Only an admitted call adds to the history, one entry for each room |
| Windows.WindowIsLive | broker/guests.go:111-116 | Of the whole history, a window that holds now holds only times that are still kept |
| Grid.HotelGrid.Resize | broker/main.go:536-549 | The new grid has the new length, rooms that fit keep their place and the others are not drawn |
| Grid.HotelGrid.Place | broker/main.go:551-559 | A room gets the first free place or none, and no other place changes |
| Grid.HotelGrid.Release | broker/main.go:569-577 | The room leaves the grid and, if it is the one there, the books; nothing else changes |
| Grid.Desk.Register | broker/main.go:298-313 | The room gets its old client id if that is free, else the new one, and ids and rooms still point at each other |
| Grid.Desk.Release | broker/main.go:561-567 | A released room loses its client id, and ids and rooms still point at each other |
| Grid.Desk.Book | broker/main.go:792-799 | A started room takes the place of one the sync loop saw first, and is found by its client id |
| Grid.Desk.BookAmong | broker/main.go:792-799 | Booking a room of one hotel keeps the client ids and the rooms of all hotels pointing at each other |
| Grid.Desk.Reap | broker/inflight.go:98-106 | A reaped room is booked under its hotel id without a client id and off the grid |
| Grid.Desk.SeeRooms | broker/main.go:1810-1828 | After a room list every listed room is in the books, no known room is lost, rooms of creates under way stay as they are, and all links hold |
| Grid.Desk.SeeAmong | broker/main.go:1810-1828 | The same for the room list of one hotel |
| Grid.Desk.FreeRooms | broker/main.go:1842-1849 | Exactly the freed rooms leave the books, and all links hold |
| Grid.Desk.FreeAmong | broker/main.go:1842-1849 | The same for the rooms that the sync loop frees |
| Grid.OtherLinked | broker/main.go:298-313 | Any operation that changes the client ids of one hotel alone keeps those of every other hotel in step with its rooms |
| Grid.Desk.Sweep | broker/main.go:1850-1854 | Exactly the creates that failed a while ago leave the grid |
| Forget.CrashConsistent | broker/miner_forget.go:60-158 | At every crash point: if hotels.json does not list the hotel, the client state file has a tombstone for every captured id, for as long as tombstones are kept |
| Forget.ForgottenReadsDeleted | broker/state.go:202-271 | A start after such a crash finds the tombstones and no live room, so clients read deleted |
| Forget.RefusalKeepsAll | broker/miner_forget.go:86-127 | A refused forget leaves the hotel listed, in the set and open, with exactly the rooms and client ids that the sync loop alone would have left |
| Forget.ForgetEnds | broker/miner_forget.go:129-158 | A forget that ends well leaves no room and no client id of the hotel, which is in neither set nor file, and the tombstones on disk |
| ForgetUndo.RefusedTombs | broker/miner_forget.go:105-127 | However a forget is refused, the tombstones are the old ones with the client deletes meanwhile, less those that a save dropped, less at the rollback those of every captured id |
| ForgetUndo.RollbackIff | broker/miner_forget.go:179-198 | Without client deletes meanwhile a refused forget leaves the tombstones as they were if and only if none of them is of a room of the hotel, when there was a rollback, and none is too old at the last save |
| ForgetUndo.RollbackSpares | broker/miner_forget.go:179-198 | The rollback leaves what clients and saves alone would have left if and only if no captured id has a tombstone of its own, from before the forget or from its course |
| ForgetUndo.OldTombLost | broker/state.go:134-140 | A refused forget after which an old tombstone of another client is gone |
| ForgetUndo.OwnTombLost | broker/miner_forget.go:179-190 | A refused forget after which the tombstone that a client had set before is gone |
| ForgetUndo.DeleteLost | broker/miner_forget.go:102-110 | A refused forget after which the tombstone that a client set meanwhile is gone |
| Forget.StepInv | broker/state.go:78-163 | Every event, with failed writes and the save loop in between, keeps the tombstones of a committed forget in memory, in the pending snapshot and on disk |
| Forget.Prune | broker/state.go:134-140 | The loop keeps exactly the tombstones that are young enough, in memory and in the file |
| Forget.ChangeTombs | broker/miner_forget.go:179-190 | The loop adds or removes exactly the captured ids |
| CentralAccess.StoreNeverFalls | cathedral/central_access.py:262-342 | Over every run of workers the stored revocation sequence and the stored high-water never fall |
| CentralAccess.SameSequenceSameList | cathedral/central_access.py:723-743 | Two workers on the same sequence hold the same revoked set, also at different times and across restarts |
| CentralAccess.AcceptedInOrder | cathedral/central_access.py:911-951 | Once any worker accepts a delegation no worker later accepts an older one, at preauthorize or finalize |
| CentralAccess.RestartKeepsList | cathedral/central_access.py:697-715 | A worker that starts again holds a list at least as new as any held before |
| CentralAccess.StepInv | cathedral/central_access.py:262-342 | Every event, with store calls that fail before or after their commit, keeps one list per sequence and takes nothing back |
| CentralAccess.Authorizer.Install | cathedral/central_access.py:723-743 | A list is installed exactly when it verifies, does not change a sequence in force and is what the store returns; otherwise the worker keeps its list |
| CentralAccess.Authorizer.Accept | cathedral/central_access.py:911-922 | The last step of preauthorize raises the stored high-water and accepts exactly sequences not below it |
| CentralAccess.Authorizer.Recheck | cathedral/central_access.py:941-951 | finalize accepts exactly unrevoked digests whose sequence is not below the stored high-water |
| CentralAccess.Store.Raise | cathedral/central_access.py:262-288 | The stored high-water becomes the maximum, also when the caller sees a failure after the commit |
| CentralAccess.Store.Keep | cathedral/central_access.py:310-342 | Only a higher sequence replaces the stored list |
| Limiter.LimiterHolds | cathedral/central_access.py:976-1047 | In every run a caller has at most one unreleased lease and at most max_callers are known; with stamps in order a caller gets at most requests_per_window leases in any window, also across evictions |
| LimiterLate.RateIffOnTime | cathedral/central_access.py:1013-1039 | For every configuration the rate holds in all runs whose stamps are at most d late if and only if d is 0 |
| LimiterLate.LateBreaks | cathedral/central_access.py:1031-1034 | For every configuration a run whose last stamp is one nanosecond late and in which one window holds requests_per_window + 1 leases: a refused call drops the times of a caller |
| Limiter.ReleasedOnce | cathedral/central_access.py:968-973 | In every run, however often a lease is released, its slot is given back at most once, and exactly once when the lease is closed |
| Limiter.HistoryAfter | cathedral/central_access.py:1013-1039 | Only a grant adds to a caller's history, and it adds its own time; trims and evictions lose nothing that counts |
| Limiter.CentralLimiter.Acquire | cathedral/central_access.py:1013-1039 | acquire refuses a caller that is not central without a change, and otherwise grants and changes the books exactly as specified |
| Limiter.CentralLimiter.GiveBack | cathedral/central_access.py:1041-1047 | A release takes one off the count and never leaves a zero entry |
| Limiter.CentralLimiter.FindIdle | cathedral/central_access.py:1020-1026 | The idle callers are exactly those with nothing in flight and no time within the window |
| Limiter.StepBooks | cathedral/central_access.py:1013-1047 | Every event, whatever its stamp, keeps the count of each caller equal to its held leases, at most one, and the known callers within the limit |
| Limiter.StepTimes | cathedral/central_access.py:1020-1032 | With stamps in order every event keeps the kept times in order and within the rate, and the dropped ones out of the window |
| WebSocket.RoundTrip | cathedral/agent_websocket.py:40-99 | Every payload below 2^64 bytes, masked or not, in all three length forms, decodes to itself whatever follows |
| WebSocket.StreamRoundTrip | cathedral/agent_websocket.py:63-99 | A stream of frames decodes to these frames with nothing left |
| WebSocket.ChunksAsWhole | cathedral/agent_websocket.py:63-99 | However a stream is cut into chunks, it gives the frames and the remainder of the whole |
| WebSocket.ReadOnAsWhole | cathedral/agent_websocket.py:63-99 | A reader that goes on after a close sees the same frames up to the first close, and without a close the same remainder |
| WebSocket.DecodeMore | cathedral/agent_websocket.py:66-99 | Decoding a buffer and then more bytes is decoding all at once |
| WebSocket.ByteBuffer.DecodeFrames | cathedral/agent_websocket.py:63-99 | The loop returns all complete frames up to the first close and leaves the rest in the buffer |
| WebSocket.ByteBuffer.NextFrame | cathedral/agent_websocket.py:67-93 | One frame is read exactly when all its bytes are there |
| WebSocket.EncodeFrame | cathedral/agent_websocket.py:40-60 | The frame has the shortest length form, and an unsupported opcode or a length of 2^64 is refused |
| WebSocket.MaskedTwice | cathedral/agent_websocket.py:91-94 | Masking twice gives the payload back |
| Des.Bijection | cathedral/agent_rfb.py:214-223 | For every list of subkeys the block map has a two-sided inverse: the same steps with the subkeys reversed |
| Des.RoundsBack | cathedral/agent_rfb.py:220-222 | Whatever the mixing function, the rounds with reversed subkeys on swapped halves undo the rounds |
| Des.RulesInverse | cathedral/agent_rfb.py:102-113 | The initial and the final permutation undo each other |
| Des.DesRules | cathedral/agent_rfb.py:102-113 | The entries of both outer tables follow their closed rule |
| Des.PermuteNumber | cathedral/agent_rfb.py:182-187 | The loop over bits of a number permutes its binary digits as the table says |
| Des.MakeSubkeys | cathedral/agent_rfb.py:190-199 | The loop gives the sixteen subkeys of the schedule |
| Des.Mixed | cathedral/agent_rfb.py:202-211 | The loop over the boxes computes the mixing function |
| Des.Encrypt | cathedral/agent_rfb.py:214-223 | The rounds loop computes the block map of the key |
| Vnc.Verify | cathedral/agent_rfb.py:251-260 | A response verifies if and only if challenge and response have 16 bytes and it is the one expected |
| Vnc.DistinctResponses | cathedral/agent_rfb.py:226-231 | Distinct challenges need distinct responses, for every password |
| Vnc.DesResponses | cathedral/agent_rfb.py:226-231 | The same for the tables of the standard |
| Vnc.EveryResponse | cathedral/agent_rfb.py:226-231 | Every 16 bytes are the response to some challenge |
| Vnc.Compare | cathedral/agent_rfb.py:256-260 | The or of all differences is zero exactly when the two strings are equal |
| Vnc.ReverseIsMirror | cathedral/agent_rfb.py:86-91 | The three swaps reverse the order of the digits of a byte |
| Vnc.ReverseTwice | cathedral/agent_rfb.py:86-91 | Reversing a byte twice gives it back |
| Vnc.PasswordsAlike | cathedral/agent_rfb.py:94-96 | Passwords that agree in the low seven digits of their first eight bytes have the same subkeys |
| Vnc.DesPasswordsAlike | cathedral/agent_rfb.py:121-124 | The same for the tables of the standard, which never read the last digit of a key byte |
| Der.HeaderIff | cathedral/channel.py:19-43 | The reader accepts a header if and only if it is the one shortest header of a low tag and a length below 2^32, with its value all there |
| Der.FindsSpki | cathedral/channel.py:46-75 | In every certificate assembled from such items the reader finds exactly the SubjectPublicKeyInfo |
| Der.AcceptsOnlyCertificates | cathedral/channel.py:46-75 | Whatever the reader accepts is an assembled certificate, and what it returns is the key info nested in its body |
| Der.ExtractSpki | cathedral/channel.py:46-75 | The code returns the slice the specification finds, or an error when it finds none |
| Der.SkipFields | cathedral/channel.py:61-66 | The loop passes five items, none of which ends after the body |
| Routing.Conservation | cathedral/economics.py:21-98 | For every input the weights and the burn add up to 1 |
| Routing.NothingNegative | cathedral/economics.py:84-96 | No weight is below the floor share and no burn below zero |
| Routing.ApplyRouting | cathedral/economics.py:21-98 | The code gives every miner its floor share and its parts of all lanes, and burns exactly the floor without miners, the budgets of lanes without a score, and all work without a share |
| Routing.LaneAddsUp | cathedral/economics.py:57-82 | The parts of a lane add up to its budget, or to nothing when no score is positive |
| Routing.BudgetsAddUp | cathedral/economics.py:42-56 | The budgets of all lanes add up to the work share |
| Routing.PayLane | cathedral/economics.py:74-82 | The loop adds to each miner of the lane exactly its part |

## Left out

- HTTP handlers, request parsing, the live view, statistics and logging.
- The clocks of the hotels, network calls, the attestation verifier, TLS pinning and SNP report fields: their results are event parameters.
- The broker as one object: central booking is a state machine over values, so aliasing inside one lock hold is modelled only in Grid, LendOps, Limits and Inflight.
- Which gone rooms a room list frees, by vanish order and the hotel's own count of deleting rooms: any set that may be freed is covered.
- The forget path inside `Booking`: `Forget` models it next to the save loop for one hotel, without the broker room id kept in a tombstone and without the other sections of the client state.
- Hotels of the configuration that are not `sealed` but labelled sealed by hand: a PATCH can relabel them, and the sealed statements are about the `sealed` field.
- Creates the owner already has queued when the fail-closed room check makes a hotel lent: the source does not stop them, so `BookingLendRuns.LentOwnerStaysOut` starts from a clean lend, and `BookingOwners.OwnerOnlyLeaves` covers the others.
- A join under the id of a hotel that left while a create is still giving its slot back or reaping a room there.
- Probe rooms, workspaces, snapshots, prefetch, image builds and lost-answer cleanup at the hotels.
- Overflow guards of the router for values that are finite in exact arithmetic, and floating-point rounding everywhere.
- `check_and_record_request` and the other replay state of central access; the early refusals of preauthorize that only refuse more.
- The receipt and claim validators, the economics outside apply_routing, and the RFB messages after authentication.
