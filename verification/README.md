# Player registry of the split-screen portal demo

This project models `PlayerManager`, the single authoritative store of player
state in the split-screen demo. The canvas is split into a left zone and a
right zone. Two players, `player1` and `player2`, each live on one side. A
scene hands a player to the other zone by asking the registry to transfer it.
The registry publishes a `player-depart` event carrying the old side. It then
moves the player to the other side at a fixed spawn point. Finally it
publishes a `player-arrive` event carrying a snapshot of the new record.

The model is functional:

- `players.dfy` (module `Players`) holds the closed universe: the two ids,
  the two sides, the player record, the cosmetics, and the arithmetic of the
  default layout and of the spawn point.
- `registry.dfy` (module `Registry`) holds the registry value. It has an
  initialized flag, the players record keyed by id, and the record's key
  order, because `Object.values` lists keys in insertion order. It also holds
  the five operations. Each operation is a pure function. `Transfer` returns
  the new registry together with the events it published.
- `trace.dfy` (module `Trace`) drives the registry with a sequence of calls
  and appends every published event to one trace. `Replay` is an observer
  that tracks each player's side from the events alone, as a listening scene
  does.

Coordinates, widths and heights are `real`. JavaScript numbers are modelled
without IEEE rounding.

## Model

| member | source | states |
|---|---|---|
| Players.Other | next-app/src/lib/ui/PlayerManager.ts:71 | the destination side always differs from the side the player leaves |
| Players.InitialRecord | next-app/src/lib/ui/PlayerManager.ts:30-47 | a freshly seeded player is on the left at half the height, with x a quarter of the width minus 100 for player1 and plus 100 for player2, and carries its own texture and tint |
| Players.InitialPositionsSymmetric | next-app/src/lib/ui/PlayerManager.ts:30-47 | the two default positions are 200 apart, share a y, and straddle the centre of the left zone |
| Players.SpawnBesideDoor | next-app/src/lib/ui/PlayerManager.ts:76-78 | a spawn point lies exactly 80 inside the door of the destination zone: left of the left zone's right edge, right of the right zone's left edge |
| Players.SpawnYApart | next-app/src/lib/ui/PlayerManager.ts:73-75 | player1 spawns 60 above the centre line and player2 60 below it, so they never share a spawn y |
| Players.SpawnInsideZone | next-app/src/lib/ui/PlayerManager.ts:72-78 | on a canvas at least 160 wide and 120 high the spawn point lies inside the destination zone |
| Registry.EmptyValid | next-app/src/lib/ui/PlayerManager.ts:24-25 | a new registry, uninitialized and with no players, satisfies the representation invariant |
| Registry.WithKey | next-app/src/lib/ui/PlayerManager.ts:32-40 | assigning a key of the players record keeps every existing key in its place, adds the key at most once at the end, and never lists a key twice |
| Registry.Init | next-app/src/lib/ui/PlayerManager.ts:28-49 | an initialized registry is returned unchanged; otherwise both players get their default records; the invariant is kept |
| Registry.InitIdempotent | next-app/src/lib/ui/PlayerManager.ts:27-29 | a second `init`, with any width and height, yields the same registry as the first |
| Registry.InitLayout | next-app/src/lib/ui/PlayerManager.ts:30-53 | after the first `init` the left side lists player1 then player2 with their default records, and the right side lists nobody |
| Registry.GetPlayer | next-app/src/lib/ui/PlayerManager.ts:55-57 | the lookup finds a record exactly when the registry is initialized; the record found has the id asked for and that id's cosmetics |
| Registry.FilterSide | next-app/src/lib/ui/PlayerManager.ts:51-53 | the side filter returns no more records than there are keys, each on the requested side and each a record of the registry |
| Registry.FilterSideMembers | next-app/src/lib/ui/PlayerManager.ts:51-53 | a record is listed for a side if and only if it is on that side and some key maps to it |
| Registry.FilterSidePartition | next-app/src/lib/ui/PlayerManager.ts:51-53 | every key is listed on exactly one of the two sides, so the two lists together are as long as the key order |
| Registry.PlayersForSideExact | next-app/src/lib/ui/PlayerManager.ts:51-53 | `getPlayersForSide(s)` returns exactly the players on `s`, player1 before player2, and nothing before `init` |
| Registry.PlayersForSideMembers | next-app/src/lib/ui/PlayerManager.ts:51-53 | in a valid registry a record is listed for `s` if and only if it is a player's record with side `s` |
| Registry.PlayersConserved | next-app/src/lib/ui/PlayerManager.ts:51-53 | once initialized, the two side lists together hold exactly the two player records, each once (as a multiset), so their lengths sum to 2 |
| Registry.UpdatePosition | next-app/src/lib/ui/PlayerManager.ts:60-64 | only the x and y of the named player change; its id, texture, tint and side and the other player's record stay as they were; a no-op before `init` |
| Registry.Transfer | next-app/src/lib/ui/PlayerManager.ts:67-88 | the player moves to the other side at the spawn point with id and cosmetics kept; exactly a depart with the old side then an arrive with the new record are published; the other player is untouched; a no-op publishing nothing before `init` |
| Registry.TransferTwiceRestoresSide | next-app/src/lib/ui/PlayerManager.ts:70-83 | two transfers of the same player restore its side and cosmetics, and the second depart names the side the first arrive announced |
| Registry.TransferMovesBetweenLists | next-app/src/lib/ui/PlayerManager.ts:51-85 | after a transfer the player's new record is listed on the destination side and no record of it remains on the side it left |
| Registry.UninitializedNoOps | next-app/src/lib/ui/PlayerManager.ts:55-69 | before `init` the lookup finds nothing, the side lists are empty, and position updates and transfers change nothing and publish nothing |
| Trace.Apply | next-app/src/lib/ui/PlayerManager.ts:28-88 | of the three mutating calls only a transfer publishes, and a transfer of a known player publishes exactly two events |
| Trace.Run | next-app/src/lib/ui/PlayerManager.ts:28-88 | any sequence of calls keeps the registry invariant, never undoes initialization, and publishes at most two events per call |
| Trace.RunPaired | next-app/src/lib/ui/PlayerManager.ts:80-87 | every trace consists of depart/arrive pairs, each arrive for the player that just departed and on the other side |
| Trace.RunBeforeInitSilent | next-app/src/lib/ui/PlayerManager.ts:61-69 | until the first `init` no call changes the registry or publishes anything |
| Trace.ApplyReplays | next-app/src/lib/ui/PlayerManager.ts:80-87 | after any one call on an initialized registry, an observer that saw only its events agrees with the registry on every player's side |
| Trace.ObserverMissesInit | next-app/src/lib/ui/PlayerManager.ts:28-49 | `init` publishes nothing, so an observer seeded before the first `init` disagrees with the registry after it; observers must be seeded from an initialized registry |
| Trace.RunReplays | next-app/src/lib/ui/PlayerManager.ts:80-87 | an observer seeded from an initialized registry and fed only the trace never sees a depart from the wrong side or an arrive of a player already present, and ends agreeing with the registry on every side |

## Left out

- The lazy static singleton accessor (`PlayerManager.ts` lines 18-22 and 91): the model passes one registry value explicitly.
- The event bus itself (`@/lib/util/EventBus` is not part of this model): published events are modelled as an appended sequence, not as delivery to subscribed handlers. Handlers run inside `EventBus.emit` (lines 81 and 87) before `transferPlayer` returns. The model assumes they neither call back into the registry nor throw, so Transfer, RunPaired and RunReplays describe that case only. A handler that transferred again would give Depart, Depart, Arrive, Arrive; one that threw would leave a depart with no mutation and no arrive.
- The scenes: `GameLeft.ts` and `GameRight.ts` only configure cameras, images and text. The scenes that subscribe to the events (`PlayerManager.ts` lines 14-15) and call `updatePosition` (line 59) are not among the modelled files.
- JavaScript number semantics: coordinates are unbounded reals, so IEEE rounding and non-finite widths are not modelled.
- Shared references: `getPlayer` and `getPlayersForSide` hand out the registry's own `PlayerData` objects, and `updatePosition` and `transferPlayer` change those objects in place (`PlayerManager.ts` lines 52, 56, 63 and 83-85). A reference taken earlier therefore sees later moves, and a caller can write `side`, `texture` or `tint` through it. The model returns value snapshots instead, and the invariant `Valid` (fixed cosmetics, id matching its key) assumes no caller writes through a returned reference. Only the arrive payload (`{ ...p }`, line 87) is a copy in the source too.
- The players record is keyed by the two-valued `PlayerId` instead of arbitrary strings, matching the `'player1' | 'player2'` parameter type of every operation.
- Players.SpawnInsideZone: `transferPlayer` never clamps the spawn point, which its comment at `PlayerManager.ts` line 76 places just inside the door area. The lemma proves the point lies inside the destination zone only for a canvas at least 160 wide and 120 high. It ignores the sprite size, which the registry never sees.
