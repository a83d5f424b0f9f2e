# Verified model of the SIMPLEST-MMORPG server core

A Dafny model of the server's game world and of the algorithms it rests on, with proofs. Map size, obstacle
map, sector size, view radius and aggression radius are parameters (`Grid.Terrain`); the proofs hold for every
choice in which sectors tile the map and both radii are at most one sector. `dafny verify dfyconfig.toml`
checks the whole project.

## What is modelled

| File | Content |
|---|---|
| `Grid.dfy` | tiles, directions, distances, sectors; why a 3x3 block of sectors holds everything in view |
| `Pathfinder.dfy` | A* with lazy deletion, closed set, parent table and node budget |
| `Sectors.dfy` | class `SectorManager`: tile array, sector sets, nearest-free-tile search, 3x3 query |
| `TileProtocol.dfy` | the same scheme one compare-and-swap or set update at a time, freely interleaved |
| `World.dfy` | the world as a step relation: positions, what each client shows, activation flags, timer queue |
| `Timers.dfy`, `Creatures.dfy`, `ViewProcessor.dfy`, `Observers.dfy` | timer queue; records of players and monsters; packet loops; sector queries of the handlers |
| `Runs.dfy`, `Turns.dfy`, `GameWorld.dfy` | class `GameWorld`: every handler, in place, proved to be a run of the step relation |
| `GameState.dfy` | the client's object table |
| `Regen.dfy` | the hit-point regeneration handshake, one atomic access at a time |
| `RingBuffer.dfy`, `Framing.dfy` | the circular receive buffer, the server's framer and the stress tool's framer |
| `Leveling.dfy`, `Rewards.dfy` | the level-up loop and its closed form; experience for kills |

The world is modelled twice. `World` says what each step (login, walk, teleport, leave, player death, monster
death, timer events, monster move, respawn) does to a value `State`; all invariants are proved there, over all
runs. `GameWorld` is the imperative form with the source's fields and loops. Its ghost field `state` is tied to
the real fields by `Holds`, and `Valid` adds that `state` is reachable from start-up; each handler's contract
says which step or run of steps it performed. So every theorem about reachable states is a theorem about the
class, and `GameWorlds.Replay` puts the two ends together: a client that has received every packet sent to it
shows the server's own view of the world.

## Main results

- **A\***: a non-empty path is a shortest walkable route. With `D` the true distance, the search succeeds if
  fewer than `maxNodes` non-goal cells have distance-plus-heuristic at most `D`, and fails if at least
  `maxNodes` of them have it at most `D - 1`. Where nothing blocks the rectangle between start and goal, it
  succeeds iff `D < maxNodes`: the preference for the deeper of two equally good nodes walks straight in.
- **Replication**: in every reachable state the table of a client whose player has not died since login equals
  the brute-force view, and no client ever misses or misplaces an object in view.
- **Timers**: a live monster has exactly one AI timer iff its flag is set, a dead one exactly one respawn
  timer, and a stale AI timer always comes out of the queue first (1000 ms < 30000 ms), so a respawn never
  starts a second AI loop. A monster that somebody can see is never asleep.
- **Occupancy**: under any interleaving of atomic accesses no claim overwrites a tile, and occupied tiles =
  ids that hold a tile + movers between claim and release.
- **Regeneration**: over every interleaving, deaths included, the flag is truthful throughout iff no death
  clears a set flag, and no wake-up is ever lost iff no timer that found the player dead gives up on it when it
  is below full health again and nobody else takes the duty. Without further hits a timer fires until the player
  is at full health, within a bound, and then flag and timer are gone.
- **Framing**: packets do not depend on chunking; the server's and the stress tool's framer, run side by side on
  one stream in receives of different sizes, hand over the same packets; the receive window is never empty.
- **Attack**: a player's attack kills exactly the monsters it should, and one gain of the summed rewards is what
  the player ends up with, whatever the order.
- **Levelling**: closed form, uniqueness, and `GainExp(a)` then `GainExp(b)` equals `GainExp(a + b)`.

## Where the code does not do what is expected of it

- A player's own death sends its client no removals (GameWorld.cpp:124-175). Its table is exact afterwards iff
  everything in view at the place of death is in view from the tile of rebirth (`World.DeathKeepsExactIff`);
  `World.DeathLeavesStaleEntry` is a reachable counterexample, and `World.ExactThroughoutIff` the exact
  condition over whole runs. The table stays complete in any case.
- The top-level README (lines 247 and 253) says the compare-and-swap prevents a second registration and the
  restart is race-free. Across a death neither holds: `StopRegen` clears the flag under a pending timer
  (`Regen.DeathForksTheTimer`), and a timer that sees the dead player gives up even if the player has been
  reset and hit again since (`Regen.DeathLosesTheWakeup`). `Regen.OneTokenIff` and `Regen.NoWakeupIsLostIff`
  say exactly when each of them holds over a run.
- The extraction loop of a receive does not end when a frame's size field is 0 (`Framing.LoopEndsIff`).
- The top-level README (line 178) describes a move as release, then claim; the code claims first
  (SectorManager.cpp:193-199), and the code is what is modelled.
- The comment at ViewProcessor.h:21 speaks of a 15x15 view; the constants give 21x21.

## Assumptions

Move directions are 0..3. A session logs in once. Around (0, 0) there is a free tile whenever a player is sent
there: one for a death or a teleport's fallback, four before a monster's turn, which can kill four players
(`Runs.Room`). Operations on one object are serialised, each handler is one atomic step (except in
`TileProtocol` and `Regen`), the clock reads the same during one handler and never goes back, and timers are
handled in the order the queue hands them out. Map sides are small enough for 16-bit coordinates up to 20 tiles
outside the map. Spawn data has positive health. A path search starts on a tile of the map. Levels are 1 to 20,
experience is not negative, and its sums fit 32 bits. Size fields that a framer reads are at least 1 and at
most 512.

## Model

| member | source | states |
|---|---|---|
| Grid.IndexInjective | SIMPLEST-MMORPG/Server/Game/Pathfinder.cpp:31-35 | the row-major key of the closed set and of the tile array tells every two tiles of the map apart |
| Grid.TileHasSector | SIMPLEST-MMORPG/Common/Types.h:48 | every tile of the map lies in an existing sector |
| Grid.WithinSectorSizeTouches | SIMPLEST-MMORPG/Server/Game/SectorManager.cpp:85-99 | tiles at most one sector size apart lie in touching sectors, so the 3x3 block misses nothing in range |
| Pathfinder.FindPath | SIMPLEST-MMORPG/Server/Game/Pathfinder.cpp:44-159 | a non-empty result is a shortest walkable route with fewer than maxNodes steps; empty if goal is start or blocked; success and failure bounds for the node budget; where nothing blocks the rectangle between start and goal, found iff their Manhattan distance is below maxNodes |
| Pathfinder.ExpandKeepsSearch | SIMPLEST-MMORPG/Server/Game/Pathfinder.cpp:117-155 | expanding one cell keeps the search invariant: closed cells carry their true distance, every open route has a queued frontier node |
| Pathfinder.SkipKeepsSearch | SIMPLEST-MMORPG/Server/Game/Pathfinder.cpp:85-89 | dropping a queue entry of a closed cell keeps the search invariant (lazy deletion) |
| Pathfinder.OpenOnRoute | SIMPLEST-MMORPG/Server/Game/Pathfinder.cpp:78-91 | for every route to a cell not yet closed the queue holds an entry whose f is at most the route's length plus the remaining heuristic |
| Pathfinder.BestBounds | SIMPLEST-MMORPG/Server/Game/Pathfinder.cpp:18-29 | with the consistent Manhattan heuristic the best queue entry bounds the length of every route that is still open |
| Pathfinder.BestIsShortest | SIMPLEST-MMORPG/Server/Game/Pathfinder.cpp:80-93 | a cell that leaves the queue for the first time does so with its shortest distance |
| Pathfinder.ExpandedInEllipse | SIMPLEST-MMORPG/Server/Game/Pathfinder.cpp:78-155 | every expanded cell has distance plus heuristic at most the goal's distance |
| Pathfinder.InnerEllipseExpanded | SIMPLEST-MMORPG/Server/Game/Pathfinder.cpp:78-155 | when the goal leaves the queue, every cell with distance plus heuristic below the goal's distance has been expanded |
| Pathfinder.DryQueueMeansUnreachable | SIMPLEST-MMORPG/Server/Game/Pathfinder.cpp:78 | an empty queue without the goal means that no walkable route exists |
| Pathfinder.GaveUp | SIMPLEST-MMORPG/Server/Game/Pathfinder.cpp:78-158 | a search that ends without the goal had too small a budget for the goal's distance, or no route exists |
| Pathfinder.StraightPop | SIMPLEST-MMORPG/Server/Game/Pathfinder.cpp:18-29 | on open ground the node that comes out next is the one found last: it lies in the rectangle, n steps from the start after n expansions, and has not been closed |
| Pathfinder.StraightExpand | SIMPLEST-MMORPG/Server/Game/Pathfinder.cpp:117-155 | on open ground every expansion leaves such a node one step further in the queue, so none is wasted |
| Pathfinder.StraightNotOver | SIMPLEST-MMORPG/Server/Game/Pathfinder.cpp:78-158 | a search that ends on open ground without the goal had a budget of at most the distance |
| Pathfinder.ChainIsRoute | SIMPLEST-MMORPG/Server/Game/Pathfinder.cpp:93-106 | the parent chain of a node is a walkable route whose length is the node's g |
| Pathfinder.Backtrack | SIMPLEST-MMORPG/Server/Game/Pathfinder.cpp:99-112 | the walk along strictly decreasing parent indices terminates and, reversed, gives the chain in order |
| Pathfinder.PushNeighbours | SIMPLEST-MMORPG/Server/Game/Pathfinder.cpp:134-153 | exactly the walkable neighbours outside the closed set are queued, one step further |
| Sectors.SectorManager.TryClaim | SIMPLEST-MMORPG/Server/Game/SectorManager.cpp:125-135 | succeeds iff the tile is in the map and empty; changes that tile only |
| Sectors.SectorManager.Release | SIMPLEST-MMORPG/Server/Game/SectorManager.cpp:137-147 | empties the tile iff it holds this id; changes nothing else |
| Sectors.SectorManager.MoveObject | SIMPLEST-MMORPG/Server/Game/SectorManager.cpp:57-78 | moves the id between the two sector sets, or nothing when the sector is the same |
| Sectors.SectorManager.TryMoveObject | SIMPLEST-MMORPG/Server/Game/SectorManager.cpp:185-205 | succeeds iff the target is the own tile or an unoccupied tile of the map; tiles, sector sets and positions agree afterwards |
| Sectors.MoveKeepsAgreement | SIMPLEST-MMORPG/Server/Game/SectorManager.cpp:185-205 | claim, release and sector update together keep both agreements |
| Sectors.SectorManager.TryClaimNearby | SIMPLEST-MMORPG/Server/Game/SectorManager.cpp:149-183 | claims the first claimable tile in ring, row, column order and no other; fails iff no tile within the radius is claimable; 16-bit coordinates included |
| Sectors.FirstFreeIsNearestAndUnique | SIMPLEST-MMORPG/Server/Game/SectorManager.cpp:149-183 | the claimed tile has minimum Chebyshev distance and is determined by the positions alone |
| Sectors.FirstFreeIsNear | SIMPLEST-MMORPG/Server/Game/SectorManager.cpp:149-183 | the claimed tile lies at most the radius away on each axis |
| Sectors.CrowdedIff | SIMPLEST-MMORPG/Server/Game/SectorManager.cpp:149-183 | the search fails iff no tile at most 20 away on each axis is free |
| Sectors.WrapStaysOut | SIMPLEST-MMORPG/Server/Game/SectorManager.cpp:162-163 | 16-bit wrap-around of a searched coordinate never turns an outside tile into an inside one |
| Sectors.SectorManager.AddObject | SIMPLEST-MMORPG/Server/Game/SectorManager.cpp:31-44 | places the id on the first free tile or reports that there is none; agreements kept |
| Sectors.SectorManager.RemoveObject | SIMPLEST-MMORPG/Server/Game/SectorManager.cpp:46-55 | removes the id from tile and sector; agreements kept |
| Sectors.SectorManager.GetOccupant | SIMPLEST-MMORPG/Server/Game/SectorManager.cpp:114-123 | the id that stands on the tile, or none iff nobody does |
| Sectors.SectorManager.GetNearbyObjects | SIMPLEST-MMORPG/Server/Game/SectorManager.cpp:80-112 | each live object in the touching sectors exactly once, and nothing else |
| Sectors.OccupancyIsExclusive | SIMPLEST-MMORPG/Server/Game/SectorManager.cpp:125-135 | objects whose tiles hold their ids never share a tile |
| TileProtocol.NextKeepsInv | SIMPLEST-MMORPG/Server/Game/SectorManager.cpp:31-78 | every atomic step of every id keeps tile ownership, sector listing and the tile count |
| TileProtocol.RunKeepsInv | SIMPLEST-MMORPG/Server/Game/SectorManager.cpp:125-205 | the same in every state of every interleaving from the empty map |
| TileProtocol.NoOverwrite | SIMPLEST-MMORPG/Server/Game/SectorManager.cpp:125-147 | no step changes a tile that another id holds |
| TileProtocol.ClaimIff | SIMPLEST-MMORPG/Server/Game/SectorManager.cpp:125-135 | at any moment of any interleaving a mover can claim a tile iff it is walkable and no id holds it |
| TileProtocol.ReleaseAlwaysSucceeds | SIMPLEST-MMORPG/Server/Game/SectorManager.cpp:192-199 | the release in a move never loses its compare-and-swap |
| TileProtocol.NeverStuck | SIMPLEST-MMORPG/Server/Game/SectorManager.cpp:185-205 | an operation in progress can always take its next step |
| TileProtocol.MoveInARow | SIMPLEST-MMORPG/Server/Game/SectorManager.cpp:185-205 | the three steps of a move in a row change exactly the old and the new tile and the mover's position |
| TileProtocol.TilesOfId | SIMPLEST-MMORPG/Server/Game/SectorManager.cpp:185-205 | an id holds one tile, two between claim and release, none while leaving; exactly those tiles carry it |
| TileProtocol.NextConserved | SIMPLEST-MMORPG/Server/Game/SectorManager.cpp:125-205 | occupied tiles = ids that hold a tile + movers between claim and release |
| TileProtocol.QuiescentAgrees | SIMPLEST-MMORPG/Server/Game/SectorManager.cpp:31-78 | with no operation in progress the state is what the sequential class maintains |
| World.ExactIsView | SIMPLEST-MMORPG/Server/Game/ViewProcessor.cpp:10-15 | a table is exact iff it is the map a brute-force scan gives |
| World.ViewInCoordinates | SIMPLEST-MMORPG/Server/Game/ViewProcessor.cpp:10-15 | the brute-force view holds exactly the other objects at most 10 tiles (the radius) away on each axis |
| World.MoveKeepsView | SIMPLEST-MMORPG/Server/Game/ViewProcessor.cpp:133-334 | the view diff keeps every client's table complete, and exact if it was |
| World.EnterKeepsView | SIMPLEST-MMORPG/Server/Game/ViewProcessor.cpp:76-131 | an entrance keeps every other client's table complete, and exact if it was |
| World.VanishKeepsView | SIMPLEST-MMORPG/Server/Game/ViewProcessor.cpp:336-375 | a disappearance does the same |
| World.PerishKeepsReplicated | SIMPLEST-MMORPG/Server/Game/GameWorld.cpp:124-175 | a player's death keeps the other tables exact and its own complete |
| World.DeathKeepsExactIff | SIMPLEST-MMORPG/Server/Game/GameWorld.cpp:124-169 | the dead player's own table is exact afterwards iff everything it saw is in view from the tile of rebirth |
| World.DeathLeavesStaleEntry | SIMPLEST-MMORPG/Server/Game/GameWorld.cpp:124-169 | a reachable state in which a dead player's client shows something else than its view |
| World.StepKeepsExactIff | SIMPLEST-MMORPG/Server/Game/GameWorld.cpp:124-169 | any single step keeps a client's table exact iff it is not a death of its player that leaves something out of view |
| World.ExactThroughoutIff | SIMPLEST-MMORPG/Server/Game/GameWorld.cpp:124-169 | over a whole run with any number of deaths a client's table equals the view throughout iff no death of its player leaves something out of view |
| World.StepKeepsReplicated | SIMPLEST-MMORPG/Server/Game/GameWorld.cpp:422-556 | every step keeps all tables complete, and exact for players that have not died |
| World.StepKeepsPlaced | SIMPLEST-MMORPG/Server/Game/GameWorld.cpp:824-876 | every step keeps everybody alone on a walkable tile and monsters within 20 of their spawn |
| World.SlayKeepsScheduled | SIMPLEST-MMORPG/Server/Game/GameWorld.cpp:296-300 | a monster's death leaves one respawn timer and at most one AI timer that precedes it |
| World.FiredKeepsScheduled | SIMPLEST-MMORPG/Server/Game/GameWorld.cpp:1052-1070 | popping an AI timer keeps the timer invariant on all three branches |
| World.DoneKeepsScheduled | SIMPLEST-MMORPG/Server/Game/GameWorld.cpp:1071-1074 | registering the next AI timer keeps it |
| World.RespawnFindsNoAiTimer | SIMPLEST-MMORPG/Server/Game/GameWorld.cpp:843-873 | when a respawn timer is popped, its monster is dead and has no AI timer left |
| World.RespawnKeepsScheduled | SIMPLEST-MMORPG/Server/Game/GameWorld.cpp:843-873 | a respawn, active or not, keeps the timer invariant |
| World.RetryKeepsScheduled | SIMPLEST-MMORPG/Server/Game/GameWorld.cpp:854-859 | so does a respawn that finds no tile and tries again |
| World.WakeKeepsScheduled | SIMPLEST-MMORPG/Server/Game/GameWorld.cpp:188-220 | activating the monsters in view adds exactly one AI timer to each sleeping one |
| World.StepKeepsScheduled | SIMPLEST-MMORPG/Server/Timer/TimerManager.cpp:33-75 | every step keeps the timer invariant of every monster |
| World.StepKeepsAwake | SIMPLEST-MMORPG/Server/Game/GameWorld.cpp:188-249 | every step keeps every monster that some player has in view switched on |
| World.RunKeepsInv | SIMPLEST-MMORPG/Server/Game/GameWorld.cpp:422-556 | all invariants hold along every run |
| World.ClientsShowTheirView | SIMPLEST-MMORPG/Client/GameState.cpp:39-60 | in every reachable state a client shows exactly its view, every other object at most the radius away on each axis with its tile, or at least that if its player has died |
| World.TimerProtocol | SIMPLEST-MMORPG/Server/Game/GameWorld.cpp:1052-1078 | in every reachable state: a live monster has no respawn timer, and an AI timer iff it is active and that timer is not being handled; a dead one has one respawn timer and at most one AI timer, which precedes it |
| World.ObservedMonstersAct | SIMPLEST-MMORPG/Server/Game/GameWorld.cpp:188-249 | in every reachable state a live monster in some player's view is active, and its AI timer is pending or being handled |
| World.EverybodyIsPlaced | SIMPLEST-MMORPG/Server/Game/Monster.h:72-76 | in every reachable state everybody stands alone on an unblocked tile of the map, and monsters at most 20 tiles from their spawn on each axis |
| Timers.TimerManager.Next | SIMPLEST-MMORPG/Server/Timer/TimerManager.cpp:45-75 | hands out and removes a due entry no later than any other; otherwise nothing is due |
| ViewProcessor.VisibleFrom | SIMPLEST-MMORPG/Server/Game/ViewProcessor.cpp:150-241 | the set read off the sector index holds exactly the other live objects at most the view radius away on each axis, players only if the viewer is a monster |
| ViewProcessor.ProcessMoveView | SIMPLEST-MMORPG/Server/Game/ViewProcessor.cpp:133-334 | the packets the three loops send make every client's table what the step relation says |
| ViewProcessor.SendAppeared | SIMPLEST-MMORPG/Server/Game/ViewProcessor.cpp:243-283 | first loop: everything that came into view and the mover learn about each other |
| ViewProcessor.SendVanished | SIMPLEST-MMORPG/Server/Game/ViewProcessor.cpp:285-313 | second loop: everything that went out of view and the mover forget each other |
| ViewProcessor.SendMoved | SIMPLEST-MMORPG/Server/Game/ViewProcessor.cpp:315-333 | third loop: only players that still see the mover get its new position |
| ViewProcessor.SendFullView | SIMPLEST-MMORPG/Server/Game/ViewProcessor.cpp:76-131 | the newcomer's client and the clients around it show each other |
| ViewProcessor.TellObservers | SIMPLEST-MMORPG/Server/Game/GameWorld.cpp:267-294 | one packet to exactly the players that have the object in view |
| ViewProcessor.SendDisappear | SIMPLEST-MMORPG/Server/Game/ViewProcessor.cpp:336-375 | the clients around a player forget it, and only those |
| ViewProcessor.AppearedStep | SIMPLEST-MMORPG/Server/Game/ViewProcessor.cpp:244-283 | the two announcements for one more object, in terms of all tables |
| ViewProcessor.VanishedStep | SIMPLEST-MMORPG/Server/Game/ViewProcessor.cpp:286-313 | the two removals for one more object, in terms of all tables |
| Observers.HasObserverNearby | SIMPLEST-MMORPG/Server/Game/GameWorld.cpp:222-249 | true iff some player stands at most the view radius away from the monster on each axis |
| Observers.FindNearestPlayerInRange | SIMPLEST-MMORPG/Server/Game/GameWorld.cpp:918-961 | a live player no farther, in squared coordinate differences, than any other in range in the nine sectors around, or none iff there is none; for ranges up to one sector, among all players |
| Observers.DistSqFits | SIMPLEST-MMORPG/Server/Game/GameWorld.cpp:923-953 | no squared distance on the map reaches the initial INT_MAX |
| Observers.ActivateNearbyMonsters | SIMPLEST-MMORPG/Server/Game/GameWorld.cpp:188-220 | exactly the sleeping live monsters at most the view radius away on each axis are switched on, each with one timer 1000 ms ahead |
| Runs.RoomAfterOne | SIMPLEST-MMORPG/Server/Game/GameWorld.cpp:137-145 | one rebirth uses up at most one of the free tiles around (0, 0) |
| GameWorlds.SpawnMonsters | SIMPLEST-MMORPG/Server/Game/GameWorld.cpp:778-806 | entry by entry: skipped iff no tile is free within the radius, else placed on the first free one, at full health, asleep, without a target, with the entry's values and the next number from 1000000 |
| GameWorlds.SpawnsAreDetermined | SIMPLEST-MMORPG/Server/Game/GameWorld.cpp:778-806 | the spawn table determines who is placed and where |
| GameWorlds.GameWorld.constructor | SIMPLEST-MMORPG/Server/Game/GameWorld.cpp:778-806 | start-up places the spawn table and gives the initial state of the step relation |
| GameWorlds.GameWorld.OnLoginDBLoaded | SIMPLEST-MMORPG/Server/Game/GameWorld.cpp:665-709 | succeeds iff some tile at most 20 from the stored position on each axis is free, and then is the login step |
| GameWorlds.GameWorld.ProcessMove | SIMPLEST-MMORPG/Server/Game/GameWorld.cpp:422-476 | is the walk step (direction 0 lowers y by one, 1 raises it, 2 lowers x, 3 raises x) iff the player is known and ready and the tile is free; otherwise nothing happens |
| GameWorlds.GameWorld.ProcessTeleport | SIMPLEST-MMORPG/Server/Game/GameWorld.cpp:478-520 | is the teleport step to the first free tile near the target, at most 20 tiles from it on each axis, or near (0, 0) iff there is none |
| GameWorlds.GameWorld.ProcessDisconnect | SIMPLEST-MMORPG/Server/Game/GameWorld.cpp:522-542 | is the leave step; the record and the session are gone |
| GameWorlds.GameWorld.OnPlayerDied | SIMPLEST-MMORPG/Server/Game/GameWorld.cpp:124-175 | is the death step: full health, the level kept, the experience halved as 32-bit floating point does it, on the first free tile near (0, 0); nobody else's record changes but for monsters woken |
| GameWorlds.GameWorld.ProcessAttack | SIMPLEST-MMORPG/Server/Game/GameWorld.cpp:558-615 | exactly the monsters on the four tiles around take ten points per level, those it kills die, and the player gains the sum of their rewards in one go; nobody else changes |
| Rewards.OneMoreReward | SIMPLEST-MMORPG/Server/Game/Monster.cpp:45-56 | the sum of rewards does not depend on the order of the kills |
| Rewards.RewardOne | SIMPLEST-MMORPG/Server/Game/GameWorld.cpp:251-254 | one more kill is one more gain, and gains add up to the gain of the sum |
| Rewards.RewardFits | SIMPLEST-MMORPG/Server/Game/Player.cpp:13-16 | if the sum of all rewards fits 32 bits, every addition on the way does |
| Rewards.KilledNext | SIMPLEST-MMORPG/Server/Game/GameWorld.cpp:574-610 | the next tile adds its monster to the killed ones iff the blow takes its last point |
| Turns.OneMoreStruck | SIMPLEST-MMORPG/Server/Game/GameWorld.cpp:574-610 | striking the occupant of the next tile extends the set of struck monsters by exactly that one |
| Turns.StruckOnAllSides | SIMPLEST-MMORPG/Server/Game/GameWorld.cpp:558-615 | the struck monsters are exactly those one tile to the left, right, above or below |
| GameWorlds.GameWorld.OnMonsterDied | SIMPLEST-MMORPG/Server/Game/GameWorld.cpp:251-300 | the killer gains level squared times 4 for a roaming or aggressive monster, times 2 for any other, and the rest is the monster's death step with a respawn timer 30000 ms ahead |
| GameWorlds.GameWorld.MoveMonster | SIMPLEST-MMORPG/Server/Game/GameWorld.cpp:824-841 | is the monster's move iff the tile is free; otherwise nothing happens |
| GameWorlds.GameWorld.RespawnMonster | SIMPLEST-MMORPG/Server/Game/GameWorld.cpp:843-876 | is the respawn step, with full health, no target, active iff observed, at most 20 tiles from its spawn on each axis and everything else of its record kept, or the retry 30000 ms later; no other record changes |
| GameWorlds.GameWorld.MonsterAttackPlayer | SIMPLEST-MMORPG/Server/Game/GameWorld.cpp:963-1001 | a dead player is left alone, a survivor loses five points per level, a killed one reappears; no monster's record changes but for waking |
| GameWorlds.GameWorld.AttackAll | SIMPLEST-MMORPG/Server/Game/Monster.cpp:181-191 | every listed player is bitten exactly once, nobody else |
| GameWorlds.GameWorld.AdjacentVictims | SIMPLEST-MMORPG/Server/Game/Monster.cpp:159-179 | the list holds exactly the live players next to the monster, each once |
| Turns.NextVictim | SIMPLEST-MMORPG/Server/Game/Monster.cpp:163-179 | the occupant of the next tile is the only possible new victim |
| GameWorlds.GameWorld.ChooseGoal | SIMPLEST-MMORPG/Server/Game/Monster.cpp:195-221 | the first in the order up, down, left, right of the nearest open tiles around the prey, or the prey's own tile iff none is open |
| Turns.NextSideIsBest | SIMPLEST-MMORPG/Server/Game/Monster.cpp:199-221 | the comparison with the next tile keeps the choice the nearest so far |
| GameWorlds.GameWorld.Approach | SIMPLEST-MMORPG/Server/Game/Monster.cpp:195-244 | one step onto the first tile of the path found iff it is in roaming range and free; a path is found if the budget suffices; no other record changes |
| GameWorlds.GameWorld.TryStep | SIMPLEST-MMORPG/Server/Game/Monster.cpp:121-131 | the monster moves iff the tile is in roaming range and free, and nothing else about anybody changes |
| Turns.FirstOfRoute | SIMPLEST-MMORPG/Server/Game/Monster.cpp:223-238 | a route's first step is to a walkable neighbour of its start |
| GameWorlds.GameWorld.RoamingMove | SIMPLEST-MMORPG/Server/Game/Monster.cpp:108-132 | one step in the drawn direction (up, down, left, right in that order) iff it stays in roaming range and the tile is free; no other record changes |
| GameWorlds.GameWorld.AgroPursue | SIMPLEST-MMORPG/Server/Game/Monster.cpp:134-258 | drops a target that is dead, gone or more than the aggression radius away on an axis; bites all neighbours, tries one step closer, picks the nearest player, or roams: each case with the records afterwards |
| GameWorlds.GameWorld.AITick | SIMPLEST-MMORPG/Server/Game/Monster.cpp:58-81 | the turn its movement and behaviour prescribe, as a run of monster moves and player deaths |
| GameWorlds.GameWorld.HandleAi | SIMPLEST-MMORPG/Server/Game/GameWorld.cpp:1052-1075 | a dead monster ignores the timer, an unobserved one falls asleep, and an observed one has one turn and registers the next |
| GameWorlds.GameWorld.HandleTimerEvent | SIMPLEST-MMORPG/Server/Game/GameWorld.cpp:1003-1086 | every AI and respawn event is a run of the step relation |
| GameWorlds.GameWorld.RunTimer | SIMPLEST-MMORPG/Server/Timer/TimerManager.cpp:45-75 | one pass of the timer thread: iff an event is due, an earliest one is handled, with the outcome its kind prescribes |
| GameWorlds.Replay | SIMPLEST-MMORPG/Client/GameState.cpp:39-60 | a client that received everything sent to it shows the server's view, exactly unless its player died, and knows its own position |
| Clients.GameState.OnPacket | SIMPLEST-MMORPG/Client/NetworkClient.cpp:193-229 | each packet changes the table, or the own position, as the step relation assumes |
| Clients.GameState.OnPackets | SIMPLEST-MMORPG/Client/NetworkClient.cpp:142-157 | the table and the own position after a whole stream are the folds of its packets |
| Regen.StepKeepsOneTokenIff | SIMPLEST-MMORPG/Server/Game/Player.cpp:61-70 | a single access keeps the flag truthful iff it is not a death's store into a set flag |
| Regen.OneTokenIff | SIMPLEST-MMORPG/Server/Game/GameWorld.cpp:135-136 | over every interleaving the flag is truthful throughout iff no death clears a set flag |
| Regen.StepKeepsFlagOwner | SIMPLEST-MMORPG/Server/Game/Player.cpp:61-70 | every access keeps: the flag is set only if some party has the duty |
| Regen.StepKeepsWakeupIff | SIMPLEST-MMORPG/Server/Game/GameWorld.cpp:1007-1050 | a single access keeps the wake-up iff it is not the store of a timer that gives up on a player who needs it again and has nobody else |
| Regen.NoWakeupIsLostIff | SIMPLEST-MMORPG/Server/Game/GameWorld.cpp:1007-1050 | over every interleaving, deaths included, no wake-up is ever lost iff no timer gives up that way |
| Regen.NoWakeupIsLost | SIMPLEST-MMORPG/Server/Game/GameWorld.cpp:177-186 | in such runs a hit player below full health ends up with a timer when all threads are done |
| Regen.NeverFiringAtDeadIsEnough | SIMPLEST-MMORPG/Server/Game/GameWorld.cpp:1015-1019 | it is enough that no firing timer finds the player dead |
| Regen.OneLife | SIMPLEST-MMORPG/Server/Game/GameWorld.cpp:990-994 | within one life both hold without condition, and there is exactly one timer |
| Regen.UndisturbedFiring | SIMPLEST-MMORPG/Server/Game/GameWorld.cpp:1007-1050 | an undisturbed firing at a living player heals by the amount up to the maximum; at the maximum the flag is clear and no timer is left, below it the flag is set and exactly one is pending |
| Regen.UndisturbedHit | SIMPLEST-MMORPG/Server/Game/GameWorld.cpp:963-1001 | an undisturbed hit that leaves health leaves the flag set, with a new timer iff it was clear; a deadly one brings full health and a clear flag |
| Regen.RegenerationEnds | SIMPLEST-MMORPG/Server/Game/GameWorld.cpp:1007-1050 | after the last hit, firings that heal at least one point are bounded by the missing health, and where they end the player is at full health with the flag clear and no timer |
| Regen.DeathForksTheTimer | SIMPLEST-MMORPG/Server/Game/GameWorld.cpp:135-136 | a concrete run after which two timers are pending for one player |
| Regen.DeathLosesTheWakeup | SIMPLEST-MMORPG/Server/Game/GameWorld.cpp:1015-1019 | a concrete run after which a hit player has no timer at all |
| RingBuffers.RingBuffer.GetUsedSize | SIMPLEST-MMORPG/Server/Network/RingBuffer.cpp:10-13 | the number of queued bytes |
| RingBuffers.RingBuffer.GetFreeSize | SIMPLEST-MMORPG/Server/Network/RingBuffer.cpp:15-19 | used and free add up to 8191 |
| RingBuffers.RingBuffer.GetContiguousWriteSize | SIMPLEST-MMORPG/Server/Network/RingBuffer.cpp:26-44 | the largest window: the free space or the distance to the array's end, whichever is less; zero iff the buffer is full |
| RingBuffers.AdvanceHead | SIMPLEST-MMORPG/Server/Network/RingBuffer.cpp:46-50 | moving the head over the window appends exactly those cells, through the wrap |
| RingBuffers.AdvanceTail | SIMPLEST-MMORPG/Server/Network/RingBuffer.cpp:74-84 | moving the tail drops exactly that many bytes from the front, through the wrap |
| RingBuffers.RingBuffer.WindowIsFree | SIMPLEST-MMORPG/Server/Network/RingBuffer.cpp:26-44 | no cell of the write window holds a queued byte |
| RingBuffers.CellAt | SIMPLEST-MMORPG/Server/Network/RingBuffer.cpp:61-69 | the k-th queued byte is in the cell k steps round from the tail |
| RingBuffers.RingBuffer.Fill | SIMPLEST-MMORPG/Server/Network/RingBuffer.cpp:21-24 | bytes arriving in the window touch no queued byte |
| RingBuffers.RingBuffer.OnWrite | SIMPLEST-MMORPG/Server/Network/RingBuffer.cpp:46-50 | the written bytes join the end of the queue |
| RingBuffers.RingBuffer.Peek | SIMPLEST-MMORPG/Server/Network/RingBuffer.cpp:52-72 | copies the first bytes of the queue, or fails and copies nothing iff there are too few |
| RingBuffers.RingBuffer.Pop | SIMPLEST-MMORPG/Server/Network/RingBuffer.cpp:74-84 | drops the first bytes, or fails and drops nothing iff there are too few |
| Framing.PacketsConserveBytes | SIMPLEST-MMORPG/Server/Network/Session.cpp:88-107 | packets plus rest are the stream, byte for byte; the rest is shorter than 512 and incomplete; fewer than four bytes hold no packet |
| Framing.PacketsOfAppend | SIMPLEST-MMORPG/Server/Network/Session.cpp:88-107 | cutting now and again later gives the same as cutting once |
| Framing.ChunkingIsIrrelevant | SIMPLEST-MMORPG/Server/Network/Session.cpp:83-111 | any split of a stream into receives hands over the same packets |
| Framing.BothFramers | SIMPLEST-MMORPG/StressTest/NetworkModule.cpp:213-241 | the server's session and the stress tool's client, fed one stream in receives of their own sizes, hand over the same packets, which are the ones sent; the window is never empty and the client stays connected |
| Framing.Session.ReceiveStream | SIMPLEST-MMORPG/Server/Network/Session.cpp:83-111 | a stream in receives that fit the posted windows, however split, is handed over as if it came at once |
| Framing.BotClient.OnRecvStream | SIMPLEST-MMORPG/StressTest/NetworkModule.cpp:213-241 | the same for receives of at most 1024 bytes |
| Framing.LoopEndsIff | SIMPLEST-MMORPG/Server/Network/Session.cpp:88-107 | for any bytes at all, the extraction loop ends iff it never reads a size of 0 |
| Framing.FramersAgree | SIMPLEST-MMORPG/Server/Network/Session.cpp:83-111 | a receiver fed one stream in two different splits ends in the same state |
| Framing.PacketsRoundTrip | SIMPLEST-MMORPG/Server/Network/Session.cpp:88-107 | a concatenation of packets of length 4 to 512, each with that length in its first two bytes, low byte first, is cut into exactly those packets |
| Framing.Session.TakePackets | SIMPLEST-MMORPG/Server/Network/Session.cpp:88-107 | the loop terminates and hands over every complete packet in order |
| Framing.Session.OnRecvComplete | SIMPLEST-MMORPG/Server/Network/Session.cpp:83-111 | one completed receive is one step of the framer, and the next window is not empty |
| Framing.Session.PostRecv | SIMPLEST-MMORPG/Server/Network/Session.cpp:52-58 | the window posted lies in the array, fits the free space, holds no queued byte, and is empty iff the buffer is full |
| Framing.BotClient.TakePackets | SIMPLEST-MMORPG/StressTest/NetworkModule.cpp:229-241 | the linear loop hands over the same packets and keeps the same rest |
| Framing.BotClient.OnRecv | SIMPLEST-MMORPG/StressTest/NetworkModule.cpp:213-241 | one receive of at most 1024 bytes is the same step; from an incomplete packet it never overflows |
| Leveling.Player.GainExp | SIMPLEST-MMORPG/Server/Game/Player.cpp:13-32 | the loop reaches the greatest affordable level up to 20, the remainder as experience, 0 at the cap |
| Leveling.StoppedAtGreatest | SIMPLEST-MMORPG/Server/Game/Player.cpp:19-25 | where the loop stops, no higher level is affordable |
| Leveling.GainedIsUnique | SIMPLEST-MMORPG/Server/Game/Player.cpp:13-32 | the closed form determines the outcome |
| Leveling.GainsAddUp | SIMPLEST-MMORPG/Server/Game/Player.cpp:13-32 | gaining a and then b is gaining a + b |
| Leveling.LevelUpFitsInt32 | SIMPLEST-MMORPG/Server/Game/Player.cpp:34-38 | the price of every level up to the cap fits a signed 32-bit integer |
| Leveling.Prices | SIMPLEST-MMORPG/Server/Game/Player.cpp:34-38 | level 1 costs 100 and each level twice the one before; level 1 needs no experience in all |
| Leveling.DeathTakesHalf | SIMPLEST-MMORPG/Server/Game/Player.cpp:47-53 | what a death leaves is exactly half, rounded down, up to 2^24 points, and beyond that half to within one part in 2^24 |

## Left out

- Pathfinder.FindPath: the budget's success and failure bounds leave a gap between the two ellipses where something blocks the rectangle between start and goal; there the outcome follows from how ties among equal f are broken, by larger g first and then by the heap's layout, and only the two bounds are stated.
- GameWorlds.GameWorld.MonsterAttackPlayer: does not start the regeneration timer; `Regen` has that handshake on its own.
- GameWorlds.GameWorld.HandleTimerEvent: the regeneration event is in `Regen`, the database save event is not part of this model; neither touches the monsters' timers.
- GameWorlds.GameWorld.OnPlayerDied: the branch that logs a failure when everything around (0, 0) is taken is excluded by the precondition.
- GameWorlds.GameWorld.MoveMonster: takes an adjacent tile within roaming range, as both callers have checked.
- Framing.Session.OnRecvComplete: streams with a size field of 0, on which the loop does not end (`Framing.LoopEndsIff`), and of more than 512 are excluded.
- Regen: amounts of regeneration and damage are arbitrary; the experience of a level-up on another thread is not modelled.
- Real sockets, completion ports, accept and connect, the send queue, and session ids: a session is the sequence of packets sent to it.
- Database, login-claim set, chat, combat and effect packets, Lua spawn script, map loading: input and output only.
- Records hold what the properties need: names and object types are left out, and monsters and players are values in maps and sequences, not shared objects.
- Cooldowns and random choices are parameters of the handlers.
- C++ memory ordering and object lifetime: accesses are sequentially consistent and pointers valid.
- Handlers that race with each other on views and timers: only tiles, sector sets and regeneration are modelled below the level of whole handlers.
- Client rendering, movement prediction and the stress tool's ramp: no server state depends on them.
