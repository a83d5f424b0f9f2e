/** The server's game world. Every handler updates the records, the tiles, the sector sets, the
    timer queue and the packet streams in place, and is proved to be a run of the step relation. */
module GameWorlds {
  import opened Grid
  import opened Sectors
  import opened World
  import opened Creatures
  import opened Timers
  import opened ViewProcessor
  import opened Observers
  import opened Pathfinder
  import opened Runs
  import opened Turns
  import opened Rewards
  import opened Leveling
  import opened Clients

  /** One entry of the monster table. */
  datatype SpawnData = SpawnData(pos: Pos, level: nat, maxHp: int, behavior: Behavior, movement: Movement)

  const MAX_MONSTERS: nat := 200_000

  /** Monster number `i` stands on its spawn tile, and nobody else is there yet. */
  ghost predicate Spawned(t: Terrain, monsters: seq<Monster>, at: map<ObjectId, Pos>) {
    && Standing(Population(map[], monsters), at)
    && forall i :: 0 <= i < |monsters| ==>
      && t.Walkable(monsters[i].pos) && monsters[i].hp > 0 && monsters[i].maxHp > 0
      && !monsters[i].active && monsters[i].spawn == monsters[i].pos
  }

  lemma SpawnOne(t: Terrain, monsters: seq<Monster>, at: map<ObjectId, Pos>, m: Monster)
    requires Spawned(t, monsters, at) && t.Walkable(m.pos) && m.hp > 0 && m.maxHp > 0 && !m.active && m.spawn == m.pos
    ensures Spawned(t, monsters + [m], at[MONSTER_ID_OFFSET + |monsters| := m.pos])
  {
    var before, after := Population(map[], monsters), Population(map[], monsters + [m]);
    var at' := at[MONSTER_ID_OFFSET + |monsters| := m.pos];
    forall id | id in at' ensures after.Has(id) && after.PosOf(id) == at'[id] {
      assert id in at || id == MONSTER_ID_OFFSET + |monsters|;
    }
    forall id | after.IsMonster(id) ensures after.GetMonster(id).hp > 0 && id in at' {
      assert before.IsMonster(id) || id == MONSTER_ID_OFFSET + |monsters|;
    }
  }

  /** `m` is a monster of the table, on the tile it was given: at full health, asleep and without a target. */
  ghost predicate IsNewMonster(d: SpawnData, p: Pos, m: Monster) {
    && m.spawn == p && m.pos == p && m.hp == d.maxHp && m.maxHp == d.maxHp && !m.active && m.target == NoTarget
    && m.level == d.level && m.behavior == d.behavior && m.movement == d.movement
  }

  /** One entry of the table: it gets the next number and the first free tile around its position, and
      is skipped exactly if there is none. */
  ghost predicate SpawnsNext(t: Terrain, d: SpawnData, before: seq<Monster>, at: map<ObjectId, Pos>,
                             after: seq<Monster>, at': map<ObjectId, Pos>)
  {
    if Crowded(t, at, d.pos) then
      after == before && at' == at
    else
      exists p, m :: FirstFree(t, at, d.pos, CLAIM_RADIUS, p) && InSquare(d.pos, p, 20)
        && IsNewMonster(d, p, m) && after == before + [m] && at' == at[1_000_000 + |before| := p]
  }

  function Init(spawns: seq<SpawnData>): seq<SpawnData>
    requires spawns != []
  {
    spawns[..|spawns| - 1]
  }

  function Final(spawns: seq<SpawnData>): SpawnData
    requires spawns != []
  {
    spawns[|spawns| - 1]
  }

  /** The whole table, entry by entry. */
  ghost predicate SpawnedFrom(t: Terrain, spawns: seq<SpawnData>, monsters: seq<Monster>, at: map<ObjectId, Pos>)
    decreases |spawns|
  {
    if spawns == [] then monsters == [] && at == map[]
    else
      exists before, at0 ::
        SpawnedFrom(t, Init(spawns), before, at0) && SpawnsNext(t, Final(spawns), before, at0, monsters, at)
  }

  lemma NextIsDetermined(t: Terrain, d: SpawnData, before: seq<Monster>, at0: map<ObjectId, Pos>,
                         a: seq<Monster>, at: map<ObjectId, Pos>, b: seq<Monster>, bt: map<ObjectId, Pos>)
    requires SpawnsNext(t, d, before, at0, a, at) && SpawnsNext(t, d, before, at0, b, bt)
    ensures a == b && at == bt
  {
    if !Crowded(t, at0, d.pos) {
      var p, m :| FirstFree(t, at0, d.pos, CLAIM_RADIUS, p) && IsNewMonster(d, p, m)
        && a == before + [m] && at == at0[1_000_000 + |before| := p];
      var q, n :| FirstFree(t, at0, d.pos, CLAIM_RADIUS, q) && IsNewMonster(d, q, n)
        && b == before + [n] && bt == at0[1_000_000 + |before| := q];
      FirstFreeIsNearestAndUnique(t, at0, d.pos, CLAIM_RADIUS, p, q);
    }
  }

  /** The table determines who is placed, and where. */
  lemma {:induction false} SpawnsAreDetermined(t: Terrain, spawns: seq<SpawnData>, a: seq<Monster>, at: map<ObjectId, Pos>,
                                               b: seq<Monster>, bt: map<ObjectId, Pos>)
    requires SpawnedFrom(t, spawns, a, at) && SpawnedFrom(t, spawns, b, bt)
    ensures a == b && at == bt
    decreases |spawns|
  {
    hide SpawnsNext;
    if spawns != [] {
      var last := Final(spawns);
      var a0, at0 :| SpawnedFrom(t, Init(spawns), a0, at0) && SpawnsNext(t, last, a0, at0, a, at);
      var b0, bt0 :| SpawnedFrom(t, Init(spawns), b0, bt0) && SpawnsNext(t, last, b0, bt0, b, bt);
      SpawnsAreDetermined(t, Init(spawns), a0, at0, b0, bt0);
      NextIsDetermined(t, last, a0, at0, a, at, b, bt);
    }
  }

  /** Places the monsters one after the other; an entry that finds no free tile is skipped. */
  method SpawnMonsters(sm: SectorManager, spawns: seq<SpawnData>) returns (monsters: seq<Monster>)
    requires sm.Valid() && sm.at == map[] && |spawns| <= MAX_MONSTERS
    requires forall d :: d in spawns ==> IsInt16(d.pos.x) && IsInt16(d.pos.y) && d.maxHp > 0
    modifies sm, sm.tiles, sm.sectors
    ensures sm.Valid() && Spawned(sm.t, monsters, sm.at) && |monsters| <= MAX_MONSTERS
    ensures SpawnedFrom(sm.t, spawns, monsters, sm.at)
  {
    hide SectorManager.Valid, FirstFree, NoneFree, Crowded;
    monsters := [];
    for i := 0 to |spawns|
      invariant |monsters| <= i && sm.Valid() && Spawned(sm.t, monsters, sm.at)
      invariant SpawnedFrom(sm.t, spawns[..i], monsters, sm.at)
    {
      assert Init(spawns[..i + 1]) == spawns[..i] && Final(spawns[..i + 1]) == spawns[i] && spawns[i] in spawns;
      monsters := SpawnMonster(sm, spawns[i], monsters);
    }
    assert spawns[..|spawns|] == spawns;
  }

  lemma Entered(t: Terrain, d: SpawnData, monsters: seq<Monster>, at: map<ObjectId, Pos>, p: Pos, m: Monster)
    requires FirstFree(t, at, d.pos, CLAIM_RADIUS, p) && IsNewMonster(d, p, m)
    ensures SpawnsNext(t, d, monsters, at, monsters + [m], at[1_000_000 + |monsters| := p])
  {
    CrowdedIff(t, at, d.pos);
    FirstFreeIsNear(t, at, d.pos, p);
  }

  lemma Skipped(t: Terrain, d: SpawnData, monsters: seq<Monster>, at: map<ObjectId, Pos>)
    requires NoneFree(t, at, d.pos, CLAIM_RADIUS)
    ensures SpawnsNext(t, d, monsters, at, monsters, at)
  {
    CrowdedIff(t, at, d.pos);
  }

  method SpawnMonster(sm: SectorManager, d: SpawnData, monsters: seq<Monster>) returns (monsters': seq<Monster>)
    requires sm.Valid() && Spawned(sm.t, monsters, sm.at) && |monsters| < MAX_MONSTERS
    requires IsInt16(d.pos.x) && IsInt16(d.pos.y) && d.maxHp > 0
    modifies sm, sm.tiles, sm.sectors
    ensures sm.Valid() && Spawned(sm.t, monsters', sm.at) && |monsters'| <= |monsters| + 1
    ensures SpawnsNext(sm.t, d, monsters, old(sm.at), monsters', sm.at)
  {
    hide SectorManager.Valid, Occupancy, Indexed, SpawnsNext, NoneFree;
    ghost var at := sm.at;
    var id := MONSTER_ID_OFFSET + |monsters|;
    assert !Population(map[], monsters).IsMonster(id);
    var ok, p := sm.AddObject(id, d.pos);
    if ok {
      var m := Monster(p, d.level, d.maxHp, d.behavior, d.movement, p, d.maxHp, false, NoTarget);
      SpawnOne(sm.t, monsters, at, m);
      Entered(sm.t, d, monsters, at, p, m);
      monsters' := monsters + [m];
    } else {
      Skipped(sm.t, d, monsters, at);
      monsters' := monsters;
    }
  }

  lemma SpawnedWell(t: Terrain, tiles: seq<ObjectId>, monsters: seq<Monster>, at: map<ObjectId, Pos>)
    requires |tiles| == t.width * t.height && Occupancy(t, tiles, at) && Spawned(t, monsters, at)
    ensures WellSpawned(Realm(t, at))
    ensures var pop := Population(map[], monsters);
      && (forall m :: m in at <==> pop.IsMonster(m))
      && (forall m :: pop.IsMonster(m) ==> pop.GetMonster(m).spawn == at[m] && pop.GetMonster(m).maxHp > 0)
      && Flagged(pop, {})
  {
    OccupancyIsExclusive(t, tiles, at);
    var pop := Population(map[], monsters);
    forall m | pop.IsMonster(m)
      ensures m in at && pop.GetMonster(m).spawn == at[m] && pop.GetMonster(m).maxHp > 0 && !pop.GetMonster(m).active
    {
      assert pop.GetMonster(m) == monsters[m - MONSTER_ID_OFFSET];
    }
  }

  class GameWorld {
    const sm: SectorManager
    const net: Sessions
    const tm: TimerManager
    ghost const realm: Realm
    var pop: Population
    var clock: int
    ghost var state: State

    /** The fields hold exactly what `s` says; `s.firing` and `s.fallen` are history. */
    ghost predicate Holds(s: State)
      reads this`pop, this`clock, sm, sm.tiles, sm.sectors, net, tm
    {
      && sm.Valid() && sm.t == realm.t && s.at == sm.at
      && Standing(pop, sm.at)
      && net.sent.Keys == pop.players.Keys && s.seen == net.Shown()
      && s.timers == tm.queue && s.clock == clock
      && Flagged(pop, s.active)
      && Homes()
    }

    /** The realm's spawn tiles are those of the monsters' records. */
    ghost predicate Homes()
      reads this`pop
    {
      && |pop.monsters| <= MAX_MONSTERS
      && (forall id :: id in pop.players ==> Leveled(pop.players[id]))
      && (forall m :: m in realm.spawn <==> pop.IsMonster(m))
      && (forall m :: pop.IsMonster(m) ==> pop.GetMonster(m).spawn == realm.spawn[m] && pop.GetMonster(m).maxHp > 0)
    }

    /** Every client shows its own character where the server has it. */
    ghost predicate Synced()
      reads this`pop, net
    {
      net.Own() == Standings(pop.players)
    }

    /** Between handlers: the fields hold a state that some run from start-up reaches. */
    ghost predicate Valid()
      reads this, sm, sm.tiles, sm.sectors, net, tm
    {
      Holds(state) && WellSpawned(realm) && Reachable(realm, state) && Synced()
    }

    /** Start-up: the monsters are placed, and nobody is logged in. */
    constructor (t: Terrain, spawns: seq<SpawnData>)
      requires |spawns| <= MAX_MONSTERS
      requires forall d :: d in spawns ==> IsInt16(d.pos.x) && IsInt16(d.pos.y) && d.maxHp > 0
      ensures Valid() && state == Initial(realm) && realm.t == t && pop.players == map[]
      ensures SpawnedFrom(t, spawns, pop.monsters, realm.spawn)
      ensures fresh(sm) && fresh(sm.tiles) && fresh(sm.sectors) && fresh(net) && fresh(tm)
    {
      var sectors := new SectorManager(t);
      var monsters := SpawnMonsters(sectors, spawns);
      sm := sectors;
      net := new Sessions();
      tm := new TimerManager();
      pop, clock := Population(map[], monsters), 0;
      realm := Realm(t, sectors.at);
      state := Initial(Realm(t, sectors.at));
      SpawnedWell(t, sectors.tiles[..], monsters, sectors.at);
      StartsReachable(Realm(t, sectors.at));
    }

    /** What a handler knows about a player it has looked up. */
    lemma PlayerStands(id: ObjectId, s: State)
      requires Holds(s) && id in pop.players
      ensures id in s.at && IsPlayerId(id) && id != INVALID_ID
      ensures s.at[id] == pop.players[id].pos && realm.t.InMap(s.at[id])
      ensures s.at == sm.at && sm.t == realm.t
    {
    }

    /** What `Valid` promises a handler that starts. */
    lemma InForce()
      requires Valid()
      ensures Holds(state) && WellSpawned(realm) && Reachable(realm, state) && net.Own() == Standings(pop.players)
    {
    }

    lemma QueueAndClock(s: State)
      requires Holds(s)
      ensures tm.queue == s.timers && clock == s.clock
    {
    }

    /** A handler that gives up leaves everything as it was. */
    lemma NothingHappened(s: State)
      requires Holds(s) && state == s && WellSpawned(realm) && Reachable(realm, s) && net.Own() == Standings(pop.players)
      ensures Valid()
    {
    }

    /** A handler ends: the step it has carried out becomes history. */
    ghost method Commit(s: State, a: World.Step, s': State)
      requires WellSpawned(realm) && Reachable(realm, s) && Goes(realm, s, a, s') && Holds(s')
      requires net.Own() == Standings(pop.players)
      modifies this`state
      ensures Valid() && state == s'
    {
      hide Holds, WellSpawned, Reachable, Goes, Standings;
      ReachableStep(realm, s, a, s');
      state := s';
    }

    lemma Stranger(id: ObjectId, s: State)
      requires Holds(s) && IsPlayerId(id) && id !in pop.players
      ensures id !in s.at
    {
    }

    // ------------------------------------------------ one part of a handler each

    /** Steps onto the tile `to`, if it is the object's own or empty. */
    method TakeTile(id: ObjectId, from: Pos, to: Pos, ghost s: State) returns (ok: bool)
      requires Holds(s) && id in s.at && s.at[id] == from && realm.t.Walkable(to)
      modifies this`pop, sm, sm.tiles, sm.sectors
      ensures ok <==> from == to || Free(realm.t, s.at, to)
      ensures Holds(if ok then s.(at := s.at[id := to]) else s)
      ensures ok ==> old(pop).Has(id) && pop == old(pop).WithPos(id, to)
      ensures IsPlayerId(id) || pop.players == old(pop.players)
      ensures !ok ==> pop == old(pop)
    {
      ok := sm.TryMoveObject(id, from, to);
      if ok {
        SetPos(id, to, s);
      }
    }

    /** Records the position the object was given. */
    method SetPos(id: ObjectId, p: Pos, ghost s: State)
      requires pop.Has(id) && (IsPlayerId(id) || pop.GetMonster(id).hp > 0)
      requires sm.Valid() && sm.t == realm.t && sm.at == s.at[id := p] && StandingBut(pop, s.at, id)
      requires net.sent.Keys == pop.players.Keys && s.seen == net.Shown()
      requires s.timers == tm.queue && s.clock == clock && Flagged(pop, s.active) && Homes()
      modifies this`pop
      ensures Holds(s.(at := s.at[id := p])) && pop == old(pop).WithPos(id, p)
    {
      hide SectorManager.Valid, Standing, StandingBut;
      if IsPlayerId(id) {
        PlayerPut(pop, s.at, id, pop.players[id].(pos := p));
      } else {
        MonsterPut(pop, s.at, id, pop.GetMonster(id).(pos := p));
      }
      pop := pop.WithPos(id, p);
    }

    method TellMove(id: ObjectId, from: Pos, ghost s: State)
      requires Holds(s) && id in s.at && realm.t.InMap(from)
      modifies net
      ensures net.Own() == old(net.Own())
      ensures Holds(s.(seen := AfterMove(realm.t, s.at, s.seen, id, from)))
    {
      ProcessMoveView(sm, pop, net, id, from);
    }

    method TellFullView(id: ObjectId, ghost s: State)
      requires Holds(s) && id in pop.players
      modifies net
      ensures net.Own() == old(net.Own())
      ensures id in s.at && Holds(s.(seen := AfterEnter(realm.t, s.at, s.seen, id)))
    {
      SendFullView(sm, pop, net, id);
    }

    method TellVanish(id: ObjectId, c: Pos, ghost s: State)
      requires Holds(s) && id in s.at && s.at[id] == c
      modifies net
      ensures net.Own() == old(net.Own())
      ensures Holds(s.(seen := AfterVanish(realm.t, s.at, s.seen, id)))
    {
      TellObservers(sm, pop, net, id, c, Remove(id));
    }

    method BroadcastAddMonster(m: ObjectId, c: Pos, ghost s: State)
      requires Holds(s) && m in s.at && !IsPlayerId(m) && s.at[m] == c
      modifies net
      ensures net.Own() == old(net.Own())
      ensures Holds(s.(seen := AfterEnter(realm.t, s.at, s.seen, m)))
    {
      MonsterEntersTellsAll(realm.t, s.at, s.seen, m);
      TellObservers(sm, pop, net, m, c, Add(m, c));
    }

    /** The acknowledgement a player gets about itself does not touch its table. */
    method SendOwnPos(id: ObjectId, p: Pos, ghost s: State)
      requires Holds(s) && id in pop.players
      modifies net
      ensures net.Own() == old(net.Own())[id := p]
      ensures Holds(s)
    {
      hide SectorManager.Valid, Standing, Flagged, Homes, OwnAfter;
      net.Send(id, Move(id, p));
      assert s.seen[id := s.seen[id]] == s.seen;
    }

    method Activate(c: Pos, ghost s: State)
      requires Holds(s) && realm.t.InMap(c)
      modifies this`pop, tm
      ensures Holds(Wake(realm.t, s, c)) && pop.players == old(pop.players)
      ensures SameMonsters(pop.monsters, old(pop).monsters)
    {
      pop := ActivateNearbyMonsters(sm, tm, pop, clock, c, s);
    }

    /** Puts a removed player near `c`, or near (0, 0) if everything around `c` is taken. */
    method PlaceAgain(id: ObjectId, c: Pos, ghost s: State) returns (p: Pos)
      requires Displaced(s, id) && id in pop.players && IsInt16(c.x) && IsInt16(c.y)
      requires NoneFree(realm.t, s.at - {id}, c, CLAIM_RADIUS) ==> !NoneFree(realm.t, s.at - {id}, ORIGIN, CLAIM_RADIUS)
      modifies this`pop, sm, sm.tiles, sm.sectors
      ensures var at := s.at - {id};
        FirstFree(realm.t, at, if NoneFree(realm.t, at, c, CLAIM_RADIUS) then ORIGIN else c, CLAIM_RADIUS, p)
      ensures realm.t.InMap(p)
      ensures Holds(s.(at := s.at[id := p])) && pop == old(pop).WithPos(id, p)
    {
      var ok;
      ok, p := sm.AddObject(id, c);
      if !ok {
        ok, p := sm.AddObject(id, ORIGIN);
      }
      assert (s.at - {id})[id := p] == s.at[id := p];
      SetPos(id, p, s);
    }

    /** The object has left its tile and its sector, but is still recorded. */
    ghost predicate Displaced(s: State, id: ObjectId)
      reads this`pop, this`clock, sm, sm.tiles, sm.sectors, net, tm
    {
      && id in s.at && id != INVALID_ID
      && sm.Valid() && sm.t == realm.t && sm.at == s.at - {id}
      && StandingBut(pop, s.at, id) && pop.Has(id)
      && net.sent.Keys == pop.players.Keys && s.seen == net.Shown()
      && s.timers == tm.queue && s.clock == clock && Flagged(pop, s.active) && Homes()
    }

    method Displace(id: ObjectId, c: Pos, ghost s: State)
      requires Holds(s) && id in s.at && s.at[id] == c && id != INVALID_ID
      modifies sm, sm.tiles, sm.sectors
      ensures Displaced(s, id)
    {
      sm.RemoveObject(id, c);
    }

    // ---------------------------------------------------------------- players

    /** A login whose data has been loaded. `id` is the session's; it enters near its stored position. */
    method OnLoginDBLoaded(id: ObjectId, row: Avatar) returns (ok: bool, ghost p: Pos)
      requires Valid() && IsPlayerId(id) && id !in pop.players && IsInt16(row.pos.x) && IsInt16(row.pos.y) && Leveled(row)
      modifies this`pop, this`state, sm, sm.tiles, sm.sectors, net, tm
      ensures Valid()
      ensures ok <==> !Crowded(realm.t, old(state.at), row.pos)
      ensures if ok then Goes(realm, old(state), Login(id, row.pos, p), state) else state == old(state)
      ensures pop.players == if ok then old(pop.players)[id := row.(pos := p)] else old(pop.players)
      ensures ok ==> InSquare(row.pos, p, 20)
      ensures SameMonsters(pop.monsters, old(pop).monsters)
    {
      hide Valid, Holds, Displaced, Dying, Handling, WellSpawned, Reachable, Ran, Room,
        FirstFree, NoneFree, Crowded, AfterMove, AfterEnter, AfterVanish, Wake, Relocate, Observed;
      ghost var s := state;
      InForce();
      Stranger(id, s);
      CrowdedIff(realm.t, s.at, row.pos);
      ok, p := AddPlayer(id, row, s);
      if !ok {
        NothingHappened(s);
        return;
      }
      var pos := pop.players[id].pos;
      ghost var s1 := s.(at := s.at[id := p], seen := s.seen[id := map[]], fallen := s.fallen - {id});
      TellFullView(id, s1);
      ghost var s2 := s1.(seen := AfterEnter(realm.t, s1.at, s1.seen, id));
      Activate(pos, s2);
      OneStands(old(pop.players), id, row.(pos := p));
      FirstFreeIsNear(realm.t, s.at, row.pos, p);
      Commit(s, Login(id, row.pos, p), Wake(realm.t, s2, p));
    }

    method AddPlayer(id: ObjectId, row: Avatar, ghost s: State) returns (ok: bool, p: Pos)
      requires Holds(s) && IsPlayerId(id) && id !in pop.players && IsInt16(row.pos.x) && IsInt16(row.pos.y) && Leveled(row)
      modifies this`pop, sm, sm.tiles, sm.sectors, net
      ensures ok <==> !NoneFree(realm.t, s.at, row.pos, CLAIM_RADIUS)
      ensures !ok ==> Holds(s)
      ensures ok ==> FirstFree(realm.t, s.at, row.pos, CLAIM_RADIUS, p) && realm.t.InMap(p)
      ensures net.Own() == if ok then old(net.Own())[id := p] else old(net.Own())
      ensures pop == if ok then old(pop).WithPlayer(id, row.(pos := p)) else old(pop)
      ensures ok ==> id in pop.players && pop.players[id].pos == p
      ensures ok ==> Holds(s.(at := s.at[id := p], seen := s.seen[id := map[]], fallen := s.fallen - {id}))
    {
      hide SectorManager.Valid, Standing, StandingBut, Flagged, Homes;
      Newcomer(pop, s.at, id);
      ok, p := sm.AddObject(id, row.pos);
      if ok {
        Register(id, row.(pos := p), s);
      }
    }

    /** The new player's record, and its session's packet stream. */
    method Register(id: ObjectId, a: Avatar, ghost s: State)
      requires IsPlayerId(id) && id !in pop.players && StandingBut(pop, s.at, id) && Leveled(a)
      requires sm.Valid() && sm.t == realm.t && sm.at == s.at[id := a.pos]
      requires net.sent.Keys == pop.players.Keys && s.seen == net.Shown()
      requires s.timers == tm.queue && s.clock == clock && Flagged(pop, s.active) && Homes()
      modifies this`pop, net
      ensures Holds(s.(at := s.at[id := a.pos], seen := s.seen[id := map[]], fallen := s.fallen - {id}))
      ensures net.Own() == old(net.Own())[id := a.pos]
      ensures pop == old(pop).WithPlayer(id, a)
    {
      hide SectorManager.Valid, Standing, StandingBut, Tables, OwnPlaces, Leveled;
      PlayerPut(pop, s.at, id, a);
      pop := pop.WithPlayer(id, a);
      net.Open(id, a.pos);
    }

    /** One movement request; `ready` is the outcome of the cooldown check. */
    method ProcessMove(id: ObjectId, d: int, ready: bool)
      requires Valid() && 0 <= d < 4
      modifies this`pop, this`state, sm, sm.tiles, sm.sectors, net, tm
      ensures Valid()
      ensures
        if id in old(pop.players) && ready && Free(realm.t, old(state.at), Ahead(old(pop.players)[id].pos, d))
        then Goes(realm, old(state), Walk(id, d), state)
          && pop.players == PlacedAt(old(pop.players), id, Ahead(old(pop.players)[id].pos, d))
          && SameMonsters(pop.monsters, old(pop).monsters)
        else state == old(state) && pop == old(pop)
    {
      hide Valid, Holds, Displaced, Dying, Handling, WellSpawned, Reachable, Goes, Ran, Room,
        FirstFree, NoneFree, AfterMove, AfterEnter, AfterVanish, Wake, Relocate, Observed,
        SameMonsters, Unoccupied;
      if id !in pop.players || !ready {
        return;
      }
      ghost var s := state;
      InForce();
      PlayerStands(id, s);
      var from := pop.players[id].pos;
      var to := Grid.Step(from, d);
      if !sm.t.Walkable(to) {
        return;
      }
      var ok := TakeTile(id, from, to, s);
      if !ok {
        NothingHappened(s);
        return;
      }
      Relocated(id, from, to, s);
      WalkGoes(realm, s, id, d);
      OneStands(old(pop.players), id, old(pop.players)[id].(pos := to));
      Commit(s, Walk(id, d), Relocate(realm, s, id, to));
    }

    /** The rest of a move: the packets, and the monsters around the new place. */
    method Relocated(id: ObjectId, from: Pos, p: Pos, ghost s: State)
      requires id in s.at && s.at[id] == from && id in pop.players && Holds(s.(at := s.at[id := p]))
      requires realm.t.InMap(from) && realm.t.InMap(p)
      modifies this`pop, net, tm
      ensures Holds(Relocate(realm, s, id, p)) && net.Own() == old(net.Own())[id := p]
      ensures pop.players == old(pop.players) && SameMonsters(pop.monsters, old(pop).monsters)
    {
      ghost var s1 := s.(at := s.at[id := p]);
      hide Holds, AfterMove, Wake;
      TellMove(id, from, s1);
      ghost var s2 := s1.(seen := AfterMove(realm.t, s1.at, s1.seen, id, from));
      Activate(p, s2);
      SendOwnPos(id, p, Wake(realm.t, s2, p));
    }

    /** A teleport to a random place; `target` is the random choice. */
    method ProcessTeleport(id: ObjectId, target: Pos) returns (ghost step: World.Step)
      requires Valid() && IsInt16(target.x) && IsInt16(target.y)
      requires id in pop.players && NoneFree(realm.t, sm.at - {id}, target, CLAIM_RADIUS) ==>
        !NoneFree(realm.t, sm.at - {id}, ORIGIN, CLAIM_RADIUS)
      modifies this`pop, this`state, sm, sm.tiles, sm.sectors, net, tm
      ensures Valid()
      ensures id !in old(pop.players) ==> state == old(state) && pop == old(pop)
      ensures id in old(pop.players) ==>
        && SameMonsters(pop.monsters, old(pop).monsters)
        && step.Teleport? && step.id == id && Goes(realm, old(state), step, state)
        && pop.players == PlacedAt(old(pop.players), id, step.p)
        && step.c == (if Crowded(realm.t, old(state.at) - {id}, target) then Pos(0, 0) else target)
        && InSquare(step.c, step.p, 20)
    {
      hide Valid, Holds, Displaced, Dying, Handling, WellSpawned, Reachable, Goes, Ran, Room,
        FirstFree, NoneFree, Crowded, AfterMove, AfterEnter, AfterVanish, Wake, Relocate, Observed,
        SameMonsters, Unoccupied;
      step := Tick(0);
      if id !in pop.players {
        return;
      }
      ghost var s := state;
      InForce();
      PlayerStands(id, s);
      var from := pop.players[id].pos;
      Displace(id, from, s);
      var to := PlaceAgain(id, target, s);
      CrowdedIff(realm.t, s.at - {id}, target);
      step := Teleport(id, if NoneFree(realm.t, s.at - {id}, target, CLAIM_RADIUS) then ORIGIN else target, to);
      Relocated(id, from, to, s);
      TeleportGoes(realm, s, id, step.c, to);
      FirstFreeIsNear(realm.t, s.at - {id}, step.c, to);
      OneStands(old(pop.players), id, old(pop.players)[id].(pos := to));
      Commit(s, step, Relocate(realm, s, id, to));
    }

    method ProcessDisconnect(id: ObjectId)
      requires Valid()
      modifies this`pop, this`state, sm, sm.tiles, sm.sectors, net
      ensures Valid()
      ensures if id in old(pop.players) then Goes(realm, old(state), Leave(id), state) else state == old(state)
      ensures pop == old(pop).WithoutPlayer(id)
    {
      hide Valid, Holds, Displaced, Dying, Handling, WellSpawned, Reachable, Goes, Ran, Room,
        FirstFree, NoneFree, AfterMove, AfterEnter, AfterVanish, Wake, Relocate, Observed;
      if id !in pop.players {
        assert pop.players - {id} == pop.players;
        return;
      }
      ghost var s := state;
      InForce();
      PlayerStands(id, s);
      var c := pop.players[id].pos;
      TellVanish(id, c, s);
      ghost var s1 := s.(seen := AfterVanish(realm.t, s.at, s.seen, id));
      Displace(id, c, s1);
      RemovePlayer(id, s1);
      LeaveGoes(realm, s, id);
      OneLeaves(old(pop.players), id);
      Commit(s, Leave(id), s1.(at := s1.at - {id}, seen := s1.seen - {id}, fallen := s1.fallen - {id}));
    }

    method RemovePlayer(id: ObjectId, ghost s: State)
      requires Displaced(s, id) && id in pop.players && IsPlayerId(id)
      modifies this`pop, net
      ensures Holds(s.(at := s.at - {id}, seen := s.seen - {id}, fallen := s.fallen - {id}))
      ensures net.Own() == old(net.Own()) - {id}
      ensures pop == old(pop).WithoutPlayer(id)
    {
      PlayerGone(pop, s.at, id);
      pop := pop.WithoutPlayer(id);
      net.Close(id);
    }

    /** A player's death: it disappears, loses its tile, and reappears near (0, 0) with full health. */
    method OnPlayerDied(id: ObjectId) returns (ghost p: Pos)
      requires Valid() && id in pop.players && !NoneFree(realm.t, sm.at - {id}, ORIGIN, CLAIM_RADIUS)
      modifies this`pop, this`state, sm, sm.tiles, sm.sectors, net, tm
      ensures Valid() && Goes(realm, old(state), Perish(id, p), state)
      ensures state.at == old(state.at)[id := p] && state.firing == old(state.firing) && InSquare(Pos(0, 0), p, 20)
      ensures id in pop.players && IsRisen(old(pop.players)[id], p, pop.players[id])
      ensures pop.players == old(pop.players)[id := pop.players[id]]
      ensures SameMonsters(pop.monsters, old(pop).monsters)
    {
      hide Valid, Holds, Displaced, Dying, Handling, WellSpawned, Reachable, Ran, Room,
        FirstFree, NoneFree, AfterMove, AfterEnter, AfterVanish, Wake, Relocate, Observed;
      ghost var s := state;
      InForce();
      PlayerStands(id, s);
      var at := FallAndRise(id, pop.players[id].pos, s);
      p := at;
      ghost var s2 := s.(at := s.at[id := p], seen := AfterVanish(realm.t, s.at, s.seen, id));
      SendOwnPos(id, at, s2);
      TellFullView(id, s2);
      ghost var s3 := s2.(seen := AfterEnter(realm.t, s2.at, s2.seen, id), fallen := s.fallen + {id});
      ForgetHistory(s2.(seen := AfterEnter(realm.t, s2.at, s2.seen, id)), s3);
      Activate(at, s3);
      WakingTellsNobody(realm.t);
      FirstFreeIsNear(realm.t, s.at - {id}, ORIGIN, p);
      OneStands(old(pop.players), id, pop.players[id]);
      Commit(s, Perish(id, p), Wake(realm.t, s3, p));
    }

    method FallAndRise(id: ObjectId, c: Pos, ghost s: State) returns (p: Pos)
      requires Holds(s) && id in s.at && id in pop.players && IsPlayerId(id) && s.at[id] == c
      requires !NoneFree(realm.t, s.at - {id}, ORIGIN, CLAIM_RADIUS)
      modifies this`pop, sm, sm.tiles, sm.sectors, net
      ensures FirstFree(realm.t, s.at - {id}, ORIGIN, CLAIM_RADIUS, p) && realm.t.InMap(p)
      ensures Holds(s.(at := s.at[id := p], seen := AfterVanish(realm.t, s.at, s.seen, id)))
      ensures id in pop.players && IsRisen(old(pop.players)[id], p, pop.players[id])
      ensures pop.players == old(pop.players)[id := pop.players[id]]
      ensures net.Own() == old(net.Own())
      ensures pop.monsters == old(pop).monsters
    {
      hide Valid, Holds, Displaced, Dying, Handling, WellSpawned, Reachable, Goes, Ran, Room,
        FirstFree, NoneFree, AfterMove, AfterEnter, AfterVanish, Wake, Relocate, Observed;
      assert IsInt16(ORIGIN.x) && IsInt16(ORIGIN.y) && id != INVALID_ID;
      ghost var s1 := s.(seen := AfterVanish(realm.t, s.at, s.seen, id));
      TellVanish(id, c, s);
      Displace(id, c, s1);
      Revive(id, s1);
      ghost var risen := pop;
      p := PlaceAgain(id, ORIGIN, s1);
      assert risen.WithPos(id, p).players == old(pop.players)[id := risen.players[id].(pos := p)];
    }

    /** The fields do not record who has died. */
    lemma ForgetHistory(s: State, s': State)
      requires Holds(s) && s' == s.(fallen := s'.fallen, firing := s'.firing)
      ensures Holds(s')
    {
    }

    /** Player::Die. */
    method Revive(id: ObjectId, ghost s: State)
      requires Displaced(s, id) && id in pop.players && IsPlayerId(id)
      modifies this`pop
      ensures Displaced(s, id) && id in pop.players && IsRisen(old(pop.players)[id], ORIGIN, pop.players[id])
      ensures pop == old(pop).WithPlayer(id, pop.players[id])
    {
      var a := pop.players[id];
      DeathTakesHalf(a.exp);
      pop := pop.WithPlayer(id, a.(pos := ORIGIN, hp := a.maxHp, exp := ExpAfterDeath(a.exp)));
    }

    // --------------------------------------------------------------- monsters

    lemma MonsterStands(m: ObjectId, s: State)
      requires Holds(s) && pop.IsMonster(m)
      ensures pop.GetMonster(m).hp > 0 <==> m in s.at
      ensures m in s.at ==> s.at[m] == pop.GetMonster(m).pos && realm.t.InMap(s.at[m])
      ensures m in realm.spawn && pop.GetMonster(m).spawn == realm.spawn[m] && !IsPlayerId(m)
      ensures m in s.active <==> pop.GetMonster(m).active
      ensures s.at == sm.at && sm.t == realm.t
    {
    }

    /** A monster that has lost its last health point but is still everywhere recorded. */
    ghost predicate Dying(s: State, m: ObjectId)
      reads this`pop, this`clock, sm, sm.tiles, sm.sectors, net, tm
    {
      && m in s.at && pop.IsMonster(m) && pop.GetMonster(m).hp <= 0 && pop.GetMonster(m).pos == s.at[m]
      && sm.Valid() && sm.t == realm.t && sm.at == s.at
      && StandingBut(pop, s.at, m)
      && net.sent.Keys == pop.players.Keys && s.seen == net.Shown()
      && s.timers == tm.queue && s.clock == clock && Flagged(pop, s.active) && Homes()
    }

    /** A blow at a monster. */
    method Strike(m: ObjectId, damage: nat, ghost s: State) returns (dead: bool)
      requires Holds(s) && m in s.at && pop.IsMonster(m)
      modifies this`pop
      ensures pop == old(pop).WithMonster(m, Struck(old(pop).GetMonster(m), damage))
      ensures dead <==> old(pop).GetMonster(m).hp <= damage
      ensures if dead then Dying(s, m) else Holds(s)
    {
      hide SectorManager.Valid, Standing, StandingBut;
      var r := Struck(pop.GetMonster(m), damage);
      dead := r.hp <= 0;
      MonsterStands(m, s);
      AllButOne(pop, s.at, m);
      OthersButOne(pop, s.at, m, r);
      if !dead {
        MonsterPut(pop, s.at, m, r);
        assert s.at[m := r.pos] == s.at;
      }
      pop := pop.WithMonster(m, r);
    }

    /** A monster's death: the killer gains its reward, the clients around forget the monster, it leaves
        its tile, and its respawn is scheduled. */
    method OnMonsterDied(m: ObjectId, killer: ObjectId, ghost s: State)
      requires Dying(s, m) && m !in s.firing && state == s && WellSpawned(realm) && Reachable(realm, s)
      requires killer in pop.players && pop.IsMonster(m)
      requires pop.players[killer].exp + ExpReward(pop.GetMonster(m)) <= INT32_MAX
      requires net.Own() == Standings(pop.players)
      modifies this`pop, this`state, sm, sm.tiles, sm.sectors, net, tm
      ensures Valid() && Goes(realm, s, Slay(m), state)
      ensures state.at == s.at - {m} && state.firing == s.firing
      ensures Timer(clock + 30_000, Respawn, m) in tm.queue
      ensures killer in pop.players && pop == old(pop).WithPlayer(killer, pop.players[killer])
      ensures pop.players[killer].pos == old(pop.players)[killer].pos && old(pop).IsMonster(m)
      ensures 1 <= old(pop.players)[killer].level <= MAX_LEVEL
      ensures Gained(old(pop.players)[killer].ToStats(), ExpReward(old(pop).GetMonster(m)), pop.players[killer].ToStats())
      ensures var r := old(pop).GetMonster(m);
        ExpReward(r) == (if r.behavior == AGRO || r.movement == ROAMING then 4 else 2) * r.level * r.level
    {
      hide Valid, Holds, Displaced, Dying, Handling, WellSpawned, Reachable, Goes, Ran, Room, Gained, ExpReward,
        Becomes, SameMonsters, Standings, FirstFree, NoneFree, AfterMove, AfterEnter, AfterVanish, Wake, Relocate, Observed;
      AwardExp(killer, ExpReward(pop.GetMonster(m)), m, s);
      OneStands(old(pop.players), killer, pop.players[killer]);
      Bury(m, s);
    }

    /** The clients around forget the monster, it leaves its tile, and its respawn is scheduled. */
    method Bury(m: ObjectId, ghost s: State)
      requires Dying(s, m) && m !in s.firing && state == s && WellSpawned(realm) && Reachable(realm, s)
      requires net.Own() == Standings(pop.players)
      modifies this`state, sm, sm.tiles, sm.sectors, net, tm
      ensures Valid() && Goes(realm, s, Slay(m), state)
      ensures state.at == s.at - {m} && state.firing == s.firing
      ensures Timer(clock + 30_000, Respawn, m) in tm.queue
    {
      hide Valid, Holds, Displaced, Dying, Handling, WellSpawned, Reachable, Ran, Room,
        Becomes, SameMonsters, Standings, FirstFree, NoneFree, AfterMove, AfterEnter, AfterVanish, Wake, Relocate, Observed;
      DyingMonster(m, s);
      var c := pop.GetMonster(m).pos;
      TellDeath(m, s);
      RemoveDead(m, c, s.(seen := AfterVanish(realm.t, s.at, s.seen, m)));
      Commit(s, Slay(m), s.(at := s.at - {m}, seen := AfterVanish(realm.t, s.at, s.seen, m),
        timers := s.timers + multiset{Timer(s.clock + RESPAWN_DELAY, Respawn, m)}));
      InForce();
      QueueAndClock(state);
    }

    /** Player::GainExp on one player's record. */
    method AwardExp(id: ObjectId, amount: nat, m: ObjectId, ghost s: State)
      requires Dying(s, m) && id in pop.players && pop.players[id].exp + amount <= INT32_MAX
      modifies this`pop
      ensures Dying(s, m) && id in pop.players && pop == old(pop).WithPlayer(id, pop.players[id])
      ensures pop.players[id].pos == old(pop.players)[id].pos && 1 <= old(pop.players)[id].level <= MAX_LEVEL
      ensures Gained(old(pop.players)[id].ToStats(), amount, pop.players[id].ToStats())
    {
      hide SectorManager.Valid, Standing, StandingBut, Gained;
      var a := pop.players[id];
      var player := new Player(a.level, a.exp, a.maxHp, a.hp);
      player.GainExp(amount);
      var a' := Avatar(a.pos, player.level, player.exp, player.maxHp, player.hp);
      SamePlayerPlace(pop, s.at, m, id, a');
      pop := pop.WithPlayer(id, a');
    }

    lemma DyingMonster(m: ObjectId, s: State)
      requires Dying(s, m)
      ensures m in s.at && !IsPlayerId(m) && pop.IsMonster(m) && pop.GetMonster(m).pos == s.at[m]
    {
    }

    method TellDeath(m: ObjectId, ghost s: State)
      requires Dying(s, m)
      modifies net
      ensures net.Own() == old(net.Own())
      ensures Dying(s.(seen := AfterVanish(realm.t, s.at, s.seen, m)), m)
    {
      TellObservers(sm, pop, net, m, pop.GetMonster(m).pos, Remove(m));
    }

    method RemoveDead(m: ObjectId, c: Pos, ghost s: State)
      requires Dying(s, m) && s.at[m] == c
      modifies sm, sm.tiles, sm.sectors, tm
      ensures Holds(s.(at := s.at - {m}, timers := s.timers + multiset{Timer(s.clock + RESPAWN_DELAY, Respawn, m)}))
    {
      sm.RemoveObject(m, c);
      MonsterGone(pop, s.at, m, pop.GetMonster(m));
      assert pop.WithMonster(m, pop.GetMonster(m)) == pop;
      tm.AddTimer(Respawn, m, clock, RESPAWN_DELAY);
    }

    /** One step of a monster, if nobody is in the way. */
    method MoveMonster(m: ObjectId, to: Pos) returns (ghost steps: seq<World.Step>)
      requires Valid() && pop.IsMonster(m) && m in state.at && m in state.firing
      requires realm.t.Walkable(to) && Adjacent(state.at[m], to) && Chebyshev(to, realm.spawn[m]) <= ROAMING_RANGE
      modifies this`pop, this`state, sm, sm.tiles, sm.sectors, net
      ensures Valid() && old(pop).IsMonster(m) && pop.players == old(pop.players)
      ensures pop == if Free(realm.t, old(state.at), to) then old(pop).WithPos(m, to) else old(pop)
      ensures steps == if Free(realm.t, old(state.at), to) then [MonsterWalk(m, to)] else []
      ensures Ran(realm, old(state), steps, state) && state.firing == old(state.firing)
    {
      hide Valid, Holds, Displaced, Dying, Handling, WellSpawned, Reachable, Ran, Room,
        FirstFree, NoneFree, AfterMove, AfterEnter, AfterVanish, Wake, Relocate, Observed;
      ghost var s := state;
      InForce();
      MonsterStands(m, s);
      var from := pop.GetMonster(m).pos;
      RanNothing(realm, s);
      var ok := TakeTile(m, from, to, s);
      if !ok {
        NothingHappened(s);
        return [];
      }
      ghost var s1 := s.(at := s.at[m := to]);
      TellMove(m, from, s1);
      ghost var s2 := s1.(seen := AfterMove(realm.t, s1.at, s1.seen, m, from));
      Commit(s, MonsterWalk(m, to), s2);
      RanOne(realm, s, MonsterWalk(m, to), s2);
      return [MonsterWalk(m, to)];
    }

    // ------------------------------------------------------ a player's attack

    /** The monsters on the four tiles around a player take a blow of ten points per level, the ones it
        kills die, and the player gains the sum of their rewards, which must fit 32 bits. */
    method ProcessAttack(id: ObjectId, ready: bool) returns (ghost steps: seq<World.Step>)
      requires Valid() && state.firing == {}
      requires id in pop.players ==> AffordsAttack(pop, state.at, id)
      modifies this`pop, this`state, sm, sm.tiles, sm.sectors, net, tm
      ensures Valid() && state.firing == {} && Ran(realm, old(state), steps, state)
      ensures forall a :: a in steps ==> a.Slay?
      ensures id !in old(pop.players) || !ready ==> steps == [] && pop == old(pop)
      ensures id in old(pop.players) && ready ==>
        var me := old(pop.players)[id];
        && StruckNextTo(pop, old(pop), old(state.at), me.pos, me.level * 10) && Remain(old(state.at), state.at)
        && Rewarded(old(pop), pop.players, id, KilledAround(old(pop), old(state.at), me.pos, me.level * 10, 4))
    {
      hide Valid, Holds, Displaced, Dying, Handling, WellSpawned, Reachable, Goes, Ran, Room, Rewarded, KilledAround,
        StruckAround, Remain, FirstFree, NoneFree, AfterMove, AfterEnter, AfterVanish, Wake, Relocate, Observed;
      steps := [];
      ghost var s, pop0 := state, pop;
      RanNothing(realm, s);
      if id !in pop.players || !ready {
        return;
      }
      var c, damage := pop.players[id].pos, pop.players[id].level * 10;
      InForce();
      StartStriking(s, id, c, damage);
      for d := 0 to 4
        invariant Valid() && state.firing == {} && Ran(realm, s, steps, state)
        invariant forall a :: a in steps ==> a.Slay?
        invariant StruckAround(pop, pop0, s.at, c, damage, d) && Remain(s.at, state.at)
        invariant Rewarded(pop0, pop.players, id, KilledAround(pop0, s.at, c, damage, d))
      {
        ghost var s1 := state;
        ghost var more := StrikeTile(id, c, d, damage, pop0, s.at);
        RanOn(realm, s, steps, s1, more, state);
        steps := steps + more;
      }
      StruckOnAllSides(pop, pop0, s.at, c, damage);
    }

    lemma StartStriking(s: State, id: ObjectId, c: Pos, damage: nat)
      requires Holds(s) && id in pop.players
      ensures StruckAround(pop, pop, s.at, c, damage, 0) && Remain(s.at, s.at)
      ensures Rewarded(pop, pop.players, id, KilledAround(pop, s.at, c, damage, 0))
      ensures Standing(pop, s.at) && Exclusive(s.at)
    {
      OccupancyIsExclusive(sm.t, sm.tiles[..], sm.at);
      assert KilledAround(pop, s.at, c, damage, 0) == {};
    }

    /** One of the four tiles. */
    method StrikeTile(id: ObjectId, c: Pos, d: int, damage: nat, ghost pop0: Population, ghost at0: map<ObjectId, Pos>)
      returns (ghost steps: seq<World.Step>)
      requires Valid() && state.firing == {} && 0 <= d < 4
      requires Standing(pop0, at0) && Exclusive(at0) && id in pop0.players && damage == pop0.players[id].level * 10
      requires c == pop0.players[id].pos && AffordsAttack(pop0, at0, id)
      requires StruckAround(pop, pop0, at0, c, damage, d) && Remain(at0, state.at)
      requires Rewarded(pop0, pop.players, id, KilledAround(pop0, at0, c, damage, d))
      modifies this`pop, this`state, sm, sm.tiles, sm.sectors, net, tm
      ensures Valid() && state.firing == {} && Ran(realm, old(state), steps, state)
      ensures forall a :: a in steps ==> a.Slay?
      ensures StruckAround(pop, pop0, at0, c, damage, d + 1) && Remain(at0, state.at)
      ensures Rewarded(pop0, pop.players, id, KilledAround(pop0, at0, c, damage, d + 1))
    {
      hide Valid, Holds, Displaced, Dying, Handling, WellSpawned, Reachable, Goes, Ran, Room, Rewarded, KilledAround,
        StruckAround, Remain, Standing, Exclusive, Occupies, AffordsAttack, ExpReward, Gained,
        FirstFree, NoneFree, AfterMove, AfterEnter, AfterVanish, Wake, Relocate, Observed;
      steps := [];
      ghost var s, players := state, pop.players;
      RanNothing(realm, s);
      InForce();
      var target := OccupantOf(Grid.Step(c, d), s);
      if target == INVALID_ID || IsPlayerId(target) {
        NobodyThere(pop, pop0, at0, s, c, damage, d, target);
        return;
      }
      MonsterStands(target, s);
      var r := pop.GetMonster(target);
      if r.hp > 0 {
        MonsterThere(pop, pop0, at0, s.at, id, c, damage, d, target);
        BlowKeepsReward(r, damage);
        var dead := Strike(target, damage, s);
        if dead {
          ghost var struck := pop;
          OnMonsterDied(target, id, s);
          AwardKeepsStruck(struck, pop0, at0, c, damage, d + 1, id, pop.players[id]);
          RewardOne(pop0, players, id, KilledAround(pop0, at0, c, damage, d), target, pop.players[id]);
          RanOne(realm, s, Slay(target), state);
          steps := [Slay(target)];
        } else {
          NothingHappened(s);
        }
      }
    }

    /** No monster stands on the tile: it is empty, or a player's. */
    lemma NobodyThere(pop: Population, pop0: Population, at0: map<ObjectId, Pos>, s: State, c: Pos, damage: nat, d: int, o: ObjectId)
      requires 0 <= d < 4 && Holds(s) && pop == this.pop
      requires Standing(pop0, at0) && Exclusive(at0)
      requires StruckAround(pop, pop0, at0, c, damage, d) && Remain(at0, s.at)
      requires Occupies(s.at, o, Grid.Step(c, d)) && (o == INVALID_ID || IsPlayerId(o))
      ensures StruckAround(pop, pop0, at0, c, damage, d + 1)
      ensures KilledAround(pop0, at0, c, damage, d + 1) == KilledAround(pop0, at0, c, damage, d)
    {
      forall m | pop0.IsMonster(m) && m in at0 ensures at0[m] != Grid.Step(c, d) {
        NextSide(c, at0[m], d);
        assert pop.IsMonster(m);
      }
      SidesSoFar(pop, pop0, at0, c, damage, d);
      KilledNext(pop0, at0, c, damage, d, INVALID_ID);
    }

    /** Who stands on a tile. */
    method OccupantOf(c: Pos, ghost s: State) returns (id: ObjectId)
      requires Holds(s)
      ensures Occupies(s.at, id, c) && (id != INVALID_ID ==> id in s.at && s.at[id] == c && pop.Has(id))
    {
      id := sm.GetOccupant(c);
    }

    // ------------------------------------------------------- a monster's turn

    /** A monster whose AI timer is being handled is alive. */
    lemma HandledMonster(m: ObjectId)
      requires Valid() && m in state.firing
      ensures m in state.at && m in realm.spawn && pop.IsMonster(m) && pop.GetMonster(m).hp > 0
      ensures pop.GetMonster(m).spawn == realm.spawn[m] && pop.GetMonster(m).pos == state.at[m]
      ensures realm.t.InMap(state.at[m])
    {
      ReachableInv(realm, state);
      MonsterStands(m, state);
    }

    /** The blow is taken, but nothing has come of it yet. */
    method WoundPlayer(v: ObjectId, damage: nat, ghost s: State)
      requires Holds(s) && v in pop.players
      modifies this`pop
      ensures Holds(s) && pop.monsters == old(pop).monsters
      ensures pop.players == old(pop.players)[v := Wounded(old(pop.players)[v], damage)]
    {
      hide SectorManager.Valid, Standing, StandingBut;
      PlayerStands(v, s);
      AllButOne(pop, s.at, v);
      PlayerPut(pop, s.at, v, Wounded(pop.players[v], damage));
      assert s.at[v := s.at[v]] == s.at;
      pop := pop.WithPlayer(v, Wounded(pop.players[v], damage));
    }

    method SetTarget(m: ObjectId, target: Target)
      requires Valid() && pop.IsMonster(m)
      modifies this`pop
      ensures Valid() && pop == old(pop).WithMonster(m, old(pop).GetMonster(m).(target := target))
    {
      var r := pop.GetMonster(m).(target := target);
      UpdateKeepsStanding(pop, sm.at, m, r);
      hide Standing, WellSpawned, Reachable, SectorManager.Valid;
      pop := pop.WithMonster(m, r);
    }

    /** Steps onto the neighbouring tile `to`, if it is within roaming range, passable and empty. */
    method TryStep(m: ObjectId, to: Pos) returns (ghost steps: seq<World.Step>)
      requires Valid() && m in state.firing && m in state.at && Adjacent(state.at[m], to)
      modifies this`pop, this`state, sm, sm.tiles, sm.sectors, net
      ensures Valid() && state.firing == old(state.firing) && Ran(realm, old(state), steps, state)
      ensures forall a :: a in steps ==> AiStep(a, m)
      ensures old(pop).IsMonster(m) && TriesTo(realm.t, old(state.at), old(pop), m, to, steps, pop)
    {
      hide Valid, Holds, Ran, Adjacent;
      steps := [];
      RanNothing(realm, state);
      HandledMonster(m);
      InForce();
      MonsterStands(m, state);
      if Chebyshev(to, pop.GetMonster(m).spawn) > ROAMING_RANGE || !sm.t.Walkable(to) {
        return;
      }
      steps := MoveMonster(m, to);
    }

    /** A step in a random direction `d`. */
    method RoamingMove(m: ObjectId, d: int) returns (ghost steps: seq<World.Step>)
      requires Valid() && m in state.firing && 0 <= d < 4
      modifies this`pop, this`state, sm, sm.tiles, sm.sectors, net
      ensures Valid() && state.firing == old(state.firing) && Ran(realm, old(state), steps, state)
      ensures forall a :: a in steps ==> AiStep(a, m)
      ensures old(pop).IsMonster(m) && Strolls(realm.t, old(state.at), old(pop), m, d, steps, pop)
    {
      hide Valid, Ran, TriesTo, AiStep;
      HandledMonster(m);
      steps := TryStep(m, Grid.Step(pop.GetMonster(m).pos, d));
    }

    /** A monster's blow at a player next to it. */
    method MonsterAttackPlayer(m: ObjectId, v: ObjectId, ghost room: nat) returns (ghost steps: seq<World.Step>)
      requires Valid() && m in state.firing && v in pop.players && Room(realm.t, state.at, room + 1)
      modifies this`pop, this`state, sm, sm.tiles, sm.sectors, net, tm
      ensures Valid() && state.firing == old(state.firing) && Ran(realm, old(state), steps, state)
      ensures forall a :: a in steps ==> a.Perish? && a.id == v
      ensures Room(realm.t, state.at, room) && SameMonsters(pop.monsters, old(pop).monsters)
      ensures v in pop.players && pop.players == old(pop.players)[v := pop.players[v]]
      ensures old(pop).IsMonster(m) && Bitten(old(pop.players)[v], old(pop).GetMonster(m).level * 5, pop.players[v])
    {
      hide Valid, Holds, Displaced, Dying, Handling, WellSpawned, Reachable, Goes, Ran, Room,
        FirstFree, NoneFree, AfterMove, AfterEnter, AfterVanish, Wake, Relocate, Observed;
      steps := [];
      ghost var s := state;
      RanNothing(realm, s);
      HandledMonster(m);
      InForce();
      PlayerStands(v, s);
      RoomForFewer(realm.t, s.at, room + 1, room);
      RoomMeansFree(realm.t, s.at, room, v);
      var damage := pop.GetMonster(m).level * 5;
      var a := pop.players[v];
      if a.hp <= 0 {
        assert pop.players == pop.players[v := a];
        return;
      }
      WoundPlayer(v, damage, s);
      OneStands(old(pop.players), v, pop.players[v]);
      NothingHappened(s);
      if pop.players[v].hp <= 0 {
        ghost var p := OnPlayerDied(v);
        RoomAfterOne(realm.t, s.at, room, v, p);
        RanOne(realm, s, Perish(v, p), state);
        steps := [Perish(v, p)];
      }
    }

    /** Every player next to the monster is bitten once. */
    method AttackAll(m: ObjectId, victims: seq<ObjectId>) returns (ghost steps: seq<World.Step>)
      requires Valid() && m in state.firing && NoDuplicates(victims) && Room(realm.t, state.at, |victims|)
      requires pop.IsMonster(m) && forall i :: 0 <= i < |victims| ==> victims[i] in pop.players
      modifies this`pop, this`state, sm, sm.tiles, sm.sectors, net, tm
      ensures Valid() && state.firing == old(state.firing) && Ran(realm, old(state), steps, state)
      ensures forall a :: a in steps ==> a.Perish? && a.id in victims
      ensures SameMonsters(pop.monsters, old(pop).monsters)
      ensures AllBitten(old(pop.players), victims, old(pop).GetMonster(m).level * 5, pop.players)
    {
      hide Valid, Holds, Displaced, Dying, Handling, WellSpawned, Reachable, Goes, Ran, Room,
        FirstFree, NoneFree, AfterMove, AfterEnter, AfterVanish, Wake, Relocate, Observed;
      ghost var s, pop0, players0, damage := state, pop, pop.players, pop.GetMonster(m).level * 5;
      steps := [];
      RanNothing(realm, s);
      assert victims[..0] == [];
      for i := 0 to |victims|
        invariant Valid() && state.firing == s.firing && Ran(realm, s, steps, state)
        invariant forall a :: a in steps ==> a.Perish? && a.id in victims
        invariant Room(realm.t, state.at, |victims| - i)
        invariant pop.players.Keys == players0.Keys && AllBitten(players0, victims[..i], damage, pop.players)
        invariant SameMonsters(pop.monsters, pop0.monsters)
      {
        ghost var s1, pop1, mid := state, pop, pop.players;
        ghost var more := MonsterAttackPlayer(m, victims[i], |victims| - i - 1);
        RanOn(realm, s, steps, s1, more, state);
        steps := steps + more;
        OneMoreBitten(players0, victims, i, damage, mid, pop.players);
        SameMonstersTransitive(pop.monsters, pop1.monsters, pop0.monsters);
      }
      assert victims[..|victims|] == victims;
    }

    /** The live players on the four tiles around a monster. */
    method AdjacentVictims(c: Pos, ghost s: State) returns (victims: seq<ObjectId>)
      requires Holds(s)
      ensures NoDuplicates(victims) && |victims| <= 4
      ensures AreVictims(pop, c, victims)
    {
      StandsApart(s);
      AllVictims(pop, c);
      hide SectorManager.Valid, Standing, Exclusive, Beside, IsVictim, Occupies, Flagged, Homes;
      victims := [];
      for d := 0 to 4
        invariant NoDuplicates(victims) && |victims| <= d
        invariant forall v :: v in victims <==> Beside(pop, c, d, v)
      {
        var o := OccupantOf(Grid.Step(c, d), s);
        NextVictim(pop, s.at, c, d, o);
        if o != INVALID_ID && IsPlayerId(o) && pop.players[o].hp > 0 {
          ghost var before := victims;
          victims := victims + [o];
          assert forall v :: v in victims <==> v in before || v == o;
        }
      }
    }

    lemma StandsApart(s: State)
      requires Holds(s)
      ensures Standing(pop, s.at) && Exclusive(s.at)
    {
      OccupancyIsExclusive(sm.t, sm.tiles[..], sm.at);
    }

    /** The tile around the prey to head for. */
    method ChooseGoal(m: ObjectId, c: Pos, prey: Pos, ghost s: State) returns (goal: Pos, dist: int)
      requires Holds(s) && realm.t.InMap(c)
      ensures BestSide(realm.t, s.at, m, c, prey, 4, goal, dist)
    {
      StandsApart(s);
      assert sm.t == realm.t;
      hide Holds, BestSide, Exclusive, Occupies;
      goal, dist := prey, INT_MAX;
      for d := 0 to 4
        invariant BestSide(realm.t, s.at, m, c, prey, d, goal, dist)
      {
        var g := Grid.Step(prey, d);
        ghost var best, least := goal, dist;
        var o := OccupantOf(g, s);
        if sm.t.Walkable(g) && (o == INVALID_ID || o == m) {
          var d' := Manhattan(g, c);
          if d' < dist {
            goal, dist := g, d';
          }
        }
        NextSideIsBest(realm.t, s.at, m, c, prey, d, best, least, o);
      }
    }

    /** One step of the way to a free tile next to the prey. */
    method Approach(m: ObjectId, prey: Pos) returns (ghost steps: seq<World.Step>)
      requires Valid() && m in state.firing
      modifies this`pop, this`state, sm, sm.tiles, sm.sectors, net
      ensures Valid() && state.firing == old(state.firing) && Ran(realm, old(state), steps, state)
      ensures forall a :: a in steps ==> AiStep(a, m)
      ensures old(pop).IsMonster(m) && StepsTowards(realm.t, old(state.at), old(pop), m, prey, steps, pop)
    {
      hide Valid, Holds, Ran, WellSpawned, Reachable, Adjacent, BestSide, IsResult, TriesTo, AiStep, RawTerrain.InMap;
      steps := [];
      ghost var s := state;
      RanNothing(realm, s);
      HandledMonster(m);
      InForce();
      MonsterStands(m, s);
      var c := pop.GetMonster(m).pos;
      var goal, dist := ChooseGoal(m, c, prey, s);
      var path := FindPath(sm.t, c, goal, MAX_NODES);
      if path == [] {
        return;
      }
      FirstStep(realm.t, c, goal, path);
      steps := TryStep(m, path[0]);
    }

    /** An aggressive monster's turn. */
    method AgroPursue(m: ObjectId, d: int, canAttack: bool) returns (ghost steps: seq<World.Step>)
      requires Valid() && m in state.firing && 0 <= d < 4 && Room(realm.t, state.at, 4)
      modifies this`pop, this`state, sm, sm.tiles, sm.sectors, net, tm
      ensures Valid() && state.firing == old(state.firing) && Ran(realm, old(state), steps, state)
      ensures forall a :: a in steps ==> AiStep(a, m)
      ensures old(pop).IsMonster(m)
      ensures match old(pop).GetMonster(m).target
        case Chasing(id) => ChasingTurn(realm.t, old(state.at), old(pop), m, id, canAttack, steps, pop)
        case NoTarget => LookingTurn(realm.t, old(state.at), old(pop), m, d, steps, pop)
    {
      hide Valid, Holds, Displaced, Dying, Handling, WellSpawned, Reachable, Goes, Ran, Room,
        FirstFree, NoneFree, AfterMove, AfterEnter, AfterVanish, Wake, Relocate, Observed;
      HandledMonster(m);
      match pop.GetMonster(m).target {
        case Chasing(id) => steps := Chase(m, id, canAttack);
        case NoTarget => steps := Look(m, d);
      }
    }

    method Chase(m: ObjectId, id: ObjectId, canAttack: bool) returns (ghost steps: seq<World.Step>)
      requires Valid() && m in state.firing && Room(realm.t, state.at, 4)
      modifies this`pop, this`state, sm, sm.tiles, sm.sectors, net, tm
      ensures Valid() && state.firing == old(state.firing) && Ran(realm, old(state), steps, state)
      ensures forall a :: a in steps ==> AiStep(a, m)
      ensures old(pop).IsMonster(m) && ChasingTurn(realm.t, old(state.at), old(pop), m, id, canAttack, steps, pop)
    {
      hide Valid, Holds, Ran, Room, IsVictim, AreVictims, AllBitten, SameMonsters, StepsTowards;
      steps := [];
      ghost var s := state;
      RanNothing(realm, s);
      HandledMonster(m);
      InForce();
      MonsterStands(m, s);
      var r := pop.GetMonster(m);
      if id !in pop.players || pop.players[id].hp <= 0 || Chebyshev(pop.players[id].pos, r.pos) > sm.t.agro {
        SetTarget(m, NoTarget);
        return;
      }
      var victims := AdjacentVictims(r.pos, s);
      VictimsOrNone(pop, r.pos, victims);
      if victims != [] {
        if canAttack {
          RoomForFewer(realm.t, s.at, 4, |victims|);
          steps := AttackAll(m, victims);
        }
        return;
      }
      steps := Approach(m, pop.players[id].pos);
    }

    method Look(m: ObjectId, d: int) returns (ghost steps: seq<World.Step>)
      requires Valid() && m in state.firing && 0 <= d < 4
      modifies this`pop, this`state, sm, sm.tiles, sm.sectors, net
      ensures Valid() && state.firing == old(state.firing) && Ran(realm, old(state), steps, state)
      ensures forall a :: a in steps ==> AiStep(a, m)
      ensures old(pop).IsMonster(m) && LookingTurn(realm.t, old(state.at), old(pop), m, d, steps, pop)
    {
      hide Valid, Holds, Ran, InRange, Strolls, AiStep;
      steps := [];
      ghost var s := state;
      RanNothing(realm, s);
      HandledMonster(m);
      InForce();
      MonsterStands(m, s);
      SearchReach(s);
      var r := pop.GetMonster(m);
      var nearest := FindNearestPlayerInRange(sm, pop, r.pos, sm.t.agro);
      if nearest.Chasing? {
        SetTarget(m, nearest);
      } else {
        steps := RoamingMove(m, d);
      }
    }

    lemma SearchReach(s: State)
      requires Holds(s)
      ensures sm.Valid() && sm.t == realm.t && Standing(pop, sm.at) && sm.at == s.at && sm.t.agro <= sm.t.sector
    {
    }

    /** Monster::AITick. */
    method AITick(m: ObjectId, d: int, canAttack: bool) returns (ghost steps: seq<World.Step>)
      requires Valid() && m in state.firing && 0 <= d < 4 && Room(realm.t, state.at, 4)
      modifies this`pop, this`state, sm, sm.tiles, sm.sectors, net, tm
      ensures Valid() && state.firing == old(state.firing) && Ran(realm, old(state), steps, state)
      ensures forall a :: a in steps ==> AiStep(a, m)
      ensures old(pop).IsMonster(m) && Turn(realm.t, old(state.at), old(pop), m, d, canAttack, steps, pop)
    {
      hide Valid, Ran, Room, ChasingTurn, LookingTurn, Strolls, AiStep;
      steps := [];
      RanNothing(realm, state);
      HandledMonster(m);
      var r := pop.GetMonster(m);
      if r.movement == FIXED {
        return;
      }
      match r.behavior {
        case PEACE => steps := RoamingMove(m, d);
        case AGRO => steps := AgroPursue(m, d, canAttack);
      }
    }

    // ----------------------------------------------------------------- timers

    /** The event `e` has left the queue and is about to be handled. */
    ghost predicate Handling(e: Timer)
      reads this, sm, sm.tiles, sm.sectors, net, tm
    {
      && Holds(state.(timers := state.timers - multiset{e})) && Pops(state, e)
      && WellSpawned(realm) && Reachable(realm, state) && state.firing == {} && Synced()
    }

    lemma TimerTarget(e: Timer)
      requires Handling(e)
      ensures pop.IsMonster(e.target) && e.target in realm.spawn
      ensures e.kind == Respawn ==> e.target !in state.at
    {
      ReachableInv(realm, state);
      assert e.target in realm.spawn;
      if e.kind == Respawn {
        RespawnFindsNoAiTimer(realm, state, e);
      }
    }

    method Deactivate(m: ObjectId, ghost s: State)
      requires Holds(s) && pop.IsMonster(m)
      modifies this`pop
      ensures Holds(s.(active := s.active - {m}))
      ensures pop == old(pop).WithMonster(m, old(pop).GetMonster(m).(active := false))
    {
      var r := pop.GetMonster(m).(active := false);
      UpdateKeepsStanding(pop, sm.at, m, r);
      hide Standing, SectorManager.Valid;
      pop := pop.WithMonster(m, r);
    }

    method RegisterAi(m: ObjectId, ghost s: State)
      requires Holds(s)
      modifies tm
      ensures Holds(s.(timers := s.timers + multiset{Timer(s.clock + AI_TICK, Ai, m)}))
    {
      tm.AddTimer(Ai, m, clock, AI_TICK);
    }

    method RegisterRespawn(m: ObjectId, ghost s: State)
      requires Holds(s)
      modifies tm
      ensures Holds(s.(timers := s.timers + multiset{Timer(s.clock + RESPAWN_DELAY, Respawn, m)}))
    {
      tm.AddTimer(Respawn, m, clock, RESPAWN_DELAY);
    }

    method IsObserved(m: ObjectId, ghost s: State) returns (found: bool)
      requires Holds(s) && m in s.at && !IsPlayerId(m)
      ensures found <==> Observed(realm.t, s.at, m)
    {
      found := HasObserverNearby(sm, pop, m);
    }

    /** An AI timer: a dead monster ignores it, an unobserved one falls asleep, and an observed one has
        its turn and registers the next timer. */
    method HandleAi(e: Timer, d: int, canAttack: bool) returns (ghost steps: seq<World.Step>)
      requires Handling(e) && e.kind == Ai && 0 <= d < 4 && Room(realm.t, state.at, 4)
      modifies this`pop, this`state, sm, sm.tiles, sm.sectors, net, tm
      ensures Valid() && state.firing == {} && Ran(realm, old(state), steps, state)
      ensures steps != [] && old(pop).IsMonster(e.target)
      ensures AiHandled(realm.t, old(state.at), old(pop), e, d, canAttack, steps, pop)
      ensures e.target in old(state.at) && Observed(realm.t, old(state.at), e.target) ==>
        Timer(clock + 1_000, Ai, e.target) in tm.queue
    {
      hide Valid, Holds, Handling, Ran, Goes, Reachable, WellSpawned, Room, Pops, Observed, Turn, AiStep, Standings;
      ghost var s := state;
      ghost var s1 := s.(timers := s.timers - multiset{e});
      var m := e.target;
      WhileHandling(e);
      TimerTarget(e);
      MonsterStands(m, s1);
      AiFireGoes(realm, s, e);
      if pop.GetMonster(m).hp <= 0 {
        Commit(s, AiFire(e), s1);
        RanOne(realm, s, AiFire(e), s1);
        return [AiFire(e)];
      }
      var observed := IsObserved(m, s1);
      if !observed {
        Deactivate(m, s1);
        ghost var s2 := s1.(active := s1.active - {m});
        Commit(s, AiFire(e), s2);
        RanOne(realm, s, AiFire(e), s2);
        return [AiFire(e)];
      }
      ghost var s2 := s1.(firing := s1.firing + {m});
      ForgetHistory(s1, s2);
      Commit(s, AiFire(e), s2);
      RanOne(realm, s, AiFire(e), s2);
      ghost var turn := AITick(m, d, canAttack);
      ghost var s3 := state;
      RanOn(realm, s, [AiFire(e)], s2, turn, s3);
      FinishTurn(m);
      RanMore(realm, s, [AiFire(e)] + turn, s3, AiDone(m), state);
      steps := [AiFire(e)] + turn + [AiDone(m)];
    }

    /** The next AI timer is registered. */
    method FinishTurn(m: ObjectId)
      requires Valid() && m in state.firing
      modifies this`state, tm
      ensures Valid() && Goes(realm, old(state), AiDone(m), state) && state.firing == old(state.firing) - {m}
      ensures Timer(clock + 1_000, Ai, m) in tm.queue
    {
      hide Valid, Holds, Handling, Reachable, WellSpawned, Goes, Pops, NoneFree, Standings;
      ghost var s := state;
      InForce();
      RegisterAi(m, s);
      ghost var s' := s.(firing := s.firing - {m}, timers := s.timers + multiset{Timer(s.clock + AI_TICK, Ai, m)});
      ForgetHistory(s.(timers := s'.timers), s');
      AiDoneGoes(realm, s, m);
      Commit(s, AiDone(m), s');
      QueueAndClock(s');
    }

    lemma WhileHandling(e: Timer)
      requires Handling(e)
      ensures Holds(state.(timers := state.timers - multiset{e})) && Pops(state, e)
      ensures WellSpawned(realm) && Reachable(realm, state) && state.firing == {}
      ensures net.Own() == Standings(pop.players)
    {
    }

    /** A respawn timer: the monster reappears near its spawn, or tries again later. */
    method RespawnMonster(e: Timer) returns (ghost steps: seq<World.Step>)
      requires Handling(e) && e.kind == Respawn
      modifies this`pop, this`state, sm, sm.tiles, sm.sectors, net, tm
      ensures Valid() && state.firing == {} && Ran(realm, old(state), steps, state)
      ensures steps != [] && old(pop).IsMonster(e.target)
      ensures RespawnTurn(realm.t, state.at, old(pop), e, steps, pop)
      ensures steps == [RespawnRetry(e)] ==> Timer(clock + 30_000, Respawn, e.target) in tm.queue
      ensures steps != [RespawnRetry(e)] && Observed(realm.t, state.at, e.target) ==>
        Timer(clock + 1_000, Ai, e.target) in tm.queue
    {
      hide Valid, Holds, Displaced, Dying, Handling, Reachable, Goes, Ran, Room,
        Becomes, InSquare, SameMonsters, Standings, IsInt16, RespawnTurn, IsRenewed, FirstFree, NoneFree, Crowded,
        AfterMove, AfterEnter, AfterVanish, Wake, Relocate, Observed;
      ghost var s := state;
      ghost var s1 := s.(timers := s.timers - multiset{e});
      var m := e.target;
      WhileHandling(e);
      TimerTarget(e);
      MonsterStands(m, s1);
      var ok, p := Reappear(m, s1);
      if !ok {
        CrowdedIff(realm.t, s.at, realm.spawn[m]);
        TryAgainLater(e, s);
        RanOne(realm, s, RespawnRetry(e), state);
        TriesAgain(realm.t, state.at, pop, e);
        return [RespawnRetry(e)];
      }
      ghost var s2 := s1.(at := s1.at[m := p], active := s1.active - {m});
      BroadcastAddMonster(m, p, s2);
      ghost var mid := pop;
      WakeIfObserved(e, p, s);
      RanOne(realm, s, RespawnFire(e, p), state);
      FirstFreeIsNear(realm.t, s.at, realm.spawn[m], p);
      BackAsNew(realm.t, state.at, old(pop), e, p, mid, pop);
      steps := [RespawnFire(e, p)];
    }

    /** Another respawn timer is registered. */
    method TryAgainLater(e: Timer, ghost s: State)
      requires Holds(s.(timers := s.timers - multiset{e})) && Pops(s, e) && net.Own() == Standings(pop.players)
      requires e.kind == Respawn && e.target in realm.spawn && e.target !in s.at
      requires NoneFree(realm.t, s.at, realm.spawn[e.target], CLAIM_RADIUS)
      requires WellSpawned(realm) && Reachable(realm, s)
      modifies this`state, tm
      ensures Valid() && Goes(realm, s, RespawnRetry(e), state) && state.firing == s.firing && state.at == s.at
      ensures Timer(clock + 30_000, Respawn, e.target) in tm.queue
    {
      hide Valid, Holds, Handling, Reachable, WellSpawned, Goes, Pops, NoneFree, Standings;
      ghost var s1 := s.(timers := s.timers - multiset{e});
      RegisterRespawn(e.target, s1);
      RetryGoes(realm, s, e);
      ghost var s2 := s1.(timers := s1.timers + multiset{Timer(s1.clock + RESPAWN_DELAY, Respawn, e.target)});
      Commit(s, RespawnRetry(e), s2);
      QueueAndClock(s2);
    }

    /** A monster that has just reappeared starts to act if somebody is watching. */
    method WakeIfObserved(e: Timer, ghost p: Pos, ghost s: State)
      requires pop.IsMonster(e.target) && !IsPlayerId(e.target) && Holds(Reappeared(realm, s, e, p))
      requires WellSpawned(realm) && Reachable(realm, s) && e.kind == Respawn && Pops(s, e)
      requires e.target in realm.spawn && e.target !in s.at
      requires FirstFree(realm.t, s.at, realm.spawn[e.target], CLAIM_RADIUS, p)
      requires net.Own() == Standings(pop.players)
      modifies this`pop, this`state, tm
      ensures Valid() && Goes(realm, s, RespawnFire(e, p), state) && state.firing == s.firing
      ensures e.target in state.at && state.at[e.target] == p
      ensures pop == if Observed(realm.t, state.at, e.target)
        then old(pop).WithMonster(e.target, old(pop).GetMonster(e.target).(active := true)) else old(pop)
      ensures Observed(realm.t, state.at, e.target) ==> Timer(clock + 1_000, Ai, e.target) in tm.queue
    {
      hide Valid, Holds, Displaced, Dying, Handling, WellSpawned, Reachable, Goes, Ran, Room,
        FirstFree, NoneFree, AfterMove, AfterEnter, AfterVanish, Wake, Relocate, Observed;
      var m := e.target;
      ghost var s3 := Reappeared(realm, s, e, p);
      RespawnGoes(realm, s, e, p);
      var observed := IsObserved(m, s3);
      if observed {
        StartActing(m, s3);
        QueueAndClock(s3.(active := s3.active + {m}, timers := s3.timers + multiset{Timer(s3.clock + AI_TICK, Ai, m)}));
        Commit(s, RespawnFire(e, p),
          s3.(active := s3.active + {m}, timers := s3.timers + multiset{Timer(s3.clock + AI_TICK, Ai, m)}));
      } else {
        Commit(s, RespawnFire(e, p), s3);
      }
    }

    /** TryActivate and, as the flag was clear, the first AI timer. */
    method StartActing(m: ObjectId, ghost s: State)
      requires Holds(s) && pop.IsMonster(m)
      modifies this`pop, tm
      ensures Holds(s.(active := s.active + {m}, timers := s.timers + multiset{Timer(s.clock + AI_TICK, Ai, m)}))
      ensures pop == old(pop).WithMonster(m, old(pop).GetMonster(m).(active := true))
    {
      hide Valid, Holds, Displaced, Dying, Handling, WellSpawned, Reachable, Goes, Ran, Room,
        FirstFree, NoneFree, AfterMove, AfterEnter, AfterVanish, Wake, Relocate, Observed;
      SwitchOn(m, s);
      RegisterAi(m, s.(active := s.active + {m}));
    }

    method SwitchOn(m: ObjectId, ghost s: State)
      requires Holds(s) && pop.IsMonster(m)
      modifies this`pop
      ensures Holds(s.(active := s.active + {m}))
      ensures pop == old(pop).WithMonster(m, old(pop).GetMonster(m).(active := true))
    {
      var r := pop.GetMonster(m).(active := true);
      UpdateKeepsStanding(pop, sm.at, m, r);
      hide Standing, SectorManager.Valid;
      pop := pop.WithMonster(m, r);
    }

    /** Takes a tile near the spawn and resets the record. */
    method Reappear(m: ObjectId, ghost s: State) returns (ok: bool, p: Pos)
      requires Holds(s) && pop.IsMonster(m) && m in realm.spawn && m !in s.at
      requires IsInt16(realm.spawn[m].x) && IsInt16(realm.spawn[m].y)
      modifies this`pop, sm, sm.tiles, sm.sectors
      ensures ok <==> !NoneFree(realm.t, s.at, realm.spawn[m], CLAIM_RADIUS)
      ensures !ok ==> Holds(s) && pop == old(pop)
      ensures ok ==> pop.IsMonster(m) && pop == old(pop).WithMonster(m, pop.GetMonster(m))
      ensures ok ==> IsRenewed(old(pop).GetMonster(m), p, false, pop.GetMonster(m))
      ensures ok ==> FirstFree(realm.t, s.at, realm.spawn[m], CLAIM_RADIUS, p)
      ensures ok ==> pop.IsMonster(m) && Holds(s.(at := s.at[m := p], active := s.active - {m}))
    {
      ok, p := sm.AddObject(m, pop.GetMonster(m).spawn);
      if ok {
        AllButOne(pop, s.at, m);
        var r := pop.GetMonster(m);
        r := r.(hp := r.maxHp, pos := p, target := NoTarget, active := false);
        MonsterPut(pop, s.at, m, r);
        pop := pop.WithMonster(m, r);
      }
    }

    method HandleTimerEvent(e: Timer, d: int, canAttack: bool) returns (ghost steps: seq<World.Step>)
      requires Handling(e) && 0 <= d < 4 && Room(realm.t, state.at, 4)
      modifies this`pop, this`state, sm, sm.tiles, sm.sectors, net, tm
      ensures Valid() && state.firing == {} && Ran(realm, old(state), steps, state)
      ensures steps != []
      ensures old(pop).IsMonster(e.target)
      ensures match e.kind
        case Ai => AiHandled(realm.t, old(state.at), old(pop), e, d, canAttack, steps, pop)
        case Respawn => RespawnTurn(realm.t, state.at, old(pop), e, steps, pop)
    {
      hide Valid, Holds, Displaced, Dying, Handling, WellSpawned, Reachable, Goes, Ran, Room,
        FirstFree, NoneFree, AfterMove, AfterEnter, AfterVanish, Wake, Relocate, Observed;
      match e.kind {
        case Ai => steps := HandleAi(e, d, canAttack);
        case Respawn => steps := RespawnMonster(e);
      }
    }

    /** One pass of the timer thread at time `now`: if an event is due, an earliest one, `e`, is handled. */
    method RunTimer(now: int, d: int, canAttack: bool) returns (due: bool, e: Timer, ghost steps: seq<World.Step>)
      requires Valid() && state.firing == {} && clock <= now && 0 <= d < 4 && Room(realm.t, state.at, 4)
      modifies this, sm, sm.tiles, sm.sectors, net, tm
      ensures Valid() && state.firing == {} && Ran(realm, old(state), [Tick(now)] + steps, state) && clock == now
      ensures due <==> exists x :: x in old(state).timers && x.due <= now
      ensures !due ==> steps == [] && pop == old(pop)
      ensures due ==> Pops(old(state).(clock := now), e) && old(pop).IsMonster(e.target)
      ensures due && e.kind == Ai ==> AiHandled(realm.t, old(state.at), old(pop), e, d, canAttack, steps, pop)
      ensures due && e.kind == Respawn ==> RespawnTurn(realm.t, state.at, old(pop), e, steps, pop)
    {
      hide Valid, Holds, Displaced, Dying, Handling, WellSpawned, Reachable, Goes, Ran, Room,
        FirstFree, NoneFree, AfterMove, AfterEnter, AfterVanish, Wake, Relocate, Observed,
        AiHandled, RespawnTurn, Pops;
      ghost var s := state;
      InForce();
      PassTime(now, s);
      ghost var s1 := s.(clock := now);
      RanOne(realm, s, Tick(now), s1);
      steps := [];
      due, e := NextTimer(now);
      if due {
        WhileHandling(e);
        steps := HandleTimerEvent(e, d, canAttack);
        RanOn(realm, s, [Tick(now)], s1, steps, state);
      } else {
        assert [Tick(now)] + steps == [Tick(now)];
      }
    }

    method PassTime(now: int, ghost s: State)
      requires Holds(s) && WellSpawned(realm) && Reachable(realm, s) && clock <= now
      requires net.Own() == Standings(pop.players)
      modifies this`clock, this`state
      ensures Valid() && state == s.(clock := now) && Goes(realm, s, Tick(now), state) && clock == now
    {
      clock := now;
      Commit(s, Tick(now), s.(clock := now));
    }

    method NextTimer(now: int) returns (due: bool, e: Timer)
      requires Valid() && clock == now && state.firing == {}
      modifies tm
      ensures if due then Handling(e) else Valid()
      ensures due <==> exists x :: x in state.timers && x.due <= now
    {
      hide SectorManager.Valid, Standing, Flagged, Homes, WellSpawned, Reachable;
      due, e := tm.Next(now);
    }
  }

  /** From end to end: a client that has received everything sent to it shows the world as the server
      has it. Exactly so, unless its player has died; and nothing in view is ever missing or misplaced. */
  method Replay(world: GameWorld, id: ObjectId) returns (client: GameState)
    requires world.Valid() && id in world.pop.players
    ensures id !in world.state.fallen ==> client.objects == View(world.realm.t, world.sm.at, id)
    ensures forall o :: o in world.sm.at && o != id && InSquare(world.sm.at[id], world.sm.at[o], world.sm.t.view) ==>
      o in client.objects && world.pop.Has(o) && client.objects[o] == world.pop.PosOf(o)
    ensures client.myPos == world.pop.players[id].pos
  {
    world.PlayerStands(id, world.state);
    ClientsShowTheirView(world.realm, world.state, id);
    client := new GameState(id, world.net.sent[id].welcome);
    client.OnPackets(world.net.sent[id].packets);
  }
}
