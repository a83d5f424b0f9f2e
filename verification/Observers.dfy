/** What the handlers ask the sector index: who can see a monster, which player is nearest, and
    which monsters a player wakes up. Each answer is the one a scan of all objects would give. */
module Observers {
  import opened Grid
  import opened Sectors
  import opened World
  import opened Creatures
  import opened Timers
  import opened ViewProcessor

  const INT_MAX: int := 0x7FFF_FFFF

  /** Whether any player has the monster in view. */
  method HasObserverNearby(sm: SectorManager, pop: Population, m: ObjectId) returns (found: bool)
    requires sm.Valid() && Standing(pop, sm.at) && m in sm.at && !IsPlayerId(m)
    ensures found <==> Observed(sm.t, sm.at, m)
    ensures found <==> exists p :: p in sm.at && IsPlayerId(p) && InSquare(sm.at[m], sm.at[p], sm.t.view)
  {
    var c := pop.PosOf(m);
    var ids := sm.GetNearbyObjects(c);
    NearbyHoldsView(sm.t, sm.at, m, c, ids);
    forall p | p in sm.at && IsPlayerId(p) && sm.t.InView(sm.at[p], c) ensures p in ids {
      assert p in ViewSet(sm.t, sm.at, m, c);
    }
    for i := 0 to |ids|
      invariant forall k :: 0 <= k < i && IsPlayerId(ids[k]) ==> !sm.t.InView(sm.at[ids[k]], c)
    {
      var id := ids[i];
      assert id in ids;
      if IsPlayerId(id) && id in pop.players && sm.t.InView(pop.players[id].pos, c) {
        return true;
      }
    }
    return false;
  }

  function DistSq(a: Pos, b: Pos): int {
    (a.x - b.x) * (a.x - b.x) + (a.y - b.y) * (a.y - b.y)
  }

  /** A live player within `range` of `c`. */
  ghost predicate InRange(pop: Population, c: Pos, range: nat, p: ObjectId) {
    p in pop.players && pop.players[p].hp > 0 && InSquare(c, pop.players[p].pos, range)
  }

  ghost predicate Nearest(pop: Population, c: Pos, range: nat, n: ObjectId) {
    && InRange(pop, c, range, n)
    && forall p :: InRange(pop, c, range, p) ==> NoFarther(c, pop.players[n].pos, pop.players[p].pos)
  }

  /** `a` is at most as far from `c` as `b`, as the crow flies. */
  ghost predicate NoFarther(c: Pos, a: Pos, b: Pos) {
    (a.x - c.x) * (a.x - c.x) + (a.y - c.y) * (a.y - c.y) <= (b.x - c.x) * (b.x - c.x) + (b.y - c.y) * (b.y - c.y)
  }

  /** The nearest live player in range among the given ids. */
  ghost predicate NearestOf(pop: Population, c: Pos, range: nat, ids: seq<ObjectId>, nearest: Target, distSq: int) {
    if nearest.NoTarget? then
      distSq == INT_MAX && forall id :: id in ids ==> !InRange(pop, c, range, id)
    else
      && InRange(pop, c, range, nearest.player) && distSq == DistSq(pop.players[nearest.player].pos, c)
      && forall id :: id in ids && InRange(pop, c, range, id) ==> distSq <= DistSq(pop.players[id].pos, c)
  }

  lemma SquareBound(n: int, b: nat)
    requires Abs(n) <= b
    ensures n * n <= b * b
  {
    ProductMonotone(Abs(n), b, Abs(n));
    ProductMonotone(Abs(n), b, b);
    assert n * n == Abs(n) * Abs(n);
  }

  /** No two tiles of the map are so far apart that the initial minimum would hide one. */
  lemma DistSqFits(t: Terrain, a: Pos, b: Pos)
    requires t.InMap(a) && t.InMap(b)
    ensures DistSq(a, b) < INT_MAX
  {
    SquareBound(a.x - b.x, 0x8000 - CLAIM_RADIUS);
    SquareBound(a.y - b.y, 0x8000 - CLAIM_RADIUS);
  }

  /** The nearest live player within `range` in the nine sectors around; if the range is at most one
      sector, the nearest of all players. */
  method FindNearestPlayerInRange(sm: SectorManager, pop: Population, c: Pos, range: nat) returns (nearest: Target)
    requires sm.Valid() && Standing(pop, sm.at) && sm.t.InMap(c)
    ensures nearest.NoTarget? ==> forall p :: InRange(pop, c, range, p) ==> !SectorsTouch(sm.t, c, pop.players[p].pos)
    ensures nearest.Chasing? ==> InRange(pop, c, range, nearest.player)
    ensures nearest.Chasing? ==> forall p :: InRange(pop, c, range, p) && SectorsTouch(sm.t, c, pop.players[p].pos) ==>
      NoFarther(c, pop.players[nearest.player].pos, pop.players[p].pos)
    ensures range <= sm.t.sector && nearest.NoTarget? ==> forall p :: !InRange(pop, c, range, p)
    ensures range <= sm.t.sector && nearest.Chasing? ==> Nearest(pop, c, range, nearest.player)
  {
    var ids := sm.GetNearbyObjects(c);
    nearest := NoTarget;
    var minDistSq := INT_MAX;
    for i := 0 to |ids|
      invariant NearestOf(pop, c, range, ids[..i], nearest, minDistSq)
    {
      var id := ids[i];
      assert ids[..i + 1] == ids[..i] + [id] && id in ids;
      if !IsPlayerId(id) || id !in pop.players || pop.players[id].hp <= 0 {
        assert !InRange(pop, c, range, id);
        continue;
      }
      var p := pop.players[id].pos;
      if Chebyshev(p, c) > range {
        continue;
      }
      DistSqFits(sm.t, p, c);
      var distSq := DistSq(p, c);
      if distSq < minDistSq {
        minDistSq := distSq;
        nearest := Chasing(id);
      }
    }
    assert ids[..|ids|] == ids;
    forall p | InRange(pop, c, range, p) && range <= sm.t.sector ensures SectorsTouch(sm.t, c, pop.players[p].pos) {
      WithinSectorSizeTouches(sm.t, c, pop.players[p].pos);
    }
  }

  // --------------------------------------------------------------- activation

  /** The state with some monsters switched on and their timers registered. */
  function WakeSome(s: State, ms: set<ObjectId>): State {
    s.(active := s.active + ms, timers := s.timers + AiTimers(ms, s.clock + AI_TICK))
  }

  lemma AiTimersOneMore(ms: set<ObjectId>, due: int, m: ObjectId)
    requires m !in ms
    ensures AiTimers(ms + {m}, due) == AiTimers(ms, due) + multiset{Timer(due, Ai, m)}
  {
    forall e ensures AiTimers(ms + {m}, due)[e] == (AiTimers(ms, due) + multiset{Timer(due, Ai, m)})[e] {
      AiTimersCount(ms + {m}, due, e);
      AiTimersCount(ms, due, e);
    }
  }

  /** One step of waking everybody in view. */
  lemma WakeNext(s: State, ids: seq<ObjectId>, i: nat, woken: set<ObjectId>)
    requires NoDuplicates(ids) && i < |ids|
    ensures var r, r' := WakeSome(s, Prefix(ids, i) * woken), WakeSome(s, Prefix(ids, i + 1) * woken);
      && (ids[i] in r.active <==> ids[i] in s.active)
      && (ids[i] in woken ==>
            r'.active == r.active + {ids[i]} && r'.timers == r.timers + multiset{Timer(s.clock + AI_TICK, Ai, ids[i])})
      && (ids[i] !in woken ==> r'.active == r.active && r'.timers == r.timers)
  {
    var done := Prefix(ids, i) * woken;
    PrefixStep(ids, i, woken);
    if ids[i] in woken {
      AiTimersOneMore(done, s.clock + AI_TICK, ids[i]);
      hide Prefix, AiTimers;
      assert s.active + (done + {ids[i]}) == s.active + done + {ids[i]};
    }
  }

  lemma WakeStart(s: State, ids: seq<ObjectId>, woken: set<ObjectId>)
    ensures WakeSome(s, Prefix(ids, 0) * woken) == s
  {
    var none := Prefix(ids, 0) * woken;
    assert none == {};
    assert AiTimers(none, s.clock + AI_TICK) == multiset{};
  }

  /** The activation flags of the records are those of the state. */
  ghost predicate Flagged(pop: Population, active: set<ObjectId>) {
    forall m :: m in active <==> pop.IsMonster(m) && pop.GetMonster(m).active
  }

  /** Apart from the activation flag the monsters are the same. */
  ghost predicate SameMonsters(a: seq<Monster>, b: seq<Monster>) {
    && |a| == |b|
    && forall i :: 0 <= i < |a| ==> a[i] == b[i].(active := a[i].active)
  }

  lemma SameMonstersTransitive(a: seq<Monster>, b: seq<Monster>, c: seq<Monster>)
    requires SameMonsters(a, b) && SameMonsters(b, c)
    ensures SameMonsters(a, c)
  {
  }

  ghost predicate SameButFlags(a: Population, b: Population) {
    a.players == b.players && SameMonsters(a.monsters, b.monsters)
  }

  lemma SameButFlagsStanding(a: Population, b: Population, at: map<ObjectId, Pos>)
    requires SameButFlags(a, b) && Standing(b, at)
    ensures Standing(a, at)
  {
    forall m | a.IsMonster(m) ensures b.IsMonster(m) && SamePlace(a.GetMonster(m), b.GetMonster(m)) {
    }
  }

  lemma ActivateOne(pop: Population, pop0: Population, active: set<ObjectId>, m: ObjectId)
    requires SameButFlags(pop, pop0) && Flagged(pop, active) && pop.IsMonster(m)
    ensures var pop' := pop.WithMonster(m, pop.GetMonster(m).(active := true));
      SameButFlags(pop', pop0) && Flagged(pop', active + {m})
  {
  }

  /** Wakes every sleeping live monster that a player at `c` has in view. */
  method ActivateNearbyMonsters(sm: SectorManager, tm: TimerManager, pop: Population, clock: int, c: Pos, ghost s: State)
    returns (pop': Population)
    requires sm.Valid() && Standing(pop, sm.at) && sm.t.InMap(c)
    requires s.at == sm.at && s.timers == tm.queue && s.clock == clock && Flagged(pop, s.active)
    modifies tm
    ensures SameButFlags(pop', pop) && Standing(pop', sm.at)
    ensures Flagged(pop', Wake(sm.t, s, c).active) && tm.queue == Wake(sm.t, s, c).timers
    ensures forall m :: pop.IsMonster(m) && m in sm.at && InSquare(c, sm.at[m], sm.t.view) ==>
      pop'.IsMonster(m) && pop'.GetMonster(m).active && (!pop.GetMonster(m).active ==> Timer(clock + 1000, Ai, m) in tm.queue)
  {
    hide *;
    var ids := sm.GetNearbyObjects(c);
    WokenIsNearby(sm.t, s, c, ids);
    forall i | 0 <= i < |ids| ensures ids[i] in sm.at {
      assert ids[i] in ids;
    }
    pop' := ActivateAll(sm, tm, pop, clock, c, ids, s);
    SameButFlagsStanding(pop', pop, sm.at);
    AllWoken(sm.t, s, c, ids, pop', tm.queue);
    InViewMonstersAct(sm.t, s, c, pop, pop', tm.queue);
  }

  lemma AllWoken(t: Terrain, s: State, c: Pos, ids: seq<ObjectId>, pop: Population, queue: multiset<Timer>)
    requires WokenUpTo(t, s, c, ids, |ids|, pop, queue) && forall m :: m in Woken(t, s, c) ==> m in ids
    ensures Flagged(pop, Wake(t, s, c).active) && queue == Wake(t, s, c).timers
  {
    PrefixAll(ids, Woken(t, s, c));
  }

  /** In coordinates: whoever is in the view square acts, and those that slept have a timer a second ahead. */
  lemma InViewMonstersAct(t: Terrain, s: State, c: Pos, pop: Population, pop': Population, queue: multiset<Timer>)
    requires Flagged(pop, s.active) && Flagged(pop', Wake(t, s, c).active) && queue == Wake(t, s, c).timers
    ensures forall m :: pop.IsMonster(m) && m in s.at && InSquare(c, s.at[m], t.view) ==>
      pop'.IsMonster(m) && pop'.GetMonster(m).active && (!pop.GetMonster(m).active ==> Timer(s.clock + 1000, Ai, m) in queue)
  {
    forall m | pop.IsMonster(m) && m in s.at && InSquare(c, s.at[m], t.view)
      ensures m in Wake(t, s, c).active && (!pop.GetMonster(m).active ==> Timer(s.clock + 1000, Ai, m) in queue)
    {
      AiTimersCount(Woken(t, s, c), s.clock + AI_TICK, Timer(s.clock + 1000, Ai, m));
    }
  }

  /** The records and the queue are as the first `i` ids leave them. */
  ghost predicate WokenUpTo(t: Terrain, s: State, c: Pos, ids: seq<ObjectId>, i: nat, pop: Population, queue: multiset<Timer>)
    requires i <= |ids|
  {
    var r := WakeSome(s, Prefix(ids, i) * Woken(t, s, c));
    Flagged(pop, r.active) && queue == r.timers
  }

  lemma NobodyWokenYet(t: Terrain, s: State, c: Pos, ids: seq<ObjectId>, pop: Population)
    requires Flagged(pop, s.active)
    ensures WokenUpTo(t, s, c, ids, 0, pop, s.timers) && SameButFlags(pop, pop)
  {
    WakeStart(s, ids, Woken(t, s, c));
  }

  method ActivateAll(sm: SectorManager, tm: TimerManager, pop: Population, clock: int, c: Pos, ids: seq<ObjectId>,
                     ghost s: State) returns (pop': Population)
    requires Standing(pop, sm.at) && NoDuplicates(ids) && forall i :: 0 <= i < |ids| ==> ids[i] in sm.at
    requires s.at == sm.at && s.timers == tm.queue && s.clock == clock && Flagged(pop, s.active)
    modifies tm
    ensures SameButFlags(pop', pop)
    ensures WokenUpTo(sm.t, s, c, ids, |ids|, pop', tm.queue)
  {
    hide *;
    NobodyWokenYet(sm.t, s, c, ids, pop);
    pop' := pop;
    for i := 0 to |ids|
      invariant SameButFlags(pop', pop)
      invariant WokenUpTo(sm.t, s, c, ids, i, pop', tm.queue)
    {
      pop' := ActivateNext(sm, tm, pop', clock, c, ids, i, s, pop);
    }
  }

  method ActivateNext(sm: SectorManager, tm: TimerManager, pop: Population, clock: int, c: Pos, ids: seq<ObjectId>, i: nat,
                      ghost s: State, ghost pop0: Population) returns (pop': Population)
    requires i < |ids| && NoDuplicates(ids) && ids[i] in sm.at
    requires SameButFlags(pop, pop0) && Standing(pop0, sm.at)
    requires s.at == sm.at && s.clock == clock && WokenUpTo(sm.t, s, c, ids, i, pop, tm.queue)
    modifies tm
    ensures SameButFlags(pop', pop0)
    ensures WokenUpTo(sm.t, s, c, ids, i + 1, pop', tm.queue)
  {
    hide Standing, SameButFlags, SameMonsters, Flagged, NoDuplicates, Prefix, WakeSome, Woken;
    ghost var woken := Woken(sm.t, s, c);
    WakeNext(s, ids, i, woken);
    SameButFlagsStanding(pop, pop0, sm.at);
    pop' := ActivateMonster(sm, tm, pop, clock, c, ids[i], s, WakeSome(s, Prefix(ids, i) * woken), pop0);
  }

  /** One object near the player: switched on and scheduled if it is a live, sleeping monster in view. */
  method ActivateMonster(sm: SectorManager, tm: TimerManager, pop: Population, clock: int, c: Pos, id: ObjectId,
                         ghost s: State, ghost r: State, ghost pop0: Population) returns (pop': Population)
    requires Standing(pop, sm.at) && s.at == sm.at && id in s.at && SameButFlags(pop, pop0)
    requires r.timers == tm.queue && Flagged(pop, r.active) && (id in r.active <==> id in s.active)
    modifies tm
    ensures SameButFlags(pop', pop0)
    ensures id in Woken(sm.t, s, c) ==>
      Flagged(pop', r.active + {id}) && tm.queue == r.timers + multiset{Timer(clock + AI_TICK, Ai, id)}
    ensures id !in Woken(sm.t, s, c) ==> Flagged(pop', r.active) && tm.queue == r.timers
  {
    pop' := pop;
    if IsPlayerId(id) {
      return;
    }
    var m := pop.GetMonster(id);
    if m.hp > 0 && sm.t.InView(c, m.pos) && !m.active {
      ActivateOne(pop, pop0, r.active, id);
      pop' := pop.WithMonster(id, m.(active := true));
      tm.AddTimer(Ai, id, clock, AI_TICK);
    }
  }

  lemma WokenIsNearby(t: Terrain, s: State, c: Pos, ids: seq<ObjectId>)
    requires forall id :: id in ids <==> id in s.at && SectorsTouch(t, c, s.at[id])
    ensures forall m :: m in Woken(t, s, c) ==> m in ids
  {
    forall m | m in Woken(t, s, c) ensures SectorsTouch(t, c, s.at[m]) {
      WithinSectorSizeTouches(t, c, s.at[m]);
    }
  }
}
