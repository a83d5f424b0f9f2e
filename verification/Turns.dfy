/** What blows do to the records, and what a monster's turn can be. */
module Turns {
  import opened Grid
  import opened Sectors
  import opened World
  import opened Creatures
  import opened Leveling
  import opened Observers
  import opened Pathfinder

  /** `b` is player `a` after its death: full health, at the place of rebirth, with part of its experience. */
  ghost predicate IsRisen(a: Avatar, p: Pos, b: Avatar) {
    && b.pos == p && b.hp == b.maxHp == a.maxHp && b.level == a.level
    && a.exp >= 0 && b.exp == ExpAfterDeath(a.exp) && (a.exp <= 0x100_0000 ==> b.exp == a.exp / 2)
  }

  /** `p` is one of the first `i` tiles around `c`, in the order up, down, left, right. */
  ghost predicate IsSide(c: Pos, p: Pos, i: int) {
    exists d :: 0 <= d < i && d < 4 && Grid.Step(c, d) == p
  }

  /** The four tiles are the adjacent ones. */
  lemma SidesAreAdjacent(c: Pos, p: Pos)
    ensures IsSide(c, p, 4) <==> Adjacent(c, p)
    ensures IsSide(c, p, 4) <==> NextTo(c, p)
  {
    if Adjacent(c, p) {
      var d := AdjacentIsStep(c, p);
    }
  }

  /** The next of the four tiles is a new one. */
  lemma NextSide(c: Pos, p: Pos, d: int)
    requires 0 <= d < 4
    ensures IsSide(c, p, d + 1) <==> IsSide(c, p, d) || p == Grid.Step(c, d)
    ensures !IsSide(c, Grid.Step(c, d), d)
  {
  }

  /** Every monster that stood on one of the first `i` tiles around `c` has taken the blow, and the
      other records are as they were. */
  ghost predicate StruckAround(pop: Population, pop0: Population, at0: map<ObjectId, Pos>, c: Pos, damage: nat, i: int) {
    && |pop.monsters| == |pop0.monsters|
    && forall m :: pop0.IsMonster(m) ==>
      pop.GetMonster(m) == (
        if m in at0 && IsSide(c, at0[m], i) then Struck(pop0.GetMonster(m), damage) else pop0.GetMonster(m))
  }

  /** After an attack, in coordinates: the monsters next to `c` have lost `damage` points, down to 0 at
      most, and nothing else about any monster has changed. */
  ghost predicate StruckNextTo(pop: Population, pop0: Population, at0: map<ObjectId, Pos>, c: Pos, damage: nat) {
    && |pop.monsters| == |pop0.monsters|
    && forall m :: pop0.IsMonster(m) ==>
      pop.GetMonster(m) == (
        var r := pop0.GetMonster(m);
        if m in at0 && NextTo(c, at0[m]) then r.(hp := if damage < r.hp then r.hp - damage else 0) else r)
  }

  lemma StruckOnAllSides(pop: Population, pop0: Population, at0: map<ObjectId, Pos>, c: Pos, damage: nat)
    requires StruckAround(pop, pop0, at0, c, damage, 4)
    ensures StruckNextTo(pop, pop0, at0, c, damage)
  {
    forall m | pop0.IsMonster(m) && m in at0 ensures IsSide(c, at0[m], 4) <==> NextTo(c, at0[m]) {
      SidesAreAdjacent(c, at0[m]);
    }
  }

  /** The players' records do not matter here. */
  lemma AwardKeepsStruck(pop: Population, pop0: Population, at0: map<ObjectId, Pos>, c: Pos, damage: nat, i: int,
                         id: ObjectId, a: Avatar)
    requires StruckAround(pop, pop0, at0, c, damage, i)
    ensures StruckAround(pop.WithPlayer(id, a), pop0, at0, c, damage, i)
  {
    forall m | pop0.IsMonster(m) ensures pop.WithPlayer(id, a).GetMonster(m) == pop.GetMonster(m) {
    }
  }

  /** Everybody who is left is where it was, and no player is gone. */
  ghost predicate Remain(at0: map<ObjectId, Pos>, at: map<ObjectId, Pos>) {
    && (forall o :: o in at ==> o in at0 && at[o] == at0[o])
    && (forall o :: o in at0 && IsPlayerId(o) ==> o in at)
  }

  /** If no monster stood on the next tile, it is done already. */
  lemma SidesSoFar(pop: Population, pop0: Population, at0: map<ObjectId, Pos>, c: Pos, damage: nat, d: int)
    requires 0 <= d < 4 && StruckAround(pop, pop0, at0, c, damage, d)
    requires forall m :: pop0.IsMonster(m) && m in at0 ==> at0[m] != Grid.Step(c, d)
    ensures StruckAround(pop, pop0, at0, c, damage, d + 1)
  {
    forall m | pop0.IsMonster(m) && m in at0 ensures IsSide(c, at0[m], d + 1) <==> IsSide(c, at0[m], d) {
      NextSide(c, at0[m], d);
    }
  }

  /** The monster on the next tile takes the blow. */
  lemma OneMoreStruck(pop: Population, pop0: Population, at0: map<ObjectId, Pos>, at: map<ObjectId, Pos>,
                      c: Pos, damage: nat, d: int, m: ObjectId)
    requires 0 <= d < 4 && StruckAround(pop, pop0, at0, c, damage, d) && Remain(at0, at) && Exclusive(at0)
    requires pop.IsMonster(m) && !IsPlayerId(m) && m in at && at[m] == Grid.Step(c, d)
    ensures StruckAround(pop.WithMonster(m, Struck(pop.GetMonster(m), damage)), pop0, at0, c, damage, d + 1)
    ensures pop0.IsMonster(m) && pop.GetMonster(m) == pop0.GetMonster(m)
    ensures Remain(at0, at - {m})
  {
    forall o | pop0.IsMonster(o) && o in at0
      ensures IsSide(c, at0[o], d + 1) <==> IsSide(c, at0[o], d) || o == m
    {
      NextSide(c, at0[o], d);
    }
    NextSide(c, at0[m], d);
  }

  /** What a monster's blow makes of a player; the dead are left alone. */
  ghost predicate Bitten(a: Avatar, damage: nat, b: Avatar) {
    if a.hp <= 0 then b == a
    else if a.hp > damage then b == a.(hp := a.hp - damage)
    else IsRisen(a, b.pos, b)
  }

  function Wounded(a: Avatar, damage: nat): Avatar {
    a.(hp := Hurt(a.hp, damage))
  }

  /** The players in `victims` have been bitten, the others are as they were. */
  ghost predicate AllBitten(before: map<ObjectId, Avatar>, victims: seq<ObjectId>, damage: nat, after: map<ObjectId, Avatar>) {
    && after.Keys == before.Keys
    && forall v :: v in before ==> if v in victims then Bitten(before[v], damage, after[v]) else after[v] == before[v]
  }

  lemma OneMoreBitten(before: map<ObjectId, Avatar>, victims: seq<ObjectId>, i: nat, damage: nat,
                      mid: map<ObjectId, Avatar>, after: map<ObjectId, Avatar>)
    requires i < |victims| && NoDuplicates(victims) && victims[i] in before
    requires AllBitten(before, victims[..i], damage, mid) && mid.Keys == before.Keys == after.Keys
    requires after == mid[victims[i] := after[victims[i]]] && Bitten(mid[victims[i]], damage, after[victims[i]])
    ensures AllBitten(before, victims[..i + 1], damage, after)
  {
    assert victims[..i + 1] == victims[..i] + [victims[i]];
    assert victims[i] !in victims[..i];
  }

  /** A live player on one of the first `i` tiles around `c`. */
  ghost predicate Beside(pop: Population, c: Pos, i: int, v: ObjectId) {
    v in pop.players && pop.players[v].hp > 0 && IsSide(c, pop.players[v].pos, i)
  }

  ghost predicate Occupies(at: map<ObjectId, Pos>, o: ObjectId, c: Pos) {
    if o == INVALID_ID then forall x :: x in at ==> at[x] != c else o in at && at[o] == c
  }

  /** One more of the four tiles holds at most one more victim. */
  lemma NextVictim(pop: Population, at: map<ObjectId, Pos>, c: Pos, d: int, o: ObjectId)
    requires 0 <= d < 4 && Standing(pop, at) && Exclusive(at) && Occupies(at, o, Grid.Step(c, d))
    ensures forall v ::
      Beside(pop, c, d + 1, v) <==> Beside(pop, c, d, v) || (v == o && o in pop.players && pop.players[o].hp > 0)
    ensures !Beside(pop, c, d, o)
  {
    forall v | v in pop.players
      ensures IsSide(c, pop.players[v].pos, d + 1) <==> IsSide(c, pop.players[v].pos, d) || v == o
    {
      NextSide(c, pop.players[v].pos, d);
      assert v in at && pop.PosOf(v) == at[v];
    }
    NextSide(c, Grid.Step(c, d), d);
  }

  lemma AllVictims(pop: Population, c: Pos)
    ensures forall v :: Beside(pop, c, 4, v) <==> IsVictim(pop, c, v)
  {
    forall v | v in pop.players ensures IsSide(c, pop.players[v].pos, 4) <==> NextTo(c, pop.players[v].pos) {
      SidesAreAdjacent(c, pop.players[v].pos);
    }
  }

  /** A tile next to the prey that the hunter could stand on. */
  ghost predicate OpenSide(t: Terrain, at: map<ObjectId, Pos>, m: ObjectId, prey: Pos, i: int, g: Pos) {
    IsSide(prey, g, i) && Free(t, at - {m}, g)
  }

  /** Every open side that comes before `goal` in the order up, down, left, right is farther away from `c`. */
  ghost predicate EarlierIsFarther(t: Terrain, at: map<ObjectId, Pos>, m: ObjectId, c: Pos, prey: Pos, i: int, goal: Pos, dist: int) {
    forall g, j :: 0 <= j <= i && OpenSide(t, at, m, prey, j, g) && !IsSide(prey, goal, j) ==> dist < Manhattan(g, c)
  }

  /** The open side nearest to `c`, the first such in the order up, down, left, right, or the prey's own
      tile if there is none. */
  ghost predicate BestSide(t: Terrain, at: map<ObjectId, Pos>, m: ObjectId, c: Pos, prey: Pos, i: int, goal: Pos, dist: int) {
    if dist == INT_MAX then goal == prey && forall g :: !OpenSide(t, at, m, prey, i, g)
    else
      && OpenSide(t, at, m, prey, i, goal) && dist == Manhattan(goal, c)
      && (forall g :: OpenSide(t, at, m, prey, i, g) ==> dist <= Manhattan(g, c))
      && EarlierIsFarther(t, at, m, c, prey, i, goal, dist)
  }

  /** Whether the next tile is open, seen from its occupant. */
  lemma NextOpen(t: Terrain, at: map<ObjectId, Pos>, m: ObjectId, prey: Pos, d: int, o: ObjectId)
    requires 0 <= d < 4 && Exclusive(at) && Occupies(at, o, Grid.Step(prey, d))
    ensures forall g :: OpenSide(t, at, m, prey, d + 1, g) <==> (
        OpenSide(t, at, m, prey, d, g)
        || (g == Grid.Step(prey, d) && t.Walkable(g) && (o == INVALID_ID || o == m)))
  {
    var here := Grid.Step(prey, d);
    forall g ensures IsSide(prey, g, d + 1) <==> IsSide(prey, g, d) || g == here {
      NextSide(prey, g, d);
    }
    if o == m && o != INVALID_ID {
      assert Free(t, at - {m}, here) <==> t.Walkable(here);
    } else if o == INVALID_ID {
      assert Free(t, at - {m}, here) <==> t.Walkable(here);
    } else {
      assert o in at - {m};
    }
  }

  lemma ManhattanFits(t: Terrain, a: Pos, b: Pos)
    requires t.InMap(a) && t.InMap(b)
    ensures Manhattan(a, b) < INT_MAX
  {
  }

  /** The next tile replaces the best one so far if it is open and strictly nearer. */
  lemma NextSideIsBest(t: Terrain, at: map<ObjectId, Pos>, m: ObjectId, c: Pos, prey: Pos, d: int, goal: Pos, dist: int, o: ObjectId)
    requires 0 <= d < 4 && Exclusive(at) && Occupies(at, o, Grid.Step(prey, d)) && t.InMap(c)
    requires BestSide(t, at, m, c, prey, d, goal, dist)
    ensures var g := Grid.Step(prey, d);
      if t.Walkable(g) && (o == INVALID_ID || o == m) && Manhattan(g, c) < dist
      then BestSide(t, at, m, c, prey, d + 1, g, Manhattan(g, c))
      else BestSide(t, at, m, c, prey, d + 1, goal, dist)
  {
    NextOpen(t, at, m, prey, d, o);
    var g := Grid.Step(prey, d);
    if t.Walkable(g) {
      ManhattanFits(t, g, c);
    }
    if t.Walkable(g) && (o == INVALID_ID || o == m) && Manhattan(g, c) < dist {
      NewBestIsEarliest(t, at, m, c, prey, d, goal, dist);
    } else if dist != INT_MAX {
      OldBestStaysEarliest(t, at, m, c, prey, d, goal, dist);
    }
    hide OpenSide, Manhattan, Exclusive, Occupies, EarlierIsFarther;
  }

  lemma NewBestIsEarliest(t: Terrain, at: map<ObjectId, Pos>, m: ObjectId, c: Pos, prey: Pos, d: int, goal: Pos, dist: int)
    requires 0 <= d < 4 && BestSide(t, at, m, c, prey, d, goal, dist) && Manhattan(Grid.Step(prey, d), c) < dist
    ensures var g := Grid.Step(prey, d); EarlierIsFarther(t, at, m, c, prey, d + 1, g, Manhattan(g, c))
  {
    forall g, j | 0 <= j <= d && OpenSide(t, at, m, prey, j, g) ensures OpenSide(t, at, m, prey, d, g) {
    }
    NextSide(prey, Grid.Step(prey, d), d);
    hide Manhattan;
  }

  lemma OldBestStaysEarliest(t: Terrain, at: map<ObjectId, Pos>, m: ObjectId, c: Pos, prey: Pos, d: int, goal: Pos, dist: int)
    requires 0 <= d < 4 && EarlierIsFarther(t, at, m, c, prey, d, goal, dist) && IsSide(prey, goal, d)
    ensures EarlierIsFarther(t, at, m, c, prey, d + 1, goal, dist)
  {
    NextSide(prey, goal, d);
    hide Manhattan;
  }

  /** The monster tries to step onto `p`: it does so exactly if the tile is within roaming range of its
      spawn and free, and nothing else about anybody changes. */
  ghost predicate TriesTo(t: Terrain, at: map<ObjectId, Pos>, pop: Population, m: ObjectId, p: Pos,
                          steps: seq<World.Step>, pop': Population)
    requires pop.IsMonster(m)
  {
    if InSquare(pop.GetMonster(m).spawn, p, 20) && Free(t, at, p) then
      steps == [MonsterWalk(m, p)] && Becomes(pop, m, pop.GetMonster(m).(pos := p), pop')
    else
      steps == [] && pop' == pop
  }

  /** One step of a chase: the monster tries the first tile of the path found to the best tile around
      the prey, or stays put if no path was found. */
  ghost predicate StepsTowards(t: Terrain, at: map<ObjectId, Pos>, pop: Population, m: ObjectId, prey: Pos,
                               steps: seq<World.Step>, pop': Population)
    requires pop.IsMonster(m)
  {
    exists goal, dist, path :: BestSide(t, at, m, pop.GetMonster(m).pos, prey, 4, goal, dist)
      && IsResult(t, pop.GetMonster(m).pos, goal, 25, path)
      && if path == [] then steps == [] && pop' == pop else TriesTo(t, at, pop, m, path[0], steps, pop')
  }

  /** The player the monster is after has gone, has died, or is out of sight. */
  ghost predicate Lost(t: Terrain, pop: Population, c: Pos, id: ObjectId) {
    id !in pop.players || pop.players[id].hp <= 0 || !InSquare(c, pop.players[id].pos, t.agro)
  }

  /** A live player next to `c`. */
  ghost predicate IsVictim(pop: Population, c: Pos, v: ObjectId) {
    v in pop.players && pop.players[v].hp > 0 && NextTo(c, pop.players[v].pos)
  }

  /** The list holds the live players next to `c`. */
  ghost predicate AreVictims(pop: Population, c: Pos, victims: seq<ObjectId>) {
    forall v :: v in victims <==> IsVictim(pop, c, v)
  }

  /** Everybody next to the monster has been bitten, and whoever died of it has been sent home. */
  ghost predicate Bites(pop: Population, m: ObjectId, steps: seq<World.Step>, pop': Population)
    requires pop.IsMonster(m)
  {
    var r := pop.GetMonster(m);
    exists victims :: AreVictims(pop, r.pos, victims) && AllBitten(pop.players, victims, r.level * 5, pop'.players)
      && SameMonsters(pop'.monsters, pop.monsters) && forall a :: a in steps ==> a.Perish? && a.id in victims
  }

  /** The turn of an aggressive monster with a target: it gives up, it bites everybody next to it,
      or it tries to come one step closer. */
  ghost predicate ChasingTurn(t: Terrain, at: map<ObjectId, Pos>, pop: Population, m: ObjectId, id: ObjectId,
                              canAttack: bool, steps: seq<World.Step>, pop': Population)
    requires pop.IsMonster(m)
  {
    var r := pop.GetMonster(m);
    if Lost(t, pop, r.pos, id) then
      steps == [] && Becomes(pop, m, r.(target := NoTarget), pop')
    else if forall v :: !IsVictim(pop, r.pos, v) then
      StepsTowards(t, at, pop, m, pop.players[id].pos, steps, pop')
    else if canAttack then
      Bites(pop, m, steps, pop')
    else
      steps == [] && pop' == pop
  }

  lemma VictimsLive(pop: Population, c: Pos)
    ensures forall v :: IsVictim(pop, c, v) ==> v in pop.players
  {
  }

  lemma VictimsOrNone(pop: Population, c: Pos, victims: seq<ObjectId>)
    requires AreVictims(pop, c, victims)
    ensures victims == [] <==> forall v :: !IsVictim(pop, c, v)
    ensures forall i :: 0 <= i < |victims| ==> victims[i] in pop.players
  {
    hide IsVictim;
    forall i | 0 <= i < |victims| ensures IsVictim(pop, c, victims[i]) {
      assert victims[i] in victims;
    }
    if victims != [] {
      assert IsVictim(pop, c, victims[0]);
    }
    VictimsLive(pop, c);
  }

  /** The turn of an aggressive monster without a target: it picks the nearest player, or strolls. */
  ghost predicate LookingTurn(t: Terrain, at: map<ObjectId, Pos>, pop: Population, m: ObjectId, d: int,
                              steps: seq<World.Step>, pop': Population)
    requires pop.IsMonster(m) && 0 <= d < 4
  {
    var r := pop.GetMonster(m);
    if exists p :: InRange(pop, r.pos, t.agro, p) then
      steps == [] && exists n :: Nearest(pop, r.pos, t.agro, n) && Becomes(pop, m, r.(target := Chasing(n)), pop')
    else
      Strolls(t, at, pop, m, d, steps, pop')
  }

  /** A step in the random direction `d`. */
  ghost predicate Strolls(t: Terrain, at: map<ObjectId, Pos>, pop: Population, m: ObjectId, d: int,
                          steps: seq<World.Step>, pop': Population)
    requires pop.IsMonster(m) && 0 <= d < 4
  {
    TriesTo(t, at, pop, m, Ahead(pop.GetMonster(m).pos, d), steps, pop')
  }

  /** A route's first step is to a walkable neighbour. */
  lemma {:induction false} FirstOfRoute(t: Terrain, s: Pos, p: seq<Pos>)
    requires Route(t, s, p) && p != []
    ensures t.Walkable(p[0]) && Adjacent(s, p[0])
    decreases |p|
  {
    if |p| > 1 {
      FirstOfRoute(t, s, Front(p));
    } else {
      assert Front(p) == [];
    }
  }

  /** One turn of monster `m`: what it does depends on its movement, its behaviour and its target. */
  ghost predicate Turn(t: Terrain, at: map<ObjectId, Pos>, pop: Population, m: ObjectId, d: int, canAttack: bool,
                       steps: seq<World.Step>, pop': Population)
    requires pop.IsMonster(m) && 0 <= d < 4
  {
    var r := pop.GetMonster(m);
    if r.movement == FIXED then steps == [] && pop' == pop
    else if r.behavior == PEACE then Strolls(t, at, pop, m, d, steps, pop')
    else match r.target
      case Chasing(id) => ChasingTurn(t, at, pop, m, id, canAttack, steps, pop')
      case NoTarget => LookingTurn(t, at, pop, m, d, steps, pop')
  }

  /** The handling of an AI timer. A dead monster ignores it, one that nobody has in view falls asleep,
      and any other has its turn and registers its next timer. */
  ghost predicate AiHandled(t: Terrain, at: map<ObjectId, Pos>, pop: Population, e: Timer, d: int, canAttack: bool,
                            steps: seq<World.Step>, pop': Population)
    requires pop.IsMonster(e.target) && 0 <= d < 4
  {
    var m := e.target;
    if m !in at then
      steps == [AiFire(e)] && pop' == pop
    else if !Observed(t, at, m) then
      steps == [AiFire(e)] && Becomes(pop, m, pop.GetMonster(m).(active := false), pop')
    else
      exists turn :: steps == [AiFire(e)] + turn + [AiDone(m)]
        && (forall a :: a in turn ==> AiStep(a, m)) && Turn(t, at, pop, m, d, canAttack, turn, pop')
  }

  /** `r'` is a monster's record after its respawn at `p`: full health, no target, all else as it was. */
  ghost predicate IsRenewed(r: Monster, p: Pos, active: bool, r': Monster) {
    && r'.hp == r.maxHp && r'.pos == p && r'.target == NoTarget && r'.active == active
    && r'.spawn == r.spawn && r'.level == r.level && r'.maxHp == r.maxHp
    && r'.behavior == r.behavior && r'.movement == r.movement
  }

  /** The handling of a respawn timer: another try later, or the monster is back as new, and active
      exactly if somebody is watching. */
  ghost predicate RespawnTurn(t: Terrain, at': map<ObjectId, Pos>, pop: Population, e: Timer, steps: seq<World.Step>, pop': Population)
    requires pop.IsMonster(e.target)
  {
    || (steps == [RespawnRetry(e)] && pop' == pop && Crowded(t, at', pop.GetMonster(e.target).spawn))
    || exists p: Pos, r: Monster :: steps == [RespawnFire(e, p)] && e.target in at' && at'[e.target] == p
         && InSquare(r.spawn, p, 20) && Becomes(pop, e.target, r, pop')
         && IsRenewed(pop.GetMonster(e.target), p, Observed(t, at', e.target), r)
  }

  lemma TriesAgain(t: Terrain, at': map<ObjectId, Pos>, pop: Population, e: Timer)
    requires pop.IsMonster(e.target) && Crowded(t, at', pop.GetMonster(e.target).spawn)
    ensures RespawnTurn(t, at', pop, e, [RespawnRetry(e)], pop)
  {
  }

  /** The record is reset first, and then the monster is woken if somebody is watching. */
  lemma BackAsNew(t: Terrain, at': map<ObjectId, Pos>, pop: Population, e: Timer, p: Pos, mid: Population, pop': Population)
    requires pop.IsMonster(e.target) && e.target in at' && at'[e.target] == p
    requires mid.IsMonster(e.target) && mid == pop.WithMonster(e.target, mid.GetMonster(e.target))
    requires IsRenewed(pop.GetMonster(e.target), p, false, mid.GetMonster(e.target))
    requires InSquare(pop.GetMonster(e.target).spawn, p, 20)
    requires pop' == if Observed(t, at', e.target)
      then mid.WithMonster(e.target, mid.GetMonster(e.target).(active := true)) else mid
    ensures RespawnTurn(t, at', pop, e, [RespawnFire(e, p)], pop')
  {
    hide Crowded;
    var r := mid.GetMonster(e.target).(active := Observed(t, at', e.target));
    assert Becomes(pop, e.target, r, pop');
  }

  /** What a monster's turn can consist of. */
  predicate AiStep(a: World.Step, m: ObjectId) {
    a.Perish? || (a.MonsterWalk? && a.m == m)
  }

  /** The first tile of a path that was found is a walkable neighbour. */
  lemma FirstStep(t: Terrain, c: Pos, goal: Pos, path: seq<Pos>)
    requires path != [] && IsResult(t, c, goal, 25, path)
    ensures t.Walkable(path[0]) && Adjacent(c, path[0])
  {
    FirstOfRoute(t, c, path);
  }

  function Struck(m: Monster, damage: nat): Monster {
    m.(hp := Hurt(m.hp, damage))
  }

  /** The players after one of them was put somewhere else. */
  function PlacedAt(players: map<ObjectId, Avatar>, id: ObjectId, p: Pos): map<ObjectId, Avatar>
    requires id in players
  {
    players[id := players[id].(pos := p)]
  }
}
