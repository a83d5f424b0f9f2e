/** The server's records of players and monsters, and how they agree with the positions. */
module Creatures {
  import opened Grid
  import opened Leveling

  datatype Behavior = PEACE | AGRO

  datatype Movement = FIXED | ROAMING

  datatype Avatar = Avatar(pos: Pos, level: nat, exp: int, maxHp: int, hp: int) {
    function ToStats(): Stats {
      Stats(level, exp, maxHp, hp)
    }
  }

  /** What every player's record keeps. */
  predicate Leveled(a: Avatar) {
    1 <= a.level <= MAX_LEVEL && a.exp >= 0
  }

  datatype Target = NoTarget | Chasing(player: ObjectId)

  datatype Monster = Monster(
    spawn: Pos, level: nat, maxHp: int, behavior: Behavior, movement: Movement,
    pos: Pos, hp: int, active: bool, target: Target)

  /** GameObject::TakeDamage. */
  function Hurt(hp: int, damage: int): (left: int)
    ensures hp > damage ==> left + damage == hp
    ensures left <= 0 <==> hp <= damage
  {
    if damage >= hp then 0 else hp - damage
  }

  /** The players by id, and the monsters by number. */
  datatype Population = Population(players: map<ObjectId, Avatar>, monsters: seq<Monster>) {
    predicate IsMonster(id: ObjectId) {
      MONSTER_ID_OFFSET <= id < MONSTER_ID_OFFSET + |monsters|
    }

    predicate Has(id: ObjectId) {
      if IsPlayerId(id) then id in players else IsMonster(id)
    }

    function GetMonster(id: ObjectId): Monster
      requires IsMonster(id)
    {
      monsters[id - MONSTER_ID_OFFSET]
    }

    function PosOf(id: ObjectId): Pos
      requires Has(id)
    {
      if IsPlayerId(id) then players[id].pos else GetMonster(id).pos
    }

    function WithMonster(id: ObjectId, m: Monster): Population
      requires IsMonster(id)
    {
      Population(players, monsters[id - MONSTER_ID_OFFSET := m])
    }

    function WithPos(id: ObjectId, p: Pos): Population
      requires Has(id)
    {
      if IsPlayerId(id) then WithPlayer(id, players[id].(pos := p)) else WithMonster(id, GetMonster(id).(pos := p))
    }

    function WithoutPlayer(id: ObjectId): Population {
      Population(players - {id}, monsters)
    }

    function WithPlayer(id: ObjectId, a: Avatar): Population {
      Population(players[id := a], monsters)
    }
  }

  /** Monster `m` has the record `r` now, and nothing else about anybody has changed. */
  ghost predicate Becomes(pop: Population, m: ObjectId, r: Monster, pop': Population) {
    && pop'.players == pop.players && |pop'.monsters| == |pop.monsters|
    && forall i :: 0 <= i < |pop.monsters| ==> pop'.monsters[i] == if 1_000_000 + i == m then r else pop.monsters[i]
  }

  /** Where the players' records put them. */
  ghost function Standings(players: map<ObjectId, Avatar>): map<ObjectId, Pos> {
    map id | id in players :: players[id].pos
  }

  lemma OneStands(players: map<ObjectId, Avatar>, id: ObjectId, a: Avatar)
    ensures Standings(players[id := a]) == Standings(players)[id := a.pos]
    ensures id in players && players[id].pos == a.pos ==> Standings(players[id := a]) == Standings(players)
  {
  }

  lemma OneLeaves(players: map<ObjectId, Avatar>, id: ObjectId)
    ensures Standings(players - {id}) == Standings(players) - {id}
  {
  }

  /** Exactly the players and the live monsters have a place, and it is the one their record says. */
  ghost predicate Standing(pop: Population, at: map<ObjectId, Pos>) {
    && (forall id :: id in at ==> pop.Has(id) && pop.PosOf(id) == at[id])
    && (forall id :: id in pop.players ==> IsPlayerId(id) && id in at)
    && (forall id :: pop.IsMonster(id) ==> (pop.GetMonster(id).hp > 0 <==> id in at))
  }

  /** The same, except that `id` may have lost its place already. */
  ghost predicate StandingBut(pop: Population, at: map<ObjectId, Pos>, id: ObjectId) {
    && (forall o :: o in at && o != id ==> pop.Has(o) && pop.PosOf(o) == at[o])
    && (forall o :: o in pop.players ==> IsPlayerId(o) && (o != id ==> o in at))
    && (forall o :: pop.IsMonster(o) && o != id ==> (pop.GetMonster(o).hp > 0 <==> o in at))
  }

  lemma AllButOne(pop: Population, at: map<ObjectId, Pos>, id: ObjectId)
    requires Standing(pop, at)
    ensures StandingBut(pop, at, id)
  {
  }

  /** The record of `m` does not matter to the others. */
  lemma OthersButOne(pop: Population, at: map<ObjectId, Pos>, m: ObjectId, r: Monster)
    requires StandingBut(pop, at, m) && pop.IsMonster(m)
    ensures StandingBut(pop.WithMonster(m, r), at, m)
  {
  }

  /** Nor does anything in a player's record but its place. */
  lemma SamePlayerPlace(pop: Population, at: map<ObjectId, Pos>, m: ObjectId, id: ObjectId, a: Avatar)
    requires StandingBut(pop, at, m) && id in pop.players && a.pos == pop.players[id].pos
    ensures StandingBut(pop.WithPlayer(id, a), at, m)
  {
  }

  lemma Newcomer(pop: Population, at: map<ObjectId, Pos>, id: ObjectId)
    requires Standing(pop, at) && IsPlayerId(id) && id !in pop.players
    ensures StandingBut(pop, at, id) && id !in at
  {
  }

  /** A record that changes neither the place nor whether its owner is alive. */
  predicate SamePlace(a: Monster, b: Monster) {
    a.pos == b.pos && (a.hp > 0 <==> b.hp > 0)
  }

  lemma UpdateKeepsStanding(pop: Population, at: map<ObjectId, Pos>, m: ObjectId, r: Monster)
    requires Standing(pop, at) && pop.IsMonster(m) && SamePlace(r, pop.GetMonster(m))
    ensures Standing(pop.WithMonster(m, r), at)
  {
  }

  /** A live monster is put at its new place. */
  lemma MonsterPut(pop: Population, at: map<ObjectId, Pos>, m: ObjectId, r: Monster)
    requires StandingBut(pop, at, m) && pop.IsMonster(m) && r.hp > 0
    ensures Standing(pop.WithMonster(m, r), at[m := r.pos])
  {
  }

  lemma MonsterGone(pop: Population, at: map<ObjectId, Pos>, m: ObjectId, r: Monster)
    requires StandingBut(pop, at, m) && pop.IsMonster(m) && r.hp <= 0
    ensures Standing(pop.WithMonster(m, r), at - {m})
  {
  }

  lemma PlayerPut(pop: Population, at: map<ObjectId, Pos>, id: ObjectId, a: Avatar)
    requires StandingBut(pop, at, id) && IsPlayerId(id)
    ensures Standing(pop.WithPlayer(id, a), at[id := a.pos])
  {
  }

  lemma PlayerGone(pop: Population, at: map<ObjectId, Pos>, id: ObjectId)
    requires StandingBut(pop, at, id) && IsPlayerId(id)
    ensures Standing(pop.WithoutPlayer(id), at - {id})
  {
  }
}
