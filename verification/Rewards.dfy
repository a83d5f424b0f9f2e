/** Experience for kills: whom one attack kills, and what that is worth to the attacker. */
module Rewards {
  import opened Grid
  import opened Sectors
  import opened Creatures
  import opened Turns
  import opened Leveling

  /** Monster::GetExpReward. */
  function ExpReward(m: Monster): (reward: nat)
    ensures m.behavior == PEACE && m.movement == FIXED ==> reward == 2 * m.level * m.level
    ensures m.behavior == AGRO || m.movement == ROAMING ==> reward == 4 * m.level * m.level
  {
    var base := m.level * m.level * 2;
    if m.behavior == AGRO || m.movement == ROAMING then base * 2 else base
  }

  lemma BlowKeepsReward(m: Monster, damage: nat)
    ensures ExpReward(Struck(m, damage)) == ExpReward(m)
  {
  }

  /** The monsters on the first `i` tiles around `c` that a blow kills. */
  ghost function KilledAround(pop: Population, at: map<ObjectId, Pos>, c: Pos, damage: nat, i: int): set<ObjectId> {
    set m | m in at && pop.IsMonster(m) && IsSide(c, at[m], i) && pop.GetMonster(m).hp <= damage
  }

  ghost function TotalReward(pop: Population, ms: set<ObjectId>): nat
    requires forall m :: m in ms ==> pop.IsMonster(m)
  {
    if ms == {} then 0
    else
      SomeElement(ms);
      var m :| m in ms;
      ExpReward(pop.GetMonster(m)) + TotalReward(pop, ms - {m})
  }

  /** The total does not depend on the order. */
  lemma {:induction false} OneMoreReward(pop: Population, ms: set<ObjectId>, m: ObjectId)
    requires pop.IsMonster(m) && m !in ms && forall o :: o in ms ==> pop.IsMonster(o)
    ensures TotalReward(pop, ms + {m}) == TotalReward(pop, ms) + ExpReward(pop.GetMonster(m))
  {
    hide ExpReward;
    var all := ms + {m};
    var x :| x in all && TotalReward(pop, all) == ExpReward(pop.GetMonster(x)) + TotalReward(pop, all - {x});
    if x == m {
      assert all - {m} == ms;
    } else {
      OneMoreReward(pop, ms - {x}, m);
      OneMoreReward(pop, ms - {x}, x);
      assert ms - {x} + {x} == ms && ms - {x} + {m} == all - {x};
    }
  }

  lemma {:induction false} FewerRewards(pop: Population, few: set<ObjectId>, many: set<ObjectId>)
    requires few <= many && forall o :: o in many ==> pop.IsMonster(o)
    ensures TotalReward(pop, few) <= TotalReward(pop, many)
    decreases |many|
  {
    if many - few == {} {
      assert many == few;
    } else {
      SomeElement(many - few);
      var x :| x in many - few;
      FewerRewards(pop, few, many - {x});
      OneMoreReward(pop, many - {x}, x);
      assert many - {x} + {x} == many;
    }
  }

  /** The attacker has gained, in one go, the rewards of all the monsters killed; without a kill it is
      unchanged, and nobody else ever is. */
  ghost predicate Rewarded(pop: Population, players: map<ObjectId, Avatar>, id: ObjectId, killed: set<ObjectId>) {
    && (forall m :: m in killed ==> pop.IsMonster(m))
    && id in pop.players && players.Keys == pop.players.Keys && Leveled(pop.players[id])
    && (forall o :: o in players && o != id ==> players[o] == pop.players[o])
    && if killed == {} then players[id] == pop.players[id]
       else
         && players[id].pos == pop.players[id].pos
         && Gained(pop.players[id].ToStats(), TotalReward(pop, killed), players[id].ToStats())
  }

  lemma GainedStaysLeveled(s: Stats, amount: nat, s': Stats)
    requires 1 <= s.level <= MAX_LEVEL && s.exp >= 0 && Gained(s, amount, s')
    ensures 1 <= s'.level <= MAX_LEVEL && 0 <= s'.exp <= s.exp + amount
  {
    ThresholdMonotone(s.level, s'.level);
  }

  /** The next kill is one more gain, and gains add up. */
  lemma RewardOne(pop: Population, players: map<ObjectId, Avatar>, id: ObjectId, killed: set<ObjectId>, m: ObjectId, a: Avatar)
    requires Rewarded(pop, players, id, killed) && pop.IsMonster(m) && m !in killed && a.pos == players[id].pos
    requires 1 <= players[id].level <= MAX_LEVEL
    requires Gained(players[id].ToStats(), ExpReward(pop.GetMonster(m)), a.ToStats())
    ensures Rewarded(pop, players[id := a], id, killed + {m})
  {
    OneMoreReward(pop, killed, m);
    hide Gained, ExpReward;
    var s := pop.players[id].ToStats();
    if killed != {} {
      GainsAddUp(s, TotalReward(pop, killed), ExpReward(pop.GetMonster(m)), players[id].ToStats(), a.ToStats());
    } else {
      assert TotalReward(pop, killed) == 0;
    }
  }

  /** If the sum of all rewards fits 32 bits, so does every addition on the way. */
  lemma RewardFits(pop: Population, players: map<ObjectId, Avatar>, id: ObjectId, killed: set<ObjectId>, m: ObjectId,
                   all: set<ObjectId>)
    requires Rewarded(pop, players, id, killed) && m !in killed && killed + {m} <= all
    requires forall o :: o in all ==> pop.IsMonster(o)
    requires pop.players[id].exp + TotalReward(pop, all) <= INT32_MAX
    ensures Leveled(players[id]) && players[id].exp + ExpReward(pop.GetMonster(m)) <= INT32_MAX
  {
    OneMoreReward(pop, killed, m);
    FewerRewards(pop, killed + {m}, all);
    if killed != {} {
      GainedStaysLeveled(pop.players[id].ToStats(), TotalReward(pop, killed), players[id].ToStats());
    }
  }

  lemma KilledIsMonsters(pop: Population, at: map<ObjectId, Pos>, c: Pos, damage: nat, i: int)
    ensures forall m :: m in KilledAround(pop, at, c, damage, i) ==> pop.IsMonster(m)
    ensures i <= 4 ==> KilledAround(pop, at, c, damage, i) <= KilledAround(pop, at, c, damage, 4)
  {
    forall p | i <= 4 && IsSide(c, p, i) ensures IsSide(c, p, 4) {
    }
  }

  /** The next tile adds its monster if the blow kills it. */
  lemma KilledNext(pop: Population, at: map<ObjectId, Pos>, c: Pos, damage: nat, d: int, o: ObjectId)
    requires 0 <= d < 4 && Exclusive(at) && (o in at ==> at[o] == Grid.Step(c, d))
    requires o !in at ==> forall m :: m in at && pop.IsMonster(m) ==> at[m] != Grid.Step(c, d)
    ensures KilledAround(pop, at, c, damage, d + 1) ==
      if o in at && pop.IsMonster(o) && pop.GetMonster(o).hp <= damage then KilledAround(pop, at, c, damage, d) + {o}
      else KilledAround(pop, at, c, damage, d)
    ensures o !in KilledAround(pop, at, c, damage, d)
  {
    forall m | m in at ensures IsSide(c, at[m], d + 1) <==> IsSide(c, at[m], d) || at[m] == Grid.Step(c, d) {
      NextSide(c, at[m], d);
    }
    if o in at {
      NextSide(c, at[o], d);
    }
    hide IsSide;
  }

  /** The sum of the rewards one attack can bring fits 32 bits together with what the attacker has. */
  ghost predicate AffordsAttack(pop: Population, at: map<ObjectId, Pos>, id: ObjectId)
    requires id in pop.players
  {
    var killed := KilledAround(pop, at, pop.players[id].pos, pop.players[id].level * 10, 4);
    pop.players[id].exp + TotalReward(pop, killed) <= INT32_MAX
  }

  /** What an attacker knows before it strikes the monster on the next tile. */
  lemma MonsterThere(pop: Population, pop0: Population, at0: map<ObjectId, Pos>, at: map<ObjectId, Pos>, id: ObjectId,
                     c: Pos, damage: nat, d: int, m: ObjectId)
    requires 0 <= d < 4 && StruckAround(pop, pop0, at0, c, damage, d) && Remain(at0, at) && Exclusive(at0)
    requires id in pop0.players && c == pop0.players[id].pos && damage == pop0.players[id].level * 10
    requires AffordsAttack(pop0, at0, id) && Rewarded(pop0, pop.players, id, KilledAround(pop0, at0, c, damage, d))
    requires pop.IsMonster(m) && !IsPlayerId(m) && m in at && at[m] == Grid.Step(c, d)
    ensures StruckAround(pop.WithMonster(m, Struck(pop.GetMonster(m), damage)), pop0, at0, c, damage, d + 1)
    ensures Remain(at0, at - {m}) && pop0.IsMonster(m) && pop.GetMonster(m) == pop0.GetMonster(m)
    ensures m !in KilledAround(pop0, at0, c, damage, d)
    ensures KilledAround(pop0, at0, c, damage, d + 1) ==
      if pop.GetMonster(m).hp <= damage then KilledAround(pop0, at0, c, damage, d) + {m}
      else KilledAround(pop0, at0, c, damage, d)
    ensures id in pop.players && Leveled(pop.players[id])
    ensures pop.GetMonster(m).hp <= damage ==> pop.players[id].exp + ExpReward(pop.GetMonster(m)) <= INT32_MAX
  {
    OneMoreStruck(pop, pop0, at0, at, c, damage, d, m);
    assert m in at0 && at0[m] == at[m];
    hide StruckAround, Exclusive, Rewarded, ExpReward;
    KilledNext(pop0, at0, c, damage, d, m);
    KilledIsMonsters(pop0, at0, c, damage, 4);
    KilledIsMonsters(pop0, at0, c, damage, d + 1);
    hide KilledAround;
    if pop.GetMonster(m).hp <= damage {
      RewardFits(pop0, pop.players, id, KilledAround(pop0, at0, c, damage, d), m, KilledAround(pop0, at0, c, damage, 4));
    }
    AttackerIsLeveled(pop0, pop.players, id, KilledAround(pop0, at0, c, damage, d));
  }

  lemma AttackerIsLeveled(pop: Population, players: map<ObjectId, Avatar>, id: ObjectId, killed: set<ObjectId>)
    requires Rewarded(pop, players, id, killed)
    ensures id in players && Leveled(players[id])
  {
    if killed != {} {
      GainedStaysLeveled(pop.players[id].ToStats(), TotalReward(pop, killed), players[id].ToStats());
    }
  }
}
