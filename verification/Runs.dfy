/** Steps and runs of the game world in the form the handlers use them: what each step makes of a
    state, one field update after the other, and how runs are put together. */
module Runs {
  import opened Grid
  import opened Sectors
  import opened World

  lemma OneStep(w: Realm, s: State, a: Step)
    requires Enabled(w, s, a)
    ensures IsRun(w, s, [a]) && Run(w, s, [a]) == Apply(w, s, a)
  {
    hide Enabled, Apply;
    assert [a][1..] == [];
    assert IsRun(w, Apply(w, s, a), []) && Run(w, Apply(w, s, a), []) == Apply(w, s, a);
  }

  lemma ReachableStep(w: Realm, s: State, a: Step, s': State)
    requires Reachable(w, s) && Goes(w, s, a, s')
    ensures Reachable(w, s')
  {
    hide Enabled, Apply;
    var steps :| IsRun(w, Initial(w), steps) && s == Run(w, Initial(w), steps);
    OneStep(w, s, a);
    RunAppend(w, Initial(w), steps, [a]);
  }

  /** `s'` is what step `a` makes of `s`. */
  ghost predicate Goes(w: Realm, s: State, a: Step, s': State) {
    Enabled(w, s, a) && s' == Apply(w, s, a)
  }

  lemma WalkGoes(w: Realm, s: State, id: ObjectId, d: int)
    requires IsPlayerId(id) && id in s.at && 0 <= d < 4 && Free(w.t, s.at, Grid.Step(s.at[id], d))
    ensures Goes(w, s, Walk(id, d), Relocate(w, s, id, Grid.Step(s.at[id], d)))
  {
  }

  lemma TeleportGoes(w: Realm, s: State, id: ObjectId, c: Pos, p: Pos)
    requires IsPlayerId(id) && id in s.at && FirstFree(w.t, s.at - {id}, c, CLAIM_RADIUS, p)
    ensures Goes(w, s, Teleport(id, c, p), Relocate(w, s, id, p))
  {
  }

  lemma LeaveGoes(w: Realm, s: State, id: ObjectId)
    requires IsPlayerId(id) && id in s.at
    ensures var s1 := s.(seen := AfterVanish(w.t, s.at, s.seen, id));
      Goes(w, s, Leave(id), s1.(at := s1.at - {id}, seen := s1.seen - {id}, fallen := s1.fallen - {id}))
  {
  }

  lemma AiFireGoes(w: Realm, s: State, e: Timer)
    requires e.kind == Ai && Pops(s, e)
    ensures var s1 := s.(timers := s.timers - multiset{e});
      && (e.target !in s.at ==> Goes(w, s, AiFire(e), s1))
      && (e.target in s.at && !Observed(w.t, s.at, e.target) ==>
            Goes(w, s, AiFire(e), s1.(active := s1.active - {e.target})))
      && (e.target in s.at && Observed(w.t, s.at, e.target) ==>
            Goes(w, s, AiFire(e), s1.(firing := s1.firing + {e.target})))
  {
  }

  lemma AiDoneGoes(w: Realm, s: State, m: ObjectId)
    requires m in s.firing
    ensures Goes(w, s, AiDone(m),
      s.(firing := s.firing - {m}, timers := s.timers + multiset{Timer(s.clock + AI_TICK, Ai, m)}))
  {
  }

  /** The state of a monster that has just reappeared, before it is decided whether it wakes. */
  function Reappeared(w: Realm, s: State, e: Timer, p: Pos): State {
    var s1 := s.(timers := s.timers - multiset{e}, at := s.at[e.target := p], active := s.active - {e.target});
    s1.(seen := AfterEnter(w.t, s1.at, s1.seen, e.target))
  }

  lemma RespawnGoes(w: Realm, s: State, e: Timer, p: Pos)
    requires e.kind == Respawn && Pops(s, e) && e.target in w.spawn && e.target !in s.at
    requires FirstFree(w.t, s.at, w.spawn[e.target], CLAIM_RADIUS, p)
    ensures var s2 := Reappeared(w, s, e, p);
      && (!Observed(w.t, s2.at, e.target) ==> Goes(w, s, RespawnFire(e, p), s2))
      && (Observed(w.t, s2.at, e.target) ==> Goes(w, s, RespawnFire(e, p),
            s2.(active := s2.active + {e.target}, timers := s2.timers + multiset{Timer(s.clock + AI_TICK, Ai, e.target)})))
  {
    assert s.active - {e.target} + {e.target} == s.active + {e.target};
  }

  lemma RetryGoes(w: Realm, s: State, e: Timer)
    requires e.kind == Respawn && Pops(s, e) && e.target in w.spawn && e.target !in s.at
    requires NoneFree(w.t, s.at, w.spawn[e.target], CLAIM_RADIUS)
    ensures Goes(w, s, RespawnRetry(e),
      s.(timers := s.timers - multiset{e} + multiset{Timer(s.clock + RESPAWN_DELAY, Respawn, e.target)}))
  {
  }

  /** `s'` is where the steps lead from `s`. */
  ghost predicate Ran(w: Realm, s: State, steps: seq<World.Step>, s': State) {
    IsRun(w, s, steps) && s' == Run(w, s, steps)
  }

  lemma RanNothing(w: Realm, s: State)
    ensures Ran(w, s, [], s)
  {
  }

  lemma RanOne(w: Realm, s: State, a: World.Step, s': State)
    requires Goes(w, s, a, s')
    ensures Ran(w, s, [a], s')
  {
    hide Enabled, Apply;
    OneStep(w, s, a);
  }

  lemma RanMore(w: Realm, s: State, steps: seq<World.Step>, s1: State, a: World.Step, s2: State)
    requires Ran(w, s, steps, s1) && Goes(w, s1, a, s2)
    ensures Ran(w, s, steps + [a], s2)
  {
    hide Enabled, Apply;
    OneStep(w, s1, a);
    RunAppend(w, s, steps, [a]);
  }

  lemma RanOn(w: Realm, s: State, steps: seq<World.Step>, s1: State, more: seq<World.Step>, s2: State)
    requires Ran(w, s, steps, s1) && Ran(w, s1, more, s2)
    ensures Ran(w, s, steps + more, s2)
  {
    RunAppend(w, s, steps, more);
  }

  lemma StartsReachable(w: Realm)
    ensures Reachable(w, Initial(w))
  {
    assert IsRun(w, Initial(w), []) && Run(w, Initial(w), []) == Initial(w);
  }

  ghost predicate AllFree(t: Terrain, at: map<ObjectId, Pos>, tiles: set<Pos>) {
    forall p :: p in tiles ==> Chebyshev(ORIGIN, p) <= CLAIM_RADIUS && Free(t, at, p)
  }

  /** At least `k` different tiles around (0, 0) are free. */
  ghost predicate Room(t: Terrain, at: map<ObjectId, Pos>, k: nat) {
    exists tiles :: AllFree(t, at, tiles) && |tiles| >= k
  }

  lemma RoomMeansFree(t: Terrain, at: map<ObjectId, Pos>, k: nat, id: ObjectId)
    requires Room(t, at, k + 1)
    ensures !NoneFree(t, at - {id}, ORIGIN, CLAIM_RADIUS)
  {
    var tiles :| AllFree(t, at, tiles) && |tiles| >= k + 1;
    var q :| q in tiles;
    assert Free(t, at - {id}, q);
  }

  /** One more object takes at most one of them. */
  lemma RoomAfterOne(t: Terrain, at: map<ObjectId, Pos>, k: nat, id: ObjectId, p: Pos)
    requires Room(t, at, k + 1)
    ensures Room(t, at[id := p], k)
  {
    var tiles :| AllFree(t, at, tiles) && |tiles| >= k + 1;
    forall r | r in tiles - {p} ensures Free(t, at[id := p], r) {
      assert Free(t, at, r);
    }
    assert AllFree(t, at[id := p], tiles - {p}) && |tiles - {p}| >= k;
  }

  lemma RoomForFewer(t: Terrain, at: map<ObjectId, Pos>, k: nat, fewer: nat)
    requires Room(t, at, k) && fewer <= k
    ensures Room(t, at, fewer)
  {
  }
}
