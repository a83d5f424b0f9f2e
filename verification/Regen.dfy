/** The lazy hit-point regeneration handshake of one player, one atomic access at a time: hits and
    regeneration timers run on any number of threads and interleave freely. The regeneration flag is
    meant to say that exactly one party, a pending timer or a running thread, carries the duty to go on. */
module Regen {
  datatype Option<T> = None | Some(value: T)

  /** Which of the three "is the player at full health?" checks a firing timer is in. */
  datatype Stage = First | Second | Recheck

  /** What a thread does next. Threads with nothing left to do are dropped. */
  datatype Pc =
    // a hit
    | Aiming              // the victim was alive: deal the damage
    | Took                // test whether the victim died
    | Standing            // compare-and-swap the flag
    | Won(hitter: bool)   // register the first timer (a hit, or a firing timer that restarts)
    | Checked             // test once more whether the victim died
    | Dying               // reset the victim
    | Reborn              // store false into the flag
    // a firing timer
    | Fired               // test whether the player is dead
    | Reading(stage: Stage, hp: Option<int>, max: Option<int>) // read both values, in either order
    | Healing             // add hit points
    | Again               // register the next timer
    | Stopping            // store false, then look again
    | Retry               // compare-and-swap the flag
    | DeadStop            // store false and leave
  {
    /** The thread carries the duty the flag stands for. */
    predicate Owns() {
      match this
      case Won(_) => true
      case Fired => true
      case Reading(stage, _, _) => stage != Recheck
      case Healing => true
      case Again => true
      case Stopping => true
      case DeadStop => true
      case _ => false
    }
  }

  datatype State = State(hp: int, maxHp: int, flag: bool, timers: nat, threads: map<nat, Pc>, hit: bool)

  datatype Action =
    | Aim
    | Strike(damage: nat) // TakeDamage
    | TestDeath           // IsDead
    | TryStart            // TryStartRegen
    | AddTimer
    | Die
    | Fire
    | ReadHp
    | ReadMax
    | Decide
    | Heal(amount: nat)   // RegenHP
    | Store               // StopRegen
    | LevelUp(max: int)   // GainExp on another thread: full health at a new maximum

  function Drop(s: State, t: nat): State {
    s.(threads := s.threads - {t})
  }

  function Go(s: State, t: nat, pc: Pc): State {
    s.(threads := s.threads[t := pc])
  }

  /** Thread `t` can perform action `a`. */
  predicate Enabled(s: State, t: nat, a: Action) {
    match a
    case Aim => t !in s.threads && s.hp > 0
    case Fire => t !in s.threads && s.timers > 0
    case LevelUp(max) => max > 0
    case Strike(_) => t in s.threads && s.threads[t].Aiming?
    case TestDeath => t in s.threads && (s.threads[t].Took? || s.threads[t].Checked? || s.threads[t].Fired?)
    case TryStart => t in s.threads && (s.threads[t].Standing? || s.threads[t].Retry?)
    case AddTimer => t in s.threads && (s.threads[t].Won? || s.threads[t].Again?)
    case Die => t in s.threads && s.threads[t].Dying?
    case ReadHp => t in s.threads && s.threads[t].Reading? && s.threads[t].hp.None?
    case ReadMax => t in s.threads && s.threads[t].Reading? && s.threads[t].max.None?
    case Decide => t in s.threads && s.threads[t].Reading? && s.threads[t].hp.Some? && s.threads[t].max.Some?
    case Heal(_) => t in s.threads && s.threads[t].Healing?
    case Store => t in s.threads && (s.threads[t].Stopping? || s.threads[t].Reborn? || s.threads[t].DeadStop?)
  }

  function Apply(s: State, t: nat, a: Action): State
    requires Enabled(s, t, a)
  {
    match a
    case Aim => Go(s, t, Aiming)
    case Strike(damage) => Go(s.(hp := if damage >= s.hp then 0 else s.hp - damage, hit := true), t, Took)
    case TestDeath =>
      (match s.threads[t]
       case Took => Go(s, t, if s.hp > 0 then Standing else Checked)
       case Checked => if s.hp > 0 then Drop(s, t) else Go(s, t, Dying)
       case _ => Go(s, t, if s.hp > 0 then Reading(First, None, None) else DeadStop))
    case TryStart =>
      var hitter := s.threads[t].Standing?;
      if !s.flag then Go(s.(flag := true), t, Won(hitter))
      else if hitter then Go(s, t, Checked)
      else Drop(s, t)
    case AddTimer =>
      var s' := s.(timers := s.timers + 1);
      if s.threads[t] == Won(true) then Go(s', t, Checked) else Drop(s', t)
    case Die => Go(s.(hp := s.maxHp), t, Reborn)
    case Fire => Go(s.(timers := s.timers - 1), t, Fired)
    case ReadHp => Go(s, t, s.threads[t].(hp := Some(s.hp)))
    case ReadMax => Go(s, t, s.threads[t].(max := Some(s.maxHp)))
    case Decide =>
      var full := s.threads[t].hp.value >= s.threads[t].max.value;
      (match s.threads[t].stage
       case First => Go(s, t, if full then Stopping else Healing)
       case Second => Go(s, t, if full then Stopping else Again)
       case Recheck => if full then Drop(s, t) else Go(s, t, Retry))
    case Heal(amount) =>
      Go(s.(hp := if s.hp + amount < s.maxHp then s.hp + amount else s.maxHp), t, Reading(Second, None, None))
    case Store =>
      if s.threads[t].Stopping? then Go(s.(flag := false), t, Reading(Recheck, None, None))
      else Drop(s.(flag := false), t)
    case LevelUp(max) => s.(hp := max, maxHp := max)
  }

  function Start(hp: int, maxHp: int): State {
    State(hp, maxHp, false, 0, map[], false)
  }

  // --------------------------------------------------------------- the token

  function Owners(threads: map<nat, Pc>): set<nat> {
    set t | t in threads && threads[t].Owns()
  }

  /** Parties with the duty: pending timers and owning threads. */
  function Tokens(s: State): nat {
    s.timers + |Owners(s.threads)|
  }

  /** Two sets that differ in at most one element. */
  lemma OneElementApart(a: set<nat>, b: set<nat>, t: nat)
    requires forall u :: u != t ==> (u in a <==> u in b)
    ensures |b| == |a| + (if t in b then 1 else 0) - (if t in a then 1 else 0)
  {
    var rest := a - {t};
    assert a == if t in a then rest + {t} else rest;
    assert b == if t in b then rest + {t} else rest;
  }

  lemma OwnersAfterGo(threads: map<nat, Pc>, t: nat, pc: Pc)
    ensures |Owners(threads[t := pc])| ==
      |Owners(threads)| + (if pc.Owns() then 1 else 0) - (if t in threads && threads[t].Owns() then 1 else 0)
  {
    OneElementApart(Owners(threads), Owners(threads[t := pc]), t);
    hide Pc.Owns;
  }

  lemma OwnersAfterDrop(threads: map<nat, Pc>, t: nat)
    ensures |Owners(threads - {t})| == |Owners(threads)| - (if t in threads && threads[t].Owns() then 1 else 0)
  {
    OneElementApart(Owners(threads), Owners(threads - {t}), t);
    hide Pc.Owns;
  }

  /** What one action does to the token count. */
  function Gain(s: State, t: nat, a: Action): int
    requires Enabled(s, t, a)
  {
    match a
    case TryStart => if s.flag then 0 else 1
    case Store => if s.threads[t].Owns() then -1 else 0
    case _ => 0
  }

  /** An action changes its own thread only. */
  lemma ThreadsAfter(s: State, t: nat, a: Action)
    requires Enabled(s, t, a) && !a.LevelUp?
    ensures var s' := Apply(s, t, a);
      s'.threads == if t in s'.threads then s.threads[t := s'.threads[t]] else s.threads - {t}
  {
  }

  /** Whether that thread has the duty, before and after. */
  lemma DutyAfter(s: State, t: nat, a: Action)
    requires Enabled(s, t, a) && !a.LevelUp?
    ensures var s' := Apply(s, t, a);
      (if t in s'.threads && s'.threads[t].Owns() then 1 else 0) + s'.timers
        == (if t in s.threads && s.threads[t].Owns() then 1 else 0) + s.timers + Gain(s, t, a)
  {
  }

  lemma TokensAfter(s: State, t: nat, a: Action)
    requires Enabled(s, t, a)
    ensures Tokens(Apply(s, t, a)) == Tokens(s) + Gain(s, t, a)
  {
    var s' := Apply(s, t, a);
    if !a.LevelUp? {
      hide Owners, Apply, Enabled, Gain, Pc.Owns;
      ThreadsAfter(s, t, a);
      DutyAfter(s, t, a);
      if t in s'.threads {
        OwnersAfterGo(s.threads, t, s'.threads[t]);
      } else {
        OwnersAfterDrop(s.threads, t);
      }
    }
  }

  // --------------------------------------------------------------- invariants

  /** The flag is set iff exactly one party has the duty. */
  ghost predicate OneToken(s: State) {
    Tokens(s) == if s.flag then 1 else 0
  }

  /** The store that ends a death finds the flag set. */
  predicate ClearsSetFlag(s: State, t: nat, a: Action)
    requires Enabled(s, t, a)
  {
    a.Store? && s.threads[t].Reborn? && s.flag
  }

  /** Exactly one kind of step breaks the flag's meaning: the unconditional store after a death. */
  lemma StepKeepsOneTokenIff(s: State, t: nat, a: Action)
    requires OneToken(s) && Enabled(s, t, a)
    ensures OneToken(Apply(s, t, a)) <==> !ClearsSetFlag(s, t, a)
  {
    TokensAfter(s, t, a);
    hide Tokens;
  }

  /** The flag is never set without a party that has the duty. */
  ghost predicate FlagHasOwner(s: State) {
    s.flag ==> Tokens(s) > 0
  }

  lemma StepKeepsFlagOwner(s: State, t: nat, a: Action)
    requires FlagHasOwner(s) && Enabled(s, t, a)
    ensures FlagHasOwner(Apply(s, t, a))
  {
    TokensAfter(s, t, a);
    hide Tokens;
  }

  /** The thread will see that health is not full, or start a timer anyway, or restore full health. */
  predicate Watches(s: State, pc: Pc) {
    match pc
    case Took => true
    case Standing => true
    case Checked => s.hp <= 0
    case Dying => true
    case Retry => true
    case Reading(stage, hp, max) =>
      stage == Recheck && (hp == None || hp == Some(s.hp)) && (max == None || max == Some(s.maxHp))
    case _ => false
  }

  ghost predicate Watched(s: State) {
    exists t :: t in s.threads && Watches(s, s.threads[t])
  }

  /** A hit player below full health has a party with the duty, or a thread about to create one. */
  ghost predicate NoLostWakeup(s: State) {
    s.hit && s.hp < s.maxHp ==> Tokens(s) > 0 || Watched(s)
  }

  /** A timer that found the player dead gives up, although the player is below full health again and
      nobody else has the duty or is about to take it. */
  ghost predicate LeavesUnattended(s: State, t: nat, a: Action)
    requires Enabled(s, t, a)
  {
    a.Store? && s.threads[t].DeadStop? && s.hit && s.hp < s.maxHp && Tokens(s) == 1 && !Watched(s)
  }

  /** A thread that watches now still does after another thread's step, unless the step fills health. */
  lemma WatcherStays(s: State, t: nat, a: Action, w: nat)
    requires Enabled(s, t, a) && w != t && w in s.threads && Watches(s, s.threads[w])
    requires Apply(s, t, a).hp == s.hp && Apply(s, t, a).maxHp == s.maxHp
    ensures w in Apply(s, t, a).threads && Watches(Apply(s, t, a), Apply(s, t, a).threads[w])
  {
  }

  /** Exactly one kind of step loses the wake-up: the store of a timer that gives up on a dead player. */
  lemma StepKeepsWakeupIff(s: State, t: nat, a: Action)
    requires FlagHasOwner(s) && NoLostWakeup(s) && Enabled(s, t, a)
    ensures NoLostWakeup(Apply(s, t, a)) <==> !LeavesUnattended(s, t, a)
  {
    if a.Store? && s.threads[t].DeadStop? {
      GivingUpLosesIff(s, t);
    } else {
      OtherStepKeepsWakeup(s, t, a);
    }
  }

  lemma GivingUpLosesIff(s: State, t: nat)
    requires NoLostWakeup(s) && t in s.threads && s.threads[t].DeadStop?
    ensures NoLostWakeup(Apply(s, t, Store)) <==> !LeavesUnattended(s, t, Store)
  {
    var s' := Apply(s, t, Store);
    TokensAfter(s, t, Store);
    if Watched(s) {
      var w :| w in s.threads && Watches(s, s.threads[w]);
      WatcherStays(s, t, Store, w);
    } else {
      forall w | w in s'.threads ensures !Watches(s', s'.threads[w]) {
        assert s'.threads[w] == s.threads[w];
      }
    }
    assert t in Owners(s.threads);
  }

  lemma OtherStepKeepsWakeup(s: State, t: nat, a: Action)
    requires FlagHasOwner(s) && NoLostWakeup(s) && Enabled(s, t, a)
    requires !(a.Store? && s.threads[t].DeadStop?)
    ensures NoLostWakeup(Apply(s, t, a))
  {
    var s' := Apply(s, t, a);
    StepKeepsFlagOwner(s, t, a);
    TokensAfter(s, t, a);
    assert a.Heal? ==> t in Owners(s.threads);
    if s'.hit && s'.hp < s'.maxHp && Tokens(s') == 0 {
      if a.Strike? || (a.Store? && s.threads[t].Stopping?) {
        assert Watches(s', s'.threads[t]);
      } else {
        var w :| w in s.threads && Watches(s, s.threads[w]);
        assert w in s'.threads && Watches(s', s'.threads[w]);
      }
    }
  }

  // --------------------------------------------------------------------- runs

  datatype Event = Event(t: nat, a: Action)

  predicate IsRun(s: State, events: seq<Event>)
    decreases |events|
  {
    events == [] || (Enabled(s, events[0].t, events[0].a) && IsRun(Apply(s, events[0].t, events[0].a), events[1..]))
  }

  function Run(s: State, events: seq<Event>): State
    requires IsRun(s, events)
    decreases |events|
  {
    if events == [] then s else Run(Apply(s, events[0].t, events[0].a), events[1..])
  }

  // ------------------------------------------------- the flag, over whole runs

  ghost predicate AlwaysOneToken(s: State, events: seq<Event>)
    requires IsRun(s, events)
    decreases |events|
  {
    OneToken(s) && (events == [] || AlwaysOneToken(Apply(s, events[0].t, events[0].a), events[1..]))
  }

  predicate NoSetFlagCleared(s: State, events: seq<Event>)
    requires IsRun(s, events)
    decreases |events|
  {
    events == [] || (!ClearsSetFlag(s, events[0].t, events[0].a)
                     && NoSetFlagCleared(Apply(s, events[0].t, events[0].a), events[1..]))
  }

  /** Under every interleaving, deaths included: the flag tells throughout whether exactly one party has
      the duty, if and only if no death clears a set flag. */
  lemma {:induction false} OneTokenIff(s: State, events: seq<Event>)
    requires OneToken(s) && IsRun(s, events)
    ensures AlwaysOneToken(s, events) <==> NoSetFlagCleared(s, events)
    decreases |events|
  {
    if events != [] {
      var next := Apply(s, events[0].t, events[0].a);
      StepKeepsOneTokenIff(s, events[0].t, events[0].a);
      if OneToken(next) {
        OneTokenIff(next, events[1..]);
      }
    }
  }

  lemma {:induction false} LastHasOneToken(s: State, events: seq<Event>)
    requires IsRun(s, events) && AlwaysOneToken(s, events)
    ensures OneToken(Run(s, events))
    decreases |events|
  {
    if events != [] {
      LastHasOneToken(Apply(s, events[0].t, events[0].a), events[1..]);
    }
  }

  // ------------------------------------------- the wake-up, over whole runs

  ghost predicate AlwaysWakes(s: State, events: seq<Event>)
    requires IsRun(s, events)
    decreases |events|
  {
    NoLostWakeup(s) && (events == [] || AlwaysWakes(Apply(s, events[0].t, events[0].a), events[1..]))
  }

  ghost predicate NobodyUnattended(s: State, events: seq<Event>)
    requires IsRun(s, events)
    decreases |events|
  {
    events == [] || (!LeavesUnattended(s, events[0].t, events[0].a)
                     && NobodyUnattended(Apply(s, events[0].t, events[0].a), events[1..]))
  }

  /** Under every interleaving, deaths included: no wake-up is ever lost, if and only if no timer that
      found the player dead gives up on a player that needs it again. */
  lemma {:induction false} NoWakeupIsLostIff(s: State, events: seq<Event>)
    requires FlagHasOwner(s) && NoLostWakeup(s) && IsRun(s, events)
    ensures AlwaysWakes(s, events) <==> NobodyUnattended(s, events)
    decreases |events|
  {
    if events != [] {
      var next := Apply(s, events[0].t, events[0].a);
      StepKeepsWakeupIff(s, events[0].t, events[0].a);
      StepKeepsFlagOwner(s, events[0].t, events[0].a);
      if NoLostWakeup(next) {
        NoWakeupIsLostIff(next, events[1..]);
      }
    }
  }

  lemma {:induction false} LastWakes(s: State, events: seq<Event>)
    requires IsRun(s, events) && AlwaysWakes(s, events)
    ensures NoLostWakeup(Run(s, events))
    decreases |events|
  {
    if events != [] {
      LastWakes(Apply(s, events[0].t, events[0].a), events[1..]);
    }
  }

  lemma StartIsFine(hp: int, maxHp: int)
    ensures FlagHasOwner(Start(hp, maxHp)) && NoLostWakeup(Start(hp, maxHp)) && OneToken(Start(hp, maxHp))
  {
    assert Owners(Start(hp, maxHp).threads) == {};
  }

  /** With all threads done, not losing the wake-up means a pending timer. */
  lemma QuietMeansPending(s: State)
    requires s.threads == map[]
    ensures NoLostWakeup(s) <==> (s.hit && s.hp < s.maxHp ==> s.timers > 0)
  {
    assert Owners(s.threads) == {};
  }

  /** In particular, when all threads of such a run are done, a hit player below full health has a timer pending. */
  lemma NoWakeupIsLost(hp: int, maxHp: int, events: seq<Event>)
    requires IsRun(Start(hp, maxHp), events) && NobodyUnattended(Start(hp, maxHp), events)
    ensures var s := Run(Start(hp, maxHp), events);
      s.threads == map[] && s.hit && s.hp < s.maxHp ==> s.timers > 0
  {
    StartIsFine(hp, maxHp);
    NoWakeupIsLostIff(Start(hp, maxHp), events);
    LastWakes(Start(hp, maxHp), events);
    var s := Run(Start(hp, maxHp), events);
    if s.threads == map[] {
      QuietMeansPending(s);
    }
  }

  /** A firing timer finds the player dead. */
  predicate FiresAtDead(s: State, t: nat, a: Action)
    requires Enabled(s, t, a)
  {
    a.TestDeath? && s.threads[t].Fired? && s.hp <= 0
  }

  predicate NeverFiresAtDead(s: State, events: seq<Event>)
    requires IsRun(s, events)
    decreases |events|
  {
    events == [] || (!FiresAtDead(s, events[0].t, events[0].a)
                     && NeverFiresAtDead(Apply(s, events[0].t, events[0].a), events[1..]))
  }

  /** A simpler condition that is enough: as long as no firing timer finds the player dead, none gives up. */
  lemma {:induction false} NeverFiringAtDeadIsEnough(s: State, events: seq<Event>)
    requires IsRun(s, events) && NeverFiresAtDead(s, events)
    requires forall t :: t in s.threads ==> !s.threads[t].DeadStop?
    ensures NobodyUnattended(s, events)
    decreases |events|
  {
    if events != [] {
      NeverFiringAtDeadIsEnough(Apply(s, events[0].t, events[0].a), events[1..]);
    }
  }

  // ------------------------------------------------------------------ one life

  /** The action is part of one life: the blow does not kill. */
  predicate NonLethal(s: State, a: Action) {
    a.Strike? ==> a.damage < s.hp
  }

  predicate NonLethalRun(s: State, events: seq<Event>)
    requires IsRun(s, events)
    decreases |events|
  {
    events == []
    || (NonLethal(s, events[0].a) && NonLethalRun(Apply(s, events[0].t, events[0].a), events[1..]))
  }

  ghost predicate Alive(s: State) {
    && 0 < s.hp && 0 < s.maxHp
    && forall t :: t in s.threads ==> !s.threads[t].Dying? && !s.threads[t].Reborn? && !s.threads[t].DeadStop?
  }

  lemma StepKeepsAlive(s: State, t: nat, a: Action)
    requires Alive(s) && Enabled(s, t, a) && NonLethal(s, a)
    ensures Alive(Apply(s, t, a)) && !ClearsSetFlag(s, t, a) && !LeavesUnattended(s, t, a)
  {
  }

  lemma {:induction false} OneLifeIsClean(s: State, events: seq<Event>)
    requires Alive(s) && IsRun(s, events) && NonLethalRun(s, events)
    ensures NoSetFlagCleared(s, events) && NobodyUnattended(s, events)
    decreases |events|
  {
    if events != [] {
      StepKeepsAlive(s, events[0].t, events[0].a);
      OneLifeIsClean(Apply(s, events[0].t, events[0].a), events[1..]);
    }
  }

  /** Within one life, under every interleaving: the flag tells whether exactly one party has the duty,
      there is never a second one, and when no thread is running a hit player below full health has
      exactly one pending timer. */
  lemma OneLife(hp: int, maxHp: int, events: seq<Event>)
    requires 0 < hp && 0 < maxHp && IsRun(Start(hp, maxHp), events) && NonLethalRun(Start(hp, maxHp), events)
    ensures var s := Run(Start(hp, maxHp), events);
      && Tokens(s) == (if s.flag then 1 else 0)
      && (s.threads == map[] && s.hit && s.hp < s.maxHp ==> s.flag && s.timers == 1)
  {
    var s0 := Start(hp, maxHp);
    StartIsFine(hp, maxHp);
    OneLifeIsClean(s0, events);
    OneTokenIff(s0, events);
    LastHasOneToken(s0, events);
    NoWakeupIsLost(hp, maxHp, events);
    var s := Run(s0, events);
    if s.threads == map[] {
      assert Owners(s.threads) == {};
    }
  }

  // -------------------------------------------------- what one thread achieves

  /** Only thread `t` acts; it strikes with `damage` and heals by `k`, if at all. */
  predicate Alone(events: seq<Event>, t: nat, damage: nat, k: nat) {
    forall e :: e in events ==> IsAlone(e, t, damage, k)
  }

  predicate IsAlone(e: Event, t: nat, damage: nat, k: nat) {
    && e.t == t && !e.a.LevelUp?
    && (e.a.Strike? ==> e.a.damage == damage) && (e.a.Heal? ==> e.a.amount == k)
  }

  /** The run ends as soon as no thread is left. */
  predicate Whole(s: State, events: seq<Event>)
    requires IsRun(s, events)
    decreases |events|
  {
    if s.threads == map[] then events == []
    else events != [] && Whole(Apply(s, events[0].t, events[0].a), events[1..])
  }

  predicate Read(o: Option<int>, v: int) {
    o == None || o == Some(v)
  }

  /** Where a firing can be when nobody else acts on a living player. */
  ghost predicate Acting(s: State, t: nat) {
    && t in s.threads && s.threads == map[t := s.threads[t]] && s.timers == 0 && 0 < s.hp <= s.maxHp
    && match s.threads[t]
       case Fired => s.flag
       case Reading(First, a, b) => s.flag && Read(a, s.hp) && Read(b, s.maxHp)
       case Healing => s.flag && s.hp < s.maxHp
       case Reading(Second, a, b) => s.flag && Read(a, s.hp) && Read(b, s.maxHp)
       case Again => s.flag && s.hp < s.maxHp
       case Stopping => s.flag && s.hp == s.maxHp
       case Reading(Recheck, a, b) => !s.flag && s.hp == s.maxHp && Read(a, s.hp) && Read(b, s.maxHp)
       case _ => false
  }

  /** Nobody acts: a timer is pending, or the player is at full health. */
  predicate Resting(s: State) {
    && s.threads == map[] && 0 < s.hp <= s.maxHp
    && s.timers == (if s.flag then 1 else 0) && (!s.flag ==> s.hp == s.maxHp)
  }

  function Healed(hp: int, max: int, k: nat): int {
    if hp + k < max then hp + k else max
  }

  /** Health during a firing of a player at `hp`. */
  predicate HealthWhile(pc: Pc, now: int, hp: int, max: int, k: nat) {
    match pc
    case Fired => now == hp
    case Reading(First, _, _) => now == hp
    case Healing => now == hp
    case _ => now == Healed(hp, max, k)
  }

  /** A firing that heals once stops at full health and goes on below it. */
  lemma FiringStep(s: State, t: nat, a: Action, hp: int, k: nat)
    requires Acting(s, t) && Enabled(s, t, a) && IsAlone(Event(t, a), t, 0, k) && HealthWhile(s.threads[t], s.hp, hp, s.maxHp, k)
    ensures var s' := Apply(s, t, a);
      && s'.maxHp == s.maxHp && s'.hit == s.hit
      && (Acting(s', t) || Resting(s'))
      && (Acting(s', t) ==> HealthWhile(s'.threads[t], s'.hp, hp, s.maxHp, k))
      && (Resting(s') ==> s'.hp == Healed(hp, s.maxHp, k) && s'.flag == (s'.hp < s.maxHp))
  {
    var s' := Apply(s, t, a);
    assert s'.threads == if t in s'.threads then map[t := s'.threads[t]] else map[];
  }

  lemma {:induction false} FiringRun(s: State, events: seq<Event>, t: nat, hp: int, k: nat)
    requires IsRun(s, events) && Alone(events, t, 0, k) && Whole(s, events)
    requires Acting(s, t) && HealthWhile(s.threads[t], s.hp, hp, s.maxHp, k)
    ensures var s' := Run(s, events);
      && Resting(s') && s'.maxHp == s.maxHp && s'.hit == s.hit
      && s'.hp == Healed(hp, s.maxHp, k) && s'.flag == (s'.hp < s.maxHp)
    decreases |events|
  {
    var next := Apply(s, events[0].t, events[0].a);
    assert events[0] in events && events[0] == Event(t, events[0].a);
    FiringStep(s, t, events[0].a, hp, k);
    assert forall e :: e in events[1..] ==> e in events;
    hide Enabled, Apply, HealthWhile, IsAlone;
    if Acting(next, t) {
      FiringRun(next, events[1..], t, hp, k);
    }
  }

  /** One undisturbed firing of a living player's timer, in whatever order it reads: the player is healed
      by `k` up to the maximum; at the maximum the flag is clear and no timer is left, and below it the
      flag is set and exactly one timer is pending. */
  lemma UndisturbedFiring(hp: int, max: int, h: bool, t: nat, k: nat, events: seq<Event>)
    requires 0 < hp <= max
    requires var s := State(hp, max, true, 1, map[], h);
      && IsRun(s, events) && events != [] && events[0] == Event(t, Fire) && Alone(events, t, 0, k)
      && Whole(Apply(s, t, Fire), events[1..])
    ensures var hp' := if hp + k < max then hp + k else max;
      Run(State(hp, max, true, 1, map[], h), events) ==
        if hp' == max then State(max, max, false, 0, map[], h) else State(hp', max, true, 1, map[], h)
  {
    var s := State(hp, max, true, 1, map[], h);
    var next := Apply(s, t, Fire);
    assert next.threads == map[t := Fired];
    assert forall e :: e in events[1..] ==> e in events;
    FiringRun(next, events[1..], t, hp, k);
  }

  /** Where a hit can be when nobody else acts; `s0` is the state before it. */
  ghost predicate Hitting(s: State, t: nat, s0: State, damage: nat) {
    && t in s.threads && s.threads == map[t := s.threads[t]] && s.maxHp == s0.maxHp
    && (if s.threads[t].Aiming? then s.hp == s0.hp && s.hit == s0.hit
        else if s.threads[t].Reborn? then s.hp == s0.maxHp && s.hit
        else s.hp == (if damage < s0.hp then s0.hp - damage else 0) && s.hit)
    && match s.threads[t]
       case Aiming => s.flag == s0.flag && s.timers == s0.timers
       case Took => s.flag == s0.flag && s.timers == s0.timers
       case Standing => s.flag == s0.flag && s.timers == s0.timers && s.hp > 0
       case Won(hitter) => hitter && !s0.flag && s.flag && s.timers == s0.timers && s.hp > 0
       case Checked =>
         if s.hp > 0 then s.flag && s.timers == s0.timers + (if s0.flag then 0 else 1)
         else s.flag == s0.flag && s.timers == s0.timers
       case Dying => s.timers == s0.timers && s.hp == 0
       case Reborn => s.timers == s0.timers && damage >= s0.hp
       case _ => false
  }

  /** The outcome of one hit. */
  function HasHit(s0: State, damage: nat): State {
    if damage < s0.hp then
      State(s0.hp - damage, s0.maxHp, true, s0.timers + (if s0.flag then 0 else 1), map[], true)
    else
      State(s0.maxHp, s0.maxHp, false, s0.timers, map[], true)
  }

  lemma HittingStep(s: State, t: nat, a: Action, s0: State, damage: nat)
    requires Hitting(s, t, s0, damage) && Enabled(s, t, a) && IsAlone(Event(t, a), t, damage, 0) && s0.hp > 0
    ensures var s' := Apply(s, t, a); if s'.threads == map[] then s' == HasHit(s0, damage) else Hitting(s', t, s0, damage)
  {
    var s' := Apply(s, t, a);
    assert s'.threads == if t in s'.threads then map[t := s'.threads[t]] else map[];
  }

  lemma {:induction false} HittingRun(s: State, events: seq<Event>, t: nat, s0: State, damage: nat)
    requires IsRun(s, events) && Alone(events, t, damage, 0) && Whole(s, events) && Hitting(s, t, s0, damage) && s0.hp > 0
    ensures Run(s, events) == HasHit(s0, damage)
    decreases |events|
  {
    var next := Apply(s, events[0].t, events[0].a);
    assert events[0] in events && events[0] == Event(t, events[0].a);
    HittingStep(s, t, events[0].a, s0, damage);
    assert forall e :: e in events[1..] ==> e in events;
    hide Enabled, Apply, IsAlone;
    if next.threads != map[] {
      HittingRun(next, events[1..], t, s0, damage);
    }
  }

  /** One undisturbed hit on a living player: a blow that leaves health leaves a timer, a new one exactly
      if the flag was clear; any other brings the player back at full health with the flag clear. */
  lemma UndisturbedHit(hp: int, max: int, flag: bool, timers: nat, h: bool, t: nat, damage: nat, events: seq<Event>)
    requires 0 < hp
    requires var s := State(hp, max, flag, timers, map[], h);
      && IsRun(s, events) && events != [] && events[0] == Event(t, Aim) && Alone(events, t, damage, 0)
      && Whole(Apply(s, t, Aim), events[1..])
    ensures Run(State(hp, max, flag, timers, map[], h), events) ==
      if damage < hp then State(hp - damage, max, true, if flag then timers else timers + 1, map[], true)
      else State(max, max, false, timers, map[], true)
  {
    var s := State(hp, max, flag, timers, map[], h);
    var next := Apply(s, t, Aim);
    assert next.threads == map[t := Aiming];
    assert forall e :: e in events[1..] ==> e in events;
    HittingRun(next, events[1..], t, s, damage);
  }

  // -------------------------------------------------------- after the last hit

  /** No more hits, no levels gained, and every healing heals something. */
  predicate Peaceful(a: Action) {
    !a.Aim? && !a.LevelUp? && (a.Heal? ==> a.amount > 0)
  }

  ghost predicate Calm(s: State, t: nat) {
    Resting(s) || Acting(s, t)
  }

  function Unread(o: Option<int>): nat {
    if o == None then 1 else 0
  }

  function Stages(pc: Pc): nat {
    match pc
    case Fired => 15
    case Reading(First, a, b) => 12 + Unread(a) + Unread(b)
    case Healing => 11
    case Reading(Second, a, b) => 18 + Unread(a) + Unread(b)
    case Again => 17
    case Stopping => 5
    case Reading(Recheck, a, b) => 2 + Unread(a) + Unread(b)
    case _ => 0
  }

  /** How much is left to do: the health that is missing, then the stages of the firing. */
  ghost function Left(s: State, t: nat): nat
    requires Calm(s, t)
  {
    16 * (s.maxHp - s.hp) + if s.threads == map[] then 16 * s.timers else Stages(s.threads[t])
  }

  lemma PeacefulStep(s: State, t: nat, u: nat, a: Action)
    requires Calm(s, t) && Enabled(s, u, a) && Peaceful(a)
    ensures var s' := Apply(s, u, a);
      Calm(s', u) && s'.maxHp == s.maxHp && s'.hit == s.hit && Left(s', u) < Left(s, t)
  {
    var s' := Apply(s, u, a);
    assert s'.threads == if u in s'.threads then map[u := s'.threads[u]] else map[];
  }

  predicate AllPeaceful(events: seq<Event>) {
    forall e :: e in events ==> Peaceful(e.a)
  }

  lemma {:induction false} PeacefulRun(s: State, t: nat, events: seq<Event>) returns (u: nat)
    requires Calm(s, t) && IsRun(s, events) && AllPeaceful(events)
    ensures |events| <= Left(s, t) && Calm(Run(s, events), u)
    ensures Run(s, events).maxHp == s.maxHp && Run(s, events).hit == s.hit
    decreases |events|
  {
    u := t;
    if events != [] {
      assert events[0] in events && forall e :: e in events[1..] ==> e in events;
      PeacefulStep(s, t, events[0].t, events[0].a);
      hide Calm, Left, Enabled, Apply, Peaceful;
      u := PeacefulRun(Apply(s, events[0].t, events[0].a), events[0].t, events[1..]);
    }
  }

  /** Until the player is at full health with the flag clear and no timer, there is always something to do. */
  lemma SomethingToDo(s: State, t: nat)
    requires Calm(s, t) && s != State(s.maxHp, s.maxHp, false, 0, map[], s.hit)
    ensures exists u, a :: Enabled(s, u, a) && Peaceful(a)
  {
    if s.threads == map[] {
      assert Enabled(s, 0, Fire) && Peaceful(Fire);
    } else {
      var a := match s.threads[t]
        case Fired => TestDeath
        case Reading(_, hp, max) => if hp == None then ReadHp else if max == None then ReadMax else Decide
        case Healing => Heal(1)
        case Again => Action.AddTimer
        case _ => Store;
      assert Enabled(s, t, a) && Peaceful(a);
    }
  }

  /** After the last hit regeneration ends: a run without further hits from a pending timer is no longer
      than the missing health allows, and where it can go no further the player is at full health, with the
      flag clear and no timer. */
  lemma RegenerationEnds(hp: int, max: int, h: bool, events: seq<Event>)
    requires 0 < hp <= max && IsRun(State(hp, max, true, 1, map[], h), events) && AllPeaceful(events)
    ensures |events| <= 16 * (max - hp) + 16
    ensures var s := Run(State(hp, max, true, 1, map[], h), events);
      (forall u, a :: !(Enabled(s, u, a) && Peaceful(a))) ==> s == State(max, max, false, 0, map[], h)
  {
    var t := PeacefulRun(State(hp, max, true, 1, map[], h), 0, events);
    var s := Run(State(hp, max, true, 1, map[], h), events);
    if s != State(max, max, false, 0, map[], h) {
      SomethingToDo(s, t);
    }
  }

  // ------------------------------------------------------------ across a death

  lemma {:induction false} RunAppend(s: State, a: seq<Event>, b: seq<Event>)
    requires IsRun(s, a) && IsRun(Run(s, a), b)
    ensures IsRun(s, a + b) && Run(s, a + b) == Run(Run(s, a), b)
    decreases |a|
  {
    if a == [] {
      assert a + b == b;
    } else {
      assert (a + b)[1..] == a[1..] + b;
      RunAppend(Apply(s, a[0].t, a[0].a), a[1..], b);
    }
  }

  /** A run so far, and the state it leads to. */
  datatype Trace = Trace(start: State, events: seq<Event>, now: State) {
    ghost predicate Ok() {
      IsRun(start, events) && Run(start, events) == now
    }
  }

  lemma Then(r: Trace, t: nat, a: Action) returns (r': Trace)
    requires r.Ok() && Enabled(r.now, t, a)
    ensures r'.Ok() && r'.start == r.start && r'.now == Apply(r.now, t, a)
  {
    var next := Apply(r.now, t, a);
    assert IsRun(next, []) && IsRun(r.now, [Event(t, a)]) && Run(r.now, [Event(t, a)]) == next;
    RunAppend(r.start, r.events, [Event(t, a)]);
    r' := Trace(r.start, r.events + [Event(t, a)], next);
  }

  /** A whole hit by a fresh thread on a player whose flag is clear. */
  lemma ThenHit(r: Trace, t: nat, damage: nat) returns (r': Trace)
    requires r.Ok() && t !in r.now.threads && damage < r.now.hp && !r.now.flag
    ensures r'.Ok() && r'.start == r.start
    ensures r'.now == r.now.(hp := r.now.hp - damage, flag := true, timers := r.now.timers + 1, hit := true)
  {
    hide IsRun, Run;
    r' := Then(r, t, Aim);
    r' := Then(r', t, Strike(damage));
    r' := Then(r', t, TestDeath);
    r' := Then(r', t, TryStart);
    r' := Then(r', t, AddTimer);
    r' := Then(r', t, TestDeath);
    assert r'.now.threads == r.now.threads;
  }

  /** A concrete run in which a death leaves a pending timer behind a cleared flag, so that the next
      hit registers a second timer: two timers then run side by side for one player. */
  lemma DeathForksTheTimer() returns (r: Trace)
    ensures r.Ok() && r.start == Start(100, 100)
    ensures r.now.threads == map[] && r.now.timers == 2 && !OneToken(r.now)
  {
    r := Trace(Start(100, 100), [], Start(100, 100));
    assert r.Ok();
    hide IsRun, Run;
    r := ThenHit(r, 1, 10);
    r := Then(r, 2, Aim);
    r := Then(r, 2, Strike(90));
    r := Then(r, 2, TestDeath);
    r := Then(r, 2, TestDeath);
    r := Then(r, 2, Die);
    r := Then(r, 2, Store);
    assert r.now == State(100, 100, false, 1, map[], true);
    r := ThenHit(r, 3, 10);
    assert Owners(r.now.threads) == {};
  }

  /** A lethal blow by thread 2 while a timer is pending, which then fires and finds the player dead. */
  lemma TimerMeetsBlow() returns (r: Trace)
    ensures r.Ok() && r.start == Start(100, 100)
    ensures r.now == State(0, 100, true, 0, map[2 := Took, 3 := DeadStop], true)
  {
    r := Trace(Start(100, 100), [], Start(100, 100));
    assert r.Ok();
    hide IsRun, Run;
    r := ThenHit(r, 1, 10);
    assert r.now == State(90, 100, true, 1, map[], true);
    r := Then(r, 2, Aim);
    r := Then(r, 2, Strike(90));
    assert r.now == State(0, 100, true, 1, map[2 := Took], true);
    r := Then(r, 3, Fire);
    r := Then(r, 3, TestDeath);
  }

  /** Up to the moment where the dead player's timer has decided to stop without looking again. */
  lemma TimerMeetsDeath() returns (r: Trace)
    ensures r.Ok() && r.start == Start(100, 100)
    ensures r.now == State(100, 100, true, 0, map[2 := Reborn, 3 := DeadStop], true)
  {
    hide IsRun, Run;
    r := TimerMeetsBlow();
    r := Then(r, 2, TestDeath);
    r := Then(r, 2, TestDeath);
    r := Then(r, 2, Die);
  }

  /** A concrete run in which a timer fires between a lethal blow and the reset that follows it, and a
      third thread's hit lands after the reset: the hit finds the flag still set, the timer then clears
      it without looking again, and the player is left below full health with no timer at all. */
  lemma DeathLosesTheWakeup() returns (r: Trace)
    ensures r.Ok() && r.start == Start(100, 100)
    ensures r.now.threads == map[] && r.now.timers == 0 && r.now.hit && r.now.hp < r.now.maxHp
    ensures !NoLostWakeup(r.now)
  {
    hide IsRun, Run;
    r := TimerMeetsDeath();
    r := Then(r, 4, Aim);
    r := Then(r, 4, Strike(10));
    r := Then(r, 4, TestDeath);
    assert r.now == State(90, 100, true, 0, map[2 := Reborn, 3 := DeadStop, 4 := Standing], true);
    r := Then(r, 4, TryStart);
    r := Then(r, 4, TestDeath);
    assert r.now == State(90, 100, true, 0, map[2 := Reborn, 3 := DeadStop], true);
    r := Then(r, 3, Store);
    r := Then(r, 2, Store);
    assert r.now == State(90, 100, false, 0, map[], true);
    assert Owners(r.now.threads) == {};
  }
}
