/** The game world as a step relation. A state holds the position of every live object, what each
    client has been told, and the monsters' activation flags and timers. Every handler of the server
    is one step, or a short run of steps; the clock, random choices and the outcome of blows are free. */
module World {
  import opened Grid
  import opened Sectors

  const AI_TICK: int := 1000
  const RESPAWN_DELAY: int := 30000

  // ------------------------------------------------------------ what clients see

  /** A client's table of remote objects. */
  type Replica = map<ObjectId, Pos>

  datatype Packet =
    | Add(id: ObjectId, pos: Pos)
    | Remove(id: ObjectId)
    | Move(id: ObjectId, pos: Pos)

  /** What the client of player `me` does with a packet. A move of its own character is applied to
      the character, not to the table; a move of an unknown object is ignored. */
  function Receive(me: ObjectId, r: Replica, p: Packet): Replica {
    match p
    case Add(id, pos) => r[id := pos]
    case Remove(id) => r - {id}
    case Move(id, pos) => if id != me && id in r then r[id := pos] else r
  }

  function ReceiveAll(me: ObjectId, packets: seq<Packet>): Replica {
    if packets == [] then map[]
    else Receive(me, ReceiveAll(me, packets[..|packets| - 1]), packets[|packets| - 1])
  }

  /** Where the client of player `me` shows its own character: at the login position, until a move of its
      own id says otherwise. */
  function OwnAfter(me: ObjectId, start: Pos, packets: seq<Packet>): Pos {
    if packets == [] then start
    else
      var last := packets[|packets| - 1];
      if last.Move? && last.id == me then last.pos else OwnAfter(me, start, packets[..|packets| - 1])
  }

  /** Brute force: `o` is another live object within the view square of player `p`. */
  predicate Sees(t: Terrain, at: map<ObjectId, Pos>, p: ObjectId, o: ObjectId) {
    p in at && o in at && o != p && t.InView(at[p], at[o])
  }

  function View(t: Terrain, at: map<ObjectId, Pos>, p: ObjectId): Replica {
    map o | o in at && Sees(t, at, p, o) :: at[o]
  }

  /** The table shows exactly the objects in view, each at its server position. */
  ghost predicate Exact(t: Terrain, at: map<ObjectId, Pos>, p: ObjectId, r: Replica) {
    forall o :: (o in r <==> Sees(t, at, p, o)) && (o in r ==> r[o] == at[o])
  }

  /** The table shows at least the objects in view, each at its server position. */
  ghost predicate Complete(t: Terrain, at: map<ObjectId, Pos>, p: ObjectId, r: Replica) {
    forall o :: Sees(t, at, p, o) ==> o in r && r[o] == at[o]
  }

  lemma ExactIsView(t: Terrain, at: map<ObjectId, Pos>, p: ObjectId, r: Replica)
    ensures Exact(t, at, p, r) <==> r == View(t, at, p)
  {
    forall o ensures o in View(t, at, p) <==> Sees(t, at, p, o) {
    }
    if Exact(t, at, p, r) {
      assert forall o :: o in r <==> o in View(t, at, p);
    }
  }

  /** The view set the server computes for `me` at position `c`; monsters do not watch monsters. */
  function ViewSet(t: Terrain, at: map<ObjectId, Pos>, me: ObjectId, c: Pos): set<ObjectId> {
    set o | o in at && o != me && t.InView(c, at[o]) && (IsPlayerId(me) || IsPlayerId(o))
  }

  /** ProcessMoveView: the diff between the view sets at the old and the new position, as every
      client's table after it. */
  function AfterMove(t: Terrain, at: map<ObjectId, Pos>, seen: map<ObjectId, Replica>, id: ObjectId, from: Pos)
    : map<ObjectId, Replica>
    requires id in at
  {
    var before, after := ViewSet(t, at, id, from), ViewSet(t, at, id, at[id]);
    map q | q in seen ::
      if q == id then seen[q] + (map o | o in after - before :: at[o]) - (before - after)
      else if q in after && q !in before then Receive(q, seen[q], Add(id, at[id]))
      else if q in before && q !in after then Receive(q, seen[q], Remove(id))
      else if q in after then Receive(q, seen[q], Move(id, at[id]))
      else seen[q]
  }

  /** SendFullView and BroadcastAddMonster: whoever is in view learns about `id`, and `id` about them. */
  function AfterEnter(t: Terrain, at: map<ObjectId, Pos>, seen: map<ObjectId, Replica>, id: ObjectId)
    : map<ObjectId, Replica>
    requires id in at
  {
    map q | q in seen ::
      if q == id then seen[q] + View(t, at, id)
      else if q in ViewSet(t, at, id, at[id]) then Receive(q, seen[q], Add(id, at[id]))
      else seen[q]
  }

  /** SendDisappear and a monster's death: whoever is in view forgets `id`. */
  function AfterVanish(t: Terrain, at: map<ObjectId, Pos>, seen: map<ObjectId, Replica>, id: ObjectId)
    : map<ObjectId, Replica>
    requires id in at
  {
    map q | q in seen :: if q in ViewSet(t, at, id, at[id]) then Receive(q, seen[q], Remove(id)) else seen[q]
  }

  // ----------------------------------------------------------------- the state

  datatype Kind = Ai | Respawn

  datatype Timer = Timer(due: int, kind: Kind, target: ObjectId)

  /** The fixed part: the map, and each monster's spawn tile. */
  datatype Realm = Realm(t: Terrain, spawn: map<ObjectId, Pos>)

  datatype State = State(
    at: map<ObjectId, Pos>,          // live objects
    seen: map<ObjectId, Replica>,    // logged-in players and what their clients show
    active: set<ObjectId>,           // monsters whose activation flag is set
    timers: multiset<Timer>,         // the timer queue
    firing: set<ObjectId>,           // monsters whose AI timer is being handled
    clock: int,
    fallen: set<ObjectId>)           // players that died since they logged in

  /** Monsters that ActivateNearbyMonsters at `c` switches on. */
  function Woken(t: Terrain, s: State, c: Pos): set<ObjectId> {
    set m | m in s.at && !IsPlayerId(m) && t.InView(c, s.at[m]) && m !in s.active
  }

  function AiTimers(ms: set<ObjectId>, due: int): multiset<Timer> {
    multiset(set m | m in ms :: Timer(due, Ai, m))
  }

  function Wake(t: Terrain, s: State, c: Pos): State {
    s.(active := s.active + Woken(t, s, c), timers := s.timers + AiTimers(Woken(t, s, c), s.clock + AI_TICK))
  }

  /** Some player has monster `m` in view. */
  predicate Observed(t: Terrain, at: map<ObjectId, Pos>, m: ObjectId)
    requires m in at
  {
    exists p :: p in at && IsPlayerId(p) && t.InView(at[p], at[m])
  }

  datatype Step =
    | Login(id: ObjectId, c: Pos, p: Pos)     // a player enters near its stored position
    | Walk(id: ObjectId, d: int)
    | Teleport(id: ObjectId, c: Pos, p: Pos)
    | Leave(id: ObjectId)
    | Perish(id: ObjectId, p: Pos)            // a player dies and reappears near (0, 0)
    | Slay(m: ObjectId)                       // a monster dies
    | Tick(now: int)
    | AiFire(e: Timer)                        // an AI timer is popped
    | MonsterWalk(m: ObjectId, p: Pos)        // ... its monster moves ...
    | AiDone(m: ObjectId)                     // ... and the next AI timer is registered
    | RespawnFire(e: Timer, p: Pos)
    | RespawnRetry(e: Timer)                  // no free tile around the spawn

  /** The event the timer thread hands out: due, and no later than any other. */
  ghost predicate Pops(s: State, e: Timer) {
    e in s.timers && e.due <= s.clock && forall x :: x in s.timers ==> e.due <= x.due
  }

  const ORIGIN: Pos := Pos(0, 0)

  ghost predicate Enabled(w: Realm, s: State, a: Step) {
    match a
    case Login(id, c, p) => IsPlayerId(id) && id !in s.at && FirstFree(w.t, s.at, c, CLAIM_RADIUS, p)
    case Walk(id, d) => id in s.at && IsPlayerId(id) && 0 <= d < 4 && Free(w.t, s.at, Grid.Step(s.at[id], d))
    case Teleport(id, c, p) => id in s.at && IsPlayerId(id) && FirstFree(w.t, s.at - {id}, c, CLAIM_RADIUS, p)
    case Leave(id) => id in s.at && IsPlayerId(id)
    case Perish(id, p) => id in s.at && IsPlayerId(id) && FirstFree(w.t, s.at - {id}, ORIGIN, CLAIM_RADIUS, p)
    case Slay(m) => m in s.at && !IsPlayerId(m) && m !in s.firing
    case Tick(now) => s.clock <= now
    case AiFire(e) => e.kind == Ai && Pops(s, e)
    case MonsterWalk(m, p) =>
      && m in s.at && m in s.firing && m in w.spawn
      && Adjacent(s.at[m], p) && Chebyshev(p, w.spawn[m]) <= ROAMING_RANGE && Free(w.t, s.at, p)
    case AiDone(m) => m in s.firing
    case RespawnFire(e, p) =>
      && e.kind == Respawn && Pops(s, e) && e.target in w.spawn && e.target !in s.at
      && FirstFree(w.t, s.at, w.spawn[e.target], CLAIM_RADIUS, p)
    case RespawnRetry(e) =>
      && e.kind == Respawn && Pops(s, e) && e.target in w.spawn && e.target !in s.at
      && NoneFree(w.t, s.at, w.spawn[e.target], CLAIM_RADIUS)
  }

  /** A player stands at `p` now: the diff against `from` is sent and monsters there wake up. */
  function Relocate(w: Realm, s: State, id: ObjectId, p: Pos): State
    requires id in s.at
  {
    var at := s.at[id := p];
    Wake(w.t, s.(at := at, seen := AfterMove(w.t, at, s.seen, id, s.at[id])), p)
  }

  ghost function Apply(w: Realm, s: State, a: Step): State
    requires Enabled(w, s, a)
  {
    match a
    case Login(id, _, p) =>
      var at := s.at[id := p];
      Wake(w.t, s.(at := at, seen := AfterEnter(w.t, at, s.seen[id := map[]], id), fallen := s.fallen - {id}), p)
    case Walk(id, d) => Relocate(w, s, id, Grid.Step(s.at[id], d))
    case Teleport(id, _, p) => Relocate(w, s, id, p)
    case Leave(id) =>
      s.(at := s.at - {id}, seen := AfterVanish(w.t, s.at, s.seen, id) - {id}, fallen := s.fallen - {id})
    case Perish(id, p) =>
      var at := s.at[id := p];
      var gone := AfterVanish(w.t, s.at, s.seen, id);
      Wake(w.t, s.(at := at, seen := AfterEnter(w.t, at, gone, id), fallen := s.fallen + {id}), p)
    case Slay(m) =>
      s.(at := s.at - {m}, seen := AfterVanish(w.t, s.at, s.seen, m),
         timers := s.timers + multiset{Timer(s.clock + RESPAWN_DELAY, Respawn, m)})
    case Tick(now) => s.(clock := now)
    case AiFire(e) =>
      var s' := s.(timers := s.timers - multiset{e});
      if e.target !in s.at then s'
      else if !Observed(w.t, s.at, e.target) then s'.(active := s.active - {e.target})
      else s'.(firing := s.firing + {e.target})
    case MonsterWalk(m, p) =>
      var at := s.at[m := p];
      s.(at := at, seen := AfterMove(w.t, at, s.seen, m, s.at[m]))
    case AiDone(m) =>
      s.(firing := s.firing - {m}, timers := s.timers + multiset{Timer(s.clock + AI_TICK, Ai, m)})
    case RespawnFire(e, p) =>
      var m, at := e.target, s.at[e.target := p];
      var s' := s.(at := at, seen := AfterEnter(w.t, at, s.seen, m), timers := s.timers - multiset{e});
      if Observed(w.t, at, m) then
        s'.(active := s.active + {m}, timers := s'.timers + multiset{Timer(s.clock + AI_TICK, Ai, m)})
      else
        s'.(active := s.active - {m})
    case RespawnRetry(e) =>
      s.(timers := s.timers - multiset{e} + multiset{Timer(s.clock + RESPAWN_DELAY, Respawn, e.target)})
  }

  // ----------------------------------------------------------------- invariants

  /** Nobody shares a tile, everybody stands on a passable one, and monsters keep near their spawn. */
  ghost predicate Placed(w: Realm, at: map<ObjectId, Pos>) {
    && Exclusive(at)
    && (forall id :: id in at ==> w.t.Walkable(at[id]))
    && (forall m :: m in at && !IsPlayerId(m) ==> m in w.spawn && Chebyshev(at[m], w.spawn[m]) <= ROAMING_RANGE)
    && (forall m :: m in w.spawn ==> !IsPlayerId(m))
  }

  /** The client's table contains its view, and equals it unless its player has died. */
  ghost predicate ClientOk(w: Realm, s: State, p: ObjectId)
    requires p in s.seen
  {
    Complete(w.t, s.at, p, s.seen[p]) && (p !in s.fallen ==> Exact(w.t, s.at, p, s.seen[p]))
  }

  ghost predicate Replicated(w: Realm, s: State) {
    && (forall p :: p in s.seen <==> p in s.at && IsPlayerId(p))
    && s.fallen <= s.seen.Keys
    && (forall p :: p in s.seen ==> ClientOk(w, s, p))
  }

  predicate Mine(e: Timer, kind: Kind, m: ObjectId) {
    e.kind == kind && e.target == m
  }

  /** `part` holds the entries of `q` that are of one kind and for one monster, and nothing else. */
  ghost predicate IsPending(q: multiset<Timer>, kind: Kind, m: ObjectId, part: multiset<Timer>) {
    forall x :: part[x] == if Mine(x, kind, m) then q[x] else 0
  }

  lemma {:induction false} PendingExists(q: multiset<Timer>, kind: Kind, m: ObjectId)
    ensures exists part :: IsPending(q, kind, m, part)
    decreases |q|
  {
    if |q| == 0 {
      assert IsPending(q, kind, m, multiset{});
    } else {
      var e :| e in q;
      PendingExists(q - multiset{e}, kind, m);
      var part :| IsPending(q - multiset{e}, kind, m, part);
      assert IsPending(q, kind, m, part + if Mine(e, kind, m) then multiset{e} else multiset{});
    }
  }

  ghost function Pending(q: multiset<Timer>, kind: Kind, m: ObjectId): (part: multiset<Timer>)
    ensures IsPending(q, kind, m, part)
  {
    PendingExists(q, kind, m);
    var part :| IsPending(q, kind, m, part);
    part
  }

  ghost function Count(q: multiset<Timer>, kind: Kind, m: ObjectId): nat {
    |Pending(q, kind, m)|
  }

  /** Every AI timer of the monster comes out of the queue before every respawn of it. */
  ghost predicate StaleFirst(q: multiset<Timer>, m: ObjectId) {
    forall a, r :: a in q && r in q && Mine(a, Ai, m) && Mine(r, Respawn, m) ==> a.due < r.due
  }

  /** A live monster has no respawn pending, and one AI timer exactly when its flag is set and the
      timer is not being handled; a dead one has one respawn pending and at most one stale AI timer,
      which comes out of the queue before the respawn. */
  ghost predicate MonsterTimers(s: State, m: ObjectId) {
    if m in s.at then
      && Count(s.timers, Respawn, m) == 0
      && Count(s.timers, Ai, m) == if m in s.active && m !in s.firing then 1 else 0
    else
      Count(s.timers, Respawn, m) == 1 && Count(s.timers, Ai, m) <= 1 && StaleFirst(s.timers, m)
  }

  ghost predicate AllTimers(w: Realm, s: State) {
    forall m :: m in w.spawn ==> MonsterTimers(s, m)
  }

  /** Timers are for monsters, AI timers are at most one tick ahead, and only live, active monsters
      have their AI timer handled. */
  ghost predicate QueueSane(w: Realm, s: State) {
    && (forall e :: e in s.timers ==> e.target in w.spawn && (e.kind == Ai ==> e.due <= s.clock + AI_TICK))
    && (forall m :: m in s.firing ==> m in s.at && m in s.active && m in w.spawn)
  }

  ghost predicate Scheduled(w: Realm, s: State) {
    AllTimers(w, s) && QueueSane(w, s)
  }

  /** No monster that some player can see is asleep. */
  ghost predicate Awake(w: Realm, s: State) {
    forall m :: m in s.at && !IsPlayerId(m) && Observed(w.t, s.at, m) ==> m in s.active
  }

  ghost predicate Inv(w: Realm, s: State) {
    Placed(w, s.at) && Replicated(w, s) && Scheduled(w, s) && Awake(w, s)
  }

  // ------------------------------------------------------- placement is kept

  lemma PutKeepsPlaced(w: Realm, at: map<ObjectId, Pos>, id: ObjectId, p: Pos)
    requires Placed(w, at) && Free(w.t, at - {id}, p)
    requires IsPlayerId(id) || (id in w.spawn && Chebyshev(p, w.spawn[id]) <= ROAMING_RANGE)
    ensures Placed(w, at[id := p])
  {
    forall o | o in at && o != id ensures at[o] != p {
      assert o in at - {id};
    }
  }

  lemma StepKeepsPlaced(w: Realm, s: State, a: Step)
    requires Placed(w, s.at) && Enabled(w, s, a)
    ensures Placed(w, Apply(w, s, a).at)
  {
    match a
    case Login(id, _, p) => PutKeepsPlaced(w, s.at, id, p);
    case Walk(id, d) => PutKeepsPlaced(w, s.at, id, Grid.Step(s.at[id], d));
    case Teleport(id, _, p) => PutKeepsPlaced(w, s.at, id, p);
    case Perish(id, p) => PutKeepsPlaced(w, s.at, id, p);
    case MonsterWalk(m, p) => PutKeepsPlaced(w, s.at, m, p);
    case RespawnFire(e, p) =>
      assert Chebyshev(p, w.spawn[e.target]) == Chebyshev(w.spawn[e.target], p);
      PutKeepsPlaced(w, s.at, e.target, p);
    case _ =>
  }

  // ------------------------------------------------------------ views are kept

  /** The new table is complete, and exact if the old one was. */
  ghost predicate Follows(t: Terrain, q: ObjectId, at: map<ObjectId, Pos>, r: Replica, at': map<ObjectId, Pos>, r': Replica) {
    Complete(t, at', q, r') && (Exact(t, at, q, r) ==> Exact(t, at', q, r'))
  }

  /** One client across a move: the diff keeps its table complete, and exact if it was exact. */
  lemma MoveKeepsView(t: Terrain, at: map<ObjectId, Pos>, seen: map<ObjectId, Replica>, id: ObjectId, p: Pos, q: ObjectId)
    requires id in at && q in seen && q in at && IsPlayerId(q) && Complete(t, at, q, seen[q])
    ensures var at' := at[id := p]; var seen' := AfterMove(t, at', seen, id, at[id]);
      q in seen' && Follows(t, q, at, seen[q], at', seen'[q])
  {
    var at' := at[id := p];
    var seen' := AfterMove(t, at', seen, id, at[id]);
    var before, after := ViewSet(t, at', id, at[id]), ViewSet(t, at', id, p);
    if q != id {
      assert q in before <==> Sees(t, at, q, id);
      assert q in after <==> Sees(t, at', q, id);
      assert forall o :: o != id ==> (Sees(t, at', q, o) <==> Sees(t, at, q, o));
    } else {
      assert forall o :: o in before <==> Sees(t, at, id, o);
      assert forall o :: o in after <==> Sees(t, at', id, o);
    }
  }

  lemma EnterKeepsView(t: Terrain, at: map<ObjectId, Pos>, seen: map<ObjectId, Replica>, id: ObjectId, p: Pos, q: ObjectId)
    requires id !in at && q in seen && q in at && IsPlayerId(q) && Complete(t, at, q, seen[q])
    ensures var at' := at[id := p]; var seen' := AfterEnter(t, at', seen, id);
      q in seen' && Follows(t, q, at, seen[q], at', seen'[q])
  {
    var at' := at[id := p];
    assert q in ViewSet(t, at', id, p) <==> Sees(t, at', q, id);
    assert forall o :: o != id ==> (Sees(t, at', q, o) <==> Sees(t, at, q, o));
  }

  lemma VanishKeepsView(t: Terrain, at: map<ObjectId, Pos>, seen: map<ObjectId, Replica>, id: ObjectId, q: ObjectId)
    requires id in at && q in seen && q in at && q != id && IsPlayerId(q) && Complete(t, at, q, seen[q])
    ensures var seen' := AfterVanish(t, at, seen, id);
      q in seen' && Follows(t, q, at, seen[q], at - {id}, seen'[q])
  {
    assert q in ViewSet(t, at, id, at[id]) <==> Sees(t, at, q, id);
    assert forall o :: o != id ==> (Sees(t, at - {id}, q, o) <==> Sees(t, at, q, o));
  }

  lemma MoveKeepsReplicated(w: Realm, s: State, id: ObjectId, p: Pos)
    requires Replicated(w, s) && id in s.at
    ensures var at := s.at[id := p]; Replicated(w, s.(at := at, seen := AfterMove(w.t, at, s.seen, id, s.at[id])))
  {
    var at := s.at[id := p];
    var s' := s.(at := at, seen := AfterMove(w.t, at, s.seen, id, s.at[id]));
    hide Complete, Exact;
    forall q | q in s.seen ensures q in s'.seen && ClientOk(w, s', q) {
      assert ClientOk(w, s, q);
      MoveKeepsView(w.t, s.at, s.seen, id, p, q);
    }
    assert s'.seen.Keys == s.seen.Keys;
  }

  lemma FirstViewIsExact(t: Terrain, at: map<ObjectId, Pos>, seen: map<ObjectId, Replica>, id: ObjectId)
    requires id in at && id in seen && seen[id] == map[]
    ensures var r := AfterEnter(t, at, seen, id)[id]; Exact(t, at, id, r) && Complete(t, at, id, r)
  {
    assert map[] + View(t, at, id) == View(t, at, id);
    ExactIsView(t, at, id, View(t, at, id));
  }

  /** `id` appears at `p`; the clients of the players that were there before follow. */
  lemma EnterFollows(w: Realm, s: State, id: ObjectId, p: Pos, seen: map<ObjectId, Replica>, q: ObjectId)
    requires Replicated(w, s) && id !in s.at && q in s.seen && q in seen && seen[q] == s.seen[q]
    ensures var at := s.at[id := p]; var seen' := AfterEnter(w.t, at, seen, id);
      q in seen' && Follows(w.t, q, s.at, s.seen[q], at, seen'[q])
  {
    assert ClientOk(w, s, q);
    EnterKeepsView(w.t, s.at, seen, id, p, q);
  }

  lemma LoginKeepsReplicated(w: Realm, s: State, id: ObjectId, p: Pos)
    requires Replicated(w, s) && id !in s.at && IsPlayerId(id)
    ensures var at := s.at[id := p];
      Replicated(w, s.(at := at, seen := AfterEnter(w.t, at, s.seen[id := map[]], id), fallen := s.fallen - {id}))
  {
    var at := s.at[id := p];
    var seen := s.seen[id := map[]];
    var s' := s.(at := at, seen := AfterEnter(w.t, at, seen, id), fallen := s.fallen - {id});
    assert s'.seen.Keys == s.seen.Keys + {id};
    hide Complete, Exact, AfterEnter;
    forall q | q in s'.seen ensures ClientOk(w, s', q) {
      if q == id {
        FirstViewIsExact(w.t, at, seen, id);
      } else {
        assert ClientOk(w, s, q);
        EnterFollows(w, s, id, p, seen, q);
      }
    }
  }

  lemma VanishFollows(w: Realm, s: State, id: ObjectId, q: ObjectId)
    requires Replicated(w, s) && id in s.at && q in s.seen && q != id
    ensures var seen' := AfterVanish(w.t, s.at, s.seen, id);
      q in seen' && Follows(w.t, q, s.at, s.seen[q], s.at - {id}, seen'[q])
  {
    assert ClientOk(w, s, q);
    VanishKeepsView(w.t, s.at, s.seen, id, q);
  }

  lemma LeaveKeepsReplicated(w: Realm, s: State, id: ObjectId)
    requires Replicated(w, s) && id in s.at
    ensures Replicated(w, s.(at := s.at - {id}, seen := AfterVanish(w.t, s.at, s.seen, id) - {id}, fallen := s.fallen - {id}))
  {
    var s' := s.(at := s.at - {id}, seen := AfterVanish(w.t, s.at, s.seen, id) - {id}, fallen := s.fallen - {id});
    assert s'.seen.Keys == s.seen.Keys - {id};
    hide Complete, Exact, AfterVanish;
    forall q | q in s'.seen ensures ClientOk(w, s', q) {
      assert ClientOk(w, s, q);
      VanishFollows(w, s, id, q);
    }
  }

  lemma MonsterEntersKeepsReplicated(w: Realm, s: State, m: ObjectId, p: Pos)
    requires Replicated(w, s) && m !in s.at && !IsPlayerId(m)
    ensures var at := s.at[m := p]; Replicated(w, s.(at := at, seen := AfterEnter(w.t, at, s.seen, m)))
  {
    var at := s.at[m := p];
    var s' := s.(at := at, seen := AfterEnter(w.t, at, s.seen, m));
    assert s'.seen.Keys == s.seen.Keys;
    hide Complete, Exact, AfterEnter;
    forall q | q in s'.seen ensures ClientOk(w, s', q) {
      assert ClientOk(w, s, q);
      EnterFollows(w, s, m, p, s.seen, q);
    }
  }

  lemma OwnTableAfterDeath(t: Terrain, at: map<ObjectId, Pos>, gone: map<ObjectId, Replica>, id: ObjectId)
    requires id in at && id in gone
    ensures id in AfterEnter(t, at, gone, id) && Complete(t, at, id, AfterEnter(t, at, gone, id)[id])
  {
    assert AfterEnter(t, at, gone, id)[id] == gone[id] + View(t, at, id);
  }

  /** The other clients see a disappearance followed by an entrance. */
  lemma PerishFollows(w: Realm, s: State, id: ObjectId, p: Pos, q: ObjectId)
    requires Replicated(w, s) && id in s.at && q in s.seen && q != id
    ensures var seen' := AfterEnter(w.t, s.at[id := p], AfterVanish(w.t, s.at, s.seen, id), id);
      q in seen' && Follows(w.t, q, s.at, s.seen[q], s.at[id := p], seen'[q])
  {
    assert (s.at - {id})[id := p] == s.at[id := p];
    VanishFollows(w, s, id, q);
    hide AfterVanish, AfterEnter, Complete, Exact;
    EnterKeepsView(w.t, s.at - {id}, AfterVanish(w.t, s.at, s.seen, id), id, p, q);
  }

  /** A death is a disappearance followed by an entrance. The victim's own table is only added to. */
  lemma PerishKeepsReplicated(w: Realm, s: State, id: ObjectId, p: Pos)
    requires Replicated(w, s) && id in s.at && IsPlayerId(id)
    ensures var at := s.at[id := p]; var gone := AfterVanish(w.t, s.at, s.seen, id);
      Replicated(w, s.(at := at, seen := AfterEnter(w.t, at, gone, id), fallen := s.fallen + {id}))
  {
    var at := s.at[id := p];
    var gone := AfterVanish(w.t, s.at, s.seen, id);
    var s' := s.(at := at, seen := AfterEnter(w.t, at, gone, id), fallen := s.fallen + {id});
    assert gone.Keys == s.seen.Keys && s'.seen.Keys == gone.Keys;
    hide Complete, Exact, AfterVanish, AfterEnter;
    forall q | q in s'.seen ensures ClientOk(w, s', q) {
      if q == id {
        OwnTableAfterDeath(w.t, at, gone, id);
      } else {
        assert ClientOk(w, s, q);
        PerishFollows(w, s, id, p, q);
      }
    }
  }

  lemma WakingKeepsReplicated(w: Realm, s: State, c: Pos)
    requires Replicated(w, s)
    ensures Replicated(w, Wake(w.t, s, c))
  {
    forall p | p in s.seen ensures ClientOk(w, Wake(w.t, s, c), p) {
      assert ClientOk(w, s, p);
    }
  }

  lemma RelocateKeepsReplicated(w: Realm, s: State, id: ObjectId, p: Pos)
    requires Replicated(w, s) && id in s.at
    ensures Replicated(w, Relocate(w, s, id, p))
  {
    MoveKeepsReplicated(w, s, id, p);
    var at := s.at[id := p];
    hide Replicated, Wake, AfterMove;
    WakingKeepsReplicated(w, s.(at := at, seen := AfterMove(w.t, at, s.seen, id, s.at[id])), p);
  }

  lemma SlayKeepsReplicated(w: Realm, s: State, m: ObjectId)
    requires Replicated(w, s) && m in s.at && !IsPlayerId(m)
    ensures Replicated(w, s.(at := s.at - {m}, seen := AfterVanish(w.t, s.at, s.seen, m)))
  {
    LeaveKeepsReplicated(w, s, m);
    assert AfterVanish(w.t, s.at, s.seen, m) - {m} == AfterVanish(w.t, s.at, s.seen, m);
    assert s.fallen - {m} == s.fallen;
  }

  lemma SameClientsKeepReplicated(w: Realm, s: State, s': State)
    requires Replicated(w, s) && s'.at == s.at && s'.seen == s.seen && s'.fallen == s.fallen
    ensures Replicated(w, s')
  {
    forall p | p in s.seen ensures ClientOk(w, s', p) {
      assert ClientOk(w, s, p);
    }
  }

  lemma PlayerStepKeepsReplicated(w: Realm, s: State, a: Step)
    requires Replicated(w, s) && Enabled(w, s, a)
    requires a.Login? || a.Walk? || a.Teleport? || a.Leave? || a.Perish?
    ensures Replicated(w, Apply(w, s, a))
  {
    hide Replicated, FirstFree, Free, Relocate, Wake, AfterEnter, AfterVanish;
    match a
    case Login(id, _, p) =>
      LoginKeepsReplicated(w, s, id, p);
      var at := s.at[id := p];
      WakingKeepsReplicated(w, s.(at := at, seen := AfterEnter(w.t, at, s.seen[id := map[]], id), fallen := s.fallen - {id}), p);
    case Walk(id, d) => RelocateKeepsReplicated(w, s, id, Grid.Step(s.at[id], d));
    case Teleport(id, _, p) => RelocateKeepsReplicated(w, s, id, p);
    case Leave(id) => LeaveKeepsReplicated(w, s, id);
    case Perish(id, p) =>
      PerishKeepsReplicated(w, s, id, p);
      var at, gone := s.at[id := p], AfterVanish(w.t, s.at, s.seen, id);
      WakingKeepsReplicated(w, s.(at := at, seen := AfterEnter(w.t, at, gone, id), fallen := s.fallen + {id}), p);
    case _ =>
  }

  lemma MonsterStepKeepsReplicated(w: Realm, s: State, a: Step)
    requires Replicated(w, s) && Enabled(w, s, a) && (forall m :: m in w.spawn ==> !IsPlayerId(m))
    requires a.Slay? || a.MonsterWalk? || a.RespawnFire?
    ensures Replicated(w, Apply(w, s, a))
  {
    hide Replicated, FirstFree, Free, Pops, Observed, AfterEnter, AfterMove, AfterVanish;
    match a
    case Slay(m) =>
      SlayKeepsReplicated(w, s, m);
      SameClientsKeepReplicated(w, s.(at := s.at - {m}, seen := AfterVanish(w.t, s.at, s.seen, m)), Apply(w, s, a));
    case MonsterWalk(m, p) => MoveKeepsReplicated(w, s, m, p);
    case RespawnFire(e, p) =>
      var at := s.at[e.target := p];
      MonsterEntersKeepsReplicated(w, s, e.target, p);
      SameClientsKeepReplicated(w, s.(at := at, seen := AfterEnter(w.t, at, s.seen, e.target)), Apply(w, s, a));
    case _ =>
  }

  lemma TimerStepTellsNobody(w: Realm, s: State, a: Step)
    requires Enabled(w, s, a) && (a.Tick? || a.AiFire? || a.AiDone? || a.RespawnRetry?)
    ensures Apply(w, s, a).at == s.at && Apply(w, s, a).seen == s.seen && Apply(w, s, a).fallen == s.fallen
  {
    hide NoneFree, FirstFree, Free, Pops, Observed, Relocate, Wake, AfterEnter, AfterMove, AfterVanish;
    match a
    case Tick(_) =>
    case AiFire(_) =>
    case AiDone(_) =>
    case RespawnRetry(_) =>
    case _ =>
  }

  lemma TimerStepKeepsReplicated(w: Realm, s: State, a: Step)
    requires Replicated(w, s) && Enabled(w, s, a)
    requires a.Tick? || a.AiFire? || a.AiDone? || a.RespawnRetry?
    ensures Replicated(w, Apply(w, s, a))
  {
    hide Replicated, Enabled, Apply;
    TimerStepTellsNobody(w, s, a);
    SameClientsKeepReplicated(w, s, Apply(w, s, a));
  }

  lemma StepKeepsReplicated(w: Realm, s: State, a: Step)
    requires Replicated(w, s) && Enabled(w, s, a) && (forall m :: m in w.spawn ==> !IsPlayerId(m))
    ensures Replicated(w, Apply(w, s, a))
  {
    hide Replicated, Enabled, Apply;
    if a.Login? || a.Walk? || a.Teleport? || a.Leave? || a.Perish? {
      PlayerStepKeepsReplicated(w, s, a);
    } else if a.Slay? || a.MonsterWalk? || a.RespawnFire? {
      MonsterStepKeepsReplicated(w, s, a);
    } else {
      TimerStepKeepsReplicated(w, s, a);
    }
  }

  /** After its player's death a client's table is exact if and only if everything that was in view at
      the place of death is also in view from the tile of rebirth: nothing tells the client to forget it. */
  lemma DeathKeepsExactIff(t: Terrain, at: map<ObjectId, Pos>, seen: map<ObjectId, Replica>, id: ObjectId, p: Pos)
    requires id in at && id in seen && IsPlayerId(id) && Exact(t, at, id, seen[id])
    ensures var at' := at[id := p];
      var after := AfterEnter(t, at', AfterVanish(t, at, seen, id), id)[id];
      Exact(t, at', id, after) <==> forall o :: Sees(t, at, id, o) ==> t.InView(p, at[o])
  {
    var at' := at[id := p];
    var after := AfterEnter(t, at', AfterVanish(t, at, seen, id), id)[id];
    assert after == seen[id] + View(t, at', id);
    assert forall o :: o in after <==> Sees(t, at, id, o) || Sees(t, at', id, o);
    assert forall o :: Sees(t, at, id, o) ==> (Sees(t, at', id, o) <==> t.InView(p, at[o]));
  }

  // ----------------------------------------------------------- timers are kept

  lemma PendingAt(q: multiset<Timer>, kind: Kind, m: ObjectId, x: Timer)
    ensures Pending(q, kind, m)[x] == if Mine(x, kind, m) then q[x] else 0
  {
    assert IsPending(q, kind, m, Pending(q, kind, m));
  }

  /** Pending depends on the monster's own entries only. */
  lemma SamePending(q: multiset<Timer>, q': multiset<Timer>, kind: Kind, m: ObjectId)
    requires forall x :: Mine(x, kind, m) ==> q'[x] == q[x]
    ensures Pending(q', kind, m) == Pending(q, kind, m)
  {
    forall x ensures Pending(q', kind, m)[x] == Pending(q, kind, m)[x] {
      PendingAt(q, kind, m, x);
      PendingAt(q', kind, m, x);
    }
  }

  lemma CountAdd(q: multiset<Timer>, e: Timer, kind: Kind, m: ObjectId)
    ensures Count(q + multiset{e}, kind, m) == Count(q, kind, m) + if Mine(e, kind, m) then 1 else 0
  {
    var more := Pending(q, kind, m) + if Mine(e, kind, m) then multiset{e} else multiset{};
    forall x ensures Pending(q + multiset{e}, kind, m)[x] == more[x] {
      PendingAt(q, kind, m, x);
      PendingAt(q + multiset{e}, kind, m, x);
    }
    assert Pending(q + multiset{e}, kind, m) == more;
  }

  lemma CountRemove(q: multiset<Timer>, e: Timer, kind: Kind, m: ObjectId)
    requires e in q
    ensures Count(q - multiset{e}, kind, m) == Count(q, kind, m) - if Mine(e, kind, m) then 1 else 0
  {
    CountAdd(q - multiset{e}, e, kind, m);
    assert q - multiset{e} + multiset{e} == q;
  }

  lemma CountZero(q: multiset<Timer>, kind: Kind, m: ObjectId, e: Timer)
    requires e in q && Mine(e, kind, m)
    ensures Count(q, kind, m) > 0
  {
    PendingAt(q, kind, m, e);
    assert e in Pending(q, kind, m);
  }

  lemma AiTimersCount(ms: set<ObjectId>, due: int, e: Timer)
    ensures AiTimers(ms, due)[e] == if e.kind == Ai && e.due == due && e.target in ms then 1 else 0
  {
    var ts := set m | m in ms :: Timer(due, Ai, m);
    assert e in ts <==> e.kind == Ai && e.due == due && e.target in ms;
  }

  /** The monster's own entries in the two queues are the same. */
  ghost predicate SameFor(q: multiset<Timer>, q': multiset<Timer>, m: ObjectId) {
    forall x: Timer :: x.target == m ==> q'[x] == q[x]
  }

  /** A monster none of whose own timers change, and whose own status does not change, keeps its schedule. */
  lemma FrameTimers(s: State, s': State, m: ObjectId)
    requires MonsterTimers(s, m) && SameFor(s.timers, s'.timers, m)
    requires (m in s'.at <==> m in s.at) && (m in s'.active <==> m in s.active) && (m in s'.firing <==> m in s.firing)
    ensures MonsterTimers(s', m)
  {
    SamePending(s.timers, s'.timers, Ai, m);
    SamePending(s.timers, s'.timers, Respawn, m);
    assert forall x: Timer :: x.target == m ==> (x in s'.timers <==> x in s.timers);
  }

  /** Nothing about monster `o` differs between the two states. */
  ghost predicate Untouched(s: State, s': State, o: ObjectId) {
    && SameFor(s.timers, s'.timers, o)
    && (o in s'.at <==> o in s.at) && (o in s'.active <==> o in s.active) && (o in s'.firing <==> o in s.firing)
  }

  /** Steps that touch no monster, no flag and no timer keep the schedule. */
  lemma SameMonstersKeepScheduled(w: Realm, s: State, s': State)
    requires Scheduled(w, s)
    requires forall m :: m in w.spawn ==> (m in s.at <==> m in s'.at)
    requires s'.active == s.active && s'.timers == s.timers && s'.firing == s.firing && s.clock <= s'.clock
    ensures Scheduled(w, s')
  {
    forall m | m in w.spawn ensures MonsterTimers(s', m) {
      FrameTimers(s, s', m);
    }
  }

  lemma WakeTimersCount(t: Terrain, s: State, c: Pos, e: Timer)
    ensures Wake(t, s, c).timers[e] == s.timers[e] +
      if e.kind == Ai && e.due == s.clock + AI_TICK && e.target in Woken(t, s, c) then 1 else 0
  {
    AiTimersCount(Woken(t, s, c), s.clock + AI_TICK, e);
  }

  lemma WakeOne(t: Terrain, s: State, c: Pos, m: ObjectId)
    requires MonsterTimers(s, m) && (m in s.firing ==> m in s.active)
    ensures MonsterTimers(Wake(t, s, c), m)
  {
    var s' := Wake(t, s, c);
    var e := Timer(s.clock + AI_TICK, Ai, m);
    forall x: Timer | x.target == m
      ensures s'.timers[x] == s.timers[x] + if x == e && m in Woken(t, s, c) then 1 else 0
    {
      WakeTimersCount(t, s, c, x);
    }
    if m in Woken(t, s, c) {
      SamePending(s.timers, s'.timers, Respawn, m);
      SamePending(s.timers + multiset{e}, s'.timers, Ai, m);
      CountAdd(s.timers, e, Ai, m);
    } else {
      FrameTimers(s, s', m);
    }
  }

  lemma WakeKeepsScheduled(w: Realm, s: State, c: Pos)
    requires Scheduled(w, s) && forall m :: m in s.at && !IsPlayerId(m) ==> m in w.spawn
    ensures Scheduled(w, Wake(w.t, s, c))
  {
    var s' := Wake(w.t, s, c);
    forall m | m in w.spawn ensures MonsterTimers(s', m) {
      WakeOne(w.t, s, c, m);
    }
    forall e | e in s'.timers ensures e.target in w.spawn && (e.kind == Ai ==> e.due <= s'.clock + AI_TICK) {
      WakeTimersCount(w.t, s, c, e);
      assert e in s.timers || e.target in Woken(w.t, s, c);
    }
  }

  /** The step changes the timers and the status of monster `m` only. */
  ghost predicate OthersUntouched(s: State, s': State, m: ObjectId) {
    s'.clock == s.clock && forall o :: o != m ==> Untouched(s, s', o)
  }

  /** The monster's own entries and status are sane. */
  ghost predicate OwnSane(s: State, m: ObjectId) {
    && (forall e :: e in s.timers && Mine(e, Ai, m) ==> e.due <= s.clock + AI_TICK)
    && (m in s.firing ==> m in s.at && m in s.active)
  }

  lemma OneMonsterKeepsTimers(w: Realm, s: State, s': State, m: ObjectId)
    requires AllTimers(w, s) && MonsterTimers(s', m) && OthersUntouched(s, s', m)
    ensures AllTimers(w, s')
  {
    forall o | o in w.spawn && o != m ensures MonsterTimers(s', o) {
      assert Untouched(s, s', o);
      FrameTimers(s, s', o);
    }
  }

  lemma OneMonsterKeepsQueue(w: Realm, s: State, s': State, m: ObjectId)
    requires QueueSane(w, s) && m in w.spawn && OwnSane(s', m) && OthersUntouched(s, s', m)
    ensures QueueSane(w, s')
  {
    forall e | e in s'.timers ensures e.target in w.spawn && (e.kind == Ai ==> e.due <= s'.clock + AI_TICK) {
      if e.target == m {
        assert e.kind == Ai ==> Mine(e, Ai, m);
      } else {
        assert Untouched(s, s', e.target);
        assert e in s.timers;
      }
    }
    forall o | o in s'.firing && o != m ensures o in s'.at && o in s'.active && o in w.spawn {
      assert Untouched(s, s', o);
    }
  }

  /** A step about one monster keeps the schedule when that monster's own part is right afterwards. */
  lemma OneMonsterKeepsScheduled(w: Realm, s: State, s': State, m: ObjectId)
    requires Scheduled(w, s) && m in w.spawn
    requires MonsterTimers(s', m) && OwnSane(s', m) && OthersUntouched(s, s', m)
    ensures Scheduled(w, s')
  {
    OneMonsterKeepsTimers(w, s, s', m);
    OneMonsterKeepsQueue(w, s, s', m);
  }

  lemma OwnSaneBefore(w: Realm, s: State, m: ObjectId)
    requires QueueSane(w, s)
    ensures OwnSane(s, m)
  {
  }

  lemma SlainTimers(q: multiset<Timer>, r: Timer, clock: int, m: ObjectId)
    requires Count(q, Respawn, m) == 0 && Count(q, Ai, m) <= 1 && r == Timer(clock + RESPAWN_DELAY, Respawn, m)
    requires forall e :: e in q && e.kind == Ai ==> e.due <= clock + AI_TICK
    ensures Count(q + multiset{r}, Respawn, m) == 1 && Count(q + multiset{r}, Ai, m) <= 1
    ensures StaleFirst(q + multiset{r}, m)
  {
    CountAdd(q, r, Ai, m);
    CountAdd(q, r, Respawn, m);
    forall a, b | a in q + multiset{r} && b in q + multiset{r} && Mine(a, Ai, m) && Mine(b, Respawn, m)
      ensures a.due < b.due
    {
      if b in q {
        CountZero(q, Respawn, m, b);
      }
    }
  }

  lemma SlayTouchesOne(s: State, m: ObjectId, r: Timer, s': State)
    requires s'.at == s.at - {m} && s'.active == s.active && s'.firing == s.firing && s'.clock == s.clock
    requires s'.timers == s.timers + multiset{r} && r.target == m
    ensures OthersUntouched(s, s', m)
  {
    forall o | o != m ensures Untouched(s, s', o) {
    }
  }

  lemma SlayKeepsScheduled(w: Realm, s: State, m: ObjectId, s': State)
    requires Scheduled(w, s) && m in s.at && m in w.spawn && m !in s.firing
    requires s'.at == s.at - {m} && s'.active == s.active && s'.firing == s.firing && s'.clock == s.clock
    requires s'.timers == s.timers + multiset{Timer(s.clock + RESPAWN_DELAY, Respawn, m)}
    ensures Scheduled(w, s')
  {
    var r := Timer(s.clock + RESPAWN_DELAY, Respawn, m);
    assert MonsterTimers(s, m);
    SlainTimers(s.timers, r, s.clock, m);
    assert MonsterTimers(s', m);
    SlayTouchesOne(s, m, r, s');
    OwnSaneBefore(w, s, m);
    assert OwnSane(s', m);
    hide MonsterTimers, OthersUntouched, OwnSane, Scheduled;
    OneMonsterKeepsScheduled(w, s, s', m);
  }

  lemma SlayStep(w: Realm, s: State, m: ObjectId)
    requires Scheduled(w, s) && Enabled(w, s, Slay(m)) && m in w.spawn
    ensures Scheduled(w, Apply(w, s, Slay(m)))
  {
    hide Scheduled, AfterVanish;
    SlayKeepsScheduled(w, s, m, Apply(w, s, Slay(m)));
  }

  lemma FewerTimersStaleFirst(q: multiset<Timer>, e: Timer, m: ObjectId)
    requires StaleFirst(q, m)
    ensures StaleFirst(q - multiset{e}, m)
  {
    assert forall x :: x in q - multiset{e} ==> x in q;
  }

  lemma FiredTimers(s: State, e: Timer, s': State)
    requires MonsterTimers(s, e.target) && e.kind == Ai && e in s.timers && s'.timers == s.timers - multiset{e}
    requires s'.at == s.at && (e.target in s.at ==> e.target !in s'.active || e.target in s'.firing)
    ensures MonsterTimers(s', e.target)
  {
    var m := e.target;
    assert Mine(e, Ai, m);
    CountZero(s.timers, Ai, m, e);
    CountRemove(s.timers, e, Ai, m);
    CountRemove(s.timers, e, Respawn, m);
    if m !in s.at {
      FewerTimersStaleFirst(s.timers, e, m);
    }
  }

  /** A live monster with a pending AI timer is active, and that timer is not being handled already. */
  lemma LiveAiTimer(s: State, e: Timer)
    requires MonsterTimers(s, e.target) && e in s.timers && e.kind == Ai
    ensures e.target in s.at ==> e.target in s.active && e.target !in s.firing
  {
    assert Mine(e, Ai, e.target);
    CountZero(s.timers, Ai, e.target, e);
  }

  lemma FiredTouchesOne(s: State, e: Timer, s': State)
    requires s'.at == s.at && s'.clock == s.clock && s'.timers == s.timers - multiset{e}
    requires s'.active == s.active || s'.active == s.active - {e.target}
    requires s'.firing == s.firing || s'.firing == s.firing + {e.target}
    ensures OthersUntouched(s, s', e.target)
  {
    forall o | o != e.target ensures Untouched(s, s', o) {
    }
  }

  lemma FiredKeepsScheduled(w: Realm, s: State, e: Timer, s': State)
    requires Scheduled(w, s) && e.kind == Ai && e in s.timers
    requires s'.at == s.at && s'.clock == s.clock && s'.timers == s.timers - multiset{e}
    requires s'.active == s.active || s'.active == s.active - {e.target}
    requires s'.firing == s.firing || (s'.firing == s.firing + {e.target} && s'.active == s.active && e.target in s.at)
    requires e.target in s.at ==> e.target !in s'.active || e.target in s'.firing
    ensures Scheduled(w, s')
  {
    assert e.target in w.spawn && MonsterTimers(s, e.target);
    LiveAiTimer(s, e);
    FiredTimers(s, e, s');
    FiredTouchesOne(s, e, s');
    FiredOwnSane(w, s, e, s');
    OneMonsterKeepsScheduled(w, s, s', e.target);
  }

  lemma FiredOwnSane(w: Realm, s: State, e: Timer, s': State)
    requires QueueSane(w, s) && s'.at == s.at && s'.clock == s.clock && s'.timers == s.timers - multiset{e}
    requires e.target in s'.firing ==> e.target in s'.at && e.target in s'.active
    ensures OwnSane(s', e.target)
  {
    forall x | x in s'.timers ensures x in s.timers {
    }
  }

  lemma AiFireStep(w: Realm, s: State, e: Timer)
    requires Scheduled(w, s) && Enabled(w, s, AiFire(e))
    ensures Scheduled(w, Apply(w, s, AiFire(e)))
  {
    assert MonsterTimers(s, e.target);
    LiveAiTimer(s, e);
    var rest := s.(timers := s.timers - multiset{e});
    if e.target !in s.at {
      FiredKeepsScheduled(w, s, e, rest);
    } else if !Observed(w.t, s.at, e.target) {
      FiredKeepsScheduled(w, s, e, rest.(active := s.active - {e.target}));
    } else {
      FiredKeepsScheduled(w, s, e, rest.(firing := s.firing + {e.target}));
    }
  }

  lemma DoneTouchesOne(s: State, m: ObjectId, e: Timer, s': State)
    requires s'.at == s.at && s'.active == s.active && s'.firing == s.firing - {m} && s'.clock == s.clock
    requires s'.timers == s.timers + multiset{e} && e.target == m
    ensures OthersUntouched(s, s', m)
  {
    forall o | o != m ensures Untouched(s, s', o) {
    }
  }

  /** A timer is registered for an active monster whose previous one was being handled. */
  lemma DoneTimers(s: State, m: ObjectId, e: Timer, s': State)
    requires MonsterTimers(s, m) && Mine(e, Ai, m) && m in s.at && m in s.active && m in s.firing
    requires s'.at == s.at && s'.active == s.active && s'.firing == s.firing - {m}
    requires s'.timers == s.timers + multiset{e}
    ensures MonsterTimers(s', m)
  {
    CountAdd(s.timers, e, Ai, m);
    CountAdd(s.timers, e, Respawn, m);
  }

  lemma DoneKeepsScheduled(w: Realm, s: State, m: ObjectId, s': State)
    requires Scheduled(w, s) && m in s.firing
    requires s'.at == s.at && s'.active == s.active && s'.firing == s.firing - {m} && s'.clock == s.clock
    requires s'.timers == s.timers + multiset{Timer(s.clock + AI_TICK, Ai, m)}
    ensures Scheduled(w, s')
  {
    var e := Timer(s.clock + AI_TICK, Ai, m);
    assert MonsterTimers(s, m);
    hide MonsterTimers;
    DoneTimers(s, m, e, s');
    DoneTouchesOne(s, m, e, s');
    OwnSaneBefore(w, s, m);
    assert OwnSane(s', m);
    hide OthersUntouched, OwnSane, Scheduled;
    OneMonsterKeepsScheduled(w, s, s', m);
  }

  lemma AiDoneStep(w: Realm, s: State, m: ObjectId)
    requires Scheduled(w, s) && Enabled(w, s, AiDone(m))
    ensures Scheduled(w, Apply(w, s, AiDone(m)))
  {
    hide Scheduled;
    DoneKeepsScheduled(w, s, m, Apply(w, s, AiDone(m)));
  }

  lemma CountPositive(q: multiset<Timer>, kind: Kind, m: ObjectId) returns (e: Timer)
    requires Count(q, kind, m) > 0
    ensures e in q && Mine(e, kind, m)
  {
    e :| e in Pending(q, kind, m);
    PendingAt(q, kind, m, e);
  }

  /** When a respawn comes out of the queue the monster's stale AI timer, being earlier, is already
      gone; so the AI timer a respawn registers is the only one. */
  lemma RespawnFindsNoAiTimer(w: Realm, s: State, e: Timer)
    requires Scheduled(w, s) && e.kind == Respawn && Pops(s, e)
    ensures e.target in w.spawn && e.target !in s.at
    ensures Count(s.timers, Ai, e.target) == 0 && Count(s.timers - multiset{e}, Respawn, e.target) == 0
    ensures Count(s.timers - multiset{e}, Ai, e.target) == 0
  {
    var m := e.target;
    assert Mine(e, Respawn, m) && MonsterTimers(s, m);
    CountZero(s.timers, Respawn, m, e);
    CountRemove(s.timers, e, Respawn, m);
    CountRemove(s.timers, e, Ai, m);
    if Count(s.timers, Ai, m) > 0 {
      var a := CountPositive(s.timers, Ai, m);
    }
  }

  lemma RespawnedTimers(q: multiset<Timer>, next: Timer, m: ObjectId)
    requires Count(q, Respawn, m) == 0 && Count(q, Ai, m) == 0 && Mine(next, Ai, m)
    ensures Count(q + multiset{next}, Respawn, m) == 0 && Count(q + multiset{next}, Ai, m) == 1
  {
    CountAdd(q, next, Ai, m);
    CountAdd(q, next, Respawn, m);
  }

  lemma RefireTouchesOne(s: State, e: Timer, next: Timer, s': State)
    requires next.target == e.target && s'.clock == s.clock && s'.firing == s.firing
    requires s'.timers == s.timers - multiset{e} || s'.timers == s.timers - multiset{e} + multiset{next}
    requires s'.at.Keys == s.at.Keys || s'.at.Keys == s.at.Keys + {e.target}
    requires s'.active == s.active || s'.active == s.active - {e.target} || s'.active == s.active + {e.target}
    ensures OthersUntouched(s, s', e.target)
  {
    forall o | o != e.target ensures Untouched(s, s', o) {
    }
  }

  lemma RefireOwnSane(w: Realm, s: State, e: Timer, next: Timer, s': State)
    requires QueueSane(w, s) && s'.clock == s.clock && s'.firing == s.firing && e.target !in s.at && e.target !in s.firing
    requires s'.timers == s.timers - multiset{e} || s'.timers == s.timers - multiset{e} + multiset{next}
    requires next.kind == Ai ==> next.due <= s.clock + AI_TICK
    ensures OwnSane(s', e.target)
  {
    forall x | x in s'.timers ensures x in s.timers || x == next {
    }
  }

  lemma RespawnOwnTimers(w: Realm, s: State, e: Timer, p: Pos, s': State)
    requires Scheduled(w, s) && e.kind == Respawn && Pops(s, e)
    requires s'.at == s.at[e.target := p] && s'.firing == s.firing
    requires (s'.active == s.active - {e.target} && s'.timers == s.timers - multiset{e})
      || (s'.active == s.active + {e.target}
          && s'.timers == s.timers - multiset{e} + multiset{Timer(s.clock + AI_TICK, Ai, e.target)})
    ensures MonsterTimers(s', e.target) && e.target !in s.firing && e.target !in s.at && e.target in w.spawn
  {
    RespawnFindsNoAiTimer(w, s, e);
    RespawnedTimers(s.timers - multiset{e}, Timer(s.clock + AI_TICK, Ai, e.target), e.target);
    hide Count, StaleFirst, AllTimers, Pops;
  }

  lemma RespawnKeepsScheduled(w: Realm, s: State, e: Timer, p: Pos, s': State)
    requires Scheduled(w, s) && e.kind == Respawn && Pops(s, e)
    requires s'.at == s.at[e.target := p] && s'.firing == s.firing && s'.clock == s.clock
    requires (s'.active == s.active - {e.target} && s'.timers == s.timers - multiset{e})
      || (s'.active == s.active + {e.target}
          && s'.timers == s.timers - multiset{e} + multiset{Timer(s.clock + AI_TICK, Ai, e.target)})
    ensures Scheduled(w, s')
  {
    var next := Timer(s.clock + AI_TICK, Ai, e.target);
    hide MonsterTimers, OthersUntouched, OwnSane, AllTimers, QueueSane, Pops;
    RespawnOwnTimers(w, s, e, p, s');
    RefireTouchesOne(s, e, next, s');
    RefireOwnSane(w, s, e, next, s');
    OneMonsterKeepsScheduled(w, s, s', e.target);
  }

  lemma RespawnStep(w: Realm, s: State, e: Timer, p: Pos)
    requires Scheduled(w, s) && Enabled(w, s, RespawnFire(e, p))
    ensures Scheduled(w, Apply(w, s, RespawnFire(e, p)))
  {
    hide Scheduled, Pops, FirstFree, Observed, AfterEnter;
    RespawnKeepsScheduled(w, s, e, p, Apply(w, s, RespawnFire(e, p)));
  }

  /** No AI timer is left, so any due time of the next respawn is late enough. */
  lemma RetryTimers(q: multiset<Timer>, r: Timer, m: ObjectId)
    requires Count(q, Respawn, m) == 0 && Count(q, Ai, m) == 0 && Mine(r, Respawn, m)
    ensures Count(q + multiset{r}, Respawn, m) == 1 && Count(q + multiset{r}, Ai, m) <= 1
    ensures StaleFirst(q + multiset{r}, m)
  {
    CountAdd(q, r, Ai, m);
    CountAdd(q, r, Respawn, m);
    forall a | a in q + multiset{r} ensures !Mine(a, Ai, m) {
      if Mine(a, Ai, m) {
        CountZero(q, Ai, m, a);
      }
    }
  }

  lemma RetryKeepsScheduled(w: Realm, s: State, e: Timer, s': State)
    requires Scheduled(w, s) && e.kind == Respawn && Pops(s, e)
    requires s'.at == s.at && s'.active == s.active && s'.firing == s.firing && s'.clock == s.clock
    requires s'.timers == s.timers - multiset{e} + multiset{Timer(s.clock + RESPAWN_DELAY, Respawn, e.target)}
    ensures Scheduled(w, s')
  {
    var m, next := e.target, Timer(s.clock + RESPAWN_DELAY, Respawn, e.target);
    RespawnFindsNoAiTimer(w, s, e);
    RetryTimers(s.timers - multiset{e}, next, m);
    assert m !in s.firing;
    assert MonsterTimers(s', m);
    RefireTouchesOne(s, e, next, s');
    RefireOwnSane(w, s, e, next, s');
    hide MonsterTimers, OthersUntouched, OwnSane, Scheduled;
    OneMonsterKeepsScheduled(w, s, s', m);
  }

  lemma RetryStep(w: Realm, s: State, e: Timer)
    requires Scheduled(w, s) && Enabled(w, s, RespawnRetry(e))
    ensures Scheduled(w, Apply(w, s, RespawnRetry(e)))
  {
    hide Scheduled, Pops, NoneFree;
    RetryKeepsScheduled(w, s, e, Apply(w, s, RespawnRetry(e)));
  }

  /** A player's relocation, entrance or death is a change without monsters followed by waking. */
  lemma WakingStepKeepsScheduled(w: Realm, s: State, s1: State, c: Pos)
    requires Scheduled(w, s) && Placed(w, s1.at)
    requires forall m :: m in w.spawn ==> (m in s.at <==> m in s1.at)
    requires s1.active == s.active && s1.timers == s.timers && s1.firing == s.firing && s.clock == s1.clock
    ensures Scheduled(w, Wake(w.t, s1, c))
  {
    SameMonstersKeepScheduled(w, s, s1);
    WakeKeepsScheduled(w, s1, c);
  }

  lemma PlayerStepKeepsScheduled(w: Realm, s: State, a: Step)
    requires Placed(w, s.at) && Scheduled(w, s) && Enabled(w, s, a)
    requires a.Login? || a.Walk? || a.Teleport? || a.Perish?
    ensures Scheduled(w, Apply(w, s, a))
  {
    StepKeepsPlaced(w, s, a);
    match a
    case Login(id, _, p) =>
      var at := s.at[id := p];
      WakingStepKeepsScheduled(w, s, s.(at := at, seen := AfterEnter(w.t, at, s.seen[id := map[]], id), fallen := s.fallen - {id}), p);
    case Walk(id, d) =>
      var p := Grid.Step(s.at[id], d);
      var at := s.at[id := p];
      WakingStepKeepsScheduled(w, s, s.(at := at, seen := AfterMove(w.t, at, s.seen, id, s.at[id])), p);
    case Teleport(id, _, p) =>
      var at := s.at[id := p];
      WakingStepKeepsScheduled(w, s, s.(at := at, seen := AfterMove(w.t, at, s.seen, id, s.at[id])), p);
    case Perish(id, p) =>
      var at := s.at[id := p];
      var gone := AfterVanish(w.t, s.at, s.seen, id);
      WakingStepKeepsScheduled(w, s, s.(at := at, seen := AfterEnter(w.t, at, gone, id), fallen := s.fallen + {id}), p);
    case _ =>
  }

  lemma QuietStepKeepsScheduled(w: Realm, s: State, a: Step)
    requires Placed(w, s.at) && Scheduled(w, s) && Enabled(w, s, a)
    requires a.Leave? || a.MonsterWalk? || a.Tick?
    ensures Scheduled(w, Apply(w, s, a))
  {
    SameMonstersKeepScheduled(w, s, Apply(w, s, a));
  }

  lemma StepKeepsScheduled(w: Realm, s: State, a: Step)
    requires Placed(w, s.at) && Scheduled(w, s) && Enabled(w, s, a)
    ensures Scheduled(w, Apply(w, s, a))
  {
    hide Scheduled, Apply;
    match a
    case Slay(m) => SlayStep(w, s, m);
    case AiFire(e) => AiFireStep(w, s, e);
    case AiDone(m) => AiDoneStep(w, s, m);
    case RespawnFire(e, p) => RespawnStep(w, s, e, p);
    case RespawnRetry(e) => RetryStep(w, s, e);
    case Login(_, _, _) => PlayerStepKeepsScheduled(w, s, a);
    case Walk(_, _) => PlayerStepKeepsScheduled(w, s, a);
    case Teleport(_, _, _) => PlayerStepKeepsScheduled(w, s, a);
    case Perish(_, _) => PlayerStepKeepsScheduled(w, s, a);
    case _ => QuietStepKeepsScheduled(w, s, a);
  }

  // ------------------------------------------------- no observed monster sleeps

  /** A player now stands at `c`; every monster it can see there is awake, and for the other
      players nothing changed. */
  lemma WakeKeepsAwake(w: Realm, s: State, id: ObjectId, c: Pos, s1: State)
    requires Awake(w, s) && IsPlayerId(id) && s1.at == s.at[id := c] && s1.active == s.active
    ensures Awake(w, Wake(w.t, s1, c))
  {
    var s' := Wake(w.t, s1, c);
    forall m | m in s'.at && !IsPlayerId(m) && Observed(w.t, s'.at, m) ensures m in s'.active {
      var p :| p in s'.at && IsPlayerId(p) && w.t.InView(s'.at[p], s'.at[m]);
      if p == id {
        assert m in Woken(w.t, s1, c) || m in s.active;
      } else {
        assert Observed(w.t, s.at, m);
      }
    }
  }

  /** The monsters stay where they are, no player appears, and nobody observed is switched off. */
  lemma FewerObserversKeepAwake(w: Realm, s: State, s': State)
    requires Awake(w, s)
    requires forall o :: o in s'.at ==> o in s.at && s'.at[o] == s.at[o]
    requires forall m :: m in s.active && m !in s'.active && m in s'.at ==> !Observed(w.t, s'.at, m)
    ensures Awake(w, s')
  {
    forall m | m in s'.at && !IsPlayerId(m) && Observed(w.t, s'.at, m) ensures m in s'.active {
      assert Observed(w.t, s.at, m);
    }
  }

  /** One monster stands at a new place; it is awake if it is observed there. */
  lemma MonsterPutKeepsAwake(w: Realm, s: State, m: ObjectId, p: Pos, s': State)
    requires Awake(w, s) && !IsPlayerId(m) && s'.at == s.at[m := p]
    requires s.active - {m} <= s'.active
    requires Observed(w.t, s'.at, m) ==> m in s'.active
    ensures Awake(w, s')
  {
    forall o | o in s'.at && o != m && !IsPlayerId(o) && Observed(w.t, s'.at, o) ensures o in s'.active {
      var q :| q in s'.at && IsPlayerId(q) && w.t.InView(s'.at[q], s'.at[o]);
      assert Observed(w.t, s.at, o);
    }
  }

  lemma PlayerStepKeepsAwake(w: Realm, s: State, a: Step)
    requires Awake(w, s) && Enabled(w, s, a)
    requires a.Login? || a.Walk? || a.Teleport? || a.Perish?
    ensures Awake(w, Apply(w, s, a))
  {
    match a
    case Login(id, _, p) =>
      var at := s.at[id := p];
      WakeKeepsAwake(w, s, id, p, s.(at := at, seen := AfterEnter(w.t, at, s.seen[id := map[]], id), fallen := s.fallen - {id}));
    case Walk(id, d) =>
      var p := Grid.Step(s.at[id], d);
      var at := s.at[id := p];
      WakeKeepsAwake(w, s, id, p, s.(at := at, seen := AfterMove(w.t, at, s.seen, id, s.at[id])));
    case Teleport(id, _, p) =>
      var at := s.at[id := p];
      WakeKeepsAwake(w, s, id, p, s.(at := at, seen := AfterMove(w.t, at, s.seen, id, s.at[id])));
    case Perish(id, p) =>
      var at := s.at[id := p];
      var gone := AfterVanish(w.t, s.at, s.seen, id);
      WakeKeepsAwake(w, s, id, p, s.(at := at, seen := AfterEnter(w.t, at, gone, id), fallen := s.fallen + {id}));
    case _ =>
  }

  lemma MonsterStepKeepsAwake(w: Realm, s: State, a: Step)
    requires Placed(w, s.at) && QueueSane(w, s) && Awake(w, s) && Enabled(w, s, a)
    requires a.MonsterWalk? || a.RespawnFire?
    ensures Awake(w, Apply(w, s, a))
  {
    hide Awake, FirstFree, Free, Pops, AfterMove, AfterEnter, Observed;
    match a
    case MonsterWalk(m, p) => MonsterPutKeepsAwake(w, s, m, p, Apply(w, s, a));
    case RespawnFire(e, p) => MonsterPutKeepsAwake(w, s, e.target, p, Apply(w, s, a));
    case _ =>
  }

  lemma OtherStepKeepsAwake(w: Realm, s: State, a: Step)
    requires Awake(w, s) && Enabled(w, s, a)
    requires a.Leave? || a.Slay? || a.Tick? || a.AiFire? || a.AiDone? || a.RespawnRetry?
    ensures Awake(w, Apply(w, s, a))
  {
    FewerObserversKeepAwake(w, s, Apply(w, s, a));
  }

  lemma StepKeepsAwake(w: Realm, s: State, a: Step)
    requires Placed(w, s.at) && QueueSane(w, s) && Awake(w, s) && Enabled(w, s, a)
    ensures Awake(w, Apply(w, s, a))
  {
    hide Apply, Enabled, Awake, Placed, QueueSane;
    if a.Login? || a.Walk? || a.Teleport? || a.Perish? {
      PlayerStepKeepsAwake(w, s, a);
    } else if a.MonsterWalk? || a.RespawnFire? {
      MonsterStepKeepsAwake(w, s, a);
    } else {
      OtherStepKeepsAwake(w, s, a);
    }
  }

  // --------------------------------------------------------------------- runs

  /** Every step keeps every invariant. */
  lemma StepKeepsInv(w: Realm, s: State, a: Step)
    requires Inv(w, s) && Enabled(w, s, a)
    ensures Inv(w, Apply(w, s, a))
  {
    StepKeepsPlaced(w, s, a);
    StepKeepsReplicated(w, s, a);
    StepKeepsScheduled(w, s, a);
    StepKeepsAwake(w, s, a);
  }

  ghost predicate IsRun(w: Realm, s: State, steps: seq<Step>)
    decreases |steps|
  {
    steps == [] || (Enabled(w, s, steps[0]) && IsRun(w, Apply(w, s, steps[0]), steps[1..]))
  }

  ghost function Run(w: Realm, s: State, steps: seq<Step>): State
    requires IsRun(w, s, steps)
    decreases |steps|
  {
    if steps == [] then s else Run(w, Apply(w, s, steps[0]), steps[1..])
  }

  lemma {:induction false} RunAppend(w: Realm, s: State, a: seq<Step>, b: seq<Step>)
    requires IsRun(w, s, a) && IsRun(w, Run(w, s, a), b)
    ensures IsRun(w, s, a + b) && Run(w, s, a + b) == Run(w, Run(w, s, a), b)
    decreases |a|
  {
    hide Enabled, Apply;
    if a == [] {
      assert a + b == b;
    } else {
      assert (a + b)[1..] == a[1..] + b;
      RunAppend(w, Apply(w, s, a[0]), a[1..], b);
    }
  }

  lemma {:induction false} RunKeepsInv(w: Realm, s: State, steps: seq<Step>)
    requires Inv(w, s) && IsRun(w, s, steps)
    ensures Inv(w, Run(w, s, steps))
    decreases |steps|
  {
    if steps != [] {
      StepKeepsInv(w, s, steps[0]);
      RunKeepsInv(w, Apply(w, s, steps[0]), steps[1..]);
    }
  }

  /** The state after start-up: every monster asleep on its spawn tile, nobody logged in. */
  function Initial(w: Realm): State {
    State(w.spawn, map[], {}, multiset{}, {}, 0, {})
  }

  ghost predicate WellSpawned(w: Realm) {
    && Exclusive(w.spawn)
    && forall m :: m in w.spawn ==> !IsPlayerId(m) && w.t.Walkable(w.spawn[m])
  }

  lemma InitialInv(w: Realm)
    requires WellSpawned(w)
    ensures Inv(w, Initial(w))
  {
    var s := Initial(w);
    forall m | m in w.spawn ensures MonsterTimers(s, m) {
      if Count(s.timers, Ai, m) > 0 {
        var e := CountPositive(s.timers, Ai, m);
      }
      if Count(s.timers, Respawn, m) > 0 {
        var e := CountPositive(s.timers, Respawn, m);
      }
    }
  }

  ghost predicate Reachable(w: Realm, s: State) {
    exists steps :: IsRun(w, Initial(w), steps) && s == Run(w, Initial(w), steps)
  }

  lemma ReachableInv(w: Realm, s: State)
    requires WellSpawned(w) && Reachable(w, s)
    ensures Inv(w, s)
  {
    var steps :| IsRun(w, Initial(w), steps) && s == Run(w, Initial(w), steps);
    InitialInv(w);
    RunKeepsInv(w, Initial(w), steps);
  }

  /** Replication. In every reachable state, the table of a client whose player has not died since
      login equals the brute-force view, and every other client's table contains it. */
  lemma ClientsShowTheirView(w: Realm, s: State, p: ObjectId)
    requires WellSpawned(w) && Reachable(w, s) && p in s.at && IsPlayerId(p)
    ensures p in s.seen && (p !in s.fallen ==> s.seen[p] == View(w.t, s.at, p))
    ensures forall o :: Sees(w.t, s.at, p, o) ==> o in s.seen[p] && s.seen[p][o] == s.at[o]
    ensures forall o :: o in s.at && o != p && InSquare(s.at[p], s.at[o], w.t.view) ==>
      o in s.seen[p] && s.seen[p][o] == s.at[o]
    ensures p !in s.fallen ==>
      forall o :: o in s.seen[p] ==> o in s.at && o != p && InSquare(s.at[p], s.at[o], w.t.view)
  {
    ReachableInv(w, s);
    ExactIsView(w.t, s.at, p, s.seen[p]);
    ViewInCoordinates(w.t, s.at, p);
  }

  // ------------------------------------------- exact views, deaths included

  /** The player dies, and something it had in view is out of view from the tile of rebirth. */
  ghost predicate LeavesStale(w: Realm, s: State, a: Step, p: ObjectId) {
    a.Perish? && a.id == p && exists o :: Sees(w.t, s.at, p, o) && !w.t.InView(a.p, s.at[o])
  }

  lemma OwnDeathKeepsExactIff(w: Realm, s: State, p: ObjectId, q: Pos)
    requires Enabled(w, s, Perish(p, q)) && p in s.seen && Exact(w.t, s.at, p, s.seen[p])
    ensures var s' := Apply(w, s, Perish(p, q));
      p in s'.seen && (Exact(w.t, s'.at, p, s'.seen[p]) <==> !LeavesStale(w, s, Perish(p, q), p))
  {
    hide FirstFree, Exact, AfterEnter, AfterVanish;
    DeathKeepsExactIff(w.t, s.at, s.seen, p, q);
    EntersForAll(w.t, s.at[p := q], AfterVanish(w.t, s.at, s.seen, p), p);
    VanishesForAll(w.t, s.at, s.seen, p);
  }

  lemma EntersForAll(t: Terrain, at: map<ObjectId, Pos>, seen: map<ObjectId, Replica>, id: ObjectId)
    requires id in at
    ensures AfterEnter(t, at, seen, id).Keys == seen.Keys
  {
  }

  lemma VanishesForAll(t: Terrain, at: map<ObjectId, Pos>, seen: map<ObjectId, Replica>, id: ObjectId)
    requires id in at
    ensures AfterVanish(t, at, seen, id).Keys == seen.Keys
  {
  }

  /** Nothing in the two states differs but who has died. */
  ghost predicate Alike(s: State, f: State) {
    f == s.(fallen := f.fallen)
  }

  lemma ForgivenEnabled(w: Realm, s: State, a: Step, f: State)
    requires Enabled(w, s, a) && Alike(s, f)
    ensures Enabled(w, f, a)
  {
    hide FirstFree, NoneFree, Free;
  }

  lemma ForgivenPlayerStep(w: Realm, s: State, a: Step, f: State, p: ObjectId)
    requires Enabled(w, s, a) && Enabled(w, f, a) && Alike(s, f) && p !in f.fallen && !(a.Perish? && a.id == p)
    requires a.Login? || a.Walk? || a.Teleport? || a.Leave? || a.Perish?
    ensures Apply(w, f, a).at == Apply(w, s, a).at && Apply(w, f, a).seen == Apply(w, s, a).seen && p !in Apply(w, f, a).fallen
  {
    hide FirstFree, Free, AfterEnter, AfterVanish, Wake, Relocate;
    WakingTellsNobody(w.t);
    RelocatingTellsAlike(w, s, f);
  }

  lemma ForgivenMonsterStep(w: Realm, s: State, a: Step, f: State, p: ObjectId)
    requires Enabled(w, s, a) && Enabled(w, f, a) && Alike(s, f) && p !in f.fallen
    requires a.Slay? || a.MonsterWalk? || a.RespawnFire?
    ensures Apply(w, f, a).at == Apply(w, s, a).at && Apply(w, f, a).seen == Apply(w, s, a).seen && p !in Apply(w, f, a).fallen
  {
    hide FirstFree, Free, Pops, AfterEnter, AfterMove, AfterVanish, Observed, Adjacent, Chebyshev;
    assert f.at == s.at && f.seen == s.seen;
    match a
    case Slay(m) =>
      assert AfterVanish(w.t, f.at, f.seen, m) == AfterVanish(w.t, s.at, s.seen, m);
    case MonsterWalk(m, q) =>
      assert AfterMove(w.t, f.at[m := q], f.seen, m, f.at[m]) == AfterMove(w.t, s.at[m := q], s.seen, m, s.at[m]);
    case RespawnFire(e, q) =>
      assert AfterEnter(w.t, f.at[e.target := q], f.seen, e.target) == AfterEnter(w.t, s.at[e.target := q], s.seen, e.target);
    case _ =>
  }

  lemma ForgivenTimerStep(w: Realm, s: State, a: Step, f: State, p: ObjectId)
    requires Enabled(w, s, a) && Enabled(w, f, a) && Alike(s, f) && p !in f.fallen
    requires a.Tick? || a.AiFire? || a.AiDone? || a.RespawnRetry?
    ensures Apply(w, f, a).at == Apply(w, s, a).at && Apply(w, f, a).seen == Apply(w, s, a).seen && p !in Apply(w, f, a).fallen
  {
    hide Enabled, Apply;
    TimerStepTellsNobody(w, s, a);
    TimerStepTellsNobody(w, f, a);
  }

  /** Who has died is history: a step does the same without it. */
  lemma ForgivenStep(w: Realm, s: State, a: Step, p: ObjectId)
    requires Enabled(w, s, a) && !(a.Perish? && a.id == p)
    ensures var f := s.(fallen := s.fallen - {p});
      && Enabled(w, f, a) && Apply(w, f, a).at == Apply(w, s, a).at && Apply(w, f, a).seen == Apply(w, s, a).seen
      && p !in Apply(w, f, a).fallen
  {
    hide Enabled, Apply;
    var f := s.(fallen := s.fallen - {p});
    ForgivenEnabled(w, s, a, f);
    if a.Login? || a.Walk? || a.Teleport? || a.Leave? || a.Perish? {
      ForgivenPlayerStep(w, s, a, f, p);
    } else if a.Slay? || a.MonsterWalk? || a.RespawnFire? {
      ForgivenMonsterStep(w, s, a, f, p);
    } else {
      ForgivenTimerStep(w, s, a, f, p);
    }
  }

  lemma WakingTellsNobody(t: Terrain)
    ensures forall s: State, c: Pos :: var s' := Wake(t, s, c);
      s'.at == s.at && s'.seen == s.seen && s'.fallen == s.fallen && s'.firing == s.firing
  {
  }

  lemma RelocatingTellsAlike(w: Realm, s: State, f: State)
    requires f.at == s.at && f.seen == s.seen
    ensures forall id, p :: id in s.at ==> Relocate(w, f, id, p).at == Relocate(w, s, id, p).at
    ensures forall id, p :: id in s.at ==> Relocate(w, f, id, p).seen == Relocate(w, s, id, p).seen
    ensures forall id, p :: id in s.at ==> Relocate(w, f, id, p).fallen == f.fallen
  {
    hide Wake, AfterMove;
    WakingTellsNobody(w.t);
  }

  /** A player that has died before, but whose table is exact, can be treated as one that has not. */
  lemma ForgiveExact(w: Realm, s: State, p: ObjectId)
    requires Replicated(w, s) && (p in s.seen ==> Exact(w.t, s.at, p, s.seen[p]))
    ensures Replicated(w, s.(fallen := s.fallen - {p}))
  {
    var f := s.(fallen := s.fallen - {p});
    forall q | q in f.seen ensures ClientOk(w, f, q) {
      assert ClientOk(w, s, q);
    }
  }

  /** One step keeps a player's table exact unless it is a death of that player that leaves something behind. */
  lemma StepKeepsExactIff(w: Realm, s: State, a: Step, p: ObjectId)
    requires Inv(w, s) && Enabled(w, s, a) && (p in s.seen ==> Exact(w.t, s.at, p, s.seen[p]))
    ensures var s' := Apply(w, s, a);
      (p in s'.seen ==> Exact(w.t, s'.at, p, s'.seen[p])) <==> !LeavesStale(w, s, a, p)
  {
    hide Exact, Apply, Placed, Scheduled, Awake;
    if a.Perish? && a.id == p {
      OwnDeathKeepsExactIff(w, s, p, a.p);
    } else {
      var f := s.(fallen := s.fallen - {p});
      ForgiveExact(w, s, p);
      ForgivenStep(w, s, a, p);
      MonstersAreNoPlayers(w, s.at);
      StepKeepsReplicated(w, f, a);
      var s' := Apply(w, s, a);
      if p in s'.seen {
        assert ClientOk(w, Apply(w, f, a), p);
      }
    }
  }

  lemma MonstersAreNoPlayers(w: Realm, at: map<ObjectId, Pos>)
    requires Placed(w, at)
    ensures forall m :: m in w.spawn ==> !IsPlayerId(m)
  {
  }

  ghost predicate AlwaysExact(w: Realm, s: State, steps: seq<Step>, p: ObjectId)
    requires IsRun(w, s, steps)
    decreases |steps|
  {
    && (p in s.seen ==> Exact(w.t, s.at, p, s.seen[p]))
    && (steps == [] || AlwaysExact(w, Apply(w, s, steps[0]), steps[1..], p))
  }

  ghost predicate NoStaleDeath(w: Realm, s: State, steps: seq<Step>, p: ObjectId)
    requires IsRun(w, s, steps)
    decreases |steps|
  {
    steps == [] || (!LeavesStale(w, s, steps[0], p) && NoStaleDeath(w, Apply(w, s, steps[0]), steps[1..], p))
  }

  /** Over a whole run, with any number of deaths: a client's table equals the view throughout if and
      only if no death of its player leaves something that was in view out of view. */
  lemma {:induction false} ExactThroughoutIff(w: Realm, s: State, steps: seq<Step>, p: ObjectId)
    requires Inv(w, s) && IsRun(w, s, steps) && (p in s.seen ==> Exact(w.t, s.at, p, s.seen[p]))
    ensures AlwaysExact(w, s, steps, p) <==> NoStaleDeath(w, s, steps, p)
    decreases |steps|
  {
    hide Inv, Exact, Enabled, Apply, LeavesStale;
    if steps != [] {
      var next := Apply(w, s, steps[0]);
      StepKeepsInv(w, s, steps[0]);
      StepKeepsExactIff(w, s, steps[0], p);
      if p in next.seen ==> Exact(w.t, next.at, p, next.seen[p]) {
        ExactThroughoutIff(w, next, steps[1..], p);
      }
    }
  }

  /** The timer protocol, in every reachable state. While an AI timer is being handled it is not in the
      queue; at all other times a live, active monster has exactly one. */
  lemma TimerProtocol(w: Realm, s: State, m: ObjectId)
    requires WellSpawned(w) && Reachable(w, s) && m in w.spawn
    ensures m in s.at ==> Count(s.timers, Respawn, m) == 0
    ensures m in s.at ==> Count(s.timers, Ai, m) == if m in s.active && m !in s.firing then 1 else 0
    ensures m !in s.at ==> m !in s.firing && Count(s.timers, Respawn, m) == 1
    ensures m !in s.at ==> Count(s.timers, Ai, m) <= 1 && StaleFirst(s.timers, m)
  {
    ReachableInv(w, s);
    assert MonsterTimers(s, m);
  }

  /** In every reachable state a live monster in some player's view is switched on, and its AI timer is
      pending or being handled. */
  lemma ObservedMonstersAct(w: Realm, s: State, m: ObjectId, p: ObjectId)
    requires WellSpawned(w) && Reachable(w, s)
    requires p in s.at && IsPlayerId(p) && m in s.at && !IsPlayerId(m) && w.t.InView(s.at[p], s.at[m])
    ensures m in s.active && (Count(s.timers, Ai, m) == 1 <==> m !in s.firing)
  {
    ReachableInv(w, s);
    assert Observed(w.t, s.at, m) && m in w.spawn && MonsterTimers(s, m);
  }

  /** In coordinates: an object is in the table exactly if it is within the view radius on both axes. */
  lemma ViewInCoordinates(t: Terrain, at: map<ObjectId, Pos>, p: ObjectId)
    requires p in at
    ensures forall o :: o in View(t, at, p) <==>
      o in at && o != p && InSquare(at[p], at[o], t.view)
    ensures forall o :: o in View(t, at, p) ==> View(t, at, p)[o] == at[o]
  {
  }

  /** Everybody stands alone on a walkable tile, and monsters keep within the roaming range of their spawn. */
  lemma EverybodyIsPlaced(w: Realm, s: State, id: ObjectId)
    requires WellSpawned(w) && Reachable(w, s) && id in s.at
    ensures 0 <= s.at[id].x < w.t.width && 0 <= s.at[id].y < w.t.height
    ensures w.t.obstacle[w.t.Index(s.at[id])] == 0 && w.t.Index(s.at[id]) == s.at[id].y * w.t.width + s.at[id].x
    ensures forall o :: o in s.at && s.at[o] == s.at[id] ==> o == id
    ensures !IsPlayerId(id) ==> id in w.spawn && InSquare(w.spawn[id], s.at[id], 20)
  {
    ReachableInv(w, s);
  }

  /** A field of one row without obstacles. */
  function OpenRow(): (t: Terrain)
    ensures t.width == 20 && t.height == 1 && t.view == 1
    ensures forall x :: 0 <= x < 20 ==> t.Walkable(Pos(x, 0))
  {
    var t := RawTerrain(20, 1, 1, 1, 1, seq(20, _ => 0));
    assert t.Wf();
    t
  }

  /** A free tile is what the search around it finds first. */
  lemma OwnTileIsFirst(t: Terrain, at: map<ObjectId, Pos>, c: Pos)
    requires Free(t, at, c)
    ensures FirstFree(t, at, c, CLAIM_RADIUS, c)
  {
  }

  lemma EntersAt(w: Realm, s: State, id: ObjectId, p: Pos)
    requires IsPlayerId(id) && id !in s.at && Free(w.t, s.at, p)
    ensures Enabled(w, s, Login(id, p, p)) && Apply(w, s, Login(id, p, p)).at == s.at[id := p]
    ensures Apply(w, s, Login(id, p, p)).fallen == s.fallen - {id}
  {
    OwnTileIsFirst(w.t, s.at, p);
  }

  lemma TwoEnter(w: Realm, a: Pos, b: Pos)
    requires WellSpawned(w) && w.spawn == map[] && Free(w.t, map[], a) && Free(w.t, map[], b) && a != b
    ensures Enabled(w, Initial(w), Login(1, a, a))
    ensures Enabled(w, Apply(w, Initial(w), Login(1, a, a)), Login(2, b, b))
    ensures var s2 := Apply(w, Apply(w, Initial(w), Login(1, a, a)), Login(2, b, b));
      Inv(w, s2) && s2.at == map[1 := a, 2 := b] && s2.fallen == {}
  {
    hide Inv, Enabled, Apply, FirstFree;
    var s0 := Initial(w);
    InitialInv(w);
    EntersAt(w, s0, 1, a);
    StepKeepsInv(w, s0, Login(1, a, a));
    var s1 := Apply(w, s0, Login(1, a, a));
    EntersAt(w, s1, 2, b);
    StepKeepsInv(w, s1, Login(2, b, b));
  }

  lemma DiesInView(w: Realm, s: State, p: ObjectId, o: ObjectId)
    requires Replicated(w, s) && IsPlayerId(p) && p !in s.fallen && Free(w.t, s.at - {p}, ORIGIN)
    requires Sees(w.t, s.at, p, o) && !w.t.InView(ORIGIN, s.at[o])
    ensures Enabled(w, s, Perish(p, ORIGIN))
    ensures var s' := Apply(w, s, Perish(p, ORIGIN)); p in s'.at && p in s'.seen && s'.seen[p] != View(w.t, s'.at, p)
  {
    assert ClientOk(w, s, p);
    OwnTileIsFirst(w.t, s.at - {p}, ORIGIN);
    hide FirstFree, Replicated, Free, AfterVanish, AfterEnter, Exact;
    DeathKeepsExactIff(w.t, s.at, s.seen, p, ORIGIN);
    var s' := Apply(w, s, Perish(p, ORIGIN));
    ExactIsView(w.t, s'.at, p, s'.seen[p]);
  }

  lemma ThreeSteps(w: Realm, s: State, a: Step, b: Step, c: Step)
    requires Enabled(w, s, a) && Enabled(w, Apply(w, s, a), b) && Enabled(w, Apply(w, Apply(w, s, a), b), c)
    ensures IsRun(w, s, [a, b, c]) && Run(w, s, [a, b, c]) == Apply(w, Apply(w, Apply(w, s, a), b), c)
  {
    hide Enabled, Apply;
    var s1 := Apply(w, s, a);
    var s2 := Apply(w, s1, b);
    var s3 := Apply(w, s2, c);
    assert [a, b, c][1..] == [b, c] && [b, c][1..] == [c];
    assert IsRun(w, s3, []) && Run(w, s3, []) == s3;
    assert IsRun(w, s2, [c]) && Run(w, s2, [c]) == s3;
    assert IsRun(w, s1, [b, c]) && Run(w, s1, [b, c]) == s3;
  }

  lemma ReachedInThree(w: Realm, a: Step, b: Step, c: Step)
    requires var s := Initial(w);
      Enabled(w, s, a) && Enabled(w, Apply(w, s, a), b) && Enabled(w, Apply(w, Apply(w, s, a), b), c)
    ensures Reachable(w, Apply(w, Apply(w, Apply(w, Initial(w), a), b), c))
  {
    hide Enabled, Apply, Initial;
    ThreeSteps(w, Initial(w), a, b, c);
  }

  lemma TwoInView(t: Terrain, at: map<ObjectId, Pos>, a: Pos, b: Pos)
    requires at == map[1 := a, 2 := b] && t.InView(a, b) && b != ORIGIN && t.Walkable(ORIGIN)
    ensures Sees(t, at, 1, 2) && Free(t, at - {1}, ORIGIN) && at[2] == b
  {
  }

  /** Two players log in next to each other, and the first one dies: what its client still shows. */
  lemma DeathNextToAPlayer(w: Realm, a: Pos, b: Pos) returns (s: State)
    requires w.spawn == map[] && w.t.Walkable(a) && w.t.Walkable(b) && a != b && w.t.Walkable(ORIGIN)
    requires w.t.InView(a, b) && !w.t.InView(ORIGIN, b)
    ensures Reachable(w, s) && 1 in s.at && 1 in s.seen && s.seen[1] != View(w.t, s.at, 1)
  {
    TwoEnter(w, a, b);
    hide Enabled, Apply, Scheduled, Awake, Placed, View, Replicated, Reachable, Initial, Sees, Free;
    var s2 := Apply(w, Apply(w, Initial(w), Login(1, a, a)), Login(2, b, b));
    TwoInView(w.t, s2.at, a, b);
    DiesInView(w, s2, 1, 2);
    ReachedInThree(w, Login(1, a, a), Login(2, b, b), Perish(1, ORIGIN));
    s := Apply(w, s2, Perish(1, ORIGIN));
  }

  lemma NobodyIsWellSpawned(w: Realm)
    requires w.spawn == map[]
    ensures WellSpawned(w)
  {
  }

  /** The exactness fails: a run in which a player dies next to another one, and its client goes on
      showing that one although it is out of view. */
  lemma DeathLeavesStaleEntry() returns (w: Realm, s: State)
    ensures WellSpawned(w) && Reachable(w, s) && 1 in s.at && 1 in s.seen && s.seen[1] != View(w.t, s.at, 1)
  {
    hide OpenRow, WellSpawned, Reachable, View, RawTerrain.Wf, RawTerrain.Walkable;
    w := Realm(OpenRow(), map[]);
    NobodyIsWellSpawned(w);
    s := DeathNextToAPlayer(w, Pos(5, 0), Pos(6, 0));
  }
}
