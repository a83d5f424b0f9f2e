/** The same occupancy scheme one atomic access at a time: every compare-and-swap on a tile and
    every update of a sector set is a step of its own, and steps of different ids interleave freely. */
module TileProtocol {
  import opened Grid
  import opened Sectors

  /** Where an id is inside its current operation. Operations on one id are serialised. */
  datatype Phase =
    | Idle(p: Pos)                  // standing, no operation in progress
    | Claimed(from: Pos, to: Pos)   // moving: new tile claimed, old one not yet released
    | Released(from: Pos, to: Pos)  // moving: old tile released, sector sets not yet updated
    | Arriving(p: Pos)              // being added: tile claimed, not yet in the sector set
    | Leaving(p: Pos)               // being removed: tile released, still in the sector set
  {
    /** The tiles that must hold the id. */
    function Held(): set<Pos> {
      match this
      case Idle(p) => {p}
      case Claimed(from, to) => {from, to}
      case Released(_, to) => {to}
      case Arriving(p) => {p}
      case Leaving(_) => {}
    }

    /** Whether a sector set lists the id, and for which tile. */
    predicate Listed() {
      !Arriving?
    }

    function ListedAt(): Pos
      requires Listed()
    {
      match this
      case Idle(p) => p
      case Claimed(from, _) => from
      case Released(from, _) => from
      case Leaving(p) => p
    }
  }

  datatype State = State(tiles: seq<ObjectId>, sectors: seq<set<ObjectId>>, phase: map<ObjectId, Phase>)

  datatype Action =
    | ClaimNext(to: Pos)    // TryMoveObject: TryClaim of the new tile succeeds
    | ReleaseOld            // TryMoveObject: Release of the old tile
    | Reindex               // TryMoveObject: MoveObject, under both sector locks
    | ClaimFirst(p: Pos)    // AddObject: one TryClaim of its search succeeds
    | Insert                // AddObject: sector insert
    | ReleaseLast           // RemoveObject: Release
    | Erase                 // RemoveObject: sector erase

  ghost predicate Sized(t: Terrain, s: State) {
    |s.tiles| == t.width * t.height && |s.sectors| == t.Columns() * t.Rows()
  }

  predicate EmptyTile(t: Terrain, s: State, c: Pos)
    requires |s.tiles| == t.width * t.height
  {
    t.Walkable(c) && s.tiles[t.Index(c)] == INVALID_ID
  }

  /** Release's compare-and-swap: it may fail, and then changes nothing. */
  function Cas(tiles: seq<ObjectId>, k: int, expected: ObjectId, id: ObjectId): seq<ObjectId>
    requires 0 <= k < |tiles|
  {
    if tiles[k] == expected then tiles[k := id] else tiles
  }

  function Relist(t: Terrain, sectors: seq<set<ObjectId>>, id: ObjectId, from: Pos, to: Pos): seq<set<ObjectId>>
    requires t.InMap(from) && t.InMap(to) && |sectors| == t.Columns() * t.Rows()
  {
    var k, k' := SectorOf(t, from), SectorOf(t, to);
    if k == k' then sectors else sectors[k := sectors[k] - {id}][k' := sectors[k'] + {id}]
  }

  ghost predicate Next(t: Terrain, s: State, id: ObjectId, a: Action, s': State)
    requires Sized(t, s)
  {
    && id != INVALID_ID
    && match a
       case ClaimNext(to) =>
         && id in s.phase && s.phase[id].Idle? && s.phase[id].p != to && EmptyTile(t, s, to)
         && s' == s.(tiles := Cas(s.tiles, t.Index(to), INVALID_ID, id),
                     phase := s.phase[id := Claimed(s.phase[id].p, to)])
       case ReleaseOld =>
         && id in s.phase && s.phase[id].Claimed? && t.InMap(s.phase[id].from)
         && s' == s.(tiles := Cas(s.tiles, t.Index(s.phase[id].from), id, INVALID_ID),
                     phase := s.phase[id := Released(s.phase[id].from, s.phase[id].to)])
       case Reindex =>
         && id in s.phase && s.phase[id].Released? && t.InMap(s.phase[id].from) && t.InMap(s.phase[id].to)
         && s' == s.(sectors := Relist(t, s.sectors, id, s.phase[id].from, s.phase[id].to),
                     phase := s.phase[id := Idle(s.phase[id].to)])
       case ClaimFirst(p) =>
         && id !in s.phase && EmptyTile(t, s, p)
         && s' == s.(tiles := Cas(s.tiles, t.Index(p), INVALID_ID, id), phase := s.phase[id := Arriving(p)])
       case Insert =>
         && id in s.phase && s.phase[id].Arriving? && t.InMap(s.phase[id].p)
         && var k := SectorOf(t, s.phase[id].p);
         s' == s.(sectors := s.sectors[k := s.sectors[k] + {id}], phase := s.phase[id := Idle(s.phase[id].p)])
       case ReleaseLast =>
         && id in s.phase && s.phase[id].Idle? && t.InMap(s.phase[id].p)
         && s' == s.(tiles := Cas(s.tiles, t.Index(s.phase[id].p), id, INVALID_ID),
                     phase := s.phase[id := Leaving(s.phase[id].p)])
       case Erase =>
         && id in s.phase && s.phase[id].Leaving? && t.InMap(s.phase[id].p)
         && var k := SectorOf(t, s.phase[id].p);
         s' == s.(sectors := s.sectors[k := s.sectors[k] - {id}], phase := s.phase - {id})
  }

  // --------------------------------------------------------------- invariant

  ghost predicate TilesOwned(t: Terrain, s: State)
    requires Sized(t, s)
  {
    && (forall id, c :: id in s.phase && c in s.phase[id].Held() ==>
          t.Walkable(c) && s.tiles[t.Index(c)] == id != INVALID_ID)
    && (forall c :: t.InMap(c) && s.tiles[t.Index(c)] != INVALID_ID ==>
          s.tiles[t.Index(c)] in s.phase && c in s.phase[s.tiles[t.Index(c)]].Held())
    && (forall id :: id in s.phase && s.phase[id].Claimed? ==> s.phase[id].from != s.phase[id].to)
  }

  ghost predicate SectorsListed(t: Terrain, s: State)
    requires Sized(t, s)
  {
    && (forall id :: id in s.phase && s.phase[id].Listed() ==> t.InMap(s.phase[id].ListedAt()))
    && (forall k, id :: 0 <= k < |s.sectors| ==> (id in s.sectors[k] <==>
          id in s.phase && s.phase[id].Listed() && SectorOf(t, s.phase[id].ListedAt()) == k))
  }

  function Occupied(tiles: seq<ObjectId>): set<int> {
    set k | 0 <= k < |tiles| && tiles[k] != INVALID_ID
  }

  /** Ids that hold at least one tile, and ids between claim and release, which hold two. */
  function Holders(phase: map<ObjectId, Phase>): set<ObjectId> {
    set id | id in phase && !phase[id].Leaving?
  }

  function Movers(phase: map<ObjectId, Phase>): set<ObjectId> {
    set id | id in phase && phase[id].Claimed?
  }

  ghost predicate Conserved(s: State) {
    |Occupied(s.tiles)| == |Holders(s.phase)| + |Movers(s.phase)|
  }

  ghost predicate Inv(t: Terrain, s: State) {
    Sized(t, s) && TilesOwned(t, s) && SectorsListed(t, s) && Conserved(s)
  }

  function Initial(t: Terrain): State {
    State(seq(t.width * t.height, _ => INVALID_ID), seq(t.Columns() * t.Rows(), _ => {}), map[])
  }

  lemma InitialInv(t: Terrain)
    ensures Inv(t, Initial(t))
  {
    assert Occupied(Initial(t).tiles) == {};
    assert Holders(Initial(t).phase) == {} && Movers(Initial(t).phase) == {};
  }

  function HeldBy(s: State, id: ObjectId): set<Pos> {
    if id in s.phase then s.phase[id].Held() else {}
  }

  /** Claiming an empty tile while the id's phase gains it keeps ownership exact. */
  lemma ClaimKeepsOwned(t: Terrain, s: State, id: ObjectId, c: Pos, to: Phase, s': State)
    requires Sized(t, s) && TilesOwned(t, s) && id != INVALID_ID && EmptyTile(t, s, c)
    requires to.Held() == HeldBy(s, id) + {c} && (to.Claimed? ==> to.from != to.to)
    requires s' == s.(tiles := s.tiles[t.Index(c) := id], phase := s.phase[id := to])
    ensures TilesOwned(t, s')
  {
    TilesApart(t, c);
    hide TilesOwned, Phase.Held, RawTerrain.Index, RawTerrain.Walkable, RawTerrain.InMap;
    forall o, c' | o in s'.phase && c' in s'.phase[o].Held()
      ensures t.Walkable(c') && t.InMap(c') && s'.tiles[t.Index(c')] == o != INVALID_ID
    {
      if o in s.phase && c' in s.phase[o].Held() {
        HeldTile(t, s, o, c');
      } else {
        assert o == id && c' == c;
      }
    }
    forall c' | t.InMap(c') && s'.tiles[t.Index(c')] != INVALID_ID
      ensures s'.tiles[t.Index(c')] in s'.phase && c' in s'.phase[s'.tiles[t.Index(c')]].Held()
    {
      if c' != c {
        OwnerOfTile(t, s, c');
      }
    }
    MoversMove(t, s);
    Owned(t, s');
  }

  lemma MoversMove(t: Terrain, s: State)
    requires Sized(t, s) && TilesOwned(t, s)
    ensures forall o :: o in s.phase && s.phase[o].Claimed? ==> s.phase[o].from != s.phase[o].to
  {
  }

  lemma Owned(t: Terrain, s: State)
    requires Sized(t, s)
    requires forall id, c :: id in s.phase && c in s.phase[id].Held() ==>
      t.Walkable(c) && t.InMap(c) && s.tiles[t.Index(c)] == id != INVALID_ID
    requires forall c :: t.InMap(c) && s.tiles[t.Index(c)] != INVALID_ID ==>
      s.tiles[t.Index(c)] in s.phase && c in s.phase[s.tiles[t.Index(c)]].Held()
    requires forall id :: id in s.phase && s.phase[id].Claimed? ==> s.phase[id].from != s.phase[id].to
    ensures TilesOwned(t, s)
  {
  }

  lemma HeldTile(t: Terrain, s: State, id: ObjectId, c: Pos)
    requires Sized(t, s) && TilesOwned(t, s) && id in s.phase && c in s.phase[id].Held()
    ensures t.Walkable(c) && t.InMap(c) && s.tiles[t.Index(c)] == id != INVALID_ID
  {
  }

  lemma OwnerOfTile(t: Terrain, s: State, c: Pos)
    requires Sized(t, s) && TilesOwned(t, s) && t.InMap(c) && s.tiles[t.Index(c)] != INVALID_ID
    ensures s.tiles[t.Index(c)] in s.phase && c in s.phase[s.tiles[t.Index(c)]].Held()
  {
  }

  lemma TilesApart(t: Terrain, c: Pos)
    requires t.InMap(c)
    ensures forall c' :: t.InMap(c') && t.Index(c') == t.Index(c) ==> c' == c
  {
    forall c' | t.InMap(c') && t.Index(c') == t.Index(c) ensures c' == c {
      IndexInjective(t, c, c');
    }
  }

  /** Releasing one of the id's own tiles while its phase loses it keeps ownership exact. */
  lemma ReleaseKeepsOwned(t: Terrain, s: State, id: ObjectId, c: Pos, to: Phase, s': State)
    requires Sized(t, s) && TilesOwned(t, s) && id in s.phase && c in s.phase[id].Held() && t.InMap(c)
    requires to.Held() == s.phase[id].Held() - {c} && !to.Claimed?
    requires s' == s.(tiles := s.tiles[t.Index(c) := INVALID_ID], phase := s.phase[id := to])
    ensures TilesOwned(t, s')
  {
    TilesApart(t, c);
  }

  lemma RelabelKeepsOwned(t: Terrain, s: State, s': State)
    requires Sized(t, s) && Sized(t, s') && TilesOwned(t, s) && s'.tiles == s.tiles
    requires forall id :: id in s'.phase ==> id in s.phase && s'.phase[id].Held() == s.phase[id].Held()
    requires forall id :: id in s.phase && id !in s'.phase ==> s.phase[id].Held() == {}
    requires forall id :: id in s'.phase && s'.phase[id].Claimed? ==> s'.phase[id] == s.phase[id]
    ensures TilesOwned(t, s')
  {
    forall id, c | id in s'.phase && c in s'.phase[id].Held()
      ensures t.Walkable(c) && s'.tiles[t.Index(c)] == id != INVALID_ID
    {
      assert c in s.phase[id].Held();
    }
  }

  lemma NextOwned(t: Terrain, s: State, id: ObjectId, a: Action, s': State)
    requires Sized(t, s) && TilesOwned(t, s) && Next(t, s, id, a, s')
    ensures Sized(t, s') && TilesOwned(t, s')
  {
    match a
    case ClaimNext(to) => ClaimKeepsOwned(t, s, id, to, s'.phase[id], s');
    case ReleaseOld =>
      assert s.phase[id].from in s.phase[id].Held();
      ReleaseKeepsOwned(t, s, id, s.phase[id].from, s'.phase[id], s');
    case ClaimFirst(p) => ClaimKeepsOwned(t, s, id, p, s'.phase[id], s');
    case ReleaseLast =>
      assert s.phase[id].p in s.phase[id].Held();
      ReleaseKeepsOwned(t, s, id, s.phase[id].p, s'.phase[id], s');
    case Reindex => RelabelKeepsOwned(t, s, s');
    case Insert => RelabelKeepsOwned(t, s, s');
    case Erase => RelabelKeepsOwned(t, s, s');
  }

  /** The sector an id is listed in, if any. */
  ghost predicate ListedIn(t: Terrain, phase: map<ObjectId, Phase>, id: ObjectId, k: int) {
    && id in phase && phase[id].Listed() && t.InMap(phase[id].ListedAt())
    && SectorOf(t, phase[id].ListedAt()) == k
  }

  lemma RelistKeepsListed(t: Terrain, s: State, id: ObjectId, s': State)
    requires Sized(t, s) && SectorsListed(t, s) && id in s.phase && s.phase[id].Released?
    requires t.InMap(s.phase[id].from) && t.InMap(s.phase[id].to)
    requires s' == s.(sectors := Relist(t, s.sectors, id, s.phase[id].from, s.phase[id].to),
                      phase := s.phase[id := Idle(s.phase[id].to)])
    ensures SectorsListed(t, s')
  {
    forall k, o | 0 <= k < |s.sectors|
      ensures o in s'.sectors[k] <==> ListedIn(t, s'.phase, o, k)
    {
      assert o in s.sectors[k] <==> ListedIn(t, s.phase, o, k);
    }
  }

  lemma InsertKeepsListed(t: Terrain, s: State, id: ObjectId, s': State)
    requires Sized(t, s) && SectorsListed(t, s) && id in s.phase && s.phase[id].Arriving? && t.InMap(s.phase[id].p)
    requires var k := SectorOf(t, s.phase[id].p);
      s' == s.(sectors := s.sectors[k := s.sectors[k] + {id}], phase := s.phase[id := Idle(s.phase[id].p)])
    ensures SectorsListed(t, s')
  {
    forall k, o | 0 <= k < |s.sectors|
      ensures o in s'.sectors[k] <==> ListedIn(t, s'.phase, o, k)
    {
      assert o in s.sectors[k] <==> ListedIn(t, s.phase, o, k);
    }
  }

  lemma EraseKeepsListed(t: Terrain, s: State, id: ObjectId, s': State)
    requires Sized(t, s) && SectorsListed(t, s) && id in s.phase && s.phase[id].Leaving? && t.InMap(s.phase[id].p)
    requires var k := SectorOf(t, s.phase[id].p);
      s' == s.(sectors := s.sectors[k := s.sectors[k] - {id}], phase := s.phase - {id})
    ensures SectorsListed(t, s')
  {
    forall k, o | 0 <= k < |s.sectors|
      ensures o in s'.sectors[k] <==> ListedIn(t, s'.phase, o, k)
    {
      assert o in s.sectors[k] <==> ListedIn(t, s.phase, o, k);
    }
  }

  /** A step that leaves every id listed where it was leaves the sector sets right. */
  lemma SameListing(t: Terrain, s: State, id: ObjectId, to: Phase, s': State)
    requires Sized(t, s) && SectorsListed(t, s) && Sized(t, s')
    requires s'.sectors == s.sectors && s'.phase == s.phase[id := to]
    requires if id in s.phase && s.phase[id].Listed() then to.Listed() && to.ListedAt() == s.phase[id].ListedAt()
             else !to.Listed()
    ensures SectorsListed(t, s')
  {
    forall k, o | 0 <= k < |s.sectors|
      ensures o in s'.sectors[k] <==> ListedIn(t, s'.phase, o, k)
    {
      assert o in s.sectors[k] <==> ListedIn(t, s.phase, o, k);
    }
  }

  lemma NextListed(t: Terrain, s: State, id: ObjectId, a: Action, s': State)
    requires Sized(t, s) && SectorsListed(t, s) && Next(t, s, id, a, s')
    ensures Sized(t, s') && SectorsListed(t, s')
  {
    match a
    case ClaimNext(_) => SameListing(t, s, id, s'.phase[id], s');
    case ReleaseOld => SameListing(t, s, id, s'.phase[id], s');
    case Reindex => RelistKeepsListed(t, s, id, s');
    case ClaimFirst(_) => SameListing(t, s, id, s'.phase[id], s');
    case Insert => InsertKeepsListed(t, s, id, s');
    case ReleaseLast => SameListing(t, s, id, s'.phase[id], s');
    case Erase => EraseKeepsListed(t, s, id, s');
  }

  lemma OneTileMore(tiles: seq<ObjectId>, k: int, id: ObjectId)
    requires 0 <= k < |tiles| && tiles[k] == INVALID_ID && id != INVALID_ID
    ensures |Occupied(tiles[k := id])| == |Occupied(tiles)| + 1
  {
    assert Occupied(tiles[k := id]) == Occupied(tiles) + {k};
  }

  lemma OneTileFewer(tiles: seq<ObjectId>, k: int)
    requires 0 <= k < |tiles| && tiles[k] != INVALID_ID
    ensures |Occupied(tiles[k := INVALID_ID])| == |Occupied(tiles)| - 1
  {
    assert Occupied(tiles[k := INVALID_ID]) == Occupied(tiles) - {k};
  }

  lemma RecountHolders(phase: map<ObjectId, Phase>, id: ObjectId, to: Phase)
    ensures |Holders(phase[id := to])| - |Holders(phase)| ==
      (if to.Leaving? then 0 else 1) - (if id in phase && !phase[id].Leaving? then 1 else 0)
  {
    var rest := Holders(phase) - {id};
    assert Holders(phase[id := to]) == if to.Leaving? then rest else rest + {id};
    assert Holders(phase) == if id in phase && !phase[id].Leaving? then rest + {id} else rest;
    hide Holders;
  }

  lemma RecountMovers(phase: map<ObjectId, Phase>, id: ObjectId, to: Phase)
    ensures |Movers(phase[id := to])| - |Movers(phase)| ==
      (if to.Claimed? then 1 else 0) - (if id in phase && phase[id].Claimed? then 1 else 0)
  {
    var rest := Movers(phase) - {id};
    assert Movers(phase[id := to]) == if to.Claimed? then rest + {id} else rest;
    assert Movers(phase) == if id in phase && phase[id].Claimed? then rest + {id} else rest;
    hide Movers;
  }

  /** How a change of one id's phase changes the two counts. */
  lemma Recount(phase: map<ObjectId, Phase>, id: ObjectId, to: Phase)
    ensures |Holders(phase[id := to])| - |Holders(phase)| ==
      (if to.Leaving? then 0 else 1) - (if id in phase && !phase[id].Leaving? then 1 else 0)
    ensures |Movers(phase[id := to])| - |Movers(phase)| ==
      (if to.Claimed? then 1 else 0) - (if id in phase && phase[id].Claimed? then 1 else 0)
  {
    RecountHolders(phase, id, to);
    RecountMovers(phase, id, to);
  }

  lemma NextConserved(t: Terrain, s: State, id: ObjectId, a: Action, s': State)
    requires Inv(t, s) && Next(t, s, id, a, s')
    ensures Conserved(s')
  {
    match a
    case ClaimNext(to) =>
      OneTileMore(s.tiles, t.Index(to), id);
      Recount(s.phase, id, s'.phase[id]);
    case ReleaseOld =>
      assert s.phase[id].from in s.phase[id].Held();
      OneTileFewer(s.tiles, t.Index(s.phase[id].from));
      Recount(s.phase, id, s'.phase[id]);
    case ClaimFirst(p) =>
      OneTileMore(s.tiles, t.Index(p), id);
      Recount(s.phase, id, s'.phase[id]);
    case ReleaseLast =>
      assert s.phase[id].p in s.phase[id].Held();
      OneTileFewer(s.tiles, t.Index(s.phase[id].p));
      Recount(s.phase, id, s'.phase[id]);
    case Erase =>
      assert Holders(s'.phase) == Holders(s.phase) && Movers(s'.phase) == Movers(s.phase);
    case _ =>
      Recount(s.phase, id, s'.phase[id]);
  }

  /** Every atomic step of every id keeps the invariant. */
  lemma NextKeepsInv(t: Terrain, s: State, id: ObjectId, a: Action, s': State)
    requires Inv(t, s) && Next(t, s, id, a, s')
    ensures Inv(t, s')
  {
    NextOwned(t, s, id, a, s');
    NextListed(t, s, id, a, s');
    NextConserved(t, s, id, a, s');
  }

  // --------------------------------------------------------------------- runs

  ghost predicate Moves(t: Terrain, s: State, s': State) {
    Sized(t, s) && exists id, a :: Next(t, s, id, a, s')
  }

  ghost predicate IsRun(t: Terrain, run: seq<State>) {
    && run != [] && run[0] == Initial(t)
    && forall i :: 0 <= i < |run| - 1 ==> Moves(t, run[i], run[i + 1])
  }

  /** Under every interleaving, every state of every run satisfies the invariant. */
  lemma {:induction false} RunKeepsInv(t: Terrain, run: seq<State>, i: nat)
    requires IsRun(t, run) && i < |run|
    ensures Inv(t, run[i])
  {
    if i == 0 {
      InitialInv(t);
    } else {
      RunKeepsInv(t, run, i - 1);
      assert Moves(t, run[i - 1], run[i - 1 + 1]);
      var id, a :| Next(t, run[i - 1], id, a, run[i]);
      NextKeepsInv(t, run[i - 1], id, a, run[i]);
    }
  }

  /** No step of `id` touches a tile that another id holds. */
  lemma NoOverwrite(t: Terrain, s: State, id: ObjectId, a: Action, s': State, k: int)
    requires Inv(t, s) && Next(t, s, id, a, s') && 0 <= k < |s.tiles|
    ensures |s'.tiles| == |s.tiles|
    ensures s.tiles[k] != INVALID_ID && s.tiles[k] != id ==> s'.tiles[k] == s.tiles[k]
    ensures s'.tiles[k] != s.tiles[k] ==> s'.tiles[k] in {id, INVALID_ID}
  {
  }

  /** The release in a move never loses its compare-and-swap: the old tile is still the mover's. */
  lemma ReleaseAlwaysSucceeds(t: Terrain, s: State, id: ObjectId)
    requires Inv(t, s) && id in s.phase && s.phase[id].Claimed?
    ensures t.InMap(s.phase[id].from) && s.tiles[t.Index(s.phase[id].from)] == id
  {
    assert s.phase[id].from in s.phase[id].Held();
  }

  /** The tiles that hold `id` are exactly the ones its phase says: none while leaving, one while
      idle, arriving or released, two between claim and release. */
  lemma TilesOfId(t: Terrain, s: State, id: ObjectId)
    requires Inv(t, s) && id in s.phase && id != INVALID_ID
    ensures forall c :: t.InMap(c) ==> (s.tiles[t.Index(c)] == id <==> c in s.phase[id].Held())
    ensures |s.phase[id].Held()| == if s.phase[id].Leaving? then 0 else if s.phase[id].Claimed? then 2 else 1
  {
    forall c | t.InMap(c) ensures s.tiles[t.Index(c)] == id <==> c in s.phase[id].Held() {
      if c in s.phase[id].Held() {
        assert s.tiles[t.Index(c)] == id;
      }
    }
    HeldSize(s.phase[id]);
  }

  lemma HeldSize(p: Phase)
    requires p.Claimed? ==> p.from != p.to
    ensures |p.Held()| == if p.Leaving? then 0 else if p.Claimed? then 2 else 1
  {
    if p.Claimed? {
      assert p.Held() == {p.from} + {p.to};
    }
  }

  /** A claim succeeds exactly on a passable tile that no id holds, whatever the others are doing. */
  lemma ClaimIff(t: Terrain, s: State, id: ObjectId, to: Pos)
    requires Inv(t, s) && id in s.phase && s.phase[id].Idle?
    ensures (exists s' :: Next(t, s, id, ClaimNext(to), s')) <==>
      t.Walkable(to) && forall o :: o in s.phase ==> to !in s.phase[o].Held()
  {
    assert s.phase[id].p in s.phase[id].Held();
    if EmptyTile(t, s, to) {
      var s' := s.(tiles := Cas(s.tiles, t.Index(to), INVALID_ID, id), phase := s.phase[id := Claimed(s.phase[id].p, to)]);
      assert Next(t, s, id, ClaimNext(to), s');
    } else if t.Walkable(to) {
      assert to in s.phase[s.tiles[t.Index(to)]].Held();
    }
  }

  /** No operation is ever stuck half way: its next step can be taken in any state. */
  lemma NeverStuck(t: Terrain, s: State, id: ObjectId) returns (a: Action, s': State)
    requires Inv(t, s) && id in s.phase && !s.phase[id].Idle? && id != INVALID_ID
    ensures Next(t, s, id, a, s') && Inv(t, s')
  {
    OnTheMap(t, s, id, s.phase[id]);
    a, s' := NextOf(t, s, id);
    NextKeepsInv(t, s, id, a, s');
  }

  /** The tiles of an operation in progress are tiles of the map. */
  lemma OnTheMap(t: Terrain, s: State, id: ObjectId, ph: Phase)
    requires Sized(t, s) && TilesOwned(t, s) && SectorsListed(t, s) && id in s.phase && s.phase[id] == ph
    ensures ph.Claimed? ==> t.InMap(ph.from)
    ensures ph.Released? ==> t.InMap(ph.from) && t.InMap(ph.to)
    ensures ph.Arriving? || ph.Leaving? ==> t.InMap(ph.p)
  {
    hide SectorOf, TilesOwned, RawTerrain.InMap;
    assert s.phase[id].Listed() ==> t.InMap(ph.ListedAt());
    if ph.Arriving? {
      HeldTile(t, s, id, ph.p);
    } else if ph.Released? {
      HeldTile(t, s, id, ph.to);
    }
  }

  lemma NextOf(t: Terrain, s: State, id: ObjectId) returns (a: Action, s': State)
    requires Sized(t, s) && id in s.phase && id != INVALID_ID && !s.phase[id].Idle?
    requires var ph := s.phase[id];
      && (ph.Claimed? || ph.Released? ==> t.InMap(ph.from))
      && (ph.Released? ==> t.InMap(ph.to))
      && (ph.Arriving? || ph.Leaving? ==> t.InMap(ph.p))
    ensures Next(t, s, id, a, s')
  {
    match s.phase[id]
    case Claimed(from, to) =>
      a, s' := ReleaseOld, s.(tiles := Cas(s.tiles, t.Index(from), id, INVALID_ID), phase := s.phase[id := Released(from, to)]);
    case Released(from, to) =>
      a, s' := Reindex, s.(sectors := Relist(t, s.sectors, id, from, to), phase := s.phase[id := Idle(to)]);
    case Arriving(p) =>
      var k := SectorOf(t, p);
      a, s' := Insert, s.(sectors := s.sectors[k := s.sectors[k] + {id}], phase := s.phase[id := Idle(p)]);
    case Leaving(p) =>
      var k := SectorOf(t, p);
      a, s' := Erase, s.(sectors := s.sectors[k := s.sectors[k] - {id}], phase := s.phase - {id});
  }

  /** Three steps of one id in a row are the whole move: the new tile is its own, the old one empty, and
      no other tile or id is touched. */
  lemma MoveInARow(t: Terrain, s: State, id: ObjectId, to: Pos, s1: State, s2: State, s3: State)
    requires Inv(t, s) && id in s.phase
    requires Next(t, s, id, ClaimNext(to), s1) && Sized(t, s1) && Next(t, s1, id, ReleaseOld, s2)
    requires Sized(t, s2) && Next(t, s2, id, Reindex, s3)
    ensures Inv(t, s3) && s3.phase == s.phase[id := Idle(to)]
    ensures var from := s.phase[id].p;
      t.InMap(from) && t.InMap(to) && s3.tiles == s.tiles[t.Index(from) := INVALID_ID][t.Index(to) := id]
  {
    NextKeepsInv(t, s, id, ClaimNext(to), s1);
    NextKeepsInv(t, s1, id, ReleaseOld, s2);
    NextKeepsInv(t, s2, id, Reindex, s3);
    var from := s.phase[id].p;
    assert from in s.phase[id].Held();
    ReleaseAlwaysSucceeds(t, s1, id);
    if t.Index(from) == t.Index(to) {
      IndexInjective(t, from, to);
    }
    assert s1.tiles == s.tiles[t.Index(to) := id];
    assert s2.tiles == s1.tiles[t.Index(from) := INVALID_ID];
  }

  function Positions(phase: map<ObjectId, Phase>): map<ObjectId, Pos>
    requires forall id :: id in phase ==> phase[id].Idle?
  {
    map id | id in phase :: phase[id].p
  }

  /** Whenever no operation is in progress, tile array and sector sets agree with the positions,
      which is what the sequential SectorManager maintains. */
  lemma QuiescentAgrees(t: Terrain, s: State)
    requires Inv(t, s) && forall id :: id in s.phase ==> s.phase[id].Idle?
    ensures Occupancy(t, s.tiles, Positions(s.phase)) && Indexed(t, s.sectors, Positions(s.phase))
  {
    forall id | id in s.phase
      ensures t.Walkable(s.phase[id].p) && s.tiles[t.Index(s.phase[id].p)] == id != INVALID_ID
    {
      assert s.phase[id].p in s.phase[id].Held();
    }
  }
}
