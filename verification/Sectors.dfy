/** Tile occupancy and the sector index. `SectorManager.at` is the position every live object is
    supposed to have; `Valid` says the tile array and the sector sets both agree with it. */
module Sectors {
  import opened Grid

  // ------------------------------------------------- agreement with positions

  /** Every object stands on a tile of the map that holds its id, and every occupied tile
      holds the id of an object that stands there. */
  ghost predicate Occupancy(t: Terrain, tiles: seq<ObjectId>, at: map<ObjectId, Pos>)
    requires |tiles| == t.width * t.height
  {
    && (forall id :: id in at ==> t.InMap(at[id]) && tiles[t.Index(at[id])] == id != INVALID_ID)
    && (forall c :: t.InMap(c) && tiles[t.Index(c)] != INVALID_ID ==>
          tiles[t.Index(c)] in at && at[tiles[t.Index(c)]] == c)
  }

  /** Every object is in the set of its own sector and in no other. */
  ghost predicate Indexed(t: Terrain, sectors: seq<set<ObjectId>>, at: map<ObjectId, Pos>)
    requires |sectors| == t.Columns() * t.Rows()
  {
    && (forall id :: id in at ==> t.InMap(at[id]))
    && (forall k, id :: 0 <= k < |sectors| ==> (id in sectors[k] <==> id in at && SectorOf(t, at[id]) == k))
  }

  /** No two objects share a tile. */
  ghost predicate Exclusive(at: map<ObjectId, Pos>) {
    forall a, b :: a in at && b in at && at[a] == at[b] ==> a == b
  }

  lemma OccupancyIsExclusive(t: Terrain, tiles: seq<ObjectId>, at: map<ObjectId, Pos>)
    requires |tiles| == t.width * t.height && Occupancy(t, tiles, at)
    ensures Exclusive(at)
  {
  }

  /** Nobody stands there. */
  predicate Unoccupied(at: map<ObjectId, Pos>, c: Pos) {
    forall id :: id in at ==> at[id] != c
  }

  /** A tile an object could be put on: passable and nobody there. */
  predicate Free(t: Terrain, at: map<ObjectId, Pos>, c: Pos) {
    t.Walkable(c) && Unoccupied(at, c)
  }

  lemma UnoccupiedMeansEmptyTile(t: Terrain, tiles: seq<ObjectId>, at: map<ObjectId, Pos>, c: Pos)
    requires |tiles| == t.width * t.height && Occupancy(t, tiles, at) && t.InMap(c)
    ensures Unoccupied(at, c) <==> tiles[t.Index(c)] == INVALID_ID
  {
  }

  lemma FreeMeansEmptyTile(t: Terrain, tiles: seq<ObjectId>, at: map<ObjectId, Pos>, c: Pos)
    requires |tiles| == t.width * t.height && Occupancy(t, tiles, at)
    ensures Free(t, at, c) <==> t.Walkable(c) && tiles[t.Index(c)] == INVALID_ID
  {
  }

  /** Putting an id on an empty tile, or moving it there from its own tile, keeps the agreement. */
  lemma PlaceKeepsOccupancy(t: Terrain, tiles: seq<ObjectId>, at: map<ObjectId, Pos>, id: ObjectId, c: Pos)
    requires |tiles| == t.width * t.height && Occupancy(t, tiles, at)
    requires id !in at && id != INVALID_ID && t.InMap(c) && tiles[t.Index(c)] == INVALID_ID
    ensures Occupancy(t, tiles[t.Index(c) := id], at[id := c])
  {
    forall q | t.InMap(q) && t.Index(q) == t.Index(c) ensures q == c {
      IndexInjective(t, q, c);
    }
  }

  lemma LiftKeepsOccupancy(t: Terrain, tiles: seq<ObjectId>, at: map<ObjectId, Pos>, id: ObjectId)
    requires |tiles| == t.width * t.height && Occupancy(t, tiles, at) && id in at
    ensures Occupancy(t, tiles[t.Index(at[id]) := INVALID_ID], at - {id})
  {
    forall q | t.InMap(q) && t.Index(q) == t.Index(at[id]) ensures q == at[id] {
      IndexInjective(t, q, at[id]);
    }
  }

  lemma PlaceKeepsIndexed(t: Terrain, sectors: seq<set<ObjectId>>, at: map<ObjectId, Pos>, id: ObjectId, c: Pos)
    requires |sectors| == t.Columns() * t.Rows() && Indexed(t, sectors, at) && id !in at && t.InMap(c)
    ensures var k := SectorOf(t, c); Indexed(t, sectors[k := sectors[k] + {id}], at[id := c])
  {
  }

  lemma LiftKeepsIndexed(t: Terrain, sectors: seq<set<ObjectId>>, at: map<ObjectId, Pos>, id: ObjectId)
    requires |sectors| == t.Columns() * t.Rows() && Indexed(t, sectors, at) && id in at
    ensures var k := SectorOf(t, at[id]); Indexed(t, sectors[k := sectors[k] - {id}], at - {id})
  {
  }

  // ------------------------------------------------------- nearest free tile

  /** Two's-complement 16-bit value of an integer sum. */
  function Int16(n: int): int {
    (n + 0x8000) % 0x1_0000 - 0x8000
  }

  predicate IsInt16(n: int) {
    -0x8000 <= n < 0x8000
  }

  /** The search order around `c`: by ring, then by row, then by column. */
  predicate Before(c: Pos, a: Pos, b: Pos) {
    var ra, rb := Chebyshev(c, a), Chebyshev(c, b);
    ra < rb || (ra == rb && (a.y < b.y || (a.y == b.y && a.x < b.x)))
  }

  /** `p` is the first free tile in search order, so in particular no free tile is nearer to `c`. */
  ghost predicate FirstFree(t: Terrain, at: map<ObjectId, Pos>, c: Pos, radius: nat, p: Pos) {
    && Chebyshev(c, p) <= radius && Free(t, at, p)
    && forall q :: Before(c, q, p) ==> !Free(t, at, q)
  }

  ghost predicate NoneFree(t: Terrain, at: map<ObjectId, Pos>, c: Pos, radius: nat) {
    forall q :: Chebyshev(c, q) <= radius ==> !Free(t, at, q)
  }

  /** The search order is total, so the claimed tile is determined by the positions alone,
      and it minimises the Chebyshev distance. */
  lemma FirstFreeIsNearestAndUnique(t: Terrain, at: map<ObjectId, Pos>, c: Pos, radius: nat, p: Pos, q: Pos)
    requires FirstFree(t, at, c, radius, p)
    ensures Free(t, at, q) ==> Chebyshev(c, p) <= Chebyshev(c, q)
    ensures FirstFree(t, at, c, radius, q) ==> p == q
  {
    assert Before(c, q, p) || Before(c, p, q) || p == q;
  }

  /** No tile at most 20 away on either axis is free. */
  ghost predicate Crowded(t: Terrain, at: map<ObjectId, Pos>, c: Pos) {
    forall q :: InSquare(c, q, 20) ==> !Free(t, at, q)
  }

  /** The search fails exactly when everything around is taken or blocked. */
  lemma CrowdedIff(t: Terrain, at: map<ObjectId, Pos>, c: Pos)
    ensures NoneFree(t, at, c, CLAIM_RADIUS) <==> Crowded(t, at, c)
  {
    assert forall q :: InSquare(c, q, 20) <==> Chebyshev(c, q) <= CLAIM_RADIUS;
  }

  /** In coordinates: never more than 20 away on either axis. */
  lemma FirstFreeIsNear(t: Terrain, at: map<ObjectId, Pos>, c: Pos, p: Pos)
    requires FirstFree(t, at, c, CLAIM_RADIUS, p)
    ensures InSquare(c, p, 20)
  {
  }

  ghost predicate Claimable(t: Terrain, cells: seq<ObjectId>, q: Pos)
    requires |cells| == t.width * t.height
  {
    t.Walkable(q) && cells[t.Index(q)] == INVALID_ID
  }

  /** Nothing that the search visits before offset (dx, dy) of ring `radius` can be claimed. */
  ghost predicate ClearBefore(t: Terrain, cells: seq<ObjectId>, c: Pos, radius: int, dy: int, dx: int)
    requires |cells| == t.width * t.height
  {
    forall q :: (Chebyshev(c, q) < radius
        || (Chebyshev(c, q) == radius && (q.y - c.y < dy || (q.y - c.y == dy && q.x - c.x < dx)))) ==>
      !Claimable(t, cells, q)
  }

  lemma ColumnDone(t: Terrain, cells: seq<ObjectId>, c: Pos, radius: int, dy: int, dx: int)
    requires |cells| == t.width * t.height && ClearBefore(t, cells, c, radius, dy, dx)
    requires var q := Pos(c.x + dx, c.y + dy); Chebyshev(c, q) != radius || !Claimable(t, cells, q)
    ensures ClearBefore(t, cells, c, radius, dy, dx + 1)
  {
    forall q | Chebyshev(c, q) == radius && q.y - c.y == dy && q.x - c.x == dx
      ensures !Claimable(t, cells, q)
    {
      assert q == Pos(c.x + dx, c.y + dy);
    }
  }

  lemma RowEnds(t: Terrain, cells: seq<ObjectId>, c: Pos, radius: int, dy: int)
    requires |cells| == t.width * t.height && ClearBefore(t, cells, c, radius, dy, radius + 1)
    ensures ClearBefore(t, cells, c, radius, dy + 1, -radius)
  {
  }

  lemma RingEnds(t: Terrain, cells: seq<ObjectId>, c: Pos, radius: int)
    requires |cells| == t.width * t.height && ClearBefore(t, cells, c, radius, radius + 1, -radius)
    ensures ClearBefore(t, cells, c, radius + 1, -(radius + 1), -(radius + 1))
  {
  }

  // ------------------------------------------------------------------ queries

  ghost predicate NoDuplicates(ids: seq<ObjectId>) {
    forall i, j :: 0 <= i < j < |ids| ==> ids[i] != ids[j]
  }

  /** The sector (sx, sy) comes before offset (dx, dy) in the scan of the 3x3 block around (cx, cy). */
  predicate Scanned(cx: int, cy: int, sx: int, sy: int, dy: int, dx: int) {
    Abs(sx - cx) <= 1 && Abs(sy - cy) <= 1 && (sy - cy < dy || (sy - cy == dy && sx - cx < dx))
  }

  /** The map plus a margin of `radius` still fits in 16 bits. */
  predicate FitsAround(t: Terrain, radius: int) {
    t.width + radius <= 0x8000 && t.height + radius <= 0x8000
  }

  /** Near the map, 16-bit wrap-around never turns an outside coordinate into an inside one. */
  lemma WrapStaysOut(t: Terrain, c: Pos, radius: nat, dx: int, dy: int)
    requires IsInt16(c.x) && IsInt16(c.y) && FitsAround(t, radius) && Abs(dx) <= radius && Abs(dy) <= radius
    ensures var q, w := Pos(c.x + dx, c.y + dy), Pos(Int16(c.x + dx), Int16(c.y + dy));
      (t.InMap(q) ==> w == q) && (t.InMap(w) ==> w == q)
  {
    WrapOne(c.x, dx, t.width, radius);
    WrapOne(c.y, dy, t.height, radius);
    hide Int16;
  }

  lemma WrapOne(n: int, d: int, size: nat, radius: nat)
    requires IsInt16(n) && Abs(d) <= radius && size + radius <= 0x8000
    ensures 0 <= n + d < size || 0 <= Int16(n + d) < size ==> Int16(n + d) == n + d
  {
  }

  /** Claim, release and sector update together keep both agreements for the moved position. */
  lemma MoveKeepsAgreement(t: Terrain, tiles: seq<ObjectId>, sectors: seq<set<ObjectId>>, at: map<ObjectId, Pos>,
                  id: ObjectId, to: Pos)
    requires |tiles| == t.width * t.height && Occupancy(t, tiles, at)
    requires |sectors| == t.Columns() * t.Rows() && Indexed(t, sectors, at)
    requires id in at && t.InMap(to) && tiles[t.Index(to)] == INVALID_ID
    ensures Occupancy(t, tiles[t.Index(to) := id][t.Index(at[id]) := INVALID_ID], (at - {id})[id := to])
    ensures var k, k' := SectorOf(t, at[id]), SectorOf(t, to);
      Indexed(t, if k == k' then sectors else sectors[k := sectors[k] - {id}][k' := sectors[k'] + {id}], (at - {id})[id := to])
  {
    LiftKeepsOccupancy(t, tiles, at, id);
    var lifted := tiles[t.Index(at[id]) := INVALID_ID];
    PlaceKeepsOccupancy(t, lifted, at - {id}, id, to);
    assert tiles[t.Index(to) := id][t.Index(at[id]) := INVALID_ID] == lifted[t.Index(to) := id];
  }

  predicate InSector(t: Terrain, at: map<ObjectId, Pos>, id: ObjectId, sx: int, sy: int) {
    id in at && t.SectorX(at[id]) == sx && t.SectorY(at[id]) == sy
  }

  lemma SectorMembers(t: Terrain, sectors: seq<set<ObjectId>>, at: map<ObjectId, Pos>, sx: int, sy: int)
    requires |sectors| == t.Columns() * t.Rows() && Indexed(t, sectors, at) && t.IsSector(sx, sy)
    ensures forall id :: id in sectors[t.SectorIndex(sx, sy)] <==> InSector(t, at, id, sx, sy)
  {
    var k := t.SectorIndex(sx, sy);
    forall id | id in at ensures SectorOf(t, at[id]) == k <==> t.SectorX(at[id]) == sx && t.SectorY(at[id]) == sy {
      TileHasSector(t, at[id]);
      if SectorOf(t, at[id]) == k {
        SectorIndexInjective(t, t.SectorX(at[id]), t.SectorY(at[id]), sx, sy);
      }
    }
  }

  class SectorManager {
    const t: Terrain
    const tiles: array<ObjectId>
    const sectors: array<set<ObjectId>>
    ghost var at: map<ObjectId, Pos>

    ghost predicate Sized() {
      tiles.Length == t.width * t.height && sectors.Length == t.Columns() * t.Rows()
    }

    ghost predicate Valid()
      reads this, tiles, sectors
    {
      Sized() && Occupancy(t, tiles[..], at) && Indexed(t, sectors[..], at)
    }

    constructor (t: Terrain)
      ensures Valid() && at == map[] && this.t == t
      ensures fresh(tiles) && fresh(sectors)
    {
      this.t := t;
      tiles := new ObjectId[t.width * t.height](_ => INVALID_ID);
      sectors := new set<ObjectId>[t.Columns() * t.Rows()](_ => {});
      at := map[];
    }

    /** Compare-and-swap from empty to `id`. */
    method TryClaim(c: Pos, id: ObjectId) returns (ok: bool)
      requires Sized()
      modifies tiles
      ensures ok <==> t.InMap(c) && old(tiles[..])[t.Index(c)] == INVALID_ID
      ensures tiles[..] == if ok then old(tiles[..])[t.Index(c) := id] else old(tiles[..])
    {
      if c.x < 0 || c.x >= t.width || c.y < 0 || c.y >= t.height {
        return false;
      }
      var idx := t.Index(c);
      if tiles[idx] == INVALID_ID {
        tiles[idx] := id;
        return true;
      }
      return false;
    }

    /** Compare-and-swap from `id` to empty. */
    method Release(c: Pos, id: ObjectId)
      requires Sized()
      modifies tiles
      ensures tiles[..] ==
        if t.InMap(c) && old(tiles[..])[t.Index(c)] == id then old(tiles[..])[t.Index(c) := INVALID_ID] else old(tiles[..])
    {
      if c.x < 0 || c.x >= t.width || c.y < 0 || c.y >= t.height {
        return;
      }
      var idx := t.Index(c);
      if tiles[idx] == id {
        tiles[idx] := INVALID_ID;
      }
    }

    /** Moves an id from one sector set to another when the sector changes. */
    method MoveObject(id: ObjectId, from: Pos, to: Pos)
      requires Sized() && t.InMap(from) && t.InMap(to)
      modifies sectors
      ensures var k, k' := SectorOf(t, from), SectorOf(t, to);
        sectors[..] == if k == k' then old(sectors[..])
                       else old(sectors[..])[k := old(sectors[k]) - {id}][k' := old(sectors[k']) + {id}]
    {
      TileHasSector(t, from);
      TileHasSector(t, to);
      if t.SectorX(from) == t.SectorX(to) && t.SectorY(from) == t.SectorY(to) {
        return;
      }
      var k, k' := SectorOf(t, from), SectorOf(t, to);
      if k == k' {
        SectorIndexInjective(t, t.SectorX(from), t.SectorY(from), t.SectorX(to), t.SectorY(to));
        assert false;
      }
      sectors[k] := sectors[k] - {id};
      sectors[k'] := sectors[k'] + {id};
    }

    /** One object's move. It succeeds exactly when the target is its own tile, or an empty one of the map;
        whether it is passable is for the caller to check. */
    method TryMoveObject(id: ObjectId, from: Pos, to: Pos) returns (ok: bool)
      requires Valid() && id in at && at[id] == from
      modifies this, tiles, sectors
      ensures Valid()
      ensures ok <==> from == to || (t.InMap(to) && Unoccupied(old(at), to))
      ensures at == if ok then old(at)[id := to] else old(at)
    {
      if t.InMap(to) {
        UnoccupiedMeansEmptyTile(t, tiles[..], at, to);
      }
      if from == to {
        assert at == at[id := to];
        return true;
      }
      ok := TryClaim(to, id);
      if !ok {
        return false;
      }
      ghost var tiles0, sectors0, at0 := old(tiles[..]), old(sectors[..]), at;
      Release(from, id);
      MoveObject(id, from, to);
      at := at[id := to];
      MoveKeepsAgreement(t, tiles0, sectors0, at0, id, to);
      assert at == (at0 - {id})[id := to];
    }

    /** Scans rings of growing radius for a walkable tile and claims the first one that is empty. */
    method TryClaimNearby(id: ObjectId, c: Pos, maxRadius: nat) returns (ok: bool, p: Pos)
      requires Sized() && id != INVALID_ID && IsInt16(c.x) && IsInt16(c.y) && FitsAround(t, maxRadius)
      modifies tiles
      ensures ok ==> Chebyshev(c, p) <= maxRadius && Claimable(t, old(tiles[..]), p)
      ensures ok ==> forall q :: Before(c, q, p) ==> !Claimable(t, old(tiles[..]), q)
      ensures ok ==> tiles[..] == old(tiles[..])[t.Index(p) := id]
      ensures !ok ==> tiles[..] == old(tiles[..])
      ensures !ok ==> forall q :: Chebyshev(c, q) <= maxRadius ==> !Claimable(t, tiles[..], q)
    {
      p := c;
      ghost var cells := tiles[..];
      var radius: int := 0;
      while radius <= maxRadius
        invariant 0 <= radius <= maxRadius + 1
        invariant tiles[..] == cells && ClearBefore(t, cells, c, radius, -radius, -radius)
      {
        var dy := -radius;
        while dy <= radius
          invariant -radius <= dy <= radius + 1
          invariant tiles[..] == cells && ClearBefore(t, cells, c, radius, dy, -radius)
        {
          ok, p := ClaimInRow(id, c, radius, dy, cells);
          if ok {
            return;
          }
          RowEnds(t, cells, c, radius, dy);
          dy := dy + 1;
        }
        RingEnds(t, cells, c, radius);
        radius := radius + 1;
      }
      return false, p;
    }

    /** One row of one ring: the innermost loop of the search. */
    method ClaimInRow(id: ObjectId, c: Pos, radius: int, dy: int, ghost cells: seq<ObjectId>) returns (ok: bool, p: Pos)
      requires Sized() && IsInt16(c.x) && IsInt16(c.y) && -radius <= dy <= radius && FitsAround(t, radius)
      requires tiles[..] == cells && ClearBefore(t, cells, c, radius, dy, -radius)
      modifies tiles
      ensures ok ==> Chebyshev(c, p) == radius && Claimable(t, cells, p) && tiles[..] == cells[t.Index(p) := id]
      ensures ok ==> forall q :: Before(c, q, p) ==> !Claimable(t, cells, q)
      ensures !ok ==> tiles[..] == cells && ClearBefore(t, cells, c, radius, dy, radius + 1)
    {
      p := c;
      var dx := -radius;
      while dx <= radius
        invariant -radius <= dx <= radius + 1
        invariant tiles[..] == cells && ClearBefore(t, cells, c, radius, dy, dx)
      {
        if radius > 0 && Abs(dy) != radius && Abs(dx) != radius {
          ColumnDone(t, cells, c, radius, dy, dx);
          dx := dx + 1;
          continue;
        }
        var q := Pos(Int16(c.x + dx), Int16(c.y + dy));
        WrapStaysOut(t, c, radius, dx, dy);
        if !t.Walkable(q) {
          ColumnDone(t, cells, c, radius, dy, dx);
          dx := dx + 1;
          continue;
        }
        var claimed := TryClaim(q, id);
        if claimed {
          return true, q;
        }
        ColumnDone(t, cells, c, radius, dy, dx);
        dx := dx + 1;
      }
      return false, p;
    }

    /** Places a new object on the first free tile around `c`. */
    method AddObject(id: ObjectId, c: Pos) returns (ok: bool, p: Pos)
      requires Valid() && id !in at && id != INVALID_ID && IsInt16(c.x) && IsInt16(c.y)
      modifies this, tiles, sectors
      ensures Valid()
      ensures ok ==> FirstFree(t, old(at), c, CLAIM_RADIUS, p) && at == old(at)[id := p]
      ensures !ok ==> NoneFree(t, at, c, CLAIM_RADIUS) && at == old(at)
    {
      forall q ensures Free(t, at, q) <==> Claimable(t, tiles[..], q) {
        FreeMeansEmptyTile(t, tiles[..], at, q);
      }
      ghost var tiles0 := tiles[..];
      ok, p := TryClaimNearby(id, c, CLAIM_RADIUS);
      if !ok {
        return;
      }
      PlaceKeepsOccupancy(t, tiles0, at, id, p);
      PlaceKeepsIndexed(t, sectors[..], at, id, p);
      var k := SectorOf(t, p);
      ghost var sectors0 := sectors[..];
      sectors[k] := sectors[k] + {id};
      assert sectors[..] == sectors0[k := sectors0[k] + {id}];
      at := at[id := p];
    }

    method RemoveObject(id: ObjectId, c: Pos)
      requires Valid() && id in at && at[id] == c
      modifies this, tiles, sectors
      ensures Valid() && at == old(at) - {id}
    {
      LiftKeepsOccupancy(t, tiles[..], at, id);
      LiftKeepsIndexed(t, sectors[..], at, id);
      Release(c, id);
      var k := SectorOf(t, c);
      ghost var sectors0 := sectors[..];
      sectors[k] := sectors[k] - {id};
      assert sectors[..] == sectors0[k := sectors0[k] - {id}];
      at := at - {id};
    }

    /** The occupant of a tile, or INVALID_ID. */
    method GetOccupant(c: Pos) returns (id: ObjectId)
      requires Valid()
      ensures id != INVALID_ID ==> id in at && at[id] == c
      ensures id == INVALID_ID ==> forall o :: o in at ==> at[o] != c
    {
      if c.x < 0 || c.x >= t.width || c.y < 0 || c.y >= t.height {
        return INVALID_ID;
      }
      id := tiles[t.Index(c)];
    }

    /** The ids in the 3x3 block of sectors around `c`: each once, and exactly those whose sector touches. */
    method GetNearbyObjects(c: Pos) returns (ids: seq<ObjectId>)
      requires Valid() && t.InMap(c)
      ensures NoDuplicates(ids)
      ensures forall id :: id in ids <==> id in at && SectorsTouch(t, c, at[id])
    {
      ids := [];
      var cx, cy := t.SectorX(c), t.SectorY(c);
      var dy := -1;
      while dy <= 1
        invariant -1 <= dy <= 2
        invariant NoDuplicates(ids)
        invariant forall id :: id in ids <==>
            id in at && Scanned(cx, cy, t.SectorX(at[id]), t.SectorY(at[id]), dy, -1)
      {
        var dx := -1;
        while dx <= 1
          invariant -1 <= dx <= 2
          invariant NoDuplicates(ids)
          invariant forall id :: id in ids <==>
              id in at && Scanned(cx, cy, t.SectorX(at[id]), t.SectorY(at[id]), dy, dx)
        {
          var nsx, nsy := cx + dx, cy + dy;
          ghost var before := ids;
          if t.IsSector(nsx, nsy) {
            ids := AppendSector(ids, nsx, nsy);
          }
          forall id ensures id in ids <==>
              id in at && Scanned(cx, cy, t.SectorX(at[id]), t.SectorY(at[id]), dy, dx + 1) {
            if id in at {
              TileHasSector(t, at[id]);
            }
          }
          dx := dx + 1;
        }
        dy := dy + 1;
      }
    }

    /** Copies one sector's set to the end of the result. */
    method AppendSector(ids: seq<ObjectId>, sx: int, sy: int) returns (ids': seq<ObjectId>)
      requires Valid() && t.IsSector(sx, sy) && NoDuplicates(ids)
      requires forall id :: id in ids ==> !InSector(t, at, id, sx, sy)
      ensures NoDuplicates(ids')
      ensures forall id :: id in ids' <==> id in ids || InSector(t, at, id, sx, sy)
    {
      var k := t.SectorIndex(sx, sy);
      SectorMembers(t, sectors[..], at, sx, sy);
      ids' := AppendSet(ids, sectors[k]);
    }
  }

  lemma SomeElement(s: set<ObjectId>)
    ensures s == {} || exists id :: id in s
  {
    if forall id: ObjectId :: id !in s {
      assert s == {};
    }
  }

  /** The unordered traversal of one set. */
  method AppendSet(ids: seq<ObjectId>, more: set<ObjectId>) returns (ids': seq<ObjectId>)
    requires NoDuplicates(ids) && forall id :: id in ids ==> id !in more
    ensures NoDuplicates(ids')
    ensures forall id :: id in ids' <==> id in ids || id in more
  {
    ids' := ids;
    var rest := more;
    while rest != {}
      invariant rest <= more && NoDuplicates(ids')
      invariant forall id :: id in ids' <==> id in ids || (id in more && id !in rest)
      decreases |rest|
    {
      SomeElement(rest);
      var id :| id in rest;
      ghost var before := ids';
      ids' := ids' + [id];
      forall x ensures x in ids' <==> x in before || x == id {
        assert ids'[|before|] == id;
      }
      rest := rest - {id};
    }
  }
}
