/** The map every other module works on: tiles, directions, sectors and the two distances.
    The source fixes the sizes as constants; here they are parameters, so that every
    result holds for every map, sector size and view radius the constants could take. */
module Grid {

  /** A tile coordinate. The source stores both parts as 16-bit integers. */
  datatype Pos = Pos(x: int, y: int)

  /** Object ids, unsigned 32-bit in the source: players come first, monsters from the offset on. */
  type ObjectId = int

  const INVALID_ID: ObjectId := 0xFFFF_FFFF
  const MONSTER_ID_OFFSET: ObjectId := 1_000_000
  /** Radius AddObject searches for a free tile, and the largest distance a monster keeps from its spawn. */
  const CLAIM_RADIUS: nat := 20
  const ROAMING_RANGE: nat := 20

  predicate IsPlayerId(id: ObjectId) {
    id < MONSTER_ID_OFFSET
  }

  /** The four directions UP, DOWN, LEFT, RIGHT. */
  function Step(p: Pos, d: int): Pos
    requires 0 <= d < 4
  {
    match d
    case 0 => Pos(p.x, p.y - 1)
    case 1 => Pos(p.x, p.y + 1)
    case 2 => Pos(p.x - 1, p.y)
    case 3 => Pos(p.x + 1, p.y)
  }

  /** The source's offset tables. */
  const DX: seq<int> := [0, 0, -1, 1]
  const DY: seq<int> := [-1, 1, 0, 0]

  /** The next tile in a direction, by the tables. */
  ghost function Ahead(p: Pos, d: int): Pos
    requires 0 <= d < 4
  {
    Pos(p.x + DX[d], p.y + DY[d])
  }

  /** One of the four tiles around `c`, in coordinates. */
  ghost predicate NextTo(c: Pos, p: Pos) {
    || (p.x == c.x && (p.y == c.y - 1 || p.y == c.y + 1))
    || (p.y == c.y && (p.x == c.x - 1 || p.x == c.x + 1))
  }

  function Abs(n: int): nat {
    if n < 0 then -n else n
  }

  function Manhattan(a: Pos, b: Pos): nat {
    Abs(a.x - b.x) + Abs(a.y - b.y)
  }

  function Chebyshev(a: Pos, b: Pos): nat {
    if Abs(a.x - b.x) < Abs(a.y - b.y) then Abs(a.y - b.y) else Abs(a.x - b.x)
  }

  predicate Adjacent(a: Pos, b: Pos) {
    Manhattan(a, b) == 1
  }

  /** The square of side 2r + 1 around `c`, in coordinates. */
  ghost predicate InSquare(c: Pos, p: Pos, r: nat) {
    c.x - r <= p.x <= c.x + r && c.y - r <= p.y <= c.y + r
  }

  datatype RawTerrain = RawTerrain(
    width: nat, height: nat,   // MAP_WIDTH, MAP_HEIGHT
    sector: nat,               // SECTOR_SIZE
    view: nat,                 // HALF_VIEW
    agro: nat,                 // HALF_AGRO
    obstacle: seq<nat>)        // one cell per tile, 0 = passable
  {
    /** Sectors tile the map exactly, what a creature can see fits in one sector, and
        a coordinate within CLAIM_RADIUS of the map still fits in 16 bits. */
    predicate Wf() {
      && 0 < sector && 0 < width && 0 < height
      && width % sector == 0 && height % sector == 0
      && view <= sector && agro <= sector
      && width + CLAIM_RADIUS <= 0x8000 && height + CLAIM_RADIUS <= 0x8000
      && |obstacle| == width * height
    }

    predicate InMap(p: Pos) {
      0 <= p.x < width && 0 <= p.y < height
    }

    /** Row-major tile number; also the key the path finder's closed set uses. */
    function Index(p: Pos): (k: int)
      requires InMap(p)
      ensures 0 <= k < width * height
    {
      IndexBound(p.y, p.x, height, width);
      p.y * width + p.x
    }

    predicate Walkable(p: Pos)
      requires Wf()
    {
      InMap(p) && obstacle[Index(p)] == 0
    }

    predicate InView(a: Pos, b: Pos) {
      Chebyshev(a, b) <= view
    }

    function Columns(): nat
      requires Wf()
    {
      width / sector
    }

    function Rows(): nat
      requires Wf()
    {
      height / sector
    }

    function SectorX(p: Pos): int
      requires Wf()
    {
      p.x / sector
    }

    function SectorY(p: Pos): int
      requires Wf()
    {
      p.y / sector
    }

    predicate IsSector(sx: int, sy: int)
      requires Wf()
    {
      0 <= sx < Columns() && 0 <= sy < Rows()
    }

    function SectorIndex(sx: int, sy: int): (k: int)
      requires Wf() && IsSector(sx, sy)
      ensures 0 <= k < Columns() * Rows()
    {
      IndexBound(sy, sx, Rows(), Columns());
      sy * Columns() + sx
    }
  }

  type Terrain = t: RawTerrain | t.Wf() witness RawTerrain(1, 1, 1, 0, 0, [0])

  lemma ProductMonotone(a: int, b: int, c: nat)
    requires a <= b
    ensures a * c <= b * c
  {
    assert b * c - a * c == (b - a) * c;
  }

  /** One more row adds at least one more row length. */
  lemma RowGap(a: int, b: int, c: nat)
    requires a < b
    ensures a * c + c <= b * c
  {
    ProductMonotone(a + 1, b, c);
    assert (a + 1) * c == a * c + c;
  }

  lemma IndexBound(row: int, col: int, rows: nat, cols: nat)
    requires 0 <= row < rows && 0 <= col < cols
    ensures 0 <= row * cols + col < cols * rows
  {
    ProductMonotone(0, row, cols);
    RowGap(row, rows, cols);
  }

  /** Row-major numbering gives two different cells two different numbers. */
  lemma RowMajorInjective(row: int, col: int, row': int, col': int, cols: nat)
    requires 0 <= col < cols && 0 <= col' < cols
    requires row * cols + col == row' * cols + col'
    ensures row == row' && col == col'
  {
    if row < row' {
      RowGap(row, row', cols);
    } else if row' < row {
      RowGap(row', row, cols);
    }
  }

  lemma IndexInjective(t: Terrain, p: Pos, q: Pos)
    requires t.InMap(p) && t.InMap(q) && t.Index(p) == t.Index(q)
    ensures p == q
  {
    RowMajorInjective(p.y, p.x, q.y, q.x, t.width);
  }

  lemma SectorIndexInjective(t: Terrain, sx: int, sy: int, sx': int, sy': int)
    requires t.IsSector(sx, sy) && t.IsSector(sx', sy')
    requires t.SectorIndex(sx, sy) == t.SectorIndex(sx', sy')
    ensures sx == sx' && sy == sy'
  {
    RowMajorInjective(sy, sx, sy', sx', t.Columns());
  }

  lemma QuotientBounds(n: int, s: nat)
    requires 0 < s
    ensures (n / s) * s <= n < (n / s) * s + s
  {
    assert n == s * (n / s) + n % s;
  }

  lemma QuotientInRange(n: int, size: nat, s: nat)
    requires 0 < s && 0 <= n < size && size % s == 0
    ensures 0 <= n / s < size / s
  {
    QuotientBounds(n, s);
    assert size == (size / s) * s;
    if n / s >= size / s {
      ProductMonotone(size / s, n / s, s);
    }
  }

  /** Every tile of the map lies in one of the sectors. */
  lemma TileHasSector(t: Terrain, p: Pos)
    requires t.InMap(p)
    ensures t.IsSector(t.SectorX(p), t.SectorY(p))
  {
    QuotientInRange(p.x, t.width, t.sector);
    QuotientInRange(p.y, t.height, t.sector);
  }

  /** The sector number of a tile of the map. */
  function SectorOf(t: Terrain, p: Pos): (k: int)
    requires t.InMap(p)
    ensures 0 <= k < t.Columns() * t.Rows()
  {
    TileHasSector(t, p);
    t.SectorIndex(t.SectorX(p), t.SectorY(p))
  }

  /** Two tiles whose sectors touch, or are the same. */
  predicate SectorsTouch(t: Terrain, a: Pos, b: Pos) {
    Abs(t.SectorX(a) - t.SectorX(b)) <= 1 && Abs(t.SectorY(a) - t.SectorY(b)) <= 1
  }

  lemma CloseQuotients(a: int, b: int, s: nat)
    requires 0 < s && Abs(a - b) <= s
    ensures Abs(a / s - b / s) <= 1
  {
    QuotientBounds(a, s);
    QuotientBounds(b, s);
    QuotientsDiffer(a, b, a / s, b / s, s);
    QuotientsDiffer(b, a, b / s, a / s, s);
  }

  lemma QuotientsDiffer(a: int, b: int, qa: int, qb: int, s: nat)
    requires qa * s <= a < qa * s + s && qb * s <= b < qb * s + s && a - b <= s
    ensures qa <= qb + 1
  {
    RowGap(qb, qb + 1, s);
    if qa >= qb + 2 {
      RowGap(qb + 1, qa, s);
    }
  }

  /** Tiles at most one sector size apart lie in touching sectors, which is why a
      3x3 block of sectors holds everything a creature can see. */
  lemma WithinSectorSizeTouches(t: Terrain, a: Pos, b: Pos)
    requires Chebyshev(a, b) <= t.sector
    ensures SectorsTouch(t, a, b)
  {
    CloseQuotients(a.x, b.x, t.sector);
    CloseQuotients(a.y, b.y, t.sector);
  }
}
