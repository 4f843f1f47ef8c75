/** Tile enumeration for pre-rendering ("distilling") vector tiles: every
    zoom level from the minimal zoom up to the maximal distilled zoom, and in
    it a rectangle of tiles that starts at the configured tile of the minimal
    zoom and doubles in both directions with each zoom level. */
module Distill {
  import opened Conf

  /** A tile coordinate triple, in the order get_coordinates_for_distilling yields it: (x, y, z). */
  type Tile = (int, int, int)

  function Pow2(k: nat): (p: nat)
    ensures p >= 1
  {
    if k == 0 then 1 else 2 * Pow2(k - 1)
  }

  /** z_factor = 2 ** (z - MIN_ZOOM). */
  function ZFactor(s: Settings, z: int): nat
    requires z >= s.minZoom
  {
    Pow2((z - s.minZoom) as nat)
  }

  /** The bounds of range(...) for x and y at zoom level z. */
  function XLo(s: Settings, z: int): int
    requires z >= s.minZoom
  {
    s.xAtMinZ * ZFactor(s, z)
  }

  function XHi(s: Settings, z: int): int
    requires z >= s.minZoom
  {
    (s.xAtMinZ + 1) * ZFactor(s, z) + s.xOffset * ZFactor(s, z)
  }

  function YLo(s: Settings, z: int): int
    requires z >= s.minZoom
  {
    s.yAtMinZ * ZFactor(s, z)
  }

  function YHi(s: Settings, z: int): int
    requires z >= s.minZoom
  {
    (s.yAtMinZ + 1) * ZFactor(s, z) + s.yOffset * ZFactor(s, z)
  }

  /** How many values range(lo, hi) yields. */
  function RangeLen(lo: int, hi: int): nat {
    if hi <= lo then 0 else hi - lo
  }

  /** How many zoom levels range(MIN_ZOOM, MAX_DISTILLED_ZOOM + 1) yields. */
  function ZoomCount(s: Settings): nat {
    RangeLen(s.minZoom, s.maxDistilledZoom + 1)
  }

  /** The first n tiles of column x at zoom level z. */
  function Column(s: Settings, z: int, x: int, n: nat): seq<Tile>
    requires z >= s.minZoom
  {
    if n == 0 then [] else Column(s, z, x, n - 1) + [(x, YLo(s, z) + n - 1, z)]
  }

  /** The first n columns of zoom level z. */
  function Level(s: Settings, z: int, n: nat): seq<Tile>
    requires z >= s.minZoom
  {
    if n == 0 then []
    else Level(s, z, n - 1) + Column(s, z, XLo(s, z) + n - 1, RangeLen(YLo(s, z), YHi(s, z)))
  }

  /** The first n zoom levels. */
  function Levels(s: Settings, n: nat): seq<Tile> {
    if n == 0 then []
    else
      var z := s.minZoom + n - 1;
      Levels(s, n - 1) + Level(s, z, RangeLen(XLo(s, z), XHi(s, z)))
  }

  /** Everything get_coordinates_for_distilling yields, in order. */
  function Coordinates(s: Settings): seq<Tile> {
    Levels(s, ZoomCount(s))
  }

  /** get_coordinates_for_distilling: three nested range loops emitting (x, y, z);
      the x and y loops of one zoom level are the two methods below. */
  method GetCoordinatesForDistilling(s: Settings) returns (tiles: seq<Tile>)
    ensures tiles == Coordinates(s)
  {
    tiles := [];
    var z := s.minZoom;
    while z < s.maxDistilledZoom + 1
      invariant s.minZoom <= z
      invariant z <= s.maxDistilledZoom + 1 || z == s.minZoom
      invariant tiles == Levels(s, (z - s.minZoom) as nat)
    {
      tiles := EmitLevel(s, z, tiles);
      z := z + 1;
    }
  }

  /** The x loop of zoom level z: every column of that level, appended to tiles. */
  method EmitLevel(s: Settings, z: int, tiles: seq<Tile>) returns (out: seq<Tile>)
    requires z >= s.minZoom
    ensures out == tiles + Level(s, z, RangeLen(XLo(s, z), XHi(s, z)))
  {
    out := tiles;
    var zFactor := Pow2((z - s.minZoom) as nat);
    var x := s.xAtMinZ * zFactor;
    var xEnd := (s.xAtMinZ + 1) * zFactor + s.xOffset * zFactor;
    while x < xEnd
      invariant XLo(s, z) <= x
      invariant x <= xEnd || x == XLo(s, z)
      invariant out == tiles + Level(s, z, (x - XLo(s, z)) as nat)
    {
      out := EmitColumn(s, z, x, out);
      x := x + 1;
    }
  }

  /** The y loop of column x at zoom level z: its tiles, appended to tiles. */
  method EmitColumn(s: Settings, z: int, x: int, tiles: seq<Tile>) returns (out: seq<Tile>)
    requires z >= s.minZoom
    ensures out == tiles + Column(s, z, x, RangeLen(YLo(s, z), YHi(s, z)))
  {
    out := tiles;
    var zFactor := Pow2((z - s.minZoom) as nat);
    var y := s.yAtMinZ * zFactor;
    var yEnd := (s.yAtMinZ + 1) * zFactor + s.yOffset * zFactor;
    while y < yEnd
      invariant YLo(s, z) <= y
      invariant y <= yEnd || y == YLo(s, z)
      invariant out == tiles + Column(s, z, x, (y - YLo(s, z)) as nat)
    {
      out := out + [(x, y, z)];
      y := y + 1;
    }
  }

  // ---------------------------------------------------------------------------
  // Which tiles are emitted

  lemma {:induction false} ColumnMembers(s: Settings, z: int, x: int, n: nat, t: Tile)
    requires z >= s.minZoom
    ensures t in Column(s, z, x, n) <==> t.0 == x && t.2 == z && YLo(s, z) <= t.1 < YLo(s, z) + n
  {
    if n > 0 {
      ColumnMembers(s, z, x, n - 1, t);
    }
  }

  lemma {:induction false} LevelMembers(s: Settings, z: int, n: nat, t: Tile)
    requires z >= s.minZoom
    ensures t in Level(s, z, n) <==>
      t.2 == z && XLo(s, z) <= t.0 < XLo(s, z) + n && YLo(s, z) <= t.1 < YHi(s, z)
  {
    if n > 0 {
      LevelMembers(s, z, n - 1, t);
      ColumnMembers(s, z, XLo(s, z) + n - 1, RangeLen(YLo(s, z), YHi(s, z)), t);
    }
  }

  lemma {:induction false} LevelsMembers(s: Settings, n: nat, t: Tile)
    ensures t in Levels(s, n) <==>
      && s.minZoom <= t.2 < s.minZoom + n
      && XLo(s, t.2) <= t.0 < XHi(s, t.2)
      && YLo(s, t.2) <= t.1 < YHi(s, t.2)
  {
    if n > 0 {
      var z := s.minZoom + n - 1;
      LevelsMembers(s, n - 1, t);
      LevelMembers(s, z, RangeLen(XLo(s, z), XHi(s, z)), t);
    }
  }

  /** A tile is emitted exactly when its zoom lies in MIN_ZOOM..MAX_DISTILLED_ZOOM
      and its x and y lie in the half-open ranges of that zoom level. */
  lemma CoordinatesMembers(s: Settings, t: Tile)
    ensures t in Coordinates(s) <==>
      && s.minZoom <= t.2 <= s.maxDistilledZoom
      && XLo(s, t.2) <= t.0 < XHi(s, t.2)
      && YLo(s, t.2) <= t.1 < YHi(s, t.2)
  {
    LevelsMembers(s, ZoomCount(s), t);
  }

  /** The x range of zoom level z is (1 + X_OFFSET) * z_factor wide, and
      the y range (1 + Y_OFFSET) * z_factor. */
  lemma RangeWidths(s: Settings, z: int)
    requires z >= s.minZoom
    ensures XHi(s, z) - XLo(s, z) == (1 + s.xOffset) * ZFactor(s, z)
    ensures YHi(s, z) - YLo(s, z) == (1 + s.yOffset) * ZFactor(s, z)
  {
    var f := ZFactor(s, z);
    assert (s.xAtMinZ + 1) * f == s.xAtMinZ * f + f;
    assert s.xOffset * f + f == (1 + s.xOffset) * f;
    assert (s.yAtMinZ + 1) * f == s.yAtMinZ * f + f;
    assert s.yOffset * f + f == (1 + s.yOffset) * f;
  }

  // ---------------------------------------------------------------------------
  // How many tiles are emitted

  /** The number of tiles of zoom level z. */
  function LevelSize(s: Settings, z: int): nat
    requires z >= s.minZoom
  {
    RangeLen(XLo(s, z), XHi(s, z)) * RangeLen(YLo(s, z), YHi(s, z))
  }

  /** The sum of LevelSize over the first n zoom levels. */
  function TileCount(s: Settings, n: nat): nat {
    if n == 0 then 0 else TileCount(s, n - 1) + LevelSize(s, s.minZoom + n - 1)
  }

  lemma {:induction false} LevelLength(s: Settings, z: int, n: nat)
    requires z >= s.minZoom
    ensures |Level(s, z, n)| == n * RangeLen(YLo(s, z), YHi(s, z))
  {
    if n > 0 {
      LevelLength(s, z, n - 1);
      var h := RangeLen(YLo(s, z), YHi(s, z));
      assert |Column(s, z, XLo(s, z) + n - 1, h)| == h by {
        ColumnLength(s, z, XLo(s, z) + n - 1, h);
      }
      assert (n - 1) * h + h == n * h;
    }
  }

  lemma {:induction false} ColumnLength(s: Settings, z: int, x: int, n: nat)
    requires z >= s.minZoom
    ensures |Column(s, z, x, n)| == n
  {
    if n > 0 {
      ColumnLength(s, z, x, n - 1);
    }
  }

  lemma {:induction false} LevelsLength(s: Settings, n: nat)
    ensures |Levels(s, n)| == TileCount(s, n)
  {
    if n > 0 {
      var z := s.minZoom + n - 1;
      LevelsLength(s, n - 1);
      LevelLength(s, z, RangeLen(XLo(s, z), XHi(s, z)));
    }
  }

  /** Each zoom level contributes (1 + X_OFFSET) * f * (1 + Y_OFFSET) * f
      tiles, and the whole enumeration is the sum over the zoom levels. */
  lemma CoordinatesCount(s: Settings)
    requires s.xOffset >= -1 && s.yOffset >= -1
    ensures |Coordinates(s)| == TileCount(s, ZoomCount(s))
    ensures forall z :: s.minZoom <= z ==>
      LevelSize(s, z) == (1 + s.xOffset) * ZFactor(s, z) * ((1 + s.yOffset) * ZFactor(s, z))
  {
    LevelsLength(s, ZoomCount(s));
    forall z | s.minZoom <= z
      ensures LevelSize(s, z) == (1 + s.xOffset) * ZFactor(s, z) * ((1 + s.yOffset) * ZFactor(s, z))
    {
      RangeWidths(s, z);
      var f := ZFactor(s, z);
      assert (1 + s.xOffset) * f >= 0 && (1 + s.yOffset) * f >= 0 by {
        MulNonNeg(1 + s.xOffset, f);
        MulNonNeg(1 + s.yOffset, f);
      }
    }
  }

  lemma MulNonNeg(a: int, b: int)
    requires a >= 0 && b >= 0
    ensures a * b >= 0
  {
  }

  /** With the defaults of conf.py (zoom 8 to 10, tile (136, 84), one extra
      tile in each direction) 4 + 16 + 64 tiles are distilled. */
  lemma DefaultTileCount(s: Settings)
    requires HasConfDefaults(s)
    ensures ZoomCount(s) == 3
    ensures |Coordinates(s)| == 84
  {
    CoordinatesCount(s);
    assert ZFactor(s, 8) == 1 && ZFactor(s, 9) == 2 && ZFactor(s, 10) == 4;
    assert LevelSize(s, 8) == 4 && LevelSize(s, 9) == 16 && LevelSize(s, 10) == 64;
    assert TileCount(s, 3) == TileCount(s, 2) + LevelSize(s, 10);
    assert TileCount(s, 2) == TileCount(s, 1) + LevelSize(s, 9);
    assert TileCount(s, 1) == LevelSize(s, 8);
  }

  // ---------------------------------------------------------------------------
  // In which order the tiles are emitted

  /** Lexicographic order on (z, x, y). */
  predicate TileLess(a: Tile, b: Tile) {
    a.2 < b.2 || (a.2 == b.2 && (a.0 < b.0 || (a.0 == b.0 && a.1 < b.1)))
  }

  predicate Increasing(ts: seq<Tile>) {
    forall i, j :: 0 <= i < j < |ts| ==> TileLess(ts[i], ts[j])
  }

  lemma IncreasingAppend(a: seq<Tile>, b: seq<Tile>)
    requires Increasing(a) && Increasing(b)
    requires forall u, v :: u in a && v in b ==> TileLess(u, v)
    ensures Increasing(a + b)
  {
    forall i, j | 0 <= i < j < |a + b|
      ensures TileLess((a + b)[i], (a + b)[j])
    {
      if j < |a| {
        assert (a + b)[i] == a[i] && (a + b)[j] == a[j];
      } else if i >= |a| {
        assert (a + b)[i] == b[i - |a|] && (a + b)[j] == b[j - |a|];
      } else {
        assert (a + b)[i] == a[i] && (a + b)[j] == b[j - |a|];
        assert a[i] in a && b[j - |a|] in b;
      }
    }
  }

  lemma {:induction false} ColumnIncreasing(s: Settings, z: int, x: int, n: nat)
    requires z >= s.minZoom
    ensures Increasing(Column(s, z, x, n))
  {
    if n > 0 {
      ColumnIncreasing(s, z, x, n - 1);
      var t := (x, YLo(s, z) + n - 1, z);
      forall u | u in Column(s, z, x, n - 1)
        ensures TileLess(u, t)
      {
        ColumnMembers(s, z, x, n - 1, u);
      }
      IncreasingAppend(Column(s, z, x, n - 1), [t]);
    }
  }

  lemma {:induction false} LevelIncreasing(s: Settings, z: int, n: nat)
    requires z >= s.minZoom
    ensures Increasing(Level(s, z, n))
  {
    if n > 0 {
      LevelIncreasing(s, z, n - 1);
      var x := XLo(s, z) + n - 1;
      var h := RangeLen(YLo(s, z), YHi(s, z));
      ColumnIncreasing(s, z, x, h);
      forall u, v | u in Level(s, z, n - 1) && v in Column(s, z, x, h)
        ensures TileLess(u, v)
      {
        LevelMembers(s, z, n - 1, u);
        ColumnMembers(s, z, x, h, v);
      }
      IncreasingAppend(Level(s, z, n - 1), Column(s, z, x, h));
    }
  }

  lemma {:induction false} LevelsIncreasing(s: Settings, n: nat)
    ensures Increasing(Levels(s, n))
  {
    if n > 0 {
      LevelsIncreasing(s, n - 1);
      var z := s.minZoom + n - 1;
      var w := RangeLen(XLo(s, z), XHi(s, z));
      LevelIncreasing(s, z, w);
      forall u, v | u in Levels(s, n - 1) && v in Level(s, z, w)
        ensures TileLess(u, v)
      {
        LevelsMembers(s, n - 1, u);
        LevelMembers(s, z, w, v);
      }
      IncreasingAppend(Levels(s, n - 1), Level(s, z, w));
    }
  }

  /** The tiles come in strictly increasing (z, x, y) order, so none repeats. */
  lemma CoordinatesIncreasing(s: Settings)
    ensures Increasing(Coordinates(s))
    ensures forall i, j :: 0 <= i < j < |Coordinates(s)| ==> Coordinates(s)[i] != Coordinates(s)[j]
  {
    LevelsIncreasing(s, ZoomCount(s));
  }

  // ---------------------------------------------------------------------------
  // get_all_statics_for_state_lod

  /** A tile (x, y, z) as get_all_statics_for_state_lod yields it: (z, x, y). */
  function StateLodTile(t: Tile): Tile {
    (t.2, t.0, t.1)
  }

  /** get_all_statics_for_state_lod: re-emits every distilled tile as (z, x, y). */
  method GetAllStaticsForStateLod(s: Settings) returns (r: seq<Tile>)
    ensures |r| == |Coordinates(s)|
    ensures forall i :: 0 <= i < |r| ==> r[i] == StateLodTile(Coordinates(s)[i])
  {
    var coordinates := GetCoordinatesForDistilling(s);
    r := [];
    for i := 0 to |coordinates|
      invariant |r| == i
      invariant forall k :: 0 <= k < i ==> r[k] == StateLodTile(coordinates[k])
    {
      var (x, y, z) := coordinates[i];
      r := r + [(z, x, y)];
    }
  }

  /** Plain lexicographic order on triples. */
  predicate LexLess(a: Tile, b: Tile) {
    a.0 < b.0 || (a.0 == b.0 && (a.1 < b.1 || (a.1 == b.1 && a.2 < b.2)))
  }

  /** The reordered triples come in strictly increasing lexicographic order. */
  lemma StateLodIncreasing(s: Settings, r: seq<Tile>)
    requires |r| == |Coordinates(s)|
    requires forall i :: 0 <= i < |r| ==> r[i] == StateLodTile(Coordinates(s)[i])
    ensures forall i, j :: 0 <= i < j < |r| ==> LexLess(r[i], r[j])
  {
    CoordinatesIncreasing(s);
  }
}
