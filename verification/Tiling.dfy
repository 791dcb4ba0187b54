/** The detector's tile grid (`windows` in `src/object_detector/camera_object_detector.py`). */
module Tiling {
  import opened Rounding
  import opened Planar

  /** Source window in pixels, the far edges excluded. */
  datatype Window = Window(x0: int, y0: int, x1: int, y1: int) {
    predicate Contains(x: int, y: int) {
      x0 <= x < x1 && y0 <= y < y1
    }

    predicate Within(w: int, h: int) {
      0 <= x0 && x1 <= w && 0 <= y0 && y1 <= h
    }
  }

  datatype Config = Config(tileSize: int, modelWidth: int, tileTop: real, tileBottom: real, tilesOn: bool, wholeFrame: bool)

  /** The tile size in force: the model's input width when none is set. */
  function Tile(c: Config): int {
    if c.tileSize > 0 then c.tileSize else c.modelWidth
  }

  function Max(a: int, b: int): int {
    if a >= b then a else b
  }

  function Min(a: int, b: int): int {
    if a <= b then a else b
  }

  /** Python's `int`: towards zero. */
  function Truncate(x: real): int {
    if x >= 0.0 then x.Floor else -((-x).Floor)
  }

  /** A share of the frame's height as a row: rounded, or cut off. */
  function RoundedRow(share: real, h: int): int {
    RoundHalfEven(share * h as real)
  }

  function TruncatedRow(share: real, h: int): int {
    Truncate(share * h as real)
  }

  /** Bottom and top of the tiled band. */
  function Bottom(c: Config, h: int): int {
    Max(Tile(c), Min(h, RoundedRow(c.tileBottom, h)))
  }

  function Top(c: Config, h: int): int {
    Max(0, Min(Bottom(c, h) - Tile(c), TruncatedRow(c.tileTop, h)))
  }

  /** Tiles needed to cover a stretch: `ceil` of the quotient. */
  function TileCount(span: int, t: int): (n: int)
    requires t >= 1
  {
    -((-(span as real / t as real)).Floor)
  }

  /** First pixel of tile `i` of `n` spread evenly over the stretch. */
  function Origin(i: int, n: int, span: int, t: int): int {
    if n == 1 then 0 else if n < 1 then 0 else RoundHalfEven((i * (span - t)) as real / (n - 1) as real)
  }

  /** The tile in column `i` and row `j` of a grid over `w` by `band` pixels starting at row `top`. */
  function TileAt(i: int, j: int, w: int, band: int, top: int, t: int): Window
    requires t >= 1
  {
    var x0, y0 := Origin(i, TileCount(w, t), w, t), top + Origin(j, TileCount(band, t), band, t);
    Window(x0, y0, x0 + t, y0 + t)
  }

  function Row(j: int, w: int, band: int, top: int, t: int): seq<Window>
    requires t >= 1
  {
    seq(Max(0, TileCount(w, t)), i => TileAt(i, j, w, band, top, t))
  }

  function Rows(n: nat, w: int, band: int, top: int, t: int): seq<Window>
    requires t >= 1
  {
    if n == 0 then [] else Rows(n - 1, w, band, top, t) + Row(n - 1, w, band, top, t)
  }

  /** All tiles, row by row. */
  function Grid(w: int, band: int, top: int, t: int): seq<Window>
    requires t >= 1
  {
    Rows(Max(0, TileCount(band, t)), w, band, top, t)
  }

  predicate Tiled(c: Config, w: int) {
    c.tilesOn && w >= Tile(c)
  }

  function GridOf(c: Config, w: int, h: int): seq<Window>
    requires Tile(c) >= 1
  {
    Grid(w, Bottom(c, h) - Top(c, h), Top(c, h), Tile(c))
  }

  /** The windows looked at in one frame: with tiling on and the frame wide enough, the grid (after the whole
    frame, if asked for); otherwise the whole frame alone. */
  method Windows(c: Config, w: int, h: int) returns (wins: seq<Window>)
    requires Tile(c) >= 1
    ensures Tiled(c, w) ==> wins == (if c.wholeFrame then [Window(0, 0, w, h)] else []) + GridOf(c, w, h)
    ensures !Tiled(c, w) ==> wins == [Window(0, 0, w, h)]
  {
    hide Grid, RoundedRow, TruncatedRow;
    wins := [];
    var t := Tile(c);
    var bot := Max(t, Min(h, RoundedRow(c.tileBottom, h)));
    var top := Max(0, Min(bot - t, TruncatedRow(c.tileTop, h)));
    if c.tilesOn && w >= t && bot - top >= t {
      wins := GridTiles(w, bot - top, top, t);
      assert [] + wins == wins == GridOf(c, w, h);
    }
    if c.wholeFrame || wins == [] {
      wins := [Window(0, 0, w, h)] + wins;
    }
  }

  /** The two loops that fill the grid. */
  method GridTiles(w: int, band: int, top: int, t: int) returns (wins: seq<Window>)
    requires 1 <= t <= w && t <= band
    ensures wins == Grid(w, band, top, t) && wins != []
  {
    wins := [];
    var ny := TileCount(band, t);
    CountIsLeast(w, t);
    CountIsLeast(band, t);
    hide Origin, TileCount, Row;
    for j := 0 to ny
      invariant wins == Rows(j, w, band, top, t)
    {
      var row := RowTiles(j, w, band, top, t);
      wins := wins + row;
    }
    GridHasTile(w, band, top, t, 0, 0);
  }

  method RowTiles(j: nat, w: int, band: int, top: int, t: int) returns (row: seq<Window>)
    requires 1 <= t <= w && t <= band && j < TileCount(band, t)
    ensures row == Row(j, w, band, top, t)
  {
    var nx, ny := TileCount(w, t), TileCount(band, t);
    CountIsLeast(w, t);
    var y0 := if ny == 1 then top else top + Origin(j, ny, band, t);
    row := [];
    for i := 0 to nx
      invariant |row| == i
      invariant forall k :: 0 <= k < i ==> row[k] == Row(j, w, band, top, t)[k]
    {
      var x0 := if nx == 1 then 0 else Origin(i, nx, w, t);
      OneTileAtZero(ny, band, t, j);
      row := row + [Window(x0, y0, x0 + t, y0 + t)];
    }
  }

  lemma OneTileAtZero(n: int, span: int, t: int, i: int)
    ensures n == 1 ==> Origin(i, n, span, t) == 0
  {
  }

  /** One of the tiles of the first `n` rows. */
  ghost predicate IsTile(n: nat, w: int, band: int, top: int, t: int, win: Window)
    requires t >= 1
  {
    exists i, j :: 0 <= i < TileCount(w, t) && 0 <= j < n && win == TileAt(i, j, w, band, top, t)
  }

  lemma {:induction false} RowsMembers(n: nat, w: int, band: int, top: int, t: int, win: Window)
    requires t >= 1
    ensures win in Rows(n, w, band, top, t) <==> IsTile(n, w, band, top, t, win)
  {
    hide Origin, TileCount, TileAt;
    if n > 0 {
      RowsMembers(n - 1, w, band, top, t, win);
      var row := Row(n - 1, w, band, top, t);
      if win in row {
        var i :| 0 <= i < |row| && row[i] == win;
        assert win == TileAt(i, n - 1, w, band, top, t);
      }
      if IsTile(n, w, band, top, t, win) {
        var i, j :| 0 <= i < TileCount(w, t) && 0 <= j < n && win == TileAt(i, j, w, band, top, t);
        if j == n - 1 {
          assert row[i] == win;
        }
      }
    }
  }

  lemma GridHasTile(w: int, band: int, top: int, t: int, i: int, j: int)
    requires t >= 1 && 0 <= i < TileCount(w, t) && 0 <= j < TileCount(band, t)
    ensures TileAt(i, j, w, band, top, t) in Grid(w, band, top, t)
  {
    RowsMembers(TileCount(band, t), w, band, top, t, TileAt(i, j, w, band, top, t));
  }

  /** The grid lists its tiles row by row, each once. */
  lemma {:induction false} TilesRowByRow(n: nat, w: int, band: int, top: int, t: int, i: nat, j: nat)
    requires t >= 1 && i < TileCount(w, t) && j < n
    ensures |Rows(n, w, band, top, t)| == n * TileCount(w, t)
    ensures j * TileCount(w, t) + i < |Rows(n, w, band, top, t)|
    ensures Rows(n, w, band, top, t)[j * TileCount(w, t) + i] == TileAt(i, j, w, band, top, t)
  {
    hide TileCount, TileAt;
    var nx := TileCount(w, t);
    var before := Rows(n - 1, w, band, top, t);
    assert n * nx == (n - 1) * nx + nx;
    if n == 1 {
      assert j * nx == 0;
    } else {
      TilesRowByRow(n - 1, w, band, top, t, i, if j < n - 1 then j else 0);
    }
  }

  /** Just enough tiles to cover the stretch: one fewer would not do. */
  lemma CountIsLeast(span: int, t: int)
    requires 1 <= t <= span
    ensures (TileCount(span, t) - 1) * t < span <= TileCount(span, t) * t
    ensures TileCount(span, t) >= 1
  {
    hide Product;
    var n, r := TileCount(span, t), t as real;
    var q := CountBounds(span, t);
    hide TileCount;
    Ordered((n - 1) as real, q, n as real, r);
    if q < 1.0 {
      Ordered(q, 1.0, 1.0, r);
      IntProduct(1, t);
    }
    IntProduct(n - 1, t);
    IntProduct(n, t);
  }

  lemma CountBounds(span: int, t: int) returns (q: real)
    requires t >= 1
    ensures Product(q, t as real) == span as real && (TileCount(span, t) - 1) as real < q <= TileCount(span, t) as real
  {
    q := span as real / t as real;
  }

  lemma Ordered(low: real, q: real, high: real, t: real)
    requires t > 0.0 && low < q <= high
    ensures Product(low, t) < Product(q, t) <= Product(high, t)
  {
    assert Product(high - q, t) >= 0.0 && Product(q - low, t) > 0.0;
  }

  lemma IntProduct(n: int, t: int)
    ensures (n * t) as real == Product(n as real, t as real)
  {
  }

  // ---- No gap, nothing outside ----

  /** How far apart, before rounding, the origins are. */
  lemma OriginsApart(i: int, n: int, span: int, t: int)
    requires n >= 2 && 1 <= t <= span <= n * t
    ensures (var a, b := (i * (span - t)) as real / (n - 1) as real, ((i + 1) * (span - t)) as real / (n - 1) as real;
             && a <= b
             && (span < n * t ==> b < a + t as real)
             && (span == n * t ==> a == (i * t) as real && b == ((i + 1) * t) as real))
  {
    var d, m := span - t, n - 1;
    var a, b := (i * d) as real / m as real, ((i + 1) * d) as real / m as real;
    assert (i + 1) * d == i * d + d;
    assert b == a + d as real / m as real;
    var s := d as real / m as real;
    assert s * m as real == d as real;
    assert (m * t) as real == m as real * t as real;
    assert n * t == m * t + t;
    assert Product(s, m as real) == d as real;
    assert Product(t as real - s, m as real) == (m * t) as real - d as real;
    if span == n * t {
      assert s == t as real;
      assert i * d == (i * t) * m;
      QuotientOf(i * t, m);
      assert (i + 1) * d == ((i + 1) * t) * m;
      QuotientOf((i + 1) * t, m);
    }
  }

  lemma QuotientOf(k: int, m: int)
    requires m != 0
    ensures (k * m) as real / m as real == k as real
  {
    assert (k * m) as real == k as real * m as real;
  }

  /** Neighbouring tiles touch or overlap, despite the rounding of their origins. */
  lemma NoGap(i: int, n: int, span: int, t: int)
    requires n >= 2 && 1 <= t <= span <= n * t
    ensures Origin(i, n, span, t) <= Origin(i + 1, n, span, t) <= Origin(i, n, span, t) + t
  {
    OriginsApart(i, n, span, t);
    if span == n * t {
      RoundOfInteger(i * t);
      RoundOfInteger((i + 1) * t);
      assert (i + 1) * t == i * t + t;
    } else {
      RoundMonotone((i * (span - t)) as real / (n - 1) as real, ((i + 1) * (span - t)) as real / (n - 1) as real);
    }
  }

  lemma FirstOrigin(n: int, span: int, t: int)
    requires n >= 1
    ensures Origin(0, n, span, t) == 0
  {
    RoundOfInteger(0);
  }

  lemma LastOrigin(n: int, span: int, t: int)
    requires n >= 1 && 1 <= t <= span <= n * t
    ensures Origin(n - 1, n, span, t) == span - t
  {
    if n > 1 {
      assert (n - 1) * (span - t) == (span - t) * (n - 1);
      QuotientOf(span - t, n - 1);
      RoundOfInteger(span - t);
    }
  }

  lemma {:induction false} OriginsBetween(i: int, n: int, span: int, t: int)
    requires 0 <= i < n && 1 <= t <= span <= n * t
    ensures 0 <= Origin(i, n, span, t)
  {
    if i == 0 {
      FirstOrigin(n, span, t);
    } else {
      OriginsBetween(i - 1, n, span, t);
      NoGap(i - 1, n, span, t);
    }
  }

  lemma {:induction false} OriginsBelow(i: int, n: int, span: int, t: int)
    requires 0 <= i < n && 1 <= t <= span <= n * t
    ensures Origin(i, n, span, t) <= span - t
    decreases n - i
  {
    if i == n - 1 {
      LastOrigin(n, span, t);
    } else {
      OriginsBelow(i + 1, n, span, t);
      NoGap(i, n, span, t);
    }
  }

  /** The first of the tiles up to `i` that reaches past `x`. */
  lemma {:induction false} StretchCovered(i: int, n: int, span: int, t: int, x: int) returns (k: int)
    requires 0 <= i < n && 1 <= t <= span <= n * t
    requires 0 <= x < Origin(i, n, span, t) + t
    ensures 0 <= k <= i && Origin(k, n, span, t) <= x < Origin(k, n, span, t) + t
  {
    if i == 0 {
      FirstOrigin(n, span, t);
      k := 0;
    } else if Origin(i, n, span, t) <= x {
      k := i;
    } else {
      NoGap(i - 1, n, span, t);
      k := StretchCovered(i - 1, n, span, t, x);
    }
  }

  /** Every pixel of the band is in some tile. */
  lemma BandCovered(c: Config, w: int, h: int, x: int, y: int)
    requires Tile(c) >= 1 && Tiled(c, w)
    requires 0 <= x < w && Top(c, h) <= y < Bottom(c, h)
    ensures exists win :: win in GridOf(c, w, h) && win.Contains(x, y)
  {
    var t, top, band := Tile(c), Top(c, h), Bottom(c, h) - Top(c, h);
    var nx, ny := TileCount(w, t), TileCount(band, t);
    CountIsLeast(w, t);
    CountIsLeast(band, t);
    LastOrigin(nx, w, t);
    LastOrigin(ny, band, t);
    var i := StretchCovered(nx - 1, nx, w, t, x);
    var j := StretchCovered(ny - 1, ny, band, t, y - top);
    GridHasTile(w, band, top, t, i, j);
    assert TileAt(i, j, w, band, top, t).Contains(x, y);
  }

  /** The rows asked for are tiled: those from `tile_top` of the height on whose middle is above `tile_bottom` of it. */
  lemma AskedRowsAreTiled(c: Config, w: int, h: int, x: int, y: int)
    requires Tile(c) >= 1 && Tiled(c, w) && 0 <= x < w && 0 <= y < h
    requires c.tileTop * h as real <= y as real && y as real + 0.5 < c.tileBottom * h as real
    ensures exists win :: win in GridOf(c, w, h) && win.Contains(x, y)
  {
    RowAskedFor(c, h, c.tileTop * h as real, c.tileBottom * h as real, y);
    hide Top, Bottom, GridOf;
    BandCovered(c, w, h, x, y);
  }

  lemma RowAskedFor(c: Config, h: int, top: real, bottom: real, y: int)
    requires top == c.tileTop * h as real && bottom == c.tileBottom * h as real
    requires 0 <= y < h && top <= y as real && y as real + 0.5 < bottom
    ensures Top(c, h) <= y < Bottom(c, h)
  {
    var cut, rounded := RowsOf(c, h, top, bottom);
    hide RoundedRow, TruncatedRow;
  }

  lemma BandAskedFor(c: Config, h: int, top: real, bottom: real)
    requires top == c.tileTop * h as real && bottom == c.tileBottom * h as real
    requires 0.0 <= top && top + Tile(c) as real <= h as real && top + Tile(c) as real <= bottom - 0.5
    ensures top - 1.0 < Top(c, h) as real && Bottom(c, h) as real <= bottom + 0.5
  {
    var cut, rounded := RowsOf(c, h, top, bottom);
    hide RoundedRow, TruncatedRow;
  }

  /** The two rows, as near to the shares as rounding and cutting off leave them. */
  lemma RowsOf(c: Config, h: int, top: real, bottom: real) returns (cut: int, rounded: int)
    requires top == c.tileTop * h as real && bottom == c.tileBottom * h as real
    ensures cut == TruncatedRow(c.tileTop, h) && rounded == RoundedRow(c.tileBottom, h)
    ensures -0.5 <= bottom - rounded as real <= 0.5
    ensures top >= 0.0 ==> top - 1.0 < cut as real <= top
    ensures top < 0.0 ==> cut <= 0
  {
    cut, rounded := TruncatedRow(c.tileTop, h), RoundedRow(c.tileBottom, h);
  }

  /** And no others, if a tile fits in between: no tile begins a whole row above `tile_top` or ends more than half a row below
    `tile_bottom`. */
  lemma TilesKeepToAskedRows(c: Config, w: int, h: int, win: Window)
    requires Tile(c) >= 1 && Tiled(c, w) && win in GridOf(c, w, h)
    requires 0.0 <= c.tileTop * h as real && c.tileTop * h as real + Tile(c) as real <= h as real
    requires c.tileTop * h as real + Tile(c) as real <= c.tileBottom * h as real - 0.5
    ensures c.tileTop * h as real - 1.0 < win.y0 as real && win.y1 as real <= c.tileBottom * h as real + 0.5
  {
    BandAskedFor(c, h, c.tileTop * h as real, c.tileBottom * h as real);
    hide Top, Bottom, GridOf;
    TilesInsideBand(c, w, h, win);
  }

  /** Tiles are spread evenly: neighbouring origins are apart by an equal share of the stretch, to within a pixel. */
  lemma OriginsSpreadEvenly(i: int, n: int, span: int, t: int)
    requires n >= 2
    ensures var step := (Origin(i + 1, n, span, t) - Origin(i, n, span, t)) as real;
            -1.0 <= step - (span - t) as real / (n - 1) as real <= 1.0
  {
    var d, m := (span - t) as real, (n - 1) as real;
    assert (i + 1) * (span - t) == i * (span - t) + (span - t);
    assert (((i + 1) * (span - t)) as real) / m == ((i * (span - t)) as real) / m + d / m;
  }

  /** Every tile is a square of the tile size inside the band, and the band is inside the frame exactly when
    the tile is not taller than the frame. */
  lemma TilesInsideBand(c: Config, w: int, h: int, win: Window)
    requires Tile(c) >= 1 && Tiled(c, w) && win in GridOf(c, w, h)
    ensures win.x1 - win.x0 == win.y1 - win.y0 == Tile(c)
    ensures 0 <= win.x0 && win.x1 <= w
    ensures 0 <= Top(c, h) <= win.y0 && win.y1 <= Bottom(c, h)
    ensures Bottom(c, h) <= h <==> Tile(c) <= h
  {
    var t, top, band := Tile(c), Top(c, h), Bottom(c, h) - Top(c, h);
    CountIsLeast(w, t);
    CountIsLeast(band, t);
    RowsMembers(TileCount(band, t), w, band, top, t, win);
    var i, j :| 0 <= i < TileCount(w, t) && 0 <= j < TileCount(band, t) && win == TileAt(i, j, w, band, top, t);
    OriginsBetween(i, TileCount(w, t), w, t);
    OriginsBelow(i, TileCount(w, t), w, t);
    OriginsBetween(j, TileCount(band, t), band, t);
    OriginsBelow(j, TileCount(band, t), band, t);
  }

  /** All tiles lie inside the frame exactly when the tile is not taller than the frame. */
  lemma TilesInsideFrameExactly(c: Config, w: int, h: int)
    requires Tile(c) >= 1 && Tiled(c, w)
    ensures (forall win :: win in GridOf(c, w, h) ==> win.Within(w, h)) <==> Tile(c) <= h
  {
    hide Origin, TileCount, Grid, RoundedRow, TruncatedRow;
    var t, top, band := Tile(c), Top(c, h), Bottom(c, h) - Top(c, h);
    forall win | win in GridOf(c, w, h)
      ensures Tile(c) <= h ==> win.Within(w, h)
    {
      TilesInsideBand(c, w, h, win);
    }
    CountIsLeast(w, t);
    CountIsLeast(band, t);
    var last := TileAt(0, TileCount(band, t) - 1, w, band, top, t);
    GridHasTile(w, band, top, t, 0, TileCount(band, t) - 1);
    LastOrigin(TileCount(band, t), band, t);
    assert last in GridOf(c, w, h) && last.y1 == Bottom(c, h);
    TilesInsideBand(c, w, h, last);
  }

  /** A 300-pixel tile on a frame 200 pixels high runs 100 pixels past its bottom edge. */
  lemma TallTileRunsOut(c: Config)
    requires c == Config(300, 300, 0.0, 1.0, true, false)
    ensures Tiled(c, 400) && Window(0, 0, 300, 300) in GridOf(c, 400, 200)
  {
    RoundOfInteger(200);
    CountIsLeast(400, 300);
    CountIsLeast(300, 300);
    assert Top(c, 200) == 0 && Bottom(c, 200) == 300;
    assert TileCount(300, 300) == 1 && TileCount(400, 300) == 2;
    GridHasTile(400, 300, 0, 300, 0, 0);
    FirstOrigin(2, 400, 300);
    FirstOrigin(1, 300, 300);
  }
}
