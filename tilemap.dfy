/** The tile map: a row-major grid of tiles built once and written cell by cell. */
module TileMaps {

  datatype Option<T> = None | Some(value: T)

  /** Tile kinds; their colours are display attributes and are not modelled. */
  datatype Tile = Floor | Wall

  /** The length an array built for a requested length `n` gets: negative requests give an empty array. */
  function ArrayLength(n: int): nat
  {
    if n < 0 then 0 else n
  }

  /** `n` copies of `def`, built one element at a time. */
  function Range<T>(n: int, def: T): (r: seq<T>)
    ensures |r| == ArrayLength(n)
    ensures forall i :: 0 <= i < |r| ==> r[i] == def
    decreases n
  {
    if n <= 0 then [] else Range(n - 1, def) + [def]
  }

  /** The cell (x, y) lies inside a grid of width w and height h. */
  predicate InGrid(w: int, h: int, x: int, y: int)
  {
    0 <= x < w && 0 <= y < h
  }

  /** Row-major position of the cell (x, y) in a grid of width w. */
  function CellIndex(w: int, x: int, y: int): int
  {
    y * w + x
  }

  /** Multiplying by a non-negative factor keeps an ordering. */
  lemma MulMonotone(a: int, b: int, c: int)
    requires a <= b && 0 <= c
    ensures a * c <= b * c
  {
    assert b * c - a * c == (b - a) * c;
  }

  /** Every cell of the grid has its position inside the w*h cells. */
  lemma IndexInGrid(w: int, h: int, x: int, y: int)
    ensures InGrid(w, h, x, y) ==> 0 <= CellIndex(w, x, y) < w * h
  {
    if InGrid(w, h, x, y) {
      MulMonotone(0, y, w);
      MulMonotone(y + 1, h, w);
      assert (y + 1) * w == y * w + w;
      assert h * w == w * h;
    }
  }

  /** Distinct cells of the grid never share a position. */
  lemma IndexInjective(w: int, h: int, x1: int, y1: int, x2: int, y2: int)
    requires InGrid(w, h, x1, y1) && InGrid(w, h, x2, y2)
    requires (x1, y1) != (x2, y2)
    ensures CellIndex(w, x1, y1) != CellIndex(w, x2, y2)
  {
    if y1 < y2 {
      RowsApart(w, x1, y1, x2, y2);
    } else if y2 < y1 {
      RowsApart(w, x2, y2, x1, y1);
    }
  }

  /** A cell in an earlier row comes strictly before any cell in a later row. */
  lemma RowsApart(w: int, x1: int, y1: int, x2: int, y2: int)
    requires 0 <= x1 < w && 0 <= x2 && 0 <= y1 < y2
    ensures CellIndex(w, x1, y1) < CellIndex(w, x2, y2)
  {
    MulMonotone(y1 + 1, y2, w);
    assert (y1 + 1) * w == y1 * w + w;
  }

  /** Every position of the w*h cells belongs to exactly the cell (i % w, i / w). */
  lemma IndexOnto(w: int, h: int, i: int)
    requires 0 < w && 0 <= i < w * h
    ensures InGrid(w, h, i % w, i / w) && CellIndex(w, i % w, i / w) == i
  {
    var x, y := i % w, i / w;
    assert i == y * w + x;
  }

  /** The map record: width, height and the flat tile array. */
  class TileMap {
    const w: int
    const h: int
    const tiles: array<Tile>

    /** The tile array holds one cell per grid cell. */
    predicate Valid()
    {
      tiles.Length == ArrayLength(w * h)
    }

    /** A map of w*h cells, every one holding `def`. */
    constructor (w: int, h: int, def: Tile := Floor)
      ensures this.w == w && this.h == h
      ensures Valid() && fresh(tiles)
      ensures tiles[..] == Range(w * h, def)
    {
      this.w := w;
      this.h := h;
      var cells := Range(w * h, def);
      tiles := new Tile[|cells|](i requires 0 <= i < |cells| => cells[i]);
    }

    /** The tile at (x, y); None where the position falls off the array (the value is then undefined). */
    function GetTile(x: int, y: int): (r: Option<Tile>)
      reads tiles
      ensures r.Some? <==> 0 <= CellIndex(w, x, y) < tiles.Length
      ensures r.Some? ==> r.value == tiles[CellIndex(w, x, y)]
      ensures Valid() && InGrid(w, h, x, y) ==> r.Some?
    {
      IndexInGrid(w, h, x, y);
      var i := CellIndex(w, x, y);
      if 0 <= i < tiles.Length then Some(tiles[i]) else None
    }

    /** Writes `t` into the cell (x, y) in place. */
    method SetTile(x: int, y: int, t: Tile)
      requires 0 <= CellIndex(w, x, y) < tiles.Length
      modifies tiles
      ensures tiles[..] == old(tiles[..])[CellIndex(w, x, y) := t]
      ensures GetTile(x, y) == Some(t)
      ensures InGrid(w, h, x, y) ==>
        forall u, v :: InGrid(w, h, u, v) && (u, v) != (x, y) ==> GetTile(u, v) == old(GetTile(u, v))
    {
      tiles[CellIndex(w, x, y)] := t;
      if InGrid(w, h, x, y) {
        forall u, v | InGrid(w, h, u, v) && (u, v) != (x, y)
          ensures GetTile(u, v) == old(GetTile(u, v))
        {
          IndexInjective(w, h, u, v, x, y);
        }
      }
    }
  }
}
