/**
 * The block-noise grid RectBlockGlitch paints: a scan of the texture in
 * row-major order (y outer, x inner) that carries one current colour from
 * cell to cell, across row ends too, and replaces it with a fresh random
 * colour whenever the cell's own draw exceeds `noiseColorChange`.
 *
 * Random.value is the stream `draws`: the k-th value it returns is
 * draws(k), and a `cursor` says how many have been taken. This module is
 * the specification of the scan, cell by cell.
 */
module NoiseGrid {

  /** Unity's Color: four channels. */
  datatype Color = Color(r: real, g: real, b: real, a: real)

  /** The values Random.value returns, in order. */
  type Draws = nat -> real

  /** Random.value lies in [0, 1], both ends included. */
  ghost predicate UnitDraws(draws: Draws)
  {
    forall k: nat :: 0.0 <= draws(k) <= 1.0
  }

  predicate InUnit(c: Color)
  {
    0.0 <= c.r <= 1.0 && 0.0 <= c.g <= 1.0 && 0.0 <= c.b <= 1.0 && 0.0 <= c.a <= 1.0
  }

  /**
   * RandomColor(): `new Color(Random.value, Random.value, Random.value,
   * Random.value)`, taking draws k .. k + 3 in channel order.
   */
  function RandomColor(draws: Draws, k: nat): (c: Color)
    ensures UnitDraws(draws) ==> InUnit(c)
    ensures c.r == draws(k) && c.a == draws(k + 3)
  {
    Color(draws(k), draws(k + 1), draws(k + 2), draws(k + 3))
  }

  /** The scan's state between two cells: the current colour and the next draw. */
  datatype Pen = Pen(color: Color, cursor: nat)

  /** `Color color = RandomColor();` before the scan, starting at draw k. */
  function Seed(draws: Draws, k: nat): (p: Pen)
    ensures p.cursor == k + 4
    ensures UnitDraws(draws) ==> InUnit(p.color)
  {
    Pen(RandomColor(draws, k), k + 4)
  }

  /**
   * One cell: take a draw; when it exceeds `change` the colour is replaced
   * by a fresh one (four more draws), otherwise it is kept.
   */
  function Paint(p: Pen, draws: Draws, change: real): (q: Pen)
    ensures q.cursor == p.cursor + 1 || q.cursor == p.cursor + 5
    ensures q.cursor == p.cursor + 5 <==> draws(p.cursor) > change
    ensures q.color != p.color ==> draws(p.cursor) > change
  {
    if draws(p.cursor) > change then Pen(RandomColor(draws, p.cursor + 1), p.cursor + 5)
    else Pen(p.color, p.cursor + 1)
  }

  /** The pen after n cells of the scan. */
  function PenAfter(seed: Pen, draws: Draws, change: real, n: nat): Pen
  {
    if n == 0 then seed else Paint(PenAfter(seed, draws, change, n - 1), draws, change)
  }

  /** The colour the scan gives cell (x, y) of a grid `width` cells wide. */
  function Cell(seed: Pen, draws: Draws, change: real, width: nat, x: nat, y: nat): Color
  {
    PenAfter(seed, draws, change, y * width + x + 1).color
  }

  /** Every cell (x, y) of `tex` holds the colour the scan gives it. */
  ghost predicate Painted(tex: array2<Color>, seed: Pen, draws: Draws, change: real)
    reads tex
  {
    forall x: nat, y: nat :: x < tex.Length0 && y < tex.Length1 ==>
      tex[x, y] == Cell(seed, draws, change, tex.Length0, x, y)
  }

  /** Each cell takes between one and five draws. */
  lemma {:induction false} CursorAdvance(seed: Pen, draws: Draws, change: real, n: nat)
    ensures seed.cursor + n <= PenAfter(seed, draws, change, n).cursor <= seed.cursor + 5 * n
  {
    if n > 0 {
      CursorAdvance(seed, draws, change, n - 1);
    }
  }

  /** Every colour the scan writes has its channels in [0, 1]. */
  lemma {:induction false} ColorsInUnit(seed: Pen, draws: Draws, change: real, n: nat)
    requires UnitDraws(draws) && InUnit(seed.color)
    ensures InUnit(PenAfter(seed, draws, change, n).color)
  {
    if n > 0 {
      ColorsInUnit(seed, draws, change, n - 1);
    }
  }

  /**
   * With `noiseColorChange` at 1 no draw can exceed it: every cell keeps
   * the seed colour and takes exactly one draw.
   */
  lemma {:induction false} ChangeOneKeepsSeed(seed: Pen, draws: Draws, change: real, n: nat)
    requires UnitDraws(draws) && change >= 1.0
    ensures PenAfter(seed, draws, change, n) == Pen(seed.color, seed.cursor + n)
  {
    if n > 0 {
      ChangeOneKeepsSeed(seed, draws, change, n - 1);
    }
  }

  /**
   * When every cell's draw exceeds `change`, every cell gets a fresh colour:
   * cell n - 1 takes the colour made of the four draws after its own, the
   * cells sitting five draws apart.
   */
  lemma {:induction false} AllFresh(seed: Pen, draws: Draws, change: real, n: nat)
    requires forall k: nat :: k >= seed.cursor ==> draws(k) > change
    ensures PenAfter(seed, draws, change, n).cursor == seed.cursor + 5 * n
    ensures n > 0 ==> PenAfter(seed, draws, change, n).color == RandomColor(draws, seed.cursor + 5 * (n - 1) + 1)
  {
    if n > 0 {
      AllFresh(seed, draws, change, n - 1);
    }
  }

  /**
   * The colour is carried across the end of a row: the first cell of row
   * y keeps the colour of the last cell of row y - 1 unless its own draw
   * exceeds `change`.
   */
  lemma RowStartCarriesOver(seed: Pen, draws: Draws, change: real, width: nat, y: nat)
    requires width > 0 && y > 0
    requires draws(PenAfter(seed, draws, change, y * width).cursor) <= change
    ensures Cell(seed, draws, change, width, 0, y) == Cell(seed, draws, change, width, width - 1, y - 1)
  {
    assert (y - 1) * width + (width - 1) + 1 == y * width;
  }
}
