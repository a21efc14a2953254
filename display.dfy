/** The two callbacks the firmware gives the graphics library for its 1-bit OLED: the
    rounder that widens a redraw area to whole 8-row pages, and the pixel writer for a
    page-organised buffer in which each byte holds one column of eight rows. */
module Display {

  /** A signed 16-bit screen coordinate. */
  type Coord = c: int | -0x8000 <= c < 0x8000

  /** The first row of the 8-row page holding row y. Clearing the low three bits of a
      two's-complement value rounds it down to a multiple of 8, which is y minus its
      non-negative remainder. */
  function PageStart(y: int): (r: int)
    ensures r % 8 == 0 && r <= y < r + 8
  {
    y - y % 8
  }

  /** The last row of the 8-row page holding row y. */
  function PageEnd(y: int): (r: int)
    ensures r % 8 == 7 && y <= r < y + 8
  {
    PageStart(y) + 7
  }

  /** Both roundings are idempotent, and a row and its page's ends share that page. */
  lemma PageRoundingIdempotent(y: int)
    ensures PageStart(PageStart(y)) == PageStart(y)
    ensures PageEnd(PageEnd(y)) == PageEnd(y)
    ensures PageStart(PageEnd(y)) == PageStart(y)
  {
  }

  /** A redraw area, inclusive on both ends. */
  class Area {
    var x1: Coord
    var y1: Coord
    var x2: Coord
    var y2: Coord

    constructor (x1: Coord, y1: Coord, x2: Coord, y2: Coord)
      ensures this.x1 == x1 && this.y1 == y1 && this.x2 == x2 && this.y2 == y2
    {
      this.x1, this.y1, this.x2, this.y2 := x1, y1, x2, y2;
    }
  }

  /** rounder: y1 moves down to the top of its page and y2 to the bottom of its page;
      x1 and x2 stay. */
  method Rounder(area: Area)
    modifies area
    ensures area.y1 == PageStart(old(area.y1)) && area.y2 == PageEnd(old(area.y2))
    ensures area.x1 == old(area.x1) && area.x2 == old(area.x2)
  {
    area.y1 := area.y1 - area.y1 % 8;
    area.y2 := (area.y2 - area.y2 % 8) + 7;
  }

  /** The byte of the buffer that holds pixel (x, y): column x of page y >> 3. */
  function PixelIndex(bufW: int, x: int, y: int): int
  {
    x + (y / 8) * bufW
  }

  /** A pixel is lit exactly when its colour value is 0 and it is not fully transparent. */
  predicate PixelOn(colorFull: bv8, opa: bv8)
  {
    colorFull == 0 && opa != LV_OPA_TRANSP
  }

  const LV_OPA_TRANSP: bv8 := 0

  /** The mask of bit j of a byte: 1 << j. */
  function BitMask(j: nat): (m: bv8)
    requires j < 8
  {
    if j == 0 then 0x01 else if j == 1 then 0x02 else if j == 2 then 0x04 else if j == 3 then 0x08
    else if j == 4 then 0x10 else if j == 5 then 0x20 else if j == 6 then 0x40 else 0x80
  }

  /** The table is the shift the callback computes. */
  lemma ShiftIsBitMask(j: nat)
    requires j < 8
    ensures (1 as bv8) << j == BitMask(j)
  {
    if j == 0 {} else if j == 1 {} else if j == 2 {} else if j == 3 {}
    else if j == 4 {} else if j == 5 {} else if j == 6 {} else {}
  }

  /** Bit j of a buffer byte. */
  predicate Bit(b: bv8, j: nat)
    requires j < 8
  {
    b & BitMask(j) != 0
  }

  /** The byte with bit k set (`on`) or cleared and every other bit as it was. */
  function WithBit(b: bv8, k: nat, on: bool): (r: bv8)
    requires k < 8
    ensures forall j: nat | j < 8 && j != k :: Bit(r, j) == Bit(b, j)
    ensures Bit(r, k) == on
  {
    if on then b | BitMask(k) else b & !BitMask(k)
  }

  /** set_px: only the byte holding the pixel changes, and within it only the bit of
      row y & 7, which ends up set exactly when the pixel is lit. */
  method SetPx(buf: array<bv8>, bufW: int, x: int, y: int, colorFull: bv8, opa: bv8)
    requires 0 <= PixelIndex(bufW, x, y) < buf.Length
    modifies buf
    ensures buf[..] == old(buf[..])[PixelIndex(bufW, x, y) :=
      WithBit(old(buf[PixelIndex(bufW, x, y)]), y % 8, PixelOn(colorFull, opa))]
  {
    var i := x + (y / 8) * bufW;
    var bit := y % 8;
    var mask: bv8 := 1 << bit;
    ShiftIsBitMask(bit);
    if colorFull == 0 && LV_OPA_TRANSP != opa {
      buf[i] := buf[i] | mask;
    } else {
      buf[i] := buf[i] & !mask;
    }
  }
}
