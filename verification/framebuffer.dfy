/**
 * The frame buffer the video unit draws into: width * height colour values
 * in row-major order, with bounds-checked reads and writes.
 */
module Display {
  import opened Bits

  /** The row-major position of pixel (x, y). */
  function Index(width: int, x: int, y: int): int {
    y * width + x
  }

  predicate InBounds(width: int, height: int, x: int, y: int) {
    0 <= x < width && 0 <= y < height
  }

  /** An in-bounds pixel has a cell in the array. */
  lemma IndexInRange(width: int, height: int, x: int, y: int)
    requires InBounds(width, height, x, y)
    ensures 0 <= Index(width, x, y) < width * height
  {
    assert (height - 1 - y) * width >= 0;
    assert width * height == (height - 1 - y) * width + y * width + width;
  }

  /** Distinct in-bounds pixels have distinct cells. */
  lemma {:induction false} IndexInjective(width: int, x: int, y: int, x': int, y': int)
    requires 0 <= x < width && 0 <= x' < width
    requires Index(width, x, y) == Index(width, x', y')
    ensures x == x' && y == y'
  {
    DivUnique(Index(width, x, y), width, y, x);
    DivUnique(Index(width, x', y'), width, y', x');
  }

  /** getPixel on a snapshot: the stored colour, or 0 out of bounds. */
  function Pixel(p: seq<int>, width: int, height: int, x: int, y: int): int
    requires |p| == width * height
  {
    if InBounds(width, height, x, y) then
      IndexInRange(width, height, x, y);
      p[Index(width, x, y)]
    else
      0
  }

  /** setPixel on a snapshot: out of bounds nothing changes. */
  function Painted(p: seq<int>, width: int, height: int, x: int, y: int, colour: int): (p': seq<int>)
    requires |p| == width * height
    ensures |p'| == |p|
  {
    if InBounds(width, height, x, y) then
      IndexInRange(width, height, x, y);
      p[Index(width, x, y) := colour]
    else
      p
  }

  /**
   * Reading a pixel after painting one: the painted point reads the new
   * colour when it is in bounds; every other point reads as before.
   */
  lemma {:induction false} PaintThenRead(p: seq<int>, width: int, height: int,
      x: int, y: int, colour: int, x': int, y': int)
    requires |p| == width * height
    ensures Pixel(Painted(p, width, height, x, y, colour), width, height, x', y') ==
            if x' == x && y' == y && InBounds(width, height, x, y) then colour
            else Pixel(p, width, height, x', y')
  {
    var q := Painted(p, width, height, x, y, colour);
    if !InBounds(width, height, x, y) {
      assert q == p;
    } else if !InBounds(width, height, x', y') {
    } else {
      var i, i' := Index(width, x, y), Index(width, x', y');
      IndexInRange(width, height, x, y);
      IndexInRange(width, height, x', y');
      assert q == p[i := colour];
      if x' == x && y' == y {
        assert q[i'] == colour;
      } else {
        assert i != i' by {
          if i == i' {
            IndexInjective(width, x, y, x', y');
          }
        }
        assert q[i'] == p[i'];
      }
    }
  }

  /** An in-bounds write changes exactly one cell, the one at y * width + x. */
  lemma {:induction false} PaintChangesOneCell(p: seq<int>, width: int, height: int,
      x: int, y: int, colour: int)
    requires |p| == width * height
    ensures InBounds(width, height, x, y) ==>
      (forall i :: 0 <= i < |p| && i != Index(width, x, y) ==>
         Painted(p, width, height, x, y, colour)[i] == p[i])
    ensures !InBounds(width, height, x, y) ==> Painted(p, width, height, x, y, colour) == p
  {
  }

  class FrameBuffer {
    const width: int
    const height: int
    const pixels: array<int>

    ghost predicate Valid()
      reads this
    {
      pixels.Length == width * height
    }

    function Contents(): seq<int>
      reads this, pixels
    {
      pixels[..]
    }

    /** new int[width * height], all zero; a negative size is an exception in the source. */
    constructor(width: int, height: int)
      requires width * height >= 0
      ensures Valid() && fresh(pixels)
      ensures this.width == width && this.height == height
      ensures Contents() == seq(width * height, _ => 0)
    {
      this.width := width;
      this.height := height;
      pixels := new int[width * height](_ => 0);
    }

    method SetPixel(x: int, y: int, colour: int)
      requires Valid()
      modifies pixels
      ensures Contents() == Painted(old(Contents()), width, height, x, y, colour)
    {
      if x < 0 || x >= width || y < 0 || y >= height {
        return;
      }
      IndexInRange(width, height, x, y);
      pixels[y * width + x] := colour;
    }

    function GetPixel(x: int, y: int): int
      requires Valid()
      reads this, pixels
    {
      Pixel(pixels[..], width, height, x, y)
    }

    /** getPixels hands out a copy: a fresh array, so writes to it cannot reach the buffer. */
    method GetPixels() returns (copy: array<int>)
      requires Valid()
      ensures fresh(copy)
      ensures copy[..] == Contents()
    {
      copy := new int[pixels.Length](i requires 0 <= i < pixels.Length reads pixels => pixels[i]);
    }
  }
}
