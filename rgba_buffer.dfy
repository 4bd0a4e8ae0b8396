/**
  Byte addressing in a decoded RGBA image, shared by the two asset scripts:
  four bytes per pixel (red, green, blue, alpha), rows top to bottom, each
  row left to right.
*/
module RgbaBuffer {

  type byte = x: int | 0 <= x < 256

  /** The offset of pixel (x, y)'s red byte: four bytes per pixel, row-major. */
  function PixelOffset(width: nat, x: nat, y: nat): nat {
    4 * (width * y + x)
  }

  lemma ProductMonotone(w: nat, a: nat, b: nat)
    requires a <= b
    ensures w * a <= w * b
  {
  }

  /** The four bytes of an in-bounds pixel lie inside a 4 * width * height buffer. */
  lemma PixelOffsetInBounds(width: nat, height: nat, x: nat, y: nat)
    requires x < width && y < height
    ensures PixelOffset(width, x, y) + 3 < 4 * width * height
  {
    ProductMonotone(width, y + 1, height);
    assert width * y + x < width * (y + 1);
  }

  /** Every pixel starts on a four-byte boundary. */
  lemma OffsetIsAligned(width: nat, x: nat, y: nat)
    ensures PixelOffset(width, x, y) % 4 == 0
  {
  }

  /** One past the last pixel of a row is the first pixel of the next row. */
  lemma NextRowOffset(width: nat, y: nat)
    ensures PixelOffset(width, width, y) == PixelOffset(width, 0, y + 1)
  {
  }

}
