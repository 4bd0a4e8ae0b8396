/**
  The silhouette keying step of the asset script: a scan over every pixel of
  the decoded silhouette photograph that makes light pixels (all three colour
  channels above 80) fully transparent, in place, and leaves every other byte
  as it was.

  Reading the JPEG, writing the PNG and copying the background file are not
  part of this model.
*/
module SilhouetteKeying {

  import opened RgbaBuffer

  /** Light grey or white: red, green and blue all above the threshold. */
  const LightThreshold: byte := 80

  predicate IsLight(red: byte, green: byte, blue: byte) {
    red > LightThreshold && green > LightThreshold && blue > LightThreshold
  }

  /** Byte i of the keyed buffer: an alpha byte of a light pixel becomes 0, everything else is kept. */
  function KeyedByte(s: seq<byte>, i: nat): (k: byte)
    requires i < |s|
    ensures k == 0 || k == s[i]
    ensures i % 4 != 3 ==> k == s[i]
  {
    if i % 4 == 3 && IsLight(s[i - 3], s[i - 2], s[i - 1]) then 0 else s[i]
  }

  /** The whole RGBA buffer after keying: every byte is either kept or cleared to 0. */
  function Keyed(s: seq<byte>): (t: seq<byte>)
    ensures |t| == |s|
    ensures forall i :: 0 <= i < |s| ==> t[i] == 0 || t[i] == s[i]
  {
    seq(|s|, i requires 0 <= i < |s| => KeyedByte(s, i))
  }

  /** The four bytes of pixel p: red, green, blue and alpha, in that order. */
  lemma PixelByteIndices(p: nat)
    ensures (4 * p) % 4 == 0 && (4 * p + 1) % 4 == 1 && (4 * p + 2) % 4 == 2 && (4 * p + 3) % 4 == 3
  {
  }

  /** A light pixel ends up fully transparent. */
  lemma LightPixelBecomesTransparent(s: seq<byte>, p: nat)
    requires 4 * p + 3 < |s| && IsLight(s[4 * p], s[4 * p + 1], s[4 * p + 2])
    ensures Keyed(s)[4 * p + 3] == 0
  {
    PixelByteIndices(p);
    assert Keyed(s)[4 * p + 3] == KeyedByte(s, 4 * p + 3);
  }

  /** A pixel that is not light keeps all four bytes. */
  lemma OtherPixelUnchanged(s: seq<byte>, p: nat)
    requires 4 * p + 3 < |s| && !IsLight(s[4 * p], s[4 * p + 1], s[4 * p + 2])
    ensures Keyed(s)[4 * p .. 4 * p + 4] == s[4 * p .. 4 * p + 4]
  {
    PixelByteIndices(p);
    var t := Keyed(s);
    var o := 4 * p;
    assert t[o] == KeyedByte(s, o) == s[o];
    assert t[o + 1] == KeyedByte(s, o + 1) == s[o + 1];
    assert t[o + 2] == KeyedByte(s, o + 2) == s[o + 2];
    assert t[o + 3] == KeyedByte(s, o + 3) == s[o + 3];
    assert t[o .. o + 4] == [t[o], t[o + 1], t[o + 2], t[o + 3]];
    assert s[o .. o + 4] == [s[o], s[o + 1], s[o + 2], s[o + 3]];
  }

  /** Only alpha bytes change: every colour byte is kept. */
  lemma ColoursUnchanged(s: seq<byte>, i: nat)
    requires i < |s| && i % 4 != 3
    ensures Keyed(s)[i] == s[i]
  {
  }

  /** Keying only ever lowers opacity, and changes a byte only by setting an alpha to 0. */
  lemma KeyingOnlyClearsAlpha(s: seq<byte>)
    ensures forall i :: 0 <= i < |s| ==> Keyed(s)[i] <= s[i]
    ensures forall i :: 0 <= i < |s| && Keyed(s)[i] != s[i] ==> i % 4 == 3 && Keyed(s)[i] == 0
  {
  }

  /** Keying a keyed buffer changes nothing: colours are kept, so the same pixels are light. */
  lemma KeyingIdempotent(s: seq<byte>)
    ensures Keyed(Keyed(s)) == Keyed(s)
  {
    var t := Keyed(s);
    forall i | 0 <= i < |s|
      ensures Keyed(t)[i] == t[i]
    {
      assert Keyed(t)[i] == KeyedByte(t, i);
      if i % 4 == 3 {
        var q := i / 4;
        assert i == 4 * q + 3;
        PixelByteIndices(q);
        assert t[4 * q] == KeyedByte(s, 4 * q) == s[4 * q];
        assert t[4 * q + 1] == KeyedByte(s, 4 * q + 1) == s[4 * q + 1];
        assert t[4 * q + 2] == KeyedByte(s, 4 * q + 2) == s[4 * q + 2];
        assert t[i] == KeyedByte(s, i);
      }
    }
  }

  /** The first n bytes of `current` are keyed, the rest are still the original bytes. */
  ghost predicate KeyedUpTo(current: seq<byte>, original: seq<byte>, n: nat) {
    && |current| == |original|
    && forall i :: 0 <= i < |current| ==> current[i] == if i < n then KeyedByte(original, i) else original[i]
  }

  /** Keying the pixel at byte offset idx extends the keyed prefix by four bytes. */
  lemma KeyPixelStep(original: seq<byte>, before: seq<byte>, after: seq<byte>, idx: nat)
    requires idx % 4 == 0 && idx + 3 < |original|
    requires KeyedUpTo(before, original, idx)
    requires after == if IsLight(before[idx], before[idx + 1], before[idx + 2]) then before[idx + 3 := 0] else before
    ensures KeyedUpTo(after, original, idx + 4)
  {
    assert (idx + 3) % 4 == 3 && (idx + 2) % 4 == 2 && (idx + 1) % 4 == 1;
  }

  /**
    The scan callback applied to every pixel, rows top to bottom and each row
    left to right, writing 0 into the alpha byte of each light pixel.
  */
  method KeyAlpha(data: array<byte>, width: nat, height: nat)
    requires data.Length == 4 * width * height
    modifies data
    ensures data[..] == Keyed(old(data[..]))
  {
    ghost var original := data[..];
    var y := 0;
    while y < height
      invariant 0 <= y <= height
      invariant KeyedUpTo(data[..], original, PixelOffset(width, 0, y))
    {
      var x := 0;
      while x < width
        invariant 0 <= x <= width
        invariant KeyedUpTo(data[..], original, PixelOffset(width, x, y))
      {
        var idx := PixelOffset(width, x, y);
        PixelOffsetInBounds(width, height, x, y);
        OffsetIsAligned(width, x, y);
        ghost var before := data[..];
        var red := data[idx];
        var green := data[idx + 1];
        var blue := data[idx + 2];
        if IsLight(red, green, blue) {
          data[idx + 3] := 0;
        }
        KeyPixelStep(original, before, data[..], idx);
        x := x + 1;
      }
      NextRowOffset(width, y);
      y := y + 1;
    }
    assert PixelOffset(width, 0, height) == data.Length;
    assert data[..] == Keyed(original);
  }

}
