/**
 * Pixel packing and the gray-palette check of node_helper.js.
 *
 * A captured frame is one 8-bit gray byte per pixel. The panel takes two
 * pixels per byte: the even pixel in the low nibble, the odd pixel in the
 * high nibble. In 16-level mode a pixel keeps its high nibble; in 4-level
 * mode that nibble is snapped with (v / 5) * 5.
 */
module Pixels {

  /** High and low nibble of a byte, as the source's `>> 4` and `& 0xF`. */
  function Hi(b: bv8): (r: bv8)
    ensures r < 16
  {
    b >> 4
  }

  function Lo(b: bv8): (r: bv8)
    ensures r < 16
  {
    b & 0x0F
  }

  /** The nibble a source pixel becomes on the panel. */
  function Quantize(b: bv8, is4levels: bool): (r: bv8)
    ensures r < 16
  {
    if is4levels then Hi(b) / 5 * 5 else Hi(b)
  }

  /** The four codes the 4-level quantizer can produce. */
  predicate InQuantizerPalette(v: bv8) {
    v == 0x0 || v == 0x5 || v == 0xA || v == 0xF
  }

  /** The four codes the palette check accepts. */
  predicate IsGray4Level(v: bv8) {
    v == 0xF || v == 0xA || v == 0x6 || v == 0x0
  }

  /** Every pixel's high nibble is one of the accepted gray codes. */
  predicate OnlyGray4Levels(buffer: seq<bv8>) {
    forall i :: 0 <= i < |buffer| ==> IsGray4Level(Hi(buffer[i]))
  }

  /** One packed byte: the even pixel's nibble low, the odd pixel's nibble high. */
  function Pack(low: bv8, high: bv8): bv8 {
    low | (high << 4)
  }

  /** A byte carrying the nibble v in its high half. */
  function Widen(v: bv8): bv8 {
    v << 4
  }

  /** The packed buffer: byte i holds pixel 2i in its low and pixel 2i+1 in its high nibble. */
  function Downscaled(buffer: seq<bv8>, is4levels: bool): seq<bv8> {
    seq(|buffer| / 2, i requires 0 <= i < |buffer| / 2 =>
      Pack(Quantize(buffer[2 * i], is4levels), Quantize(buffer[2 * i + 1], is4levels)))
  }

  /** The pixels the panel reads back out of a packed buffer, one nibble per pixel. */
  function Nibbles(packed: seq<bv8>): seq<bv8> {
    seq(2 * |packed|, i requires 0 <= i < 2 * |packed| =>
      if i % 2 == 0 then Lo(packed[i / 2]) else Hi(packed[i / 2]))
  }

  /** Pixels as bytes carrying the given nibbles in their high half. */
  function Expand(nibbles: seq<bv8>): seq<bv8> {
    seq(|nibbles|, i requires 0 <= i < |nibbles| => Widen(nibbles[i]))
  }

  /**
   * downscale8bitsTo4bits: allocates half as many bytes as there are pixels
   * (the allocation truncates, so a trailing odd pixel is dropped) and fills
   * them pair by pair with the source's own bit operations.
   */
  method Downscale8BitsTo4Bits(buffer: seq<bv8>, is4levels: bool) returns (buffer4b: array<bv8>)
    ensures buffer4b[..] == Downscaled(buffer, is4levels)
  {
    var n := |buffer| / 2;
    buffer4b := new bv8[n];
    if is4levels {
      for i := 0 to n
        invariant forall k :: 0 <= k < i ==> buffer4b[k] == Downscaled(buffer, true)[k]
      {
        buffer4b[i] := ((buffer[2 * i] >> 4) / 5 * 5) | (((buffer[2 * i + 1] >> 4) / 5 * 5) << 4);
      }
    } else {
      for i := 0 to n
        invariant forall k :: 0 <= k < i ==> buffer4b[k] == Downscaled(buffer, false)[k]
      {
        buffer4b[i] := (buffer[2 * i] >> 4) | (buffer[2 * i + 1] & 0xF0);
      }
    }
  }

  /** isBufferOnlyGray4Levels: scans the buffer and stops at the first pixel outside the palette. */
  method IsBufferOnlyGray4Levels(buffer: seq<bv8>) returns (r: bool)
    ensures r <==> OnlyGray4Levels(buffer)
    ensures !r ==> exists i :: 0 <= i < |buffer| && !IsGray4Level(Hi(buffer[i]))
  {
    for i := 0 to |buffer|
      invariant forall k :: 0 <= k < i ==> IsGray4Level(Hi(buffer[k]))
    {
      var val := buffer[i] >> 4;
      if val != 0xF && val != 0xA && val != 0x6 && val != 0 {
        return false;
      }
    }
    return true;
  }

  /** Nibble facts for one packed byte: the low nibble is the even pixel, the high nibble the odd one. */
  lemma PackedByteNibbles(even: bv8, odd: bv8, is4levels: bool)
    ensures Lo(Pack(Quantize(even, is4levels), Quantize(odd, is4levels))) == Quantize(even, is4levels)
    ensures Hi(Pack(Quantize(even, is4levels), Quantize(odd, is4levels))) == Quantize(odd, is4levels)
  {
  }

  /**
   * Unpacking what was packed gives back each pixel's quantized nibble, in
   * pixel order; only the trailing pixel of an odd-length buffer is lost.
   */
  lemma {:induction false} UnpackDownscaled(buffer: seq<bv8>, is4levels: bool)
    ensures |Downscaled(buffer, is4levels)| == |buffer| / 2
    ensures Nibbles(Downscaled(buffer, is4levels))
         == seq(|buffer| / 2 * 2, i requires 0 <= i < |buffer| / 2 * 2 => Quantize(buffer[i], is4levels))
  {
    var p := Downscaled(buffer, is4levels);
    var want := seq(|buffer| / 2 * 2, i requires 0 <= i < |buffer| / 2 * 2 => Quantize(buffer[i], is4levels));
    assert |Nibbles(p)| == |want|;
    forall i | 0 <= i < |want|
      ensures Nibbles(p)[i] == want[i]
    {
      var j := i / 2;
      PackedByteNibbles(buffer[2 * j], buffer[2 * j + 1], is4levels);
      if i % 2 == 0 {
        assert i == 2 * j;
      } else {
        assert i == 2 * j + 1;
      }
    }
  }

  /** 16-level packing keeps every pixel's high nibble: byte i is (pixel 2i >> 4) | (pixel 2i+1 & 0xF0). */
  lemma FullLevelPacking(buffer: seq<bv8>, i: int)
    requires 0 <= i < |buffer| / 2
    ensures |Downscaled(buffer, false)| == |buffer| / 2
    ensures Lo(Downscaled(buffer, false)[i]) == Hi(buffer[2 * i])
    ensures Hi(Downscaled(buffer, false)[i]) == Hi(buffer[2 * i + 1])
    ensures Downscaled(buffer, false)[i] == (buffer[2 * i] >> 4) | (buffer[2 * i + 1] & 0xF0)
  {
    PackedByteNibbles(buffer[2 * i], buffer[2 * i + 1], false);
  }

  /** A 4-level nibble lies in {0, 5, 10, 15} and never exceeds the source's high nibble. */
  lemma FewLevelNibble(b: bv8)
    ensures InQuantizerPalette(Quantize(b, true))
    ensures Quantize(b, true) <= Hi(b)
    ensures InQuantizerPalette(Hi(b)) ==> Quantize(b, true) == Hi(b)
  {
  }

  /** Every pixel of a 4-level packed buffer is in {0, 5, 10, 15} and no brighter code than its source. */
  lemma {:induction false} FewLevelPalette(buffer: seq<bv8>)
    ensures forall i :: 0 <= i < |buffer| / 2 * 2 ==>
      InQuantizerPalette(Nibbles(Downscaled(buffer, true))[i]) &&
      Nibbles(Downscaled(buffer, true))[i] <= Hi(buffer[i])
  {
    UnpackDownscaled(buffer, true);
    forall i | 0 <= i < |buffer| / 2 * 2
      ensures InQuantizerPalette(Quantize(buffer[i], true)) && Quantize(buffer[i], true) <= Hi(buffer[i])
    {
      FewLevelNibble(buffer[i]);
    }
  }

  /** Pixels whose high nibble is already in {0, 5, 10, 15} come out of 4-level packing as in 16-level packing. */
  lemma {:induction false} FewLevelKeepsQuantizerPalette(buffer: seq<bv8>)
    requires forall i :: 0 <= i < |buffer| ==> InQuantizerPalette(Hi(buffer[i]))
    ensures Downscaled(buffer, true) == Downscaled(buffer, false)
  {
    forall i | 0 <= i < |buffer|
      ensures Quantize(buffer[i], true) == Quantize(buffer[i], false)
    {
      FewLevelNibble(buffer[i]);
    }
  }

  /** Re-quantizing what the panel shows after a 4-level draw yields the same packed buffer. */
  lemma {:induction false} FewLevelIdempotent(buffer: seq<bv8>)
    ensures Downscaled(Expand(Nibbles(Downscaled(buffer, true))), true) == Downscaled(buffer, true)
  {
    var p := Downscaled(buffer, true);
    var e := Expand(Nibbles(p));
    UnpackDownscaled(buffer, true);
    assert |e| == |buffer| / 2 * 2;
    forall i | 0 <= i < |e|
      ensures Quantize(e[i], true) == Quantize(buffer[i], true)
    {
      FewLevelNibble(buffer[i]);
      var v := Quantize(buffer[i], true);
      assert e[i] == Widen(v);
      assert Hi(Widen(v)) == v;
      FewLevelNibble(Widen(v));
    }
  }

  /** The worked example: [0xF0, 0x00, 0xA0, 0x60] packs to [0x0F, 0x5A] in 4-level mode. */
  lemma FewLevelExample()
    ensures Downscaled([0xF0, 0x00, 0xA0, 0x60], true) == [0x0F, 0x5A]
  {
  }

  /** A single pixel outside the gray palette anywhere makes the whole check fail. */
  lemma OneOutlierFailsCheck(prefix: seq<bv8>, b: bv8, suffix: seq<bv8>)
    requires !IsGray4Level(Hi(b))
    ensures !OnlyGray4Levels(prefix + [b] + suffix)
  {
    assert (prefix + [b] + suffix)[|prefix|] == b;
  }

  /**
   * The quantizer's codes and the palette check's codes differ: a pixel of
   * nibble 6 passes the check but is snapped to 5, and the code 5 the
   * quantizer produces does not pass the check.
   */
  lemma PalettesDiffer()
    ensures OnlyGray4Levels([0x60]) && Nibbles(Downscaled([0x60, 0x60], true)) == [0x5, 0x5]
    ensures !OnlyGray4Levels(Expand([0x5]))
  {
    assert Expand([0x5])[0] == 0x50;
  }
}
