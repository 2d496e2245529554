/** The frame-buffer helpers of the browser front end (`src/fe/screen.js`): a
    256 x 240 buffer of 32-bit pixels that starts out opaque black, a full copy of an
    emulated frame into it, and a partial copy that ends in a red marker row.

    The buffer is a `Uint32Array`; its `set`, `subarray` and `fill` are modelled with
    their index rules: `set` throws a RangeError when the source does not fit, and
    `subarray` / `fill` count a negative index back from the end and clamp to the
    length. */
module ScreenBuffer {
  import opened Js

  newtype u32 = x: int | 0 <= x < 0x1_0000_0000

  const ScreenWidth := 256
  const ScreenHeight := 240
  const PixelCount := ScreenWidth * ScreenHeight

  /** Alpha 0xff and no colour: the pixel every entry starts as. */
  const OpaqueBlack: u32 := 0xff00_0000
  /** Opaque red in the canvas's ABGR byte order: the marker row. */
  const RedLine: u32 := 0xff00_00ff

  /** The buffer after a typed-array operation, or the RangeError `set` throws. */
  datatype Copied = RangeError | Copied(pixels: seq<u32>)

  /** A relative index argument of `subarray` or `fill`, resolved against a length. */
  function RelativeIndex(i: int, len: nat): (r: nat)
    ensures r <= len
    ensures 0 <= i <= len ==> r == i
  {
    if i < 0 then (if len + i < 0 then 0 else len + i)
    else if i < len then i
    else len
  }

  /** `source.subarray(begin, end)`: the entries between the resolved indices. */
  function Subarray(source: seq<u32>, begin: int, end: int): (r: seq<u32>)
    ensures 0 <= begin <= end <= |source| ==> r == source[begin..end]
    ensures 0 <= begin && 0 <= end && |source| <= end ==> r == source[RelativeIndex(begin, |source|)..]
  {
    var b, e := RelativeIndex(begin, |source|), RelativeIndex(end, |source|);
    if b <= e then source[b..e] else []
  }

  /** `target.set(source)`: the first `|source|` entries are replaced, in order, and
      the rest are kept; a source longer than the target is a RangeError. */
  function TypedArraySet(target: seq<u32>, source: seq<u32>): (r: Copied)
    ensures r.Copied? <==> |source| <= |target|
    ensures r.Copied? ==>
      && |r.pixels| == |target|
      && (forall i :: 0 <= i < |source| ==> r.pixels[i] == source[i])
      && (forall i :: |source| <= i < |target| ==> r.pixels[i] == target[i])
  {
    if |source| > |target| then RangeError else Copied(source + target[|source|..])
  }

  /** `target.fill(value, start, end)`: the entries between the resolved indices become
      `value`, the others are kept. */
  function Fill(target: seq<u32>, value: u32, start: int, end: int): (r: seq<u32>)
    ensures |r| == |target|
    ensures forall i :: 0 <= i < |target| ==>
      r[i] == if RelativeIndex(start, |target|) <= i < RelativeIndex(end, |target|) then value else target[i]
  {
    var s, e := RelativeIndex(start, |target|), RelativeIndex(end, |target|);
    if s < e then target[..s] + seq(e - s, _ => value) + target[e..] else target
  }

  /** `height << 8`: the first pixel of row `height`, as a signed 32-bit shift. */
  function RowStart(height: int): int {
    Int32(height * 256)
  }

  /** `setBufferPartial(buffer, height)` on the pixels `target`: a RangeError exactly
      when the part of the source it copies is longer than the buffer; otherwise the
      buffer keeps its size and every pixel is a source pixel, the red marker or the
      pixel it held before. */
  function PartialFrame(target: seq<u32>, source: seq<u32>, height: int): (r: Copied)
    ensures r.RangeError? <==> |Subarray(source, 0, RowStart(height))| > |target|
    ensures r.Copied? ==> |r.pixels| == |target|
    ensures r.Copied? ==> forall i :: 0 <= i < |target| ==> r.pixels[i] in source || r.pixels[i] == RedLine || r.pixels[i] == target[i]
  {
    var sub := Subarray(source, 0, RowStart(height));
    assert forall i :: 0 <= i < |sub| ==> sub[i] in source by {
      forall i | 0 <= i < |sub|
        ensures sub[i] in source
      {
        assert sub[i] == source[i];
      }
    }
    match TypedArraySet(target, sub)
    case RangeError => RangeError
    case Copied(pixels) => Copied(Fill(pixels, RedLine, RowStart(height), RowStart(height + 1)))
  }

  /** The row-start shift is exact for every height a screen can have. */
  lemma RowStartExact(height: int)
    requires 0 <= height < 0x80_0000
    ensures RowStart(height) == height * 256
  {
    Int32InRange(height * 256);
  }

  /** For a row `h` of the screen (or `h` = 240, just past it) and a source holding
      at least the rows above it: the rows above `h` are the source's, row `h` is the
      red marker, and everything below it is what the buffer held before. */
  lemma PartialLayout(target: seq<u32>, source: seq<u32>, h: int)
    requires |target| == PixelCount
    requires 0 <= h <= ScreenHeight && h * ScreenWidth <= |source|
    ensures var r := PartialFrame(target, source, h);
      && r.Copied? && |r.pixels| == PixelCount
      && r.pixels[..h * 256] == source[..h * 256]
      && (forall i :: h * 256 <= i < (h + 1) * 256 && i < PixelCount ==> r.pixels[i] == RedLine)
      && (forall i :: (h + 1) * 256 <= i < PixelCount ==> r.pixels[i] == target[i])
  {
    RowStartExact(h);
    RowStartExact(h + 1);
    var sub := Subarray(source, 0, h * 256);
    assert sub == source[..h * 256];
    var r := PartialFrame(target, source, h);
    assert r.pixels[..h * 256] == source[..h * 256] by {
      forall i | 0 <= i < h * 256
        ensures r.pixels[i] == source[i]
      {
        assert r.pixels[i] == TypedArraySet(target, sub).pixels[i];
      }
    }
  }

  /** For a non-negative height within the shift's range, the partial copy fails
      exactly when both the requested rows and the source are longer than the buffer. */
  lemma PartialRangeError(target: seq<u32>, source: seq<u32>, h: int)
    requires 0 <= h < 0x80_0000
    ensures PartialFrame(target, source, h).RangeError? <==> h * 256 > |target| && |source| > |target|
  {
    RowStartExact(h);
    var n := h * 256;
    var sub := Subarray(source, 0, n);
    assert |sub| == if n <= |source| then n else |source|;
  }

  /** A negative height counts rows back from the end of the source: with height -1 a
      full-size source is copied except its last row, and no marker is drawn. */
  lemma NegativeHeightCountsFromEnd(target: seq<u32>, source: seq<u32>)
    requires |target| == PixelCount && |source| == PixelCount
    ensures PartialFrame(target, source, -1) ==
      Copied(source[..PixelCount - 256] + target[PixelCount - 256..])
  {
    assert RowStart(-1) == -256;
    assert RowStart(0) == 0;
    var sub := Subarray(source, 0, -256);
    assert sub == source[..PixelCount - 256];
    var r := PartialFrame(target, source, -1);
    assert r.pixels == source[..PixelCount - 256] + target[PixelCount - 256..];
  }

  /** The screen: the pixel buffer the front end paints on the next animation frame. */
  class Screen {
    const buf32: array<u32>

    /** The buffer set-up of the constructor: every pixel opaque black. */
    constructor ()
      ensures buf32.Length == PixelCount && fresh(buf32)
      ensures forall i :: 0 <= i < buf32.Length ==> buf32[i] == OpaqueBlack
    {
      buf32 := new u32[PixelCount];
      new;
      var i := 0;
      while i < buf32.Length
        invariant 0 <= i <= buf32.Length
        invariant forall j :: 0 <= j < i ==> buf32[j] == OpaqueBlack
        decreases buf32.Length - i
      {
        buf32[i] := OpaqueBlack;
        i := i + 1;
      }
    }

    /** `setBuffer(buffer)`; `ok` is false when `set` throws. */
    method SetBuffer(buffer: seq<u32>) returns (ok: bool)
      modifies buf32
      ensures TypedArraySet(old(buf32[..]), buffer) == (if ok then Copied(buf32[..]) else RangeError)
      ensures !ok ==> buf32[..] == old(buf32[..])
    {
      if |buffer| > buf32.Length {
        return false;
      }
      forall i | 0 <= i < |buffer| {
        buf32[i] := buffer[i];
      }
      assert buf32[..] == buffer + old(buf32[..])[|buffer|..];
      return true;
    }

    /** `setBufferPartial(buffer, height)`; `ok` is false when `set` throws, in which
        case nothing is filled. */
    method SetBufferPartial(buffer: seq<u32>, height: int) returns (ok: bool)
      modifies buf32
      ensures PartialFrame(old(buf32[..]), buffer, height) == (if ok then Copied(buf32[..]) else RangeError)
      ensures !ok ==> buf32[..] == old(buf32[..])
    {
      var sub := Subarray(buffer, 0, RowStart(height));
      if |sub| > buf32.Length {
        return false;
      }
      forall i | 0 <= i < |sub| {
        buf32[i] := sub[i];
      }
      ghost var copied := buf32[..];
      assert copied == sub + old(buf32[..])[|sub|..];
      var start, end := RelativeIndex(RowStart(height), buf32.Length), RelativeIndex(RowStart(height + 1), buf32.Length);
      forall i | start <= i < end {
        buf32[i] := RedLine;
      }
      assert buf32[..] == Fill(copied, RedLine, RowStart(height), RowStart(height + 1));
      return true;
    }
  }
}
