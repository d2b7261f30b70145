/** The two bytes a sample becomes in adc_stream_raw, through C's truncating division of a signed value. */
module RawFormat {
  import opened Words
  import opened Packet

  /** Conversion to int16_t. */
  function ToInt16(x: int): (v: int)
    ensures -0x8000 <= v < 0x8000 && (v - x) % HALF_SPAN == 0
  {
    (x + 0x8000) % HALF_SPAN - 0x8000
  }

  /** The sample less the direct-current offset, stored in an int16_t at each step. */
  function RawSample(w: word): int { ToInt16(ToInt16(RawVal(w)) - 250) }

  /** Division and remainder of C, which truncate towards zero. */
  function CDiv(a: int, b: int): int
    requires b > 0
  {
    if a >= 0 then a / b else -(-a / b)
  }

  function CRem(a: int, b: int): int
    requires b > 0
  {
    a - b * CDiv(a, b)
  }

  /** Conversion to a byte. */
  function ToByte(x: int): byte { x % 256 }

  function RawPair(v: int): seq<byte> { [ToByte(CRem(v, 256)), ToByte(CDiv(v, 256))] }

  function RawBytes(ws: seq<word>): (bs: seq<byte>)
    ensures |bs| == 2 * |ws|
  {
    if ws == [] then [] else RawBytes(ws[..|ws| - 1]) + RawPair(RawSample(ws[|ws| - 1]))
  }

  lemma RawAppend(ws: seq<word>, x: nat)
    requires x < |ws|
    ensures RawBytes(ws[..x + 1]) == RawBytes(ws[..x]) + RawPair(RawSample(ws[x]))
  {
    assert ws[..x + 1][..x] == ws[..x];
  }

  /** The high byte of a negative value is one too high unless the low byte is zero. */
  lemma RawPairValue(v: int)
    requires -0x8000 <= v < 0x8000
    ensures WordAt(RawPair(v), 0) == (if v >= 0 || v % 256 == 0 then v else v + 256) % HALF_SPAN
    ensures WordAt(RawPair(v), 0) == v % HALF_SPAN <==> v >= 0 || v % 256 == 0
  {
    hide CDiv, CRem;
    Truncated(v);
    PairOf(CRem(v, 256), CDiv(v, 256));
    ReadBack(v);
  }

  /** Quotient and remainder of C. */
  lemma Truncated(v: int)
    requires -0x8000 <= v < 0x8000
    ensures v == 256 * CDiv(v, 256) + CRem(v, 256) && -128 <= CDiv(v, 256) < 128 && -256 < CRem(v, 256) < 256
    ensures if v >= 0 then CRem(v, 256) >= 0 && CDiv(v, 256) >= 0 else CRem(v, 256) <= 0 && CDiv(v, 256) <= 0
    ensures v < 0 ==> (CRem(v, 256) == 0 <==> v % 256 == 0)
  {
  }

  /** The two bytes read as a little-endian word. */
  lemma PairOf(lo: int, hi: int)
    requires -256 < lo < 256 && -128 <= hi < 128
    ensures ToByte(lo) == (if lo < 0 then lo + 256 else lo) && ToByte(hi) == if hi < 0 then hi + 256 else hi
  {
  }

  lemma ReadBack(v: int)
    requires -0x8000 <= v < 0x8000
    requires var lo, hi := CRem(v, 256), CDiv(v, 256);
             && v == 256 * hi + lo && -256 < lo < 256 && -128 <= hi < 128
             && ToByte(lo) == (if lo < 0 then lo + 256 else lo) && ToByte(hi) == (if hi < 0 then hi + 256 else hi)
             && (if v >= 0 then lo >= 0 && hi >= 0 else lo <= 0 && hi <= 0) && (v < 0 ==> (lo == 0 <==> v % 256 == 0))
    ensures WordAt(RawPair(v), 0) == (if v >= 0 || v % 256 == 0 then v else v + 256) % HALF_SPAN
    ensures WordAt(RawPair(v), 0) == v % HALF_SPAN <==> v >= 0 || v % 256 == 0
  {
    hide CDiv, CRem, ToByte;
    var lo, hi := CRem(v, 256), CDiv(v, 256);
    assert WordAt(RawPair(v), 0) == ToByte(lo) + 256 * ToByte(hi);
    if v >= 0 {
      Reduce(v, 0);
    } else if lo == 0 {
      if hi == 0 { Reduce(v, 0); } else { Reduce(v, 1); }
    } else {
      if hi == 0 { Reduce(v + 256, 0); } else { Reduce(v + 256, 1); }
      Reduce(v, 1);
    }
  }

  lemma Reduce(v: int, k: int)
    ensures 0 <= v + HALF_SPAN * k < HALF_SPAN ==> v % HALF_SPAN == v + HALF_SPAN * k
  {
  }

  /** What a reader of the raw stream finds as sample x: the sample less 250 where that is not negative or a
      multiple of 256, and 256 too much elsewhere. */
  lemma {:induction false} RawRoundTrip(ws: seq<word>, x: nat)
    requires x < |ws|
    ensures var v := RawSample(ws[x]);
            && -0x8000 <= v < 0x8000 && (v - (Swap(ws[x]) - 250)) % 0x1_0000 == 0
            && WordAt(RawBytes(ws), x) == (if v >= 0 || v % 256 == 0 then v else v + 256) % HALF_SPAN
    decreases |ws|
  {
    hide RawPair, RawSample;
    RawSampleRange(ws[x]);
    if x < |ws| - 1 {
      RawRoundTrip(ws[..|ws| - 1], x);
    } else {
      RawPairValue(RawSample(ws[x]));
      assert |RawPair(RawSample(ws[x]))| == 2 by { PairLength(RawSample(ws[x])); }
    }
  }

  lemma RawSampleRange(w: word)
    ensures -0x8000 <= RawSample(w) < 0x8000 && (RawSample(w) - (Swap(w) - 250)) % HALF_SPAN == 0
  {
    hide ToInt16;
    var x := RawVal(w);
    var v1 := ToInt16(x);
    var v2 := ToInt16(v1 - 250);
    var a, b, c := (v1 - x) / HALF_SPAN, (v2 - (v1 - 250)) / HALF_SPAN, x / HALF_SPAN;
    assert v2 - (Swap(w) - 250) == HALF_SPAN * (a + b + c);
  }

  lemma PairLength(v: int)
    ensures |RawPair(v)| == 2
  {
  }
}
