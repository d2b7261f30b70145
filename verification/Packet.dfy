/** The packet format: little-endian 16-bit words, framed by two sync words, a size, a serial number and a
    checksum. */
module Packet {
  import opened Words
  import opened Layout

  /** ADC_RAW_VAL on the low half of a received word: d << 8 | d >> 8, not truncated. The two operands have no
      bit in common, so the or is a sum. */
  function RawVal(w: word): int {
    var d := w % HALF_SPAN;
    d * 256 + d / 256
  }

  /** The sample as a 16-bit value: its two bytes swapped. */
  function Swap(w: word): u16 { RawVal(w) % HALF_SPAN }

  /** Swapping recovers what the SPI delivered high byte first; the value that is not truncated is the same
      number only when the high byte is zero. */
  lemma SwapBytes(hi: byte, lo: byte)
    ensures Swap(hi + 256 * lo) == 256 * hi + lo
    ensures RawVal(hi + 256 * lo) == Swap(hi + 256 * lo) + HALF_SPAN * lo
  {
    var d: int, x: int, y: int := hi + 256 * lo, hi, lo;
    assert d % HALF_SPAN == d && d / 256 == y;
    assert RawVal(d) == (256 * x + y) + HALF_SPAN * y && 0 <= 256 * x + y < HALF_SPAN;
  }

  function Swapped(ws: seq<word>): (r: seq<u16>)
    ensures |r| == |ws|
  {
    seq(|ws|, i requires 0 <= i < |ws| => Swap(ws[i]))
  }

  // ----- Little-endian words -----

  function Encode(ws: seq<u16>): (bs: seq<byte>)
    ensures |bs| == 2 * |ws|
  {
    if ws == [] then []
    else Encode(ws[..|ws| - 1]) + [ws[|ws| - 1] % 256, ws[|ws| - 1] / 256]
  }

  /** The receiver's view: word i of a datagram. */
  function WordAt(bs: seq<byte>, i: nat): u16
    requires 2 * i + 1 < |bs|
  {
    var lo: int, hi: int := bs[2 * i], bs[2 * i + 1];
    lo + 256 * hi
  }

  lemma {:induction false} EncodeWordAt(ws: seq<u16>, i: nat)
    requires i < |ws|
    ensures WordAt(Encode(ws), i) == ws[i]
    decreases |ws|
  {
    if i < |ws| - 1 {
      EncodeWordAt(ws[..|ws| - 1], i);
    }
  }

  lemma EncodeAppend(ws: seq<u16>, w: u16)
    ensures Encode(ws + [w]) == Encode(ws) + [w % 256, w / 256]
  {
    assert (ws + [w])[..|ws|] == ws;
  }

  // ----- The frame -----

  const SYNC1 := 0x7FFF
  const SYNC2 := 0x8000
  const HEADER := 4

  /** Length of a packet in bytes; it is also the size word. */
  function PacketLen(nsamp: nat): nat { 2 * (nsamp + 5) }

  function Sum(ws: seq<u16>): u16 {
    if ws == [] then 0 else (Sum(ws[..|ws| - 1]) + ws[|ws| - 1]) % HALF_SPAN
  }

  /** Header and samples of block `ws` with serial number num. */
  function Body(num: nat, ws: seq<word>): (r: seq<u16>)
    requires |ws| <= MAX_SAMPS
    ensures |r| == HEADER + |ws|
  {
    [SYNC1, SYNC2, PacketLen(|ws|), num % HALF_SPAN] + Swapped(ws)
  }

  /** The whole packet: the body and the sum of all its words. */
  function Frame(num: nat, ws: seq<word>): (r: seq<u16>)
    requires |ws| <= MAX_SAMPS
    ensures |r| == HEADER + |ws| + 1
  {
    Body(num, ws) + [Sum(Body(num, ws))]
  }

  function PacketBytes(num: nat, ws: seq<word>): (bs: seq<byte>)
    requires |ws| <= MAX_SAMPS
    ensures |bs| == PacketLen(|ws|)
  {
    Encode(Frame(num, ws))
  }

  /** What a receiver finds in a datagram. */
  ghost predicate WellFormed(bs: seq<byte>, serial: u16, samples: seq<u16>) {
    && |bs| == PacketLen(|samples|)
    && WordAt(bs, 0) == SYNC1 && WordAt(bs, 1) == SYNC2 && WordAt(bs, 2) == |bs|
    && WordAt(bs, 3) == serial
    && (forall i | 0 <= i < |samples| :: WordAt(bs, HEADER + i) == samples[i])
    && WordAt(bs, HEADER + |samples|) == WordSum(bs, HEADER + |samples|)
  }

  /** The receiver's own sum of the first n words. */
  function WordSum(bs: seq<byte>, n: nat): u16
    requires 2 * n <= |bs|
  {
    if n == 0 then 0 else (WordSum(bs, n - 1) + WordAt(bs, n - 1)) % HALF_SPAN
  }

  lemma {:induction false} WordSumIsSum(ws: seq<u16>, n: nat)
    requires n <= |ws|
    ensures WordSum(Encode(ws), n) == Sum(ws[..n])
  {
    if n > 0 {
      WordSumIsSum(ws, n - 1);
      EncodeWordAt(ws, n - 1);
      assert ws[..n][..n - 1] == ws[..n - 1];
    }
  }

  /** Round trip: a receiver reads back the sync words, the length, the serial number, every sample and a
      checksum that agrees with its own sum of everything before it. */
  lemma PacketRoundTrip(num: nat, ws: seq<word>)
    requires |ws| <= MAX_SAMPS
    ensures WellFormed(PacketBytes(num, ws), num % HALF_SPAN, Swapped(ws))
  {
    var f := Frame(num, ws);
    var bs := PacketBytes(num, ws);
    forall i: nat | i < |f|
      ensures WordAt(bs, i) == f[i]
    {
      EncodeWordAt(f, i);
    }
    WordSumIsSum(f, HEADER + |ws|);
    assert f[..HEADER + |ws|] == Body(num, ws);
    assert |bs| < HALF_SPAN;
    forall i | 0 <= i < |ws|
      ensures WordAt(bs, HEADER + i) == Swapped(ws)[i]
    {
      assert f[HEADER + i] == Swapped(ws)[i];
    }
  }

  /** The bytes one by one: sync, length, number, and for each sample the high and then the low byte of the low half
      of its word, which is the order in which a big-endian reader wants them. */
  lemma PacketBytesAre(num: nat, ws: seq<word>)
    requires |ws| <= MAX_SAMPS
    ensures var bs := PacketBytes(num, ws);
            && |bs| == 2 * |ws| + 10 && bs[..4] == [0xff, 0x7f, 0x00, 0x80]
            && WordAt(bs, 2) == 2 * |ws| + 10 && WordAt(bs, 3) == num % 0x1_0000
            && forall i | 0 <= i < |ws| :: bs[8 + 2 * i] == ws[i] % 0x1_0000 / 256 && bs[8 + 2 * i + 1] == ws[i] % 256
  {
    hide PacketBytes, WordSum;
    PacketRoundTrip(num, ws);
    var bs := PacketBytes(num, ws);
    WordBytes(bs, 0, 0xff, 0x7f);
    WordBytes(bs, 1, 0x00, 0x80);
    assert WordAt(bs, 2) == 2 * |ws| + 10 && WordAt(bs, 3) == num % HALF_SPAN;
    forall i | 0 <= i < |ws|
      ensures bs[8 + 2 * i] == ws[i] % 0x1_0000 / 256 && bs[8 + 2 * i + 1] == ws[i] % 256
    {
      SwapIs(ws[i]);
      assert WordAt(bs, HEADER + i) == Swapped(ws)[i] == Swap(ws[i]);
      WordBytes(bs, HEADER + i, ws[i] % 0x1_0000 / 256, ws[i] % 256);
    }
  }

  lemma WordBytes(bs: seq<byte>, i: nat, lo: byte, hi: byte)
    requires 2 * i + 1 < |bs| && WordAt(bs, i) == lo + 256 * hi
    ensures bs[2 * i] == lo && bs[2 * i + 1] == hi
  {
  }

  lemma SwapIs(w: word)
    ensures Swap(w) == w % 0x1_0000 / 256 + 256 * (w % 256)
  {
    hide Swap, RawVal;
    var d: word := w % HALF_SPAN;
    LowHalf(w);
    assert d == d % 256 + 256 * (d / 256);
    SwapBytes(d % 256, d / 256);
  }

  /** Only the low half of a word counts. */
  lemma LowHalf(w: word)
    ensures Swap(w) == Swap(w % HALF_SPAN) && w % HALF_SPAN % 256 == w % 256
  {
    hide Swap;
    var d: word := w % HALF_SPAN;
    assert d % HALF_SPAN == d;
    SameHalf(w, d);
    assert d == 256 * (d / 256) + d % 256;
    LowByte(w, 256 * (w / HALF_SPAN) + d / 256, d % 256);
  }

  lemma SameHalf(w: word, d: word)
    requires w % HALF_SPAN == d % HALF_SPAN
    ensures Swap(w) == Swap(d)
  {
  }

  lemma LowByte(w: nat, q: nat, r: nat)
    requires w == 256 * q + r && r < 256
    ensures w % 256 == r
  {
  }

  // ----- The running checksum of the program -----

  /** The sum of the header, sync words included, is what the program starts from: -1 + size + serial. */
  lemma HeaderSum(size: u16, serial: u16)
    ensures Sum([SYNC1, SYNC2, size, serial]) == (size + serial - 1) % HALF_SPAN
  {
    hide Sum;
    SumOfNone();
    SumAppend([], SYNC1);
    SumAppend([SYNC1], SYNC2);
    SumAppend([SYNC1, SYNC2], size);
    SumAppend([SYNC1, SYNC2, size], serial);
    assert [] + [SYNC1] == [SYNC1] && [SYNC1] + [SYNC2] == [SYNC1, SYNC2];
    assert [SYNC1, SYNC2] + [size] == [SYNC1, SYNC2, size];
    assert [SYNC1, SYNC2, size] + [serial] == [SYNC1, SYNC2, size, serial];
  }

  lemma SumOfNone()
    ensures Sum([]) == 0
  {
  }

  lemma SumAppend(ws: seq<u16>, w: u16)
    ensures Sum(ws + [w]) == (Sum(ws) + w) % HALF_SPAN
  {
    assert (ws + [w])[..|ws|] == ws;
  }

  /** Samples one by one. */
  lemma SwappedAppend(ws: seq<word>, x: nat)
    requires x < |ws|
    ensures Swapped(ws[..x + 1]) == Swapped(ws[..x]) + [Swap(ws[x])]
  {
  }

  /** Header and samples, as the program writes them out. */
  ghost function Open(size: u16, nm: u16, ws: seq<word>): seq<u16> { [SYNC1, SYNC2, size, nm] + Swapped(ws) }

  /** The header as eight bytes, and its sum. */
  lemma HeaderWords(size: u16, nm: u16, ws: seq<word>)
    ensures Encode(Open(size, nm, ws[..0])) ==
            [0xff, 0x7f, 0x00, 0x80, size % 256, size / 256, nm % 256, nm / 256]
    ensures Sum(Open(size, nm, ws[..0])) == (-1 + size + nm) % HALF_SPAN
  {
    hide Encode, Sum;
    assert Open(size, nm, ws[..0]) == [SYNC1, SYNC2, size, nm];
    HeaderSum(size, nm);
    EncodeHeader(size, nm);
  }

  lemma EncodeHeader(size: u16, nm: u16)
    ensures Encode([SYNC1, SYNC2, size, nm]) ==
            [0xff, 0x7f, 0x00, 0x80, size % 256, size / 256, nm % 256, nm / 256]
  {
    EncodeAppend([], SYNC1);
    EncodeAppend([SYNC1], SYNC2);
    EncodeAppend([SYNC1, SYNC2], size);
    EncodeAppend([SYNC1, SYNC2, size], nm);
    assert [] + [SYNC1] == [SYNC1] && [SYNC1] + [SYNC2] == [SYNC1, SYNC2];
    assert [SYNC1, SYNC2] + [size] == [SYNC1, SYNC2, size];
    assert [SYNC1, SYNC2, size] + [nm] == [SYNC1, SYNC2, size, nm];
  }

  /** One more sample, in the bytes and in the sum. */
  lemma NextWord(size: u16, nm: u16, ws: seq<word>, x: nat)
    requires x < |ws|
    ensures var v, done := Swap(ws[x]), Open(size, nm, ws[..x]); var next := Open(size, nm, ws[..x + 1]);
            Encode(next) == Encode(done) + [v % 256, v / 256] && Sum(next) == (Sum(done) + v) % HALF_SPAN
  {
    hide Encode, Sum;
    var v, done := Swap(ws[x]), Open(size, nm, ws[..x]);
    SwappedAppend(ws, x);
    assert Open(size, nm, ws[..x + 1]) == done + [v];
    EncodeAppend(done, v);
    SumAppend(done, v);
  }

  /** The checksum closes the packet. */
  lemma LastWord(num: nat, ws: seq<word>)
    requires |ws| <= MAX_SAMPS
    ensures var all := Open(PacketLen(|ws|), num % HALF_SPAN, ws);
            PacketBytes(num, ws) == Encode(all) + [Sum(all) % 256, Sum(all) / 256]
  {
    hide Encode, Sum;
    EncodeAppend(Body(num, ws), Sum(Body(num, ws)));
  }
}
