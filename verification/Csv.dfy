/** The text line of adc_stream_csv: an optional time stamp and one voltage for each sample, with commas. */
module Csv {
  import opened Words
  import opened Packet

  const NEWLINE := 10
  const COMMA := 44
  const DOT := 46
  const ZERO := 48

  // ----- Numbers -----

  /** %u */
  function Digits(n: nat): (r: seq<byte>)
    ensures |r| >= 1
  {
    if n < 10 then [ZERO + n] else Digits(n / 10) + [ZERO + n % 10]
  }

  function Pow10(k: nat): nat { if k == 0 then 1 else 10 * Pow10(k - 1) }

  lemma {:induction false} DigitsLength(n: nat, k: nat)
    requires k >= 1 && n < Pow10(k)
    ensures |Digits(n)| <= k
    decreases k
  {
    if n >= 10 {
      DigitsLength(n / 10, k - 1);
    }
  }

  // ----- Voltages in binary64 -----

  const TWO51 := 0x8_0000_0000_0000
  const TWO53 := 0x20_0000_0000_0000
  const TWO67 := 0x8_0000_0000_0000_0000

  // The literal 3.3 is this many units of 2^-51: 3.3 itself is 0.4 units more.
  const LITERAL := 7430939385161318

  /** Division rounded to the nearest, ties to even. */
  function RoundEven(a: nat, d: nat): nat
    requires d > 0
  {
    if 2 * (a % d) < d || (2 * (a % d) == d && a / d % 2 == 0) then a / d else a / d + 1
  }

  lemma NearEven(a: nat, d: nat)
    requires d > 0
    ensures 2 * (d * RoundEven(a, d) - a) <= d && 2 * (a - d * RoundEven(a, d)) <= d
  {
    assert a == d * (a / d) + a % d;
  }

  /** It is the only number that is at most half a unit away and even if it is exactly half a unit away. */
  lemma RoundEvenIs(a: nat, d: nat, r: nat)
    requires d > 0
    ensures r == RoundEven(a, d) <==>
              && 2 * (d * r - a) <= d && 2 * (a - d * r) <= d
              && (2 * (d * r - a) == d || 2 * (a - d * r) == d ==> r % 2 == 0)
  {
    hide RoundEven;
    var q := a / d;
    assert a == d * q + a % d;
    Multiples(d, r + 1, q);
    Multiples(d, q + 2, r);
    Multiples(d, q, r);
    Multiples(d, q + 1, r);
    RoundingIs(a, d, r, q, a % d, d * r);
  }

  lemma Multiples(d: nat, x: nat, y: nat)
    ensures d * (x + 1) == d * x + d
    ensures x <= y ==> d * x <= d * y
  {
  }

  lemma RoundingIs(a: nat, d: nat, r: nat, q: nat, x: nat, p: nat)
    requires d > 0 && x < d && q == a / d && x == a % d && p == d * r
    requires r < q ==> p + d + x <= a
    requires r == q ==> p + x == a
    requires r == q + 1 ==> p == a - x + d
    requires r > q + 1 ==> p >= a - x + 2 * d
    ensures r == RoundEven(a, d) <==>
              2 * (p - a) <= d && 2 * (a - p) <= d && (2 * (p - a) == d || 2 * (a - p) == d ==> r % 2 == 0)
  {
  }

  /** The unit in the last of 53 significant bits. */
  function Ulp(p: nat): (u: nat)
    ensures u >= 1
  {
    if p < TWO53 then 1 else 2 * Ulp(p / 2)
  }

  function Pow2(k: nat): nat { if k == 0 then 1 else 2 * Pow2(k - 1) }

  /** It is the power of two that leaves at most 53 bits, and exactly 53 if the number has more. */
  lemma {:induction false} UlpIs(p: nat) returns (k: nat)
    ensures Ulp(p) == Pow2(k) && p < 0x20_0000_0000_0000 * Pow2(k)
    ensures k > 0 ==> p >= 0x10_0000_0000_0000 * Pow2(k)
    decreases p
  {
    if p < TWO53 {
      k := 0;
    } else {
      var j := UlpIs(p / 2);
      k := j + 1;
      assert Pow2(k) == 2 * Pow2(j);
      if j == 0 { assert Pow2(0) == 1; }
    }
  }

  /** The literal is the multiple of 2^-51 that is nearest to 3.3. */
  lemma LiteralIs()
    ensures LITERAL == RoundEven(33 * 0x8_0000_0000_0000, 10) && 0x10_0000_0000_0000 <= LITERAL < 0x20_0000_0000_0000
  {
  }

  lemma {:induction false} UlpBelow(p: nat, k: nat)
    requires p < TWO53 * Pow2(k)
    ensures Ulp(p) <= Pow2(k)
    decreases k
  {
    if p >= TWO53 {
      UlpBelow(p / 2, k - 1);
    } else {
      PowPositive(k);
    }
  }

  lemma {:induction false} PowPositive(k: nat)
    ensures Pow2(k) >= 1
    decreases k
  {
    if k > 0 {
      PowPositive(k - 1);
    }
  }

  /** n * 3.3 in units of 2^-51, as a binary64 product. */
  function Times33(n: nat): nat {
    var p := n * LITERAL;
    Ulp(p) * RoundEven(p, Ulp(p))
  }

  /** ADC_VOLTAGE in millivolts, as %4.3f prints the binary64 value: the division by 65536 is exact. */
  function Volts(n: nat): nat { RoundEven(1000 * Times33(n), TWO67) }

  lemma Pow24()
    ensures Pow2(13) == 8192 && Pow2(24) == 0x100_0000
  {
    assert Pow2(3) == 2 * Pow2(2) == 8;
    assert Pow2(6) == 2 * Pow2(5) == 4 * Pow2(4) == 64;
    assert Pow2(9) == 2 * Pow2(8) == 4 * Pow2(7) == 512;
    assert Pow2(12) == 2 * Pow2(11) == 4 * Pow2(10) == 4096;
    assert Pow2(15) == 2 * Pow2(14) == 4 * Pow2(13) == 32768;
    assert Pow2(18) == 2 * Pow2(17) == 4 * Pow2(16) == 262144;
    assert Pow2(21) == 2 * Pow2(20) == 4 * Pow2(19) == 2097152;
    assert Pow2(24) == 2 * Pow2(23) == 4 * Pow2(22) == 16777216;
  }

  /** The error of the product is below 2^23 units. */
  lemma ProductNear(n: nat)
    requires n < 0x100_0000
    ensures -0x80_0000 <= Times33(n) - n * LITERAL <= 0x80_0000
  {
    hide Ulp, RoundEven;
    var p := n * LITERAL;
    Pow24();
    UlpBelow(p, 24);
    NearEven(p, Ulp(p));
  }

  /** What is printed is within half a millivolt of 3.3 n / 65536, so it is the nearest but for the choice at a
      tie. */
  lemma VoltsNear(n: nat)
    requires n < 0x100_0000
    ensures -32768 <= 65536 * Volts(n) - 3300 * n <= 32768
  {
    hide Times33, RoundEven;
    ProductNear(n);
    NearEven(1000 * Times33(n), TWO67);
    assert TWO67 == 65536 * TWO51 && 1000 * LITERAL == 3300 * TWO51 - 400;
    Scaled(n, Times33(n), Volts(n));
  }

  lemma Scaled(n: nat, p: nat, v: nat)
    requires n < 0x100_0000 && -0x80_0000 <= p - n * LITERAL <= 0x80_0000
    requires -TWO67 <= 2 * (TWO67 * v - 1000 * p) <= TWO67
    ensures -32768 <= 65536 * v - 3300 * n <= 32768
  {
  }

  /** Away from ties, which are the values 8192 modulo 16384, the nearest millivolt is printed. */
  lemma VoltsNearest(n: nat)
    requires n < 0x100_0000 && n % 16384 != 8192
    ensures Volts(n) == (3300 * n + 32768) / 65536
  {
    hide Volts;
    VoltsNear(n);
    NoTie(n);
    Nearest(3300 * n, Volts(n));
  }

  lemma Nearest(a: nat, v: nat)
    requires a % 65536 != 32768 && -32768 <= 65536 * v - a <= 32768
    ensures v == (a + 32768) / 65536
  {
    assert a == 65536 * (a / 65536) + a % 65536;
  }

  lemma NoTie(n: nat)
    requires n % 16384 != 8192
    ensures (3300 * n) % 65536 != 32768
  {
    var q, r := n / 16384, n % 16384;
    assert 3300 * n == 65536 * (825 * q) + 3300 * r;
    DropMultiple(825 * q, 3300 * r);
    TieOdd(r);
  }

  lemma DropMultiple(k: nat, r: nat)
    ensures (65536 * k + r) % 65536 == r % 65536
  {
  }

  lemma TieOdd(r: nat)
    requires r < 16384
    ensures (3300 * r) % 65536 == 32768 ==> r == 8192
  {
    if (3300 * r) % 65536 == 32768 {
      var k := (3300 * r) / 65536;
      assert 825 * r == 16384 * k + 8192;
    }
  }

  /** At a tie binary64 decides: the value 8192, 0.4125 V, prints as 0.412. */
  lemma TieDown()
    ensures Volts(8192) == 412
  {
    hide Ulp;
    Pow24();
    UlpOfPower(13);
    assert 8192 * LITERAL / 8192 == LITERAL && 8192 * LITERAL % 8192 == 0;
  }

  /** In binary64 the ties are decided by the error of the product, and by the even digit where there is none. */
  lemma Ties()
    ensures Volts(24576) == 1237 && Volts(40960) == 2062 && Volts(122880) == 6188
  {
    hide Volts;
    Pow24();
    assert Pow2(15) == 4 * Pow2(13) && Pow2(16) == 8 * Pow2(13) && Pow2(17) == 16 * Pow2(13);
    VoltsAre(24576, 15, 5573204538870988, 1237);
    VoltsAre(40960, 16, 4644337115725824, 2062);
    VoltsAre(122880, 17, 6966505673588736, 6188);
  }

  /** The printed value from the two roundings, the first to r units of 2^k. */
  lemma VoltsAre(n: nat, k: nat, r: nat, v: nat)
    requires var p := n * LITERAL; p < TWO53 * Pow2(k) && (k > 0 ==> 2 * p >= TWO53 * Pow2(k))
    requires var p, u := n * LITERAL, Pow2(k);
             && 2 * (u * r - p) <= u && 2 * (p - u * r) <= u
             && (2 * (u * r - p) == u || 2 * (p - u * r) == u ==> r % 2 == 0)
    requires var t := 1000 * (Pow2(k) * r);
             && 2 * (TWO67 * v - t) <= TWO67 && 2 * (t - TWO67 * v) <= TWO67
             && (2 * (TWO67 * v - t) == TWO67 || 2 * (t - TWO67 * v) == TWO67 ==> v % 2 == 0)
    ensures Volts(n) == v
  {
    hide Ulp, RoundEven, Pow2;
    UlpBetween(n * LITERAL, k);
    RoundEvenIs(n * LITERAL, Pow2(k), r);
    RoundEvenIs(1000 * Times33(n), TWO67, v);
  }

  lemma {:induction false} UlpBetween(p: nat, k: nat)
    requires p < TWO53 * Pow2(k) && (k > 0 ==> 2 * p >= TWO53 * Pow2(k))
    ensures Ulp(p) == Pow2(k)
    decreases k
  {
    if k > 0 {
      PowPositive(k - 1);
      UlpBetween(p / 2, k - 1);
    }
  }

  lemma {:induction false} UlpOfPower(k: nat)
    ensures Ulp(Pow2(k) * LITERAL) == Pow2(k)
    decreases k
  {
    PowPositive(k);
    if k > 0 {
      UlpOfPower(k - 1);
      PowPositive(k - 1);
      assert Pow2(k) * LITERAL == 2 * (Pow2(k - 1) * LITERAL);
    }
  }

  function Millivolts(w: word): nat { Volts(RawVal(w)) }

  lemma RawBelow(w: word)
    ensures 0 <= RawVal(w) < 0x100_0000
  {
  }

  // ----- Fields -----

  /** %4.3f: the width 4 is always reached. */
  function Field(w: word): seq<byte> {
    var m := Millivolts(w) % 1000;
    Digits(Millivolts(w) / 1000) + [DOT, ZERO + m / 100, ZERO + m % 100 / 10, ZERO + m % 10]
  }

  /** A field is at most seven characters, because the value that is not truncated stays below 2^24. */
  lemma FieldLength(w: word)
    ensures 5 <= |Field(w)| <= 7
  {
    hide Volts;
    RawBelow(w);
    VoltsNear(RawVal(w));
    assert Millivolts(w) / 1000 < 1000;
    assert Pow10(3) == 10 * Pow10(2) == 1000;
    DigitsLength(Millivolts(w) / 1000, 3);
  }

  lemma StampLength(usec: word)
    ensures |Digits(usec)| <= 10
  {
    assert Pow10(3) == 10 * Pow10(2) == 1000;
    assert Pow10(6) == 10 * Pow10(5) == 100 * Pow10(4) == 1000 * Pow10(3);
    assert Pow10(10) == 10 * Pow10(9) == 100 * Pow10(8) == 1000 * Pow10(7);
    DigitsLength(usec, 10);
  }

  /** Reads a decimal number back. */
  function Value(bs: seq<byte>): int {
    if bs == [] then 0 else 10 * Value(bs[..|bs| - 1]) + bs[|bs| - 1] - '0' as int
  }

  lemma ValueOfNone()
    ensures Value([]) == 0
  {
  }

  lemma ValueAppend(bs: seq<byte>, c: byte)
    ensures Value(bs + [c]) == 10 * Value(bs) + c - '0' as int
  {
    assert (bs + [c])[..|bs|] == bs;
  }

  lemma {:induction false} DigitsValue(n: nat)
    ensures Value(Digits(n)) == n
    decreases n
  {
    hide Value;
    if n < 10 {
      ValueOfNone();
      ValueAppend([], ZERO + n);
      assert [] + [ZERO + n] == Digits(n);
    } else {
      assert n == 10 * (n / 10) + n % 10;
      DigitsValue(n / 10);
      ValueAppend(Digits(n / 10), ZERO + n % 10);
    }
  }

  /** Decimal digits, and no zero in front of another digit. */
  ghost predicate Decimal(bs: seq<byte>) {
    && bs != [] && (|bs| > 1 ==> bs[0] != '0' as int) && forall i | 0 <= i < |bs| :: '0' as int <= bs[i] <= '9' as int
  }

  lemma {:induction false} DigitsDecimal(n: nat)
    ensures Decimal(Digits(n)) && (n > 0 ==> Digits(n)[0] != '0' as int)
    decreases n
  {
    if n >= 10 {
      DigitsDecimal(n / 10);
    }
  }

  /** A voltage as a reader takes it apart: whole volts, one decimal point, and three digits of millivolts. */
  ghost predicate ReadsAs(field: seq<byte>, millivolts: nat) {
    var parts := Split(field, '.' as int);
    && |parts| == 2 && Decimal(parts[0]) && |parts[1]| == 3
    && Value(parts[0]) == millivolts / 1000 && Value(parts[1]) == millivolts % 1000
  }

  /** Three digits. */
  lemma ThreeDigits(m: nat)
    requires m < 1000
    ensures Value([ZERO + m / 100, ZERO + m % 100 / 10, ZERO + m % 10]) == m
  {
    hide Value;
    var a, b, c := m / 100, m % 100 / 10, m % 100 % 10;
    assert m == 10 * (10 * a + b) + c;
    LastDigit(m, 10 * a + b, c);
    ThreeValues(ZERO + a, ZERO + b, ZERO + c);
  }

  lemma LastDigit(m: nat, q: nat, r: nat)
    requires m == 10 * q + r && r < 10
    ensures m % 10 == r
  {
  }

  lemma ThreeValues(a: byte, b: byte, c: byte)
    ensures Value([a, b, c]) == 100 * (a - ZERO) + 10 * (b - ZERO) + (c - ZERO)
  {
    hide Value;
    ValueOfNone();
    ValueAppend([], a);
    ValueAppend([a], b);
    ValueAppend([a, b], c);
    assert [] + [a] == [a] && [a] + [b] == [a, b] && [a, b] + [c] == [a, b, c];
  }

  lemma {:induction false} NoDot(n: nat)
    ensures DOT !in Digits(n) && Plain(Digits(n))
    decreases n
  {
    if n >= 10 {
      NoDot(n / 10);
    }
  }

  /** A field has exactly one decimal point, three places before its end, and the numbers on its two sides are the
      volts and the millivolts of its sample. */
  lemma FieldValue(w: word)
    ensures var parts := Split(Field(w), '.' as int);
            && |parts| == 2 && Decimal(parts[0]) && |parts[1]| == 3
            && Value(parts[0]) == Millivolts(w) / 1000 && Value(parts[1]) == Millivolts(w) % 1000
  {
    hide Digits, Millivolts, Value, Split, Decimal;
    var m, r := Millivolts(w) / 1000, Millivolts(w) % 1000;
    var f := [ZERO + r / 100, ZERO + r % 100 / 10, ZERO + r % 10];
    DigitsValue(m);
    DigitsDecimal(m);
    ThreeDigits(r);
    NoDot(m);
    SplitOnce(Digits(m), f, DOT);
    assert Field(w) == Digits(m) + [DOT] + f;
  }

  // ----- Lines -----

  ghost predicate Plain(bs: seq<byte>) { bs != [] && COMMA !in bs && NEWLINE !in bs }

  lemma FieldPlain(w: word)
    ensures Plain(Field(w))
  {
    hide Digits;
    NoDot(Millivolts(w) / 1000);
  }

  function Join(items: seq<seq<byte>>): seq<byte> {
    if items == [] then []
    else if |items| == 1 then items[0]
    else Join(items[..|items| - 1]) + [COMMA] + items[|items| - 1]
  }

  lemma JoinAppend(items: seq<seq<byte>>, item: seq<byte>)
    ensures Join(items + [item]) == (if items == [] then [] else Join(items) + [COMMA]) + item
  {
    assert (items + [item])[..|items|] == items;
  }

  /** The fields of a block, after an optional time stamp. */
  function Items(stamp: seq<word>, ws: seq<word>): (r: seq<seq<byte>>)
    requires |stamp| <= 1
    ensures |r| == |stamp| + |ws|
  {
    (if stamp == [] then [] else [Digits(stamp[0])]) + seq(|ws|, i requires 0 <= i < |ws| => Field(ws[i]))
  }

  lemma ItemsAppend(stamp: seq<word>, ws: seq<word>, x: nat)
    requires |stamp| <= 1 && x < |ws|
    ensures Items(stamp, ws[..x + 1]) == Items(stamp, ws[..x]) + [Field(ws[x])]
  {
    assert ws[..x + 1] == ws[..x] + [ws[x]];
  }

  /** The line without its newline stays within 10 + 8 i characters after i samples. */
  lemma {:induction false} JoinLength(stamp: seq<word>, ws: seq<word>, i: nat)
    requires |stamp| <= 1 && i <= |ws|
    ensures |Join(Items(stamp, ws[..i]))| <= 10 + 8 * i
    ensures |Join(Items(stamp, ws[..i]))| > 0 <==> |stamp| + i > 0
    decreases i
  {
    hide Digits, Field;
    if i == 0 {
      assert ws[..0] == [];
      if stamp != [] {
        StampLength(stamp[0]);
        assert Items(stamp, []) == [Digits(stamp[0])];
      }
    } else {
      JoinLength(stamp, ws, i - 1);
      ItemsAppend(stamp, ws, i - 1);
      JoinAppend(Items(stamp, ws[..i - 1]), Field(ws[i - 1]));
      FieldLength(ws[i - 1]);
    }
  }

  lemma NoItems()
    ensures Join(Items([], [])) == []
  {
  }

  /** The line before the first sample. */
  lemma StartLine(stamp: seq<word>, ws: seq<word>)
    requires |stamp| <= 1
    ensures ws[..0] == [] && |Items(stamp, ws[..0])| == |stamp|
    ensures Join(Items(stamp, ws[..0])) == if stamp == [] then [] else Digits(stamp[0])
    ensures |Join(Items(stamp, ws[..0]))| <= 10
  {
    hide Digits;
    JoinLength(stamp, ws, 0);
    if stamp != [] {
      assert Items(stamp, ws[..0]) == [Digits(stamp[0])];
    }
  }

  /** One more field: at most eight characters with its comma. */
  lemma NextField(stamp: seq<word>, ws: seq<word>, i: nat)
    requires |stamp| <= 1 && i < |ws|
    ensures var done := Join(Items(stamp, ws[..i]));
            Join(Items(stamp, ws[..i + 1])) == done + ((if |done| > 0 then [COMMA] else []) + Field(ws[i]))
    ensures 5 <= |Field(ws[i])| <= 7
    ensures |Join(Items(stamp, ws[..i + 1]))| <= 10 + 8 * (i + 1)
  {
    hide Field, Digits, Join;
    JoinLength(stamp, ws, i);
    JoinLength(stamp, ws, i + 1);
    ItemsAppend(stamp, ws, i);
    JoinAppend(Items(stamp, ws[..i]), Field(ws[i]));
    FieldLength(ws[i]);
    if |stamp| + i == 0 {
      assert ws[..0] == [];
      NoItems();
    }
  }

  function Line(stamp: seq<word>, ws: seq<word>): seq<byte>
    requires |stamp| <= 1
  {
    Join(Items(stamp, ws)) + [NEWLINE]
  }

  // ----- The reader -----

  /** Splits at every separator. */
  function Split(bs: seq<byte>, sep: byte): (r: seq<seq<byte>>)
    ensures |r| >= 1
  {
    if bs == [] then [[]]
    else
      var front := Split(bs[..|bs| - 1], sep);
      if bs[|bs| - 1] == sep then front + [[]]
      else front[..|front| - 1] + [front[|front| - 1] + [bs[|bs| - 1]]]
  }

  lemma {:induction false} SplitPlain(bs: seq<byte>, sep: byte)
    requires sep !in bs
    ensures Split(bs, sep) == [bs]
    decreases |bs|
  {
    if bs != [] {
      SplitPlain(bs[..|bs| - 1], sep);
      assert bs == bs[..|bs| - 1] + [bs[|bs| - 1]];
    }
  }

  lemma {:induction false} SplitNext(bs: seq<byte>, item: seq<byte>, sep: byte)
    requires sep !in item
    ensures Split(bs + [sep] + item, sep) == Split(bs, sep) + [item]
    decreases |item|
  {
    var whole := bs + [sep] + item;
    if item == [] {
      assert whole[..|whole| - 1] == bs && whole[|whole| - 1] == sep;
    } else {
      var front, last := item[..|item| - 1], item[|item| - 1];
      SplitNext(bs, front, sep);
      assert whole[..|whole| - 1] == bs + [sep] + front && whole[|whole| - 1] == last;
      assert last in item && item == front + [last];
    }
  }

  lemma SplitOnce(bs: seq<byte>, item: seq<byte>, sep: byte)
    requires sep !in bs && sep !in item
    ensures Split(bs + [sep] + item, sep) == [bs, item]
  {
    SplitPlain(bs, sep);
    SplitNext(bs, item, sep);
  }

  lemma {:induction false} SplitJoin(items: seq<seq<byte>>)
    requires items != [] && forall i | 0 <= i < |items| :: Plain(items[i])
    ensures Split(Join(items), ',' as int) == items
    decreases |items|
  {
    if |items| == 1 {
      SplitPlain(items[0], COMMA);
    } else {
      var front, last := items[..|items| - 1], items[|items| - 1];
      SplitJoin(front);
      SplitNext(Join(front), last, COMMA);
      assert items == front + [last];
    }
  }

  /** Round trip: splitting the line at its commas gives exactly the time stamp, if asked for, and one field a
      sample, and each field reads as the volts and millivolts of its sample. */
  lemma LineRoundTrip(stamp: seq<word>, ws: seq<word>)
    requires |stamp| <= 1 && |stamp| + |ws| > 0
    ensures var line := Line(stamp, ws);
            && |line| > 0 && line[|line| - 1] == '\n' as int && '\n' as int !in line[..|line| - 1]
            && var fields := Split(line[..|line| - 1], ',' as int);
            && |fields| == |stamp| + |ws|
            && (forall i | 0 <= i < |stamp| :: Decimal(fields[i]) && Value(fields[i]) == stamp[i])
            && (forall i | 0 <= i < |ws| :: ReadsAs(fields[|stamp| + i], Millivolts(ws[i])))
  {
    hide Digits, Field, Value, Split, Join, Millivolts, Decimal;
    var items := Items(stamp, ws);
    forall i | 0 <= i < |items|
      ensures Plain(items[i])
    {
      if i < |stamp| { NoDot(stamp[i]); } else { FieldPlain(ws[i - |stamp|]); }
    }
    SplitJoin(items);
    JoinPlain(items);
    assert Line(stamp, ws)[..|Line(stamp, ws)| - 1] == Join(items);
    forall i | 0 <= i < |stamp|
      ensures Decimal(items[i]) && Value(items[i]) == stamp[i]
    {
      DigitsValue(stamp[i]);
      DigitsDecimal(stamp[i]);
    }
    forall i | 0 <= i < |ws|
      ensures ReadsAs(items[|stamp| + i], Millivolts(ws[i]))
    {
      FieldValue(ws[i]);
    }
  }

  lemma {:induction false} JoinPlain(items: seq<seq<byte>>)
    requires forall i | 0 <= i < |items| :: Plain(items[i])
    ensures NEWLINE !in Join(items)
    decreases |items|
  {
    if |items| > 1 {
      JoinPlain(items[..|items| - 1]);
    }
  }

  /** The characters of a string. */
  function Ascii(s: string): seq<int> { seq(|s|, i requires 0 <= i < |s| => s[i] as int) }

  /** A line in full, character by character. */
  lemma ShortLine()
    ensures Line([70], [0, 32, 256]) == Ascii("70,0.000,0.412,3.300\n")
  {
    hide Field, Digits, Join, Line, Ascii;
    SomeFields();
    ThreeFields(70, 0, 32, 256);
    LineText();
  }

  lemma LineText()
    ensures Ascii("70,0.000,0.412,3.300\n") ==
            [55, 48] + [44] + [48, 46, 48, 48, 48] + [44] + [48, 46, 52, 49, 50] + [44] + [51, 46, 51, 48, 48] + [10]
  {
    assert Ascii("70,0.000,0.412,3.300\n") ==
           [55, 48, 44, 48, 46, 48, 48, 48, 44, 48, 46, 52, 49, 50, 44, 51, 46, 51, 48, 48, 10];
  }

  lemma ThreeFields(t: word, u: word, v: word, w: word)
    ensures Line([t], [u, v, w]) ==
            Digits(t) + [COMMA] + Field(u) + [COMMA] + Field(v) + [COMMA] + Field(w) + [NEWLINE]
  {
    hide Field, Digits, Join;
    var d, f, g, h := Digits(t), Field(u), Field(v), Field(w);
    JoinAppend([], d);
    JoinAppend([d], f);
    JoinAppend([d, f], g);
    JoinAppend([d, f, g], h);
    assert [] + [d] == [d] && [d] + [f] == [d, f] && [d, f] + [g] == [d, f, g] && [d, f, g] + [h] == [d, f, g, h];
    assert Items([t], [u, v, w]) == [d, f, g, h];
  }

  lemma SomeFields()
    ensures Field(0) == [48, 46, 48, 48, 48] && Field(32) == [48, 46, 52, 49, 50] && Field(256) == [51, 46, 51, 48, 48]
    ensures Digits(70) == [55, 48]
  {
    hide Volts;
    TieDown();
    VoltsNearest(0);
    VoltsNearest(65537);
    assert Digits(7) == [55];
  }

  /** The voltage is that of the sample only when the low byte, received second, is zero: otherwise it is too
      high by 3.3 V for each unit of that byte, give or take the last digit at a tie. */
  lemma VoltageOfSample(hi: byte, lo: byte)
    ensures var m, right := Millivolts(hi + 256 * lo), Volts(Swap(hi + 256 * lo));
            && (m == right <==> lo == 0)
            && right + 3300 * lo - 1 <= m <= right + 3300 * lo + 1
            && (Swap(hi + 256 * lo) % 16384 != 8192 ==> m == right + 3300 * lo)
  {
    hide Volts, Swap, RawVal;
    var w := hi + 256 * lo;
    SwapBytes(hi, lo);
    RawBelow(w);
    VoltsNear(RawVal(w));
    VoltsNear(Swap(w));
    if Swap(w) % 16384 != 8192 {
      SameTie(RawVal(w), Swap(w), lo);
      VoltsNearest(RawVal(w));
      VoltsNearest(Swap(w));
    }
  }

  lemma SameTie(n: nat, s: nat, lo: nat)
    requires n == s + HALF_SPAN * lo
    ensures n % 16384 == s % 16384 && (3300 * n + 32768) / 65536 == (3300 * s + 32768) / 65536 + 3300 * lo
  {
    assert n == s + 16384 * (4 * lo);
  }
}
