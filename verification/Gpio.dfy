/** The packed GPIO function-select registers, ten 3-bit fields in each 32-bit register. The streamer sets them
    with gpio_mode, the kernel module with the macros INP_GPIO, OUT_GPIO and SET_GPIO_ALT. A register is its 32
    bits, lowest first. */
module Gpio {
  type Bits = x: seq<bool> | |x| == 32 witness seq(32, i => false)

  // ----- The operators of C on 32-bit words -----

  function Not(x: Bits): Bits { seq(32, i requires 0 <= i < 32 => !x[i]) }

  function And(x: Bits, y: Bits): Bits { seq(32, i requires 0 <= i < 32 => x[i] && y[i]) }

  function Or(x: Bits, y: Bits): Bits { seq(32, i requires 0 <= i < 32 => x[i] || y[i]) }

  function Shl(x: Bits, s: nat): Bits { seq(32, i requires 0 <= i < 32 => i >= s && x[i - s]) }

  /** A number below 8. */
  function Small(n: nat): Bits {
    seq(32, i requires 0 <= i < 32 =>
      if i == 0 then n % 2 == 1 else if i == 1 then n / 2 % 2 == 1 else i == 2 && n / 4 % 2 == 1)
  }

  /** The number that three bits are. */
  function Three(x: seq<bool>): nat
    requires |x| == 3
  {
    (if x[0] then 1 else 0) + (if x[1] then 2 else 0) + (if x[2] then 4 else 0)
  }

  // ----- Fields -----

  /** The function of a pin in a register file. */
  function Mode(regs: seq<Bits>, pin: nat): nat
    requires pin < 10 * |regs|
  {
    Three(regs[pin / 10][pin % 10 * 3..pin % 10 * 3 + 3])
  }

  /** (reg & ~(7 << shift)) | (mode << shift) */
  function Insert(reg: Bits, s: nat, mode: nat): Bits { Or(Clear(reg, s), Shl(Small(mode), s)) }

  /** reg & ~(7 << shift) */
  function Clear(reg: Bits, s: nat): Bits { And(reg, Not(Shl(Small(7), s))) }

  function SetMode(regs: seq<Bits>, pin: nat, mode: nat): (r: seq<Bits>)
    requires pin < 10 * |regs|
    ensures |r| == |regs|
  {
    regs[pin / 10 := Insert(regs[pin / 10], pin % 10 * 3, mode)]
  }

  /** INP_GPIO clears the field. */
  function Inp(regs: seq<Bits>, pin: nat): (r: seq<Bits>)
    requires pin < 10 * |regs|
    ensures |r| == |regs|
  {
    regs[pin / 10 := Clear(regs[pin / 10], pin % 10 * 3)]
  }

  /** OUT_GPIO and SET_GPIO_ALT add the bits of a code to the field. */
  function Add(regs: seq<Bits>, pin: nat, code: nat): (r: seq<Bits>)
    requires pin < 10 * |regs|
    ensures |r| == |regs|
  {
    regs[pin / 10 := Or(regs[pin / 10], Shl(Small(code), pin % 10 * 3))]
  }

  const GPIO_IN := 0
  const GPIO_OUT := 1

  /** The mode codes GPIO_ALT0 to GPIO_ALT5 of the streamer. */
  function AltMode(a: nat): nat
    requires a <= 5
  {
    match a case 0 => 4 case 1 => 5 case 2 => 6 case 3 => 7 case 4 => 3 case 5 => 2
  }

  /** The named pin has function `mode`, every other pin its old function, and the two bits above the fields of
      each register are as before. */
  ghost predicate Sets(before: seq<Bits>, after: seq<Bits>, pin: nat, mode: nat) {
    && |after| == |before|
    && (forall p: nat | p < 10 * |before| :: Mode(after, p) == if p == pin then mode else Mode(before, p))
    && forall r | 0 <= r < |before| :: after[r][30..] == before[r][30..]
  }

  /** The bits of two functions together. */
  function Union(f: nat, g: nat): nat {
    Three([f % 2 == 1 || g % 2 == 1, f / 2 % 2 == 1 || g / 2 % 2 == 1, f / 4 % 2 == 1 || g / 4 % 2 == 1])
  }

  /** The registers, as both programs write them. */
  class Registers {
    const regs: array<Bits>

    constructor (n: nat)
      ensures regs.Length == n && fresh(regs)
    {
      regs := new Bits[n];
    }

    method GpioMode(pin: nat, mode: nat)
      requires pin < 10 * regs.Length && mode < 8
      modifies regs
      ensures Sets(old(regs[..]), regs[..], pin, mode)
    {
      hide Or, And, Not, Shl, Small, Sets;
      var reg, shift := pin / 10, pin % 10 * 3;
      regs[reg] := Or(And(regs[reg], Not(Shl(Small(7), shift))), Shl(Small(mode), shift));
      SetModeSets(old(regs[..]), pin, mode);
    }

    method InpGpio(g: nat)
      requires g < 10 * regs.Length
      modifies regs
      ensures Sets(old(regs[..]), regs[..], g, GPIO_IN)
    {
      hide Or, And, Not, Shl, Small, Sets;
      regs[g / 10] := And(regs[g / 10], Not(Shl(Small(7), g % 10 * 3)));
      MacrosAreGpioMode(old(regs[..]), g, 0);
      SetModeSets(old(regs[..]), g, GPIO_IN);
    }

    /** The output bit is added to the function that the pin had. */
    method OutGpio(g: nat)
      requires g < 10 * regs.Length
      modifies regs
      ensures Sets(old(regs[..]), regs[..], g, old(Mode(regs[..], g) + 1 - Mode(regs[..], g) % 2))
    {
      hide Or, And, Not, Shl, Small, Sets;
      regs[g / 10] := Or(regs[g / 10], Shl(Small(1), g % 10 * 3));
      AddSets(old(regs[..]), g, GPIO_OUT);
      UnionOut(old(regs[..]), g);
    }

    /** The bits of the alternate function are added to the function that the pin had. */
    method SetGpioAlt(g: nat, a: nat)
      requires g < 10 * regs.Length && a <= 5
      modifies regs
      ensures Sets(old(regs[..]), regs[..], g, Union(old(Mode(regs[..], g)), [4, 5, 6, 7, 3, 2][a]))
    {
      hide Or, And, Not, Shl, Small, Sets;
      var code := if a <= 3 then a + 4 else if a == 4 then 3 else 2;
      regs[g / 10] := Or(regs[g / 10], Shl(Small(code), g % 10 * 3));
      AddSets(old(regs[..]), g, AltMode(a));
    }
  }

  // ----- The number that a register is -----

  function Number(bits: seq<bool>): nat {
    if bits == [] then 0 else (if bits[0] then 1 else 0) + 2 * Number(bits[1..])
  }

  function Power8(k: nat): (r: nat)
    ensures r > 0
  {
    if k == 0 then 1 else 8 * Power8(k - 1)
  }

  /** The function of a pin is the octal digit of its register that its last decimal digit names. */
  lemma ModeIsDigit(regs: seq<Bits>, pin: nat)
    requires pin < 10 * |regs|
    ensures Mode(regs, pin) == Number(regs[pin / 10]) / Power8(pin % 10) % 8
  {
    DigitOf(regs[pin / 10], pin % 10);
  }

  lemma {:induction false} DigitOf(bits: seq<bool>, k: nat)
    requires 3 * k + 3 <= |bits|
    ensures Number(bits) / Power8(k) % 8 == Three(bits[3 * k..3 * k + 3])
    decreases k
  {
    hide Number, Three;
    ThreeLow(bits);
    if k > 0 {
      DigitOf(bits[3..], k - 1);
      assert bits[3..][3 * (k - 1)..3 * (k - 1) + 3] == bits[3 * k..3 * k + 3];
      DivideTwice(Number(bits), Number(bits[3..]), Three(bits[..3]), Power8(k - 1));
    }
  }

  lemma ThreeLow(bits: seq<bool>)
    requires |bits| >= 3
    ensures Number(bits) == 8 * Number(bits[3..]) + Three(bits[..3]) && Three(bits[..3]) < 8
  {
    assert bits[1..][1..] == bits[2..] && bits[2..][1..] == bits[3..];
    assert Number(bits[1..]) == (if bits[1] then 1 else 0) + 2 * Number(bits[2..]);
    assert Number(bits[2..]) == (if bits[2] then 1 else 0) + 2 * Number(bits[3..]);
  }

  lemma DivideTwice(n: nat, m: nat, r: nat, d: nat)
    requires n == 8 * m + r && r < 8 && d > 0
    ensures n / (8 * d) == m / d
  {
    assert m == d * (m / d) + m % d;
    Quotients(n, 8 * d, m / d, 8 * (m % d) + r);
  }

  lemma Quotients(n: nat, d: nat, q: nat, r: nat)
    requires d > 0 && n == d * q + r && r < d
    ensures n / d == q
  {
    assert n == d * (n / d) + n % d;
    if n / d < q { Apart(d, n / d, q); }
    if n / d > q { Apart(d, q, n / d); }
  }

  lemma Apart(d: nat, x: nat, y: nat)
    requires x < y
    ensures d * y >= d * x + d
  {
    assert d * (x + 1) == d * x + d;
    assert d * (x + 1) <= d * y;
  }

  // ----- One register -----

  /** Bit i after an insertion: of the mode inside the field, unchanged outside. */
  lemma InsertBits(reg: Bits, s: nat, mode: nat, i: nat)
    requires s <= 27 && mode < 8 && i < 32
    ensures Insert(reg, s, mode)[i] == if s <= i < s + 3 then Small(mode)[i - s] else reg[i]
  {
  }

  lemma SmallThree(mode: nat)
    requires mode < 8
    ensures Three([Small(mode)[0], Small(mode)[1], Small(mode)[2]]) == mode
  {
  }

  lemma ThreeBits(x: Bits, t: nat)
    requires t <= 27
    ensures x[t..t + 3] == [x[t], x[t + 1], x[t + 2]]
  {
  }

  /** gpio_mode sets the named pin, changes no other pin, and keeps the two bits above the fields. */
  lemma SetModeExact(regs: seq<Bits>, pin: nat, mode: nat, other: nat)
    requires pin < 10 * |regs| && other < 10 * |regs| && mode < 8
    ensures Mode(SetMode(regs, pin, mode), other) == if other == pin then mode else Mode(regs, other)
    ensures SetMode(regs, pin, mode)[other / 10][30..] == regs[other / 10][30..]
  {
    hide Insert, Small, Three;
    var s, t := pin % 10 * 3, other % 10 * 3;
    var r := regs[pin / 10];
    forall i: nat | i < 32
      ensures Insert(r, s, mode)[i] == if s <= i < s + 3 then Small(mode)[i - s] else r[i]
    {
      InsertBits(r, s, mode, i);
    }
    var after := SetMode(regs, pin, mode)[other / 10];
    ThreeBits(after, t);
    if other == pin {
      assert after[t] == Small(mode)[0] && after[t + 1] == Small(mode)[1] && after[t + 2] == Small(mode)[2];
      SmallThree(mode);
    } else if other / 10 == pin / 10 {
      assert t + 3 <= s || s + 3 <= t;
      assert after[t] == r[t] && after[t + 1] == r[t + 1] && after[t + 2] == r[t + 2];
      ThreeBits(r, t);
    }
    assert after[30..] == regs[other / 10][30..];
  }

  lemma SetModeSets(regs: seq<Bits>, pin: nat, mode: nat)
    requires pin < 10 * |regs| && mode < 8
    ensures Sets(regs, SetMode(regs, pin, mode), pin, mode)
  {
    hide Mode, SetMode;
    forall p: nat | p < 10 * |regs|
      ensures Mode(SetMode(regs, pin, mode), p) == if p == pin then mode else Mode(regs, p)
    {
      SetModeExact(regs, pin, mode, p);
    }
    forall r | 0 <= r < |regs|
      ensures SetMode(regs, pin, mode)[r][30..] == regs[r][30..]
    {
      SetModeExact(regs, pin, mode, 10 * r);
    }
  }

  function SetAll(regs: seq<Bits>, ops: seq<(nat, nat)>): (r: seq<Bits>)
    requires forall i | 0 <= i < |ops| :: ops[i].0 < 10 * |regs|
    ensures |r| == |regs|
  {
    if ops == [] then regs else SetMode(SetAll(regs, ops[..|ops| - 1]), ops[|ops| - 1].0, ops[|ops| - 1].1)
  }

  function UpdateAll(pins: map<nat, nat>, ops: seq<(nat, nat)>): map<nat, nat> {
    if ops == [] then pins else UpdateAll(pins, ops[..|ops| - 1])[ops[|ops| - 1].0 := ops[|ops| - 1].1]
  }

  ghost function Pins(regs: seq<Bits>): map<nat, nat> {
    map pin: nat | pin < 10 * |regs| :: Mode(regs, pin)
  }

  /** Any sequence of gpio_mode calls on the packed registers is that sequence of updates of a map from pins
      to functions. */
  lemma {:induction false} SetAllRefinesMap(regs: seq<Bits>, ops: seq<(nat, nat)>)
    requires forall i | 0 <= i < |ops| :: ops[i].0 < 10 * |regs| && ops[i].1 < 8
    ensures Pins(SetAll(regs, ops)) == UpdateAll(Pins(regs), ops)
    decreases |ops|
  {
    hide Mode, SetMode;
    if ops != [] {
      var front, pin, mode := ops[..|ops| - 1], ops[|ops| - 1].0, ops[|ops| - 1].1;
      SetAllRefinesMap(regs, front);
      var before, after := SetAll(regs, front), SetAll(regs, ops);
      forall q: nat | q < 10 * |regs|
        ensures Mode(after, q) == if q == pin then mode else Mode(before, q)
      {
        SetModeExact(before, pin, mode, q);
      }
      assert Pins(after) == Pins(before)[pin := mode];
    }
  }

  // ----- The macros -----

  /** The macros, used as their header asks, are gpio_mode, from any contents of the registers. */
  lemma MacrosAreGpioMode(regs: seq<Bits>, pin: nat, a: nat)
    requires pin < 10 * |regs| && a <= 5
    ensures Inp(regs, pin) == SetMode(regs, pin, GPIO_IN)
    ensures Add(Inp(regs, pin), pin, GPIO_OUT) == SetMode(regs, pin, GPIO_OUT)
    ensures Add(Inp(regs, pin), pin, AltMode(a)) == SetMode(regs, pin, AltMode(a))
  {
    hide Or, Shl, Clear, AltMode, Small;
    OrNothing(Clear(regs[pin / 10], pin % 10 * 3), pin % 10 * 3);
  }

  lemma OrNothing(x: Bits, s: nat)
    ensures Or(x, Shl(Small(0), s)) == x
  {
  }

  /** OUT_GPIO and SET_GPIO_ALT on any contents: the named pin gets the bits of both, nothing else changes. */
  lemma AddExact(regs: seq<Bits>, pin: nat, code: nat, other: nat)
    requires pin < 10 * |regs| && other < 10 * |regs| && code < 8
    ensures Mode(Add(regs, pin, code), other) ==
            if other == pin then Union(Mode(regs, pin), code) else Mode(regs, other)
    ensures Add(regs, pin, code)[other / 10][30..] == regs[other / 10][30..]
  {
    hide Or, Shl, Small, Three, Union;
    var s, t := pin % 10 * 3, other % 10 * 3;
    var r := regs[pin / 10];
    forall i: nat | i < 32
      ensures Or(r, Shl(Small(code), s))[i] == if s <= i < s + 3 then r[i] || Small(code)[i - s] else r[i]
    {
      AddBits(r, s, code, i);
    }
    var after := Add(regs, pin, code)[other / 10];
    ThreeBits(after, t);
    ThreeBits(regs[other / 10], t);
    if other == pin {
      assert after[t] == (r[t] || Small(code)[0]);
      assert after[t + 1] == (r[t + 1] || Small(code)[1]);
      assert after[t + 2] == (r[t + 2] || Small(code)[2]);
      UnionBits(r[t], r[t + 1], r[t + 2], code);
    } else if other / 10 == pin / 10 {
      assert t + 3 <= s || s + 3 <= t;
      assert after[t] == r[t] && after[t + 1] == r[t + 1] && after[t + 2] == r[t + 2];
    }
    assert after[30..] == regs[other / 10][30..];
  }

  lemma UnionBits(a: bool, b: bool, c: bool, code: nat)
    requires code < 8
    ensures Three([a || Small(code)[0], b || Small(code)[1], c || Small(code)[2]]) == Union(Three([a, b, c]), code)
  {
  }

  lemma AddSets(regs: seq<Bits>, pin: nat, code: nat)
    requires pin < 10 * |regs| && code < 8
    ensures Sets(regs, Add(regs, pin, code), pin, Union(Mode(regs, pin), code))
  {
    hide Add, Mode, Union;
    forall p: nat | p < 10 * |regs|
      ensures Mode(Add(regs, pin, code), p) == if p == pin then Union(Mode(regs, pin), code) else Mode(regs, p)
    {
      AddExact(regs, pin, code, p);
    }
    forall r | 0 <= r < |regs|
      ensures Add(regs, pin, code)[r][30..] == regs[r][30..]
    {
      AddExact(regs, pin, code, 10 * r);
    }
  }

  lemma UnionOut(regs: seq<Bits>, pin: nat)
    requires pin < 10 * |regs|
    ensures Union(Mode(regs, pin), GPIO_OUT) == Mode(regs, pin) + 1 - Mode(regs, pin) % 2
  {
    ThreeBits(regs[pin / 10], pin % 10 * 3);
  }

  /** Without INP_GPIO first, OUT_GPIO and SET_GPIO_ALT do the same as gpio_mode exactly when the pin's old
      function has no bit that the new one lacks. */
  lemma WithoutInp(regs: seq<Bits>, pin: nat, code: nat)
    requires pin < 10 * |regs| && code < 8
    ensures var f := regs[pin / 10][pin % 10 * 3..pin % 10 * 3 + 3];
            Add(regs, pin, code) == SetMode(regs, pin, code) <==>
            forall i | 0 <= i < 3 && f[i] :: Small(code)[i]
  {
    hide Insert, Small, Or, Shl;
    var r, s := regs[pin / 10], pin % 10 * 3;
    var added, inserted := Or(r, Shl(Small(code), s)), Insert(r, s, code);
    forall i: nat | i < 32
      ensures inserted[i] == if s <= i < s + 3 then Small(code)[i - s] else r[i]
      ensures added[i] == if s <= i < s + 3 then r[i] || Small(code)[i - s] else r[i]
    {
      InsertBits(r, s, code, i);
      AddBits(r, s, code, i);
    }
    assert Add(regs, pin, code)[pin / 10] == added && SetMode(regs, pin, code)[pin / 10] == inserted;
    var f := r[s..s + 3];
    if forall i | 0 <= i < 3 && f[i] :: Small(code)[i] {
      assert forall i | s <= i < s + 3 && r[i] :: f[i - s] && Small(code)[i - s];
      assert added == inserted;
    } else {
      var i :| 0 <= i < 3 && f[i] && !Small(code)[i];
      assert added[s + i] != inserted[s + i];
    }
  }

  lemma AddBits(reg: Bits, s: nat, code: nat, i: nat)
    requires s <= 27 && code < 8 && i < 32
    ensures Or(reg, Shl(Small(code), s))[i] == if s <= i < s + 3 then reg[i] || Small(code)[i - s] else reg[i]
  {
  }
}
