/** The DMA controller of the BCM2835 (section 4 of its ARM Peripherals datasheet), one bus word a step.
    Three channels share the memory with each other and with the program. */
module DmaEngine {
  import opened Words
  import opened Layout

  /** A channel is idle with its CONBLK_AD register, or works through a loaded control block. */
  datatype Channel = Idle(conblk: word) | Busy(ti: word, src: word, dst: word, len: word, next: word)

  datatype Write = Write(reg: word, value: word)

  /** A channel and every peripheral write it has made. */
  datatype Unit = Unit(ch: Channel, log: seq<Write>)

  datatype Chan = PwmChan | RxChan | TxChan

  /** The memory block at bus address `bus`, the channels, and every word ever read from the SPI data
      register, from the microsecond timer and from the SPI status register. `wild` records an access that
      hit neither the block nor a peripheral. */
  datatype State = State(bus: word, mem: seq<word>, pwm: Unit, rx: Unit, tx: Unit,
                         fifo: seq<word>, clock: seq<word>, status: seq<word>, wild: bool)

  predicate IsPeriph(a: int) { PERIPH_BASE <= a < PERIPH_END }

  predicate InMem(s: State, a: int) {
    s.bus <= a < s.bus + 4 * |s.mem| && (a - s.bus) % 4 == 0
  }

  function Idx(s: State, a: int): nat
    requires InMem(s, a)
  {
    (a - s.bus) / 4
  }

  function UnitOf(s: State, c: Chan): Unit {
    match c case PwmChan => s.pwm case RxChan => s.rx case TxChan => s.tx
  }

  function WithUnit(s: State, c: Chan, u: Unit): State {
    match c case PwmChan => s.(pwm := u) case RxChan => s.(rx := u) case TxChan => s.(tx := u)
  }

  function WithChannel(s: State, c: Chan, ch: Channel): State {
    WithUnit(s, c, UnitOf(s, c).(ch := ch))
  }

  function Load(cb: CB): Channel { Busy(cb.ti, cb.src, cb.dst, cb.len, cb.next) }

  /** A control block address must be 32-byte aligned and lie in the block; address 0 stops the channel. */
  function Fetch(s: State, c: Chan, a: word): State {
    if a == 0 then WithChannel(s, c, Idle(0))
    else if a % 32 == 0 && s.bus % 32 == 0 && s.bus <= a && a + 32 <= s.bus + 4 * |s.mem| then
      WithChannel(s, c, Load(CbAt(s.mem, (a - s.bus) / 32)))
    else WithChannel(s, c, Idle(a)).(wild := true)
  }

  function LogRead(s: State, a: word, v: word): State {
    if a == SPI_FIFO then s.(fifo := s.fifo + [v])
    else if a == USEC_TIME then s.(clock := s.clock + [v])
    else if a == SPI_CS then s.(status := s.status + [v])
    else if IsPeriph(a) || InMem(s, a) then s
    else s.(wild := true)
  }

  function Store(s: State, c: Chan, a: word, v: word): State {
    if IsPeriph(a) then WithUnit(s, c, UnitOf(s, c).(log := UnitOf(s, c).log + [Write(a, v)]))
    else if InMem(s, a) then s.(mem := s.mem[Idx(s, a) := v])
    else s.(wild := true)
  }

  function Bump(a: word): word { (a + 4) % WORD_SPAN }

  function Advance(ch: Channel): Channel
    requires ch.Busy?
  {
    ch.(src := if SrceInc(ch.ti) then Bump(ch.src) else ch.src,
        dst := if DestInc(ch.ti) then Bump(ch.dst) else ch.dst,
        len := if ch.len >= 4 then ch.len - 4 else 0)
  }

  /** One transfer of one word; a peripheral source yields `input`. */
  function Move(s: State, c: Chan, input: word): State
    requires UnitOf(s, c).ch.Busy?
  {
    var ch := UnitOf(s, c).ch;
    var v := if !IsPeriph(ch.src) && InMem(s, ch.src) then s.mem[Idx(s, ch.src)] else input;
    var t := Store(LogRead(s, ch.src, v), c, ch.dst, v);
    WithChannel(t, c, Advance(ch))
  }

  /** One step of a channel: move a word, or go to the next control block when none is left. */
  function Step(s: State, c: Chan, input: word): State {
    var ch := UnitOf(s, c).ch;
    if ch.Idle? then s
    else if ch.len == 0 then Fetch(s, c, ch.next)
    else Move(s, c, input)
  }

  datatype Action = Action(chan: Chan, input: word)

  /** The value that a channel copies from the SPI status register is not zero: the transfer-active and
      DMA-enable bits that the trigger wrote are set in it. */
  predicate Possible(s: State, a: Action) {
    var ch := UnitOf(s, a.chan).ch;
    ch.Busy? && ch.len != 0 && ch.src == SPI_CS ==> a.input != 0
  }

  function Run(s: State, acts: seq<Action>): State
    decreases |acts|
  {
    if acts == [] then s else Run(Step(s, acts[0].chan, acts[0].input), acts[1..])
  }

  predicate Feasible(s: State, acts: seq<Action>)
    decreases |acts|
  {
    acts == [] ||
    (Possible(s, acts[0]) && Feasible(Step(s, acts[0].chan, acts[0].input), acts[1..]))
  }

  // ----- Registers of the controller -----

  const DMA_CS := 0x00
  const DMA_CONBLK_AD := 0x04
  const DMA_DEBUG := 0x20

  /** A register write to an idle channel: the control block address, and the active bit that starts it. */
  function WriteDmaReg(s: State, c: Chan, reg: word, v: word): State {
    var ch := UnitOf(s, c).ch;
    if ch.Idle? && reg == DMA_CONBLK_AD then WithChannel(s, c, Idle(v))
    else if ch.Idle? && reg == DMA_CS && v % 2 == 1 then Fetch(s, c, ch.conblk)
    else s
  }
}
