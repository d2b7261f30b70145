/** What the DMA program keeps, in every interleaving of its three channels: itself, the order of its
    transfers, and two buffers that always hold the newest words of the SPI stream. */
module DmaProgram {
  import opened Words
  import opened Layout
  import opened DmaEngine
  import opened PingPong

  /** A channel that has loaded control block i and moved m words of it. */
  ghost function At(cfg: Config, i: nat, m: nat): Channel
    requires ValidConfig(cfg) && i < 10 && 4 * m <= Cb(cfg, i).len
  {
    var cb := Cb(cfg, i);
    Busy(cb.ti, if SrceInc(cb.ti) then cb.src + 4 * m else cb.src,
         if DestInc(cb.ti) then cb.dst + 4 * m else cb.dst, cb.len - 4 * m, cb.next)
  }

  /** The number of blocks completed: each ends with one copy of the SPI status. */
  function Completed(s: State): nat { |s.status| }

  /** Words moved by the receive channel. */
  function Moved(s: State): nat { |s.fifo| + |s.clock| + |s.status| }

  /** Stream words of the block in progress already received. */
  ghost function Filled(cfg: Config, s: State): int { |s.fifo| - Completed(s) * cfg.nsamp }

  /** Where the receive channel is: not started, halted after a single block, or before or after each of the
      three transfers of a block. */
  datatype Stage = Waiting | Halted | Stamping | Stamped | Filling | Flagging | Flagged

  /** The channel's registers and the lengths of the three streams at each stage. */
  ghost predicate AtStage(cfg: Config, st: Stage, s: State)
    requires ValidConfig(cfg)
  {
    var ch, n, k, c, p := s.rx.ch, cfg.nsamp, Completed(s), |s.clock|, Filled(cfg, s);
    match st
    case Waiting => ch.Idle? && k == c == |s.fifo| == 0
    case Halted => ch == Idle(0) && cfg.single && k == c == 1 && p == 0
    case Stamping => p == 0 && c == k && ch == At(cfg, 3 * (k % 2), 0) && (cfg.single ==> k == 0)
    case Stamped => p == 0 && c == k + 1 && ch == At(cfg, 3 * (k % 2), 1) && (cfg.single ==> k == 0)
    case Filling => 0 <= p <= n && c == k + 1 && ch == At(cfg, 3 * (k % 2) + 1, p) && (cfg.single ==> k == 0)
    case Flagging => p == n && c == k + 1 && ch == At(cfg, 3 * (k % 2) + 2, 0) && (cfg.single ==> k == 0)
    case Flagged => p == 0 && c == k >= 1 && ch == At(cfg, 3 * ((k - 1) % 2) + 2, 1) && (cfg.single ==> k == 1)
  }

  /** The transmit channel feeds dummy words to the SPI data register for ever. */
  ghost predicate TxInv(cfg: Config, u: Unit)
    requires ValidConfig(cfg)
  {
    && ((u.ch.Idle? && u.log == []) || u.ch == At(cfg, 6, 0) || u.ch == At(cfg, 6, 1))
    && forall t | 0 <= t < |u.log| :: u.log[t] == Write(SPI_FIFO, DUMMY_TX)
  }

  /** One round of the trigger: wait for the PWM, set the transfer length, activate the SPI. */
  function Trigger(cfg: Config, j: nat): Write {
    if j == 0 then Write(PWM_FIF1, PwmVal(cfg))
    else if j == 1 then Write(SPI_DLEN, 2)
    else Write(SPI_CS, SPI_ACTIVATE)
  }

  ghost predicate PwmInv(cfg: Config, u: Unit)
    requires ValidConfig(cfg)
  {
    var j := |u.log| % 3;
    && (|| (u.ch.Idle? && u.log == [])
        || u.ch == At(cfg, 7 + j, 0)
        || (|u.log| > 0 && u.ch == At(cfg, 7 + (j + 2) % 3, 1)))
    && forall t | 0 <= t < |u.log| :: u.log[t] == Trigger(cfg, t % 3)
  }

  /** The program area: the control blocks and constants as adc_dma_init wrote them. */
  ghost predicate ProgramIntact(cfg: Config, mem: seq<word>)
    requires ValidConfig(cfg) && |mem| == VC_MEM_WORDS
  {
    && (forall i | 0 <= i < NUM_CBS :: CbAt(mem, i) == Cb(cfg, i))
    && mem[SAMP_SIZE..USECS] == Constants(cfg)
  }

  /** Word j of buffer b while block k is in progress: the newest stream word that belongs there. */
  ghost function Expected(cfg: Config, fifo: seq<word>, k: nat, b: nat, j: nat): word
    requires j < cfg.nsamp && k * cfg.nsamp <= |fifo|
  {
    Offsets(cfg.nsamp, k);
    if b == k % 2 then
      if k * cfg.nsamp + j < |fifo| then fifo[k * cfg.nsamp + j]
      else if k >= 2 then fifo[(k - 2) * cfg.nsamp + j] else 0
    else if k >= 1 then fifo[(k - 1) * cfg.nsamp + j] else 0
  }

  /** Time stamp b: the newest clock word of that parity. */
  ghost function ExpectedTime(clock: seq<word>, b: nat): word {
    if |clock| >= 1 && b == (|clock| - 1) % 2 then clock[|clock| - 1]
    else if |clock| >= 2 then clock[|clock| - 2] else 0
  }

  ghost predicate BufferInv(cfg: Config, mem: seq<word>, fifo: seq<word>, k: nat)
    requires |mem| == VC_MEM_WORDS && cfg.nsamp <= MAX_SAMPS && 0 <= |fifo| - k * cfg.nsamp
  {
    forall b, j | 0 <= b < 2 && 0 <= j < cfg.nsamp ::
      mem[Rxd(b) + j] == Expected(cfg, fifo, k, b, j)
  }

  ghost predicate TimeInv(mem: seq<word>, clock: seq<word>)
    requires |mem| == VC_MEM_WORDS
  {
    forall b | 0 <= b < 2 :: mem[Usecs(b)] == ExpectedTime(clock, b)
  }

  /** The memory block is where the program expects it, and no access ever left it. */
  ghost predicate Contained(cfg: Config, s: State) {
    ValidConfig(cfg) && s.bus == cfg.bus && |s.mem| == VC_MEM_WORDS && !s.wild
  }

  /** Everything but the stage of the receive channel. */
  ghost predicate Base(cfg: Config, s: State) {
    && Contained(cfg, s)
    && ProgramIntact(cfg, s.mem)
    && s.rx.log == [] && TxInv(cfg, s.tx) && PwmInv(cfg, s.pwm)
    && 0 <= Filled(cfg, s) <= cfg.nsamp
    && BufferInv(cfg, s.mem, s.fifo, Completed(s)) && TimeInv(s.mem, s.clock)
  }

  ghost predicate Inv(cfg: Config, s: State) {
    Base(cfg, s) && exists st :: AtStage(cfg, st, s)
  }

  lemma Offsets(n: nat, k: nat)
    ensures k >= 1 ==> (k - 1) * n == k * n - n >= 0
    ensures k >= 2 ==> (k - 2) * n == k * n - 2 * n >= 0
    ensures k * n >= 0 && (k + 1) * n == k * n + n
  {
  }

  // ----- One step -----

  /** The transmit channel changes nothing but itself. */
  lemma TxStep(cfg: Config, s: State, v: word)
    requires Base(cfg, s)
    ensures Base(cfg, Step(s, TxChan, v))
    ensures var t := Step(s, TxChan, v); t == s.(tx := t.tx) && (s.tx.ch.Busy? ==> t.tx.ch.Busy?)
  {
    if s.tx.ch == At(cfg, 6, 0) {
      assert s.mem[TXD] == s.mem[SAMP_SIZE..USECS][TXD - SAMP_SIZE];
      TxMove(cfg, s, v);
    } else if s.tx.ch == At(cfg, 6, 1) {
      FetchIs(cfg, s, TxChan, 6);
    }
  }

  lemma TxMove(cfg: Config, s: State, v: word)
    requires Contained(cfg, s) && s.mem[TXD] == DUMMY_TX && s.tx.ch == At(cfg, 6, 0)
    ensures Step(s, TxChan, v) == s.(tx := Unit(At(cfg, 6, 1), s.tx.log + [Write(SPI_FIFO, DUMMY_TX)]))
  {
    InBlock(cfg, s, TXD);
  }

  /** The word at offset w is in the block, at index w, and is not a peripheral. */
  lemma InBlock(cfg: Config, s: State, w: nat)
    requires Contained(cfg, s) && w < VC_MEM_WORDS
    ensures InMem(s, Addr(cfg, w)) && Idx(s, Addr(cfg, w)) == w && !IsPeriph(Addr(cfg, w))
  {
  }

  /** Loading the control block that lies at offset 8i of the block. */
  lemma FetchWords(s: State, c: Chan, i: nat, a: word)
    requires s.bus % 32 == 0 && 32 * i + 32 <= 4 * |s.mem| && a == s.bus + 32 * i && a != 0
    ensures Fetch(s, c, a) == WithChannel(s, c, Load(CbAt(s.mem, i)))
  {
    assert (a - s.bus) / 32 == i;
  }

  /** A page boundary is a control block boundary. */
  lemma PageAligned(a: word)
    requires a % PAGE_SIZE == 0
    ensures a % 32 == 0
  {
    assert a == 32 * (128 * (a / PAGE_SIZE));
  }

  /** Loading control block i of an intact program. */
  lemma FetchIs(cfg: Config, s: State, c: Chan, i: nat)
    requires Contained(cfg, s) && ProgramIntact(cfg, s.mem) && i < 10
    ensures Fetch(s, c, CbAddr(cfg, i)) == WithChannel(s, c, At(cfg, i, 0))
  {
    hide Cb, Fetch;
    assert s.bus % 32 == 0 by { PageAligned(s.bus); }
    FetchWords(s, c, i, CbAddr(cfg, i));
    assert CbAt(s.mem, i) == Cb(cfg, i);
  }

  /** The trigger channel changes nothing but itself. */
  lemma PwmStep(cfg: Config, s: State, v: word)
    requires Base(cfg, s)
    ensures Base(cfg, Step(s, PwmChan, v))
    ensures var t := Step(s, PwmChan, v); t == s.(pwm := t.pwm) && (s.pwm.ch.Busy? ==> t.pwm.ch.Busy?)
  {
    PwmUnit(cfg, s, v);
  }

  lemma PwmUnit(cfg: Config, s: State, v: word)
    requires Contained(cfg, s) && ProgramIntact(cfg, s.mem) && PwmInv(cfg, s.pwm)
    ensures var t := Step(s, PwmChan, v);
            t == s.(pwm := t.pwm) && PwmInv(cfg, t.pwm) && (s.pwm.ch.Busy? ==> t.pwm.ch.Busy?)
  {
    var j := |s.pwm.log| % 3;
    if s.pwm.ch == At(cfg, 7 + j, 0) {
      TriggerWords(cfg, s.mem, j);
      PwmMove(cfg, s, j, v);
      TriggerNext(cfg, s.pwm.log);
    } else if s.pwm.ch.Busy? {
      PwmLoad(cfg, s, v);
    }
  }

  lemma PwmLoad(cfg: Config, s: State, v: word)
    requires Contained(cfg, s) && ProgramIntact(cfg, s.mem) && PwmInv(cfg, s.pwm)
    requires s.pwm.ch.Busy? && s.pwm.ch != At(cfg, 7 + |s.pwm.log| % 3, 0)
    ensures var t := Step(s, PwmChan, v); t == s.(pwm := t.pwm) && PwmInv(cfg, t.pwm) && t.pwm.ch.Busy?
  {
    var j := |s.pwm.log| % 3;
    PwmFetch(cfg, s, j, v);
    assert PwmInv(cfg, Unit(At(cfg, 7 + j, 0), s.pwm.log));
  }

  lemma TriggerNext(cfg: Config, log: seq<Write>)
    requires ValidConfig(cfg) && forall t | 0 <= t < |log| :: log[t] == Trigger(cfg, t % 3)
    ensures var j := |log| % 3; PwmInv(cfg, Unit(At(cfg, 7 + j, 1), log + [Trigger(cfg, j)]))
  {
    assert (|log| + 1) % 3 == (|log| % 3 + 1) % 3;
  }

  lemma TriggerWords(cfg: Config, mem: seq<word>, j: nat)
    requires ValidConfig(cfg) && |mem| == VC_MEM_WORDS && ProgramIntact(cfg, mem) && j < 3
    ensures mem[TriggerSource(j)] == Trigger(cfg, j).value
  {
    assert mem[TriggerSource(j)] == mem[SAMP_SIZE..USECS][TriggerSource(j) - SAMP_SIZE];
  }

  lemma PwmFetch(cfg: Config, s: State, j: nat, v: word)
    requires Contained(cfg, s) && ProgramIntact(cfg, s.mem) && j < 3 && s.pwm.ch == At(cfg, 7 + (j + 2) % 3, 1)
    ensures Step(s, PwmChan, v) == WithChannel(s, PwmChan, At(cfg, 7 + j, 0))
  {
    hide Cb, Fetch, ProgramIntact;
    if j == 0 {
      AtEnd(cfg, 9);
      FetchIs(cfg, s, PwmChan, 7);
    } else if j == 1 {
      AtEnd(cfg, 7);
      FetchIs(cfg, s, PwmChan, 8);
    } else {
      AtEnd(cfg, 8);
      FetchIs(cfg, s, PwmChan, 9);
    }
  }

  /** Control block that follows block i: the receive cycle, the transmit loop, the trigger cycle. */
  function Next(i: nat): nat {
    match i case 5 => 0 case 6 => 6 case 9 => 7 case _ => i + 1
  }

  /** A channel at the end of block i has nothing left and points to the next block, or nowhere after a single shot. */
  lemma AtEnd(cfg: Config, i: nat)
    requires ValidConfig(cfg) && i < 10
    ensures Cb(cfg, i).len == if i == 1 || i == 4 then 4 * cfg.nsamp else 4
    ensures var ch := At(cfg, i, Cb(cfg, i).len / 4);
            ch.len == 0 && ch.next == if i == 2 && cfg.single then 0 else CbAddr(cfg, Next(i))
  {
  }

  lemma PwmMove(cfg: Config, s: State, j: nat, v: word)
    requires Contained(cfg, s) && j < 3 && s.pwm.ch == At(cfg, 7 + j, 0)
    requires s.mem[TriggerSource(j)] == Trigger(cfg, j).value
    ensures Step(s, PwmChan, v) == s.(pwm := Unit(At(cfg, 7 + j, 1), s.pwm.log + [Trigger(cfg, j)]))
  {
    InBlock(cfg, s, TriggerSource(j));
    if j == 0 {} else if j == 1 {} else {}
  }

  function TriggerSource(j: nat): nat { if j == 0 then PWM_VAL else if j == 1 then SAMP_SIZE else ADC_CSD }

  // ----- One step of the receive channel -----

  /** The receive channel goes to the next control block, or stops after the block of a single shot. */
  lemma RxFetch(cfg: Config, s: State, i: nat, v: word)
    requires Contained(cfg, s) && ProgramIntact(cfg, s.mem) && i < 6
    requires s.rx.ch == At(cfg, i, Cb(cfg, i).len / 4)
    ensures Step(s, RxChan, v) == WithChannel(s, RxChan, if i == 2 && cfg.single then Idle(0) else At(cfg, Next(i), 0))
  {
    hide Cb, ProgramIntact;
    AtEnd(cfg, i);
    if !(i == 2 && cfg.single) {
      FetchIs(cfg, s, RxChan, Next(i));
    }
  }

  /** A time stamp is copied. */
  lemma RxStamp(cfg: Config, s: State, b: nat, v: word)
    requires Contained(cfg, s) && b < 2 && s.rx.ch == At(cfg, 3 * b, 0)
    ensures Step(s, RxChan, v) ==
            s.(clock := s.clock + [v], mem := s.mem[Usecs(b) := v], rx := Unit(At(cfg, 3 * b, 1), s.rx.log))
  {
    InBlock(cfg, s, Usecs(b));
    if b == 0 {} else {}
  }

  /** A sample is copied. */
  lemma RxSample(cfg: Config, s: State, b: nat, p: nat, v: word)
    requires Contained(cfg, s) && b < 2 && p < cfg.nsamp && s.rx.ch == At(cfg, 3 * b + 1, p)
    ensures Step(s, RxChan, v) ==
            s.(fifo := s.fifo + [v], mem := s.mem[Rxd(b) + p := v], rx := Unit(At(cfg, 3 * b + 1, p + 1), s.rx.log))
  {
    hide At, Cb, Advance;
    SampleAt(cfg, b, p);
    InBlock(cfg, s, Rxd(b) + p);
  }

  /** In the middle of the samples the channel reads the SPI and writes the next word of its buffer. */
  lemma SampleAt(cfg: Config, b: nat, p: nat)
    requires ValidConfig(cfg) && b < 2 && p < cfg.nsamp
    ensures Rxd(b) + p < VC_MEM_WORDS && 4 * p + 4 <= Cb(cfg, 3 * b + 1).len
    ensures var ch := At(cfg, 3 * b + 1, p);
            && ch.Busy? && ch.src == SPI_FIFO && ch.dst == Addr(cfg, Rxd(b) + p) && ch.len != 0
            && Advance(ch) == At(cfg, 3 * b + 1, p + 1)
  {
    if b == 0 {} else {}
  }

  /** A status is copied. */
  lemma RxStatus(cfg: Config, s: State, b: nat, v: word)
    requires Contained(cfg, s) && b < 2 && s.rx.ch == At(cfg, 3 * b + 2, 0)
    ensures Step(s, RxChan, v) ==
            s.(status := s.status + [v], mem := s.mem[States(b) := v], rx := Unit(At(cfg, 3 * b + 2, 1), s.rx.log))
  {
    InBlock(cfg, s, States(b));
    if b == 0 {} else {}
  }

  lemma ProgramKept(cfg: Config, mem: seq<word>, w: nat, v: word)
    requires ValidConfig(cfg) && |mem| == VC_MEM_WORDS && ProgramIntact(cfg, mem) && USECS <= w < |mem|
    ensures ProgramIntact(cfg, mem[w := v])
  {
    assert mem[w := v][SAMP_SIZE..USECS] == mem[SAMP_SIZE..USECS];
    forall i | 0 <= i < NUM_CBS
      ensures CbAt(mem[w := v], i) == CbAt(mem, i)
    {
    }
  }

  /** A time stamp leaves the buffers alone and becomes the newest of its parity. */
  lemma StampData(cfg: Config, mem: seq<word>, fifo: seq<word>, clock: seq<word>, k: nat, v: word)
    requires |mem| == VC_MEM_WORDS && cfg.nsamp <= MAX_SAMPS && k * cfg.nsamp <= |fifo| && |clock| == k
    requires BufferInv(cfg, mem, fifo, k) && TimeInv(mem, clock)
    ensures BufferInv(cfg, mem[Usecs(k % 2) := v], fifo, k) && TimeInv(mem[Usecs(k % 2) := v], clock + [v])
  {
  }

  /** A sample becomes the newest word of its place. */
  lemma SampleData(cfg: Config, mem: seq<word>, fifo: seq<word>, clock: seq<word>, k: nat, p: nat, v: word)
    requires |mem| == VC_MEM_WORDS && p < cfg.nsamp <= MAX_SAMPS && |fifo| == k * cfg.nsamp + p
    requires BufferInv(cfg, mem, fifo, k) && TimeInv(mem, clock)
    ensures k * cfg.nsamp <= |fifo + [v]|
    ensures BufferInv(cfg, mem[Rxd(k % 2) + p := v], fifo + [v], k) && TimeInv(mem[Rxd(k % 2) + p := v], clock)
  {
    var mem' := mem[Rxd(k % 2) + p := v];
    forall b, j | 0 <= b < 2 && 0 <= j < cfg.nsamp
      ensures mem'[Rxd(b) + j] == Expected(cfg, fifo + [v], k, b, j)
    {
      Offsets(cfg.nsamp, k);
      assert mem[Rxd(b) + j] == Expected(cfg, fifo, k, b, j);
    }
  }

  /** When a block is complete its buffer is the finished one and the other becomes the current one. */
  lemma StatusData(cfg: Config, mem: seq<word>, fifo: seq<word>, clock: seq<word>, k: nat, b: nat, v: word)
    requires |mem| == VC_MEM_WORDS && 1 <= cfg.nsamp <= MAX_SAMPS && |fifo| == (k + 1) * cfg.nsamp && b < 2
    requires k * cfg.nsamp <= |fifo|
    requires BufferInv(cfg, mem, fifo, k) && TimeInv(mem, clock)
    ensures BufferInv(cfg, mem[States(b) := v], fifo, k + 1) && TimeInv(mem[States(b) := v], clock)
  {
    var mem', k' := mem[States(b) := v], k + 1;
    forall c, j | 0 <= c < 2 && 0 <= j < cfg.nsamp
      ensures mem'[Rxd(c) + j] == Expected(cfg, fifo, k', c, j)
    {
      Offsets(cfg.nsamp, k);
      Offsets(cfg.nsamp, k + 1);
      assert mem[Rxd(c) + j] == Expected(cfg, fifo, k, c, j);
    }
  }

  // ----- What one step looks like to the program that shares the memory -----

  /** Flag b: the program sees a nonzero word. */
  predicate Flag(s: State, b: nat)
    requires |s.mem| == VC_MEM_WORDS && b < 2
  {
    s.mem[States(b)] != 0
  }

  /** The words that the DMA may write: time stamps, flags and the first nsamp words of each buffer. */
  predicate Result(cfg: Config, w: nat) {
    USECS <= w < RXD1 || RXD1 <= w < RXD1 + cfg.nsamp || RXD2 <= w < RXD2 + cfg.nsamp
  }

  /** The streams only grow, and nothing but result words changed. */
  ghost predicate Extends(cfg: Config, s: State, t: State) {
    && s.fifo <= t.fifo && s.clock <= t.clock && s.status <= t.status
    && |s.mem| == |t.mem| && forall w: nat | w < |s.mem| && !Result(cfg, w) :: t.mem[w] == s.mem[w]
  }

  /** A flag is set by the completion of a block of its parity and by nothing else. */
  ghost predicate Seen(cfg: Config, s: State, t: State)
    requires |s.mem| == VC_MEM_WORDS
  {
    && Extends(cfg, s, t)
    && forall b | 0 <= b < 2 :: Flag(t, b) == (Flag(s, b) || Done(Completed(s), Completed(t), b))
  }

  /** A channel that has not been started does nothing; the transmit and trigger channels never stop. */
  predicate ChannelsKept(s: State, t: State) {
    && (s.rx.ch.Idle? ==> t.rx == s.rx && Moved(t) == Moved(s))
    && (if s.tx.ch.Idle? then t.tx == s.tx else t.tx.ch.Busy?)
    && (if s.pwm.ch.Idle? then t.pwm == s.pwm else t.pwm.ch.Busy?)
  }

  /** What the program can rely on while the DMA runs from s to t. */
  ghost predicate Rely(cfg: Config, s: State, t: State)
    requires |s.mem| == VC_MEM_WORDS
  {
    && Inv(cfg, t) && Seen(cfg, s, t) && ChannelsKept(s, t) && Moved(s) <= Moved(t)
    && (s.rx.ch.Busy? && !cfg.single ==> t.rx.ch.Busy?)
  }

  /** A result word that is not a flag changes. */
  lemma QuietWrite(cfg: Config, s: State, t: State, w: nat, v: word)
    requires Contained(cfg, s) && w < |s.mem| && Result(cfg, w) && !(STATES <= w < RXD1) && t.mem == s.mem[w := v]
    requires s.fifo <= t.fifo && s.clock <= t.clock && t.status == s.status
    ensures Seen(cfg, s, t)
  {
  }

  /** Only the flag of the completed block changes. */
  lemma FlagWrite(cfg: Config, s: State, t: State, v: word)
    requires Contained(cfg, s) && v != 0 && t.mem == s.mem[States(Completed(s) % 2) := v]
    requires s.fifo == t.fifo && s.clock == t.clock && t.status == s.status + [v]
    ensures Seen(cfg, s, t)
  {
  }

  lemma StampStep(cfg: Config, s: State, v: word)
    requires Base(cfg, s) && AtStage(cfg, Stamping, s)
    ensures var t := Step(s, RxChan, v);
            Base(cfg, t) && AtStage(cfg, Stamped, t) && Seen(cfg, s, t) && Completed(t) == Completed(s) &&
            Moved(t) == Moved(s) + 1 && t.tx == s.tx && t.pwm == s.pwm
  {
    var k := Completed(s);
    hide ProgramIntact, BufferInv, TimeInv, TxInv, PwmInv, Extends;
    var rx := Unit(At(cfg, 3 * (k % 2), 1), s.rx.log);
    var t := s.(clock := s.clock + [v], mem := s.mem[Usecs(k % 2) := v], rx := rx);
    assert Step(s, RxChan, v) == t by { RxStamp(cfg, s, k % 2, v); }
    QuietWrite(cfg, s, t, Usecs(k % 2), v);
    ProgramKept(cfg, s.mem, Usecs(k % 2), v);
    StampData(cfg, s.mem, s.fifo, s.clock, k, v);
  }

  lemma SampleStep(cfg: Config, s: State, v: word)
    requires Base(cfg, s) && AtStage(cfg, Filling, s) && Filled(cfg, s) < cfg.nsamp
    ensures var t := Step(s, RxChan, v);
            Base(cfg, t) && AtStage(cfg, Filling, t) && Seen(cfg, s, t) && Completed(t) == Completed(s) &&
            Moved(t) == Moved(s) + 1 && t.tx == s.tx && t.pwm == s.pwm
  {
    var k, p := Completed(s), Filled(cfg, s);
    hide ProgramIntact, BufferInv, TimeInv, TxInv, PwmInv, Extends;
    var rx := Unit(At(cfg, 3 * (k % 2) + 1, p + 1), s.rx.log);
    var t := s.(fifo := s.fifo + [v], mem := s.mem[Rxd(k % 2) + p := v], rx := rx);
    assert Step(s, RxChan, v) == t by { RxSample(cfg, s, k % 2, p, v); }
    QuietWrite(cfg, s, t, Rxd(k % 2) + p, v);
    ProgramKept(cfg, s.mem, Rxd(k % 2) + p, v);
    SampleData(cfg, s.mem, s.fifo, s.clock, k, p, v);
  }

  lemma StatusStep(cfg: Config, s: State, v: word)
    requires Base(cfg, s) && AtStage(cfg, Flagging, s) && v != 0
    ensures var t := Step(s, RxChan, v);
            Base(cfg, t) && AtStage(cfg, Flagged, t) && Seen(cfg, s, t) && Completed(t) == Completed(s) + 1 &&
            Moved(t) == Moved(s) + 1 && t.tx == s.tx && t.pwm == s.pwm
  {
    var k := Completed(s);
    hide ProgramIntact, BufferInv, TimeInv, TxInv, PwmInv, Extends;
    var rx := Unit(At(cfg, 3 * (k % 2) + 2, 1), s.rx.log);
    var t := s.(status := s.status + [v], mem := s.mem[States(k % 2) := v], rx := rx);
    assert Step(s, RxChan, v) == t by { RxStatus(cfg, s, k % 2, v); }
    FlagWrite(cfg, s, t, v);
    Offsets(cfg.nsamp, k);
    ProgramKept(cfg, s.mem, States(k % 2), v);
    StatusData(cfg, s.mem, s.fifo, s.clock, k, k % 2, v);
  }

  /** Control blocks in between: the stage moves on and nothing else changes. */
  lemma LoadStep(cfg: Config, s: State, i: nat, v: word)
    requires Base(cfg, s) && i < 6 && s.rx.ch == At(cfg, i, Cb(cfg, i).len / 4)
    ensures var t := Step(s, RxChan, v);
            && t == s.(rx := t.rx) && Base(cfg, t) && Seen(cfg, s, t)
            && t.rx.ch == if i == 2 && cfg.single then Idle(0) else At(cfg, Next(i), 0)
  {
    RxFetch(cfg, s, i, v);
  }

  lemma StampedStep(cfg: Config, s: State, v: word)
    requires Base(cfg, s) && AtStage(cfg, Stamped, s)
    ensures var t := Step(s, RxChan, v);
            Base(cfg, t) && AtStage(cfg, Filling, t) && Seen(cfg, s, t) && Completed(t) == Completed(s) &&
            t == s.(rx := t.rx)
  {
    hide Base, Step;
    LoadStep(cfg, s, 3 * (Completed(s) % 2), v);
  }

  lemma FilledStep(cfg: Config, s: State, v: word)
    requires Base(cfg, s) && AtStage(cfg, Filling, s) && Filled(cfg, s) == cfg.nsamp
    ensures var t := Step(s, RxChan, v);
            Base(cfg, t) && AtStage(cfg, Flagging, t) && Seen(cfg, s, t) && Completed(t) == Completed(s) &&
            t == s.(rx := t.rx)
  {
    hide Base, Step;
    LoadStep(cfg, s, 3 * (Completed(s) % 2) + 1, v);
  }

  lemma FlaggedStep(cfg: Config, s: State, v: word)
    requires Base(cfg, s) && AtStage(cfg, Flagged, s)
    ensures var t := Step(s, RxChan, v);
            && Base(cfg, t) && AtStage(cfg, if cfg.single then Halted else Stamping, t)
            && Seen(cfg, s, t) && Completed(t) == Completed(s) &&
            t == s.(rx := t.rx)
  {
    hide Base, Step;
    LoadStep(cfg, s, 3 * ((Completed(s) - 1) % 2) + 2, v);
  }

  lemma FlaggingSource(cfg: Config, s: State)
    requires Base(cfg, s) && AtStage(cfg, Flagging, s)
    ensures s.rx.ch.Busy? && s.rx.ch.len == 4 && s.rx.ch.src == SPI_CS
  {
  }

  /** The stage after a step of the receive channel. */
  ghost function After(cfg: Config, st: Stage, s: State): Stage {
    match st
    case Waiting => Waiting
    case Halted => Halted
    case Stamping => Stamped
    case Stamped => Filling
    case Filling => if Filled(cfg, s) < cfg.nsamp then Filling else Flagging
    case Flagging => Flagged
    case Flagged => if cfg.single then Halted else Stamping
  }

  /** Some steps move a word, the others load a control block. */
  ghost predicate MovesWord(cfg: Config, st: Stage, s: State) {
    st.Stamping? || st.Flagging? || (st.Filling? && Filled(cfg, s) < cfg.nsamp)
  }

  /** The receive channel goes round its six control blocks, completing one block a half round. */
  lemma RxStep(cfg: Config, s: State, st: Stage, v: word)
    requires Base(cfg, s) && AtStage(cfg, st, s) && Possible(s, Action(RxChan, v))
    ensures var t := Step(s, RxChan, v);
            && Base(cfg, t) && AtStage(cfg, After(cfg, st, s), t) && Seen(cfg, s, t)
            && Completed(t) == (Completed(s) + if st.Flagging? then 1 else 0)
            && Moved(t) == Moved(s) + (if MovesWord(cfg, st, s) then 1 else 0)
            && t.tx == s.tx && t.pwm == s.pwm && (s.rx.ch.Idle? ==> t.rx == s.rx)
  {
    match st
    case Waiting | Halted =>
    case Stamping => StampStep(cfg, s, v);
    case Stamped => StampedStep(cfg, s, v);
    case Filling =>
      if Filled(cfg, s) < cfg.nsamp {
        SampleStep(cfg, s, v);
      } else {
        FilledStep(cfg, s, v);
      }
    case Flagging =>
      FlaggingSource(cfg, s);
      StatusStep(cfg, s, v);
    case Flagged => FlaggedStep(cfg, s, v);
  }

  lemma StageBusy(cfg: Config, s: State, st: Stage)
    requires Contained(cfg, s) && AtStage(cfg, st, s)
    ensures s.rx.ch.Busy? <==> !st.Waiting? && !st.Halted?
  {
  }

  lemma IdleStep(s: State, c: Chan, v: word)
    ensures UnitOf(s, c).ch.Idle? ==> Step(s, c, v) == s
  {
  }

  /** Steps of the other channels are invisible to the program and to the receive channel. */
  lemma OtherChannel(cfg: Config, st: Stage, s: State, t: State)
    requires Contained(cfg, s) && AtStage(cfg, st, s) && t == s.(tx := t.tx, pwm := t.pwm)
    ensures AtStage(cfg, st, t) && Seen(cfg, s, t)
  {
  }

  /** One step of any channel keeps the invariant, and the program sees it only as the relation says. */
  lemma StepRely(cfg: Config, s: State, a: Action)
    requires Inv(cfg, s) && Possible(s, a)
    ensures Rely(cfg, s, Step(s, a.chan, a.input))
    ensures Completed(Step(s, a.chan, a.input)) <= Completed(s) + 1
  {
    hide BufferInv, TimeInv, ProgramIntact, TxInv, PwmInv, AtStage, Step, Extends;
    var st :| AtStage(cfg, st, s);
    var t := Step(s, a.chan, a.input);
    IdleStep(s, a.chan, a.input);
    match a.chan
    case TxChan =>
      TxStep(cfg, s, a.input);
      OtherChannel(cfg, st, s, t);
    case PwmChan =>
      PwmStep(cfg, s, a.input);
      OtherChannel(cfg, st, s, t);
    case RxChan =>
      RxStep(cfg, s, st, a.input);
      StageBusy(cfg, s, st);
      StageBusy(cfg, t, After(cfg, st, s));
  }

  lemma RelyJoin(cfg: Config, s: State, t: State, u: State)
    requires Inv(cfg, s) && Rely(cfg, s, t) && Rely(cfg, t, u)
    ensures Rely(cfg, s, u)
  {
    forall b | 0 <= b < 2
      ensures Flag(u, b) == (Flag(s, b) || Done(Completed(s), Completed(u), b))
    {
      DoneJoin(Completed(s), Completed(t), Completed(u), b);
    }
  }

  // ----- Any number of steps -----

  function FlagCount(s: State): nat
    requires |s.mem| == VC_MEM_WORDS
  {
    (if Flag(s, 0) then 1 else 0) + (if Flag(s, 1) then 1 else 0)
  }

  /** Blocks completed during a run whose flag was already set, so that nobody will learn of them. */
  ghost function Landings(s: State, acts: seq<Action>): nat
    requires |s.mem| == VC_MEM_WORDS
    decreases |acts|
  {
    if acts == [] then 0
    else
      var t := Step(s, acts[0].chan, acts[0].input);
      (if Completed(t) > Completed(s) && Flag(s, Completed(s) % 2) then 1 else 0) +
      if |t.mem| == |s.mem| then Landings(t, acts[1..]) else 0
  }

  /** Every interleaving of the three channels keeps the invariant; every completed block either sets a
      clear flag or lands on a set one. */
  lemma {:induction false} RunRely(cfg: Config, s: State, acts: seq<Action>)
    requires Inv(cfg, s) && Feasible(s, acts)
    ensures Rely(cfg, s, Run(s, acts))
    ensures Completed(Run(s, acts)) - Completed(s) == Landings(s, acts) + FlagCount(Run(s, acts)) - FlagCount(s)
    decreases |acts|
  {
    hide Inv, Flag, Step;
    if acts != [] {
      var t := Step(s, acts[0].chan, acts[0].input);
      StepRely(cfg, s, acts[0]);
      RunRely(cfg, t, acts[1..]);
      RelyJoin(cfg, s, t, Run(s, acts));
    }
  }
}
