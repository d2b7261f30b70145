/** Whole runs of the DMA program: how it starts, how far it gets, when it stops, and in what order it
    triggers the SPI. */
module DmaRuns {
  import opened Words
  import opened Layout
  import opened DmaEngine
  import opened PingPong
  import opened DmaProgram

  // ----- Starting -----

  function CbWord(cb: CB, f: nat): word {
    match f
    case 0 => cb.ti case 1 => cb.src case 2 => cb.dst case 3 => cb.len
    case 4 => cb.stride case 5 => cb.next case 6 => cb.debug case _ => cb.unused
  }

  /** Word w of the structure that adc_dma_init copies into the uncached memory. */
  function ImageWord(cfg: Config, w: nat): word
    requires ValidConfig(cfg)
  {
    if w < SAMP_SIZE then CbWord(Cb(cfg, w / CB_WORDS), w % CB_WORDS)
    else if w < USECS then Constants(cfg)[w - SAMP_SIZE]
    else 0
  }

  function Image(cfg: Config): (image: seq<word>)
    requires ValidConfig(cfg)
    ensures |image| == DATA_WORDS
  {
    seq(DATA_WORDS, w requires 0 <= w < DATA_WORDS => ImageWord(cfg, w))
  }

  /** Before the channels start: the image is in memory and nothing has been transferred. */
  ghost predicate Loaded(cfg: Config, s: State) {
    && Contained(cfg, s) && s.mem[..DATA_WORDS] == Image(cfg)
    && s.fifo == s.clock == s.status == []
    && s.rx.ch.Idle? && s.tx.ch.Idle? && s.pwm.ch.Idle?
    && s.rx.log == s.tx.log == s.pwm.log == []
  }

  lemma ImageAt(cfg: Config, mem: seq<word>, w: nat)
    requires ValidConfig(cfg) && |mem| == VC_MEM_WORDS && mem[..DATA_WORDS] == Image(cfg) && w < DATA_WORDS
    ensures mem[w] == ImageWord(cfg, w)
  {
    assert mem[w] == mem[..DATA_WORDS][w];
  }

  lemma ImageField(cfg: Config, mem: seq<word>, i: nat, f: nat)
    requires ValidConfig(cfg) && |mem| == VC_MEM_WORDS && mem[..DATA_WORDS] == Image(cfg) && i < NUM_CBS && f < 8
    ensures mem[8 * i + f] == CbWord(Cb(cfg, i), f)
  {
    ImageAt(cfg, mem, 8 * i + f);
  }

  lemma ImageProgram(cfg: Config, mem: seq<word>)
    requires ValidConfig(cfg) && |mem| == VC_MEM_WORDS && mem[..DATA_WORDS] == Image(cfg)
    ensures ProgramIntact(cfg, mem)
  {
    hide Cb, Image;
    forall i | 0 <= i < NUM_CBS
      ensures CbAt(mem, i) == Cb(cfg, i)
    {
      ImageField(cfg, mem, i, 0); ImageField(cfg, mem, i, 1);
      ImageField(cfg, mem, i, 2); ImageField(cfg, mem, i, 3);
      ImageField(cfg, mem, i, 4); ImageField(cfg, mem, i, 5);
      ImageField(cfg, mem, i, 6); ImageField(cfg, mem, i, 7);
    }
    forall c | 0 <= c < 6
      ensures mem[SAMP_SIZE..USECS][c] == Constants(cfg)[c]
    {
      ImageAt(cfg, mem, SAMP_SIZE + c);
    }
  }

  /** The image satisfies the invariant, with clear flags. */
  lemma LoadedInv(cfg: Config, s: State)
    requires Loaded(cfg, s)
    ensures Inv(cfg, s) && AtStage(cfg, Waiting, s) && !Flag(s, 0) && !Flag(s, 1)
  {
    hide Cb, Constants, Image;
    ImageProgram(cfg, s.mem);
    forall w: nat | USECS <= w < DATA_WORDS
      ensures s.mem[w] == 0
    {
      ImageAt(cfg, s.mem, w);
    }
    assert AtStage(cfg, Waiting, s);
  }

  /** The control block that adc_dma_init starts a channel on. */
  function First(c: Chan): nat {
    match c case RxChan => 0 case TxChan => 6 case PwmChan => 7
  }

  /** A channel that has not been started yet. */
  predicate Unstarted(s: State, c: Chan) {
    UnitOf(s, c).ch.Idle? && (c.RxChan? ==> Moved(s) == 0)
  }

  /** Register writes of start_dma other than the active bit: they change at most the address register. */
  lemma QuietRegister(cfg: Config, s: State, c: Chan, reg: word, v: word)
    requires Inv(cfg, s) && Unstarted(s, c) && (reg == DMA_CS ==> v % 2 == 0)
    ensures var t := WriteDmaReg(s, c, reg, v);
            && Inv(cfg, t) && Unstarted(t, c)
            && t == WithChannel(s, c, if reg == DMA_CONBLK_AD then Idle(v) else UnitOf(s, c).ch)
  {
    hide ProgramIntact, BufferInv, TimeInv;
    var t := WriteDmaReg(s, c, reg, v);
    var st :| AtStage(cfg, st, s);
    if c.RxChan? {
      assert AtStage(cfg, Waiting, t);
    } else {
      assert AtStage(cfg, st, t);
    }
  }

  /** The active bit loads the first control block of the channel. */
  lemma ActiveRegister(cfg: Config, s: State, c: Chan)
    requires Inv(cfg, s) && Unstarted(s, c) && UnitOf(s, c).ch == Idle(CbAddr(cfg, First(c)))
    ensures var t := WriteDmaReg(s, c, DMA_CS, 1);
            Inv(cfg, t) && t == WithChannel(s, c, At(cfg, First(c), 0))
  {
    hide ProgramIntact, BufferInv, TimeInv, Fetch, Cb, CbAddr;
    var t := WriteDmaReg(s, c, DMA_CS, 1);
    var st :| AtStage(cfg, st, s);
    FetchIs(cfg, s, c, First(c));
    if c.RxChan? {
      assert AtStage(cfg, Stamping, t);
    } else {
      assert AtStage(cfg, st, t);
    }
  }

  /** The program preserves itself: in every interleaving nothing leaves the memory block, every control block
      and constant stays as adc_dma_init wrote it, and only result words change. */
  lemma ProgramPreservesItself(cfg: Config, s: State, acts: seq<Action>)
    requires Inv(cfg, s) && Feasible(s, acts)
    ensures var t := Run(s, acts);
            && !t.wild && t.bus == s.bus && |t.mem| == |s.mem| == VC_MEM_WORDS
            && t.mem[..USECS] == s.mem[..USECS] == Image(cfg)[..USECS]
            && forall w: nat | w < |s.mem| && t.mem[w] != s.mem[w] :: Result(cfg, w)
  {
    hide Cb, Constants, BufferInv, TimeInv, TxInv, PwmInv, AtStage, Image;
    var t := Run(s, acts);
    RunRely(cfg, s, acts);
    forall w: nat | w < USECS
      ensures t.mem[w] == s.mem[w]
      ensures s.mem[w] == Image(cfg)[w]
    {
      IntactWord(cfg, s.mem, w);
    }
  }

  /** An intact program is the image, word for word. */
  lemma IntactWord(cfg: Config, mem: seq<word>, w: nat)
    requires ValidConfig(cfg) && |mem| == VC_MEM_WORDS && ProgramIntact(cfg, mem) && w < USECS
    ensures mem[w] == Image(cfg)[w]
  {
    hide Cb, Constants;
    if w < SAMP_SIZE {
      var i, f := w / CB_WORDS, w % CB_WORDS;
      assert CbAt(mem, i) == Cb(cfg, i);
      assert mem[8 * i + f] == CbWord(CbAt(mem, i), f);
    } else {
      assert mem[w] == mem[SAMP_SIZE..USECS][w - SAMP_SIZE];
    }
  }

  // ----- Getting on -----

  /** Steps that the receive channel has taken: each block costs nsamp + 2 words and 3 control blocks. */
  ghost function Taken(cfg: Config, st: Stage, s: State): int {
    var k, n := Completed(s), cfg.nsamp;
    match st
    case Waiting => 0
    case Stamping => k * (n + 5)
    case Stamped => k * (n + 5) + 1
    case Filling => k * (n + 5) + 2 + Filled(cfg, s)
    case Flagging => k * (n + 5) + n + 3
    case Flagged => (k - 1) * (n + 5) + n + 4
    case Halted => n + 5
  }

  /** The channel has taken exactly `taken` steps since it was started. */
  ghost predicate Advanced(cfg: Config, s: State, taken: int)
    requires ValidConfig(cfg)
  {
    exists st :: AtStage(cfg, st, s) && Taken(cfg, st, s) == taken && !st.Waiting?
  }

  lemma BlockSteps(k: nat, n: nat)
    ensures (k + 1) * (n + 5) == k * (n + 5) + n + 5
  {
  }

  /** A step of the receive channel is one more step, until a single shot has halted. */
  lemma RxAdvance(cfg: Config, s: State, st: Stage, v: word)
    requires Base(cfg, s) && AtStage(cfg, st, s) && !st.Waiting? && Possible(s, Action(RxChan, v))
    ensures var t := Step(s, RxChan, v);
            AtStage(cfg, After(cfg, st, s), t) &&
            Taken(cfg, After(cfg, st, s), t) == Taken(cfg, st, s) + if st.Halted? then 0 else 1
    ensures st.Halted? ==> cfg.single
  {
    hide Base, Step, At;
    RxStep(cfg, s, st, v);
    BlockSteps(Completed(s), cfg.nsamp);
    if st.Flagged? {
      BlockSteps(Completed(s) - 1, cfg.nsamp);
    }
  }

  function RxActions(acts: seq<Action>): nat {
    if acts == [] then 0 else (if acts[0].chan.RxChan? then 1 else 0) + RxActions(acts[1..])
  }

  /** Steps of a single shot: one block. */
  function Budget(cfg: Config, taken: int): int {
    if cfg.single && taken > cfg.nsamp + 5 then cfg.nsamp + 5 else taken
  }

  /** In every interleaving the receive channel advances by exactly its own steps, never blocked or derailed
      by the other channels: through the six control blocks for ever, or to the end of a single shot. */
  lemma {:induction false} RxCycles(cfg: Config, s: State, acts: seq<Action>, taken: int)
    requires Inv(cfg, s) && Feasible(s, acts) && Advanced(cfg, s, taken)
    ensures Advanced(cfg, Run(s, acts), Budget(cfg, taken + RxActions(acts)))
    decreases |acts|
  {
    hide ProgramIntact, BufferInv, TimeInv, TxInv, PwmInv, Step, AtStage, Taken;
    var st :| AtStage(cfg, st, s) && Taken(cfg, st, s) == taken && !st.Waiting?;
    if cfg.single { SingleBudget(cfg, s, st); }
    if acts != [] {
      var t := Step(s, acts[0].chan, acts[0].input);
      StepRely(cfg, s, acts[0]);
      match acts[0].chan {
        case RxChan =>
          RxAdvance(cfg, s, st, acts[0].input);
          if cfg.single { SingleBudget(cfg, t, After(cfg, st, s)); }
          RxCycles(cfg, t, acts[1..], Taken(cfg, After(cfg, st, s), t));
        case TxChan =>
          TxStep(cfg, s, acts[0].input);
          SameTaken(cfg, st, s, t);
          RxCycles(cfg, t, acts[1..], taken);
        case PwmChan =>
          PwmStep(cfg, s, acts[0].input);
          SameTaken(cfg, st, s, t);
          RxCycles(cfg, t, acts[1..], taken);
      }
    }
  }

  lemma SameTaken(cfg: Config, st: Stage, s: State, t: State)
    requires Contained(cfg, s) && AtStage(cfg, st, s) && t == s.(tx := t.tx, pwm := t.pwm)
    ensures AtStage(cfg, st, t) && Taken(cfg, st, t) == Taken(cfg, st, s)
  {
  }

  /** A single shot takes at most nsamp + 5 steps, all of them only when it has halted. */
  lemma SingleBudget(cfg: Config, s: State, st: Stage)
    requires Base(cfg, s) && AtStage(cfg, st, s) && cfg.single
    ensures Taken(cfg, st, s) <= cfg.nsamp + 5
    ensures Taken(cfg, st, s) == cfg.nsamp + 5 <==> st.Halted?
  {
  }

  /** The number of completed blocks is fixed by the channel's own steps. */
  lemma BlocksOfSteps(cfg: Config, s: State, taken: int)
    requires Inv(cfg, s) && Advanced(cfg, s, taken)
    ensures Completed(s) * (cfg.nsamp + 5) <= taken + 1 < (Completed(s) + 1) * (cfg.nsamp + 5)
  {
    hide ProgramIntact, BufferInv, TimeInv, TxInv, PwmInv, At;
    var st :| AtStage(cfg, st, s) && Taken(cfg, st, s) == taken && !st.Waiting?;
    BlockSteps(Completed(s), cfg.nsamp);
    if st.Flagged? {
      BlockSteps(Completed(s) - 1, cfg.nsamp);
    }
  }

  /** The second buffer, its time stamp and its flag are as adc_dma_init left them. */
  ghost predicate SecondUntouched(cfg: Config, t: State) {
    && |t.mem| == VC_MEM_WORDS && cfg.nsamp <= MAX_SAMPS
    && !Flag(t, 1) && t.mem[USECS + 1] == 0
    && forall w | RXD2 <= w < RXD2 + cfg.nsamp :: t.mem[w] == 0
  }

  /** The channel stands still with one block, its time stamp and its flag in the first buffer. */
  ghost predicate OneBlock(cfg: Config, t: State) {
    && |t.mem| == VC_MEM_WORDS && cfg.nsamp <= MAX_SAMPS
    && t.rx.ch.Idle? && Moved(t) == cfg.nsamp + 2 && |t.fifo| == cfg.nsamp
    && t.mem[RXD1..RXD1 + cfg.nsamp] == t.fifo && [t.mem[USECS]] == t.clock && Flag(t, 0)
  }

  /** A single shot, just started: it runs for exactly nsamp + 5 steps of its channel, moves nsamp + 2 words,
      and then stands still with one block; the second buffer is never touched. */
  lemma SingleShot(cfg: Config, s: State, acts: seq<Action>)
    requires Inv(cfg, s) && cfg.single && AtStage(cfg, Stamping, s)
    requires !Flag(s, 0) && !Flag(s, 1) && Feasible(s, acts)
    ensures SecondUntouched(cfg, Run(s, acts))
    ensures RxActions(acts) >= cfg.nsamp + 5 ==> OneBlock(cfg, Run(s, acts))
    ensures RxActions(acts) < cfg.nsamp + 5 ==> Run(s, acts).rx.ch.Busy?
    ensures Moved(Run(s, acts)) <= cfg.nsamp + 2
  {
    hide ProgramIntact, BufferInv, TimeInv, TxInv, PwmInv, AtStage, Extends, Step;
    var t := Run(s, acts);
    RunRely(cfg, s, acts);
    var st0 :| AtStage(cfg, st0, s) && st0.Stamping?;
    SingleBudget(cfg, s, st0);
    SingleData(cfg, s, st0);
    assert Advanced(cfg, s, 0);
    RxCycles(cfg, s, acts, 0);
    var st :| AtStage(cfg, st, t) && Taken(cfg, st, t) == Budget(cfg, RxActions(acts)) && !st.Waiting?;
    SingleBudget(cfg, t, st);
    StageBusy(cfg, t, st);
    SingleData(cfg, t, st);
  }

  /** In a single shot the first buffer is the only one filled. */
  lemma SingleData(cfg: Config, t: State, st: Stage)
    requires Base(cfg, t) && AtStage(cfg, st, t) && cfg.single
    ensures Completed(t) <= 1 && |t.clock| <= 1 && |t.fifo| <= cfg.nsamp
    ensures st.Stamping? ==> Completed(t) == 0
    ensures forall w | RXD2 <= w < RXD2 + cfg.nsamp :: t.mem[w] == 0
    ensures t.mem[USECS + 1] == 0
    ensures st.Halted? ==> Completed(t) == |t.clock| == 1 && |t.fifo| == cfg.nsamp
    ensures st.Halted? ==> t.mem[RXD1..RXD1 + cfg.nsamp] == t.fifo && [t.mem[USECS]] == t.clock
  {
    hide ProgramIntact, TxInv, PwmInv, At;
    assert Usecs(1) == USECS + 1 && Usecs(0) == USECS;
    forall w | RXD2 <= w < RXD2 + cfg.nsamp
      ensures t.mem[w] == 0
    {
      assert t.mem[Rxd(1) + (w - RXD2)] == Expected(cfg, t.fifo, Completed(t), 1, w - RXD2);
    }
    if st.Halted? {
      var first := t.mem[RXD1..RXD1 + cfg.nsamp];
      forall j | 0 <= j < cfg.nsamp
        ensures first[j] == t.fifo[j]
      {
        assert t.mem[Rxd(0) + j] == Expected(cfg, t.fifo, Completed(t), 0, j);
      }
    }
  }

  // ----- What the program finds in the memory -----

  /** A started receive channel that is not single-shot can always move another word. */
  lemma MovesOn(cfg: Config, s: State) returns (acts: seq<Action>)
    requires Inv(cfg, s) && s.rx.ch.Busy? && !cfg.single
    ensures Feasible(s, acts) && Moved(Run(s, acts)) > Moved(s)
  {
    hide ProgramIntact, BufferInv, TimeInv, TxInv, PwmInv, At, Step, Possible, Run, Feasible, Seen;
    var st :| AtStage(cfg, st, s);
    StageBusy(cfg, s, st);
    OneStep(s, 1);
    RxStep(cfg, s, st, 1);
    var t := Step(s, RxChan, 1);
    if MovesWord(cfg, st, s) {
      acts := [Action(RxChan, 1)];
    } else {
      OneStep(t, 1);
      RxStep(cfg, t, After(cfg, st, s), 1);
      acts := [Action(RxChan, 1), Action(RxChan, 1)];
      TwoSteps(s, 1);
    }
  }

  lemma OneStep(s: State, v: word)
    requires v != 0
    ensures Run(s, [Action(RxChan, v)]) == Step(s, RxChan, v) && Feasible(s, [Action(RxChan, v)])
    ensures Possible(s, Action(RxChan, v))
  {
    var a := Action(RxChan, v);
    assert [a][1..] == [];
    assert Run(Step(s, RxChan, v), []) == Step(s, RxChan, v);
  }

  lemma TwoSteps(s: State, v: word)
    requires v != 0
    ensures var a := Action(RxChan, v); var t := Step(s, RxChan, v);
            Run(s, [a, a]) == Run(t, [a]) && (Feasible(s, [a, a]) <==> Feasible(t, [a]))
  {
    assert [Action(RxChan, v), Action(RxChan, v)][1..] == [Action(RxChan, v)];
  }

  /** The program clears a flag. */
  function Cleared(s: State, b: nat): State
    requires |s.mem| == VC_MEM_WORDS && b < 2
  {
    s.(mem := s.mem[States(b) := 0])
  }

  lemma ClearedInv(cfg: Config, s: State, b: nat)
    requires Inv(cfg, s) && b < 2
    ensures Inv(cfg, Cleared(s, b)) && !Flag(Cleared(s, b), b) && Flag(Cleared(s, b), 1 - b) == Flag(s, 1 - b)
  {
    hide ProgramIntact, At;
    ProgramKept(cfg, s.mem, States(b), 0);
    var st :| AtStage(cfg, st, s);
    assert AtStage(cfg, st, Cleared(s, b));
  }

  ghost predicate Distinct(ws: seq<word>) { forall i, j | 0 <= i < j < |ws| :: ws[i] != ws[j] }

  /** With the last block finished, its buffer and its time stamp hold all of it. */
  lemma FinishedBlock(cfg: Config, s: State, k: nat)
    requires Base(cfg, s) && Completed(s) == k + 1 && (|s.clock| == k + 1 || |s.clock| == k + 2)
    ensures 0 <= k * cfg.nsamp <= (k + 1) * cfg.nsamp <= |s.fifo|
    ensures s.mem[Rxd(k % 2)..Rxd(k % 2) + cfg.nsamp] == s.fifo[k * cfg.nsamp..(k + 1) * cfg.nsamp]
    ensures s.mem[Usecs(k % 2)] == s.clock[k]
  {
    hide ProgramIntact, BufferInv, TxInv, PwmInv, Rxd;
    Offsets(cfg.nsamp, k);
    FinishedWords(cfg, s.mem, s.fifo, k);
  }

  lemma FinishedWords(cfg: Config, mem: seq<word>, fifo: seq<word>, k: nat)
    requires |mem| == VC_MEM_WORDS && cfg.nsamp <= MAX_SAMPS && (k + 1) * cfg.nsamp <= |fifo|
    requires BufferInv(cfg, mem, fifo, k + 1)
    ensures 0 <= Rxd(k % 2) && Rxd(k % 2) + cfg.nsamp <= VC_MEM_WORDS && 0 <= k * cfg.nsamp <= (k + 1) * cfg.nsamp
    ensures mem[Rxd(k % 2)..Rxd(k % 2) + cfg.nsamp] == fifo[k * cfg.nsamp..(k + 1) * cfg.nsamp]
  {
    hide BufferInv, Rxd;
    Offsets(cfg.nsamp, k);
    RxdFits(cfg, k % 2);
    var buffer := mem[Rxd(k % 2)..Rxd(k % 2) + cfg.nsamp];
    var block := fifo[k * cfg.nsamp..(k + 1) * cfg.nsamp];
    forall i | 0 <= i < cfg.nsamp
      ensures buffer[i] == block[i]
    {
      FinishedWord(cfg, mem, fifo, k, i);
    }
  }

  lemma RxdFits(cfg: Config, b: nat)
    requires b < 2 && cfg.nsamp <= MAX_SAMPS
    ensures 0 <= Rxd(b) && Rxd(b) + cfg.nsamp <= VC_MEM_WORDS
  {
  }

  lemma FinishedWord(cfg: Config, mem: seq<word>, fifo: seq<word>, k: nat, i: nat)
    requires |mem| == VC_MEM_WORDS && cfg.nsamp <= MAX_SAMPS && i < cfg.nsamp && (k + 1) * cfg.nsamp <= |fifo|
    requires BufferInv(cfg, mem, fifo, k + 1)
    ensures 0 <= k * cfg.nsamp + i < |fifo| && mem[Rxd(k % 2) + i] == fifo[k * cfg.nsamp + i]
  {
    hide Expected, Rxd;
    RxdFits(cfg, k % 2);
    ExpectedDone(cfg, fifo, k, i);
    assert mem[Rxd(k % 2) + i] == Expected(cfg, fifo, k + 1, k % 2, i);
  }

  lemma ExpectedDone(cfg: Config, fifo: seq<word>, k: nat, j: nat)
    requires j < cfg.nsamp && (k + 1) * cfg.nsamp <= |fifo|
    ensures 0 <= k * cfg.nsamp + j < |fifo| && Expected(cfg, fifo, k + 1, k % 2, j) == fifo[k * cfg.nsamp + j]
  {
    Offsets(cfg.nsamp, k);
    Offsets(cfg.nsamp, k + 1);
  }

  /** Clock words never run more than one ahead of the blocks. */
  lemma ClockAhead(cfg: Config, s: State)
    requires Inv(cfg, s)
    ensures Completed(s) <= |s.clock| <= Completed(s) + 1
  {
    hide ProgramIntact, BufferInv, TimeInv, TxInv, PwmInv, At;
    var st :| AtStage(cfg, st, s);
  }

  /** One flag set, of a block still owed: its buffer and time stamp are exactly that block, whole, and the
      DMA is not writing there. */
  lemma OwedBlock(cfg: Config, s: State, base: nat, b: nat)
    requires Inv(cfg, s) && Owed(Flag(s, 0), Flag(s, 1), base, Completed(s))
    requires b < 2 && Flag(s, b) && !Flag(s, 1 - b)
    ensures Completed(s) == base + 1 && base % 2 == b
    ensures 0 <= base * cfg.nsamp <= (base + 1) * cfg.nsamp <= |s.fifo| && base < |s.clock|
    ensures s.mem[Rxd(b)..Rxd(b) + cfg.nsamp] == s.fifo[base * cfg.nsamp..(base + 1) * cfg.nsamp]
    ensures s.mem[Usecs(b)] == s.clock[base]
  {
    hide ProgramIntact, BufferInv, TimeInv, TxInv, PwmInv, AtStage;
    ClockAhead(cfg, s);
    FinishedBlock(cfg, s, base);
  }

  /** Without readable flags the protocol breaks: a single flag that is not that of the last completed block
      belongs to the buffer being filled. That buffer holds the new words followed by the rest of an older
      block, which is no block of a stream whose words differ. */
  lemma UnreadableIsTorn(cfg: Config, s: State, b: nat, m: nat)
    requires Inv(cfg, s) && b < 2 && Flag(s, b) && !Flag(s, 1 - b) && Completed(s) >= 2
    requires !Readable(Flag(s, 0), Flag(s, 1), Completed(s))
    ensures 0 <= (Completed(s) - 2) * cfg.nsamp <= Completed(s) * cfg.nsamp <= |s.fifo|
    ensures var k, n, p := Completed(s), cfg.nsamp, Filled(cfg, s);
            s.mem[Rxd(b)..Rxd(b) + n] == s.fifo[k * n..] + s.fifo[(k - 2) * n + p..(k - 2) * n + n]
    ensures 0 < Filled(cfg, s) < cfg.nsamp && 0 <= m * cfg.nsamp <= (m + 1) * cfg.nsamp <= |s.fifo| &&
            Distinct(s.fifo) ==>
              s.mem[Rxd(b)..Rxd(b) + cfg.nsamp] != s.fifo[m * cfg.nsamp..(m + 1) * cfg.nsamp]
  {
    hide ProgramIntact, BufferInv, TimeInv, TxInv, PwmInv, AtStage, Distinct;
    var k, n, p := Completed(s), cfg.nsamp, Filled(cfg, s);
    Offsets(n, k);
    assert b == k % 2;
    FillingBuffer(cfg, s);
    if 0 < p < n && 0 <= m * n <= (m + 1) * n <= |s.fifo| {
      if Distinct(s.fifo) { MixedIsNoBlock(s.fifo, s.mem[Rxd(b)..Rxd(b) + n], k, m, n); }
    }
  }

  /** The buffer being filled: new words, then what is left of the block before last. */
  lemma FillingBuffer(cfg: Config, s: State)
    requires Base(cfg, s) && Completed(s) >= 2
    ensures 0 <= (Completed(s) - 2) * cfg.nsamp <= Completed(s) * cfg.nsamp <= |s.fifo|
    ensures var k, n, p := Completed(s), cfg.nsamp, Filled(cfg, s);
            (k - 2) * n + n <= |s.fifo| &&
            s.mem[Rxd(k % 2)..Rxd(k % 2) + n] == s.fifo[k * n..] + s.fifo[(k - 2) * n + p..(k - 2) * n + n]
  {
    hide ProgramIntact, TimeInv, TxInv, PwmInv;
    var k, n, p := Completed(s), cfg.nsamp, Filled(cfg, s);
    Offsets(n, k);
    var buffer := s.mem[Rxd(k % 2)..Rxd(k % 2) + n];
    var mixed := s.fifo[k * n..] + s.fifo[(k - 2) * n + p..(k - 2) * n + n];
    forall j | 0 <= j < n
      ensures buffer[j] == mixed[j]
    {
      assert s.mem[Rxd(k % 2) + j] == Expected(cfg, s.fifo, k, k % 2, j);
    }
  }

  /** Words that begin like an unfinished block k are no finished block m, if all words differ. */
  lemma MixedIsNoBlock(fifo: seq<word>, ws: seq<word>, k: nat, m: nat, n: nat)
    requires 0 <= k * n < |fifo| < (k + 1) * n && 0 <= m * n <= (m + 1) * n <= |fifo|
    requires |ws| == n && ws[0] == fifo[k * n] && Distinct(fifo)
    ensures ws != fifo[m * n..(m + 1) * n]
  {
    Offsets(n, m);
    Offsets(n, k);
    assert m * n < k * n;
    assert fifo[m * n..(m + 1) * n][0] == fifo[m * n];
  }

  // ----- Triggering -----

  /** Over any run, the trigger channel's writes are rounds of PWM wait, transfer length, SPI activation; so
      every activation comes after a transfer length of two bytes and after a PWM word that leaves two counts of the
      range for the conversion pulse, both written since the activation before it. */
  lemma ActivationsAreArmed(cfg: Config, s: State, i: nat)
    requires Inv(cfg, s) && i < |s.pwm.log| && s.pwm.log[i].reg == 0x7E20_4000
    ensures i >= 2 && s.pwm.log[i].value == 0x180 && s.pwm.log[i - 1] == Write(0x7E20_400C, 2)
    ensures s.pwm.log[i - 2] ==
            Write(0x7E20_C018, if cfg.pwmRange >= 2 then cfg.pwmRange - 2 else cfg.pwmRange + 0xFFFF_FFFE)
    ensures i >= 3 ==> s.pwm.log[i - 3] == s.pwm.log[i]
  {
    hide ProgramIntact, BufferInv, TimeInv, TxInv, At;
    assert s.pwm.log[i] == Trigger(cfg, i % 3);
    assert s.pwm.log[i - 1] == Trigger(cfg, (i - 1) % 3);
    assert s.pwm.log[i - 2] == Trigger(cfg, (i - 2) % 3);
  }

  /** The transmit channel sends nothing but the word 0xd0 to the SPI, however many channels are asked for. */
  lemma DummiesSent(cfg: Config, s: State, t: nat)
    requires Inv(cfg, s) && t < |s.tx.log|
    ensures s.tx.log[t] == Write(0x7E20_4004, 0xd0)
  {
    hide ProgramIntact, BufferInv, TimeInv, PwmInv, At;
  }

  /** The constants in the memory, at any time: sample length, PWM word, SPI activation, two words to transmit, of
      which the second is not used, and the mask of pin 14. */
  lemma ConstantsStay(cfg: Config, s: State)
    requires Inv(cfg, s)
    ensures |s.mem| == VC_MEM_WORDS && s.mem[96] == 2 && s.mem[98] == 0x180 && s.mem[99] == 0xd0
    ensures s.mem[97] == if cfg.pwmRange >= 2 then cfg.pwmRange - 2 else cfg.pwmRange + 0xFFFF_FFFE
    ensures s.mem[100] == (if cfg.chans > 1 then 0xf0 else 0xd0) && s.mem[101] == 0x4000
  {
    hide BufferInv, TimeInv, TxInv, PwmInv, At, AtStage, Cb;
    assert forall c | 0 <= c < 6 :: s.mem[SAMP_SIZE..USECS][c] == s.mem[SAMP_SIZE + c];
  }
}
