/** The polling consumer of rpi_adc_stream.c. Every access to the shared memory may be preceded by any number
    of DMA steps. */
module Streamer {
  import opened Words
  import opened Layout
  import opened DmaEngine
  import opened PingPong
  import opened DmaProgram
  import opened DmaRuns
  import opened Schedules
  import opened Snapshots
  import opened Polling
  import opened Sharing
  import opened Calls
  import opened History
  import opened Packet
  import opened Datagrams
  import opened Csv
  import opened Lines
  import opened RawFormat

  /** What one look at a buffer finds: nothing, an overrun, or a block, now in rx_buff. */
  datatype Outcome = Empty | Lost | Got(usec: word)

  /** A write to a register of the DMA controller. */
  datatype RegWrite = RegWrite(chan: Chan, reg: word, value: word)

  /** The writes that start a channel: address of its first control block, end flag and error bits cleared,
      active bit set. */
  function Startup(cfg: Config, c: Chan): seq<RegWrite>
    requires ValidConfig(cfg)
  {
    [RegWrite(c, DMA_CONBLK_AD, CbAddr(cfg, First(c))), RegWrite(c, DMA_CS, 2),
     RegWrite(c, DMA_DEBUG, 7), RegWrite(c, DMA_CS, 1)]
  }

  /** The bus address of the channel's first control block, then 2 to the status register to clear its end flag, 7 to
      the debug register to clear three error bits, and 1 to the status register. */
  lemma StartupIs(cfg: Config, c: Chan)
    requires ValidConfig(cfg)
    ensures var first := match c case PwmChan => 7 case RxChan => 0 case TxChan => 6;
            Startup(cfg, c) == [RegWrite(c, 0x04, MemBusAddr(cfg, cfg.virt + 32 * first)), RegWrite(c, 0x00, 2),
                                RegWrite(c, 0x20, 7), RegWrite(c, 0x00, 1)]
  {
    BusMapping(cfg, 8 * First(c));
  }

  /** What a look at a buffer found, without the time stamp. */
  function LookOf(r: Outcome): Look {
    match r case Empty => Nothing case Lost => Overran case Got(_) => Whole
  }

  class Adc {
    const cfg: Config
    const rxBuff: array<word>
    const env: Schedule
    var board: State
    // Positions in the schedule: accesses to the shared memory and sleeps so far.
    var tick: nat
    var naps: nat
    var sampTotal: word
    var overrunTotal: word
    var nrPackets: int
    var usecStart: word
    // Every write to the DMA controller, in order.
    var regs: seq<RegWrite>
    // What was sent so far, and the events of each call that sent something.
    var sent: seq<seq<byte>>
    ghost var calls: seq<seq<Event>>
    // The FIFO is open; the blocks whose lines were written to it.
    var fifoOpen: bool
    ghost var printed: seq<Event>
    // Where each of these calls ended.
    ghost var marks: seq<Mark>
    // Receive steps offered when the receive channel was started; -1 before that.
    ghost var began: int
    // The first block not yet accounted for, completions that nobody saw, and what was done with the others.
    ghost var base: nat
    ghost var landed: nat
    ghost var history: seq<Event>
    // The completions around every clearing of flags so far.
    ghost var windows: seq<Window>

    /** Every clearing of flags was in time. It is enough that at most one block ever completes between the
        test of the second flag and the end of the clearing. */
    ghost predicate Timely()
      reads this`windows
    {
      AllInTime(windows)
    }

    /** Flags, memory and history fit together. In a single shot, and under a steady schedule, every clearing
        is in time. */
    ghost predicate Fits()
      reads this`board, this`landed, this`base, this`history, this`windows, this`tick
    {
      && Inv(cfg, board) && |board.mem| == VC_MEM_WORDS && 1 <= cfg.nsamp <= MAX_SAMPS == rxBuff.Length
      && Fitting(cfg, env, board, tick, base, landed, history, windows)
    }

    /** Receive steps that the schedule has offered since the receive channel was started. */
    ghost function Elapsed(): int
      reads this`tick, this`naps, this`began
    {
      GapSteps(env, tick) + NapSteps(env, naps) - began
    }

    /** The receive channel is exactly as far as the schedule says. */
    ghost predicate Paced()
      reads this`board, this`tick, this`naps, this`began
    {
      Pacing(cfg, board, began, Elapsed())
    }

    ghost function PaceOf(): Pace
      reads this`began
    {
      Polling.Pace.Pace(cfg, env, began)
    }

    /** Where the program is. */
    ghost function Here(): Mark
      reads this`tick, this`naps, this`base, this`board, this`windows
    {
      Mark(tick, naps, base, FlagsOf(board), windows)
    }

    ghost predicate Linked()
      reads this`board, this`landed, this`base, this`history, this`windows, this`tick, this`naps, this`began
    {
      Fits() && Paced()
    }

    /** The global counters, in their machine width, follow from the history. */
    ghost predicate Counted()
      reads this`sampTotal, this`overrunTotal, this`usecStart, this`history
    {
      && sampTotal == SampTotal(cfg.nsamp, history)
      && overrunTotal == Wrap(OverrunCount(history))
      && usecStart == FirstStamp(history)
    }

    /** The samples of the block just read are counted, but not yet what becomes of it. */
    ghost predicate Counting()
      reads this`sampTotal, this`overrunTotal, this`usecStart, this`history
    {
      && sampTotal == Wrap(SampTotal(cfg.nsamp, history) + cfg.nsamp)
      && overrunTotal == Wrap(OverrunCount(history))
      && usecStart == FirstStamp(history)
    }

    ghost predicate Valid()
      reads this`board, this`landed, this`base, this`history, this`windows, this`tick, this`naps, this`began
      reads this`sampTotal, this`overrunTotal, this`usecStart
    {
      Linked() && Counted() && began >= 0
    }

    constructor (cfg: Config, board: State, env: Schedule)
      requires ValidConfig(cfg) && Contained(cfg, board)
      ensures this.cfg == cfg && this.board == board && this.env == env && rxBuff.Length == MAX_SAMPS && fresh(rxBuff)
      ensures sampTotal == overrunTotal == usecStart == 0 && nrPackets == 0 && sent == [] && regs == []
      ensures !fifoOpen && printed == []
      ensures base == landed == tick == naps == 0 && began == -1
      ensures history == [] && calls == [] && windows == [] && marks == []
    {
      this.cfg, this.board, this.env := cfg, board, env;
      rxBuff := new word[MAX_SAMPS];
      tick, naps, began := 0, 0, -1;
      fifoOpen, printed := false, [];
      sampTotal, overrunTotal, nrPackets, usecStart, sent, regs := 0, 0, 0, 0, [], [];
      base, landed, history, calls, windows, marks := 0, 0, [], [], [], [];
    }

    /** start_dma: four register writes, with the channels already started running in between. */
    method StartDma(c: Chan)
      requires Linked() && Unstarted(board, c) && (c.RxChan? ==> began < 0)
      modifies this`board, this`landed, this`tick, this`began, this`regs
      ensures Linked() && OthersKept(cfg, old(board), board, c)
      ensures Runs(c) || (c.RxChan? && cfg.single)
      ensures regs == old(regs) + Startup(cfg, c) && tick == old(tick) + 4
      ensures began == if c.RxChan? then GapSteps(env, tick) + NapSteps(env, naps) else old(began)
    {
      InvOfFits();
      hide Fits, Paced, Runs, Unstarted, UnitOf, CbAddr, Inv, GapSteps, NapSteps, OthersKept, First;
      ghost var s := board;
      PrepareDma(c);
      ghost var t := board;
      StartReg(c);
      OthersJoin(cfg, s, t, board, c);
      Concat4(old(regs), Startup(cfg, c));
    }

    /** The three writes that do not start the channel. */
    method PrepareDma(c: Chan)
      requires Linked() && Unstarted(board, c) && (c.RxChan? ==> began < 0) && ValidConfig(cfg)
      modifies this`board, this`landed, this`tick, this`regs
      ensures Linked() && OthersKept(cfg, old(board), board, c) && Unstarted(board, c)
      ensures UnitOf(board, c).ch == Idle(CbAddr(cfg, First(c))) && tick == old(tick) + 3
      ensures regs == old(regs) + [Startup(cfg, c)[0]] + [Startup(cfg, c)[1]] + [Startup(cfg, c)[2]]
    {
      hide Fits, Paced, Runs, Unstarted, UnitOf, CbAddr, ValidConfig, Inv, OthersKept;
      ghost var s := board;
      WriteReg(c, DMA_CONBLK_AD, CbAddr(cfg, First(c)));
      ghost var t := board;
      WriteReg(c, DMA_CS, 2);
      ghost var u := board;
      OthersJoin(cfg, s, t, u, c);
      WriteReg(c, DMA_DEBUG, 7);
      OthersJoin(cfg, s, u, board, c);
    }

    ghost predicate Runs(c: Chan)
      reads this`board
    {
      Works(cfg, board, c)
    }

    /** The register write that starts the channel on its first control block. */
    method StartReg(c: Chan)
      requires Linked() && Unstarted(board, c) && UnitOf(board, c).ch == Idle(CbAddr(cfg, First(c)))
      requires c.RxChan? ==> began < 0
      modifies this`board, this`landed, this`tick, this`began, this`regs
      ensures Linked() && (Runs(c) || (c.RxChan? && cfg.single))
      ensures regs == old(regs) + [RegWrite(c, DMA_CS, 1)] && tick == old(tick) + 1
      ensures began == if c.RxChan? then GapSteps(env, tick) + NapSteps(env, naps) else old(began)
      ensures OthersKept(cfg, old(board), board, c)
    {
      hide Inv, Fitting, Seen, WriteDmaReg, CbAddr, ValidConfig, Cb, Pacing, GapSteps, NapSteps, SteadyUpTo,
           FlagCount, Run, Admitted, Landings, Waited, Grown, Here;
      Interfere();
      ActiveRegister(cfg, board, c);
      ghost var s := board;
      board := WriteDmaReg(board, c, DMA_CS, 1);
      regs := regs + [RegWrite(c, DMA_CS, 1)];
      SameFits(cfg, env, s, board, tick, base, landed, history, windows);
      if c.RxChan? {
        StartPace(cfg, s, board);
        began := GapSteps(env, tick) + NapSteps(env, naps);
      } else {
        SamePace(cfg, s, board, began, Elapsed());
      }
    }

    /** A register write that does not start the channel. */
    method WriteReg(c: Chan, reg: word, v: word)
      requires Linked() && Unstarted(board, c) && (reg == DMA_CS ==> v % 2 == 0) && (c.RxChan? ==> began < 0)
      modifies this`board, this`landed, this`tick, this`regs
      ensures Linked() && Unstarted(board, c) && regs == old(regs) + [RegWrite(c, reg, v)] && tick == old(tick) + 1
      ensures UnitOf(board, c).ch == if reg == DMA_CONBLK_AD then Idle(v) else old(UnitOf(board, c).ch)
      ensures OthersKept(cfg, old(board), board, c)
    {
      hide Inv, Fitting, Seen, WriteDmaReg, Pacing, GapSteps, NapSteps, SteadyUpTo, FlagCount, Run, Admitted,
           Landings, Waited, Grown, Here;
      Interfere();
      QuietRegister(cfg, board, c, reg, v);
      ghost var s := board;
      board := WriteDmaReg(board, c, reg, v);
      regs := regs + [RegWrite(c, reg, v)];
      SameFits(cfg, env, s, board, tick, base, landed, history, windows);
      if c.RxChan? {
        WaitingPace(cfg, board, began, Elapsed());
      } else {
        SamePace(cfg, s, board, began, Elapsed());
      }
    }

    /** Copies the program into the uncached memory and starts the transmit, receive and trigger channels, in
        this order; none of them stops, but for the receive channel of a single shot. */
    method AdcDmaInit()
      requires PowerOn(cfg, board) && rxBuff.Length == MAX_SAMPS
      requires sampTotal == overrunTotal == usecStart == 0 && base == landed == 0 && history == [] && windows == []
      requires began < 0
      modifies this`board, this`landed, this`tick, this`began, this`regs
      ensures Valid() && Runs(TxChan) && Runs(PwmChan) && (!cfg.single ==> Streaming())
      ensures board.tx.ch.Busy? && board.pwm.ch.Busy? && (!cfg.single ==> board.rx.ch.Busy?)
      ensures regs == old(regs) + Startup(cfg, TxChan) + Startup(cfg, RxChan) + Startup(cfg, PwmChan)
      ensures tick == old(tick) + 12 && began == GapSteps(env, old(tick) + 8) + NapSteps(env, naps)
      ensures |board.mem| == VC_MEM_WORDS
      ensures board.mem[97] == if cfg.pwmRange >= 2 then cfg.pwmRange - 2 else cfg.pwmRange + 0xFFFF_FFFE
    {
      hide Inv, Image, Flag, CbAddr, Pacing, GapSteps, NapSteps, Startup, Fitting, OthersKept, Unstarted, Works;
      board := board.(mem := Image(cfg) + board.mem[DATA_WORDS..]);
      StartsLinked(cfg, board);
      NothingFits(cfg, env, board, tick);
      WaitingPace(cfg, board, began, Elapsed());
      ghost var s0 := board;
      StartDma(TxChan);
      ghost var s1 := board;
      KeptUnstarted(cfg, s0, s1, TxChan, RxChan);
      KeptUnstarted(cfg, s0, s1, TxChan, PwmChan);
      StartDma(RxChan);
      ghost var s2 := board;
      KeptUnstarted(cfg, s1, s2, RxChan, PwmChan);
      KeptWorks(cfg, s1, s2, RxChan, TxChan);
      StartDma(PwmChan);
      KeptWorks(cfg, s2, board, PwmChan, TxChan);
      KeptWorks(cfg, s2, board, PwmChan, RxChan);
      WorkingBusy(cfg, board);
      StartOfPass();
      ConstantsStay(cfg, board);
    }

    // ----- Sharing the memory with the DMA -----

    /** The DMA runs as the schedule says before the next access. Under a steady schedule it completes at most
        one block. */
    method Interfere()
      requires Inv(cfg, board) && Paced()
      modifies this`board, this`landed, this`tick
      ensures board == Run(old(board), Admitted(old(board), env.gap(old(tick))))
      ensures landed == old(landed) + Landings(old(board), Admitted(old(board), env.gap(old(tick))))
      ensures Rely(cfg, old(board), board) && Paced() && tick == old(tick) + 1 && Grown(old(board), board)
      ensures began >= 0 ==> Here() == Waited(PaceOf(), old(Here()), 1)
      ensures Completed(board) - Completed(old(board)) ==
              landed - old(landed) + FlagCount(board) - FlagCount(old(board))
      ensures SteadyUpTo(cfg, env, tick) ==>
                SteadyUpTo(cfg, env, old(tick)) && Completed(board) <= Completed(old(board)) + 1
      ensures old(Fits()) ==> Fits()
    {
      hide Inv, Rely, Pacing, Blocks, Flag, Owed, Tiles, Faithful, FlagCount, TookCount, OverrunCount, AllInTime,
           SteadyUpTo, Feasible, Run, RxActions, Admitted, Landings, BlocksAt, Later;
      ghost var s, e, m := board, Elapsed(), Here();
      MemorySize(cfg, s);
      if began >= 0 { Count(); }
      var acts := Admitted(board, env.gap(tick));
      RunBoard(acts);
      KeepPace(cfg, s, acts, began, e);
      NextSteady(cfg, env, tick);
      tick := tick + 1;
      RelyKeeps(cfg, s, board);
      if began >= 0 {
        Count();
        WaitedFlags(PaceOf(), s, board, m, 1);
      }
    }

    /** The program sleeps, and the DMA runs as the schedule says. */
    method Sleep()
      requires Valid()
      modifies this`board, this`landed, this`naps
      ensures board == Run(old(board), Admitted(old(board), env.nap(old(naps))))
      ensures landed == old(landed) + Landings(old(board), Admitted(old(board), env.nap(old(naps))))
      ensures Valid() && |old(board).mem| == |board.mem| == VC_MEM_WORDS && Grown(old(board), board)
      ensures Rely(cfg, old(board), board) && (old(Streaming()) ==> Streaming())
      ensures Here() == AfterNap(PaceOf(), old(Here()))
    {
      hide Inv, Rely, Pacing, Fits, Counted, Feasible, Run, RxActions, FlagCount, Blocks, Admitted, Landings,
           BlocksAt, Later;
      ghost var s, e, m := board, Elapsed(), Here();
      InvOfFits();
      Count();
      var acts := Admitted(board, env.nap(naps));
      RunBoard(acts);
      KeepPace(cfg, s, acts, began, e);
      naps := naps + 1;
      InvOfFits();
      Count();
      RestedFlags(PaceOf(), s, board, m);
      SeenClear(cfg, s, board, 0);
    }

    lemma InvOfFits()
      requires Fits()
      ensures Inv(cfg, board) && ValidConfig(cfg)
      ensures |board.mem| == VC_MEM_WORDS && 1 <= cfg.nsamp <= MAX_SAMPS == rxBuff.Length
    {
    }

    lemma FlagsOwed()
      requires Linked()
      ensures Inv(cfg, board) && Paced() && |board.mem| == VC_MEM_WORDS && 1 <= cfg.nsamp <= MAX_SAMPS == rxBuff.Length
      ensures Timely() ==> Owed(Flag(board, 0), Flag(board, 1), base, Completed(board))
    {
    }

    method RunBoard(acts: seq<Action>)
      requires Inv(cfg, board) && Feasible(board, acts)
      modifies this`board, this`landed
      ensures board == Run(old(board), acts) && landed == old(landed) + Landings(old(board), acts)
      ensures Rely(cfg, old(board), board) && Grown(old(board), board)
      ensures Completed(board) - Completed(old(board)) ==
              landed - old(landed) + FlagCount(board) - FlagCount(old(board))
      ensures old(Fits()) ==> Fits()
    {
      hide Inv, Rely, Flag, Owed, Tiles, Faithful, FlagCount, TookCount, OverrunCount, AllInTime, SteadyUpTo;
      ghost var s, fits := board, Fits();
      MemorySize(cfg, s);
      RunRely(cfg, s, acts);
      landed := landed + Landings(s, acts);
      board := Run(board, acts);
      RelyKeeps(cfg, s, board);
      if fits && Timely() {
        OwedLater(cfg, s, board, base);
        FaithfulLater(history, cfg.nsamp, s.fifo, s.clock, board.fifo, board.clock);
      }
    }

    /** Reads one word of the shared memory. */
    method ReadWord(w: nat) returns (v: word)
      requires Linked() && w < VC_MEM_WORDS
      modifies this`board, this`landed, this`tick
      ensures Linked() && Rely(cfg, old(board), board) && tick == old(tick) + 1 && Grown(old(board), board)
      ensures |board.mem| == VC_MEM_WORDS && v == board.mem[w]
      ensures began >= 0 ==> Here() == Waited(PaceOf(), old(Here()), 1)
    {
      hide Inv, Rely, Pacing, AllInTime, Tiles, Faithful, Owed, Run, Admitted, Landings, Waited;
      Interfere();
      v := board.mem[w];
    }

    /** The number of completed blocks is what the schedule makes it. */
    lemma Count()
      requires Inv(cfg, board) && Paced() && began >= 0
      ensures Completed(board) == BlocksAt(PaceOf(), tick, naps)
    {
      hide Inv, Blocks;
      PaceBlocks(cfg, board, began, Elapsed());
    }

    /** What the buffers hold and how long the streams are is what the schedule makes it. */
    lemma See(n: nat, j: nat)
      requires Linked() && began >= 0 && n < 2 && j < cfg.nsamp
      ensures Inv(cfg, board) && |board.mem| == VC_MEM_WORDS && Rxd(n) + j < VC_MEM_WORDS
      ensures var steps := StepsAt(PaceOf(), tick, naps);
              && |board.fifo| == StreamLen(cfg, steps) && |board.clock| == StampLen(cfg, steps)
              && board.mem[Rxd(n) + j] == WordSeen(cfg, board.fifo, steps, n, j)
              && board.mem[Usecs(n)] == StampSeen(cfg, board.clock, steps, n)
    {
      hide Inv, Pacing, WordSeen, StampSeen, StreamLen, StampLen;
      PaceStreams(cfg, board, began, Elapsed());
      PaceSees(cfg, board, began, Elapsed(), n, j);
    }

    /** memcpy of buffer n into rx_buff, a word at a time. If block k was the first one waiting (`sure`) and the
        other flag is still clear at the end, what was copied is block k, whole. */
    method CopyBuffer(n: nat, ghost k: nat, ghost sure: bool)
      requires Linked() && n < 2 && Flag(board, n) && began >= 0
      requires sure ==> Owed(Flag(board, 0), Flag(board, 1), k, Completed(board))
      modifies this`board, this`landed, this`tick, rxBuff
      ensures Linked() && Rely(cfg, old(board), board) && |board.mem| == VC_MEM_WORDS && Flag(board, n)
      ensures Here() == Waited(PaceOf(), old(Here()), cfg.nsamp) && Grown(old(board), board)
      ensures rxBuff[..cfg.nsamp] == Snapshot(PaceOf(), board.fifo, old(tick), naps, n, cfg.nsamp)
      ensures sure ==> Owed(Flag(board, 0), Flag(board, 1), k, Completed(board))
      ensures sure ==> Copied(cfg, board, k, n, rxBuff[..cfg.nsamp])
    {
      hide Inv, Flag, Copied, Tiles, Faithful, Rely, Owed, FlagCount, Paced, AllInTime, Waited, Fitting, WordSeen,
           StampSeen, StreamLen, StampLen, StepsAt;
      ghost var p, m := PaceOf(), Here();
      assert rxBuff[..0] == [];
      NoWait(p, m);
      NothingCopied(cfg, board, k, n, sure);
      RelySelf(cfg, board);
      var i := 0;
      while i < cfg.nsamp
        invariant 0 <= i <= cfg.nsamp <= rxBuff.Length && tick == old(tick) + i && Here() == Waited(p, m, i)
        invariant Grown(old(board), board)
        invariant rxBuff[..i] == Snapshot(p, board.fifo, old(tick), naps, n, i)
        invariant Linked() && Rely(cfg, old(board), board) && |board.mem| == VC_MEM_WORDS && Flag(board, n)
        invariant sure ==> Owed(Flag(board, 0), Flag(board, 1), k, Completed(board))
        invariant sure ==> Copied(cfg, board, k, n, rxBuff[..i])
      {
        ghost var before := board;
        See(n, i);
        var v := ReadWord(Rxd(n) + i);
        See(n, i);
        WaitedJoin(p, m, i, 1);
        SnapshotNext(p, before.fifo, board.fifo, old(tick), naps, n, i, v);
        if sure { OwedLater(cfg, before, board, k); }
        CopyWord(cfg, before, board, k, n, rxBuff[..i], sure);
        RelyChain(cfg, old(board), before, board, n);
        rxBuff[i] := v;
        assert rxBuff[..i + 1] == rxBuff[..i] + [v];
        i := i + 1;
      }
    }

    /** Copies buffer n, whose flag is set, reads its time stamp and tests the other flag. If that is clear, and
        the flags were readable when this one was seen set, what was read is the last completed block, whole;
        it is the one block still owed if all clearings were in time. */
    method Examine(n: nat) returns (usec: word, other: word)
      requires Linked() && n < 2 && Flag(board, n) && began >= 0
      modifies this`board, this`landed, this`tick, rxBuff
      ensures Linked() && Rely(cfg, old(board), board) && Grown(old(board), board)
      ensures |board.mem| == VC_MEM_WORDS && Flag(board, n) && other == board.mem[States(1 - n)]
      ensures Here() == Waited(PaceOf(), old(Here()), cfg.nsamp + 2)
      ensures Read(PaceOf(), board.fifo, board.clock, old(Here()), n, rxBuff[..cfg.nsamp], usec)
      ensures old(Readable(Flag(board, 0), Flag(board, 1), Completed(board))) && other == 0 ==>
                && Completed(board) >= 1 && (Completed(board) - 1) % 2 == n
                && IsBlock(Took(Completed(board) - 1, rxBuff[..cfg.nsamp], usec), cfg.nsamp, board.fifo, board.clock)
      ensures Timely() ==> old(Readable(Flag(board, 0), Flag(board, 1), Completed(board)))
      ensures Timely() ==> (if other == 0 then base == Completed(board) - 1 else Completed(board) >= base + 2)
    {
      hide Inv, Copied, Tiles, Faithful, Rely, IsBlock, Pacing, AllInTime, FlagCount, Readable, Owed,
           SteadyUpTo, GapSteps, NapSteps, Fits, Paced, FirstWaiting, Later, BlocksAt, Snapshot, StampSeen, WordSeen,
           StreamLen, StampLen, StepsAt, Read, Flag;
      FlagsOwed();
      ghost var k, sure := FirstWaiting(board), Readable(Flag(board, 0), Flag(board, 1), Completed(board));
      ghost var p, m := PaceOf(), Here();
      if Timely() { OwedReads(Flag(board, 0), Flag(board, 1), base, Completed(board)); }
      WaitingOwed(board);
      CopyBuffer(n, k, sure);
      ghost var s2 := board;
      See(n, 0);
      usec := ReadWord(Usecs(n));
      ghost var s3 := board;
      See(n, 0);
      ReadTogether(p, s2.fifo, s3.fifo, s3.clock, m, n, rxBuff[..cfg.nsamp], usec);
      other := ReadWord(States(1 - n));
      ReadStays(p, s3.fifo, s3.clock, board.fifo, board.clock, m, n, rxBuff[..cfg.nsamp], usec);
      WaitedJoin(p, m, cfg.nsamp, 1);
      WaitedJoin(p, m, cfg.nsamp + 1, 1);
      Examined(cfg, old(board), s2, s3, board, k, n, rxBuff[..cfg.nsamp], usec, sure);
      FlagsOwed();
      if Timely() { OwedOne(board, base, n); }
      FlagIs(board, 1 - n);
    }

    /** Clears states[b]; `seen` is the shared state just before the write. */
    method ClearState(b: nat) returns (ghost seen: State)
      requires Inv(cfg, board) && Paced() && b < 2
      modifies this`board, this`landed, this`tick
      ensures Rely(cfg, old(board), seen) && board == Cleared(seen, b) && Inv(cfg, board) && Paced()
      ensures |seen.mem| == |board.mem| == VC_MEM_WORDS && tick == old(tick) + 1
      ensures !Flag(board, b) && Flag(board, 1 - b) == Flag(seen, 1 - b)
      ensures Completed(seen) - Completed(old(board)) ==
              landed - old(landed) + FlagCount(seen) - FlagCount(old(board))
      ensures SteadyUpTo(cfg, env, tick) ==>
                SteadyUpTo(cfg, env, old(tick)) && Completed(seen) <= Completed(old(board)) + 1
      ensures began >= 0 ==> Here() == ClearedAt(PaceOf(), old(Here()), b) && Grown(old(board), board)
    {
      Interfere();
      seen := board;
      hide Inv, Flag, Pacing, Waited, Run, Admitted, Landings, FlagsOf;
      ClearedInv(cfg, board, b);
      board := Cleared(board, b);
      ClearedPace(cfg, seen, b, began, Elapsed());
      FlagsCleared(seen, b);
    }

    /** Clears flag n, which is set. */
    method ClearSet(n: nat) returns (ghost seen: State)
      requires Inv(cfg, board) && |board.mem| == VC_MEM_WORDS && Paced() && n < 2 && Flag(board, n)
      modifies this`board, this`landed, this`tick
      ensures |seen.mem| == |board.mem| == VC_MEM_WORDS && board == Cleared(seen, n) && tick == old(tick) + 1
      ensures Inv(cfg, board) && Paced() && Rely(cfg, old(board), seen)
      ensures Completed(old(board)) <= Completed(seen) == Completed(board)
      ensures Completed(board) - Completed(old(board)) ==
              landed - old(landed) + FlagCount(board) + 1 - FlagCount(old(board))
      ensures old(board).rx.ch.Busy? && !cfg.single ==> board.rx.ch.Busy?
      ensures SteadyUpTo(cfg, env, tick) ==>
                SteadyUpTo(cfg, env, old(tick)) && Completed(board) <= Completed(old(board)) + 1
      ensures began >= 0 ==> Here() == ClearedAt(PaceOf(), old(Here()), n) && Grown(old(board), board)
    {
      hide Inv, Rely, FlagCount, Flag, Pacing, SteadyUpTo, GapSteps, NapSteps, ClearedAt, FlagsOf;
      ghost var s := board;
      seen := ClearState(n);
      FlagStays(cfg, s, seen, n);
      ClearedCount(seen, n);
    }

    /** Clears the flag of the block just read and takes the block. */
    method Accept(n: nat, usec: word)
      requires Linked() && Counting() && n < 2 && Flag(board, n) && !Flag(board, 1 - n) && began >= 0
      requires Timely() ==> IsBlock(Took(base, rxBuff[..cfg.nsamp], usec), cfg.nsamp, board.fifo, board.clock)
      modifies this`board, this`landed, this`tick, this`history, this`base, this`windows, this`usecStart
      ensures Linked() && Counted() && (old(board).rx.ch.Busy? && !cfg.single ==> board.rx.ch.Busy?)
      ensures history == old(history) + [Took(old(base), rxBuff[..cfg.nsamp], usec)]
      ensures Here() == TakenAt(PaceOf(), old(Here()), n) && Grown(old(board), board)
      ensures usecStart == if old(usecStart) == 0 then usec else old(usecStart)
    {
      hide Inv, IsBlock, Rely, FlagCount, Flag, Paced, Fitting, SteadyUpTo, AllInTime, Cleared, BlocksAt, FlagsOf,
           Later, SampTotal, Wrap, TookCount, OverrunCount, FirstStamp, Tiles, Faithful, Owed;
      ghost var s, d, t := board, landed, tick;
      ghost var e := Took(base, rxBuff[..cfg.nsamp], usec);
      Count();
      ghost var seen := ClearSet(n);
      Count();
      AcceptFits(cfg, env, s, seen, t, base, d, landed, history, windows, n, e);
      windows := windows + [Clearing(Completed(s), Completed(board))];
      CountEvent(cfg.nsamp, history, e);
      history := history + [e];
      base := base + 1;
      if usecStart == 0 {
        usecStart := usec;
      }
    }

    /** Clears flag 1, then flag 0; `seen1` and `seen0` are the shared states just before the two writes. */
    method ClearBoth() returns (ghost seen1: State, ghost seen0: State)
      requires Inv(cfg, board) && |board.mem| == VC_MEM_WORDS && Paced() && Flag(board, 0) && Flag(board, 1)
      requires began >= 0
      modifies this`board, this`landed, this`tick
      ensures |seen1.mem| == |seen0.mem| == |board.mem| == VC_MEM_WORDS
      ensures Inv(cfg, board) && Paced() && tick == old(tick) + 2 && board == Cleared(seen0, 0)
      ensures Here() == ClearedAt(PaceOf(), ClearedAt(PaceOf(), old(Here()), 1), 0) && Grown(old(board), board)
      ensures Rely(cfg, old(board), seen1) && Rely(cfg, Cleared(seen1, 1), seen0)
      ensures Completed(old(board)) <= Completed(seen1) == BlocksAt(PaceOf(), old(tick) + 1, naps)
      ensures Completed(seen1) <= Completed(seen0) == Completed(board) == BlocksAt(PaceOf(), tick, naps)
      ensures Completed(board) - Completed(old(board)) ==
              landed - old(landed) + FlagCount(board) + 2 - FlagCount(old(board))
      ensures old(board).rx.ch.Busy? && !cfg.single ==> board.rx.ch.Busy?
      ensures SteadyUpTo(cfg, env, tick) ==>
                SteadyUpTo(cfg, env, old(tick)) && Completed(seen0) <= Completed(seen1) + 1
    {
      hide Inv, Rely, FlagCount, Flag, Pacing, SteadyUpTo, BlocksAt, GapSteps, NapSteps, Later, FlagsOf;
      ghost var s := board;
      seen1 := ClearState(1);
      Count();
      seen0 := ClearState(0);
      Count();
      TwoCleared(cfg, s, seen1, seen0);
    }

    /** Both flags were set: clears flag 1, then flag 0, and gives up the blocks that were waiting. */
    method Reset()
      requires Linked() && Counting() && Flag(board, 0) && Flag(board, 1) && began >= 0
      modifies this`board, this`landed, this`tick, this`history, this`base, this`windows, this`overrunTotal
      ensures Linked() && Counted() && (old(board).rx.ch.Busy? && !cfg.single ==> board.rx.ch.Busy?)
      ensures history == old(history) + [Overrun(old(base), base)] && overrunTotal == Wrap(old(overrunTotal) + 1)
      ensures Here() == GivenUp(PaceOf(), old(Here())) && Grown(old(board), board)
    {
      hide Inv, Rely, FlagCount, Flag, Paced, Fitting, SteadyUpTo, AllInTime, BlocksAt, AfterReset, Cleared, FlagsOf,
           Later,
           SampTotal, Wrap, TookCount, OverrunCount, FirstStamp, Tiles, Faithful, Owed;
      ghost var s, d, t := board, landed, tick;
      ghost var seen1, seen0 := ClearBoth();
      ghost var hi := AfterReset(Completed(seen1), Completed(seen0));
      ResetFits(cfg, env, s, seen1, seen0, t, base, d, landed, history, windows);
      windows := windows + [Resetting(Completed(seen1), Completed(seen0))];
      CountEvent(cfg.nsamp, history, Overrun(base, hi));
      history := history + [Overrun(base, hi)];
      base := hi;
      overrunTotal := Wrap(overrunTotal + 1);
    }

    /** Where the set-up ends. */
    lemma StartsHere()
      requires Valid() && windows == [] && base == 0 && tick == 12 && naps == 0
      ensures Here() == StartMark(PaceOf())
    {
      hide Inv, Pacing, BlocksAt;
      Count();
    }

    lemma FlagsUp(n: nat)
      requires |board.mem| == VC_MEM_WORDS && n < 2
      ensures Up(Here().flags, n) <==> Flag(board, n)
    {
    }

    /** The part that the three output formats share: one look at buffer n, with the counters. What it finds, what
        it copies and where it ends is what the schedule and the streams make it. */
    method TakeBlock(n: nat) returns (r: Outcome, ghost e: Event)
      requires Valid() && n < 2
      modifies this`board, this`landed, this`tick, this`history, this`base, this`windows
      modifies this`sampTotal, this`overrunTotal, this`usecStart, rxBuff
      ensures Valid() && Grown(old(board), board)
      ensures old(board).rx.ch.Busy? && !cfg.single ==> board.rx.ch.Busy?
      ensures LookIs(PaceOf(), board.fifo, board.clock, old(Here()), n, LookOf(r), e, Here())
      ensures r.Empty? ==> history == old(history) && Rely(cfg, old(board), board) && !Flag(old(board), n)
      ensures !r.Empty? ==> history == old(history) + [e]
      ensures r.Got? ==> e == Took(old(base), rxBuff[..cfg.nsamp], r.usec)
      ensures !r.Got? ==> e.Overrun?
      ensures sampTotal == if r.Empty? then old(sampTotal) else (old(sampTotal) + cfg.nsamp) % 0x1_0000_0000
      ensures overrunTotal == if r.Lost? then (old(overrunTotal) + 1) % 0x1_0000_0000 else old(overrunTotal)
      ensures usecStart == if r.Got? && old(usecStart) == 0 then r.usec else old(usecStart)
    {
      hide FlagsOf, Up, Inv, Tiles, Faithful, IsBlock, FlagCount, TookCount, OverrunCount, FirstStamp, Seen,
           SampTotal, Pacing, AllInTime, SteadyUpTo, Waited, TakenAt, GivenUp, Read, EventOf, Backed, StepsAt;
      ghost var p, m := PaceOf(), Here();
      var state := ReadWord(States(n));
      SeenClear(cfg, old(board), board, n);
      FlagsUp(n);
      if state == 0 {
        return Empty, Overrun(0, 0);
      }
      r := TakeSet(n);
      e := history[|history| - 1];
      FoundEvent(p, board.fifo, board.clock, m, n, rxBuff[..cfg.nsamp], if r.Got? then r.usec else 0);
    }

    /** The same from the point where the flag was seen set. */
    method TakeSet(n: nat) returns (r: Outcome)
      requires Valid() && n < 2 && Flag(board, n)
      modifies this`board, this`landed, this`tick, this`history, this`base, this`windows
      modifies this`sampTotal, this`overrunTotal, this`usecStart, rxBuff
      ensures Valid() && !r.Empty? && Grown(old(board), board)
      ensures old(board).rx.ch.Busy? && !cfg.single ==> board.rx.ch.Busy?
      ensures Reaches(PaceOf(), board.fifo, board.clock, old(Here()))
      ensures r.Got? ==>
                && Read(PaceOf(), board.fifo, board.clock, old(Here()), n, rxBuff[..cfg.nsamp], r.usec)
                && history == old(history) + [Took(old(base), rxBuff[..cfg.nsamp], r.usec)]
      ensures r.Lost? ==> history == old(history) + [Overrun(old(base), base)]
      ensures sampTotal == (old(sampTotal) + cfg.nsamp) % 0x1_0000_0000
      ensures overrunTotal == if r.Lost? then (old(overrunTotal) + 1) % 0x1_0000_0000 else old(overrunTotal)
      ensures usecStart == if r.Got? && old(usecStart) == 0 then r.usec else old(usecStart)
      ensures var m := Waited(PaceOf(), old(Here()), cfg.nsamp + 2);
              && (r.Lost? <==> Up(m.flags, Other(n)))
              && Here() == if r.Lost? then GivenUp(PaceOf(), m) else TakenAt(PaceOf(), m, n)
    {
      hide Inv, Tiles, Faithful, IsBlock, FlagCount, TookCount, OverrunCount, FirstStamp, Seen, SampTotal, Pacing,
           AllInTime, SteadyUpTo, Readable, Fits, Paced, Rely, Waited, TakenAt, GivenUp, Read, Reaches, Flag;
      InvOfFits();
      ghost var p, m := PaceOf(), Here();
      sampTotal := Wrap(sampTotal + cfg.nsamp);
      var usec, other := Examine(n);
      ReadReaches(p, board.fifo, board.clock, m, n, rxBuff[..cfg.nsamp], usec);
      SeenClear(cfg, old(board), board, n);
      InvOfFits();
      FlagsUp(1 - n);
      FlagIs(board, 1 - n);
      ghost var s := board;
      if other != 0 {
        Reset();
        r := Lost;
      } else {
        Accept(n, usec);
        ReadStays(p, s.fifo, s.clock, board.fifo, board.clock, m, n, rxBuff[..cfg.nsamp], usec);
        r := Got(usec);
      }
      ReachesStays(p, s.fifo, s.clock, board.fifo, board.clock, m);
    }

    // ----- Polling -----

    /** The receive channel runs and does not stop by itself. */
    ghost predicate Streaming()
      reads this`board
    {
      Runs(RxChan)
    }

    /** Writes the packet of the block in rx_buff to the front of the output buffer. */
    method WritePacket(vals: array<byte>, num: nat)
      requires cfg.nsamp <= MAX_SAMPS == rxBuff.Length && PacketLen(cfg.nsamp) <= vals.Length
      requires (vals as object) != rxBuff
      modifies vals
      ensures vals[..] == PacketBytes(num, rxBuff[..cfg.nsamp]) + old(vals[..])[PacketLen(cfg.nsamp)..]
    {
      hide Encode, Sum, Swapped, Swap, PacketBytes, Open;
      var nsamp := cfg.nsamp;
      var size, nm := 2 * (nsamp + 5), num % HALF_SPAN;
      var sum := WriteHeader(vals, size, nm);
      sum := WriteSamples(vals, size, nm, sum);
      ghost var before, rest := vals[..2 * nsamp + 8], vals[PacketLen(nsamp)..];
      assert rest == old(vals[..])[PacketLen(nsamp)..];
      vals[2 * nsamp + 8], vals[2 * nsamp + 9] := sum % 256, sum / 256;
      LastWord(num, rxBuff[..nsamp]);
      assert vals[..] == before + [sum % 256, sum / 256] + rest;
    }

    /** The four words of the header, and the checksum of them. */
    method WriteHeader(vals: array<byte>, size: u16, nm: u16) returns (sum: u16)
      requires cfg.nsamp <= rxBuff.Length && 8 <= vals.Length && (vals as object) != rxBuff
      modifies vals
      ensures vals[..8] == Encode(Open(size, nm, rxBuff[..cfg.nsamp][..0])) && vals[8..] == old(vals[..])[8..]
      ensures sum == Sum(Open(size, nm, rxBuff[..cfg.nsamp][..0]))
    {
      hide Encode, Sum, Open;
      vals[0], vals[1], vals[2], vals[3] := 0xff, 0x7f, 0x00, 0x80;
      vals[4], vals[5] := size % 256, size / 256;
      vals[6], vals[7] := nm % 256, nm / 256;
      sum := (-1 + size + nm) % HALF_SPAN;
      HeaderWords(size, nm, rxBuff[..cfg.nsamp]);
    }

    /** The samples, and the checksum so far. */
    method WriteSamples(vals: array<byte>, ghost size: u16, ghost nm: u16, start: u16) returns (sum: u16)
      requires cfg.nsamp <= MAX_SAMPS == rxBuff.Length && PacketLen(cfg.nsamp) <= vals.Length
      requires (vals as object) != rxBuff
      requires vals[..8] == Encode(Open(size, nm, rxBuff[..cfg.nsamp][..0]))
      requires start == Sum(Open(size, nm, rxBuff[..cfg.nsamp][..0]))
      modifies vals
      ensures vals[..2 * cfg.nsamp + 8] == Encode(Open(size, nm, rxBuff[..cfg.nsamp]))
      ensures sum == Sum(Open(size, nm, rxBuff[..cfg.nsamp]))
      ensures vals[2 * cfg.nsamp + 8..] == old(vals[..])[2 * cfg.nsamp + 8..]
    {
      hide Encode, Sum, Swapped, Swap, Open;
      ghost var ws := rxBuff[..cfg.nsamp];
      sum := start;
      var x := 0;
      while x < cfg.nsamp
        invariant 0 <= x <= cfg.nsamp && rxBuff[..cfg.nsamp] == ws
        invariant vals[..2 * x + 8] == Encode(Open(size, nm, ws[..x]))
        invariant sum == Sum(Open(size, nm, ws[..x]))
        invariant vals[2 * cfg.nsamp + 8..] == old(vals[..])[2 * cfg.nsamp + 8..]
      {
        var i := 2 * x;
        var v := Swap(rxBuff[x]);
        ghost var before := vals[..2 * x + 8];
        vals[i + 8], vals[i + 9] := v % 256, v / 256;
        assert vals[..2 * (x + 1) + 8] == before + [v % 256, v / 256];
        assert rxBuff[x] == ws[x];
        NextWord(size, nm, ws, x);
        sum := (sum + v) % HALF_SPAN;
        x := x + 1;
      }
      assert ws[..cfg.nsamp] == ws;
    }

    /** Writes the block in rx_buff to the front of the output buffer. */
    method WriteBlock(f: Format, vals: array<byte>, num: nat)
      requires cfg.nsamp <= MAX_SAMPS == rxBuff.Length && CodedLen(f, cfg.nsamp) <= vals.Length
      requires (vals as object) != rxBuff
      modifies vals
      ensures vals[..] == Coded(f, num, rxBuff[..cfg.nsamp]) + old(vals[..])[CodedLen(f, cfg.nsamp)..]
    {
      hide PacketBytes, RawBytes;
      if f.Framed? {
        WritePacket(vals, num);
      } else {
        WriteRaw(vals);
        assert vals[..] == vals[..2 * cfg.nsamp] + vals[2 * cfg.nsamp..];
      }
    }

    /** One look at buffer n; a block found is written to the front of the output buffer. */
    method PollBuffer(f: Format, vals: array<byte>, num: nat, n: nat) returns (r: Outcome, ghost e: Event)
      requires Valid() && n < 2 && CodedLen(f, cfg.nsamp) <= vals.Length && (vals as object) != rxBuff
      modifies this`board, this`landed, this`tick, this`history, this`base, this`windows
      modifies this`sampTotal, this`overrunTotal, this`usecStart, this`nrPackets, rxBuff, vals
      ensures Valid() && |old(board).mem| == |board.mem| == VC_MEM_WORDS && Grown(old(board), board)
      ensures old(Streaming()) ==> Streaming()
      ensures LookIs(PaceOf(), board.fifo, board.clock, old(Here()), n, LookOf(r), e, Here())
      ensures r.Empty? ==> history == old(history) && Rely(cfg, old(board), board) && !Flag(old(board), n)
      ensures !r.Empty? ==> history == old(history) + [e]
      ensures e.Took? == r.Got? && (e.Took? ==> |e.words| == cfg.nsamp)
      ensures vals[..] ==
              if r.Got? then Coded(f, num, e.words) + old(vals[..])[CodedLen(f, cfg.nsamp)..] else old(vals[..])
      ensures f.Bare? || r.Empty? ==> nrPackets == old(nrPackets)
      ensures f.Framed? && r.Lost? ==> nrPackets == 0
      ensures f.Framed? && r.Got? ==> nrPackets == old(nrPackets) + 1
    {
      hide Inv, Tiles, Faithful, Owed, FlagCount, TookCount, OverrunCount, FirstStamp, Seen, SampTotal, Coded, Wrap,
           Valid, LookIs, AllInTime, Rely, Flag;
      StartOfPass();
      r, e := TakeBlock(n);
      StartOfPass();
      if r.Got? {
        WriteBlock(f, vals, num);
      }
      if f.Framed? {
        nrPackets := match r case Empty => nrPackets case Lost => 0 case Got(_) => nrPackets + 1;
      }
    }

    /** One pass over the two buffers. `slen` is never changed, so a block in the first buffer does not keep
        the second from being processed too, over the first packet. */
    method PollBuffers(f: Format, vals: array<byte>, num: nat) returns (da: bool, ghost events: seq<Event>)
      requires Valid() && Streaming() && CodedLen(f, cfg.nsamp) <= vals.Length && (vals as object) != rxBuff
      modifies this`board, this`landed, this`tick, this`history, this`base, this`windows
      modifies this`sampTotal, this`overrunTotal, this`usecStart, this`nrPackets, rxBuff, vals
      ensures Valid() && Streaming() && Grown(old(board), board)
      ensures Gathered(f, old(vals[..]), vals[..], events, cfg.nsamp, num, old(history), history, old(nrPackets),
                       nrPackets)
      ensures if da then CallShape(events) else
                events == [] && Rely(cfg, old(board), board) && !Flag(old(board), 0) && !Flag(old(board), 1)
      ensures PassIs(PaceOf(), board.fifo, board.clock, old(Here()), false, events, Here())
      ensures da <==> PassOf(PaceOf(), old(Here()), false).finds != []
    {
      hide Inv, Gathered, Coded, LooksAre, LookIs, PassIs, PassOf, Ends, AllInTime, Rely, Flag, Valid, Streaming;
      ghost var p, m := PaceOf(), Here();
      da, events := false, [];
      StartOfPass();
      RelySelf(cfg, board);
      GatheredNone(f, vals[..], cfg.nsamp, num, history, nrPackets);
      LooksBegin(p, board.fifo, board.clock, m);
      var n, slen := 0, 0;
      ghost var looks := 0;
      while n < 2 && slen == 0
        invariant 0 <= n <= 2 && slen == 0 && |events| <= n == looks
        invariant Valid() && Streaming() && |board.mem| == VC_MEM_WORDS && Grown(old(board), board)
        invariant Gathered(f, old(vals[..]), vals[..], events, cfg.nsamp, num, old(history), history,
                           old(nrPackets), nrPackets)
        invariant if da then events != [] && events[0].Took? else events == [] && Rely(cfg, old(board), board)
        invariant !da ==> forall b | 0 <= b < n :: !Flag(old(board), b)
        invariant LooksAre(p, board.fifo, board.clock, m, n, events, Here()) && (n > 0 ==> !Ends(p, m, false))
      {
        ghost var before, h, v, count, here := board, history, vals[..], nrPackets, Here();
        var r, e := PollBuffer(f, vals, num, n);
        LooksNext(p, before.fifo, before.clock, board.fifo, board.clock, m, n, events, here, LookOf(r), e, Here());
        looks := looks + 1;
        if r.Empty? {
          if !da {
            LookedClear(cfg, old(board), before, board, n);
          }
        } else {
          GatheredNext(f, old(vals[..]), v, events, cfg.nsamp, num, old(history), h, old(nrPackets), count, e,
                       vals[..], nrPackets);
          da := true;
          events := events + [e];
          if r.Lost? {
            break;
          }
        }
        n := n + 1;
      }
      LooksEnd(p, board.fifo, board.clock, m, false, looks, events, Here());
    }

    lemma StartOfPass()
      requires Valid()
      ensures Inv(cfg, board) && |board.mem| == VC_MEM_WORDS && 1 <= cfg.nsamp <= MAX_SAMPS == rxBuff.Length
    {
    }

    /** Receive steps that the DMA must still take before a poll is sure to find a flag set. */
    ghost function PollMeasure(): int
      reads this
      requires |board.mem| == VC_MEM_WORDS
    {
      if Flag(board, 0) || Flag(board, 1) then 0 else (Completed(board) + 1) * (cfg.nsamp + 5) - Elapsed()
    }

    lemma CountValid()
      requires Valid()
      ensures Completed(board) == BlocksAt(PaceOf(), tick, naps)
    {
      hide Inv, BlocksAt, Pacing;
      Count();
    }

    lemma StepsLeft()
      requires Valid() && Streaming() && |board.mem| == VC_MEM_WORDS
      ensures PollMeasure() >= 0 && Elapsed() < (Completed(board) + 1) * (cfg.nsamp + 5)
    {
      hide Inv, Advanced, Blocks;
      PaceBlocks(cfg, board, began, Elapsed());
      StepsToBlock(cfg, Elapsed());
    }

    /** One pass, and a sleep if it found nothing; a flag is then nearer. */
    method PollOrSleep(f: Format, vals: array<byte>, num: nat) returns (da: bool, ghost events: seq<Event>)
      requires Valid() && Streaming() && CodedLen(f, cfg.nsamp) <= vals.Length && (vals as object) != rxBuff
      requires Lively(env) && |board.mem| == VC_MEM_WORDS
      modifies this`board, this`landed, this`tick, this`naps, this`history, this`base, this`windows
      modifies this`sampTotal, this`overrunTotal, this`usecStart, this`nrPackets, rxBuff, vals
      ensures Valid() && Streaming() && |board.mem| == VC_MEM_WORDS
      ensures Gathered(f, old(vals[..]), vals[..], events, cfg.nsamp, num, old(history), history, old(nrPackets),
                       nrPackets)
      ensures (if da then CallShape(events) else events == []) && Grown(old(board), board)
      ensures var q := PassOf(PaceOf(), old(Here()), false);
              if da then q.finds != [] && PassIs(PaceOf(), board.fifo, board.clock, old(Here()), false, events, Here())
              else q.finds == [] && Here() == AfterNap(PaceOf(), q.mark)
      ensures !da ==> 0 <= old(PollMeasure()) && PollMeasure() < old(PollMeasure())
    {
      hide Inv, Gathered, PassOf, AllInTime, BlocksAt, Lively, Valid, Streaming, Rely, Flag, GapSteps, NapSteps,
           CallShape, Backed, EventsOf, Later, Run, Admitted, Landings, PassIs, Gathered;
      ghost var before, t, z := board, tick, naps;
      StartOfPass();
      StepsLeft();
      da, events := PollBuffers(f, vals, num);
      StartOfPass();
      if !da {
        ghost var polled := board;
        PassMoves(PaceOf(), board.fifo, board.clock, old(Here()), false, events, Here());
        Sleep();
        GapsGrow(env, t, tick);
        SleepOn(env, z);
        PollShrinks(cfg, before, polled, board);
      }
    }

    /** adc_stream_packet and adc_stream_raw: polls, sleeping in between, until something is there. If the
        receive channel gets on during each sleep, the loop ends. */
    method AdcStream(f: Format, vals: array<byte>, num: nat) returns (len: nat, ghost events: seq<Event>)
      requires Valid() && Streaming() && CodedLen(f, cfg.nsamp) <= vals.Length && (vals as object) != rxBuff
      requires Lively(env)
      modifies this`board, this`landed, this`tick, this`naps, this`history, this`base, this`windows
      modifies this`sampTotal, this`overrunTotal, this`usecStart, this`nrPackets, rxBuff, vals
      ensures Valid() && Streaming() && len == CodedLen(f, cfg.nsamp) && CallShape(events) && Grown(old(board), board)
      ensures Gathered(f, old(vals[..]), vals[..], events, cfg.nsamp, num, old(history), history, old(nrPackets),
                       nrPackets)
      ensures DeterminedAt(PaceOf(), board.fifo, board.clock, old(Here()), events, Here())
    {
      hide Inv, Gathered, PassOf, PassIs, AllInTime, Lively, Valid, Streaming, Flag, CallShape, Fruitless, DeterminedAt,
           AfterNap;
      ghost var p, m := PaceOf(), Here();
      var da := false;
      events := [];
      StartOfPass();
      GatheredNone(f, vals[..], cfg.nsamp, num, history, nrPackets);
      FruitlessAtFirst(p, m);
      while !da
        invariant Valid() && Streaming() && |board.mem| == VC_MEM_WORDS
        invariant if da then CallShape(events) else events == []
        invariant if da then Gathered(f, old(vals[..]), vals[..], events, cfg.nsamp, num, old(history), history,
                                      old(nrPackets), nrPackets)
                  else
                    && vals[..] == old(vals[..]) && history == old(history)
                    && StillCounts(f, history, old(nrPackets), nrPackets)
        invariant Grown(old(board), board)
        invariant if da then DeterminedAt(p, board.fifo, board.clock, m, events, Here()) else Fruitless(p, m, Here())
        decreases !da, PollMeasure()
      {
        ghost var v, here, count := vals[..], Here(), nrPackets;
        da, events := PollOrSleep(f, vals, num);
        StillGathered(f, v, vals[..], events, cfg.nsamp, num, old(history), history, old(nrPackets), count, nrPackets);
        if da {
          CallEnds(p, board.fifo, board.clock, m, here, events, Here());
        } else {
          FruitlessNext(p, m, here);
        }
      }
      len := if f.Framed? then cfg.nsamp * 2 + 10 else cfg.nsamp * 2;
    }

    /** Sends one datagram: the output buffer, whether it was written or not. */
    method DoStreamingUdp(vals: array<byte>, num: nat)
      requires Valid() && Streaming() && PacketLen(cfg.nsamp) <= vals.Length && (vals as object) != rxBuff
      requires Lively(env)
      modifies this`board, this`landed, this`tick, this`naps, this`history, this`base, this`windows, this`calls
      modifies this`sampTotal, this`overrunTotal, this`usecStart, this`nrPackets
      modifies this`sent, this`marks, rxBuff, vals
      ensures Valid() && Streaming() && Grown(old(board), board)
      ensures |calls| == |old(calls)| + 1 && calls == old(calls) + [calls[|old(calls)|]]
      ensures var events := calls[|old(calls)|];
              && CallShape(events)
              && Gathered(Framed, old(vals[..]), vals[..], events, cfg.nsamp, num, old(history), history,
                          old(nrPackets), nrPackets)
              && DeterminedAt(PaceOf(), board.fifo, board.clock, old(Here()), events, Here())
      ensures sent == old(sent) + [vals[..PacketLen(cfg.nsamp)]]
      ensures marks == old(marks) + [Here()]
    {
      hide Inv, Gathered, DeterminedAt, AllInTime, Lively, Valid, Streaming, CallShape;
      ghost var events;
      var n;
      n, events := AdcStream(Framed, vals, num);
      if n > 0 {
        sent := sent + [vals[..n]];
      }
      calls := calls + [events];
      marks := marks + [Here()];
    }

    /** The schedule leaves time for two passes and a sleep for each block, from the first one on. */
    ghost predicate Ample()
      reads this`base, this`tick, this`naps, this`began
    {
      Quick(cfg, env) && base == 0 && Recent(PaceOf(), 0, tick, naps)
    }

    /** The main loop, for any number of rounds. Every call does what the schedule makes it do, and every
        datagram is the buffer as it is after its call. If all clearings that the schedule brings about were in
        time, each carries one whole block, or nothing yet; that is so if the schedule is steady, and if at most one
        block completes during each call. With ample time, datagram c carries block c, and nothing is ever lost. */
    method StreamUdp(vals: array<byte>, rounds: nat)
      requires Valid() && Streaming() && PacketLen(cfg.nsamp) <= vals.Length && (vals as object) != rxBuff
      requires Lively(env)
      requires history == [] && calls == [] && sent == [] && marks == [] && nrPackets == 0
      modifies this`board, this`landed, this`tick, this`naps, this`history, this`base, this`windows, this`calls
      modifies this`sampTotal, this`overrunTotal, this`usecStart, this`nrPackets
      modifies this`sent, this`marks, rxBuff, vals
      ensures Valid() && Streaming()
      ensures |calls| == |marks| == rounds && history == Flat(calls) && AllSent(old(vals[..]), calls, cfg.nsamp, sent)
      ensures Determined(PaceOf(), board.fifo, board.clock, old(Here()), calls, marks)
      ensures Here() == Before(old(Here()), marks, rounds)
      ensures Timely() ==> AllWhole(old(vals[..]), calls, cfg.nsamp, sent, board.fifo)
      ensures SteadyUpTo(cfg, env, tick) || AtMostOne(PaceOf(), old(Here()), marks) ==> Timely()
      ensures old(Ample()) ==> InStep(calls) && overrunTotal == 0 && AllOwn(cfg.nsamp, sent, board.fifo)
      ensures Timely() && rounds > 0 ==> base >= BlocksNow(PaceOf(), Before(old(Here()), marks, rounds - 1))
      ensures nrPackets == SinceOverrun(history)
    {
      hide Inv, Tiles, Faithful, Delivered, Gathered, OverrunCount, AllWhole, AllSent, Sized, Valid, AllInTime, Lively,
           CallShape, AtMostOne, Quick, Recent, InStep, AllOwn, BufferAfter, Flat, SinceOverrun, SteadyUpTo, Determined,
           DeterminedAt, Settled, Streaming, BlocksNow;
      StartOfPass();
      ghost var init, ample, p, first := vals[..], Ample(), PaceOf(), Here();
      NoCalls(init, cfg.nsamp);
      NoneDetermined(p, board.fifo, board.clock, first);
      NothingTimely();
      for num := 0 to rounds
        invariant Valid() && Streaming()
        invariant |calls| == |marks| == num && history == Flat(calls) && AllSent(init, calls, cfg.nsamp, sent)
        invariant WellShaped(calls, cfg.nsamp) && vals[..] == BufferAfter(init, calls, cfg.nsamp)
        invariant Determined(p, board.fifo, board.clock, first, calls, marks) && Here() == Before(first, marks, num)
        invariant ample ==> Recent(p, base, tick, naps) && base == num && InStep(calls) && OverrunCount(history) == 0
        invariant Timely() && num > 0 ==> base >= BlocksNow(p, Before(first, marks, num - 1))
        invariant nrPackets == SinceOverrun(history)
      {
        ghost var before, marksBefore, s, h, m := calls, marks, board, history, Here();
        ghost var sentBefore, v, count := sent, vals[..], nrPackets;
        if ample { QuickIsTimely(); }
        SteadyIsTimely();
        DoStreamingUdp(vals, num);
        ghost var events := calls[num];
        GatheredFramed(v, vals[..], events, cfg.nsamp, num, h, history, count, nrPackets);
        NextDetermined(p, s.fifo, s.clock, board.fifo, board.clock, first, before, marksBefore, events, Here());
        OneMoreCall(init, before, events, cfg.nsamp, sentBefore, vals[..]);
        ShapedIfSent(init, calls, cfg.nsamp, sent);
        LaterTimely(p, board.fifo, board.clock, m, events, Here());
        if ample {
          QuickIsTimely();
          QuickEvents(p, board.fifo, board.clock, m, events, Here());
          NextInStep(before, events, h, base);
        }
      }
      SteadyIsTimely();
      if AtMostOne(p, first, marks) {
        RunInTime(p, board.fifo, board.clock, first, calls, marks, rounds);
      }
      if Timely() {
        SentWhole(init, calls, cfg.nsamp, sent, board.fifo, board.clock);
      }
      if ample {
        QuickIsTimely();
        NoOverruns();
        SentInStep(init, calls, cfg.nsamp, sent, board.fifo);
      }
    }

    lemma StampIs()
      requires Valid()
      ensures usecStart == FirstStamp(history)
    {
    }

    lemma NoOverruns()
      requires Valid() && OverrunCount(history) == 0
      ensures overrunTotal == 0
    {
    }

    lemma NothingTimely()
      requires Valid()
      ensures history == [] ==> Timely()
    {
    }

    lemma SteadyIsTimely()
      requires Valid()
      ensures SteadyUpTo(cfg, env, tick) ==> Timely()
      ensures Timely() ==> Faithful(history, cfg.nsamp, board.fifo, board.clock) && Tiles(history, base)
      ensures Timely() ==> Settled(PaceOf(), Here())
    {
      hide Inv, Pacing, BlocksAt;
      Count();
    }

    lemma QuickIsTimely()
      requires Valid() && Quick(cfg, env)
      ensures Timely() && Tiles(history, base) && Settled(PaceOf(), Here())
    {
      hide Quick, SteadyUpTo, Valid, AllInTime, Settled, Tiles, Faithful;
      QuickIsSteady(cfg, env);
      assert SteadyUpTo(cfg, env, tick);
      SteadyIsTimely();
    }

    // ----- Raw samples -----

    /** Writes the block in rx_buff as raw samples. */
    method WriteRaw(vals: array<byte>)
      requires cfg.nsamp <= MAX_SAMPS == rxBuff.Length && 2 * cfg.nsamp <= vals.Length && (vals as object) != rxBuff
      modifies vals
      ensures vals[..2 * cfg.nsamp] == RawBytes(rxBuff[..cfg.nsamp])
      ensures vals[2 * cfg.nsamp..] == old(vals[..])[2 * cfg.nsamp..]
    {
      hide RawSample, CRem, CDiv;
      ghost var ws := rxBuff[..cfg.nsamp];
      var x := 0;
      while x < cfg.nsamp
        invariant 0 <= x <= cfg.nsamp && rxBuff[..cfg.nsamp] == ws
        invariant vals[..2 * x] == RawBytes(ws[..x])
        invariant vals[2 * cfg.nsamp..] == old(vals[..])[2 * cfg.nsamp..]
      {
        var i := 2 * x;
        var v := RawSample(rxBuff[x]);
        ghost var before := vals[..i];
        vals[i], vals[i + 1] := ToByte(CRem(v, 256)), ToByte(CDiv(v, 256));
        assert vals[..2 * (x + 1)] == before + RawPair(v);
        assert rxBuff[x] == ws[x];
        RawAppend(ws, x);
        x := x + 1;
      }
      assert ws[..cfg.nsamp] == ws;
    }

    // ----- Text lines -----

    /** sprintf of s at position pos, with its terminating zero. */
    method Emit(vals: array<byte>, pos: nat, s: seq<byte>)
      requires pos + |s| < vals.Length
      modifies vals
      ensures vals[..pos + |s| + 1] == old(vals[..pos]) + s + [0]
    {
      var i := 0;
      while i < |s|
        invariant 0 <= i <= |s|
        invariant vals[..pos + i] == old(vals[..pos]) + s[..i]
      {
        vals[pos + i] := s[i];
        i := i + 1;
      }
      vals[pos + |s|] := 0;
      assert s[..|s|] == s;
    }

    /** One more field, after a comma unless the line is empty. */
    method AppendField(vals: array<byte>, pos: nat, i: nat, ghost stamp: seq<word>, ghost ws: seq<word>)
      returns (slen: nat)
      requires i < |ws| && i < rxBuff.Length && rxBuff[i] == ws[i] && |stamp| <= 1 && (vals as object) != rxBuff
      requires pos + 20 < vals.Length && pos == |Join(Items(stamp, ws[..i]))|
      requires vals[..pos] == Join(Items(stamp, ws[..i]))
      modifies vals
      ensures slen + 2 <= vals.Length && slen == |Join(Items(stamp, ws[..i + 1]))| <= 10 + 8 * (i + 1)
      ensures vals[..slen] == Join(Items(stamp, ws[..i + 1]))
    {
      hide Field, Join, Items;
      var s := (if pos > 0 then [COMMA] else []) + Field(rxBuff[i]);
      NextField(stamp, ws, i);
      ghost var line := vals[..pos];
      Emit(vals, pos, s);
      slen := pos + |s|;
      assert vals[..slen] == line + s;
    }

    /** The line of the block in rx_buff. It never runs past the buffer, and is complete when the buffer has
        room for a time stamp, eight characters a sample and the margin of the loop. */
    method WriteLine(vals: array<byte>, stamp: seq<word>) returns (slen: nat, ghost count: nat)
      requires cfg.nsamp <= MAX_SAMPS == rxBuff.Length && 12 <= vals.Length && (vals as object) != rxBuff
      requires |stamp| <= 1
      modifies vals
      ensures count <= cfg.nsamp && (10 + 8 * cfg.nsamp + 12 < vals.Length ==> count == cfg.nsamp)
      ensures 0 < slen < vals.Length && vals[..slen] == Line(stamp, rxBuff[..count])
      ensures count < cfg.nsamp ==> slen - 1 + 20 >= vals.Length
      ensures forall i: nat | i < count :: |Line(stamp, rxBuff[..i])| - 1 + 20 < vals.Length
    {
      hide Field, Digits, Join, Items;
      ghost var ws := rxBuff[..cfg.nsamp];
      slen := 0;
      StartLine(stamp, ws);
      if stamp != [] {
        var s := Digits(stamp[0]);
        Emit(vals, 0, s);
        slen := |s|;
      }
      assert vals[..slen] == Join(Items(stamp, ws[..0]));
      var i := 0;
      while i < cfg.nsamp && slen + 20 < vals.Length
        invariant 0 <= i <= cfg.nsamp && rxBuff[..cfg.nsamp] == ws
        invariant slen + 2 <= vals.Length && slen <= 10 + 8 * i
        invariant slen == |Join(Items(stamp, ws[..i]))|
        invariant vals[..slen] == Join(Items(stamp, ws[..i]))
        invariant forall k: nat | k < i :: |Line(stamp, ws[..k])| - 1 + 20 < vals.Length
      {
        assert rxBuff[i] == ws[i];
        slen := AppendField(vals, slen, i, stamp, ws);
        i := i + 1;
      }
      count := i;
      assert ws[..i] == rxBuff[..i];
      assert forall k: nat | k < i :: ws[..k] == rxBuff[..k];
      ghost var line, pos := vals[..slen], slen;
      Emit(vals, slen, [NEWLINE]);
      slen := slen + 1;
      TakeFront(vals[..pos + 2], line, slen);
      assert vals[..pos + 2][..slen] == vals[..slen];
    }

    /** One look at buffer n; a block found is printed if the FIFO has room for it. */
    method PrintBuffer(vals: array<byte>, withUsec: bool, free: bool, n: nat)
      returns (r: Outcome, slen: nat, ghost count: nat, ghost e: Event)
      requires Valid() && n < 2 && 12 <= vals.Length && (vals as object) != rxBuff
      modifies this`board, this`landed, this`tick, this`history, this`base, this`windows
      modifies this`sampTotal, this`overrunTotal, this`usecStart, rxBuff, vals
      ensures Valid() && |old(board).mem| == |board.mem| == VC_MEM_WORDS && Grown(old(board), board)
      ensures old(Streaming()) ==> Streaming()
      ensures LookIs(PaceOf(), board.fifo, board.clock, old(Here()), n, LookOf(r), e, Here())
      ensures r.Empty? ==> history == old(history) && Rely(cfg, old(board), board) && !Flag(old(board), n)
      ensures !r.Empty? ==> history == old(history) + [e]
      ensures e.Took? == r.Got? && (e.Took? ==> |e.words| == cfg.nsamp)
      ensures old(Timely()) && r.Got? ==> e.block % 2 == n
      ensures (slen > 0 <==> r.Got? && free) && slen < vals.Length
      ensures slen > 0 ==> WroteLine(vals[..slen], [e], if withUsec then [usecStart] else [], count)
      ensures slen > 0 && 8 * cfg.nsamp + 22 < vals.Length ==> count == cfg.nsamp
    {
      hide Inv, Tiles, Faithful, Owed, FlagCount, TookCount, OverrunCount, FirstStamp, Seen, SampTotal, Line, Wrap,
           Valid, LookAt, LookIs, AllInTime, Rely, Flag, Settled;
      slen, count := 0, 0;
      StartOfPass();
      SteadyIsTimely();
      ghost var p, m, timely := PaceOf(), Here(), Timely();
      r, e := TakeBlock(n);
      StartOfPass();
      if r.Got? {
        if timely { LookParity(p, board.fifo, board.clock, m, n, e, Here()); }
        if free {
          var stamp := if withUsec then [(r.usec - usecStart) % WORD_SPAN] else [];
          slen, count := WriteLine(vals, stamp);
          assert rxBuff[..cfg.nsamp][..count] == rxBuff[..count];
        }
      }
    }

    /** Takes at most one block to a line. In lockstep, `room` answers whether the FIFO is empty for each of
        the two buffers; a block without room is taken and dropped. The line is that of the last block taken. */
    method AdcStreamCsv(vals: array<byte>, withUsec: bool, lockstep: bool, room: Rooms)
      returns (slen: nat, ghost count: nat, ghost events: seq<Event>)
      requires Valid() && 12 <= vals.Length && (vals as object) != rxBuff
      modifies this`board, this`landed, this`tick, this`history, this`base, this`windows
      modifies this`sampTotal, this`overrunTotal, this`usecStart, rxBuff, vals
      ensures Valid() && history == old(history) + events && Sized(events, cfg.nsamp) && |events| <= 2
      ensures (old(Streaming()) ==> Streaming()) && Grown(old(board), board)
      ensures slen < vals.Length && vals[slen] == 0
      ensures slen > 0 ==> WroteLine(vals[..slen], events, if withUsec then [usecStart] else [], count)
      ensures slen > 0 && 8 * cfg.nsamp + 22 < vals.Length ==> count == cfg.nsamp
      ensures events == [] ==> !Flag(old(board), 0) && !Flag(old(board), 1)
      ensures !lockstep && Fresh(events) ==> slen > 0
      ensures Timely() ==> Printed(events, lockstep, room, slen > 0)
      ensures PassIs(PaceOf(), board.fifo, board.clock, old(Here()), !lockstep || room.first, events, Here())
      ensures slen > 0 <==>
                Prints(PaceOf(), PassOf(PaceOf(), old(Here()), !lockstep || room.first).finds, lockstep, room)
      ensures var finds := PassOf(PaceOf(), old(Here()), !lockstep || room.first).finds;
              slen > 0 <==>
                && finds != [] && var f := finds[|finds| - 1];
                LookAt(PaceOf(), f.at, f.buf).Whole? && (!lockstep || if f.buf == 0 then room.first else room.second)
      ensures lockstep && !room.first && !room.second ==> slen == 0
    {
      hide FlagsOf, Backed, EventsOf, Up, Inv, LookAt, LooksAre, LookIs, PassIs, Prints, PassOf, FirstLooks, Ends,
           AllInTime, Rely, Sized, Flag, Valid, Streaming, Printed, Fresh, Line;
      ghost var p, m, stop, looks := PaceOf(), Here(), !lockstep || room.first, 0;
      slen, count, events := 0, 0, [];
      StartOfPass();
      RelySelf(cfg, board);
      NothingPrinted(lockstep, room, cfg.nsamp);
      LooksBegin(p, board.fifo, board.clock, m);
      PrintsNone(p, m, lockstep, room);
      var n := 0;
      while n < 2 && slen == 0
        invariant 0 <= n <= 2 && |events| <= n == looks && slen < vals.Length && |board.mem| == VC_MEM_WORDS
        invariant Valid() && history == old(history) + events && Sized(events, cfg.nsamp)
        invariant (old(Streaming()) ==> Streaming()) && Grown(old(board), board)
        invariant slen > 0 ==> WroteLine(vals[..slen], events, if withUsec then [usecStart] else [], count)
        invariant slen > 0 && 8 * cfg.nsamp + 22 < vals.Length ==> count == cfg.nsamp
        invariant events == [] ==> Rely(cfg, old(board), board) && forall b | 0 <= b < n :: !Flag(old(board), b)
        invariant !lockstep && Fresh(events) ==> slen > 0
        invariant Timely() ==> Printed(events, lockstep, room, slen > 0)
        invariant LooksAre(p, board.fifo, board.clock, m, n, events, Here())
        invariant slen > 0 <==> Prints(p, FirstLooks(p, m, n).finds, lockstep, room)
        invariant n > 0 ==> (Ends(p, m, stop) <==> n == 1 && slen > 0)
      {
        ghost var before, taken, here, timely := board, events, Here(), Timely();
        ghost var e;
        var r;
        r, slen, count, e := PrintBuffer(vals, withUsec, !lockstep || (if n == 0 then room.first else room.second), n);
        LooksNext(p, before.fifo, before.clock, board.fifo, board.clock, m, n, events, here, LookOf(r), e, Here());
        LookPrints(p, before.fifo, before.clock, board.fifo, board.clock, m, n, taken, here, LookOf(r), e, Here(),
                   lockstep, room);
        LookInTime(p, board.fifo, board.clock, here, n, LookOf(r), e, Here());
        looks := looks + 1;
        if r.Empty? {
          if events == [] {
            LookedClear(cfg, old(board), before, board, n);
          }
        } else {
          PrintedNext(taken, e, lockstep, room, slen > 0, cfg.nsamp);
          events := events + [e];
          if r.Lost? {
            break;
          }
        }
        n := n + 1;
      }
      LooksEnd(p, board.fifo, board.clock, m, stop, looks, events, Here());
      PassLooks(p, m, stop);
      PrintsMeans(p, m, lockstep, room);
      vals[slen] := 0;
    }

    /** do_streaming: opens the FIFO if it is not open and has a reader, and writes one line if there is one.
        A line that cannot be written closes the FIFO again. Without a reader nothing happens at all. With the FIFO
        open, the pass accounts for all blocks complete before; if a block is found and its buffer's turn finds room, or
        if not in lockstep, its line is written; and the program sleeps exactly if no line is written. */
    method DoStreaming(vals: array<byte>, withUsec: bool, lockstep: bool, reader: Reader)
      requires Valid() && 8 * cfg.nsamp + 22 < vals.Length && (vals as object) != rxBuff
      modifies this`board, this`landed, this`tick, this`naps, this`history, this`base, this`windows, this`calls
      modifies this`sampTotal, this`overrunTotal, this`usecStart
      modifies this`sent, this`fifoOpen, this`printed, this`marks, rxBuff, vals
      ensures Valid() && |calls| == |old(calls)| + 1 && calls == old(calls) + [calls[|old(calls)|]]
      ensures var events := calls[|old(calls)|];
              var r := RoundOf(PaceOf(), old(Here()), old(fifoOpen), lockstep, reader);
              && history == old(history) + events && |events| <= 2
              && RoundIs(PaceOf(), board.fifo, board.clock, r, events, Here(), fifoOpen)
              && Wrote(old(sent), sent, old(printed), printed, events, r.wrote, withUsec, cfg.nsamp, history)
      ensures Grown(old(board), board) && (Timely() ==> old(Timely())) && marks == old(marks) + [Here()]
      ensures !old(fifoOpen) && !reader.opens ==>
                && board == old(board) && tick == old(tick) && naps == old(naps) && history == old(history)
                && sent == old(sent) && !fifoOpen
      ensures old(fifoOpen) || reader.opens ==>
                var q := PassOf(PaceOf(), old(Here()), !lockstep || reader.room.first);
                var prints := q.finds != [] && var f := q.finds[|q.finds| - 1];
                              LookAt(PaceOf(), f.at, f.buf).Whole? &&
                              (!lockstep || if f.buf == 0 then reader.room.first else reader.room.second);
                && calls[|old(calls)|] == EventsOf(PaceOf(), board.fifo, board.clock, q.finds) && tick == q.mark.tick
                && |sent| == |old(sent)| + (if prints && reader.writable then 1 else 0)
                && naps == old(naps) + (if prints && reader.writable then 0 else 1)
                && fifoOpen == (!prints || reader.writable)
      ensures (old(fifoOpen) || reader.opens) && reader.writable && (lockstep ==> reader.room == Rooms(true, true)) ==>
                (OneUp(PaceOf(), old(Here()), 0) || OneUp(PaceOf(), old(Here()), 1) ==> |sent| == |old(sent)| + 1)
      ensures (old(fifoOpen) || reader.opens) && Timely() ==> base >= Completed(old(board))
    {
      hide Inv, Valid, Line, PassOf, Prints, AllInTime, Printed, Fresh, Sized, Flag, WroteLine, Wrote, Rely, Streaming,
           RoundOf, RoundIs, Settled, BlocksAt, FlagsOf, EventsOf, LookAt, OneUp, Tiles, Faithful, SteadyUpTo;
      ghost var events, p, m, wasOpen, before, taken := [], PaceOf(), Here(), fifoOpen, sent, printed;
      SteadyIsTimely();
      CountValid();
      NothingWritten(sent, printed, [], withUsec, cfg.nsamp, history);
      NothingFound(p, board.fifo, board.clock, m, lockstep, reader);
      if !fifoOpen {
        fifoOpen := reader.opens;
      }
      if fifoOpen {
        OpenRound(p, m, wasOpen, lockstep, reader);
        events := WriteToFifo(vals, withUsec, lockstep, reader);
      }
      calls := calls + [events];
      marks := marks + [Here()];
      if wasOpen || reader.opens {
        RoundDoes(p, board.fifo, board.clock, m, wasOpen, lockstep, reader, events, Here(), fifoOpen);
        OneMoreLine(before, sent, taken, printed, events, RoundOf(p, m, wasOpen, lockstep, reader).wrote, withUsec,
                    cfg.nsamp, history);
      }
    }

    /** With the FIFO open: one call, and what becomes of its line. */
    method WriteToFifo(vals: array<byte>, withUsec: bool, lockstep: bool, reader: Reader)
      returns (ghost events: seq<Event>)
      requires Valid() && 8 * cfg.nsamp + 22 < vals.Length && (vals as object) != rxBuff && fifoOpen
      modifies this`board, this`landed, this`tick, this`naps, this`history, this`base, this`windows
      modifies this`sampTotal, this`overrunTotal, this`usecStart, this`sent, this`fifoOpen, this`printed, rxBuff, vals
      ensures Valid() && history == old(history) + events && |events| <= 2 && (Timely() ==> old(Timely()))
      ensures var r := RoundOf(PaceOf(), old(Here()), true, lockstep, reader);
              && RoundIs(PaceOf(), board.fifo, board.clock, r, events, Here(), fifoOpen)
              && Wrote(old(sent), sent, old(printed), printed, events, r.wrote, withUsec, cfg.nsamp, history)
      ensures Grown(old(board), board)
    {
      hide FlagsOf, Backed, EventsOf, LookAt, Inv, Valid, Line, PassOf, PassIs, Prints, AllInTime, Printed, Fresh,
           Sized, Flag, WroteLine, Wrote, Rely, Streaming, RoundOf, RoundIs, Run, Admitted, Landings, AfterNap,
           FirstStamp;
      ghost var count;
      var slen;
      StartOfPass();
      ghost var p, m := PaceOf(), Here();
      slen, count, events := AdcStreamCsv(vals, withUsec, lockstep, reader.room);
      PassTimely(p, m, !lockstep || reader.room.first);
      ghost var s, m1 := board, Here();
      PassMoves(p, s.fifo, s.clock, m, !lockstep || reader.room.first, events, m1);
      if slen > 0 && reader.writable {
        StampIs();
        OneWritten(sent, printed, vals[..slen], events, withUsec, count, cfg.nsamp, history);
        sent := sent + [vals[..slen]];
        printed := printed + [events[|events| - 1]];
      } else {
        NothingWritten(sent, printed, events, withUsec, cfg.nsamp, history);
        fifoOpen := slen == 0;
        Sleep();
        NapTimely(p, m1);
      }
      RoundMade(p, s.fifo, s.clock, board.fifo, board.clock, m, lockstep, reader, events, m1, slen > 0);
    }

    /** The FIFO loop of main. Every round does what the schedule and the reader make it do, and the lines written
        are those of the blocks that these rounds print. While all clearings were in time, which a steady schedule
        ensures, they are whole blocks of the stream, in order and none twice, and with a reader that is always there
        everything complete as the last round began is accounted for. A reader that takes everything gets every block
        taken, in lockstep if it has always emptied the FIFO; in lockstep with a reader that never has, nothing is
        written. With ample time, line i is that of block i, and nothing is ever lost. */
    method StreamFifo(vals: array<byte>, withUsec: bool, lockstep: bool, readers: seq<Reader>)
      requires Valid() && 8 * cfg.nsamp + 22 < vals.Length && (vals as object) != rxBuff
      requires history == [] && calls == [] && sent == [] && printed == [] && marks == []
      modifies this`board, this`landed, this`tick, this`naps, this`history, this`base, this`windows, this`calls
      modifies this`sampTotal, this`overrunTotal, this`usecStart
      modifies this`sent, this`fifoOpen, this`printed, this`marks, rxBuff, vals
      ensures Valid() && history == Flat(calls) && |calls| == |marks| == |readers|
      ensures RoundsRun(PaceOf(), board.fifo, board.clock, old(Here()), old(fifoOpen), lockstep, readers, calls,
                        printed, marks, fifoOpen)
      ensures Here() == Before(old(Here()), marks, |readers|)
      ensures sent == LinesOf(RoundsOf(PaceOf(), old(Here()), old(fifoOpen), lockstep, readers), calls, withUsec)
      ensures AllLines(sent, withUsec, cfg.nsamp, printed, history)
      ensures SteadyUpTo(cfg, env, tick) ==> Timely()
      ensures Timely() ==> Faithful(printed, cfg.nsamp, board.fifo, board.clock) && InSequence(printed, base)
      ensures Timely() && Opens(readers) && readers != [] ==>
                base >= BlocksNow(PaceOf(), Before(old(Here()), marks, |readers| - 1))
      ensures lockstep && NeverRoom(readers) ==> sent == []
      ensures Takes(readers) && (lockstep ==> Roomy(readers)) ==> |sent| == TookCount(history)
      ensures Takes(readers) && (lockstep ==> Roomy(readers)) && Opens(readers) && old(Ample()) ==>
                EachOne(printed, base) && overrunTotal == 0
    {
      hide Inv, Valid, Flat, InSequence, AllInTime, SteadyUpTo, Faithful, Tiles, RoundsRun, RoundOf, RoundIs, Wrote,
           LinesOf, AllLines, EachOne, TookCount, OverrunCount, Recent, Quick, Settled, FlagsOf, EveryLine, CaughtUp,
           Takes, Opens, Roomy, NeverRoom, PassOf, LookAt, EventsOf, OneUp, BlocksNow;
      NothingTimely();
      ghost var f := Setting(PaceOf(), Here(), fifoOpen, lockstep, withUsec, Ample());
      NoFifoRun(f, board.fifo, board.clock);
      for i := 0 to |readers|
        invariant Valid() && |calls| == |marks| == i && Here() == Before(f.first, marks, i)
        invariant FifoRun(f, board.fifo, board.clock, readers[..i], calls, history, sent, printed, marks, fifoOpen)
      {
        ghost var before, h, s, ms, wasOpen, lines, taken := calls, history, board, marks, fifoOpen, sent, printed;
        SteadyIsTimely();
        if f.ample { QuickIsTimely(); }
        DoStreaming(vals, withUsec, lockstep, readers[i]);
        SteadyIsTimely();
        NextFifoRun(f, s.fifo, s.clock, board.fifo, board.clock, readers, i, before, h, lines, taken, ms, wasOpen,
                    calls[i], sent, printed, Here(), fifoOpen);
      }
      assert readers[..|readers|] == readers;
      SteadyIsTimely();
      FifoRunEnds(f, board.fifo, board.clock, readers, calls, history, sent, printed, marks, fifoOpen);
      if Takes(readers) && (lockstep ==> Roomy(readers)) && Opens(readers) && f.ample { NoOverruns(); }
    }
  }

  // ----- The branches of main -----

  /** What the polling programs demand: an image to write, and channels at rest. */
  ghost predicate PowerOn(cfg: Config, board: State) {
    && ValidConfig(cfg) && Contained(cfg, board) && board.fifo == board.clock == board.status == []
    && AtRest(board.rx) && AtRest(board.tx) && AtRest(board.pwm)
  }

  /** The UDP branch of main: from memory and channels at rest, the DMA is set up and started and `rounds`
      datagrams are sent from the zeroed stream buffer. What every call takes and discards, where it ends, and the
      completions around each of its clearings of flags follow from the schedule and the two streams alone
      (`Determined`). If these clearings are all in time, each datagram carries one whole block or nothing yet.
      That is so if the schedule never completes two blocks between two accesses, or if it completes no more than
      one during each call; if it leaves time for two passes and a sleep for each block, datagram c carries block c. */
  method UdpProgram(cfg: Config, board: State, env: Schedule, vals: array<byte>, rounds: nat) returns (adc: Adc)
    requires PowerOn(cfg, board) && !cfg.single && Lively(env)
    requires PacketLen(cfg.nsamp) <= vals.Length && forall i | 0 <= i < vals.Length :: vals[i] == 0
    modifies vals
    ensures adc.cfg == cfg && adc.env == env && adc.Valid() && adc.history == Flat(adc.calls)
    ensures |adc.calls| == |adc.marks| == rounds && AllSent(old(vals[..]), adc.calls, cfg.nsamp, adc.sent)
    ensures var p := Pace(cfg, env, GapSteps(env, 8));
            && Determined(p, adc.board.fifo, adc.board.clock, StartMark(p), adc.calls, adc.marks)
            && adc.Here() == Before(StartMark(p), adc.marks, rounds)
            && (SteadyUpTo(cfg, env, adc.tick) || AtMostOne(p, StartMark(p), adc.marks) ==> AllInTime(adc.windows))
    ensures AllInTime(adc.windows) ==> AllWhole(old(vals[..]), adc.calls, cfg.nsamp, adc.sent, adc.board.fifo)
    ensures var p := Pace(cfg, env, GapSteps(env, 8));
            AllInTime(adc.windows) && rounds > 0 ==>
              adc.base >= BlocksNow(p, Before(StartMark(p), adc.marks, rounds - 1))
    ensures Quick(cfg, env) ==>
              InStep(adc.calls) && adc.overrunTotal == 0 && AllOwn(cfg.nsamp, adc.sent, adc.board.fifo)
  {
    hide Inv, Tiles, Faithful, Owed, AllSent, AllWhole, AllOwn, Contained, Quick, InStep, SteadyUpTo, AllInTime,
         BlocksAt, FlagCount, TookCount, OverrunCount, SampTotal, FirstStamp, SinceOverrun, Wrap, Pacing, Flat,
         Recent, Lively, AtMostOne, GapSteps, NapSteps, Determined, BlocksNow;
    adc := new Adc(cfg, board, env);
    adc.AdcDmaInit();
    AmpleAtStart(adc.PaceOf(), adc.tick, adc.naps);
    adc.StartsHere();
    adc.StreamUdp(vals, rounds);
  }

  /** The FIFO branch of main, in the same way, for one state of the reader in each round. */
  method FifoProgram(cfg: Config, board: State, env: Schedule, vals: array<byte>, withUsec: bool, lockstep: bool,
                     readers: seq<Reader>) returns (adc: Adc)
    requires PowerOn(cfg, board) && !cfg.single && 8 * cfg.nsamp + 22 < vals.Length
    modifies vals
    ensures adc.cfg == cfg && adc.env == env && adc.Valid() && adc.history == Flat(adc.calls)
    ensures |adc.calls| == |adc.marks| == |readers|
    ensures var p := Pace(cfg, env, GapSteps(env, 8)); var first := StartMark(p);
            && RoundsRun(p, adc.board.fifo, adc.board.clock, first, false, lockstep, readers, adc.calls, adc.printed,
                         adc.marks, adc.fifoOpen)
            && adc.Here() == Before(first, adc.marks, |readers|)
            && adc.sent == LinesOf(RoundsOf(p, first, false, lockstep, readers), adc.calls, withUsec)
            && (AllInTime(adc.windows) && Opens(readers) && readers != [] ==>
                  adc.base >= BlocksNow(p, Before(first, adc.marks, |readers| - 1)))
    ensures AllLines(adc.sent, withUsec, cfg.nsamp, adc.printed, adc.history)
    ensures SteadyUpTo(cfg, env, adc.tick) ==> AllInTime(adc.windows)
    ensures AllInTime(adc.windows) ==>
              Faithful(adc.printed, cfg.nsamp, adc.board.fifo, adc.board.clock) && InSequence(adc.printed, adc.base)
    ensures lockstep && NeverRoom(readers) ==> adc.sent == []
    ensures Takes(readers) && (lockstep ==> Roomy(readers)) ==> |adc.sent| == TookCount(adc.history)
    ensures Takes(readers) && (lockstep ==> Roomy(readers)) && Opens(readers) && Quick(cfg, env) ==>
              EachOne(adc.printed, adc.base) && adc.overrunTotal == 0 && AllInTime(adc.windows)
  {
    hide Inv, Tiles, Faithful, Owed, AllLines, Contained, Quick, InSequence, SteadyUpTo, AllInTime, BlocksAt, FlagCount,
         TookCount, OverrunCount, SampTotal, FirstStamp, Wrap, Pacing, Flat, Recent, GapSteps, NapSteps,
         RoundsRun, RoundsOf, LinesOf, Takes, Opens, Roomy, NeverRoom, BlocksNow;
    adc := new Adc(cfg, board, env);
    adc.AdcDmaInit();
    AmpleAtStart(adc.PaceOf(), adc.tick, adc.naps);
    adc.StartsHere();
    adc.StreamFifo(vals, withUsec, lockstep, readers);
    if Quick(cfg, env) { adc.QuickIsTimely(); }
  }

  /** Nothing is complete when the receive channel starts, four accesses before the end of the set-up. */
  lemma AmpleAtStart(p: Pace, t: nat, z: nat)
    requires t >= 4 && p.cfg.nsamp >= 1 && p.began == GapSteps(p.env, t - 4) + NapSteps(p.env, z)
    ensures Recent(p, 0, t, z) && NapSteps(p.env, 0) == 0
  {
    assert Running(p, t - 4, z) && BlocksAt(p, t - 4, z) == 0;
  }

  /** Receive steps offered in a single shot from the start of the receive channel, eight accesses after the
      beginning, to the program's first look at the flag. */
  function Offered(env: Schedule): int { GapSteps(env, 13) - GapSteps(env, 8) + RxActions(env.nap(0)) }

  /** The single-shot branch of main: the DMA is set up, started and waited for, and one line is printed. It is
      that of the first nsamp words of the stream, with time stamp zero if asked for, exactly if the block was
      complete at the first look; otherwise it is empty. */
  method SingleProgram(cfg: Config, board: State, env: Schedule, vals: array<byte>, withUsec: bool)
    returns (adc: Adc, slen: nat, ghost count: nat)
    requires PowerOn(cfg, board) && cfg.single && 12 <= vals.Length
    modifies vals
    ensures adc.cfg == cfg && adc.Valid() && slen < vals.Length && vals[slen] == 0
    ensures slen > 0 <==> Offered(env) >= cfg.nsamp + 4
    ensures slen > 0 ==>
              && |adc.board.fifo| == cfg.nsamp && count <= cfg.nsamp
              && (8 * cfg.nsamp + 22 < vals.Length ==> count == cfg.nsamp)
              && vals[..slen] == Line(if withUsec then [0] else [], adc.board.fifo[..count])
  {
    hide Inv, Tiles, Faithful, Contained, Line, FirstStamp, TookCount, OverrunCount, Owed, Flag, Rely, FlagCount,
         Printed, Fresh, Sized, WroteLine, AllInTime, SampTotal, Pacing, GapSteps, NapSteps, PassOf, PassIs,
         RxActions, BlocksAt, AfterNap, Prints, StartMark;
    adc := new Adc(cfg, board, env);
    adc.AdcDmaInit();
    NoSleeps(env);
    adc.StartsHere();
    adc.Sleep();
    ghost var m := adc.Here();
    ghost var events;
    slen, count, events := adc.AdcStreamCsv(vals, withUsec, false, Rooms(true, true));
    assert adc.history == events;
    SinglePass(cfg, env, adc.board.fifo, adc.board.clock, events, adc.Here());
    SingleTimely(adc);
    OwedBase(adc.board, adc.base);
    OnlyBlock(cfg, adc.board, events, adc.base);
    if events != [] {
      OnlyLine(vals[..slen], events, withUsec, adc.usecStart, count);
    } else {
      NoLine(vals[..slen], withUsec, adc.usecStart, count);
    }
  }

  lemma NoSleeps(env: Schedule)
    ensures NapSteps(env, 0) == 0
  {
  }

  lemma SingleTimely(adc: Adc)
    requires adc.cfg.single && adc.Valid()
    ensures adc.Timely() && Tiles(adc.history, adc.base)
    ensures Faithful(adc.history, adc.cfg.nsamp, adc.board.fifo, adc.board.clock)
    ensures |adc.board.mem| == VC_MEM_WORDS
    ensures Owed(Flag(adc.board, 0), Flag(adc.board, 1), adc.base, Completed(adc.board)) && Inv(adc.cfg, adc.board)
  {
  }

  /** A single shot is found exactly if it was complete at the first look. */
  lemma SinglePass(cfg: Config, env: Schedule, fifo: seq<word>, clock: seq<word>, events: seq<Event>, m': Mark)
    requires cfg.single && cfg.nsamp >= 1
    requires var p := Pace(cfg, env, GapSteps(env, 8));
             PassIs(p, fifo, clock, AfterNap(p, StartMark(p)), true, events, m')
    ensures events == [] <==> Offered(env) < cfg.nsamp + 4
  {
    hide PassOf, GapSteps, RxActions, BlocksAt, Blocks;
    var p := Pace(cfg, env, GapSteps(env, 8));
    var m := AfterNap(p, StartMark(p));
    EmptyPass(p, m, true);
    SingleSteps(p, 12, 0);
    SingleSteps(p, 12, 1);
    SingleSteps(p, 13, 1);
    SingleSteps(p, 14, 1);
    LaterBlocks(p, 12, 13, 1);
    LaterBlocks(p, 13, 14, 1);
    RestedBlocks(p, 12, 0);
    GapsGrow(env, 8, 13);
    assert NapSteps(env, 0) == 0;
    assert NapSteps(env, 1) == RxActions(env.nap(0));
  }

  lemma SingleSteps(p: Pace, t: nat, z: nat)
    requires p.cfg.single && p.cfg.nsamp >= 1
    ensures BlocksAt(p, t, z) <= 1 && (BlocksAt(p, t, z) == 1 <==> StepsAt(p, t, z) >= p.cfg.nsamp + 4)
  {
    SingleBlocks(p.cfg, StepsAt(p, t, z));
  }

  /** A single shot is one block, complete one step before the channel halts. */
  lemma SingleBlocks(cfg: Config, steps: int)
    requires cfg.single && cfg.nsamp >= 1
    ensures Blocks(cfg, steps) <= 1 && (Blocks(cfg, steps) == 1 <==> steps >= cfg.nsamp + 4)
  {
    if steps >= cfg.nsamp + 4 {
      Quotient(Budget(cfg, steps) + 1, cfg.nsamp + 5, 1);
    } else if steps >= 0 {
      Quotient(Budget(cfg, steps) + 1, cfg.nsamp + 5, 0);
    }
  }

  lemma OwedBase(s: State, base: nat)
    requires |s.mem| == VC_MEM_WORDS && Owed(Flag(s, 0), Flag(s, 1), base, Completed(s))
    ensures base <= Completed(s)
  {
  }

  /** With one block taken, its time stamp relative to the first is zero. */
  lemma OnlyLine(line: seq<byte>, events: seq<Event>, withUsec: bool, start: word, count: nat)
    requires |events| == 1 && events[0].Took? && start == events[0].usec
    ensures Fresh(events)
    ensures WroteLine(line, events, if withUsec then [start] else [], count) ==>
              count <= |events[0].words| && line == Line(if withUsec then [0] else [], events[0].words[..count])
  {
    hide Line;
    assert events[0].Took?;
  }

  lemma NoLine(line: seq<byte>, withUsec: bool, start: word, count: nat)
    ensures !WroteLine(line, [], if withUsec then [start] else [], count)
  {
  }

  /** A single shot leaves nothing to take but block 0, which is the whole stream. */
  lemma OnlyBlock(cfg: Config, s: State, h: seq<Event>, base: nat)
    requires Inv(cfg, s) && cfg.single && base <= Completed(s)
    requires Tiles(h, base) && Faithful(h, cfg.nsamp, s.fifo, s.clock)
    ensures h == [] || (|h| == 1 && h[0].Took? && h[0].words == s.fifo && |s.fifo| == cfg.nsamp)
    ensures h != [] ==> FirstStamp(h) == h[0].usec
  {
    hide Inv, IsBlock, FirstStamp, AtStage;
    SingleCompleted(cfg, s);
    if |h| >= 2 {
      InOrder(h, base, 0, |h| - 1);
    } else if |h| == 1 {
      BlockZero(h[0], cfg.nsamp, s.fifo, s.clock);
      StampOfOne(h);
    }
  }

  lemma BlockZero(e: Event, nsamp: nat, fifo: seq<word>, clock: seq<word>)
    ensures e.Took? && e.block == 0 && IsBlock(e, nsamp, fifo, clock) && |fifo| <= nsamp ==>
              e.words == fifo && |fifo| == nsamp
  {
  }

  lemma StampOfOne(h: seq<Event>)
    requires |h| == 1 && h[0].Took?
    ensures FirstStamp(h) == h[0].usec
  {
    assert h[..0] == [];
  }
}
