/** Runs that show what the protocol does not prevent: a clearing that comes too late and the torn copy that
    follows, and a call that takes two blocks. */
module Hazards {
  import opened Words
  import opened Layout
  import opened DmaEngine
  import opened PingPong
  import opened DmaProgram
  import opened DmaRuns
  import opened Schedules
  import opened Snapshots
  import opened Polling
  import opened Sharing
  import opened History
  import opened Calls

  // ----- Bursts -----

  /** m steps of the receive channel, which reads the values v, v + 1, ... */
  function Burst(m: nat, v: nat): (acts: seq<Action>)
    requires v + m <= WORD_SPAN
    ensures |acts| == m
  {
    if m == 0 then [] else [Action(RxChan, v)] + Burst(m - 1, v + 1)
  }

  lemma {:induction false} BurstRuns(s: State, m: nat, v: nat)
    requires 1 <= v && v + m <= WORD_SPAN
    ensures Feasible(s, Burst(m, v)) && RxActions(Burst(m, v)) == m
    decreases m
  {
    if m > 0 {
      BurstRuns(Step(s, RxChan, v), m - 1, v + 1);
      assert Burst(m, v)[1..] == Burst(m - 1, v + 1);
    }
  }

  /** Words that rise and stay below v. */
  ghost predicate Rising(ws: seq<word>, v: int) {
    (forall i | 0 <= i < |ws| :: ws[i] < v) && forall i, j | 0 <= i < j < |ws| :: ws[i] < ws[j]
  }

  lemma StepStream(s: State, v: word)
    ensures var t := Step(s, RxChan, v); t.fifo == s.fifo || t.fifo == s.fifo + [v]
  {
  }

  /** A burst keeps the stream rising. */
  lemma {:induction false} BurstRises(s: State, m: nat, v: nat)
    requires v + m <= WORD_SPAN && Rising(s.fifo, v)
    ensures Rising(Run(s, Burst(m, v)).fifo, v + m)
    decreases m
  {
    hide Step;
    if m > 0 {
      StepStream(s, v);
      BurstRises(Step(s, RxChan, v), m - 1, v + 1);
      assert Burst(m, v)[1..] == Burst(m - 1, v + 1);
    }
  }

  lemma RisingDistinct(ws: seq<word>, v: int)
    requires Rising(ws, v)
    ensures Distinct(ws)
  {
  }

  // ----- Where a run gets -----

  lemma HasTaken(cfg: Config, s: State) returns (taken: nat)
    requires Inv(cfg, s) && s.rx.ch.Busy?
    ensures Advanced(cfg, s, taken)
  {
    hide ProgramIntact, BufferInv, TimeInv, TxInv, PwmInv, At;
    var st :| AtStage(cfg, st, s);
    StageBusy(cfg, s, st);
    taken := Taken(cfg, st, s);
  }

  /** In the middle of the samples of block k. */
  lemma Position(cfg: Config, s: State, k: nat, p: nat)
    requires Inv(cfg, s) && 0 < p < cfg.nsamp && Advanced(cfg, s, k * (cfg.nsamp + 5) + 2 + p) && !cfg.single
    ensures Completed(s) == k && Filled(cfg, s) == p
  {
    hide ProgramIntact, BufferInv, TimeInv, TxInv, PwmInv, At;
    var d, taken := cfg.nsamp + 5, k * (cfg.nsamp + 5) + 2 + p;
    BlocksOfSteps(cfg, s, taken);
    BlockSteps(k, cfg.nsamp);
    CompletedIs(cfg, s, taken, k);
    var st :| AtStage(cfg, st, s) && Taken(cfg, st, s) == taken && !st.Waiting?;
    if st.Flagged? { BlockSteps(k - 1, cfg.nsamp); }
  }

  lemma CompletedIs(cfg: Config, s: State, taken: int, k: nat)
    requires Inv(cfg, s) && Advanced(cfg, s, taken)
    requires k * (cfg.nsamp + 5) <= taken + 1 < (k + 1) * (cfg.nsamp + 5)
    ensures Completed(s) == k
  {
    hide Inv, Advanced;
    BlocksOfSteps(cfg, s, taken);
    Quotient(taken + 1, cfg.nsamp + 5, k);
    Quotient(taken + 1, cfg.nsamp + 5, Completed(s));
  }

  lemma SampsFit(cfg: Config, s: State)
    requires Inv(cfg, s)
    ensures ValidConfig(cfg) && |s.mem| == VC_MEM_WORDS && 1 <= cfg.nsamp <= MAX_SAMPS
  {
  }

  /** A burst takes the receive channel exactly m steps further. */
  lemma BurstAdvances(cfg: Config, s: State, taken: nat, m: nat, v: nat)
    requires Inv(cfg, s) && !cfg.single && Advanced(cfg, s, taken) && 1 <= v && v + m <= WORD_SPAN
    ensures var acts := Burst(m, v);
            Feasible(s, acts) && Rely(cfg, s, Run(s, acts)) && Advanced(cfg, Run(s, acts), taken + m)
    ensures |Run(s, Burst(m, v)).mem| == |s.mem| == VC_MEM_WORDS
  {
    hide Advanced, Inv, Burst, Run, Rely, Feasible, ValidConfig, Landings, FlagCount, RxActions;
    SampsFit(cfg, s);
    BurstRuns(s, m, v);
    RxCycles(cfg, s, Burst(m, v), taken);
    RunRely(cfg, s, Burst(m, v));
    RelyKeeps(cfg, s, Run(s, Burst(m, v)));
  }

  lemma ClearedAdvanced(cfg: Config, s: State, b: nat, taken: int)
    requires Inv(cfg, s) && Advanced(cfg, s, taken) && |s.mem| == VC_MEM_WORDS && b < 2
    ensures Advanced(cfg, Cleared(s, b), taken)
  {
    hide At;
    var st :| AtStage(cfg, st, s) && Taken(cfg, st, s) == taken && !st.Waiting?;
    assert AtStage(cfg, st, Cleared(s, b)) && Taken(cfg, st, Cleared(s, b)) == taken;
  }

  // ----- A late clearing -----

  /** From every streaming state with one block waiting, a feasible run completes two more blocks before the
      flag of the first is cleared. The flags are then unreadable: the one that is left belongs to the buffer
      that is filled next. */
  lemma LateClearing(cfg: Config, s: State, base: nat, b: nat, v: nat) returns (m: nat)
    requires Inv(cfg, s) && !cfg.single && s.rx.ch.Busy?
    requires Owed(Flag(s, 0), Flag(s, 1), base, Completed(s)) && b < 2 && Flag(s, b) && !Flag(s, 1 - b)
    requires 1 <= v && v + 3 * (cfg.nsamp + 5) <= WORD_SPAN
    ensures m < 3 * (cfg.nsamp + 5) && Feasible(s, Burst(m, v)) && |s.mem| == VC_MEM_WORDS
    ensures var u := Run(s, Burst(m, v));
            && Inv(cfg, u) && |u.mem| == VC_MEM_WORDS && Completed(u) == base + 3
            && Advanced(cfg, Cleared(u, b), (base + 3) * (cfg.nsamp + 5) - 1) && Inv(cfg, Cleared(u, b))
            && Flag(Cleared(u, b), 1 - b) && !Flag(Cleared(u, b), b)
            && !Readable(Flag(Cleared(u, b), 0), Flag(Cleared(u, b), 1), base + 3)
  {
    hide Inv, Advanced, Burst, Run, Feasible, Flag, AtStage, Readable;
    MemorySize(cfg, s);
    OneWaits(Flag(s, 0), Flag(s, 1), base, Completed(s));
    var d := cfg.nsamp + 5;
    var taken := HasTaken(cfg, s);
    BlocksOfSteps(cfg, s, taken);
    ThreeBlocks(base, cfg.nsamp);
    m := (base + 3) * d - 1 - taken;
    BurstAdvances(cfg, s, taken, m, v);
    var u := Run(s, Burst(m, v));
    CompletedIs(cfg, u, (base + 3) * d - 1, base + 3);
    ClearedAdvanced(cfg, u, b, (base + 3) * d - 1);
    ClearedInv(cfg, u, b);
    FlagsAfter(cfg, s, u, base, b);
  }

  /** Two completions set both flags, and the flag cleared is that of the last block. */
  lemma FlagsAfter(cfg: Config, s: State, u: State, base: nat, b: nat)
    requires |s.mem| == |u.mem| == VC_MEM_WORDS && Rely(cfg, s, u) && b == base % 2
    requires Completed(s) == base + 1 && Completed(u) == base + 3
    ensures Flag(Cleared(u, b), 1 - b) && !Flag(Cleared(u, b), b)
    ensures !Readable(Flag(Cleared(u, b), 0), Flag(Cleared(u, b), 1), base + 3)
  {
    hide Inv;
    assert Done(base + 1, base + 3, 1 - b);
  }

  lemma ThreeBlocks(base: nat, n: nat)
    ensures (base + 2) * (n + 5) == (base + 1) * (n + 5) + n + 5
    ensures (base + 3) * (n + 5) == (base + 1) * (n + 5) + 2 * (n + 5)
    ensures (base + 4) * (n + 5) == (base + 3) * (n + 5) + n + 5
  {
  }

  lemma OneWaits(f0: bool, f1: bool, base: nat, k: nat)
    requires Owed(f0, f1, base, k) && f0 != f1
    ensures k == base + 1 && f0 == (base % 2 == 0)
  {
  }

  /** After a late clearing the next pass copies a torn block: p words of the block being received and the rest
      of an older one. If the words of the stream rise, that is no block at all. */
  lemma TornCopy(cfg: Config, s: State, base: nat, b: nat, v: nat, p: nat) returns (m: nat, q: nat)
    requires Inv(cfg, s) && !cfg.single && s.rx.ch.Busy? && 0 < p < cfg.nsamp
    requires Owed(Flag(s, 0), Flag(s, 1), base, Completed(s)) && b < 2 && Flag(s, b) && !Flag(s, 1 - b)
    requires Rising(s.fifo, v) && 1 <= v && v + 5 * (cfg.nsamp + 5) <= WORD_SPAN
    ensures m < 3 * (cfg.nsamp + 5) && q == p + 3 && Feasible(s, Burst(m, v))
    ensures |Run(s, Burst(m, v)).mem| == VC_MEM_WORDS
    ensures var u := Cleared(Run(s, Burst(m, v)), b);
            Feasible(u, Burst(q, v + m)) && Torn(cfg, Run(u, Burst(q, v + m)), 1 - b)
  {
    hide Inv, Advanced, Burst, Run, Feasible, Flag, Rising, Distinct, Readable, AtStage;
    m := LateClearing(cfg, s, base, b, v);
    q := p + 3;
    BurstRises(s, m, v);
    var u := Cleared(Run(s, Burst(m, v)), b);
    BurstAdvances(cfg, u, (base + 3) * (cfg.nsamp + 5) - 1, q, v + m);
    BurstRises(u, q, v + m);
    var t := Run(u, Burst(q, v + m));
    Position(cfg, t, base + 3, p);
    SameFlagsLater(cfg, u, t);
    RisingDistinct(t.fifo, v + m + q);
    SampsFit(cfg, t);
    var c := 1 - b;
    forall k: nat
      ensures NotBlock(cfg, t, c, k)
    {
      NoSuchBlock(cfg, t, c, k);
    }
  }

  lemma NoSuchBlock(cfg: Config, t: State, b: nat, k: nat)
    requires Inv(cfg, t) && |t.mem| == VC_MEM_WORDS && b < 2 && Flag(t, b) && !Flag(t, 1 - b) && Completed(t) >= 2
    requires !Readable(Flag(t, 0), Flag(t, 1), Completed(t)) && 0 < Filled(cfg, t) < cfg.nsamp <= MAX_SAMPS
    requires Distinct(t.fifo)
    ensures NotBlock(cfg, t, b, k)
  {
    hide Inv, Flag, Distinct, Readable;
    Offsets(cfg.nsamp, k);
    if (k + 1) * cfg.nsamp <= |t.fifo| {
      UnreadableIsTorn(cfg, t, b, k);
    }
  }

  lemma SameFlagsLater(cfg: Config, s: State, t: State)
    requires |s.mem| == |t.mem| == VC_MEM_WORDS && Rely(cfg, s, t) && Completed(t) == Completed(s)
    ensures Inv(cfg, t) && Flag(t, 0) == Flag(s, 0) && Flag(t, 1) == Flag(s, 1)
  {
    hide Inv;
  }

  ghost predicate NotBlock(cfg: Config, t: State, b: nat, k: nat)
    requires |t.mem| == VC_MEM_WORDS && cfg.nsamp <= MAX_SAMPS
  {
    Offsets(cfg.nsamp, k);
    (k + 1) * cfg.nsamp <= |t.fifo| ==>
      t.mem[Rxd(b)..Rxd(b) + cfg.nsamp] != t.fifo[k * cfg.nsamp..(k + 1) * cfg.nsamp]
  }

  /** Exactly flag b is set, and its buffer is no block of the stream. */
  ghost predicate Torn(cfg: Config, t: State, b: nat) {
    && |t.mem| == VC_MEM_WORDS && b < 2 && Flag(t, b) && !Flag(t, 1 - b) && cfg.nsamp <= MAX_SAMPS
    && forall k: nat :: NotBlock(cfg, t, b, k)
  }

  /** All of this happens to a stream just started: one block arrives and its flag is seen, two more arrive
      before it is cleared, and the buffer whose flag is then set is torn. */
  lemma TornFromStart(cfg: Config, s: State) returns (m0: nat, m: nat, q: nat)
    requires Inv(cfg, s) && !cfg.single && AtStage(cfg, Stamping, s) && cfg.nsamp >= 2
    requires s.fifo == [] && Completed(s) == 0 && |s.mem| == VC_MEM_WORDS && !Flag(s, 0) && !Flag(s, 1)
    ensures m0 < WORD_SPAN - 1 && m < WORD_SPAN - 1 - m0 && q < WORD_SPAN - 1 - m0 - m
    ensures Feasible(s, Burst(m0, 1))
    ensures var t := Run(s, Burst(m0, 1));
            && |t.mem| == VC_MEM_WORDS && Flag(t, 0) && !Flag(t, 1) && Feasible(t, Burst(m, 1 + m0))
            && |Run(t, Burst(m, 1 + m0)).mem| == VC_MEM_WORDS
            && var u := Cleared(Run(t, Burst(m, 1 + m0)), 0);
               Feasible(u, Burst(q, 1 + m0 + m)) && Torn(cfg, Run(u, Burst(q, 1 + m0 + m)), 1)
  {
    hide Inv, Burst, Run, Feasible, Rising, Torn, At;
    SampsFit(cfg, s);
    JustStarted(cfg, s);
    m0 := cfg.nsamp + 4;
    BurstAdvances(cfg, s, 0, m0, 1);
    BurstRises(s, m0, 1) by { StartsRising(s); }
    var t := Run(s, Burst(m0, 1));
    CompletedIs(cfg, t, m0, 1);
    assert Done(0, 1, 0) && !Done(0, 1, 1);
    m, q := TornCopy(cfg, t, 0, 0, 1 + m0, 1);
  }

  lemma JustStarted(cfg: Config, s: State)
    requires Inv(cfg, s) && AtStage(cfg, Stamping, s) && Completed(s) == 0
    ensures s.rx.ch.Busy? && Advanced(cfg, s, 0)
  {
    hide ProgramIntact, BufferInv, TimeInv, TxInv, PwmInv;
    assert Taken(cfg, Stamping, s) == 0;
  }

  lemma StartsRising(s: State)
    requires s.fifo == []
    ensures Rising(s.fifo, 1)
  {
  }

  // ----- Bursts in the UDP program -----

  /** A schedule that completes one block before the first access of the first pass and takes m more steps of the
      receive channel before access number `at`. */
  function Bursts(cfg: Config, at: nat, m: nat): Schedule
    requires cfg.nsamp <= MAX_SAMPS && m + 1 <= WORD_SPAN
  {
    Schedule(t => if t == 12 then Burst(cfg.nsamp + 5, 1) else if t == at then Burst(m, 1) else [], z => Burst(1, 1))
  }

  /** The UDP program under that schedule. */
  function BurstPace(cfg: Config, at: nat, m: nat): Pace
    requires cfg.nsamp <= MAX_SAMPS && m + 1 <= WORD_SPAN
  {
    Pace(cfg, Bursts(cfg, at, m), GapSteps(Bursts(cfg, at, m), 8))
  }

  lemma {:induction false} BurstCount(m: nat, v: nat)
    requires v + m <= WORD_SPAN
    ensures RxActions(Burst(m, v)) == m
    decreases m
  {
    if m > 0 {
      BurstCount(m - 1, v + 1);
      assert Burst(m, v)[1..] == Burst(m - 1, v + 1);
    }
  }

  lemma {:induction false} BurstSteps(cfg: Config, at: nat, m: nat, t: nat)
    requires 1 <= cfg.nsamp <= MAX_SAMPS && m + 1 <= WORD_SPAN && at > 12
    ensures GapSteps(Bursts(cfg, at, m), t) ==
            if t <= 12 then 0 else if t <= at then cfg.nsamp + 5 else cfg.nsamp + 5 + m
    decreases t
  {
    hide Burst;
    if t > 0 {
      BurstSteps(cfg, at, m, t - 1);
      BurstCount(cfg.nsamp + 5, 1);
      BurstCount(m, 1);
      assert RxActions([]) == 0;
    }
  }

  /** Steps and blocks at the accesses of the first pass. */
  lemma BurstBlocks(cfg: Config, at: nat, m: nat, t: nat)
    requires 1 <= cfg.nsamp <= MAX_SAMPS && !cfg.single && m + 1 <= WORD_SPAN && at > 12
    ensures var p := BurstPace(cfg, at, m);
            && StepsAt(p, t, 0) == (if t <= 12 then 0 else if t <= at then cfg.nsamp + 5 else cfg.nsamp + 5 + m)
            && BlocksAt(p, t, 0) == (if t <= 12 then 0 else if t <= at then 1 else Blocks(cfg, cfg.nsamp + 5 + m))
  {
    hide Bursts, GapSteps;
    BurstSteps(cfg, at, m, 8);
    BurstSteps(cfg, at, m, t);
    WholeBlocks(cfg, 0, 0);
    WholeBlocks(cfg, 1, 0);
  }

  /** k blocks and r more steps. */
  lemma WholeBlocks(cfg: Config, k: nat, r: nat)
    requires !cfg.single && r <= cfg.nsamp + 3
    ensures Blocks(cfg, k * (cfg.nsamp + 5) + r) == k
  {
    Commute(k, cfg.nsamp + 5);
    Quotient(k * (cfg.nsamp + 5) + r + 1, cfg.nsamp + 5, k);
  }

  lemma BurstSchedule(cfg: Config, at: nat, m: nat)
    requires cfg.nsamp <= MAX_SAMPS && m + 1 <= WORD_SPAN
    ensures Lively(Bursts(cfg, at, m)) && (m <= cfg.nsamp + 5 ==> Steady(cfg, Bursts(cfg, at, m)))
  {
    hide Burst;
    var env := Bursts(cfg, at, m);
    BurstCount(cfg.nsamp + 5, 1);
    BurstCount(m, 1);
    BurstCount(1, 1);
    assert RxActions([]) == 0;
    if m <= cfg.nsamp + 5 {
      forall u: nat
        ensures SteadyUpTo(cfg, env, u)
      {
        assert forall t: nat | t < u :: RxActions(env.gap(t)) <= cfg.nsamp + 5;
      }
    }
  }

  lemma StartSettled(p: Pace)
    ensures Settled(p, StartMark(p)) && StartMark(p).base == 0
  {
    hide BlocksAt;
  }

  /** The first look of the program finds block 0, whole, if the burst comes later. */
  lemma FirstLook(cfg: Config, at: nat, m: nat)
    requires 1 <= cfg.nsamp <= MAX_SAMPS && !cfg.single && m + 1 <= WORD_SPAN && at >= cfg.nsamp + 15
    ensures var p := BurstPace(cfg, at, m); LookAt(p, StartMark(p), 0) == Whole
    ensures var p := BurstPace(cfg, at, m);
            Tested(p, StartMark(p)) == Mark(cfg.nsamp + 15, 0, 0, Flags(true, false), [])
  {
    hide BlocksAt, Bursts, LookAt, Settled;
    var n, p := cfg.nsamp, BurstPace(cfg, at, m);
    BurstBlocks(cfg, at, m, 12);
    BurstBlocks(cfg, at, m, 13);
    BurstBlocks(cfg, at, m, n + 15);
    StartSettled(p);
    SettledLook(p, StartMark(p), 0);
  }

  // ----- A call that takes two blocks -----

  /** If one more block completes just before states[1] is read, after the first block was taken, the very first
      call takes two blocks; the schedule is steady. */
  lemma FirstCallTakesTwo(cfg: Config)
    requires 1 <= cfg.nsamp <= MAX_SAMPS && !cfg.single
    ensures var p := BurstPace(cfg, cfg.nsamp + 16, cfg.nsamp + 5);
            && Steady(cfg, p.env) && Lively(p.env)
            && Looks(p, PassOf(p, StartMark(p), false).finds) == [Whole, Whole]
  {
    hide BlocksAt, Bursts, LookAt, Settled;
    var n, at, m := cfg.nsamp, cfg.nsamp + 16, cfg.nsamp + 5;
    var p := BurstPace(cfg, at, m);
    BurstSchedule(cfg, at, m);
    FirstLook(cfg, at, m);
    WholeBlocks(cfg, 2, 0);
    BurstBlocks(cfg, at, m, n + 15);
    BurstBlocks(cfg, at, m, n + 16);
    BurstBlocks(cfg, at, m, n + 17);
    BurstBlocks(cfg, at, m, 2 * n + 19);
    StartSettled(p);
    WaitedSettles(p, StartMark(p), 1);
    WaitedSettles(p, Waited(p, StartMark(p), 1), n + 2);
    TakenSettles(p, Tested(p, StartMark(p)), 0);
    SettledLook(p, AfterLook(p, StartMark(p), 0), 1);
  }

  /** So in the UDP program, the first of two blocks is overwritten before it is sent. */
  lemma FirstCallIs(cfg: Config, fifo: seq<word>, clock: seq<word>, calls: seq<seq<Event>>, marks: seq<Mark>)
    requires 1 <= cfg.nsamp <= MAX_SAMPS && !cfg.single && calls != []
    requires var p := BurstPace(cfg, cfg.nsamp + 16, cfg.nsamp + 5);
             Determined(p, fifo, clock, StartMark(p), calls, marks)
    ensures |calls[0]| == 2 && calls[0][0].Took? && calls[0][1].Took?
  {
    hide PassOf, Bursts, StartMark, LookAt, AfterLook, Snapshot;
    var p := BurstPace(cfg, cfg.nsamp + 16, cfg.nsamp + 5);
    FirstCallTakesTwo(cfg);
    FirstCall(p, fifo, clock, StartMark(p), calls, marks);
    var finds := PassOf(p, StartMark(p), false).finds;
    assert Looks(p, finds)[0] == Whole && Looks(p, finds)[1] == Whole;
  }

  // ----- Calls that are late to clear a flag -----

  /** Where the first block is taken, after m steps between the test of states[1] and the clearing of states[0]. */
  function LateMark(cfg: Config, m: nat): Mark {
    Mark(cfg.nsamp + 16, 0, 1, Flags(false, true), [Clearing(1, Blocks(cfg, cfg.nsamp + 5 + m))])
  }

  lemma LateClears(cfg: Config, m: nat)
    requires 1 <= cfg.nsamp <= MAX_SAMPS && !cfg.single && m + 1 <= WORD_SPAN && Blocks(cfg, cfg.nsamp + 5 + m) >= 2
    ensures var p := BurstPace(cfg, cfg.nsamp + 15, m); AfterLook(p, StartMark(p), 0) == LateMark(cfg, m)
  {
    hide BlocksAt, Bursts, StartMark, LookAt, Blocks;
    FirstLook(cfg, cfg.nsamp + 15, m);
    BurstBlocks(cfg, cfg.nsamp + 15, m, cfg.nsamp + 15);
    BurstBlocks(cfg, cfg.nsamp + 15, m, cfg.nsamp + 16);
  }

  /** Then buffer 1 is looked at, its flag set and the other clear. */
  lemma LateLook(cfg: Config, m: nat)
    requires 1 <= cfg.nsamp <= MAX_SAMPS && !cfg.single && m + 1 <= WORD_SPAN && Blocks(cfg, cfg.nsamp + 5 + m) >= 2
    ensures var p := BurstPace(cfg, cfg.nsamp + 15, m);
            && LookAt(p, LateMark(cfg, m), 1) == Whole
            && AfterLook(p, LateMark(cfg, m), 1).flags == Flags(false, false)
  {
    hide BlocksAt, Bursts, Blocks;
    var n, at := cfg.nsamp, cfg.nsamp + 15;
    BurstBlocks(cfg, at, m, n + 16);
    BurstBlocks(cfg, at, m, n + 17);
    BurstBlocks(cfg, at, m, 2 * n + 19);
    BurstBlocks(cfg, at, m, 2 * n + 20);
  }

  lemma LateFinds(cfg: Config, m: nat)
    requires 1 <= cfg.nsamp <= MAX_SAMPS && !cfg.single && m + 1 <= WORD_SPAN && Blocks(cfg, cfg.nsamp + 5 + m) >= 2
    ensures var p := BurstPace(cfg, cfg.nsamp + 15, m); var q := PassOf(p, StartMark(p), false);
            && LookAt(p, StartMark(p), 0) == LookAt(p, LateMark(cfg, m), 1) == Whole
            && q.finds == [Find(StartMark(p), 0), Find(LateMark(cfg, m), 1)] && q.mark.flags == Flags(false, false)
  {
    hide Bursts, StartMark, LateMark, LookAt, AfterLook;
    FirstLook(cfg, cfg.nsamp + 15, m);
    LateClears(cfg, m);
    LateLook(cfg, m);
  }

  /** What the first call takes then: block 0 from buffer 0, and whatever buffer 1 holds. */
  lemma LateCall(cfg: Config, m: nat, fifo: seq<word>, clock: seq<word>, calls: seq<seq<Event>>, marks: seq<Mark>)
    requires 1 <= cfg.nsamp <= MAX_SAMPS && !cfg.single && m + 1 <= WORD_SPAN && Blocks(cfg, cfg.nsamp + 5 + m) >= 2
    requires calls != []
    requires var p := BurstPace(cfg, cfg.nsamp + 15, m); Determined(p, fifo, clock, StartMark(p), calls, marks)
    ensures |calls[0]| == 2 && calls[0][0].Took? && calls[0][0].block == 0 && cfg.nsamp <= |fifo|
    ensures calls[0][0].words == fifo[..cfg.nsamp]
    ensures calls[0][1].Took? && calls[0][1].block == 1 && |calls[0][1].words| == cfg.nsamp
    ensures forall j | 0 <= j < cfg.nsamp ::
              calls[0][1].words[j] == WordSeen(cfg, fifo, cfg.nsamp + 5 + m, 1, j)
    ensures StreamLen(cfg, cfg.nsamp + 5 + m) <= |fifo| && marks[0].flags == Flags(false, false)
  {
    hide PassOf, Bursts, StartMark, LateMark, LookAt, StreamLen, Blocks, WordSeen, EventOf, Backed;
    var p := BurstPace(cfg, cfg.nsamp + 15, m);
    LateFinds(cfg, m);
    FirstCall(p, fifo, clock, StartMark(p), calls, marks);
    LateReach(cfg, m, fifo, clock);
    FirstEvent(cfg, m, fifo, clock);
    SecondEvent(cfg, m, fifo, clock);
  }

  lemma LateReach(cfg: Config, m: nat, fifo: seq<word>, clock: seq<word>)
    requires 1 <= cfg.nsamp <= MAX_SAMPS && !cfg.single && m + 1 <= WORD_SPAN
    requires var p := BurstPace(cfg, cfg.nsamp + 15, m);
             Backed(p, fifo, clock, [Find(StartMark(p), 0), Find(LateMark(cfg, m), 1)])
    ensures StreamLen(cfg, cfg.nsamp + 5 + m) <= |fifo|
  {
    hide Bursts, StreamLen, StampLen, StepsAt, Blocks, StartMark;
    var p := BurstPace(cfg, cfg.nsamp + 15, m);
    BurstBlocks(cfg, cfg.nsamp + 15, m, 2 * cfg.nsamp + 18);
    var finds := [Find(StartMark(p), 0), Find(LateMark(cfg, m), 1)];
    assert finds[1].at.tick == cfg.nsamp + 16 && finds[1].at.naps == 0;
  }

  lemma FirstEvent(cfg: Config, m: nat, fifo: seq<word>, clock: seq<word>)
    requires 1 <= cfg.nsamp <= MAX_SAMPS && !cfg.single && m + 1 <= WORD_SPAN
    requires StreamLen(cfg, cfg.nsamp + 5 + m) <= |fifo|
    ensures var p := BurstPace(cfg, cfg.nsamp + 15, m); var e := EventOf(p, fifo, clock, Find(StartMark(p), 0));
            cfg.nsamp <= |fifo| && e.Took? && e.block == 0 && e.words == fifo[..cfg.nsamp]
  {
    hide Bursts, LookAt, AfterLook, StreamLen, Blocks, BlocksAt, Later, StepsAt, Snapshot;
    FirstLook(cfg, cfg.nsamp + 15, m);
    FirstWords(cfg, m, fifo);
  }

  lemma SecondEvent(cfg: Config, m: nat, fifo: seq<word>, clock: seq<word>)
    requires 1 <= cfg.nsamp <= MAX_SAMPS && !cfg.single && m + 1 <= WORD_SPAN && Blocks(cfg, cfg.nsamp + 5 + m) >= 2
    ensures var p := BurstPace(cfg, cfg.nsamp + 15, m); var e := EventOf(p, fifo, clock, Find(LateMark(cfg, m), 1));
            && e.Took? && e.block == 1 && |e.words| == cfg.nsamp
            && forall j | 0 <= j < cfg.nsamp :: e.words[j] == WordSeen(cfg, fifo, cfg.nsamp + 5 + m, 1, j)
  {
    hide Bursts, LookAt, AfterLook, StreamLen, Blocks, StepsAt, Snapshot, WordSeen;
    LateLook(cfg, m);
    SecondWords(cfg, m, fifo);
  }

  /** The second block is copied after the burst. */
  lemma SecondWords(cfg: Config, m: nat, fifo: seq<word>)
    requires 1 <= cfg.nsamp <= MAX_SAMPS && !cfg.single && m + 1 <= WORD_SPAN
    ensures var ws := Snapshot(BurstPace(cfg, cfg.nsamp + 15, m), fifo, cfg.nsamp + 17, 0, 1, cfg.nsamp);
            forall j | 0 <= j < cfg.nsamp :: ws[j] == WordSeen(cfg, fifo, cfg.nsamp + 5 + m, 1, j)
  {
    hide Bursts, StepsAt, Blocks, WordSeen;
    var n, p := cfg.nsamp, BurstPace(cfg, cfg.nsamp + 15, m);
    var ws := Snapshot(p, fifo, n + 17, 0, 1, n);
    forall j | 0 <= j < n
      ensures ws[j] == WordSeen(cfg, fifo, n + 5 + m, 1, j)
    {
      BurstBlocks(cfg, n + 15, m, n + 18 + j);
    }
  }

  /** The first is copied before it. */
  lemma FirstWords(cfg: Config, m: nat, fifo: seq<word>)
    requires 1 <= cfg.nsamp <= MAX_SAMPS && !cfg.single && m + 1 <= WORD_SPAN
    requires StreamLen(cfg, cfg.nsamp + 5 + m) <= |fifo|
    ensures cfg.nsamp <= |fifo|
    ensures Snapshot(BurstPace(cfg, cfg.nsamp + 15, m), fifo, 13, 0, 0, cfg.nsamp) == fifo[..cfg.nsamp]
  {
    hide Bursts, StepsAt, Blocks, StreamLen, WordSeen;
    var n, p := cfg.nsamp, BurstPace(cfg, cfg.nsamp + 15, m);
    StreamsLonger(cfg, n + 5, n + 5 + m);
    OneBlockLong(cfg);
    var ws := Snapshot(p, fifo, 13, 0, 0, n);
    forall j | 0 <= j < n
      ensures ws[j] == fifo[j]
    {
      BurstBlocks(cfg, n + 15, m, 14 + j);
      FirstWord(cfg, fifo, j);
    }
  }

  lemma OneBlockLong(cfg: Config)
    requires !cfg.single
    ensures StreamLen(cfg, cfg.nsamp + 5) >= cfg.nsamp
  {
    hide Blocks;
    WholeBlocks(cfg, 1, 0);
  }

  lemma FirstWord(cfg: Config, fifo: seq<word>, j: nat)
    requires !cfg.single && j < cfg.nsamp <= |fifo|
    ensures WordSeen(cfg, fifo, cfg.nsamp + 5, 0, j) == fifo[j]
  {
    hide Blocks;
    WholeBlocks(cfg, 1, 0);
  }

  /** An odd number of late completions: three blocks complete before the clearing. The call takes blocks 0 and 3 as
      if they were 0 and 1, no flag is left, and no overrun is seen: two blocks are lost silently. */
  lemma LostSilently(cfg: Config, fifo: seq<word>, clock: seq<word>, calls: seq<seq<Event>>, marks: seq<Mark>)
    requires 1 <= cfg.nsamp <= MAX_SAMPS && !cfg.single && calls != []
    requires var p := BurstPace(cfg, cfg.nsamp + 15, 3 * (cfg.nsamp + 5));
             Determined(p, fifo, clock, StartMark(p), calls, marks)
    ensures 4 * cfg.nsamp <= |fifo| && |calls[0]| == 2 && calls[0][0].Took? && calls[0][1].Took?
    ensures calls[0][0].words == fifo[..cfg.nsamp] && calls[0][1].words == fifo[3 * cfg.nsamp..4 * cfg.nsamp]
    ensures calls[0][1].block == 1 && marks[0].flags == Flags(false, false)
  {
    hide Bursts, StartMark, Determined, Blocks;
    var n := cfg.nsamp;
    WholeBlocks(cfg, 4, 0);
    LateCall(cfg, 3 * (n + 5), fifo, clock, calls, marks);
    var ws := calls[0][1].words;
    forall j | 0 <= j < n
      ensures ws[j] == fifo[3 * n + j]
    {
      assert ws[j] == WordSeen(cfg, fifo, 4 * (n + 5), 1, j);
    }
  }

  /** An even number: two blocks complete before the clearing, and q words of the next. What the call takes as
      block 1 are these q words and then the rest of block 1; if the words of the stream are distinct, that is no
      block of it at all. */
  lemma TornTaken(cfg: Config, q: nat, fifo: seq<word>, clock: seq<word>, calls: seq<seq<Event>>, marks: seq<Mark>)
    requires 1 <= q < cfg.nsamp <= MAX_SAMPS && !cfg.single && calls != []
    requires var p := BurstPace(cfg, cfg.nsamp + 15, 2 * (cfg.nsamp + 5) + q + 2);
             Determined(p, fifo, clock, StartMark(p), calls, marks)
    ensures 3 * cfg.nsamp + q <= |fifo| && |calls[0]| == 2 && calls[0][1].Took? && calls[0][1].block == 1
    ensures calls[0][1].words == fifo[3 * cfg.nsamp..3 * cfg.nsamp + q] + fifo[cfg.nsamp + q..2 * cfg.nsamp]
    ensures Distinct(fifo) ==> forall k: nat :: !IsBlock(calls[0][1].(block := k), cfg.nsamp, fifo, clock)
  {
    hide Bursts, StartMark, Determined, Blocks, Distinct, IsBlock, WordSeen, StreamLen;
    var n := cfg.nsamp;
    WholeBlocks(cfg, 3, q + 2);
    LateCall(cfg, 2 * (n + 5) + q + 2, fifo, clock, calls, marks);
    TornLength(cfg, q);
    var e := calls[0][1];
    forall j | 0 <= j < n
      ensures e.words[j] == if j < q then fifo[3 * n + j] else fifo[n + j]
    {
      TornWord(cfg, q, fifo, j);
    }
    if Distinct(fifo) {
      forall k: nat
        ensures !IsBlock(e.(block := k), n, fifo, clock)
      {
        TornNoBlock(fifo, clock, e, n, q, k);
      }
    }
  }

  lemma TornLength(cfg: Config, q: nat)
    requires 1 <= q < cfg.nsamp && !cfg.single
    ensures StreamLen(cfg, 3 * (cfg.nsamp + 5) + q + 2) == 3 * cfg.nsamp + q
  {
    hide Blocks;
    WholeBlocks(cfg, 3, q + 2);
  }

  lemma TornWord(cfg: Config, q: nat, fifo: seq<word>, j: nat)
    requires 1 <= q < cfg.nsamp && !cfg.single && j < cfg.nsamp && 3 * cfg.nsamp + q <= |fifo|
    ensures WordSeen(cfg, fifo, 3 * (cfg.nsamp + 5) + q + 2, 1, j) ==
            if j < q then fifo[3 * cfg.nsamp + j] else fifo[cfg.nsamp + j]
  {
    hide Blocks;
    WholeBlocks(cfg, 3, q + 2);
  }

  /** Two pieces of a stream of distinct words that do not follow each other are no block. */
  lemma TornNoBlock(fifo: seq<word>, clock: seq<word>, e: Event, n: nat, q: nat, k: nat)
    requires Distinct(fifo) && 1 <= q < n && 3 * n + q <= |fifo|
    requires e.Took? && |e.words| == n && e.words[0] == fifo[3 * n] && e.words[n - 1] == fifo[2 * n - 1]
    ensures !IsBlock(e.(block := k), n, fifo, clock)
  {
    hide IsBlock;
    if IsBlock(e.(block := k), n, fifo, clock) {
      BlockEnds(fifo, clock, e.(block := k), n);
      assert false;
    }
  }

  lemma BlockEnds(fifo: seq<word>, clock: seq<word>, e: Event, n: nat)
    requires e.Took? && n >= 1 && IsBlock(e, n, fifo, clock)
    ensures |e.words| == n && 0 <= e.block * n && e.block * n + n <= |fifo|
    ensures e.words[0] == fifo[e.block * n] && e.words[n - 1] == fifo[e.block * n + n - 1]
  {
    assert (e.block + 1) * n == e.block * n + n;
  }

  /** There is ample time, for instance, if the accesses of the program take no time compared with its sleeps,
      and a sleep is no longer than a block. */
  lemma AmpleTime(cfg: Config)
    requires cfg.nsamp <= MAX_SAMPS
    ensures var env := Schedule(t => [], z => Burst(cfg.nsamp + 5, 1)); Quick(cfg, env) && Lively(env)
  {
    hide Burst;
    var env := Schedule(t => [], z => Burst(cfg.nsamp + 5, 1));
    BurstCount(cfg.nsamp + 5, 1);
    forall t: nat
      ensures GapSteps(env, t) == 0
    {
      NoGaps(env, t);
    }
  }

  /** And if the sleeps take no time, a block may take no fewer steps than half the accesses of two passes. */
  lemma AmpleAccesses(cfg: Config)
    ensures Quick(cfg, Schedule(t => if t % 2 == 0 then [Action(RxChan, 1)] else [], z => []))
  {
    var env := Schedule(t => if t % 2 == 0 then [Action(RxChan, 1)] else [], z => []);
    forall t: nat
      ensures GapSteps(env, t) == (t + 1) / 2
    {
      EverySecond(env, t);
    }
  }

  lemma {:induction false} EverySecond(env: Schedule, t: nat)
    requires forall u: nat :: env.gap(u) == if u % 2 == 0 then [Action(RxChan, 1)] else []
    ensures GapSteps(env, t) == (t + 1) / 2
    decreases t
  {
    if t > 0 {
      EverySecond(env, t - 1);
      assert RxActions([]) == 0 && RxActions([Action(RxChan, 1)]) == 1;
    }
  }

  lemma {:induction false} NoGaps(env: Schedule, t: nat)
    requires forall u: nat :: env.gap(u) == []
    ensures GapSteps(env, t) == 0
    decreases t
  {
    if t > 0 {
      NoGaps(env, t - 1);
    }
  }

}
