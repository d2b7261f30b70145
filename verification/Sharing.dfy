/** The memory that the DMA and the program share: what an access of the program means for flags, history and
    pace, whatever the DMA does in between. */
module Sharing {
  import opened Words
  import opened Layout
  import opened DmaEngine
  import opened PingPong
  import opened DmaProgram
  import opened DmaRuns
  import opened Schedules
  import opened Snapshots
  import opened History
  import opened Polling

  predicate AtRest(u: Unit) { u.ch.Idle? && u.log == [] }

  lemma Concat4<T>(s: seq<T>, t: seq<T>)
    requires |t| == 4
    ensures s + [t[0]] + [t[1]] + [t[2]] + [t[3]] == s + t
  {
  }

  lemma SameFlags(s: State, t: State)
    requires |s.mem| == VC_MEM_WORDS && t.mem == s.mem
    ensures FlagCount(t) == FlagCount(s) && Flag(t, 0) == Flag(s, 0) && Flag(t, 1) == Flag(s, 1)
  {
  }

  /** With the image in memory, everything fits together at zero. */
  lemma StartsLinked(cfg: Config, s: State)
    requires ValidConfig(cfg) && Contained(cfg, s) && s.mem[..DATA_WORDS] == Image(cfg)
    requires s.fifo == s.clock == s.status == []
    requires AtRest(s.rx) && AtRest(s.tx) && AtRest(s.pwm)
    ensures Inv(cfg, s) && !Flag(s, 0) && !Flag(s, 1) && forall c :: Unstarted(s, c)
  {
    hide Inv, Image;
    LoadedInv(cfg, s);
  }

  /** After an empty poll and a sleep there is a flag, or no block was completed. */
  lemma PollShrinks(cfg: Config, s: State, t: State, u: State)
    requires Inv(cfg, s) && |s.mem| == |t.mem| == |u.mem| == VC_MEM_WORDS && Rely(cfg, s, t) && Rely(cfg, t, u)
    requires !Flag(s, 0) && !Flag(s, 1)
    ensures Flag(u, 0) || Flag(u, 1) || Completed(u) == Completed(s)
  {
    hide Inv;
    RelyJoin(cfg, s, t, u);
    if !Flag(u, 0) && !Flag(u, 1) {
      assert !Done(Completed(s), Completed(u), 0) && !Done(Completed(s), Completed(u), 1);
      StreamsGrow(cfg, s, u);
    }
  }

  // ----- Marks -----

  /** The two flags as the program sees them. */
  function FlagsOf(s: State): Flags {
    if |s.mem| == VC_MEM_WORDS then Flags(Flag(s, 0), Flag(s, 1)) else Flags(false, false)
  }

  /** Flags are set by completions and by nothing else. */
  lemma FlagsLater(cfg: Config, s: State, t: State)
    requires |s.mem| == VC_MEM_WORDS && Rely(cfg, s, t)
    ensures FlagsOf(t) == Later(FlagsOf(s), Completed(s), Completed(t)) && |t.mem| == VC_MEM_WORDS
  {
    hide Inv, Done;
  }

  lemma FlagIs(s: State, b: nat)
    requires |s.mem| == VC_MEM_WORDS && b < 2
    ensures Flag(s, b) <==> s.mem[States(b)] != 0
  {
  }

  lemma FlagsCleared(s: State, b: nat)
    requires |s.mem| == VC_MEM_WORDS && b < 2
    ensures FlagsOf(Cleared(s, b)) == Down(FlagsOf(s), b)
  {
  }

  /** What the DMA does before d accesses, in the mark of the program. */
  lemma WaitedFlags(p: Pace, s: State, t: State, m: Mark, d: nat)
    requires |s.mem| == VC_MEM_WORDS && Rely(p.cfg, s, t) && m.flags == FlagsOf(s)
    requires Completed(s) == BlocksAt(p, m.tick, m.naps) && Completed(t) == BlocksAt(p, m.tick + d, m.naps)
    ensures Waited(p, m, d) == m.(tick := m.tick + d, flags := FlagsOf(t))
  {
    hide BlocksAt, Rely, Later;
    FlagsLater(p.cfg, s, t);
  }

  /** And during a sleep. */
  lemma RestedFlags(p: Pace, s: State, t: State, m: Mark)
    requires |s.mem| == VC_MEM_WORDS && Rely(p.cfg, s, t) && m.flags == FlagsOf(s)
    requires Completed(s) == BlocksAt(p, m.tick, m.naps) && Completed(t) == BlocksAt(p, m.tick, m.naps + 1)
    ensures AfterNap(p, m) == m.(naps := m.naps + 1, flags := FlagsOf(t))
  {
    hide BlocksAt, Rely, Later;
    FlagsLater(p.cfg, s, t);
  }

  /** The streams only grow. */
  ghost predicate Grown(s: State, t: State) { s.fifo <= t.fifo && s.clock <= t.clock }

  // ----- Starting the channels -----

  /** The channel works and will not stop by itself. */
  predicate Works(cfg: Config, s: State, c: Chan) {
    UnitOf(s, c).ch.Busy? && (c.RxChan? ==> !cfg.single)
  }

  /** The other channels still work if they did, and are still unstarted if they were. */
  predicate OthersKept(cfg: Config, s: State, t: State, c: Chan) {
    forall d | d != c :: (Unstarted(s, d) ==> Unstarted(t, d)) && (Works(cfg, s, d) ==> Works(cfg, t, d))
  }

  lemma KeptUnstarted(cfg: Config, s: State, t: State, c: Chan, d: Chan)
    requires OthersKept(cfg, s, t, c) && d != c && Unstarted(s, d)
    ensures Unstarted(t, d)
  {
  }

  lemma KeptWorks(cfg: Config, s: State, t: State, c: Chan, d: Chan)
    requires OthersKept(cfg, s, t, c) && d != c
    ensures Works(cfg, s, d) ==> Works(cfg, t, d)
  {
  }

  lemma WorkingBusy(cfg: Config, s: State)
    ensures Works(cfg, s, TxChan) ==> s.tx.ch.Busy?
    ensures Works(cfg, s, PwmChan) ==> s.pwm.ch.Busy?
    ensures Works(cfg, s, RxChan) ==> s.rx.ch.Busy?
  {
  }

  lemma OthersJoin(cfg: Config, s: State, t: State, u: State, c: Chan)
    requires OthersKept(cfg, s, t, c) && OthersKept(cfg, t, u, c)
    ensures OthersKept(cfg, s, u, c)
  {
  }

  // ----- Flags, memory and history together -----

  /** Blocks are conserved; in a single shot, and as long as the schedule was steady, every clearing was in time;
      and then the flags tell which blocks wait, and the history accounts for the others. */
  ghost predicate Fitting(cfg: Config, env: Schedule, s: State, tick: nat, base: nat, landed: nat,
                          history: seq<Event>, windows: seq<Window>)
    requires |s.mem| == VC_MEM_WORDS
  {
    && Completed(s) == TookCount(history) + 2 * OverrunCount(history) + landed + FlagCount(s)
    && |windows| == |history| && (cfg.single || SteadyUpTo(cfg, env, tick) ==> AllInTime(windows))
    && (AllInTime(windows) ==>
          && Owed(Flag(s, 0), Flag(s, 1), base, Completed(s))
          && Tiles(history, base) && Faithful(history, cfg.nsamp, s.fifo, s.clock))
  }

  lemma SingleCompleted(cfg: Config, s: State)
    requires Inv(cfg, s)
    ensures cfg.single ==> Completed(s) <= 1 && |s.fifo| <= cfg.nsamp
  {
    hide ProgramIntact, BufferInv, TimeInv, TxInv, PwmInv, AtStage;
    var st :| AtStage(cfg, st, s);
    if cfg.single { SingleData(cfg, s, st); }
  }

  /** Taking a block with one access, the clearing of its flag, keeps everything fitting. */
  lemma AcceptFits(cfg: Config, env: Schedule, s: State, seen: State, tick: nat, base: nat, landed: nat, landed': nat,
                   history: seq<Event>, windows: seq<Window>, n: nat, e: Event)
    requires n < 2 && |s.mem| == |seen.mem| == VC_MEM_WORDS && Inv(cfg, s) && Rely(cfg, s, seen)
    requires Inv(cfg, Cleared(seen, n))
    requires Fitting(cfg, env, s, tick, base, landed, history, windows) && Flag(s, n) && !Flag(s, 1 - n)
    requires e.Took? && e.block == base && (AllInTime(windows) ==> IsBlock(e, cfg.nsamp, s.fifo, s.clock))
    requires Completed(s) <= Completed(seen)
    requires Completed(seen) - Completed(s) == landed' - landed + FlagCount(Cleared(seen, n)) + 1 - FlagCount(s)
    requires SteadyUpTo(cfg, env, tick + 1) ==> SteadyUpTo(cfg, env, tick) && Completed(seen) <= Completed(s) + 1
    ensures Fitting(cfg, env, Cleared(seen, n), tick + 1, base + 1, landed', history + [e],
                    windows + [Clearing(Completed(s), Completed(seen))])
  {
    hide Inv, Tiles, Faithful, IsBlock, Owed, Rely, FlagCount, Flag, TookCount, OverrunCount, AllInTime, SteadyUpTo;
    Append(history, e);
    if AllInTime(windows) {
      AcceptOwed(cfg, s, seen, base, n);
      AcceptHistory(cfg, s, seen, history, base, e);
    }
    SingleCompleted(cfg, Cleared(seen, n));
    OneMoreWindow(windows, Clearing(Completed(s), Completed(seen)));
  }

  /** Giving up the blocks that waited, with two accesses, keeps everything fitting. */
  lemma ResetFits(cfg: Config, env: Schedule, s: State, seen1: State, seen0: State, tick: nat, base: nat, landed: nat,
                  landed': nat, history: seq<Event>, windows: seq<Window>)
    requires |s.mem| == |seen1.mem| == |seen0.mem| == VC_MEM_WORDS && Inv(cfg, Cleared(seen0, 0))
    requires Rely(cfg, s, seen1) && Rely(cfg, Cleared(seen1, 1), seen0) && Flag(s, 0) && Flag(s, 1)
    requires Fitting(cfg, env, s, tick, base, landed, history, windows)
    requires Completed(s) <= Completed(seen1) <= Completed(seen0)
    requires Completed(seen0) - Completed(s) == landed' - landed + FlagCount(Cleared(seen0, 0)) + 2 - FlagCount(s)
    requires SteadyUpTo(cfg, env, tick + 2) ==> SteadyUpTo(cfg, env, tick) && Completed(seen0) <= Completed(seen1) + 1
    ensures var hi := AfterReset(Completed(seen1), Completed(seen0));
            Fitting(cfg, env, Cleared(seen0, 0), tick + 2, hi, landed', history + [Overrun(base, hi)],
                    windows + [Resetting(Completed(seen1), Completed(seen0))])
  {
    hide Inv, Tiles, Faithful, IsBlock, Owed, Rely, FlagCount, Flag, TookCount, OverrunCount, AllInTime, SteadyUpTo,
         AfterReset;
    var e := Overrun(base, AfterReset(Completed(seen1), Completed(seen0)));
    Append(history, e);
    if AllInTime(windows) {
      ResetOwed(cfg, s, seen1, seen0, base);
      ResetHistory(cfg, s, seen1, seen0, history, base, e);
    }
    SingleCompleted(cfg, Cleared(seen0, 0));
    OneMoreWindow(windows, Resetting(Completed(seen1), Completed(seen0)));
  }

  lemma NothingFits(cfg: Config, env: Schedule, s: State, tick: nat)
    requires |s.mem| == VC_MEM_WORDS && Completed(s) == 0 && !Flag(s, 0) && !Flag(s, 1)
    ensures Fitting(cfg, env, s, tick, 0, 0, [], [])
  {
  }

  /** A change of channels that leaves memory and streams alone. */
  lemma SameFits(cfg: Config, env: Schedule, s: State, t: State, tick: nat, base: nat, landed: nat,
                 history: seq<Event>, windows: seq<Window>)
    requires |s.mem| == VC_MEM_WORDS && t == s.(rx := t.rx, tx := t.tx, pwm := t.pwm)
    requires Fitting(cfg, env, s, tick, base, landed, history, windows)
    ensures Fitting(cfg, env, t, tick, base, landed, history, windows)
  {
    hide Tiles, Faithful, Owed, AllInTime, SteadyUpTo, TookCount, OverrunCount;
    SameFlags(s, t);
  }

  // ----- Pace -----

  /** The receive channel has not been started, or has taken exactly the steps that it was offered since. */
  ghost predicate Pacing(cfg: Config, s: State, began: int, elapsed: int) {
    ValidConfig(cfg) &&
    if began < 0 then Unstarted(s, RxChan) else elapsed >= 0 && Advanced(cfg, s, Budget(cfg, elapsed))
  }

  lemma PaceBlocks(cfg: Config, s: State, began: int, elapsed: int)
    requires Inv(cfg, s) && Pacing(cfg, s, began, elapsed) && began >= 0
    ensures elapsed >= 0 && Completed(s) == Blocks(cfg, elapsed)
  {
    hide Inv, Advanced, Blocks;
    StepsMakeBlocks(cfg, s, elapsed);
  }

  /** Any run keeps the pace; one with no more than one block's steps completes at most one block. */
  lemma KeepPace(cfg: Config, s: State, acts: seq<Action>, began: int, elapsed: int)
    requires Inv(cfg, s) && Feasible(s, acts) && Rely(cfg, s, Run(s, acts))
    requires Pacing(cfg, s, began, elapsed)
    ensures Pacing(cfg, Run(s, acts), began, elapsed + RxActions(acts))
    ensures RxActions(acts) <= cfg.nsamp + 5 ==> Completed(Run(s, acts)) <= Completed(s) + 1
  {
    hide Inv, Advanced, Blocks, Run, Feasible, Seen;
    if began >= 0 {
      RunAdvances(cfg, s, acts, elapsed);
      PaceBlocks(cfg, s, began, elapsed);
      PaceBlocks(cfg, Run(s, acts), began, elapsed + RxActions(acts));
      if RxActions(acts) <= cfg.nsamp + 5 {
        OneBlockMore(cfg, elapsed, elapsed + RxActions(acts));
      }
    }
  }

  /** Both streams are as long as the steps make them. */
  lemma PaceStreams(cfg: Config, s: State, began: int, elapsed: int)
    requires Inv(cfg, s) && Pacing(cfg, s, began, elapsed) && began >= 0
    ensures elapsed >= 0 && |s.fifo| == StreamLen(cfg, elapsed) && |s.clock| == StampLen(cfg, elapsed)
  {
    hide Inv, Advanced, StreamLen, StampLen;
    StepsMakeStreams(cfg, s, elapsed);
  }

  /** Every word of the buffers and every time stamp is what the steps and the streams make it. */
  lemma PaceSees(cfg: Config, s: State, began: int, elapsed: int, b: nat, j: nat)
    requires Inv(cfg, s) && Pacing(cfg, s, began, elapsed) && began >= 0 && b < 2 && j < cfg.nsamp
    ensures elapsed >= 0 && |s.mem| == VC_MEM_WORDS && Rxd(b) + j < VC_MEM_WORDS
    ensures s.mem[Rxd(b) + j] == WordSeen(cfg, s.fifo, elapsed, b, j)
    ensures s.mem[Usecs(b)] == StampSeen(cfg, s.clock, elapsed, b)
  {
    hide Inv, Advanced, WordSeen, StampSeen;
    SeesWord(cfg, s, elapsed, b, j);
    SeesStamp(cfg, s, elapsed, b);
  }

  lemma WaitingPace(cfg: Config, s: State, began: int, elapsed: int)
    requires Inv(cfg, s) && Unstarted(s, RxChan) && began < 0
    ensures Pacing(cfg, s, began, elapsed)
  {
  }

  /** The receive channel is started. */
  lemma StartPace(cfg: Config, s: State, t: State)
    requires Inv(cfg, s) && Unstarted(s, RxChan) && t == WithChannel(s, RxChan, At(cfg, First(RxChan), 0))
    ensures forall began: int | began >= 0 :: Pacing(cfg, t, began, 0)
  {
    hide ProgramIntact, BufferInv, TimeInv, TxInv, PwmInv, At;
    assert AtStage(cfg, Stamping, t) && Taken(cfg, Stamping, t) == 0;
    assert Advanced(cfg, t, 0) && Budget(cfg, 0) == 0;
  }

  /** Another channel is set up. */
  lemma SamePace(cfg: Config, s: State, t: State, began: int, elapsed: int)
    requires Pacing(cfg, s, began, elapsed) && Inv(cfg, s) && t == s.(tx := t.tx, pwm := t.pwm)
    ensures Pacing(cfg, t, began, elapsed)
  {
    hide AtStage, Taken;
    if began >= 0 {
      var st :| AtStage(cfg, st, s) && Taken(cfg, st, s) == Budget(cfg, elapsed) && !st.Waiting?;
      SameTaken(cfg, st, s, t);
    }
  }

  lemma ClearedPace(cfg: Config, s: State, b: nat, began: int, elapsed: int)
    requires Pacing(cfg, s, began, elapsed) && |s.mem| == VC_MEM_WORDS && b < 2
    ensures Pacing(cfg, Cleared(s, b), began, elapsed)
  {
    hide At;
    if began >= 0 {
      var st :| AtStage(cfg, st, s) && Taken(cfg, st, s) == Budget(cfg, elapsed) && !st.Waiting?;
      assert AtStage(cfg, st, Cleared(s, b)) && Taken(cfg, st, Cleared(s, b)) == Taken(cfg, st, s);
    }
  }

  // ----- Which block waits -----

  /** The first block waiting, as readable flags tell it. */
  ghost function FirstWaiting(s: State): nat
    requires |s.mem| == VC_MEM_WORDS
  {
    var k := Completed(s);
    if Flag(s, 0) && Flag(s, 1) then (if k >= 2 then k - 2 else 0)
    else if Flag(s, 0) || Flag(s, 1) then (if k >= 1 then k - 1 else 0)
    else k
  }

  lemma WaitingOwed(s: State)
    requires |s.mem| == VC_MEM_WORDS
    ensures Readable(Flag(s, 0), Flag(s, 1), Completed(s)) ==>
              Owed(Flag(s, 0), Flag(s, 1), FirstWaiting(s), Completed(s))
  {
  }

  lemma OwedReads(f0: bool, f1: bool, base: nat, k: nat)
    requires Owed(f0, f1, base, k)
    ensures Readable(f0, f1, k)
  {
  }

  lemma OwedOne(s: State, base: nat, n: nat)
    requires |s.mem| == VC_MEM_WORDS && n < 2 && Owed(Flag(s, 0), Flag(s, 1), base, Completed(s)) && Flag(s, n)
    ensures if Flag(s, 1 - n) then Completed(s) >= base + 2 else Completed(s) == base + 1 && base % 2 == n
  {
  }

  // ----- What an access finds -----

  lemma SeenClear(cfg: Config, s: State, t: State, n: nat)
    requires |s.mem| == VC_MEM_WORDS && Rely(cfg, s, t) && n < 2 && |t.mem| == |s.mem|
    ensures (Flag(s, n) ==> Flag(t, n)) && Completed(s) <= Completed(t)
    ensures s.rx.ch.Busy? && !cfg.single ==> t.rx.ch.Busy?
  {
  }

  lemma LookedClear(cfg: Config, s: State, t: State, u: State, n: nat)
    requires Inv(cfg, s) && |s.mem| == |t.mem| == VC_MEM_WORDS
    requires Rely(cfg, s, t) && Rely(cfg, t, u) && n < 2 && !Flag(t, n)
    ensures Rely(cfg, s, u) && !Flag(s, n)
  {
    hide Inv, Done;
    SeenClear(cfg, s, t, n);
    RelyJoin(cfg, s, t, u);
  }

  lemma FlagStays(cfg: Config, s: State, t: State, b: nat)
    requires |s.mem| == VC_MEM_WORDS && Rely(cfg, s, t) && b < 2 && Flag(s, b)
    ensures |t.mem| == VC_MEM_WORDS && Flag(t, b) && Completed(s) <= Completed(t)
    ensures s.rx.ch.Busy? && !cfg.single ==> t.rx.ch.Busy?
  {
  }

  lemma ClearedCount(s: State, b: nat)
    requires |s.mem| == VC_MEM_WORDS && b < 2 && Flag(s, b)
    ensures FlagCount(Cleared(s, b)) == FlagCount(s) - 1
  {
  }

  /** Flag 1 cleared, then flag 0: no flag was lost but these, and completions only grow. */
  lemma TwoCleared(cfg: Config, s: State, seen1: State, seen0: State)
    requires |s.mem| == |seen1.mem| == VC_MEM_WORDS && Rely(cfg, s, seen1) && Rely(cfg, Cleared(seen1, 1), seen0)
    requires Flag(s, 0) && Flag(s, 1)
    ensures |seen0.mem| == VC_MEM_WORDS && Completed(s) <= Completed(seen1) <= Completed(seen0)
    ensures FlagCount(Cleared(seen1, 1)) == FlagCount(seen1) - 1
    ensures FlagCount(Cleared(seen0, 0)) == FlagCount(seen0) - 1
    ensures s.rx.ch.Busy? && !cfg.single ==> seen0.rx.ch.Busy?
  {
    hide Rely, FlagCount;
    FlagStays(cfg, s, seen1, 0);
    FlagStays(cfg, s, seen1, 1);
    ClearedCount(seen1, 1);
    FlagStays(cfg, Cleared(seen1, 1), seen0, 0);
    ClearedCount(seen0, 0);
  }

  /** Taking the one block that is owed leaves the flags to the blocks after it. */
  lemma AcceptOwed(cfg: Config, s: State, seen: State, base: nat, n: nat)
    requires |s.mem| == VC_MEM_WORDS && Rely(cfg, s, seen) && n < 2 && Flag(s, n) && !Flag(s, 1 - n)
    requires Owed(Flag(s, 0), Flag(s, 1), base, Completed(s))
    ensures var t := Cleared(seen, n);
            ClearInTime(Completed(s), Completed(seen)) ==> Owed(Flag(t, 0), Flag(t, 1), base + 1, Completed(t))
  {
    hide Inv;
    OwedLater(cfg, s, seen, base);
    ClearOne(base, Completed(seen));
  }

  lemma AcceptHistory(cfg: Config, s: State, seen: State, h: seq<Event>, base: nat, e: Event)
    requires |s.mem| == VC_MEM_WORDS && Rely(cfg, s, seen) && e.Took? && e.block == base
    requires Tiles(h, base) && Faithful(h, cfg.nsamp, s.fifo, s.clock) && IsBlock(e, cfg.nsamp, s.fifo, s.clock)
    ensures Tiles(h + [e], base + 1) && Faithful(h + [e], cfg.nsamp, seen.fifo, seen.clock)
  {
    hide Inv;
    Extend(h, e, base);
    assert Faithful(h + [e], cfg.nsamp, s.fifo, s.clock);
    FaithfulLater(h + [e], cfg.nsamp, s.fifo, s.clock, seen.fifo, seen.clock);
  }

  /** Discarding all that waits leaves the flags to what completed during the discarding. */
  lemma ResetOwed(cfg: Config, s: State, seen1: State, seen0: State, base: nat)
    requires |s.mem| == |seen1.mem| == VC_MEM_WORDS && Rely(cfg, s, seen1) && Rely(cfg, Cleared(seen1, 1), seen0)
    requires Flag(s, 0) && Flag(s, 1) && Owed(Flag(s, 0), Flag(s, 1), base, Completed(s))
    ensures var t := Cleared(seen0, 0); var hi := AfterReset(Completed(seen1), Completed(seen0));
            && base + 2 <= hi
            && (ResetInTime(Completed(seen1), Completed(seen0)) ==> Owed(Flag(t, 0), Flag(t, 1), hi, Completed(t)))
  {
    hide Inv;
    var mid := Cleared(seen1, 1);
    assert !Flag(mid, 1) && !Flag(Cleared(seen0, 0), 0);
    assert Flag(seen0, 1) == (Flag(mid, 1) || Done(Completed(mid), Completed(seen0), 1));
    ResetBoth(Completed(seen1), Completed(seen0));
  }

  lemma ResetHistory(cfg: Config, s: State, seen1: State, seen0: State, h: seq<Event>, base: nat, e: Event)
    requires |s.mem| == |seen1.mem| == VC_MEM_WORDS && Rely(cfg, s, seen1) && Rely(cfg, Cleared(seen1, 1), seen0)
    requires e.Overrun? && e.lo == base && base + 2 <= e.hi
    requires Tiles(h, base) && Faithful(h, cfg.nsamp, s.fifo, s.clock)
    ensures Tiles(h + [e], e.hi) && Faithful(h + [e], cfg.nsamp, seen0.fifo, seen0.clock)
  {
    hide Inv;
    Extend(h, e, base);
    assert Faithful(h + [e], cfg.nsamp, s.fifo, s.clock);
    FaithfulLater(h + [e], cfg.nsamp, s.fifo, s.clock, seen0.fifo, seen0.clock);
  }

  /** Copied words and time stamp together, if the other flag is clear in the end. */
  lemma WholeBlock(cfg: Config, s2: State, s3: State, s4: State, base: nat, n: nat, ws: seq<word>, usec: word,
                   timely: bool)
    requires Inv(cfg, s2) && Rely(cfg, s2, s3) && Rely(cfg, s3, s4) && n < 2 && Flag(s2, n)
    requires |s3.mem| == |s4.mem| == VC_MEM_WORDS && |ws| == cfg.nsamp
    requires usec == s3.mem[Usecs(n)]
    requires timely ==> Copied(cfg, s2, base, n, ws) && Owed(Flag(s3, 0), Flag(s3, 1), base, Completed(s3))
    ensures timely && !Flag(s4, 1 - n) ==>
              && base % 2 == n && Completed(s4) == base + 1
              && IsBlock(Took(base, ws, usec), cfg.nsamp, s4.fifo, s4.clock)
  {
    hide ProgramIntact, BufferInv, TimeInv, TxInv, PwmInv, AtStage;
    if timely && !Flag(s4, 1 - n) {
      assert Flag(s3, n) && !Flag(s3, 1 - n) && !Flag(s2, 1 - n);
      OwedBlock(cfg, s3, base, n);
      OwedLater(cfg, s3, s4, base);
    }
  }

  lemma Examined(cfg: Config, s: State, s2: State, s3: State, s4: State, k: nat, n: nat, ws: seq<word>, usec: word,
                 sure: bool)
    requires Inv(cfg, s) && Inv(cfg, s2) && Rely(cfg, s, s2) && Rely(cfg, s2, s3) && Rely(cfg, s3, s4) && n < 2
    requires |s2.mem| == |s3.mem| == |s4.mem| == VC_MEM_WORDS && Flag(s2, n)
    requires |ws| == cfg.nsamp && usec == s3.mem[Usecs(n)]
    requires sure ==> Copied(cfg, s2, k, n, ws) && Owed(Flag(s2, 0), Flag(s2, 1), k, Completed(s2))
    ensures Rely(cfg, s, s4) && Flag(s4, n)
    ensures sure && !Flag(s4, 1 - n) ==>
              && k % 2 == n && Completed(s4) == k + 1
              && IsBlock(Took(k, ws, usec), cfg.nsamp, s4.fifo, s4.clock)
  {
    hide Inv, Copied, Rely, IsBlock, Owed, Flag;
    FlagStays(cfg, s2, s3, n);
    RelyChain(cfg, s, s2, s3, n);
    RelyChain(cfg, s, s3, s4, n);
    if sure {
      OwedLater(cfg, s2, s3, k);
    }
    WholeBlock(cfg, s2, s3, s4, k, n, ws, usec, sure);
  }

  /** As long as flag 1 - n stays clear, the words copied are the first words of block `base`. */
  ghost predicate Copied(cfg: Config, s: State, base: nat, n: nat, ws: seq<word>)
    requires |s.mem| == VC_MEM_WORDS && n < 2
  {
    !Flag(s, 1 - n) && |ws| <= cfg.nsamp ==>
      && 0 <= base * cfg.nsamp <= (base + 1) * cfg.nsamp <= |s.fifo|
      && base * cfg.nsamp + |ws| <= |s.fifo|
      && ws == s.fifo[base * cfg.nsamp..base * cfg.nsamp + |ws|]
  }

  lemma NothingCopied(cfg: Config, s: State, base: nat, n: nat, timely: bool)
    requires Inv(cfg, s) && n < 2 && Flag(s, n)
    requires timely ==> Owed(Flag(s, 0), Flag(s, 1), base, Completed(s))
    ensures timely ==> Copied(cfg, s, base, n, [])
  {
    hide ProgramIntact, BufferInv, TimeInv, TxInv, PwmInv, AtStage;
    if timely && !Flag(s, 1 - n) {
      OwedBlock(cfg, s, base, n);
    }
  }

  lemma CopyWord(cfg: Config, s: State, t: State, base: nat, n: nat, ws: seq<word>, timely: bool)
    requires Inv(cfg, s) && Rely(cfg, s, t) && n < 2 && Flag(s, n) && |ws| < cfg.nsamp <= MAX_SAMPS
    requires |t.mem| == VC_MEM_WORDS
    requires timely ==> Copied(cfg, s, base, n, ws) && Owed(Flag(t, 0), Flag(t, 1), base, Completed(t))
    ensures timely ==> Copied(cfg, t, base, n, ws + [t.mem[Rxd(n) + |ws|]])
  {
    hide ProgramIntact, BufferInv, TimeInv, TxInv, PwmInv, AtStage;
    if timely && !Flag(t, 1 - n) {
      OwedBlock(cfg, t, base, n);
      var buffer := t.mem[Rxd(n)..Rxd(n) + cfg.nsamp];
      assert buffer[|ws|] == t.mem[Rxd(n) + |ws|];
    }
  }

  lemma RelySelf(cfg: Config, s: State)
    requires Inv(cfg, s)
    ensures Rely(cfg, s, s)
  {
  }

  lemma RelyChain(cfg: Config, s: State, t: State, u: State, n: nat)
    requires Inv(cfg, s) && Rely(cfg, s, t) && Rely(cfg, t, u) && n < 2 && Flag(t, n) && |u.mem| == |t.mem|
    ensures Rely(cfg, s, u) && Flag(u, n)
  {
    hide ProgramIntact, BufferInv, TimeInv, TxInv, PwmInv, AtStage;
    RelyJoin(cfg, s, t, u);
  }

  lemma MemorySize(cfg: Config, s: State)
    requires Inv(cfg, s)
    ensures |s.mem| == VC_MEM_WORDS
  {
  }

  lemma OwedLater(cfg: Config, s: State, t: State, base: nat)
    requires |s.mem| == VC_MEM_WORDS && Rely(cfg, s, t) && Owed(Flag(s, 0), Flag(s, 1), base, Completed(s))
    ensures Owed(Flag(t, 0), Flag(t, 1), base, Completed(t))
  {
    DoneJoin(base, Completed(s), Completed(t), 0);
    DoneJoin(base, Completed(s), Completed(t), 1);
  }

  lemma RelyKeeps(cfg: Config, s: State, t: State)
    requires |s.mem| == VC_MEM_WORDS && Rely(cfg, s, t)
    ensures Inv(cfg, t) && |t.mem| == VC_MEM_WORDS && s.fifo <= t.fifo && s.clock <= t.clock
  {
  }

  lemma StreamsGrow(cfg: Config, s: State, t: State)
    requires |s.mem| == VC_MEM_WORDS && Rely(cfg, s, t)
    ensures s.fifo <= t.fifo && s.clock <= t.clock && Completed(s) <= Completed(t)
  {
  }
}
