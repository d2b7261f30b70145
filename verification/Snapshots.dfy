/** What a word of the shared memory holds after a number of receive steps, as a function of the streams alone. */
module Snapshots {
  import opened Words
  import opened Layout
  import opened DmaEngine
  import opened DmaProgram
  import opened DmaRuns
  import opened Schedules

  // ----- How long the streams are -----

  /** Steps into the cycle of the block in progress; its last step before is number 0. */
  function Phase(cfg: Config, steps: nat): int {
    Budget(cfg, steps) + 1 - Blocks(cfg, steps) * (cfg.nsamp + 5)
  }

  /** Words received of the block in progress. */
  function Part(cfg: Config, steps: nat): nat {
    var r := Phase(cfg, steps);
    if r <= 3 then 0 else if r - 3 <= cfg.nsamp then r - 3 else cfg.nsamp
  }

  /** Words received from the SPI. */
  function StreamLen(cfg: Config, steps: nat): nat { Blocks(cfg, steps) * cfg.nsamp + Part(cfg, steps) }

  /** Time stamps received. */
  function StampLen(cfg: Config, steps: nat): nat { Blocks(cfg, steps) + if Phase(cfg, steps) >= 2 then 1 else 0 }

  /** The lengths of both streams are functions of the steps. */
  lemma StepsMakeStreams(cfg: Config, s: State, steps: nat)
    requires Inv(cfg, s) && Advanced(cfg, s, Budget(cfg, steps))
    ensures |s.fifo| == StreamLen(cfg, steps) && |s.clock| == StampLen(cfg, steps) && Completed(s) == Blocks(cfg, steps)
    ensures Filled(cfg, s) == Part(cfg, steps)
  {
    hide ProgramIntact, BufferInv, TimeInv, TxInv, PwmInv, At, Blocks;
    StepsMakeBlocks(cfg, s, steps);
    var st :| AtStage(cfg, st, s) && Taken(cfg, st, s) == Budget(cfg, steps) && !st.Waiting?;
    if st.Flagged? { BlockSteps(Completed(s) - 1, cfg.nsamp); }
  }

  lemma StreamsLonger(cfg: Config, x: nat, y: nat)
    requires x <= y
    ensures StreamLen(cfg, x) <= StreamLen(cfg, y) && StampLen(cfg, x) <= StampLen(cfg, y)
  {
    hide Blocks;
    BlocksGrow(cfg, x, y);
    Ahead(Blocks(cfg, x), Blocks(cfg, y), cfg.nsamp);
  }

  lemma Ahead(k: nat, l: nat, n: nat)
    requires k <= l
    ensures k == l || k * n + n <= l * n
  {
    if k < l { Scale(n, k + 1, l); }
  }

  // ----- What is in the memory -----

  /** The stream word that word j of buffer b holds: of the block in progress, of the block before, or of the
      one before that; negative if it was never written. */
  function Source(cfg: Config, steps: nat, b: nat, j: nat): int {
    var k, n := Blocks(cfg, steps), cfg.nsamp;
    if b != k % 2 then (k - 1) * n + j
    else if j < Part(cfg, steps) then k * n + j
    else (k - 2) * n + j
  }

  function NthWord(ws: seq<word>, i: int): word { if 0 <= i < |ws| then ws[i] else 0 }

  /** Word j of buffer b. */
  function WordSeen(cfg: Config, fifo: seq<word>, steps: nat, b: nat, j: nat): word {
    NthWord(fifo, Source(cfg, steps, b, j))
  }

  /** The clock word that time stamp b holds. */
  function StampSource(cfg: Config, steps: nat, b: nat): int {
    var c := StampLen(cfg, steps);
    if b == (c - 1) % 2 then c - 1 else c - 2
  }

  function StampSeen(cfg: Config, clock: seq<word>, steps: nat, b: nat): word {
    NthWord(clock, StampSource(cfg, steps, b))
  }

  lemma SourceRange(cfg: Config, steps: nat, b: nat, j: nat)
    requires j < cfg.nsamp
    ensures Source(cfg, steps, b, j) < StreamLen(cfg, steps)
    ensures Source(cfg, steps, b, j) < 0 <==>
              if b != Blocks(cfg, steps) % 2 then Blocks(cfg, steps) == 0
              else j >= Part(cfg, steps) && Blocks(cfg, steps) < 2
  {
    hide Blocks, Part;
    Offsets(cfg.nsamp, Blocks(cfg, steps));
    if Blocks(cfg, steps) >= 2 { Ahead(2, Blocks(cfg, steps), cfg.nsamp); }
  }

  /** Every word of the buffers is what the steps and the stream make it. */
  lemma SeesWord(cfg: Config, s: State, steps: nat, b: nat, j: nat)
    requires Inv(cfg, s) && Advanced(cfg, s, Budget(cfg, steps)) && b < 2 && j < cfg.nsamp
    ensures |s.mem| == VC_MEM_WORDS && Rxd(b) + j < VC_MEM_WORDS
    ensures s.mem[Rxd(b) + j] == WordSeen(cfg, s.fifo, steps, b, j)
  {
    hide ProgramIntact, TimeInv, TxInv, PwmInv, AtStage, Advanced, Blocks, Part;
    StepsMakeStreams(cfg, s, steps);
    SourceRange(cfg, steps, b, j);
    Offsets(cfg.nsamp, Completed(s));
    assert s.mem[Rxd(b) + j] == Expected(cfg, s.fifo, Completed(s), b, j);
  }

  lemma SeesStamp(cfg: Config, s: State, steps: nat, b: nat)
    requires Inv(cfg, s) && Advanced(cfg, s, Budget(cfg, steps)) && b < 2
    ensures |s.mem| == VC_MEM_WORDS && s.mem[Usecs(b)] == StampSeen(cfg, s.clock, steps, b)
  {
    hide ProgramIntact, BufferInv, TxInv, PwmInv, AtStage, Advanced, StampLen;
    StepsMakeStreams(cfg, s, steps);
    assert s.mem[Usecs(b)] == ExpectedTime(s.clock, b);
  }

  /** What was seen stays the same however much longer the streams grow. */
  lemma WordStays(cfg: Config, fifo: seq<word>, fifo': seq<word>, steps: nat, b: nat, j: nat)
    requires fifo <= fifo' && StreamLen(cfg, steps) <= |fifo| && j < cfg.nsamp
    ensures WordSeen(cfg, fifo, steps, b, j) == WordSeen(cfg, fifo', steps, b, j)
  {
    hide Source, StreamLen;
    SourceRange(cfg, steps, b, j);
  }

  lemma StampStays(cfg: Config, clock: seq<word>, clock': seq<word>, steps: nat, b: nat)
    requires clock <= clock' && StampLen(cfg, steps) <= |clock|
    ensures StampSeen(cfg, clock, steps, b) == StampSeen(cfg, clock', steps, b)
  {
    hide StampLen;
  }
}
