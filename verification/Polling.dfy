/** What the polling program finds, as a function of the schedule and of the two streams alone: each look at a
    buffer, each pass over both of them, and what it copies. */
module Polling {
  import opened Words
  import opened Layout
  import opened PingPong
  import opened DmaRuns
  import opened Schedules
  import opened Snapshots
  import opened History

  /** A schedule, and how many receive steps it had offered when the receive channel was started. */
  datatype Pace = Pace(cfg: Config, env: Schedule, began: int)

  /** Receive steps after t accesses and z sleeps. */
  function StepsAt(p: Pace, t: nat, z: nat): nat {
    var steps := GapSteps(p.env, t) + NapSteps(p.env, z) - p.began;
    if steps < 0 then 0 else steps
  }

  /** Blocks complete after t accesses and z sleeps. */
  function BlocksAt(p: Pace, t: nat, z: nat): nat { Blocks(p.cfg, StepsAt(p, t, z)) }

  lemma LaterBlocks(p: Pace, t: nat, u: nat, z: nat)
    requires t <= u
    ensures StepsAt(p, t, z) <= StepsAt(p, u, z) && BlocksAt(p, t, z) <= BlocksAt(p, u, z)
  {
    hide Blocks;
    GapsGrow(p.env, t, u);
    BlocksGrow(p.cfg, StepsAt(p, t, z), StepsAt(p, u, z));
  }

  lemma RestedBlocks(p: Pace, t: nat, z: nat)
    ensures BlocksAt(p, t, z) <= BlocksAt(p, t, z + 1)
  {
    hide Blocks;
    BlocksGrow(p.cfg, StepsAt(p, t, z), StepsAt(p, t, z + 1));
  }

  // ----- Flags -----

  datatype Flags = Flags(f0: bool, f1: bool)

  predicate Up(f: Flags, b: nat) { if b == 0 then f.f0 else f.f1 }

  /** The flags after the blocks lo..hi were completed. */
  function Later(f: Flags, lo: nat, hi: nat): Flags { Flags(f.f0 || Done(lo, hi, 0), f.f1 || Done(lo, hi, 1)) }

  function Down(f: Flags, b: nat): Flags { if b == 0 then f.(f0 := false) else f.(f1 := false) }

  lemma LaterJoin(f: Flags, lo: nat, mid: nat, hi: nat)
    requires lo <= mid <= hi
    ensures Later(Later(f, lo, mid), mid, hi) == Later(f, lo, hi)
  {
    DoneJoin(lo, mid, hi, 0);
    DoneJoin(lo, mid, hi, 1);
  }

  /** Where the program is: accesses and sleeps so far, the first block not accounted for, the flags, and the
      completions around every clearing of flags so far. */
  datatype Mark = Mark(tick: nat, naps: nat, base: nat, flags: Flags, windows: seq<Window>)

  /** After d more accesses, none of which clears a flag. */
  function Waited(p: Pace, m: Mark, d: nat): Mark {
    m.(tick := m.tick + d,
       flags := Later(m.flags, BlocksAt(p, m.tick, m.naps), BlocksAt(p, m.tick + d, m.naps)))
  }

  lemma NoWait(p: Pace, m: Mark)
    ensures Waited(p, m, 0) == m
  {
    hide BlocksAt;
  }

  lemma WaitedJoin(p: Pace, m: Mark, d: nat, e: nat)
    ensures Waited(p, Waited(p, m, d), e) == Waited(p, m, d + e)
  {
    hide BlocksAt;
    LaterBlocks(p, m.tick, m.tick + d, m.naps);
    LaterBlocks(p, m.tick + d, m.tick + d + e, m.naps);
    LaterJoin(m.flags, BlocksAt(p, m.tick, m.naps), BlocksAt(p, m.tick + d, m.naps),
              BlocksAt(p, m.tick + d + e, m.naps));
  }

  /** Where the polling starts: twelve accesses after the start of the program, nothing taken yet. */
  function StartMark(p: Pace): Mark { Mark(12, 0, 0, Later(Flags(false, false), 0, BlocksAt(p, 12, 0)), []) }

  /** After one more sleep. */
  function AfterNap(p: Pace, m: Mark): Mark {
    m.(naps := m.naps + 1, flags := Later(m.flags, BlocksAt(p, m.tick, m.naps), BlocksAt(p, m.tick, m.naps + 1)))
  }

  // ----- One look -----

  datatype Look = Nothing | Whole | Overran

  /** Where the program tests the other flag, if it found one set: the words of the block and its time stamp have
      been read in between. */
  function Tested(p: Pace, m: Mark): Mark { Waited(p, Waited(p, m, 1), p.cfg.nsamp + 2) }

  function Other(n: nat): nat { if n == 0 then 1 else 0 }

  /** A look at buffer n: its flag is read with the next access, the other flag nsamp + 2 accesses later. */
  function LookAt(p: Pace, m: Mark, n: nat): Look {
    if !Up(Waited(p, m, 1).flags, n) then Nothing
    else if Up(Tested(p, m).flags, Other(n)) then Overran
    else Whole
  }

  /** Where the program is when the look is over. */
  function AfterLook(p: Pace, m: Mark, n: nat): Mark {
    match LookAt(p, m, n)
    case Nothing => Waited(p, m, 1)
    case Whole => TakenAt(p, Tested(p, m), n)
    case Overran => GivenUp(p, Tested(p, m))
  }

  /** One access clears the flag, and the block is taken. */
  function TakenAt(p: Pace, m: Mark, n: nat): Mark {
    var m' := Waited(p, m, 1);
    m'.(base := m.base + 1, flags := Down(m'.flags, n),
        windows := m.windows + [Clearing(BlocksAt(p, m.tick, m.naps), BlocksAt(p, m'.tick, m.naps))])
  }

  /** Two accesses clear flag 1 and then flag 0, and the blocks that waited are given up. */
  function GivenUp(p: Pace, m: Mark): Mark {
    var m1 := ClearedAt(p, m, 1);
    var m0 := ClearedAt(p, m1, 0);
    var c1, c0 := BlocksAt(p, m1.tick, m.naps), BlocksAt(p, m0.tick, m.naps);
    m0.(base := AfterReset(c1, c0), windows := m.windows + [Resetting(c1, c0)])
  }

  /** One access clears flag n. */
  function ClearedAt(p: Pace, m: Mark, n: nat): Mark {
    var m' := Waited(p, m, 1);
    m'.(flags := Down(m'.flags, n))
  }

  // ----- What a look takes -----

  /** The first `count` words of buffer n, copied one with each access after t. */
  function Snapshot(p: Pace, fifo: seq<word>, t: nat, z: nat, n: nat, count: nat): (ws: seq<word>)
    ensures |ws| == count
  {
    seq<word>(count, i requires 0 <= i < count => WordSeen(p.cfg, fifo, StepsAt(p, t + 1 + i, z), n, i))
  }

  /** A look at buffer `buf` that found something. */
  datatype Find = Find(at: Mark, buf: nat)

  /** What becomes of it. */
  function EventOf(p: Pace, fifo: seq<word>, clock: seq<word>, f: Find): Event {
    var m, n := f.at, p.cfg.nsamp;
    if LookAt(p, m, f.buf).Whole? then
      Took(m.base, Snapshot(p, fifo, m.tick + 1, m.naps, f.buf, n),
           StampSeen(p.cfg, clock, StepsAt(p, m.tick + n + 2, m.naps), f.buf))
    else Overrun(m.base, AfterLook(p, m, f.buf).base)
  }

  function EventsOf(p: Pace, fifo: seq<word>, clock: seq<word>, finds: seq<Find>): (es: seq<Event>)
    ensures |es| == |finds|
  {
    seq(|finds|, i requires 0 <= i < |finds| => EventOf(p, fifo, clock, finds[i]))
  }

  /** A pass sees flag n set, the first one it sees, and the other still clear as it is tested. */
  predicate OneUp(p: Pace, m: Mark, n: nat) {
    && n < 2 && (n == 1 ==> !Up(Waited(p, m, 1).flags, 0)) && Up(Waited(p, m, n + 1).flags, n)
    && !Up(Waited(p, m, p.cfg.nsamp + n + 3).flags, 1 - n)
  }

  /** This is what finds one whole block. */
  lemma OneUpIs(p: Pace, m: Mark)
    ensures OneUp(p, m, 0) <==> LookAt(p, m, 0).Whole?
    ensures OneUp(p, m, 1) <==> LookAt(p, m, 0).Nothing? && LookAt(p, AfterLook(p, m, 0), 1).Whole?
  {
    hide Waited;
    WaitedJoin(p, m, 1, 1);
    WaitedJoin(p, m, 1, p.cfg.nsamp + 2);
    WaitedJoin(p, m, 2, p.cfg.nsamp + 2);
  }

  /** The streams reach as far as the finds looked. */
  ghost predicate Backed(p: Pace, fifo: seq<word>, clock: seq<word>, finds: seq<Find>) {
    forall i | 0 <= i < |finds| ::
      var x := StepsAt(p, finds[i].at.tick + p.cfg.nsamp + 2, finds[i].at.naps);
      StreamLen(p.cfg, x) <= |fifo| && StampLen(p.cfg, x) <= |clock|
  }

  /** The streams reach as far as a look that saw its flag set at m. */
  ghost predicate Reaches(p: Pace, fifo: seq<word>, clock: seq<word>, m: Mark) {
    var x := StepsAt(p, m.tick + p.cfg.nsamp + 1, m.naps);
    StreamLen(p.cfg, x) <= |fifo| && StampLen(p.cfg, x) <= |clock|
  }

  /** What such a look reads from buffer n. */
  ghost predicate Read(p: Pace, fifo: seq<word>, clock: seq<word>, m: Mark, n: nat, ws: seq<word>, usec: word) {
    && Reaches(p, fifo, clock, m) && ws == Snapshot(p, fifo, m.tick, m.naps, n, p.cfg.nsamp)
    && usec == StampSeen(p.cfg, clock, StepsAt(p, m.tick + p.cfg.nsamp + 1, m.naps), n)
  }

  /** First the words are read, then, with the next access, the time stamp. */
  lemma ReadTogether(p: Pace, fifo: seq<word>, fifo': seq<word>, clock': seq<word>, m: Mark, n: nat, ws: seq<word>,
                     usec: word)
    requires fifo <= fifo' && ws == Snapshot(p, fifo, m.tick, m.naps, n, p.cfg.nsamp)
    requires StreamLen(p.cfg, StepsAt(p, m.tick + p.cfg.nsamp, m.naps)) <= |fifo| && Reaches(p, fifo', clock', m)
    requires usec == StampSeen(p.cfg, clock', StepsAt(p, m.tick + p.cfg.nsamp + 1, m.naps), n)
    ensures Read(p, fifo', clock', m, n, ws, usec)
  {
    hide StreamLen, StampLen, StepsAt, Snapshot, StampSeen;
    SnapshotStays(p, fifo, fifo', m.tick, m.naps, n, p.cfg.nsamp);
  }

  lemma ReadReaches(p: Pace, fifo: seq<word>, clock: seq<word>, m: Mark, n: nat, ws: seq<word>, usec: word)
    requires Read(p, fifo, clock, m, n, ws, usec)
    ensures Reaches(p, fifo, clock, m)
  {
  }

  lemma ReachesStays(p: Pace, fifo: seq<word>, clock: seq<word>, fifo': seq<word>, clock': seq<word>, m: Mark)
    requires Reaches(p, fifo, clock, m) && fifo <= fifo' && clock <= clock'
    ensures Reaches(p, fifo', clock', m)
  {
    hide StreamLen, StampLen, StepsAt;
  }

  lemma ReadStays(p: Pace, fifo: seq<word>, clock: seq<word>, fifo': seq<word>, clock': seq<word>, m: Mark, n: nat,
                  ws: seq<word>, usec: word)
    requires Read(p, fifo, clock, m, n, ws, usec) && fifo <= fifo' && clock <= clock'
    ensures Read(p, fifo', clock', m, n, ws, usec)
  {
    hide StreamLen, StampLen, StepsAt, Snapshot, StampSeen;
    var t, z, k := m.tick, m.naps, p.cfg.nsamp;
    LaterBlocks(p, t + k, t + k + 1, z);
    StreamsLonger(p.cfg, StepsAt(p, t + k, z), StepsAt(p, t + k + 1, z));
    SnapshotStays(p, fifo, fifo', t, z, n, k);
    StampStays(p.cfg, clock, clock', StepsAt(p, t + k + 1, z), n);
  }

  /** The event of a look from m, whose flag was read with the next access. */
  lemma FoundEvent(p: Pace, fifo: seq<word>, clock: seq<word>, m: Mark, n: nat, ws: seq<word>, usec: word)
    requires Reaches(p, fifo, clock, Waited(p, m, 1)) && !LookAt(p, m, n).Nothing?
    requires LookAt(p, m, n).Whole? ==> Read(p, fifo, clock, Waited(p, m, 1), n, ws, usec)
    ensures Backed(p, fifo, clock, [Find(m, n)])
    ensures EventOf(p, fifo, clock, Find(m, n)) ==
            if LookAt(p, m, n).Whole? then Took(m.base, ws, usec) else Overrun(m.base, AfterLook(p, m, n).base)
  {
    hide StreamLen, StampLen, StepsAt, Snapshot, StampSeen, LookAt, AfterLook;
  }

  lemma SnapshotStays(p: Pace, fifo: seq<word>, fifo': seq<word>, t: nat, z: nat, n: nat, count: nat)
    requires fifo <= fifo' && StreamLen(p.cfg, StepsAt(p, t + count, z)) <= |fifo| && count <= p.cfg.nsamp
    ensures Snapshot(p, fifo, t, z, n, count) == Snapshot(p, fifo', t, z, n, count)
  {
    hide StreamLen, WordSeen, StepsAt;
    var ws, ws' := Snapshot(p, fifo, t, z, n, count), Snapshot(p, fifo', t, z, n, count);
    forall i | 0 <= i < count
      ensures ws[i] == ws'[i]
    {
      LaterBlocks(p, t + 1 + i, t + count, z);
      StreamsLonger(p.cfg, StepsAt(p, t + 1 + i, z), StepsAt(p, t + count, z));
      WordStays(p.cfg, fifo, fifo', StepsAt(p, t + 1 + i, z), n, i);
    }
  }

  /** What was taken stays the same however much longer the streams grow. */
  lemma EventsStay(p: Pace, fifo: seq<word>, clock: seq<word>, fifo': seq<word>, clock': seq<word>, finds: seq<Find>)
    requires fifo <= fifo' && clock <= clock' && Backed(p, fifo, clock, finds)
    ensures Backed(p, fifo', clock', finds) && EventsOf(p, fifo, clock, finds) == EventsOf(p, fifo', clock', finds)
  {
    hide StreamLen, StampLen, StampSeen, Snapshot, LookAt, AfterLook, StepsAt;
    forall i | 0 <= i < |finds|
      ensures EventOf(p, fifo, clock, finds[i]) == EventOf(p, fifo', clock', finds[i])
    {
      var m, n := finds[i].at, p.cfg.nsamp;
      LaterBlocks(p, m.tick + n + 1, m.tick + n + 2, m.naps);
      StreamsLonger(p.cfg, StepsAt(p, m.tick + n + 1, m.naps), StepsAt(p, m.tick + n + 2, m.naps));
      SnapshotStays(p, fifo, fifo', m.tick + 1, m.naps, finds[i].buf, n);
      StampStays(p.cfg, clock, clock', StepsAt(p, m.tick + n + 2, m.naps), finds[i].buf);
    }
  }

  /** One more word of a snapshot, while the stream grows. */
  lemma SnapshotNext(p: Pace, fifo: seq<word>, fifo': seq<word>, t: nat, z: nat, n: nat, i: nat, v: word)
    requires fifo <= fifo' && StreamLen(p.cfg, StepsAt(p, t + i, z)) <= |fifo| && i < p.cfg.nsamp
    requires v == WordSeen(p.cfg, fifo', StepsAt(p, t + i + 1, z), n, i)
    ensures Snapshot(p, fifo', t, z, n, i + 1) == Snapshot(p, fifo, t, z, n, i) + [v]
  {
    hide StreamLen, WordSeen, StepsAt;
    SnapshotStays(p, fifo, fifo', t, z, n, i);
  }

  // ----- One pass -----

  /** What was found, and where the program is when the pass is over. */
  datatype Pass = Pass(finds: seq<Find>, mark: Mark)

  /** Looking at buffer n after `finds`. */
  function Looked(p: Pace, q: Pass, n: nat): Pass {
    Pass(if LookAt(p, q.mark, n).Nothing? then q.finds else q.finds + [Find(q.mark, n)], AfterLook(p, q.mark, n))
  }

  /** One more look, in the events and in the streams. */
  lemma LookedEvents(p: Pace, fifo: seq<word>, clock: seq<word>, fifo': seq<word>, clock': seq<word>, q: Pass, n: nat)
    requires Backed(p, fifo, clock, q.finds) && fifo <= fifo' && clock <= clock'
    requires LookAt(p, q.mark, n).Nothing? || Backed(p, fifo', clock', [Find(q.mark, n)])
    ensures var finds := Looked(p, q, n).finds;
            && Backed(p, fifo', clock', finds)
            && EventsOf(p, fifo', clock', finds) == EventsOf(p, fifo, clock, q.finds) +
                 if LookAt(p, q.mark, n).Nothing? then [] else [EventOf(p, fifo', clock', Find(q.mark, n))]
  {
    hide EventOf, LookAt, AfterLook, StreamLen, StampLen;
    EventsStay(p, fifo, clock, fifo', clock', q.finds);
    if !LookAt(p, q.mark, n).Nothing? {
      BackedNext(p, fifo', clock', q.finds, Find(q.mark, n));
    }
  }

  lemma BackedNext(p: Pace, fifo: seq<word>, clock: seq<word>, finds: seq<Find>, f: Find)
    requires Backed(p, fifo, clock, finds) && Backed(p, fifo, clock, [f])
    ensures Backed(p, fifo, clock, finds + [f])
  {
    hide StreamLen, StampLen, StepsAt;
    assert [f][0] == f;
    forall i | 0 <= i < |finds| + 1
      ensures var x := StepsAt(p, (finds + [f])[i].at.tick + p.cfg.nsamp + 2, (finds + [f])[i].at.naps);
              StreamLen(p.cfg, x) <= |fifo| && StampLen(p.cfg, x) <= |clock|
    {
      if i < |finds| { assert (finds + [f])[i] == finds[i]; } else { assert (finds + [f])[i] == [f][0]; }
    }
  }

  /** The first buffer ends the pass: by an overrun or, if `stop`, by a block. */
  predicate Ends(p: Pace, m: Mark, stop: bool) {
    LookAt(p, m, 0).Overran? || (stop && LookAt(p, m, 0).Whole?)
  }

  /** A pass over both buffers. */
  function PassOf(p: Pace, m: Mark, stop: bool): Pass {
    var q := Looked(p, Pass([], m), 0);
    if Ends(p, m, stop) then q else Looked(p, q, 1)
  }

  /** The first n looks of a pass. */
  function FirstLooks(p: Pace, m: Mark, n: nat): Pass {
    if n == 0 then Pass([], m) else Looked(p, FirstLooks(p, m, n - 1), n - 1)
  }

  lemma NoLooks(p: Pace, m: Mark, fifo: seq<word>, clock: seq<word>)
    ensures FirstLooks(p, m, 0) == Pass([], m) && Backed(p, fifo, clock, []) && EventsOf(p, fifo, clock, []) == []
  {
  }

  lemma PassLooks(p: Pace, m: Mark, stop: bool)
    ensures PassOf(p, m, stop) == FirstLooks(p, m, if Ends(p, m, stop) then 1 else 2)
  {
    hide Looked, Ends;
    assert FirstLooks(p, m, 1) == Looked(p, FirstLooks(p, m, 0), 0);
    assert FirstLooks(p, m, 2) == Looked(p, FirstLooks(p, m, 1), 1);
  }

  /** The events and the end of a pass are those of the schedule and the streams. */
  ghost predicate PassIs(p: Pace, fifo: seq<word>, clock: seq<word>, m: Mark, stop: bool, events: seq<Event>,
                         m': Mark)
  {
    var q := PassOf(p, m, stop);
    Backed(p, fifo, clock, q.finds) && events == EventsOf(p, fifo, clock, q.finds) && m' == q.mark
  }

  /** A pass so far. */
  ghost predicate LooksAre(p: Pace, fifo: seq<word>, clock: seq<word>, m: Mark, n: nat, events: seq<Event>, m': Mark) {
    var q := FirstLooks(p, m, n);
    Backed(p, fifo, clock, q.finds) && events == EventsOf(p, fifo, clock, q.finds) && m' == q.mark
  }

  /** One look, as far as it goes: what it adds to the events and where it ends. */
  ghost predicate LookIs(p: Pace, fifo: seq<word>, clock: seq<word>, m: Mark, n: nat, look: Look, e: Event, m': Mark) {
    && look == LookAt(p, m, n) && m' == AfterLook(p, m, n)
    && (!look.Nothing? ==> Backed(p, fifo, clock, [Find(m, n)]) && e == EventOf(p, fifo, clock, Find(m, n)))
  }

  lemma LooksBegin(p: Pace, fifo: seq<word>, clock: seq<word>, m: Mark)
    ensures LooksAre(p, fifo, clock, m, 0, [], m)
  {
    NoLooks(p, m, fifo, clock);
  }

  lemma LooksNext(p: Pace, fifo: seq<word>, clock: seq<word>, fifo': seq<word>, clock': seq<word>, m: Mark, n: nat,
                  events: seq<Event>, m1: Mark, look: Look, e: Event, m2: Mark)
    requires LooksAre(p, fifo, clock, m, n, events, m1) && LookIs(p, fifo', clock', m1, n, look, e, m2)
    requires fifo <= fifo' && clock <= clock'
    ensures LooksAre(p, fifo', clock', m, n + 1, if look.Nothing? then events else events + [e], m2)
    ensures n == 0 ==> (Ends(p, m, true) <==> !look.Nothing?) && (Ends(p, m, false) <==> look.Overran?)
  {
    hide EventOf, LookAt, AfterLook, Backed, EventsOf;
    assert FirstLooks(p, m, n + 1) == Looked(p, FirstLooks(p, m, n), n);
    LookedEvents(p, fifo, clock, fifo', clock', FirstLooks(p, m, n), n);
  }

  lemma LooksEnd(p: Pace, fifo: seq<word>, clock: seq<word>, m: Mark, stop: bool, n: nat, events: seq<Event>, m': Mark)
    requires LooksAre(p, fifo, clock, m, n, events, m') && n == if Ends(p, m, stop) then 1 else 2
    ensures PassIs(p, fifo, clock, m, stop, events, m') && (events == [] <==> PassOf(p, m, stop).finds == [])
  {
    hide Backed, EventsOf, FirstLooks, PassOf;
    PassLooks(p, m, stop);
  }

  lemma PassMoves(p: Pace, fifo: seq<word>, clock: seq<word>, m: Mark, stop: bool, events: seq<Event>, m': Mark)
    requires PassIs(p, fifo, clock, m, stop, events, m')
    ensures m' == PassOf(p, m, stop).mark && m'.tick > m.tick && m'.naps == m.naps
  {
    hide BlocksAt, Later, Backed, EventsOf;
  }

  /** The looks of the finds. */
  function Looks(p: Pace, finds: seq<Find>): (ks: seq<Look>)
    ensures |ks| == |finds|
  {
    seq(|finds|, i requires 0 <= i < |finds| => LookAt(p, finds[i].at, finds[i].buf))
  }

  /** A pass finds nothing exactly if it sees neither flag at its two looks. */
  lemma EmptyPass(p: Pace, m: Mark, stop: bool)
    ensures PassOf(p, m, stop).finds == [] <==> !Up(Waited(p, m, 1).flags, 0) && !Up(Waited(p, m, 2).flags, 1)
    ensures PassOf(p, m, stop).finds == [] ==> PassOf(p, m, stop).mark == Waited(p, m, 2)
  {
    hide Waited;
    WaitedJoin(p, m, 1, 1);
  }

  /** The flags tell which blocks wait: those from the mark's base on. */
  predicate Settled(p: Pace, m: Mark) {
    Owed(m.flags.f0, m.flags.f1, m.base, BlocksAt(p, m.tick, m.naps))
  }

  lemma WaitedSettles(p: Pace, m: Mark, d: nat)
    requires Settled(p, m)
    ensures Settled(p, Waited(p, m, d))
  {
    hide BlocksAt;
    LaterBlocks(p, m.tick, m.tick + d, m.naps);
    DoneJoin(m.base, BlocksAt(p, m.tick, m.naps), BlocksAt(p, m.tick + d, m.naps), 0);
    DoneJoin(m.base, BlocksAt(p, m.tick, m.naps), BlocksAt(p, m.tick + d, m.naps), 1);
  }

  /** With settled flags, what a look finds is a matter of the numbers of blocks complete. */
  lemma SettledLook(p: Pace, m: Mark, n: nat)
    requires Settled(p, m) && n < 2
    ensures LookAt(p, m, n) ==
            if !Done(m.base, BlocksAt(p, m.tick + 1, m.naps), n) then Nothing
            else if BlocksAt(p, m.tick + p.cfg.nsamp + 3, m.naps) >= m.base + 2 then Overran
            else Whole
  {
    hide BlocksAt;
    WaitedSettles(p, m, 1);
    WaitedSettles(p, Waited(p, m, 1), p.cfg.nsamp + 2);
    LaterBlocks(p, m.tick + 1, m.tick + p.cfg.nsamp + 3, m.naps);
  }

  /** A block found whole in buffer n is the one that waits, and has parity n. */
  lemma WholeParity(p: Pace, m: Mark, n: nat)
    requires Settled(p, m) && n < 2 && LookAt(p, m, n).Whole?
    ensures m.base % 2 == n && BlocksAt(p, m.tick + p.cfg.nsamp + 3, m.naps) == m.base + 1
  {
    hide BlocksAt;
    SettledLook(p, m, n);
    LaterBlocks(p, m.tick + 1, m.tick + p.cfg.nsamp + 3, m.naps);
  }

  lemma LookParity(p: Pace, fifo: seq<word>, clock: seq<word>, m: Mark, n: nat, e: Event, m': Mark)
    requires Settled(p, m) && n < 2 && LookIs(p, fifo, clock, m, n, Whole, e, m')
    ensures e.Took? && e.block % 2 == n
  {
    hide Settled, LookAt, AfterLook, Snapshot, StampSeen;
    WholeParity(p, m, n);
  }

  /** A block taken leaves settled flags exactly if the clearing was in time. */
  lemma TakenSettles(p: Pace, m: Mark, n: nat)
    requires Settled(p, m) && n < 2 && Up(m.flags, n) && !Up(m.flags, Other(n))
    ensures Settled(p, TakenAt(p, m, n)) <==>
            ClearInTime(BlocksAt(p, m.tick, m.naps), BlocksAt(p, m.tick + 1, m.naps))
  {
    hide BlocksAt;
    WaitedSettles(p, m, 1);
    LaterBlocks(p, m.tick, m.tick + 1, m.naps);
    ClearOne(m.base, BlocksAt(p, m.tick + 1, m.naps));
  }

  /** And giving up exactly if the two clearings were. */
  lemma GivenUpSettles(p: Pace, m: Mark)
    requires Settled(p, m) && Up(m.flags, 0) && Up(m.flags, 1)
    ensures Settled(p, GivenUp(p, m)) <==>
            ResetInTime(BlocksAt(p, m.tick + 1, m.naps), BlocksAt(p, m.tick + 2, m.naps))
  {
    hide BlocksAt;
    LaterBlocks(p, m.tick, m.tick + 1, m.naps);
    LaterBlocks(p, m.tick + 1, m.tick + 2, m.naps);
    ResetBoth(BlocksAt(p, m.tick + 1, m.naps), BlocksAt(p, m.tick + 2, m.naps));
  }

  /** So a look that starts with settled flags ends with settled flags if and only if it adds no late window. */
  lemma LookSettles(p: Pace, m: Mark, n: nat)
    requires Settled(p, m) && n < 2
    ensures var m' := AfterLook(p, m, n);
            if LookAt(p, m, n).Nothing? then Settled(p, m') && m'.windows == m.windows
            else exists w :: m'.windows == m.windows + [w] && (Settled(p, m') <==> InTime(w))
  {
    hide BlocksAt, Settled, Later;
    WaitedSettles(p, m, 1);
    WaitedSettles(p, Waited(p, m, 1), p.cfg.nsamp + 2);
    var tested := Tested(p, m);
    if LookAt(p, m, n).Whole? {
      FlagStaysUp(p, m, n);
      TakenSettles(p, tested, n);
    } else if LookAt(p, m, n).Overran? {
      FlagStaysUp(p, m, n);
      GivenUpSettles(p, tested);
    }
  }

  lemma FlagStaysUp(p: Pace, m: Mark, n: nat)
    requires Up(Waited(p, m, 1).flags, n)
    ensures Up(Tested(p, m).flags, n)
  {
    hide BlocksAt;
  }

  /** What a look does to the first block not accounted for. */
  lemma LookBase(p: Pace, m: Mark, n: nat)
    ensures match LookAt(p, m, n)
            case Nothing => AfterLook(p, m, n).base == m.base
            case Whole => AfterLook(p, m, n).base == m.base + 1
            case Overran => AfterLook(p, m, n).base >= BlocksAt(p, m.tick, m.naps)
  {
    hide BlocksAt, Later, AfterReset, LookAt;
    var c, z := m.tick + p.cfg.nsamp + 4, m.naps;
    LaterBlocks(p, m.tick, c, z);
    LaterBlocks(p, c, c + 1, z);
    ResetBoth(BlocksAt(p, c, z), BlocksAt(p, c + 1, z));
  }

  /** A pass that starts with settled flags accounts for every block complete as it starts, by taking it or by
      giving it up. */
  lemma PassCatchesUp(p: Pace, m: Mark, stop: bool)
    requires Settled(p, m)
    ensures PassOf(p, m, stop).mark.base >= BlocksAt(p, m.tick, m.naps)
  {
    hide BlocksAt, LookAt, AfterLook;
    var t, z, k, m1 := m.tick, m.naps, p.cfg.nsamp, AfterLook(p, m, 0);
    LaterBlocks(p, t, t + 1, z);
    LaterBlocks(p, t, t + k + 3, z);
    LookBase(p, m, 0);
    LookBase(p, m1, 1);
    if LookAt(p, m, 0).Whole? {
      WholeParity(p, m, 0);
      LookLater(p, m, 0);
    } else if LookAt(p, m, 0).Nothing? {
      NothingSeen(p, m);
    }
  }

  lemma LookLater(p: Pace, m: Mark, n: nat)
    ensures AfterLook(p, m, n).tick >= m.tick && AfterLook(p, m, n).naps == m.naps
    ensures BlocksAt(p, AfterLook(p, m, n).tick, m.naps) >= BlocksAt(p, m.tick, m.naps)
  {
    hide BlocksAt, Later, LookAt;
    LaterBlocks(p, m.tick, AfterLook(p, m, n).tick, m.naps);
  }

  /** With nothing in the first buffer, the second look finds whatever waited. */
  lemma NothingSeen(p: Pace, m: Mark)
    requires Settled(p, m) && LookAt(p, m, 0).Nothing?
    ensures AfterLook(p, AfterLook(p, m, 0), 1).base >= BlocksAt(p, m.tick, m.naps)
  {
    hide BlocksAt;
    var t, z, k := m.tick, m.naps, p.cfg.nsamp;
    var m1 := Waited(p, m, 1);
    assert AfterLook(p, m, 0) == m1;
    WaitedSettles(p, m, 1);
    LaterBlocks(p, t, t + 1, z);
    LaterBlocks(p, t + 1, t + 2, z);
    LaterBlocks(p, t + 2, t + k + 4, z);
    SettledLook(p, m, 0);
    SettledLook(p, m1, 1);
    LookBase(p, m1, 1);
    if LookAt(p, m1, 1).Whole? { WholeParity(p, m1, 1); }
  }

  /** With settled flags, a pass that does not stop finds something in both buffers exactly when a block of the
      first buffer was complete as its flag was read, the block after it was not yet complete as the other flag
      was tested, and was complete as that flag was read again, two accesses later. */
  lemma TwoBlocks(p: Pace, m: Mark)
    requires Settled(p, m)
    ensures |PassOf(p, m, false).finds| == 2 <==>
            && m.base % 2 == 0 && m.base < BlocksAt(p, m.tick + 1, m.naps)
            && BlocksAt(p, m.tick + p.cfg.nsamp + 3, m.naps) <= m.base + 1
            && m.base + 2 <= BlocksAt(p, m.tick + p.cfg.nsamp + 5, m.naps)
  {
    hide BlocksAt, LookAt, Settled;
    var n, t, z := p.cfg.nsamp, m.tick, m.naps;
    SettledLook(p, m, 0);
    LaterBlocks(p, t + 1, t + n + 3, z);
    LaterBlocks(p, t + n + 3, t + n + 4, z);
    LaterBlocks(p, t + n + 4, t + n + 5, z);
    if LookAt(p, m, 0).Whole? {
      SecondFlag(p, m);
    }
  }

  /** The second flag, after a block was taken from the first buffer. */
  lemma SecondFlag(p: Pace, m: Mark)
    requires Settled(p, m) && LookAt(p, m, 0).Whole?
    ensures LookAt(p, AfterLook(p, m, 0), 1).Nothing? <==> BlocksAt(p, m.tick + p.cfg.nsamp + 5, m.naps) < m.base + 2
  {
    hide BlocksAt;
    var n, t, z := p.cfg.nsamp, m.tick, m.naps;
    WaitedSettles(p, m, 1);
    WaitedSettles(p, Waited(p, m, 1), n + 2);
    LaterBlocks(p, t + 1, t + n + 3, z);
    LaterBlocks(p, t + n + 3, t + n + 4, z);
    LaterBlocks(p, t + n + 4, t + n + 5, z);
    DoneJoin(m.base + 1, BlocksAt(p, t + n + 3, z), BlocksAt(p, t + n + 4, z), 1);
    DoneJoin(m.base + 1, BlocksAt(p, t + n + 4, z), BlocksAt(p, t + n + 5, z), 1);
  }

  // ----- Fast enough -----

  /** Block `base` was not complete a pass ago, with at most one sleep since. */
  ghost predicate Recent(p: Pace, base: nat, t: nat, z: nat) {
    exists u: nat, y: nat ::
      u <= t <= u + PassLen(p.cfg) && y <= z <= y + 1 && Running(p, u, y) && BlocksAt(p, u, y) <= base
  }

  /** The receive channel was running. */
  ghost predicate Running(p: Pace, u: nat, y: nat) { GapSteps(p.env, u) + NapSteps(p.env, y) >= p.began }

  /** With two passes and a sleep for each block, no second block completes before the end of the pass. */
  lemma NoSecondBlock(p: Pace, base: nat, t: nat, z: nat)
    requires Quick(p.cfg, p.env) && Recent(p, base, t, z)
    ensures BlocksAt(p, t + PassLen(p.cfg), z) <= base + 1
    ensures Running(p, t, z)
  {
    hide Blocks, Quick, GapSteps, NapSteps, RxActions;
    var u: nat, y: nat :|
      u <= t <= u + PassLen(p.cfg) && y <= z <= y + 1 && Running(p, u, y) && BlocksAt(p, u, y) <= base;
    var w := t + PassLen(p.cfg);
    GapsGrow(p.env, u, t);
    GapsGrow(p.env, t, w);
    GapsGrow(p.env, w, u + 2 * PassLen(p.cfg));
    QuickAt(p, u, y);
    NextNap(p.env, y);
    OneBlockMore(p.cfg, StepsAt(p, u, y), StepsAt(p, w, z));
  }

  lemma QuickAt(p: Pace, u: nat, y: nat)
    requires Quick(p.cfg, p.env)
    ensures GapSteps(p.env, u + 2 * PassLen(p.cfg)) + RxActions(p.env.nap(y)) <= GapSteps(p.env, u) + p.cfg.nsamp + 5
  {
  }

  lemma NextNap(env: Schedule, y: nat)
    ensures NapSteps(env, y + 1) == NapSteps(env, y) + RxActions(env.nap(y))
  {
  }

  /** A look during which no second block completes finds the block that waits if its flag was up in time. */
  lemma QuickLook(p: Pace, m: Mark, n: nat)
    requires Settled(p, m) && BlocksAt(p, m.tick + p.cfg.nsamp + 4, m.naps) <= m.base + 1 && n < 2
    ensures LookAt(p, m, n) == if m.base < BlocksAt(p, m.tick + 1, m.naps) && m.base % 2 == n then Whole else Nothing
    ensures Settled(p, AfterLook(p, m, n))
  {
    hide BlocksAt;
    var t, z, k := m.tick, m.naps, p.cfg.nsamp;
    SettledLook(p, m, n);
    LaterBlocks(p, t + 1, t + k + 3, z);
    LaterBlocks(p, t + k + 3, t + k + 4, z);
    WaitedSettles(p, m, 1);
    WaitedSettles(p, Waited(p, m, 1), k + 2);
    if LookAt(p, m, n).Whole? {
      TakenSettles(p, Tested(p, m), n);
    }
  }

  /** A look finds nothing if nothing was complete as the flag was read. */
  lemma IdleLook(p: Pace, m: Mark, n: nat)
    requires Settled(p, m) && BlocksAt(p, m.tick + 1, m.naps) <= m.base && n < 2
    ensures LookAt(p, m, n) == Nothing && Settled(p, AfterLook(p, m, n))
  {
    hide BlocksAt;
    SettledLook(p, m, n);
    WaitedSettles(p, m, 1);
  }

  /** Then a pass finds the one block that waits, or nothing, and never an overrun. */
  lemma QuickPass(p: Pace, m: Mark, stop: bool)
    requires Quick(p.cfg, p.env) && Recent(p, m.base, m.tick, m.naps) && Settled(p, m)
    ensures var q := PassOf(p, m, stop);
            && Settled(p, q.mark) && q.mark.naps == m.naps
            && if q.finds == [] then q.mark.tick == m.tick + 2 && q.mark.base == m.base &&
                                     Recent(p, m.base, q.mark.tick, m.naps + 1)
               else Looks(p, q.finds) == [Whole] && q.mark.base == m.base + 1 && q.finds[0].at.base == m.base &&
                    q.finds[0].buf < 2 && Recent(p, m.base + 1, q.mark.tick, m.naps)
  {
    hide BlocksAt, Quick, LookAt, Settled, GivenUp, Running;
    var n, t, z, w := p.cfg.nsamp, m.tick, m.naps, m.tick + PassLen(p.cfg);
    NoSecondBlock(p, m.base, t, z);
    LaterBlocks(p, t, t + 1, z);
    LaterBlocks(p, t + 1, t + 2, z);
    LaterBlocks(p, t + n + 4, w, z);
    QuickLook(p, m, 0);
    var m1 := AfterLook(p, m, 0);
    if LookAt(p, m, 0).Whole? {
      IdleLook(p, m1, 1);
      StillRunning(p, t, t + n + 4, z);
      RecentAt(p, m.base + 1, t + n + 4, z, t + n + 4, z);
    } else {
      QuickLook(p, m1, 1);
    }
    StillRunning(p, t, w, z);
    if LookAt(p, m, 0).Whole? || LookAt(p, m1, 1).Whole? {
      RecentAt(p, m.base + 1, w, z, w, z);
    } else {
      RecentAt(p, m.base, t + 2, z + 1, t, z);
    }
  }

  lemma StillRunning(p: Pace, t: nat, w: nat, z: nat)
    requires Running(p, t, z) && t <= w
    ensures Running(p, w, z)
  {
    GapsGrow(p.env, t, w);
  }

  lemma RecentAt(p: Pace, base: nat, t: nat, z: nat, u: nat, y: nat)
    requires u <= t <= u + PassLen(p.cfg) && y <= z <= y + 1 && Running(p, u, y) && BlocksAt(p, u, y) <= base
    ensures Recent(p, base, t, z)
  {
  }
}
