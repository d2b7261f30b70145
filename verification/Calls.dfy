/** Whole calls and whole runs of the polling program as functions of the schedule: what every call takes and
    discards, and where it ends. */
module Calls {
  import opened Words
  import opened PingPong
  import opened Schedules
  import opened Polling
  import opened History

  // ----- Windows -----

  /** The number of blocks complete where the program is. */
  function BlocksNow(p: Pace, m: Mark): nat { BlocksAt(p, m.tick, m.naps) }

  /** A window that lies between two moments. */
  predicate Between(w: Window, lo: nat, hi: nat) {
    match w
    case Clearing(tested, cleared) => lo <= tested <= cleared <= hi
    case Resetting(cleared1, cleared0) => lo <= cleared1 <= cleared0 <= hi
  }

  /** Windows that grow by some between two moments. */
  ghost predicate WindowsGrow(before: seq<Window>, after: seq<Window>, lo: nat, hi: nat) {
    before <= after && lo <= hi && forall i | |before| <= i < |after| :: Between(after[i], lo, hi)
  }

  lemma GrowJoin(u: seq<Window>, v: seq<Window>, w: seq<Window>, lo: nat, mid: nat, hi: nat)
    requires WindowsGrow(u, v, lo, mid) && WindowsGrow(v, w, mid, hi)
    ensures WindowsGrow(u, w, lo, hi)
  {
    forall i | |u| <= i < |w|
      ensures Between(w[i], lo, hi)
    {
      if i < |v| { assert w[i] == v[i]; }
    }
  }

  /** If at most one block completes meanwhile, every new window is in time. */
  lemma GrowInTime(before: seq<Window>, after: seq<Window>, lo: nat, hi: nat)
    requires WindowsGrow(before, after, lo, hi) && hi <= lo + 1 && AllInTime(before)
    ensures AllInTime(after)
  {
    forall i | 0 <= i < |after|
      ensures InTime(after[i])
    {
      if i < |before| { assert after[i] == before[i]; } else { assert Between(after[i], lo, hi); }
    }
  }

  lemma LookGrows(p: Pace, m: Mark, n: nat)
    ensures WindowsGrow(m.windows, AfterLook(p, m, n).windows, BlocksNow(p, m), BlocksNow(p, AfterLook(p, m, n)))
    ensures AfterLook(p, m, n).naps == m.naps && AfterLook(p, m, n).tick > m.tick
  {
    hide BlocksAt;
    var k, t, z := p.cfg.nsamp, m.tick, m.naps;
    LaterBlocks(p, t, t + 1, z);
    LaterBlocks(p, t, t + k + 3, z);
    LaterBlocks(p, t + k + 3, t + k + 4, z);
    LaterBlocks(p, t + k + 4, t + k + 5, z);
  }

  lemma PassGrows(p: Pace, m: Mark, stop: bool)
    ensures var m' := PassOf(p, m, stop).mark; WindowsGrow(m.windows, m'.windows, BlocksNow(p, m), BlocksNow(p, m'))
    ensures PassOf(p, m, stop).mark.naps == m.naps
  {
    hide BlocksNow, LookAt, AfterLook, WindowsGrow;
    LookGrows(p, m, 0);
    var m1 := AfterLook(p, m, 0);
    LookGrows(p, m1, 1);
    var m2 := AfterLook(p, m1, 1);
    GrowJoin(m.windows, m1.windows, m2.windows, BlocksNow(p, m), BlocksNow(p, m1), BlocksNow(p, m2));
  }

  lemma PassTimely(p: Pace, m: Mark, stop: bool)
    ensures AllInTime(PassOf(p, m, stop).mark.windows) ==> AllInTime(m.windows)
  {
    hide BlocksNow, PassOf, AllInTime;
    PassGrows(p, m, stop);
    PrefixInTime(m.windows, PassOf(p, m, stop).mark.windows);
  }

  lemma LookInTime(p: Pace, fifo: seq<word>, clock: seq<word>, m: Mark, n: nat, look: Look, e: Event, m': Mark)
    requires LookIs(p, fifo, clock, m, n, look, e, m')
    ensures AllInTime(m'.windows) ==> AllInTime(m.windows)
  {
    hide BlocksNow, LookAt, AfterLook, AllInTime;
    LookGrows(p, m, n);
    PrefixInTime(m.windows, m'.windows);
  }

  lemma NapGrows(p: Pace, m: Mark)
    ensures WindowsGrow(m.windows, AfterNap(p, m).windows, BlocksNow(p, m), BlocksNow(p, AfterNap(p, m)))
  {
    hide BlocksAt;
    RestedBlocks(p, m.tick, m.naps);
  }

  // ----- Calls -----

  /** After j passes, each with a sleep after it. */
  function Polled(p: Pace, m: Mark, j: nat): Mark {
    if j == 0 then m else AfterNap(p, PassOf(p, Polled(p, m, j - 1), false).mark)
  }

  /** The pass after these. */
  function PassAfter(p: Pace, m: Mark, j: nat): Pass { PassOf(p, Polled(p, m, j), false) }

  /** One call: passes that find nothing, each with a sleep after it, and one pass that finds something. */
  ghost predicate CallOf(p: Pace, m: Mark, m': Mark) {
    && m.naps <= m'.naps && (forall i | 0 <= i < m'.naps - m.naps :: PassAfter(p, m, i).finds == [])
    && PassAfter(p, m, m'.naps - m.naps).finds != [] && PassAfter(p, m, m'.naps - m.naps).mark == m'
  }

  /** What the call from m to m' found. */
  function FindsOf(p: Pace, m: Mark, m': Mark): seq<Find> {
    if m.naps <= m'.naps then PassAfter(p, m, m'.naps - m.naps).finds else []
  }

  /** Nothing was found so far. */
  ghost predicate Fruitless(p: Pace, m: Mark, m': Mark) {
    && m.naps <= m'.naps && m' == Polled(p, m, m'.naps - m.naps)
    && forall i | 0 <= i < m'.naps - m.naps :: PassAfter(p, m, i).finds == []
  }

  lemma FruitlessAtFirst(p: Pace, m: Mark)
    ensures Fruitless(p, m, m)
  {
  }

  lemma FruitlessNext(p: Pace, m: Mark, m1: Mark)
    requires Fruitless(p, m, m1) && PassOf(p, m1, false).finds == []
    ensures Fruitless(p, m, AfterNap(p, PassOf(p, m1, false).mark))
  {
    hide PassOf, BlocksAt;
    PassGrows(p, m1, false);
    var j := m1.naps - m.naps;
    assert Polled(p, m, j + 1) == AfterNap(p, PassOf(p, Polled(p, m, j), false).mark);
    forall i | 0 <= i < j + 1
      ensures PassAfter(p, m, i).finds == []
    {
      if i == j { assert PassAfter(p, m, i) == PassOf(p, m1, false); }
    }
  }

  lemma CallEnds(p: Pace, fifo: seq<word>, clock: seq<word>, m: Mark, m1: Mark, events: seq<Event>, m': Mark)
    requires Fruitless(p, m, m1) && PassIs(p, fifo, clock, m1, false, events, m') && PassOf(p, m1, false).finds != []
    ensures DeterminedAt(p, fifo, clock, m, events, m')
  {
    hide PassOf, Backed, EventsOf, Polled;
    PassGrows(p, m1, false);
    assert PassAfter(p, m, m'.naps - m.naps) == PassOf(p, m1, false);
  }

  /** The schedule leaves no choice: whoever makes the call, it ends at the same place. */
  lemma OneCall(p: Pace, m: Mark, m1: Mark, m2: Mark)
    requires CallOf(p, m, m1) && CallOf(p, m, m2)
    ensures m1 == m2
  {
    hide PassAfter;
    if m1.naps < m2.naps {
      EmptyAt(p, m, m2, m1.naps);
      assert false;
    }
    if m2.naps < m1.naps {
      EmptyAt(p, m, m1, m2.naps);
      assert false;
    }
  }

  lemma EmptyBefore(p: Pace, m: Mark, m': Mark, i: nat)
    requires CallOf(p, m, m') && i < m'.naps - m.naps
    ensures PassAfter(p, m, i).finds == []
  {
  }

  lemma EmptyAt(p: Pace, m: Mark, m': Mark, naps: nat)
    requires CallOf(p, m, m') && m.naps <= naps < m'.naps
    ensures PassAfter(p, m, naps - m.naps).finds == []
  {
  }

  lemma {:induction false} PolledGrows(p: Pace, m: Mark, j: nat)
    ensures var m' := Polled(p, m, j); WindowsGrow(m.windows, m'.windows, BlocksNow(p, m), BlocksNow(p, m'))
    ensures Polled(p, m, j).naps == m.naps + j
    decreases j
  {
    hide BlocksNow, PassOf, WindowsGrow; if j == 0 { assert WindowsGrow(m.windows, m.windows, BlocksNow(p, m),
         BlocksNow(p, m)) by { GrowSelf(m.windows, BlocksNow(p, m)); } } else { var m1 := Polled(p, m, j - 1);
      var m2 := PassOf(p, m1, false).mark;
      PolledGrows(p, m, j - 1);
      PassGrows(p, m1, false);
      NapGrows(p, m2);
      GrowJoin(m.windows, m1.windows, m2.windows, BlocksNow(p, m), BlocksNow(p, m1), BlocksNow(p, m2));
      GrowJoin(m.windows, m2.windows, AfterNap(p, m2).windows, BlocksNow(p, m), BlocksNow(p, m2),
               BlocksNow(p, AfterNap(p, m2)));
    }
  }

  lemma GrowSelf(w: seq<Window>, k: nat)
    ensures WindowsGrow(w, w, k, k)
  {
  }

  /** If at most one block completes during a call, its clearings of flags are in time. */
  lemma CallInTime(p: Pace, m: Mark, m': Mark)
    requires CallOf(p, m, m')
    ensures BlocksNow(p, m) <= BlocksNow(p, m')
    ensures AllInTime(m.windows) && BlocksNow(p, m') <= BlocksNow(p, m) + 1 ==> AllInTime(m'.windows)
    ensures AllInTime(m'.windows) ==> AllInTime(m.windows)
  {
    hide BlocksNow, PassOf, Polled, AllInTime;
    var j := m'.naps - m.naps;
    var m1 := Polled(p, m, j);
    PolledGrows(p, m, j);
    PassGrows(p, m1, false);
    GrowJoin(m.windows, m1.windows, m'.windows, BlocksNow(p, m), BlocksNow(p, m1), BlocksNow(p, m'));
    if AllInTime(m.windows) && BlocksNow(p, m') <= BlocksNow(p, m) + 1 {
      GrowInTime(m.windows, m'.windows, BlocksNow(p, m), BlocksNow(p, m'));
    }
    PrefixInTime(m.windows, m'.windows);
  }

  lemma PrefixInTime(before: seq<Window>, after: seq<Window>)
    requires before <= after
    ensures AllInTime(after) ==> AllInTime(before)
  {
    assert forall i | 0 <= i < |before| :: after[i] == before[i];
  }

  /** Two passes and a sleep for each block: a call takes exactly the block that is next. */
  lemma QuickCall(p: Pace, m: Mark, m': Mark)
    requires Quick(p.cfg, p.env) && Recent(p, m.base, m.tick, m.naps) && Settled(p, m) && CallOf(p, m, m')
    ensures Looks(p, FindsOf(p, m, m')) == [Whole] && FindsOf(p, m, m')[0].at.base == m.base
    ensures m'.base == m.base + 1 && Recent(p, m'.base, m'.tick, m'.naps) && Settled(p, m')
  {
    hide PassOf, Quick, Recent, Settled, Polled;
    var j := m'.naps - m.naps;
    QuickPolled(p, m, m', j);
    QuickPass(p, Polled(p, m, j), false);
  }

  lemma {:induction false} QuickPolled(p: Pace, m: Mark, m': Mark, j: nat)
    requires Quick(p.cfg, p.env) && Recent(p, m.base, m.tick, m.naps) && Settled(p, m)
    requires CallOf(p, m, m') && j <= m'.naps - m.naps
    ensures var q := Polled(p, m, j); q.base == m.base && Recent(p, q.base, q.tick, q.naps) && Settled(p, q)
    decreases j
  {
    hide PassOf, Quick, Recent, Settled;
    if j > 0 {
      var q := Polled(p, m, j - 1);
      QuickPolled(p, m, m', j - 1);
      EmptyBefore(p, m, m', j - 1);
      QuickPass(p, q, false);
      NapSettles(p, PassOf(p, q, false).mark);
    }
  }

  lemma NapSettles(p: Pace, m: Mark)
    requires Settled(p, m)
    ensures Settled(p, AfterNap(p, m))
  {
    hide BlocksAt;
    RestedBlocks(p, m.tick, m.naps);
    DoneJoin(m.base, BlocksAt(p, m.tick, m.naps), BlocksAt(p, m.tick, m.naps + 1), 0);
    DoneJoin(m.base, BlocksAt(p, m.tick, m.naps), BlocksAt(p, m.tick, m.naps + 1), 1);
  }

  /** While nothing is found, settled flags stay settled. */
  lemma {:induction false} PolledSettles(p: Pace, m: Mark, m': Mark, j: nat)
    requires Settled(p, m) && CallOf(p, m, m') && j <= m'.naps - m.naps
    ensures Settled(p, Polled(p, m, j))
    decreases j
  {
    hide PassOf, Settled, Waited;
    if j > 0 {
      var q := Polled(p, m, j - 1);
      PolledSettles(p, m, m', j - 1);
      EmptyBefore(p, m, m', j - 1);
      EmptyPass(p, q, false);
      WaitedSettles(p, q, 2);
      NapSettles(p, PassOf(p, q, false).mark);
    }
  }

  /** A call that starts with settled flags accounts for every block complete as it starts. */
  lemma CallCatchesUp(p: Pace, m: Mark, m': Mark)
    requires Settled(p, m) && CallOf(p, m, m')
    ensures m'.base >= BlocksNow(p, m)
  {
    hide PassOf, Settled, Polled;
    var j := m'.naps - m.naps;
    PolledSettles(p, m, m', j);
    PolledGrows(p, m, j);
    PassCatchesUp(p, Polled(p, m, j), false);
  }

  // ----- Runs -----

  /** The events of a call are those of the schedule and the streams. */
  ghost predicate DeterminedAt(p: Pace, fifo: seq<word>, clock: seq<word>, m: Mark, events: seq<Event>, m': Mark) {
    && CallOf(p, m, m') && Backed(p, fifo, clock, FindsOf(p, m, m'))
    && events == EventsOf(p, fifo, clock, FindsOf(p, m, m'))
  }

  /** Where call number c starts. */
  function Before(first: Mark, marks: seq<Mark>, c: nat): Mark
    requires c <= |marks|
  {
    if c == 0 then first else marks[c - 1]
  }

  /** Every call is what the schedule and the streams make it, from where the call before it ended. */
  ghost predicate Determined(p: Pace, fifo: seq<word>, clock: seq<word>, first: Mark, calls: seq<seq<Event>>,
                             marks: seq<Mark>)
  {
    && |marks| == |calls|
    && forall c | 0 <= c < |calls| :: DeterminedAt(p, fifo, clock, Before(first, marks, c), calls[c], marks[c])
  }

  /** The first call, if its first pass finds something. */
  lemma FirstCall(p: Pace, fifo: seq<word>, clock: seq<word>, first: Mark, calls: seq<seq<Event>>, marks: seq<Mark>)
    requires Determined(p, fifo, clock, first, calls, marks) && calls != [] && PassOf(p, first, false).finds != []
    ensures var q := PassOf(p, first, false);
            calls[0] == EventsOf(p, fifo, clock, q.finds) && Backed(p, fifo, clock, q.finds) && marks[0] == q.mark
  {
    hide PassOf, EventsOf, Backed;
    assert DeterminedAt(p, fifo, clock, Before(first, marks, 0), calls[0], marks[0]);
    if marks[0].naps > first.naps {
      EmptyBefore(p, first, marks[0], 0);
      assert false;
    }
  }

  lemma NoneDetermined(p: Pace, fifo: seq<word>, clock: seq<word>, first: Mark)
    ensures Determined(p, fifo, clock, first, [], [])
  {
  }

  lemma NextDetermined(p: Pace, fifo: seq<word>, clock: seq<word>, fifo': seq<word>, clock': seq<word>, first: Mark,
                       calls: seq<seq<Event>>, marks: seq<Mark>, events: seq<Event>, m': Mark)
    requires Determined(p, fifo, clock, first, calls, marks) && fifo <= fifo' && clock <= clock'
    requires DeterminedAt(p, fifo', clock', Before(first, marks, |marks|), events, m')
    ensures Determined(p, fifo', clock', first, calls + [events], marks + [m'])
  {
    hide DeterminedAt;
    var calls', marks' := calls + [events], marks + [m'];
    forall c | 0 <= c < |calls'|
      ensures DeterminedAt(p, fifo', clock', Before(first, marks', c), calls'[c], marks'[c])
    {
      if c < |calls| {
        DeterminedStays(p, fifo, clock, fifo', clock', Before(first, marks, c), calls[c], marks[c]);
      }
    }
  }

  lemma DeterminedStays(p: Pace, fifo: seq<word>, clock: seq<word>, fifo': seq<word>, clock': seq<word>, m: Mark,
                        events: seq<Event>, m': Mark)
    requires DeterminedAt(p, fifo, clock, m, events, m') && fifo <= fifo' && clock <= clock'
    ensures DeterminedAt(p, fifo', clock', m, events, m')
  {
    hide CallOf, Backed, EventsOf, PassAfter;
    EventsStay(p, fifo, clock, fifo', clock', FindsOf(p, m, m'));
  }

  /** With ample time, a call has one event: a block taken. */
  lemma QuickEvents(p: Pace, fifo: seq<word>, clock: seq<word>, m: Mark, events: seq<Event>, m': Mark)
    requires Quick(p.cfg, p.env) && Recent(p, m.base, m.tick, m.naps) && Settled(p, m)
    requires DeterminedAt(p, fifo, clock, m, events, m')
    ensures |events| == 1 && events[0].Took? && m'.base == m.base + 1 && Recent(p, m'.base, m'.tick, m'.naps)
  {
    hide CallOf, Quick, Recent, Settled, Backed, FindsOf, LookAt, AfterLook, Snapshot;
    QuickCall(p, m, m');
    var finds := FindsOf(p, m, m');
    assert Looks(p, finds)[0] == LookAt(p, finds[0].at, finds[0].buf);
  }

  /** A call accounts for what was complete as it began, if it started in time and settled. */
  lemma LaterTimely(p: Pace, fifo: seq<word>, clock: seq<word>, m: Mark, events: seq<Event>, m': Mark)
    requires DeterminedAt(p, fifo, clock, m, events, m')
    ensures AllInTime(m'.windows) ==> AllInTime(m.windows)
    ensures Settled(p, m) ==> m'.base >= BlocksNow(p, m)
  {
    hide CallOf, Backed, EventsOf, FindsOf, AllInTime, Settled, BlocksNow;
    CallInTime(p, m, m');
    if Settled(p, m) { CallCatchesUp(p, m, m'); }
  }

  /** During no call did more than one block complete. */
  ghost predicate AtMostOne(p: Pace, first: Mark, marks: seq<Mark>) {
    forall c | 0 <= c < |marks| :: BlocksNow(p, marks[c]) <= BlocksNow(p, Before(first, marks, c)) + 1
  }

  /** Then every clearing of flags was in time. */
  lemma {:induction false} RunInTime(p: Pace, fifo: seq<word>, clock: seq<word>, first: Mark, calls: seq<seq<Event>>,
                                     marks: seq<Mark>, c: nat)
    requires Determined(p, fifo, clock, first, calls, marks) && AtMostOne(p, first, marks) && AllInTime(first.windows)
    requires c <= |marks|
    ensures AllInTime(Before(first, marks, c).windows)
    decreases c
  {
    hide CallOf, Backed, EventsOf, PassAfter, BlocksNow, AllInTime;
    if c > 0 {
      RunInTime(p, fifo, clock, first, calls, marks, c - 1);
      assert DeterminedAt(p, fifo, clock, Before(first, marks, c - 1), calls[c - 1], marks[c - 1]);
      assert BlocksNow(p, marks[c - 1]) <= BlocksNow(p, Before(first, marks, c - 1)) + 1;
      CallInTime(p, Before(first, marks, c - 1), marks[c - 1]);
    }
  }

  /** Two runs of the same number of calls on the same schedule and streams are the same. */
  lemma {:induction false} OneRun(p: Pace, fifo: seq<word>, clock: seq<word>, first: Mark, calls: seq<seq<Event>>,
                                  marks: seq<Mark>, calls': seq<seq<Event>>, marks': seq<Mark>, c: nat)
    requires Determined(p, fifo, clock, first, calls, marks) && Determined(p, fifo, clock, first, calls', marks')
    requires c <= |calls| == |calls'|
    ensures calls[..c] == calls'[..c] && marks[..c] == marks'[..c]
    decreases c
  {
    hide DeterminedAt, Before;
    if c > 0 {
      OneRun(p, fifo, clock, first, calls, marks, calls', marks', c - 1);
      SameBefore(first, marks, marks', c - 1);
      var m := Before(first, marks, c - 1);
      assert DeterminedAt(p, fifo, clock, m, calls[c - 1], marks[c - 1]);
      assert DeterminedAt(p, fifo, clock, Before(first, marks', c - 1), calls'[c - 1], marks'[c - 1]);
      SameCall(p, fifo, clock, m, calls[c - 1], marks[c - 1], calls'[c - 1], marks'[c - 1]);
      TakeOneMore(calls, calls', c);
      TakeOneMore(marks, marks', c);
    }
  }

  lemma SameBefore(first: Mark, marks: seq<Mark>, marks': seq<Mark>, c: nat)
    requires c <= |marks| && c <= |marks'| && marks[..c] == marks'[..c]
    ensures Before(first, marks, c) == Before(first, marks', c)
  {
    if c > 0 { assert marks[..c][c - 1] == marks'[..c][c - 1]; }
  }

  lemma SameCall(p: Pace, fifo: seq<word>, clock: seq<word>, m: Mark, events: seq<Event>, m1: Mark,
                 events': seq<Event>, m2: Mark)
    requires DeterminedAt(p, fifo, clock, m, events, m1) && DeterminedAt(p, fifo, clock, m, events', m2)
    ensures m1 == m2 && events == events'
  {
    hide CallOf, EventsOf, FindsOf, Backed;
    OneCall(p, m, m1, m2);
  }

  lemma TakeOneMore<T>(s: seq<T>, t: seq<T>, c: nat)
    requires 0 < c <= |s| && c <= |t| && s[..c - 1] == t[..c - 1] && s[c - 1] == t[c - 1]
    ensures s[..c] == t[..c]
  {
    assert s[..c] == s[..c - 1] + [s[c - 1]] && t[..c] == t[..c - 1] + [t[c - 1]];
  }

  // ----- Rounds of the FIFO loop -----

  /** Whether the FIFO is empty at the turn of each of the two buffers. */
  datatype Rooms = Rooms(first: bool, second: bool)

  /** Whether a reader opens the FIFO, takes what is written, and has emptied it at each of the two buffers. */
  datatype Reader = Reader(opens: bool, writable: bool, room: Rooms)

  /** Whether what was found is printed: the last find is a block and, in lockstep, the FIFO was empty at the turn of
      its buffer. */
  predicate Prints(p: Pace, finds: seq<Find>, lockstep: bool, room: Rooms) {
    finds != [] && var f := finds[|finds| - 1];
    f.buf < 2 && LookAt(p, f.at, f.buf).Whole? && (lockstep ==> if f.buf == 0 then room.first else room.second)
  }

  /** One more look, in what is printed. */
  lemma PrintsNext(p: Pace, m: Mark, n: nat, lockstep: bool, room: Rooms)
    requires n < 2
    ensures var q := FirstLooks(p, m, n);
            Prints(p, FirstLooks(p, m, n + 1).finds, lockstep, room) <==>
              if LookAt(p, q.mark, n).Nothing? then Prints(p, q.finds, lockstep, room)
              else LookAt(p, q.mark, n).Whole? && (lockstep ==> if n == 0 then room.first else room.second)
  {
    hide LookAt, AfterLook;
    assert FirstLooks(p, m, n + 1) == Looked(p, FirstLooks(p, m, n), n);
  }

  lemma PrintsNone(p: Pace, m: Mark, lockstep: bool, room: Rooms)
    ensures !Prints(p, FirstLooks(p, m, 0).finds, lockstep, room)
  {
  }

  lemma LookPrints(p: Pace, fifo: seq<word>, clock: seq<word>, fifo': seq<word>, clock': seq<word>, m: Mark, n: nat,
                   events: seq<Event>, m1: Mark, look: Look, e: Event, m2: Mark, lockstep: bool, room: Rooms)
    requires LooksAre(p, fifo, clock, m, n, events, m1) && LookIs(p, fifo', clock', m1, n, look, e, m2)
    requires n < 2
    ensures Prints(p, FirstLooks(p, m, n + 1).finds, lockstep, room) <==>
              if look.Nothing? then Prints(p, FirstLooks(p, m, n).finds, lockstep, room)
              else look.Whole? && (lockstep ==> if n == 0 then room.first else room.second)
  {
    hide LookAt, AfterLook, FirstLooks, Prints, Backed, EventsOf;
    PrintsNext(p, m, n, lockstep, room);
  }

  /** A pass prints a line exactly for a block whose buffer's turn finds the FIFO empty, or for any block if not in
      lockstep. Then it is the last block found: none before it was printed, and the pass ends there. If the first
      buffer's turn finds room, or if not in lockstep, a pass finds at most one. */
  lemma PassPrints(p: Pace, m: Mark, lockstep: bool, room: Rooms, i: nat)
    requires i < |PassOf(p, m, !lockstep || room.first).finds|
    ensures var finds := PassOf(p, m, !lockstep || room.first).finds; var f := finds[i];
            && f.buf < 2 && (!lockstep || room.first ==> |finds| == 1)
            && (Prints(p, finds, lockstep, room) ==> LookAt(p, finds[|finds| - 1].at, finds[|finds| - 1].buf).Whole?)
            && (LookAt(p, f.at, f.buf).Whole? ==>
                  ((lockstep ==> if f.buf == 0 then room.first else room.second) <==>
                     Prints(p, finds, lockstep, room) && i == |finds| - 1))
  {
    hide LookAt, AfterLook;
  }

  /** Every find of a pass is in one of the two buffers. */
  lemma PrintsMeans(p: Pace, m: Mark, lockstep: bool, room: Rooms)
    ensures var finds := PassOf(p, m, !lockstep || room.first).finds;
            Prints(p, finds, lockstep, room) <==>
              && finds != [] && var f := finds[|finds| - 1];
              LookAt(p, f.at, f.buf).Whole? && (!lockstep || if f.buf == 0 then room.first else room.second)
  {
    hide LookAt, AfterLook;
  }

  lemma NoRoom(p: Pace, finds: seq<Find>, room: Rooms)
    requires !room.first && !room.second
    ensures !Prints(p, finds, true, room)
  {
    hide LookAt;
  }

  /** One round: what was found, whether a line was written, and where the program is, with the FIFO open or not. */
  datatype Round = Round(finds: seq<Find>, wrote: bool, mark: Mark, open: bool)

  function RoundOf(p: Pace, m: Mark, open: bool, lockstep: bool, reader: Reader): Round {
    if !open && !reader.opens then Round([], false, m, false)
    else
      var q := PassOf(p, m, !lockstep || reader.room.first);
      var prints := Prints(p, q.finds, lockstep, reader.room);
      if prints && reader.writable then Round(q.finds, true, q.mark, true)
      else Round(q.finds, false, AfterNap(p, q.mark), !prints)
  }

  /** The events and the end of a round are those of the schedule, the streams and the reader. */
  ghost predicate RoundIs(p: Pace, fifo: seq<word>, clock: seq<word>, r: Round, events: seq<Event>, m': Mark,
                          open: bool)
  {
    Backed(p, fifo, clock, r.finds) && events == EventsOf(p, fifo, clock, r.finds) && m' == r.mark && open == r.open
  }

  /** A pass with the FIFO open, and then a line written or a sleep. */
  lemma RoundMade(p: Pace, fifo: seq<word>, clock: seq<word>, fifo': seq<word>, clock': seq<word>, m: Mark,
                  lockstep: bool, reader: Reader, events: seq<Event>, m1: Mark, prints: bool)
    requires PassIs(p, fifo, clock, m, !lockstep || reader.room.first, events, m1) && fifo <= fifo' && clock <= clock'
    requires prints <==> Prints(p, PassOf(p, m, !lockstep || reader.room.first).finds, lockstep, reader.room)
    ensures var r := RoundOf(p, m, true, lockstep, reader); var writes := prints && reader.writable;
            r.wrote == writes &&
            RoundIs(p, fifo', clock', r, events, if writes then m1 else AfterNap(p, m1), writes || !prints)
  {
    hide PassOf, Prints, Backed, EventsOf, AfterNap;
    EventsStay(p, fifo, clock, fifo', clock', PassOf(p, m, !lockstep || reader.room.first).finds);
  }

  lemma NapTimely(p: Pace, m: Mark)
    ensures AfterNap(p, m).windows == m.windows
  {
  }

  lemma RoundEnds(p: Pace, fifo: seq<word>, clock: seq<word>, r: Round, events: seq<Event>, m': Mark, open: bool)
    requires RoundIs(p, fifo, clock, r, events, m', open)
    ensures m' == r.mark && open == r.open && events == EventsOf(p, fifo, clock, r.finds)
  {
    hide EventsOf, Backed;
  }

  /** What a round with the FIFO open, or opened by it, comes to. */
  lemma RoundMeans(p: Pace, fifo: seq<word>, clock: seq<word>, m: Mark, open: bool, lockstep: bool, reader: Reader,
                   events: seq<Event>, m': Mark, open': bool)
    requires RoundIs(p, fifo, clock, RoundOf(p, m, open, lockstep, reader), events, m', open') && (open || reader.opens)
    ensures var q := PassOf(p, m, !lockstep || reader.room.first);
            var prints := Prints(p, q.finds, lockstep, reader.room);
            && events == EventsOf(p, fifo, clock, q.finds) && open' == (!prints || reader.writable)
            && m'.tick == q.mark.tick && m'.base == q.mark.base && m'.windows == q.mark.windows && q.mark.naps == m.naps
            && m'.naps == m.naps + (if prints && reader.writable then 0 else 1)
            && RoundOf(p, m, open, lockstep, reader).wrote == (prints && reader.writable)
  {
    hide PassOf, Prints, Backed, EventsOf, Later;
    PassGrows(p, m, !lockstep || reader.room.first);
  }

  /** One flag is seen set, and the other still clear when it is tested: the pass finds one block, and prints it if its
      buffer's turn finds room. */
  lemma OneFlag(p: Pace, m: Mark, n: nat, lockstep: bool, room: Rooms)
    requires OneUp(p, m, n) && (lockstep ==> room.first && room.second)
    ensures var q := PassOf(p, m, !lockstep || room.first);
            |q.finds| == 1 && q.finds[0].buf == n && Prints(p, q.finds, lockstep, room)
  {
    hide Waited, TakenAt, GivenUp;
    WaitedJoin(p, m, 1, 1);
    WaitedJoin(p, m, n + 1, p.cfg.nsamp + 2);
  }

  lemma ReadyPrints(p: Pace, m: Mark, lockstep: bool, room: Rooms)
    ensures (lockstep ==> room == Rooms(true, true)) && (OneUp(p, m, 0) || OneUp(p, m, 1)) ==>
              Prints(p, PassOf(p, m, !lockstep || room.first).finds, lockstep, room)
  {
    hide OneUp, PassOf, Prints;
    if lockstep ==> room == Rooms(true, true) {
      if OneUp(p, m, 0) { OneFlag(p, m, 0, lockstep, room); }
      if OneUp(p, m, 1) { OneFlag(p, m, 1, lockstep, room); }
    }
  }

  /** All of this together, in what a round leaves. */
  lemma RoundDoes(p: Pace, fifo: seq<word>, clock: seq<word>, m: Mark, open: bool, lockstep: bool, reader: Reader,
                  events: seq<Event>, m': Mark, open': bool)
    requires RoundIs(p, fifo, clock, RoundOf(p, m, open, lockstep, reader), events, m', open') && (open || reader.opens)
    ensures var q := PassOf(p, m, !lockstep || reader.room.first); var r := RoundOf(p, m, open, lockstep, reader);
            var prints := q.finds != [] && var f := q.finds[|q.finds| - 1];
                          LookAt(p, f.at, f.buf).Whole? &&
                          (!lockstep || if f.buf == 0 then reader.room.first else reader.room.second);
            && events == EventsOf(p, fifo, clock, q.finds) && m'.tick == q.mark.tick
            && m'.naps == m.naps + (if prints && reader.writable then 0 else 1)
            && r.wrote == (prints && reader.writable) && open' == (!prints || reader.writable)
            && (reader.writable && (lockstep ==> reader.room == Rooms(true, true)) ==>
                  (OneUp(p, m, 0) || OneUp(p, m, 1) ==> r.wrote))
            && (Settled(p, m) ==> m'.base >= BlocksNow(p, m))
  {
    hide RoundOf, RoundIs, PassOf, LookAt, Prints, EventsOf, OneUp, Settled, BlocksAt;
    RoundMeans(p, fifo, clock, m, open, lockstep, reader, events, m', open');
    PrintsMeans(p, m, lockstep, reader.room);
    ReadyPrints(p, m, lockstep, reader.room);
    if Settled(p, m) { PassCatchesUp(p, m, !lockstep || reader.room.first); }
  }

  /** A round without a reader. */
  lemma NothingFound(p: Pace, fifo: seq<word>, clock: seq<word>, m: Mark, lockstep: bool, reader: Reader)
    ensures !reader.opens ==>
              var r := RoundOf(p, m, false, lockstep, reader);
              !r.wrote && RoundIs(p, fifo, clock, r, [], m, false)
  {
  }

  /** A round that opens the FIFO is one with the FIFO open. */
  lemma OpenRound(p: Pace, m: Mark, open: bool, lockstep: bool, reader: Reader)
    requires open || reader.opens
    ensures RoundOf(p, m, open, lockstep, reader) == RoundOf(p, m, true, lockstep, reader)
  {
    hide PassOf, Prints, AfterNap;
  }

  /** With a reader that takes everything and always has room, or without lockstep, every block taken is written. */
  lemma EveryBlock(p: Pace, fifo: seq<word>, clock: seq<word>, m: Mark, open: bool, lockstep: bool, reader: Reader,
                   h: seq<Event>, events: seq<Event>)
    requires reader.writable && (lockstep ==> reader.room.first && reader.room.second)
    requires events == EventsOf(p, fifo, clock, RoundOf(p, m, open, lockstep, reader).finds)
    ensures TookCount(h + events) == TookCount(h) + if RoundOf(p, m, open, lockstep, reader).wrote then 1 else 0
  {
    hide LookAt, AfterLook, TookCount, Snapshot;
    assert h + [] == h;
    if events != [] {
      PassPrints(p, m, lockstep, reader.room, 0);
      assert events == [events[0]];
      Append(h, events[0]);
    }
  }

  /** With ample time and a reader that is always there and has room, a round takes and prints the next block or finds
      none. */
  lemma QuickRound(p: Pace, fifo: seq<word>, clock: seq<word>, m: Mark, open: bool, lockstep: bool, reader: Reader,
                   events: seq<Event>)
    requires Quick(p.cfg, p.env) && Recent(p, m.base, m.tick, m.naps) && Settled(p, m)
    requires reader.opens && reader.writable && (lockstep ==> reader.room.first && reader.room.second)
    requires events == EventsOf(p, fifo, clock, RoundOf(p, m, open, lockstep, reader).finds)
    ensures var r := RoundOf(p, m, open, lockstep, reader);
            && Recent(p, r.mark.base, r.mark.tick, r.mark.naps)
            && if r.wrote then
                 |events| == 1 && events[0].Took? && events[0].block == m.base && r.mark.base == m.base + 1
               else events == [] && r.mark.base == m.base
  {
    hide LookAt, AfterLook, Quick, Recent, Settled, Snapshot, PassOf, Later;
    QuickPass(p, m, true);
    var finds := PassOf(p, m, true).finds;
    if finds != [] {
      assert Looks(p, finds)[0] == LookAt(p, finds[0].at, finds[0].buf);
    }
  }

  /** All rounds, one for each state of the reader. */
  ghost function RoundsOf(p: Pace, m: Mark, open: bool, lockstep: bool, readers: seq<Reader>): (rs: seq<Round>)
    ensures |rs| == |readers|
  {
    if readers == [] then []
    else
      var front := RoundsOf(p, m, open, lockstep, readers[..|readers| - 1]);
      front + [RoundOf(p, MarkAfter(m, front), OpenAfter(open, front), lockstep, readers[|readers| - 1])]
  }

  function MarkAfter(m: Mark, rounds: seq<Round>): Mark { if rounds == [] then m else rounds[|rounds| - 1].mark }

  function OpenAfter(open: bool, rounds: seq<Round>): bool { if rounds == [] then open else rounds[|rounds| - 1].open }

  /** The calls of the rounds have the events that were found. */
  ghost predicate RoundsShow(p: Pace, fifo: seq<word>, clock: seq<word>, rounds: seq<Round>, calls: seq<seq<Event>>) {
    && |calls| == |rounds|
    && forall i | 0 <= i < |rounds| ::
         Backed(p, fifo, clock, rounds[i].finds) && calls[i] == EventsOf(p, fifo, clock, rounds[i].finds)
  }

  /** The blocks whose lines were written: the last event of each round that wrote one. */
  function Written(rounds: seq<Round>, calls: seq<seq<Event>>): seq<Event>
    requires |calls| == |rounds|
  {
    if rounds == [] then []
    else
      var n := |rounds| - 1;
      Written(rounds[..n], calls[..n]) +
      if rounds[n].wrote && calls[n] != [] then [calls[n][|calls[n]| - 1]] else []
  }

  /** A run of the FIFO loop is that of the schedule, the streams and the readers: its calls, the blocks whose lines
      were written, where the program is, and whether the FIFO is open. */
  ghost predicate RoundsRun(p: Pace, fifo: seq<word>, clock: seq<word>, first: Mark, open: bool, lockstep: bool,
                            readers: seq<Reader>, calls: seq<seq<Event>>, printed: seq<Event>, marks: seq<Mark>,
                            open': bool)
  {
    var rounds := RoundsOf(p, first, open, lockstep, readers);
    && RoundsShow(p, fifo, clock, rounds, calls) && printed == Written(rounds, calls)
    && MarksAre(rounds, marks) && open' == OpenAfter(open, rounds)
  }

  /** Where each round ended. */
  ghost predicate MarksAre(rounds: seq<Round>, marks: seq<Mark>) {
    |marks| == |rounds| && forall i | 0 <= i < |marks| :: marks[i] == rounds[i].mark
  }

  lemma NoRounds(p: Pace, fifo: seq<word>, clock: seq<word>, first: Mark, open: bool, lockstep: bool)
    ensures RoundsRun(p, fifo, clock, first, open, lockstep, [], [], [], [], open)
  {
  }

  lemma NextRound(p: Pace, fifo: seq<word>, clock: seq<word>, fifo': seq<word>, clock': seq<word>, first: Mark,
                  open: bool, lockstep: bool, readers: seq<Reader>, i: nat, calls: seq<seq<Event>>,
                  printed: seq<Event>, marks: seq<Mark>, wasOpen: bool, events: seq<Event>, printed': seq<Event>)
    requires i < |readers| && fifo <= fifo' && clock <= clock'
    requires RoundsRun(p, fifo, clock, first, open, lockstep, readers[..i], calls, printed, marks, wasOpen)
    requires var r := RoundOf(p, Before(first, marks, |marks|), wasOpen, lockstep, readers[i]);
             && RoundIs(p, fifo', clock', r, events, r.mark, r.open)
             && printed' == printed + (if r.wrote && events != [] then [events[|events| - 1]] else [])
    ensures var r := RoundOf(p, Before(first, marks, |marks|), wasOpen, lockstep, readers[i]);
            RoundsRun(p, fifo', clock', first, open, lockstep, readers[..i + 1], calls + [events], printed',
                      marks + [r.mark], r.open)
  {
    hide RoundOf, RoundIs, RoundsOf, RoundsShow, Written;
    MoreReaders(p, first, open, lockstep, readers, i);
    var rounds, m := RoundsOf(p, first, open, lockstep, readers[..i]), Before(first, marks, |marks|);
    var r := RoundOf(p, m, wasOpen, lockstep, readers[i]);
    RoundsShown(p, fifo, clock, fifo', clock', rounds, calls, r, events);
  }

  lemma RoundsGrow(p: Pace, fifo: seq<word>, clock: seq<word>, first: Mark, open: bool, lockstep: bool,
                   readers: seq<Reader>, i: nat, calls: seq<seq<Event>>, printed: seq<Event>, marks: seq<Mark>,
                   wasOpen: bool)
    requires i < |readers|
    requires RoundsRun(p, fifo, clock, first, open, lockstep, readers[..i], calls, printed, marks, wasOpen)
    ensures RoundsOf(p, first, open, lockstep, readers[..i + 1]) ==
            RoundsOf(p, first, open, lockstep, readers[..i]) +
            [RoundOf(p, Before(first, marks, |marks|), wasOpen, lockstep, readers[i])]
  {
    hide RoundOf, RoundsOf, RoundsShow, Written;
    MoreReaders(p, first, open, lockstep, readers, i);
  }

  lemma RoundsShown(p: Pace, fifo: seq<word>, clock: seq<word>, fifo': seq<word>, clock': seq<word>, rounds: seq<Round>,
                    calls: seq<seq<Event>>, r: Round, events: seq<Event>)
    requires RoundsShow(p, fifo, clock, rounds, calls) && fifo <= fifo' && clock <= clock'
    requires RoundIs(p, fifo', clock', r, events, r.mark, r.open)
    ensures RoundsShow(p, fifo', clock', rounds + [r], calls + [events])
    ensures Written(rounds + [r], calls + [events]) ==
            Written(rounds, calls) + if r.wrote && events != [] then [events[|events| - 1]] else []
  {
    hide Backed, EventsOf;
    var rounds', calls' := rounds + [r], calls + [events];
    assert rounds'[..|rounds|] == rounds && calls'[..|calls|] == calls;
    forall i | 0 <= i < |rounds'|
      ensures Backed(p, fifo', clock', rounds'[i].finds) && calls'[i] == EventsOf(p, fifo', clock', rounds'[i].finds)
    {
      if i < |rounds| { EventsStay(p, fifo, clock, fifo', clock', rounds[i].finds); }
    }
  }

  lemma MoreReaders(p: Pace, m: Mark, open: bool, lockstep: bool, readers: seq<Reader>, i: nat)
    requires i < |readers|
    ensures var front := RoundsOf(p, m, open, lockstep, readers[..i]);
            RoundsOf(p, m, open, lockstep, readers[..i + 1]) ==
            front + [RoundOf(p, MarkAfter(m, front), OpenAfter(open, front), lockstep, readers[i])]
  {
    hide RoundOf;
    assert readers[..i + 1][..i] == readers[..i];
  }
}
