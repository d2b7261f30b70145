/** What the FIFO loop writes: the line of a call, and the lines of a run. */
module Lines {
  import opened Words
  import opened PingPong
  import opened Schedules
  import opened Polling
  import opened Calls
  import opened History
  import opened Csv
  import opened Datagrams

  // ----- The line of one call -----

  /** The line written is that of the last event: its first `count` samples, after its time stamp relative to
      the first if asked for. */
  ghost predicate WroteLine(line: seq<byte>, events: seq<Event>, start: seq<word>, count: nat) {
    && events != [] && events[|events| - 1].Took? && count <= |events[|events| - 1].words|
    && var e := events[|events| - 1];
    line == Line(if start == [] then [] else [(e.usec - start[0]) % WORD_SPAN], e.words[..count])
  }

  /** A line is printed for the last block taken if its buffer's turn finds room, and for no other; no block
      taken before it found room. */
  ghost predicate Printed(events: seq<Event>, lockstep: bool, room: Rooms, printed: bool) {
    forall i | 0 <= i < |events| && events[i].Took? ::
      (lockstep ==> if events[i].block % 2 == 0 then room.first else room.second) <==> (printed && i == |events| - 1)
  }

  lemma NothingPrinted(lockstep: bool, room: Rooms, nsamp: nat)
    ensures Printed([], lockstep, room, false) && !Fresh([]) && Sized([], nsamp)
  {
  }

  lemma PrintedNext(events: seq<Event>, e: Event, lockstep: bool, room: Rooms, printed: bool, nsamp: nat)
    ensures Fresh(events + [e]) <==> Fresh(events) || e.Took?
    ensures Sized(events, nsamp) && (e.Took? ==> |e.words| == nsamp) ==> Sized(events + [e], nsamp)
    ensures (if e.Took? then printed == (lockstep ==> if e.block % 2 == 0 then room.first else room.second)
             else !printed) ==>
              (Printed(events, lockstep, room, false) ==> Printed(events + [e], lockstep, room, printed))
  {
    if Fresh(events) {
      var i :| 0 <= i < |events| && events[i].Took?;
      assert (events + [e])[i].Took?;
    }
    assert (events + [e])[|events|] == e;
  }

  lemma TakeFront(s: seq<byte>, line: seq<byte>, n: nat)
    requires s == line + [NEWLINE] + [0] && n == |line| + 1
    ensures s[..n] == line + [NEWLINE]
  {
  }

  /** The line of a whole block, the last event of h: after the time since the first time stamp in h that was not zero,
      if asked for. */
  ghost predicate IsLine(line: seq<byte>, withUsec: bool, nsamp: nat, e: Event, h: seq<Event>) {
    && e.Took? && |e.words| == nsamp && h != [] && h[|h| - 1] == e
    && line == Line(if withUsec then [(e.usec - FirstStamp(h)) % WORD_SPAN] else [], e.words)
  }

  /** What a reader of such a line gets, if the block was taken whole: the microseconds since the first block, and for
      each word of the block of the stream its volts and millivolts. */
  lemma LineReads(line: seq<byte>, withUsec: bool, nsamp: nat, e: Event, h: seq<Event>, fifo: seq<word>,
                  clock: seq<word>)
    requires IsLine(line, withUsec, nsamp, e, h) && IsBlock(e, nsamp, fifo, clock) && nsamp >= 1
    ensures |line| > 0 && line[|line| - 1] == '\n' as int && e.block < |clock|
    ensures 0 <= e.block * nsamp <= (e.block + 1) * nsamp <= |fifo|
    ensures var fields := Split(line[..|line| - 1], ',' as int); var d := if withUsec then 1 else 0;
            var block := fifo[e.block * nsamp..(e.block + 1) * nsamp];
            && |block| == nsamp && |fields| == d + nsamp
            && (withUsec ==> Value(fields[0]) == (clock[e.block] - FirstStamp(h)) % 0x1_0000_0000)
            && forall i | 0 <= i < nsamp :: ReadsAs(fields[d + i], Millivolts(block[i]))
  {
    hide Line, Split, Value, ReadsAs, Millivolts, FirstStamp;
    LineRoundTrip(if withUsec then [(e.usec - FirstStamp(h)) % WORD_SPAN] else [], e.words);
  }

  /** The line of a block, as it is printed when h has happened: with the time since the first time stamp, if
      asked for. */
  function LineOf(withUsec: bool, h: seq<Event>, e: Event): seq<byte>
    requires e.Took?
  {
    Line(if withUsec then [(e.usec - FirstStamp(h)) % WORD_SPAN] else [], e.words)
  }

  /** One line more, that of the last event, if one was written. */
  ghost predicate Wrote(sent0: seq<seq<byte>>, sent: seq<seq<byte>>, printed0: seq<Event>, printed: seq<Event>,
                        events: seq<Event>, wrote: bool, withUsec: bool, nsamp: nat, h: seq<Event>)
  {
    if !wrote then sent == sent0 && printed == printed0
    else
      && events != [] && events[|events| - 1].Took? && |events[|events| - 1].words| == nsamp
      && printed == printed0 + [events[|events| - 1]] && sent == sent0 + [LineOf(withUsec, h, events[|events| - 1])]
  }

  lemma NothingWritten(sent: seq<seq<byte>>, printed: seq<Event>, events: seq<Event>, withUsec: bool, nsamp: nat,
                       h: seq<Event>)
    ensures Wrote(sent, sent, printed, printed, events, false, withUsec, nsamp, h)
  {
  }

  lemma OneMoreLine(sent0: seq<seq<byte>>, sent: seq<seq<byte>>, printed0: seq<Event>, printed: seq<Event>,
                    events: seq<Event>, wrote: bool, withUsec: bool, nsamp: nat, h: seq<Event>)
    requires Wrote(sent0, sent, printed0, printed, events, wrote, withUsec, nsamp, h)
    ensures |sent| == |sent0| + if wrote then 1 else 0
  {
    hide LineOf;
  }

  lemma OneWritten(sent: seq<seq<byte>>, printed: seq<Event>, line: seq<byte>, events: seq<Event>, withUsec: bool,
                   count: nat, nsamp: nat, h: seq<Event>)
    requires WroteLine(line, events, if withUsec then [FirstStamp(h)] else [], count) && count == nsamp
    requires Sized(events, nsamp)
    ensures events != []
    ensures Wrote(sent, sent + [line], printed, printed + [events[|events| - 1]], events, true, withUsec, nsamp, h)
  {
    hide Line, FirstStamp;
    var e := events[|events| - 1];
    assert e.words[..count] == e.words;
  }

  // ----- The lines of a run -----

  /** Blocks in increasing order, all below `base`. */
  ghost predicate InSequence(taken: seq<Event>, base: nat) {
    && (forall i | 0 <= i < |taken| :: taken[i].Took? && taken[i].block < base)
    && forall i, j | 0 <= i < j < |taken| :: taken[i].block < taken[j].block
  }

  /** Line i is that of block printed[i], taken with some event of h, as things stood then. */
  ghost predicate AllLines(sent: seq<seq<byte>>, withUsec: bool, nsamp: nat, printed: seq<Event>, h: seq<Event>) {
    |sent| == |printed| && forall i | 0 <= i < |sent| :: LineIn(sent[i], withUsec, nsamp, printed[i], h)
  }

  ghost predicate LineIn(line: seq<byte>, withUsec: bool, nsamp: nat, e: Event, h: seq<Event>) {
    exists k: nat :: k <= |h| && IsLine(line, withUsec, nsamp, e, Until(h, k))
  }

  function Until(h: seq<Event>, k: nat): seq<Event>
    requires k <= |h|
  {
    h[..k]
  }

  lemma LineStays(line: seq<byte>, withUsec: bool, nsamp: nat, e: Event, h: seq<Event>, events: seq<Event>)
    requires LineIn(line, withUsec, nsamp, e, h)
    ensures LineIn(line, withUsec, nsamp, e, h + events) && e in h
  {
    hide IsLine;
    var k: nat :| k <= |h| && IsLine(line, withUsec, nsamp, e, Until(h, k));
    assert Until(h + events, k) == Until(h, k);
    LastOf(line, withUsec, nsamp, e, Until(h, k));
    assert h[..k][k - 1] == h[k - 1];
  }

  lemma LastOf(line: seq<byte>, withUsec: bool, nsamp: nat, e: Event, h: seq<Event>)
    requires IsLine(line, withUsec, nsamp, e, h)
    ensures h != [] && h[|h| - 1] == e
  {
  }

  lemma LineNew(line: seq<byte>, withUsec: bool, nsamp: nat, e: Event, h: seq<Event>)
    requires IsLine(line, withUsec, nsamp, e, h) && h != []
    ensures LineIn(line, withUsec, nsamp, e, h)
  {
    hide IsLine;
    assert Until(h, |h|) == h;
  }

  /** All lines written: that of the last event of each round that wrote one, as things stood after that round. */
  function LinesOf(rounds: seq<Round>, calls: seq<seq<Event>>, withUsec: bool): seq<seq<byte>>
    requires |calls| == |rounds|
  {
    if rounds == [] then []
    else
      var n := |rounds| - 1;
      LinesOf(rounds[..n], calls[..n], withUsec) +
      if rounds[n].wrote && calls[n] != [] && calls[n][|calls[n]| - 1].Took? then
        [LineOf(withUsec, Flat(calls), calls[n][|calls[n]| - 1])]
      else []
  }

  lemma NextLine(rounds: seq<Round>, r: Round, calls: seq<seq<Event>>, sent0: seq<seq<byte>>, sent: seq<seq<byte>>,
                 printed0: seq<Event>, printed: seq<Event>, events: seq<Event>, withUsec: bool, nsamp: nat)
    requires |calls| == |rounds| && AllLines(sent0, withUsec, nsamp, printed0, Flat(calls))
    requires sent0 == LinesOf(rounds, calls, withUsec)
    requires Wrote(sent0, sent, printed0, printed, events, r.wrote, withUsec, nsamp, Flat(calls) + events)
    ensures AllLines(sent, withUsec, nsamp, printed, Flat(calls) + events)
    ensures sent == LinesOf(rounds + [r], calls + [events], withUsec)
    ensures printed == printed0 + (if r.wrote && events != [] then [events[|events| - 1]] else [])
    ensures r.wrote ==> events != [] && events[|events| - 1].Took?
    ensures |sent| == |sent0| + if r.wrote then 1 else 0
  {
    hide LineIn, LineOf, Flat;
    assert (rounds + [r])[..|rounds|] == rounds && (calls + [events])[..|calls|] == calls;
    FlatNext(calls, events);
    var h := Flat(calls) + events;
    if r.wrote { LineIs(withUsec, nsamp, h, events[|events| - 1]); }
    forall i | 0 <= i < |sent|
      ensures LineIn(sent[i], withUsec, nsamp, printed[i], h)
    {
      if i < |sent0| {
        assert sent[i] == sent0[i] && printed[i] == printed0[i];
        LineStays(sent0[i], withUsec, nsamp, printed0[i], Flat(calls), events);
      }
    }
  }

  lemma LineIs(withUsec: bool, nsamp: nat, h: seq<Event>, e: Event)
    requires e.Took? && |e.words| == nsamp && h != [] && h[|h| - 1] == e
    ensures LineIn(LineOf(withUsec, h, e), withUsec, nsamp, e, h)
  {
    hide Line, FirstStamp;
    LineNew(LineOf(withUsec, h, e), withUsec, nsamp, e, h);
  }

  /** Readers that take every line, and readers that are there from the first round on. */
  ghost predicate Takes(readers: seq<Reader>) { forall i | 0 <= i < |readers| :: readers[i].writable }

  ghost predicate Opens(readers: seq<Reader>) { forall i | 0 <= i < |readers| :: readers[i].opens }

  /** Readers that have always emptied the FIFO, and readers that never have. */
  ghost predicate Roomy(readers: seq<Reader>) {
    forall i | 0 <= i < |readers| :: readers[i].room.first && readers[i].room.second
  }

  ghost predicate NeverRoom(readers: seq<Reader>) {
    forall i | 0 <= i < |readers| :: !readers[i].room.first && !readers[i].room.second
  }

  /** A reader like this meets all of it for any number of rounds. */
  lemma AlwaysThere(n: nat)
    ensures var readers := seq(n, i => Reader(true, true, Rooms(true, true)));
            Takes(readers) && Opens(readers) && Roomy(readers)
    ensures NeverRoom(seq(n, i => Reader(true, true, Rooms(false, false))))
  {
  }

  /** Line i is that of block i, for every block so far. */
  ghost predicate EachOne(printed: seq<Event>, base: nat) {
    |printed| == base && forall i | 0 <= i < |printed| :: printed[i].Took? && printed[i].block == i
  }

  lemma NextOne(taken: seq<Event>, printed: seq<Event>, b: nat, base: nat, h: seq<Event>, events: seq<Event>)
    requires EachOne(taken, b)
    requires if events == [] then base == b && printed == taken
             else |events| == 1 && events[0].Took? && events[0].block == b && base == b + 1 && printed == taken + events
    ensures EachOne(printed, base) && OverrunCount(h + events) == OverrunCount(h)
  {
    assert h + [] == h;
    if events != [] {
      assert events == [events[0]];
      Append(h, events[0]);
    }
  }

  lemma FlatNext(before: seq<seq<Event>>, events: seq<Event>)
    ensures Flat(before + [events]) == Flat(before) + events
  {
    assert (before + [events])[..|before|] == before;
  }

  lemma NextPrinted(h: seq<Event>, events: seq<Event>, b: nat, base: nat, taken: seq<Event>, taken': seq<Event>)
    requires Tiles(h, b) && Tiles(h + events, base) && InSequence(taken, b) && |events| <= 2
    requires taken' == taken || (events != [] && taken' == taken + [events[|events| - 1]] && events[|events| - 1].Took?)
    ensures InSequence(taken', base)
  {
    TilesGrow(h, events, b, base);
  }

  /** There is a line for every block taken and, with ample time, for every block. */
  ghost predicate EveryLine(p: Pace, ample: bool, lines: nat, printed: seq<Event>, m: Mark, h: seq<Event>) {
    && lines == TookCount(h)
    && (ample ==> Recent(p, m.base, m.tick, m.naps) && EachOne(printed, m.base) && OverrunCount(h) == 0)
  }

  lemma NoEvery(p: Pace, ample: bool, m: Mark)
    requires ample ==> Recent(p, m.base, m.tick, m.naps) && m.base == 0
    ensures EveryLine(p, ample, 0, [], m, [])
  {
    hide Recent;
  }

  lemma NextEvery(p: Pace, ample: bool, fifo: seq<word>, clock: seq<word>, m: Mark, open: bool, lockstep: bool,
                  reader: Reader, lines: nat, taken: seq<Event>, h: seq<Event>, events: seq<Event>,
                  printed: seq<Event>)
    requires EveryLine(p, ample, lines, taken, m, h)
    requires reader.writable && (lockstep ==> reader.room.first && reader.room.second)
    requires ample ==> reader.opens && Quick(p.cfg, p.env) && Settled(p, m)
    requires var r := RoundOf(p, m, open, lockstep, reader);
             && events == EventsOf(p, fifo, clock, r.finds)
             && printed == taken + (if r.wrote && events != [] then [events[|events| - 1]] else [])
    ensures var r := RoundOf(p, m, open, lockstep, reader);
            EveryLine(p, ample, lines + if r.wrote then 1 else 0, printed, r.mark, h + events)
  {
    hide RoundOf, Recent, Quick, Settled, EventsOf, TookCount, OverrunCount, EachOne;
    var r := RoundOf(p, m, open, lockstep, reader);
    EveryBlock(p, fifo, clock, m, open, lockstep, reader, h, events);
    if ample {
      QuickRound(p, fifo, clock, m, open, lockstep, reader, events);
      if r.wrote { assert events == [events[0]]; }
      NextOne(taken, printed, m.base, r.mark.base, h, events);
    }
  }

  /** A run of the FIFO loop: the schedule, where it starts, whether the FIFO is open then, the options, and whether
      there is ample time. */
  datatype Setting = Setting(p: Pace, first: Mark, open: bool, lockstep: bool, withUsec: bool, ample: bool)

  /** What the FIFO loop keeps. The run is that of the schedule and the readers; its lines are those of blocks taken, in
      order while all clearings were in time; in lockstep there is none without room; and there is one for every block
      taken if there always was. A round with the FIFO open accounts for all that was complete as it began. */
  ghost predicate FifoRun(f: Setting, fifo: seq<word>, clock: seq<word>, readers: seq<Reader>, calls: seq<seq<Event>>,
                          h: seq<Event>, sent: seq<seq<byte>>, printed: seq<Event>, marks: seq<Mark>, open': bool)
  {
    var m := Before(f.first, marks, |marks|);
    && h == Flat(calls) && |calls| == |marks| == |readers|
    && RoundsRun(f.p, fifo, clock, f.first, f.open, f.lockstep, readers, calls, printed, marks, open')
    && sent == LinesOf(RoundsOf(f.p, f.first, f.open, f.lockstep, readers), calls, f.withUsec)
    && AllLines(sent, f.withUsec, f.p.cfg.nsamp, printed, h)
    && (AllInTime(m.windows) ==> InSequence(printed, m.base))
    && (f.lockstep && NeverRoom(readers) ==> sent == [])
    && (Takes(readers) && (f.lockstep ==> Roomy(readers)) ==>
          EveryLine(f.p, f.ample && Opens(readers), |sent|, printed, m, h))
    && CaughtUp(f, readers, marks)
  }

  /** If the reader is always there, every block complete as the last round began is accounted for. */
  ghost predicate CaughtUp(f: Setting, readers: seq<Reader>, marks: seq<Mark>) {
    var n := |marks|;
    n > 0 && Opens(readers) && AllInTime(Before(f.first, marks, n).windows) ==>
      Before(f.first, marks, n).base >= BlocksNow(f.p, Before(f.first, marks, n - 1))
  }

  lemma NoFifoRun(f: Setting, fifo: seq<word>, clock: seq<word>)
    requires f.ample ==> Recent(f.p, f.first.base, f.first.tick, f.first.naps) && f.first.base == 0
    ensures FifoRun(f, fifo, clock, [], [], [], [], [], [], f.open)
  {
    hide Recent, RoundsRun, AllInTime;
    NoRounds(f.p, fifo, clock, f.first, f.open, f.lockstep);
    NoEvery(f.p, f.ample, f.first);
  }

  lemma NextFifoRun(f: Setting, fifo: seq<word>, clock: seq<word>, fifo': seq<word>, clock': seq<word>,
                    readers: seq<Reader>, i: nat, calls: seq<seq<Event>>, h: seq<Event>, lines: seq<seq<byte>>,
                    taken: seq<Event>, marks: seq<Mark>, wasOpen: bool, events: seq<Event>, sent: seq<seq<byte>>,
                    printed: seq<Event>, m': Mark, open': bool)
    requires i < |readers| && fifo <= fifo' && clock <= clock' && |events| <= 2
    requires FifoRun(f, fifo, clock, readers[..i], calls, h, lines, taken, marks, wasOpen)
    requires var r := RoundOf(f.p, Before(f.first, marks, |marks|), wasOpen, f.lockstep, readers[i]);
             && RoundIs(f.p, fifo', clock', r, events, m', open')
             && Wrote(lines, sent, taken, printed, events, r.wrote, f.withUsec, f.p.cfg.nsamp, h + events)
    requires var m := Before(f.first, marks, |marks|);
             && (AllInTime(m'.windows) ==>
                   AllInTime(m.windows) && Settled(f.p, m) && Tiles(h, m.base) && Tiles(h + events, m'.base))
             && (f.ample ==> Quick(f.p.cfg, f.p.env) && Settled(f.p, m))
    ensures FifoRun(f, fifo', clock', readers[..i + 1], calls + [events], h + events, sent, printed, marks + [m'],
                    open')
  {
    hide RoundOf, RoundIs, RoundsOf, RoundsRun, AllLines, LinesOf, Wrote, InSequence, AllInTime, EveryLine, Flat,
         Tiles, Quick, Settled, CaughtUp, BlocksNow, Takes, Roomy, NeverRoom, Opens;
    var p, m := f.p, Before(f.first, marks, |marks|);
    var r := RoundOf(p, m, wasOpen, f.lockstep, readers[i]);
    RoundEnds(p, fifo', clock', r, events, m', open');
    var rounds := RoundsOf(p, f.first, f.open, f.lockstep, readers[..i]);
    NextLine(rounds, r, calls, lines, sent, taken, printed, events, f.withUsec, p.cfg.nsamp);
    RoundsGrow(p, fifo, clock, f.first, f.open, f.lockstep, readers, i, calls, taken, marks, wasOpen);
    NextRound(p, fifo, clock, fifo', clock', f.first, f.open, f.lockstep, readers, i, calls, taken, marks, wasOpen,
              events, printed);
    FlatNext(calls, events);
    AllBefore(readers, i);
    if AllInTime(m'.windows) { NextPrinted(h, events, m.base, m'.base, taken, printed); }
    if f.lockstep && NeverRoom(readers[..i + 1]) { NothingRound(p, m, wasOpen, readers[i]); }
    if Takes(readers[..i + 1]) && (f.lockstep ==> Roomy(readers[..i + 1])) {
      ClearlyEvery(p, f.ample && Opens(readers[..i]), f.ample && Opens(readers[..i + 1]), |lines|, taken, m, h);
      NextEvery(p, f.ample && Opens(readers[..i + 1]), fifo', clock', m, wasOpen, f.lockstep, readers[i], |lines|,
                taken, h, events, printed);
    }
    NextCaughtUp(f, fifo', clock', readers, i, marks, wasOpen, events, m', open');
  }

  lemma NothingRound(p: Pace, m: Mark, open: bool, reader: Reader)
    requires !reader.room.first && !reader.room.second
    ensures !RoundOf(p, m, open, true, reader).wrote
  {
    hide PassOf, LookAt, AfterNap;
  }

  lemma NextCaughtUp(f: Setting, fifo: seq<word>, clock: seq<word>, readers: seq<Reader>, i: nat, marks: seq<Mark>,
                     wasOpen: bool, events: seq<Event>, m': Mark, open': bool)
    requires i < |readers|
    requires var m := Before(f.first, marks, |marks|);
             && RoundIs(f.p, fifo, clock, RoundOf(f.p, m, wasOpen, f.lockstep, readers[i]), events, m', open')
             && (AllInTime(m'.windows) ==> Settled(f.p, m))
    ensures CaughtUp(f, readers[..i + 1], marks + [m'])
  {
    hide RoundOf, RoundIs, AllInTime, Settled, PassOf, Opens;
    var m, reader := Before(f.first, marks, |marks|), readers[i];
    AllBefore(readers, i);
    assert Before(f.first, marks + [m'], |marks|) == m;
    if Opens(readers[..i + 1]) && AllInTime(m'.windows) {
      RoundMeans(f.p, fifo, clock, m, wasOpen, f.lockstep, reader, events, m', open');
      PassCatchesUp(f.p, m, !f.lockstep || reader.room.first);
    }
  }

  lemma AllBefore(readers: seq<Reader>, i: nat)
    requires i < |readers|
    ensures Takes(readers[..i + 1]) ==> Takes(readers[..i]) && readers[i].writable
    ensures Opens(readers[..i + 1]) ==> Opens(readers[..i]) && readers[i].opens
    ensures Roomy(readers[..i + 1]) ==> Roomy(readers[..i]) && readers[i].room.first && readers[i].room.second
    ensures NeverRoom(readers[..i + 1]) ==>
              NeverRoom(readers[..i]) && !readers[i].room.first && !readers[i].room.second
  {
    var upTo := readers[..i + 1];
    assert upTo[i] == readers[i] && forall j | 0 <= j < i :: readers[..i][j] == upTo[j];
  }

  lemma ClearlyEvery(p: Pace, ample: bool, ample': bool, lines: nat, printed: seq<Event>, m: Mark, h: seq<Event>)
    requires EveryLine(p, ample, lines, printed, m, h) && (ample' ==> ample)
    ensures EveryLine(p, ample', lines, printed, m, h)
  {
    hide Recent, EachOne;
  }

  lemma FifoRunEnds(f: Setting, fifo: seq<word>, clock: seq<word>, readers: seq<Reader>, calls: seq<seq<Event>>,
                    h: seq<Event>, sent: seq<seq<byte>>, printed: seq<Event>, marks: seq<Mark>, open': bool)
    requires FifoRun(f, fifo, clock, readers, calls, h, sent, printed, marks, open')
    ensures |calls| == |marks| == |readers|
    ensures var m := Before(f.first, marks, |marks|);
            && h == Flat(calls)
            && RoundsRun(f.p, fifo, clock, f.first, f.open, f.lockstep, readers, calls, printed, marks, open')
            && sent == LinesOf(RoundsOf(f.p, f.first, f.open, f.lockstep, readers), calls, f.withUsec)
            && AllLines(sent, f.withUsec, f.p.cfg.nsamp, printed, h)
            && (f.lockstep && NeverRoom(readers) ==> sent == [])
            && (AllInTime(m.windows) ==> InSequence(printed, m.base))
            && (AllInTime(m.windows) && Faithful(h, f.p.cfg.nsamp, fifo, clock) ==>
                  Faithful(printed, f.p.cfg.nsamp, fifo, clock))
            && (Takes(readers) && (f.lockstep ==> Roomy(readers)) ==> |sent| == TookCount(h))
            && (Takes(readers) && (f.lockstep ==> Roomy(readers)) && f.ample && Opens(readers) ==>
                  EachOne(printed, m.base) && OverrunCount(h) == 0)
            && (AllInTime(m.windows) && Opens(readers) && readers != [] ==>
                  m.base >= BlocksNow(f.p, Before(f.first, marks, |marks| - 1)))
  {
    hide LineIn, LinesOf, RoundsRun, InSequence, Faithful, EachOne, Recent, Takes, Opens, Roomy, AllInTime;
    if Faithful(h, f.p.cfg.nsamp, fifo, clock) {
      FaithfulLines(sent, f.withUsec, f.p.cfg.nsamp, printed, h, fifo, clock);
    }
  }

  lemma FaithfulLines(sent: seq<seq<byte>>, withUsec: bool, nsamp: nat, printed: seq<Event>, h: seq<Event>,
                      fifo: seq<word>, clock: seq<word>)
    requires AllLines(sent, withUsec, nsamp, printed, h) && Faithful(h, nsamp, fifo, clock)
    ensures Faithful(printed, nsamp, fifo, clock)
  {
    hide LineIn, Faithful;
    forall i | 0 <= i < |printed|
      ensures printed[i] in h
    {
      LineStays(sent[i], withUsec, nsamp, printed[i], h, []);
    }
    FaithfulPart(printed, h, nsamp, fifo, clock);
  }

  lemma FaithfulPart(part: seq<Event>, h: seq<Event>, nsamp: nat, fifo: seq<word>, clock: seq<word>)
    requires Faithful(h, nsamp, fifo, clock) && forall i | 0 <= i < |part| :: part[i] in h
    ensures Faithful(part, nsamp, fifo, clock)
  {
    hide IsBlock;
    forall i | 0 <= i < |part| && part[i].Took?
      ensures IsBlock(part[i], nsamp, fifo, clock)
    {
      var j :| 0 <= j < |h| && h[j] == part[i];
    }
  }
}
