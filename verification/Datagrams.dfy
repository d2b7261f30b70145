/** What a call of adc_stream_packet leaves in the output buffer, and the history of the UDP stream. */
module Datagrams {
  import opened Words
  import opened Layout
  import opened History
  import opened Packet
  import opened RawFormat

  /** What a block becomes: a packet in adc_stream_packet, bare samples in adc_stream_raw. */
  datatype Format = Framed | Bare

  function CodedLen(f: Format, nsamp: nat): nat { if f.Framed? then PacketLen(nsamp) else 2 * nsamp }

  function Coded(f: Format, num: nat, ws: seq<word>): (bs: seq<byte>)
    requires |ws| <= MAX_SAMPS
    ensures |bs| == CodedLen(f, |ws|)
  {
    if f.Framed? then PacketBytes(num, ws) else RawBytes(ws)
  }

  /** Every block taken has nsamp samples. */
  ghost predicate Sized(events: seq<Event>, nsamp: nat) {
    forall i | 0 <= i < |events| && events[i].Took? :: |events[i].words| == nsamp
  }

  /** One call stops after a block, after two blocks, or at an overrun. */
  ghost predicate CallShape(events: seq<Event>) {
    1 <= |events| <= 2 && (|events| == 2 ==> events[0].Took?)
  }

  ghost predicate Fresh(events: seq<Event>) {
    exists i :: 0 <= i < |events| && events[i].Took?
  }

  /** The buffer after the events of one call: the last block taken, coded, over the first bytes. */
  function Delivered(f: Format, vals: seq<byte>, events: seq<Event>, nsamp: nat, num: nat): (r: seq<byte>)
    requires Sized(events, nsamp) && nsamp <= MAX_SAMPS && CodedLen(f, nsamp) <= |vals|
    ensures |r| == |vals|
  {
    if events == [] then vals
    else if events[|events| - 1].Took? then
      Coded(f, num, events[|events| - 1].words) + vals[CodedLen(f, nsamp)..]
    else Delivered(f, vals, events[..|events| - 1], nsamp, num)
  }

  lemma NoEvents(f: Format, vals: seq<byte>, nsamp: nat, num: nat)
    requires nsamp <= MAX_SAMPS && CodedLen(f, nsamp) <= |vals|
    ensures Sized([], nsamp) && Delivered(f, vals, [], nsamp, num) == vals
  {
  }

  lemma DeliverNext(f: Format, vals: seq<byte>, events: seq<Event>, e: Event, nsamp: nat, num: nat)
    requires Sized(events, nsamp) && (e.Took? ==> |e.words| == nsamp)
    requires nsamp <= MAX_SAMPS && CodedLen(f, nsamp) <= |vals|
    ensures Sized(events + [e], nsamp)
    ensures Delivered(f, vals, events + [e], nsamp, num) ==
            if e.Took? then Coded(f, num, e.words) + Delivered(f, vals, events, nsamp, num)[CodedLen(f, nsamp)..]
            else Delivered(f, vals, events, nsamp, num)
    decreases |events|
  {
    hide Coded;
    assert (events + [e])[..|events|] == events;
    DeliveredTail(f, vals, events, nsamp, num);
  }

  lemma {:induction false} DeliveredTail(f: Format, vals: seq<byte>, events: seq<Event>, nsamp: nat, num: nat)
    requires Sized(events, nsamp) && nsamp <= MAX_SAMPS && CodedLen(f, nsamp) <= |vals|
    ensures Delivered(f, vals, events, nsamp, num)[CodedLen(f, nsamp)..] == vals[CodedLen(f, nsamp)..]
    decreases |events|
  {
    hide Coded;
    if events != [] && !events[|events| - 1].Took? {
      DeliveredTail(f, vals, events[..|events| - 1], nsamp, num);
    }
  }

  /** The events gathered so far: they extend the history, the last block taken is in the buffer, and nrpackets
      counts the packets since the last overrun. */
  ghost predicate Gathered(f: Format, vals0: seq<byte>, vals: seq<byte>, events: seq<Event>, nsamp: nat, num: nat,
                           h0: seq<Event>, h: seq<Event>, count0: int, count: int)
  {
    && Sized(events, nsamp) && nsamp <= MAX_SAMPS && CodedLen(f, nsamp) <= |vals0|
    && h == h0 + events && vals == Delivered(f, vals0, events, nsamp, num)
    && (f.Bare? ==> count == count0)
    && (f.Framed? && count0 == SinceOverrun(h0) ==> count == SinceOverrun(h))
  }

  lemma GatheredNone(f: Format, vals: seq<byte>, nsamp: nat, num: nat, h: seq<Event>, count: int)
    requires nsamp <= MAX_SAMPS && CodedLen(f, nsamp) <= |vals|
    ensures Gathered(f, vals, vals, [], nsamp, num, h, h, count, count)
  {
    hide Delivered, SinceOverrun;
    NoEvents(f, vals, nsamp, num);
  }

  lemma GatheredNext(f: Format, vals0: seq<byte>, vals: seq<byte>, events: seq<Event>, nsamp: nat, num: nat,
                     h0: seq<Event>, h: seq<Event>, count0: int, count: int, e: Event, vals': seq<byte>, count': int)
    requires Gathered(f, vals0, vals, events, nsamp, num, h0, h, count0, count)
    requires e.Took? ==> |e.words| == nsamp && CodedLen(f, nsamp) <= |vals|
    requires vals' == if e.Took? then Coded(f, num, e.words) + vals[CodedLen(f, nsamp)..] else vals
    requires count' == if f.Bare? then count else if e.Took? then count + 1 else 0
    ensures Gathered(f, vals0, vals', events + [e], nsamp, num, h0, h + [e], count0, count')
  {
    hide Delivered, SinceOverrun, Coded, Sized;
    DeliverNext(f, vals0, events, e, nsamp, num);
    Append(h, e);
    assert h + [e] == h0 + (events + [e]);
  }

  /** The count is as it was, or as it was still right. */
  ghost predicate StillCounts(f: Format, h: seq<Event>, count0: int, count: int) {
    (f.Bare? ==> count == count0) && (f.Framed? && count0 == SinceOverrun(h) ==> count == SinceOverrun(h))
  }

  lemma StillGathered(f: Format, vals0: seq<byte>, vals: seq<byte>, events: seq<Event>, nsamp: nat, num: nat,
                      h0: seq<Event>, h: seq<Event>, count0: int, count: int, count': int)
    requires StillCounts(f, h0, count0, count) && Gathered(f, vals0, vals, events, nsamp, num, h0, h, count, count')
    ensures Gathered(f, vals0, vals, events, nsamp, num, h0, h, count0, count')
    ensures events == [] ==> vals == vals0 && h == h0 && StillCounts(f, h0, count0, count')
  {
    hide SinceOverrun, Sized;
  }

  lemma GatheredFramed(vals0: seq<byte>, vals: seq<byte>, events: seq<Event>, nsamp: nat, num: nat,
                       h0: seq<Event>, h: seq<Event>, count0: int, count: int)
    requires Gathered(Framed, vals0, vals, events, nsamp, num, h0, h, count0, count)
    ensures Sized(events, nsamp) && nsamp <= MAX_SAMPS && CodedLen(Framed, nsamp) <= |vals0|
    ensures h == h0 + events && vals == Delivered(Framed, vals0, events, nsamp, num)
    ensures count0 == SinceOverrun(h0) ==> count == SinceOverrun(h)
  {
  }

  // ----- The stream of datagrams -----

  /** The calls so far, each with its events: one to two events a call, blocks of nsamp samples. */
  ghost predicate WellShaped(calls: seq<seq<Event>>, nsamp: nat) {
    forall c | 0 <= c < |calls| :: CallShape(calls[c]) && Sized(calls[c], nsamp)
  }

  /** The calls up to and including number c. */
  function UpTo(calls: seq<seq<Event>>, c: nat): seq<seq<Event>>
    requires c < |calls|
  {
    calls[..c + 1]
  }

  function Flat(calls: seq<seq<Event>>): seq<Event> {
    if calls == [] then [] else Flat(calls[..|calls| - 1]) + calls[|calls| - 1]
  }

  /** The output buffer after all calls, when call number c had serial number c. */
  ghost function BufferAfter(init: seq<byte>, calls: seq<seq<Event>>, nsamp: nat): (r: seq<byte>)
    requires WellShaped(calls, nsamp) && nsamp <= MAX_SAMPS && PacketLen(nsamp) <= |init|
    ensures |r| == |init|
  {
    if calls == [] then init
    else Delivered(Framed, BufferAfter(init, calls[..|calls| - 1], nsamp), calls[|calls| - 1], nsamp, |calls| - 1)
  }

  /** What is sent after the calls. */
  ghost function Datagram(init: seq<byte>, calls: seq<seq<Event>>, nsamp: nat): seq<byte>
    requires WellShaped(calls, nsamp) && nsamp <= MAX_SAMPS && PacketLen(nsamp) <= |init|
  {
    BufferAfter(init, calls, nsamp)[..PacketLen(nsamp)]
  }

  /** The newest block of a call. */
  ghost function Newest(events: seq<Event>): Event
    requires CallShape(events) && Fresh(events)
  {
    if events[|events| - 1].Took? then events[|events| - 1] else events[0]
  }

  /** A call either leaves its newest block, complete and with its own serial number, or nothing. */
  lemma CallDelivers(f: Format, vals: seq<byte>, events: seq<Event>, nsamp: nat, num: nat)
    requires Sized(events, nsamp) && CallShape(events) && nsamp <= MAX_SAMPS && CodedLen(f, nsamp) <= |vals|
    ensures var r := Delivered(f, vals, events, nsamp, num);
            if Fresh(events) then
              && r[..CodedLen(f, nsamp)] == Coded(f, num, Newest(events).words)
              && r[CodedLen(f, nsamp)..] == vals[CodedLen(f, nsamp)..]
            else r == vals
  {
    hide Coded;
    var last := events[|events| - 1];
    var front := events[..|events| - 1];
    if !last.Took? {
      if |events| == 2 {
        assert front == [events[0]] && Fresh(events);
        assert Newest(events) == events[0] && front[|front| - 1] == events[0];
      } else {
        assert !Fresh(events) && front == [];
      }
    } else {
      assert Fresh(events);
    }
  }

  /** The last call, of those before c, that took a block; -1 if there is none. */
  ghost function LastFresh(calls: seq<seq<Event>>): (j: int)
    ensures -1 <= j < |calls|
    ensures j >= 0 ==> Fresh(calls[j])
    ensures forall c | j < c < |calls| :: !Fresh(calls[c])
  {
    if calls == [] then -1
    else if Fresh(calls[|calls| - 1]) then |calls| - 1
    else LastFresh(calls[..|calls| - 1])
  }

  /** Serial history: what is sent is the well-formed packet of the newest block of the last call that took
      one, with that call's number as serial number; before any block it is the untouched buffer. */
  lemma {:induction false} SerialHistory(init: seq<byte>, calls: seq<seq<Event>>, nsamp: nat)
    requires WellShaped(calls, nsamp) && nsamp <= MAX_SAMPS && PacketLen(nsamp) <= |init|
    ensures var j := LastFresh(calls); var sent := Datagram(init, calls, nsamp);
            if j >= 0 then
              && sent == PacketBytes(j, Newest(calls[j]).words)
              && WellFormed(sent, j % HALF_SPAN, Swapped(Newest(calls[j]).words))
            else sent == init[..PacketLen(nsamp)]
    decreases |calls|
  {
    hide Delivered, PacketBytes, WellFormed, Swapped;
    if calls != [] {
      var front, last := calls[..|calls| - 1], calls[|calls| - 1];
      CallDelivers(Framed, BufferAfter(init, front, nsamp), last, nsamp, |calls| - 1);
      if Fresh(last) {
        SizedNewest(last, nsamp);
        PacketRoundTrip(|calls| - 1, Newest(last).words);
      } else {
        SerialHistory(init, front, nsamp);
        var j := LastFresh(front);
        if j >= 0 { assert front[j] == calls[j]; }
      }
    }
  }

  lemma SizedNewest(events: seq<Event>, nsamp: nat)
    requires Sized(events, nsamp) && CallShape(events) && Fresh(events)
    ensures Newest(events).Took? && |Newest(events).words| == nsamp && Newest(events) in events
  {
    var i :| 0 <= i < |events| && events[i].Took?;
  }

  lemma {:induction false} InFlat(calls: seq<seq<Event>>, c: nat, e: Event)
    requires c < |calls| && e in calls[c]
    ensures e in Flat(calls)
    decreases |calls|
  {
    if c < |calls| - 1 {
      InFlat(calls[..|calls| - 1], c, e);
    }
  }

  lemma {:induction false} FlatPrefix(calls: seq<seq<Event>>, c: nat)
    requires c <= |calls|
    ensures Flat(calls[..c]) <= Flat(calls)
    decreases |calls|
  {
    if c < |calls| {
      FlatPrefix(calls[..|calls| - 1], c);
      assert calls[..|calls| - 1][..c] == calls[..c];
    } else {
      assert calls[..c] == calls;
    }
  }

  /** What a receiver gets as datagram number |calls| - 1: the untouched buffer, or a packet whose samples are
      the byte-swapped words of exactly one whole block of the SPI stream. */
  ghost predicate CarriesBlock(sent: seq<byte>, init: seq<byte>, calls: seq<seq<Event>>, nsamp: nat, fifo: seq<word>)
    requires WellShaped(calls, nsamp) && PacketLen(nsamp) <= |init|
  {
    var j := LastFresh(calls);
    if j >= 0 then
      SizedNewest(calls[j], nsamp);
      Carries(sent, j % HALF_SPAN, Newest(calls[j]).block, nsamp, fifo)
    else sent == init[..PacketLen(nsamp)]
  }

  /** End to end: every datagram is either the untouched buffer or a packet whose samples are the byte-swapped
      words of exactly one whole block of the SPI stream. */
  lemma DatagramIsBlock(init: seq<byte>, calls: seq<seq<Event>>, nsamp: nat, fifo: seq<word>, clock: seq<word>)
    requires WellShaped(calls, nsamp) && nsamp <= MAX_SAMPS && PacketLen(nsamp) <= |init|
    requires Faithful(Flat(calls), nsamp, fifo, clock)
    ensures CarriesBlock(Datagram(init, calls, nsamp), init, calls, nsamp, fifo)
  {
    hide WellFormed, Swapped, Datagram;
    SerialHistory(init, calls, nsamp);
    var j := LastFresh(calls);
    if j >= 0 {
      var e := Newest(calls[j]);
      SizedNewest(calls[j], nsamp);
      InFlat(calls, j, e);
      var i :| 0 <= i < |Flat(calls)| && Flat(calls)[i] == e;
      assert IsBlock(Flat(calls)[i], nsamp, fifo, clock);
    }
  }

  /** Two calls in a row without an overrun: the newest blocks are as many apart as the second call took. */
  lemma NewestBlocks(calls: seq<seq<Event>>, nsamp: nat, base: nat)
    requires WellShaped(calls, nsamp) && |calls| >= 2 && Tiles(Flat(calls), base)
    requires forall e | e in calls[|calls| - 2] + calls[|calls| - 1] :: e.Took?
    ensures var a, b := calls[|calls| - 2], calls[|calls| - 1];
            Fresh(a) && Fresh(b) && Newest(b).block == Newest(a).block + |b|
  {
    var front, a, b := calls[..|calls| - 2], calls[|calls| - 2], calls[|calls| - 1];
    var prev := calls[..|calls| - 1];
    assert prev != [] && prev[..|prev| - 1] == front && prev[|prev| - 1] == a;
    var h, n := Flat(calls), |Flat(front)|;
    assert Flat(prev) == Flat(front) + a;
    assert h == Flat(prev) + b;
    assert a[|a| - 1] in a + b && b[|b| - 1] in a + b && b[0] in a + b;
    assert h[n + |a| - 1] == a[|a| - 1] && h[n + |a|] == b[0] && h[n + |a| + |b| - 1] == b[|b| - 1];
    assert Lo(h[n + |a|]) == Hi(h[n + |a| - 1]);
    assert Lo(h[n + |a| + |b| - 1]) == Hi(h[n + |a| + |b| - 2]);
  }

  /** Two calls in a row without an overrun: their datagrams carry serial numbers that follow each other, and
      whole blocks that do so exactly when the second call took one block. When it took two, the first of them
      is never sent, and the serial numbers do not show it. */
  lemma SkippedBlock(init: seq<byte>, calls: seq<seq<Event>>, nsamp: nat, base: nat, fifo: seq<word>, clock: seq<word>)
    returns (k: nat)
    requires WellShaped(calls, nsamp) && |calls| >= 2 && nsamp <= MAX_SAMPS && PacketLen(nsamp) <= |init|
    requires Tiles(Flat(calls), base) && Faithful(Flat(calls), nsamp, fifo, clock)
    requires forall e | e in calls[|calls| - 2] + calls[|calls| - 1] :: e.Took?
    ensures var c := |calls| - 1;
            && Carries(Datagram(init, calls[..c], nsamp), (c - 1) % HALF_SPAN, k, nsamp, fifo)
            && Carries(Datagram(init, calls, nsamp), c % HALF_SPAN, k + |calls[c]|, nsamp, fifo)
  {
    hide Datagram, Carries, Tiles, Flat, Faithful;
    var c := |calls| - 1;
    var front := calls[..c];
    NewestBlocks(calls, nsamp, base);
    FlatPrefix(calls, c);
    FaithfulPrefix(Flat(front), Flat(calls), nsamp, fifo, clock);
    assert front[|front| - 1] == calls[c - 1];
    LastCarries(init, front, nsamp, fifo, clock);
    LastCarries(init, calls, nsamp, fifo, clock);
    k := Newest(calls[c - 1]).block;
  }

  /** The datagram carries block k, whole, under this serial number. */
  ghost predicate Carries(sent: seq<byte>, serial: u16, k: nat, nsamp: nat, fifo: seq<word>) {
    && 0 <= k * nsamp <= (k + 1) * nsamp <= |fifo|
    && WellFormed(sent, serial, Swapped(fifo[k * nsamp..(k + 1) * nsamp]))
  }

  lemma LastCarries(init: seq<byte>, calls: seq<seq<Event>>, nsamp: nat, fifo: seq<word>, clock: seq<word>)
    requires WellShaped(calls, nsamp) && calls != [] && nsamp <= MAX_SAMPS && PacketLen(nsamp) <= |init|
    requires Faithful(Flat(calls), nsamp, fifo, clock) && Fresh(calls[|calls| - 1])
    ensures var c := |calls| - 1;
            Carries(Datagram(init, calls, nsamp), c % HALF_SPAN, Newest(calls[c]).block, nsamp, fifo)
  {
    hide WellFormed, Swapped, Datagram, Flat, Faithful;
    DatagramIsBlock(init, calls, nsamp, fifo, clock);
    SizedNewest(calls[|calls| - 1], nsamp);
  }

  /** Datagram number c is what is sent after call number c. */
  ghost predicate AllSent(init: seq<byte>, calls: seq<seq<Event>>, nsamp: nat, sent: seq<seq<byte>>) {
    && nsamp <= MAX_SAMPS && PacketLen(nsamp) <= |init| && WellShaped(calls, nsamp) && |sent| == |calls|
    && forall c | 0 <= c < |calls| :: sent[c] == Datagram(init, UpTo(calls, c), nsamp)
  }

  /** Every datagram carries one whole block, or is the untouched buffer. */
  ghost predicate AllWhole(init: seq<byte>, calls: seq<seq<Event>>, nsamp: nat, sent: seq<seq<byte>>, fifo: seq<word>) {
    && PacketLen(nsamp) <= |init| && WellShaped(calls, nsamp) && |sent| == |calls|
    && forall c | 0 <= c < |calls| :: CarriesBlock(sent[c], init, UpTo(calls, c), nsamp, fifo)
  }

  /** Datagram number c carries block number c, whole. */
  ghost predicate AllOwn(nsamp: nat, sent: seq<seq<byte>>, fifo: seq<word>) {
    forall c | 0 <= c < |sent| :: Carries(sent[c], c % HALF_SPAN, c, nsamp, fifo)
  }

  lemma NoCalls(init: seq<byte>, nsamp: nat)
    requires nsamp <= MAX_SAMPS && PacketLen(nsamp) <= |init|
    ensures AllSent(init, [], nsamp, []) && BufferAfter(init, [], nsamp) == init && Flat([]) == [] && InStep([])
    ensures SinceOverrun([]) == OverrunCount([]) == 0
  {
  }

  /** One more call: the buffer, the datagrams, and the events all together. */
  lemma OneMoreCall(init: seq<byte>, before: seq<seq<Event>>, events: seq<Event>, nsamp: nat, sent: seq<seq<byte>>,
                    vals: seq<byte>)
    requires AllSent(init, before, nsamp, sent) && CallShape(events) && Sized(events, nsamp)
    requires vals == Delivered(Framed, BufferAfter(init, before, nsamp), events, nsamp, |before|)
    ensures AllSent(init, before + [events], nsamp, sent + [vals[..PacketLen(nsamp)]])
    ensures vals == BufferAfter(init, before + [events], nsamp) && Flat(before + [events]) == Flat(before) + events
  {
    hide WellShaped, BufferAfter, Flat, UpTo, CallShape, Sized, Delivered;
    OneMoreShape(before, events, nsamp);
    OneMoreBuffer(init, before, events, nsamp);
    var calls, sent' := before + [events], sent + [vals[..PacketLen(nsamp)]];
    forall c | 0 <= c < |calls|
      ensures WellShaped(UpTo(calls, c), nsamp) && sent'[c] == Datagram(init, UpTo(calls, c), nsamp)
    {
      OneMorePrefix(before, events, c);
      PrefixShaped(calls, c, nsamp);
    }
  }

  lemma ShapedIfSent(init: seq<byte>, calls: seq<seq<Event>>, nsamp: nat, sent: seq<seq<byte>>)
    requires AllSent(init, calls, nsamp, sent)
    ensures WellShaped(calls, nsamp) && |sent| == |calls|
  {
  }

  lemma PrefixShaped(calls: seq<seq<Event>>, c: nat, nsamp: nat)
    requires WellShaped(calls, nsamp) && c < |calls|
    ensures WellShaped(UpTo(calls, c), nsamp)
  {
  }

  /** One more call, whose events are `events`. */
  lemma OneMoreShape(before: seq<seq<Event>>, events: seq<Event>, nsamp: nat)
    requires WellShaped(before, nsamp) && CallShape(events) && Sized(events, nsamp)
    ensures WellShaped(before + [events], nsamp) && Flat(before + [events]) == Flat(before) + events
  {
    hide CallShape, Sized;
    var calls := before + [events];
    assert calls[..|before|] == before && calls[|before|] == events;
    forall c | 0 <= c < |calls|
      ensures CallShape(calls[c]) && Sized(calls[c], nsamp)
    {
      if c < |before| { assert calls[c] == before[c]; }
    }
  }

  lemma OneMoreBuffer(init: seq<byte>, before: seq<seq<Event>>, events: seq<Event>, nsamp: nat)
    requires WellShaped(before, nsamp) && WellShaped(before + [events], nsamp) && Sized(events, nsamp)
    requires nsamp <= MAX_SAMPS && PacketLen(nsamp) <= |init|
    ensures BufferAfter(init, before + [events], nsamp) ==
            Delivered(Framed, BufferAfter(init, before, nsamp), events, nsamp, |before|)
  {
    hide Delivered, CallShape, Sized;
    assert (before + [events])[..|before|] == before;
  }

  lemma OneMorePrefix(before: seq<seq<Event>>, events: seq<Event>, c: nat)
    requires c <= |before|
    ensures UpTo(before + [events], c) == if c < |before| then UpTo(before, c) else before + [events]
  {
  }

  lemma SentWhole(init: seq<byte>, calls: seq<seq<Event>>, nsamp: nat, sent: seq<seq<byte>>,
                  fifo: seq<word>, clock: seq<word>)
    requires AllSent(init, calls, nsamp, sent) && Faithful(Flat(calls), nsamp, fifo, clock)
    ensures AllWhole(init, calls, nsamp, sent, fifo)
  {
    hide CarriesBlock, Datagram, CallShape, Sized;
    forall c | 0 <= c < |calls|
      ensures CarriesBlock(sent[c], init, UpTo(calls, c), nsamp, fifo)
    {
      FlatPrefix(calls, c + 1);
      FaithfulPrefix(Flat(calls[..c + 1]), Flat(calls), nsamp, fifo, clock);
      DatagramIsBlock(init, calls[..c + 1], nsamp, fifo, clock);
    }
  }

  // ----- One block for each call -----

  /** Call number c took block c and nothing else. */
  ghost predicate InStep(calls: seq<seq<Event>>) {
    forall c | 0 <= c < |calls| :: |calls[c]| == 1 && calls[c][0].Took? && calls[c][0].block == c
  }

  lemma NextInStep(before: seq<seq<Event>>, events: seq<Event>, h: seq<Event>, base: nat)
    requires InStep(before) && |events| == 1 && events[0].Took? && Tiles(h + events, base) && base == |before| + 1
    ensures InStep(before + [events]) && OverrunCount(h + events) == OverrunCount(h)
  {
    assert events == [events[0]];
    Append(h, events[0]);
    assert (h + events)[|h + events| - 1] == events[0];
  }

  lemma SentInStep(init: seq<byte>, calls: seq<seq<Event>>, nsamp: nat, sent: seq<seq<byte>>, fifo: seq<word>)
    requires AllWhole(init, calls, nsamp, sent, fifo) && InStep(calls)
    ensures AllOwn(nsamp, sent, fifo)
  {
    hide WellFormed, Swapped;
    forall c | 0 <= c < |calls|
      ensures Carries(sent[c], c % HALF_SPAN, c, nsamp, fifo)
    {
      var upTo := UpTo(calls, c);
      assert upTo[|upTo| - 1] == calls[c] && Fresh(calls[c]) by { assert calls[c][0].Took?; }
      assert LastFresh(upTo) == c && Newest(upTo[c]) == calls[c][0];
      assert CarriesBlock(sent[c], init, upTo, nsamp, fifo);
    }
  }

  lemma FaithfulPrefix(g: seq<Event>, h: seq<Event>, nsamp: nat, fifo: seq<word>, clock: seq<word>)
    requires g <= h && Faithful(h, nsamp, fifo, clock)
    ensures Faithful(g, nsamp, fifo, clock)
  {
    forall i | 0 <= i < |g| && g[i].Took?
      ensures IsBlock(g[i], nsamp, fifo, clock)
    {
      assert g[i] == h[i];
    }
  }
}
