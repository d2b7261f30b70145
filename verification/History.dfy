/** What the consumer has done with the blocks: each block taken, or lost in an announced overrun. */
module History {
  import opened Words

  /** A block taken with its samples and time stamp, or blocks [lo, hi) discarded by an overrun. */
  datatype Event = Took(block: nat, words: seq<word>, usec: word) | Overrun(lo: nat, hi: nat)

  function Lo(e: Event): nat { if e.Took? then e.block else e.lo }

  function Hi(e: Event): nat { if e.Took? then e.block + 1 else e.hi }

  /** The events account for the blocks 0..base, one after the other; an overrun is at least two blocks. */
  ghost predicate Tiles(h: seq<Event>, base: nat) {
    && (forall i | 0 <= i < |h| && h[i].Overrun? :: h[i].lo + 2 <= h[i].hi)
    && (if h == [] then base == 0 else Lo(h[0]) == 0 && Hi(h[|h| - 1]) == base)
    && (forall i | 0 < i < |h| :: Lo(h[i]) == Hi(h[i - 1]))
  }

  /** Every block taken is exactly that block of the two streams. */
  ghost predicate Faithful(h: seq<Event>, nsamp: nat, fifo: seq<word>, clock: seq<word>) {
    forall i | 0 <= i < |h| && h[i].Took? :: IsBlock(h[i], nsamp, fifo, clock)
  }

  ghost predicate IsBlock(e: Event, nsamp: nat, fifo: seq<word>, clock: seq<word>)
    requires e.Took?
  {
    && 0 <= e.block * nsamp <= (e.block + 1) * nsamp <= |fifo| && e.block < |clock|
    && e.words == fifo[e.block * nsamp..(e.block + 1) * nsamp]
    && e.usec == clock[e.block]
  }

  function TookCount(h: seq<Event>): nat {
    if h == [] then 0 else TookCount(h[..|h| - 1]) + if h[|h| - 1].Took? then 1 else 0
  }

  function OverrunCount(h: seq<Event>): nat {
    if h == [] then 0 else OverrunCount(h[..|h| - 1]) + if h[|h| - 1].Overrun? then 1 else 0
  }

  /** Blocks discarded by overruns. */
  function LostCount(h: seq<Event>): int {
    if h == [] then 0
    else LostCount(h[..|h| - 1]) + if h[|h| - 1].Overrun? then h[|h| - 1].hi - h[|h| - 1].lo else 0
  }

  /** Blocks taken since the last overrun. */
  function SinceOverrun(h: seq<Event>): nat {
    if h == [] || h[|h| - 1].Overrun? then 0 else SinceOverrun(h[..|h| - 1]) + 1
  }

  /** The first time stamp that is not zero, or zero. */
  function FirstStamp(h: seq<Event>): word {
    if h == [] then 0
    else
      var first := FirstStamp(h[..|h| - 1]);
      if first != 0 then first else if h[|h| - 1].Took? then h[|h| - 1].usec else 0
  }

  lemma Append(h: seq<Event>, e: Event)
    ensures TookCount(h + [e]) == TookCount(h) + if e.Took? then 1 else 0
    ensures OverrunCount(h + [e]) == OverrunCount(h) + if e.Overrun? then 1 else 0
    ensures SinceOverrun(h + [e]) == if e.Overrun? then 0 else SinceOverrun(h) + 1
    ensures FirstStamp(h + [e]) == if FirstStamp(h) == 0 && e.Took? then e.usec else FirstStamp(h)
  {
    assert (h + [e])[..|h|] == h;
  }

  lemma Extend(h: seq<Event>, e: Event, base: nat)
    requires Tiles(h, base) && Lo(e) == base && (e.Overrun? ==> e.lo + 2 <= e.hi)
    ensures Tiles(h + [e], Hi(e))
  {
  }

  lemma FaithfulLater(h: seq<Event>, nsamp: nat, fifo: seq<word>, clock: seq<word>, fifo': seq<word>, clock': seq<word>)
    requires Faithful(h, nsamp, fifo, clock) && fifo <= fifo' && clock <= clock'
    ensures Faithful(h, nsamp, fifo', clock')
  {
    forall i | 0 <= i < |h| && h[i].Took?
      ensures IsBlock(h[i], nsamp, fifo', clock')
    {
      var a, b := h[i].block * nsamp, (h[i].block + 1) * nsamp;
      assert IsBlock(h[i], nsamp, fifo, clock);
      assert fifo[a..b] == fifo'[a..b];
    }
  }

  // ----- Consequences -----

  lemma TilesPrefix(h: seq<Event>, base: nat)
    requires Tiles(h, base) && h != []
    ensures Tiles(h[..|h| - 1], Lo(h[|h| - 1]))
  {
  }

  /** More events, later blocks. */
  lemma {:induction false} TilesGrow(h: seq<Event>, events: seq<Event>, base: nat, base': nat)
    requires Tiles(h, base) && Tiles(h + events, base')
    ensures base <= base'
    ensures events != [] ==> base <= Lo(events[|events| - 1]) < Hi(events[|events| - 1]) == base'
    decreases |events|
  {
    var all := h + events;
    if events == [] {
      assert all == h;
    } else {
      var front, last := events[..|events| - 1], events[|events| - 1];
      assert all[|all| - 1] == last && all[..|all| - 1] == h + front;
      TilesPrefix(all, base');
      TilesGrow(h, front, base, Lo(last));
    }
  }

  /** Later events are about later blocks: nothing is taken twice or out of order. */
  lemma {:induction false} InOrder(h: seq<Event>, base: nat, i: nat, j: nat)
    requires Tiles(h, base) && i < j < |h|
    ensures Hi(h[i]) <= Lo(h[j])
    decreases j
  {
    if i + 1 < j {
      InOrder(h, base, i, j - 1);
    }
    assert Lo(h[j]) == Hi(h[j - 1]);
  }

  /** No silent loss: between two blocks taken with no overrun in between, every block was taken. */
  lemma {:induction false} NoSilentLoss(h: seq<Event>, base: nat, i: nat, j: nat)
    requires Tiles(h, base) && i <= j < |h| && h[i].Took? && h[j].Took?
    requires OverrunCount(h[..j]) == OverrunCount(h[..i])
    ensures h[j].block - h[i].block == j - i
    decreases j
  {
    if i < j {
      OverrunsGrow(h, i, j - 1);
      assert h[..j][..j - 1] == h[..j - 1];
      OverrunsGrow(h, i + 1, j);
      NoSilentLoss(h, base, i, j - 1);
      assert Lo(h[j]) == Hi(h[j - 1]);
    }
  }

  lemma {:induction false} OverrunsGrow(h: seq<Event>, i: nat, j: nat)
    requires i <= j <= |h|
    ensures OverrunCount(h[..i]) <= OverrunCount(h[..j])
    decreases j
  {
    if i < j {
      assert h[..j][..j - 1] == h[..j - 1];
      OverrunsGrow(h, i, j - 1);
    }
  }

  /** Every block up to `base` is accounted for by exactly one event. */
  lemma {:induction false} ExactlyOnce(h: seq<Event>, base: nat, k: nat)
    requires Tiles(h, base) && k < base
    ensures exists i :: 0 <= i < |h| && Lo(h[i]) <= k < Hi(h[i])
    ensures forall i, j | 0 <= i < |h| && 0 <= j < |h| && Lo(h[i]) <= k < Hi(h[i]) && Lo(h[j]) <= k < Hi(h[j]) :: i == j
    decreases |h|
  {
    var last := h[|h| - 1];
    if Lo(last) <= k {
      assert Lo(h[|h| - 1]) <= k < Hi(h[|h| - 1]);
    } else {
      TilesPrefix(h, base);
      ExactlyOnce(h[..|h| - 1], Lo(last), k);
      var i :| 0 <= i < |h| - 1 && Lo(h[..|h| - 1][i]) <= k < Hi(h[..|h| - 1][i]);
      assert Lo(h[i]) <= k < Hi(h[i]);
    }
    forall i, j | 0 <= i < |h| && 0 <= j < |h| && Lo(h[i]) <= k < Hi(h[i]) && Lo(h[j]) <= k < Hi(h[j])
      ensures i == j
    {
      if i < j { InOrder(h, base, i, j); }
      if j < i { InOrder(h, base, j, i); }
    }
  }

  /** Conservation: blocks taken and blocks discarded add up, and every overrun discards two or more. */
  lemma {:induction false} Accounts(h: seq<Event>, base: nat)
    requires Tiles(h, base)
    ensures base == TookCount(h) + LostCount(h)
    ensures LostCount(h) >= 2 * OverrunCount(h)
    decreases |h|
  {
    if h != [] {
      TilesPrefix(h, base);
      Accounts(h[..|h| - 1], Lo(h[|h| - 1]));
    }
  }

  // ----- The counters -----

  /** samp_total: nsamp for every block taken and for every overrun, in 32 bits. */
  ghost function SampTotal(nsamp: nat, h: seq<Event>): word { Wrap(nsamp * (TookCount(h) + OverrunCount(h))) }

  lemma CountEvent(nsamp: nat, h: seq<Event>, e: Event)
    ensures SampTotal(nsamp, h + [e]) == Wrap(SampTotal(nsamp, h) + nsamp)
    ensures Wrap(OverrunCount(h + [e])) == if e.Overrun? then Wrap(Wrap(OverrunCount(h)) + 1) else Wrap(OverrunCount(h))
    ensures FirstStamp(h + [e]) == if FirstStamp(h) == 0 && e.Took? then e.usec else FirstStamp(h)
  {
    hide Wrap, TookCount, OverrunCount, FirstStamp;
    Append(h, e);
    CountSamples(nsamp, TookCount(h) + OverrunCount(h));
    WrapAdd(OverrunCount(h), 1);
  }

  lemma CountSamples(nsamp: nat, x: nat)
    ensures Wrap(nsamp * (x + 1)) == Wrap(Wrap(nsamp * x) + nsamp)
  {
    hide Wrap;
    assert nsamp * (x + 1) == nsamp * x + nsamp;
    WrapAdd(nsamp * x, nsamp);
  }
}
