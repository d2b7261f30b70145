/** Arithmetic of the set-up code: the SPI clock divider and the page sizes. */
module Setup {
  import opened Layout

  const MAX_SPI_FREQ := 20_000_000

  /** x & ~1 for x >= 0 */
  function EvenBelow(x: nat): nat { x - x % 2 }

  /** The divider that the search starts from. */
  function StartDiv(clock: nat, hz: nat): nat
    requires hz > 0
  {
    EvenBelow(clock / hz + 1)
  }

  /** The SPI frequency that a divider gives. */
  function Freq(clock: nat, div: nat): nat
    requires div > 0
  {
    clock / div
  }

  lemma SlowEnough(clock: nat, div: nat)
    requires div > 0 && Freq(clock, div) > MAX_SPI_FREQ
    ensures div < clock
  {
    assert clock >= div * Freq(clock, div) >= div * MAX_SPI_FREQ;
  }

  /** The even numbers not below the start are those not below the quotient. */
  lemma StartIs(clock: nat, hz: nat, d: nat)
    requires hz > 0
    ensures StartDiv(clock, hz) % 2 == 0
    ensures d % 2 == 0 ==> (d >= StartDiv(clock, hz) <==> d >= clock / hz)
  {
  }

  /** init_spi: the divider written to SPI_CLK and the frequency returned. The divider is the least even number, not
      zero, that is not below the quotient and keeps the frequency at 20 MHz or less. So the frequency is above the
      one asked for by less than the rounding of the divider can cause; and it is not lower than the next divider
      gives, unless the limits of the divider or of the frequency demand it. */
  method InitSpi(clock: nat, hz: nat) returns (f: nat, div: nat)
    requires hz > 0
    ensures div >= 2 && div % 2 == 0 && div >= clock / hz && f == clock / div <= 20_000_000
    ensures forall d: nat | 2 <= d < div && d % 2 == 0 && d >= clock / hz :: Freq(clock, d) > 20_000_000
    ensures f * (clock / hz) < (clock / hz + 1) * hz
    ensures clock < (f + 1) * (clock / hz + 1) || div == 2 || 20_000_000 * (div - 2) < clock
    ensures clock == 400_000_000 && hz == 1_000_000 ==> div == 400 && f == 1_000_000
  {
    hide StartDiv;
    StartIs(clock, hz, 0);
    div, f := SearchDiv(clock, StartDiv(clock, hz));
    forall d: nat | 2 <= d < div && d % 2 == 0 && d >= clock / hz
      ensures Freq(clock, d) > 20_000_000
    {
      StartIs(clock, hz, d);
    }
    StartIs(clock, hz, div);
    NotMuchFaster(clock, hz, div);
    NotMuchSlower(clock, clock / hz, div);
    Default(clock, hz, div);
  }

  /** The frequency that main asks for. */
  lemma Default(clock: nat, hz: nat, div: nat)
    requires hz > 0 && div >= 2 && div % 2 == 0 && div >= clock / hz
    requires forall d: nat | 2 <= d < div && d % 2 == 0 && d >= clock / hz :: Freq(clock, d) > 20_000_000
    ensures clock == 400_000_000 && hz == 1_000_000 ==> div == 400 && Freq(clock, div) == 1_000_000
  {
    assert Freq(400_000_000, 400) == 1_000_000;
  }

  /** The loop: up in steps of two while the divider is zero or too fast. */
  method SearchDiv(clock: nat, start: nat) returns (div: nat, f: nat)
    requires start % 2 == 0
    ensures div >= 2 && div % 2 == 0 && div >= start && f == Freq(clock, div) <= MAX_SPI_FREQ
    ensures forall d: nat | start <= d < div && d >= 2 && d % 2 == 0 :: Freq(clock, d) > MAX_SPI_FREQ
  {
    hide Freq;
    div, f := start, 0;
    while div == 0 || Freq(clock, div) > MAX_SPI_FREQ
      invariant div % 2 == 0 && div >= start
      invariant forall d: nat | start <= d < div && d >= 2 && d % 2 == 0 :: Freq(clock, d) > MAX_SPI_FREQ
      decreases clock + 2 - div
    {
      if div > 0 { SlowEnough(clock, div); }
      div := div + 2;
    }
    f := Freq(clock, div);
  }

  lemma NotMuchFaster(clock: nat, hz: nat, div: nat)
    requires hz > 0 && div > 0 && div >= clock / hz
    ensures Freq(clock, div) * (clock / hz) < (clock / hz + 1) * hz
  {
    var q, f := clock / hz, Freq(clock, div);
    assert clock == hz * q + clock % hz;
    assert clock == div * f + clock % div;
    Products(f, q, div);
    Distribute(q, hz);
  }

  lemma NotMuchSlower(clock: nat, q: nat, div: nat)
    requires div >= 2 && div % 2 == 0 && div >= q
    requires forall d: nat | 2 <= d < div && d % 2 == 0 && d >= q :: Freq(clock, d) > MAX_SPI_FREQ
    ensures clock < (Freq(clock, div) + 1) * (q + 1) || div == 2 || MAX_SPI_FREQ * (div - 2) < clock
  {
    if div <= q + 1 {
      var f := Freq(clock, div);
      assert clock == div * f + clock % div;
      Products(f + 1, div, q + 1);
    } else if div > 2 {
      var d: nat := div - 2;
      assert Freq(clock, d) > MAX_SPI_FREQ;
      assert clock == d * Freq(clock, d) + clock % d;
      Products(d, MAX_SPI_FREQ + 1, Freq(clock, d));
    }
  }

  lemma Products(f: nat, q: nat, div: nat)
    requires q <= div
    ensures f * q <= f * div == div * f
  {
  }

  lemma Distribute(q: nat, hz: nat)
    ensures (q + 1) * hz == hz * q + hz
  {
  }

  // ----- Pages -----

  /** PAGE_ROUNDUP, with & ~(PAGE_SIZE - 1) written as the remainder it removes. */
  function PageRoundup(n: nat): nat {
    if n % PAGE_SIZE == 0 then n else n + PAGE_SIZE - (n + PAGE_SIZE) % PAGE_SIZE
  }

  /** It is the least multiple of a page that is not below n. */
  lemma RoundupIsLeast(n: nat, m: nat)
    ensures PageRoundup(n) % 4096 == 0 && n <= PageRoundup(n) < n + 4096
    ensures m % 4096 == 0 && m >= n ==> m >= PageRoundup(n)
  {
    var q := n / PAGE_SIZE;
    assert (n + PAGE_SIZE) % PAGE_SIZE == n % PAGE_SIZE;
    if n % PAGE_SIZE != 0 {
      assert n + PAGE_SIZE - n % PAGE_SIZE == PAGE_SIZE * (q + 1);
    }
    if m % PAGE_SIZE == 0 && m >= n && n % PAGE_SIZE != 0 {
      assert m == PAGE_SIZE * (m / PAGE_SIZE) && m / PAGE_SIZE > q;
    }
  }

  /** n bytes as whole pages: the least multiple of a page that holds them. */
  ghost predicate WholePages(n: nat, size: nat) {
    size % 4096 == 0 && n <= size < n + 4096
  }

  lemma RoundupWhole(n: nat, size: nat)
    requires WholePages(n, size)
    ensures size == PageRoundup(n) && PageRoundup(size) == size
  {
    RoundupIsLeast(n, size);
    RoundupIsLeast(n, PageRoundup(n));
    Multiples(size, PageRoundup(n));
  }

  lemma Multiples(a: nat, b: nat)
    requires a % PAGE_SIZE == 0 && b % PAGE_SIZE == 0 && b <= a < b + PAGE_SIZE
    ensures a == b
  {
  }

  /** MEM_MAP: the size kept, and the sizes handed to the mailbox, to mmap and to munmap. */
  class MemMap {
    var size: nat
    var vcSize: nat
    var segSize: nat
    var freed: nat

    constructor ()
      ensures size == vcSize == segSize == freed == 0
    {
      size, vcSize, segSize, freed := 0, 0, 0, 0;
    }

    /** alloc_vc_mem */
    method AllocVcMem(n: nat)
      modifies this`vcSize
      ensures WholePages(n, vcSize)
    {
      RoundupIsLeast(n, n);
      vcSize := PageRoundup(n);
    }

    /** map_segment */
    method MapSegment(n: nat)
      modifies this`segSize
      ensures WholePages(n, segSize)
    {
      RoundupIsLeast(n, n);
      segSize := PageRoundup(n);
    }

    /** map_uncached_mem: what is allocated and what is mapped are the pages kept, however often they are
        rounded on the way. */
    method MapUncachedMem(n: nat)
      modifies this`size, this`vcSize, this`segSize
      ensures WholePages(n, size) && size == vcSize == segSize
    {
      RoundupIsLeast(n, n);
      size := PageRoundup(n);
      AllocVcMem(size);
      MapSegment(size);
      RoundupWhole(size, vcSize);
      RoundupWhole(size, segSize);
      RoundupWhole(n, size);
    }

    /** map_periph */
    method MapPeriph(n: nat)
      modifies this`size, this`segSize
      ensures WholePages(n, size) && size == segSize
    {
      RoundupIsLeast(n, n);
      size := PageRoundup(n);
      MapSegment(size);
      RoundupWhole(size, segSize);
      RoundupWhole(n, size);
    }

    /** unmap_segment, with the size kept: all of what was mapped is given back, and no more. */
    method UnmapSegment()
      requires size % PAGE_SIZE == 0
      modifies this`freed
      ensures freed == size
    {
      freed := PageRoundup(size);
    }
  }
}
