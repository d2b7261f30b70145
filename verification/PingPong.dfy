/** The arithmetic of the two ping-pong flags: which flags are set, given which blocks are still owed. */
module PingPong {
  /** A block of parity b (0 or 1) lies in [lo, hi). */
  predicate Done(lo: nat, hi: nat, b: nat) {
    lo < hi && (hi - lo >= 2 || lo % 2 == b)
  }

  lemma DoneJoin(lo: nat, mid: nat, hi: nat, b: nat)
    requires lo <= mid <= hi && b < 2
    ensures Done(lo, hi, b) == (Done(lo, mid, b) || Done(mid, hi, b))
  {
  }

  /** The flags f0, f1 say that exactly the blocks from `base` on, of k completed, are waiting. */
  predicate Owed(f0: bool, f1: bool, base: nat, k: nat) {
    base <= k && f0 == Done(base, k, 0) && f1 == Done(base, k, 1)
  }

  /** The flags can be read at all: if exactly one is set, it belongs to the last completed block. */
  predicate Readable(f0: bool, f1: bool, k: nat) {
    && (f0 && f1 ==> k >= 2)
    && (f0 != f1 ==> k >= 1 && f0 == ((k - 1) % 2 == 0))
  }

  /** Flags are readable exactly when some block number explains them as the first one still waiting. */
  lemma ReadableIff(f0: bool, f1: bool, k: nat)
    ensures Readable(f0, f1, k) <==> exists base :: Owed(f0, f1, base, k)
  {
    if Readable(f0, f1, k) {
      assert Owed(f0, f1, if f0 && f1 then k - 2 else if f0 || f1 then k - 1 else k, k);
    }
  }

  /** At most one block completes between the test of the other flag and the clearing of this one. */
  predicate ClearInTime(tested: nat, cleared: nat) { cleared <= tested + 1 }

  /** The one flag that is set, of block `base`, is cleared when `cleared` blocks are complete. The flags then
      tell which blocks are waiting exactly when the clearing was in time. When it was late, an odd number of
      completions still leaves readable flags, with blocks lost and no overrun seen; an even number does not. */
  lemma ClearOne(base: nat, cleared: nat)
    requires cleared >= base + 1
    ensures var f0, f1 := base % 2 != 0 && Done(base, cleared, 0), base % 2 != 1 && Done(base, cleared, 1);
            && (Owed(f0, f1, base + 1, cleared) <==> ClearInTime(base + 1, cleared))
            && (Readable(f0, f1, cleared) <==> ClearInTime(base + 1, cleared) || (cleared - base) % 2 == 0)
  {
  }

  /** Flag 1 is cleared first, flag 0 second. */
  predicate ResetInTime(cleared1: nat, cleared0: nat) { cleared0 <= cleared1 + 1 || cleared0 % 2 == 0 }

  /** The first block still waiting after an overrun reset. */
  function AfterReset(cleared1: nat, cleared0: nat): nat {
    if Done(cleared1, cleared0, 1) then cleared0 - 1 else cleared0
  }

  /** After an overrun reset, flag 1 is set exactly if a block of parity 1 completed between the two clearings.
      The flags can be read exactly when the reset was in time. */
  lemma ResetBoth(cleared1: nat, cleared0: nat)
    requires cleared1 <= cleared0
    ensures var f1 := Done(cleared1, cleared0, 1);
            && (Readable(false, f1, cleared0) <==> ResetInTime(cleared1, cleared0))
            && (Owed(false, f1, AfterReset(cleared1, cleared0), cleared0) <==> ResetInTime(cleared1, cleared0))
            && AfterReset(cleared1, cleared0) >= cleared1
  {
  }

  /** The numbers of completed blocks around one clearing of flags: when the other flag was tested and when
      this one was cleared, or when the two flags were cleared one after the other. */
  datatype Window = Clearing(tested: nat, cleared: nat) | Resetting(cleared1: nat, cleared0: nat)

  predicate InTime(w: Window) {
    match w
    case Clearing(tested, cleared) => ClearInTime(tested, cleared)
    case Resetting(cleared1, cleared0) => ResetInTime(cleared1, cleared0)
  }

  predicate AllInTime(ws: seq<Window>) { forall i | 0 <= i < |ws| :: InTime(ws[i]) }

  lemma OneMoreWindow(ws: seq<Window>, w: Window)
    ensures AllInTime(ws + [w]) <==> AllInTime(ws) && InTime(w)
  {
    assert (ws + [w])[|ws|] == w;
    assert forall i | 0 <= i < |ws| :: (ws + [w])[i] == ws[i];
  }
}
