/** The DMA as the environment of the polling program: what its channels do before each access of the program to
    the shared memory and during each sleep. A schedule is an input; nothing is assumed about it unless said. */
module Schedules {
  import opened Layout
  import opened DmaEngine
  import opened DmaProgram
  import opened DmaRuns

  datatype Schedule = Schedule(gap: nat -> seq<Action>, nap: nat -> seq<Action>)

  /** The steps as they can happen: a copy of the SPI status is never zero. */
  function Admitted(s: State, acts: seq<Action>): (r: seq<Action>)
    ensures Feasible(s, r) && RxActions(r) == RxActions(acts)
    decreases |acts|
  {
    if acts == [] then []
    else
      var a := if Possible(s, acts[0]) then acts[0] else acts[0].(input := 1);
      [a] + Admitted(Step(s, a.chan, a.input), acts[1..])
  }

  /** Every feasible run is admitted as it is. */
  lemma {:induction false} AdmittedFeasible(s: State, acts: seq<Action>)
    requires Feasible(s, acts)
    ensures Admitted(s, acts) == acts
    decreases |acts|
  {
    if acts != [] {
      AdmittedFeasible(Step(s, acts[0].chan, acts[0].input), acts[1..]);
    }
  }

  /** Receive steps before the first t accesses. */
  function GapSteps(env: Schedule, t: nat): nat {
    if t == 0 then 0 else GapSteps(env, t - 1) + RxActions(env.gap(t - 1))
  }

  /** Receive steps during the first z sleeps. */
  function NapSteps(env: Schedule, z: nat): nat {
    if z == 0 then 0 else NapSteps(env, z - 1) + RxActions(env.nap(z - 1))
  }

  lemma {:induction false} GapsGrow(env: Schedule, t: nat, u: nat)
    requires t <= u
    ensures GapSteps(env, t) <= GapSteps(env, u)
    decreases u
  {
    if t < u {
      GapsGrow(env, t, u - 1);
    }
  }

  // ----- Blocks as a function of steps -----

  /** Blocks that the receive channel has completed after a number of its own steps. */
  function Blocks(cfg: Config, steps: int): nat {
    if steps < 0 then 0 else (Budget(cfg, steps) + 1) / (cfg.nsamp + 5)
  }

  lemma BlocksGrow(cfg: Config, x: int, y: int)
    requires x <= y
    ensures Blocks(cfg, x) <= Blocks(cfg, y)
  {
    if x >= 0 {
      Divisions(Budget(cfg, x) + 1, Budget(cfg, y) + 1, cfg.nsamp + 5);
    }
  }

  lemma Divisions(a: nat, b: nat, d: nat)
    requires a <= b && d > 0
    ensures a / d <= b / d
    ensures b <= a + d ==> b / d <= a / d + 1
  {
    Around(a, d);
    Around(b, d);
    Ordered(a, b, d, a / d, b / d);
  }

  lemma Around(a: nat, d: nat)
    requires d > 0
    ensures d * (a / d) <= a < d * (a / d) + d
  {
    assert a == d * (a / d) + a % d;
  }

  lemma Ordered(a: nat, b: nat, d: nat, p: nat, q: nat)
    requires a <= b && d > 0 && d * p <= a < d * p + d && d * q <= b < d * q + d
    ensures p <= q && (b <= a + d ==> q <= p + 1)
  {
    Scale(d, q + 1, p);
    Scale(d, q, q);
    Scale(d, p + 2, q);
    Scale(d, p + 1, p + 1);
    Scale(d, p, p);
  }

  lemma Scale(d: nat, x: nat, y: nat)
    ensures x <= y ==> d * x <= d * y
    ensures d * (x + 1) == d * x + d
  {
  }

  /** No more steps than one block takes complete no more than one block. */
  lemma OneBlockMore(cfg: Config, x: int, y: int)
    requires 0 <= x <= y <= x + cfg.nsamp + 5
    ensures Blocks(cfg, y) <= Blocks(cfg, x) + 1
  {
    Divisions(Budget(cfg, x) + 1, Budget(cfg, y) + 1, cfg.nsamp + 5);
  }

  /** The blocks completed are exactly those that the channel's steps make. */
  lemma StepsMakeBlocks(cfg: Config, s: State, steps: int)
    requires Inv(cfg, s) && steps >= 0 && Advanced(cfg, s, Budget(cfg, steps))
    ensures Completed(s) == Blocks(cfg, steps)
  {
    hide Inv, Advanced;
    BlocksOfSteps(cfg, s, Budget(cfg, steps));
    Quotient(Budget(cfg, steps) + 1, cfg.nsamp + 5, Completed(s));
  }

  lemma Quotient(a: nat, d: nat, q: nat)
    requires d > 0 && q * d <= a < (q + 1) * d
    ensures a / d == q
  {
    Around(a, d);
    Commute(q, d);
    Same(a, d, a / d, q);
  }

  lemma Commute(q: nat, d: nat)
    ensures q * d == d * q && (q + 1) * d == d * q + d
  {
  }

  lemma Same(a: nat, d: nat, p: nat, q: nat)
    requires d > 0 && d * p <= a < d * p + d && d * q <= a < d * q + d
    ensures p == q
  {
    Ordered(a, a, d, p, q);
    Ordered(a, a, d, q, p);
  }

  /** Every run advances the receive channel by its own steps, wherever it was. */
  lemma RunAdvances(cfg: Config, s: State, acts: seq<Action>, steps: int)
    requires Inv(cfg, s) && Feasible(s, acts) && steps >= 0 && Advanced(cfg, s, Budget(cfg, steps))
    ensures Advanced(cfg, Run(s, acts), Budget(cfg, steps + RxActions(acts)))
  {
    hide Inv, Advanced, Run, Feasible;
    RxCycles(cfg, s, acts, Budget(cfg, steps));
  }

  lemma StepsToBlock(cfg: Config, steps: int)
    requires steps >= 0 && !cfg.single
    ensures steps < (Blocks(cfg, steps) + 1) * (cfg.nsamp + 5)
  {
    Around(steps + 1, cfg.nsamp + 5);
    Commute(Blocks(cfg, steps), cfg.nsamp + 5);
  }

  // ----- Conditions on schedules -----

  /** No more than one block's steps before any of the first u accesses of the program. */
  ghost predicate SteadyUpTo(cfg: Config, env: Schedule, u: nat) {
    forall t: nat | t < u :: RxActions(env.gap(t)) <= cfg.nsamp + 5
  }

  /** The same for all accesses. */
  ghost predicate Steady(cfg: Config, env: Schedule) {
    forall u: nat :: SteadyUpTo(cfg, env, u)
  }

  lemma NextSteady(cfg: Config, env: Schedule, u: nat)
    ensures SteadyUpTo(cfg, env, u + 1) <==> SteadyUpTo(cfg, env, u) && RxActions(env.gap(u)) <= cfg.nsamp + 5
  {
  }

  /** The receive channel gets on during every sleep. */
  ghost predicate Lively(env: Schedule) {
    forall z: nat :: RxActions(env.nap(z)) >= 1
  }

  lemma SleepOn(env: Schedule, z: nat)
    requires Lively(env)
    ensures NapSteps(env, z + 1) >= NapSteps(env, z) + 1
  {
    assert RxActions(env.nap(z)) >= 1;
  }

  /** Accesses of one pass that takes one block: it looks at both flags, copies the words of the block, reads
      its time stamp and the other flag, and clears a flag. */
  function PassLen(cfg: Config): nat { cfg.nsamp + 5 }

  /** No more than one block's steps during two passes and a sleep. */
  ghost predicate Quick(cfg: Config, env: Schedule) {
    forall t: nat, z: nat ::
      GapSteps(env, t + 2 * PassLen(cfg)) + RxActions(env.nap(z)) <= GapSteps(env, t) + cfg.nsamp + 5
  }

  lemma QuickIsSteady(cfg: Config, env: Schedule)
    requires Quick(cfg, env)
    ensures Steady(cfg, env)
  {
    forall u: nat
      ensures SteadyUpTo(cfg, env, u)
    {
      forall t: nat | t < u
        ensures RxActions(env.gap(t)) <= cfg.nsamp + 5
      {
        GapsGrow(env, t + 1, t + 2 * PassLen(cfg));
        assert GapSteps(env, t + 2 * PassLen(cfg)) + RxActions(env.nap(0)) <= GapSteps(env, t) + cfg.nsamp + 5;
      }
    }
  }
}
