/** How long an object can stay young. */
module Promotion {
  import opened Pages
  import opened Objects
  import opened Following
  import opened RootReach
  import opened Remembered
  import opened Cycles
  import opened Runs
  import opened RunCollections
  import opened SystemRuns

  /** The counters as every collection leaves them. */
  predicate Bounded(minors: nat, promotes: nat) {
    minors < G0_PROMOTION_THRESHOLD && promotes < G1_PROMOTION_THRESHOLD
  }

  /** How many minor collections away the next promotion to Tenured is. */
  function Due(minors: nat, promotes: nat): nat
    requires Bounded(minors, promotes)
  {
    (G0_PROMOTION_THRESHOLD - minors) + G0_PROMOTION_THRESHOLD * (G1_PROMOTION_THRESHOLD - 1 - promotes)
  }

  /** The counters stay bounded, and each minor collection brings the promotion to
      Tenured one nearer, until it happens. */
  lemma PlanCountsDown(minors: nat, promotes: nat)
    requires Bounded(minors, promotes)
    ensures var plan := PlanMinor(minors, promotes);
      && Bounded(plan.minors, plan.promotes)
      && 1 <= Due(minors, promotes) <= G0_PROMOTION_THRESHOLD * G1_PROMOTION_THRESHOLD
      && (plan.promoteG1 <==> Due(minors, promotes) == 1)
      && (!plan.promoteG1 ==> Due(plan.minors, plan.promotes) == Due(minors, promotes) - 1)
      && (plan.promoteG0 <==> minors == G0_PROMOTION_THRESHOLD - 1)
  {
  }

  /** The object first at `cells[0]`, kept by every collection of the run and otherwise left where it is. */
  ghost predicate KeptAlive(cmds: seq<Command>, phis: seq<map<nat, nat>>, cells: seq<nat>)
    requires |phis| <= |cmds|
  {
    && |cells| == |phis| + 1
    && forall k | 0 <= k < |phis| ::
         if cmds[k].Collects() then cells[k] in phis[k] && cells[k + 1] == phis[k][cells[k]]
             else cells[k + 1] == cells[k]
  }

  /** How many of the first `n` commands are minor collections. */
  function MinorsIn(cmds: seq<Command>, n: nat): nat
    requires n <= |cmds|
  {
    if n == 0 then 0 else MinorsIn(cmds, n - 1) + if cmds[n - 1].Minor? then 1 else 0
  }

  /** The object is still one, and in Tenured or with its promotion nearer by every minor so far. */
  ghost predicate Nearer(first: Moment, m: Moment, c: nat, minors: nat) {
    && Bounded(first.counters.minors, first.counters.promotes) && Bounded(m.counters.minors, m.counters.promotes)
    && IsObj(m.v, c)
    && (GenAt(m.v, c) == Tenured
        || Due(m.counters.minors, m.counters.promotes) + minors == Due(first.counters.minors, first.counters.promotes))
  }

  lemma NearerStep(g: Geometry, first: Moment, a: Moment, cmd: Command, b: Moment, phi: map<nat, nat>, c: nat, c': nat,
                   minors: nat)
    requires StepOk(g, a, cmd, b, phi) && !cmd.Major? && !cmd.Full? && Nearer(first, a, c, minors)
    requires if cmd.Collects() then c in phi && c' == phi[c] else c' == c
    ensures Nearer(first, b, c', minors + if cmd.Minor? then 1 else 0)
  {
    hide PinsFollow, WordsKept, NoPages, Held, RootsHeld, ReachHeld, CardsTrue, SureReach, AddsOne, Ends, SlabsOk,
      CountAfter, Sound;
    PlanCountsDown(a.counters.minors, a.counters.promotes);
  }

  lemma {:induction false} NearerAlong(g: Geometry, cmds: seq<Command>, moments: seq<Moment>, phis: seq<map<nat, nat>>,
                                       cells: seq<nat>, n: nat)
    requires IsRun(g, cmds, moments, phis) && KeptAlive(cmds, phis, cells) && n <= |phis|
    requires forall k | 0 <= k < |phis| :: !cmds[k].Major? && !cmds[k].Full?
    requires Bounded(moments[0].counters.minors, moments[0].counters.promotes) && IsObj(moments[0].v, cells[0])
    ensures Nearer(moments[0], moments[n], cells[n], MinorsIn(cmds, n))
  {
    hide StepOk;
    if n > 0 {
      NearerAlong(g, cmds, moments, phis, cells, n - 1);
      NearerStep(g, moments[0], moments[n - 1], cmds[n - 1], moments[n], phis[n - 1], cells[n - 1], cells[n],
        MinorsIn(cmds, n - 1));
    }
  }

  /** From any counters a collection leaves, an object kept alive through fifteen minor collections is
      in Tenured at the end, whatever the mutators do between them. */
  lemma FifteenMinors(g: Geometry, cmds: seq<Command>, moments: seq<Moment>, phis: seq<map<nat, nat>>, cells: seq<nat>)
    requires IsRun(g, cmds, moments, phis) && KeptAlive(cmds, phis, cells)
    requires forall k | 0 <= k < |phis| :: !cmds[k].Major? && !cmds[k].Full?
    requires Bounded(moments[0].counters.minors, moments[0].counters.promotes) && IsObj(moments[0].v, cells[0])
    requires MinorsIn(cmds, |phis|) >= G0_PROMOTION_THRESHOLD * G1_PROMOTION_THRESHOLD
    ensures IsObj(moments[|phis|].v, cells[|phis|]) && GenAt(moments[|phis|].v, cells[|phis|]) == Tenured
  {
    hide StepOk;
    NearerAlong(g, cmds, moments, phis, cells, |phis|);
    PlanCountsDown(moments[0].counters.minors, moments[0].counters.promotes);
    PlanCountsDown(moments[|phis|].counters.minors, moments[|phis|].counters.promotes);
  }

  /** Unless a collection runs out of pages the counters stay bounded through any run, whatever collections it has,
      and each minor collection that brings the first of them to its threshold leaves G0 without a page. */
  lemma {:induction false} CountersBounded(g: Geometry, cmds: seq<Command>, moments: seq<Moment>,
                                           phis: seq<map<nat, nat>>, n: nat)
    requires IsRun(g, cmds, moments, phis) && n <= |phis|
    requires Bounded(moments[0].counters.minors, moments[0].counters.promotes)
    ensures !moments[n].poisoned ==> Bounded(moments[n].counters.minors, moments[n].counters.promotes)
    ensures (n < |phis| && !moments[n + 1].poisoned && cmds[n].Minor?
             && moments[n].counters.minors == G0_PROMOTION_THRESHOLD - 1) ==> NoPages(moments[n + 1].v.descs, G0)
  {
    if n > 0 && !moments[n].poisoned {
      if moments[n - 1].poisoned { PoisonLasts(g, cmds, moments, phis, n - 1, n); }
      CountersBounded(g, cmds, moments, phis, n - 1);
      CountersStep(g, cmds[n - 1], moments[n - 1], moments[n], phis[n - 1]);
    }
    if n < |phis| && !moments[n + 1].poisoned {
      if moments[n].poisoned { PoisonLasts(g, cmds, moments, phis, n, n + 1); }
      CountersStep(g, cmds[n], moments[n], moments[n + 1], phis[n]);
    }
  }

  lemma CountersStep(g: Geometry, cmd: Command, a: Moment, b: Moment, phi: map<nat, nat>)
    requires StepOk(g, a, cmd, b, phi) && Bounded(a.counters.minors, a.counters.promotes) && !a.poisoned && !b.poisoned
    ensures Bounded(b.counters.minors, b.counters.promotes)
    ensures cmd.Minor? && a.counters.minors == G0_PROMOTION_THRESHOLD - 1 ==> NoPages(b.v.descs, G0)
  {
    hide MutatorOk, Cycled, NoPages;
    PlanCountsDown(a.counters.minors, a.counters.promotes);
  }
}
