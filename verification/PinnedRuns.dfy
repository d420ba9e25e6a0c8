/** Pins over whole runs: what is pinned stays where it is, through every collection. */
module PinnedRuns {
  import opened Bits
  import opened Options
  import opened Pages
  import opened Objects
  import opened Graphs
  import opened Following
  import opened OldFields
  import opened Pins
  import opened Runs
  import opened RunCollections
  import opened SystemRuns

  // -- What is pinned -------------------------------------------------------

  /** `c` is held through command `k`: whatever else it may be, if that collects, `c` is pinned or
      a word of the stacks points to it. */
  predicate HeldAt(g: Geometry, cmds: seq<Command>, moments: seq<Moment>, k: nat, c: nat)
    requires k < |cmds| && k < |moments|
  {
    cmds[k].Collects() ==> c in Held(g, moments[k].v, moments[k].pins, cmds[k])
  }

  /** An object held through every collection from `i` to `j` has its address, its layout and every
      word that is no pointer, as long as none has run out of pages. */
  lemma {:induction false} PinsHold(g: Geometry, cmds: seq<Command>, moments: seq<Moment>, phis: seq<map<nat, nat>>,
                                    i: nat, j: nat, c: nat)
    requires IsRun(g, cmds, moments, phis) && i <= j < |moments| && Shaped(g, moments[i].v) && HeapOk(g, moments[i].v)
    requires IsObj(moments[i].v, c) && forall k | i <= k < j :: HeldAt(g, cmds, moments, k, c)
    requires !moments[j].poisoned
    ensures Shaped(g, moments[j].v) && SameShape(g, moments[i].v, moments[j].v, c, c)
  {
    if i == j {
      SameView(g, moments[i].v);
    } else {
      if moments[j - 1].poisoned { PoisonLasts(g, cmds, moments, phis, j - 1, j); }
      PinsHold(g, cmds, moments, phis, i, j - 1, c);
      assert HeldAt(g, cmds, moments, j - 1, c);
      HeldStep(g, cmds[j - 1], moments[j - 1], moments[j], phis[j - 1], c);
      ShapeTrans(g, moments[i].v, moments[j - 1].v, moments[j].v, c);
    }
  }

  lemma HeldStep(g: Geometry, cmd: Command, a: Moment, b: Moment, phi: map<nat, nat>, c: nat)
    requires StepOk(g, a, cmd, b, phi) && IsObj(a.v, c) && !a.poisoned && !b.poisoned
    requires cmd.Collects() ==> c in Held(g, a.v, a.pins, cmd)
    ensures SameShape(g, a.v, b.v, c, c)
  {
    hide SameShape;
  }

  lemma ShapeTrans(g: Geometry, u: View, v: View, w: View, c: nat)
    requires Shaped(g, u) && Shaped(g, v) && Shaped(g, w) && SameShape(g, u, v, c, c) && SameShape(g, v, w, c, c)
    ensures SameShape(g, u, w, c, c)
  {
  }

  /** How many of the commands from `i` to `j` unpin `c`. */
  function Unpins(cmds: seq<Command>, i: nat, j: nat, c: nat): nat
    requires i <= j <= |cmds|
  {
    if i == j then 0 else Unpins(cmds, i, j - 1, c) + if cmds[j - 1] == DoUnpin(Some(c)) then 1 else 0
  }

  lemma {:induction false} CountsLast(g: Geometry, cmds: seq<Command>, moments: seq<Moment>, phis: seq<map<nat, nat>>,
                                      i: nat, j: nat, c: nat)
    requires IsRun(g, cmds, moments, phis) && i <= j < |moments|
    ensures CountOf(moments[j].pins, c) + Unpins(cmds, i, j, c) >= CountOf(moments[i].pins, c)
  {
    hide StepOk;
    if i < j {
      CountsLast(g, cmds, moments, phis, i, j - 1, c);
      CountStep(g, cmds[j - 1], moments[j - 1], moments[j], phis[j - 1], c);
    }
  }

  lemma CountStep(g: Geometry, cmd: Command, a: Moment, b: Moment, phi: map<nat, nat>, c: nat)
    requires StepOk(g, a, cmd, b, phi)
    ensures CountOf(b.pins, c) == CountAfter(g, a, cmd, c)
  {
  }

  lemma UnpinsGrow(cmds: seq<Command>, i: nat, k: nat, j: nat, c: nat)
    requires i <= k <= j <= |cmds|
    ensures Unpins(cmds, i, k, c) <= Unpins(cmds, i, j, c)
    decreases j
  {
    if k < j { UnpinsGrow(cmds, i, k, j - 1, c); }
  }

  /** An object pinned more often than it is unpinned afterwards stays where it is, through every
      collection, whatever the mutators do in between, as long as no collection has run out of pages. */
  lemma PinnedUntilUnpinned(g: Geometry, cmds: seq<Command>, moments: seq<Moment>, phis: seq<map<nat, nat>>, i: nat,
                            j: nat, c: nat)
    requires IsRun(g, cmds, moments, phis) && i <= j < |moments| && Shaped(g, moments[i].v) && HeapOk(g, moments[i].v)
    requires IsObj(moments[i].v, c) && CountOf(moments[i].pins, c) > Unpins(cmds, i, j, c) && !moments[j].poisoned
    ensures Shaped(g, moments[j].v) && SameShape(g, moments[i].v, moments[j].v, c, c)
    ensures CountOf(moments[j].pins, c) >= 1
  {
    hide IsRun;
    assert |moments| == |phis| + 1 && |phis| <= |cmds| by { RunSizes(g, cmds, moments, phis); }
    forall k | i <= k < j ensures HeldAt(g, cmds, moments, k, c) {
      CountsLast(g, cmds, moments, phis, i, k, c);
      UnpinsGrow(cmds, i, k, j, c);
    }
    CountsLast(g, cmds, moments, phis, i, j, c);
    PinsHold(g, cmds, moments, phis, i, j, c);
  }

  lemma RunSizes(g: Geometry, cmds: seq<Command>, moments: seq<Moment>, phis: seq<map<nat, nat>>)
    requires IsRun(g, cmds, moments, phis)
    ensures |moments| == |phis| + 1 && |phis| <= |cmds|
  {
  }

  /** At a collection the children of what is held are kept, and the fields follow them to where
      they go: field `i` of `c` points at an object of the shape of the one it pointed at. */
  lemma ChildrenFollow(g: Geometry, cmd: Command, a: Moment, b: Moment, phi: map<nat, nat>, c: nat, i: nat)
    requires StepOk(g, a, cmd, b, phi) && cmd.Collects() && !a.poisoned && !b.poisoned
    requires FieldOf(g, a.v, Held(g, a.v, a.pins, cmd), c, i) && Aims(g, a.v, Field(a.v, c, i))
    ensures var child := CellOf(g, Field(a.v, c, i));
      && child in phi && c + i < |b.v.cells| && InHeap(g, Field(b.v, c, i)) && CellOf(g, Field(b.v, c, i)) == phi[child]
      && SameShape(g, a.v, b.v, child, phi[child])
  {
    hide SameShape;
    ImageTarget(g, phi, Field(a.v, c, i), Field(b.v, c, i));
  }

  lemma CollectedPins(g: Geometry, cmd: Command, a: Moment, b: Moment, phi: map<nat, nat>)
    requires StepOk(g, a, cmd, b, phi) && cmd.Collects() && !a.poisoned && !b.poisoned
    ensures Shaped(g, a.v) && Shaped(g, b.v) && forall s | s in phi :: SameShape(g, a.v, b.v, s, phi[s])
    ensures forall s | s in Held(g, a.v, a.pins, cmd) :: s in phi && phi[s] == s
    ensures var reach := SureReach(cmd, a.counters, a.v.descs, Held(g, a.v, a.pins, cmd));
      forall s: nat | OfGens(a.v, reach.still, s) :: s in phi && phi[s] == s
  {
    hide SameShape, PinsFollow, Sound, HeldWith, SlabsOk, CountAfter, Held, SureReach;
  }

  /** What a word of the stacks points to stays where it is through the collection, in whatever generation it is. */
  lemma StackWordsHold(g: Geometry, cmd: Command, a: Moment, b: Moment, phi: map<nat, nat>, word: u64)
    requires StepOk(g, a, cmd, b, phi) && cmd.Collects() && !a.poisoned && !b.poisoned && Shaped(g, a.v)
    requires word in cmd.words && Pinnable(g, a.v, word) && HeapOk(g, a.v)
    ensures var c := CellOf(g, word);
      c in phi && phi[c] == c && Shaped(g, b.v) && SameShape(g, a.v, b.v, c, c)
  {
    hide SameShape, StepOk;
    CollectedPins(g, cmd, a, b, phi);
    var c, pins := CellOf(g, word), Held(g, a.v, a.pins, cmd);
    ObjGen(g, a.v, c);
    if GenAt(a.v, c) == Tenured && !cmd.Full? {
      assert OfGens(a.v, SureReach(cmd, a.counters, a.v.descs, pins).still, c);
    } else {
      assert c in Conserved(g, a.v, cmd.words, GensOf(PinGens(cmd)));
      assert c in pins;
    }
  }

  lemma ObjGen(g: Geometry, v: View, c: nat)
    requires HeapOk(g, v) && IsObj(v, c)
    ensures c / PAGE_CELLS < |v.descs| && GenAt(v, c) != Free
  {
    assert ObjOk(g, v, c);
  }
}
