/** What a thread gets back from a stop: the roots it held, moved by the collections since. */
module Handback {
  import opened Safepoint
  import opened SafepointProof

  /** Mutator `j` held `roots` when `n` collections had taken place. It still holds them, none having
      followed, or has published them, and its snapshot is what the collections since have made of them. */
  predicate Carried(s: State, j: nat, roots: Roots, n: nat) {
    && j < |s.ms| && n <= |s.log| && s.ms[j].active
    && (HoldsRoots(s.ms[j].pc) || Published(s.ms[j].pc))
    && (HoldsRoots(s.ms[j].pc) ==> s.ms[j].roots == roots && n == |s.log|)
    && (Published(s.ms[j].pc) ==> s.ms[j].snap == MovedAll(s.log[n..], roots))
  }

  /** The step `c` of mutator `i` led from `s` to `t`. */
  predicate Stepped(s: State, i: nat, c: Choice, t: State) {
    Can(s, i, c) && t == Do(s, i, c)
  }

  /** No collection; the other mutators are left alone, but perhaps woken. */
  ghost predicate Leaves(s: State, t: State, i: nat) {
    && |t.ms| == |s.ms| && t.log == s.log
    && forall j | 0 <= j < |s.ms| && j != i :: t.ms[j] == s.ms[j] || t.ms[j] == Woken(s.ms[j])
  }

  lemma RunLeaves(s: State, i: nat, c: Choice)
    requires i < |s.ms|
    ensures Leaves(s, DoRun(s, i, c), i) && Leaves(s, DoRegister(s, i), i)
  {
    hide Woken;
  }

  lemma ParkLeaves(s: State, i: nat, c: Choice)
    requires i < |s.ms|
    ensures Leaves(s, DoPark(s, i, c), i)
  {
    hide Woken;
  }

  lemma NativeLeaves(s: State, i: nat, c: Choice)
    requires i < |s.ms|
    ensures Leaves(s, DoNative(s, i, c), i)
  {
    hide Woken;
  }

  lemma DriveLeaves(s: State, i: nat, c: Choice)
    requires i < |s.ms|
    ensures Leaves(s, DoStop(s, i), i) && Leaves(s, DoWait(s, i, c), i)
  {
    hide Woken, LockPC, WaitPlace;
  }

  lemma LastLeaves(s: State, i: nat)
    requires i < |s.ms|
    ensures Leaves(s, DoResume(s, i), i) && Leaves(s, DoDrop(s, i), i)
  {
    hide Woken;
  }

  lemma CollectCount(s: State, i: nat, others: seq<nat>, t: nat, r: Relocation)
    requires i < |s.ms|
    ensures |DoCollect(s, i, others, t, r).ms| == |s.ms|
  {
    hide Moved;
  }

  lemma SameCount(s: State, i: nat, c: Choice, t: State)
    requires Stepped(s, i, c, t)
    ensures |t.ms| == |s.ms| && i < |s.ms|
    ensures !s.ms[i].pc.DrvCollect? ==> Leaves(s, t, i)
  {
    hide DoRegister, DoRun, DoPark, DoNative, DoStop, DoWait, DoCollect, DoResume, DoDrop, Leaves;
    RunLeaves(s, i, c);
    ParkLeaves(s, i, c);
    NativeLeaves(s, i, c);
    DriveLeaves(s, i, c);
    LastLeaves(s, i);
    if s.ms[i].pc.DrvCollect? {
      CollectCount(s, i, s.ms[i].pc.others, s.ms[i].pc.t, c.r);
    } else {
      LeavesSize(s, t, i);
    }
  }

  lemma LeavesSize(s: State, t: State, i: nat)
    requires Leaves(s, t, i)
    ensures |t.ms| == |s.ms|
  {
    hide Woken;
  }

  /** A step of another mutator that is no collection leaves `j` alone, but perhaps wakes it. */
  lemma OthersLeave(s: State, i: nat, c: Choice, t: State, j: nat)
    requires Stepped(s, i, c, t) && !s.ms[i].pc.DrvCollect? && |t.ms| == |s.ms| && j < |s.ms| && j != i
    ensures t.log == s.log && (t.ms[j] == s.ms[j] || t.ms[j] == Woken(s.ms[j]))
  {
    hide Stepped, Woken;
    SameCount(s, i, c, t);
  }

  lemma CarriedByOthers(s: State, i: nat, c: Choice, t: State, j: nat, roots: Roots, n: nat)
    requires Inv(s) && Stepped(s, i, c, t) && j != i && Carried(s, j, roots, n)
    ensures Carried(t, j, roots, n)
  {
    hide MovedAll, Moved, Inv, Do;
    SameCount(s, i, c, t);
    if s.ms[i].pc.DrvCollect? {
      Exclusion(s, i, j);
      CarriedByCollection(s, i, c, t, j, roots, n);
    } else {
      OthersLeave(s, i, c, t, j);
    }
  }

  /** A collection moves the snapshot of every stopped mutator, the driver's included. */
  lemma CarriedByCollection(s: State, i: nat, c: Choice, t: State, j: nat, roots: Roots, n: nat)
    requires Stepped(s, i, c, t) && s.ms[i].pc.DrvCollect? && Carried(s, j, roots, n) && Published(s.ms[j].pc)
    requires j in s.ms[i].pc.others
    ensures Carried(t, j, roots, n) && (i == j ==> t.ms[j].pc.DrvDone?)
  {
    hide MovedAll, Moved, DoRegister, DoRun, DoPark, DoNative, DoStop, DoWait, DoResume, DoDrop, Registered;
    MovedNext(s.log, c.r, n, roots);
  }

  /** Where its own step leaves a mutator with its roots: it has them back, or they are carried on. */
  predicate HandedOn(t: State, j: nat, roots: Roots, n: nat) {
    j < |t.ms| && n <= |t.log|
    && if t.ms[j].pc.Run? then t.ms[j].roots == MovedAll(t.log[n..], roots) else Carried(t, j, roots, n)
  }

  /** Leaving managed code, with nothing published yet. */
  lemma CarriedFromRun(s: State, j: nat, c: Choice, roots: Roots, n: nat)
    requires Can(s, j, c) && Carried(s, j, roots, n) && s.ms[j].pc.Run?
    requires var t := DoRun(s, j, c); j < |t.ms| && !t.ms[j].pc.Run? && t.ms[j].active
    ensures HandedOn(DoRun(s, j, c), j, roots, n)
  {
    hide MovedAll;
    MovedNone(s.log, roots);
  }

  lemma CarriedThroughPark(s: State, j: nat, c: Choice, roots: Roots, n: nat)
    requires Carried(s, j, roots, n) && ParkPC(s.ms[j].pc)
    ensures HandedOn(DoPark(s, j, c), j, roots, n)
  {
    hide MovedAll, NotifyAll;
    MovedNone(s.log, roots);
  }

  predicate NativeWayIn(pc: PC) { pc.NatReady? || pc.NatStored? || pc.Native? }

  lemma CarriedIntoNative(s: State, j: nat, c: Choice, roots: Roots, n: nat)
    requires Carried(s, j, roots, n) && NativeWayIn(s.ms[j].pc)
    requires var t := DoNative(s, j, c); j < |t.ms| && t.ms[j].active
    ensures HandedOn(DoNative(s, j, c), j, roots, n)
  {
    hide MovedAll, NotifyAll;
  }

  lemma CarriedOutOfNative(s: State, j: nat, c: Choice, roots: Roots, n: nat)
    requires Carried(s, j, roots, n) && NativeSidePC(s.ms[j].pc) && !NativeWayIn(s.ms[j].pc)
    ensures HandedOn(DoNative(s, j, c), j, roots, n)
  {
    hide MovedAll, NotifyAll;
  }

  lemma CarriedThroughStop(s: State, j: nat, roots: Roots, n: nat)
    requires Carried(s, j, roots, n) && StopSidePC(s.ms[j].pc)
    ensures HandedOn(DoStop(s, j), j, roots, n)
  {
    hide MovedAll, NotifyAll;
  }

  lemma CarriedThroughWait(s: State, j: nat, c: Choice, roots: Roots, n: nat)
    requires Carried(s, j, roots, n) && WaitPC(s.ms[j].pc)
    ensures HandedOn(DoWait(s, j, c), j, roots, n)
  {
    hide MovedAll, Registered, Awaited, LockPC;
  }

  lemma CarriedThroughResume(s: State, j: nat, roots: Roots, n: nat)
    requires Carried(s, j, roots, n) && ResumeSidePC(s.ms[j].pc)
    ensures HandedOn(DoResume(s, j), j, roots, n)
  {
    hide MovedAll, NotifyAll;
  }

  lemma DroppingLeaves(s: State, j: nat)
    requires j < |s.ms| && s.ms[j].pc.DropReady?
    ensures var t := DoDrop(s, j); j < |t.ms| && !t.ms[j].active
  {
  }

  /** Where a step of its own leads. */
  lemma OwnDo(s: State, j: nat, c: Choice, t: State)
    requires Stepped(s, j, c, t)
    ensures s.ms[j].pc.Run? ==> t == DoRun(s, j, c)
    ensures ParkPC(s.ms[j].pc) ==> t == DoPark(s, j, c)
    ensures NativeSidePC(s.ms[j].pc) ==> t == DoNative(s, j, c)
    ensures StopSidePC(s.ms[j].pc) ==> t == DoStop(s, j)
    ensures WaitPC(s.ms[j].pc) ==> t == DoWait(s, j, c)
    ensures ResumeSidePC(s.ms[j].pc) ==> t == DoResume(s, j)
    ensures s.ms[j].pc.DropReady? ==> t == DoDrop(s, j)
  {
    hide DoRegister, DoRun, DoPark, DoNative, DoStop, DoWait, DoCollect, DoResume, DoDrop;
  }

  lemma CarriedByItself(s: State, j: nat, c: Choice, t: State, roots: Roots, n: nat)
    requires Stepped(s, j, c, t) && Carried(s, j, roots, n) && |t.ms| == |s.ms| && t.ms[j].active
    requires !s.ms[j].pc.DrvCollect? && (s.ms[j].pc.Run? ==> !t.ms[j].pc.Run?)
    ensures HandedOn(t, j, roots, n)
  {
    hide HandedOn, MovedAll, DoRegister, DoRun, DoPark, DoNative, DoStop, DoWait, DoCollect, DoResume, DoDrop, Do;
    OwnDo(s, j, c, t);
    var pc := s.ms[j].pc;
    if pc.Run? { CarriedFromRun(s, j, c, roots, n); }
    else if ParkPC(pc) { CarriedThroughPark(s, j, c, roots, n); }
    else if NativeWayIn(pc) { CarriedIntoNative(s, j, c, roots, n); }
    else if NativeSidePC(pc) { CarriedOutOfNative(s, j, c, roots, n); }
    else if StopSidePC(pc) { CarriedThroughStop(s, j, roots, n); }
    else if WaitPC(pc) { CarriedThroughWait(s, j, c, roots, n); }
    else if ResumeSidePC(pc) { CarriedThroughResume(s, j, roots, n); }
    else { DroppingLeaves(s, j); }
  }

  lemma CarriedStep(s: State, i: nat, c: Choice, t: State, j: nat, roots: Roots, n: nat)
    requires Inv(s) && Stepped(s, i, c, t) && Carried(s, j, roots, n) && |t.ms| == |s.ms| && t.ms[j].active
    requires i == j && s.ms[j].pc.Run? ==> !t.ms[j].pc.Run?
    ensures if i == j then HandedOn(t, j, roots, n) else Carried(t, j, roots, n)
  {
    hide MovedAll, Moved, Inv, Stepped, HandedOn;
    if i != j {
      CarriedByOthers(s, i, c, t, j, roots, n);
    } else if s.ms[j].pc.DrvCollect? {
      SelfInOthers(s, j);
      CarriedByCollection(s, j, c, t, j, roots, n);
      NotBackYet(t, j, roots, n);
    } else {
      CarriedByItself(s, j, c, t, roots, n);
    }
  }

  lemma NotBackYet(t: State, j: nat, roots: Roots, n: nat)
    requires Carried(t, j, roots, n) && !t.ms[j].pc.Run?
    ensures HandedOn(t, j, roots, n)
  {
  }

  // -- Over runs ------------------------------------------------------------

  /** From state `p` to state `k` of the run mutator `j` stays registered and is not in managed code in between. */
  ghost predicate Away(run: seq<State>, p: nat, k: nat, j: nat) {
    && p < k < |run| && (forall x | p <= x <= k :: j < |run[x].ms| && run[x].ms[j].active)
    && (forall x | p < x < k :: !run[x].ms[j].pc.Run?)
  }

  /** While a mutator is away its snapshot, once published, is what it held when it left, moved by
      the collections since, at every moment. */
  lemma {:induction false} SnapshotCarried(run: seq<State>, p: nat, x: nat, k: nat, j: nat)
    requires IsRun(run) && Away(run, p, k, j) && p + 1 < k && p <= x < k && HoldsRoots(run[p].ms[j].pc)
    ensures Carried(run[x], j, run[p].ms[j].roots, |run[p].log|)
    decreases x
  {
    hide IsRun, Inv, MovedAll, Can, Do;
    var roots, n := run[p].ms[j].roots, |run[p].log|;
    if x == p {
      HeldNow(run[p], j);
    } else {
      SnapshotCarried(run, p, x - 1, k, j);
      RunKeeps(run, x - 1);
      var i, c := StepInto(run, x);
      SameCount(run[x - 1], i, c, run[x]);
      CarriedStep(run[x - 1], i, c, run[x], j, roots, n);
      if i == j { StillAway(run[x], j, roots, n); }
    }
  }

  lemma StillAway(t: State, j: nat, roots: Roots, n: nat)
    requires HandedOn(t, j, roots, n) && !t.ms[j].pc.Run?
    ensures Carried(t, j, roots, n)
  {
  }

  lemma HeldNow(s: State, j: nat)
    requires j < |s.ms| && s.ms[j].active && HoldsRoots(s.ms[j].pc)
    ensures Carried(s, j, s.ms[j].roots, |s.log|)
  {
  }

  lemma StepInto(run: seq<State>, x: nat) returns (i: nat, c: Choice)
    requires IsRun(run) && 0 < x < |run|
    ensures Stepped(run[x - 1], i, c, run[x])
  {
    hide Can, Do;
    assert Next(run[x - 1], run[x - 1 + 1]);
    i, c :| Can(run[x - 1], i, c) && run[x] == Do(run[x - 1], i, c);
  }

  /** A thread that leaves managed code holding `roots` and comes back to it, having polled, been in
      native code or driven a collection, finds them moved by exactly the collections in between. */
  lemma RootsReturned(run: seq<State>, p: nat, k: nat, j: nat)
    requires IsRun(run) && Away(run, p, k, j) && p + 1 < k && HoldsRoots(run[p].ms[j].pc) && run[k].ms[j].pc.Run?
    ensures |run[p].log| <= |run[k].log|
    ensures run[k].ms[j].roots == MovedAll(run[k].log[|run[p].log|..], run[p].ms[j].roots)
  {
    hide IsRun, Inv, MovedAll, Can, Do;
    var roots, n := run[p].ms[j].roots, |run[p].log|;
    SnapshotCarried(run, p, k - 1, k, j);
    RunKeeps(run, k - 1);
    var i, c := StepInto(run, k);
    SameCount(run[k - 1], i, c, run[k]);
    CarriedStep(run[k - 1], i, c, run[k], j, roots, n);
    if i != j { NotByOthers(run[k - 1], i, c, run[k], j); }
  }

  /** Those may be any roots: whatever words a mutator in managed code comes to hold, the run may go on with. */
  lemma AnyRoots(run: seq<State>, j: nat, roots: Roots)
    requires IsRun(run) && j < |run[|run| - 1].ms| && run[|run| - 1].ms[j].pc.Run?
    ensures var s := run[|run| - 1];
      IsRun(run + [s.(ms := s.ms[j := s.ms[j].(roots := roots)])])
  {
    var s := run[|run| - 1];
    var longer := run + [s.(ms := s.ms[j := s.ms[j].(roots := roots)])];
    assert Can(s, j, Work(roots)) && longer[|run|] == Do(s, j, Work(roots));
    forall k | 0 <= k < |longer| - 1 ensures Next(longer[k], longer[k + 1]) {
      if k < |run| - 1 { assert Next(run[k], run[k + 1]); }
    }
  }

  /** Only its own step brings a mutator back to managed code. */
  lemma NotByOthers(s: State, i: nat, c: Choice, t: State, j: nat)
    requires Stepped(s, i, c, t) && |t.ms| == |s.ms| && j < |s.ms| && j != i && !s.ms[j].pc.Run?
    ensures !t.ms[j].pc.Run?
  {
    hide Do;
    if s.ms[i].pc.DrvCollect? { OthersPlace(s, i, c, t, j); } else { OthersLeave(s, i, c, t, j); }
  }

  lemma OthersPlace(s: State, i: nat, c: Choice, t: State, j: nat)
    requires Stepped(s, i, c, t) && s.ms[i].pc.DrvCollect? && |t.ms| == |s.ms| && j < |s.ms| && j != i
    ensures t.ms[j].pc == s.ms[j].pc
  {
    hide DoRegister, DoRun, DoPark, DoNative, DoStop, DoWait, DoResume, DoDrop, Registered, Moved;
  }
}
