/** What a mutator can do by itself: stop for a driver, come back from a stop, let go of the lock, come and go, drive a
    collection. */
module Progress {
  import opened Options
  import opened Safepoint
  import opened SafepointProof
  import opened Handback

  datatype Goal = Unawaited(t: nat) | Back | Unlocked | InNative | Stopped | Home(log: seq<Relocation>)

  predicate Met(s: State, j: nat, goal: Goal) {
    && j < |s.ms|
    && match goal
       case Unawaited(t) => !Awaited(s.ms[j], t)
       case Back => s.ms[j].pc.Run?
       case Unlocked => s.park.None?
       case InNative => s.ms[j].pc.Native?
       case Stopped => !s.running && s.ms[j].pc.DrvStopped?
       case Home(log) => s.ms[j].pc.Run? && s.log == log
  }

  /** Mutator `j` can get there by at most `n` steps of its own, none of them a spurious wakeup. */
  ghost predicate Within(s: State, j: nat, n: nat, goal: Goal)
    decreases n
  {
    Met(s, j, goal)
    || (n > 0 && exists c: Choice :: !c.Wake? && Can(s, j, c) && Within(Do(s, j, c), j, n - 1, goal))
  }

  lemma {:induction false} WithinMore(s: State, j: nat, n: nat, m: nat, goal: Goal)
    requires Within(s, j, n, goal) && n <= m
    ensures Within(s, j, m, goal)
    decreases n
  {
    hide Met, Can, Do;
    if !Met(s, j, goal) {
      var c: Choice :| !c.Wake? && Can(s, j, c) && Within(Do(s, j, c), j, n - 1, goal);
      WithinMore(Do(s, j, c), j, n - 1, m - 1, goal);
    }
  }

  lemma OneMore(s: State, j: nat, c: Choice, n: nat, goal: Goal)
    requires Can(s, j, c) && !c.Wake? && Within(Do(s, j, c), j, n, goal)
    ensures Within(s, j, n + 1, goal)
  {
    hide Met, Can, Do;
  }

  /** Nobody else holds `park_mutex`. */
  predicate LockFor(s: State, j: nat) { s.park.None? || s.park == Some(j) }

  /** What `j` does next when it is left to itself: it polls, and otherwise has no choice. */
  function Next1(pc: PC): Choice { if pc.Run? then Poll else if pc.Native? then Leave else Go }

  // -- Stopping for a driver ------------------------------------------------

  /** How many steps away from the stop at most. */
  function ToStop(pc: PC): nat {
    match pc
    case ParkLoop(_) => 1 case ParkStored(_) => 2 case ParkSleep(_, _) => 2
    case ParkReady(_) => 3 case PollSaw(_) => 4 case Run => 5
    case ParkCopy => 6 case NatCopy => 6 case DrvCopy => 6
    case _ => 1
  }

  /** Driver `d` waits for `j`, and `j` can have the lock. */
  ghost predicate Waits(s: State, d: nat, j: nat) {
    && Inv(s) && d < |s.ms| && j < |s.ms| && d != j && StopPC(s.ms[d].pc) && LockFor(s, j)
    && Awaited(s.ms[j], s.epoch)
  }

  lemma MayGo(s: State, d: nat, j: nat)
    requires Waits(s, d, j)
    ensures Can(s, j, Next1(s.ms[j].pc)) && !CoordPC(s.ms[j].pc) && s.ms[j].active && !NativePC(s.ms[j].pc)
    ensures !FlaggedPC(s.ms[j].pc) && s.ms[j].lastEpoch < s.epoch && !s.running
    ensures (LockPC(s.ms[j].pc) <==> s.park == Some(j)) && !GonePC(s.ms[j].pc)
    ensures ParkedPC(s.ms[j].pc) ==> s.ms[j].pc.cur == s.ms[j].lastEpoch
  {
    hide DriverOk, MovedAll;
    At(s, d);
    At(s, j);
  }

  /** The next step of the flags that matter. */
  lemma StopStep(s: State, d: nat, j: nat, t: State)
    requires Waits(s, d, j) && Stepped(s, j, Next1(s.ms[j].pc), t) && |t.ms| == |s.ms|
    ensures t.epoch == s.epoch && LockFor(t, j)
    ensures Awaited(t.ms[j], t.epoch) ==> ToStop(t.ms[j].pc) < ToStop(s.ms[j].pc)
  {
    hide DriverOk, MovedAll, Inv, DoCollect, DoWait, DoStop, DoResume, DoDrop, DoRegister, DoNative, DoPark, DoRun;
    MayGo(s, d, j);
    OwnDo(s, j, Next1(s.ms[j].pc), t);
    var pc := s.ms[j].pc;
    if pc.Run? || ParkPC(pc) {
      StopByPark(s, j);
    } else {
      assert pc.NatReady? || pc.NatCopy? || pc.DrvReady? || pc.DrvCopy? || pc.DropReady?;
      StopElsewhere(s, j);
    }
  }

  lemma StopByPark(s: State, j: nat)
    requires j < |s.ms| && LockFor(s, j) && s.ms[j].lastEpoch < s.epoch
    requires LockPC(s.ms[j].pc) <==> s.park == Some(j)
    requires ParkedPC(s.ms[j].pc) ==> s.ms[j].pc.cur == s.ms[j].lastEpoch
    ensures var t := DoRun(s, j, Poll);
      s.ms[j].pc.Run? ==> j < |t.ms| && t.epoch == s.epoch && LockFor(t, j) && t.ms[j].pc.PollSaw?
    ensures var t := DoPark(s, j, Go);
      ParkPC(s.ms[j].pc) ==> j < |t.ms| && t.epoch == s.epoch && LockFor(t, j)
                             && (t.ms[j].lastEpoch < s.epoch ==> ToStop(t.ms[j].pc) < ToStop(s.ms[j].pc))
  {
    hide NotifyAll;
  }

  lemma StopElsewhere(s: State, j: nat)
    requires j < |s.ms| && LockFor(s, j) && (LockPC(s.ms[j].pc) <==> s.park == Some(j))
    ensures var t := DoNative(s, j, Go);
      s.ms[j].pc.NatReady? ==> j < |t.ms| && t.epoch == s.epoch && LockFor(t, j) && t.ms[j].native
    ensures var t := DoNative(s, j, Go);
      s.ms[j].pc.NatCopy? ==> j < |t.ms| && t.epoch == s.epoch && LockFor(t, j) && t.ms[j].pc.Run?
    ensures var t := DoStop(s, j);
      s.ms[j].pc.DrvReady? ==> j < |t.ms| && t.epoch == s.epoch && LockFor(t, j) && t.ms[j].coord
    ensures var t := DoResume(s, j);
      s.ms[j].pc.DrvCopy? ==> j < |t.ms| && t.epoch == s.epoch && LockFor(t, j) && t.ms[j].pc.Run?
    ensures var t := DoDrop(s, j);
      s.ms[j].pc.DropReady? ==> j < |t.ms| && t.epoch == s.epoch && LockFor(t, j) && !t.ms[j].active
  {
    hide NotifyAll;
  }

  /** The driver goes on waiting, whatever `j` does. */
  lemma StillWaits(s: State, d: nat, j: nat, c: Choice, t: State)
    requires Waits(s, d, j) && Stepped(s, j, c, t) && |t.ms| == |s.ms| && t.epoch == s.epoch && LockFor(t, j)
    requires Awaited(t.ms[j], t.epoch) && !s.ms[j].pc.DrvCollect?
    ensures Waits(t, d, j)
  {
    hide Inv, Stepped, Woken, StopPC;
    assert Inv(t) by { InvNext(s, j, c, t); }
    OthersLeave(s, j, c, t, d);
    WokenPC(s.ms[d]);
  }

  lemma InvNext(s: State, i: nat, c: Choice, t: State)
    requires Inv(s) && Stepped(s, i, c, t)
    ensures Inv(t)
  {
    hide Inv, Can, Do;
    InvStep(s, i, c);
  }

  /** A mutator that a driver waits for stops being waited for within six steps of its own, from
      wherever it is, as soon as it can have the lock. */
  lemma {:induction false} AwaitedStops(s: State, d: nat, j: nat)
    requires Waits(s, d, j)
    ensures Within(s, j, ToStop(s.ms[j].pc), Unawaited(s.epoch)) && ToStop(s.ms[j].pc) <= 6
    decreases ToStop(s.ms[j].pc)
  {
    hide Inv, Can, Do, Awaited, LockFor, Within, Waits;
    WaitsSize(s, d, j);
    var c := Next1(s.ms[j].pc);
    MayGo(s, d, j);
    var t := Do(s, j, c);
    SameCount(s, j, c, t);
    StopStep(s, d, j, t);
    if Awaited(t.ms[j], t.epoch) {
      StillWaits(s, d, j, c, t);
      AwaitedStops(t, d, j);
      WithinMore(t, j, ToStop(t.ms[j].pc), ToStop(s.ms[j].pc) - 1, Unawaited(s.epoch));
    } else {
      AtOnce(t, j, Unawaited(s.epoch));
      WithinMore(t, j, 0, ToStop(s.ms[j].pc) - 1, Unawaited(s.epoch));
    }
    OneMore(s, j, c, ToStop(s.ms[j].pc) - 1, Unawaited(s.epoch));
  }

  lemma WaitsSize(s: State, d: nat, j: nat)
    requires Waits(s, d, j)
    ensures d < |s.ms| && j < |s.ms|
  {
    hide Inv;
  }

  lemma AtOnce(s: State, j: nat, goal: Goal)
    requires Met(s, j, goal)
    ensures Within(s, j, 0, goal)
  {
  }

  // -- Coming back ----------------------------------------------------------

  /** How many steps away from managed code at most, the world running. */
  function ToBack(pc: PC, epoch: nat): nat {
    match pc
    case ParkCopy => 1 case ParkLoop(cur) => if cur == epoch then 2 else 4
    case ParkStored(cur) => if cur == epoch then 3 else 5 case ParkSleep(_, _) => 5
    case ParkReady(_) => 6 case PollSaw(_) => 7
    case NatCopy => 1 case NatAdopt => 2 case NatLoop => 3 case NatSleep(_) => 4 case Native => 4
    case NatStored => 5 case NatReady => 6
    case _ => 0
  }

  /** Mutator `j` is parked, or in native code, or on its way; the world runs, and `j` can have the lock. */
  ghost predicate Returns(s: State, j: nat) {
    Inv(s) && j < |s.ms| && s.running && LockFor(s, j) && (ParkPC(s.ms[j].pc) || NativeSidePC(s.ms[j].pc))
  }

  lemma MayReturn(s: State, j: nat)
    requires Returns(s, j)
    ensures Can(s, j, Next1(s.ms[j].pc)) && (LockPC(s.ms[j].pc) <==> s.park == Some(j))
  {
    hide DriverOk, MovedAll;
    At(s, j);
  }

  predicate Nearer(s: State, j: nat, t: State) {
    && j < |s.ms| && j < |t.ms| && t.epoch == s.epoch && t.running && LockFor(t, j)
    && (t.ms[j].pc.Run? || ((ParkPC(t.ms[j].pc) || NativeSidePC(t.ms[j].pc))
                            && ToBack(t.ms[j].pc, s.epoch) < ToBack(s.ms[j].pc, s.epoch)))
  }

  lemma ParkNearer(s: State, j: nat)
    requires j < |s.ms| && LockFor(s, j) && s.running && ParkPC(s.ms[j].pc)
    requires LockPC(s.ms[j].pc) <==> s.park == Some(j)
    ensures Nearer(s, j, DoPark(s, j, Go))
  {
    hide NotifyAll;
  }

  lemma NativeNearer(s: State, j: nat)
    requires j < |s.ms| && LockFor(s, j) && s.running && NativeSidePC(s.ms[j].pc)
    requires LockPC(s.ms[j].pc) <==> s.park == Some(j)
    ensures Nearer(s, j, DoNative(s, j, Next1(s.ms[j].pc)))
  {
    hide NotifyAll;
  }

  /** A mutator that has parked or is in native code is back in managed code within seven steps of
      its own, the world running, as soon as it can have the lock: nobody else has to wake it. */
  lemma {:induction false} StoppedReturns(s: State, j: nat)
    requires Returns(s, j)
    ensures Within(s, j, ToBack(s.ms[j].pc, s.epoch), Back) && ToBack(s.ms[j].pc, s.epoch) <= 7
    decreases ToBack(s.ms[j].pc, s.epoch)
  {
    hide Inv, Can, Do, LockFor, Within, DoPark, DoNative;
    var c, n := Next1(s.ms[j].pc), ToBack(s.ms[j].pc, s.epoch);
    MayReturn(s, j);
    var t := Do(s, j, c);
    SameCount(s, j, c, t);
    OwnDo(s, j, c, t);
    if ParkPC(s.ms[j].pc) { ParkNearer(s, j); } else { NativeNearer(s, j); }
    if t.ms[j].pc.Run? {
      AtOnce(t, j, Back);
      WithinMore(t, j, 0, n - 1, Back);
    } else {
      InvNext(s, j, c, t);
      StoppedReturns(t, j);
      WithinMore(t, j, ToBack(t.ms[j].pc, t.epoch), n - 1, Back);
    }
    OneMore(s, j, c, n - 1, Back);
  }

  // -- Letting go of the lock -----------------------------------------------

  /** How many steps away from releasing `park_mutex` at most. */
  function ToUnlock(pc: PC, epoch: nat): nat {
    match pc
    case ParkLoop(cur) => if cur == epoch then 1 else 3
    case ParkStored(cur) => if cur == epoch then 2 else 4
    case NatLoop => 2 case DrvBumped(_) => 2 case DrvResumed => 2
    case DrvCheck(_, others, k) => if k <= |others| then |others| - k + 1 else 1
    case _ => 1
  }

  predicate Looser(s: State, j: nat, t: State) {
    && j < |s.ms| && j < |t.ms| && t.epoch == s.epoch
    && (t.park.None? || (t.park == Some(j) && LockPC(t.ms[j].pc)
                         && ToUnlock(t.ms[j].pc, s.epoch) < ToUnlock(s.ms[j].pc, s.epoch)))
  }

  lemma ParkLooser(s: State, j: nat)
    requires j < |s.ms| && s.park == Some(j) && LockPC(s.ms[j].pc) && ParkPC(s.ms[j].pc)
    ensures Looser(s, j, DoPark(s, j, Go))
  {
    hide NotifyAll;
  }

  lemma NativeLooser(s: State, j: nat)
    requires j < |s.ms| && s.park == Some(j) && LockPC(s.ms[j].pc) && NativeSidePC(s.ms[j].pc)
    ensures Looser(s, j, DoNative(s, j, Go))
  {
    hide NotifyAll;
  }

  lemma DriverLooser(s: State, j: nat)
    requires j < |s.ms| && s.park == Some(j) && LockPC(s.ms[j].pc)
    ensures StopSidePC(s.ms[j].pc) ==> Looser(s, j, DoStop(s, j))
    ensures ResumeSidePC(s.ms[j].pc) ==> Looser(s, j, DoResume(s, j))
    ensures s.ms[j].pc.DropStored? ==> Looser(s, j, DoDrop(s, j))
  {
    hide NotifyAll;
  }

  lemma WaitLooser(s: State, j: nat)
    requires j < |s.ms| && s.park == Some(j) && s.ms[j].pc.DrvCheck?
    ensures Looser(s, j, DoWait(s, j, Go))
  {
    hide Awaited, Registered;
  }

  lemma MayUnlock(s: State, j: nat)
    requires Inv(s) && j < |s.ms| && s.park == Some(j)
    ensures Can(s, j, Go) && LockPC(s.ms[j].pc)
  {
    hide DriverOk, MovedAll;
    At(s, j);
  }

  lemma LockedDo(s: State, j: nat, t: State)
    requires Stepped(s, j, Go, t) && LockPC(s.ms[j].pc) && s.park == Some(j)
    ensures Looser(s, j, t)
  {
    hide DoRegister, DoRun, DoPark, DoNative, DoStop, DoWait, DoCollect, DoResume, DoDrop, Looser;
    var pc := s.ms[j].pc;
    if ParkPC(pc) { ParkLooser(s, j); }
    else if NativeSidePC(pc) { NativeLooser(s, j); }
    else if pc.DrvCheck? { WaitLooser(s, j); }
    else { DriverLooser(s, j); }
  }

  /** Whoever holds `park_mutex` lets go of it within a bounded number of steps of its own: four, or
      one for each mutator that a driver has still to check. */
  lemma {:induction false} LockFreed(s: State, j: nat)
    requires Inv(s) && j < |s.ms| && s.park == Some(j)
    ensures Within(s, j, ToUnlock(s.ms[j].pc, s.epoch), Unlocked)
    decreases ToUnlock(s.ms[j].pc, s.epoch)
  {
    hide Inv, Can, Do, Within;
    var n := ToUnlock(s.ms[j].pc, s.epoch);
    MayUnlock(s, j);
    var t := Do(s, j, Go);
    LockedDo(s, j, t);
    if t.park.None? {
      AtOnce(t, j, Unlocked);
      WithinMore(t, j, 0, n - 1, Unlocked);
    } else {
      InvNext(s, j, Go, t);
      LockFreed(t, j);
      WithinMore(t, j, ToUnlock(t.ms[j].pc, t.epoch), n - 1, Unlocked);
    }
    OneMore(s, j, Go, n - 1, Unlocked);
  }

  // -- Coming and going -----------------------------------------------------

  /** A newcomer is in managed code after four steps of its own, if nobody drives a collection. */
  lemma Arrives(s: State, j: nat)
    requires j < |s.ms| && s.coord.None? && s.ms[j].pc.Out?
    ensures Within(s, j, 4, Back)
  {
    hide Within;
    var a := Do(s, j, Register);
    var b := Do(a, j, Go);
    var c := Do(b, j, Go);
    AtOnce(Do(c, j, Go), j, Back);
    OneMore(c, j, Go, 0, Back);
    OneMore(b, j, Go, 1, Back);
    OneMore(a, j, Go, 2, Back);
    OneMore(s, j, Register, 3, Back);
  }

  /** A native call is entered after three steps, whether the world runs or is being stopped. */
  lemma EntersNative(s: State, j: nat)
    requires j < |s.ms| && s.park.None? && s.ms[j].pc.Run?
    ensures Within(s, j, 3, InNative)
  {
    hide Within, NotifyAll;
    var a := Do(s, j, GoNative);
    var b := Do(a, j, Go);
    AtOnce(Do(b, j, Go), j, InNative);
    OneMore(b, j, Go, 0, InNative);
    OneMore(a, j, Go, 1, InNative);
    OneMore(s, j, GoNative, 2, InNative);
  }

  // -- Driving a collection -------------------------------------------------

  /** What a driver does next that collects by `r`. */
  function NextDriven(pc: PC, r: Relocation): Choice {
    if pc.Run? then Drive else if pc.DrvCollect? then Collect(r) else Go
  }

  /** How many steps away from having stopped the world. */
  function ToStopped(pc: PC): nat {
    match pc
    case Run => 7 case DrvReady => 6 case DrvFlagged => 5 case DrvQueue => 4
    case DrvCoord => 3 case DrvBumped(_) => 2 case _ => 1
  }

  /** Mutator `j` is in managed code, or on its way to stopping the world, and can have both locks. */
  ghost predicate MayDrive(s: State, j: nat) {
    && Inv(s) && j < |s.ms| && LockFor(s, j) && (s.coord.None? || s.coord == Some(j))
    && (s.ms[j].pc.Run? || StopSidePC(s.ms[j].pc))
  }

  predicate NearerStop(s: State, j: nat, t: State) {
    && j < |s.ms| && j < |t.ms| && LockFor(t, j) && (t.coord.None? || t.coord == Some(j))
    && ((t.ms[j].pc.DrvStopped? && !t.running)
        || (StopSidePC(t.ms[j].pc) && ToStopped(t.ms[j].pc) < ToStopped(s.ms[j].pc)))
  }

  /** What a notification leaves of the notifier. */
  lemma Notified(s: State, j: nat, m: Mut)
    requires j < |s.ms| && !Sleeping(m.pc)
    ensures var t := Notify(Set(s, j, m));
      |t.ms| == |s.ms| && t.ms[j] == m && t.epoch == s.epoch && t.running == s.running && t.log == s.log
      && t.coord == s.coord
  {
  }

  lemma QueueNearer(s: State, j: nat)
    requires j < |s.ms| && LockFor(s, j) && (s.coord.None? || s.coord == Some(j))
    requires LockPC(s.ms[j].pc) <==> s.park == Some(j)
    requires s.ms[j].pc.DrvReady? || s.ms[j].pc.DrvFlagged? || s.ms[j].pc.DrvQueue?
    ensures NearerStop(s, j, DoStop(s, j))
  {
    hide Notify, NotifyAll;
    if s.ms[j].pc.DrvFlagged? { Notified(s, j, s.ms[j].(pc := DrvQueue)); }
  }

  lemma BumpNearer(s: State, j: nat)
    requires j < |s.ms| && LockFor(s, j) && (s.coord.None? || s.coord == Some(j))
    requires (LockPC(s.ms[j].pc) <==> s.park == Some(j)) && (s.ms[j].pc.DrvCoord? || BumpPC(s.ms[j].pc))
    ensures NearerStop(s, j, DoStop(s, j))
  {
    hide Notify, NotifyAll;
  }

  lemma DriveNearer(s: State, j: nat)
    requires j < |s.ms| && LockFor(s, j) && (s.coord.None? || s.coord == Some(j))
    requires (LockPC(s.ms[j].pc) <==> s.park == Some(j)) && (s.ms[j].pc.Run? || StopSidePC(s.ms[j].pc))
    ensures NearerStop(s, j, if s.ms[j].pc.Run? then DoRun(s, j, Drive) else DoStop(s, j))
  {
    if s.ms[j].pc.Run? {
      assert DoRun(s, j, Drive).ms[j].pc.DrvReady?;
    } else {
      hide DoRun, DoStop, NearerStop;
      if s.ms[j].pc.DrvCoord? || BumpPC(s.ms[j].pc) { BumpNearer(s, j); } else { QueueNearer(s, j); }
    }
  }

  lemma MayStop(s: State, j: nat, r: Relocation)
    requires MayDrive(s, j)
    ensures Can(s, j, NextDriven(s.ms[j].pc, r)) && (LockPC(s.ms[j].pc) <==> s.park == Some(j))
  {
    hide DriverOk, MovedAll;
    At(s, j);
  }

  /** A mutator in managed code that decides to collect has the world stopped after seven steps of its own, as
      soon as it can have both locks. */
  lemma {:induction false} DriverStops(s: State, j: nat)
    requires MayDrive(s, j)
    ensures Within(s, j, ToStopped(s.ms[j].pc), Stopped) && ToStopped(s.ms[j].pc) <= 7
    decreases ToStopped(s.ms[j].pc)
  {
    hide Inv, Can, Do, LockFor, Within, DoRun, DoStop;
    var c, n := NextDriven(s.ms[j].pc, map[]), ToStopped(s.ms[j].pc);
    MayStop(s, j, map[]);
    var t := Do(s, j, c);
    SameCount(s, j, c, t);
    OwnDo(s, j, c, t);
    DriveNearer(s, j);
    if t.ms[j].pc.DrvStopped? {
      AtOnce(t, j, Stopped);
      WithinMore(t, j, 0, n - 1, Stopped);
    } else {
      InvNext(s, j, c, t);
      DriverStops(t, j);
      WithinMore(t, j, ToStopped(t.ms[j].pc), n - 1, Stopped);
    }
    OneMore(s, j, c, n - 1, Stopped);
  }

  /** How many steps a driver that nobody keeps waiting is away from managed code; it checks on each slot once. */
  function ToHome(ms: seq<Mut>, pc: PC): nat {
    match pc
    case DrvStopped(_) => 9 + |Registered(ms)| case DrvListed(_, others) => 8 + |others|
    case DrvSleep(_, others, k, _) => 8 + (if k < |others| then |others| - k else 0)
    case DrvCheck(_, others, k) => 7 + (if k < |others| then |others| - k else 0)
    case DrvCollect(_, _) => 6 case DrvDone(_, _) => 5 case DrvResumed => 4 case DrvCleared => 3
    case DrvRelease => 2 case _ => 1
  }

  /** Driver `j` has stopped the world, and nobody keeps it waiting any more. */
  ghost predicate Unhindered(s: State, j: nat) {
    && Inv(s) && j < |s.ms| && LockFor(s, j) && (StopPC(s.ms[j].pc) || ResumeSidePC(s.ms[j].pc))
    && (WaitPC(s.ms[j].pc) ==> forall i: nat | i < |s.ms| && i != j :: !Awaited(s.ms[i], s.epoch))
  }

  /** The collections there will have been when it is back. */
  function HomeLog(s: State, j: nat, r: Relocation): seq<Relocation>
    requires j < |s.ms|
  {
    if WaitPC(s.ms[j].pc) || s.ms[j].pc.DrvCollect? then s.log + [r] else s.log
  }

  predicate NearerHome(s: State, j: nat, t: State, r: Relocation) {
    && j < |s.ms| && j < |t.ms| && LockFor(t, j) && t.epoch == s.epoch && HomeLog(t, j, r) == HomeLog(s, j, r)
    && (WaitPC(t.ms[j].pc) ==> WaitPC(s.ms[j].pc))
    && (t.ms[j].pc.Run?
        || ((StopPC(t.ms[j].pc) || ResumeSidePC(t.ms[j].pc))
            && ToHome(t.ms, t.ms[j].pc) < ToHome(s.ms, s.ms[j].pc)))
  }

  lemma WaitNearer(s: State, j: nat, r: Relocation)
    requires Unhindered(s, j) && WaitPC(s.ms[j].pc)
    requires Can(s, j, Go) && (LockPC(s.ms[j].pc) <==> s.park == Some(j))
    ensures NearerHome(s, j, DoWait(s, j, Go), r)
  {
    hide DriverOk, MovedAll, Registered;
    At(s, j);
  }

  lemma CollectNearer(s: State, j: nat, r: Relocation)
    requires j < |s.ms| && LockFor(s, j) && s.ms[j].pc.DrvCollect?
    ensures NearerHome(s, j, DoCollect(s, j, s.ms[j].pc.others, s.ms[j].pc.t, r), r)
  {
    hide Registered, Moved;
  }

  lemma LockedNearer(s: State, j: nat, r: Relocation)
    requires j < |s.ms| && LockFor(s, j) && (s.ms[j].pc.DrvDone? || ResumePC(s.ms[j].pc))
    ensures NearerHome(s, j, DoResume(s, j), r)
  {
    hide Notify, NotifyAll, Registered, LockPC;
    if s.ms[j].pc.DrvCleared? { Notified(s, j, s.ms[j].(pc := DrvRelease)); }
  }

  lemma ResumeNearer(s: State, j: nat, r: Relocation)
    requires j < |s.ms| && LockFor(s, j) && ResumeSidePC(s.ms[j].pc)
    ensures NearerHome(s, j, DoResume(s, j), r)
  {
    hide Notify, NotifyAll, Registered, LockPC;
    if s.ms[j].pc.DrvDone? || ResumePC(s.ms[j].pc) {
      LockedNearer(s, j, r);
    } else {
      assert s.ms[j].pc.DrvRelease? || s.ms[j].pc.DrvCopy?;
    }
  }

  /** If it sleeps it has been notified. */
  lemma MayFinish(s: State, j: nat, r: Relocation)
    requires Unhindered(s, j)
    ensures Can(s, j, NextDriven(s.ms[j].pc, r)) && (LockPC(s.ms[j].pc) <==> s.park == Some(j))
  {
    hide MovedAll;
    At(s, j);
  }

  lemma StillUnhindered(s: State, j: nat, c: Choice, t: State)
    requires Unhindered(s, j) && Stepped(s, j, c, t) && |t.ms| == |s.ms| && LockFor(t, j) && t.epoch == s.epoch
    requires StopPC(t.ms[j].pc) || ResumeSidePC(t.ms[j].pc)
    requires WaitPC(t.ms[j].pc) ==> WaitPC(s.ms[j].pc)
    ensures Unhindered(t, j)
  {
    hide Inv, Stepped, Woken, StopPC, ResumeSidePC;
    assert Inv(t) by { InvNext(s, j, c, t); }
    if WaitPC(t.ms[j].pc) {
      forall i: nat | i < |t.ms| && i != j ensures !Awaited(t.ms[i], t.epoch) {
        OthersLeave(s, j, c, t, i);
        WokenAwaited(s.ms[i], t.epoch);
      }
    }
  }

  lemma WokenAwaited(m: Mut, t: nat)
    ensures Awaited(Woken(m), t) == Awaited(m, t)
  {
  }

  lemma DrivenDo(s: State, j: nat, r: Relocation, t: State)
    requires Unhindered(s, j) && Stepped(s, j, NextDriven(s.ms[j].pc, r), t)
    requires LockPC(s.ms[j].pc) <==> s.park == Some(j)
    ensures NearerHome(s, j, t, r)
  {
    hide Inv, Can, LockFor, DoRegister, DoRun, DoPark, DoNative, DoStop, DoWait, DoCollect, DoResume, DoDrop,
      NearerHome, Awaited, HomeLog;
    var pc := s.ms[j].pc;
    if WaitPC(pc) { WaitNearer(s, j, r); }
    else if pc.DrvCollect? { CollectNearer(s, j, r); }
    else { ResumeNearer(s, j, r); }
  }

  /** Once nobody that it waits for is left, a driver completes exactly one collection, whichever that is, and is back
      in managed code with the world running, within a number of its own steps that grows with the number of slots. */
  lemma {:induction false} DriverCompletes(s: State, j: nat, r: Relocation)
    requires Unhindered(s, j)
    ensures Within(s, j, ToHome(s.ms, s.ms[j].pc), Home(HomeLog(s, j, r)))
    decreases ToHome(s.ms, s.ms[j].pc)
  {
    hide Inv, Can, Do, LockFor, Within, ToHome, HomeLog, Awaited, ResumeSidePC, StopPC;
    var c, n, goal := NextDriven(s.ms[j].pc, r), ToHome(s.ms, s.ms[j].pc), Home(HomeLog(s, j, r));
    MayFinish(s, j, r);
    var t := Do(s, j, c);
    SameCount(s, j, c, t);
    DrivenDo(s, j, r, t);
    if t.ms[j].pc.Run? {
      HomeAt(s, j, t, r);
      WithinMore(t, j, 0, n - 1, goal);
    } else {
      StillUnhindered(s, j, c, t);
      DriverCompletes(t, j, r);
      WithinMore(t, j, ToHome(t.ms, t.ms[j].pc), n - 1, goal);
    }
    OneMore(s, j, c, n - 1, goal);
  }

  lemma HomeAt(s: State, j: nat, t: State, r: Relocation)
    requires NearerHome(s, j, t, r) && t.ms[j].pc.Run?
    ensures Within(t, j, 0, Home(HomeLog(s, j, r))) && ToHome(s.ms, s.ms[j].pc) >= 1
  {
    hide Registered;
  }
}
