/** What the handshake guarantees in every reachable state. */
module SafepointProof {
  import opened Options
  import opened Safepoint

  // -- The invariant --------------------------------------------------------

  /** What one mutator can see of the rest of the system. */
  datatype Env = Env(epoch: nat, running: bool, hasPark: bool, hasCoord: bool, resuming: bool, bumping: bool,
      log: seq<Relocation>)
  {
    predicate Stopping() { !running || bumping }
  }

  function EnvOf(s: State, i: nat): Env {
    Env(s.epoch, s.running, s.park == Some(i), s.coord == Some(i),
        s.park.Some? && s.park.value < |s.ms| && ResumePC(s.ms[s.park.value].pc),
        s.park.Some? && s.park.value < |s.ms| && BumpPC(s.ms[s.park.value].pc),
        s.log)
  }

  predicate FlagsOk(m: Mut, e: Env) {
    && m.active == !GonePC(m.pc) && m.coord == FlaggedPC(m.pc)
    && (m.native == NativePC(m.pc) || (m.native && (m.pc.DropStored? || m.pc.Dropped?)))
    && (m.active ==> m.registered)
    && e.hasPark == LockPC(m.pc) && e.hasCoord == CoordPC(m.pc)
    && (StopPC(m.pc) ==> !e.running) && (CoordPC(m.pc) && !StopPC(m.pc) ==> e.running)
    && (TargetOf(m.pc).Some? ==> TargetOf(m.pc).value == e.epoch)
  }

  predicate EpochOk(m: Mut, e: Env) {
    && m.lastEpoch <= e.epoch
    && (m.pc.PollSaw? || m.pc.ParkReady? ==> m.lastEpoch <= m.pc.t <= e.epoch)
    && (ParkedPC(m.pc) ==> m.pc.cur == m.lastEpoch)
    && (m.pc.NatAdopt? ==> e.running)
    // a driver is not stopped by its own request, nor a newcomer by one from before it came
    && (CoordPC(m.pc) && !m.pc.DrvCoord? && !m.pc.DrvBumped? && !m.pc.RegHeld? ==> m.lastEpoch == e.epoch)
    // a mutator that has caught up with a stop is parked
    && (e.Stopping() && m.lastEpoch == e.epoch && m.active && !m.coord && !m.native ==> ParkedPC(m.pc))
  }

  /** No lost wakeup: an un-notified sleeper sleeps for a reason that still holds. */
  predicate SleepOk(m: Mut, e: Env) {
    && (m.pc.ParkSleep? && !m.pc.notified ==> m.pc.cur == e.epoch && (!e.running || e.resuming))
    && (m.pc.NatSleep? && !m.pc.notified ==> !e.running || e.resuming)
  }

  /** Roots the thread holds are up to date; a published snapshot is what was published,
      moved by every collection since. */
  predicate RootsOk(m: Mut, e: Env) {
    && (HoldsRoots(m.pc) ==> m.ver == |e.log|)
    && (Published(m.pc) ==> m.at <= |e.log| && m.snap == MovedAll(e.log[m.at..], m.pub))
  }

  predicate MutOk(m: Mut, e: Env) {
    FlagsOk(m, e) && EpochOk(m, e) && SleepOk(m, e) && RootsOk(m, e)
  }

  ghost predicate MutsOk(s: State) {
    && (s.park.Some? ==> s.park.value < |s.ms|) && (s.coord.Some? ==> s.coord.value < |s.ms|)
    && (!s.running ==> s.coord.Some? && StopPC(s.ms[s.coord.value].pc))
    && forall j | 0 <= j < |s.ms| :: MutOk(s.ms[j], EnvOf(s, j))
  }

  /** The driver's wait loop has let `x` pass. */
  predicate Passed(s: State, t: nat, x: nat) {
    x < |s.ms| ==> !Awaited(s.ms[x], t)
  }

  /** Somebody is about to notify. */
  predicate Noticing(s: State) {
    s.park.Some? && s.park.value < |s.ms| && NoticePC(s.ms[s.park.value].pc)
  }

  /** The driver at `d`: it knows every active mutator, those before its index have passed,
      and if it sleeps un-notified the one it waits for has not. */
  ghost predicate DriverOk(s: State, d: nat)
    requires d < |s.ms|
  {
    match s.ms[d].pc
    case DrvListed(t, others) => Knows(s, others)
    case DrvCheck(t, others, k) => Knows(s, others) && k <= |others| && forall n | 0 <= n < k :: Passed(s, t, others[n])
    case DrvSleep(t, others, k, notified) =>
      && Knows(s, others) && k < |others| && (forall n | 0 <= n < k :: Passed(s, t, others[n]))
      && (notified || Noticing(s) || !Passed(s, t, others[k]))
    case DrvCollect(t, others) => Knows(s, others) && forall n | 0 <= n < |others| :: Passed(s, t, others[n])
    case DrvDone(t, others) => Knows(s, others) && forall n | 0 <= n < |others| :: Passed(s, t, others[n])
    case _ => true
  }

  ghost predicate Knows(s: State, others: seq<nat>) {
    forall j | 0 <= j < |s.ms| && s.ms[j].active :: j in others
  }

  ghost predicate Inv(s: State) {
    MutsOk(s) && (s.coord.Some? ==> DriverOk(s, s.coord.value))
  }

  // -- Mutators, step by step -----------------------------------------------

  lemma MovedNext(log: seq<Relocation>, r: Relocation, at: nat, roots: Roots)
    requires at <= |log|
    ensures MovedAll((log + [r])[at..], roots) == Moved(r, MovedAll(log[at..], roots))
  {
    var longer := (log + [r])[at..];
    assert longer[..|longer| - 1] == log[at..];
  }

  /** Only mutator `i` changed, and perhaps the locks it holds; it was and is neither
      stopping nor resuming the world. */
  function Local(s: State, i: nat, m: Mut, park: Option<nat>, coord: Option<nat>): State
    requires i < |s.ms|
  {
    s.(ms := s.ms[i := m], park := park, coord := coord)
  }

  predicate OwnLock(i: nat, before: Option<nat>, after: Option<nat>) {
    after == before || ((before.None? || before == Some(i)) && (after.None? || after == Some(i)))
  }

  /** Then the others see the world as it was. */
  lemma LocalOk(s: State, i: nat, m: Mut, park: Option<nat>, coord: Option<nat>)
    requires MutsOk(s) && i < |s.ms| && OwnLock(i, s.park, park) && OwnLock(i, s.coord, coord)
    requires !ResumePC(s.ms[i].pc) && !BumpPC(s.ms[i].pc) && !ResumePC(m.pc) && !BumpPC(m.pc)
    requires !s.running && s.coord == Some(i) ==> coord == Some(i) && StopPC(m.pc)
    requires MutOk(m, EnvOf(s, i).(hasPark := park == Some(i), hasCoord := coord == Some(i)))
    ensures MutsOk(Local(s, i, m, park, coord))
  {
    var s' := Local(s, i, m, park, coord);
    hide MutOk, ResumePC, BumpPC, StopPC;
    forall j | 0 <= j < |s.ms| ensures MutOk(s'.ms[j], EnvOf(s', j)) {
      if j == i {
        assert EnvOf(s', i) == EnvOf(s, i).(hasPark := park == Some(i), hasCoord := coord == Some(i));
      } else {
        assert EnvOf(s', j) == EnvOf(s, j);
      }
    }
  }

  lemma At(s: State, i: nat)
    requires MutsOk(s) && i < |s.ms|
    ensures MutOk(s.ms[i], EnvOf(s, i))
    ensures s.park == Some(i) <==> LockPC(s.ms[i].pc)
    ensures s.coord == Some(i) <==> CoordPC(s.ms[i].pc)
    ensures !s.running ==> s.coord.Some? && s.coord.value < |s.ms| && StopPC(s.ms[s.coord.value].pc)
    ensures EnvOf(s, i).bumping ==> s.coord.Some? && s.coord.value < |s.ms| && BumpPC(s.ms[s.coord.value].pc)
    ensures EnvOf(s, i).resuming ==> s.coord.Some? && s.coord.value < |s.ms| && ResumePC(s.ms[s.coord.value].pc)
  {
    if s.park.Some? { assert MutOk(s.ms[s.park.value], EnvOf(s, s.park.value)); }
  }

  lemma MovedNone(log: seq<Relocation>, roots: Roots)
    ensures MovedAll(log[|log|..], roots) == roots
  {
    assert log[|log|..] == [];
  }

  lemma SelfRegisterOk(m: Mut, e: Env)
    requires MutOk(m, e) && RegisterPC(m.pc) && (m.pc.RegHeld? ==> !e.bumping)
    ensures m.pc.Out? ==> MutOk(m.(pc := RegWait), e)
    ensures m.pc.RegWait? && e.running ==> MutOk(m.(pc := RegHeld), e.(hasCoord := true))
    ensures m.pc.RegHeld? ==> MutOk(m.(pc := RegDone, registered := true, active := true, lastEpoch := e.epoch), e)
    ensures m.pc.RegDone? && !e.bumping ==> MutOk(m.(pc := Run, roots := [], ver := |e.log|), e.(hasCoord := false))
  {
    hide MovedAll;
  }

  /** Registration. */
  lemma RegisterOk(s: State, i: nat, c: Choice)
    requires MutsOk(s) && Can(s, i, c) && (RegisterPC(s.ms[i].pc))
    ensures MutsOk(DoRegister(s, i))
  {
    hide MutsOk, MutOk, Registered, NotifyAll, Collected, Woken;
    At(s, i);
    SelfRegisterOk(s.ms[i], EnvOf(s, i));
    var s' := DoRegister(s, i);
    assert s' == Local(s, i, s'.ms[i], s'.park, s'.coord);
    LocalOk(s, i, s'.ms[i], s'.park, s'.coord);
  }

  lemma SelfRunOk(m: Mut, e: Env, roots: Roots)
    requires MutOk(m, e) && m.pc.Run?
    ensures MutOk(m.(roots := roots), e) && MutOk(m.(pc := DropReady), e)
    ensures m.lastEpoch != e.epoch ==> MutOk(m.(pc := PollSaw(e.epoch)), e)
  {
    hide MovedAll;
  }

  /** Managed code works, polls, and leaves. */
  lemma RunOk(s: State, i: nat, c: Choice)
    requires MutsOk(s) && Can(s, i, c) && s.ms[i].pc.Run? && !c.GoNative? && !c.Drive?
    ensures MutsOk(DoRun(s, i, c))
  {
    hide MutsOk, MutOk, Registered, NotifyAll, Collected, Woken;
    At(s, i);
    SelfRunOk(s.ms[i], EnvOf(s, i), if c.Work? then c.roots else []);
    var s' := DoRun(s, i, c);
    assert s' == Local(s, i, s'.ms[i], s'.park, s'.coord);
    LocalOk(s, i, s'.ms[i], s'.park, s'.coord);
  }

  lemma SelfPublishOk(m: Mut, e: Env, pc: PC)
    requires MutOk(m, e) && m.pc.Run? && (pc.NatReady? || pc.DrvReady?)
    ensures MutOk(m.(pc := pc, snap := m.roots, pub := m.roots, at := |e.log|), e)
  {
    hide MovedAll;
    MovedNone(e.log, m.roots);
  }

  /** It publishes its roots before a native call or a collection. */
  lemma PublishOk(s: State, i: nat, c: Choice)
    requires MutsOk(s) && Can(s, i, c) && s.ms[i].pc.Run? && (c.GoNative? || c.Drive?)
    ensures MutsOk(DoRun(s, i, c))
  {
    hide MutsOk, MutOk, Registered, NotifyAll, Collected, Woken;
    At(s, i);
    var s' := DoRun(s, i, c);
    SelfPublishOk(s.ms[i], EnvOf(s, i), s'.ms[i].pc);
    assert s' == Local(s, i, s'.ms[i], s'.park, s'.coord);
    LocalOk(s, i, s'.ms[i], s'.park, s'.coord);
  }

  lemma SelfParkEnterOk(m: Mut, e: Env)
    requires MutOk(m, e) && (m.pc.PollSaw? || m.pc.ParkReady?)
    ensures MutOk(m.(pc := ParkReady(m.pc.t), snap := m.roots, pub := m.roots, at := |e.log|), e) || m.pc.ParkReady?
    ensures m.pc.ParkReady? && !e.bumping ==>
              MutOk(m.(pc := ParkStored(m.pc.t), lastEpoch := m.pc.t), e.(hasPark := true))
  {
    MovedNone(e.log, m.roots);
    hide MovedAll;
  }

  /** Parking. */
  lemma ParkEnterOk(s: State, i: nat, c: Choice)
    requires MutsOk(s) && Can(s, i, c) && (s.ms[i].pc.PollSaw? || s.ms[i].pc.ParkReady?)
    ensures MutsOk(DoPark(s, i, c))
  {
    hide MutsOk, MutOk, Registered, NotifyAll, Collected, Woken;
    At(s, i);
    SelfParkEnterOk(s.ms[i], EnvOf(s, i));
    var s' := DoPark(s, i, c);
    assert s' == Local(s, i, s'.ms[i], s'.park, s'.coord);
    LocalOk(s, i, s'.ms[i], s'.park, s'.coord);
  }

  lemma SelfParkLoopOk(m: Mut, e: Env)
    requires MutOk(m, e) && m.pc.ParkLoop? && !e.bumping && !e.resuming
    ensures m.pc.cur != e.epoch ==> MutOk(m.(pc := ParkStored(e.epoch), lastEpoch := e.epoch), e)
    ensures m.pc.cur == e.epoch && e.running ==> MutOk(m.(pc := ParkCopy), e.(hasPark := false))
    ensures m.pc.cur == e.epoch && !e.running ==> MutOk(m.(pc := ParkSleep(m.pc.cur, false)), e.(hasPark := false))
  {
    hide MovedAll;
  }

  lemma ParkLoopOk(s: State, i: nat, c: Choice)
    requires MutsOk(s) && Can(s, i, c) && (s.ms[i].pc.ParkLoop?)
    ensures MutsOk(DoPark(s, i, c))
  {
    hide MutsOk, MutOk, Registered, NotifyAll, Collected, Woken;
    At(s, i);
    SelfParkLoopOk(s.ms[i], EnvOf(s, i));
    var s' := DoPark(s, i, c);
    assert s' == Local(s, i, s'.ms[i], s'.park, s'.coord);
    LocalOk(s, i, s'.ms[i], s'.park, s'.coord);
  }

  lemma SelfParkLeaveOk(m: Mut, e: Env)
    requires MutOk(m, e) && (m.pc.ParkSleep? || m.pc.ParkCopy?)
    ensures m.pc.ParkSleep? ==>
              MutOk(m.(pc := ParkSleep(m.pc.cur, true)), e) && MutOk(m.(pc := ParkLoop(m.pc.cur)), e.(hasPark := true))
    ensures m.pc.ParkCopy? ==> MutOk(m.(pc := Run, roots := m.snap, ver := |e.log|), e)
  {
    hide MovedAll;
  }

  lemma ParkLeaveOk(s: State, i: nat, c: Choice)
    requires MutsOk(s) && Can(s, i, c) && (s.ms[i].pc.ParkSleep? || s.ms[i].pc.ParkCopy?)
    ensures MutsOk(DoPark(s, i, c))
  {
    hide MutsOk, MutOk, Registered, NotifyAll, Collected, Woken;
    At(s, i);
    SelfParkLeaveOk(s.ms[i], EnvOf(s, i));
    var s' := DoPark(s, i, c);
    assert s' == Local(s, i, s'.ms[i], s'.park, s'.coord);
    LocalOk(s, i, s'.ms[i], s'.park, s'.coord);
  }

  lemma SelfNativeEnterOk(m: Mut, e: Env)
    requires MutOk(m, e) && (m.pc.NatReady? || m.pc.Native?)
    ensures m.pc.NatReady? ==> MutOk(m.(pc := NatStored, native := true), e.(hasPark := true))
    ensures m.pc.Native? ==> MutOk(m.(pc := NatLoop), e.(hasPark := true))
    ensures m.pc.Native? ==> MutOk(m.(pc := DropStored, active := false), e.(hasPark := true))
  {
    hide MovedAll;
  }

  lemma SelfNativeLoopOk(m: Mut, e: Env)
    requires MutOk(m, e) && m.pc.NatLoop? && !e.bumping && !e.resuming
    ensures e.running ==> MutOk(m.(pc := NatAdopt, lastEpoch := e.epoch), e)
    ensures !e.running ==> MutOk(m.(pc := NatSleep(false)), e.(hasPark := false))
  {
    hide MovedAll;
  }

  lemma SelfNativeLeaveOk(m: Mut, e: Env)
    requires MutOk(m, e) && (m.pc.NatSleep? || (m.pc.NatAdopt? && !e.bumping) || m.pc.NatCopy?)
    ensures m.pc.NatSleep? ==> MutOk(m.(pc := NatSleep(true)), e) && MutOk(m.(pc := NatLoop), e.(hasPark := true))
    ensures m.pc.NatAdopt? ==> MutOk(m.(pc := NatCopy, native := false), e.(hasPark := false))
    ensures m.pc.NatCopy? ==> MutOk(m.(pc := Run, roots := m.snap, ver := |e.log|), e)
  {
    hide MovedAll;
  }

  /** Native calls. */
  lemma NativeEnterOk(s: State, i: nat, c: Choice)
    requires MutsOk(s) && Can(s, i, c) && (s.ms[i].pc.NatReady? || s.ms[i].pc.Native?)
    ensures MutsOk(DoNative(s, i, c))
  {
    hide MutsOk, MutOk, Registered, NotifyAll, Collected, Woken;
    At(s, i);
    SelfNativeEnterOk(s.ms[i], EnvOf(s, i));
    var s' := DoNative(s, i, c);
    assert s' == Local(s, i, s'.ms[i], s'.park, s'.coord);
    LocalOk(s, i, s'.ms[i], s'.park, s'.coord);
  }

  lemma NativeLoopOk(s: State, i: nat, c: Choice)
    requires MutsOk(s) && Can(s, i, c) && (s.ms[i].pc.NatLoop?)
    ensures MutsOk(DoNative(s, i, c))
  {
    hide MutsOk, MutOk, Registered, NotifyAll, Collected, Woken;
    At(s, i);
    SelfNativeLoopOk(s.ms[i], EnvOf(s, i));
    var s' := DoNative(s, i, c);
    assert s' == Local(s, i, s'.ms[i], s'.park, s'.coord);
    LocalOk(s, i, s'.ms[i], s'.park, s'.coord);
  }

  lemma NativeLeaveOk(s: State, i: nat, c: Choice)
    requires MutsOk(s) && Can(s, i, c) && (s.ms[i].pc.NatSleep? || s.ms[i].pc.NatAdopt? || s.ms[i].pc.NatCopy?)
    ensures MutsOk(DoNative(s, i, c))
  {
    hide MutsOk, MutOk, Registered, NotifyAll, Collected, Woken;
    At(s, i);
    SelfNativeLeaveOk(s.ms[i], EnvOf(s, i));
    var s' := DoNative(s, i, c);
    assert s' == Local(s, i, s'.ms[i], s'.park, s'.coord);
    LocalOk(s, i, s'.ms[i], s'.park, s'.coord);
  }

  lemma SelfWaitOk(m: Mut, e: Env)
    requires MutOk(m, e)
    ensures m.pc.DrvStopped? ==> forall others: seq<nat> :: MutOk(m.(pc := DrvListed(m.pc.t, others)), e)
    ensures m.pc.DrvListed? ==> MutOk(m.(pc := DrvCheck(m.pc.t, m.pc.others, 0)), e.(hasPark := true))
    ensures m.pc.DrvSleep? ==> MutOk(m.(pc := DrvSleep(m.pc.t, m.pc.others, m.pc.k, true)), e)
    ensures m.pc.DrvSleep? ==> MutOk(m.(pc := DrvCheck(m.pc.t, m.pc.others, m.pc.k)), e.(hasPark := true))
  {
    hide MovedAll;
  }

  lemma SelfCheckOk(m: Mut, e: Env)
    requires MutOk(m, e) && m.pc.DrvCheck?
    ensures MutOk(m.(pc := DrvCollect(m.pc.t, m.pc.others)), e.(hasPark := false))
    ensures MutOk(m.(pc := DrvSleep(m.pc.t, m.pc.others, m.pc.k, false)), e.(hasPark := false))
    ensures MutOk(m.(pc := DrvCheck(m.pc.t, m.pc.others, m.pc.k + 1)), e)
  {
    hide MovedAll;
  }

  /** The driver's wait loop. */
  lemma WaitStartOk(s: State, i: nat, c: Choice)
    requires MutsOk(s) && Can(s, i, c) && (s.ms[i].pc.DrvStopped? || s.ms[i].pc.DrvListed?)
    ensures MutsOk(DoWait(s, i, c))
  {
    hide MutsOk, MutOk, Registered, NotifyAll, Collected, Woken;
    At(s, i);
    SelfWaitOk(s.ms[i], EnvOf(s, i));
    var s' := DoWait(s, i, c);
    assert s' == Local(s, i, s'.ms[i], s'.park, s'.coord);
    LocalOk(s, i, s'.ms[i], s'.park, s'.coord);
  }

  lemma WaitCheckOk(s: State, i: nat, c: Choice)
    requires MutsOk(s) && Can(s, i, c) && (s.ms[i].pc.DrvCheck?)
    ensures MutsOk(DoWait(s, i, c))
  {
    hide MutsOk, MutOk, Registered, NotifyAll, Collected, Woken;
    At(s, i);
    SelfCheckOk(s.ms[i], EnvOf(s, i));
    var s' := DoWait(s, i, c);
    assert s' == Local(s, i, s'.ms[i], s'.park, s'.coord);
    LocalOk(s, i, s'.ms[i], s'.park, s'.coord);
  }

  lemma WaitSleepOk(s: State, i: nat, c: Choice)
    requires MutsOk(s) && Can(s, i, c) && (s.ms[i].pc.DrvSleep?)
    ensures MutsOk(DoWait(s, i, c))
  {
    hide MutsOk, MutOk, Registered, NotifyAll, Collected, Woken;
    At(s, i);
    SelfWaitOk(s.ms[i], EnvOf(s, i));
    var s' := DoWait(s, i, c);
    assert s' == Local(s, i, s'.ms[i], s'.park, s'.coord);
    LocalOk(s, i, s'.ms[i], s'.park, s'.coord);
  }

  lemma SelfDropOk(m: Mut, e: Env)
    requires MutOk(m, e) && (m.pc.DropReady? || m.pc.Dropped?)
    ensures m.pc.DropReady? ==> MutOk(m.(pc := DropStored, active := false), e.(hasPark := true))
    ensures m.pc.Dropped? ==> MutOk(m.(pc := Out, registered := false, native := false), e)
  {
    hide MovedAll;
  }

  /** Dropping the handle. */
  lemma DropOk(s: State, i: nat, c: Choice)
    requires MutsOk(s) && Can(s, i, c) && (s.ms[i].pc.DropReady? || s.ms[i].pc.Dropped?)
    ensures MutsOk(DoDrop(s, i))
  {
    hide MutsOk, MutOk, Registered, NotifyAll, Collected, Woken;
    At(s, i);
    SelfDropOk(s.ms[i], EnvOf(s, i));
    var s' := DoDrop(s, i);
    assert s' == Local(s, i, s'.ms[i], s'.park, s'.coord);
    LocalOk(s, i, s'.ms[i], s'.park, s'.coord);
  }

  lemma SelfFlagOk(m: Mut, e: Env)
    requires MutOk(m, e) && (m.pc.DrvReady? || m.pc.DrvQueue?)
    ensures m.pc.DrvReady? ==> MutOk(m.(pc := DrvFlagged, coord := true), e.(hasPark := true))
    ensures m.pc.DrvQueue? && e.running ==> MutOk(m.(pc := DrvCoord), e.(hasCoord := true))
  {
    hide MovedAll;
  }

  /** Becoming a driver. */
  lemma FlagOk(s: State, i: nat, c: Choice)
    requires MutsOk(s) && Can(s, i, c) && (s.ms[i].pc.DrvReady? || s.ms[i].pc.DrvQueue?)
    ensures MutsOk(DoStop(s, i))
  {
    hide MutsOk, MutOk, Registered, NotifyAll, Collected, Woken;
    At(s, i);
    SelfFlagOk(s.ms[i], EnvOf(s, i));
    var s' := DoStop(s, i);
    assert s' == Local(s, i, s'.ms[i], s'.park, s'.coord);
    LocalOk(s, i, s'.ms[i], s'.park, s'.coord);
  }

  lemma SelfCopyOk(m: Mut, e: Env)
    requires MutOk(m, e) && (m.pc.DrvRelease? || m.pc.DrvCopy?)
    ensures m.pc.DrvRelease? && !e.bumping ==> MutOk(m.(pc := DrvCopy), e.(hasCoord := false))
    ensures m.pc.DrvCopy? ==> MutOk(m.(pc := Run, roots := m.snap, ver := |e.log|), e)
  {
    hide MovedAll;
  }

  /** After the resume. */
  lemma CopyOk(s: State, i: nat, c: Choice)
    requires MutsOk(s) && Can(s, i, c) && (s.ms[i].pc.DrvRelease? || s.ms[i].pc.DrvCopy?)
    ensures MutsOk(DoResume(s, i))
  {
    hide MutsOk, MutOk, Registered, NotifyAll, Collected, Woken;
    At(s, i);
    SelfCopyOk(s.ms[i], EnvOf(s, i));
    var s' := DoResume(s, i);
    assert s' == Local(s, i, s'.ms[i], s'.park, s'.coord);
    LocalOk(s, i, s'.ms[i], s'.park, s'.coord);
  }

  // -- Steps that notify ----------------------------------------------------

  lemma WokenOk(m: Mut, e: Env)
    requires MutOk(m, e)
    ensures MutOk(Woken(m), e) && MutOk(Woken(m), e.(resuming := false))
  {
    hide MovedAll;
  }

  lemma WokenPC(m: Mut)
    ensures ResumePC(Woken(m).pc) == ResumePC(m.pc) && BumpPC(Woken(m).pc) == BumpPC(m.pc)
    ensures StopPC(Woken(m).pc) == StopPC(m.pc)
    ensures LockPC(Woken(m).pc) == LockPC(m.pc) && NoticePC(Woken(m).pc) == NoticePC(m.pc)
  {
  }

  lemma NotifyOk(s: State)
    requires MutsOk(s)
    ensures MutsOk(Notify(s))
  {
    hide MutOk, ResumePC, BumpPC, StopPC, Woken;
    var s' := Notify(s);
    if s.park.Some? { WokenPC(s.ms[s.park.value]); }
    if s.coord.Some? { WokenPC(s.ms[s.coord.value]); }
    forall j | 0 <= j < |s.ms| ensures MutOk(s'.ms[j], EnvOf(s', j)) {
      WokenOk(s.ms[j], EnvOf(s, j));
      assert EnvOf(s', j) == EnvOf(s, j);
    }
  }

  /** The mutator that notifies, once it is past the notification. */
  function Past(m: Mut): Mut {
    match m.pc
    case ParkStored(cur) => m.(pc := ParkLoop(cur))
    case NatStored => m.(pc := Native)
    case DrvFlagged => m.(pc := DrvQueue)
    case _ => m.(pc := Dropped)
  }

  lemma SelfPastOk(m: Mut, e: Env)
    requires MutOk(m, e) && NoticePC(m.pc)
    ensures MutOk(Past(m), e.(hasPark := m.pc.ParkStored?))
    ensures !ResumePC(Past(m).pc) && !BumpPC(Past(m).pc) && !ResumePC(m.pc) && !BumpPC(m.pc) && !CoordPC(m.pc)
  {
    hide MovedAll;
  }

  lemma NoticeDoes(s: State, i: nat, c: Choice)
    requires Can(s, i, c) && NoticePC(s.ms[i].pc) && s.park == Some(i)
    ensures Do(s, i, c) == Notify(Local(s, i, Past(s.ms[i]), if s.ms[i].pc.ParkStored? then s.park else None, s.coord))
  {
    hide NotifyAll, Woken, DoRegister, DoRun, DoWait, DoCollect, DoResume;
  }

  lemma NoticeOk(s: State, i: nat, c: Choice)
    requires MutsOk(s) && Can(s, i, c) && NoticePC(s.ms[i].pc)
    ensures MutsOk(Do(s, i, c))
  {
    hide MutsOk, MutOk, Do, Past, NotifyAll, ResumePC, BumpPC, StopPC, CoordPC;
    At(s, i);
    var park := if s.ms[i].pc.ParkStored? then s.park else None;
    SelfPastOk(s.ms[i], EnvOf(s, i));
    LockHeld(s, i);
    LocalOk(s, i, Past(s.ms[i]), park, s.coord);
    NotifyOk(Local(s, i, Past(s.ms[i]), park, s.coord));
    NoticeDoes(s, i, c);
  }

  lemma LockHeld(s: State, i: nat)
    requires MutsOk(s) && i < |s.ms| && LockPC(s.ms[i].pc)
    ensures s.park == Some(i)
  {
    At(s, i);
  }

  // -- Stopping the world ---------------------------------------------------

  /** What a mutator that holds neither lock makes of a new epoch. */
  lemma NewEpochOk(m: Mut, e: Env)
    requires MutOk(m, e) && !e.hasPark && !e.hasCoord && e.running && !e.resuming && !e.bumping
    ensures MutOk(m, e.(epoch := e.epoch + 1, bumping := true))
  {
    hide MovedAll;
  }

  lemma StoppedOk(m: Mut, e: Env)
    requires MutOk(m, e) && !e.hasPark && !e.hasCoord && e.bumping
    ensures MutOk(m, e.(running := false, bumping := false))
  {
    hide MovedAll;
  }

  lemma ResumedOk(m: Mut, e: Env)
    requires MutOk(m, e) && !e.hasPark && !e.hasCoord && !e.bumping
    ensures MutOk(m, e.(running := true, resuming := true))
  {
    hide MovedAll;
  }

  lemma BumpOk(s: State, i: nat, c: Choice)
    requires MutsOk(s) && Can(s, i, c) && s.ms[i].pc.DrvCoord?
    ensures MutsOk(DoStop(s, i))
  {
    hide MovedAll, MutOk;
    var s' := DoStop(s, i);
    At(s, i);
    SelfBumpOk(s.ms[i], EnvOf(s, i));
    forall j | 0 <= j < |s.ms| ensures MutOk(s'.ms[j], EnvOf(s', j)) {
      if j == i {
        assert EnvOf(s', i) == EnvOf(s, i).(epoch := s.epoch + 1, hasPark := true, bumping := true);
      } else {
        NewEpochOk(s.ms[j], EnvOf(s, j)) by { NoLocks(s, i, j); }
        assert EnvOf(s', j) == EnvOf(s, j).(epoch := s.epoch + 1, bumping := true);
      }
    }
  }

  lemma SelfBumpOk(m: Mut, e: Env)
    requires MutOk(m, e) && m.pc.DrvCoord?
    ensures MutOk(m.(pc := DrvBumped(e.epoch + 1)), e.(epoch := e.epoch + 1, hasPark := true, bumping := true))
  {
    hide MovedAll;
  }

  /** While `i` is at DrvCoord with the park lock free, the world runs and nobody stops or resumes it. */
  lemma NoLocks(s: State, i: nat, j: nat)
    requires MutsOk(s) && i < |s.ms| && s.ms[i].pc.DrvCoord? && s.park.None? && j < |s.ms| && j != i
    ensures var e := EnvOf(s, j); !e.hasPark && !e.hasCoord && e.running && !e.resuming && !e.bumping
  {
    At(s, i);
    hide MutOk;
  }

  lemma SelfOk(s: State, i: nat, c: Choice)
    requires MutsOk(s) && Can(s, i, c) && s.ms[i].pc.DrvBumped?
    ensures MutsOk(DoStop(s, i))
  {
    hide MovedAll;
    var s' := DoStop(s, i);
    At(s, i);
    forall j | 0 <= j < |s.ms| ensures MutOk(s'.ms[j], EnvOf(s', j)) {
      assert EnvOf(s', j) == EnvOf(s, j);
      if j != i { hide MutOk; }
    }
  }

  lemma StopOk(s: State, i: nat, c: Choice)
    requires MutsOk(s) && Can(s, i, c) && s.ms[i].pc.DrvSelf?
    ensures MutsOk(DoStop(s, i))
  {
    hide MovedAll, MutOk;
    var s' := DoStop(s, i);
    At(s, i);
    SelfStopOk(s.ms[i], EnvOf(s, i));
    forall j | 0 <= j < |s.ms| ensures MutOk(s'.ms[j], EnvOf(s', j)) {
      if j == i {
        assert EnvOf(s', i) == EnvOf(s, i).(running := false, hasPark := false, bumping := false, resuming := false);
      } else {
        StoppedOk(s.ms[j], EnvOf(s, j));
        assert EnvOf(s', j) == EnvOf(s, j).(running := false, bumping := false);
      }
    }
  }

  lemma SelfStopOk(m: Mut, e: Env)
    requires MutOk(m, e) && m.pc.DrvSelf?
    ensures MutOk(m.(pc := DrvStopped(m.pc.t)),
        e.(running := false, hasPark := false, bumping := false, resuming := false))
  {
    hide MovedAll;
  }

  // -- Resuming it ----------------------------------------------------------

  lemma ResumeOk(s: State, i: nat, c: Choice)
    requires MutsOk(s) && Can(s, i, c) && s.ms[i].pc.DrvDone?
    ensures MutsOk(DoResume(s, i))
  {
    hide MovedAll, MutOk;
    var s' := DoResume(s, i);
    At(s, i);
    SelfResumeOk(s.ms[i], EnvOf(s, i));
    forall j | 0 <= j < |s.ms| ensures MutOk(s'.ms[j], EnvOf(s', j)) {
      if j == i {
        assert EnvOf(s', i) == EnvOf(s, i).(running := true, hasPark := true, resuming := true, bumping := false);
      } else {
        ResumedOk(s.ms[j], EnvOf(s, j));
        assert EnvOf(s', j) == EnvOf(s, j).(running := true, resuming := true);
      }
    }
  }

  lemma SelfResumeOk(m: Mut, e: Env)
    requires MutOk(m, e) && m.pc.DrvDone?
    ensures MutOk(m.(pc := DrvResumed), e.(running := true, hasPark := true, resuming := true, bumping := false))
  {
    hide MovedAll;
  }

  lemma ClearOk(s: State, i: nat, c: Choice)
    requires MutsOk(s) && Can(s, i, c) && s.ms[i].pc.DrvResumed?
    ensures MutsOk(DoResume(s, i))
  {
    hide MovedAll, MutOk;
    var s' := DoResume(s, i);
    At(s, i);
    SelfClearOk(s.ms[i], EnvOf(s, i));
    forall j | 0 <= j < |s.ms| ensures MutOk(s'.ms[j], EnvOf(s', j)) {
      assert EnvOf(s', j) == EnvOf(s, j);
    }
  }

  lemma SelfClearOk(m: Mut, e: Env)
    requires MutOk(m, e) && m.pc.DrvResumed? && e.resuming && !e.bumping
    ensures MutOk(m.(pc := DrvCleared, coord := false), e)
  {
    hide MovedAll;
  }

  lemma ReleaseOk(s: State, i: nat, c: Choice)
    requires MutsOk(s) && Can(s, i, c) && s.ms[i].pc.DrvCleared?
    ensures MutsOk(DoResume(s, i))
  {
    hide MovedAll, MutOk, Woken;
    var s' := DoResume(s, i);
    At(s, i);
    SelfReleaseOk(s.ms[i], EnvOf(s, i));
    forall j | 0 <= j < |s.ms| ensures MutOk(s'.ms[j], EnvOf(s', j)) {
      if j != i { WokenOk(s.ms[j], EnvOf(s, j)); }
    }
  }

  lemma SelfReleaseOk(m: Mut, e: Env)
    requires MutOk(m, e) && m.pc.DrvCleared?
    ensures Woken(m.(pc := DrvRelease)) == m.(pc := DrvRelease)
    ensures MutOk(m.(pc := DrvRelease), e.(hasPark := false, resuming := false, bumping := false))
  {
    hide MovedAll;
  }

  // -- The driver -----------------------------------------------------------

  /** What one mutator looks like to a driver past its wait loop. */
  predicate Stopped(pc: PC) {
    ParkedPC(pc) || pc.NatStored? || pc.Native? || pc.NatLoop? || pc.NatSleep? || pc.DrvFlagged? || pc.DrvQueue?
  }

  /** Stop-the-world exclusion: while a driver is past its wait loop and has not resumed,
      every other active mutator is parked, in native code or blocked returning from
      it, or blocked as a later driver; nobody else holds the coordinator lock. */
  lemma Exclusion(s: State, d: nat, j: nat)
    requires Inv(s) && d < |s.ms| && (s.ms[d].pc.DrvCollect? || s.ms[d].pc.DrvDone?)
    requires j < |s.ms| && j != d && s.ms[j].active
    ensures Stopped(s.ms[j].pc) && !s.running && s.coord == Some(d)
    ensures j in s.ms[d].pc.others
  {
    hide MovedAll;
    At(s, d);
    At(s, j);
    assert DriverOk(s, d);
    var n :| 0 <= n < |s.ms[d].pc.others| && s.ms[d].pc.others[n] == j;
    assert Passed(s, s.ms[d].pc.t, s.ms[d].pc.others[n]);
  }

  /** One collection: every published snapshot is moved along. */
  lemma CollectOk(s: State, i: nat, r: Relocation)
    requires Inv(s) && i < |s.ms| && s.ms[i].pc.DrvCollect?
    ensures MutsOk(DoCollect(s, i, s.ms[i].pc.others, s.ms[i].pc.t, r))
  {
    hide MovedAll, MutOk, DriverOk, Moved, Stopped;
    var s' := DoCollect(s, i, s.ms[i].pc.others, s.ms[i].pc.t, r);
    At(s, i);
    SelfInOthers(s, i);
    forall j | 0 <= j < |s.ms| ensures MutOk(s'.ms[j], EnvOf(s', j)) {
      At(s, j);
      if j == i {
        SelfCollectOk(s.ms[i], EnvOf(s, i), r);
      } else {
        if s.ms[j].active { Exclusion(s, i, j); }
        OtherCollectOk(s.ms[j], EnvOf(s, j), r);
      }
    }
  }

  lemma SelfInOthers(s: State, i: nat)
    requires Inv(s) && i < |s.ms| && s.ms[i].pc.DrvCollect?
    ensures s.ms[i].active && i in s.ms[i].pc.others && s.coord == Some(i) && s.park != Some(i)
  {
    hide MovedAll;
    At(s, i);
    assert DriverOk(s, i);
  }

  lemma SelfCollectOk(m: Mut, e: Env, r: Relocation)
    requires MutOk(m, e) && m.pc.DrvCollect?
    ensures MutOk(m.(snap := Moved(r, m.snap), pc := DrvDone(m.pc.t, m.pc.others)), e.(log := e.log + [r]))
  {
    hide MovedAll, Moved;
    MovedNext(e.log, r, m.at, m.pub);
  }

  lemma OtherCollectOk(m: Mut, e: Env, r: Relocation)
    requires MutOk(m, e) && (m.active ==> Stopped(m.pc))
    ensures m.active ==> MutOk(m.(snap := Moved(r, m.snap)), e.(log := e.log + [r]))
    ensures !m.active ==> MutOk(m, e.(log := e.log + [r]))
  {
    hide MovedAll, Moved;
    if m.at <= |e.log| { MovedNext(e.log, r, m.at, m.pub); }
  }

  // -- The driver's own bookkeeping -----------------------------------------

  predicate SameFlags(m: Mut, m': Mut) {
    m'.active == m.active && m'.coord == m.coord && m'.native == m.native && m'.lastEpoch == m.lastEpoch
  }

  /** How a step of `i` can matter to a driver that is stopping the world for epoch `t`:
      `i` cannot become awaited or active, and if it stops being awaited it is about to notify. */
  predicate Harmless(s: State, s': State, i: nat, t: nat)
    requires i < |s.ms| == |s'.ms|
  {
    && (s'.ms[i].active ==> s.ms[i].active)
    && (Awaited(s'.ms[i], t) ==> Awaited(s.ms[i], t))
    && (Awaited(s.ms[i], t) && !Awaited(s'.ms[i], t) ==> NoticePC(s'.ms[i].pc) && s'.park == Some(i))
  }

  /** The others keep their flags and, but for a wakeup, their place; whoever is about to
      notify does so, and nobody takes a lock from another. */
  ghost predicate Quiet(s: State, s': State, i: nat)
    requires i < |s.ms| == |s'.ms|
  {
    && (forall x | 0 <= x < |s.ms| && x != i :: SameFlags(s.ms[x], s'.ms[x])
          && (s'.ms[x].pc == s.ms[x].pc || s'.ms[x].pc == Woken(s.ms[x]).pc))
    && (NoticePC(s.ms[i].pc) ==> forall x | 0 <= x < |s.ms| && x != i :: s'.ms[x].pc == Woken(s.ms[x]).pc)
    && OwnLock(i, s.park, s'.park)
  }

  lemma QuietLocal(s: State, s': State, i: nat)
    requires i < |s.ms| == |s'.ms| && (forall x | 0 <= x < |s.ms| && x != i :: s'.ms[x] == s.ms[x])
    requires OwnLock(i, s.park, s'.park) && !NoticePC(s.ms[i].pc)
    ensures Quiet(s, s', i)
  {
    hide Woken, NoticePC;
  }

  lemma QuietNotify(s: State, s': State, i: nat)
    requires i < |s.ms| == |s'.ms| && (forall x | 0 <= x < |s.ms| && x != i :: s'.ms[x] == Woken(s.ms[x]))
    requires OwnLock(i, s.park, s'.park)
    ensures Quiet(s, s', i)
  {
    hide NoticePC;
  }

  /** What another mutator's step does to the driver at `d`. */
  lemma DriverElsewhere(s: State, s': State, d: nat, i: nat)
    requires Inv(s) && s.coord == Some(d) && StopPC(s.ms[d].pc) && i < |s.ms| == |s'.ms| && i != d
    requires Quiet(s, s', i) && Harmless(s, s', i, s.epoch)
    ensures DriverOk(s', d)
  {
    hide MovedAll, MutOk, Quiet, Harmless;
    At(s, d);
    if TargetOf(s.ms[d].pc).Some? {
      DriverTarget(s, d);
      forall x: nat | Passed(s, s.epoch, x) ensures Passed(s', s.epoch, x) { StillPassed(s, s', i, x); }
      QuietAt(s, s', i, d);
      match s.ms[d].pc
      case DrvListed(t, others) => StillKnows(s, s', i, others);
      case DrvCheck(t, others, k) => StillKnows(s, s', i, others);
      case DrvSleep(t, others, k, notified) =>
        StillKnows(s, s', i, others);
        StillAsleep(s, s', d, i, others[k]);
      case DrvCollect(t, others) => StillKnows(s, s', i, others);
      case DrvDone(t, others) => StillKnows(s, s', i, others);
      case _ =>
    }
  }

  lemma DriverTarget(s: State, d: nat)
    requires MutsOk(s) && d < |s.ms| && TargetOf(s.ms[d].pc).Some?
    ensures TargetOf(s.ms[d].pc).value == s.epoch
  {
    At(s, d);
  }

  lemma QuietAt(s: State, s': State, i: nat, d: nat)
    requires i < |s.ms| == |s'.ms| && Quiet(s, s', i) && d < |s.ms| && d != i
    ensures s'.ms[d].pc == s.ms[d].pc || s'.ms[d].pc == Woken(s.ms[d]).pc
  {
    hide NoticePC, Woken;
  }

  lemma StillPassed(s: State, s': State, i: nat, x: nat)
    requires i < |s.ms| == |s'.ms| && Quiet(s, s', i) && Harmless(s, s', i, s.epoch) && Passed(s, s.epoch, x)
    ensures Passed(s', s.epoch, x)
  {
    hide NoticePC, Woken;
  }

  lemma StillKnows(s: State, s': State, i: nat, others: seq<nat>)
    requires i < |s.ms| == |s'.ms| && Quiet(s, s', i) && Harmless(s, s', i, s.epoch) && Knows(s, others)
    ensures Knows(s', others)
  {
    hide NoticePC, Woken;
    forall j | 0 <= j < |s'.ms| && s'.ms[j].active ensures j in others {
      assert s.ms[j].active;
    }
  }

  /** An un-notified driver still waits for somebody awaited, or a notification is on its way. */
  lemma StillAsleep(s: State, s': State, d: nat, i: nat, x: nat)
    requires MutsOk(s) && i < |s.ms| == |s'.ms| && Quiet(s, s', i) && Harmless(s, s', i, s.epoch) && d < |s.ms|
    requires d != i
    requires s.ms[d].pc.DrvSleep? && (s.ms[d].pc.notified || Noticing(s) || !Passed(s, s.epoch, x))
    ensures s'.ms[d].pc.DrvSleep?
    ensures s'.ms[d].pc.notified || Noticing(s') || !Passed(s', s.epoch, x)
  {
    hide MovedAll, MutOk, Quiet, Harmless, NoticePC, MutsOk, Passed;
    QuietAt(s, s', i, d);
    if !s'.ms[d].pc.notified {
      if Noticing(s) {
        OnItsWay(s, s', d, i);
      } else {
        StillAwaited(s, s', i, x);
      }
    }
  }

  /** A pending notification stays pending until it is given. */
  lemma OnItsWay(s: State, s': State, d: nat, i: nat)
    requires MutsOk(s) && i < |s.ms| == |s'.ms| && Quiet(s, s', i) && d < |s.ms| && d != i
    requires s.ms[d].pc.DrvSleep? && Noticing(s) && s'.ms[d].pc.DrvSleep? && !s'.ms[d].pc.notified
    ensures Noticing(s')
  {
    hide MovedAll, MutOk, MutsOk;
    var p := s.park.value;
    assert p != i;
    NoticeStays(s.ms[p]);
  }

  lemma StillAwaited(s: State, s': State, i: nat, x: nat)
    requires i < |s.ms| == |s'.ms| && Quiet(s, s', i) && Harmless(s, s', i, s.epoch) && !Passed(s, s.epoch, x)
    ensures Noticing(s') || !Passed(s', s.epoch, x)
  {
    hide Woken, NoticePC;
  }

  lemma NoticeStays(m: Mut)
    requires NoticePC(m.pc)
    ensures Woken(m).pc == m.pc
  {
  }

  // -- Every step keeps the invariant ---------------------------------------

  lemma MutsStep(s: State, i: nat, c: Choice)
    requires Inv(s) && Can(s, i, c)
    ensures MutsOk(Do(s, i, c))
  {
    hide MutsOk, DriverOk, DoRegister, DoRun, DoPark, DoNative, DoStop, DoWait, DoCollect, DoResume, DoDrop;
    var pc := s.ms[i].pc;
    if NoticePC(pc) { NoticeOk(s, i, c); }
    else if RegisterPC(pc) { RegisterOk(s, i, c); }
    else if pc.Run? { if c.GoNative? || c.Drive? { PublishOk(s, i, c); } else { RunOk(s, i, c); } }
    else if ParkPC(pc) { ParkStep(s, i, c); }
    else if NativeSidePC(pc) { NativeStep(s, i, c); }
    else if StopSidePC(pc) { StopStep(s, i, c); }
    else if WaitPC(pc) { WaitStep(s, i, c); }
    else if pc.DrvCollect? { CollectOk(s, i, c.r); }
    else if ResumeSidePC(pc) { ResumeStep(s, i, c); }
    else { DropOk(s, i, c); }
  }

  lemma ParkStep(s: State, i: nat, c: Choice)
    requires MutsOk(s) && Can(s, i, c) && ParkPC(s.ms[i].pc) && !NoticePC(s.ms[i].pc)
    ensures MutsOk(DoPark(s, i, c))
  {
    hide MutsOk, DoPark;
    var pc := s.ms[i].pc;
    if pc.PollSaw? || pc.ParkReady? { ParkEnterOk(s, i, c); }
    else if pc.ParkLoop? { ParkLoopOk(s, i, c); }
    else { ParkLeaveOk(s, i, c); }
  }

  lemma NativeStep(s: State, i: nat, c: Choice)
    requires MutsOk(s) && Can(s, i, c) && NativeSidePC(s.ms[i].pc) && !NoticePC(s.ms[i].pc)
    ensures MutsOk(DoNative(s, i, c))
  {
    hide MutsOk, DoNative;
    var pc := s.ms[i].pc;
    if pc.NatReady? || pc.Native? { NativeEnterOk(s, i, c); }
    else if pc.NatLoop? { NativeLoopOk(s, i, c); }
    else { NativeLeaveOk(s, i, c); }
  }

  lemma StopStep(s: State, i: nat, c: Choice)
    requires MutsOk(s) && Can(s, i, c) && StopSidePC(s.ms[i].pc) && !NoticePC(s.ms[i].pc)
    ensures MutsOk(DoStop(s, i))
  {
    hide MutsOk, DoStop;
    var pc := s.ms[i].pc;
    if pc.DrvReady? || pc.DrvQueue? { FlagOk(s, i, c); }
    else if pc.DrvCoord? { BumpOk(s, i, c); }
    else if pc.DrvBumped? { SelfOk(s, i, c); }
    else { StopOk(s, i, c); }
  }

  lemma WaitStep(s: State, i: nat, c: Choice)
    requires MutsOk(s) && Can(s, i, c) && WaitPC(s.ms[i].pc)
    ensures MutsOk(DoWait(s, i, c))
  {
    hide MutsOk, DoWait;
    var pc := s.ms[i].pc;
    if pc.DrvStopped? || pc.DrvListed? { WaitStartOk(s, i, c); }
    else if pc.DrvCheck? { WaitCheckOk(s, i, c); }
    else { WaitSleepOk(s, i, c); }
  }

  lemma ResumeStep(s: State, i: nat, c: Choice)
    requires MutsOk(s) && Can(s, i, c) && ResumeSidePC(s.ms[i].pc)
    ensures MutsOk(DoResume(s, i))
  {
    hide MutsOk, DoResume;
    var pc := s.ms[i].pc;
    if pc.DrvDone? { ResumeOk(s, i, c); }
    else if pc.DrvResumed? { ClearOk(s, i, c); }
    else if pc.DrvCleared? { ReleaseOk(s, i, c); }
    else { CopyOk(s, i, c); }
  }

  /** A step of a mutator without the coordinator lock, while a driver has it and the world
      is stopped, is quiet and harmless to that driver. */
  lemma OutsiderStep(s: State, i: nat, c: Choice)
    requires MutsOk(s) && Can(s, i, c) && !CoordPC(s.ms[i].pc) && s.coord.Some? && !s.running
    ensures Quiet(s, Do(s, i, c), i) && Harmless(s, Do(s, i, c), i, s.epoch) && Do(s, i, c).coord == s.coord
    ensures Do(s, i, c).epoch == s.epoch && |Do(s, i, c).ms| == |s.ms|
  {
    hide MutsOk, DoRegister, DoRun, DoPark, DoNative, DoStop, DoWait, DoCollect, DoResume, DoDrop, Quiet, Harmless,
      MovedAll;
    var pc := s.ms[i].pc;
    if NoticePC(pc) { OutsiderNotice(s, i, c); }
    else if pc.Run? || RegisterPC(pc) { OutsiderRun(s, i, c); }
    else if ParkPC(pc) { OutsiderPark(s, i, c); }
    else if NativeSidePC(pc) { OutsiderNative(s, i, c); }
    else { OutsiderOther(s, i, c); }
  }

  lemma OutsiderNotice(s: State, i: nat, c: Choice)
    requires MutsOk(s) && Can(s, i, c) && NoticePC(s.ms[i].pc)
    ensures Quiet(s, Do(s, i, c), i) && Harmless(s, Do(s, i, c), i, s.epoch) && Do(s, i, c).coord == s.coord
    ensures Do(s, i, c).epoch == s.epoch && |Do(s, i, c).ms| == |s.ms|
  {
    hide MutsOk, MutOk, Do, NotifyAll;
    LockHeld(s, i);
    NoticeDoes(s, i, c);
    QuietNotify(s, Do(s, i, c), i);
  }

  lemma OutsiderRun(s: State, i: nat, c: Choice)
    requires MutsOk(s) && Can(s, i, c) && (s.ms[i].pc.Run? || s.ms[i].pc.Out?)
    ensures Quiet(s, Do(s, i, c), i) && Harmless(s, Do(s, i, c), i, s.epoch) && Do(s, i, c).coord == s.coord
    ensures Do(s, i, c).epoch == s.epoch && |Do(s, i, c).ms| == |s.ms|
  {
    hide MutsOk, Quiet, DoPark, DoNative, DoStop, DoWait, DoCollect, DoResume, DoDrop;
    QuietLocal(s, Do(s, i, c), i);
  }

  lemma OutsiderPark(s: State, i: nat, c: Choice)
    requires MutsOk(s) && Can(s, i, c) && ParkPC(s.ms[i].pc) && !NoticePC(s.ms[i].pc) && !s.running
    ensures Quiet(s, Do(s, i, c), i) && Harmless(s, Do(s, i, c), i, s.epoch) && Do(s, i, c).coord == s.coord
    ensures Do(s, i, c).epoch == s.epoch && |Do(s, i, c).ms| == |s.ms|
  {
    hide MutsOk, Quiet, DoRun, DoRegister, DoNative, DoStop, DoWait, DoCollect, DoResume, DoDrop, MovedAll, NotifyAll;
    At(s, i);
    QuietLocal(s, Do(s, i, c), i);
  }

  lemma OutsiderNative(s: State, i: nat, c: Choice)
    requires MutsOk(s) && Can(s, i, c) && NativeSidePC(s.ms[i].pc) && !NoticePC(s.ms[i].pc) && !s.running
    ensures Quiet(s, Do(s, i, c), i) && Harmless(s, Do(s, i, c), i, s.epoch) && Do(s, i, c).coord == s.coord
    ensures Do(s, i, c).epoch == s.epoch && |Do(s, i, c).ms| == |s.ms|
  {
    hide MutsOk, Quiet, DoRun, DoRegister, DoPark, DoStop, DoWait, DoCollect, DoResume, DoDrop, MovedAll, NotifyAll;
    At(s, i);
    QuietLocal(s, Do(s, i, c), i);
  }

  lemma OutsiderOther(s: State, i: nat, c: Choice)
    requires MutsOk(s) && Can(s, i, c) && !CoordPC(s.ms[i].pc) && s.coord.Some?
    requires s.ms[i].pc.DrvReady? || s.ms[i].pc.DrvCopy? || s.ms[i].pc.DropReady? || s.ms[i].pc.Dropped?
    ensures Quiet(s, Do(s, i, c), i) && Harmless(s, Do(s, i, c), i, s.epoch) && Do(s, i, c).coord == s.coord
    ensures Do(s, i, c).epoch == s.epoch && |Do(s, i, c).ms| == |s.ms|
  {
    hide MutsOk, Quiet, DoRun, DoRegister, DoPark, DoNative, DoWait, DoCollect, MovedAll, NotifyAll;
    At(s, i);
    QuietLocal(s, Do(s, i, c), i);
  }

  /** The driver's own steps. */
  lemma DriverStep(s: State, d: nat, c: Choice)
    requires Inv(s) && Can(s, d, c) && s.coord == Some(d) && StopPC(s.ms[d].pc)
    ensures DriverOk(Do(s, d, c), d)
  {
    hide MutsOk, MovedAll, DoRun, DoRegister, DoPark, DoNative, DoStop, DoDrop, DoCollect, DoResume, NotifyAll;
    assert DriverOk(s, d);
    if WaitPC(s.ms[d].pc) {
      if s.ms[d].pc.DrvStopped? { KnowsAll(s, d); }
      DriverWaits(s, d, c);
    } else if s.ms[d].pc.DrvCollect? {
      DriverCollects(s, d, c);
    } else {
      DriverResumes(s, d, c);
    }
  }

  lemma KnowsAll(s: State, d: nat)
    requires MutsOk(s)
    ensures Knows(s, Registered(s.ms))
  {
    hide MovedAll;
    forall j | 0 <= j < |s.ms| && s.ms[j].active ensures j in Registered(s.ms) { At(s, j); }
  }

  /** Another place for the driver, the same flags: what has passed has passed. */
  lemma SamePassed(s: State, s': State, d: nat, others: seq<nat>)
    requires d < |s.ms| == |s'.ms| && (forall x | 0 <= x < |s.ms| :: SameFlags(s.ms[x], s'.ms[x]))
    ensures Knows(s, others) ==> Knows(s', others)
    ensures forall t: nat, x: nat :: Passed(s', t, x) <==> Passed(s, t, x)
  {
    forall t: nat, x: nat ensures Passed(s', t, x) <==> Passed(s, t, x) {
      if x < |s.ms| { assert SameFlags(s.ms[x], s'.ms[x]); }
    }
    if Knows(s, others) {
      forall j | 0 <= j < |s'.ms| && s'.ms[j].active ensures j in others { assert SameFlags(s.ms[j], s'.ms[j]); }
    }
  }

  lemma DriverWaits(s: State, d: nat, c: Choice)
    requires Can(s, d, c) && WaitPC(s.ms[d].pc) && DriverOk(s, d)
    requires s.ms[d].pc.DrvStopped? ==> Knows(s, Registered(s.ms))
    ensures DriverOk(Do(s, d, c), d)
  {
    hide MovedAll, DoRun, DoRegister, DoPark, DoNative, DoStop, DoDrop, DoCollect, DoResume, NotifyAll, Registered,
      Knows, Awaited, Passed, Noticing, DoWait;
    var s' := Do(s, d, c);
    WaitFlags(s, d, c);
    SamePassed(s, s', d, if s.ms[d].pc.DrvStopped? then Registered(s.ms) else s.ms[d].pc.others);
    match s.ms[d].pc
    case DrvCheck(t, others, k) =>
      CheckMoves(s, d, c);
      if k < |others| { PassedOr(s, t, others[k]); }
    case _ => WaitMoves(s, d, c);
  }

  lemma DoIsWait(s: State, d: nat, c: Choice)
    requires Can(s, d, c) && WaitPC(s.ms[d].pc)
    ensures Do(s, d, c) == DoWait(s, d, c)
  {
    hide DoRun, DoRegister, DoPark, DoNative, DoStop, DoDrop, DoCollect, DoResume, DoWait;
  }

  lemma WaitFlags(s: State, d: nat, c: Choice)
    requires Can(s, d, c) && WaitPC(s.ms[d].pc)
    ensures |Do(s, d, c).ms| == |s.ms| && forall x | 0 <= x < |s.ms| :: SameFlags(s.ms[x], Do(s, d, c).ms[x])
  {
    hide Do, WaitPlace;
    DoIsWait(s, d, c);
  }

  lemma PassedOr(s: State, t: nat, x: nat)
    ensures Passed(s, t, x) <==> !(x < |s.ms| && Awaited(s.ms[x], t))
  {
  }

  lemma CheckMoves(s: State, d: nat, c: Choice)
    requires Can(s, d, c) && s.ms[d].pc.DrvCheck?
    ensures var (t, others, k) := (s.ms[d].pc.t, s.ms[d].pc.others, s.ms[d].pc.k);
      d < |Do(s, d, c).ms| && Do(s, d, c).ms[d].pc == if k >= |others| then DrvCollect(t, others)
        else if others[k] < |s.ms| && Awaited(s.ms[others[k]], t) then DrvSleep(t, others, k, false)
        else DrvCheck(t, others, k + 1)
  {
    hide Do, Registered, Awaited, LockPC;
    DoIsWait(s, d, c);
  }

  lemma WaitMoves(s: State, d: nat, c: Choice)
    requires Can(s, d, c) && WaitPC(s.ms[d].pc) && !s.ms[d].pc.DrvCheck?
    ensures d < |Do(s, d, c).ms|
    ensures s.ms[d].pc.DrvStopped? ==> Do(s, d, c).ms[d].pc == DrvListed(s.ms[d].pc.t, Registered(s.ms))
    ensures s.ms[d].pc.DrvListed? ==> Do(s, d, c).ms[d].pc == DrvCheck(s.ms[d].pc.t, s.ms[d].pc.others, 0)
    ensures s.ms[d].pc.DrvSleep? ==>
              || Do(s, d, c).ms[d].pc == DrvSleep(s.ms[d].pc.t, s.ms[d].pc.others, s.ms[d].pc.k, true)
              || Do(s, d, c).ms[d].pc == DrvCheck(s.ms[d].pc.t, s.ms[d].pc.others, s.ms[d].pc.k)
  {
    hide Do, Registered, Awaited, LockPC;
    DoIsWait(s, d, c);
  }

  lemma DriverCollects(s: State, d: nat, c: Choice)
    requires Can(s, d, c) && s.ms[d].pc.DrvCollect? && DriverOk(s, d)
    ensures DriverOk(Do(s, d, c), d)
  {
    hide MovedAll, Moved, DoRun, DoRegister, DoPark, DoNative, DoStop, DoDrop, DoWait, DoResume, NotifyAll;
    var s' := Do(s, d, c);
    forall x: nat, t: nat ensures Passed(s', t, x) <==> Passed(s, t, x) {}
    forall others: seq<nat> | Knows(s, others) ensures Knows(s', others) {}
  }

  lemma DriverResumes(s: State, d: nat, c: Choice)
    requires Can(s, d, c) && s.ms[d].pc.DrvDone?
    ensures DriverOk(Do(s, d, c), d)
  {
    hide MovedAll, Moved, DoRun, DoRegister, DoPark, DoNative, DoStop, DoDrop, DoWait, DoCollect, NotifyAll, Passed,
      Knows;
  }

  /** A driver that still runs the world, or has just stopped it, has promised nothing yet. */
  lemma NothingPromised(s: State, d: nat)
    requires d < |s.ms| && (!StopPC(s.ms[d].pc) || s.ms[d].pc.DrvStopped?)
    ensures DriverOk(s, d)
  {
    hide Knows, Passed;
  }

  /** While the world runs no step makes promises. */
  lemma CalmStep(s: State, i: nat, c: Choice)
    requires MutsOk(s) && Can(s, i, c) && s.running && MutsOk(Do(s, i, c))
    ensures var s' := Do(s, i, c); s'.coord.Some? ==> s'.coord.value < |s'.ms| && DriverOk(s', s'.coord.value)
  {
    hide MutsOk, Do, MovedAll, DriverOk, MutOk;
    var s' := Do(s, i, c);
    if s'.coord.Some? {
      CoordInRange(s');
      if s'.running {
        NotStopped(s', s'.coord.value);
      } else {
        StopsOnly(s, i, c);
        CoordHeld(s, i);
        DoStopPlace(s, i, c);
      }
      NothingPromised(s', s'.coord.value);
    }
  }

  lemma CoordInRange(s: State)
    requires MutsOk(s) && s.coord.Some?
    ensures s.coord.value < |s.ms|
  {
  }

  lemma CoordHeld(s: State, i: nat)
    requires MutsOk(s) && i < |s.ms| && CoordPC(s.ms[i].pc)
    ensures s.coord == Some(i)
  {
    At(s, i);
  }

  lemma NotStopped(s: State, d: nat)
    requires MutsOk(s) && d < |s.ms| && s.running
    ensures !StopPC(s.ms[d].pc)
  {
    At(s, d);
  }

  /** Only the driver's last step of the stop clears `world_running`. */
  lemma StopsOnly(s: State, i: nat, c: Choice)
    requires Can(s, i, c) && s.running && !Do(s, i, c).running
    ensures s.ms[i].pc.DrvSelf?
  {
    hide Registered, NotifyAll, Collected, Awaited;
  }

  lemma DoStopPlace(s: State, i: nat, c: Choice)
    requires Can(s, i, c) && s.ms[i].pc.DrvSelf?
    ensures Do(s, i, c).ms[i].pc.DrvStopped? && Do(s, i, c).coord == s.coord && |Do(s, i, c).ms| == |s.ms|
  {
    hide DoRun, DoRegister, DoPark, DoNative, DoDrop, DoCollect, DoWait, NotifyAll;
  }

  /** Every step keeps the invariant. */
  lemma InvStep(s: State, i: nat, c: Choice)
    requires Inv(s) && Can(s, i, c)
    ensures Inv(Do(s, i, c))
  {
    hide MutsOk, Do, MovedAll, DriverOk, MutOk, Quiet, Harmless;
    var s' := Do(s, i, c);
    MutsStep(s, i, c);
    if s.running {
      CalmStep(s, i, c);
    } else {
      StoppedBy(s);
      var d := s.coord.value;
      if i == d {
        DriverStep(s, d, c);
        OwnStep(s, d, c);
      } else {
        At(s, i);
        OutsiderStep(s, i, c);
        DriverElsewhere(s, s', d, i);
      }
    }
  }

  lemma StoppedBy(s: State)
    requires MutsOk(s) && !s.running
    ensures s.coord.Some? && s.coord.value < |s.ms| && StopPC(s.ms[s.coord.value].pc)
  {
  }

  lemma OwnStep(s: State, d: nat, c: Choice)
    requires Can(s, d, c) && s.coord == Some(d) && StopPC(s.ms[d].pc)
    ensures Do(s, d, c).coord == s.coord
  {
    hide DoRun, DoRegister, DoPark, DoNative, DoDrop, DoStop, NotifyAll, Registered, Collected;
  }

  // -- Runs -----------------------------------------------------------------

  /** A run: from an initial state, each state a step from the one before. */
  ghost predicate IsRun(run: seq<State>) {
    && |run| >= 1 && Initial(run[0])
    && forall k | 0 <= k < |run| - 1 :: Next(run[k], run[k + 1])
  }

  lemma InitialOk(s: State)
    requires Initial(s)
    ensures Inv(s)
  {
  }

  /** The invariant holds in every state of every run, in every interleaving. */
  lemma {:induction false} RunKeeps(run: seq<State>, k: nat)
    requires IsRun(run) && k < |run|
    ensures Inv(run[k])
  {
    hide Inv, Do, Can;
    if k == 0 {
      InitialOk(run[0]);
    } else {
      RunKeeps(run, k - 1);
      assert Next(run[k - 1], run[k - 1 + 1]);
      var i: nat, c: Choice :| Can(run[k - 1], i, c) && run[k] == Do(run[k - 1], i, c);
      InvStep(run[k - 1], i, c);
    }
  }

  /** Stop-the-world exclusion in every reachable state. */
  lemma WorldIsStopped(run: seq<State>, k: nat, d: nat, j: nat)
    requires IsRun(run) && k < |run| && d < |run[k].ms| && (run[k].ms[d].pc.DrvCollect? || run[k].ms[d].pc.DrvDone?)
    requires j < |run[k].ms| && j != d && run[k].ms[j].active
    ensures Stopped(run[k].ms[j].pc) && !run[k].running
    ensures j in run[k].ms[d].pc.others
  {
    hide Inv;
    RunKeeps(run, k);
    Exclusion(run[k], d, j);
  }

  /** At most one driver has the world stopped, and nobody registers meanwhile. */
  lemma OneDriver(run: seq<State>, k: nat, d: nat, j: nat)
    requires IsRun(run) && k < |run| && d < |run[k].ms| && j < |run[k].ms| && j != d && StopPC(run[k].ms[d].pc)
    ensures !CoordPC(run[k].ms[j].pc)
  {
    hide MutOk, DriverOk;
    RunKeeps(run, k);
    CoordHeld(run[k], d);
    At(run[k], j);
  }

  /** No wakeup is lost, without help from the timeout: whoever sleeps un-notified sleeps
      for a reason, unless the notification is on its way. */
  lemma NoLostWakeup(run: seq<State>, k: nat, j: nat)
    requires IsRun(run) && k < |run| && j < |run[k].ms| && Asleep(run[k].ms[j].pc)
    ensures var s, m := run[k], run[k].ms[j];
      match m.pc
      case ParkSleep(cur, _) => cur == m.lastEpoch == s.epoch && (!s.running || EnvOf(s, j).resuming)
      case NatSleep(_) => !s.running || EnvOf(s, j).resuming
      case DrvSleep(t, others, n, _) => n < |others|
          && (Noticing(s) || (others[n] < |s.ms| && Awaited(s.ms[others[n]], t)))
      case _ => true
  {
    hide MovedAll;
    RunKeeps(run, k);
    At(run[k], j);
    if run[k].ms[j].pc.DrvSleep? {
      CoordHeld(run[k], j);
      assert DriverOk(run[k], j);
    }
  }

  /** A mutator that a driver waits for is never itself asleep un-notified: it runs, or can
      go on, so no straggler is frozen at an old epoch. */
  lemma NoFrozenStraggler(run: seq<State>, k: nat, d: nat, x: nat)
    requires IsRun(run) && k < |run| && d < |run[k].ms| && StopPC(run[k].ms[d].pc) && TargetOf(run[k].ms[d].pc).Some?
    requires x < |run[k].ms| && Awaited(run[k].ms[x], TargetOf(run[k].ms[d].pc).value)
    ensures !Asleep(run[k].ms[x].pc)
  {
    hide MovedAll, DriverOk;
    RunKeeps(run, k);
    At(run[k], d);
    At(run[k], x);
  }
}
