/** The stop-the-world handshake of the mutators, as a labelled transition system.

    A step of one mutator is an atomic access to shared memory, a lock operation or a
    condition-variable operation; what a mutator does between two of them is private.
    Two kinds of step make several accesses at once, under locks that keep others from
    seeing what is between them. A check of the wait loop reads all flags of one
    mutator: these are stored under `park_mutex` or, by a newcomer, under the coordinator
    lock, and the driver holds both. The step that registers also loads the epoch: that
    is bumped under the coordinator lock, which the newcomer holds. A timeout is a
    spurious wakeup. */
module Safepoint {
  import opened Options

  /** The root words a mutator holds. */
  type Roots = seq<nat>

  /** What one collection does to root words: the objects it moved, by address. */
  type Relocation = map<nat, nat>

  function Moved(r: Relocation, roots: Roots): (out: Roots)
    ensures |out| == |roots|
    ensures forall k | 0 <= k < |roots| :: out[k] == if roots[k] in r then r[roots[k]] else roots[k]
  {
    seq(|roots|, k requires 0 <= k < |roots| => if roots[k] in r then r[roots[k]] else roots[k])
  }

  /** All collections of `log`, in order. */
  function MovedAll(log: seq<Relocation>, roots: Roots): Roots {
    if log == [] then roots else Moved(log[|log| - 1], MovedAll(log[..|log| - 1], roots))
  }

  // -- Mutators -------------------------------------------------------------

  /** Where a mutator's thread stands. */
  datatype PC =
    | Out | RegWait | RegHeld | RegDone                       // register_mutator
    | Run                                                     // managed code
    | PollSaw(t: nat) | ParkReady(t: nat)                     // poll_safepoint, park
    | ParkStored(cur: nat) | ParkLoop(cur: nat) | ParkSleep(cur: nat, notified: bool) | ParkCopy
    | NatReady | NatStored | Native                           // enter_native
    | NatLoop | NatSleep(notified: bool) | NatAdopt | NatCopy // leave_native
    | DrvReady | DrvFlagged | DrvQueue | DrvCoord             // drive_collect
    | DrvBumped(t: nat) | DrvSelf(t: nat) | DrvStopped(t: nat)
    | DrvListed(t: nat, others: seq<nat>) | DrvCheck(t: nat, others: seq<nat>, k: nat)
    | DrvSleep(t: nat, others: seq<nat>, k: nat, notified: bool)
    | DrvCollect(t: nat, others: seq<nat>) | DrvDone(t: nat, others: seq<nat>)
    | DrvResumed | DrvCleared | DrvRelease | DrvCopy          // ResumeGuard and after
    | DropReady | DropStored | Dropped                        // Drop, also from native code

  /** `snap` is the published root snapshot, `roots` what the thread itself holds.
      `pub` and `at` record what was last published and after how many collections;
      `ver` after how many collections `roots` is right. */
  datatype Mut = Mut(pc: PC, lastEpoch: nat, active: bool, coord: bool, native: bool, registered: bool,
                     roots: Roots, snap: Roots, pub: Roots, at: nat, ver: nat)

  datatype State = State(epoch: nat, running: bool, park: Option<nat>, coord: Option<nat>, ms: seq<Mut>,
      log: seq<Relocation>)

  /** What a thread may choose to do where the program leaves a choice. */
  datatype Choice = Work(roots: Roots) | Poll | GoNative | Drive | Drop | Register | Leave | Collect(r: Relocation)
      | Wake | Go

  // -- Groups of program points ---------------------------------------------

  predicate LockPC(pc: PC) {
    pc.ParkStored? || pc.ParkLoop? || pc.NatStored? || pc.NatLoop? || pc.NatAdopt? || pc.DrvFlagged? || pc.DrvBumped?
    || pc.DrvSelf? || pc.DrvCheck? || pc.DrvResumed? || pc.DrvCleared? || pc.DropStored?
  }

  predicate StopPC(pc: PC) {
    pc.DrvStopped? || pc.DrvListed? || pc.DrvCheck? || pc.DrvSleep? || pc.DrvCollect? || pc.DrvDone?
  }

  predicate BumpPC(pc: PC) { pc.DrvBumped? || pc.DrvSelf? }

  predicate ResumePC(pc: PC) { pc.DrvResumed? || pc.DrvCleared? }

  predicate CoordPC(pc: PC) {
    pc.DrvCoord? || BumpPC(pc) || StopPC(pc) || ResumePC(pc) || pc.DrvRelease? || pc.RegHeld? || pc.RegDone?
  }

  /** About to notify the sleepers of a change to its own flags. */
  predicate NoticePC(pc: PC) { pc.ParkStored? || pc.NatStored? || pc.DrvFlagged? || pc.DropStored? }

  predicate ParkedPC(pc: PC) { pc.ParkStored? || pc.ParkLoop? || pc.ParkSleep? }

  predicate NativePC(pc: PC) { pc.NatStored? || pc.Native? || pc.NatLoop? || pc.NatSleep? || pc.NatAdopt? }

  predicate FlaggedPC(pc: PC) {
    pc.DrvFlagged? || pc.DrvQueue? || pc.DrvCoord? || BumpPC(pc) || StopPC(pc) || pc.DrvResumed?
  }

  predicate GonePC(pc: PC) { pc.Out? || pc.RegWait? || pc.RegHeld? || pc.DropStored? || pc.Dropped? }

  /** Holding its own roots, none of them published. */
  predicate HoldsRoots(pc: PC) { pc.Run? || pc.PollSaw? || pc.DropReady? }

  predicate Published(pc: PC) { !HoldsRoots(pc) && !GonePC(pc) && !pc.RegDone? }

  predicate Sleeping(pc: PC) { pc.ParkSleep? || pc.NatSleep? || pc.DrvSleep? }

  predicate Asleep(pc: PC) { Sleeping(pc) && !pc.notified }

  function TargetOf(pc: PC): Option<nat> {
    match pc
    case DrvBumped(t) => Some(t)
    case DrvSelf(t) => Some(t)
    case DrvStopped(t) => Some(t)
    case DrvListed(t, _) => Some(t)
    case DrvCheck(t, _, _) => Some(t)
    case DrvSleep(t, _, _, _) => Some(t)
    case DrvCollect(t, _) => Some(t)
    case DrvDone(t, _) => Some(t)
    case _ => None
  }

  // -- Steps ----------------------------------------------------------------

  function Woken(m: Mut): Mut {
    match m.pc
    case ParkSleep(cur, _) => m.(pc := ParkSleep(cur, true))
    case NatSleep(_) => m.(pc := NatSleep(true))
    case DrvSleep(t, others, k, _) => m.(pc := DrvSleep(t, others, k, true))
    case _ => m
  }

  /** `park_cv.notify_all()`. */
  function NotifyAll(ms: seq<Mut>): (out: seq<Mut>)
    ensures |out| == |ms| && forall j | 0 <= j < |ms| :: out[j] == Woken(ms[j])
  {
    seq(|ms|, j requires 0 <= j < |ms| => Woken(ms[j]))
  }

  /** The registered slots, in slot order. */
  function Registered(ms: seq<Mut>): (ids: seq<nat>)
    ensures forall k | 0 <= k < |ids| :: ids[k] < |ms|
    ensures forall j | 0 <= j < |ms| && ms[j].registered :: j in ids
  {
    if ms == [] then [] else
      var n := |ms| - 1;
      assert forall j | 0 <= j < n :: ms[..n][j] == ms[j];
      Registered(ms[..n]) + (if ms[n].registered then [n] else [])
  }

  /** The wait predicate of the driver's loop. */
  predicate Awaited(m: Mut, t: nat) {
    m.active && !m.coord && !m.native && m.lastEpoch < t
  }

  /** Every active mutator of `others` has its snapshot updated in place. */
  function Collected(ms: seq<Mut>, others: seq<nat>, r: Relocation): (out: seq<Mut>)
    ensures |out| == |ms|
    ensures forall j | 0 <= j < |ms| ::
              out[j] == if j in others && ms[j].active then ms[j].(snap := Moved(r, ms[j].snap)) else ms[j]
  {
    seq(|ms|, j requires 0 <= j < |ms| =>
      if j in others && ms[j].active then ms[j].(snap := Moved(r, ms[j].snap)) else ms[j])
  }

  function Set(s: State, i: nat, m: Mut): State
    requires i < |s.ms|
  {
    s.(ms := s.ms[i := m])
  }

  function Publish(s: State, i: nat, pc: PC): State
    requires i < |s.ms|
  {
    var m := s.ms[i];
    Set(s, i, m.(pc := pc, snap := m.roots, pub := m.roots, at := |s.log|))
  }

  function CopyBack(s: State, i: nat): State
    requires i < |s.ms|
  {
    var m := s.ms[i];
    Set(s, i, m.(pc := Run, roots := m.snap, ver := |s.log|))
  }

  function Notify(s: State): State { s.(ms := NotifyAll(s.ms)) }

  /** Mutator `i` can take the step `c`. */
  predicate Can(s: State, i: nat, c: Choice) {
    && i < |s.ms|
    && match s.ms[i].pc {
         case Run => c.Work? || c.Poll? || c.GoNative? || c.Drive? || c.Drop?
         case Out => c.Register?
         case RegWait => c.Go? && s.coord.None?
         case DrvQueue => c.Go? && s.coord.None?
         case Native => (c.Leave? || c.Drop?) && s.park.None?
         case DrvCollect(_, _) => c.Collect?
         case ParkReady(_) => c.Go? && s.park.None?
         case NatReady => c.Go? && s.park.None?
         case DrvReady => c.Go? && s.park.None?
         case DrvCoord => c.Go? && s.park.None?
         case DrvListed(_, _) => c.Go? && s.park.None?
         case DrvDone(_, _) => c.Go? && s.park.None?
         case DropReady => c.Go? && s.park.None?
         case ParkSleep(_, notified) => c.Wake? || (c.Go? && notified && s.park.None?)
         case NatSleep(notified) => c.Wake? || (c.Go? && notified && s.park.None?)
         case DrvSleep(_, others, k, notified) => c.Wake? || (c.Go? && notified && s.park.None?)
         case _ => c.Go?
       }
  }

  // register_mutator
  function DoRegister(s: State, i: nat): State
    requires i < |s.ms|
  {
    var m := s.ms[i];
    match m.pc
    case Out => Set(s, i, m.(pc := RegWait))
    case RegWait => Set(s, i, m.(pc := RegHeld)).(coord := Some(i))
    case RegHeld => Set(s, i, m.(pc := RegDone, registered := true, active := true, lastEpoch := s.epoch))
    case RegDone => Set(s, i, m.(pc := Run, roots := [], ver := |s.log|)).(coord := None)
    case _ => s
  }

  // managed code, poll_safepoint
  function DoRun(s: State, i: nat, c: Choice): State
    requires i < |s.ms|
  {
    var m := s.ms[i];
    match c
    case Work(roots) => Set(s, i, m.(roots := roots))
    case Poll => if m.lastEpoch == s.epoch then s else Set(s, i, m.(pc := PollSaw(s.epoch)))
    case GoNative => Publish(s, i, NatReady)
    case Drive => Publish(s, i, DrvReady)
    case _ => Set(s, i, m.(pc := DropReady))
  }

  // park
  function DoPark(s: State, i: nat, c: Choice): State
    requires i < |s.ms|
  {
    var m := s.ms[i];
    match m.pc
    case PollSaw(t) => Publish(s, i, ParkReady(t))
    case ParkReady(t) => Set(s, i, m.(pc := ParkStored(t), lastEpoch := t)).(park := Some(i))
    case ParkStored(cur) => Notify(Set(s, i, m.(pc := ParkLoop(cur))))
    case ParkLoop(cur) =>
      if s.epoch != cur then Set(s, i, m.(pc := ParkStored(s.epoch), lastEpoch := s.epoch))
      else if s.running then Set(s, i, m.(pc := ParkCopy)).(park := None)
      else Set(s, i, m.(pc := ParkSleep(cur, false))).(park := None)
    case ParkSleep(cur, _) =>
      if c.Wake? then Set(s, i, m.(pc := ParkSleep(cur, true)))
          else Set(s, i, m.(pc := ParkLoop(cur))).(park := Some(i))
    case _ => CopyBack(s, i)
  }

  // enter_native, leave_native
  function DoNative(s: State, i: nat, c: Choice): State
    requires i < |s.ms|
  {
    var m := s.ms[i];
    match m.pc
    case NatReady => Set(s, i, m.(pc := NatStored, native := true)).(park := Some(i))
    case NatStored => Notify(Set(s, i, m.(pc := Native))).(park := None)
    case Native =>
      if c.Drop? then Set(s, i, m.(pc := DropStored, active := false)).(park := Some(i))
      else Set(s, i, m.(pc := NatLoop)).(park := Some(i))
    case NatLoop =>
      if s.running then Set(s, i, m.(pc := NatAdopt, lastEpoch := s.epoch))
      else Set(s, i, m.(pc := NatSleep(false))).(park := None)
    case NatSleep(_) =>
      if c.Wake? then Set(s, i, m.(pc := NatSleep(true))) else Set(s, i, m.(pc := NatLoop)).(park := Some(i))
    case NatAdopt => Set(s, i, m.(pc := NatCopy, native := false)).(park := None)
    case _ => CopyBack(s, i)
  }

  // drive_collect up to the stopped world
  function DoStop(s: State, i: nat): State
    requires i < |s.ms|
  {
    var m := s.ms[i];
    match m.pc
    case DrvReady => Set(s, i, m.(pc := DrvFlagged, coord := true)).(park := Some(i))
    case DrvFlagged => Notify(Set(s, i, m.(pc := DrvQueue))).(park := None)
    case DrvQueue => Set(s, i, m.(pc := DrvCoord)).(coord := Some(i))
    case DrvCoord => Set(s, i, m.(pc := DrvBumped(s.epoch + 1))).(park := Some(i), epoch := s.epoch + 1)
    case DrvBumped(t) => Set(s, i, m.(pc := DrvSelf(t), lastEpoch := t))
    case DrvSelf(t) => Set(s, i, m.(pc := DrvStopped(t))).(park := None, running := false)
    case _ => s
  }

  // its wait loop: where the next check of the wait predicate leads
  function WaitPlace(s: State, pc: PC, c: Choice): PC {
    match pc
    case DrvStopped(t) => DrvListed(t, Registered(s.ms))
    case DrvListed(t, others) => DrvCheck(t, others, 0)
    case DrvCheck(t, others, k) =>
      if k >= |others| then DrvCollect(t, others)
      else if others[k] < |s.ms| && Awaited(s.ms[others[k]], t) then DrvSleep(t, others, k, false)
      else DrvCheck(t, others, k + 1)
    case DrvSleep(t, others, k, _) => if c.Wake? then DrvSleep(t, others, k, true) else DrvCheck(t, others, k)
    case _ => pc
  }

  function DoWait(s: State, i: nat, c: Choice): State
    requires i < |s.ms|
  {
    var pc, pc' := s.ms[i].pc, WaitPlace(s, s.ms[i].pc, c);
    Set(s, i, s.ms[i].(pc := pc')).(park := if LockPC(pc') then Some(i) else if LockPC(pc) then None else s.park)
  }

  // the collection
  function DoCollect(s: State, i: nat, others: seq<nat>, t: nat, r: Relocation): State
    requires i < |s.ms|
  {
    var after := Collected(s.ms, others, r);
    s.(ms := after[i := after[i].(pc := DrvDone(t, others))], log := s.log + [r])
  }

  // ResumeGuard
  function DoResume(s: State, i: nat): State
    requires i < |s.ms|
  {
    var m := s.ms[i];
    match m.pc
    case DrvDone(_, _) => Set(s, i, m.(pc := DrvResumed)).(park := Some(i), running := true)
    case DrvResumed => Set(s, i, m.(pc := DrvCleared, coord := false))
    case DrvCleared => Notify(Set(s, i, m.(pc := DrvRelease))).(park := None)
    case DrvRelease => Set(s, i, m.(pc := DrvCopy)).(coord := None)
    case _ => CopyBack(s, i)
  }

  // Drop
  function DoDrop(s: State, i: nat): State
    requires i < |s.ms|
  {
    var m := s.ms[i];
    match m.pc
    case DropReady => Set(s, i, m.(pc := DropStored, active := false)).(park := Some(i))
    case DropStored => Notify(Set(s, i, m.(pc := Dropped))).(park := None)
    case _ => Set(s, i, m.(pc := Out, registered := false, native := false))
  }

  predicate RegisterPC(pc: PC) { pc.Out? || pc.RegWait? || pc.RegHeld? || pc.RegDone? }

  predicate ParkPC(pc: PC) { pc.PollSaw? || pc.ParkReady? || ParkedPC(pc) || pc.ParkCopy? }

  predicate NativeSidePC(pc: PC) { pc.NatReady? || NativePC(pc) || pc.NatCopy? }

  predicate StopSidePC(pc: PC) { pc.DrvReady? || pc.DrvFlagged? || pc.DrvQueue? || pc.DrvCoord? || BumpPC(pc) }

  predicate WaitPC(pc: PC) { pc.DrvStopped? || pc.DrvListed? || pc.DrvCheck? || pc.DrvSleep? }

  predicate ResumeSidePC(pc: PC) { pc.DrvDone? || ResumePC(pc) || pc.DrvRelease? || pc.DrvCopy? }

  /** The state after mutator `i` takes the step `c`. */
  function Do(s: State, i: nat, c: Choice): State
    requires Can(s, i, c)
  {
    var pc := s.ms[i].pc;
    if RegisterPC(pc) then DoRegister(s, i)
    else if pc.Run? then DoRun(s, i, c)
    else if ParkPC(pc) then DoPark(s, i, c)
    else if NativeSidePC(pc) then DoNative(s, i, c)
    else if StopSidePC(pc) then DoStop(s, i)
    else if WaitPC(pc) then DoWait(s, i, c)
    else if pc.DrvCollect? then DoCollect(s, i, pc.others, pc.t, c.r)
    else if ResumeSidePC(pc) then DoResume(s, i)
    else DoDrop(s, i)
  }

  ghost predicate Next(s: State, s': State) {
    exists i: nat, c: Choice :: Can(s, i, c) && s' == Do(s, i, c)
  }

  /** Nobody is registered yet and the world runs. */
  predicate Initial(s: State) {
    && s.epoch == 0 && s.running && s.park.None? && s.coord.None? && s.log == []
    && forall j | 0 <= j < |s.ms| ::
         s.ms[j] == Mut(Out, 0, false, false, false, false, [], [], [], 0, 0)
  }
}
