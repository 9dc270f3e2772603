/** What every step of the locking machine keeps. */
module LockingInvariant {
  import opened Config
  import opened TableModel
  import opened Serial
  import opened Locking
  import opened Counting

  // ----- The invariant -----

  predicate HoldsG(th: Thread) {
    th.call.Do? &&
    match th.pc
    case LockD | Check | Load | Save(_) | CountLoad | CountSave(_) | Signal | Unlock1 => true
    case Unlock2 => th.call.op.OpOpen?
    case _ => false
  }

  predicate HoldsD(th: Thread) {
    if th.call.Do? then
      NeedsD(th.call.op) &&
      match th.pc
      case Check | Load | Save(_) | CountLoad | CountSave(_) | Signal | Unlock1 => true
      case Unlock2 => th.call.op.OpClose?
      case _ => false
    else
      th.pc.Mark? || th.pc.Test? || th.pc.DestroyUnlock?
  }

  /** The program counter belongs to the code of the current call. */
  predicate Fits(th: Thread) {
    match th.pc
    case Idle => true
    case LockG | Load | Save(_) | Unlock1 => th.call.Do?
    case LockD | Unlock2 => th.call.Do? && NeedsD(th.call.op)
    case CountLoad | CountSave(_) => th.call.Do? && CountChange(th.call.op, th.outcome) != 0
    case Check => th.call.Do? && th.call.op.OpOpen?
    case Signal => th.call.Do? && th.call.op.OpClose?
    case _ => th.call.Destroy?
  }

  /** Each mutex is owned by the one thread whose program counter says so. */
  ghost predicate LocksOk(s: State) {
    forall t :: 0 <= t < |s.threads| ==>
      && Fits(s.threads[t])
      && (HoldsG(s.threads[t]) <==> s.g == Some(t))
      && (HoldsD(s.threads[t]) <==> s.d == Some(t))
  }

  ghost predicate OwnersExist(s: State) {
    (s.g.Some? ==> s.g.value < |s.threads|) && (s.d.Some? ==> s.d.value < |s.threads|)
  }

  predicate OpenPastCheck(th: Thread) {
    th.call.Do? && th.call.op.OpOpen? && (th.pc.Load? || th.pc.Save? || th.pc.CountLoad? || th.pc.CountSave?)
  }

  /** What threads have read is still so when they use it. */
  predicate ReadsHold(s: State, th: Thread) {
    && (th.pc.Save? ==> th.pc.seen == s.shared.tables)
    && (th.pc.CountSave? && th.call.Do? ==> th.pc.n == s.shared.openFiles + CountChange(th.call.op, th.outcome))
    && (OpenPastCheck(th) ==> !s.shared.destroyed)
    && (th.pc.Test? || th.pc.Asleep? || th.pc.DestroyUnlock? ==> s.shared.destroyed)
  }

  ghost predicate SnapshotsOk(s: State) {
    forall t :: 0 <= t < |s.threads| ==> ReadsHold(s, s.threads[t])
  }

  ghost predicate Base(s: State) { Sound(s) && LocksOk(s) && OwnersExist(s) && SnapshotsOk(s) }

  lemma Exclusive(s: State)
    requires LocksOk(s)
    ensures forall t, u :: 0 <= t < |s.threads| && 0 <= u < |s.threads| ==>
      (HoldsG(s.threads[t]) && HoldsG(s.threads[u]) ==> t == u)
    ensures forall t, u :: 0 <= t < |s.threads| && 0 <= u < |s.threads| ==>
      (HoldsD(s.threads[t]) && HoldsD(s.threads[u]) ==> t == u)
  {
  }

  lemma BeginKeepsBase(s: State, t: nat, call: Call)
    requires Base(s) && Step(s, Begin(t, call)).Some?
    ensures Base(Step(s, Begin(t, call)).value)
  {
  }

  lemma SpuriousKeepsBase(s: State, t: nat)
    requires Base(s) && Step(s, Spurious(t)).Some?
    ensures Base(Step(s, Spurious(t)).value)
  {
  }

  lemma DestroyTakesLock(s: State, t: nat)
    requires Base(s) && t < |s.threads| && s.threads[t].call.Destroy? && DestroyStep(s, t).Some?
    requires s.threads[t].pc.DestroyLock? || s.threads[t].pc.Asleep?
    ensures LocksOk(DestroyStep(s, t).value) && OwnersExist(DestroyStep(s, t).value)
  {
  }

  lemma DestroyKeepsLocks(s: State, t: nat)
    requires Base(s) && t < |s.threads| && s.threads[t].call.Destroy? && DestroyStep(s, t).Some?
    requires !s.threads[t].pc.DestroyLock? && !s.threads[t].pc.Asleep?
    ensures LocksOk(DestroyStep(s, t).value) && OwnersExist(DestroyStep(s, t).value)
  {
  }

  lemma DestroyKeepsSnapshots(s: State, t: nat)
    requires Base(s) && t < |s.threads| && s.threads[t].call.Destroy? && DestroyStep(s, t).Some?
    ensures SnapshotsOk(DestroyStep(s, t).value)
  {
  }

  predicate Acquiring(pc: Pc) { pc.LockG? || pc.LockD? || pc.Check? || pc.Load? }

  predicate Releasing(pc: Pc) { pc.Unlock1? || pc.Unlock2? }

  lemma AcquireKeepsLocks(s: State, t: nat, op: Op)
    requires Base(s) && t < |s.threads| && s.threads[t].call == Do(op)
    requires Acquiring(s.threads[t].pc) && OpStep(s, t, op).Some?
    ensures LocksOk(OpStep(s, t, op).value) && OwnersExist(OpStep(s, t, op).value)
  {
  }

  lemma AcquireKeepsSnapshots(s: State, t: nat, op: Op)
    requires Base(s) && t < |s.threads| && s.threads[t].call == Do(op)
    requires Acquiring(s.threads[t].pc) && OpStep(s, t, op).Some?
    ensures SnapshotsOk(OpStep(s, t, op).value)
  {
  }

  lemma ReleaseKeepsLocks(s: State, t: nat, op: Op)
    requires Base(s) && t < |s.threads| && s.threads[t].call == Do(op)
    requires Releasing(s.threads[t].pc) && OpStep(s, t, op).Some?
    ensures LocksOk(OpStep(s, t, op).value) && OwnersExist(OpStep(s, t, op).value)
  {
  }

  lemma ReleaseKeepsSnapshots(s: State, t: nat, op: Op)
    requires Base(s) && t < |s.threads| && s.threads[t].call == Do(op)
    requires Releasing(s.threads[t].pc) && OpStep(s, t, op).Some?
    ensures SnapshotsOk(OpStep(s, t, op).value)
  {
  }

  lemma SaveKeepsLocks(s: State, t: nat, op: Op)
    requires Base(s) && t < |s.threads| && s.threads[t].call == Do(op) && s.threads[t].pc.Save?
    ensures LocksOk(OpStep(s, t, op).value) && OwnersExist(OpStep(s, t, op).value)
  {
  }

  lemma SaveKeepsSnapshots(s: State, t: nat, op: Op)
    requires Base(s) && t < |s.threads| && s.threads[t].call == Do(op) && s.threads[t].pc.Save?
    ensures SnapshotsOk(OpStep(s, t, op).value)
  {
  }

  lemma CountLoadKeepsLocks(s: State, t: nat, op: Op)
    requires Base(s) && t < |s.threads| && s.threads[t].call == Do(op) && s.threads[t].pc.CountLoad?
    ensures LocksOk(OpStep(s, t, op).value) && OwnersExist(OpStep(s, t, op).value)
  {
  }

  lemma CountLoadKeepsSnapshots(s: State, t: nat, op: Op)
    requires Base(s) && t < |s.threads| && s.threads[t].call == Do(op) && s.threads[t].pc.CountLoad?
    ensures SnapshotsOk(OpStep(s, t, op).value)
  {
  }

  lemma CountSaveKeepsLocks(s: State, t: nat, op: Op)
    requires Base(s) && t < |s.threads| && s.threads[t].call == Do(op) && s.threads[t].pc.CountSave?
    ensures LocksOk(OpStep(s, t, op).value) && OwnersExist(OpStep(s, t, op).value)
  {
  }

  lemma CountSaveKeepsSnapshots(s: State, t: nat, op: Op)
    requires Base(s) && t < |s.threads| && s.threads[t].call == Do(op) && s.threads[t].pc.CountSave?
    ensures SnapshotsOk(OpStep(s, t, op).value)
  {
  }

  lemma SignalKeepsBase(s: State, t: nat, op: Op)
    requires Base(s) && t < |s.threads| && s.threads[t].call == Do(op) && s.threads[t].pc.Signal?
    ensures Base(OpStep(s, t, op).value)
  {
  }

  lemma BaseKept(s: State, a: Action)
    requires Base(s) && Step(s, a).Some?
    ensures Base(Step(s, a).value)
  {
    match a
    case Begin(t, call) => BeginKeepsBase(s, t, call);
    case Spurious(t) => SpuriousKeepsBase(s, t);
    case Run(t) =>
      match s.threads[t].call
      case Destroy =>
        if s.threads[t].pc.DestroyLock? || s.threads[t].pc.Asleep? { DestroyTakesLock(s, t); }
        else { DestroyKeepsLocks(s, t); }
        DestroyKeepsSnapshots(s, t);
      case Do(op) =>
        if Acquiring(s.threads[t].pc) { AcquireKeepsLocks(s, t, op); AcquireKeepsSnapshots(s, t, op); }
        else if Releasing(s.threads[t].pc) { ReleaseKeepsLocks(s, t, op); ReleaseKeepsSnapshots(s, t, op); }
        else if s.threads[t].pc.Signal? { SignalKeepsBase(s, t, op); }
        else if s.threads[t].pc.Save? { SaveKeepsLocks(s, t, op); SaveKeepsSnapshots(s, t, op); }
        else if s.threads[t].pc.CountLoad? { CountLoadKeepsLocks(s, t, op); CountLoadKeepsSnapshots(s, t, op); }
        else { CountSaveKeepsLocks(s, t, op); CountSaveKeepsSnapshots(s, t, op); }
  }
}
