/**
 operations.c under its two mutexes, as a machine of small steps. Any number of threads; each makes calls one
 after another. A body is not atomic here: it copies the tables and stores them back later, and the counter is
 read and written in separate steps, so only the locks keep calls apart.
 */
module Locking {
  import opened Config
  import opened TableModel
  import opened Serial

  datatype Call = Do(op: Op) | Destroy

  /** The next step of a thread inside a call. */
  datatype Pc =
    | Idle
    | LockG                       // waiting for single_global_lock
    | LockD                       // holding it, waiting for called_destroy_mutex
    | Check                       // open: test called_destroy
    | Load | Save(seen: Tables)   // the unsynchronized body
    | CountLoad | CountSave(n: int)
    | Signal                      // close: broadcast if the last file closed after destroy was called
    | Unlock1 | Unlock2
    | DestroyLock | Mark | Test
    | Asleep(woken: bool)         // in pthread_cond_wait, having released called_destroy_mutex
    | DestroyUnlock

  /** `call` and `outcome` are those of the current call; `done` lists the finished ones. */
  datatype Thread = Thread(pc: Pc, call: Call, outcome: Outcome, done: seq<(Call, Outcome)>)

  /** What became visible to the others, in order. */
  datatype Event = Did(tid: nat, op: Op, outcome: Outcome) | Marked(tid: nat) | Finished(tid: nat)

  /**
   `g` and `d` are the owners of the mutexes. `live` holds the handles that open has returned and no close has been
   called with. `log` records events and is read by no step.
   */
  datatype State = State(
    shared: Shared, g: Option<nat>, d: Option<nat>, threads: seq<Thread>, live: set<int>, log: seq<Event>)

  datatype Action = Begin(tid: nat, call: Call) | Run(tid: nat) | Spurious(tid: nat)

  const SUCCESS := Returned(0, [])

  predicate NeedsD(op: Op) { op.OpOpen? || op.OpClose? }

  function Initial(t: Tables, n: nat): (s: State)
    requires t.Shaped()
    ensures Sound(s) && |s.threads| == n
  {
    State(Start(t), None, None, seq(n, _ => Thread(Idle, Destroy, Undefined, [])), {}, [])
  }

  /** A close needs a handle that nobody is closing; a read or write needs one too, or one out of range. */
  predicate MayBegin(s: State, call: Call) {
    match call
    case Do(OpClose(h)) => h in s.live
    case Do(OpRead(h, _)) => InRange(h, MAX_OPEN_FILES) ==> h in s.live
    case Do(OpWrite(h, _)) => InRange(h, MAX_OPEN_FILES) ==> h in s.live
    case _ => true
  }

  function At(s: State, t: nat, pc: Pc): State
    requires t < |s.threads|
  {
    s.(threads := s.threads[t := s.threads[t].(pc := pc)])
  }

  function Begun(s: State, t: nat, call: Call): State
    requires t < |s.threads|
  {
    s.(threads := s.threads[t := s.threads[t].(pc := if call.Do? then LockG else DestroyLock, call := call)],
       live := if call.Do? && call.op.OpClose? then s.live - {call.op.h} else s.live)
  }

  function Returns(s: State, t: nat): State
    requires t < |s.threads|
  {
    var th := s.threads[t];
    s.(threads := s.threads[t := th.(pc := Idle, done := th.done + [(th.call, th.outcome)])],
       live := if th.call.Do? && th.call.op.OpOpen? && th.outcome.Returned? && th.outcome.code != -1
               then s.live + {th.outcome.code} else s.live)
  }

  function Wake(threads: seq<Thread>): (r: seq<Thread>)
    ensures |r| == |threads|
    ensures forall t :: 0 <= t < |r| ==>
      r[t] == if threads[t].pc.Asleep? then threads[t].(pc := Asleep(true)) else threads[t]
  {
    seq(|threads|, t requires 0 <= t < |threads| =>
      if threads[t].pc.Asleep? then threads[t].(pc := Asleep(true)) else threads[t])
  }

  function Settle(s: State, t: nat, outcome: Outcome, pc: Pc, e: Event): State
    requires t < |s.threads|
  {
    s.(threads := s.threads[t := s.threads[t].(pc := pc, outcome := outcome)], log := s.log + [e])
  }

  /** A step of a thread that is running `op`. */
  function OpStep(s: State, t: nat, op: Op): Option<State>
    requires t < |s.threads| && s.shared.tables.Shaped()
    requires s.threads[t].pc.Save? ==> s.threads[t].pc.seen.Shaped()
  {
    var th := s.threads[t];
    match th.pc
    case LockG =>
      if s.g.Some? then None else Some(At(s.(g := Some(t)), t, if NeedsD(op) then LockD else Load))
    case LockD =>
      if s.d.Some? then None else Some(At(s.(d := Some(t)), t, if op.OpOpen? then Check else Load))
    case Check =>
      if s.shared.destroyed then Some(Settle(s, t, FAILED, Unlock1, Did(t, op, FAILED))) else Some(At(s, t, Load))
    case Load => Some(At(s, t, Save(s.shared.tables)))
    case Save(seen) =>
      var (t1, o) := OnTables(seen, op);
      Some(Settle(s.(shared := s.shared.(tables := t1)), t, o,
                  if CountChange(op, o) != 0 then CountLoad else Unlock1, Did(t, op, o)))
    case CountLoad => Some(At(s, t, CountSave(s.shared.openFiles + CountChange(op, th.outcome))))
    case CountSave(n) =>
      Some(At(s.(shared := s.shared.(openFiles := n)), t, if op.OpClose? then Signal else Unlock1))
    case Signal =>
      if s.shared.openFiles == 0 && s.shared.destroyed
      then Some(At(s.(threads := Wake(s.threads)), t, Unlock1)) else Some(At(s, t, Unlock1))
    case Unlock1 =>
      if op.OpOpen? then Some(At(s.(d := None), t, Unlock2))
      else if op.OpClose? then Some(At(s.(g := None), t, Unlock2))
      else Some(Returns(s.(g := None), t))
    case Unlock2 => Some(Returns(if op.OpOpen? then s.(g := None) else s.(d := None), t))
    case _ => None
  }

  /** A step of a thread inside tfs_destroy_after_all_closed. */
  function DestroyStep(s: State, t: nat): Option<State>
    requires t < |s.threads|
  {
    match s.threads[t].pc
    case DestroyLock => if s.d.Some? then None else Some(At(s.(d := Some(t)), t, Mark))
    case Mark => Some(Settle(s.(shared := s.shared.(destroyed := true)), t, Undefined, Test, Marked(t)))
    case Test =>
      if s.shared.openFiles != 0 then Some(At(s.(d := None), t, Asleep(false)))
      else Some(Settle(s, t, SUCCESS, DestroyUnlock, Finished(t)))
    case Asleep(woken) => if !woken || s.d.Some? then None else Some(At(s.(d := Some(t)), t, Test))
    case DestroyUnlock => Some(Returns(s.(d := None), t))
    case _ => None
  }

  predicate Sound(s: State) {
    && s.shared.tables.Shaped()
    && forall t :: 0 <= t < |s.threads| && s.threads[t].pc.Save? ==> s.threads[t].pc.seen.Shaped()
  }

  /** One action; None where it is not enabled. */
  function Step(s: State, a: Action): (r: Option<State>)
    requires Sound(s)
    ensures r.Some? ==> Sound(r.value) && |r.value.threads| == |s.threads| && a.tid < |s.threads|
  {
    if a.tid >= |s.threads| then None
    else
      var th := s.threads[a.tid];
      match a
      case Begin(t, call) => if th.pc.Idle? && MayBegin(s, call) then Some(Begun(s, t, call)) else None
      case Run(t) => (match th.call case Do(op) => OpStep(s, t, op) case Destroy => DestroyStep(s, t))
      case Spurious(t) => if th.pc == Asleep(false) then Some(At(s, t, Asleep(true))) else None
  }

  /** The state after a sequence of actions; None if one of them is not enabled. */
  function Execute(s: State, actions: seq<Action>): (r: Option<State>)
    requires Sound(s)
    ensures r.Some? ==> Sound(r.value)
    decreases |actions|
  {
    if actions == [] then Some(s)
    else
      match Execute(s, actions[..|actions| - 1])
      case None => None
      case Some(m) => Step(m, actions[|actions| - 1])
  }
}
