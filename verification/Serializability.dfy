/**
 Every run of the locking machine is a run of whole calls one after another: the log is that serial run. It gives
 every call its result, and leaves the shared state the machine has whenever no counter update is half done.
 */
module Serializability {
  import opened Config
  import opened TableModel
  import opened Serial
  import opened Locking
  import opened LockingInvariant
  import opened Counting

  /** The change of the counter that the owner of called_destroy_mutex still has to store. */
  function Pending(s: State): int {
    if s.d.Some? && s.d.value < |s.threads| then
      var th := s.threads[s.d.value];
      if th.call.Do? && (th.pc.CountLoad? || th.pc.CountSave?) then CountChange(th.call.op, th.outcome) else 0
    else 0
  }

  function Alpha(s: State): Shared { s.shared.(openFiles := s.shared.openFiles + Pending(s)) }

  /** One event of a serial run: a whole call with its outcome, or one of the two parts of a destroy, which may
      let others run in between. Its second part needs an empty open-file table. */
  function SerialStep(sh: Shared, e: Event): (r: Option<Shared>)
    requires sh.tables.Shaped()
    ensures r.Some? ==> r.value.tables.Shaped()
  {
    match e
    case Did(_, op, outcome) => var (sh1, o) := Apply(sh, op); if o == outcome then Some(sh1) else None
    case Marked(_) => Some(sh.(destroyed := true))
    case Finished(_) => if sh.destroyed && sh.openFiles == 0 then Some(sh) else None
  }

  function Replay(sh: Shared, log: seq<Event>): (r: Option<Shared>)
    requires sh.tables.Shaped()
    ensures r.Some? ==> r.value.tables.Shaped()
    decreases |log|
  {
    if log == [] then Some(sh)
    else
      match Replay(sh, log[..|log| - 1])
      case None => None
      case Some(m) => SerialStep(m, log[|log| - 1])
  }

  /** The finished call an event stands for, if any. */
  function Completes(e: Event): seq<(Call, Outcome)> {
    match e
    case Did(_, op, outcome) => [(Do(op), outcome)]
    case Marked(_) => []
    case Finished(_) => [(Destroy, SUCCESS)]
  }

  /** The calls of thread `t` in the log, with their outcomes. */
  function CallsOf(log: seq<Event>, t: nat): seq<(Call, Outcome)>
    decreases |log|
  {
    if log == [] then []
    else CallsOf(log[..|log| - 1], t) + if log[|log| - 1].tid == t then Completes(log[|log| - 1]) else []
  }

  /** The current call is already in the log. */
  predicate Settled(th: Thread) {
    match th.pc
    case CountLoad | CountSave(_) | Signal | Unlock1 | Unlock2 | DestroyUnlock => true
    case _ => false
  }

  /** A thread's finished calls and then its current one once settled. */
  function History(th: Thread): seq<(Call, Outcome)> {
    th.done + if Settled(th) then [(th.call, th.outcome)] else []
  }

  /** The log holds the calls of every thread, in the order the thread made them. */
  ghost predicate HistoriesAgree(s: State) {
    forall t :: 0 <= t < |s.threads| ==> CallsOf(s.log, t) == History(s.threads[t])
  }

  /** What an action adds to the log. */
  function Emitted(s: State, a: Action): seq<Event>
    requires Sound(s)
  {
    match a
    case Run(t) =>
      if t >= |s.threads| then []
      else
        var th := s.threads[t];
        if th.call.Do? && th.pc.Check? && s.shared.destroyed then [Did(t, th.call.op, FAILED)]
        else if th.call.Do? && th.pc.Save? then [Did(t, th.call.op, OnTables(th.pc.seen, th.call.op).1)]
        else if th.call.Destroy? && th.pc.Mark? then [Marked(t)]
        else if th.call.Destroy? && th.pc.Test? && s.shared.openFiles == 0 then [Finished(t)]
        else []
    case _ => []
  }

  /** The step leaves the serial state alone and logs nothing, or performs at once the one event it logs, of its
      own thread. */
  ghost predicate Simulates(s: State, a: Action, r: State)
    requires Sound(s) && Sound(r)
  {
    && r.log == s.log + Emitted(s, a)
    && if Emitted(s, a) == [] then Alpha(r) == Alpha(s)
       else SerialStep(Alpha(s), Emitted(s, a)[0]) == Some(Alpha(r)) && Emitted(s, a)[0].tid == a.tid
  }

  /** Storing the tables back performs the call on them, since they are still the ones that were copied. */
  lemma SaveSimulates(s: State, t: nat, op: Op)
    requires Base(s) && t < |s.threads| && s.threads[t].call == Do(op) && s.threads[t].pc.Save?
    ensures Simulates(s, Run(t), Step(s, Run(t)).value)
  {
    Exclusive(s);
  }

  /** The counter's two steps only bring the variable to what the serial state says already. */
  lemma CountingSimulates(s: State, t: nat, op: Op)
    requires Base(s) && t < |s.threads| && s.threads[t].call == Do(op)
    requires s.threads[t].pc.CountLoad? || s.threads[t].pc.CountSave?
    ensures Simulates(s, Run(t), Step(s, Run(t)).value)
  {
    Exclusive(s);
  }

  lemma OpStepSimulates(s: State, t: nat, op: Op)
    requires Base(s) && t < |s.threads| && s.threads[t].call == Do(op) && Step(s, Run(t)).Some?
    ensures Simulates(s, Run(t), Step(s, Run(t)).value)
  {
    if s.threads[t].pc.Save? { SaveSimulates(s, t, op); }
    else if s.threads[t].pc.CountLoad? || s.threads[t].pc.CountSave? { CountingSimulates(s, t, op); }
    else { LockingSimulates(s, t, op); }
  }

  lemma LockingSimulates(s: State, t: nat, op: Op)
    requires Base(s) && t < |s.threads| && s.threads[t].call == Do(op) && Step(s, Run(t)).Some?
    requires !s.threads[t].pc.Save? && !s.threads[t].pc.CountLoad? && !s.threads[t].pc.CountSave?
    ensures Simulates(s, Run(t), Step(s, Run(t)).value)
  {
    Exclusive(s);
  }

  lemma StepSimulates(s: State, a: Action)
    requires Base(s) && Step(s, a).Some?
    ensures Simulates(s, a, Step(s, a).value)
  {
    Exclusive(s);
    if a.Run? && s.threads[a.tid].call.Do? {
      OpStepSimulates(s, a.tid, s.threads[a.tid].call.op);
    }
  }

  lemma OpHistory(s: State, t: nat, op: Op)
    requires Base(s) && t < |s.threads| && s.threads[t].call == Do(op) && OpStep(s, t, op).Some?
    ensures History(OpStep(s, t, op).value.threads[t]) == History(s.threads[t]) +
              if Emitted(s, Run(t)) == [] then [] else Completes(Emitted(s, Run(t))[0])
  {
    var th, r := s.threads[t], OpStep(s, t, op).value.threads[t];
    if th.pc.Save? || (th.pc.Check? && s.shared.destroyed) {
      assert r.done == th.done && History(th) == th.done + [] == th.done;
    } else {
      assert Emitted(s, Run(t)) == [] && History(th) + [] == History(th);
    }
  }

  lemma ActorHistory(s: State, a: Action)
    requires Base(s) && Step(s, a).Some?
    ensures History(Step(s, a).value.threads[a.tid]) == History(s.threads[a.tid]) +
              if Emitted(s, a) == [] then [] else Completes(Emitted(s, a)[0])
  {
    if a.Run? && s.threads[a.tid].call.Do? {
      OpHistory(s, a.tid, s.threads[a.tid].call.op);
    }
  }

  /** A thread that does not act is at most woken up. */
  lemma OthersWait(s: State, a: Action, u: nat)
    requires Base(s) && Step(s, a).Some? && u < |s.threads| && u != a.tid
    ensures var r, w := Step(s, a).value, s.threads[u];
            r.threads[u] == w || (w.pc.Asleep? && r.threads[u] == w.(pc := Asleep(true)))
  {
    match a
    case Run(t) =>
      if s.threads[t].call.Do? { OthersWaitForOp(s, t, s.threads[t].call.op, u); }
    case _ =>
  }

  lemma OthersWaitForOp(s: State, t: nat, op: Op, u: nat)
    requires Base(s) && t < |s.threads| && s.threads[t].call == Do(op) && OpStep(s, t, op).Some?
    requires u < |s.threads| && u != t
    ensures var r, w := OpStep(s, t, op).value, s.threads[u];
            r.threads[u] == w || (w.pc.Asleep? && r.threads[u] == w.(pc := Asleep(true)))
  {
  }

  lemma OtherHistory(s: State, a: Action, u: nat)
    requires Base(s) && Step(s, a).Some? && u < |s.threads| && u != a.tid
    ensures History(Step(s, a).value.threads[u]) == History(s.threads[u])
  {
    OthersWait(s, a, u);
  }

  lemma HistoriesKept(s: State, a: Action)
    requires Base(s) && HistoriesAgree(s) && Step(s, a).Some?
    ensures HistoriesAgree(Step(s, a).value)
  {
    StepSimulates(s, a);
    var r := Step(s, a).value;
    ActorHistory(s, a);
    forall u | 0 <= u < |s.threads| ensures CallsOf(r.log, u) == History(r.threads[u]) {
      if u != a.tid {
        OtherHistory(s, a, u);
      }
      if Emitted(s, a) == [] {
        assert r.log == s.log;
      } else {
        assert r.log[..|r.log| - 1] == s.log;
      }
    }
  }

  lemma ReplayKept(sh: Shared, s: State, a: Action)
    requires sh.tables.Shaped() && Base(s) && Replay(sh, s.log) == Some(Alpha(s)) && Step(s, a).Some?
    ensures Replay(sh, Step(s, a).value.log) == Some(Alpha(Step(s, a).value))
  {
    StepSimulates(s, a);
    var r := Step(s, a).value;
    if Emitted(s, a) == [] {
      assert s.log + [] == s.log;
    } else {
      assert r.log[..|r.log| - 1] == s.log;
    }
  }

  /** Events happen inside critical sections: calls on files under single_global_lock, opens and closes and both
      parts of a destroy under called_destroy_mutex. */
  lemma EventsUnderLocks(s: State, a: Action)
    requires Base(s) && Step(s, a).Some? && Emitted(s, a) != []
    ensures var e := Emitted(s, a)[0];
            && (e.Did? ==> s.g == Some(a.tid))
            && (!e.Did? || NeedsD(e.op) ==> s.d == Some(a.tid))
  {
  }

  /** A continuation of a run only appends to the log. */
  lemma {:induction false} LogOnlyGrows(s: State, actions: seq<Action>)
    requires Base(s) && Execute(s, actions).Some?
    ensures Base(Execute(s, actions).value) && s.log <= Execute(s, actions).value.log
    decreases |actions|
  {
    if actions != [] {
      var front, a := actions[..|actions| - 1], actions[|actions| - 1];
      LogOnlyGrows(s, front);
      BaseKept(Execute(s, front).value, a);
      StepSimulates(Execute(s, front).value, a);
    }
  }

  /**
   Any number of threads, any interleaving: replaying the log call by call from the start succeeds with the outcomes
   it lists, gives each thread the results it got in the order it made its calls, and ends in the shared state
   itself whenever called_destroy_mutex is free.
   */
  lemma {:induction false} EveryRunIsSerial(t: Tables, n: nat, actions: seq<Action>)
    requires t.Shaped() && Execute(Initial(t, n), actions).Some?
    ensures var s := Execute(Initial(t, n), actions).value;
            && Base(s) && HistoriesAgree(s)
            && Replay(Start(t), s.log) == Some(Alpha(s))
            && (s.d.None? ==> Alpha(s) == s.shared)
    decreases |actions|
  {
    if actions != [] {
      var front, a := actions[..|actions| - 1], actions[|actions| - 1];
      EveryRunIsSerial(t, n, front);
      var m := Execute(Initial(t, n), front).value;
      BaseKept(m, a);
      HistoriesKept(m, a);
      ReplayKept(Start(t), m, a);
    }
  }
}
