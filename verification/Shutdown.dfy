/** The shutdown protocol: the counter, sleeping destroyers, deadlock, and what a finished destroy means. */
module Shutdown {
  import opened Config
  import opened TableModel
  import opened Serial
  import opened Locking
  import opened LockingInvariant
  import opened Serializability
  import opened Counting

  // ----- Handles in use -----

  /** The handle a thread alone is responsible for: granted but not yet returned, or about to be closed. */
  function Held(th: Thread): Option<int> {
    if th.call.Destroy? then None
    else
      match th.call.op
      case OpClose(h) => if th.pc.LockG? || th.pc.LockD? || th.pc.Load? || th.pc.Save? then Some(h) else None
      case OpOpen(_, _) =>
        if Settled(th) && th.outcome.Returned? && th.outcome.code != -1 then Some(th.outcome.code) else None
      case _ => None
  }

  predicate Taken(s: State, h: int)
    requires Sound(s)
  {
    InRange(h, MAX_OPEN_FILES) && s.shared.tables.entryTaken[h]
  }

  /** Live and held handles are all different, and their table entries are taken. */
  ghost predicate HandlesOk(s: State)
    requires Sound(s)
  {
    && (forall h :: h in s.live ==> Taken(s, h))
    && (forall t :: 0 <= t < |s.threads| && Held(s.threads[t]).Some? ==>
          Taken(s, Held(s.threads[t]).value) && Held(s.threads[t]).value !in s.live)
    && (forall t, u :: 0 <= t < |s.threads| && 0 <= u < |s.threads| && t != u && Held(s.threads[t]).Some? ==>
          Held(s.threads[t]) != Held(s.threads[u]))
  }

  /** The body changes the table entries as its call says. */
  lemma EntriesAfterCall(t: Tables, op: Op)
    requires t.Shaped()
    ensures var (r, o) := OnTables(t, op);
            match op
            case OpOpen(_, _) =>
              if o.Returned? && o.code != -1
              then 0 <= o.code < MAX_OPEN_FILES && !t.entryTaken[o.code] && r.entryTaken == t.entryTaken[o.code := true]
              else r.entryTaken == t.entryTaken
            case OpClose(h) =>
              if InRange(h, MAX_OPEN_FILES) && t.entryTaken[h] then r.entryTaken == t.entryTaken[h := false]
              else r.entryTaken == t.entryTaken
            case _ => r.entryTaken == t.entryTaken
  {
    if op.OpOpen? && OpenDefined(op.path, op.flags) {
      EntriesAfterOpen(t, op.path, op.flags);
    }
  }

  lemma SaveKeepsHandles(s: State, t: nat, op: Op)
    requires Base(s) && HandlesOk(s) && t < |s.threads| && s.threads[t].call == Do(op) && s.threads[t].pc.Save?
    ensures HandlesOk(OpStep(s, t, op).value)
  {
    EntriesAfterCall(s.shared.tables, op);
  }

  lemma SameHandles(s: State, r: State)
    requires Sound(s) && Sound(r) && HandlesOk(s) && r.live == s.live && |r.threads| == |s.threads|
    requires r.shared.tables.entryTaken == s.shared.tables.entryTaken
    requires forall t :: 0 <= t < |s.threads| ==> Held(r.threads[t]) == Held(s.threads[t])
    ensures HandlesOk(r)
  {
  }

  lemma ReleaseKeepsHandles(s: State, t: nat, op: Op)
    requires Base(s) && HandlesOk(s) && t < |s.threads| && s.threads[t].call == Do(op) && Releasing(s.threads[t].pc)
    requires OpStep(s, t, op).Some?
    ensures HandlesOk(OpStep(s, t, op).value)
  {
    if op.OpOpen? && s.threads[t].pc.Unlock2? {
      OpenReturnsHandle(s, t, op);
    } else {
      SameHandles(s, OpStep(s, t, op).value);
    }
  }

  /** The handle that was held becomes live. */
  lemma OpenReturnsHandle(s: State, t: nat, op: Op)
    requires Base(s) && HandlesOk(s) && t < |s.threads| && s.threads[t].call == Do(op)
    requires op.OpOpen? && s.threads[t].pc.Unlock2?
    ensures HandlesOk(OpStep(s, t, op).value)
  {
    var r, h := OpStep(s, t, op).value, Held(s.threads[t]);
    assert Held(r.threads[t]).None? && r.live == s.live + if h.Some? then {h.value} else {};
    forall u | 0 <= u < |s.threads| && u != t ensures r.threads[u] == s.threads[u] {}
  }

  /** A live handle becomes held by the thread that closes it. */
  lemma BeginKeepsHandles(s: State, t: nat, call: Call)
    requires Base(s) && HandlesOk(s) && Step(s, Begin(t, call)).Some?
    ensures HandlesOk(Step(s, Begin(t, call)).value)
  {
    var r := Step(s, Begin(t, call)).value;
    var h := Held(r.threads[t]);
    assert h.Some? ==> h.value in s.live && r.live == s.live - {h.value};
    forall u | 0 <= u < |s.threads| && u != t ensures r.threads[u] == s.threads[u] {}
  }

  lemma AcquireKeepsHandles(s: State, t: nat, op: Op)
    requires Base(s) && HandlesOk(s) && t < |s.threads| && s.threads[t].call == Do(op) && OpStep(s, t, op).Some?
    requires Acquiring(s.threads[t].pc)
    ensures HandlesOk(OpStep(s, t, op).value)
  {
    SameHandles(s, OpStep(s, t, op).value);
  }

  lemma CountingKeepsHandles(s: State, t: nat, op: Op)
    requires Base(s) && HandlesOk(s) && t < |s.threads| && s.threads[t].call == Do(op) && OpStep(s, t, op).Some?
    requires s.threads[t].pc.CountLoad? || s.threads[t].pc.CountSave? || s.threads[t].pc.Signal?
    ensures HandlesOk(OpStep(s, t, op).value)
  {
    var r := OpStep(s, t, op).value;
    forall u | 0 <= u < |s.threads| ensures Held(r.threads[u]) == Held(s.threads[u]) {}
    SameHandles(s, r);
  }

  lemma DestroyKeepsHandles(s: State, t: nat)
    requires Base(s) && HandlesOk(s) && t < |s.threads| && s.threads[t].call.Destroy? && DestroyStep(s, t).Some?
    ensures HandlesOk(DestroyStep(s, t).value)
  {
    SameHandles(s, DestroyStep(s, t).value);
  }

  lemma HandlesKept(s: State, a: Action)
    requires Base(s) && HandlesOk(s) && Step(s, a).Some?
    ensures HandlesOk(Step(s, a).value)
  {
    match a
    case Begin(t, call) => BeginKeepsHandles(s, t, call);
    case Spurious(t) => SameHandles(s, Step(s, a).value);
    case Run(t) =>
      match s.threads[t].call
      case Destroy => DestroyKeepsHandles(s, t);
      case Do(op) =>
        if s.threads[t].pc.Save? { SaveKeepsHandles(s, t, op); }
        else if Releasing(s.threads[t].pc) { ReleaseKeepsHandles(s, t, op); }
        else if Acquiring(s.threads[t].pc) { AcquireKeepsHandles(s, t, op); }
        else { CountingKeepsHandles(s, t, op); }
  }

  // ----- The counter -----

  lemma CounterKept(s: State, a: Action)
    requires Base(s) && HandlesOk(s) && CountRight(Alpha(s)) && Step(s, a).Some?
    ensures CountRight(Alpha(Step(s, a).value))
  {
    StepSimulates(s, a);
    if Emitted(s, a) != [] && Emitted(s, a)[0].Did? {
      var op := s.threads[a.tid].call.op;
      CountKeptExactly(Alpha(s), op);
    }
  }

  // ----- Sleeping destroyers -----

  /** A destroyer asleep and not woken: files are open, or the thread that will wake it is at the broadcast. */
  ghost predicate SleepersOk(s: State) {
    forall t :: 0 <= t < |s.threads| && s.threads[t].pc == Asleep(false) ==>
      s.shared.openFiles != 0 || (s.d.Some? && s.d.value < |s.threads| && s.threads[s.d.value].pc.Signal?)
  }

  lemma SleepersKept(s: State, a: Action)
    requires Base(s) && SleepersOk(s) && Step(s, a).Some?
    ensures SleepersOk(Step(s, a).value)
  {
    if a.Run? && s.threads[a.tid].call.Do? {
      OpKeepsSleepers(s, a.tid, s.threads[a.tid].call.op);
    }
  }

  lemma OpKeepsSleepers(s: State, t: nat, op: Op)
    requires Base(s) && SleepersOk(s) && t < |s.threads| && s.threads[t].call == Do(op) && OpStep(s, t, op).Some?
    ensures SleepersOk(OpStep(s, t, op).value)
  {
  }

  // ----- A finished destroy -----

  ghost predicate Over(s: State) { exists k :: 0 <= k < |s.log| && s.log[k].Finished? }

  /** Once some destroy has finished, nothing is open and nothing can be opened. */
  ghost predicate OverOk(s: State) { Over(s) ==> s.shared.destroyed && Alpha(s).openFiles == 0 }

  lemma OverKept(s: State, a: Action)
    requires Base(s) && HandlesOk(s) && CountRight(Alpha(s)) && OverOk(s) && Step(s, a).Some?
    ensures OverOk(Step(s, a).value)
  {
    StepSimulates(s, a);
    CountZero(s.shared.tables.entryTaken);
    var r := Step(s, a).value;
    if Emitted(s, a) == [] {
      assert r.log == s.log;
    } else {
      var e := Emitted(s, a)[0];
      assert forall k :: 0 <= k < |s.log| ==> r.log[k] == s.log[k];
      assert r.log[|s.log|] == e;
      if !e.Finished? && Over(r) {
        var k :| 0 <= k < |r.log| && r.log[k].Finished?;
        assert s.log[k].Finished?;
      }
    }
  }

  // ----- All of it, in every reachable state -----

  ghost predicate Inv(t: Tables, s: State)
    requires t.Shaped()
  {
    && Base(s) && HistoriesAgree(s) && Replay(Start(t), s.log) == Some(Alpha(s))
    && HandlesOk(s) && CountRight(Alpha(s)) && SleepersOk(s) && OverOk(s)
  }

  lemma InvKept(t: Tables, s: State, a: Action)
    requires t.Shaped() && Inv(t, s) && Step(s, a).Some?
    ensures Inv(t, Step(s, a).value)
  {
    BaseKept(s, a);
    HistoriesKept(s, a);
    ReplayKept(Start(t), s, a);
    HandlesKept(s, a);
    CounterKept(s, a);
    SleepersKept(s, a);
    OverKept(s, a);
  }

  lemma InvInitially(t: Tables, n: nat)
    requires t.Shaped()
    ensures Inv(t, Initial(t, n))
  {
    CountZero(Start(t).tables.entryTaken);
  }

  /** The invariant holds in every reachable state, for any number of threads and any interleaving. */
  lemma {:induction false} Reachable(t: Tables, n: nat, actions: seq<Action>)
    requires t.Shaped() && Execute(Initial(t, n), actions).Some?
    ensures Inv(t, Execute(Initial(t, n), actions).value)
    decreases |actions|
  {
    InvInitially(t, n);
    if actions != [] {
      var front := actions[..|actions| - 1];
      Reachable(t, n, front);
      InvKept(t, Execute(Initial(t, n), front).value, actions[|actions| - 1]);
    }
  }

  /** `open_files` counts the open handles whenever called_destroy_mutex is free, and then no destroyer sleeps
      without a wake-up while nothing is open. */
  lemma CounterAndWakeUps(t: Tables, n: nat, actions: seq<Action>)
    requires t.Shaped() && Execute(Initial(t, n), actions).Some?
    ensures var s := Execute(Initial(t, n), actions).value;
            s.d.None? ==>
              && s.shared.openFiles == Count(s.shared.tables.entryTaken)
              && (forall u :: 0 <= u < |s.threads| && s.threads[u].pc == Asleep(false) ==> s.shared.openFiles != 0)
  {
    Reachable(t, n, actions);
  }

  /** From the moment some destroy has finished: no handle is open, and any further call of open fails. */
  lemma AfterDestroy(t: Tables, n: nat, actions: seq<Action>, u: nat)
    requires t.Shaped() && Execute(Initial(t, n), actions).Some?
    requires u < |Execute(Initial(t, n), actions).value.threads|
    requires exists k :: 0 <= k < |Execute(Initial(t, n), actions).value.threads[u].done|
                         && Execute(Initial(t, n), actions).value.threads[u].done[k].0 == Destroy
    ensures var s := Execute(Initial(t, n), actions).value;
            && (forall h :: 0 <= h < MAX_OPEN_FILES ==> !s.shared.tables.entryTaken[h])
            && (forall path, flags :: Apply(Alpha(s), OpOpen(path, flags)) == (Alpha(s), FAILED))
  {
    Reachable(t, n, actions);
    var s := Execute(Initial(t, n), actions).value;
    var k :| 0 <= k < |s.threads[u].done| && s.threads[u].done[k].0 == Destroy;
    assert CallsOf(s.log, u)[k].0 == Destroy;
    DestroyInLog(s.log, u, k);
    CountZero(s.shared.tables.entryTaken);
  }

  lemma {:induction false} DestroyInLog(log: seq<Event>, u: nat, k: nat)
    requires k < |CallsOf(log, u)| && CallsOf(log, u)[k].0 == Destroy
    ensures exists j :: 0 <= j < |log| && log[j].Finished?
    decreases |log|
  {
    var front, last := log[..|log| - 1], log[|log| - 1];
    if k < |CallsOf(front, u)| {
      DestroyInLog(front, u, k);
      var j :| 0 <= j < |front| && front[j].Finished?;
      assert log[j].Finished?;
    } else {
      assert last.Finished?;
    }
  }

  lemma {:induction false} DestroyInLogIsZero(log: seq<Event>, u: nat, k: nat)
    requires k < |CallsOf(log, u)| && CallsOf(log, u)[k].0 == Destroy
    ensures CallsOf(log, u)[k].1 == Returned(0, [])
    decreases |log|
  {
    var front := log[..|log| - 1];
    if k < |CallsOf(front, u)| { DestroyInLogIsZero(front, u, k); }
  }

  /** In any run, every destroy that has returned has returned 0. */
  lemma DestroysReturnZero(t: Tables, n: nat, actions: seq<Action>, u: nat, k: nat)
    requires t.Shaped() && Execute(Initial(t, n), actions).Some?
    requires u < |Execute(Initial(t, n), actions).value.threads|
    requires k < |Execute(Initial(t, n), actions).value.threads[u].done|
    requires Execute(Initial(t, n), actions).value.threads[u].done[k].0 == Destroy
    ensures Execute(Initial(t, n), actions).value.threads[u].done[k].1 == Returned(0, [])
  {
    Reachable(t, n, actions);
    var s := Execute(Initial(t, n), actions).value;
    assert CallsOf(s.log, u)[k] == s.threads[u].done[k];
    DestroyInLogIsZero(s.log, u, k);
  }

  // ----- After destroy is called -----

  lemma {:induction false} MarkStays(sh: Shared, log: seq<Event>, j: nat)
    requires sh.tables.Shaped() && Replay(sh, log).Some? && j < |log| && log[j].Marked?
    ensures Replay(sh, log).value.destroyed
    decreases |log|
  {
    if j < |log| - 1 {
      MarkStays(sh, log[..|log| - 1], j);
    }
  }

  lemma {:induction false} RefusedAfterMark(sh: Shared, log: seq<Event>, j: nat, k: nat)
    requires sh.tables.Shaped() && Replay(sh, log).Some? && j < k < |log|
    requires log[j].Marked? && log[k].Did? && log[k].op.OpOpen?
    ensures log[k].outcome == FAILED
    decreases |log|
  {
    var front := log[..|log| - 1];
    if k == |log| - 1 { MarkStays(sh, front, j); } else { RefusedAfterMark(sh, front, j, k); }
  }

  /** In any run, every open that comes after the first part of some destroy is refused. */
  lemma OpensRefused(t: Tables, n: nat, actions: seq<Action>, j: nat, k: nat)
    requires t.Shaped() && Execute(Initial(t, n), actions).Some?
    requires var log := Execute(Initial(t, n), actions).value.log;
             j < k < |log| && log[j].Marked? && log[k].Did? && log[k].op.OpOpen?
    ensures Execute(Initial(t, n), actions).value.log[k].outcome == FAILED
  {
    EveryRunIsSerial(t, n, actions);
    RefusedAfterMark(Start(t), Execute(Initial(t, n), actions).value.log, j, k);
  }

  /** Once destroy has been called the counter never rises and the flag stays. */
  lemma NeverRises(s: State, a: Action)
    requires Base(s) && s.shared.destroyed && Step(s, a).Some?
    ensures Step(s, a).value.shared.destroyed && Step(s, a).value.shared.openFiles <= s.shared.openFiles
  {
  }

  // ----- Waking up -----

  /** A destroyer asleep in pthread_cond_wait takes no step of its own. It may wake up at any time without cause; any
      other step wakes it exactly if it is the broadcast of a close that finds destroy called and nothing open. */
  lemma WakesExactly(s: State, a: Action, u: nat)
    requires Base(s) && Step(s, a).Some? && u < |s.threads| && s.threads[u].pc == Asleep(false)
    ensures Step(s, Spurious(u)).Some? && Step(s, Run(u)).None?
    ensures var w := Step(s, a).value.threads[u];
            if a == Spurious(u)
               || (a.Run? && s.threads[a.tid].pc.Signal? && s.shared.destroyed && s.shared.openFiles == 0)
            then w == s.threads[u].(pc := Asleep(true)) else w == s.threads[u]
  {
    if a.Run? && a.tid < |s.threads| && s.threads[a.tid].call.Do? { OpWakes(s, a.tid, s.threads[a.tid].call.op, u); }
  }

  lemma OpWakes(s: State, t: nat, op: Op, u: nat)
    requires Base(s) && t < |s.threads| && s.threads[t].call == Do(op) && OpStep(s, t, op).Some?
    requires u < |s.threads| && s.threads[u].pc == Asleep(false)
    ensures u != t
    ensures OpStep(s, t, op).value.threads[u] ==
              if s.threads[t].pc.Signal? && s.shared.destroyed && s.shared.openFiles == 0
              then s.threads[u].(pc := Asleep(true)) else s.threads[u]
  {
    assert Fits(s.threads[u]);
  }

  // ----- Deadlock freedom -----

  predicate CanRun(s: State, t: nat)
    requires Sound(s)
  {
    t < |s.threads| && Step(s, Run(t)).Some?
  }

  lemma OwnerOfDRuns(s: State)
    requires Base(s) && s.d.Some?
    ensures CanRun(s, s.d.value)
  {
  }

  lemma OwnerOfGRuns(s: State)
    requires Base(s) && s.g.Some? && s.d.None?
    ensures CanRun(s, s.g.value)
  {
  }

  /** Every thread is between calls or a destroyer asleep while files are open. */
  ghost predicate AtRest(s: State) {
    forall u :: 0 <= u < |s.threads| ==>
      s.threads[u].pc.Idle? || (s.threads[u].pc == Asleep(false) && s.shared.openFiles != 0)
  }

  /** In every reachable state some thread can run, or all are at rest. */
  lemma NoDeadlock(t: Tables, n: nat, actions: seq<Action>)
    requires t.Shaped() && Execute(Initial(t, n), actions).Some?
    ensures var s := Execute(Initial(t, n), actions).value; (exists u :: CanRun(s, u)) || AtRest(s)
  {
    Reachable(t, n, actions);
    SomeoneRuns(t, Execute(Initial(t, n), actions).value);
  }

  lemma SomeoneRuns(t: Tables, s: State)
    requires t.Shaped() && Inv(t, s)
    ensures (exists u :: CanRun(s, u)) || AtRest(s)
  {
    if s.d.Some? {
      OwnerOfDRuns(s);
    } else if s.g.Some? {
      OwnerOfGRuns(s);
    } else {
      forall u | 0 <= u < |s.threads| && !s.threads[u].pc.Idle? && s.threads[u].pc != Asleep(false)
        ensures CanRun(s, u)
      {
      }
    }
  }

  // ----- Calls end -----

  /** Steps a call on files still has to take, at most. */
  function CallLeft(pc: Pc): nat {
    match pc
    case LockG => 10
    case LockD => 9
    case Check => 8
    case Load => 7
    case Save(_) => 6
    case CountLoad => 5
    case CountSave(_) => 4
    case Signal => 3
    case Unlock1 => 2
    case Unlock2 => 1
    case _ => 0
  }

  predicate InCall(th: Thread) { th.call.Do? && !th.pc.Idle? }

  /** The call of thread `u` ends, or each of its own steps brings it nearer to its end and no other step matters. */
  lemma CallShrinks(s: State, a: Action, u: nat)
    requires Base(s) && Step(s, a).Some? && u < |s.threads| && InCall(s.threads[u])
    ensures var q := Step(s, a).value.threads[u];
            if a == Run(u) then
              |q.done| > |s.threads[u].done| || (InCall(q) && CallLeft(q.pc) < CallLeft(s.threads[u].pc))
            else q == s.threads[u]
  {
    if a == Run(u) { OwnStepShrinks(s, u, s.threads[u].call.op); } else if a.tid != u { OthersWait(s, a, u); }
  }

  lemma OwnStepShrinks(s: State, u: nat, op: Op)
    requires Base(s) && u < |s.threads| && s.threads[u].call == Do(op) && OpStep(s, u, op).Some?
    ensures var q := OpStep(s, u, op).value.threads[u];
            |q.done| > |s.threads[u].done| || (InCall(q) && CallLeft(q.pc) < CallLeft(s.threads[u].pc))
  {
  }

  lemma DoneOnlyGrows(s: State, a: Action, u: nat)
    requires Base(s) && Step(s, a).Some? && u < |s.threads|
    ensures |Step(s, a).value.threads[u].done| >= |s.threads[u].done|
  {
    if a.tid != u {
      OthersWait(s, a, u);
    } else if a.Run? && s.threads[u].call.Do? {
      OwnDoneGrows(s, u, s.threads[u].call.op);
    }
  }

  lemma OwnDoneGrows(s: State, u: nat, op: Op)
    requires Base(s) && u < |s.threads| && s.threads[u].call == Do(op) && OpStep(s, u, op).Some?
    ensures |OpStep(s, u, op).value.threads[u].done| >= |s.threads[u].done|
  {
  }

  function OwnSteps(actions: seq<Action>, u: nat): nat
    decreases |actions|
  {
    if actions == [] then 0
    else OwnSteps(actions[..|actions| - 1], u) + if actions[|actions| - 1] == Run(u) then 1 else 0
  }

  lemma SomethingLeft(s: State, u: nat)
    requires Base(s) && u < |s.threads| && InCall(s.threads[u])
    ensures CallLeft(s.threads[u].pc) >= 1
  {
    assert LockingInvariant.Fits(s.threads[u]);
  }

  lemma {:induction false} CallEndsFrom(s: State, actions: seq<Action>, u: nat)
    requires Base(s) && Execute(s, actions).Some? && u < |s.threads| && InCall(s.threads[u])
    ensures var r := Execute(s, actions).value;
            && Base(r) && u < |r.threads| && |r.threads[u].done| >= |s.threads[u].done|
            && (|r.threads[u].done| == |s.threads[u].done| ==>
                  InCall(r.threads[u]) && OwnSteps(actions, u) + CallLeft(r.threads[u].pc) <= CallLeft(s.threads[u].pc)
                  && CallLeft(r.threads[u].pc) >= 1)
    decreases |actions|
  {
    if actions == [] {
      SomethingLeft(s, u);
    } else {
      var front, a := actions[..|actions| - 1], actions[|actions| - 1];
      CallEndsFrom(s, front, u);
      var m := Execute(s, front).value;
      BaseKept(m, a);
      DoneOnlyGrows(m, a, u);
      if |Step(m, a).value.threads[u].done| == |s.threads[u].done| {
        CallShrinks(m, a, u);
        SomethingLeft(Step(m, a).value, u);
      }
    }
  }

  /** In any run: a call of open, close, write or read has returned once its thread has taken ten more steps, whatever
      the others do. */
  lemma CallsEnd(t: Tables, n: nat, before: seq<Action>, rest: seq<Action>, u: nat)
    requires t.Shaped() && Execute(Initial(t, n), before).Some?
    requires var s := Execute(Initial(t, n), before).value;
             u < |s.threads| && InCall(s.threads[u]) && Execute(s, rest).Some? && OwnSteps(rest, u) >= 10
    ensures var s := Execute(Initial(t, n), before).value;
            u < |Execute(s, rest).value.threads| && |Execute(s, rest).value.threads[u].done| > |s.threads[u].done|
  {
    Reachable(t, n, before);
    CallEndsFrom(Execute(Initial(t, n), before).value, rest, u);
  }

  // ----- Destroyers return -----

  /** Steps a destroyer still has to take once nothing is open and it will not sleep again. */
  function Remaining(pc: Pc): nat {
    match pc
    case DestroyLock => 5
    case Mark => 4
    case Asleep(_) => 4
    case Test => 3
    case DestroyUnlock => 2
    case _ => 0
  }

  predicate InDestroy(th: Thread) { th.call.Destroy? && !th.pc.Idle? }

  /** Nothing open, destroy called, and every sleeper woken: the last close has broadcast, or none was needed. */
  ghost predicate Closing(s: State) {
    && s.shared.destroyed && s.shared.openFiles == 0
    && (forall t :: 0 <= t < |s.threads| ==> s.threads[t].pc != Asleep(false))
    && (forall t :: 0 <= t < |s.threads| ==> !s.threads[t].pc.CountLoad? && !s.threads[t].pc.CountSave?)
  }

  /** With called_destroy_mutex free, destroy called and nothing open, the machine is closing. */
  lemma ClosingReached(t: Tables, s: State)
    requires t.Shaped() && Inv(t, s) && s.d.None? && s.shared.destroyed && s.shared.openFiles == 0
    ensures Closing(s)
  {
    forall u | 0 <= u < |s.threads| ensures !s.threads[u].pc.CountLoad? && !s.threads[u].pc.CountSave? {
      assert !HoldsD(s.threads[u]);
    }
  }

  /** Closing lasts: opens are refused and there is nothing left to close. */
  lemma ClosingLasts(t: Tables, s: State, a: Action)
    requires t.Shaped() && Inv(t, s) && Closing(s) && Step(s, a).Some?
    ensures Closing(Step(s, a).value)
  {
    assert Pending(s) == 0;
    CountZero(s.shared.tables.entryTaken);
    if a.Run? && s.threads[a.tid].call.Do? {
      OpKeepsClosing(s, a.tid, s.threads[a.tid].call.op);
    }
  }

  lemma OpKeepsClosing(s: State, t: nat, op: Op)
    requires Base(s) && HandlesOk(s) && Closing(s) && t < |s.threads| && s.threads[t].call == Do(op)
    requires forall h :: !Taken(s, h)
    requires OpStep(s, t, op).Some?
    ensures Closing(OpStep(s, t, op).value)
  {
  }

  predicate Nearer(s: State, a: Action, r: State, u: nat)
    requires u < |s.threads| == |r.threads|
  {
    if InDestroy(r.threads[u])
    then Remaining(r.threads[u].pc) <= Remaining(s.threads[u].pc) - (if a == Run(u) then 1 else 0)
    else a == Run(u)
  }

  lemma OpLeavesDestroyers(s: State, t: nat, op: Op, u: nat)
    requires Base(s) && Closing(s) && t < |s.threads| && s.threads[t].call == Do(op) && OpStep(s, t, op).Some?
    requires u < |s.threads| && InDestroy(s.threads[u])
    ensures OpStep(s, t, op).value.threads[u] == s.threads[u]
            || (s.threads[u].pc.Asleep? && OpStep(s, t, op).value.threads[u] == s.threads[u].(pc := Asleep(true)))
  {
  }

  /** Each step of a destroyer brings it closer to returning and no other step sets it back. */
  lemma ClosingProgress(s: State, a: Action, u: nat)
    requires Base(s) && Closing(s) && Step(s, a).Some?
    requires u < |s.threads| && InDestroy(s.threads[u])
    ensures Nearer(s, a, Step(s, a).value, u)
  {
    if a.Run? && s.threads[a.tid].call.Do? {
      OpLeavesDestroyers(s, a.tid, s.threads[a.tid].call.op, u);
    }
  }

  /** While closing, a destroyer can take its next step unless another thread owns called_destroy_mutex. */
  lemma ClosingEnabled(s: State, u: nat)
    requires Base(s) && Closing(s) && u < |s.threads| && InDestroy(s.threads[u])
    ensures CanRun(s, u) <==> s.d.None? || s.d == Some(u)
  {
  }

  /** The destroyer stays in the call throughout the run. */
  ghost predicate StaysInDestroy(s: State, actions: seq<Action>, u: nat)
    requires Sound(s)
  {
    forall k :: 0 <= k <= |actions| ==>
      Execute(s, actions[..k]).Some? && u < |Execute(s, actions[..k]).value.threads|
      && InDestroy(Execute(s, actions[..k]).value.threads[u])
  }

  lemma ClosingStep(t: Tables, m: State, a: Action, u: nat)
    requires t.Shaped() && Inv(t, m) && Closing(m) && Step(m, a).Some? && u < |m.threads| && InDestroy(m.threads[u])
    requires InDestroy(Step(m, a).value.threads[u])
    ensures var r := Step(m, a).value;
            && Inv(t, r) && Closing(r)
            && Remaining(r.threads[u].pc) + (if a == Run(u) then 1 else 0) <= Remaining(m.threads[u].pc)
  {
    InvKept(t, m, a);
    ClosingLasts(t, m, a);
    ClosingProgress(m, a, u);
  }

  lemma StaysInFront(s: State, actions: seq<Action>, u: nat)
    requires Sound(s) && actions != [] && StaysInDestroy(s, actions, u)
    ensures var front := actions[..|actions| - 1];
            && StaysInDestroy(s, front, u) && Execute(s, front).Some? && Execute(s, actions).Some?
            && u < |Execute(s, front).value.threads| == |Execute(s, actions).value.threads|
            && InDestroy(Execute(s, front).value.threads[u]) && InDestroy(Execute(s, actions).value.threads[u])
  {
    var front := actions[..|actions| - 1];
    assert actions[..|actions|] == actions && front[..|front|] == front == actions[..|front|];
    assert forall k :: 0 <= k <= |front| ==> front[..k] == actions[..k];
  }

  /** From closing, whatever the others do, a destroyer takes at most four more steps without returning. */
  lemma {:induction false} DestroyReturns(t: Tables, s: State, actions: seq<Action>, u: nat)
    requires t.Shaped() && Inv(t, s) && Closing(s) && StaysInDestroy(s, actions, u)
    ensures Execute(s, actions).Some? && Inv(t, Execute(s, actions).value) && Closing(Execute(s, actions).value)
    ensures u < |s.threads| == |Execute(s, actions).value.threads|
    ensures OwnSteps(actions, u) + Remaining(Execute(s, actions).value.threads[u].pc) <= Remaining(s.threads[u].pc)
    ensures OwnSteps(actions, u) <= 4
    decreases |actions|
  {
    if actions == [] {
      assert actions[..0] == [];
    } else {
      var front, a := actions[..|actions| - 1], actions[|actions| - 1];
      StaysInFront(s, actions, u);
      DestroyReturns(t, s, front, u);
      ClosingStep(t, Execute(s, front).value, a, u);
    }
  }

  /** In any run: once destroy has been called, nothing is open and called_destroy_mutex is free, no continuation
      keeps a destroyer in its call for more than four of its own steps. */
  lemma DestroyersReturn(t: Tables, n: nat, before: seq<Action>, rest: seq<Action>, u: nat)
    requires t.Shaped() && Execute(Initial(t, n), before).Some?
    requires var s := Execute(Initial(t, n), before).value;
             s.d.None? && s.shared.destroyed && s.shared.openFiles == 0 && StaysInDestroy(s, rest, u)
    ensures OwnSteps(rest, u) <= 4
  {
    Reachable(t, n, before);
    var s := Execute(Initial(t, n), before).value;
    ClosingReached(t, s);
    DestroyReturns(t, s, rest, u);
  }
}
