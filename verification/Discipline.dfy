/** Threads that use only handles of their own need no further condition: whatever they do concurrently is legal. */
module Discipline {
  import opened Config
  import opened TableModel
  import opened Serial
  import opened Locking
  import opened LockingInvariant
  import opened Serializability
  import opened Shutdown
  import opened Refinement
  import opened EndToEnd
  import opened Counting
  import A = AbstractFs

  // ----- What a thread checks before it calls -----

  /** Real strings, buffers and lengths; no truncation. */
  predicate Mild(op: Op) {
    match op
    case OpOpen(path, flags) => (path != [] || !Creates(flags)) && !Truncates(flags)
    case OpClose(_) => true
    case OpWrite(_, buffer) => |buffer| + BLOCK_SIZE < SIZE_T_RANGE
    case OpRead(_, len) => len < SIZE_T_RANGE
  }

  /** What a finished call adds to the handles of its caller, or takes away. */
  function After(own: set<int>, call: Call, o: Outcome): set<int> {
    if call.Do? && call.op.OpOpen? && o.Returned? && o.code != -1 then own + {o.code}
    else if call.Do? && call.op.OpClose? then own - {call.op.h}
    else own
  }

  /** The handles that these finished calls have opened and not closed. */
  function Opened(calls: seq<(Call, Outcome)>): set<int>
    decreases |calls|
  {
    if calls == [] then {}
    else After(Opened(calls[..|calls| - 1]), calls[|calls| - 1].0, calls[|calls| - 1].1)
  }

  /** The handle is one of `own`; or, in a read or write, out of range, and the call fails. */
  predicate MayUse(own: set<int>, op: Op) {
    match op
    case OpOpen(_, _) => true
    case OpClose(h) => h in own
    case OpWrite(h, _) => InRange(h, MAX_OPEN_FILES) ==> h in own
    case OpRead(h, _) => InRange(h, MAX_OPEN_FILES) ==> h in own
  }

  /** The call uses only handles that the thread has opened itself and not closed. */
  predicate Polite(th: Thread, call: Call) { call.Do? ==> Mild(call.op) && MayUse(Opened(th.done), call.op) }

  predicate PoliteStep(s: State, a: Action) { a.Begin? && a.tid < |s.threads| ==> Polite(s.threads[a.tid], a.call) }

  /** Every call of the run is polite when it is begun. */
  predicate PoliteRun(s: State, actions: seq<Action>)
    requires Sound(s) && Execute(s, actions).Some?
    decreases |actions|
  {
    actions == [] ||
    (PoliteRun(s, actions[..|actions| - 1])
     && PoliteStep(Execute(s, actions[..|actions| - 1]).value, actions[|actions| - 1]))
  }

  // ----- What that keeps -----

  /** The handles a thread has to itself: not the one it is closing. */
  function Own(th: Thread): set<int> {
    Opened(th.done) - if !th.pc.Idle? && th.call.Do? && th.call.op.OpClose? then {th.call.op.h} else {}
  }

  /** A thread inside a call: the call is mild and its handle is still the thread's own. */
  predicate InUse(th: Thread) {
    !th.pc.Idle? && th.call.Do? ==>
      Mild(th.call.op) && (th.call.op.OpWrite? || th.call.op.OpRead? ==> MayUse(Own(th), th.call.op))
  }

  ghost predicate OwnOk(s: State) {
    && (forall t :: 0 <= t < |s.threads| ==> Own(s.threads[t]) <= s.live && InUse(s.threads[t]))
    && (forall t, u :: 0 <= t < |s.threads| && 0 <= u < |s.threads| && t != u ==>
          Own(s.threads[t]) !! Own(s.threads[u]))
  }

  lemma OpenedMore(calls: seq<(Call, Outcome)>, call: Call, o: Outcome)
    ensures Opened(calls + [(call, o)]) == After(Opened(calls), call, o)
  {
    assert (calls + [(call, o)])[..|calls|] == calls;
  }

  /** The call is an open that returned `h`. */
  predicate Opens(call: (Call, Outcome), h: int) {
    call.0.Do? && call.0.op.OpOpen? && call.1.Returned? && call.1.code == h && h != -1
  }

  /** The `j`-th call opened `h`, and no later one closes it. */
  predicate OpensForGood(calls: seq<(Call, Outcome)>, j: nat, h: int) {
    j < |calls| && Opens(calls[j], h) && forall k :: j < k < |calls| ==> calls[k].0 != Do(OpClose(h))
  }

  /** A handle is a thread's own exactly if one of its opens returned it and none of its calls closed it since. */
  lemma {:induction false} OpenedExactly(calls: seq<(Call, Outcome)>, h: int)
    ensures h in Opened(calls) <==> exists j: nat :: OpensForGood(calls, j, h)
    decreases |calls|
  {
    if calls != [] {
      var last := |calls| - 1;
      var front := calls[..last];
      OpenedExactly(front, h);
      if h in Opened(calls) {
        if Opens(calls[last], h) {
          assert OpensForGood(calls, last, h);
        } else {
          var j: nat :| OpensForGood(front, j, h);
          assert OpensForGood(calls, j, h);
        }
      }
      if j: nat :| OpensForGood(calls, j, h) {
        if j < last { assert OpensForGood(front, j, h); }
      }
    }
  }

  lemma BeginKeepsOwn(s: State, t: nat, call: Call)
    requires Base(s) && OwnOk(s) && Step(s, Begin(t, call)).Some? && Polite(s.threads[t], call)
    ensures OwnOk(Step(s, Begin(t, call)).value)
  {
    var r := Step(s, Begin(t, call)).value;
    forall u | 0 <= u < |s.threads| && u != t ensures r.threads[u] == s.threads[u] {}
    assert Own(s.threads[t]) == Opened(s.threads[t].done);
  }

  /** A step that finishes no call: every thread has what it had. */
  lemma SameOwn(s: State, r: State)
    requires OwnOk(s) && GoesOn(s, r)
    ensures OwnOk(r)
  {
  }

  function Gained(th: Thread): set<int> {
    if th.call.Do? && th.call.op.OpOpen? && th.outcome.Returned? && th.outcome.code != -1 then {th.outcome.code} else {}
  }

  lemma OwnAfterReturn(th: Thread, r: Thread)
    requires !th.pc.Idle? && r == Thread(Idle, th.call, th.outcome, th.done + [(th.call, th.outcome)])
    ensures Own(r) == Own(th) + Gained(th) && InUse(r)
  {
    OpenedMore(th.done, th.call, th.outcome);
  }

  /** One thread gets handles that were nobody's. */
  lemma GainKeepsOwn(s: State, r: State, t: nat, gained: set<int>)
    requires OwnOk(s) && t < |s.threads| == |r.threads| && gained !! s.live && r.live == s.live + gained
    requires Own(r.threads[t]) == Own(s.threads[t]) + gained && InUse(r.threads[t])
    requires forall u :: 0 <= u < |s.threads| && u != t ==> r.threads[u] == s.threads[u]
    ensures OwnOk(r)
  {
    forall u | 0 <= u < |s.threads| && u != t ensures Own(r.threads[t]) !! Own(r.threads[u]) {
      assert Own(s.threads[u]) <= s.live;
    }
  }

  /** A call that ends gives its thread what it opened. */
  lemma ReturnKeepsOwn(s: State, t: nat)
    requires Base(s) && HandlesOk(s) && OwnOk(s) && t < |s.threads| && !s.threads[t].pc.Idle?
    requires s.threads[t].call.Do? ==> Settled(s.threads[t])
    ensures OwnOk(Returns(s, t))
  {
    var th, r := s.threads[t], Returns(s, t);
    OwnAfterReturn(th, r.threads[t]);
    assert Gained(th) != {} ==> Held(th) == Some(th.outcome.code);
    assert r.live == s.live + Gained(th);
    GainKeepsOwn(s, r, t, Gained(th));
  }

  /** The step ends a call: what it returns to is the state with the mutex released. */
  predicate Ending(s: State, t: nat)
    requires t < |s.threads|
  {
    var th := s.threads[t];
    || th.pc.DestroyUnlock? || th.pc.Unlock2?
    || (th.pc.Unlock1? && th.call.Do? && !NeedsD(th.call.op))
  }

  lemma EndingKeepsOwn(s: State, t: nat)
    requires Base(s) && HandlesOk(s) && OwnOk(s) && Step(s, Run(t)).Some? && Ending(s, t)
    ensures OwnOk(Step(s, Run(t)).value)
  {
    ReturnKeepsOwn(s, t);
    var r, q := Step(s, Run(t)).value, Returns(s, t);
    assert r.threads == q.threads && r.live == q.live;
  }

  /** A step inside a call leaves everybody's calls alone. */
  predicate GoesOn(s: State, r: State) {
    && r.live == s.live && |r.threads| == |s.threads|
    && forall u :: 0 <= u < |s.threads| ==>
         && r.threads[u].done == s.threads[u].done && r.threads[u].call == s.threads[u].call
         && (r.threads[u].pc.Idle? <==> s.threads[u].pc.Idle?)
  }

  lemma OpGoesOn(s: State, t: nat, op: Op)
    requires Base(s) && t < |s.threads| && s.threads[t].call == Do(op) && OpStep(s, t, op).Some? && !Ending(s, t)
    ensures GoesOn(s, OpStep(s, t, op).value)
  {
    var r := OpStep(s, t, op).value;
    if s.threads[t].pc.Signal? {
      assert r.live == s.live;
    } else {
      assert r.threads == s.threads[t := r.threads[t]];
    }
  }

  lemma DestroyGoesOn(s: State, t: nat)
    requires Base(s) && t < |s.threads| && s.threads[t].call.Destroy? && DestroyStep(s, t).Some? && !Ending(s, t)
    ensures GoesOn(s, DestroyStep(s, t).value)
  {
  }

  lemma OwnKept(s: State, a: Action)
    requires Base(s) && HandlesOk(s) && OwnOk(s) && Step(s, a).Some? && PoliteStep(s, a)
    ensures OwnOk(Step(s, a).value)
  {
    match a
    case Begin(t, call) => BeginKeepsOwn(s, t, call);
    case Spurious(_) => SameOwn(s, Step(s, a).value);
    case Run(t) =>
      if Ending(s, t) { EndingKeepsOwn(s, t); }
      else if s.threads[t].call.Do? {
        OpGoesOn(s, t, s.threads[t].call.op);
        SameOwn(s, Step(s, a).value);
      } else {
        DestroyGoesOn(s, t);
        SameOwn(s, Step(s, a).value);
      }
  }

  // ----- So every logged call is legal -----

  /** A call about to take effect on the tables is legal there. */
  lemma SaveIsLegal(s: State, t: nat, op: Op, fs: A.Fs)
    requires Base(s) && HandlesOk(s) && OwnOk(s) && Matches(s.shared.tables, fs)
    requires t < |s.threads| && s.threads[t].call == Do(op) && s.threads[t].pc.Save?
    ensures A.Legal(fs, op)
  {
    var th := s.threads[t];
    assert Own(th) <= s.live && InUse(th);
    match op
    case OpClose(h) => assert Held(th) == Some(h);
    case OpWrite(h, _) => assert h in s.live ==> Taken(s, h);
    case OpRead(h, _) => assert h in s.live ==> Taken(s, h);
    case _ =>
  }

  lemma {:induction false} LegalRunGrows(fs: A.Fs, ops: seq<Op>, op: Op)
    requires A.WellFormed(fs) && A.OffsetsInside(fs) && LegalRun(fs, ops) && A.Legal(RunFs(fs, ops).0, op)
    ensures LegalRun(fs, ops + [op])
    decreases |ops|
  {
    if ops != [] {
      A.ApplyKeeps(fs, ops[0]);
      assert (ops + [op])[1..] == ops[1..] + [op];
      LegalRunGrows(A.Apply(fs, ops[0]).0, ops[1..], op);
    } else {
      A.ApplyKeeps(fs, op);
      assert (ops + [op])[1..] == [];
    }
  }

  lemma {:induction false} RanPush(log: seq<Event>, e: Event)
    ensures Ran(log + [e]) == Ran(log) + if e.Did? && !(e.op.OpOpen? && IsMarked(log)) then [e.op] else []
  {
    assert (log + [e])[..|log|] == log;
  }

  lemma MarkedIsDestroyed(t: Tables, s: State)
    requires t.Shaped() && Replay(Start(t), s.log) == Some(Alpha(s))
    ensures IsMarked(s.log) == s.shared.destroyed
  {
    ReplayRunsTables(t, s.log);
  }

  /** The one event that a step logs: a call storing its result, an open refused after a destroy, or a destroy's. */
  lemma EventKinds(s: State, a: Action)
    requires Base(s) && Step(s, a).Some? && Emitted(s, a) != []
    ensures var e := Emitted(s, a)[0];
            && Step(s, a).value.log == s.log + [e]
            && (e.Did? ==> a.Run? && s.threads[a.tid].call == Do(e.op)
                           && if s.threads[a.tid].pc.Save? then e.op.OpOpen? ==> !s.shared.destroyed
                              else e.op.OpOpen? && s.shared.destroyed)
  {
    StepSimulates(s, a);
    assert |Emitted(s, a)| == 1 && Emitted(s, a) == [Emitted(s, a)[0]];
    assert ReadsHold(s, s.threads[a.tid]);
  }

  /** What a step adds to the calls that reached the tables. */
  lemma RanGrows(t: Tables, s: State, a: Action)
    requires t.Shaped() && Base(s) && Replay(Start(t), s.log) == Some(Alpha(s)) && Step(s, a).Some?
    ensures var r := Step(s, a).value;
            || Ran(r.log) == Ran(s.log)
            || (a.Run? && s.threads[a.tid].call.Do? && s.threads[a.tid].pc.Save?
                && Ran(r.log) == Ran(s.log) + [s.threads[a.tid].call.op])
  {
    if Emitted(s, a) == [] {
      StepSimulates(s, a);
      assert s.log + [] == s.log;
    } else {
      var e := Emitted(s, a)[0];
      EventKinds(s, a);
      MarkedIsDestroyed(t, s);
      RanPush(s.log, e);
      assert Ran(s.log) + [] == Ran(s.log);
    }
  }

  lemma MatchedAt(t: Tables, n: nat, actions: seq<Action>)
    requires t.Shaped() && Execute(Initial(t, n), actions).Some?
    requires LegalRun(A.EMPTY, Ran(Execute(Initial(t, n), actions).value.log))
    ensures var s := Execute(Initial(t, n), actions).value;
            Shutdown.Inv(t, s) && Matches(s.shared.tables, RunFs(A.EMPTY, Ran(s.log)).0)
  {
    Shutdown.Reachable(t, n, actions);
    ConcurrentRunRefines(t, n, actions);
  }

  /** Handles are owned, and every call logged so far was legal where it took effect. */
  ghost predicate AllLegal(s: State) { OwnOk(s) && LegalRun(A.EMPTY, Ran(s.log)) }

  lemma LegalInitially(t: Tables, n: nat)
    requires t.Shaped()
    ensures AllLegal(Initial(t, n))
  {
  }

  lemma {:induction false} PoliteRunIsLegal(t: Tables, n: nat, actions: seq<Action>)
    requires t.Shaped() && Execute(Initial(t, n), actions).Some? && PoliteRun(Initial(t, n), actions)
    ensures AllLegal(Execute(Initial(t, n), actions).value)
    decreases |actions|
  {
    if actions == [] {
      LegalInitially(t, n);
    } else {
      var front, a := actions[..|actions| - 1], actions[|actions| - 1];
      PoliteRunIsLegal(t, n, front);
      MatchedAt(t, n, front);
      LegalStep(t, Execute(Initial(t, n), front).value, a);
    }
  }

  lemma LegalStep(t: Tables, s: State, a: Action)
    requires t.Shaped() && Shutdown.Inv(t, s) && AllLegal(s) && Step(s, a).Some? && PoliteStep(s, a)
    requires Matches(s.shared.tables, RunFs(A.EMPTY, Ran(s.log)).0)
    ensures AllLegal(Step(s, a).value)
  {
    OwnKept(s, a);
    RanGrows(t, s, a);
    if Ran(Step(s, a).value.log) != Ran(s.log) {
      var op := s.threads[a.tid].call.op;
      SaveIsLegal(s, a.tid, op, RunFs(A.EMPTY, Ran(s.log)).0);
      LegalRunGrows(A.EMPTY, Ran(s.log), op);
    }
  }

  /**
   Any number of threads, any interleaving: if each begins only calls on handles it opened itself and has not closed,
   and none truncates, the results of all calls are those of the abstract file system in the logged order.
   */
  lemma PoliteThreadsRefine(t: Tables, n: nat, actions: seq<Action>)
    requires t.Shaped() && Execute(Initial(t, n), actions).Some? && PoliteRun(Initial(t, n), actions)
    ensures var s := Execute(Initial(t, n), actions).value;
            && HistoriesAgree(s) && LegalRun(A.EMPTY, Ran(s.log))
            && Results(s.log) == RunFs(A.EMPTY, Ran(s.log)).1
            && Matches(s.shared.tables, RunFs(A.EMPTY, Ran(s.log)).0)
  {
    PoliteRunIsLegal(t, n, actions);
    ConcurrentRunRefines(t, n, actions);
  }

  /** A polite thread is never refused its call: the handle it means is live. */
  lemma PoliteMayBegin(s: State, t: nat, call: Call)
    requires OwnOk(s) && t < |s.threads| && s.threads[t].pc.Idle? && Polite(s.threads[t], call)
    ensures MayBegin(s, call)
  {
    assert Own(s.threads[t]) == Opened(s.threads[t].done);
  }
}
