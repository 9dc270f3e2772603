/** Where a call stands in the serial order, and what the abstract file system gives for it there. */
module Outcomes {
  import opened Config
  import opened TableModel
  import opened Serial
  import opened Locking
  import opened Serializability
  import opened LockOrder
  import opened Refinement
  import opened EndToEnd
  import A = AbstractFs

  lemma {:induction false} RunFsGrows(fs: A.Fs, ops: seq<Op>, op: Op)
    requires A.WellFormed(fs) && A.OffsetsInside(fs) && LegalRun(fs, ops + [op])
    ensures LegalRun(fs, ops) && A.Legal(RunFs(fs, ops).0, op)
    ensures RunFs(fs, ops + [op]).1 == RunFs(fs, ops).1 + [A.Apply(RunFs(fs, ops).0, op).1]
    decreases |ops|
  {
    if ops != [] {
      A.ApplyKeeps(fs, ops[0]);
      assert (ops + [op])[1..] == ops[1..] + [op];
      RunFsGrows(A.Apply(fs, ops[0]).0, ops[1..], op);
    } else {
      assert ops + [op] == [op] && [op][1..] == [];
    }
  }

  /** What the abstract file system, after the calls logged ahead, gives for the call at `p`; an open is refused once
      a destroy has been logged. */
  ghost function AbstractOutcome(log: seq<Event>, p: nat): Outcome
    requires p < |log| && log[p].Did? && LegalRun(A.EMPTY, Ran(log[..p]))
  {
    if log[p].op.OpOpen? && IsMarked(log[..p]) then Returned(-1, [])
    else A.Apply(RunFs(A.EMPTY, Ran(log[..p])).0, log[p].op).1
  }

  ghost predicate FromAbstract(log: seq<Event>, p: nat) {
    && p < |log| && log[p].Did? && LegalRun(A.EMPTY, Ran(log[..p])) && log[p].outcome == AbstractOutcome(log, p)
    && (log[p].op.OpOpen? || A.Legal(RunFs(A.EMPTY, Ran(log[..p])).0, log[p].op))
  }

  ghost predicate AbstractLog(t: Tables, log: seq<Event>)
    requires t.Shaped()
  {
    && Replay(Start(t), log).Some? && LegalRun(A.EMPTY, Ran(log))
    && Results(log) == RunFs(A.EMPTY, Ran(log)).1
  }

  predicate Reaches(log: seq<Event>)
    requires log != []
  {
    var front, e := log[..|log| - 1], log[|log| - 1];
    e.Did? && !(e.op.OpOpen? && IsMarked(front))
  }

  lemma ReachedOutcome(t: Tables, log: seq<Event>)
    requires t.Shaped() && log != [] && AbstractLog(t, log) && Reaches(log)
    ensures AbstractLog(t, log[..|log| - 1]) && FromAbstract(log, |log| - 1)
  {
    var front, e := log[..|log| - 1], log[|log| - 1];
    assert Ran(log) == Ran(front) + [e.op] && Results(log) == Results(front) + [e.outcome];
    RunFsGrows(A.EMPTY, Ran(front), e.op);
    SamePush(Results(front), e.outcome, RunFs(A.EMPTY, Ran(front)).1,
             A.Apply(RunFs(A.EMPTY, Ran(front)).0, e.op).1);
    assert log[|log| - 1] == e && log[..|log| - 1] == front;
  }

  lemma SamePush(a: seq<Outcome>, x: Outcome, b: seq<Outcome>, y: Outcome)
    requires a + [x] == b + [y]
    ensures a == b && x == y
  {
    assert |a| == |b| && (a + [x])[|a|] == x && (b + [y])[|b|] == y;
    assert (a + [x])[..|a|] == a && (b + [y])[..|b|] == b;
  }

  lemma OtherOutcome(t: Tables, log: seq<Event>)
    requires t.Shaped() && log != [] && AbstractLog(t, log) && !Reaches(log)
    ensures AbstractLog(t, log[..|log| - 1])
    ensures log[|log| - 1].Did? ==> FromAbstract(log, |log| - 1)
  {
    var front := log[..|log| - 1];
    assert Ran(log) == Ran(front) && Results(log) == Results(front);
    ReplayRunsTables(t, front);
  }

  lemma LastOutcome(t: Tables, log: seq<Event>)
    requires t.Shaped() && AbstractLog(t, log) && log != []
    ensures AbstractLog(t, log[..|log| - 1])
    ensures log[|log| - 1].Did? ==> FromAbstract(log, |log| - 1)
  {
    if Reaches(log) { ReachedOutcome(t, log); } else { OtherOutcome(t, log); }
  }

  lemma {:induction false} OutcomeAt(t: Tables, log: seq<Event>, p: nat)
    requires t.Shaped() && AbstractLog(t, log) && p < |log| && log[p].Did?
    ensures FromAbstract(log, p)
    decreases |log|
  {
    LastOutcome(t, log);
    if p < |log| - 1 {
      var front := log[..|log| - 1];
      OutcomeAt(t, front, p);
      assert front[..p] == log[..p];
    }
  }

  /** What the abstract file system gives is always a result. */
  lemma AbstractReturns(log: seq<Event>, p: nat)
    requires FromAbstract(log, p)
    ensures log[p].outcome.Returned?
  {
  }

  lemma {:induction false} PositionsInOrder(log: seq<Event>, u: nat, j: nat, k: nat)
    requires j < k < |CallsOf(log, u)|
    ensures Position(log, u, j) < Position(log, u, k)
    decreases |log|
  {
    var front := log[..|log| - 1];
    if k < |CallsOf(front, u)| { PositionsInOrder(front, u, j, k); }
  }
}
