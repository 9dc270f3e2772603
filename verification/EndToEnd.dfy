/** Threads, locks, tables and blocks together: concurrent runs give the results of the abstract file system. */
module EndToEnd {
  import opened Config
  import opened TableModel
  import opened Serial
  import opened Locking
  import opened LockingInvariant
  import opened Serializability
  import opened Refinement
  import A = AbstractFs

  predicate IsMarked(log: seq<Event>)
    decreases |log|
  {
    log != [] && (log[|log| - 1].Marked? || IsMarked(log[..|log| - 1]))
  }

  /** The calls that reached the tables: all but the opens refused because destroy was called before them. */
  function Ran(log: seq<Event>): (ops: seq<Op>)
    decreases |log|
  {
    if log == [] then []
    else
      var front, e := log[..|log| - 1], log[|log| - 1];
      Ran(front) + if e.Did? && !(e.op.OpOpen? && IsMarked(front)) then [e.op] else []
  }

  function Results(log: seq<Event>): (outcomes: seq<Outcome>)
    ensures |outcomes| == |Ran(log)|
    decreases |log|
  {
    if log == [] then []
    else
      var front, e := log[..|log| - 1], log[|log| - 1];
      Results(front) + if e.Did? && !(e.op.OpOpen? && IsMarked(front)) then [e.outcome] else []
  }

  lemma {:induction false} RunTablesAppend(t: Tables, ops: seq<Op>, op: Op)
    requires t.Shaped()
    ensures RunTables(t, ops + [op]).0 == OnTables(RunTables(t, ops).0, op).0
    ensures RunTables(t, ops + [op]).1 == RunTables(t, ops).1 + [OnTables(RunTables(t, ops).0, op).1]
    decreases |ops|
  {
    if ops != [] {
      assert (ops + [op])[1..] == ops[1..] + [op];
      RunTablesAppend(OnTables(t, ops[0]).0, ops[1..], op);
    }
  }

  /** A serial log is a run of its calls on the tables. */
  lemma {:induction false} ReplayRunsTables(t: Tables, log: seq<Event>)
    requires t.Shaped() && Replay(Start(t), log).Some?
    ensures var sh := Replay(Start(t), log).value;
            && sh.tables == RunTables(Init(t).0, Ran(log)).0
            && Results(log) == RunTables(Init(t).0, Ran(log)).1
            && sh.destroyed == IsMarked(log)
    decreases |log|
  {
    if log != [] {
      var front, e := log[..|log| - 1], log[|log| - 1];
      ReplayRunsTables(t, front);
      var m := Replay(Start(t), front).value;
      if e.Did? && !(e.op.OpOpen? && IsMarked(front)) {
        assert Apply(m, e.op).0.tables == OnTables(m.tables, e.op).0;
        assert Ran(log) == Ran(front) + [e.op] && Results(log) == Results(front) + [e.outcome];
        RunTablesAppend(Init(t).0, Ran(front), e.op);
      } else {
        assert Ran(log) == Ran(front) && Results(log) == Results(front);
      }
    }
  }

  /**
   Any number of threads, any interleaving: if the calls that reached the tables were legal in the order they are
   logged, their results are those of the abstract file system run in that order, and its final state is what the
   tables represent.
   */
  lemma ConcurrentRunRefines(t: Tables, n: nat, actions: seq<Action>)
    requires t.Shaped() && Execute(Initial(t, n), actions).Some?
    requires LegalRun(A.EMPTY, Ran(Execute(Initial(t, n), actions).value.log))
    ensures var s := Execute(Initial(t, n), actions).value;
            && HistoriesAgree(s)
            && Results(s.log) == RunFs(A.EMPTY, Ran(s.log)).1
            && Matches(s.shared.tables, RunFs(A.EMPTY, Ran(s.log)).0)
  {
    EveryRunIsSerial(t, n, actions);
    var log := Execute(Initial(t, n), actions).value.log;
    ReplayRunsTables(t, log);
    RunFromInit(t, Ran(log));
  }
}
