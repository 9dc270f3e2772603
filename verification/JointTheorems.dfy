/** The whole server runs both machines, and never stops serving unless it waits for files to be closed. */
module JointTheorems {
  import opened Config
  import opened Serial
  import opened Joint
  import opened JointInvariant
  import T = TableModel
  import S = Sessions
  import SI = SessionInvariant
  import SD = SessionDelivery
  import L = Locking
  import LI = LockingInvariant
  import Sh = Shutdown
  import D = Discipline
  import Counting

  /** Every client asks only for what it may, throughout the run. */
  predicate PoliteRun(s: State, actions: seq<Action>)
    requires Sound(s) && Execute(s, actions).Some?
    decreases |actions|
  {
    actions == [] ||
    (PoliteRun(s, actions[..|actions| - 1])
     && PoliteStep(Execute(s, actions[..|actions| - 1]).value, actions[|actions| - 1]))
  }

  // ----- Both machines run -----

  lemma SessionRunGrows(n: nat, sa: seq<S.Action>, s: S.State, b: S.Action, r: S.State)
    requires S.Execute(S.Initial(n), sa) == Some(s) && S.Sound(s) && S.Step(s, b) == Some(r)
    ensures S.Execute(S.Initial(n), sa + [b]) == Some(r)
  {
    assert (sa + [b])[..|sa|] == sa;
  }

  lemma LockingRunGrows(t: T.Tables, la: seq<L.Action>, s: L.State, b: L.Action, r: L.State)
    requires t.Shaped() && L.Execute(L.Initial(t, S.S), la) == Some(s) && L.Sound(s) && L.Step(s, b) == Some(r)
    requires D.PoliteRun(L.Initial(t, S.S), la) && D.PoliteStep(s, b)
    ensures L.Execute(L.Initial(t, S.S), la + [b]) == Some(r) && D.PoliteRun(L.Initial(t, S.S), la + [b])
  {
    assert (la + [b])[..|la|] == la;
  }

  /** The run seen by the two machines. */
  ghost predicate Runs(t: T.Tables, n: nat, s: State, sa: seq<S.Action>, la: seq<L.Action>)
    requires t.Shaped()
  {
    && S.Execute(S.Initial(n), sa) == Some(s.sess)
    && L.Execute(L.Initial(t, S.S), la) == Some(s.fs) && D.PoliteRun(L.Initial(t, S.S), la)
  }

  lemma EnterRuns(t: T.Tables, n: nat, s: State, sa: seq<S.Action>, la: seq<L.Action>, i: nat)
    returns (lb: seq<L.Action>)
    requires t.Shaped() && Runs(t, n, s, sa, la) && Agree(s) && SI.Inv(s.sess) && Step(s, Enter(i)).Some?
    ensures Runs(t, n, Step(s, Enter(i)).value, sa, lb)
  {
    var b := L.Begin(i, CallOf(s.sess.slots[i].pc.job).value);
    EnterIsPolite(s, i);
    LockingRunGrows(t, la, s.fs, b, Step(s, Enter(i)).value.fs);
    lb := la + [b];
  }

  lemma StepRuns(t: T.Tables, n: nat, s: State, sa: seq<S.Action>, la: seq<L.Action>, a: Action)
    returns (sb: seq<S.Action>, lb: seq<L.Action>)
    requires t.Shaped() && Runs(t, n, s, sa, la) && Agree(s) && SI.Inv(s.sess) && Step(s, a).Some?
    ensures Runs(t, n, Step(s, a).value, sb, lb)
  {
    sb, lb := sa, la;
    match a
    case Session(b) =>
      SessionRunGrows(n, sa, s.sess, b, Step(s, a).value.sess);
      sb := sa + [b];
    case Enter(i) =>
      lb := EnterRuns(t, n, s, sa, la, i);
    case Inside(b) =>
      LockingRunGrows(t, la, s.fs, b, Step(s, a).value.fs);
      lb := la + [b];
    case Leave(i) =>
      sb := LeaveRuns(t, n, s, sa, la, i);
  }

  lemma LeaveRuns(t: T.Tables, n: nat, s: State, sa: seq<S.Action>, la: seq<L.Action>, i: nat)
    returns (sb: seq<S.Action>)
    requires t.Shaped() && Runs(t, n, s, sa, la) && Sound(s) && Step(s, Leave(i)).Some?
    ensures Runs(t, n, Step(s, Leave(i)).value, sb, la)
  {
    var b := S.Work(i, CodeOf(s.fs.threads[i].done[|s.fs.threads[i].done| - 1].1));
    SessionRunGrows(n, sa, s.sess, b, Step(s, Leave(i)).value.sess);
    sb := sa + [b];
  }

  lemma StepBoth(t: T.Tables, n: nat, s: State, sa: seq<S.Action>, la: seq<L.Action>, a: Action)
    returns (sb: seq<S.Action>, lb: seq<L.Action>)
    requires t.Shaped() && Runs(t, n, s, sa, la) && Agree(s) && Step(s, a).Some? && PoliteStep(s, a)
    ensures Agree(Step(s, a).value) && Runs(t, n, Step(s, a).value, sb, lb)
  {
    BothInvariants(t, n, s, sa, la);
    StepKeepsAgree(s, a);
    sb, lb := StepRuns(t, n, s, sa, la, a);
  }

  lemma AgreeInitially(t: T.Tables, n: nat)
    requires t.Shaped()
    ensures Agree(Initial(t, n))
  {
    assert CallsIn([]) == First([]);
  }

  /** Every run of the whole server is a run of the session machine and a polite run of the locking machine; so all
      that is proved of either holds here. */
  lemma {:induction false} BothRun(t: T.Tables, n: nat, actions: seq<Action>)
    returns (sa: seq<S.Action>, la: seq<L.Action>)
    requires t.Shaped() && Execute(Initial(t, n), actions).Some? && PoliteRun(Initial(t, n), actions)
    ensures var s := Execute(Initial(t, n), actions).value; Agree(s) && Runs(t, n, s, sa, la)
    decreases |actions|
  {
    if actions == [] {
      sa, la := [], [];
      AgreeInitially(t, n);
    } else {
      var front, a := actions[..|actions| - 1], actions[|actions| - 1];
      sa, la := BothRun(t, n, front);
      sa, la := StepBoth(t, n, Execute(Initial(t, n), front).value, sa, la, a);
    }
  }

  lemma BothInvariants(t: T.Tables, n: nat, s: State, sa: seq<S.Action>, la: seq<L.Action>)
    requires t.Shaped() && Runs(t, n, s, sa, la)
    ensures SI.Inv(s.sess) && SD.AllTraced(s.sess) && Sh.Inv(t, s.fs) && LI.Base(s.fs) && D.AllLegal(s.fs)
  {
    SD.TracedAlways(n, sa);
    Sh.Reachable(t, S.S, la);
    D.PoliteRunIsLegal(t, S.S, la);
  }

  // ----- Progress -----

  /** A step of the dispatcher or of a worker, inside a call or outside. */
  predicate Moves(s: State, a: Action)
    requires Sound(s)
  {
    && Step(s, a).Some?
    && match a
       case Session(b) => b.Dispatch? || b.Work?
       case Inside(b) => b.Run?
       case _ => true
  }

  /** Worker `i` is in tfs_destroy_after_all_closed, asleep, and some file is open. */
  predicate AwaitsOpenFile(s: State, i: nat)
    requires Sound(s) && i < S.S
  {
    && SD.AwaitsClose(s.sess, i) && s.inCall[i] && s.fs.threads[i].pc == L.Asleep(false)
    && exists h :: 0 <= h < MAX_OPEN_FILES && s.fs.shared.tables.entryTaken[h]
  }

  lemma RestMeansOpen(t: T.Tables, fs: L.State, i: nat)
    requires t.Shaped() && Sh.Inv(t, fs) && Sh.AtRest(fs) && i < |fs.threads| && !fs.threads[i].pc.Idle?
    ensures fs.threads[i].pc == L.Asleep(false) && fs.threads[i].call.Destroy?
    ensures exists h :: 0 <= h < MAX_OPEN_FILES && fs.shared.tables.entryTaken[h]
  {
    assert fs.d.None?;
    Counting.CountZero(fs.shared.tables.entryTaken);
  }

  lemma EnterMoves(s: State, i: nat)
    requires Agree(s) && SI.Inv(s.sess) && D.OwnOk(s.fs) && AtCall(s.sess, i) && !s.sess.halted && !s.inCall[i]
    ensures Moves(s, Enter(i))
  {
    EnterIsPolite(s, i);
    D.PoliteMayBegin(s.fs, i, CallOf(s.sess.slots[i].pc.job).value);
  }

  lemma InsideMoves(t: T.Tables, s: State, i: nat)
    requires t.Shaped() && Agree(s) && Sh.Inv(t, s.fs) && AtCall(s.sess, i) && !s.sess.halted
    requires s.inCall[i] && !s.fs.threads[i].pc.Idle?
    ensures (exists a :: Moves(s, a)) || AwaitsOpenFile(s, i)
  {
    Sh.SomeoneRuns(t, s.fs);
    if Sh.AtRest(s.fs) {
      assert InStep(s.sess.slots[i], s.fs.threads[i], s.inCall[i]);
      RestMeansOpen(t, s.fs, i);
    } else {
      var u :| Sh.CanRun(s.fs, u);
      assert Moves(s, Inside(L.Run(u)));
    }
  }

  lemma LeaveMoves(s: State, i: nat)
    requires Agree(s) && AtCall(s.sess, i) && !s.sess.halted && s.inCall[i] && s.fs.threads[i].pc.Idle?
    ensures Moves(s, Leave(i))
  {
    assert InStep(s.sess.slots[i], s.fs.threads[i], s.inCall[i]);
  }

  /** A worker at a call begins it, or has its result, or some thread inside a call can step; or it waits for a
      close. */
  lemma CallMoves(t: T.Tables, s: State, i: nat)
    requires t.Shaped() && Agree(s) && SI.Inv(s.sess) && Sh.Inv(t, s.fs) && D.OwnOk(s.fs)
    requires AtCall(s.sess, i) && !s.sess.halted
    ensures (exists a :: Moves(s, a)) || AwaitsOpenFile(s, i)
  {
    if !s.inCall[i] {
      EnterMoves(s, i);
    } else if s.fs.threads[i].pc.Idle? {
      LeaveMoves(s, i);
    } else {
      InsideMoves(t, s, i);
    }
  }

  /** What the session machine can do, the whole server can do or is at a call for. */
  lemma ServesMoves(t: T.Tables, s: State, b: S.Action)
    requires t.Shaped() && Agree(s) && SI.Inv(s.sess) && Sh.Inv(t, s.fs) && D.OwnOk(s.fs)
    requires !s.sess.halted && SD.Serves(s.sess, b)
    ensures exists a :: Moves(s, a)
  {
    if b.Work? && AtCall(s.sess, b.i) {
      CallMoves(t, s, b.i);
    } else {
      assert Moves(s, Session(b));
    }
  }

  ghost predicate AwaitsOpenFileFor(s: State, c: nat)
    requires Sound(s)
  {
    exists i :: 0 <= i < S.S && s.sess.slots[i].tenant == Some(c) && AwaitsOpenFile(s, i)
  }

  lemma ShutdownMoves(t: T.Tables, s: State, c: nat, i: nat)
    requires t.Shaped() && Agree(s) && SI.Inv(s.sess) && Sh.Inv(t, s.fs) && D.OwnOk(s.fs) && !s.sess.halted
    requires i < S.S && s.sess.slots[i].tenant == Some(c) && s.sess.slots[i].pc == S.ToRun(S.Shutdown)
    ensures (exists a :: Moves(s, a)) || AwaitsOpenFileFor(s, c)
  {
    CallMoves(t, s, i);
  }

  lemma StateMovesOn(t: T.Tables, n: nat, s: State, sa: seq<S.Action>, la: seq<L.Action>, c: nat)
    requires t.Shaped() && Agree(s) && Runs(t, n, s, sa, la)
    requires !s.sess.halted && !s.sess.globalHeld && c < |s.calls| && SI.Underway(s.sess.clients[c].stage)
    ensures (exists a :: Moves(s, a)) || AwaitsOpenFileFor(s, c)
  {
    BothInvariants(t, n, s, sa, la);
    SD.MovesOn(s.sess, c);
    if SD.ShuttingDown(s.sess, c) {
      var i :| 0 <= i < S.S && s.sess.slots[i].tenant == Some(c) && SD.AwaitsClose(s.sess, i);
      ShutdownMoves(t, s, c, i);
    } else {
      var b :| SD.Serves(s.sess, b);
      ServesMoves(t, s, b);
    }
  }

  /** In every run with polite clients: unless the process has ended or global_mutex was left locked, while a request is
      under way something in the server can step; or the request is a shutdown, asleep, and some file is open. */
  lemma ServerMovesOn(t: T.Tables, n: nat, actions: seq<Action>, c: nat)
    requires t.Shaped() && Execute(Initial(t, n), actions).Some? && PoliteRun(Initial(t, n), actions) && c < n
    requires var s := Execute(Initial(t, n), actions).value;
             !s.sess.halted && !s.sess.globalHeld && SI.Underway(s.sess.clients[c].stage)
    ensures var s := Execute(Initial(t, n), actions).value;
            (exists a :: Moves(s, a)) || AwaitsOpenFileFor(s, c)
  {
    var sa, la := BothRun(t, n, actions);
    StateMovesOn(t, n, Execute(Initial(t, n), actions).value, sa, la, c);
  }

  /** The clients of the whole server may do what those of the session machine may, while the process lives. */
  lemma ClientsActAlike(s: State, b: S.Action)
    requires Sound(s) && (b.SendMount? || b.SendJob? || b.SendUnmount? || b.Receive?)
    ensures Step(s, Session(b)).Some? <==> S.Step(s.sess, b).Some?
    ensures Step(s, Session(b)).Some? ==> Step(s, Session(b)).value == s.(sess := S.Step(s.sess, b).value)
  {
  }
}
