/**
 What the clients of the whole server are answered, request by request: which call each request became, where that call
 stands in the serial order, and that its answer is the abstract file system's there. Requests, calls and numbers are
 written out; nothing is stated through the functions by which the server turns one into the other.
 */
module Answers {
  import opened Config
  import opened Serial
  import opened Joint
  import opened JointInvariant
  import opened JointTheorems
  import opened Outcomes
  import T = TableModel
  import S = Sessions
  import SI = SessionInvariant
  import SD = SessionDelivery
  import SE = SessionEnd
  import L = Locking
  import LI = LockingInvariant
  import Z = Serializability
  import LO = LockOrder
  import Sh = Shutdown
  import D = Discipline
  import R = Refinement
  import E = EndToEnd
  import A = AbstractFs

  // ----- The jobs of a client -----

  /** A mount, then requests, and perhaps an unmount. */
  predicate OneSession(jobs: seq<S.Job>) {
    && (forall j :: 0 <= j < |jobs| ==> (jobs[j].Mount? <==> j == 0))
    && (forall j :: 0 <= j < |jobs| ==> !jobs[j].Unknown? && (jobs[j].Unmount? ==> j == |jobs| - 1))
  }

  lemma StepKeepsSession(s: S.State, b: S.Action, c: nat)
    requires SI.Inv(s) && S.Step(s, b).Some? && c < |s.clients| && OneSession(s.clients[c].sent)
    ensures OneSession(S.Step(s, b).value.clients[c].sent)
  {
    assert SI.ClientOk(s, c);
    match b
    case Dispatch(fd) => SD.DispatchSendsNothing(s, fd, c);
    case Work(i, result) => SD.WorkSendsNothing(s, i, result, c);
    case SpuriousWakeUp(_) =>
    case _ => ClientKeepsSession(s, b, c);
  }

  lemma ClientKeepsSession(s: S.State, b: S.Action, c: nat)
    requires (b.SendMount? || b.SendJob? || b.SendUnmount? || b.Receive?) && S.ClientStep(s, b).Some?
    requires c < |s.clients| && SI.HistoryOk(s.clients[c]) && OneSession(s.clients[c].sent)
    ensures OneSession(S.ClientStep(s, b).value.clients[c].sent)
  {
    var sent := s.clients[c].sent;
    assert s.clients[c].pc.Ready? ==> sent != [] && !SI.Last(sent).Unmount?;
  }

  lemma {:induction false} AlwaysOneSession(n: nat, actions: seq<S.Action>, c: nat)
    requires S.Execute(S.Initial(n), actions).Some? && c < n
    ensures OneSession(S.Execute(S.Initial(n), actions).value.clients[c].sent)
    decreases |actions|
  {
    if actions != [] {
      var front := actions[..|actions| - 1];
      AlwaysOneSession(n, front, c);
      SI.Reachable(n, front);
      StepKeepsSession(S.Execute(S.Initial(n), front).value, actions[|actions| - 1], c);
    }
  }

  // ----- The calls they become -----

  predicate MadeFor(job: S.Job, call: L.Call) {
    match job
    case Open(name, flags) => call == L.Do(OpOpen(name, flags))
    case Close(h) => call == L.Do(OpClose(h))
    case Write(h, data) => call == L.Do(OpWrite(h, data))
    case Read(h, len) => call == L.Do(OpRead(h, len))
    case Shutdown => call == L.Destroy
    case _ => false
  }

  /** One call for each request executed after the mount, in order. */
  predicate CallsAreJobs(ran: seq<S.Job>, calls: Calls) {
    && |calls| == (if ran == [] then 0 else if ran[|ran| - 1].Unmount? then |ran| - 2 else |ran| - 1)
    && forall j :: 0 <= j < |calls| ==> MadeFor(ran[j + 1], calls[j].0)
  }

  lemma {:induction false} CallsFollowJobs(ran: seq<S.Job>, calls: Calls)
    requires OneSession(ran) && CallsIn(ran) == First(calls)
    ensures CallsAreJobs(ran, calls)
    decreases |ran|
  {
    if |ran| > 1 {
      var front, job := ran[..|ran| - 1], ran[|ran| - 1];
      if job.Unmount? {
        assert CallsIn(ran) == CallsIn(front) + [] == CallsIn(front);
        CallsFollowJobs(front, calls);
      } else {
        var last := |calls| - 1;
        assert CallsIn(ran) == CallsIn(front) + [CallOf(job).value];
        assert First(calls[..last]) == First(calls)[..last] == CallsIn(front);
        CallsFollowJobs(front, calls[..last]);
      }
    } else if |ran| == 1 {
      assert CallsIn(ran) == CallsIn([]) + [];
    }
  }

  // ----- What each is answered -----

  /** The `m`-th call of thread `u` in the log is the one made for `job`, and its outcome `o` is the one the abstract
      file system gives at its place. A shutdown has outcome 0. */
  ghost predicate AnsweredAt(log: seq<L.Event>, u: nat, m: nat, job: S.Job, o: Outcome) {
    m < |Z.CallsOf(log, u)| &&
    var p := LO.Position(log, u, m);
    match job
    case Open(name, flags) => log[p] == L.Did(u, OpOpen(name, flags), o) && FromAbstract(log, p)
    case Close(h) => log[p] == L.Did(u, OpClose(h), o) && FromAbstract(log, p)
    case Write(h, data) => log[p] == L.Did(u, OpWrite(h, data), o) && FromAbstract(log, p)
    case Read(h, len) => log[p] == L.Did(u, OpRead(h, len), o) && FromAbstract(log, p)
    case Shutdown => log[p] == L.Finished(u) && o == Returned(0, [])
    case _ => false
  }

  /** The client's jobs after the mount have become consecutive calls of one thread, each answered at its place in the
      log; and a reply to the last of them carries the code of that answer. */
  ghost predicate AnsweredFromLog(s: State, c: nat)
    requires Sound(s) && c < |s.calls|
  {
    var k, calls := s.sess.clients[c], s.calls[c];
    && k.ran <= k.sent && CallsAreJobs(k.ran, calls)
    && (calls != [] ==> s.homes[c].Some?)
    && (forall j :: 0 <= j < |calls| ==>
          var Home(i, from) := s.homes[c].value;
          AnsweredAt(s.fs.log, i, from + j, k.ran[j + 1], calls[j].1))
    && (k.replies != [] && |k.sent| > 1 ==>
          && k.ran == k.sent && |calls| == |k.sent| - 1
          && var o := calls[|calls| - 1].1; o.Returned? && k.replies[0].result == o.code)
  }

  lemma MadeIsAnswered(t: T.Tables, log: seq<L.Event>, u: nat, m: nat, job: S.Job, call: L.Call, o: Outcome)
    requires t.Shaped() && AbstractLog(t, log) && m < |Z.CallsOf(log, u)| && Z.CallsOf(log, u)[m] == (call, o)
    requires MadeFor(job, call)
    ensures AnsweredAt(log, u, m, job, o) && o.Returned?
  {
    var p := LO.Position(log, u, m);
    assert Z.Completes(log[p])[0] == (call, o);
    if job.Shutdown? {
      Sh.DestroyInLogIsZero(log, u, m);
    } else {
      OutcomeAt(t, log, p);
      AbstractReturns(log, p);
    }
  }

  lemma CallInLog(fs: L.State, home: Home, calls: Calls, j: nat)
    requires HomeOk(fs, Some(home), calls) && Z.HistoriesAgree(fs) && j < |calls|
    ensures home.from + j < |Z.CallsOf(fs.log, home.worker)|
    ensures Z.CallsOf(fs.log, home.worker)[home.from + j] == calls[j]
  {
    var log, done := Z.CallsOf(fs.log, home.worker), fs.threads[home.worker].done;
    assert log == Z.History(fs.threads[home.worker]) && done <= log;
    assert done[home.from..home.from + |calls|][j] == done[home.from + j];
  }

  lemma JobAnswered(t: T.Tables, fs: L.State, home: Home, calls: Calls, ran: seq<S.Job>, j: nat)
    requires t.Shaped() && HomeOk(fs, Some(home), calls) && Z.HistoriesAgree(fs) && AbstractLog(t, fs.log)
    requires CallsAreJobs(ran, calls) && j < |calls|
    ensures AnsweredAt(fs.log, home.worker, home.from + j, ran[j + 1], calls[j].1) && calls[j].1.Returned?
  {
    CallInLog(fs, home, calls, j);
    MadeIsAnswered(t, fs.log, home.worker, home.from + j, ran[j + 1], calls[j].0, calls[j].1);
  }

  /** A client that has a reply and has sent more than its mount: all its jobs are executed. */
  lemma ReplyFollowsCall(s: State, c: nat)
    requires Agree(s) && SI.Inv(s.sess) && c < |s.calls| && OneSession(s.sess.clients[c].sent)
    requires CallsAreJobs(s.sess.clients[c].ran, s.calls[c])
    requires s.sess.clients[c].replies != [] && |s.sess.clients[c].sent| > 1
    ensures var k, calls := s.sess.clients[c], s.calls[c];
            && k.ran == k.sent && |calls| == |k.sent| - 1
            && (calls[|calls| - 1].1.Returned? ==> k.replies[0].result == calls[|calls| - 1].1.code)
  {
    assert SI.ClientOk(s.sess, c) && ClientAgrees(s.sess.clients[c], s.calls[c]);
  }

  lemma ClientAnswered(t: T.Tables, s: State, c: nat)
    requires t.Shaped() && Agree(s) && SI.Inv(s.sess) && c < |s.calls| && OneSession(s.sess.clients[c].sent)
    requires Z.HistoriesAgree(s.fs) && AbstractLog(t, s.fs.log)
    ensures AnsweredFromLog(s, c)
  {
    var k, calls := s.sess.clients[c], s.calls[c];
    assert SI.ClientOk(s.sess, c) && ClientAgrees(k, calls);
    assert HomeOk(s.fs, s.homes[c], calls);
    CallsFollowJobs(k.ran, calls);
    forall j | 0 <= j < |calls|
      ensures s.homes[c].Some? && calls[j].1.Returned?
      ensures var Home(i, from) := s.homes[c].value; AnsweredAt(s.fs.log, i, from + j, k.ran[j + 1], calls[j].1)
    {
      JobAnswered(t, s.fs, s.homes[c].value, calls, k.ran, j);
    }
    if k.replies != [] && |k.sent| > 1 { ReplyFollowsCall(s, c); }
  }

  lemma LogIsAbstract(t: T.Tables, n: nat, s: State, sa: seq<S.Action>, la: seq<L.Action>)
    requires t.Shaped() && Runs(t, n, s, sa, la)
    ensures Z.HistoriesAgree(s.fs) && AbstractLog(t, s.fs.log)
    ensures R.Matches(s.fs.shared.tables, R.RunFs(A.EMPTY, E.Ran(s.fs.log)).0)
  {
    Sh.Reachable(t, S.S, la);
    D.PoliteThreadsRefine(t, S.S, la);
  }

  /**
   Any number of clients, any interleaving of dispatcher, workers and the steps of their calls: if each client uses only
   handles it opened itself and has not closed, and none truncates, every request executed has become the call it asks
   for, answered as the abstract file system answers it at its place in the one serial order of all calls; every reply
   carries that answer; and the tables end in what the abstract file system ends in.
   */
  lemma ClientsSeeAbstractFs(t: T.Tables, n: nat, actions: seq<Action>)
    requires t.Shaped() && Execute(Initial(t, n), actions).Some? && PoliteRun(Initial(t, n), actions)
    ensures var s := Execute(Initial(t, n), actions).value;
            && |s.calls| == n && (forall c :: 0 <= c < |s.calls| ==> AnsweredFromLog(s, c))
            && AbstractLog(t, s.fs.log) && R.Matches(s.fs.shared.tables, R.RunFs(A.EMPTY, E.Ran(s.fs.log)).0)
  {
    var sa, la := BothRun(t, n, actions);
    StateIsAnswered(t, n, Execute(Initial(t, n), actions).value, sa, la);
  }

  lemma StateIsAnswered(t: T.Tables, n: nat, s: State, sa: seq<S.Action>, la: seq<L.Action>)
    requires t.Shaped() && Agree(s) && Runs(t, n, s, sa, la) && |s.calls| == n
    ensures forall c :: 0 <= c < |s.calls| ==> AnsweredFromLog(s, c)
    ensures AbstractLog(t, s.fs.log) && R.Matches(s.fs.shared.tables, R.RunFs(A.EMPTY, E.Ran(s.fs.log)).0)
  {
    SI.Reachable(n, sa);
    LogIsAbstract(t, n, s, sa, la);
    forall c | 0 <= c < |s.calls| ensures AnsweredFromLog(s, c) {
      AlwaysOneSession(n, sa, c);
      ClientAnswered(t, s, c);
    }
  }

  /** The client has opened handle `h` and not closed it since. */
  ghost predicate Owns(calls: Calls, h: int) {
    exists j :: 0 <= j < |calls| && calls[j].0.Do? && calls[j].0.op.OpOpen? && h != -1
                && calls[j].1.Returned? && calls[j].1.code == h
                && forall k :: j < k < |calls| ==> calls[k].0 != L.Do(OpClose(h))
  }

  /** What is asked of a request: no empty path to create, no truncation, only handles of the client's own, or in reads
      and writes ones outside the table; sizes that C can add up. A shutdown may always be asked for. */
  lemma RequestMayBe(calls: Calls, job: S.Job)
    ensures Allowed(calls, job) <==>
      match job
      case Open(name, flags) => (name != [] || flags % 2 == 0) && flags % 4 < 2
      case Close(h) => Owns(calls, h)
      case Write(h, data) => (0 <= h < 20 ==> Owns(calls, h)) && |data| + 1024 < 0x1_0000_0000_0000_0000
      case Read(h, len) => (0 <= h < 20 ==> Owns(calls, h)) && len < 0x1_0000_0000_0000_0000
      case _ => true
  {
    if job.Close? || job.Write? || job.Read? { OwnedExactly(calls, job.h); }
  }

  lemma OwnedExactly(calls: Calls, h: int)
    ensures Owns(calls, h) <==> h in D.Opened(calls)
  {
    D.OpenedExactly(calls, h);
    if Owns(calls, h) {
      var j :| 0 <= j < |calls| && calls[j].0.Do? && calls[j].0.op.OpOpen? && h != -1
               && calls[j].1.Returned? && calls[j].1.code == h
               && forall k :: j < k < |calls| ==> calls[k].0 != L.Do(OpClose(h));
      assert D.OpensForGood(calls, j, h);
    }
  }

  // ----- The order between clients -----

  /** What a step leaves of a client whose mount has been executed. */
  predicate GoesOn(s: State, r: State, c: nat)
    requires Sound(s) && Sound(r)
  {
    && c < |s.calls| == |r.calls|
    && (s.sess.clients[c].ran != [] ==> r.sess.clients[c].ran != [] && r.homes[c] == s.homes[c])
    && s.calls[c] <= r.calls[c]
  }

  lemma MountGoesOn(s: State, b: S.Action, c: nat)
    requires Agree(s) && SI.Inv(s.sess) && Step(s, Session(b)).Some? && c < |s.calls|
    requires s.sess.clients[c].ran != []
    ensures Housed(s, b)[c] == s.homes[c]
  {
    if b.Work? && b.i < S.S && s.sess.slots[b.i].pc == S.ToRun(S.Mount) {
      var d := SI.BusyHasTenant(s.sess, b.i);
      SI.TenantElsewhere(s.sess, b.i, d);
    }
  }

  lemma StepGoesOn(s: State, a: Action, c: nat)
    requires Agree(s) && SI.Inv(s.sess) && Step(s, a).Some? && c < |s.calls|
    ensures GoesOn(s, Step(s, a).value, c)
  {
    match a
    case Session(b) =>
      SD.RanOnlyGrows(s.sess, b, c);
      if s.sess.clients[c].ran != [] { MountGoesOn(s, b, c); }
    case Leave(i) =>
      var o := s.fs.threads[i].done[|s.fs.threads[i].done| - 1].1;
      SD.RanOnlyGrows(s.sess, S.Work(i, CodeOf(o)), c);
    case _ =>
  }

  lemma StepGrowsLog(s: State, a: Action)
    requires Agree(s) && LI.Base(s.fs) && Step(s, a).Some?
    ensures s.fs.log <= Step(s, a).value.fs.log
  {
    match a
    case Enter(i) => Z.StepSimulates(s.fs, L.Begin(i, CallOf(s.sess.slots[i].pc.job).value));
    case Inside(b) => Z.StepSimulates(s.fs, b);
    case _ =>
  }

  lemma PoliteFront(s: State, actions: seq<Action>)
    requires Sound(s) && actions != [] && Execute(s, actions).Some? && PoliteRun(s, actions)
    ensures var front := actions[..|actions| - 1];
            && Execute(s, front).Some? && PoliteRun(s, front)
            && Step(Execute(s, front).value, actions[|actions| - 1]) == Execute(s, actions)
  {
  }

  /** From any moment of a run to its end. */
  lemma {:induction false} RunGoesOn(t: T.Tables, n: nat, before: seq<Action>, rest: seq<Action>, c: nat)
    requires t.Shaped() && Execute(Initial(t, n), before + rest).Some? && PoliteRun(Initial(t, n), before + rest)
    requires c < n
    ensures Execute(Initial(t, n), before).Some? && PoliteRun(Initial(t, n), before)
    ensures var s, r := Execute(Initial(t, n), before).value, Execute(Initial(t, n), before + rest).value;
            GoesOn(s, r, c) && s.fs.log <= r.fs.log
    decreases |rest|
  {
    if rest == [] {
      assert before + rest == before;
    } else {
      var all, front, a := before + rest, rest[..|rest| - 1], rest[|rest| - 1];
      assert all[..|all| - 1] == before + front && all[|all| - 1] == a;
      PoliteFront(Initial(t, n), all);
      RunGoesOn(t, n, before, front, c);
      var sa, la := BothRun(t, n, before + front);
      var m := Execute(Initial(t, n), before + front).value;
      BothInvariants(t, n, m, sa, la);
      StepGoesOn(m, a, c);
      StepGrowsLog(m, a);
    }
  }

  /** A client that has nothing under way, with its mount executed: its worker is outside any call. */
  lemma RestingWorker(s: State, d: nat, i: nat)
    requires Agree(s) && SI.Inv(s.sess) && d < |s.calls| && i < S.S && s.sess.slots[i].tenant == Some(d)
    requires s.sess.clients[d].pc.Ready?
    ensures !s.inCall[i] && s.fs.threads[i].pc.Idle?
    ensures s.homes[d].Some? && s.homes[d].value.worker == i
    ensures s.homes[d].value.from + |s.calls[d]| == |s.fs.threads[i].done|
  {
    assert SI.ClientOk(s.sess, d) && SI.SlotOk(s.sess, i);
    assert InStep(s.sess.slots[i], s.fs.threads[i], s.inCall[i]) && TenantHome(s, i);
  }

  /** The place in the serial order of the `j`-th request of client `c` after its mount. */
  function PlaceOf(s: State, c: nat, j: nat): nat
    requires Sound(s) && c < |s.calls| && s.homes[c].Some?
    requires s.homes[c].value.from + j < |Z.CallsOf(s.fs.log, s.homes[c].value.worker)|
  {
    LO.Position(s.fs.log, s.homes[c].value.worker, s.homes[c].value.from + j)
  }

  ghost predicate HasPlace(s: State, c: nat, j: nat)
    requires Sound(s)
  {
    && c < |s.calls| && s.homes[c].Some?
    && s.homes[c].value.from + j < |Z.CallsOf(s.fs.log, s.homes[c].value.worker)|
  }

  /** The thread of the client's worker has finished the call for its `j`-th request. */
  predicate DoneBy(s: State, c: nat, j: nat)
    requires Sound(s)
  {
    && c < |s.calls| && s.homes[c].Some? && s.homes[c].value.worker < |s.fs.threads|
    && s.homes[c].value.from + j < |s.fs.threads[s.homes[c].value.worker].done|
  }

  lemma CallIsDone(s: State, c: nat, j: nat)
    requires Agree(s) && c < |s.calls| && j < |s.calls[c]|
    ensures DoneBy(s, c, j) && s.sess.clients[c].ran != []
  {
    assert HomeOk(s.fs, s.homes[c], s.calls[c]) && ClientAgrees(s.sess.clients[c], s.calls[c]);
    assert |First(s.calls[c])| == |s.calls[c]|;
  }

  /** The calls of a ready client are all that its thread has begun since. */
  lemma ReadyHasReturned(s: State, d: nat)
    requires Agree(s) && SI.Inv(s.sess) && d < |s.calls| && s.sess.clients[d].pc.Ready?
    ensures s.homes[d].Some? && s.sess.clients[d].ran != []
    ensures var Home(i, from) := s.homes[d].value;
            i < |s.fs.threads| && LO.Begun(s.fs.threads[i]) == from + |s.calls[d]|
  {
    var i := s.sess.clients[d].pc.sid;
    assert SI.ClientOk(s.sess, d);
    assert SI.Claims(s.sess.clients[d], i);
    RestingWorker(s, d, i);
  }

  lemma PlaceAfter(s: L.State, r: L.State, one: Home, j: nat, other: Home, k: nat)
    requires Z.HistoriesAgree(s) && Z.HistoriesAgree(r) && s.log <= r.log && |s.threads| == |r.threads|
    requires one.worker < |s.threads| && one.from + j < |s.threads[one.worker].done|
    requires other.worker < |s.threads| && LO.Begun(s.threads[other.worker]) <= other.from + k
    requires other.from + k < |r.threads[other.worker].done|
    ensures one.from + j < |Z.CallsOf(r.log, one.worker)| && other.from + k < |Z.CallsOf(r.log, other.worker)|
    ensures LO.Position(r.log, one.worker, one.from + j) < LO.Position(r.log, other.worker, other.from + k)
  {
    LO.OrderInLogs(s, r, one.worker, one.from + j, other.worker, other.from + k);
  }

  lemma PlacesInOrder(s: State, r: State, c: nat, j: nat, d: nat, k: nat)
    requires Sound(s) && Sound(r) && Z.HistoriesAgree(s.fs) && Z.HistoriesAgree(r.fs) && s.fs.log <= r.fs.log
    requires DoneBy(s, c, j) && DoneBy(r, d, k) && d < |s.homes| && c < |r.homes|
    requires r.homes[c] == s.homes[c] && r.homes[d] == s.homes[d]
    requires var Home(i, from) := s.homes[d].value; LO.Begun(s.fs.threads[i]) <= from + k
    ensures HasPlace(r, c, j) && HasPlace(r, d, k) && PlaceOf(r, c, j) < PlaceOf(r, d, k)
  {
    PlaceAfter(s.fs, r.fs, s.homes[c].value, j, s.homes[d].value, k);
  }

  lemma MomentsInOrder(s: State, r: State, c: nat, j: nat, d: nat, k: nat)
    requires Agree(s) && Agree(r) && SI.Inv(s.sess) && Z.HistoriesAgree(s.fs) && Z.HistoriesAgree(r.fs)
    requires GoesOn(s, r, c) && GoesOn(s, r, d) && s.fs.log <= r.fs.log
    requires j < |s.calls[c]| && s.sess.clients[d].pc.Ready? && |s.calls[d]| <= k < |r.calls[d]|
    ensures HasPlace(r, c, j) && HasPlace(r, d, k) && PlaceOf(r, c, j) < PlaceOf(r, d, k)
  {
    ReadyHasReturned(s, d);
    CallIsDone(s, c, j);
    CallIsDone(r, d, k);
    PlacesInOrder(s, r, c, j, d, k);
  }

  /**
   The serial order respects what clients see: a request of `c` executed by the end of `before`, in particular one
   whose reply has come, stands ahead of every request that `d`, ready then, sends in `rest`. So it does for one client.
   */
  lemma RepliesBeforeRequests(
      t: T.Tables, n: nat, before: seq<Action>, rest: seq<Action>, c: nat, j: nat, d: nat, k: nat)
    requires t.Shaped() && Execute(Initial(t, n), before + rest).Some? && PoliteRun(Initial(t, n), before + rest)
    requires c < n && d < n && Execute(Initial(t, n), before).Some?
    requires var s := Execute(Initial(t, n), before).value;
             j < |s.calls[c]| && s.sess.clients[d].pc.Ready? && |s.calls[d]| <= k
    requires k < |Execute(Initial(t, n), before + rest).value.calls[d]|
    ensures var r := Execute(Initial(t, n), before + rest).value;
            HasPlace(r, c, j) && HasPlace(r, d, k) && PlaceOf(r, c, j) < PlaceOf(r, d, k)
  {
    RunGoesOn(t, n, before, rest, c);
    RunGoesOn(t, n, before, rest, d);
    AgreesAt(t, n, before);
    AgreesAt(t, n, before + rest);
    MomentsInOrder(Execute(Initial(t, n), before).value, Execute(Initial(t, n), before + rest).value, c, j, d, k);
  }

  lemma AgreesAt(t: T.Tables, n: nat, actions: seq<Action>)
    requires t.Shaped() && Execute(Initial(t, n), actions).Some? && PoliteRun(Initial(t, n), actions)
    ensures var s := Execute(Initial(t, n), actions).value;
            Agree(s) && SI.Inv(s.sess) && Z.HistoriesAgree(s.fs)
  {
    var sa, la := BothRun(t, n, actions);
    BothInvariants(t, n, Execute(Initial(t, n), actions).value, sa, la);
  }

  // ----- The end of the process -----

  /** The last job executed for `c` is a shutdown, answered 0, or a write through a handle outside the table. */
  ghost predicate EndedFairly(s: State, c: nat)
    requires Sound(s) && c < |s.calls|
  {
    var k := s.sess.clients[c];
    k.ran != [] &&
    match k.ran[|k.ran| - 1]
    case Shutdown => k.replies == [S.Reply(S.Shutdown, 0)]
    case Write(h, _) => !(0 <= h < 20)
    case _ => false
  }

  /** A write that is legal where it takes effect has a result of at least 0, unless its handle is out of range. */
  lemma WriteSucceeds(log: seq<L.Event>, p: nat, h: int, data: seq<byte>)
    requires FromAbstract(log, p) && log[p].op == OpWrite(h, data)
    ensures log[p].outcome.Returned? && (0 <= h < 20 ==> log[p].outcome.code >= 0)
  {
  }

  lemma LastAnswered(s: State, c: nat, h: int, data: seq<byte>)
    requires Sound(s) && c < |s.calls| && AnsweredFromLog(s, c) && s.calls[c] != []
    requires s.sess.clients[c].ran[|s.calls[c]|] == S.Write(h, data)
    ensures var o := s.calls[c][|s.calls[c]| - 1].1; o.Returned? && (0 <= h < 20 ==> o.code >= 0)
  {
    var j := |s.calls[c]| - 1;
    var home := s.homes[c].value;
    assert AnsweredAt(s.fs.log, home.worker, home.from + j, s.sess.clients[c].ran[j + 1], s.calls[c][j].1);
    WriteSucceeds(s.fs.log, LO.Position(s.fs.log, home.worker, home.from + j), h, data);
  }

  lemma WriteEnds(s: State, c: nat, i: nat, h: int, data: seq<byte>, result: int)
    requires Agree(s) && SI.Inv(s.sess) && c < |s.calls| && AnsweredFromLog(s, c)
    requires i < S.S && s.sess.slots[i].tenant == Some(c) && result < 0
    requires s.sess.slots[i].pc == S.ToReply(S.Write(h, data), result)
    ensures !(0 <= h < 20)
  {
    SI.TenantElsewhere(s.sess, i, c);
    assert ReplyOk(s, i);
    LastAnswered(s, c, h, data);
  }

  lemma LastShutdown(s: State, c: nat)
    requires Sound(s) && c < |s.calls| && AnsweredFromLog(s, c) && s.calls[c] != []
    requires s.sess.clients[c].ran[|s.calls[c]|] == S.Shutdown
    ensures s.calls[c][|s.calls[c]| - 1].1 == Returned(0, [])
  {
    var j := |s.calls[c]| - 1;
    var home := s.homes[c].value;
    assert AnsweredAt(s.fs.log, home.worker, home.from + j, s.sess.clients[c].ran[j + 1], s.calls[c][j].1);
  }

  lemma ShutdownEnds(s: State, c: nat)
    requires Agree(s) && SI.ClientsOk(s.sess) && c < |s.calls| && AnsweredFromLog(s, c)
    requires s.sess.clients[c].ran != [] && SI.Last(s.sess.clients[c].ran).Shutdown?
    requires |s.sess.clients[c].replies| == 1 && s.sess.clients[c].replies[0].job == S.Shutdown
    ensures s.sess.clients[c].replies == [S.Reply(S.Shutdown, 0)]
  {
    var k := s.sess.clients[c];
    assert SI.ClientOk(s.sess, c) && |k.sent| > 1;
    LastShutdown(s, c);
    assert k.replies[0] == S.Reply(S.Shutdown, 0);
  }

  /** With clients that use their own handles the process ends only after a shutdown answered 0, or a write through a
      handle that is no handle at all: never for a write through a handle that an open has returned. */
  lemma EndsOnlyFairly(t: T.Tables, n: nat, actions: seq<Action>)
    requires t.Shaped() && Execute(Initial(t, n), actions).Some? && PoliteRun(Initial(t, n), actions)
    requires Execute(Initial(t, n), actions).value.sess.halted
    ensures var s := Execute(Initial(t, n), actions).value; exists c :: 0 <= c < |s.calls| && EndedFairly(s, c)
  {
    var s := Execute(Initial(t, n), actions).value;
    ClientsSeeAbstractFs(t, n, actions);
    var sa, la := BothRun(t, n, actions);
    BothInvariants(t, n, s, sa, la);
    SE.EndsExactly(n, sa);
    var c :| 0 <= c < |s.sess.clients| && SE.EndedBy(s.sess, c);
    EndIsFair(s, c);
  }

  lemma EndIsFair(s: State, c: nat)
    requires Agree(s) && SI.Inv(s.sess) && c < |s.calls| && AnsweredFromLog(s, c) && SE.EndedBy(s.sess, c)
    ensures EndedFairly(s, c)
  {
    var job := SI.Last(s.sess.clients[c].ran);
    if job.Write? {
      var i, result :| 0 <= i < |s.sess.slots| && s.sess.slots[i].tenant == Some(c) && result < 0
                       && s.sess.slots[i].pc == S.ToReply(S.Write(job.h, job.data), result);
      WriteEnds(s, c, i, job.h, job.data, result);
    } else {
      ShutdownEnds(s, c);
    }
  }
}
