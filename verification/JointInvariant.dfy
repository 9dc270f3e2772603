/** What ties the two machines of the whole server together, step by step. */
module JointInvariant {
  import opened Config
  import opened Serial
  import opened Joint
  import T = TableModel
  import S = Sessions
  import SI = SessionInvariant
  import SD = SessionDelivery
  import L = Locking
  import LI = LockingInvariant
  import D = Discipline

  // ----- Clients -----

  /** The calls among jobs. */
  function CallsIn(jobs: seq<S.Job>): seq<L.Call>
    decreases |jobs|
  {
    if jobs == [] then []
    else
      var call := CallOf(jobs[|jobs| - 1]);
      CallsIn(jobs[..|jobs| - 1]) + if call.Some? then [call.value] else []
  }

  function First(calls: Calls): (r: seq<L.Call>)
    ensures |r| == |calls| && forall k :: 0 <= k < |r| ==> r[k] == calls[k].0
  {
    seq(|calls|, k requires 0 <= k < |calls| => calls[k].0)
  }

  /** The last of `calls` is the one made for `job`, and returned `result`. */
  predicate Fits(calls: Calls, job: S.Job, result: int) {
    && calls != [] && Some(calls[|calls| - 1].0) == CallOf(job) && CodeOf(calls[|calls| - 1].1) == result
  }

  predicate IsCall(job: S.Job) { CallOf(job).Some? }

  /** The call is on handles that these calls have opened and not closed, and does not truncate. */
  predicate Allowed(calls: Calls, job: S.Job) {
    match CallOf(job)
    case None => true
    case Some(call) => call.Do? ==> D.Mild(call.op) && D.MayUse(D.Opened(calls), call.op)
  }

  predicate Unexecuted(k: S.Client) { |k.ran| < |k.sent| }

  /** What has been executed for the client, what it has been told, and what it asks for, agree with its calls. */
  predicate ClientAgrees(k: S.Client, calls: Calls) {
    && CallsIn(k.ran) == First(calls)
    && (Unexecuted(k) ==> Allowed(calls, SI.Last(k.sent)))
    && (k.stage.Answered? && k.replies != [] && k.sent != [] && IsCall(SI.Last(k.sent)) ==>
          Fits(calls, SI.Last(k.sent), k.replies[0].result))
  }

  /** The client's calls are consecutive calls of the thread of its home. */
  predicate HomeOk(fs: L.State, home: Option<Home>, calls: Calls) {
    match home
    case None => calls == []
    case Some(h) =>
      && h.worker < |fs.threads| && h.from + |calls| <= |fs.threads[h.worker].done|
      && fs.threads[h.worker].done[h.from..h.from + |calls|] == calls
  }

  // ----- Workers -----

  /** Inside a call the thread is at it or has just finished it; outside it is idle. */
  predicate InStep(w: S.Slot, th: L.Thread, inCall: bool) {
    if inCall then
      && w.pc.ToRun? && IsCall(w.pc.job)
      && if th.pc.Idle? then th.done != [] && Some(th.done[|th.done| - 1].0) == CallOf(w.pc.job)
         else Some(th.call) == CallOf(w.pc.job)
    else th.pc.Idle?
  }

  /** A finished call whose result the worker has not taken yet. */
  function Untaken(th: L.Thread, inCall: bool): nat { if inCall && th.pc.Idle? then 1 else 0 }

  /** The slot's tenant, once mounted, is at home here, and the thread's last calls are all its. */
  predicate TenantHome(s: State, i: nat)
    requires Sound(s) && i < S.S
  {
    var c := s.sess.slots[i].tenant;
    c.Some? && c.value < |s.calls| && s.sess.clients[c.value].ran != [] ==>
      && s.homes[c.value].Some? && s.homes[c.value].value.worker == i
      && s.homes[c.value].value.from + |s.calls[c.value]| + Untaken(s.fs.threads[i], s.inCall[i])
         == |s.fs.threads[i].done|
  }

  predicate ReplyOk(s: State, i: nat)
    requires Sound(s) && i < S.S
  {
    var w := s.sess.slots[i];
    w.pc.ToReply? && IsCall(w.pc.answered) && w.tenant.Some? && w.tenant.value < |s.calls| ==>
      Fits(s.calls[w.tenant.value], w.pc.answered, w.pc.result)
  }

  ghost predicate Agree(s: State) {
    && Sound(s)
    && (forall c :: 0 <= c < |s.calls| ==> ClientAgrees(s.sess.clients[c], s.calls[c]))
    && (forall c :: 0 <= c < |s.calls| ==> HomeOk(s.fs, s.homes[c], s.calls[c]))
    && (forall i :: 0 <= i < S.S ==>
          InStep(s.sess.slots[i], s.fs.threads[i], s.inCall[i]) && TenantHome(s, i) && ReplyOk(s, i))
  }

  /** A client asks only for what it may. */
  predicate PoliteStep(s: State, a: Action)
    requires Sound(s)
  {
    a.Session? && a.step.SendJob? && a.step.c < |s.calls| ==> Allowed(s.calls[a.step.c], a.step.job)
  }

  // ----- A step of the session machine that is no call -----

  /** What such a step may do to a client. */
  predicate ClientMoves(s: S.State, b: S.Action, c: nat, k: S.Client, q: S.Client) {
    && CallsIn(q.ran) == CallsIn(k.ran)
    && (Unexecuted(q) ==> (Unexecuted(k) && q.sent == k.sent) || Sends(b, c, q))
    && (q.stage.Answered? ==>
          (k.stage.Answered? && q.sent == k.sent && q.replies == k.replies) || Answers(s, b, c, k, q))
  }

  /** The client sends its last job. */
  predicate Sends(b: S.Action, c: nat, q: S.Client) {
    q.sent != [] &&
    match b
    case SendJob(d, job) => d == c && SI.Last(q.sent) == job
    case SendMount(d) => d == c && SI.Last(q.sent) == S.Mount
    case SendUnmount(d) => d == c && SI.Last(q.sent) == S.Unmount
    case _ => false
  }

  /** The client is answered: a mount is refused, or its worker replies. */
  predicate Answers(s: S.State, b: S.Action, c: nat, k: S.Client, q: S.Client) {
    && q.sent == k.sent && q.sent != []
    && (SI.Last(q.sent).Mount?
        || (b.Work? && b.i < |s.slots| && s.slots[b.i].tenant == Some(c) && Told(s.slots[b.i].pc, q)))
  }

  /** The client has the worker's reply to its last job. */
  predicate Told(pc: S.WorkerPc, q: S.Client)
    requires q.sent != []
  {
    pc.ToReply? && pc.answered == SI.Last(q.sent) && |q.replies| == 1 && q.replies[0].result == pc.result
  }

  lemma CallsInPush(jobs: seq<S.Job>, job: S.Job)
    ensures CallsIn(jobs + [job]) == CallsIn(jobs) + if IsCall(job) then [CallOf(job).value] else []
  {
    assert (jobs + [job])[..|jobs|] == jobs;
  }

  lemma ClientActionMoves(s: S.State, b: S.Action, c: nat)
    requires SI.Inv(s) && (b.SendMount? || b.SendJob? || b.SendUnmount? || b.Receive?) && S.ClientStep(s, b).Some?
    requires c < |s.clients|
    ensures ClientMoves(s, b, c, s.clients[c], S.ClientStep(s, b).value.clients[c])
  {
    if c != b.c {
      assert S.ClientStep(s, b).value.clients[c] == s.clients[c];
    } else {
      assert SI.ClientOk(s, c);
      assert S.ClientStep(s, b).value.clients[c].ran == s.clients[c].ran;
    }
  }

  /** Only the client's stage changes, and not to Answered. */
  predicate Quiet(k: S.Client, q: S.Client) {
    q.ran == k.ran && q.sent == k.sent && q.replies == k.replies && (q.stage.Answered? ==> k.stage.Answered?)
  }

  lemma QuietMoves(s: S.State, b: S.Action, c: nat, k: S.Client, q: S.Client)
    requires Quiet(k, q)
    ensures ClientMoves(s, b, c, k, q)
  {
  }

  lemma StageIsQuiet(s: S.State, d: Option<nat>, stage: S.Stage, c: nat)
    requires c < |s.clients| && !stage.Answered?
    ensures |S.SetStage(s, d, stage).clients| == |s.clients|
    ensures Quiet(s.clients[c], S.SetStage(s, d, stage).clients[c])
  {
  }

  lemma HeadMoves(s: S.State, fd: int, c: nat)
    requires S.Sound(s) && s.dpc.Head? && S.TakeMessage(s, fd).Some? && c < |s.clients|
    ensures Quiet(s.clients[c], S.TakeMessage(s, fd).value.clients[c])
  {
    var s1 := s.(pipe := s.pipe[1..]);
    match s.pipe[0]
    case MountMsg(d) => StageIsQuiet(s1, Some(d), S.OnDesk, c);
    case UnmountMsg(sid) => StageIsQuiet(s1, S.Tenant(s, sid), S.OnDesk, c);
    case JobMsg(sid, _) => StageIsQuiet(s1, S.Tenant(s, sid), S.OnDesk, c);
  }

  /** A mount is refused, or goes on. */
  lemma MountMoves(s: S.State, fd: int, c: nat)
    requires SI.Inv(s) && (s.dpc.MountTest? || s.dpc.MountFind?) && S.DispatchStep(s, fd).Some? && c < |s.clients|
    ensures ClientMoves(s, S.Dispatch(fd), c, s.clients[c], S.DispatchStep(s, fd).value.clients[c])
  {
    var d := s.dpc.client;
    assert SI.ClientOk(s, d) && SI.Visiting(s, d, s.dpc.fd);
    if c != d { assert S.DispatchStep(s, fd).value.clients[c] == s.clients[c]; }
  }

  lemma PostMoves(s: S.State, fd: int, c: nat)
    requires S.Sound(s) && !s.dpc.Head? && !s.dpc.MountTest? && !s.dpc.MountFind? && S.DispatchStep(s, fd).Some?
    requires c < |s.clients|
    ensures Quiet(s.clients[c], S.DispatchStep(s, fd).value.clients[c])
  {
    if s.dpc.PostWake? {
      StageIsQuiet(s, s.slots[s.dpc.i].tenant, S.Boxed, c);
    } else {
      assert S.DispatchStep(s, fd).value.clients == s.clients;
    }
  }

  lemma ReplyMoves(s: S.State, i: nat, result: int, c: nat)
    requires SI.Inv(s) && S.WorkStep(s, i, result).Some? && s.slots[i].pc.ToReply? && c < |s.clients|
    ensures ClientMoves(s, S.Work(i, result), c, s.clients[c], S.WorkStep(s, i, result).value.clients[c])
  {
    var d := SI.BusyHasTenant(s, i);
    SI.ReplyChanges(s, i, result, d);
  }

  lemma RecordMoves(s: S.State, fd: int, job: S.Job, c: nat)
    requires c < |s.clients| && !IsCall(job)
    ensures var r := S.Record(s, fd, job);
            && |r.clients| == |s.clients| && r.clients[c].stage == s.clients[c].stage
            && r.clients[c].sent == s.clients[c].sent && r.clients[c].replies == s.clients[c].replies
            && CallsIn(r.clients[c].ran) == CallsIn(s.clients[c].ran) && |r.clients[c].ran| >= |s.clients[c].ran|
  {
    if fd in s.fds && s.fds[fd] == c { CallsInPush(s.clients[c].ran, job); }
  }

  lemma RunMoves(s: S.State, i: nat, result: int, c: nat)
    requires SI.Inv(s) && S.WorkStep(s, i, result).Some? && s.slots[i].pc.ToRun? && !AtCall(s, i) && c < |s.clients|
    ensures ClientMoves(s, S.Work(i, result), c, s.clients[c], S.WorkStep(s, i, result).value.clients[c])
  {
    var job := s.slots[i].pc.job;
    RecordMoves(s, if job.Mount? then s.slots[i].request.fcli else s.slots[i].fhandler, job, c);
  }

  lemma OtherWorkMoves(s: S.State, i: nat, result: int, c: nat)
    requires S.Sound(s) && S.WorkStep(s, i, result).Some? && !s.slots[i].pc.ToRun? && !s.slots[i].pc.ToReply?
    requires c < |s.clients|
    ensures Quiet(s.clients[c], S.WorkStep(s, i, result).value.clients[c])
  {
    if s.slots[i].pc.ToFree? { StageIsQuiet(s, s.slots[i].tenant, S.Over, c); }
  }

  lemma SessionMovesClient(s: S.State, b: S.Action, c: nat)
    requires SI.Inv(s) && S.Step(s, b).Some? && c < |s.clients| && !(b.Work? && AtCall(s, b.i))
    ensures ClientMoves(s, b, c, s.clients[c], S.Step(s, b).value.clients[c])
  {
    var k, q := s.clients[c], S.Step(s, b).value.clients[c];
    match b
    case Dispatch(fd) =>
      if s.dpc.Head? { HeadMoves(s, fd, c); QuietMoves(s, b, c, k, q); }
      else if s.dpc.MountTest? || s.dpc.MountFind? { MountMoves(s, fd, c); }
      else { PostMoves(s, fd, c); QuietMoves(s, b, c, k, q); }
    case Work(i, result) =>
      if s.slots[i].pc.ToRun? { RunMoves(s, i, result, c); }
      else if s.slots[i].pc.ToReply? { ReplyMoves(s, i, result, c); }
      else { OtherWorkMoves(s, i, result, c); QuietMoves(s, b, c, k, q); }
    case SpuriousWakeUp(_) => QuietMoves(s, b, c, k, q);
    case _ => ClientActionMoves(s, b, c);
  }

  /** What such a step may do to a slot's worker: it neither ends a call nor replies to one. */
  predicate PcMoves(w: S.Slot, q: S.Slot) {
    && (w.pc.ToRun? && IsCall(w.pc.job) ==> q.pc == w.pc)
    && (q.pc.ToReply? && IsCall(q.pc.answered) ==> q.pc == w.pc && q.tenant == w.tenant)
  }

  /** Worker `i` executes a mount. */
  predicate Mounts(s: S.State, b: S.Action, i: nat) {
    b.Work? && b.i == i && i < |s.slots| && s.slots[i].pc == S.ToRun(S.Mount)
  }

  /** A tenant with a mount executed was there before the step, mounted; or the step mounts it. */
  predicate TenantMoves(s: S.State, b: S.Action, i: nat, q: S.Slot, clients: seq<S.Client>)
    requires i < |s.slots| && |clients| == |s.clients|
  {
    q.tenant.Some? && q.tenant.value < |clients| && clients[q.tenant.value].ran != [] ==>
      s.slots[i].tenant == q.tenant && (s.clients[q.tenant.value].ran != [] <==> !Mounts(s, b, i))
  }

  lemma DispatchMovesSlots(s: S.State, fd: int, i: nat)
    requires SI.Inv(s) && S.DispatchStep(s, fd).Some? && i < S.S
    ensures PcMoves(s.slots[i], S.DispatchStep(s, fd).value.slots[i])
  {
    SD.DispatchOnlySignals(s, fd, i);
    if s.dpc.MountFind? { assert SI.SlotOk(s, i); } else { SD.DispatchKeepsTenant(s, fd, i); }
  }

  /** A slot is given to a client whose mount has not been executed. */
  lemma DispatchMovesTenants(s: S.State, fd: int, i: nat)
    requires SI.Inv(s) && S.DispatchStep(s, fd).Some? && i < S.S
    ensures TenantMoves(s, S.Dispatch(fd), i, S.DispatchStep(s, fd).value.slots[i], S.DispatchStep(s, fd).value.clients)
  {
    var r := S.DispatchStep(s, fd).value;
    forall c | 0 <= c < |s.clients| ensures r.clients[c].ran == s.clients[c].ran { SD.DispatchRunsNothing(s, fd, c); }
    if s.dpc.MountFind? {
      assert SI.ClientOk(s, s.dpc.client) && SI.Visiting(s, s.dpc.client, s.dpc.fd);
      SD.DispatchOnlySignals(s, fd, i);
    } else {
      SD.DispatchKeepsTenant(s, fd, i);
    }
  }

  lemma WorkMovesSlots(s: S.State, j: nat, result: int, i: nat)
    requires SI.Inv(s) && S.WorkStep(s, j, result).Some? && !AtCall(s, j) && i < S.S
    ensures PcMoves(s.slots[i], S.WorkStep(s, j, result).value.slots[i])
  {
    if i != j {
      SD.SlotAlone(s, j, result, i);
    } else if s.slots[j].pc.ToReply? || s.slots[j].pc.ToFree? || s.slots[j].pc.ToRun? {
      var c := SI.BusyHasTenant(s, j);
    }
  }

  lemma ClientMovesNoSlot(s: S.State, b: S.Action)
    requires S.Sound(s) && (b.SendMount? || b.SendJob? || b.SendUnmount? || b.Receive?) && S.ClientStep(s, b).Some?
    ensures var r := S.ClientStep(s, b).value;
            r.slots == s.slots && forall c :: 0 <= c < |s.clients| ==> r.clients[c].ran == s.clients[c].ran
  {
  }

  /** A mount or an unmount is executed for the slot's tenant. */
  lemma RunRecords(s: S.State, j: nat, job: S.Job, result: int) returns (c: nat)
    requires SI.Inv(s) && j < S.S && s.slots[j].pc == S.ToRun(job) && (job.Mount? || job.Unmount?)
    requires S.RunStep(s, j, job, result).Some?
    ensures c < |s.clients| && s.slots[j].tenant == Some(c) && (job.Mount? <==> s.clients[c].ran == [])
    ensures var r := S.RunStep(s, j, job, result).value;
            && r.clients == s.clients[c := s.clients[c].(ran := s.clients[c].ran + [job])]
            && forall i :: 0 <= i < S.S ==> r.slots[i].tenant == s.slots[i].tenant
  {
    c := SI.BusyHasTenant(s, j);
    SI.TenantElsewhere(s, j, c);
    SI.JobIsKnown(s.clients[c]);
    var fd := if job.Mount? then s.slots[j].request.fcli else s.slots[j].fhandler;
    if job.Unmount? { SI.JobRan(s.clients[c]); }
    assert SI.Leads(s, fd, c);
    assert S.Record(s, fd, job).clients == s.clients[c := s.clients[c].(ran := s.clients[c].ran + [job])];
  }

  /** Executing a mount or an unmount concerns the slot's tenant alone. */
  lemma RunMovesTenant(s: S.State, j: nat, result: int, i: nat)
    requires SI.Inv(s) && S.WorkStep(s, j, result).Some? && s.slots[j].pc.ToRun? && !AtCall(s, j) && i < S.S
    ensures var r := S.WorkStep(s, j, result).value;
            r.slots[i].tenant == s.slots[i].tenant && TenantMoves(s, S.Work(j, result), i, r.slots[i], r.clients)
  {
    var d := SI.BusyHasTenant(s, j);
    SI.TenantElsewhere(s, j, d);
    SI.JobIsKnown(s.clients[d]);
    var c := RunRecords(s, j, s.slots[j].pc.job, result);
  }

  lemma OtherWorkMovesTenant(s: S.State, j: nat, result: int, i: nat)
    requires SI.Inv(s) && S.WorkStep(s, j, result).Some? && !s.slots[j].pc.ToRun? && i < S.S
    ensures var r := S.WorkStep(s, j, result).value; TenantMoves(s, S.Work(j, result), i, r.slots[i], r.clients)
  {
    var r := S.WorkStep(s, j, result).value;
    TenantKeptOrGone(s, j, result, i);
    if r.slots[i].tenant.Some? && r.slots[i].tenant.value < |s.clients| {
      OtherWorkRunsNothing(s, j, result, r.slots[i].tenant.value);
    }
  }

  lemma TenantKeptOrGone(s: S.State, j: nat, result: int, i: nat)
    requires S.Sound(s) && S.WorkStep(s, j, result).Some? && !s.slots[j].pc.ToRun? && i < S.S
    ensures var q := S.WorkStep(s, j, result).value.slots[i]; q.tenant == s.slots[i].tenant || q.tenant.None?
  {
    if i != j {
      SD.SlotAlone(s, j, result, i);
    } else if s.slots[j].pc.ToReply? {
      assert forall fd: int, reply :: S.Deliver(s, fd, reply).slots == s.slots;
    } else if s.slots[j].pc.ToFree? {
      assert S.SetStage(s, s.slots[j].tenant, S.Over).slots == s.slots;
    }
  }

  lemma OtherWorkRunsNothing(s: S.State, j: nat, result: int, c: nat)
    requires S.Sound(s) && S.WorkStep(s, j, result).Some? && !s.slots[j].pc.ToRun? && c < |s.clients|
    ensures S.WorkStep(s, j, result).value.clients[c].ran == s.clients[c].ran
  {
  }

  lemma SessionMovesSlot(s: S.State, b: S.Action, i: nat)
    requires SI.Inv(s) && S.Step(s, b).Some? && i < S.S && !(b.Work? && AtCall(s, b.i))
    ensures var r := S.Step(s, b).value;
            PcMoves(s.slots[i], r.slots[i]) && TenantMoves(s, b, i, r.slots[i], r.clients)
  {
    match b
    case Dispatch(fd) => DispatchMovesSlots(s, fd, i); DispatchMovesTenants(s, fd, i);
    case Work(j, result) =>
      WorkMovesSlots(s, j, result, i);
      if s.slots[j].pc.ToRun? { RunMovesTenant(s, j, result, i); } else { OtherWorkMovesTenant(s, j, result, i); }
    case SpuriousWakeUp(_) =>
    case _ => ClientMovesNoSlot(s, b);
  }

  // ----- It keeps the agreement -----

  lemma ClientKept(s: State, b: S.Action, c: nat, k: S.Client, q: S.Client)
    requires Agree(s) && c < |s.calls| && k == s.sess.clients[c] && ClientMoves(s.sess, b, c, k, q)
    requires PoliteStep(s, Session(b))
    ensures ClientAgrees(q, s.calls[c])
  {
    assert ClientAgrees(k, s.calls[c]);
    if b.Work? && b.i < S.S { assert ReplyOk(s, b.i); }
  }

  /** A client gets a home before it has made a call. */
  lemma HomesKept(s: State, b: S.Action, c: nat)
    requires Agree(s) && SI.Inv(s.sess) && S.Step(s.sess, b).Some? && c < |s.calls|
    ensures HomeOk(s.fs, Housed(s, b)[c], s.calls[c])
    ensures Housed(s, b)[c] != s.homes[c] ==>
      b.Work? && Mounts(s.sess, b, b.i) && s.sess.slots[b.i].tenant == Some(c)
      && Housed(s, b)[c] == Some(Home(b.i, |s.fs.threads[b.i].done|)) && s.calls[c] == []
  {
    assert HomeOk(s.fs, s.homes[c], s.calls[c]) && ClientAgrees(s.sess.clients[c], s.calls[c]);
    if b.Work? && Mounts(s.sess, b, b.i) && s.sess.slots[b.i].tenant == Some(c) {
      var d := SI.BusyHasTenant(s.sess, b.i);
      SI.TenantElsewhere(s.sess, b.i, c);
      SI.JobIsKnown(s.sess.clients[c]);
      assert s.sess.clients[c].ran == [];
      assert |First(s.calls[c])| == 0;
    }
  }

  lemma SessionKeepsPc(s: State, b: S.Action, i: nat)
    requires Agree(s) && SI.Inv(s.sess) && Step(s, Session(b)).Some? && i < S.S
    ensures var r := Step(s, Session(b)).value;
            InStep(r.sess.slots[i], r.fs.threads[i], r.inCall[i]) && ReplyOk(r, i)
  {
    SessionMovesSlot(s.sess, b, i);
    assert InStep(s.sess.slots[i], s.fs.threads[i], s.inCall[i]) && ReplyOk(s, i);
  }

  /** A tenant that was mounted stays at home. */
  lemma SessionKeepsHome(s: State, b: S.Action, i: nat)
    requires Agree(s) && SI.Inv(s.sess) && Step(s, Session(b)).Some? && i < S.S
    ensures TenantHome(Step(s, Session(b)).value, i)
  {
    var r := Step(s, Session(b)).value;
    SessionMovesSlot(s.sess, b, i);
    var c := r.sess.slots[i].tenant;
    if c.Some? && c.value < |s.calls| && r.sess.clients[c.value].ran != [] {
      assert s.sess.slots[i].tenant == c;
      HomeOfTenant(s, b, i, c.value);
    }
  }

  lemma HomeOfTenant(s: State, b: S.Action, i: nat, c: nat)
    requires Agree(s) && SI.Inv(s.sess) && S.Step(s.sess, b).Some? && i < S.S && c < |s.calls|
    requires !(b.Work? && AtCall(s.sess, b.i)) && s.sess.slots[i].tenant == Some(c)
    requires s.sess.clients[c].ran != [] <==> !Mounts(s.sess, b, i)
    ensures Housed(s, b)[c].Some? && Housed(s, b)[c].value.worker == i
    ensures Housed(s, b)[c].value.from + |s.calls[c]| + Untaken(s.fs.threads[i], s.inCall[i]) == |s.fs.threads[i].done|
  {
    assert InStep(s.sess.slots[i], s.fs.threads[i], s.inCall[i]) && TenantHome(s, i);
    HomesKept(s, b, c);
    if b.Work? && Mounts(s.sess, b, b.i) && b.i != i { SI.TenantElsewhere(s.sess, i, c); }
  }

  lemma SessionKeepsAgree(s: State, b: S.Action)
    requires Agree(s) && SI.Inv(s.sess) && Step(s, Session(b)).Some? && PoliteStep(s, Session(b))
    ensures Agree(Step(s, Session(b)).value)
  {
    var r := Step(s, Session(b)).value;
    forall c | 0 <= c < |r.calls| ensures ClientAgrees(r.sess.clients[c], r.calls[c]) {
      SessionMovesClient(s.sess, b, c);
      ClientKept(s, b, c, s.sess.clients[c], r.sess.clients[c]);
    }
    forall c | 0 <= c < |r.calls| ensures HomeOk(r.fs, r.homes[c], r.calls[c]) { HomesKept(s, b, c); }
    forall i | 0 <= i < S.S
      ensures InStep(r.sess.slots[i], r.fs.threads[i], r.inCall[i]) && TenantHome(r, i) && ReplyOk(r, i)
    {
      SessionKeepsPc(s, b, i);
      SessionKeepsHome(s, b, i);
    }
  }

  // ----- Beginning a call -----

  /** The step leaves the session machine and the clients' calls alone. */
  lemma EnterKeepsAgree(s: State, i: nat)
    requires Agree(s) && Step(s, Enter(i)).Some?
    ensures Agree(Step(s, Enter(i)).value)
  {
    var r := Step(s, Enter(i)).value;
    forall j | 0 <= j < S.S && j != i ensures r.fs.threads[j] == s.fs.threads[j] {}
    forall c | 0 <= c < |r.calls| ensures HomeOk(r.fs, r.homes[c], r.calls[c]) {
      assert HomeOk(s.fs, s.homes[c], s.calls[c]);
    }
    forall j | 0 <= j < S.S
      ensures InStep(r.sess.slots[j], r.fs.threads[j], r.inCall[j]) && TenantHome(r, j) && ReplyOk(r, j)
    {
      assert InStep(s.sess.slots[j], s.fs.threads[j], s.inCall[j]) && TenantHome(s, j) && ReplyOk(s, j);
    }
  }

  /** The handles of some last calls are handles of all. */
  lemma {:induction false} OpenedLately(all: Calls, from: nat)
    requires from <= |all|
    ensures D.Opened(all[from..]) <= D.Opened(all)
    decreases |all|
  {
    if from < |all| {
      var front := all[..|all| - 1];
      OpenedLately(front, from);
      assert all[from..][..|all[from..]| - 1] == front[from..];
    }
  }

  /** What its client may ask for, the worker's thread may do. */
  lemma EnterIsPolite(s: State, i: nat)
    requires Agree(s) && SI.Inv(s.sess) && AtCall(s.sess, i) && !s.inCall[i]
    ensures s.fs.threads[i].pc.Idle? && D.Polite(s.fs.threads[i], CallOf(s.sess.slots[i].pc.job).value)
  {
    var c := SI.BusyHasTenant(s.sess, i);
    SI.TenantElsewhere(s.sess, i, c);
    var k, th := s.sess.clients[c], s.fs.threads[i];
    SI.JobIsKnown(k);
    assert InStep(s.sess.slots[i], th, s.inCall[i]) && TenantHome(s, i);
    assert ClientAgrees(k, s.calls[c]) && HomeOk(s.fs, s.homes[c], s.calls[c]);
    assert k.ran != [] && SI.Last(k.sent) == s.sess.slots[i].pc.job;
    assert th.done[s.homes[c].value.from..] == s.calls[c];
    OpenedLately(th.done, s.homes[c].value.from);
  }

  // ----- Inside a call -----

  /** A thread goes on, or its call ends. */
  predicate ThreadMoves(th: L.Thread, q: L.Thread) {
    || (q.done == th.done && q.call == th.call && (q.pc.Idle? <==> th.pc.Idle?))
    || (!th.pc.Idle? && q.pc.Idle? && q.done == th.done + [(th.call, th.outcome)])
  }

  lemma RunMovesThread(fs: L.State, t: nat, u: nat)
    requires LI.Base(fs) && L.Step(fs, L.Run(t)).Some? && u < |fs.threads|
    ensures ThreadMoves(fs.threads[u], L.Step(fs, L.Run(t)).value.threads[u])
  {
    var r := L.Step(fs, L.Run(t)).value;
    if D.Ending(fs, t) {
      assert r.threads == L.Returns(fs, t).threads;
    } else if fs.threads[t].call.Do? {
      D.OpGoesOn(fs, t, fs.threads[t].call.op);
    } else {
      D.DestroyGoesOn(fs, t);
    }
  }

  lemma InsideMovesThread(fs: L.State, b: L.Action, u: nat)
    requires LI.Base(fs) && !b.Begin? && L.Step(fs, b).Some? && u < |fs.threads|
    ensures ThreadMoves(fs.threads[u], L.Step(fs, b).value.threads[u])
  {
    if b.Run? { RunMovesThread(fs, b.tid, u); }
  }

  lemma HomeKept(fs: L.State, r: L.State, home: Option<Home>, calls: Calls)
    requires HomeOk(fs, home, calls) && |r.threads| == |fs.threads|
    requires forall u :: 0 <= u < |fs.threads| ==> fs.threads[u].done <= r.threads[u].done
    ensures HomeOk(r, home, calls)
  {
    if home.Some? {
      var h := home.value;
      var was, now := fs.threads[h.worker].done, r.threads[h.worker].done;
      assert now[h.from..h.from + |calls|] == was[h.from..h.from + |calls|];
    }
  }

  /** A step inside calls, seen from one worker: its thread goes on, and nothing else of it changes. */
  lemma InsideKeepsWorker(s: State, r: State, j: nat)
    requires Sound(s) && Sound(r) && r == s.(fs := r.fs) && j < S.S
    requires InStep(s.sess.slots[j], s.fs.threads[j], s.inCall[j]) && TenantHome(s, j) && ReplyOk(s, j)
    requires ThreadMoves(s.fs.threads[j], r.fs.threads[j])
    ensures InStep(r.sess.slots[j], r.fs.threads[j], r.inCall[j]) && TenantHome(r, j) && ReplyOk(r, j)
  {
  }

  lemma ThreadsMoveAgrees(s: State, r: State)
    requires Agree(s) && Sound(r) && r == s.(fs := r.fs)
    requires forall u :: 0 <= u < S.S ==> ThreadMoves(s.fs.threads[u], r.fs.threads[u])
    ensures Agree(r)
  {
    forall u | 0 <= u < S.S ensures s.fs.threads[u].done <= r.fs.threads[u].done {
      assert ThreadMoves(s.fs.threads[u], r.fs.threads[u]);
    }
    forall c | 0 <= c < |r.calls| ensures HomeOk(r.fs, r.homes[c], r.calls[c]) {
      HomeKept(s.fs, r.fs, s.homes[c], s.calls[c]);
    }
    forall j | 0 <= j < S.S
      ensures InStep(r.sess.slots[j], r.fs.threads[j], r.inCall[j]) && TenantHome(r, j) && ReplyOk(r, j)
    {
      InsideKeepsWorker(s, r, j);
    }
  }

  lemma InsideKeepsAgree(s: State, b: L.Action)
    requires Agree(s) && LI.Base(s.fs) && Step(s, Inside(b)).Some?
    ensures Agree(Step(s, Inside(b)).value)
  {
    var r := Step(s, Inside(b)).value;
    forall u | 0 <= u < S.S ensures ThreadMoves(s.fs.threads[u], r.fs.threads[u]) {
      InsideMovesThread(s.fs, b, u);
    }
    ThreadsMoveAgrees(s, r);
  }

  // ----- Having the result -----

  /** What taking a result does: the tenant's job is executed, and its worker is to reply. */
  ghost predicate Takes(s: State, r: State, i: nat, c: nat) {
    && Sound(s) && Sound(r) && i < S.S && s.sess.slots[i].tenant == Some(c) && c < |s.calls| == |r.calls|
    && AtCall(s.sess, i) && s.inCall[i] && s.fs.threads[i].pc.Idle? && s.fs.threads[i].done != []
    && var w, k, th := s.sess.slots[i], s.sess.clients[c], s.fs.threads[i];
       var call := th.done[|th.done| - 1];
    && r.fs == s.fs && r.homes == s.homes && r.inCall == s.inCall[i := false]
    && r.calls == s.calls[c := s.calls[c] + [call]]
    && r.sess.slots == s.sess.slots[i := w.(pc := S.ToReply(w.pc.job, CodeOf(call.1)))]
    && r.sess.clients == s.sess.clients[c := k.(ran := k.ran + [w.pc.job])]
    && k.sent != [] && k.ran == SI.Front(k.sent) && k.ran != [] && w.pc.job == SI.Last(k.sent) && k.stage.Boxed?
    && (forall j :: 0 <= j < S.S && j != i ==> s.sess.slots[j].tenant != Some(c))
  }

  lemma LeaveTakes(s: State, i: nat) returns (c: nat)
    requires Agree(s) && SI.Inv(s.sess) && Step(s, Leave(i)).Some?
    ensures Takes(s, Step(s, Leave(i)).value, i, c)
  {
    c := CallerKnown(s.sess, i);
    var o := s.fs.threads[i].done[|s.fs.threads[i].done| - 1].1;
    CallRuns(s.sess, i, CodeOf(o), c);
  }

  /** The client a worker makes a call for: mounted, and waiting for this call. */
  lemma CallerKnown(s: S.State, i: nat) returns (c: nat)
    requires SI.Inv(s) && AtCall(s, i)
    ensures c < |s.clients| && s.slots[i].tenant == Some(c) && SI.Leads(s, s.slots[i].fhandler, c)
    ensures forall j :: 0 <= j < S.S && j != i ==> s.slots[j].tenant != Some(c)
    ensures var k := s.clients[c];
            k.sent != [] && k.ran == SI.Front(k.sent) && k.ran != []
            && s.slots[i].pc.job == SI.Last(k.sent) && k.stage.Boxed?
  {
    c := SI.BusyHasTenant(s, i);
    SI.TenantElsewhere(s, i, c);
    SI.JobIsKnown(s.clients[c]);
    SI.JobRan(s.clients[c]);
  }

  lemma CallRuns(s: S.State, i: nat, result: int, c: nat)
    requires S.Sound(s) && AtCall(s, i) && c < |s.clients| && SI.Leads(s, s.slots[i].fhandler, c)
    requires S.Step(s, S.Work(i, result)).Some?
    ensures var r, w, k := S.Step(s, S.Work(i, result)).value, s.slots[i], s.clients[c];
            && r.slots == s.slots[i := w.(pc := S.ToReply(w.pc.job, result))]
            && r.clients == s.clients[c := k.(ran := k.ran + [w.pc.job])]
  {
  }

  lemma TakenAgrees(s: State, r: State, i: nat, c: nat)
    requires Agree(s) && Takes(s, r, i, c)
    ensures ClientAgrees(r.sess.clients[c], r.calls[c]) && HomeOk(r.fs, r.homes[c], r.calls[c])
    ensures InStep(r.sess.slots[i], r.fs.threads[i], r.inCall[i]) && TenantHome(r, i) && ReplyOk(r, i)
  {
    var w, k, th := s.sess.slots[i], s.sess.clients[c], s.fs.threads[i];
    assert InStep(w, th, s.inCall[i]) && TenantHome(s, i);
    assert ClientAgrees(k, s.calls[c]) && HomeOk(s.fs, s.homes[c], s.calls[c]);
    CallsInPush(k.ran, w.pc.job);
    var from := s.homes[c].value.from;
    assert th.done[from..from + |r.calls[c]|] == th.done[from..from + |s.calls[c]|] + [th.done[|th.done| - 1]];
    assert First(r.calls[c]) == First(s.calls[c]) + [th.done[|th.done| - 1].0];
  }

  lemma LeaveKeepsAgree(s: State, i: nat)
    requires Agree(s) && SI.Inv(s.sess) && Step(s, Leave(i)).Some?
    ensures Agree(Step(s, Leave(i)).value)
  {
    var c := LeaveTakes(s, i);
    TakenAgrees(s, Step(s, Leave(i)).value, i, c);
    OthersAgree(s, Step(s, Leave(i)).value, i, c);
  }

  lemma OthersAgree(s: State, r: State, i: nat, c: nat)
    requires Agree(s) && Takes(s, r, i, c)
    ensures forall d :: 0 <= d < |r.calls| && d != c ==>
      ClientAgrees(r.sess.clients[d], r.calls[d]) && HomeOk(r.fs, r.homes[d], r.calls[d])
    ensures forall j :: 0 <= j < S.S && j != i ==>
      InStep(r.sess.slots[j], r.fs.threads[j], r.inCall[j]) && TenantHome(r, j) && ReplyOk(r, j)
  {
    forall j | 0 <= j < S.S && j != i
      ensures InStep(r.sess.slots[j], r.fs.threads[j], r.inCall[j]) && TenantHome(r, j) && ReplyOk(r, j)
    {
      assert InStep(s.sess.slots[j], s.fs.threads[j], s.inCall[j]) && TenantHome(s, j) && ReplyOk(s, j);
    }
  }

  /** Every step of the whole server, by polite clients, keeps the two machines in agreement. */
  lemma StepKeepsAgree(s: State, a: Action)
    requires Agree(s) && SI.Inv(s.sess) && LI.Base(s.fs) && Step(s, a).Some? && PoliteStep(s, a)
    ensures Agree(Step(s, a).value)
  {
    match a
    case Session(b) => SessionKeepsAgree(s, b);
    case Enter(i) => EnterKeepsAgree(s, i);
    case Inside(b) => InsideKeepsAgree(s, b);
    case Leave(i) => LeaveKeepsAgree(s, i);
  }
}
