/** No request is lost: where each one is, that it moves on, and how soon. */
module SessionDelivery {
  import opened Config
  import opened Sessions
  import opened SessionInvariant
  import opened SessionTheorems
  import opened Counting
  import I = Invariant

  // ----- Where a request is -----

  /** A message of `c` is in the pipe. */
  ghost predicate InPipe(s: State, c: nat) { exists k :: 0 <= k < |s.pipe| && Sender(s, s.pipe[k]) == Some(c) }

  ghost predicate HasSlot(s: State, c: nat) { exists i :: 0 <= i < |s.slots| && s.slots[i].tenant == Some(c) }

  /** The converse of PipeOk, and of the slots' view of their tenants. */
  ghost predicate Traced(s: State, c: nat)
    requires c < |s.clients|
  {
    && (s.clients[c].stage.Queued? ==> InPipe(s, c))
    && (s.clients[c].stage.Boxed? ==> HasSlot(s, c))
  }

  ghost predicate AllTraced(s: State) { forall c :: 0 <= c < |s.clients| ==> Traced(s, c) }

  /** The slots keep the tenants whose jobs have not been executed and answered. */
  ghost predicate TenantsStay(s: State, r: State) {
    && |r.slots| == |s.slots| && |r.clients| == |s.clients|
    && (forall i, c :: 0 <= i < |s.slots| && s.slots[i].tenant == Some(c) && c < |s.clients| ==>
          (s.clients[c].stage.Queued? || r.clients[c].stage.Boxed? ==> r.slots[i].tenant == Some(c)))
  }

  lemma SenderStays(s: State, r: State, m: Message, c: nat)
    requires TenantsStay(s, r) && Sender(s, m) == Some(c) && c < |s.clients| && s.clients[c].stage.Queued?
    ensures Sender(r, m) == Some(c)
  {
  }

  /** The client's request stays where it is. */
  lemma StaysTraced(s: State, r: State, c: nat)
    requires TenantsStay(s, r) && c < |s.clients| && Traced(s, c) && r.clients[c].stage == s.clients[c].stage
    requires s.clients[c].stage.Queued? ==> s.pipe <= r.pipe
    ensures Traced(r, c)
  {
    if s.clients[c].stage.Queued? {
      var k :| 0 <= k < |s.pipe| && Sender(s, s.pipe[k]) == Some(c);
      SenderStays(s, r, s.pipe[k], c);
      assert r.pipe[k] == s.pipe[k];
    }
    if s.clients[c].stage.Boxed? {
      var i :| 0 <= i < |s.slots| && s.slots[i].tenant == Some(c);
      assert r.slots[i].tenant == Some(c);
    }
  }

  // ----- Clients -----

  lemma SendTraced(s: State, a: Action)
    requires Inv(s) && AllTraced(s) && (a.SendMount? || a.SendJob? || a.SendUnmount?) && ClientStep(s, a).Some?
    ensures AllTraced(ClientStep(s, a).value)
  {
    var r := ClientStep(s, a).value;
    assert ClientOk(s, a.c);
    assert !a.SendMount? ==> Claims(s.clients[a.c], s.clients[a.c].pc.sid);
    assert Sender(r, r.pipe[|s.pipe|]) == Some(a.c);
    forall c | 0 <= c < |s.clients| && c != a.c ensures Traced(r, c) {
      assert s.pipe <= r.pipe;
      StaysTraced(s, r, c);
    }
  }

  lemma ReceiveTraced(s: State, c: nat)
    requires Inv(s) && AllTraced(s) && ClientStep(s, Receive(c)).Some?
    ensures AllTraced(ClientStep(s, Receive(c)).value)
  {
    var r := ClientStep(s, Receive(c)).value;
    forall d | 0 <= d < |s.clients| && d != c ensures Traced(r, d) { StaysTraced(s, r, d); }
  }

  // ----- Workers -----

  lemma ReplyTraced(s: State, i: nat, result: int)
    requires Inv(s) && AllTraced(s) && WorkStep(s, i, result).Some? && s.slots[i].pc.ToReply?
    ensures AllTraced(WorkStep(s, i, result).value)
  {
    var r := WorkStep(s, i, result).value;
    forall c | 0 <= c < |s.clients| ensures Traced(r, c) {
      if r.clients[c].stage == s.clients[c].stage { StaysTraced(s, r, c); }
    }
  }

  lemma FreeTraced(s: State, i: nat, result: int)
    requires Inv(s) && AllTraced(s) && WorkStep(s, i, result).Some? && s.slots[i].pc.ToFree?
    ensures AllTraced(WorkStep(s, i, result).value)
  {
    var r := WorkStep(s, i, result).value;
    var t := BusyHasTenant(s, i);
    forall c | 0 <= c < |s.clients| ensures Traced(r, c) {
      if c != t { StaysTraced(s, r, c); }
    }
  }

  lemma RunTraced(s: State, i: nat, job: Job, result: int)
    requires Inv(s) && AllTraced(s) && i < S && RunStep(s, i, job, result).Some?
    ensures AllTraced(RunStep(s, i, job, result).value)
  {
    var r := RunStep(s, i, job, result).value;
    RunStepShape(s, i, job, result);
    assert r.pipe == s.pipe;
    forall c | 0 <= c < |s.clients| ensures Traced(r, c) { StaysTraced(s, r, c); }
  }

  lemma WorkTraced(s: State, i: nat, result: int)
    requires Inv(s) && AllTraced(s) && WorkStep(s, i, result).Some?
    ensures AllTraced(WorkStep(s, i, result).value)
  {
    match s.slots[i].pc
    case ToRun(job) => RunTraced(s, i, job, result);
    case ToReply(_, _) => ReplyTraced(s, i, result);
    case ToFree => FreeTraced(s, i, result);
    case _ =>
      var r := WorkStep(s, i, result).value;
      forall c | 0 <= c < |s.clients| ensures Traced(r, c) { StaysTraced(s, r, c); }
  }

  // ----- The dispatcher -----

  /** The dispatcher refuses no unmount, so each message it takes it also handles. */
  lemma TakenIsHandled(s: State, fd: int)
    requires Inv(s) && CountOk(s) && s.dpc.Head? && TakeMessage(s, fd).Some?
    ensures var r := TakeMessage(s, fd).value;
            && !r.dpc.Head? && r.slots == s.slots && |r.clients| == |s.clients|
            && s.pipe != [] && r.pipe == s.pipe[1..]
            && Sender(s, s.pipe[0]).Some? && Sender(s, s.pipe[0]).value < |s.clients|
            && (forall c :: 0 <= c < |s.clients| ==>
                  r.clients[c].stage == if Sender(s, s.pipe[0]) == Some(c) then OnDesk else s.clients[c].stage)
  {
    var c := HeadSender(s);
    if s.pipe[0].UnmountMsg? {
      assert SlotOk(s, s.pipe[0].sid);
      assert Flags(s)[s.pipe[0].sid];
      CountZero(Flags(s));
    }
  }

  lemma TakeTraced(s: State, fd: int)
    requires Inv(s) && CountOk(s) && AllTraced(s) && s.dpc.Head? && TakeMessage(s, fd).Some?
    ensures AllTraced(TakeMessage(s, fd).value)
  {
    var r := TakeMessage(s, fd).value;
    TakenIsHandled(s, fd);
    forall c | 0 <= c < |s.clients| && Sender(s, s.pipe[0]) != Some(c) ensures Traced(r, c) {
      assert Traced(s, c);
      if s.clients[c].stage.Queued? {
        var k :| 0 <= k < |s.pipe| && Sender(s, s.pipe[k]) == Some(c);
        assert r.pipe[k - 1] == s.pipe[k];
        SenderStays(s, r, s.pipe[k], c);
      } else {
        StaysTraced(s, r, c);
      }
    }
  }

  lemma MountTraced(s: State)
    requires Inv(s) && AllTraced(s) && (s.dpc.MountTest? || s.dpc.MountFind?) && DispatchStep(s, 0).Some?
    ensures AllTraced(DispatchStep(s, 0).value)
  {
    var r := DispatchStep(s, 0).value;
    MountKeepsTenants(s);
    forall c | 0 <= c < |s.clients| ensures Traced(r, c) {
      if r.clients[c].stage == s.clients[c].stage { StaysTraced(s, r, c); }
    }
  }

  /** A slot taken for a mount had no tenant. */
  lemma MountKeepsTenants(s: State)
    requires Inv(s) && (s.dpc.MountTest? || s.dpc.MountFind?) && DispatchStep(s, 0).Some?
    ensures TenantsStay(s, DispatchStep(s, 0).value)
  {
    forall i | 0 <= i < S ensures s.slots[i].free <==> s.slots[i].tenant.None? { assert SlotOk(s, i); }
  }

  lemma PostTraced(s: State)
    requires Inv(s) && AllTraced(s) && DispatchStep(s, 0).Some?
    requires !s.dpc.Head? && !s.dpc.MountTest? && !s.dpc.MountFind?
    ensures AllTraced(DispatchStep(s, 0).value)
  {
    var r := DispatchStep(s, 0).value;
    forall c | 0 <= c < |s.clients| ensures Traced(r, c) {
      if r.clients[c].stage == s.clients[c].stage { StaysTraced(s, r, c); }
      else { assert r.slots[s.dpc.i].tenant == Some(c); }
    }
  }

  // ----- Every run -----

  lemma StepTraced(s: State, a: Action)
    requires Inv(s) && CountOk(s) && AllTraced(s) && Step(s, a).Some?
    ensures AllTraced(Step(s, a).value)
  {
    match a
    case Dispatch(fd) =>
      if s.dpc.Head? { TakeTraced(s, fd); }
      else if s.dpc.MountTest? || s.dpc.MountFind? { MountTraced(s); }
      else { PostTraced(s); }
    case Work(i, result) => WorkTraced(s, i, result);
    case SpuriousWakeUp(i) =>
      forall c | 0 <= c < |s.clients| ensures Traced(Step(s, a).value, c) { StaysTraced(s, Step(s, a).value, c); }
    case Receive(c) => ReceiveTraced(s, c);
    case _ => SendTraced(s, a);
  }

  lemma {:induction false} TracedAlways(n: nat, actions: seq<Action>)
    requires Execute(Initial(n), actions).Some?
    ensures var s := Execute(Initial(n), actions).value; Inv(s) && CountOk(s) && AllTraced(s)
    decreases |actions|
  {
    Reachable(n, actions);
    CountHolds(n, actions);
    if actions != [] {
      var front := actions[..|actions| - 1];
      TracedAlways(n, front);
      StepTraced(Execute(Initial(n), front).value, actions[|actions| - 1]);
    }
  }

  /** The last job of `c` is a message in the pipe, saying what `c` meant. */
  ghost predicate Sent(s: State, c: nat) {
    exists k :: 0 <= k < |s.pipe| && Sender(s, s.pipe[k]) == Some(c) && MessageOk(s, s.pipe[k])
  }

  /** The last job of `c` is in its slot: posted, or taken by the worker and not executed. */
  ghost predicate Posted(s: State, c: nat)
    requires c < |s.clients|
  {
    exists i :: 0 <= i < |s.slots| && s.slots[i].tenant == Some(c) && Carries(s, i, s.slots[i], c, s.clients[c])
  }

  /** The mount of `c` was refused, whether it has read so or not. */
  predicate TurnedAway(k: Client) {
    k.pc.Refused? || (k.pc.AwaitMount? && k.stage.Answered? && |k.replies| == 1 && k.replies[0].result == -1)
  }

  /** Every job a client has sent has been executed, but for a refused mount, or for the last one: and that one is in
      the pipe, or with the dispatcher, or in the client's slot. */
  lemma NothingLost(n: nat, actions: seq<Action>, c: nat)
    requires Execute(Initial(n), actions).Some? && c < n
    ensures var s := Execute(Initial(n), actions).value;
            var k := s.clients[c];
            || k.ran == k.sent
            || (TurnedAway(k) && k.ran == [] && k.sent == [Mount])
            || (k.sent != [] && k.ran == Front(k.sent)
                && (Sent(s, c) || (k.stage.OnDesk? && Handled(s) == Some(c)) || Posted(s, c)))
  {
    TracedAlways(n, actions);
    var s := Execute(Initial(n), actions).value;
    assert ClientOk(s, c) && Traced(s, c);
    if s.clients[c].stage.Queued? {
      var k :| 0 <= k < |s.pipe| && Sender(s, s.pipe[k]) == Some(c);
      assert MessageOk(s, s.pipe[k]);
    }
    if s.clients[c].stage.Boxed? {
      var i :| 0 <= i < S && s.slots[i].tenant == Some(c);
      assert SlotOk(s, i);
    }
  }

  // ----- Something moves -----

  /** open always finds a descriptor that is not in use. */
  lemma UnusedDescriptor(fds: map<int, nat>) returns (fd: nat)
    ensures fd !in fds
  {
    var n := |fds.Keys|;
    var numbers := seq(n + 1, k => k);
    if forall k :: 0 <= k <= n ==> k in fds.Keys {
      forall k | 0 <= k < |numbers| ensures numbers[k] in fds.Keys {}
      I.Pigeonhole(numbers, fds.Keys);
    }
    fd :| 0 <= fd <= n && fd !in fds.Keys;
  }

  /** The dispatcher has a message to take or is handling one. */
  predicate DispatcherBusy(s: State) { !s.dpc.Head? || s.pipe != [] }

  /** A step of the server; but not the end of a shutdown, which waits until no file is open: this machine does not
      know when that is. */
  predicate Serves(s: State, a: Action)
    requires Sound(s)
  {
    (a.Dispatch? || (a.Work? && !AwaitsClose(s, a.i))) && Step(s, a).Some?
  }

  /** Worker `i` is in tfs_destroy_after_all_closed. */
  predicate AwaitsClose(s: State, i: nat) { i < |s.slots| && s.slots[i].pc == ToRun(Shutdown) }

  /** A busy dispatcher can step, or waits for a mutex whose owner, a worker, can. */
  lemma DispatcherMoves(s: State)
    requires Inv(s) && !s.halted && !s.globalHeld && DispatcherBusy(s)
    ensures (exists fd :: Serves(s, Dispatch(fd))) || (s.dpc.PostLock? && Serves(s, Work(s.dpc.i, 0)))
  {
    match s.dpc
    case Head =>
      var c := HeadSender(s);
      var fd := UnusedDescriptor(s.fds);
      assert Serves(s, Dispatch(fd));
    case PostLock(i, _, _) =>
      assert SlotOk(s, i);
      if !s.slots[i].holder.ByWorker? { assert Serves(s, Dispatch(0)); }
    case _ =>
      assert Serves(s, Dispatch(0));
  }

  /** A worker with a request can step, or waits for its mutex, whose owner, the dispatcher, can. */
  lemma WorkerMoves(s: State, i: nat, c: nat)
    requires Inv(s) && !s.halted && !s.globalHeld && i < S && s.slots[i].tenant == Some(c)
    requires c < |s.clients| && s.clients[c].stage.Boxed?
    ensures Step(s, Work(i, 0)).Some? || Serves(s, Dispatch(0))
  {
    assert SlotOk(s, i);
  }

  /** The request of `c` is a shutdown that its worker has begun. */
  ghost predicate ShuttingDown(s: State, c: nat) {
    exists i :: 0 <= i < |s.slots| && s.slots[i].tenant == Some(c) && AwaitsClose(s, i)
  }

  /** Unless the process has ended or global_mutex was left locked, whenever a request is in the pipe, with the
      dispatcher or in a slot, a step of the dispatcher or of a worker is enabled that is not the end of a shutdown;
      or the request is a shutdown itself, and has begun. */
  lemma RequestsMoveOn(n: nat, actions: seq<Action>, c: nat)
    requires Execute(Initial(n), actions).Some? && c < n
    requires var s := Execute(Initial(n), actions).value; !s.halted && !s.globalHeld
    requires Underway(Execute(Initial(n), actions).value.clients[c].stage)
    ensures var s := Execute(Initial(n), actions).value;
            (exists a: Action :: Serves(s, a)) || ShuttingDown(s, c)
  {
    TracedAlways(n, actions);
    MovesOn(Execute(Initial(n), actions).value, c);
  }

  lemma MovesOn(s: State, c: nat)
    requires Inv(s) && AllTraced(s) && !s.halted && !s.globalHeld && c < |s.clients| && Underway(s.clients[c].stage)
    ensures (exists a: Action :: Serves(s, a)) || ShuttingDown(s, c)
  {
    assert Traced(s, c);
    if s.clients[c].stage.Boxed? {
      var i :| 0 <= i < S && s.slots[i].tenant == Some(c);
      WorkerMoves(s, i, c);
      assert AwaitsClose(s, i) || Serves(s, Work(i, 0)) || Serves(s, Dispatch(0));
    } else {
      DispatcherMoves(s);
    }
  }

  // ----- How soon the dispatcher gets to it -----

  /** Steps to the head of the dispatch loop, at most. */
  function Left(dpc: DispatcherPc): nat {
    match dpc
    case Head => 0
    case MountTest(_, _) => 8
    case MountFind(_, _) => 7
    case PostLock(_, _, _) => 6
    case PostOp(_, _, _) => 5
    case PostArgs(_, _, _) => 4
    case PostWake(_, _, _) => 3
    case PostUnlock(_, _) => 2
    case _ => 1
  }

  /** The first message of `c` in the pipe at or after `from`, or |pipe|. */
  function Place(s: State, c: nat, from: nat := 0): (k: nat)
    requires from <= |s.pipe|
    ensures from <= k <= |s.pipe|
    ensures k < |s.pipe| ==> Sender(s, s.pipe[k]) == Some(c)
    ensures forall j :: from <= j < k ==> Sender(s, s.pipe[j]) != Some(c)
    decreases |s.pipe| - from
  {
    if from == |s.pipe| || Sender(s, s.pipe[from]) == Some(c) then from else Place(s, c, from + 1)
  }

  /** The request of `c` is in the pipe or with the dispatcher. */
  predicate Undelivered(s: State, c: nat) {
    c < |s.clients| && (s.clients[c].stage.Queued? || s.clients[c].stage.OnDesk?)
  }

  /** Nine steps for each message up to its own, and what is left of the present one. */
  function Delay(s: State, c: nat): nat
    requires Undelivered(s, c)
  {
    Left(s.dpc) + if s.clients[c].stage.Queued? then 9 * (Place(s, c) + 1) else 0
  }

  lemma PlaceIs(s: State, c: nat, k: nat)
    requires PipeOk(s) && k < |s.pipe| && Sender(s, s.pipe[k]) == Some(c)
    ensures Place(s, c) == k
  {
  }

  /** The message of a client that stays queued moves up when the dispatcher takes one, and otherwise stays. */
  lemma PlaceMoves(s: State, a: Action, c: nat)
    requires Inv(s) && CountOk(s) && AllTraced(s) && Step(s, a).Some? && c < |s.clients|
    requires s.clients[c].stage.Queued? && Step(s, a).value.clients[c].stage.Queued?
    ensures Place(Step(s, a).value, c) == Place(s, c) - if a.Dispatch? && s.dpc.Head? then 1 else 0
  {
    assert Traced(s, c);
    var k :| 0 <= k < |s.pipe| && Sender(s, s.pipe[k]) == Some(c);
    PlaceIs(s, c, k);
    var j := MessageMoves(s, a, k, c);
    StepKeeps(s, a);
    PlaceIs(Step(s, a).value, c, j);
  }

  lemma MessageMoves(s: State, a: Action, k: nat, c: nat) returns (j: nat)
    requires Inv(s) && CountOk(s) && Step(s, a).Some? && k < |s.pipe| && Sender(s, s.pipe[k]) == Some(c)
    requires c < |s.clients| && s.clients[c].stage.Queued? && Step(s, a).value.clients[c].stage.Queued?
    ensures j == k - if a.Dispatch? && s.dpc.Head? then 1 else 0
    ensures var r := Step(s, a).value; j < |r.pipe| && Sender(r, r.pipe[j]) == Some(c)
  {
    QueuedSenderStays(s, a, s.pipe[k], c);
    if a.Dispatch? && s.dpc.Head? {
      TakenIsHandled(s, a.fd);
      j := k - 1;
    } else {
      PipeGrows(s, a);
      j := k;
    }
    assert Step(s, a).value.pipe[j] == s.pipe[k];
  }

  lemma PipeGrows(s: State, a: Action)
    requires Sound(s) && Step(s, a).Some? && !(a.Dispatch? && s.dpc.Head?)
    ensures s.pipe <= Step(s, a).value.pipe
  {
  }

  /** A queued client keeps its slot, if it has one. */
  lemma QueuedKeepsSlot(s: State, a: Action, i: nat, c: nat)
    requires Inv(s) && Step(s, a).Some? && i < S && s.slots[i].tenant == Some(c)
    requires c < |s.clients| && s.clients[c].stage.Queued?
    ensures Step(s, a).value.slots[i].tenant == Some(c)
  {
    assert SlotOk(s, i);
    match a
    case Work(j, result) => WorkKeepsQueuedSlot(s, j, result, i, c);
    case Dispatch(fd) => DispatchKeepsSlot(s, fd, i, c);
    case _ => assert Step(s, a).value.slots[i].tenant == s.slots[i].tenant;
  }

  lemma WorkKeepsQueuedSlot(s: State, j: nat, result: int, i: nat, c: nat)
    requires Inv(s) && WorkStep(s, j, result).Some? && i < S && s.slots[i].tenant == Some(c)
    requires c < |s.clients| && s.clients[c].stage.Queued?
    ensures WorkStep(s, j, result).value.slots[i].tenant == Some(c)
  {
    match s.slots[j].pc
    case ToRun(job) => RunStepShape(s, j, job, result);
    case ToFree => var t := BusyHasTenant(s, j);
    case _ =>
  }

  lemma DispatchKeepsSlot(s: State, fd: int, i: nat, c: nat)
    requires Inv(s) && DispatchStep(s, fd).Some? && i < S && s.slots[i].tenant == Some(c)
    ensures DispatchStep(s, fd).value.slots[i].tenant == Some(c)
  {
    match s.dpc
    case Head => assert TakeMessage(s, fd).value.slots == s.slots;
    case MountTest(_, _) => assert DispatchStep(s, fd).value.slots == s.slots;
    case MountFind(_, _) => assert SlotOk(s, i);
    case PostWake(_, _, _) => WakeKeepsTenants(s, i);
    case CountUp(_) => assert DispatchStep(s, fd).value.slots == s.slots;
    case CountDown(_) => assert DispatchStep(s, fd).value.slots == s.slots;
    case _ => PostKeepsTenants(s, i);
  }

  lemma WakeKeepsTenants(s: State, i: nat)
    requires Sound(s) && s.dpc.PostWake? && DispatchStep(s, 0).Some? && i < S
    ensures DispatchStep(s, 0).value.slots[i].tenant == s.slots[i].tenant
  {
    assert SetStage(s, s.slots[s.dpc.i].tenant, Boxed).slots == s.slots;
  }

  lemma PostKeepsTenants(s: State, i: nat)
    requires Sound(s) && (PostPc(s.dpc) || s.dpc.PostUnlock?) && DispatchStep(s, 0).Some? && i < S
    ensures DispatchStep(s, 0).value.slots[i].tenant == s.slots[i].tenant
  {
    var j := s.dpc.i;
    assert DispatchStep(s, 0).value.slots[j].tenant == s.slots[j].tenant;
  }

  lemma QueuedSenderStays(s: State, a: Action, m: Message, c: nat)
    requires Inv(s) && Step(s, a).Some? && Sender(s, m) == Some(c) && c < |s.clients| && s.clients[c].stage.Queued?
    ensures Sender(Step(s, a).value, m) == Some(c)
  {
    if !m.MountMsg? { QueuedKeepsSlot(s, a, m.sid, c); }
  }

  /** A step of the dispatcher brings the request nearer, no other step sets it back. */
  lemma DelayShrinks(s: State, a: Action, c: nat)
    requires Inv(s) && CountOk(s) && AllTraced(s) && Step(s, a).Some?
    requires Undelivered(s, c) && Undelivered(Step(s, a).value, c)
    ensures Delay(Step(s, a).value, c) + (if a.Dispatch? then 1 else 0) <= Delay(s, c)
  {
    var r := Step(s, a).value;
    LeftShrinks(s, a);
    if s.clients[c].stage.Queued? && r.clients[c].stage.Queued? {
      PlaceMoves(s, a, c);
    } else if s.clients[c].stage.OnDesk? {
      DeskStays(s, a, c);
    }
  }

  /** Outside the head of the loop each step is one fewer; from there at most eight follow. */
  lemma LeftShrinks(s: State, a: Action)
    requires Sound(s) && Step(s, a).Some?
    ensures var r := Step(s, a).value;
            if !a.Dispatch? then r.dpc == s.dpc
            else if s.dpc.Head? then Left(r.dpc) <= 8
            else Left(r.dpc) < Left(s.dpc)
  {
    if a.Work? && a.i < S && s.slots[a.i].pc.ToRun? { RunStepShape(s, a.i, s.slots[a.i].pc.job, a.result); }
  }

  /** A request with the dispatcher does not go back to the pipe, and the dispatcher is not at the head of its loop. */
  lemma DeskStays(s: State, a: Action, c: nat)
    requires Inv(s) && Step(s, a).Some? && Undelivered(Step(s, a).value, c)
    requires c < |s.clients| && s.clients[c].stage.OnDesk?
    ensures Step(s, a).value.clients[c].stage.OnDesk? && !s.dpc.Head?
  {
    assert Handled(s) == Some(c);
    match a
    case Dispatch(fd) => assert !DispatchStep(s, fd).value.clients[c].stage.Queued?;
    case Work(i, result) => WorkLeavesDesk(s, i, result, c);
    case SpuriousWakeUp(_) =>
    case _ => assert ClientOk(s, c);
  }

  lemma WorkLeavesDesk(s: State, i: nat, result: int, c: nat)
    requires Sound(s) && WorkStep(s, i, result).Some? && c < |s.clients| && s.clients[c].stage.OnDesk?
    ensures !WorkStep(s, i, result).value.clients[c].stage.Queued?
  {
    match s.slots[i].pc
    case ToRun(job) => RunStepShape(s, i, job, result);
    case _ =>
  }

  function DispatcherSteps(actions: seq<Action>): nat
    decreases |actions|
  {
    if actions == [] then 0
    else DispatcherSteps(actions[..|actions| - 1]) + if actions[|actions| - 1].Dispatch? then 1 else 0
  }

  ghost predicate StaysUndelivered(s: State, rest: seq<Action>, c: nat)
    requires Sound(s)
  {
    forall k :: 0 <= k <= |rest| ==> Execute(s, rest[..k]).Some? && Undelivered(Execute(s, rest[..k]).value, c)
  }

  lemma {:induction false} DeliveredFrom(s: State, rest: seq<Action>, c: nat)
    requires Inv(s) && CountOk(s) && AllTraced(s) && StaysUndelivered(s, rest, c)
    ensures Execute(s, rest).Some? && Undelivered(s, c)
    ensures var r := Execute(s, rest).value;
            && Inv(r) && CountOk(r) && AllTraced(r) && Undelivered(r, c)
            && DispatcherSteps(rest) + Delay(r, c) <= Delay(s, c)
    decreases |rest|
  {
    assert rest[..|rest|] == rest && rest[..0] == [];
    if rest != [] {
      var front, a := rest[..|rest| - 1], rest[|rest| - 1];
      assert forall k :: 0 <= k <= |front| ==> front[..k] == rest[..k];
      DeliveredFrom(s, front, c);
      var m := Execute(s, front).value;
      StepKeeps(m, a);
      CountStepKeeps(m, a);
      StepTraced(m, a);
      DelayShrinks(m, a, c);
    }
  }

  /** In any run: a request with `k` messages ahead of it in the pipe is in its client's slot, or refused, after at
      most 9k + 17 steps of the dispatcher, whatever the others do. */
  lemma DeliveredSoon(n: nat, before: seq<Action>, rest: seq<Action>, c: nat)
    requires Execute(Initial(n), before).Some? && c < n
    requires StaysUndelivered(Execute(Initial(n), before).value, rest, c)
    ensures var s := Execute(Initial(n), before).value;
            DispatcherSteps(rest) <= 8 + if s.clients[c].stage.Queued? then 9 * (Place(s, c) + 1) else 0
  {
    TracedAlways(n, before);
    DeliveredFrom(Execute(Initial(n), before).value, rest, c);
  }

  // ----- How soon the worker executes it -----

  /** `c`'s job is in slot `i` and has not been executed. */
  predicate Pending(s: State, i: nat, c: nat) {
    && i < |s.slots| && s.slots[i].tenant == Some(c) && c < |s.clients| && s.clients[c].stage.Boxed?
    && s.clients[c].sent != [] && s.clients[c].ran == Front(s.clients[c].sent)
  }

  /** Steps of the worker up to the execution. */
  function Todo(pc: WorkerPc): nat {
    match pc
    case Testing => 5
    case ToUnlock => 4
    case ToReadOp => 3
    case ToReadArgs(_) => 2
    case ToRun(_) => 1
    case _ => 6
  }

  lemma DispatchRunsNothing(s: State, fd: int, c: nat)
    requires Sound(s) && DispatchStep(s, fd).Some? && c < |s.clients|
    ensures DispatchStep(s, fd).value.clients[c].ran == s.clients[c].ran
  {
  }

  lemma WorkRunsOneJob(s: State, i: nat, result: int, c: nat)
    requires Sound(s) && WorkStep(s, i, result).Some? && c < |s.clients|
    ensures |WorkStep(s, i, result).value.clients[c].ran| >= |s.clients[c].ran|
  {
    match s.slots[i].pc
    case ToRun(job) => RunRunsOneJob(s, i, job, result, c);
    case _ =>
  }

  lemma RunRunsOneJob(s: State, i: nat, job: Job, result: int, c: nat)
    requires Sound(s) && i < S && RunStep(s, i, job, result).Some? && c < |s.clients|
    ensures |RunStep(s, i, job, result).value.clients[c].ran| >= |s.clients[c].ran|
  {
    RecordGrows(s, if job.Mount? then s.slots[i].request.fcli else s.slots[i].fhandler, job, c);
  }

  lemma RecordGrows(s: State, fd: int, job: Job, c: nat)
    requires c < |s.clients|
    ensures |Record(s, fd, job).clients| == |s.clients| && |Record(s, fd, job).clients[c].ran| >= |s.clients[c].ran|
  {
  }

  /** Jobs executed for a client stay executed. */
  lemma RanOnlyGrows(s: State, a: Action, c: nat)
    requires Sound(s) && Step(s, a).Some? && c < |s.clients|
    ensures |Step(s, a).value.clients[c].ran| >= |s.clients[c].ran|
  {
    match a
    case Dispatch(fd) => DispatchRunsNothing(s, fd, c);
    case Work(i, result) => WorkRunsOneJob(s, i, result, c);
    case SpuriousWakeUp(_) =>
    case _ => assert ClientStep(s, a).value.clients[c].ran == s.clients[c].ran;
  }

  predicate WorkOf(a: Action, i: nat) { a.Work? && a.i == i }

  /** Each step of the worker brings the execution nearer, no other step sets it back. */
  lemma TodoShrinks(s: State, a: Action, i: nat, c: nat)
    requires Inv(s) && Pending(s, i, c) && Step(s, a).Some?
    requires |Step(s, a).value.clients[c].ran| == |s.clients[c].ran|
    ensures var r := Step(s, a).value;
            Pending(r, i, c) && Todo(r.slots[i].pc) + (if WorkOf(a, i) then 1 else 0) <= Todo(s.slots[i].pc)
  {
    TenantElsewhere(s, i, c);
    match a
    case Dispatch(fd) => DispatchLeavesPending(s, fd, i, c);
    case Work(j, result) => if j == i { OwnWork(s, i, c, result); } else { OtherWork(s, j, i, c, result); }
    case SpuriousWakeUp(j) =>
    case _ =>
  }

  lemma DispatchLeavesPending(s: State, fd: int, i: nat, c: nat)
    requires Inv(s) && Pending(s, i, c) && DispatchStep(s, fd).Some?
    ensures var r := DispatchStep(s, fd).value; Pending(r, i, c) && r.slots[i].pc == s.slots[i].pc
  {
    TenantElsewhere(s, i, c);
    match s.dpc
    case Head => TakeLeavesPending(s, fd, i, c);
    case MountTest(_, _) => MountLeavesPending(s, i, c);
    case MountFind(_, _) => MountLeavesPending(s, i, c);
    case _ => PostLeavesPending(s, i, c);
  }

  lemma TakeLeavesPending(s: State, fd: int, i: nat, c: nat)
    requires Inv(s) && Pending(s, i, c) && s.dpc.Head? && TakeMessage(s, fd).Some?
    ensures var r := TakeMessage(s, fd).value; Pending(r, i, c) && r.slots[i].pc == s.slots[i].pc
  {
    var t := HeadSender(s);
  }

  lemma MountLeavesPending(s: State, i: nat, c: nat)
    requires Inv(s) && Pending(s, i, c) && (s.dpc.MountTest? || s.dpc.MountFind?) && DispatchStep(s, 0).Some?
    ensures var r := DispatchStep(s, 0).value; Pending(r, i, c) && r.slots[i].pc == s.slots[i].pc
  {
    assert SlotOk(s, i);
  }

  lemma PostLeavesPending(s: State, i: nat, c: nat)
    requires Inv(s) && Pending(s, i, c) && DispatchStep(s, 0).Some?
    requires !s.dpc.Head? && !s.dpc.MountTest? && !s.dpc.MountFind?
    ensures var r := DispatchStep(s, 0).value; Pending(r, i, c) && r.slots[i].pc == s.slots[i].pc
  {
    TenantElsewhere(s, i, c);
  }

  /** The step that executes the job makes `ran` longer; the others leave the clients alone. */
  lemma OwnWork(s: State, i: nat, c: nat, result: int)
    requires Inv(s) && Pending(s, i, c) && WorkStep(s, i, result).Some?
    requires |WorkStep(s, i, result).value.clients[c].ran| == |s.clients[c].ran|
    ensures var r := WorkStep(s, i, result).value; Pending(r, i, c) && Todo(r.slots[i].pc) < Todo(s.slots[i].pc)
  {
    TenantElsewhere(s, i, c);
    if s.slots[i].pc.ToRun? {
      RunIsRecorded(s, i, c, s.slots[i].pc.job, result);
    }
  }

  lemma RunIsRecorded(s: State, i: nat, c: nat, job: Job, result: int)
    requires Inv(s) && Pending(s, i, c) && s.slots[i].pc == ToRun(job) && RunStep(s, i, job, result).Some?
    ensures |RunStep(s, i, job, result).value.clients[c].ran| > |s.clients[c].ran|
  {
    TenantElsewhere(s, i, c);
    var k := s.clients[c];
    JobIsKnown(k);
    if !k.pc.AwaitMount? { JobRan(k); }
    assert Leads(s, if job.Mount? then s.slots[i].request.fcli else s.slots[i].fhandler, c);
  }

  lemma OtherWork(s: State, j: nat, i: nat, c: nat, result: int)
    requires Inv(s) && Pending(s, i, c) && j != i && WorkStep(s, j, result).Some?
    requires |WorkStep(s, j, result).value.clients[c].ran| == |s.clients[c].ran|
    ensures var r := WorkStep(s, j, result).value; Pending(r, i, c) && r.slots[i].pc == s.slots[i].pc
  {
    TenantElsewhere(s, i, c);
    match s.slots[j].pc
    case ToRun(job) => OtherRun(s, j, job, i, c, result);
    case ToReply(_, _) => OtherReply(s, j, i, c, result);
    case ToFree => var d := BusyHasTenant(s, j);
    case _ =>
  }

  lemma OtherRun(s: State, j: nat, job: Job, i: nat, c: nat, result: int)
    requires Inv(s) && Pending(s, i, c) && j < S && j != i && RunStep(s, j, job, result).Some?
    requires |RunStep(s, j, job, result).value.clients[c].ran| == |s.clients[c].ran|
    ensures var r := RunStep(s, j, job, result).value; Pending(r, i, c) && r.slots[i].pc == s.slots[i].pc
  {
    RunStepShape(s, j, job, result);
    RecordSame(s, if job.Mount? then s.slots[j].request.fcli else s.slots[j].fhandler, job, c);
  }

  lemma RecordSame(s: State, fd: int, job: Job, c: nat)
    requires c < |s.clients|
    ensures var r := Record(s, fd, job);
            |r.clients| == |s.clients| && (|r.clients[c].ran| == |s.clients[c].ran| ==> r.clients[c] == s.clients[c])
  {
  }

  lemma OtherReply(s: State, j: nat, i: nat, c: nat, result: int)
    requires Inv(s) && Pending(s, i, c) && j != i && WorkStep(s, j, result).Some? && s.slots[j].pc.ToReply?
    ensures var r := WorkStep(s, j, result).value; Pending(r, i, c) && r.slots[i].pc == s.slots[i].pc
  {
    var d := BusyHasTenant(s, j);
    TenantElsewhere(s, j, d);
    JobIsKnown(s.clients[d]);
  }

  function StepsOf(actions: seq<Action>, i: nat): nat
    decreases |actions|
  {
    if actions == [] then 0
    else StepsOf(actions[..|actions| - 1], i) + if WorkOf(actions[|actions| - 1], i) then 1 else 0
  }

  lemma {:induction false} RunsFrom(s: State, rest: seq<Action>, i: nat, c: nat)
    requires Inv(s) && Pending(s, i, c) && Execute(s, rest).Some?
    requires |Execute(s, rest).value.clients[c].ran| <= |s.clients[c].ran|
    ensures var r := Execute(s, rest).value;
            && Inv(r) && Pending(r, i, c) && |r.clients[c].ran| == |s.clients[c].ran|
            && StepsOf(rest, i) + Todo(r.slots[i].pc) <= Todo(s.slots[i].pc)
    decreases |rest|
  {
    if rest != [] {
      var front, a := rest[..|rest| - 1], rest[|rest| - 1];
      var m := Execute(s, front).value;
      RanOnlyGrows(m, a, c);
      RunsFrom(s, front, i, c);
      StepKeeps(m, a);
      TodoShrinks(m, a, i, c);
    }
  }

  /** In any run: once the worker of a posted request has taken five steps, it has the request as it was meant and is
      about to execute it, or has executed it, whatever the others do. */
  lemma TakenSoon(n: nat, before: seq<Action>, rest: seq<Action>, i: nat, c: nat)
    requires Execute(Initial(n), before).Some? && Pending(Execute(Initial(n), before).value, i, c)
    requires Execute(Execute(Initial(n), before).value, rest).Some? && StepsOf(rest, i) >= 5
    ensures var s, r := Execute(Initial(n), before).value, Execute(Execute(Initial(n), before).value, rest).value;
            || |r.clients[c].ran| > |s.clients[c].ran|
            || (Pending(r, i, c) && r.slots[i].pc == ToRun(Last(r.clients[c].sent)))
  {
    Reachable(n, before);
    var s, r := Execute(Initial(n), before).value, Execute(Execute(Initial(n), before).value, rest).value;
    if |r.clients[c].ran| <= |s.clients[c].ran| {
      RunsFrom(s, rest, i, c);
      assert SlotOk(r, i);
    }
  }

  /** ... and one more step executes it, the call into the file system counted as one. A shutdown is left out: from
      here it waits until no file is open, and Shutdown.DestroyersReturn says what follows. */
  lemma ExecutedSoon(n: nat, before: seq<Action>, rest: seq<Action>, i: nat, c: nat)
    requires Execute(Initial(n), before).Some? && Pending(Execute(Initial(n), before).value, i, c)
    requires !Last(Execute(Initial(n), before).value.clients[c].sent).Shutdown?
    requires Execute(Execute(Initial(n), before).value, rest).Some? && StepsOf(rest, i) >= 6
    ensures var s, r := Execute(Initial(n), before).value, Execute(Execute(Initial(n), before).value, rest).value;
            |r.clients[c].ran| > |s.clients[c].ran|
  {
    Reachable(n, before);
    var s, r := Execute(Initial(n), before).value, Execute(Execute(Initial(n), before).value, rest).value;
    if |r.clients[c].ran| <= |s.clients[c].ran| {
      RunsFrom(s, rest, i, c);
    }
  }

  // ----- How soon the client is answered -----

  /** The dispatcher moves no worker; it may signal one that waits. */
  lemma DispatchOnlySignals(s: State, fd: int, i: nat)
    requires Sound(s) && DispatchStep(s, fd).Some? && i < S
    ensures var w, q := s.slots[i], DispatchStep(s, fd).value.slots[i];
            && (q.pc == w.pc || (w.pc.Waiting? && q.pc.Waiting?))
            && (q.tenant == w.tenant || w.free || !s.dpc.MountFind?)
  {
    if s.dpc.Head? {
      assert TakeMessage(s, fd).value.slots == s.slots;
    } else if s.dpc.PostWake? {
      assert SetStage(s, s.slots[s.dpc.i].tenant, Boxed).slots == s.slots;
    } else if s.dpc.MountTest? || s.dpc.CountUp? || s.dpc.CountDown? {
      assert DispatchStep(s, fd).value.slots == s.slots;
    }
  }

  lemma DispatchKeepsTenant(s: State, fd: int, i: nat)
    requires Sound(s) && DispatchStep(s, fd).Some? && i < S && !s.dpc.MountFind?
    ensures DispatchStep(s, fd).value.slots[i].tenant == s.slots[i].tenant
  {
    if s.dpc.Head? { assert TakeMessage(s, fd).value.slots == s.slots; }
    else if s.dpc.PostWake? { WakeKeepsTenants(s, i); }
    else if PostPc(s.dpc) || s.dpc.PostUnlock? { PostKeepsTenants(s, i); }
    else { assert DispatchStep(s, fd).value.slots == s.slots; }
  }

  lemma SlotAlone(s: State, j: nat, result: int, i: nat)
    requires Sound(s) && WorkStep(s, j, result).Some? && i < S && i != j
    ensures WorkStep(s, j, result).value.slots[i] == s.slots[i]
  {
    match s.slots[j].pc
    case ToRun(job) => RecordOnlyRan(s, if job.Mount? then s.slots[j].request.fcli else s.slots[j].fhandler, job);
    case ToReply(job, r) => assert forall fd: int, reply :: Deliver(s, fd, reply).slots == s.slots;
    case ToFree => assert SetStage(s, s.slots[j].tenant, Over).slots == s.slots;
    case _ =>
  }

  /** A worker about to reply is left alone by everybody else. */
  lemma ReplyWaits(s: State, a: Action, i: nat)
    requires Inv(s) && Step(s, a).Some? && i < S && s.slots[i].pc.ToReply? && !WorkOf(a, i)
    ensures var q := Step(s, a).value.slots[i]; q.pc == s.slots[i].pc && q.tenant == s.slots[i].tenant
  {
    assert SlotOk(s, i);
    match a
    case Dispatch(fd) =>
      DispatchOnlySignals(s, fd, i);
      if !s.dpc.MountFind? { DispatchKeepsTenant(s, fd, i); }
    case Work(j, result) => SlotAlone(s, j, result, i);
    case SpuriousWakeUp(_) =>
    case _ => assert ClientStep(s, a).value.slots == s.slots;
  }

  /** A client waiting for its worker sends nothing. */
  lemma SentKept(s: State, a: Action, c: nat)
    requires Inv(s) && Step(s, a).Some? && c < |s.clients| && s.clients[c].stage.Boxed?
    ensures Step(s, a).value.clients[c].sent == s.clients[c].sent
  {
    assert ClientOk(s, c);
    match a
    case Dispatch(fd) => DispatchSendsNothing(s, fd, c);
    case Work(j, result) => WorkSendsNothing(s, j, result, c);
    case SpuriousWakeUp(_) =>
    case _ =>
  }

  lemma DispatchSendsNothing(s: State, fd: int, c: nat)
    requires Sound(s) && DispatchStep(s, fd).Some? && c < |s.clients|
    ensures DispatchStep(s, fd).value.clients[c].sent == s.clients[c].sent
  {
  }

  lemma WorkSendsNothing(s: State, i: nat, result: int, c: nat)
    requires Sound(s) && WorkStep(s, i, result).Some? && c < |s.clients|
    ensures WorkStep(s, i, result).value.clients[c].sent == s.clients[c].sent
  {
    if s.slots[i].pc.ToRun? { RunStepShape(s, i, s.slots[i].pc.job, result); }
  }

  /** A worker executes jobs for its own tenant only. */
  lemma OthersRunNothing(s: State, a: Action, i: nat, c: nat)
    requires Inv(s) && Step(s, a).Some? && i < S && s.slots[i].tenant == Some(c) && c < |s.clients| && !WorkOf(a, i)
    ensures Step(s, a).value.clients[c].ran == s.clients[c].ran
  {
    TenantElsewhere(s, i, c);
    match a
    case Dispatch(fd) => DispatchRunsNothing(s, fd, c);
    case Work(j, result) => RunsForTenant(s, j, result, c);
    case SpuriousWakeUp(_) =>
    case _ => assert ClientStep(s, a).value.clients[c].ran == s.clients[c].ran;
  }

  lemma RunsForTenant(s: State, j: nat, result: int, c: nat)
    requires Inv(s) && WorkStep(s, j, result).Some? && j < S
    requires c < |s.clients| && s.slots[j].tenant != Some(c)
    ensures WorkStep(s, j, result).value.clients[c].ran == s.clients[c].ran
  {
    if s.slots[j].pc.ToRun? { RunForTenant(s, j, s.slots[j].pc.job, result, c); }
  }

  lemma RunForTenant(s: State, j: nat, job: Job, result: int, c: nat)
    requires Inv(s) && j < S && s.slots[j].pc == ToRun(job) && RunStep(s, j, job, result).Some?
    requires c < |s.clients| && s.slots[j].tenant != Some(c)
    ensures RunStep(s, j, job, result).value.clients[c].ran == s.clients[c].ran
  {
    var d := BusyHasTenant(s, j);
    TenantElsewhere(s, j, d);
    JobIsKnown(s.clients[d]);
    if !job.Mount? { JobRan(s.clients[d]); }
    assert Leads(s, if job.Mount? then s.slots[j].request.fcli else s.slots[j].fhandler, d);
  }

  /** `c`'s job is in slot `i` and has not been answered. */
  predicate Unanswered(s: State, i: nat, c: nat) {
    && i < |s.slots| && s.slots[i].tenant == Some(c) && c < |s.clients| && s.clients[c].stage.Boxed?
    && s.clients[c].sent != [] && !Last(s.clients[c].sent).Unmount?
  }

  /** Steps of the worker up to the answer. */
  function ToAnswer(pc: WorkerPc): nat { if pc.ToReply? then 1 else Todo(pc) + 1 }

  /** The client has the reply to `job`. */
  predicate HasReply(s: State, c: nat, job: Job) {
    c < |s.clients| && s.clients[c].stage.Answered? && |s.clients[c].replies| == 1 && s.clients[c].replies[0].job == job
  }

  /** Each step of the worker brings the answer nearer, no other step sets it back. */
  lemma AnswerNearer(s: State, a: Action, i: nat, c: nat)
    requires Inv(s) && Unanswered(s, i, c) && Step(s, a).Some?
    ensures var r, job := Step(s, a).value, Last(s.clients[c].sent);
            || HasReply(r, c, job)
            || (Unanswered(r, i, c) && Last(r.clients[c].sent) == job
                && ToAnswer(r.slots[i].pc) + (if WorkOf(a, i) then 1 else 0) <= ToAnswer(s.slots[i].pc))
  {
    StepKeeps(s, a);
    SentKept(s, a, c);
    TenantElsewhere(s, i, c);
    if s.slots[i].pc.ToReply? {
      ReplyNearer(s, a, i, c);
    } else if |Step(s, a).value.clients[c].ran| == |s.clients[c].ran| {
      TodoShrinks(s, a, i, c);
      assert SlotOk(Step(s, a).value, i);
    } else if WorkOf(a, i) {
      OwnRun(s, i, c, a.result);
    } else {
      OthersRunNothing(s, a, i, c);
    }
  }

  lemma ReplyNearer(s: State, a: Action, i: nat, c: nat)
    requires Inv(s) && Unanswered(s, i, c) && Step(s, a).Some? && s.slots[i].pc.ToReply? && Inv(Step(s, a).value)
    requires Step(s, a).value.clients[c].sent == s.clients[c].sent
    ensures var r := Step(s, a).value;
            if WorkOf(a, i) then HasReply(r, c, Last(s.clients[c].sent))
            else Unanswered(r, i, c) && r.slots[i].pc == s.slots[i].pc
  {
    if WorkOf(a, i) {
      ReplyChanges(s, i, a.result, c);
    } else {
      ReplyWaits(s, a, i);
      assert SlotOk(Step(s, a).value, i);
    }
  }

  lemma OwnRun(s: State, i: nat, c: nat, result: int)
    requires Inv(s) && Unanswered(s, i, c) && WorkStep(s, i, result).Some? && !s.slots[i].pc.ToReply?
    requires |WorkStep(s, i, result).value.clients[c].ran| != |s.clients[c].ran|
    ensures var r := WorkStep(s, i, result).value;
            s.slots[i].pc.ToRun? && Unanswered(r, i, c) && r.slots[i].pc.ToReply?
  {
    TenantElsewhere(s, i, c);
    if s.slots[i].pc.ToRun? { RunStepShape(s, i, s.slots[i].pc.job, result); }
  }

  /** At some moment of `rest` the client has the reply to `job`. */
  ghost predicate AnsweredWithin(s: State, rest: seq<Action>, c: nat, job: Job)
    requires Sound(s)
  {
    exists m :: 0 <= m <= |rest| && Execute(s, rest[..m]).Some? && HasReply(Execute(s, rest[..m]).value, c, job)
  }

  lemma {:induction false} AnsweredFrom(s: State, rest: seq<Action>, i: nat, c: nat)
    requires Inv(s) && Unanswered(s, i, c) && Execute(s, rest).Some?
    ensures var r, job := Execute(s, rest).value, Last(s.clients[c].sent);
            || AnsweredWithin(s, rest, c, job)
            || (Inv(r) && Unanswered(r, i, c) && Last(r.clients[c].sent) == job
                && StepsOf(rest, i) + ToAnswer(r.slots[i].pc) <= ToAnswer(s.slots[i].pc))
    decreases |rest|
  {
    if rest != [] {
      var front, a, job := rest[..|rest| - 1], rest[|rest| - 1], Last(s.clients[c].sent);
      AnsweredFrom(s, front, i, c);
      if AnsweredWithin(s, front, c, job) {
        var m :| 0 <= m <= |front| && Execute(s, front[..m]).Some? && HasReply(Execute(s, front[..m]).value, c, job);
        assert front[..m] == rest[..m];
      } else {
        var m := Execute(s, front).value;
        AnswerNearer(m, a, i, c);
        StepKeeps(m, a);
        assert rest[..|rest|] == rest;
      }
    }
  }

  /** In any run: a posted request other than a shutdown or an unmount has been answered once its worker has taken
      seven steps, whatever the others do. */
  lemma AnsweredSoon(n: nat, before: seq<Action>, rest: seq<Action>, i: nat, c: nat)
    requires Execute(Initial(n), before).Some? && Pending(Execute(Initial(n), before).value, i, c)
    requires var job := Last(Execute(Initial(n), before).value.clients[c].sent); !job.Shutdown? && !job.Unmount?
    requires Execute(Execute(Initial(n), before).value, rest).Some? && StepsOf(rest, i) >= 7
    ensures var s := Execute(Initial(n), before).value; AnsweredWithin(s, rest, c, Last(s.clients[c].sent))
  {
    Reachable(n, before);
    AnsweredAfter(Execute(Initial(n), before).value, rest, i, c);
  }

  lemma AnsweredAfter(s: State, rest: seq<Action>, i: nat, c: nat)
    requires Inv(s) && Unanswered(s, i, c) && Execute(s, rest).Some?
    requires StepsOf(rest, i) >= ToAnswer(s.slots[i].pc)
    ensures AnsweredWithin(s, rest, c, Last(s.clients[c].sent))
  {
    AnsweredFrom(s, rest, i, c);
  }

  /** In any run: once a worker has executed a job that is answered, of any kind, its next step answers the client. */
  lemma AnsweredNext(n: nat, before: seq<Action>, rest: seq<Action>, i: nat)
    requires Execute(Initial(n), before).Some? && i < S && Execute(Initial(n), before).value.slots[i].pc.ToReply?
    requires Execute(Execute(Initial(n), before).value, rest).Some? && StepsOf(rest, i) >= 1
    ensures var s := Execute(Initial(n), before).value;
            && s.slots[i].tenant.Some?
            && AnsweredWithin(s, rest, s.slots[i].tenant.value, s.slots[i].pc.answered)
  {
    Reachable(n, before);
    var s := Execute(Initial(n), before).value;
    var c := BusyHasTenant(s, i);
    AnsweredAfter(s, rest, i, c);
  }
}
