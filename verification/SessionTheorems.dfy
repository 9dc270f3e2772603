/** What the session machine guarantees in every reachable state. */
module SessionTheorems {
  import opened Config
  import opened Sessions
  import opened SessionInvariant
  import opened Counting

  // ----- Mailboxes -----

  lemma RecordOnlyRan(s: State, fd: int, job: Job)
    ensures var r := Record(s, fd, job);
            && r.slots == s.slots && r.dpc == s.dpc && |r.clients| == |s.clients| && r.openSessions == s.openSessions
            && forall c :: 0 <= c < |s.clients| ==>
                 r.clients[c].stage == s.clients[c].stage && r.clients[c].sent == s.clients[c].sent
  {
  }

  /** Executing a job moves neither requests, free marks and tenants nor any client's stage. */
  lemma RunStepShape(s: State, i: nat, job: Job, result: int)
    requires Sound(s) && i < S && RunStep(s, i, job, result).Some?
    ensures var r := RunStep(s, i, job, result).value;
            && r.dpc == s.dpc && r.openSessions == s.openSessions
            && (forall j :: 0 <= j < S ==>
                  && r.slots[j].request == s.slots[j].request && r.slots[j].free == s.slots[j].free
                  && r.slots[j].tenant == s.slots[j].tenant)
            && forall c :: 0 <= c < |s.clients| ==>
                 r.clients[c].stage == s.clients[c].stage && r.clients[c].sent == s.clients[c].sent
  {
    RecordOnlyRan(s, if job.Mount? then s.slots[i].request.fcli else s.slots[i].fhandler, job);
  }

  lemma WorkersLeaveRequests(s: State, i: nat, result: int)
    requires Sound(s) && WorkStep(s, i, result).Some?
    ensures forall j :: 0 <= j < S ==> WorkStep(s, i, result).value.slots[j].request == s.slots[j].request
  {
    match s.slots[i].pc
    case ToRun(job) => RunStepShape(s, i, job, result);
    case ToReply(job, answer) =>
      assert forall fd: int, reply :: Deliver(s, fd, reply).slots == s.slots;
    case _ =>
      assert forall stage :: SetStage(s, s.slots[i].tenant, stage).slots == s.slots;
  }

  /** Only the dispatcher's two writing steps change a request. */
  lemma RequestWriters(s: State, a: Action, i: nat)
    requires Sound(s) && i < S && Step(s, a).Some? && Step(s, a).value.slots[i].request != s.slots[i].request
    ensures (s.dpc.PostOp? || s.dpc.PostArgs?) && s.dpc.i == i
  {
    if a.Work? { WorkersLeaveRequests(s, a.i, a.result); }
  }

  lemma PosterSeesIdle(s: State, i: nat)
    requires Inv(s) && i < S && (s.dpc.PostOp? || s.dpc.PostArgs?) && s.dpc.i == i
    ensures Idle(s.slots[i])
  {
    assert SlotOk(s, i);
  }

  /** The dispatcher changes a slot's request only while nothing is posted there and its worker is not reading. */
  lemma NoOverwrite(n: nat, actions: seq<Action>, a: Action, i: nat)
    requires Execute(Initial(n), actions + [a]).Some? && i < S
    ensures Execute(Initial(n), actions).Some?
    ensures var s, r := Execute(Initial(n), actions).value, Execute(Initial(n), actions + [a]).value;
            r.slots[i].request != s.slots[i].request ==> !s.slots[i].wakeUp && !Busy(s.slots[i].pc)
  {
    assert (actions + [a])[..|actions|] == actions;
    Reachable(n, actions);
    var s := Execute(Initial(n), actions).value;
    if Step(s, a).value.slots[i].request != s.slots[i].request {
      RequestWriters(s, a, i);
      PosterSeesIdle(s, i);
    }
  }

  /** Every client's jobs are executed as sent and in order, none twice and none left out: at any moment those executed
      are all it has sent, or all but the last. All of them once it has received its reply, or its unmount is finished;
      none if its mount was refused. Where the last one is meanwhile, and that it is executed, is in SessionDelivery. */
  lemma ExactlyOnceInOrder(n: nat, actions: seq<Action>, c: nat)
    requires Execute(Initial(n), actions).Some? && c < n
    ensures var k := Execute(Initial(n), actions).value.clients[c];
            && k.ran <= k.sent && |k.sent| <= |k.ran| + 1
            && (k.pc.Ready? || (k.pc.Unmounted? && k.stage.Over?) ==> k.ran == k.sent)
            && (k.pc.Refused? ==> k.ran == [])
  {
    Reachable(n, actions);
    var s := Execute(Initial(n), actions).value;
    assert ClientOk(s, c);
  }

  /** A posted request is never left with its worker asleep and unsignalled. */
  lemma NoLostSignal(n: nat, actions: seq<Action>, i: nat)
    requires Execute(Initial(n), actions).Some? && i < S
    ensures var w := Execute(Initial(n), actions).value.slots[i];
            w.wakeUp ==> w.pc.ToLock? || w.pc.Testing? || w.pc == Waiting(true)
  {
    Reachable(n, actions);
    assert SlotOk(Execute(Initial(n), actions).value, i);
  }

  // ----- Isolation -----

  /** No two clients hold the same session. */
  lemma SessionsAreDisjoint(n: nat, actions: seq<Action>, c: nat, d: nat, sid: int)
    requires Execute(Initial(n), actions).Some? && c < n && d < n
    requires var s := Execute(Initial(n), actions).value; Claims(s.clients[c], sid) && Claims(s.clients[d], sid)
    ensures c == d
  {
    Reachable(n, actions);
    var s := Execute(Initial(n), actions).value;
    assert ClientOk(s, c) && ClientOk(s, d);
  }

  /** The descriptor of a slot leads to the client it was taken for, from the execution of its mount to the execution
      of its unmount. */
  lemma DescriptorIsTenants(n: nat, actions: seq<Action>, i: nat)
    requires Execute(Initial(n), actions).Some? && i < S
    ensures var s := Execute(Initial(n), actions).value;
            match s.slots[i].tenant
            case None => true
            case Some(c) => c < n && (Mounted(s.clients[c]) ==> Leads(s, s.slots[i].fhandler, c))
  {
    Reachable(n, actions);
    assert SlotOk(Execute(Initial(n), actions).value, i);
  }

  /** A worker's reply goes to the client whose last job it answers, which is waiting for it; to nobody else. */
  lemma RepliesReachTheirSender(n: nat, actions: seq<Action>, i: nat, result: int)
    requires Execute(Initial(n), actions).Some?
    requires var s := Execute(Initial(n), actions).value;
             !s.halted && i < S && s.slots[i].pc.ToReply? && Step(s, Work(i, result)).Some?
    ensures var s := Execute(Initial(n), actions).value;
            var r := Step(s, Work(i, result)).value;
            exists c :: 0 <= c < n && s.slots[i].tenant == Some(c) && s.clients[c].sent != []
              && (s.clients[c].pc.AwaitMount? || s.clients[c].pc == Await(i))
              && r.clients[c].replies == [Reply(Last(s.clients[c].sent), s.slots[i].pc.result)]
              && (forall d :: 0 <= d < n && d != c ==> r.clients[d] == s.clients[d])
  {
    Reachable(n, actions);
    var s := Execute(Initial(n), actions).value;
    var c := BusyHasTenant(s, i);
    TenantElsewhere(s, i, c);
    JobIsKnown(s.clients[c]);
  }

  // ----- Counting sessions -----

  /** The sessions `open_sessions` counts: a slot counts from the end of its mount's post to the end of its
      unmount's post. */
  predicate Counted(s: State, i: nat)
    requires i < |s.slots|
  {
    match s.dpc
    case PostLock(j, job, _) => if j == i && job.Mount? then false else !s.slots[i].free && !UnmountBoxed(s, i)
    case PostOp(j, job, _) => if j == i && job.Mount? then false else !s.slots[i].free && !UnmountBoxed(s, i)
    case PostArgs(j, job, _) => if j == i && job.Mount? then false else !s.slots[i].free && !UnmountBoxed(s, i)
    case PostWake(j, job, _) => if j == i && job.Mount? then false else !s.slots[i].free && !UnmountBoxed(s, i)
    case PostUnlock(j, job) =>
      if j == i && job.Mount? then false
      else if j == i && job.Unmount? then true
      else !s.slots[i].free && !UnmountBoxed(s, i)
    case CountUp(j) => j != i && !s.slots[i].free && !UnmountBoxed(s, i)
    case CountDown(j) => j == i || (!s.slots[i].free && !UnmountBoxed(s, i))
    case _ => !s.slots[i].free && !UnmountBoxed(s, i)
  }

  function Flags(s: State): (r: seq<bool>)
    ensures |r| == |s.slots| && forall i :: 0 <= i < |r| ==> r[i] == Counted(s, i)
  {
    seq(|s.slots|, i requires 0 <= i < |s.slots| => Counted(s, i))
  }

  ghost predicate CountOk(s: State) { s.openSessions == Count(Flags(s)) }

  /** The flags depend on the dispatcher, the free marks and the posted unmounts. */
  lemma SameFlagsIf(s: State, r: State)
    requires Sound(s) && Sound(r) && r.dpc == s.dpc
    requires forall j :: 0 <= j < S ==>
      (r.slots[j].free <==> s.slots[j].free) && (UnmountBoxed(r, j) <==> UnmountBoxed(s, j))
    ensures Flags(r) == Flags(s)
  {
  }

  lemma CountReplyKeeps(s: State, i: nat, result: int)
    requires Inv(s) && CountOk(s) && WorkStep(s, i, result).Some? && s.slots[i].pc.ToReply?
    ensures CountOk(WorkStep(s, i, result).value)
  {
    var r := WorkStep(s, i, result).value;
    var c := BusyHasTenant(s, i);
    TenantElsewhere(s, i, c);
    JobIsKnown(s.clients[c]);
    assert Leads(s, if Last(s.clients[c].sent).Mount? then s.slots[i].request.fcli else s.slots[i].fhandler, c);
    SameFlagsIf(s, r);
  }

  lemma CountRunKeeps(s: State, i: nat, job: Job, result: int)
    requires Inv(s) && CountOk(s) && i < S && RunStep(s, i, job, result).Some?
    ensures CountOk(RunStep(s, i, job, result).value)
  {
    RunStepShape(s, i, job, result);
    SameFlagsIf(s, RunStep(s, i, job, result).value);
  }

  /** Freeing the slot: it did not count any more, or the dispatcher has yet to count it down. */
  lemma CountFreeKeeps(s: State, i: nat, result: int)
    requires Inv(s) && CountOk(s) && WorkStep(s, i, result).Some? && s.slots[i].pc.ToFree?
    ensures CountOk(WorkStep(s, i, result).value)
  {
    var r := WorkStep(s, i, result).value;
    var c := BusyHasTenant(s, i);
    TenantElsewhere(s, i, c);
    assert UnmountBoxed(s, i) && r.slots[i].free;
    forall j | 0 <= j < S ensures Counted(r, j) == Counted(s, j) { assert SlotOk(s, j); }
    assert Flags(r) == Flags(s);
  }

  lemma CountQuietKeeps(s: State, i: nat, result: int)
    requires Inv(s) && CountOk(s) && WorkStep(s, i, result).Some? && QuietPc(s.slots[i].pc)
    ensures CountOk(WorkStep(s, i, result).value)
  {
    var r := WorkStep(s, i, result).value;
    assert r.clients == s.clients;
    SameFlagsIf(s, r);
  }

  lemma CountWorkKeeps(s: State, i: nat, result: int)
    requires Inv(s) && CountOk(s) && WorkStep(s, i, result).Some?
    ensures CountOk(WorkStep(s, i, result).value)
  {
    match s.slots[i].pc
    case ToRun(job) => CountRunKeeps(s, i, job, result);
    case ToReply(_, _) => CountReplyKeeps(s, i, result);
    case ToFree => CountFreeKeeps(s, i, result);
    case _ => CountQuietKeeps(s, i, result);
  }

  lemma CountClientKeeps(s: State, a: Action)
    requires Inv(s) && CountOk(s) && (a.SendMount? || a.SendJob? || a.SendUnmount? || a.Receive?)
    requires ClientStep(s, a).Some?
    ensures CountOk(ClientStep(s, a).value)
  {
    assert ClientOk(s, a.c);
    SameFlagsIf(s, ClientStep(s, a).value);
  }

  lemma CountUpKeeps(s: State)
    requires Inv(s) && CountOk(s) && s.dpc.CountUp? && DispatchStep(s, 0).Some?
    ensures CountOk(DispatchStep(s, 0).value)
  {
    assert SlotOk(s, s.dpc.i);
    assert Flags(DispatchStep(s, 0).value) == Flags(s)[s.dpc.i := true];
    CountUpdate(Flags(s), s.dpc.i, true);
  }

  lemma CountDownKeeps(s: State)
    requires Inv(s) && CountOk(s) && s.dpc.CountDown? && DispatchStep(s, 0).Some?
    ensures CountOk(DispatchStep(s, 0).value)
  {
    assert Flags(DispatchStep(s, 0).value) == Flags(s)[s.dpc.i := false];
    CountUpdate(Flags(s), s.dpc.i, false);
  }

  lemma CountDispatchKeeps(s: State, fd: int)
    requires Inv(s) && CountOk(s) && DispatchStep(s, fd).Some?
    ensures CountOk(DispatchStep(s, fd).value)
  {
    if s.dpc.CountUp? { CountUpKeeps(s); }
    else if s.dpc.CountDown? { CountDownKeeps(s); }
    else {
      SameFlags(s, fd);
      assert Flags(DispatchStep(s, fd).value) == Flags(s);
    }
  }

  lemma FlagsAfterTake(s: State, fd: int)
    requires Inv(s) && s.dpc.Head? && TakeMessage(s, fd).Some?
    ensures forall j :: 0 <= j < S ==> Counted(TakeMessage(s, fd).value, j) == Counted(s, j)
  {
    var c := HeadSender(s);
  }

  lemma FlagsAfterRefuse(s: State)
    requires Inv(s) && (s.dpc.MountTest? || s.dpc.MountFind?) && DispatchStep(s, 0).Some?
    ensures forall j :: 0 <= j < S ==> Counted(DispatchStep(s, 0).value, j) == Counted(s, j)
  {
    assert ClientOk(s, s.dpc.client);
  }

  lemma FlagsAfterWake(s: State)
    requires Inv(s) && s.dpc.PostWake? && DispatchStep(s, 0).Some?
    ensures forall j :: 0 <= j < S ==> Counted(DispatchStep(s, 0).value, j) == Counted(s, j)
  {
    var i := s.dpc.i;
    TenantElsewhere(s, i, s.slots[i].tenant.value);
  }

  lemma FlagsAfterPost(s: State)
    requires Inv(s) && PostPc(s.dpc) && DispatchStep(s, 0).Some?
    ensures forall j :: 0 <= j < S ==> Counted(DispatchStep(s, 0).value, j) == Counted(s, j)
  {
    var r := DispatchStep(s, 0).value;
    forall j | 0 <= j < S ensures Counted(r, j) == Counted(s, j) {
      assert r.slots[j].free == s.slots[j].free && UnmountBoxed(r, j) == UnmountBoxed(s, j);
    }
  }

  lemma FlagsAfterUnlock(s: State)
    requires Inv(s) && s.dpc.PostUnlock? && DispatchStep(s, 0).Some?
    ensures forall j :: 0 <= j < S ==> Counted(DispatchStep(s, 0).value, j) == Counted(s, j)
  {
    var r := DispatchStep(s, 0).value;
    forall j | 0 <= j < S ensures Counted(r, j) == Counted(s, j) {
      assert r.slots[j].free == s.slots[j].free && UnmountBoxed(r, j) == UnmountBoxed(s, j);
    }
  }

  lemma SameFlags(s: State, fd: int)
    requires Inv(s) && DispatchStep(s, fd).Some? && !s.dpc.CountUp? && !s.dpc.CountDown?
    ensures forall j :: 0 <= j < S ==> Counted(DispatchStep(s, fd).value, j) == Counted(s, j)
  {
    match s.dpc
    case Head => FlagsAfterTake(s, fd);
    case MountTest(_, _) => FlagsAfterRefuse(s);
    case MountFind(_, _) => FlagsAfterRefuse(s);
    case PostWake(_, _, _) => FlagsAfterWake(s);
    case PostUnlock(_, _) => FlagsAfterUnlock(s);
    case _ => FlagsAfterPost(s);
  }

  lemma CountStepKeeps(s: State, a: Action)
    requires Inv(s) && CountOk(s) && Step(s, a).Some?
    ensures CountOk(Step(s, a).value)
  {
    match a
    case Dispatch(fd) => CountDispatchKeeps(s, fd);
    case Work(i, result) => CountWorkKeeps(s, i, result);
    case SpuriousWakeUp(i) => SameFlagsIf(s, Step(s, a).value);
    case _ => CountClientKeeps(s, a);
  }

  lemma {:induction false} CountHolds(n: nat, actions: seq<Action>)
    requires Execute(Initial(n), actions).Some?
    ensures CountOk(Execute(Initial(n), actions).value)
    decreases |actions|
  {
    if actions == [] {
      CountZero(Flags(Initial(n)));
    } else {
      var front := actions[..|actions| - 1];
      CountHolds(n, front);
      Reachable(n, front);
      CountStepKeeps(Execute(Initial(n), front).value, actions[|actions| - 1]);
    }
  }

  function TakenFlags(s: State): (r: seq<bool>)
    ensures |r| == |s.slots| && forall i :: 0 <= i < |r| ==> r[i] == !s.slots[i].free
  {
    seq(|s.slots|, i requires 0 <= i < |s.slots| => !s.slots[i].free)
  }

  function UnmountFlags(s: State): (r: seq<bool>)
    ensures |r| == |s.slots| && forall i :: 0 <= i < |r| ==> r[i] == UnmountBoxed(s, i)
  {
    seq(|s.slots|, i requires 0 <= i < |s.slots| => UnmountBoxed(s, i))
  }

  /** The slots marked TAKEN_POS, and the unmounts posted but not finished by their worker. */
  function TakenSlots(s: State): nat { Count(TakenFlags(s)) }

  function UnfinishedUnmounts(s: State): nat { Count(UnmountFlags(s)) }

  lemma {:induction false} CountSplit(a: seq<bool>, b: seq<bool>, c: seq<bool>)
    requires |a| == |b| == |c|
    requires forall i :: 0 <= i < |a| ==> (a[i] <==> b[i] || c[i]) && !(b[i] && c[i])
    ensures Count(a) == Count(b) + Count(c)
    decreases |a|
  {
    if a != [] {
      var n := |a| - 1;
      CountSplit(a[..n], b[..n], c[..n]);
    }
  }

  lemma {:induction false} CountAtMost(a: seq<bool>)
    ensures Count(a) <= |a|
    ensures Count(a) == |a| <==> forall i :: 0 <= i < |a| ==> a[i]
    decreases |a|
  {
    if a != [] {
      CountAtMost(a[..|a| - 1]);
      assert forall i :: 0 <= i < |a| - 1 ==> a[..|a| - 1][i] == a[i];
    }
  }

  /** At the head of the dispatch loop, and in a mount up to the search for a slot. */
  predicate BetweenPosts(dpc: DispatcherPc) { dpc.Head? || dpc.MountTest? || dpc.MountFind? }

  lemma Conserved(s: State)
    requires Inv(s) && CountOk(s) && BetweenPosts(s.dpc)
    ensures TakenSlots(s) == s.openSessions + UnfinishedUnmounts(s)
  {
    forall i | 0 <= i < S ensures UnmountBoxed(s, i) ==> !s.slots[i].free { assert SlotOk(s, i); }
    CountSplit(TakenFlags(s), Flags(s), UnmountFlags(s));
  }

  /** Conservation of sessions at every head of the dispatch loop, and the bounds of open_sessions at any moment. */
  lemma SessionConservation(n: nat, actions: seq<Action>)
    requires Execute(Initial(n), actions).Some?
    ensures var s := Execute(Initial(n), actions).value;
            && (BetweenPosts(s.dpc) ==> TakenSlots(s) == s.openSessions + UnfinishedUnmounts(s))
            && 0 <= s.openSessions <= S
  {
    Reachable(n, actions);
    CountHolds(n, actions);
    var s := Execute(Initial(n), actions).value;
    CountAtMost(Flags(s));
    if BetweenPosts(s.dpc) {
      Conserved(s);
    }
  }

  /** The unmount of a live client is never refused: when the dispatcher takes it, sessions are open. */
  lemma UnmountIsAccepted(n: nat, actions: seq<Action>)
    requires Execute(Initial(n), actions).Some?
    requires var s := Execute(Initial(n), actions).value; s.dpc.Head? && s.pipe != [] && s.pipe[0].UnmountMsg?
    ensures var s := Execute(Initial(n), actions).value; s.openSessions > 0 && 0 <= s.pipe[0].sid < S
  {
    Reachable(n, actions);
    CountHolds(n, actions);
    var s := Execute(Initial(n), actions).value;
    var c := HeadSender(s);
    assert SlotOk(s, s.pipe[0].sid);
    assert Flags(s)[s.pipe[0].sid];
    CountZero(Flags(s));
  }

  /** When find_free_pos is called it fails, and keeps global_mutex, exactly when the unmounts not yet finished hold
      all the slots that open_sessions says are there. */
  lemma SearchFailsExactly(n: nat, actions: seq<Action>)
    requires Execute(Initial(n), actions).Some?
    requires var s := Execute(Initial(n), actions).value; s.dpc.MountFind? && !s.globalHeld && !s.halted
    ensures var s := Execute(Initial(n), actions).value;
            && Step(s, Dispatch(0)).Some?
            && (Step(s, Dispatch(0)).value.globalHeld <==> s.openSessions + UnfinishedUnmounts(s) == S)
  {
    Reachable(n, actions);
    CountHolds(n, actions);
    var s := Execute(Initial(n), actions).value;
    Conserved(s);
    CountAtMost(TakenFlags(s));
    if FirstFreeSlot(s.slots) == S {
      assert forall i :: 0 <= i < S ==> TakenFlags(s)[i];
    } else {
      assert !TakenFlags(s)[FirstFreeSlot(s.slots)];
    }
  }

  /** A mount is refused at once exactly if ten sessions are counted: the client is told -1, the descriptor is closed,
      and nothing else changes. Otherwise the search for a slot is next. */
  lemma MountRefusedExactly(n: nat, actions: seq<Action>)
    requires Execute(Initial(n), actions).Some?
    requires var s := Execute(Initial(n), actions).value; s.dpc.MountTest? && !s.halted
    ensures var s := Execute(Initial(n), actions).value;
            && s.dpc.client < |s.clients| && Step(s, Dispatch(0)).Some?
            && var c, r := s.dpc.client, Step(s, Dispatch(0)).value;
               if TakenSlots(s) - UnfinishedUnmounts(s) == 10 then
                 && r.clients == s.clients[c := s.clients[c].(replies := [Reply(Mount, -1)], stage := Answered)]
                 && s.dpc.fd !in r.fds && r.slots == s.slots && r.openSessions == 10 && r.dpc.Head?
               else r == s.(dpc := MountFind(c, s.dpc.fd))
  {
    SessionConservation(n, actions);
    Reachable(n, actions);
    TestRefuses(Execute(Initial(n), actions).value);
  }

  lemma TestRefuses(s: State)
    requires Inv(s) && s.dpc.MountTest?
    ensures s.dpc.client < |s.clients| && DispatchStep(s, 0).Some?
    ensures var c, r := s.dpc.client, DispatchStep(s, 0).value;
            if s.openSessions == 10 then
              && r.clients == s.clients[c := s.clients[c].(replies := [Reply(Mount, -1)], stage := Answered)]
              && s.dpc.fd !in r.fds && r.slots == s.slots && r.openSessions == 10 && r.dpc.Head?
            else r == s.(dpc := MountFind(c, s.dpc.fd))
  {
    var c, fd := s.dpc.client, s.dpc.fd;
    assert Visiting(s, c, fd) && ClientOk(s, c);
    assert s.clients[c].replies + [Reply(Mount, -1)] == [Reply(Mount, -1)];
  }

  /** A worker asleep in pthread_cond_wait takes no step of its own. It may wake up at any time without cause; any other
      step wakes it exactly if it is the dispatcher's signal to its slot. */
  lemma WorkerWakesExactly(s: State, a: Action, i: nat)
    requires Inv(s) && Step(s, a).Some? && i < S && s.slots[i].pc == Waiting(false)
    ensures Step(s, SpuriousWakeUp(i)).Some? && Step(s, Work(i, 0)).None?
    ensures Step(s, a).value.slots[i].pc ==
              Waiting(a == SpuriousWakeUp(i) || (a.Dispatch? && s.dpc.PostWake? && s.dpc.i == i))
  {
    match a
    case Dispatch(fd) => DispatchWakes(s, fd, i);
    case Work(j, result) => WorkWakesNobody(s, j, result, i);
    case SpuriousWakeUp(_) =>
    case _ => assert ClientStep(s, a).value.slots == s.slots;
  }

  lemma DispatchWakes(s: State, fd: int, i: nat)
    requires Sound(s) && DispatchStep(s, fd).Some? && i < S && s.slots[i].pc == Waiting(false)
    ensures DispatchStep(s, fd).value.slots[i].pc == Waiting(s.dpc.PostWake? && s.dpc.i == i)
  {
    if s.dpc.Head? {
      assert TakeMessage(s, fd).value.slots == s.slots;
    } else if s.dpc.PostWake? {
      assert SetStage(s, s.slots[s.dpc.i].tenant, Boxed).slots == s.slots;
    } else if s.dpc.MountTest? || s.dpc.CountUp? || s.dpc.CountDown? {
      assert DispatchStep(s, fd).value.slots == s.slots;
    }
  }

  lemma WorkWakesNobody(s: State, j: nat, result: int, i: nat)
    requires Sound(s) && WorkStep(s, j, result).Some? && i < S && s.slots[i].pc == Waiting(false)
    ensures j != i && WorkStep(s, j, result).value.slots[i].pc == Waiting(false)
  {
    match s.slots[j].pc
    case ToRun(job) => RecordOnlyRan(s, if job.Mount? then s.slots[j].request.fcli else s.slots[j].fhandler, job);
    case ToReply(job, r) => assert forall fd: int, reply :: Deliver(s, fd, reply).slots == s.slots;
    case ToFree => assert SetStage(s, s.slots[j].tenant, Over).slots == s.slots;
    case _ =>
  }

  // ----- What clients may do -----

  /** The five requests of a mounted client. */
  predicate AnyRequest(job: Job) { job.Open? || job.Close? || job.Write? || job.Read? || job.Shutdown? }

  /** In any run, while the process lives: a client that has not mounted may mount; one that is ready may send any of
      the five requests, or unmount; one that waits goes on exactly when its reply is there; and nothing else. */
  lemma ClientsMayAct(n: nat, actions: seq<Action>, c: nat, job: Job)
    requires Execute(Initial(n), actions).Some? && !Execute(Initial(n), actions).value.halted && c < n
    ensures var s := Execute(Initial(n), actions).value;
            && (Step(s, SendMount(c)).Some? <==> s.clients[c].pc.Fresh?)
            && (Step(s, SendJob(c, job)).Some? <==> s.clients[c].pc.Ready? && AnyRequest(job))
            && (Step(s, SendUnmount(c)).Some? <==> s.clients[c].pc.Ready?)
            && (Step(s, Receive(c)).Some? <==> s.clients[c].stage.Answered?)
  {
    Reachable(n, actions);
    assert ClientOk(Execute(Initial(n), actions).value, c);
  }
}
