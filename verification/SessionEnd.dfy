/** When the server's process ends: after a shutdown it has answered or a write that failed, and at no other time. */
module SessionEnd {
  import opened Config
  import opened Sessions
  import opened SessionInvariant

  // ----- Reasons to end -----

  /** The worker has executed a write, and it failed. */
  predicate WriteFailed(w: Slot) { w.pc.ToReply? && w.pc.answered.Write? && w.pc.result < 0 }

  predicate ShutdownAnswered(k: Client) { exists j :: 0 <= j < |k.replies| && k.replies[j].job.Shutdown? }

  ghost predicate Serving(s: State) {
    && (forall i :: 0 <= i < |s.slots| ==> !WriteFailed(s.slots[i]))
    && (forall c :: 0 <= c < |s.clients| ==> !ShutdownAnswered(s.clients[c]))
  }

  lemma OneMoreReply(k: Client, q: Client, reply: Reply)
    requires q.replies == k.replies + [reply]
    ensures ShutdownAnswered(q) <==> ShutdownAnswered(k) || reply.job.Shutdown?
  {
    assert q.replies[|k.replies|] == reply;
    if ShutdownAnswered(k) {
      var j :| 0 <= j < |k.replies| && k.replies[j].job.Shutdown?;
      assert q.replies[j].job.Shutdown?;
    }
  }

  lemma DeliverServes(s: State, fd: int, reply: Reply)
    requires Serving(s) && !reply.job.Shutdown?
    ensures Serving(Deliver(s, fd, reply)) && Deliver(s, fd, reply).slots == s.slots
  {
    var r := Deliver(s, fd, reply);
    if fd in s.fds && s.fds[fd] < |s.clients| {
      OneMoreReply(s.clients[s.fds[fd]], r.clients[s.fds[fd]], reply);
    }
  }

  lemma SameReplies(s: State, r: State)
    requires Serving(s) && |r.clients| == |s.clients| && |r.slots| == |s.slots|
    requires forall c :: 0 <= c < |s.clients| ==> r.clients[c].replies == s.clients[c].replies
    requires forall i :: 0 <= i < |s.slots| ==> WriteFailed(r.slots[i]) ==> r.slots[i].pc == s.slots[i].pc
    ensures Serving(r)
  {
    forall c | 0 <= c < |r.clients| ensures !ShutdownAnswered(r.clients[c]) {
      assert !ShutdownAnswered(s.clients[c]);
    }
    forall i | 0 <= i < |r.slots| ensures !WriteFailed(r.slots[i]) { assert !WriteFailed(s.slots[i]); }
  }

  // ----- Steps -----

  lemma MountServes(s: State)
    requires Sound(s) && Serving(s) && (s.dpc.MountTest? || s.dpc.MountFind?) && DispatchStep(s, 0).Some?
    ensures Serving(DispatchStep(s, 0).value)
  {
    var r := DispatchStep(s, 0).value;
    if r.dpc.Head? {
      DeliverServes(s, s.dpc.fd, Reply(Mount, -1));
      assert r.clients == Deliver(s, s.dpc.fd, Reply(Mount, -1)).clients && r.slots == s.slots;
    } else {
      SameReplies(s, r);
    }
  }

  lemma TakeServes(s: State, fd: int)
    requires Sound(s) && Serving(s) && TakeMessage(s, fd).Some?
    ensures Serving(TakeMessage(s, fd).value)
  {
    SameReplies(s, TakeMessage(s, fd).value);
  }

  lemma PostServes(s: State)
    requires Sound(s) && Serving(s) && !s.dpc.Head? && !s.dpc.MountTest? && !s.dpc.MountFind?
    requires DispatchStep(s, 0).Some?
    ensures Serving(DispatchStep(s, 0).value)
  {
    SameReplies(s, DispatchStep(s, 0).value);
  }

  lemma DispatchServes(s: State, fd: int)
    requires Sound(s) && Serving(s) && DispatchStep(s, fd).Some?
    ensures Serving(DispatchStep(s, fd).value) && DispatchStep(s, fd).value.halted == s.halted
  {
    match s.dpc
    case Head => TakeServes(s, fd);
    case MountTest(_, _) => MountServes(s);
    case MountFind(_, _) => MountServes(s);
    case _ => PostServes(s);
  }

  lemma RunEnds(s: State, i: nat, job: Job, result: int)
    requires Sound(s) && Serving(s) && !s.halted && i < S && RunStep(s, i, job, result).Some?
    ensures RunStep(s, i, job, result).value.halted <==> !Serving(RunStep(s, i, job, result).value)
  {
    var r := RunStep(s, i, job, result).value;
    if !r.halted {
      SameReplies(s, r);
    } else {
      assert WriteFailed(r.slots[i]);
    }
  }

  lemma ReplyEnds(s: State, i: nat, result: int)
    requires Inv(s) && Serving(s) && !s.halted && i < S && s.slots[i].pc.ToReply?
    ensures WorkStep(s, i, result).value.halted <==> !Serving(WorkStep(s, i, result).value)
  {
    var w, r := s.slots[i], WorkStep(s, i, result).value;
    var c := BusyHasTenant(s, i);
    var reply := Reply(w.pc.answered, w.pc.result);
    var fd := if w.pc.answered.Mount? then w.request.fcli else w.fhandler;
    ReplyChanges(s, i, result, c);
    if w.pc.answered.Shutdown? {
      OneMoreReply(s.clients[c], r.clients[c], reply);
    } else {
      DeliverServes(s, fd, reply);
      assert r.clients == Deliver(s, fd, reply).clients;
    }
  }

  lemma WorkEnds(s: State, i: nat, result: int)
    requires Inv(s) && Serving(s) && !s.halted && WorkStep(s, i, result).Some?
    ensures WorkStep(s, i, result).value.halted <==> !Serving(WorkStep(s, i, result).value)
  {
    match s.slots[i].pc
    case ToRun(job) => RunEnds(s, i, job, result);
    case ToReply(_, _) => ReplyEnds(s, i, result);
    case _ => SameReplies(s, WorkStep(s, i, result).value);
  }

  lemma ClientServes(s: State, a: Action)
    requires Serving(s) && (a.SendMount? || a.SendJob? || a.SendUnmount? || a.Receive?) && ClientStep(s, a).Some?
    ensures Serving(ClientStep(s, a).value) && ClientStep(s, a).value.halted == s.halted
  {
    var k, r := s.clients[a.c], ClientStep(s, a).value;
    assert forall j :: 0 <= j < |r.clients[a.c].replies| ==> r.clients[a.c].replies[j] in k.replies;
    assert !ShutdownAnswered(k);
  }

  /** A step ends the process exactly if it gives the reason. */
  lemma StepEnds(s: State, a: Action)
    requires Inv(s) && Serving(s) && Step(s, a).Some?
    ensures Step(s, a).value.halted <==> !Serving(Step(s, a).value)
  {
    match a
    case Dispatch(fd) => DispatchServes(s, fd);
    case Work(i, result) => WorkEnds(s, i, result);
    case SpuriousWakeUp(_) => SameReplies(s, Step(s, a).value);
    case _ => ClientServes(s, a);
  }

  lemma {:induction false} EndsForAReason(n: nat, actions: seq<Action>)
    requires Execute(Initial(n), actions).Some?
    ensures Execute(Initial(n), actions).value.halted <==> !Serving(Execute(Initial(n), actions).value)
    decreases |actions|
  {
    if actions != [] {
      var front := actions[..|actions| - 1];
      EndsForAReason(n, front);
      Reachable(n, front);
      StepEnds(Execute(Initial(n), front).value, actions[|actions| - 1]);
    }
  }

  // ----- In the words of the clients -----

  /** The last job executed for `c` ended the process: a shutdown, answered, or a write that failed. */
  ghost predicate EndedBy(s: State, c: nat)
    requires c < |s.clients|
  {
    var k := s.clients[c];
    k.ran != [] &&
    match k.ran[|k.ran| - 1]
    case Shutdown => |k.replies| == 1 && k.replies[0].job == Shutdown
    case Write(h, data) =>
      exists i, result :: 0 <= i < |s.slots| && s.slots[i].tenant == Some(c) && result < 0
                          && s.slots[i].pc == ToReply(Write(h, data), result)
    case _ => false
  }

  lemma AnsweredEnds(s: State, c: nat)
    requires Inv(s) && c < |s.clients|
    ensures ShutdownAnswered(s.clients[c]) ==> EndedBy(s, c)
  {
    assert ClientOk(s, c);
  }

  lemma FailureEnds(s: State, i: nat) returns (c: nat)
    requires Inv(s) && i < S && WriteFailed(s.slots[i])
    ensures c < |s.clients| && s.slots[i].tenant == Some(c) && EndedBy(s, c)
  {
    c := BusyHasTenant(s, i);
    var pc := s.slots[i].pc;
    assert pc == ToReply(Write(pc.answered.h, pc.answered.data), pc.result);
  }

  lemma EndedIsReason(s: State, c: nat)
    requires c < |s.clients| && EndedBy(s, c)
    ensures !Serving(s)
  {
    var k := s.clients[c];
    if Last(k.ran).Write? {
      var i, result :| 0 <= i < |s.slots| && result < 0 && s.slots[i].pc == ToReply(Last(k.ran), result);
      assert WriteFailed(s.slots[i]);
    } else {
      assert ShutdownAnswered(k);
    }
  }

  /** In every run the process has ended exactly if, for some client, a shutdown has been executed and answered, or a
      write has been executed and its result was negative. */
  lemma EndsExactly(n: nat, actions: seq<Action>)
    requires Execute(Initial(n), actions).Some?
    ensures var s := Execute(Initial(n), actions).value;
            s.halted <==> exists c :: 0 <= c < |s.clients| && EndedBy(s, c)
  {
    Reachable(n, actions);
    EndsForAReason(n, actions);
    EndHasClient(Execute(Initial(n), actions).value);
  }

  lemma EndHasClient(s: State)
    requires Inv(s)
    ensures !Serving(s) <==> exists c :: 0 <= c < |s.clients| && EndedBy(s, c)
  {
    if c :| 0 <= c < |s.clients| && EndedBy(s, c) {
      EndedIsReason(s, c);
    } else if !Serving(s) {
      if c :| 0 <= c < |s.clients| && ShutdownAnswered(s.clients[c]) {
        AnsweredEnds(s, c);
      } else {
        var i :| 0 <= i < |s.slots| && WriteFailed(s.slots[i]);
        var c := FailureEnds(s, i);
      }
    }
  }
}
