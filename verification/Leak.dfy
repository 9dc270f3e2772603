/** find_free_pos returns with global_mutex held when it finds no slot: a run that gets there, and what follows. */
module Leak {
  import opened Config
  import opened Sessions
  import opened SessionTheorems

  // ----- Afterwards -----

  /** No step of the kind changes what is counted, once the mutex is lost. */
  predicate Frozen(s: State, r: State)
    requires Sound(s) && Sound(r)
  {
    && r.globalHeld && r.openSessions == s.openSessions
    && forall i :: 0 <= i < S ==> r.slots[i].free == s.slots[i].free
  }

  lemma HeldForDispatcher(s: State, fd: int)
    requires Sound(s) && s.globalHeld && DispatchStep(s, fd).Some?
    ensures Frozen(s, DispatchStep(s, fd).value)
  {
    match s.dpc
    case Head => assert TakeMessage(s, fd).value.slots == s.slots;
    case _ =>
  }

  lemma HeldForWorker(s: State, i: nat, result: int)
    requires Sound(s) && s.globalHeld && WorkStep(s, i, result).Some?
    ensures Frozen(s, WorkStep(s, i, result).value)
  {
    match s.slots[i].pc
    case ToRun(job) => RunStepShape(s, i, job, result);
    case _ =>
  }

  lemma HeldStays(s: State, a: Action)
    requires Sound(s) && s.globalHeld && Step(s, a).Some?
    ensures Frozen(s, Step(s, a).value)
  {
    match a
    case Dispatch(fd) => HeldForDispatcher(s, fd);
    case Work(i, result) => HeldForWorker(s, i, result);
    case SpuriousWakeUp(i) => assert Step(s, a).value.slots[i].free == s.slots[i].free;
    case _ => assert ClientStep(s, a).value.slots == s.slots;
  }

  /** The mutex is never released: no session is counted in or out again, and no slot changes hands. */
  lemma {:induction false} HeldForever(s: State, actions: seq<Action>)
    requires Sound(s) && s.globalHeld && Execute(s, actions).Some?
    ensures var r := Execute(s, actions).value;
            && r.globalHeld && r.openSessions == s.openSessions
            && forall i :: 0 <= i < S ==> r.slots[i].free == s.slots[i].free
    decreases |actions|
  {
    if actions != [] {
      HeldForever(s, actions[..|actions| - 1]);
      HeldStays(Execute(s, actions[..|actions| - 1]).value, actions[|actions| - 1]);
    }
  }

  // ----- Getting there -----

  const CLIENTS: nat := S + 1

  ghost predicate Reached(s: State) { exists actions :: Execute(Initial(CLIENTS), actions) == Some(s) }

  lemma Next(s: State, a: Action) returns (r: State)
    requires Reached(s) && Sound(s) && Step(s, a).Some?
    ensures Reached(r) && Step(s, a) == Some(r)
  {
    r := Step(s, a).value;
    var actions :| Execute(Initial(CLIENTS), actions) == Some(s);
    assert (actions + [a])[..|actions|] == actions;
    assert Execute(Initial(CLIENTS), actions + [a]) == Some(r);
  }

  /** Slot `i` taken for client `i`, its mount posted and not touched by the worker. */
  predicate Posted(s: State, i: nat)
    requires Sound(s) && i < S
  {
    var w := s.slots[i];
    && !w.free && w.wakeUp && w.holder.Nobody? && w.pc.ToLock?
    && w.request.opCode == 1 && w.request.fcli == i && w.tenant == Some(i)
  }

  /** The first `k` clients have sent their mounts, and the dispatcher has posted them. */
  ghost predicate Filled(s: State, k: nat)
    requires k <= S
  {
    && Sound(s) && |s.clients| == CLIENTS && s.dpc.Head? && s.pipe == [] && s.openSessions == k
    && !s.globalHeld && !s.halted
    && (forall i :: 0 <= i < k ==> Posted(s, i) && s.clients[i].pc.AwaitMount? && s.clients[i].replies == [])
    && (forall i :: k <= i < S ==> s.slots[i].free && s.slots[i].holder.Nobody? && s.slots[i].pc.ToLock?)
    && (forall c :: k <= c < CLIENTS ==> s.clients[c].pc.Fresh? && s.clients[c].replies == [])
    && (forall fd :: fd in s.fds <==> 0 <= fd < k) && (forall fd :: fd in s.fds ==> s.fds[fd] == fd)
  }

  /** `r` differs from `s` at most in slot `i`, the stages of clients and the dispatcher's place. */
  predicate OnlySlot(s: State, r: State, i: nat) {
    && Sound(s) && Sound(r) && i < S && |r.clients| == |s.clients|
    && r.pipe == s.pipe && r.openSessions == s.openSessions && r.fds == s.fds
    && r.globalHeld == s.globalHeld && r.halted == s.halted
    && (forall j :: 0 <= j < S && j != i ==> r.slots[j] == s.slots[j])
    && (forall c :: 0 <= c < |s.clients| ==>
          r.clients[c].pc == s.clients[c].pc && r.clients[c].replies == s.clients[c].replies)
  }

  /** Locking the slot and storing the request. */
  lemma PostStored(s: State) returns (r: State)
    requires Reached(s) && Sound(s) && !s.halted && s.dpc.PostLock? && s.dpc.i < S && s.slots[s.dpc.i].holder.Nobody?
    ensures Reached(r)
    ensures var i, job, w := s.dpc.i, s.dpc.job, s.slots[s.dpc.i];
            && OnlySlot(s, r, i) && r.clients == s.clients && r.dpc == PostWake(i, job, s.dpc.fd)
            && r.slots[i] == w.(
                 request := StoreArgs(w.request.(opCode := CodeOf(job)), job, s.dpc.fd), holder := ByDispatcher)
  {
    r := Next(s, Dispatch(0));
    r := Next(r, Dispatch(0));
    r := Next(r, Dispatch(0));
  }

  /** The five steps of a post, on a slot whose worker has not begun. */
  lemma PostRuns(s: State) returns (r: State)
    requires Reached(s) && Sound(s) && !s.halted && s.dpc.PostLock? && s.dpc.i < S
    requires s.slots[s.dpc.i].holder.Nobody? && s.slots[s.dpc.i].pc.ToLock?
    ensures Reached(r)
    ensures var i, job, w := s.dpc.i, s.dpc.job, s.slots[s.dpc.i];
            && OnlySlot(s, r, i)
            && r.slots[i] == w.(request := StoreArgs(w.request.(opCode := CodeOf(job)), job, s.dpc.fd), wakeUp := true)
            && r.dpc == if job.Mount? then CountUp(i) else if job.Unmount? then CountDown(i) else Head
  {
    var m := PostStored(s);
    r := PostEnded(m);
  }

  /** The wake-up and the release. */
  lemma PostEnded(s: State) returns (r: State)
    requires Reached(s) && Sound(s) && !s.halted && s.dpc.PostWake? && s.dpc.i < S && s.slots[s.dpc.i].pc.ToLock?
    ensures Reached(r) && OnlySlot(s, r, s.dpc.i)
    ensures r.slots[s.dpc.i] == s.slots[s.dpc.i].(wakeUp := true, holder := Nobody)
    ensures var i, job := s.dpc.i, s.dpc.job;
            r.dpc == if job.Mount? then CountUp(i) else if job.Unmount? then CountDown(i) else Head
  {
    r := Next(s, Dispatch(0));
    assert OnlySlot(s, r, s.dpc.i);
    r := Next(r, Dispatch(0));
  }

  /** Client `c` sends its mount, and the dispatcher opens its pipe as `fd`. */
  lemma Mounting(s: State, c: nat, fd: nat) returns (r: State)
    requires Reached(s) && Sound(s) && c < |s.clients| && !s.halted && !s.globalHeld && s.dpc.Head? && s.pipe == []
    requires s.openSessions != S && s.clients[c].pc.Fresh? && fd !in s.fds
    ensures Reached(r) && Sound(r) && r.dpc == MountFind(c, fd) && r.pipe == [] && r.fds == s.fds[fd as int := c]
    ensures r.slots == s.slots && r.openSessions == s.openSessions && !r.globalHeld && !r.halted
    ensures |r.clients| == |s.clients| && r.clients[c].pc.AwaitMount? && r.clients[c].replies == s.clients[c].replies
    ensures forall d :: 0 <= d < |s.clients| && d != c ==> r.clients[d] == s.clients[d]
  {
    r := Next(s, SendMount(c));
    r := Next(r, Dispatch(fd));
    r := Next(r, Dispatch(0));
  }

  lemma FirstSlotIs(slots: seq<Slot>, k: nat)
    requires k < |slots| && slots[k].free && forall i :: 0 <= i < k ==> !slots[i].free
    ensures FirstFreeSlot(slots) == k
  {
  }

  lemma SlotFound(s: State, k: nat) returns (r: State)
    requires k < S && Reached(s) && Filled(s, k)
    ensures Reached(r) && Sound(r) && r.dpc == PostLock(k, Mount, k) && r.pipe == [] && r.fds == s.fds[k as int := k]
    ensures r.slots == s.slots[k := s.slots[k].(free := false, tenant := Some(k))]
    ensures r.openSessions == k && !r.globalHeld && !r.halted
    ensures |r.clients| == CLIENTS && r.clients[k].pc.AwaitMount? && r.clients[k].replies == []
    ensures forall d :: 0 <= d < CLIENTS && d != k ==> r.clients[d] == s.clients[d]
  {
    forall i | 0 <= i < k ensures !s.slots[i].free { assert Posted(s, i); }
    r := Mounting(s, k, k);
    assert r.slots[k].free && forall i :: 0 <= i < k ==> !r.slots[i].free;
    FirstSlotIs(r.slots, k);
    r := Next(r, Dispatch(0));
  }

  lemma MountPosted(s: State, k: nat) returns (r: State)
    requires k < S && Reached(s) && Filled(s, k)
    ensures Reached(r) && Filled(r, k + 1)
  {
    var m := SlotFound(s, k);
    var p := PostRuns(m);
    r := Next(p, Dispatch(0));
    forall i | 0 <= i < k + 1 ensures Posted(r, i) {
      assert i < k ==> Posted(s, i);
    }
  }

  lemma {:induction false} MountsPosted(k: nat) returns (s: State)
    requires k <= S
    ensures Reached(s) && Filled(s, k)
    decreases k
  {
    if k == 0 {
      s := Initial(CLIENTS);
      assert Execute(Initial(CLIENTS), []) == Some(s);
    } else {
      s := MountsPosted(k - 1);
      s := MountPosted(s, k - 1);
    }
  }

  /** Worker 0 takes the mount that is posted to it. */
  lemma MountTaken(s: State) returns (r: State)
    requires Reached(s) && Sound(s) && !s.halted && Posted(s, 0)
    ensures Reached(r) && OnlySlot(s, r, 0) && r.dpc == s.dpc && r.clients == s.clients
    ensures r.slots[0] == s.slots[0].(wakeUp := false, pc := ToRun(Mount))
  {
    var m := WakeUpTaken(s);
    r := Next(m, Work(0, 0));
    r := Next(r, Work(0, 0));
  }

  lemma WakeUpTaken(s: State) returns (r: State)
    requires Reached(s) && Sound(s) && !s.halted && Posted(s, 0)
    ensures Reached(r) && r == SetSlot(s, 0, s.slots[0].(wakeUp := false, pc := ToReadOp))
  {
    r := Next(s, Work(0, 0));
    r := Next(r, Work(0, 0));
    r := Next(r, Work(0, 0));
  }

  /** ... and answers it. */
  lemma MountAnswered(s: State) returns (r: State)
    requires Reached(s) && Sound(s) && !s.halted && !s.globalHeld && s.slots[0].pc == ToRun(Mount) && |s.clients| > 0
    requires s.slots[0].request.fcli in s.fds && s.fds[s.slots[0].request.fcli] == 0 && s.clients[0].replies == []
    ensures Reached(r) && Sound(r) && r.dpc == s.dpc && r.pipe == s.pipe
    ensures r.openSessions == s.openSessions && r.fds == s.fds
    ensures !r.globalHeld && !r.halted && |r.clients| == |s.clients|
    ensures forall j :: 0 < j < S ==> r.slots[j] == s.slots[j]
    ensures r.slots[0] == s.slots[0].(fhandler := s.slots[0].request.fcli, pc := ToLock)
    ensures r.clients[0].pc == s.clients[0].pc && r.clients[0].replies == [Reply(Mount, 0)]
    ensures forall c :: 0 < c < |s.clients| ==> r.clients[c] == s.clients[c]
  {
    r := Next(s, Work(0, 0));
    r := Next(r, Work(0, 0));
  }

  /** Client 0 receives its session number and sends its unmount, which the dispatcher takes. */
  lemma ClientLeaves(s: State) returns (r: State)
    requires Reached(s) && Sound(s) && !s.halted && s.dpc.Head? && s.pipe == []
    requires s.openSessions == S && |s.clients| > 0
    requires s.clients[0].pc.AwaitMount? && s.clients[0].replies == [Reply(Mount, 0)]
    ensures Reached(r) && Sound(r) && r.dpc == PostLock(0, Unmount, -1) && r.pipe == [] && r.openSessions == S
    ensures r.fds == s.fds && r.slots == s.slots && r.globalHeld == s.globalHeld && !r.halted
    ensures |r.clients| == |s.clients| && forall c :: 0 < c < |s.clients| ==> r.clients[c].pc == s.clients[c].pc
  {
    r := Next(s, Receive(0));
    r := Next(r, SendUnmount(0));
    r := Next(r, Dispatch(0));
  }

  ghost predicate AllTaken(s: State) { Sound(s) && forall i :: 0 <= i < S ==> !s.slots[i].free }

  /** All slots are taken and all sessions counted; client 0 has been answered. */
  lemma AllMounted() returns (r: State)
    ensures Reached(r) && AllTaken(r) && !r.halted && !r.globalHeld
    ensures r.dpc.Head? && r.pipe == [] && r.openSessions == S
    ensures |r.clients| == CLIENTS && r.clients[S].pc.Fresh? && 10 !in r.fds
    ensures r.slots[0].holder.Nobody? && r.slots[0].pc.ToLock?
    ensures r.clients[0].pc.AwaitMount? && r.clients[0].replies == [Reply(Mount, 0)]
  {
    var s := MountsPosted(S);
    forall i | 0 <= i < S ensures !s.slots[i].free { assert Posted(s, i); }
    assert Posted(s, 0);
    var taken := MountTaken(s);
    r := MountAnswered(taken);
  }

  /** All slots are taken, one of them for a client whose unmount is posted. */
  lemma UnmountPosted() returns (r: State)
    ensures Reached(r) && AllTaken(r) && !r.halted && !r.globalHeld
    ensures r.dpc.Head? && r.pipe == [] && r.openSessions == S - 1
    ensures |r.clients| == CLIENTS && r.clients[S].pc.Fresh? && 10 !in r.fds
  {
    var s := AllMounted();
    var left := ClientLeaves(s);
    var posted := PostRuns(left);
    r := Next(posted, Dispatch(0));
  }

  /** Ten mounts, one unmount its worker has not begun, one more mount: global_mutex is left locked, for good. */
  lemma LeakReached() returns (actions: seq<Action>)
    ensures Execute(Initial(CLIENTS), actions).Some? && Execute(Initial(CLIENTS), actions).value.globalHeld
  {
    var s := UnmountPosted();
    s := Mounting(s, S, 10);
    s := Next(s, Dispatch(0));
    actions :| Execute(Initial(CLIENTS), actions) == Some(s);
  }
}
