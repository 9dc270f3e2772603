/** What every step of the session machine keeps. */
module SessionInvariant {
  import opened Config
  import opened Sessions

  function Last(jobs: seq<Job>): Job
    requires jobs != []
  {
    jobs[|jobs| - 1]
  }

  function Front(jobs: seq<Job>): seq<Job>
    requires jobs != []
  {
    jobs[..|jobs| - 1]
  }

  // ----- One client -----

  /** The request is in the pipe, with the dispatcher or in a slot. */
  predicate Underway(stage: Stage) { stage.Queued? || stage.OnDesk? || stage.Boxed? }

  /** The stage fits the program counter, and tells how far execution and replies have come. */
  predicate HistoryOk(k: Client) {
    && (match k.pc
        case Fresh => k.stage.Out? && k.sent == []
        case AwaitMount => k.sent == [Mount] && (Underway(k.stage) || k.stage.Answered?)
        case Ready(_) => k.stage.Resting? && k.sent != [] && !Last(k.sent).Unmount?
        case Await(_) =>
          |k.sent| > 1 && IsRequest(Last(k.sent)) && (Underway(k.stage) || k.stage.Answered?)
        case Unmounted(_) =>
          |k.sent| > 1 && Last(k.sent).Unmount? && (Underway(k.stage) || k.stage.Over?)
        case Refused => k.stage.Over? && k.sent == [Mount])
    && (match k.stage
        case Out => k.ran == []
        case Queued | OnDesk => k.sent != [] && k.ran == Front(k.sent)
        case Boxed => k.sent != [] && (k.ran == k.sent || k.ran == Front(k.sent))
        case Answered =>
          k.ran == if k.pc.AwaitMount? && |k.replies| == 1 && k.replies[0].result == -1 then [] else k.sent
        case Resting => k.ran == k.sent
        case Over => if k.pc.Refused? then k.ran == [] else k.ran == k.sent)
    && (if k.stage.Answered? then |k.replies| == 1 && k.sent != [] && k.replies[0].job == Last(k.sent)
        else k.replies == [])
    && (forall j :: 0 <= j < |k.sent| - 1 ==> !k.sent[j].Unmount?)
  }

  /** The slot a client's program counter names, while the server has not finished its unmount. */
  predicate Claims(k: Client, sid: int) {
    match k.pc
    case Ready(i) => i == sid
    case Await(i) => i == sid
    case Unmounted(i) => i == sid && !k.stage.Over?
    case AwaitMount => k.stage.Answered? && |k.replies| == 1 && k.replies[0].result == sid && sid != -1
    case _ => false
  }

  ghost predicate ClientOk(s: State, c: nat)
    requires c < |s.clients|
  {
    HistoryOk(s.clients[c]) && forall sid :: Claims(s.clients[c], sid) ==> Tenant(s, sid) == Some(c)
  }

  // ----- One slot -----

  predicate Idle(w: Slot) { !w.wakeUp && (w.pc.ToLock? || w.pc.Testing? || w.pc.Waiting?) }

  predicate RequestHolds(r: Request, job: Job) { r.opCode == CodeOf(job) && LoadArgs(r.opCode, r) == job }

  /** The mount of `k` has been executed and its unmount has not. */
  predicate Mounted(k: Client) { k.ran != [] && !Last(k.ran).Unmount? }

  predicate Leads(s: State, fd: int, c: nat) { fd in s.fds && s.fds[fd] == c }

  /** The slot holds `k`'s last job: posted, taken, or executed and not yet answered. */
  predicate Carries(s: State, i: nat, w: Slot, c: nat, k: Client) {
    k.sent != [] &&
    var job := Last(k.sent);
    && RequestHolds(w.request, job)
    && (job.Mount? ==> Leads(s, w.request.fcli, c))
    && if w.wakeUp then (w.pc.ToLock? || w.pc.Testing? || w.pc.Waiting?) && k.ran == Front(k.sent)
       else
         match w.pc
         case ToUnlock | ToReadOp => k.ran == Front(k.sent)
         case ToReadArgs(command) => command == CodeOf(job) && k.ran == Front(k.sent)
         case ToRun(j) => j == job && k.ran == Front(k.sent)
         case ToReply(j, r) => j == job && !job.Unmount? && k.ran == k.sent && (job.Mount? ==> r == i)
         case ToFree => job.Unmount? && k.ran == k.sent
         case _ => false
  }

  predicate TenantOk(s: State, i: nat, w: Slot, c: nat, k: Client) {
    && (match k.pc
        case AwaitMount => !k.stage.Queued? && (k.stage.Answered? ==> |k.replies| == 1 && k.replies[0].result == i)
        case Ready(sid) => sid == i
        case Await(sid) => sid == i
        case Unmounted(sid) => sid == i && !k.stage.Over?
        case _ => false)
    && (if k.stage.Boxed? then Carries(s, i, w, c, k) else Idle(w))
    && (Mounted(k) ==> Leads(s, w.fhandler, c))
  }

  predicate Posting(dpc: DispatcherPc, i: nat) {
    match dpc
    case PostOp(j, _, _) => i == j
    case PostArgs(j, _, _) => i == j
    case PostWake(j, _, _) => i == j
    case PostUnlock(j, _) => i == j
    case _ => false
  }

  predicate SlotOk(s: State, i: nat)
    requires i < |s.slots|
  {
    var w := s.slots[i];
    && (w.free <==> w.tenant.None?)
    && (w.holder.ByWorker? <==> w.pc.Testing? || w.pc.ToUnlock?)
    && (w.holder.ByDispatcher? <==> Posting(s.dpc, i))
    && (w.pc == Waiting(false) ==> !w.wakeUp)
    && match w.tenant
       case None => Idle(w)
       case Some(c) => c < |s.clients| && TenantOk(s, i, w, c, s.clients[c])
  }

  ghost predicate TenantsDistinct(s: State) {
    forall i, j :: 0 <= i < |s.slots| && 0 <= j < |s.slots| ==>
      (s.slots[i].tenant.Some? && s.slots[i].tenant == s.slots[j].tenant ==> i == j)
  }

  // ----- The dispatcher -----

  /** The client whose message is being handled, up to the moment it is in the slot or refused. */
  function Handled(s: State): Option<nat> {
    match s.dpc
    case MountTest(c, _) => Some(c)
    case MountFind(c, _) => Some(c)
    case PostLock(i, _, _) => Tenant(s, i)
    case PostOp(i, _, _) => Tenant(s, i)
    case PostArgs(i, _, _) => Tenant(s, i)
    case PostWake(i, _, _) => Tenant(s, i)
    case _ => None
  }

  /** `c`'s unmount is posted and not finished, `c` being the tenant of slot `i`. */
  predicate UnmountBoxed(s: State, i: nat)
    requires i < |s.slots|
  {
    var t := s.slots[i].tenant;
    t.Some? && t.value < |s.clients| && s.clients[t.value].stage.Boxed?
    && s.clients[t.value].sent != [] && Last(s.clients[t.value].sent).Unmount?
  }

  predicate PostOk(s: State, i: nat, job: Job, fd: int) {
    i < |s.slots| && s.slots[i].tenant.Some? &&
    var c := s.slots[i].tenant.value;
    && c < |s.clients| && s.clients[c].stage.OnDesk?
    && s.clients[c].sent != [] && job == Last(s.clients[c].sent)
    && (job.Mount? ==> Leads(s, fd, c))
  }

  ghost predicate DeskOk(s: State) {
    && (forall c :: 0 <= c < |s.clients| && s.clients[c].stage.OnDesk? ==> Handled(s) == Some(c))
    && match s.dpc
       case Head => true
       case MountTest(c, fd) => Visiting(s, c, fd)
       case MountFind(c, fd) => Visiting(s, c, fd)
       case PostLock(i, job, fd) => PostOk(s, i, job, fd)
       case PostOp(i, job, fd) => PostOk(s, i, job, fd)
       case PostArgs(i, job, fd) => PostOk(s, i, job, fd) && s.slots[i].request.opCode == CodeOf(job)
       case PostWake(i, job, fd) =>
         && PostOk(s, i, job, fd) && RequestHolds(s.slots[i].request, job)
         && (job.Mount? ==> s.slots[i].request.fcli == fd)
       case PostUnlock(i, job) =>
         && i < |s.slots|
         && (job.Mount? ==> s.slots[i].tenant.Some? && !UnmountBoxed(s, i))
         && (job.Unmount? ==> s.slots[i].free || UnmountBoxed(s, i))
       case CountUp(i) => i < |s.slots| && s.slots[i].tenant.Some? && !UnmountBoxed(s, i)
       case CountDown(i) => i < |s.slots| && (s.slots[i].free || UnmountBoxed(s, i))
  }

  /** A mounting client at the dispatcher, which has no slot yet. */
  ghost predicate Visiting(s: State, c: nat, fd: int) {
    && c < |s.clients| && s.clients[c].pc.AwaitMount? && s.clients[c].stage.OnDesk? && Leads(s, fd, c)
    && forall i :: 0 <= i < |s.slots| ==> s.slots[i].tenant != Some(c)
  }

  // ----- The pipe into the server -----

  function Sender(s: State, m: Message): Option<nat> {
    match m
    case MountMsg(c) => Some(c)
    case UnmountMsg(sid) => Tenant(s, sid)
    case JobMsg(sid, _) => Tenant(s, sid)
  }

  /** The message is its sender's last job, and nothing of it has been handled. */
  predicate MessageOk(s: State, m: Message) {
    Sender(s, m).Some? &&
    var c := Sender(s, m).value;
    && c < |s.clients| && s.clients[c].stage.Queued?
    && match m
       case MountMsg(_) => s.clients[c].pc.AwaitMount?
       case UnmountMsg(sid) => s.clients[c].pc == Unmounted(sid)
       case JobMsg(sid, job) =>
         s.clients[c].pc == Await(sid) && s.clients[c].sent != [] && Last(s.clients[c].sent) == job
  }

  ghost predicate PipeOk(s: State) {
    && (forall k :: 0 <= k < |s.pipe| ==> MessageOk(s, s.pipe[k]))
    && (forall j, k :: 0 <= j < k < |s.pipe| ==> Sender(s, s.pipe[j]) != Sender(s, s.pipe[k]))
  }

  ghost predicate ClientsOk(s: State) { forall c :: 0 <= c < |s.clients| ==> ClientOk(s, c) }

  ghost predicate SlotsOk(s: State) { forall i :: 0 <= i < |s.slots| ==> SlotOk(s, i) }

  ghost predicate Inv(s: State) {
    Sound(s) && ClientsOk(s) && SlotsOk(s) && TenantsDistinct(s) && DeskOk(s) && PipeOk(s)
  }

  // ----- Steps are local -----

  /** From `s` to `r` nothing changes but slot `i`, client `c` and descriptors of `c`; either may be out of range.
      No slot but `i` has `c` as its tenant, and only `c` may enter or leave slot `i`. */
  ghost predicate Confined(s: State, r: State, i: nat, c: nat) {
    && Sound(s) && Sound(r) && |r.clients| == |s.clients|
    && (forall j :: 0 <= j < S && j != i ==> r.slots[j] == s.slots[j] && s.slots[j].tenant != Some(c))
    && (forall d :: 0 <= d < |s.clients| && d != c ==> r.clients[d] == s.clients[d])
    && (forall fd, d :: d != c && Leads(s, fd, d) ==> Leads(r, fd, d))
    && (forall j :: 0 <= j < S && j != i ==> (Posting(r.dpc, j) <==> Posting(s.dpc, j)))
    && (i < S ==> r.slots[i].tenant == s.slots[i].tenant
                  || ((s.slots[i].tenant == None || s.slots[i].tenant == Some(c))
                      && (r.slots[i].tenant == None || r.slots[i].tenant == Some(c))))
  }

  lemma OthersKept(s: State, r: State, i: nat, c: nat)
    requires Inv(s) && Confined(s, r, i, c)
    ensures forall j :: 0 <= j < S && j != i ==> SlotOk(r, j)
    ensures forall d :: 0 <= d < |s.clients| && d != c ==> ClientOk(r, d)
    ensures TenantsDistinct(r)
  {
    forall j | 0 <= j < S && j != i ensures SlotOk(r, j) { assert SlotOk(s, j); }
    forall d | 0 <= d < |s.clients| && d != c ensures ClientOk(r, d) {
      assert ClientOk(s, d);
      forall sid | Claims(r.clients[d], sid) ensures Tenant(r, sid) == Some(d) {
        assert Tenant(s, sid) == Some(d);
      }
    }
  }

  /** What is left of the pipe, none of it from `c`, stays in order. */
  lemma PipeKept(s: State, r: State, i: nat, c: nat, from: nat)
    requires Inv(s) && Confined(s, r, i, c) && from <= |s.pipe| && r.pipe == s.pipe[from..]
    requires forall k :: from <= k < |s.pipe| ==> Sender(s, s.pipe[k]) != Some(c)
    ensures PipeOk(r)
    ensures forall k :: 0 <= k < |r.pipe| ==> Sender(r, r.pipe[k]) == Sender(s, r.pipe[k])
  {
    forall k | 0 <= k < |r.pipe| ensures MessageOk(r, r.pipe[k]) && Sender(r, r.pipe[k]) == Sender(s, r.pipe[k]) {
      assert r.pipe[k] == s.pipe[from + k];
      assert MessageOk(s, s.pipe[from + k]);
    }
    forall j, k | 0 <= j < k < |r.pipe| ensures Sender(r, r.pipe[j]) != Sender(r, r.pipe[k]) {
      assert r.pipe[j] == s.pipe[from + j] && r.pipe[k] == s.pipe[from + k];
    }
  }

  lemma SendersQueued(s: State, c: nat)
    requires Inv(s) && (c < |s.clients| ==> !s.clients[c].stage.Queued?)
    ensures forall k :: 0 <= k < |s.pipe| ==> Sender(s, s.pipe[k]) != Some(c)
  {
    forall k | 0 <= k < |s.pipe| ensures Sender(s, s.pipe[k]) != Some(c) { assert MessageOk(s, s.pipe[k]); }
  }

  /** The dispatcher's own facts survive a step of a worker or a client. */
  lemma DeskKept(s: State, r: State, i: nat, c: nat)
    requires Inv(s) && Confined(s, r, i, c) && r.dpc == s.dpc
    requires c < |s.clients| ==> !s.clients[c].stage.OnDesk? && !r.clients[c].stage.OnDesk?
    requires i < S ==> r.slots[i].request == s.slots[i].request
    requires i < S && s.slots[i].tenant.Some? && r.slots[i].tenant != s.slots[i].tenant ==>
      s.slots[i].tenant == Some(c) && r.slots[i].free && UnmountBoxed(s, i)
    requires i < S && s.slots[i].tenant.None? ==> r.slots[i].tenant.None? && r.slots[i].free
    requires forall j :: 0 <= j < S && UnmountBoxed(s, j) ==> r.slots[j].free || UnmountBoxed(r, j)
    requires forall j :: 0 <= j < S && UnmountBoxed(r, j) ==> UnmountBoxed(s, j)
    ensures DeskOk(r)
  {
    forall j | 0 <= j < S ensures s.slots[j].free <==> s.slots[j].tenant.None? { assert SlotOk(s, j); }
  }

  // ----- Kept by clients -----

  /** The slot a client holds, as far as its program counter tells; S if none. */
  function Holds(k: Client): int {
    match k.pc
    case Ready(sid) => sid
    case Await(sid) => sid
    case AwaitMount =>
      if k.stage.Answered? && |k.replies| == 1 && k.replies[0].result != -1 then k.replies[0].result else S
    case _ => S
  }

  lemma HeldSlot(s: State, c: nat)
    requires Inv(s) && c < |s.clients|
    requires s.clients[c].pc.Fresh? || s.clients[c].stage.Resting? || s.clients[c].stage.Answered?
    ensures var i := Holds(s.clients[c]);
            && 0 <= i <= S && (i < S ==> s.slots[i].tenant == Some(c) && SlotOk(s, i))
            && (forall j :: 0 <= j < S && j != i ==> s.slots[j].tenant != Some(c))
            && (forall sid :: Claims(s.clients[c], sid) ==> sid == i)
            && (i == S ==>
                  var k := s.clients[c];
                  k.pc.Fresh? || (k.pc.AwaitMount? && |k.replies| == 1 && k.replies[0].result == -1))
  {
    var k := s.clients[c];
    var i := Holds(k);
    assert ClientOk(s, c);
    if !k.pc.Fresh? && !(k.pc.AwaitMount? && k.replies[0].result == -1) {
      assert Claims(k, i);
      assert SlotOk(s, i);
    } else {
      forall j | 0 <= j < S ensures s.slots[j].tenant != Some(c) { assert SlotOk(s, j); }
    }
  }

  lemma SendMountKeeps(s: State, c: nat)
    requires Inv(s) && ClientStep(s, SendMount(c)).Some?
    ensures Inv(ClientStep(s, SendMount(c)).value)
  {
    var r := ClientStep(s, SendMount(c)).value;
    assert ClientOk(s, c);
    HeldSlot(s, c);
    assert r.clients[c].sent == [Mount] && r.clients[c].ran == Front([Mount]) == [];
    assert ClientOk(r, c);
    SendKeeps(s, r, S, c);
  }

  lemma SendJobKeeps(s: State, c: nat, job: Job)
    requires Inv(s) && ClientStep(s, SendJob(c, job)).Some?
    ensures Inv(ClientStep(s, SendJob(c, job)).value)
  {
    var r := ClientStep(s, SendJob(c, job)).value;
    assert ClientOk(s, c);
    HeldSlot(s, c);
    assert Front(r.clients[c].sent) == s.clients[c].sent;
    assert ClientOk(r, c);
    assert SlotOk(r, s.clients[c].pc.sid);
    SendKeeps(s, r, s.clients[c].pc.sid, c);
  }

  lemma SendUnmountKeeps(s: State, c: nat)
    requires Inv(s) && ClientStep(s, SendUnmount(c)).Some?
    ensures Inv(ClientStep(s, SendUnmount(c)).value)
  {
    var r := ClientStep(s, SendUnmount(c)).value;
    assert ClientOk(s, c);
    HeldSlot(s, c);
    assert Front(r.clients[c].sent) == s.clients[c].sent;
    assert ClientOk(r, c);
    assert SlotOk(r, s.clients[c].pc.sid);
    SendKeeps(s, r, s.clients[c].pc.sid, c);
  }

  /** Sending: client `c` and the end of the pipe change, nothing else. */
  ghost predicate Sends(s: State, r: State, i: nat, c: nat) {
    && i <= S && c < |s.clients| && |r.clients| == |s.clients|
    && r.slots == s.slots && r.fds == s.fds && r.dpc == s.dpc
    && (forall d :: 0 <= d < |s.clients| && d != c ==> r.clients[d] == s.clients[d])
    && (forall j :: 0 <= j < |s.slots| && j != i ==> s.slots[j].tenant != Some(c))
    && (s.clients[c].stage.Out? || s.clients[c].stage.Resting?) && r.clients[c].stage.Queued?
    && |r.pipe| == |s.pipe| + 1 && r.pipe[..|s.pipe|] == s.pipe
  }

  /** The messages that were there keep their senders and stay in order. */
  lemma OldMessagesKept(s: State, r: State, i: nat, c: nat)
    requires Inv(s) && Sound(r) && Sends(s, r, i, c)
    ensures forall k :: 0 <= k < |s.pipe| ==> MessageOk(r, s.pipe[k]) && Sender(r, s.pipe[k]) == Sender(s, s.pipe[k])
    ensures forall k :: 0 <= k < |s.pipe| ==> Sender(s, s.pipe[k]) != Some(c)
  {
    SendersQueued(s, c);
    forall k | 0 <= k < |s.pipe| ensures MessageOk(r, s.pipe[k]) && Sender(r, s.pipe[k]) == Sender(s, s.pipe[k]) {
      assert MessageOk(s, s.pipe[k]);
    }
  }

  /** The new message is its sender's only one. */
  lemma NewMessageDistinct(s: State, r: State, i: nat, c: nat)
    requires Inv(s) && Sound(r) && Sends(s, r, i, c)
    requires MessageOk(r, r.pipe[|s.pipe|]) && Sender(r, r.pipe[|s.pipe|]) == Some(c)
    ensures PipeOk(r)
  {
    OldMessagesKept(s, r, i, c);
    forall k | 0 <= k < |s.pipe| ensures r.pipe[k] == s.pipe[k] { assert r.pipe[k] == r.pipe[..|s.pipe|][k]; }
  }

  lemma SendKeeps(s: State, r: State, i: nat, c: nat)
    requires Inv(s) && Sound(r) && Sends(s, r, i, c)
    requires ClientOk(r, c) && (i < S ==> SlotOk(r, i))
    requires MessageOk(r, r.pipe[|s.pipe|]) && Sender(r, r.pipe[|s.pipe|]) == Some(c)
    ensures Inv(r)
  {
    NewMessageDistinct(s, r, i, c);
    SendConfined(s, r, i, c);
  }

  lemma SendConfined(s: State, r: State, i: nat, c: nat)
    requires Inv(s) && Sound(r) && Sends(s, r, i, c)
    ensures DeskOk(r) && TenantsDistinct(r)
    ensures forall j :: 0 <= j < S && j != i ==> SlotOk(r, j)
    ensures forall d :: 0 <= d < |s.clients| && d != c ==> ClientOk(r, d)
  {
    assert Confined(s, r, i, c);
    OthersKept(s, r, i, c);
    if i < S { assert SlotOk(s, i); }
    DeskKept(s, r, i, c);
  }

  lemma ReceiveKeeps(s: State, c: nat)
    requires Inv(s) && ClientStep(s, Receive(c)).Some?
    ensures Inv(ClientStep(s, Receive(c)).value)
  {
    var r := ClientStep(s, Receive(c)).value;
    assert ClientOk(s, c);
    HeldSlot(s, c);
    var i := Holds(s.clients[c]);
    assert ClientOk(r, c);
    if i < S { assert SlotOk(r, i); }
    RestKeeps(s, r, i, c);
  }

  /** Receiving a reply: only the client changes, and comes to rest. */
  lemma RestKeeps(s: State, r: State, i: nat, c: nat)
    requires Inv(s) && i <= S && c < |s.clients| && |r.clients| == |s.clients| && r == SetClient(s, c, r.clients[c])
    requires forall j :: 0 <= j < S && j != i ==> s.slots[j].tenant != Some(c)
    requires s.clients[c].stage.Answered? && (r.clients[c].stage.Resting? || r.clients[c].stage.Over?)
    requires ClientOk(r, c) && (i < S ==> SlotOk(r, i))
    ensures Inv(r)
  {
    OthersKept(s, r, i, c);
    SendersQueued(s, c);
    DeskKept(s, r, i, c);
    PipeKept(s, r, i, c, 0);
  }

  // ----- Kept by workers -----

  /** A step that changes only slot `i`, and neither its tenant nor its request nor its descriptor. */
  lemma SlotStepKeeps(s: State, r: State, i: nat)
    requires Inv(s) && i < S && |r.slots| == S && r == SetSlot(s, i, r.slots[i])
    requires r.slots[i].tenant == s.slots[i].tenant && r.slots[i].request == s.slots[i].request
    requires r.slots[i].free == s.slots[i].free
    requires SlotOk(r, i)
    ensures Inv(r)
  {
    var c := |s.clients|;
    forall j | 0 <= j < S ensures s.slots[j].tenant != Some(c) { assert SlotOk(s, j); }
    OthersKept(s, r, i, c);
    SendersQueued(s, c);
    DeskKept(s, r, i, c);
    PipeKept(s, r, i, c, 0);
  }

  /** A step of worker `i` on the job of its tenant `c`. */
  lemma BoxStepKeeps(s: State, r: State, i: nat, c: nat)
    requires Inv(s) && i < S && c < |s.clients| && s.slots[i].tenant == Some(c) && s.clients[c].stage.Boxed?
    requires Confined(s, r, i, c) && r.dpc == s.dpc && r.pipe == s.pipe
    requires SlotOk(r, i) && ClientOk(r, c)
    requires r.slots[i].request == s.slots[i].request && r.clients[c].sent == s.clients[c].sent
    requires !r.clients[c].stage.OnDesk?
    requires if r.slots[i].free then UnmountBoxed(s, i)
             else r.slots[i].tenant == Some(c) && (r.clients[c].stage.Boxed? || !UnmountBoxed(s, i))
    ensures Inv(r)
  {
    assert SlotOk(s, i);
    OthersKept(s, r, i, c);
    SendersQueued(s, c);
    forall j | 0 <= j < S && j != i ensures UnmountBoxed(r, j) <==> UnmountBoxed(s, j) {
      assert s.slots[j].tenant != Some(c);
    }
    DeskKept(s, r, i, c);
    PipeKept(s, r, i, c, 0);
  }

  lemma TenantElsewhere(s: State, i: nat, c: nat)
    requires Inv(s) && i < S && s.slots[i].tenant == Some(c)
    ensures c < |s.clients| && SlotOk(s, i) && ClientOk(s, c)
    ensures forall j :: 0 <= j < S && j != i ==> s.slots[j].tenant != Some(c)
  {
    assert SlotOk(s, i);
  }

  predicate Busy(pc: WorkerPc) { !pc.ToLock? && !pc.Testing? && !pc.Waiting? }

  /** A busy worker works on the last job of its slot's tenant. */
  lemma BusyHasTenant(s: State, i: nat) returns (c: nat)
    requires Inv(s) && i < S && Busy(s.slots[i].pc)
    ensures s.slots[i].tenant == Some(c) && c < |s.clients| && s.clients[c].stage.Boxed?
    ensures Carries(s, i, s.slots[i], c, s.clients[c]) && !s.slots[i].wakeUp
  {
    assert SlotOk(s, i);
    c := s.slots[i].tenant.value;
  }

  predicate QuietPc(pc: WorkerPc) {
    pc.ToLock? || pc.Testing? || pc.Waiting? || pc.ToUnlock? || pc.ToReadOp? || pc.ToReadArgs?
  }

  lemma QuietWorkKeeps(s: State, i: nat, result: int)
    requires Inv(s) && WorkStep(s, i, result).Some? && QuietPc(s.slots[i].pc)
    ensures Inv(WorkStep(s, i, result).value)
  {
    var r := WorkStep(s, i, result).value;
    assert SlotOk(s, i);
    assert SlotOk(r, i);
    SlotStepKeeps(s, r, i);
  }

  lemma WakeUpKeeps(s: State, i: nat)
    requires Inv(s) && i < S && s.slots[i].pc == Waiting(false)
    ensures Inv(SetSlot(s, i, s.slots[i].(pc := Waiting(true))))
  {
    var r := SetSlot(s, i, s.slots[i].(pc := Waiting(true)));
    assert SlotOk(s, i);
    assert SlotOk(r, i);
    SlotStepKeeps(s, r, i);
  }

  lemma JobIsKnown(k: Client)
    requires HistoryOk(k) && k.stage.Boxed?
    ensures k.sent != [] && !Last(k.sent).Unknown?
    ensures Last(k.sent).Mount? <==> k.pc.AwaitMount?
    ensures Last(k.sent).Unmount? <==> k.pc.Unmounted?
  {
  }

  lemma RunMountKeeps(s: State, i: nat, result: int)
    requires Inv(s) && WorkStep(s, i, result).Some? && s.slots[i].pc.ToRun? && s.slots[i].pc.job.Mount?
    ensures Inv(WorkStep(s, i, result).value)
  {
    var r := WorkStep(s, i, result).value;
    var c := BusyHasTenant(s, i);
    TenantElsewhere(s, i, c);
    JobIsKnown(s.clients[c]);
    assert r.clients[c].ran == s.clients[c].sent;
    assert ClientOk(r, c);
    assert SlotOk(r, i);
    BoxStepKeeps(s, r, i, c);
  }

  /** Executing a client's last job completes its history; it was mounted, and stays so unless it unmounts. */
  lemma JobRan(k: Client)
    requires HistoryOk(k) && k.stage.Boxed? && k.ran == Front(k.sent) && !k.pc.AwaitMount?
    ensures k.ran + [Last(k.sent)] == k.sent && HistoryOk(k.(ran := k.sent))
    ensures Mounted(k) && (Mounted(k.(ran := k.sent)) <==> !k.pc.Unmounted?)
  {
    assert k.ran[|k.ran| - 1] == k.sent[|k.sent| - 2];
  }

  lemma RunJobKeeps(s: State, i: nat, result: int)
    requires Inv(s) && WorkStep(s, i, result).Some? && s.slots[i].pc.ToRun?
    requires !s.slots[i].pc.job.Unmount? && !s.slots[i].pc.job.Mount?
    ensures Inv(WorkStep(s, i, result).value)
  {
    var r := WorkStep(s, i, result).value;
    var c := BusyHasTenant(s, i);
    TenantElsewhere(s, i, c);
    var k := s.clients[c];
    JobIsKnown(k);
    JobRan(k);
    assert Leads(s, s.slots[i].fhandler, c);
    assert r == SetSlot(SetClient(s, c, k.(ran := k.sent)), i, s.slots[i].(pc := ToReply(s.slots[i].pc.job, result)))
                  .(halted := r.halted);
    assert ClientOk(r, c);
    assert SlotOk(r, i);
    BoxStepKeeps(s, r, i, c);
  }

  lemma RunUnmountKeeps(s: State, i: nat, result: int)
    requires Inv(s) && WorkStep(s, i, result).Some? && s.slots[i].pc.ToRun? && s.slots[i].pc.job.Unmount?
    ensures Inv(WorkStep(s, i, result).value)
  {
    var r := WorkStep(s, i, result).value;
    var c := BusyHasTenant(s, i);
    TenantElsewhere(s, i, c);
    var k := s.clients[c];
    JobIsKnown(k);
    JobRan(k);
    assert Leads(s, s.slots[i].fhandler, c);
    assert r.clients[c] == k.(ran := k.sent);
    assert ClientOk(r, c);
    assert SlotOk(r, i);
    BoxStepKeeps(s, r, i, c);
  }

  lemma ReplyKeeps(s: State, i: nat, result: int)
    requires Inv(s) && WorkStep(s, i, result).Some? && s.slots[i].pc.ToReply?
    ensures Inv(WorkStep(s, i, result).value)
  {
    var c := BusyHasTenant(s, i);
    ReplyChanges(s, i, result, c);
    AnsweredKeeps(s, WorkStep(s, i, result).value, i, c);
  }

  /** The client has the reply to its last job, and the worker is back at its mutex. */
  ghost predicate Answers(s: State, r: State, i: nat, c: nat) {
    && Sound(s) && Sound(r) && i < S && s.slots[i].pc.ToReply? && s.slots[i].tenant == Some(c)
    && c < |s.clients| && s.clients[c].sent != [] && r.pipe == s.pipe && r.dpc == s.dpc && r.fds == s.fds
    && r.slots == s.slots[i := s.slots[i].(pc := ToLock)]
    && r.clients == s.clients[c := s.clients[c].(
         replies := [Reply(Last(s.clients[c].sent), s.slots[i].pc.result)], stage := Answered)]
  }

  lemma AnsweredKeeps(s: State, r: State, i: nat, c: nat)
    requires Inv(s) && Answers(s, r, i, c)
    ensures Inv(r)
  {
    AnsweredInOrder(s, r, i, c);
    TenantElsewhere(s, i, c);
    var d := BusyHasTenant(s, i);
    BoxStepKeeps(s, r, i, c);
  }

  lemma AnsweredInOrder(s: State, r: State, i: nat, c: nat)
    requires Inv(s) && Answers(s, r, i, c)
    ensures ClientOk(r, c) && SlotOk(r, i)
  {
    TenantElsewhere(s, i, c);
    var d := BusyHasTenant(s, i);
    JobIsKnown(s.clients[c]);
  }

  lemma ReplyChanges(s: State, i: nat, result: int, c: nat)
    requires Inv(s) && WorkStep(s, i, result).Some? && s.slots[i].pc.ToReply? && s.slots[i].tenant == Some(c)
    requires c < |s.clients|
    ensures Answers(s, WorkStep(s, i, result).value, i, c)
  {
    TenantElsewhere(s, i, c);
    var d := BusyHasTenant(s, i);
    JobIsKnown(s.clients[c]);
    var fd := if Last(s.clients[c].sent).Mount? then s.slots[i].request.fcli else s.slots[i].fhandler;
    assert Leads(s, fd, c);
    var reply := Reply(Last(s.clients[c].sent), s.slots[i].pc.result);
    assert s.clients[c].replies + [reply] == [reply];
    assert WorkStep(s, i, result).value ==
           SetSlot(Deliver(s, fd, reply), i, s.slots[i].(pc := ToLock)).(halted := reply.job.Shutdown?);
  }

  lemma FreeKeeps(s: State, i: nat, result: int)
    requires Inv(s) && WorkStep(s, i, result).Some? && s.slots[i].pc.ToFree?
    ensures Inv(WorkStep(s, i, result).value)
  {
    var r := WorkStep(s, i, result).value;
    var c := BusyHasTenant(s, i);
    TenantElsewhere(s, i, c);
    JobIsKnown(s.clients[c]);
    assert ClientOk(r, c);
    assert SlotOk(r, i);
    BoxStepKeeps(s, r, i, c);
  }

  lemma WorkKeeps(s: State, i: nat, result: int)
    requires Inv(s) && WorkStep(s, i, result).Some?
    ensures Inv(WorkStep(s, i, result).value)
  {
    match s.slots[i].pc
    case ToRun(job) =>
      if job.Unmount? { RunUnmountKeeps(s, i, result); }
      else if job.Mount? { RunMountKeeps(s, i, result); }
      else { RunJobKeeps(s, i, result); }
    case ToReply(_, _) => ReplyKeeps(s, i, result);
    case ToFree => FreeKeeps(s, i, result);
    case _ => QuietWorkKeeps(s, i, result);
  }

  // ----- Kept by the dispatcher -----

  lemma HeadSender(s: State) returns (c: nat)
    requires Inv(s) && s.pipe != []
    ensures Sender(s, s.pipe[0]) == Some(c) && c < |s.clients| && MessageOk(s, s.pipe[0]) && ClientOk(s, c)
    ensures forall k :: 1 <= k < |s.pipe| ==> Sender(s, s.pipe[k]) != Some(c)
  {
    assert MessageOk(s, s.pipe[0]);
    c := Sender(s, s.pipe[0]).value;
  }

  lemma TakeMountKeeps(s: State, fd: int)
    requires Inv(s) && s.dpc.Head? && TakeMessage(s, fd).Some? && s.pipe[0].MountMsg?
    ensures Inv(TakeMessage(s, fd).value)
  {
    var r := TakeMessage(s, fd).value;
    var c := HeadSender(s);
    forall j | 0 <= j < S ensures s.slots[j].tenant != Some(c) { assert SlotOk(s, j); }
    OthersKept(s, r, S, c);
    PipeKept(s, r, S, c, 1);
    assert ClientOk(r, c);
  }

  lemma TakeJobKeeps(s: State, fd: int)
    requires Inv(s) && s.dpc.Head? && TakeMessage(s, fd).Some? && TakeMessage(s, fd).value.dpc.PostLock?
    ensures Inv(TakeMessage(s, fd).value)
  {
    var r := TakeMessage(s, fd).value;
    var c := HeadSender(s);
    var i := s.pipe[0].sid;
    TenantElsewhere(s, i, c);
    JobIsLast(s, c);
    HandOver(s, r, i, c);
  }

  /** The client's job comes from the pipe to the dispatcher, which will post it into the client's slot. */
  lemma HandOver(s: State, r: State, i: nat, c: nat)
    requires Inv(s) && s.dpc.Head? && s.pipe != [] && i < S && s.slots[i].tenant == Some(c) && c < |s.clients|
    requires forall j :: 0 <= j < S && j != i ==> s.slots[j].tenant != Some(c)
    requires forall k :: 1 <= k < |s.pipe| ==> Sender(s, s.pipe[k]) != Some(c)
    requires ClientOk(s, c) && SlotOk(s, i) && s.clients[c].stage.Queued? && !s.clients[c].pc.AwaitMount?
    requires s.clients[c].sent != []
    requires r == SetClient(s, c, s.clients[c].(stage := OnDesk)).(
                    pipe := s.pipe[1..], dpc := PostLock(i, Last(s.clients[c].sent), -1))
    ensures Inv(r)
  {
    OthersKept(s, r, i, c);
    PipeKept(s, r, i, c, 1);
    assert ClientOk(r, c);
    assert SlotOk(r, i);
  }

  lemma JobIsLast(s: State, c: nat)
    requires Inv(s) && c < |s.clients| && s.clients[c].stage.Queued?
    ensures s.clients[c].sent != [] && (s.clients[c].pc.Unmounted? ==> Last(s.clients[c].sent) == Unmount)
    ensures s.clients[c].pc.Await? ==> IsRequest(Last(s.clients[c].sent))
  {
    assert ClientOk(s, c);
  }

  /** A mount is refused: the client gets -1 and has no slot. */
  lemma RefuseKeeps(s: State, r: State, c: nat, fd: int)
    requires Inv(s) && Visiting(s, c, fd) && (s.dpc == MountTest(c, fd) || s.dpc == MountFind(c, fd))
    requires r == Refuse(s, fd).(fds := r.fds, globalHeld := r.globalHeld)
    requires forall f, d :: d != c && Leads(s, f, d) ==> Leads(r, f, d)
    ensures Inv(r)
  {
    assert ClientOk(s, c);
    OthersKept(s, r, S, c);
    SendersQueued(s, c);
    PipeKept(s, r, S, c, 0);
    assert ClientOk(r, c);
  }

  lemma MountTestKeeps(s: State)
    requires Inv(s) && s.dpc.MountTest?
    ensures DispatchStep(s, 0).Some? && Inv(DispatchStep(s, 0).value)
  {
    var r, c, fd := DispatchStep(s, 0).value, s.dpc.client, s.dpc.fd;
    if s.openSessions == S {
      RefuseKeeps(s, r, c, fd);
    } else {
      OthersKept(s, r, S, c);
      assert ClientOk(s, c);
      SendersQueued(s, c);
      PipeKept(s, r, S, c, 0);
      assert ClientOk(r, c);
    }
  }

  lemma MountFindKeeps(s: State)
    requires Inv(s) && s.dpc.MountFind? && DispatchStep(s, 0).Some?
    ensures Inv(DispatchStep(s, 0).value)
  {
    var r, c, fd := DispatchStep(s, 0).value, s.dpc.client, s.dpc.fd;
    var i := FirstFreeSlot(s.slots);
    if i == S {
      RefuseKeeps(s, r, c, fd);
    } else {
      assert SlotOk(s, i);
      assert ClientOk(s, c);
      OthersKept(s, r, i, c);
      SendersQueued(s, c);
      PipeKept(s, r, i, c, 0);
      assert ClientOk(r, c);
      assert SlotOk(r, i);
    }
  }

  predicate PostPc(dpc: DispatcherPc) { dpc.PostLock? || dpc.PostOp? || dpc.PostArgs? }

  /** Taking the mutex and writing the request change one idle slot. */
  lemma IdleSlotStepKeeps(s: State, r: State, i: nat)
    requires Inv(s) && i < S && |r.slots| == S && r == SetSlot(s, i, r.slots[i]).(dpc := r.dpc)
    requires r.slots[i].tenant == s.slots[i].tenant && SlotOk(r, i) && DeskOk(r)
    requires forall j :: 0 <= j < S && j != i ==> (Posting(r.dpc, j) <==> Posting(s.dpc, j))
    ensures Inv(r)
  {
    var c := |s.clients|;
    forall j | 0 <= j < S ensures s.slots[j].tenant != Some(c) { assert SlotOk(s, j); }
    OthersKept(s, r, i, c);
    SendersQueued(s, c);
    PipeKept(s, r, i, c, 0);
  }

  /** While the dispatcher fills the request the worker is not looking, so the slot stays in order. */
  lemma PostKeeps(s: State)
    requires Inv(s) && PostPc(s.dpc) && DispatchStep(s, 0).Some?
    ensures Inv(DispatchStep(s, 0).value)
  {
    var r, i := DispatchStep(s, 0).value, s.dpc.i;
    PostKeepsSlot(s);
    PostKeepsDesk(s);
    IdleSlotStepKeeps(s, r, i);
  }

  lemma PostKeepsSlot(s: State)
    requires Inv(s) && PostPc(s.dpc) && DispatchStep(s, 0).Some? && s.dpc.i < S
    ensures SlotOk(DispatchStep(s, 0).value, s.dpc.i)
  {
    TenantElsewhere(s, s.dpc.i, s.slots[s.dpc.i].tenant.value);
  }

  lemma PostKeepsDesk(s: State)
    requires Inv(s) && PostPc(s.dpc) && DispatchStep(s, 0).Some?
    ensures DeskOk(DispatchStep(s, 0).value)
  {
    PostedJobKnown(s, s.dpc.i, s.dpc.job);
    StoredIsLoaded(s.slots[s.dpc.i].request, s.dpc.job, s.dpc.fd);
  }

  lemma PostedJobKnown(s: State, i: nat, job: Job)
    requires Inv(s) && PostPc(s.dpc) && PostOk(s, i, job, s.dpc.fd)
    ensures !job.Unknown?
  {
    assert ClientOk(s, s.slots[i].tenant.value);
  }

  /** The worker's reads give back what the dispatcher's writes put there. */
  lemma StoredIsLoaded(r: Request, job: Job, fd: int)
    ensures job.Unknown? || LoadArgs(CodeOf(job), StoreArgs(r, job, fd)) == job
    ensures StoreArgs(r, job, fd).opCode == r.opCode
    ensures job.Mount? ==> StoreArgs(r, job, fd).fcli == fd
  {
  }

  lemma PostWakeKeeps(s: State)
    requires Inv(s) && s.dpc.PostWake? && DispatchStep(s, 0).Some?
    ensures Inv(DispatchStep(s, 0).value)
  {
    var r, i := DispatchStep(s, 0).value, s.dpc.i;
    var c := s.slots[i].tenant.value;
    TenantElsewhere(s, i, c);
    OthersKept(s, r, i, c);
    SendersQueued(s, c);
    PipeKept(s, r, i, c, 0);
    assert ClientOk(r, c);
    assert SlotOk(r, i);
  }

  lemma PostUnlockKeeps(s: State)
    requires Inv(s) && s.dpc.PostUnlock?
    ensures DispatchStep(s, 0).Some? && Inv(DispatchStep(s, 0).value)
  {
    var r, i := DispatchStep(s, 0).value, s.dpc.i;
    var c := |s.clients|;
    forall j | 0 <= j < S ensures s.slots[j].tenant != Some(c) { assert SlotOk(s, j); }
    OthersKept(s, r, i, c);
    SendersQueued(s, c);
    PipeKept(s, r, i, c, 0);
    assert SlotOk(s, i);
    assert SlotOk(r, i);
  }

  lemma CountKeeps(s: State)
    requires Inv(s) && (s.dpc.CountUp? || s.dpc.CountDown?) && DispatchStep(s, 0).Some?
    ensures Inv(DispatchStep(s, 0).value)
  {
    var r, c := DispatchStep(s, 0).value, |s.clients|;
    forall j | 0 <= j < S ensures s.slots[j].tenant != Some(c) { assert SlotOk(s, j); }
    OthersKept(s, r, S, c);
    SendersQueued(s, c);
    PipeKept(s, r, S, c, 0);
  }

  /** An unmount refused for want of sessions is dropped. */
  lemma RefusedUnmountKeeps(s: State)
    requires Inv(s) && s.dpc.Head? && s.pipe != []
    ensures Inv(s.(pipe := s.pipe[1..]))
  {
    var r, c := s.(pipe := s.pipe[1..]), |s.clients|;
    forall j | 0 <= j < S ensures s.slots[j].tenant != Some(c) { assert SlotOk(s, j); }
    OthersKept(s, r, S, c);
    SendersQueued(s, c);
    PipeKept(s, r, S, c, 1);
  }

  lemma DispatchKeeps(s: State, fd: int)
    requires Inv(s) && DispatchStep(s, fd).Some?
    ensures Inv(DispatchStep(s, fd).value)
  {
    match s.dpc
    case Head =>
      if s.pipe[0].MountMsg? { TakeMountKeeps(s, fd); }
      else if s.pipe[0].UnmountMsg? && (s.openSessions == 0 || s.pipe[0].sid == -1) { RefusedUnmountKeeps(s); }
      else { TakeJobKeeps(s, fd); }
    case MountTest(_, _) => MountTestKeeps(s);
    case MountFind(_, _) => MountFindKeeps(s);
    case PostWake(_, _, _) => PostWakeKeeps(s);
    case PostUnlock(_, _) => PostUnlockKeeps(s);
    case CountUp(_) => CountKeeps(s);
    case CountDown(_) => CountKeeps(s);
    case _ => PostKeeps(s);
  }

  // ----- Every step, every run -----

  lemma StepKeeps(s: State, a: Action)
    requires Inv(s) && Step(s, a).Some?
    ensures Inv(Step(s, a).value)
  {
    match a
    case Dispatch(fd) => DispatchKeeps(s, fd);
    case Work(i, result) => WorkKeeps(s, i, result);
    case SpuriousWakeUp(i) => WakeUpKeeps(s, i);
    case SendMount(c) => SendMountKeeps(s, c);
    case SendJob(c, job) => SendJobKeeps(s, c, job);
    case SendUnmount(c) => SendUnmountKeeps(s, c);
    case Receive(c) => ReceiveKeeps(s, c);
  }

  lemma {:induction false} Reachable(n: nat, actions: seq<Action>)
    requires Execute(Initial(n), actions).Some?
    ensures Inv(Execute(Initial(n), actions).value)
    decreases |actions|
  {
    if actions != [] {
      var front := actions[..|actions| - 1];
      Reachable(n, front);
      StepKeeps(Execute(Initial(n), front).value, actions[|actions| - 1]);
    }
  }
}
