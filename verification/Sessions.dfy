/**
 tfs_server.c and its clients as a machine of small steps: one dispatcher, one worker per session slot, any number
 of clients, a pipe into the server and one back to each client. The dispatcher fills a slot's request in several
 steps under its mutex; the worker reads it in several steps after releasing the mutex. What the file system
 answers is arbitrary here.
 */
module Sessions {
  import opened Config

  /** The number of session slots. */
  const S: nat := 10

  /** A request as a client means it. */
  datatype Job =
    | Mount | Unmount
    | Open(name: CString, flags: int) | Close(h: int) | Write(h: int, data: seq<byte>) | Read(h: int, len: nat)
    | Shutdown
    | Unknown

  /** `request_t`: every post leaves the fields it does not need as they were. */
  datatype Request = Request(
    opCode: int, fcli: int, fhandler: int, len: nat, flags: int, name: CString, toWrite: seq<byte>)

  function CodeOf(job: Job): int {
    match job
    case Mount => 1
    case Unmount => 2
    case Open(_, _) => 3
    case Close(_) => 4
    case Write(_, _) => 5
    case Read(_, _) => 6
    case Shutdown => 7
    case Unknown => -1
  }

  /** The fields a handler of the dispatcher stores besides the operation code. */
  function StoreArgs(r: Request, job: Job, fd: int): Request {
    match job
    case Mount => r.(fcli := fd)
    case Open(name, flags) => r.(name := name, flags := flags)
    case Close(h) => r.(fhandler := h)
    case Write(h, data) => r.(fhandler := h, len := |data|, toWrite := data)
    case Read(h, len) => r.(fhandler := h, len := len)
    case _ => r
  }

  /** The fields a handler of the worker reads, for the command it has read before. */
  function LoadArgs(command: int, r: Request): Job {
    if command == 1 then Mount
    else if command == 2 then Unmount
    else if command == 3 then Open(r.name, r.flags)
    else if command == 4 then Close(r.fhandler)
    else if command == 5 then Write(r.fhandler, Take(r.toWrite, r.len))
    else if command == 6 then Read(r.fhandler, r.len)
    else if command == 7 then Shutdown
    else Unknown
  }

  datatype Holder = Nobody | ByDispatcher | ByWorker

  datatype WorkerPc =
    | ToLock | Testing | Waiting(signalled: bool)   // solve_request up to the end of its wait loop
    | ToUnlock | ToReadOp | ToReadArgs(command: int)
    | ToRun(job: Job)
    | ToReply(answered: Job, result: int)
    | ToFree                                        // unmount: the slot itself

  /** Slot `i`: `free_sessions[i]`, `sessions[i].fhandler` and `slaves[i]`. `tenant`, the client it was taken for,
      is read by no step. */
  datatype Slot = Slot(
    free: bool, fhandler: int, wakeUp: bool, request: Request, holder: Holder, pc: WorkerPc, tenant: Option<nat>)

  datatype Reply = Reply(job: Job, result: int)

  datatype ClientPc =
    | Fresh | AwaitMount | Ready(sid: int) | Await(sid: int) | Unmounted(sid: int) | Refused

  /** Where a client's current request is; read by no step. */
  datatype Stage = Out | Queued | OnDesk | Boxed | Answered | Resting | Over

  /** `sent` and `ran` are the jobs sent by the client and executed for it; read by no step. */
  datatype Client = Client(pc: ClientPc, replies: seq<Reply>, stage: Stage, sent: seq<Job>, ran: seq<Job>)

  datatype Message = MountMsg(client: nat) | UnmountMsg(sid: int) | JobMsg(sid: int, job: Job)

  datatype DispatcherPc =
    | Head
    | MountTest(client: nat, fd: int) | MountFind(client: nat, fd: int)
    | PostLock(i: nat, job: Job, fd: int) | PostOp(i: nat, job: Job, fd: int) | PostArgs(i: nat, job: Job, fd: int)
    | PostWake(i: nat, job: Job, fd: int) | PostUnlock(i: nat, job: Job)
    | CountUp(i: nat) | CountDown(i: nat)

  /** `fds` gives the client at the other end of each open descriptor. `globalHeld`: find_free_pos has returned
      without releasing global_mutex. `halted`: the process has exited, after a
      shutdown or a failed write. */
  datatype State = State(
    clients: seq<Client>, pipe: seq<Message>, dpc: DispatcherPc, slots: seq<Slot>, openSessions: int,
    fds: map<int, nat>, globalHeld: bool, halted: bool)

  datatype Action =
    | Dispatch(fd: int)                 // the dispatcher's next step; fd is what open returns, if it opens
    | Work(i: nat, result: int)         // worker i's next step; result is what the file system answers, if asked
    | SpuriousWakeUp(i: nat)
    | SendMount(c: nat) | SendJob(c: nat, job: Job) | SendUnmount(c: nat) | Receive(c: nat)

  const NO_REQUEST := Request(-1, -1, -1, 0, -1, [], [])

  /** server_init, with `n` clients about to come. */
  function Initial(n: nat): (s: State)
    ensures Sound(s) && |s.clients| == n
  {
    State(seq(n, _ => Client(Fresh, [], Out, [], [])), [], Head,
          seq(S, _ => Slot(true, -1, false, NO_REQUEST, Nobody, ToLock, None)), 0, map[], false, false)
  }

  predicate Sound(s: State) { |s.slots| == S }

  function SetSlot(s: State, i: nat, slot: Slot): State
    requires i < |s.slots|
  {
    s.(slots := s.slots[i := slot])
  }

  function SetClient(s: State, c: nat, client: Client): State
    requires c < |s.clients|
  {
    s.(clients := s.clients[c := client])
  }

  function SetStage(s: State, c: Option<nat>, stage: Stage): State {
    if c.Some? && c.value < |s.clients| then SetClient(s, c.value, s.clients[c.value].(stage := stage)) else s
  }

  function Tenant(s: State, sid: int): Option<nat> { if InRange(sid, |s.slots|) then s.slots[sid].tenant else None }

  /** Writing a reply into descriptor `fd`. */
  function Deliver(s: State, fd: int, reply: Reply): State {
    if fd in s.fds && s.fds[fd] < |s.clients| then
      var c := s.fds[fd];
      SetClient(s, c, s.clients[c].(replies := s.clients[c].replies + [reply], stage := Answered))
    else s
  }

  /** Recording that the job was executed for the client behind `fd`. */
  function Record(s: State, fd: int, job: Job): State {
    if fd in s.fds && s.fds[fd] < |s.clients| then
      var c := s.fds[fd];
      SetClient(s, c, s.clients[c].(ran := s.clients[c].ran + [job]))
    else s
  }

  // ----- Clients -----

  predicate IsRequest(job: Job) { !job.Mount? && !job.Unmount? && !job.Unknown? }

  function ClientStep(s: State, a: Action): (r: Option<State>)
    requires a.SendMount? || a.SendJob? || a.SendUnmount? || a.Receive?
    ensures r.Some? ==> |r.value.slots| == |s.slots| && |r.value.clients| == |s.clients|
  {
    if a.c >= |s.clients| then None
    else
      var k := s.clients[a.c];
      match a
      case SendMount(c) =>
        if !k.pc.Fresh? then None
        else Some(SetClient(s, c, k.(pc := AwaitMount, stage := Queued, sent := k.sent + [Mount]))
                    .(pipe := s.pipe + [MountMsg(c)]))
      case SendJob(c, job) =>
        if !k.pc.Ready? || !IsRequest(job) then None
        else Some(SetClient(s, c, k.(pc := Await(k.pc.sid), stage := Queued, sent := k.sent + [job]))
                    .(pipe := s.pipe + [JobMsg(k.pc.sid, job)]))
      case SendUnmount(c) =>
        if !k.pc.Ready? then None
        else Some(SetClient(s, c, k.(pc := Unmounted(k.pc.sid), stage := Queued, sent := k.sent + [Unmount]))
                    .(pipe := s.pipe + [UnmountMsg(k.pc.sid)]))
      case Receive(c) =>
        if k.replies == [] then None
        else if k.pc.AwaitMount? then
          var sid := k.replies[0].result;
          Some(SetClient(s, c, k.(pc := if sid < 0 then Refused else Ready(sid), replies := k.replies[1..],
                                  stage := if sid < 0 then Over else Resting)))
        else if k.pc.Await? then
          Some(SetClient(s, c, k.(pc := Ready(k.pc.sid), replies := k.replies[1..], stage := Resting)))
        else None
  }

  // ----- Dispatcher -----

  /** The first slot marked free at or after `from`, or |slots|. */
  function FirstFreeSlot(slots: seq<Slot>, from: nat := 0): (i: nat)
    requires from <= |slots|
    ensures from <= i <= |slots|
    ensures i < |slots| ==> slots[i].free
    ensures forall k :: from <= k < i ==> !slots[k].free
    decreases |slots| - from
  {
    if from == |slots| || slots[from].free then from else FirstFreeSlot(slots, from + 1)
  }

  /** Refusing a mount: -1 into the client's pipe. */
  function Refuse(s: State, fd: int): State { Deliver(s, fd, Reply(Mount, -1)).(dpc := Head) }

  function TakeMessage(s: State, fd: int): Option<State> {
    if s.pipe == [] then None
    else
      var s1 := s.(pipe := s.pipe[1..]);
      match s.pipe[0]
      case MountMsg(c) =>
        if fd in s.fds || fd < 0 then None
        else Some(SetStage(s1, Some(c), OnDesk).(fds := s.fds[fd := c], dpc := MountTest(c, fd)))
      case UnmountMsg(sid) =>
        if s.openSessions == 0 || sid == -1 then Some(s1)
        else if !InRange(sid, |s.slots|) then None
        else Some(SetStage(s1, Tenant(s, sid), OnDesk).(dpc := PostLock(sid, Unmount, -1)))
      case JobMsg(sid, job) =>
        if !InRange(sid, |s.slots|) then None
        else Some(SetStage(s1, Tenant(s, sid), OnDesk).(dpc := PostLock(sid, job, -1)))
  }

  function DispatchStep(s: State, fd: int): (r: Option<State>)
    requires Sound(s)
    ensures r.Some? ==> |r.value.slots| == |s.slots| && |r.value.clients| == |s.clients|
  {
    match s.dpc
    case Head => TakeMessage(s, fd)
    case MountTest(c, f) =>
      if s.openSessions == S then Some(Refuse(s, f).(fds := s.fds - {f})) else Some(s.(dpc := MountFind(c, f)))
    case MountFind(c, f) =>
      if s.globalHeld then None
      else
        var i := FirstFreeSlot(s.slots);
        if i == S then Some(Refuse(s, f).(globalHeld := true))
        else Some(SetSlot(s, i, s.slots[i].(free := false, tenant := Some(c))).(dpc := PostLock(i, Mount, f)))
    case PostLock(i, job, f) =>
      if i >= S || !s.slots[i].holder.Nobody? then None
      else Some(SetSlot(s, i, s.slots[i].(holder := ByDispatcher)).(dpc := PostOp(i, job, f)))
    case PostOp(i, job, f) =>
      if i >= S then None
      else
        var q := s.slots[i].request.(opCode := CodeOf(job));
        Some(SetSlot(s, i, s.slots[i].(request := q)).(dpc := PostArgs(i, job, f)))
    case PostArgs(i, job, f) =>
      if i >= S then None
      else
        var q := StoreArgs(s.slots[i].request, job, f);
        Some(SetSlot(s, i, s.slots[i].(request := q)).(dpc := PostWake(i, job, f)))
    case PostWake(i, job, _) =>
      if i >= S then None
      else
        var w := s.slots[i];
        Some(SetSlot(SetStage(s, w.tenant, Boxed), i,
                     w.(wakeUp := true, pc := if w.pc.Waiting? then Waiting(true) else w.pc))
               .(dpc := PostUnlock(i, job)))
    case PostUnlock(i, job) =>
      if i >= S then None
      else Some(SetSlot(s, i, s.slots[i].(holder := Nobody))
                  .(dpc := if job.Mount? then CountUp(i) else if job.Unmount? then CountDown(i) else Head))
    case CountUp(_) => if s.globalHeld then None else Some(s.(openSessions := s.openSessions + 1, dpc := Head))
    case CountDown(_) => if s.globalHeld then None else Some(s.(openSessions := s.openSessions - 1, dpc := Head))
  }

  // ----- Workers -----

  /** Executing the job that has been read. */
  function RunStep(s: State, i: nat, job: Job, result: int): (r: Option<State>)
    requires Sound(s) && i < S
    ensures r.Some? ==> |r.value.slots| == |s.slots| && |r.value.clients| == |s.clients|
  {
    var w := s.slots[i];
    match job
    case Mount =>
      if s.globalHeld then None
      else Some(SetSlot(Record(s, w.request.fcli, Mount), i, w.(fhandler := w.request.fcli, pc := ToReply(Mount, i))))
    case Unmount =>
      Some(SetSlot(Record(s, w.fhandler, Unmount), i, w.(fhandler := -1, pc := ToFree)).(fds := s.fds - {w.fhandler}))
    case Unknown => Some(SetSlot(s, i, w.(pc := ToLock)))
    case Write(_, _) =>
      // a write that fails ends the process
      Some(SetSlot(Record(s, w.fhandler, job), i, w.(pc := ToReply(job, result))).(halted := result < 0))
    case _ => Some(SetSlot(Record(s, w.fhandler, job), i, w.(pc := ToReply(job, result))))
  }

  function WorkStep(s: State, i: nat, result: int): (r: Option<State>)
    requires Sound(s)
    ensures r.Some? ==> |r.value.slots| == |s.slots| && |r.value.clients| == |s.clients|
  {
    if i >= S then None
    else
      var w := s.slots[i];
      match w.pc
      case ToLock =>
        if !w.holder.Nobody? then None else Some(SetSlot(s, i, w.(holder := ByWorker, pc := Testing)))
      case Testing =>
        if w.wakeUp then Some(SetSlot(s, i, w.(wakeUp := false, pc := ToUnlock)))
        else Some(SetSlot(s, i, w.(holder := Nobody, pc := Waiting(false))))
      case Waiting(signalled) =>
        if !signalled || !w.holder.Nobody? then None else Some(SetSlot(s, i, w.(holder := ByWorker, pc := Testing)))
      case ToUnlock => Some(SetSlot(s, i, w.(holder := Nobody, pc := ToReadOp)))
      case ToReadOp => Some(SetSlot(s, i, w.(pc := ToReadArgs(w.request.opCode))))
      case ToReadArgs(command) => Some(SetSlot(s, i, w.(pc := ToRun(LoadArgs(command, w.request)))))
      case ToRun(job) => RunStep(s, i, job, result)
      case ToReply(job, r) =>
        var fd := if job.Mount? then w.request.fcli else w.fhandler;
        Some(SetSlot(Deliver(s, fd, Reply(job, r)), i, w.(pc := ToLock)).(halted := job.Shutdown?))
      case ToFree =>
        if s.globalHeld then None
        else Some(SetSlot(SetStage(s, w.tenant, Over), i, w.(free := true, tenant := None, pc := ToLock)))
  }

  function Step(s: State, a: Action): (r: Option<State>)
    requires Sound(s)
    ensures r.Some? ==> Sound(r.value) && |r.value.clients| == |s.clients|
  {
    if s.halted then None
    else
      match a
      case Dispatch(fd) => DispatchStep(s, fd)
      case Work(i, result) => WorkStep(s, i, result)
      case SpuriousWakeUp(i) =>
        if i < S && s.slots[i].pc == Waiting(false) then Some(SetSlot(s, i, s.slots[i].(pc := Waiting(true)))) else None
      case _ => ClientStep(s, a)
  }

  function Execute(s: State, actions: seq<Action>): (r: Option<State>)
    requires Sound(s)
    ensures r.Some? ==> Sound(r.value) && |r.value.clients| == |s.clients|
    decreases |actions|
  {
    if actions == [] then Some(s)
    else
      match Execute(s, actions[..|actions| - 1])
      case None => None
      case Some(m) => Step(m, actions[|actions| - 1])
  }
}
