/**
 The tables of tfs_server.c in their own form: arrays and counters that the dispatcher and the workers update in
 place. Each method is one thread running alone; what it leaves in the tables is what the steps of the session
 machine say it should.
 */
module ServerTables {
  import opened Config
  import opened Sessions

  function Dispatcher(s: State): Option<State> { if Sound(s) then DispatchStep(s, -1) else None }

  /** `r` is `s` after `k` steps of one thread. */
  ghost predicate After(next: State -> Option<State>, s: State, k: nat, r: State)
    decreases k
  {
    if k == 0 then r == s else next(s).Some? && After(next, next(s).value, k - 1, r)
  }

  lemma {:induction false} Joined(next: State -> Option<State>, s: State, k: nat, m: State, l: nat, r: State)
    requires After(next, s, k, m) && After(next, m, l, r)
    ensures After(next, s, k + l, r)
    decreases k
  {
    if k > 0 {
      Joined(next, next(s).value, k - 1, m, l, r);
    }
  }

  /** `r` is `s` after the dispatcher's next `k` steps. */
  ghost predicate Dispatched(s: State, k: nat, r: State) { After(Dispatcher, s, k, r) }

  lemma FirstStep(s: State, n: State, k: nat, r: State)
    requires Sound(s) && DispatchStep(s, -1) == Some(n) && Dispatched(n, k, r)
    ensures Dispatched(s, k + 1, r)
  {
    assert Dispatcher(s) == Some(n);
  }

  lemma LastStep(s: State, k: nat, m: State, r: State)
    requires Dispatched(s, k, m) && Sound(m) && DispatchStep(m, -1) == Some(r)
    ensures Dispatched(s, k + 1, r)
  {
    FirstStep(m, r, 0, r);
    Joined(Dispatcher, s, k, m, 1, r);
  }

  /** `r` is `s` after worker `i`'s next `k` steps, none of which asks the file system. */
  ghost predicate Worked(s: State, i: nat, k: nat, r: State) {
    After(t => if Sound(t) then WorkStep(t, i, -1) else None, s, k, r)
  }

  class Server {
    const freeSessions: array<bool>
    const fhandlers: array<int>       // sessions[i].fhandler
    const wakeUp: array<bool>         // slaves[i].wake_up
    const requests: array<Request>    // slaves[i].request
    var openSessions: int
    var globalHeld: bool              // global_mutex

    ghost predicate Valid() {
      && freeSessions.Length == S && fhandlers.Length == S && wakeUp.Length == S && requests.Length == S
      && freeSessions != wakeUp
    }

    /** The tables hold what state `s` of the session machine says. */
    ghost predicate Shows(s: State)
      reads this, freeSessions, fhandlers, wakeUp, requests
    {
      && Valid() && Sound(s) && openSessions == s.openSessions && globalHeld == s.globalHeld
      && forall i :: 0 <= i < S ==>
           && freeSessions[i] == s.slots[i].free && fhandlers[i] == s.slots[i].fhandler
           && wakeUp[i] == s.slots[i].wakeUp && requests[i] == s.slots[i].request
    }

    /** server_init. */
    constructor ()
      ensures forall n: nat :: Shows(Initial(n))
    {
      openSessions, globalHeld := 0, false;
      freeSessions, fhandlers := new bool[S], new int[S];
      wakeUp, requests := new bool[S], new Request[S];
      new;
      for i := 0 to S
        invariant openSessions == 0 && !globalHeld
        invariant forall k :: 0 <= k < i ==> freeSessions[k] && fhandlers[k] == -1
      {
        freeSessions[i] := true;
        fhandlers[i] := -1;
      }
      for i := 0 to S
        invariant openSessions == 0 && !globalHeld
        invariant forall k :: 0 <= k < S ==> freeSessions[k] && fhandlers[k] == -1
        invariant forall k :: 0 <= k < i ==> requests[k] == NO_REQUEST && !wakeUp[k]
      {
        requests[i] := NO_REQUEST;
        wakeUp[i] := false;
      }
      forall n: nat ensures Shows(Initial(n)) {
        assert forall k :: 0 <= k < S ==>
          Initial(n).slots[k] == Slot(true, -1, false, NO_REQUEST, Nobody, ToLock, None);
      }
    }

    // ----- The dispatcher -----

    /** find_free_pos: the first free slot, now taken; or -1, with global_mutex still held. */
    method FindFreePos(ghost s: State) returns (session: int, ghost r: State)
      requires Shows(s) && s.dpc.MountFind? && !globalHeld
      modifies this`globalHeld, freeSessions
      ensures Dispatched(s, 1, r) && Shows(r)
      ensures -1 <= session < S && (globalHeld <==> session == -1)
      ensures r.dpc == if session < 0 then Head else PostLock(session, Mount, s.dpc.fd)
    {
      session := -1;
      globalHeld := true;
      var i := 0;
      while i < S
        invariant 0 <= i <= S
        invariant forall k :: 0 <= k < i ==> !freeSessions[k]
      {
        if freeSessions[i] {
          session := i;
          break;
        }
        i := i + 1;
      }
      r := DispatchStep(s, -1).value;
      if session == -1 {
        return;
      }
      freeSessions[session] := false;
      globalHeld := false;
    }

    method StoreOp(i: nat, job: Job, ghost s: State) returns (ghost r: State)
      requires Shows(s) && s.dpc.PostOp? && s.dpc.i == i < S && s.dpc.job == job
      modifies requests
      ensures DispatchStep(s, -1) == Some(r) && Shows(r) && r.dpc == PostArgs(i, job, s.dpc.fd)
    {
      requests[i] := requests[i].(opCode := CodeOf(job));
      r := DispatchStep(s, -1).value;
    }

    method StoreFields(i: nat, job: Job, fd: int, ghost s: State) returns (ghost r: State)
      requires Shows(s) && s.dpc == PostArgs(i, job, fd) && i < S
      modifies requests
      ensures DispatchStep(s, -1) == Some(r) && Shows(r) && r.dpc == PostWake(i, job, fd)
    {
      var q := requests[i];
      match job {
        case Mount => q := q.(fcli := fd);
        case Open(name, flags) => q := q.(name := name, flags := flags);
        case Close(h) => q := q.(fhandler := h);
        case Write(h, data) => q := q.(fhandler := h, len := |data|, toWrite := data);
        case Read(h, len) => q := q.(fhandler := h, len := len);
        case _ =>
      }
      requests[i] := q;
      r := DispatchStep(s, -1).value;
    }

    method WakeUp(i: nat, ghost s: State) returns (ghost r: State)
      requires Shows(s) && s.dpc.PostWake? && s.dpc.i == i < S
      modifies wakeUp
      ensures DispatchStep(s, -1) == Some(r) && Shows(r) && r.dpc == PostUnlock(i, s.dpc.job)
    {
      wakeUp[i] := true;
      r := DispatchStep(s, -1).value;
    }

    /** What every handler does under the slot's mutex once it has read its message. */
    method Post(i: nat, job: Job, fd: int, ghost s: State) returns (ghost r: State)
      requires Shows(s) && s.dpc == PostLock(i, job, fd) && i < S && s.slots[i].holder.Nobody?
      modifies requests, wakeUp
      ensures Dispatched(s, 5, r) && Shows(r)
      ensures r.dpc == if job.Mount? then CountUp(i) else if job.Unmount? then CountDown(i) else Head
    {
      ghost var locked := DispatchStep(s, -1).value;
      ghost var coded := StoreOp(i, job, locked);
      ghost var filled := StoreFields(i, job, fd, coded);
      ghost var woken := WakeUp(i, filled);
      r := Unlocked(i, woken);
      FirstStep(woken, r, 0, r);
      FirstStep(filled, woken, 1, r);
      FirstStep(coded, filled, 2, r);
      FirstStep(locked, coded, 3, r);
      FirstStep(s, locked, 4, r);
    }

    /** The release of the slot's mutex, which is not in the tables. */
    ghost method Unlocked(i: nat, s: State) returns (r: State)
      requires Shows(s) && s.dpc.PostUnlock? && s.dpc.i == i < S
      ensures DispatchStep(s, -1) == Some(r) && Shows(r)
      ensures var job := s.dpc.job;
              r.dpc == if job.Mount? then CountUp(i) else if job.Unmount? then CountDown(i) else Head
    {
      r := DispatchStep(s, -1).value;
    }

    /** The update of open_sessions under global_mutex. */
    method Count(up: bool, ghost s: State) returns (ghost r: State)
      requires Shows(s) && !globalHeld && if up then s.dpc.CountUp? else s.dpc.CountDown?
      modifies this`openSessions
      ensures openSessions == old(openSessions) + if up then 1 else -1
      ensures DispatchStep(s, -1) == Some(r) && Shows(r) && r.dpc.Head?
    {
      openSessions := openSessions + if up then 1 else -1;
      r := DispatchStep(s, -1).value;
    }

    /** tfs_handle_mount, once the client's pipe is open as `fcli`: what is answered at once, if anything. The mutexes
        it takes are free when it takes them. */
    method HandleMount(fcli: int, ghost s: State) returns (refusal: Option<int>, ghost k: nat, ghost r: State)
      requires Shows(s) && s.dpc.MountTest? && s.dpc.fd == fcli
      requires openSessions != S ==>
        !globalHeld && var i := FirstFreeSlot(s.slots); i < S ==> s.slots[i].holder.Nobody?
      modifies this, freeSessions, requests, wakeUp
      ensures Dispatched(s, k, r) && Shows(r) && r.dpc.Head?
      ensures refusal == if old(openSessions) == S || globalHeld then Some(-1) else None
      ensures openSessions == if refusal.None? then old(openSessions) + 1 else old(openSessions)
    {
      ghost var passed := DispatchStep(s, -1).value;
      if openSessions == S {
        FirstStep(s, passed, 0, passed);
        return Some(-1), 1, passed;
      }
      assert Shows(passed) && passed.slots == s.slots;
      var session: int;
      ghost var searched;
      session, searched := FindFreePos(passed);
      if session == -1 {
        FirstStep(s, passed, 1, searched);
        return Some(-1), 2, searched;
      }
      FoundSlot(passed, searched, session);
      ghost var posted := Post(session, Mount, fcli, searched);
      r := Count(true, posted);
      LastStep(searched, 5, posted, r);
      Joined(Dispatcher, passed, 1, searched, 6, r);
      FirstStep(s, passed, 7, r);
      refusal, k := None, 8;
    }

    /** tfs_handle_unmount for a message that has been read. The mutexes it takes are free when it takes them. */
    method HandleUnmount(session: int, ghost s: State) returns (ghost k: nat, ghost r: State)
      requires Shows(s) && s.dpc.Head? && s.pipe != [] && s.pipe[0] == UnmountMsg(session)
      requires openSessions != 0 && session != -1 ==>
        InRange(session, S) && !globalHeld && s.slots[session].holder.Nobody?
      modifies this, requests, wakeUp
      ensures Dispatched(s, k, r) && Shows(r) && r.dpc.Head? && r.pipe == s.pipe[1..]
      ensures openSessions ==
        if old(openSessions) == 0 || session == -1 then old(openSessions) else old(openSessions) - 1
    {
      ghost var taken := DispatchStep(s, -1).value;
      if openSessions == 0 || session == -1 {
        FirstStep(s, taken, 0, taken);
        return 1, taken;
      }
      ghost var posted := Post(session, Unmount, -1, taken);
      r := Count(false, posted);
      LastStep(taken, 5, posted, r);
      FirstStep(s, taken, 6, r);
      PipeKept(taken, 6, r);
      k := 7;
    }

    /** The other handlers, for a message that has been read. */
    method HandleRequest(session: nat, job: Job, ghost s: State) returns (ghost r: State)
      requires Shows(s) && s.dpc.Head? && s.pipe != [] && s.pipe[0] == JobMsg(session, job) && IsRequest(job)
      requires session < S && s.slots[session].holder.Nobody?
      modifies requests, wakeUp
      ensures Dispatched(s, 6, r) && Shows(r) && r.dpc.Head? && r.pipe == s.pipe[1..]
    {
      ghost var taken := DispatchStep(s, -1).value;
      r := Post(session, job, -1, taken);
      FirstStep(s, taken, 5, r);
      PipeKept(taken, 5, r);
    }

    // ----- Worker i -----

    /** One turn of the wait loop, with the mutex held: whether a request is there, which is then taken. */
    method TakeWakeUp(i: nat, ghost s: State) returns (found: bool, ghost r: State)
      requires Shows(s) && i < S && s.slots[i].pc.Testing?
      modifies wakeUp
      ensures Worked(s, i, 1, r) && Shows(r) && !wakeUp[i]
      ensures r.slots[i].pc == if found then ToUnlock else Waiting(false)
    {
      found := wakeUp[i];
      if found {
        wakeUp[i] := false;
      }
      r := WorkStep(s, i, -1).value;
    }

    /** The reads of the request after the mutex is released: the operation code, then what it needs. */
    method ReadRequest(i: nat, ghost s: State) returns (job: Job, ghost r: State)
      requires Shows(s) && i < S && s.slots[i].pc.ToUnlock?
      ensures job == LoadArgs(requests[i].opCode, requests[i])
      ensures Worked(s, i, 3, r) && Shows(r) && r.slots[i].pc == ToRun(job)
    {
      ghost var unlocked := WorkStep(s, i, -1).value;
      var command := requests[i].opCode;
      ghost var coded := WorkStep(unlocked, i, -1).value;
      if command == 1 {
        job := Mount;
      } else if command == 2 {
        job := Unmount;
      } else if command == 3 {
        job := Open(requests[i].name, requests[i].flags);
      } else if command == 4 {
        job := Close(requests[i].fhandler);
      } else if command == 5 {
        job := Write(requests[i].fhandler, Take(requests[i].toWrite, requests[i].len));
      } else if command == 6 {
        job := Read(requests[i].fhandler, requests[i].len);
      } else if command == 7 {
        job := Shutdown;
      } else {
        job := Unknown;
      }
      r := WorkStep(coded, i, -1).value;
      assert Worked(coded, i, 1, r) && Worked(unlocked, i, 2, r);
    }

    /** tfs_thread_mount up to its reply, which is `answer` into descriptor `fcli`. */
    method ThreadMount(i: nat, ghost s: State) returns (answer: int, fcli: int, ghost r: State)
      requires Shows(s) && i < S && s.slots[i].pc == ToRun(Mount) && !globalHeld
      modifies fhandlers
      ensures Worked(s, i, 1, r) && Shows(r) && r.slots[i].pc == ToReply(Mount, answer) && r.slots[i].fhandler == fcli
    {
      fhandlers[i] := requests[i].fcli;
      answer, fcli := i, requests[i].fcli;
      r := WorkStep(s, i, -1).value;
      RecordKeepsSlots(s, requests[i].fcli, Mount);
    }

    /** tfs_thread_unmount: the descriptor it closes is gone, the slot is free. */
    method ThreadUnmount(i: nat, ghost s: State) returns (closed: int, ghost r: State)
      requires Shows(s) && i < S && s.slots[i].pc == ToRun(Unmount) && !globalHeld
      modifies fhandlers, freeSessions
      ensures Worked(s, i, 2, r) && Shows(r) && r.slots[i].free && r.slots[i].pc.ToLock? && r.fds == s.fds - {closed}
    {
      closed := fhandlers[i];
      fhandlers[i] := -1;
      ghost var run := WorkStep(s, i, -1).value;
      RecordKeepsSlots(s, s.slots[i].fhandler, Unmount);
      assert Shows(run);
      freeSessions[i] := true;
      r := WorkStep(run, i, -1).value;
      assert Worked(run, i, 1, r);
    }
  }

  /** The slot that a successful search takes is the first free one. */
  lemma FoundSlot(s: State, r: State, session: nat)
    requires Sound(s) && s.dpc.MountFind? && Dispatched(s, 1, r) && r.dpc == PostLock(session, Mount, s.dpc.fd)
    ensures session < S && FirstFreeSlot(s.slots) == session && Sound(r)
    ensures r.slots[session].holder == s.slots[session].holder
  {
    assert Dispatcher(s).Some?;
  }

  lemma RecordKeepsSlots(s: State, fd: int, job: Job)
    ensures var r := Record(s, fd, job);
            r.slots == s.slots && r.fds == s.fds && r.openSessions == s.openSessions && r.globalHeld == s.globalHeld
  {
  }

  /** Once it has taken its message, the dispatcher leaves the pipe alone until it is back at the head of its loop. */
  lemma {:induction false} PipeKept(s: State, k: nat, r: State)
    requires Sound(s) && Dispatched(s, k, r)
    requires k <= match s.dpc
             case Head => 0
             case MountTest(_, _) => 1
             case MountFind(_, _) => 1
             case PostLock(_, job, _) => if job.Mount? || job.Unmount? then 6 else 5
             case PostOp(_, job, _) => if job.Mount? || job.Unmount? then 5 else 4
             case PostArgs(_, job, _) => if job.Mount? || job.Unmount? then 4 else 3
             case PostWake(_, job, _) => if job.Mount? || job.Unmount? then 3 else 2
             case PostUnlock(_, job) => if job.Mount? || job.Unmount? then 2 else 1
             case _ => 1
    ensures r.pipe == s.pipe
    decreases k
  {
    if k > 0 {
      PipeKept(DispatchStep(s, -1).value, k - 1, r);
    }
  }
}
