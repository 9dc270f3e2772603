/**
 The whole server: the session machine and the locking machine side by side, worker `i` being thread `i` of the file
 system. A worker that has read a request for the file system begins the call, takes its steps under the locks among
 all the others, and goes on with the result that the call returned.
 */
module Joint {
  import opened Config
  import opened Serial
  import T = TableModel
  import S = Sessions
  import L = Locking

  /** The call a worker makes for a job, if it makes one. */
  function CallOf(job: S.Job): Option<L.Call> {
    match job
    case Open(name, flags) => Some(L.Do(OpOpen(name, flags)))
    case Close(h) => Some(L.Do(OpClose(h)))
    case Write(h, data) => Some(L.Do(OpWrite(h, data)))
    case Read(h, len) => Some(L.Do(OpRead(h, len)))
    case Shutdown => Some(L.Destroy)
    case _ => None
  }

  type Calls = seq<(L.Call, Outcome)>

  /** Worker `worker` executed the mount of the client when its thread had finished `from` calls. */
  datatype Home = Home(worker: nat, from: nat)

  /** `inCall[i]`: worker `i` is inside a call. `calls[c]`, the calls executed for client `c` with their outcomes, and
      `homes[c]` are read by no step. */
  datatype State = State(sess: S.State, fs: L.State, inCall: seq<bool>, calls: seq<Calls>, homes: seq<Option<Home>>)

  datatype Action =
    | Session(step: S.Action) // a step of the dispatcher, a client or a worker, but no call of the file system
    | Enter(i: nat)          // worker i begins the call that its job asks for
    | Inside(run: L.Action)  // a step of a thread inside a call
    | Leave(i: nat)          // worker i has its result

  function Initial(t: T.Tables, n: nat): (s: State)
    requires t.Shaped()
    ensures Sound(s) && |s.calls| == n
  {
    State(S.Initial(n), L.Initial(t, S.S), seq(S.S, _ => false), seq(n, _ => []), seq(n, _ => None))
  }

  /** The two machines are of one size. */
  predicate Sound(s: State) {
    && S.Sound(s.sess) && L.Sound(s.fs) && |s.fs.threads| == |s.inCall| == S.S
    && |s.calls| == |s.homes| == |s.sess.clients|
  }

  /** Worker `i` has read a job for the file system. */
  predicate AtCall(s: S.State, i: nat) { i < |s.slots| && s.slots[i].pc.ToRun? && CallOf(s.slots[i].pc.job).Some? }

  function CodeOf(o: Outcome): int { if o.Returned? then o.code else -1 }

  /** The client is at home where its mount is executed. */
  function Housed(s: State, a: S.Action): seq<Option<Home>>
    requires Sound(s)
  {
    if a.Work? && a.i < S.S && s.sess.slots[a.i].pc == S.ToRun(S.Mount) then
      var c := s.sess.slots[a.i].tenant;
      if c.Some? && c.value < |s.homes| then s.homes[c.value := Some(Home(a.i, |s.fs.threads[a.i].done|))] else s.homes
    else s.homes
  }

  function Recorded(s: State, i: nat, call: L.Call, o: Outcome): seq<Calls>
    requires Sound(s) && i < S.S
  {
    var c := s.sess.slots[i].tenant;
    if c.Some? && c.value < |s.calls| then s.calls[c.value := s.calls[c.value] + [(call, o)]] else s.calls
  }

  function Step(s: State, a: Action): (r: Option<State>)
    requires Sound(s)
    ensures r.Some? ==> Sound(r.value) && |r.value.sess.clients| == |s.sess.clients|
  {
    match a
    case Session(b) =>
      if b.Work? && AtCall(s.sess, b.i) then None
      else
        (match S.Step(s.sess, b)
         case None => None
         case Some(sess) => Some(s.(sess := sess, homes := Housed(s, b))))
    case Enter(i) =>
      if s.sess.halted || !AtCall(s.sess, i) || s.inCall[i] then None
      else
        (match L.Step(s.fs, L.Begin(i, CallOf(s.sess.slots[i].pc.job).value))
         case None => None
         case Some(fs) => Some(s.(fs := fs, inCall := s.inCall[i := true])))
    case Inside(b) =>
      if s.sess.halted || b.Begin? then None
      else
        (match L.Step(s.fs, b)
         case None => None
         case Some(fs) => Some(s.(fs := fs)))
    case Leave(i) =>
      if !AtCall(s.sess, i) || !s.inCall[i] || !s.fs.threads[i].pc.Idle? || s.fs.threads[i].done == [] then None
      else
        var (call, o) := s.fs.threads[i].done[|s.fs.threads[i].done| - 1];
        (match S.Step(s.sess, S.Work(i, CodeOf(o)))
         case None => None
         case Some(sess) => Some(s.(sess := sess, inCall := s.inCall[i := false], calls := Recorded(s, i, call, o))))
  }

  function Execute(s: State, actions: seq<Action>): (r: Option<State>)
    requires Sound(s)
    ensures r.Some? ==> Sound(r.value) && |r.value.sess.clients| == |s.sess.clients| == |r.value.calls|
    decreases |actions|
  {
    if actions == [] then Some(s)
    else
      match Execute(s, actions[..|actions| - 1])
      case None => None
      case Some(m) => Step(m, actions[|actions| - 1])
  }
}
