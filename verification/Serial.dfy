/**
 The critical sections of operations.c run one at a time: the tables together with the two variables the
 second mutex protects, `open_files` and `called_destroy`.
 */
module Serial {
  import opened Config
  import opened TableModel

  datatype Shared = Shared(tables: Tables, openFiles: int, destroyed: bool)

  datatype Op =
    | OpOpen(path: CString, flags: int)
    | OpClose(h: int)
    | OpWrite(h: int, buffer: seq<byte>)
    | OpRead(h: int, len: nat)

  /** What a call gives back; Undefined where C gives the call no meaning. */
  datatype Outcome = Returned(code: int, bytes: seq<byte>) | Undefined

  const FAILED := Returned(-1, [])

  /** The call on the tables alone, as its unsynchronized body runs it. */
  function OnTables(t: Tables, op: Op): (r: (Tables, Outcome))
    requires t.Shaped()
    ensures r.0.Shaped()
  {
    match op
    case OpOpen(path, flags) =>
      if !OpenDefined(path, flags) then (t, Undefined)
      else var (t1, code) := Open(t, path, flags); (t1, Returned(code, []))
    case OpClose(h) => var (t1, code) := Close(t, h); (t1, Returned(code, []))
    case OpWrite(h, buffer) =>
      if !WriteDefined(t, h, buffer) then (t, Undefined)
      else var (t1, code) := Write(t, h, buffer); (t1, Returned(code, []))
    case OpRead(h, len) =>
      if !ReadDefined(t, h, len) then (t, Undefined)
      else var (t1, code, bytes) := Read(t, h, len); (t1, Returned(code, bytes))
  }

  /** Calls on the tables one after another: the state they end in and what each gave back. */
  function RunTables(t: Tables, ops: seq<Op>): (r: (Tables, seq<Outcome>))
    requires t.Shaped()
    ensures r.0.Shaped()
    decreases |ops|
  {
    if ops == [] then (t, [])
    else
      var (t1, o) := OnTables(t, ops[0]);
      var (t2, os) := RunTables(t1, ops[1..]);
      (t2, [o] + os)
  }

  /** How the call changes `open_files`: a close decrements it whether or not it closed anything. */
  function CountChange(op: Op, outcome: Outcome): int {
    match op
    case OpOpen(_, _) => if outcome.Returned? && outcome.code != -1 then 1 else 0
    case OpClose(_) => -1
    case _ => 0
  }

  /** The whole call, run alone. Only open looks at `called_destroy`. */
  function Apply(s: Shared, op: Op): (r: (Shared, Outcome))
    requires s.tables.Shaped()
    ensures r.0.tables.Shaped()
  {
    if op.OpOpen? && s.destroyed then (s, FAILED)
    else
      var (t, outcome) := OnTables(s.tables, op);
      (Shared(t, s.openFiles + CountChange(op, outcome), s.destroyed), outcome)
  }

  /** `tfs_init` on tables holding anything. */
  function Start(t: Tables): Shared
    requires t.Shaped()
  {
    Shared(Init(t).0, 0, false)
  }
}
