/** Messages, decoders, tables and replies together: the file system behind the wire is the one called directly. */
module Remote {
  import opened Config
  import opened Decimal
  import opened Wire
  import opened TableModel
  import opened Serial
  import opened Refinement
  import A = AbstractFs

  /** The call a worker makes for a request. A length becomes a size_t. */
  function CallOf(got: Got): Option<Op> {
    match got
    case GotOpen(_, name, flags) => Some(OpOpen(name, flags))
    case GotClose(_, h) => Some(OpClose(h))
    case GotWrite(_, h, data) => Some(OpWrite(h, data))
    case GotRead(_, h, len) => Some(OpRead(h, len % SIZE_T_RANGE))
    case _ => None
  }

  /** The calls of a decoded stream, in its order. */
  function Calls(gots: seq<Got>): seq<Op> {
    if gots == [] then []
    else (match CallOf(gots[0]) case None => [] case Some(op) => [op]) + Calls(gots[1..])
  }

  /** The bytes the worker answers with. */
  function Answer(op: Op, o: Outcome): seq<byte> {
    match o
    case Undefined => []
    case Returned(code, bytes) => if op.OpRead? then ReadReply(code, bytes) else Field(code)
  }

  /** What the client library returns for the bytes in its pipe, what it puts in the caller's buffer, and what it
      leaves in the pipe; None where it waits for more. */
  function Understood(op: Op, pipe: seq<byte>): Option<(int, seq<byte>, seq<byte>)> {
    match op
    case OpRead(_, _) => ReceiveRead(pipe)
    case OpOpen(_, _) =>
      if |pipe| < 4 then None else Some((Max(Atoi(Into(Zeros(49), pipe[..4])), -1), [], pipe[4..]))
    case OpClose(_) =>
      if |pipe| < 4 then None else Some((if Atoi(pipe[..4]) < 0 then -1 else 0, [], pipe[4..]))
    case OpWrite(_, buffer) =>
      match ReceiveWrite(|buffer|, pipe)
      case None => None
      case Some((written, rest)) => Some((written, [], rest))
  }

  /** What the file system answers fits the four bytes it is sent in. */
  lemma OutcomeFits(fs: A.Fs, op: Op)
    requires A.WellFormed(fs) && A.OffsetsInside(fs)
    ensures var o := A.Apply(fs, op).1;
            && o.Returned? && -1 <= o.code <= BLOCK_SIZE
            && (op.OpClose? ==> o.code <= 0)
            && if op.OpRead? && o.code >= 0 then o.code == |o.bytes| else o.bytes == []
  {
  }

  lemma AnswerUnderstood(op: Op, code: int, bytes: seq<byte>)
    requires -1 <= code <= BLOCK_SIZE && (op.OpClose? ==> code <= 0) && (op.OpWrite? ==> code >= 0)
    requires if op.OpRead? && code >= 0 then code == |bytes| else bytes == []
    ensures Understood(op, Answer(op, Returned(code, bytes))) == Some((code, bytes, []))
       <==> (op.OpWrite? ==> |op.buffer| == 4)
  {
    match op
    case OpRead(_, _) => RemoteReadIsLocal(code, bytes);
    case OpWrite(_, buffer) => WriteReplyInStepExactly(code, |buffer|);
    case OpOpen(_, _) =>
      assert Field(code)[..4] == Field(code) && Field(code)[4..] == [];
      FieldCarriesExactly(code, 49);
    case OpClose(_) =>
      assert Field(code)[..4] == Field(code) && Field(code)[4..] == [];
      CodeOfClose(code);
  }

  lemma CodeOfClose(code: int)
    requires -1 <= code <= 0
    ensures Atoi(Field(code)) == code
  {
    DigitsShort(-code);
    var rest := Field(code)[|Printed(code)|..];
    assert Field(code) == Printed(code) + rest;
    AtoiPrinted(code, rest);
  }

  /** A call of the run whose answer is not -1 where the process would end: it is understood as the result it was,
      unless it is a write of other than four bytes. */
  lemma {:induction false} AnswersUnderstood(fs: A.Fs, ops: seq<Op>, k: nat)
    requires A.WellFormed(fs) && A.OffsetsInside(fs) && LegalRun(fs, ops) && k < |ops|
    ensures var o := RunFs(fs, ops).1[k];
            && o.Returned?
            && (ops[k].OpWrite? ==> (o.code >= 0 <==> 0 <= ops[k].h < 20))
            && ((ops[k].OpWrite? ==> o.code >= 0) ==>
                  (Understood(ops[k], Answer(ops[k], o)) == Some((o.code, o.bytes, []))
                   <==> (ops[k].OpWrite? ==> |ops[k].buffer| == 4)))
    decreases k
  {
    OutcomeFits(fs, ops[0]);
    if k == 0 {
      var o := A.Apply(fs, ops[0]).1;
      if ops[0].OpWrite? ==> o.code >= 0 { AnswerUnderstood(ops[0], o.code, o.bytes); }
    } else {
      A.ApplyKeeps(fs, ops[0]);
      AnswersUnderstood(A.Apply(fs, ops[0]).0, ops[1..], k - 1);
    }
  }

  // ----- What a stream of messages asks for -----

  /** The messages that become calls. A close of handle -1 is answered at once. */
  function Asking(ms: seq<Sent>): seq<Sent> {
    if ms == [] then []
    else
      (match ms[0]
       case SendOpen(_, _, _) => [ms[0]]
       case SendClose(_, h) => if h == -1 then [] else [ms[0]]
       case SendWrite(_, _, _) => [ms[0]]
       case SendRead(_, _, _) => [ms[0]]
       case _ => [])
      + Asking(ms[1..])
  }

  predicate AsksFor(m: Sent, op: Op) {
    match m
    case SendOpen(_, window, flags) => op == OpOpen(CutAtNul(window), flags)
    case SendClose(_, h) => op == OpClose(h)
    case SendWrite(_, h, data) => op == OpWrite(h, data)
    case SendRead(_, h, len) => len >= 0 && op == OpRead(h, len)
    case _ => false
  }

  lemma AskedCall(m: Sent, op: Op)
    requires Proper(m) && !LeavesRest(m) && AsksFor(m, op) && Asking([m]) == [m]
    ensures CallOf(Meaning(m)) == Some(op)
  {
    assert m.SendClose? && m.h == -1 ==> Asking([m]) == [];
  }

  lemma {:induction false} CallsAsAsked(ms: seq<Sent>, ops: seq<Op>)
    requires AllInStep(ms) && |ops| == |Asking(ms)|
    requires forall k :: 0 <= k < |ops| ==> AsksFor(Asking(ms)[k], ops[k])
    ensures Calls(Meanings(ms)) == ops
    decreases |ms|
  {
    if ms != [] {
      var more := Asking(ms[1..]);
      assert Proper(ms[0]) && !LeavesRest(ms[0]);
      if |Asking(ms)| == |more| {
        assert Asking(ms) == more;
        CallsAsAsked(ms[1..], ops);
      } else {
        assert Asking(ms) == [ms[0]] + more && AsksFor(Asking(ms)[0], ops[0]);
        assert [ms[0]][1..] == [];
        AskedCall(ms[0], ops[0]);
        forall k | 0 <= k < |ops| - 1 ensures AsksFor(more[k], ops[1..][k]) { assert more[k] == Asking(ms)[k + 1]; }
        CallsAsAsked(ms[1..], ops[1..]);
        assert ops == [ops[0]] + ops[1..];
      }
    }
  }

  /**
   A stream of messages served from a fresh file system, one request after another: the dispatcher understands all
   of it, the calls executed are those the messages ask for, and if these are legal the tables answer as the abstract
   file system called with them directly. The client library returns each answer, byte for byte, leaving its pipe empty,
   exactly if the call is not a write of other than four bytes. A write through no handle ends the process unanswered.
   */
  lemma ServedStreamRefines(t: Tables, ms: seq<Sent>, ops: seq<Op>, junk: nat -> seq<byte>)
    requires t.Shaped() && AllInStep(ms) && forall n: nat :: |junk(n)| == SIZE
    requires |ops| == |Asking(ms)| && forall k :: 0 <= k < |ops| ==> AsksFor(Asking(ms)[k], ops[k])
    requires LegalRun(A.EMPTY, ops)
    ensures DecodeAll(EncodeAll(ms), junk).Some? && Calls(DecodeAll(EncodeAll(ms), junk).value) == ops
    ensures var (r, outcomes) := RunTables(Init(t).0, ops);
            && outcomes == RunFs(A.EMPTY, ops).1 && |outcomes| == |ops| && Matches(r, RunFs(A.EMPTY, ops).0)
            && forall k :: 0 <= k < |ops| && (ops[k].OpWrite? ==> 0 <= ops[k].h < 20) ==>
                 && outcomes[k].Returned?
                 && (Understood(ops[k], Answer(ops[k], outcomes[k]))
                       == Some((outcomes[k].code, outcomes[k].bytes, []))
                     <==> (ops[k].OpWrite? ==> |ops[k].buffer| == 4))
  {
    StreamRoundTrip(ms, junk);
    CallsAsAsked(ms, ops);
    RunFromInit(t, ops);
    forall k | 0 <= k < |ops| && (ops[k].OpWrite? ==> 0 <= ops[k].h < 20)
      ensures var o := RunFs(A.EMPTY, ops).1[k];
              && o.Returned?
              && (Understood(ops[k], Answer(ops[k], o)) == Some((o.code, o.bytes, []))
                  <==> (ops[k].OpWrite? ==> |ops[k].buffer| == 4))
    {
      AnswersUnderstood(A.EMPTY, ops, k);
    }
  }
}
