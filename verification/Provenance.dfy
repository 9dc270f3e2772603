/** Every byte a read returns was written to that file, at that position, since its creation or last truncation. */
module Provenance {
  import opened Config
  import opened TableModel
  import opened Serial
  import opened Refinement
  import A = AbstractFs

  /** What happened to file `file`. */
  datatype Event = Emptied(file: nat) | Stored(file: nat, at: nat, bytes: seq<byte>)

  /** The call's effect on contents, if any. */
  ghost function Effect(fs: A.Fs, op: Op): seq<Event>
    requires A.WellFormed(fs) && A.OffsetsInside(fs)
  {
    match op
    case OpOpen(path, flags) =>
      var i := A.Find(fs, path);
      if (i < |fs.files| && Truncates(flags)) || |A.Open(fs, path, flags).0.files| > |fs.files|
      then [Emptied(i)] else []
    case OpWrite(h, buffer) =>
      if h !in fs.handles then []
      else
        var at := fs.handles[h].offset;
        [Stored(fs.handles[h].file, at, buffer[..Min(|buffer|, BLOCK_SIZE - at)])]
    case _ => []
  }

  /** Looking back from the end of the history: the byte last stored at position `k` of `file`; None if the
      file was emptied since, or nothing was ever stored there. It looks at no file system state. */
  function LastStored(history: seq<Event>, file: nat, k: nat): Option<byte>
    decreases |history|
  {
    if history == [] then None
    else
      var before := history[..|history| - 1];
      match history[|history| - 1]
      case Emptied(f) => if f == file then None else LastStored(before, file, k)
      case Stored(f, at, bytes) =>
        if f == file && at <= k < at + |bytes| then Some(bytes[k - at]) else LastStored(before, file, k)
  }

  /** The history accounts for every file: which positions hold bytes, and which bytes. */
  ghost predicate Explains(history: seq<Event>, fs: A.Fs) {
    forall i, k :: 0 <= i < |fs.files| && 0 <= k ==>
      LastStored(history, i, k) == if k < |fs.files[i].bytes| then Some(fs.files[i].bytes[k]) else None
  }

  /** Nothing is recorded about files that do not exist yet. */
  ghost predicate Known(history: seq<Event>, fs: A.Fs) {
    forall j :: 0 <= j < |history| ==> history[j].file < |fs.files|
  }

  lemma Extend(history: seq<Event>, e: Event)
    ensures (history + [e])[..|history|] == history
  {
  }

  lemma Appended(history: seq<Event>, first: seq<Event>, rest: seq<Event>)
    ensures history + first + rest == history + (first + rest)
  {
  }

  lemma CallExplained(history: seq<Event>, fs: A.Fs, op: Op)
    requires A.WellFormed(fs) && A.OffsetsInside(fs) && A.Legal(fs, op)
    requires Explains(history, fs) && Known(history, fs)
    ensures Explains(history + Effect(fs, op), A.Apply(fs, op).0)
    ensures Known(history + Effect(fs, op), A.Apply(fs, op).0)
  {
    var r := A.Apply(fs, op).0;
    if Effect(fs, op) == [] {
      assert history + [] == history;
      assert r.files == fs.files;
    } else {
      Extend(history, Effect(fs, op)[0]);
    }
  }

  ghost function History(fs: A.Fs, ops: seq<Op>): seq<Event>
    requires A.WellFormed(fs) && A.OffsetsInside(fs) && LegalRun(fs, ops)
    decreases |ops|
  {
    if ops == [] then []
    else
      A.ApplyKeeps(fs, ops[0]);
      Effect(fs, ops[0]) + History(A.Apply(fs, ops[0]).0, ops[1..])
  }

  lemma {:induction false} RunExplained(history: seq<Event>, fs: A.Fs, ops: seq<Op>)
    requires A.WellFormed(fs) && A.OffsetsInside(fs) && LegalRun(fs, ops)
    requires Explains(history, fs) && Known(history, fs)
    ensures Explains(history + History(fs, ops), RunFs(fs, ops).0)
    decreases |ops|
  {
    if ops == [] {
      assert history + [] == history;
    } else {
      A.ApplyKeeps(fs, ops[0]);
      CallExplained(history, fs, ops[0]);
      var fs1 := A.Apply(fs, ops[0]).0;
      RunExplained(history + Effect(fs, ops[0]), fs1, ops[1..]);
      Appended(history, Effect(fs, ops[0]), History(fs1, ops[1..]));
    }
  }

  /** A read through `h` returns, at each place, the byte last stored there in that file since it was created or
      truncated; and it stops early only where nothing is stored. */
  ghost predicate ReadTells(s: Tables, h: int, len: nat, history: seq<Event>)
    requires s.Shaped()
  {
    && InRange(h, MAX_OPEN_FILES) && s.entries[h].inum >= 1 && ReadDefined(s, h, len)
    && var (_, code, bytes) := Read(s, h, len);
       var file, at := s.entries[h].inum - 1, s.entries[h].offset;
    && code == |bytes| <= len
    && (forall k :: 0 <= k < |bytes| ==> LastStored(history, file, at + k) == Some(bytes[k]))
    && (|bytes| < len ==> LastStored(history, file, at + |bytes|) == None)
  }

  lemma ReadExplained(history: seq<Event>, s: Tables, fs: A.Fs, h: int, len: nat)
    requires Matches(s, fs) && A.WellFormed(fs) && A.OffsetsInside(fs) && Explains(history, fs)
    requires InRange(h, MAX_OPEN_FILES) && s.entryTaken[h] && len < SIZE_T_RANGE
    ensures ReadTells(s, h, len, history)
  {
    OpenHandle(s, fs, h);
    ReadAgrees(s, fs, h, len);
    A.ReadAt(fs, h, s.entries[h].inum - 1, s.entries[h].offset, len);
  }

  /** On the tables, after any legal run from tfs_init: reads through open handles return stored bytes only. */
  lemma ReadsReturnStoredBytes(t: Tables, ops: seq<Op>, h: int, len: nat)
    requires t.Shaped() && LegalRun(A.EMPTY, ops)
    requires InRange(h, MAX_OPEN_FILES) && RunTables(Init(t).0, ops).0.entryTaken[h] && len < SIZE_T_RANGE
    ensures ReadTells(RunTables(Init(t).0, ops).0, h, len, History(A.EMPTY, ops))
  {
    RunFromInit(t, ops);
    RunExplained([], A.EMPTY, ops);
    assert [] + History(A.EMPTY, ops) == History(A.EMPTY, ops);
    ReadExplained(History(A.EMPTY, ops), RunTables(Init(t).0, ops).0, RunFs(A.EMPTY, ops).0, h, len);
  }
}
