/** Where the code departs from the file system it implements: exactly when, and what then happens. */
module Hazards {
  import opened Config
  import opened TableModel
  import opened Serial
  import opened Invariant
  import opened Refinement
  import opened Directory
  import opened Counting
  import L = Locking
  import Z = Serializability
  import A = AbstractFs

  // ----- Truncation under a moved handle -----

  ghost predicate OffsetsOk(t: Tables)
    requires Inv(t)
  {
    forall h :: 0 <= h < MAX_OPEN_FILES && t.entryTaken[h] ==> t.entries[h].offset <= t.inodes[t.entries[h].inum].size
  }

  /** The open truncates a file that some open handle has moved into. */
  ghost predicate CutsMoved(t: Tables, path: CString, flags: int)
    requires Inv(t)
  {
    && Truncates(flags) && Lookup(t, path) >= 0
    && exists h :: 0 <= h < MAX_OPEN_FILES && t.entryTaken[h]
         && t.entries[h].inum == Lookup(t, path) && t.entries[h].offset > 0
  }

  /** Opening an existing file cuts it or not, and touches no entry in use. */
  lemma OpenExistingEffect(t: Tables, path: CString, flags: int)
    requires Inv(t) && OpenDefined(path, flags) && Lookup(t, path) >= 0
    ensures Inv(Open(t, path, flags).0)
    ensures var inum, r := Lookup(t, path), Open(t, path, flags).0;
            && 1 <= inum <= FileCount(t) && r.data == t.data
            && r.inodes == (if Truncates(flags) then t.inodes[inum := t.inodes[inum].(size := 0)] else t.inodes)
            && (forall h :: 0 <= h < MAX_OPEN_FILES && t.entryTaken[h] ==>
                  r.entryTaken[h] && r.entries[h] == t.entries[h])
            && (forall h :: 0 <= h < MAX_OPEN_FILES && r.entryTaken[h] && !t.entryTaken[h] ==>
                  r.entries[h].inum == inum && r.entries[h].offset <= r.inodes[inum].size)
  {
    OpenKeeps(t, path, flags);
    LookupFinds(t, path);
    var inum := Lookup(t, path);
    TruncateKeeps(t, inum, flags);
    if t.inodes[inum].size == 0 {
      assert t.inodes[inum := t.inodes[inum].(size := 0)] == t.inodes;
    }
  }

  lemma OffsetsAfterOpenExisting(t: Tables, path: CString, flags: int)
    requires Inv(t) && OffsetsOk(t) && OpenDefined(path, flags) && Lookup(t, path) >= 0
    ensures Inv(Open(t, path, flags).0)
    ensures OffsetsOk(Open(t, path, flags).0) <==> !CutsMoved(t, path, flags)
  {
    OpenExistingEffect(t, path, flags);
    if CutsMoved(t, path, flags) {
      var inum, r := Lookup(t, path), Open(t, path, flags).0;
      var h :| 0 <= h < MAX_OPEN_FILES && t.entryTaken[h] && t.entries[h].inum == inum && t.entries[h].offset > 0;
      assert r.entries[h] == t.entries[h] && r.entryTaken[h];
    }
  }

  lemma OffsetsAfterOpenNew(t: Tables, path: CString, flags: int)
    requires Inv(t) && OffsetsOk(t) && OpenDefined(path, flags) && Lookup(t, path) < 0
    ensures Inv(Open(t, path, flags).0) && OffsetsOk(Open(t, path, flags).0)
  {
    OpenKeeps(t, path, flags);
    if Creates(flags) {
      CreateKeeps(t, path);
    }
  }

  /** Offsets stay inside their files across an open exactly when it does not cut under a moved handle. */
  lemma OffsetsKeptExactly(t: Tables, path: CString, flags: int)
    requires Inv(t) && OffsetsOk(t) && OpenDefined(path, flags)
    ensures Inv(Open(t, path, flags).0)
    ensures OffsetsOk(Open(t, path, flags).0) <==> !CutsMoved(t, path, flags)
  {
    if Lookup(t, path) >= 0 { OffsetsAfterOpenExisting(t, path, flags); } else { OffsetsAfterOpenNew(t, path, flags); }
  }

  /** Past the end of its file a handle still reads: the difference wraps around, and the bytes come from
      wherever the last block number of the file points. */
  lemma ReadPastEnd(t: Tables, h: nat, len: nat)
    requires t.Shaped() && h < MAX_OPEN_FILES && Target(t, h).Some? && 0 < len < SIZE_T_RANGE - BLOCK_SIZE
    requires t.inodes[t.entries[h].inum].size < t.entries[h].offset <= BLOCK_SIZE
    requires InRange(t.inodes[t.entries[h].inum].block, DATA_BLOCKS) && ReadDefined(t, h, len)
    ensures var at := t.inodes[t.entries[h].inum].block * BLOCK_SIZE + t.entries[h].offset;
            0 <= at && at + len <= |t.data| && Read(t, h, len).1 == len && Read(t, h, len).2 == t.data[at..at + len]
  {
    var size, offset := t.inodes[t.entries[h].inum].size, t.entries[h].offset;
    assert (size - offset) % SIZE_T_RANGE == size - offset + SIZE_T_RANGE;
  }

  /** After such a cut the handle reads the bytes that were truncated away, out of an empty file. */
  lemma TruncatedBytesStillRead(t: Tables, path: CString, flags: int, h: nat, len: nat)
    requires Inv(t) && OpenDefined(path, flags) && Truncates(flags) && Lookup(t, path) >= 0
    requires h < MAX_OPEN_FILES && t.entryTaken[h] && t.entries[h].inum == Lookup(t, path)
    requires 0 < t.entries[h].offset && 0 < len && t.entries[h].offset + len <= t.inodes[t.entries[h].inum].size
    ensures var r, at := Open(t, path, flags).0, t.entries[h].offset;
            && 1 <= t.entries[h].inum <= FileCount(t)
            && r.inodes[r.entries[h].inum].size == 0 && ReadDefined(r, h, len)
            && Read(r, h, len).1 == len && Read(r, h, len).2 == FileBytes(t, t.entries[h].inum)[at..at + len]
  {
    OpenExistingEffect(t, path, flags);
    var inum, at, r := t.entries[h].inum, t.entries[h].offset, Open(t, path, flags).0;
    var b := t.inodes[inum].block;
    assert Owns(t, inum, b);
    SliceOfRegion(t, b, at, len);
    ReadPastEnd(r, h, len);
    assert FileBytes(t, inum)[at..at + len] == Region(t, b)[at..at + len];
  }

  const PATH: CString := [SLASH, 97]
  const STORED: seq<byte> := [7, 8]

  const AFTER_CREATE := A.Fs([A.File([97], [])], map[0 := A.Handle(0, 0)])
  const AFTER_WRITE := A.Fs([A.File([97], STORED)], map[0 := A.Handle(0, 2)])
  const AFTER_REOPEN := A.Fs([A.File([97], STORED)], map[0 := A.Handle(0, 2), 1 := A.Handle(0, 0)])
  const AFTER_READ := A.Fs([A.File([97], STORED)], map[0 := A.Handle(0, 2), 1 := A.Handle(0, 1)])

  lemma ExampleCreate(t: Tables)
    requires Matches(t, A.EMPTY)
    ensures Matches(OnTables(t, OpOpen(PATH, 1)).0, AFTER_CREATE)
    ensures OnTables(t, OpOpen(PATH, 1)).1 == Returned(0, [])
  {
    assert A.LowestFree(A.EMPTY.handles) == 0;
    assert A.Apply(A.EMPTY, OpOpen(PATH, 1)).0 == AFTER_CREATE;
    assert A.Apply(A.EMPTY, OpOpen(PATH, 1)).1 == Returned(0, []);
    CallRefines(t, A.EMPTY, OpOpen(PATH, 1));
  }

  lemma WriteStores()
    ensures A.WellFormed(AFTER_CREATE) && A.OffsetsInside(AFTER_CREATE)
    ensures A.Apply(AFTER_CREATE, OpWrite(0, STORED)).0 == AFTER_WRITE
  {
    A.WriteAt(AFTER_CREATE, 0, 0, 0, STORED);
    assert A.Overwrite([], 0, STORED) == STORED == STORED[..2];
  }

  lemma ExampleWrite(t: Tables)
    requires Matches(t, AFTER_CREATE)
    ensures Matches(OnTables(t, OpWrite(0, STORED)).0, AFTER_WRITE)
  {
    WriteStores();
    CallRefines(t, AFTER_CREATE, OpWrite(0, STORED));
  }

  lemma ExampleReopen(t: Tables)
    requires Matches(t, AFTER_WRITE)
    ensures Matches(OnTables(t, OpOpen(PATH, 0)).0, AFTER_REOPEN)
  {
    assert A.Apply(AFTER_WRITE, OpOpen(PATH, 0)).0 == AFTER_REOPEN;
    CallRefines(t, AFTER_WRITE, OpOpen(PATH, 0));
  }

  lemma ReadMoves()
    ensures A.WellFormed(AFTER_REOPEN) && A.OffsetsInside(AFTER_REOPEN)
    ensures A.Apply(AFTER_REOPEN, OpRead(1, 1)).0 == AFTER_READ
  {
    A.ReadAt(AFTER_REOPEN, 1, 0, 0, 1);
  }

  lemma ExampleRead(t: Tables)
    requires Matches(t, AFTER_REOPEN)
    ensures Matches(OnTables(t, OpRead(1, 1)).0, AFTER_READ)
  {
    ReadMoves();
    CallRefines(t, AFTER_REOPEN, OpRead(1, 1));
  }

  function Then(t: Tables, op: Op): (r: Tables)
    requires t.Shaped()
    ensures r.Shaped()
  {
    OnTables(t, op).0
  }

  /** A run that shows it: create, write two bytes, open again, read one byte, truncate with a third open. The
      second handle then reads one byte of the empty file. */
  lemma StaleReadExample(t: Tables)
    requires t.Shaped()
    ensures var t2 := Then(Then(Init(t).0, OpOpen(PATH, 1)), OpWrite(0, STORED));
            var t4 := Then(Then(t2, OpOpen(PATH, 0)), OpRead(1, 1));
            var t5 := Then(t4, OpOpen(PATH, 2));
            t5.inodes[1].size == 0 && OnTables(t5, OpRead(1, 1)).1 == Returned(1, [8])
  {
    InitEstablishes(t);
    var t0 := Init(t).0;
    var t1 := Then(t0, OpOpen(PATH, 1));
    var t2 := Then(t1, OpWrite(0, STORED));
    var t3 := Then(t2, OpOpen(PATH, 0));
    var t4 := Then(t3, OpRead(1, 1));
    ExampleCreate(t0);
    ExampleWrite(t1);
    ExampleReopen(t2);
    ExampleRead(t3);
    StaleReadFrom(t4);
  }

  lemma StaleReadFrom(t: Tables)
    requires Matches(t, AFTER_READ)
    ensures var r := Then(t, OpOpen(PATH, 2)); r.inodes[1].size == 0 && OnTables(r, OpRead(1, 1)).1 == Returned(1, [8])
  {
    FindAgrees(t, AFTER_READ, PATH);
    assert 1 in AFTER_READ.handles && AFTER_READ.handles[1] == A.Handle(0, 1);
    assert AFTER_READ.files[0].bytes == FileBytes(t, 1);
    TruncatedBytesStillRead(t, PATH, 2, 1, 1);
    assert STORED[1..2] == [8];
  }

  // ----- A close that fails -----

  /** Each close of a handle that is not open makes the counter one less than what is open; with one file open a
      destroyer then finds nothing left to wait for. */
  lemma FailedCloseUncounts(s: Shared, h: int, u: nat)
    requires s.tables.Shaped() && CountRight(s) && !(InRange(h, MAX_OPEN_FILES) && s.tables.entryTaken[h])
    ensures var (r, o) := Apply(s, OpClose(h));
            && o == FAILED && r.openFiles == Count(r.tables.entryTaken) - 1
            && (Count(s.tables.entryTaken) == 1 ==> Z.SerialStep(r.(destroyed := true), L.Finished(u)).Some?)
  {
  }

  /** A run that shows it: create a file, close a handle that was never open. The file is open, the counter is 0, and
      a destroy called now returns. */
  lemma FailedCloseExample(t: Tables, u: nat)
    requires t.Shaped()
    ensures var s1 := Apply(Start(t), OpOpen(PATH, 1)).0;
            var (s2, o) := Apply(s1, OpClose(1));
            && o == FAILED && s2.openFiles == 0 && s2.tables.entryTaken[0]
            && Z.SerialStep(s2.(destroyed := true), L.Finished(u)).Some?
  {
    InitEstablishes(t);
    var s1 := Apply(Start(t), OpOpen(PATH, 1)).0;
    ExampleCreate(Init(t).0);
    assert 0 in AFTER_CREATE.handles && 1 !in AFTER_CREATE.handles;
    assert s1.tables == OnTables(Init(t).0, OpOpen(PATH, 1)).0;
    CountZero(Start(t).tables.entryTaken);
    CountKeptExactly(Start(t), OpOpen(PATH, 1));
    assert s1.openFiles == 1 == Count(s1.tables.entryTaken);
    FailedCloseUncounts(s1, 1, u);
  }
}
