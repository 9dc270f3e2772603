/**
 The tables implement the abstract file system: every call, and every run of calls, gives the same results
 and leaves matching states.
 */
module Refinement {
  import opened Config
  import opened TableModel
  import opened Serial
  import opened Invariant
  import A = AbstractFs

  function Region(t: Tables, b: int): (r: seq<byte>)
    requires t.Shaped() && 0 <= b < DATA_BLOCKS
    ensures |r| == BLOCK_SIZE
  {
    t.data[b * BLOCK_SIZE..(b + 1) * BLOCK_SIZE]
  }

  /** The bytes of a file: the first `size` bytes of its block. */
  ghost function FileBytes(t: Tables, i: int): (r: seq<byte>)
    requires Inv(t) && 1 <= i <= FileCount(t)
    ensures |r| == t.inodes[i].size
  {
    if t.inodes[i].size == 0 then []
    else assert Owns(t, i, t.inodes[i].block); Region(t, t.inodes[i].block)[..t.inodes[i].size]
  }

  ghost predicate FilesMatch(t: Tables, files: seq<A.File>)
    requires Inv(t)
  {
    && |files| == FileCount(t)
    && forall k :: 0 <= k < |files| ==> files[k] == A.File(t.slots[k].name, FileBytes(t, k + 1))
  }

  ghost predicate HandlesMatch(t: Tables, handles: map<int, A.Handle>)
    requires Inv(t)
  {
    && (forall h :: h in handles <==> 0 <= h < MAX_OPEN_FILES && t.entryTaken[h])
    && (forall h :: h in handles ==> handles[h] == A.Handle(t.entries[h].inum - 1, t.entries[h].offset))
  }

  /** `t` represents `fs`; at most one `fs` is represented. */
  ghost predicate Matches(t: Tables, fs: A.Fs) {
    Inv(t) && FilesMatch(t, fs.files) && HandlesMatch(t, fs.handles)
  }

  lemma MatchedIsUnique(t: Tables, fs: A.Fs, gs: A.Fs)
    requires Matches(t, fs) && Matches(t, gs)
    ensures fs == gs
  {
    assert fs.files == gs.files;
    assert forall h :: h in fs.handles <==> h in gs.handles;
    assert forall h :: h in fs.handles ==> fs.handles[h] == gs.handles[h];
    assert fs.handles == gs.handles;
  }

  // ----- Searches agree -----

  lemma FindAgrees(t: Tables, fs: A.Fs, path: CString)
    requires Matches(t, fs)
    ensures Lookup(t, path) == if A.Find(fs, path) < |fs.files| then A.Find(fs, path) + 1 else -1
  {
    if ValidPathname(path) {
      var name := path[1..];
      var k, i := FirstNamed(t.slots, name), A.IndexOf(fs.files, name);
      forall j | 0 <= j < |fs.files| ensures Names(t.slots[j], name) <==> fs.files[j].name == name {}
      if i < |fs.files| {
        assert Names(t.slots[i], name);
      }
      if k < MAX_DIR_ENTRIES {
        assert t.slots[k].inum != -1;
        assert fs.files[k].name == name;
      }
    }
  }

  lemma LowestAgrees(t: Tables, fs: A.Fs)
    requires Matches(t, fs)
    ensures FirstFree(t.entryTaken) == A.LowestFree(fs.handles)
  {
    var f, l := FirstFree(t.entryTaken), A.LowestFree(fs.handles);
    assert f < MAX_OPEN_FILES ==> f !in fs.handles;
    forall k | 0 <= k < f ensures k in fs.handles {}
    forall k | 0 <= k < l ensures t.entryTaken[k] { assert k in fs.handles; }
  }

  /** The files' view reads inodes, slots and bytes only. */
  lemma SameFiles(t: Tables, r: Tables, files: seq<A.File>)
    requires Inv(t) && Inv(r) && FilesMatch(t, files)
    requires r.inodes == t.inodes && r.inodeTaken == t.inodeTaken && r.data == t.data && r.slots == t.slots
    ensures FilesMatch(r, files)
  {
    forall i | 1 <= i <= FileCount(t) ensures FileBytes(r, i) == FileBytes(t, i) {}
  }

  // ----- One call -----

  lemma GrantAgrees(t: Tables, fs: A.Fs, inum: int, offset: nat)
    requires Matches(t, fs) && 1 <= inum <= FileCount(t)
    ensures var (r, h) := AddToOpenFileTable(t, inum, offset);
            Matches(r, A.Grant(fs, inum - 1, offset).0) && Returned(h, []) == A.Grant(fs, inum - 1, offset).1
  {
    LowestAgrees(t, fs);
    AddEntryKeeps(t, inum, offset);
    var r := AddToOpenFileTable(t, inum, offset).0;
    SameFiles(t, r, fs.files);
    GrantedHandles(t, fs.handles, inum, offset, FirstFree(t.entryTaken));
  }

  lemma GrantedHandles(t: Tables, handles: map<int, A.Handle>, inum: int, offset: nat, h: nat)
    requires Inv(t) && HandlesMatch(t, handles) && 1 <= inum && h == FirstFree(t.entryTaken)
    requires Inv(AddToOpenFileTable(t, inum, offset).0)
    ensures HandlesMatch(AddToOpenFileTable(t, inum, offset).0,
                         if h == MAX_OPEN_FILES then handles else handles[h as int := A.Handle(inum - 1, offset)])
  {
  }

  lemma TruncateAgrees(t: Tables, fs: A.Fs, inum: nat, flags: int)
    requires Matches(t, fs) && 1 <= inum <= FileCount(t)
    ensures Truncate(t, inum, flags).Some?
    ensures Matches(Truncate(t, inum, flags).value, CutTo(fs, inum - 1, flags))
  {
    TruncateKeeps(t, inum, flags);
    var r := Truncate(t, inum, flags).value;
    forall i | 1 <= i <= FileCount(t) && i != inum ensures FileBytes(r, i) == FileBytes(t, i) {}
  }

  /** Opening a file that exists: cut it if asked to, then grant a handle. */
  lemma OpenExistingInTables(t: Tables, path: CString, flags: int)
    requires Inv(t) && OpenDefined(path, flags) && Lookup(t, path) >= 0
    ensures var inum := Lookup(t, path);
            && 1 <= inum <= FileCount(t) && Truncate(t, inum, flags).Some?
            && var t1 := Truncate(t, inum, flags).value;
               Open(t, path, flags) ==
                 AddToOpenFileTable(t1, inum, if Appends(flags) then t1.inodes[inum].size else 0)
  {
    LookupFinds(t, path);
    TruncateKeeps(t, Lookup(t, path), flags);
  }

  lemma OpenExistingInFs(fs: A.Fs, path: CString, flags: int, i: nat)
    requires A.Find(fs, path) == i < |fs.files|
    ensures var cut := CutTo(fs, i, flags);
            A.Open(fs, path, flags) == A.Grant(cut, i, if Appends(flags) then |cut.files[i].bytes| else 0)
  {
  }

  function CutTo(fs: A.Fs, i: nat, flags: int): (cut: A.Fs)
    requires i < |fs.files|
    ensures |cut.files| == |fs.files|
  {
    if Truncates(flags) then A.SetBytes(fs, i, []) else fs
  }

  lemma OpenExistingAgrees(t: Tables, fs: A.Fs, path: CString, flags: int)
    requires Matches(t, fs) && OpenDefined(path, flags) && Lookup(t, path) >= 0
    ensures Matches(Open(t, path, flags).0, A.Open(fs, path, flags).0)
    ensures Returned(Open(t, path, flags).1, []) == A.Open(fs, path, flags).1
  {
    FindAgrees(t, fs, path);
    var inum := Lookup(t, path);
    OpenExistingInTables(t, path, flags);
    OpenExistingInFs(fs, path, flags, inum - 1);
    TruncateAgrees(t, fs, inum, flags);
    var t1, cut := Truncate(t, inum, flags).value, CutTo(fs, inum - 1, flags);
    SizesAgree(t1, cut, inum);
    GrantAgrees(t1, cut, inum, if Appends(flags) then t1.inodes[inum].size else 0);
  }

  lemma SizesAgree(t: Tables, fs: A.Fs, inum: nat)
    requires Matches(t, fs) && 1 <= inum <= |fs.files|
    ensures inum <= FileCount(t) && t.inodes[inum].size == |fs.files[inum - 1].bytes|
  {
  }

  lemma CreateAgrees(t: Tables, fs: A.Fs, path: CString)
    requires Matches(t, fs) && path != []
    ensures Create(t, path).1 == -1 ==> Matches(Create(t, path).0, fs)
    ensures Create(t, path).1 != -1 ==>
      Matches(Create(t, path).0, fs.(files := fs.files + [A.File(Cut(path[1..], MAX_FILE_NAME - 1), [])]))
  {
    CreateKeeps(t, path);
    SearchesInOrder(t);
    var r := Create(t, path).0;
    forall i | 1 <= i <= FileCount(t) ensures FileBytes(r, i) == FileBytes(t, i) {}
  }

  lemma OpenNewAgrees(t: Tables, fs: A.Fs, path: CString, flags: int)
    requires Matches(t, fs) && OpenDefined(path, flags) && Lookup(t, path) < 0
    ensures Matches(Open(t, path, flags).0, A.Open(fs, path, flags).0)
    ensures Returned(Open(t, path, flags).1, []) == A.Open(fs, path, flags).1
  {
    FindAgrees(t, fs, path);
    if Creates(flags) {
      CreateKeeps(t, path);
      CreateAgrees(t, fs, path);
      var (r, created) := Create(t, path);
      if created != -1 {
        GrantAgrees(r, fs.(files := fs.files + [A.File(Cut(path[1..], MAX_FILE_NAME - 1), [])]), created, 0);
      }
    }
  }

  lemma CloseAgrees(t: Tables, fs: A.Fs, h: int)
    requires Matches(t, fs)
    ensures Matches(Close(t, h).0, A.Close(fs, h).0) && Returned(Close(t, h).1, []) == A.Close(fs, h).1
  {
    CloseKeeps(t, h);
    SameFiles(t, Close(t, h).0, fs.files);
  }

  /** A write that stores something: the shared hypotheses of the lemmas below. */
  ghost predicate Storing(t: Tables, h: nat, inum: nat, bytes: seq<byte>) {
    && Inv(t) && h < MAX_OPEN_FILES && 1 <= inum <= FileCount(t) && t.entries[h].inum == inum
    && t.entries[h].offset <= t.inodes[inum].size
    && bytes != [] && t.entries[h].offset + |bytes| <= BLOCK_SIZE
  }

  ghost function Stored(t: Tables, h: nat, inum: nat, bytes: seq<byte>): (r: Tables)
    requires Storing(t, h, inum, bytes)
    ensures Inv(r) && FileCount(r) == FileCount(t)
  {
    EnsureBlockOwned(t, inum);
    StoreKeeps(t, h, inum, bytes);
    Store(EnsureBlock(t, inum), h, inum, bytes)
  }

  /** Writing one block leaves every other file's bytes alone. */
  lemma OtherFilesUntouched(t: Tables, h: nat, inum: nat, bytes: seq<byte>, i: int)
    requires Storing(t, h, inum, bytes) && 1 <= i <= FileCount(t) && i != inum
    ensures FileBytes(Stored(t, h, inum, bytes), i) == FileBytes(t, i)
  {
    var r := Stored(t, h, inum, bytes);
    if t.inodes[i].size > 0 {
      var b, c := t.inodes[i].block, r.inodes[inum].block;
      assert Owns(r, i, b) && Owns(r, inum, c);
      assert b * BLOCK_SIZE + BLOCK_SIZE <= c * BLOCK_SIZE || c * BLOCK_SIZE + BLOCK_SIZE <= b * BLOCK_SIZE;
      assert Region(r, b) == Region(t, b);
    }
  }

  /** The copy seen from the block it goes into. */
  lemma RegionWritten(t: Tables, r: Tables, b: int, at: nat, bytes: seq<byte>)
    requires t.Shaped() && r.Shaped() && 0 <= b < DATA_BLOCKS && at + |bytes| <= BLOCK_SIZE
    requires b * BLOCK_SIZE + at + |bytes| <= |t.data| && r.data == Splice(t.data, b * BLOCK_SIZE + at, bytes)
    ensures forall k :: 0 <= k < BLOCK_SIZE ==>
      Region(r, b)[k] == if at <= k < at + |bytes| then bytes[k - at] else Region(t, b)[k]
  {
    forall k | 0 <= k < BLOCK_SIZE
      ensures Region(r, b)[k] == if at <= k < at + |bytes| then bytes[k - at] else Region(t, b)[k]
    {
      assert Region(r, b)[k] == r.data[b * BLOCK_SIZE + k] && Region(t, b)[k] == t.data[b * BLOCK_SIZE + k];
    }
  }

  /** The written file keeps the block it has, and grows if the copy ends past its end. */
  lemma WrittenBlock(t: Tables, h: nat, inum: nat, bytes: seq<byte>)
    requires Storing(t, h, inum, bytes)
    ensures var r := Stored(t, h, inum, bytes);
            && r.inodes[inum].size == Max(t.inodes[inum].size, t.entries[h].offset + |bytes|)
            && (t.inodes[inum].size > 0 ==> r.inodes[inum].block == t.inodes[inum].block)
  {
  }

  /** The written file's bytes. */
  lemma WrittenFile(t: Tables, h: nat, inum: nat, bytes: seq<byte>)
    requires Storing(t, h, inum, bytes)
    ensures FileBytes(Stored(t, h, inum, bytes), inum) == A.Overwrite(FileBytes(t, inum), t.entries[h].offset, bytes)
  {
    var r := Stored(t, h, inum, bytes);
    var b, at := r.inodes[inum].block, t.entries[h].offset;
    assert Owns(r, inum, b);
    RegionWritten(t, r, b, at, bytes);
    WrittenBlock(t, h, inum, bytes);
    var before, after := FileBytes(t, inum), FileBytes(r, inum);
    forall k | 0 <= k < |after| ensures after[k] == A.Overwrite(before, at, bytes)[k] {
      assert after[k] == Region(r, b)[k];
      if k < at { assert before[k] == Region(t, b)[k]; }
      else if k >= at + |bytes| { assert before[k] == Region(t, b)[k]; }
    }
  }

  lemma StoreAgrees(t: Tables, fs: A.Fs, h: nat, inum: nat, bytes: seq<byte>)
    requires Storing(t, h, inum, bytes) && Matches(t, fs) && t.entryTaken[h]
    ensures var file, at := fs.files[inum - 1], t.entries[h].offset;
            Matches(Stored(t, h, inum, bytes),
                    A.Fs(fs.files[inum - 1 := A.File(file.name, A.Overwrite(file.bytes, at, bytes))],
                         fs.handles[h as int := A.Handle(inum - 1, at + |bytes|)]))
  {
    var r := Stored(t, h, inum, bytes);
    WrittenFile(t, h, inum, bytes);
    forall i | 1 <= i <= FileCount(t) && i != inum ensures FileBytes(r, i) == FileBytes(t, i) {
      OtherFilesUntouched(t, h, inum, bytes, i);
    }
  }

  lemma OpenHandle(t: Tables, fs: A.Fs, h: int)
    requires Matches(t, fs) && A.WellFormed(fs) && A.OffsetsInside(fs) && InRange(h, MAX_OPEN_FILES) && t.entryTaken[h]
    ensures var inum := t.entries[h].inum;
            && h in fs.handles && fs.handles[h] == A.Handle(inum - 1, t.entries[h].offset)
            && 1 <= inum <= FileCount(t) && t.entries[h].offset <= t.inodes[inum].size <= BLOCK_SIZE
            && fs.files[inum - 1].bytes == FileBytes(t, inum)
  {
  }

  lemma EmptyWriteAgrees(t: Tables, fs: A.Fs, h: int, buffer: seq<byte>)
    requires Matches(t, fs) && A.WellFormed(fs) && A.OffsetsInside(fs) && h in fs.handles
    requires buffer[..Min(|buffer|, BLOCK_SIZE - fs.handles[h].offset)] == []
    ensures A.Write(fs, h, buffer) == (fs, Returned(0, []))
  {
    var i, at := fs.handles[h].file, fs.handles[h].offset;
    A.WriteAt(fs, h, i, at, buffer);
    assert A.Overwrite(fs.files[i].bytes, at, []) == fs.files[i].bytes;
    assert fs.files[i := fs.files[i]] == fs.files;
    assert fs.handles[h := fs.handles[h]] == fs.handles;
  }

  /** A write at an offset inside the block stores a prefix of the buffer. */
  lemma WriteStores(t: Tables, h: nat, inum: nat, buffer: seq<byte>)
    requires InRange(h, MAX_OPEN_FILES) && t.Shaped() && WriteDefined(t, h, buffer) && t.entries[h].offset <= BLOCK_SIZE
    requires Storing(t, h, inum, buffer[..Min(|buffer|, BLOCK_SIZE - t.entries[h].offset)])
    ensures var bytes := buffer[..Min(|buffer|, BLOCK_SIZE - t.entries[h].offset)];
            Write(t, h, buffer) == (Stored(t, h, inum, bytes), |bytes|)
  {
    EnsureBlockOwned(t, inum);
  }

  lemma WriteAgrees(t: Tables, fs: A.Fs, h: int, buffer: seq<byte>)
    requires Matches(t, fs) && A.WellFormed(fs) && A.OffsetsInside(fs)
    requires HandleUsable(t, h) && |buffer| + BLOCK_SIZE < SIZE_T_RANGE
    ensures WriteDefined(t, h, buffer)
    ensures Matches(Write(t, h, buffer).0, A.Write(fs, h, buffer).0)
    ensures Returned(Write(t, h, buffer).1, []) == A.Write(fs, h, buffer).1
  {
    if InRange(h, MAX_OPEN_FILES) {
      OpenHandle(t, fs, h);
      var inum, at := t.entries[h].inum, t.entries[h].offset;
      var bytes := buffer[..Min(|buffer|, BLOCK_SIZE - at)];
      if bytes == [] {
        EmptyWriteAgrees(t, fs, h, buffer);
      } else {
        A.WriteAt(fs, h, inum - 1, at, buffer);
        WriteStores(t, h, inum, buffer);
        StoreAgrees(t, fs, h, inum, bytes);
      }
    }
  }

  lemma SliceOfRegion(t: Tables, b: int, at: nat, n: nat)
    requires t.Shaped() && 0 <= b < DATA_BLOCKS && at + n <= BLOCK_SIZE
    ensures 0 <= b * BLOCK_SIZE + at && b * BLOCK_SIZE + at + n <= |t.data|
    ensures t.data[b * BLOCK_SIZE + at..b * BLOCK_SIZE + at + n] == Region(t, b)[at..at + n]
  {
    var lo := b * BLOCK_SIZE;
    assert (b + 1) * BLOCK_SIZE == lo + BLOCK_SIZE;
    var here, there := t.data[lo + at..lo + at + n], Region(t, b)[at..at + n];
    forall k | 0 <= k < n ensures here[k] == there[k] {}
    assert here == there;
  }

  /** What a read inside the file does, without wrap-around and in terms of the file's own bytes. */
  lemma ReadInside(t: Tables, h: nat, inum: int, len: nat)
    requires Inv(t) && h < MAX_OPEN_FILES && t.entries[h].inum == inum && 1 <= inum <= FileCount(t)
    requires t.entries[h].offset <= t.inodes[inum].size && len < SIZE_T_RANGE
    ensures ReadDefined(t, h, len)
    ensures var at := t.entries[h].offset;
            var got := FileBytes(t, inum)[at..Min(at + len, t.inodes[inum].size)];
            Read(t, h, len) == (t.(entries := t.entries[h := Entry(inum, at + |got|)]), |got|, got)
  {
    var at, size := t.entries[h].offset, t.inodes[inum].size;
    assert ToRead(size, at, len) == Min(size - at, len);
    if at < size {
      assert Owns(t, inum, t.inodes[inum].block);
    }
    var got := FileBytes(t, inum)[at..Min(at + len, size)];
    if got == [] {
      assert t.entries[h := Entry(inum, at + |got|)] == t.entries;
    } else {
      SliceOfRegion(t, t.inodes[inum].block, at, |got|);
      assert got == Region(t, t.inodes[inum].block)[at..at + |got|];
    }
  }

  lemma ReadAgrees(t: Tables, fs: A.Fs, h: int, len: nat)
    requires Matches(t, fs) && A.WellFormed(fs) && A.OffsetsInside(fs)
    requires HandleUsable(t, h) && len < SIZE_T_RANGE
    ensures ReadDefined(t, h, len)
    ensures var (r, code, bytes) := Read(t, h, len);
            Matches(r, A.Read(fs, h, len).0) && Returned(code, bytes) == A.Read(fs, h, len).1
  {
    if InRange(h, MAX_OPEN_FILES) {
      OpenHandle(t, fs, h);
      var inum, at := t.entries[h].inum, t.entries[h].offset;
      A.ReadAt(fs, h, inum - 1, at, len);
      ReadInside(t, h, inum, len);
      ReadKeeps(t, h, len);
      SameFiles(t, Read(t, h, len).0, fs.files);
    }
  }

  /** One legal call: same result, matching states, nothing undefined, and the next call can rely on the same. */
  lemma CallRefines(t: Tables, fs: A.Fs, op: Op)
    requires Matches(t, fs) && A.WellFormed(fs) && A.OffsetsInside(fs) && A.Legal(fs, op)
    ensures OnTables(t, op).1.Returned? && OnTables(t, op).1 == A.Apply(fs, op).1
    ensures Matches(OnTables(t, op).0, A.Apply(fs, op).0)
    ensures A.WellFormed(A.Apply(fs, op).0) && A.OffsetsInside(A.Apply(fs, op).0)
  {
    A.ApplyKeeps(fs, op);
    match op
    case OpOpen(path, flags) =>
      if Lookup(t, path) >= 0 { OpenExistingAgrees(t, fs, path, flags); } else { OpenNewAgrees(t, fs, path, flags); }
    case OpClose(h) => CloseAgrees(t, fs, h);
    case OpWrite(h, buffer) => WriteAgrees(t, fs, h, buffer);
    case OpRead(h, len) => ReadAgrees(t, fs, h, len);
  }

  // ----- Runs -----

  /** Every call of the run is legal where it is made. */
  ghost predicate LegalRun(fs: A.Fs, ops: seq<Op>)
    requires A.WellFormed(fs) && A.OffsetsInside(fs)
    decreases |ops|
  {
    ops == [] ||
    (A.Legal(fs, ops[0]) && (A.ApplyKeeps(fs, ops[0]); LegalRun(A.Apply(fs, ops[0]).0, ops[1..])))
  }

  ghost function RunFs(fs: A.Fs, ops: seq<Op>): (r: (A.Fs, seq<Outcome>))
    requires A.WellFormed(fs) && A.OffsetsInside(fs) && LegalRun(fs, ops)
    ensures A.WellFormed(r.0) && A.OffsetsInside(r.0) && |r.1| == |ops|
    decreases |ops|
  {
    if ops == [] then (fs, [])
    else
      A.ApplyKeeps(fs, ops[0]);
      var (fs1, o) := A.Apply(fs, ops[0]);
      var (fs2, os) := RunFs(fs1, ops[1..]);
      (fs2, [o] + os)
  }

  lemma {:induction false} RunRefines(t: Tables, fs: A.Fs, ops: seq<Op>)
    requires Matches(t, fs) && A.WellFormed(fs) && A.OffsetsInside(fs) && LegalRun(fs, ops)
    ensures RunTables(t, ops).1 == RunFs(fs, ops).1
    ensures Matches(RunTables(t, ops).0, RunFs(fs, ops).0)
    decreases |ops|
  {
    if ops != [] {
      CallRefines(t, fs, ops[0]);
      RunRefines(OnTables(t, ops[0]).0, A.Apply(fs, ops[0]).0, ops[1..]);
    }
  }

  /** tfs_init makes the empty file system out of any tables, and whole runs from there refine. */
  lemma RunFromInit(t: Tables, ops: seq<Op>)
    requires t.Shaped() && LegalRun(A.EMPTY, ops)
    ensures Init(t).1 == 0 && Matches(Init(t).0, A.EMPTY)
    ensures RunTables(Init(t).0, ops).1 == RunFs(A.EMPTY, ops).1
    ensures Matches(RunTables(Init(t).0, ops).0, RunFs(A.EMPTY, ops).0)
  {
    InitEstablishes(t);
    RunRefines(Init(t).0, A.EMPTY, ops);
  }
}
