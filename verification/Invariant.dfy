/**
 What every operation keeps: the shape of the inode table and the root directory, and who owns which block.
 Nothing here restricts paths or flags; only a write must go through a handle out of range or once returned.
 */
module Invariant {
  import opened Config
  import opened TableModel
  import opened Serial

  /** The number of files, read off the inode table: inode 0 is the root. */
  function FileCount(t: Tables): int
    requires t.Shaped()
  {
    FirstFree(t.inodeTaken) - 1
  }

  /** Inode `i` is in use and its bytes are in block `b`. An empty file owns no block. */
  predicate Owns(t: Tables, i: int, b: int)
    requires t.Shaped()
  {
    0 <= i <= FileCount(t) && i < INODE_TABLE_SIZE && t.inodes[i].size > 0 && t.inodes[i].block == b
  }

  /** The taken blocks are exactly the owned ones, and every block has one owner. */
  ghost predicate Ownership(t: Tables)
    requires t.Shaped()
  {
    && (forall i, b :: Owns(t, i, b) ==> 0 <= b < DATA_BLOCKS && t.blockTaken[b])
    && (forall b :: 0 <= b < DATA_BLOCKS && t.blockTaken[b] ==> exists i :: Owns(t, i, b))
    && (forall i, j, b :: Owns(t, i, b) && Owns(t, j, b) ==> i == j)
  }

  /** Inodes 0..n are the taken ones; slot k names inode k + 1 for the n files, later slots are empty. */
  ghost predicate Directories(t: Tables)
    requires t.Shaped()
  {
    var n := FileCount(t);
    && 0 <= n <= MAX_DIR_ENTRIES
    && (forall i :: 0 <= i < INODE_TABLE_SIZE ==> (t.inodeTaken[i] <==> i <= n))
    && t.inodes[ROOT_DIR_INUM] == Inode(Directory, BLOCK_SIZE, 0)
    && (forall i :: 1 <= i <= n ==> t.inodes[i].kind == File && t.inodes[i].size <= BLOCK_SIZE)
    && (forall k :: 0 <= k < n ==> t.slots[k].inum == k + 1 && 1 <= |t.slots[k].name| < MAX_FILE_NAME)
    && (forall k :: n <= k < MAX_DIR_ENTRIES ==> t.slots[k].inum == -1)
  }

  /** Every open entry refers to a file. */
  ghost predicate EntriesValid(t: Tables)
    requires t.Shaped()
  {
    forall h :: 0 <= h < MAX_OPEN_FILES && t.entryTaken[h] ==> 1 <= t.entries[h].inum <= FileCount(t)
  }

  ghost predicate Inv(t: Tables) {
    t.Shaped() && Directories(t) && Ownership(t) && EntriesValid(t)
  }

  /** The entry names a file, open or not: it was filled by some open since the last tfs_init. */
  predicate LeadsToFile(t: Tables, h: nat)
    requires t.Shaped() && h < MAX_OPEN_FILES
  {
    1 <= t.entries[h].inum <= FileCount(t)
  }

  predicate HandleUsable(t: Tables, h: int)
    requires t.Shaped()
  {
    InRange(h, MAX_OPEN_FILES) ==> t.entryTaken[h]
  }

  // ----- Helpers about the searches -----

  lemma FirstFreeIs(taken: seq<bool>, i: nat)
    requires i <= |taken|
    requires forall k :: 0 <= k < i ==> taken[k]
    requires i < |taken| ==> !taken[i]
    ensures FirstFree(taken) == i
  {
  }

  lemma SearchesInOrder(t: Tables)
    requires Inv(t)
    ensures FirstFree(t.inodeTaken) == FileCount(t) + 1 < INODE_TABLE_SIZE
    ensures FirstEmptySlot(t.slots) == FileCount(t)
  {
    var n, e := FileCount(t), FirstEmptySlot(t.slots);
    assert forall k :: 0 <= k < n ==> t.slots[k].inum != -1;
    assert n < MAX_DIR_ENTRIES ==> t.slots[n].inum == -1;
  }

  // ----- Pigeonhole -----

  /** More places than values: two places hold the same value. */
  lemma {:induction false} Pigeonhole(s: seq<int>, values: set<int>)
    requires forall k :: 0 <= k < |s| ==> s[k] in values
    requires forall j, k :: 0 <= j < k < |s| ==> s[j] != s[k]
    ensures |s| <= |values|
  {
    if s != [] {
      var last, front := s[|s| - 1], s[..|s| - 1];
      forall k | 0 <= k < |front| ensures front[k] in values - {last} { assert front[k] == s[k]; }
      Pigeonhole(front, values - {last});
    }
  }

  ghost function Owner(t: Tables, b: int): (i: int)
    requires Inv(t) && 0 <= b < DATA_BLOCKS && t.blockTaken[b]
    ensures Owns(t, i, b)
  {
    var i :| Owns(t, i, b); i
  }

  /** The numbers below `n`. */
  function Below(n: nat): (s: set<int>)
    ensures |s| == n
    ensures forall i :: i in s <==> 0 <= i < n
  {
    if n == 0 then {} else Below(n - 1) + {n - 1}
  }

  /** An empty file always finds a block, and among the first n + 1 of the 1024. */
  lemma BlockAvailable(t: Tables, inum: int)
    requires Inv(t) && 1 <= inum <= FileCount(t) && t.inodes[inum].size == 0
    ensures 0 <= FirstFree(t.blockTaken) <= FileCount(t)
  {
    var n := FileCount(t);
    if FirstFree(t.blockTaken) > n {
      var owners := seq(n + 1, b requires 0 <= b < n + 1 => assert t.blockTaken[b]; Owner(t, b));
      var holders := Below(n + 1) - {inum};
      forall b | 0 <= b < |owners| ensures owners[b] in holders { assert Owns(t, owners[b], b); }
      forall b, c | 0 <= b < c < |owners| ensures owners[b] != owners[c] {
        assert Owns(t, owners[b], b) && Owns(t, owners[c], c);
      }
      Pigeonhole(owners, holders);
    }
  }

  /** Whatever is stored there is always a free block. */
  lemma SomeBlockFree(t: Tables)
    requires Inv(t)
    ensures FirstFree(t.blockTaken) <= FileCount(t) + 1
  {
    var n := FileCount(t);
    if FirstFree(t.blockTaken) > n + 1 {
      var owners := seq(n + 2, b requires 0 <= b < n + 2 => assert t.blockTaken[b]; Owner(t, b));
      forall b | 0 <= b < |owners| ensures owners[b] in Below(n + 1) { assert Owns(t, owners[b], b); }
      forall b, c | 0 <= b < c < |owners| ensures owners[b] != owners[c] {
        assert Owns(t, owners[b], b) && Owns(t, owners[c], c);
      }
      Pigeonhole(owners, Below(n + 1));
    }
  }

  // ----- Every operation keeps the invariant -----

  lemma InitEstablishes(t: Tables)
    requires t.Shaped()
    ensures Inv(Init(t).0) && Init(t).1 == 0 && FileCount(Init(t).0) == 0
    ensures forall h :: 0 <= h < MAX_OPEN_FILES ==> !Init(t).0.entryTaken[h]
  {
    var z, r := StateInit(t), Init(t).0;
    FirstFreeIs(z.inodeTaken, 0);
    FirstFreeIs(z.blockTaken, 0);
    FirstFreeIs(r.inodeTaken, 1);
    assert Owns(r, 0, 0);
  }

  lemma TruncateKeeps(t: Tables, inum: nat, flags: int)
    requires Inv(t) && 1 <= inum <= FileCount(t)
    ensures Truncate(t, inum, flags).Some? && Inv(Truncate(t, inum, flags).value)
    ensures FileCount(Truncate(t, inum, flags).value) == FileCount(t)
  {
    if Truncates(flags) && t.inodes[inum].size > 0 {
      var b := t.inodes[inum].block;
      assert Owns(t, inum, b);
      var r := Truncate(t, inum, flags).value;
      forall i, c | Owns(r, i, c) ensures Owns(t, i, c) && c != b {
        assert i != inum;
        assert Owns(t, i, c);
      }
      forall c | 0 <= c < DATA_BLOCKS && r.blockTaken[c] ensures exists i :: Owns(r, i, c) {
        var i :| Owns(t, i, c);
        assert Owns(r, i, c);
      }
    }
  }

  lemma AddEntryKeeps(t: Tables, inum: int, offset: nat)
    requires Inv(t) && 1 <= inum <= FileCount(t)
    ensures Inv(AddToOpenFileTable(t, inum, offset).0)
    ensures FileCount(AddToOpenFileTable(t, inum, offset).0) == FileCount(t)
  {
    SameStorage(t, AddToOpenFileTable(t, inum, offset).0);
  }

  /** Entries aside, the invariant reads only these parts of the state. */
  lemma SameStorage(t: Tables, r: Tables)
    requires Inv(t) && r.Shaped() && EntriesValid(r)
    requires r.inodes == t.inodes && r.inodeTaken == t.inodeTaken && r.blockTaken == t.blockTaken && r.slots == t.slots
    ensures Inv(r)
  {
    forall i, b | Owns(r, i, b) ensures Owns(t, i, b) {}
    forall b | 0 <= b < DATA_BLOCKS && r.blockTaken[b] ensures exists i :: Owns(r, i, b) {
      var i :| Owns(t, i, b);
      assert Owns(r, i, b);
    }
  }

  /** The creation branch of open up to the directory entry. */
  function Create(t: Tables, path: CString): (Tables, int)
    requires t.Shaped() && path != []
  {
    var (t1, created) := InodeCreate(t, File);
    if created == -1 then (t1, -1)
    else
      var (t2, code) := AddDirEntry(t1, created, path[1..]);
      if code == -1 then (InodeDelete(t2, created).0, -1) else (t2, created)
  }

  /** Creation fails, and is rolled back, exactly when the name is empty or the directory is full. */
  lemma CreateKeeps(t: Tables, path: CString)
    requires Inv(t) && path != []
    ensures Inv(Create(t, path).0)
    ensures Create(t, path).1 == -1 <==> |path| == 1 || FileCount(t) == MAX_DIR_ENTRIES
    ensures Create(t, path).1 == -1 ==> FileCount(Create(t, path).0) == FileCount(t)
    ensures Create(t, path).1 != -1 ==> Create(t, path).1 == FileCount(Create(t, path).0) == FileCount(t) + 1
  {
    SearchesInOrder(t);
    var n, r := FileCount(t), Create(t, path).0;
    assert t.inodes[ROOT_DIR_INUM] == InodeCreate(t, File).0.inodes[ROOT_DIR_INUM];
    FirstFreeIs(r.inodeTaken, if Create(t, path).1 == -1 then n + 1 else n + 2);
    forall i, b | Owns(r, i, b) ensures Owns(t, i, b) {}
    forall b | 0 <= b < DATA_BLOCKS && r.blockTaken[b] ensures exists i :: Owns(r, i, b) {
      var i :| Owns(t, i, b);
      assert Owns(r, i, b);
    }
  }

  /** Lookup finds the number of a file or nothing; it never leads to the root or out of the table. */
  lemma LookupFinds(t: Tables, path: CString)
    requires Inv(t)
    ensures Lookup(t, path) == -1 || 1 <= Lookup(t, path) <= FileCount(t)
  {
    if ValidPathname(path) && FirstNamed(t.slots, path[1..]) < MAX_DIR_ENTRIES {
      assert t.slots[FirstNamed(t.slots, path[1..])].inum != -1;
    }
  }

  lemma OpenKeeps(t: Tables, path: CString, flags: int)
    requires Inv(t) && OpenDefined(path, flags)
    ensures Inv(Open(t, path, flags).0)
  {
    LookupFinds(t, path);
    var inum := Lookup(t, path);
    if inum >= 0 {
      TruncateKeeps(t, inum, flags);
      var t1 := Truncate(t, inum, flags).value;
      AddEntryKeeps(t1, inum, if Appends(flags) then t1.inodes[inum].size else 0);
    } else if Creates(flags) {
      CreateKeeps(t, path);
      var (t2, created) := Create(t, path);
      if created != -1 {
        AddEntryKeeps(t2, created, 0);
      }
    }
  }

  lemma CloseKeeps(t: Tables, h: int)
    requires Inv(t)
    ensures Inv(Close(t, h).0)
  {
    SameStorage(t, Close(t, h).0);
  }

  /** Allocation on a first write: it succeeds, and the block was nobody's. */
  lemma EnsureBlockOwned(t: Tables, inum: nat)
    requires Inv(t) && 1 <= inum <= FileCount(t)
    ensures 0 <= EnsureBlock(t, inum).inodes[inum].block < DATA_BLOCKS
    ensures EnsureBlock(t, inum).blockTaken[EnsureBlock(t, inum).inodes[inum].block]
    ensures forall i :: i != inum ==> !Owns(t, i, EnsureBlock(t, inum).inodes[inum].block)
  {
    if t.inodes[inum].size == 0 {
      BlockAvailable(t, inum);
    } else {
      assert Owns(t, inum, t.inodes[inum].block);
    }
  }

  lemma StoreKeeps(t: Tables, h: nat, inum: nat, bytes: seq<byte>)
    requires Inv(t) && h < MAX_OPEN_FILES && 1 <= inum <= FileCount(t) && t.entries[h].inum == inum
    requires bytes != [] && t.entries[h].offset + |bytes| <= BLOCK_SIZE
    requires InRange(EnsureBlock(t, inum).inodes[inum].block, DATA_BLOCKS)
    ensures Inv(Store(EnsureBlock(t, inum), h, inum, bytes))
    ensures FileCount(Store(EnsureBlock(t, inum), h, inum, bytes)) == FileCount(t)
  {
    EnsureBlockOwned(t, inum);
    var u := EnsureBlock(t, inum);
    var r := Store(u, h, inum, bytes);
    assert FileCount(r) == FileCount(t) && Owns(r, inum, u.inodes[inum].block);
    forall i, b | Owns(r, i, b) && i != inum ensures Owns(t, i, b) {}
    forall i, b | Owns(t, i, b) ensures Owns(r, i, b) {}
    forall b | 0 <= b < DATA_BLOCKS && r.blockTaken[b] ensures exists i :: Owns(r, i, b) {
      if b == u.inodes[inum].block {
        assert Owns(r, inum, b);
      } else {
        var i :| Owns(t, i, b);
        assert Owns(r, i, b);
      }
    }
  }

  lemma WriteKeeps(t: Tables, h: int, buffer: seq<byte>)
    requires Inv(t) && Usable(t, OpWrite(h, buffer)) && WriteDefined(t, h, buffer)
    ensures Inv(Write(t, h, buffer).0)
  {
    if InRange(h, MAX_OPEN_FILES) {
      var inum, n := t.entries[h].inum, Min(|buffer|, BLOCK_SIZE - t.entries[h].offset);
      if n != 0 {
        EnsureBlockOwned(t, inum);
        StoreKeeps(t, h, inum, buffer[..n]);
      }
    }
  }

  /** A read moves an offset, whatever its handle leads to. */
  lemma ReadKeeps(t: Tables, h: int, len: nat)
    requires Inv(t) && ReadDefined(t, h, len)
    ensures Inv(Read(t, h, len).0)
  {
    SameStorage(t, Read(t, h, len).0);
  }

  /** A write needs a handle out of range, or one whose entry leads to a file: it need not be open. */
  predicate Usable(t: Tables, op: Op)
    requires t.Shaped()
  {
    op.OpWrite? && InRange(op.h, MAX_OPEN_FILES) ==> LeadsToFile(t, op.h)
  }

  /** Any call with any path, any flags and a usable handle keeps the invariant. */
  lemma CallKeeps(t: Tables, op: Op)
    requires Inv(t) && Usable(t, op)
    ensures Inv(OnTables(t, op).0)
  {
    match op
    case OpOpen(path, flags) => if OpenDefined(path, flags) { OpenKeeps(t, path, flags); }
    case OpClose(h) => CloseKeeps(t, h);
    case OpWrite(h, buffer) => if WriteDefined(t, h, buffer) { WriteKeeps(t, h, buffer); }
    case OpRead(h, len) => if ReadDefined(t, h, len) { ReadKeeps(t, h, len); }
  }

  /** The write finds an empty inode that is not in use and has something to store. */
  predicate Stray(t: Tables, h: int, buffer: seq<byte>)
    requires t.Shaped()
  {
    && InRange(h, MAX_OPEN_FILES) && FileCount(t) < t.entries[h].inum < INODE_TABLE_SIZE
    && t.inodes[t.entries[h].inum].size == 0 && buffer != [] && t.entries[h].offset < BLOCK_SIZE
  }

  /** Such a write takes a block for no file, and no other write to files breaks the invariant. Entries leading to
      the root are left out: its slots are not bytes here. */
  lemma WriteKeepsExactly(t: Tables, h: int, buffer: seq<byte>)
    requires Inv(t) && WriteDefined(t, h, buffer)
    requires InRange(h, MAX_OPEN_FILES) ==> t.entries[h].inum != ROOT_DIR_INUM
    ensures Inv(Write(t, h, buffer).0) <==> !Stray(t, h, buffer)
  {
    if Usable(t, OpWrite(h, buffer)) {
      WriteKeeps(t, h, buffer);
    } else if Stray(t, h, buffer) {
      StrayLosesBlock(t, h, buffer);
    } else {
      NoInodeTouched(t, h, buffer);
    }
  }

  lemma StrayLosesBlock(t: Tables, h: int, buffer: seq<byte>)
    requires Inv(t) && WriteDefined(t, h, buffer) && Stray(t, h, buffer)
    ensures !Inv(Write(t, h, buffer).0)
  {
    SomeBlockFree(t);
    var b, r := FirstFree(t.blockTaken), Write(t, h, buffer).0;
    assert r.blockTaken[b] && r.inodeTaken == t.inodeTaken;
    forall i, c ensures Owns(r, i, c) <==> Owns(t, i, c) {}
  }

  /** What an odd write changes then, the invariant does not read. */
  lemma NoInodeTouched(t: Tables, h: int, buffer: seq<byte>)
    requires Inv(t) && WriteDefined(t, h, buffer) && !Stray(t, h, buffer) && !Usable(t, OpWrite(h, buffer))
    ensures Inv(Write(t, h, buffer).0)
  {
    var r := Write(t, h, buffer).0;
    assert r.inodeTaken == t.inodeTaken && r.blockTaken == t.blockTaken;
    forall i, b ensures Owns(r, i, b) <==> Owns(t, i, b) {}
    forall b | 0 <= b < DATA_BLOCKS && r.blockTaken[b] ensures exists i :: Owns(r, i, b) {
      var i :| Owns(t, i, b);
      assert Owns(r, i, b);
    }
  }

  // ----- Whole runs -----

  /** Every write of the run has a usable handle where it is made. */
  predicate UsableRun(t: Tables, ops: seq<Op>)
    requires t.Shaped()
    decreases |ops|
  {
    ops == [] || (Usable(t, ops[0]) && UsableRun(OnTables(t, ops[0]).0, ops[1..]))
  }

  /** Any run, with any paths and flags, truncation under a moved handle included, keeps the invariant. */
  lemma {:induction false} RunKeeps(t: Tables, ops: seq<Op>)
    requires Inv(t) && UsableRun(t, ops)
    ensures Inv(RunTables(t, ops).0)
    decreases |ops|
  {
    if ops != [] {
      CallKeeps(t, ops[0]);
      RunKeeps(OnTables(t, ops[0]).0, ops[1..]);
    }
  }

  lemma RunFromInitKeeps(t: Tables, ops: seq<Op>)
    requires t.Shaped() && UsableRun(Init(t).0, ops)
    ensures Inv(RunTables(Init(t).0, ops).0)
  {
    InitEstablishes(t);
    RunKeeps(Init(t).0, ops);
  }

  /** A handle that open returned leads to a file, and does so for ever: also after it is closed. */
  lemma OnceOpenedLeads(t: Tables, op: Op, h: int)
    requires Inv(t) && Usable(t, op) && InRange(h, MAX_OPEN_FILES)
    requires LeadsToFile(t, h) || (op.OpOpen? && OnTables(t, op).1 == Returned(h, []))
    ensures Inv(OnTables(t, op).0) && LeadsToFile(OnTables(t, op).0, h)
  {
    CallKeeps(t, op);
    match op
    case OpOpen(path, flags) => if OpenDefined(path, flags) { OpenLeads(t, path, flags, h); }
    case OpWrite(g, buffer) => if WriteDefined(t, g, buffer) { WriteLeads(t, g, buffer, h); }
    case _ =>
  }

  lemma OpenLeads(t: Tables, path: CString, flags: int, h: nat)
    requires Inv(t) && OpenDefined(path, flags) && h < MAX_OPEN_FILES
    requires LeadsToFile(t, h) || Open(t, path, flags).1 == h
    ensures Inv(Open(t, path, flags).0) && LeadsToFile(Open(t, path, flags).0, h)
  {
    OpenKeeps(t, path, flags);
    LookupFinds(t, path);
    var inum := Lookup(t, path);
    if inum >= 0 {
      TruncateKeeps(t, inum, flags);
      var t1 := Truncate(t, inum, flags).value;
      AddEntryLeads(t1, inum, if Appends(flags) then t1.inodes[inum].size else 0, h);
    } else if Creates(flags) {
      CreateKeeps(t, path);
      var (t2, created) := Create(t, path);
      if created != -1 {
        AddEntryLeads(t2, created, 0, h);
      }
    }
  }

  lemma AddEntryLeads(t: Tables, inum: int, offset: nat, h: nat)
    requires Inv(t) && 1 <= inum <= FileCount(t) && h < MAX_OPEN_FILES
    requires LeadsToFile(t, h) || AddToOpenFileTable(t, inum, offset).1 == h
    ensures LeadsToFile(AddToOpenFileTable(t, inum, offset).0, h)
  {
  }

  lemma WriteLeads(t: Tables, g: int, buffer: seq<byte>, h: nat)
    requires Inv(t) && Usable(t, OpWrite(g, buffer)) && WriteDefined(t, g, buffer)
    requires h < MAX_OPEN_FILES && LeadsToFile(t, h)
    ensures LeadsToFile(Write(t, g, buffer).0, h)
  {
    assert Write(t, g, buffer).0.inodeTaken == t.inodeTaken;
  }

  // ----- Blocks that are never used -----

  ghost predicate LowBlocks(t: Tables)
    requires t.Shaped()
  {
    forall b :: 0 <= b < DATA_BLOCKS && t.blockTaken[b] ==> b <= MAX_DIR_ENTRIES
  }

  lemma WriteStaysLow(t: Tables, h: int, buffer: seq<byte>)
    requires Inv(t) && LowBlocks(t) && Usable(t, OpWrite(h, buffer)) && WriteDefined(t, h, buffer)
    ensures LowBlocks(Write(t, h, buffer).0)
  {
    if InRange(h, MAX_OPEN_FILES) && t.inodes[t.entries[h].inum].size == 0 {
      BlockAvailable(t, t.entries[h].inum);
    }
  }

  lemma OpenStaysLow(t: Tables, path: CString, flags: int)
    requires Inv(t) && LowBlocks(t) && OpenDefined(path, flags)
    ensures LowBlocks(Open(t, path, flags).0)
  {
    forall b | 0 <= b < DATA_BLOCKS && Open(t, path, flags).0.blockTaken[b] ensures t.blockTaken[b] {}
  }

  lemma {:induction false} RunStaysLow(t: Tables, ops: seq<Op>)
    requires Inv(t) && LowBlocks(t) && UsableRun(t, ops)
    ensures LowBlocks(RunTables(t, ops).0)
    decreases |ops|
  {
    if ops != [] {
      CallKeeps(t, ops[0]);
      CallStaysLow(t, ops[0]);
      RunStaysLow(OnTables(t, ops[0]).0, ops[1..]);
    }
  }

  lemma CallStaysLow(t: Tables, op: Op)
    requires Inv(t) && LowBlocks(t) && Usable(t, op)
    ensures LowBlocks(OnTables(t, op).0)
  {
    match op
    case OpOpen(path, flags) => if OpenDefined(path, flags) { OpenStaysLow(t, path, flags); }
    case OpWrite(h, buffer) => if WriteDefined(t, h, buffer) { WriteStaysLow(t, h, buffer); }
    case _ =>
  }

  /** Whatever is run from init, only the first 24 of the 1024 blocks are ever taken: one per name and the root's. */
  lemma HighBlocksNeverTaken(t: Tables, ops: seq<Op>, b: nat)
    requires t.Shaped() && UsableRun(Init(t).0, ops) && MAX_DIR_ENTRIES < b < DATA_BLOCKS
    ensures !RunTables(Init(t).0, ops).0.blockTaken[b]
  {
    InitEstablishes(t);
    FirstFreeIs(StateInit(t).blockTaken, 0);
    RunStaysLow(Init(t).0, ops);
  }
}
