/** Names: when they stay distinct, why lookup inverts creation, and exactly when open fails. */
module Directory {
  import opened Config
  import opened TableModel
  import opened Serial
  import opened Invariant
  import opened Refinement
  import A = AbstractFs

  ghost predicate DistinctNames(t: Tables)
    requires Inv(t)
  {
    forall j, k :: 0 <= j < k < FileCount(t) ==> t.slots[j].name != t.slots[k].name
  }

  /** A path that creation treats as lookup does. Paths of one character never create anything. */
  predicate SoundPath(path: CString) {
    |path| <= 1 || (path[0] == SLASH && |path| <= MAX_FILE_NAME)
  }

  /** What open does to the directory slots: nothing, or one new name after the others. */
  lemma SlotsAfterOpen(t: Tables, path: CString, flags: int)
    requires Inv(t) && OpenDefined(path, flags)
    ensures Inv(Open(t, path, flags).0)
    ensures var r := Open(t, path, flags).0;
            if Lookup(t, path) == -1 && Creates(flags) && |path| > 1 && FileCount(t) < MAX_DIR_ENTRIES
            then FileCount(r) == FileCount(t) + 1
                 && r.slots == t.slots[FileCount(t) := Slot(StoredName(path[1..]), FileCount(t) + 1)]
            else FileCount(r) == FileCount(t) && r.slots == t.slots
  {
    OpenKeeps(t, path, flags);
    LookupFinds(t, path);
    if Lookup(t, path) >= 0 {
      TruncateKeeps(t, Lookup(t, path), flags);
    } else if Creates(flags) {
      CreateKeeps(t, path);
      SearchesInOrder(t);
    }
  }

  lemma LookupMissed(t: Tables, path: CString, k: int)
    requires Inv(t) && ValidPathname(path) && Lookup(t, path) == -1 && 0 <= k < FileCount(t)
    ensures !SameName(t.slots[k].name, path[1..])
  {
    assert !Names(t.slots[k], path[1..]);
  }

  /** Sound paths keep names distinct; each other path breaks it, on its second creation. */
  lemma SoundPathKeepsDistinct(t: Tables, path: CString, flags: int)
    requires Inv(t) && DistinctNames(t) && OpenDefined(path, flags)
    requires Creates(flags) ==> SoundPath(path)
    ensures Inv(Open(t, path, flags).0) && DistinctNames(Open(t, path, flags).0)
  {
    SlotsAfterOpen(t, path, flags);
    var r := Open(t, path, flags).0;
    if FileCount(r) > FileCount(t) {
      assert StoredName(path[1..]) == path[1..];
      forall k | 0 <= k < FileCount(t) ensures t.slots[k].name != path[1..] { LookupMissed(t, path, k); }
    }
  }

  lemma UnsoundPathIsNeverFound(t: Tables, path: CString)
    requires Inv(t) && !SoundPath(path)
    ensures Lookup(t, path) == -1
  {
    if ValidPathname(path) {
      forall k | 0 <= k < MAX_DIR_ENTRIES ensures !Names(t.slots[k], path[1..]) {}
    }
  }

  lemma UnsoundPathDuplicates(t: Tables, path: CString, flags: int)
    requires Inv(t) && !SoundPath(path) && Creates(flags) && FileCount(t) + 1 < MAX_DIR_ENTRIES
    ensures var t1 := Open(t, path, flags).0;
            Inv(t1) && Inv(Open(t1, path, flags).0) && !DistinctNames(Open(t1, path, flags).0)
    ensures DistinctNames(t) && FileCount(t) == 0 ==> DistinctNames(Open(t, path, flags).0)
  {
    var n := FileCount(t);
    UnsoundPathIsNeverFound(t, path);
    SlotsAfterOpen(t, path, flags);
    var t1 := Open(t, path, flags).0;
    UnsoundPathIsNeverFound(t1, path);
    SlotsAfterOpen(t1, path, flags);
    var t2 := Open(t1, path, flags).0;
    assert t2.slots[n].name == t2.slots[n + 1].name;
  }

  ghost predicate AlwaysKeepsDistinct(path: CString, flags: int)
    requires OpenDefined(path, flags)
  {
    forall t :: Inv(t) && DistinctNames(t) ==> Inv(Open(t, path, flags).0) && DistinctNames(Open(t, path, flags).0)
  }

  ghost function Blank(): (t: Tables)
    ensures t.Shaped()
  {
    Tables(seq(INODE_TABLE_SIZE, _ => Inode(File, 0, 0)), seq(INODE_TABLE_SIZE, _ => false),
           seq(BLOCK_SIZE * DATA_BLOCKS, _ => 0), seq(DATA_BLOCKS, _ => false),
           seq(MAX_DIR_ENTRIES, _ => Slot([], 0)), seq(MAX_OPEN_FILES, _ => Entry(0, 0)),
           seq(MAX_OPEN_FILES, _ => false))
  }

  /** Names stay distinct, whatever the state, exactly for the calls that do not create along an unsound path. */
  lemma DistinctNamesExactly(path: CString, flags: int)
    requires OpenDefined(path, flags)
    ensures AlwaysKeepsDistinct(path, flags) <==> !Creates(flags) || SoundPath(path)
  {
    if !Creates(flags) || SoundPath(path) {
      forall t | Inv(t) && DistinctNames(t)
        ensures Inv(Open(t, path, flags).0) && DistinctNames(Open(t, path, flags).0)
      {
        SoundPathKeepsDistinct(t, path, flags);
      }
    } else {
      InitEstablishes(Blank());
      UnsoundPathDuplicates(Init(Blank()).0, path, flags);
    }
  }

  /** Only open touches the directory. */
  lemma OthersKeepSlots(t: Tables, op: Op)
    requires t.Shaped() && !op.OpOpen?
    ensures OnTables(t, op).0.slots == t.slots && OnTables(t, op).0.inodeTaken == t.inodeTaken
  {
  }

  lemma CallKeepsDistinct(t: Tables, fs: A.Fs, op: Op)
    requires Matches(t, fs) && A.WellFormed(fs) && A.OffsetsInside(fs) && A.Legal(fs, op) && DistinctNames(t)
    requires op.OpOpen? && Creates(op.flags) ==> SoundPath(op.path)
    ensures Inv(OnTables(t, op).0) && DistinctNames(OnTables(t, op).0)
  {
    CallRefines(t, fs, op);
    if op.OpOpen? {
      SoundPathKeepsDistinct(t, op.path, op.flags);
    } else {
      OthersKeepSlots(t, op);
      SameNamesDistinct(t, OnTables(t, op).0);
    }
  }

  lemma SameNamesDistinct(t: Tables, r: Tables)
    requires Inv(t) && Inv(r) && r.slots == t.slots && r.inodeTaken == t.inodeTaken && DistinctNames(t)
    ensures DistinctNames(r)
  {
  }

  lemma {:induction false} RunKeepsDistinct(t: Tables, fs: A.Fs, ops: seq<Op>)
    requires Matches(t, fs) && A.WellFormed(fs) && A.OffsetsInside(fs) && LegalRun(fs, ops) && DistinctNames(t)
    requires forall k :: 0 <= k < |ops| && ops[k].OpOpen? && Creates(ops[k].flags) ==> SoundPath(ops[k].path)
    ensures Inv(RunTables(t, ops).0) && DistinctNames(RunTables(t, ops).0)
    decreases |ops|
  {
    if ops != [] {
      CallRefines(t, fs, ops[0]);
      CallKeepsDistinct(t, fs, ops[0]);
      RunKeepsDistinct(OnTables(t, ops[0]).0, A.Apply(fs, ops[0]).0, ops[1..]);
    }
  }

  /** After any legal run from tfs_init that creates along sound paths only, names are distinct, and inodes, slots and
      blocks are laid out as the invariant says. */
  lemma DirectoryAfterRun(t: Tables, ops: seq<Op>)
    requires t.Shaped() && LegalRun(A.EMPTY, ops)
    requires forall k :: 0 <= k < |ops| && ops[k].OpOpen? && Creates(ops[k].flags) ==> SoundPath(ops[k].path)
    ensures var r := RunTables(Init(t).0, ops).0; Inv(r) && DistinctNames(r)
  {
    RunFromInit(t, []);
    InitEstablishes(t);
    RunKeepsDistinct(Init(t).0, A.EMPTY, ops);
  }

  // ----- Lookup -----

  lemma FirstNamedIs(slots: seq<Slot>, name: CString, k: nat)
    requires k <= |slots| && (forall j :: 0 <= j < k ==> !Names(slots[j], name))
    requires k < |slots| ==> Names(slots[k], name)
    ensures FirstNamed(slots, name) == k
  {
  }

  /** A created file is found under its path, at the next inode. */
  lemma LookupInvertsCreation(t: Tables, path: CString, flags: int)
    requires Inv(t) && ValidPathname(path) && SoundPath(path) && Creates(flags)
    requires Lookup(t, path) == -1 && FileCount(t) < MAX_DIR_ENTRIES
    ensures Lookup(Open(t, path, flags).0, path) == FileCount(t) + 1
  {
    SlotsAfterOpen(t, path, flags);
    var r, n := Open(t, path, flags).0, FileCount(t);
    forall k | 0 <= k < n ensures !Names(r.slots[k], path[1..]) { LookupMissed(t, path, k); }
    FirstNamedIs(r.slots, path[1..], n);
  }

  /** Once a path is found it leads to the same inode after any call. */
  lemma LookupStable(t: Tables, path: CString, op: Op)
    requires Inv(t) && Lookup(t, path) >= 0 && Usable(t, op)
    ensures Inv(OnTables(t, op).0) && Lookup(OnTables(t, op).0, path) == Lookup(t, path)
  {
    CallKeeps(t, op);
    var r, f := OnTables(t, op).0, FirstNamed(t.slots, path[1..]);
    if op.OpOpen? && OpenDefined(op.path, op.flags) {
      SlotsAfterOpen(t, op.path, op.flags);
    }
    assert f < FileCount(t);
    assert forall k :: 0 <= k <= f ==> r.slots[k] == t.slots[k];
    FirstNamedIs(r.slots, path[1..], f);
  }

  /** ... and in every later state: any calls, by anyone, rolled-back creations and stale handles included. */
  lemma {:induction false} LookupStableForEver(t: Tables, path: CString, ops: seq<Op>)
    requires Inv(t) && Lookup(t, path) >= 0 && UsableRun(t, ops)
    ensures Lookup(RunTables(t, ops).0, path) == Lookup(t, path)
    decreases |ops|
  {
    if ops != [] {
      LookupStable(t, path, ops[0]);
      LookupStableForEver(OnTables(t, ops[0]).0, path, ops[1..]);
    }
  }

  /** A created file is found at its inode in every later state. */
  lemma CreatedIsFoundForEver(t: Tables, path: CString, flags: int, ops: seq<Op>)
    requires Inv(t) && ValidPathname(path) && SoundPath(path) && Creates(flags)
    requires Lookup(t, path) == -1 && FileCount(t) < MAX_DIR_ENTRIES && UsableRun(Open(t, path, flags).0, ops)
    ensures Lookup(RunTables(Open(t, path, flags).0, ops).0, path) == FileCount(t) + 1
  {
    OpenKeeps(t, path, flags);
    LookupInvertsCreation(t, path, flags);
    LookupStableForEver(Open(t, path, flags).0, path, ops);
  }

  // ----- Failures -----

  predicate TableFull(t: Tables)
    requires t.Shaped()
  {
    forall h :: 0 <= h < MAX_OPEN_FILES ==> t.entryTaken[h]
  }

  /** Open fails exactly for a missing name that may not be made, a full directory, or a full open-file table;
      never for want of an inode or a block. */
  lemma OpenFailsExactly(t: Tables, path: CString, flags: int)
    requires Inv(t) && OpenDefined(path, flags)
    ensures Open(t, path, flags).1 == -1 <==>
      || TableFull(t)
      || (Lookup(t, path) == -1 && (!Creates(flags) || |path| == 1 || FileCount(t) == MAX_DIR_ENTRIES))
  {
    LookupFinds(t, path);
    if Lookup(t, path) >= 0 {
      TruncateKeeps(t, Lookup(t, path), flags);
    } else if Creates(flags) {
      CreateKeeps(t, path);
    }
  }

  /** A first write always gets a block: writing through an open handle never returns -1. */
  lemma WriteNeverFails(t: Tables, h: int, buffer: seq<byte>)
    requires Inv(t) && WriteDefined(t, h, buffer) && InRange(h, MAX_OPEN_FILES) && t.entryTaken[h]
    ensures Write(t, h, buffer).1 == Min(|buffer|, BLOCK_SIZE - t.entries[h].offset)
  {
    EnsureBlockOwned(t, t.entries[h].inum);
  }
}
