/**
 What a caller of open, write and read meets, in the numbers of the header files: the three flag bits, '/', and the
 limits. Nothing here is stated through the predicates and constants the model is written with.
 */
module Interface {
  import opened Config
  import opened TableModel
  import opened Serial
  import opened Invariant
  import opened Refinement
  import opened Directory
  import opened Counting
  import opened Hazards
  import A = AbstractFs

  // ----- The flags -----

  /** `flags` has the low bits `low`; `rest` stands for its other bits. */
  lemma LowBits(low: int, rest: int)
    requires 0 <= low < 8
    ensures Creates(8 * rest + low) <==> low in {1, 3, 5, 7}
    ensures Truncates(8 * rest + low) <==> low in {2, 3, 6, 7}
    ensures Appends(8 * rest + low) <==> low in {4, 5, 6, 7}
  {
  }

  ghost predicate HandleFree(t: Tables)
    requires t.Shaped()
  {
    exists h :: 0 <= h < 20 && !t.entryTaken[h]
  }

  lemma CutBytes(t: Tables, inum: nat, flags: int)
    requires Inv(t) && 1 <= inum <= FileCount(t)
    ensures Truncate(t, inum, flags).Some?
    ensures var r := Truncate(t, inum, flags).value;
            && Inv(r) && FileCount(r) == FileCount(t) && r.entryTaken == t.entryTaken
            && r.inodes[inum].size == |FileBytes(r, inum)|
            && FileBytes(r, inum) == (if Truncates(flags) then [] else FileBytes(t, inum))
            && forall i :: 1 <= i <= FileCount(t) && i != inum ==> FileBytes(r, i) == FileBytes(t, i)
  {
    TruncateKeeps(t, inum, flags);
  }

  lemma EntryKeepsBytes(t: Tables, inum: nat, offset: nat)
    requires Inv(t) && 1 <= inum <= FileCount(t) && HandleFree(t)
    ensures var (r, h) := AddToOpenFileTable(t, inum, offset);
            && Inv(r) && FileCount(r) == FileCount(t) && 0 <= h < 20 && !t.entryTaken[h]
            && r.entryTaken == t.entryTaken[h := true] && r.entries[h] == Entry(inum, offset)
            && forall i :: 1 <= i <= FileCount(t) ==> FileBytes(r, i) == FileBytes(t, i)
  {
    AddEntryKeeps(t, inum, offset);
  }

  /** The entry `h` has been granted on file `inum` at `offset`; no other file has changed. */
  ghost predicate Granted(t: Tables, r: Tables, h: int, inum: int, offset: int)
    requires Inv(t)
  {
    && Inv(r) && FileCount(r) == FileCount(t) && 1 <= inum <= FileCount(t)
    && 0 <= h < 20 && !t.entryTaken[h] && r.entryTaken == t.entryTaken[h := true]
    && r.entries[h].inum == inum && r.entries[h].offset == offset
    && forall i :: 1 <= i <= FileCount(t) && i != inum ==> FileBytes(r, i) == FileBytes(t, i)
  }

  lemma GrantedAfterCut(t: Tables, inum: nat, flags: int)
    requires Inv(t) && 1 <= inum <= FileCount(t) && HandleFree(t)
    ensures Truncate(t, inum, flags).Some?
    ensures var t1 := Truncate(t, inum, flags).value;
            var offset := if Appends(flags) then t1.inodes[inum].size else 0;
            var (r, h) := AddToOpenFileTable(t1, inum, offset);
            && Granted(t, r, h, inum, offset)
            && FileBytes(r, inum) == (if Truncates(flags) then [] else FileBytes(t, inum))
            && t1.inodes[inum].size == |FileBytes(r, inum)|
  {
    CutBytes(t, inum, flags);
    var t1 := Truncate(t, inum, flags).value;
    assert HandleFree(t1);
    EntryKeepsBytes(t1, inum, if Appends(flags) then t1.inodes[inum].size else 0);
  }

  lemma OpenIsGrant(t: Tables, path: CString, flags: int)
    requires Inv(t) && Lookup(t, path) >= 0 && HandleFree(t)
    ensures var inum := Lookup(t, path);
            var (r, o) := OnTables(t, OpOpen(path, flags));
            && o.Returned? && 1 <= inum <= FileCount(t)
            && var kept := if Truncates(flags) then [] else FileBytes(t, inum);
               Granted(t, r, o.code, inum, if Appends(flags) then |kept| else 0) && FileBytes(r, inum) == kept
  {
    LookupFinds(t, path);
    GrantedAfterCut(t, Lookup(t, path), flags);
  }

  /** Opening a file that exists, whatever the other bits of the flags: append without truncation starts at the end and
      keeps the bytes, neither of the two starts at 0 and keeps them, truncation leaves no bytes and starts at 0. */
  lemma ExistingByFlags(t: Tables, path: CString, low: int, rest: int)
    requires Inv(t) && Lookup(t, path) >= 0 && HandleFree(t) && 0 <= low < 8
    ensures 1 <= Lookup(t, path) <= FileCount(t)
    ensures var inum := Lookup(t, path);
            var (r, o) := OnTables(t, OpOpen(path, 8 * rest + low));
            && o.Returned?
            && (low in {4, 5} ==>
                  Granted(t, r, o.code, inum, |FileBytes(t, inum)|) && FileBytes(r, inum) == FileBytes(t, inum))
            && (low in {0, 1} ==> Granted(t, r, o.code, inum, 0) && FileBytes(r, inum) == FileBytes(t, inum))
            && (low in {2, 3, 6, 7} ==> Granted(t, r, o.code, inum, 0) && FileBytes(r, inum) == [])
  {
    LowBits(low, rest);
    OpenIsGrant(t, path, 8 * rest + low);
  }

  lemma MissingCreated(t: Tables, path: CString, flags: int)
    requires Inv(t) && Lookup(t, path) == -1 && HandleFree(t) && |path| > 1 && FileCount(t) < 23
    ensures var (r, o) := OnTables(t, OpOpen(path, flags));
            && Inv(r) && o.Returned?
            && if Creates(flags) then 0 <= o.code < 20 && FileCount(r) == FileCount(t) + 1 else o.code == -1 && r == t
  {
    OpenFailsExactly(t, path, flags);
    SlotsAfterOpen(t, path, flags);
    EntriesAfterOpen(t, path, flags);
  }

  /** Opening a name that does not exist creates it exactly if the lowest bit is set, and fails otherwise. */
  lemma MissingByFlags(t: Tables, path: CString, low: int, rest: int)
    requires Inv(t) && Lookup(t, path) == -1 && HandleFree(t) && 0 <= low < 8 && |path| > 1 && FileCount(t) < 23
    ensures var (r, o) := OnTables(t, OpOpen(path, 8 * rest + low));
            && Inv(r) && o.Returned?
            && (low in {1, 3, 5, 7} ==> 0 <= o.code < 20 && FileCount(r) == FileCount(t) + 1)
            && (low in {0, 2, 4, 6} ==> o.code == -1 && r == t)
  {
    LowBits(low, rest);
    MissingCreated(t, path, 8 * rest + low);
  }

  // ----- Paths -----

  /** A path is found only if it is '/' and a name. */
  lemma FoundByPath(t: Tables, path: CString)
    requires Inv(t) && Lookup(t, path) >= 0
    ensures |path| >= 2 && path[0] == 47
  {
  }

  /** What is created as '/' and a name of up to 39 characters is found again under that path, with any flags. */
  lemma CreatedByPath(t: Tables, name: CString, low: int, rest: int)
    requires Inv(t) && 1 <= |name| <= 39 && 0 <= low < 8
    requires Lookup(t, [47] + name) == -1 && FileCount(t) < 23 && low in {1, 3, 5, 7}
    ensures var r := OnTables(t, OpOpen([47] + name, 8 * rest + low)).0; Lookup(r, [47] + name) == FileCount(t) + 1
  {
    LowBits(low, rest);
    LookupInvertsCreation(t, [47] + name, 8 * rest + low);
  }

  // ----- Limits -----

  /** tfs_init leaves one of 50 inodes and one of 1024 blocks of 1024 bytes in use, 23 empty slots and 20 free
      handles. */
  lemma InitInNumbers(t: Tables)
    requires t.Shaped()
    ensures var (r, code) := Init(t);
            && code == 0 && |r.inodes| == |r.inodeTaken| == 50 && |r.blockTaken| == 1024 && |r.data| == 1024 * 1024
            && (forall i :: 0 <= i < 50 ==> (r.inodeTaken[i] <==> i == 0))
            && (forall b :: 0 <= b < 1024 ==> (r.blockTaken[b] <==> b == 0))
            && |r.slots| == 23 && (forall k :: 0 <= k < 23 ==> r.slots[k].inum == -1)
            && |r.entries| == |r.entryTaken| == 20 && forall h :: 0 <= h < 20 ==> !r.entryTaken[h]
  {
  }

  /** Open fails exactly if 20 handles are open, or the name is missing and is not to be created, is empty, or 23
      files exist. */
  lemma OpenFailsInNumbers(t: Tables, path: CString, low: int, rest: int)
    requires Inv(t) && path != [] && 0 <= low < 8
    ensures OnTables(t, OpOpen(path, 8 * rest + low)).1 == Returned(-1, []) <==>
      || Count(t.entryTaken) == 20
      || (Lookup(t, path) == -1 && (low in {0, 2, 4, 6} || |path| == 1 || FileCount(t) == 23))
  {
    LowBits(low, rest);
    OpenFailsExactly(t, path, 8 * rest + low);
    FullInNumbers(t);
  }

  lemma FullInNumbers(t: Tables)
    requires t.Shaped()
    ensures TableFull(t) <==> Count(t.entryTaken) == 20
  {
    CountFull(t.entryTaken);
    assert TableFull(t) <==> forall h :: 0 <= h < |t.entryTaken| ==> t.entryTaken[h];
  }

  lemma {:induction false} CountFull(taken: seq<bool>)
    ensures Count(taken) <= |taken|
    ensures Count(taken) == |taken| <==> forall i :: 0 <= i < |taken| ==> taken[i]
    decreases |taken|
  {
    if taken != [] {
      CountFull(taken[..|taken| - 1]);
      assert forall i :: 0 <= i < |taken| - 1 ==> taken[..|taken| - 1][i] == taken[i];
    }
  }

  /** A write through an open handle stores what fits below 1024 bytes. */
  lemma WriteStoresInNumbers(t: Tables, h: int, buffer: seq<byte>)
    requires Inv(t) && 0 <= h < 20 && t.entryTaken[h] && t.entries[h].offset <= 1024
    requires |buffer| + t.entries[h].offset < 0x1_0000_0000_0000_0000
    ensures var o, room := OnTables(t, OpWrite(h, buffer)).1, 1024 - t.entries[h].offset;
            o == Returned(if |buffer| <= room then |buffer| else room, [])
  {
    WriteNeverFails(t, h, buffer);
  }

  // ----- A run -----

  const LOG: CString := [47, 102]

  /** One file, "f". */
  function Only(bytes: seq<byte>, handles: map<int, A.Handle>): A.Fs { A.Fs([A.File([102], bytes)], handles) }

  ghost predicate Good(fs: A.Fs) { A.WellFormed(fs) && A.OffsetsInside(fs) }

  ghost predicate Calls(fs: A.Fs, op: Op, fs1: A.Fs, o: Outcome) {
    Good(fs) && Good(fs1) && A.Legal(fs, op) && A.Apply(fs, op) == (fs1, o)
  }

  ghost predicate Gives(fs: A.Fs, ops: seq<Op>, outcomes: seq<Outcome>) {
    Good(fs) && LegalRun(fs, ops) && RunFs(fs, ops).1 == outcomes
  }

  lemma FirstCall(fs: A.Fs, op: Op, fs1: A.Fs, o: Outcome, rest: seq<Op>, outcomes: seq<Outcome>)
    requires Calls(fs, op, fs1, o) && Gives(fs1, rest, outcomes)
    ensures Gives(fs, [op] + rest, [o] + outcomes)
  {
    assert ([op] + rest)[1..] == rest;
  }

  lemma OpensAt(fs: A.Fs, flags: int, fs1: A.Fs, h: nat, offset: nat)
    requires Good(fs) && fs.files == fs1.files && |fs.files| == 1 && fs.files[0].name == [102]
    requires flags in {0, 4} && h < 20 && A.LowestFree(fs.handles) == h
    requires offset == (if flags == 4 then |fs.files[0].bytes| else 0)
    requires fs1.handles == fs.handles[h as int := A.Handle(0, offset)]
    ensures Calls(fs, OpOpen(LOG, flags), fs1, Returned(h, []))
  {
    assert A.Find(fs, LOG) == 0;
  }

  lemma WritesAt(bytes: seq<byte>, handles: map<int, A.Handle>, more: seq<byte>)
    requires Good(Only(bytes, handles)) && 0 in handles && handles[0] == A.Handle(0, |bytes|)
    requires |bytes + more| <= BLOCK_SIZE
    ensures Calls(Only(bytes, handles), OpWrite(0, more),
                  Only(bytes + more, handles[0 := A.Handle(0, |bytes + more|)]), Returned(|more|, []))
  {
    var fs := Only(bytes, handles);
    A.WriteAt(fs, 0, 0, |bytes|, more);
    A.WriteKeeps(fs, 0, more);
    assert Min(|more|, BLOCK_SIZE - |bytes|) == |more| && more[..|more|] == more;
    assert A.Overwrite(bytes, |bytes|, more) == bytes + more;
    assert fs.files[0 := A.File([102], bytes + more)] == [A.File([102], bytes + more)];
  }

  lemma Reads()
    ensures Gives(Only([7, 8, 9], map[0 := A.Handle(0, 3), 1 := A.Handle(0, 0)]), [OpRead(1, 100)],
                  [Returned(3, [7, 8, 9])])
  {
    var fs := Only([7, 8, 9], map[0 := A.Handle(0, 3), 1 := A.Handle(0, 0)]);
    A.ReadAt(fs, 1, 0, 0, 100);
    A.ReadKeeps(fs, 1, 100);
    assert fs.files[0].bytes[0..3] == [7, 8, 9];
    FirstCall(fs, OpRead(1, 100), A.Apply(fs, OpRead(1, 100)).0, Returned(3, [7, 8, 9]), [], []);
  }

  lemma CreatesLog()
    ensures Calls(A.EMPTY, OpOpen(LOG, 1), Only([], map[0 := A.Handle(0, 0)]), Returned(0, []))
  {
    assert A.LowestFree(A.EMPTY.handles) == 0;
    assert A.Apply(A.EMPTY, OpOpen(LOG, 1)).0 == Only([], map[0 := A.Handle(0, 0)]);
  }

  lemma ClosesLog()
    ensures Calls(Only([7, 8], map[0 := A.Handle(0, 2)]), OpClose(0), Only([7, 8], map[]), Returned(0, []))
  {
    assert map[0 := A.Handle(0, 2)] - {0} == map[];
  }

  // The calls from the last to the first.

  const FROM_READ: seq<Op> := [OpRead(1, 100)]
  const READ: seq<Outcome> := [Returned(3, [7, 8, 9])]
  const FROM_REOPEN: seq<Op> := [OpOpen(LOG, 0)] + FROM_READ
  const REOPENED: seq<Outcome> := [Returned(1, [])] + READ
  const FROM_APPEND: seq<Op> := [OpWrite(0, [9])] + FROM_REOPEN
  const APPENDED: seq<Outcome> := [Returned(1, [])] + REOPENED
  const FROM_OPEN: seq<Op> := [OpOpen(LOG, 4)] + FROM_APPEND
  const OPENED: seq<Outcome> := [Returned(0, [])] + APPENDED
  const FROM_CLOSE: seq<Op> := [OpClose(0)] + FROM_OPEN
  const CLOSED: seq<Outcome> := [Returned(0, [])] + OPENED
  const FROM_WRITE: seq<Op> := [OpWrite(0, [7, 8])] + FROM_CLOSE
  const WRITTEN: seq<Outcome> := [Returned(2, [])] + CLOSED
  const FROM_CREATE: seq<Op> := [OpOpen(LOG, 1)] + FROM_WRITE
  const CREATED: seq<Outcome> := [Returned(0, [])] + WRITTEN

  lemma ReopensAndReads()
    ensures Gives(Only([7, 8, 9], map[0 := A.Handle(0, 3)]), FROM_REOPEN, REOPENED)
  {
    var fs := Only([7, 8, 9], map[0 := A.Handle(0, 3)]);
    var fs1 := Only([7, 8, 9], map[0 := A.Handle(0, 3), 1 := A.Handle(0, 0)]);
    Reads();
    OpensAt(fs, 0, fs1, 1, 0);
    FirstCall(fs, OpOpen(LOG, 0), fs1, Returned(1, []), FROM_READ, READ);
  }

  lemma AppendsAndReads()
    ensures Gives(Only([7, 8], map[0 := A.Handle(0, 2)]), FROM_APPEND, APPENDED)
  {
    ReopensAndReads();
    WritesAt([7, 8], map[0 := A.Handle(0, 2)], [9]);
    assert [7, 8] + [9] == [7, 8, 9];
    assert map[0 := A.Handle(0, 2)][0 := A.Handle(0, 3)] == map[0 := A.Handle(0, 3)];
    FirstCall(Only([7, 8], map[0 := A.Handle(0, 2)]), OpWrite(0, [9]), Only([7, 8, 9], map[0 := A.Handle(0, 3)]),
              Returned(1, []), FROM_REOPEN, REOPENED);
  }

  lemma OpensToAppend()
    ensures Gives(Only([7, 8], map[]), FROM_OPEN, OPENED)
  {
    var fs, fs1 := Only([7, 8], map[]), Only([7, 8], map[0 := A.Handle(0, 2)]);
    AppendsAndReads();
    OpensAt(fs, 4, fs1, 0, 2);
    FirstCall(fs, OpOpen(LOG, 4), fs1, Returned(0, []), FROM_APPEND, APPENDED);
  }

  lemma ClosesAndOpens()
    ensures Gives(Only([7, 8], map[0 := A.Handle(0, 2)]), FROM_CLOSE, CLOSED)
  {
    OpensToAppend();
    ClosesLog();
    FirstCall(Only([7, 8], map[0 := A.Handle(0, 2)]), OpClose(0), Only([7, 8], map[]), Returned(0, []),
              FROM_OPEN, OPENED);
  }

  lemma WritesFirst()
    ensures Gives(Only([], map[0 := A.Handle(0, 0)]), FROM_WRITE, WRITTEN)
  {
    ClosesAndOpens();
    WritesAt([], map[0 := A.Handle(0, 0)], [7, 8]);
    assert [] + [7, 8] == [7, 8];
    assert map[0 := A.Handle(0, 0)][0 := A.Handle(0, 2)] == map[0 := A.Handle(0, 2)];
    FirstCall(Only([], map[0 := A.Handle(0, 0)]), OpWrite(0, [7, 8]), Only([7, 8], map[0 := A.Handle(0, 2)]),
              Returned(2, []), FROM_CLOSE, CLOSED);
  }

  lemma CreatesFirst()
    ensures Gives(A.EMPTY, FROM_CREATE, CREATED)
  {
    WritesFirst();
    CreatesLog();
    FirstCall(A.EMPTY, OpOpen(LOG, 1), Only([], map[0 := A.Handle(0, 0)]), Returned(0, []), FROM_WRITE, WRITTEN);
  }

  lemma CallsInARow()
    ensures FROM_CREATE == [OpOpen([47, 102], 1), OpWrite(0, [7, 8]), OpClose(0), OpOpen([47, 102], 4),
                            OpWrite(0, [9]), OpOpen([47, 102], 0), OpRead(1, 100)]
    ensures CREATED == [Returned(0, []), Returned(2, []), Returned(0, []), Returned(0, []), Returned(1, []),
                        Returned(1, []), Returned(3, [7, 8, 9])]
  {
  }

  /** From tfs_init, on the tables: create "/f", write two bytes, close, open for append, write a third; a second
      handle then reads all three. */
  lemma AppendExample(t: Tables, ops: seq<Op>, outcomes: seq<Outcome>)
    requires t.Shaped()
    requires ops == [OpOpen([47, 102], 1), OpWrite(0, [7, 8]), OpClose(0), OpOpen([47, 102], 4), OpWrite(0, [9]),
                     OpOpen([47, 102], 0), OpRead(1, 100)]
    requires outcomes == [Returned(0, []), Returned(2, []), Returned(0, []), Returned(0, []), Returned(1, []),
                          Returned(1, []), Returned(3, [7, 8, 9])]
    ensures RunTables(Init(t).0, ops).1 == outcomes
  {
    CallsInARow();
    CreatesFirst();
    RunFromInit(t, FROM_CREATE);
  }
}
