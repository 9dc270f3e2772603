/**
 state.c and operations.c in their own form: fixed arrays updated in place by search loops, copies and
 counters. Every method is proved to do exactly what its function in TableModel (or Serial) says.
 */
module Storage {
  import opened Config
  import opened TableModel
  import opened Serial

  class FileSystem {
    const inodes: array<Inode>
    const inodeTaken: array<bool>
    const data: array<byte>
    const blockTaken: array<bool>
    const slots: array<Slot>
    const entries: array<Entry>
    const entryTaken: array<bool>
    var openFiles: int
    var calledDestroy: bool

    /** The arrays are different objects and have their declared sizes; none of this ever changes. */
    predicate Valid() {
      && inodeTaken != blockTaken && inodeTaken != entryTaken && blockTaken != entryTaken
      && inodes.Length == inodeTaken.Length == INODE_TABLE_SIZE
      && data.Length == BLOCK_SIZE * DATA_BLOCKS
      && blockTaken.Length == DATA_BLOCKS
      && slots.Length == MAX_DIR_ENTRIES
      && entries.Length == entryTaken.Length == MAX_OPEN_FILES
    }

    ghost function View(): (t: Tables)
      requires Valid()
      reads inodes, inodeTaken, data, blockTaken, slots, entries, entryTaken
      ensures t.Shaped()
    {
      Tables(inodes[..], inodeTaken[..], data[..], blockTaken[..], slots[..], entries[..], entryTaken[..])
    }

    ghost function All(): Shared
      requires Valid()
      reads this, inodes, inodeTaken, data, blockTaken, slots, entries, entryTaken
    {
      Shared(View(), openFiles, calledDestroy)
    }

    /** Static storage: allocated once, its contents unspecified until tfs_init. */
    constructor ()
      ensures Valid()
      ensures fresh(inodes) && fresh(inodeTaken) && fresh(data) && fresh(blockTaken)
      ensures fresh(slots) && fresh(entries) && fresh(entryTaken)
    {
      inodes := new Inode[INODE_TABLE_SIZE](_ => Inode(File, 0, 0));
      inodeTaken := new bool[INODE_TABLE_SIZE];
      data := new byte[BLOCK_SIZE * DATA_BLOCKS];
      blockTaken := new bool[DATA_BLOCKS];
      slots := new Slot[MAX_DIR_ENTRIES](_ => Slot([], 0));
      entries := new Entry[MAX_OPEN_FILES](_ => Entry(0, 0));
      entryTaken := new bool[MAX_OPEN_FILES];
      openFiles, calledDestroy := 0, false;
    }

    // ----- state.c -----

    method StateInit()
      requires Valid()
      modifies inodeTaken, blockTaken, entryTaken
      ensures View() == TableModel.StateInit(old(View()))
    {
      for i := 0 to INODE_TABLE_SIZE
        invariant forall k :: 0 <= k < i ==> !inodeTaken[k]
      {
        inodeTaken[i] := false;
      }
      for i := 0 to DATA_BLOCKS
        invariant forall k :: 0 <= k < i ==> !blockTaken[k]
        invariant forall k :: 0 <= k < INODE_TABLE_SIZE ==> !inodeTaken[k]
      {
        blockTaken[i] := false;
      }
      for i := 0 to MAX_OPEN_FILES
        invariant forall k :: 0 <= k < i ==> !entryTaken[k]
        invariant forall k :: 0 <= k < DATA_BLOCKS ==> !blockTaken[k]
        invariant forall k :: 0 <= k < INODE_TABLE_SIZE ==> !inodeTaken[k]
      {
        entryTaken[i] := false;
      }
      assert inodeTaken[..] == seq(INODE_TABLE_SIZE, _ => false);
      assert blockTaken[..] == seq(DATA_BLOCKS, _ => false);
      assert entryTaken[..] == seq(MAX_OPEN_FILES, _ => false);
    }

    method DataBlockAlloc() returns (b: int)
      requires Valid()
      modifies blockTaken
      ensures (View(), b) == TableModel.DataBlockAlloc(old(View()))
    {
      for i := 0 to DATA_BLOCKS
        invariant FirstFree(blockTaken[..]) == FirstFree(blockTaken[..], i)
        invariant blockTaken[..] == old(blockTaken[..])
      {
        if !blockTaken[i] {
          blockTaken[i] := true;
          assert blockTaken[..] == old(blockTaken[..])[i := true];
          return i;
        }
      }
      return -1;
    }

    method DataBlockFree(b: int) returns (code: int)
      requires Valid()
      modifies blockTaken
      ensures (View(), code) == TableModel.DataBlockFree(old(View()), b)
    {
      if !InRange(b, DATA_BLOCKS) {
        return -1;
      }
      blockTaken[b] := false;
      assert blockTaken[..] == old(blockTaken[..])[b := false];
      return 0;
    }

    method ClearSlots()
      requires Valid()
      modifies slots
      ensures View() == old(View()).(slots := EmptySlots(old(slots[..])))
    {
      for i := 0 to MAX_DIR_ENTRIES
        invariant forall k :: 0 <= k < i ==> slots[k] == old(slots[k]).(inum := -1)
        invariant forall k :: i <= k < MAX_DIR_ENTRIES ==> slots[k] == old(slots[k])
      {
        slots[i] := slots[i].(inum := -1);
      }
      assert slots[..] == EmptySlots(old(slots[..]));
    }

    /** Inode_create once a free position is known. */
    method FillInode(i: nat, kind: Kind) returns (r: int)
      requires Valid() && i < INODE_TABLE_SIZE && i == FirstFree(inodeTaken[..])
      modifies inodes, inodeTaken, blockTaken, slots
      ensures (View(), r) == TableModel.InodeCreate(old(View()), kind)
    {
      inodeTaken[i] := true;
      inodes[i] := inodes[i].(kind := kind);
      assert inodeTaken[..] == old(inodeTaken[..])[i := true];
      assert inodes[..] == old(inodes[..])[i := old(inodes[i]).(kind := kind)];
      if kind.Directory? {
        var b := DataBlockAlloc();
        if b == -1 {
          inodeTaken[i] := false;
          assert inodeTaken[..] == old(inodeTaken[..])[i := true][i := false];
          return -1;
        }
        inodes[i] := inodes[i].(size := BLOCK_SIZE, block := b);
        assert inodes[..] == old(inodes[..])[i := old(inodes[i]).(kind := kind)][i := Inode(Directory, BLOCK_SIZE, b)];
        ClearSlots();
      } else {
        inodes[i] := inodes[i].(size := 0, block := -1);
        assert inodes[..] == old(inodes[..])[i := old(inodes[i]).(kind := kind)][i := Inode(File, 0, -1)];
      }
      return i;
    }

    method InodeCreate(kind: Kind) returns (r: int)
      requires Valid()
      modifies inodes, inodeTaken, blockTaken, slots
      ensures (View(), r) == TableModel.InodeCreate(old(View()), kind)
    {
      for i := 0 to INODE_TABLE_SIZE
        invariant FirstFree(inodeTaken[..]) == FirstFree(inodeTaken[..], i)
        invariant View() == old(View())
      {
        if !inodeTaken[i] {
          r := FillInode(i, kind);
          return;
        }
      }
      return -1;
    }

    method InodeDelete(i: int) returns (code: int)
      requires Valid()
      modifies inodeTaken, blockTaken
      ensures (View(), code) == TableModel.InodeDelete(old(View()), i)
    {
      if !InRange(i, INODE_TABLE_SIZE) || !inodeTaken[i] {
        return -1;
      }
      inodeTaken[i] := false;
      assert inodeTaken[..] == old(inodeTaken[..])[i := false];
      if inodes[i].size > 0 {
        code := DataBlockFree(inodes[i].block);
        return;
      }
      return 0;
    }

    method AddDirEntry(inum: int, name: CString) returns (code: int)
      requires Valid()
      modifies slots
      ensures (View(), code) == TableModel.AddDirEntry(old(View()), inum, name)
    {
      if !InRange(inum, INODE_TABLE_SIZE) || inodes[ROOT_DIR_INUM].kind != Directory || name == [] {
        return -1;
      }
      if !InRange(inodes[ROOT_DIR_INUM].block, DATA_BLOCKS) {
        return -1;
      }
      for i := 0 to MAX_DIR_ENTRIES
        invariant FirstEmptySlot(slots[..]) == FirstEmptySlot(slots[..], i)
        invariant View() == old(View())
      {
        if slots[i].inum == -1 {
          slots[i] := Slot(StoredName(name), inum);
          assert slots[..] == old(slots[..])[i := Slot(StoredName(name), inum)];
          return 0;
        }
      }
      return -1;
    }

    method FindInDir(name: CString) returns (inum: int)
      requires Valid()
      ensures inum == TableModel.FindInDir(View(), name)
    {
      if inodes[ROOT_DIR_INUM].kind != Directory || !InRange(inodes[ROOT_DIR_INUM].block, DATA_BLOCKS) {
        return -1;
      }
      for i := 0 to MAX_DIR_ENTRIES
        invariant FirstNamed(slots[..], name) == FirstNamed(slots[..], name, i)
      {
        if slots[i].inum != -1 && SameName(slots[i].name, name) {
          return slots[i].inum;
        }
      }
      return -1;
    }

    method AddToOpenFileTable(inum: int, offset: nat) returns (h: int)
      requires Valid()
      modifies entries, entryTaken
      ensures (View(), h) == TableModel.AddToOpenFileTable(old(View()), inum, offset)
    {
      for i := 0 to MAX_OPEN_FILES
        invariant FirstFree(entryTaken[..]) == FirstFree(entryTaken[..], i)
        invariant View() == old(View())
      {
        if !entryTaken[i] {
          entryTaken[i] := true;
          entries[i] := Entry(inum, offset);
          assert entryTaken[..] == old(entryTaken[..])[i := true];
          assert entries[..] == old(entries[..])[i := Entry(inum, offset)];
          return i;
        }
      }
      return -1;
    }

    method RemoveFromOpenFileTable(h: int) returns (code: int)
      requires Valid()
      modifies entryTaken
      ensures (View(), code) == TableModel.RemoveFromOpenFileTable(old(View()), h)
    {
      if !InRange(h, MAX_OPEN_FILES) || !entryTaken[h] {
        return -1;
      }
      entryTaken[h] := false;
      assert entryTaken[..] == old(entryTaken[..])[h := false];
      return 0;
    }

    // ----- operations.c -----

    method TfsInit() returns (code: int)
      requires Valid()
      modifies this, inodes, inodeTaken, blockTaken, slots, entryTaken
      ensures All() == Serial.Start(old(View()))
      ensures code == TableModel.Init(old(View())).1
    {
      calledDestroy := false;
      openFiles := 0;
      StateInit();
      var root := InodeCreate(Directory);
      return if root != ROOT_DIR_INUM then -1 else 0;
    }

    method Lookup(path: CString) returns (inum: int)
      requires Valid()
      ensures inum == TableModel.Lookup(View(), path)
    {
      if !ValidPathname(path) {
        return -1;
      }
      inum := FindInDir(path[1..]);
    }

    /** The branch of open that finds the file: truncate, choose the offset, take an entry. */
    method OpenExisting(inum: int, flags: int) returns (h: int)
      requires Valid() && 0 <= inum < INODE_TABLE_SIZE
      modifies inodes, blockTaken, entries, entryTaken
      ensures (View(), h) == (match TableModel.Truncate(old(View()), inum, flags)
                              case None => (old(View()), -1)
                              case Some(t1) => TableModel.AddToOpenFileTable(t1, inum,
                                                 if Appends(flags) then t1.inodes[inum].size else 0))
    {
      if Truncates(flags) && inodes[inum].size > 0 {
        var code := DataBlockFree(inodes[inum].block);
        if code == -1 {
          return -1;
        }
        inodes[inum] := inodes[inum].(size := 0);
        assert inodes[..] == old(inodes[..])[inum := old(inodes[inum]).(size := 0)];
      }
      h := AddToOpenFileTable(inum, if Appends(flags) then inodes[inum].size else 0);
    }

    /** `_tfs_open_unsynchronized`. */
    method OpenUnsynchronized(path: CString, flags: int) returns (h: int)
      requires Valid() && OpenDefined(path, flags)
      modifies inodes, inodeTaken, blockTaken, slots, entries, entryTaken
      ensures (View(), h) == TableModel.Open(old(View()), path, flags)
    {
      var inum := Lookup(path);
      if inum >= 0 {
        if inum >= INODE_TABLE_SIZE {
          return -1;
        }
        h := OpenExisting(inum, flags);
      } else if Creates(flags) {
        inum := InodeCreate(File);
        if inum == -1 {
          return -1;
        }
        var code := AddDirEntry(inum, path[1..]);
        if code == -1 {
          var _ := InodeDelete(inum);
          return -1;
        }
        h := AddToOpenFileTable(inum, 0);
      } else {
        return -1;
      }
    }

    method TfsOpen(path: CString, flags: int) returns (h: int)
      requires Valid() && OpenDefined(path, flags)
      modifies this, inodes, inodeTaken, blockTaken, slots, entries, entryTaken
      ensures (All(), Returned(h, [])) == Serial.Apply(old(All()), OpOpen(path, flags))
    {
      if calledDestroy {
        return -1;
      }
      h := OpenUnsynchronized(path, flags);
      if h == -1 {
        return -1;
      }
      openFiles := openFiles + 1;
    }

    method TfsClose(h: int) returns (code: int)
      requires Valid()
      modifies this, entryTaken
      ensures (All(), Returned(code, [])) == Serial.Apply(old(All()), OpClose(h))
    {
      code := RemoveFromOpenFileTable(h);
      openFiles := openFiles - 1;
    }

    /** `memcpy` into the block array. */
    method CopyIn(at: nat, bytes: seq<byte>)
      requires at + |bytes| <= data.Length
      modifies data
      ensures data[..] == Splice(old(data[..]), at, bytes)
    {
      forall k | 0 <= k < |bytes| {
        data[at + k] := bytes[k];
      }
    }

    /** The copy into the block and the updates after it, for a write that has its block. */
    method StoreBytes(h: nat, inum: nat, bytes: seq<byte>)
      requires Valid() && h < MAX_OPEN_FILES && inum < INODE_TABLE_SIZE
      requires InRange(inodes[inum].block, DATA_BLOCKS) && entries[h].offset + |bytes| <= BLOCK_SIZE
      modifies inodes, data, entries
      ensures View() == TableModel.Store(old(View()), h, inum, bytes)
    {
      var at := inodes[inum].block * BLOCK_SIZE + entries[h].offset;
      CopyIn(at, bytes);
      entries[h] := entries[h].(offset := entries[h].offset + |bytes|);
      if entries[h].offset > inodes[inum].size {
        inodes[inum] := inodes[inum].(size := entries[h].offset);
      }
      assert entries[..] == old(entries[..])[h := entries[h]];
      assert inodes[..] == old(inodes[..])[inum := inodes[inum]];
    }

    /** `_tfs_write_unsynchronized`, which tfs_write runs under the global lock. */
    method TfsWrite(h: int, buffer: seq<byte>) returns (code: int)
      requires Valid() && WriteDefined(View(), h, buffer)
      modifies inodes, data, blockTaken, entries
      ensures (View(), code) == TableModel.Write(old(View()), h, buffer)
    {
      if !InRange(h, MAX_OPEN_FILES) {
        return -1;
      }
      var inum := entries[h].inum;
      if !InRange(inum, INODE_TABLE_SIZE) {
        return -1;
      }
      var toWrite := |buffer|;
      if toWrite + entries[h].offset > BLOCK_SIZE {
        toWrite := BLOCK_SIZE - entries[h].offset;
      }
      if toWrite > 0 {
        if inodes[inum].size == 0 {
          var b := DataBlockAlloc();
          inodes[inum] := inodes[inum].(block := b);
          assert inodes[..] == old(inodes[..])[inum := old(inodes[inum]).(block := b)];
        }
        assert View() == TableModel.EnsureBlock(old(View()), inum);
        if !InRange(inodes[inum].block, DATA_BLOCKS) {
          return -1;
        }
        StoreBytes(h, inum, buffer[..toWrite]);
      }
      return toWrite;
    }

    /** `_tfs_read_unsynchronized`, which tfs_read runs under the global lock. */
    method TfsRead(h: int, len: nat) returns (code: int, bytes: seq<byte>)
      requires Valid() && ReadDefined(View(), h, len)
      modifies entries
      ensures (View(), code, bytes) == TableModel.Read(old(View()), h, len)
    {
      bytes := [];
      if !InRange(h, MAX_OPEN_FILES) {
        return -1, [];
      }
      var inum := entries[h].inum;
      if !InRange(inum, INODE_TABLE_SIZE) {
        return -1, [];
      }
      var toRead := (inodes[inum].size - entries[h].offset) % SIZE_T_RANGE;
      if toRead > len {
        toRead := len;
      }
      if toRead > 0 {
        if !InRange(inodes[inum].block, DATA_BLOCKS) {
          return -1, [];
        }
        var at := inodes[inum].block * BLOCK_SIZE + entries[h].offset;
        bytes := data[at..at + toRead];
        entries[h] := entries[h].(offset := entries[h].offset + toRead);
        assert entries[..] == old(entries[..])[h := entries[h]];
        assert data[..][at..at + toRead] == bytes;
      }
      return toRead, bytes;
    }
  }
}
