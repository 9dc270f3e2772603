/**
 The state of the file system as a value, and what each function of state.c and each unsynchronized
 operation of operations.c does to it, branch by branch. The class in Storage.dfy works on arrays in place
 and is proved against these functions; the invariants and the refinement are proved about them.
 */
module TableModel {
  import opened Config

  datatype Kind = File | Directory

  datatype Inode = Inode(kind: Kind, size: nat, block: int)

  datatype Slot = Slot(name: CString, inum: int)

  datatype Entry = Entry(inum: int, offset: nat)

  datatype Tables = Tables(
    inodes: seq<Inode>,
    inodeTaken: seq<bool>,
    data: seq<byte>,
    blockTaken: seq<bool>,
    slots: seq<Slot>,
    entries: seq<Entry>,
    entryTaken: seq<bool>)
  {
    /** The arrays have the sizes they are declared with. */
    predicate Shaped() {
      && |inodes| == |inodeTaken| == INODE_TABLE_SIZE
      && |data| == BLOCK_SIZE * DATA_BLOCKS
      && |blockTaken| == DATA_BLOCKS
      && |slots| == MAX_DIR_ENTRIES
      && |entries| == |entryTaken| == MAX_OPEN_FILES
    }
  }

  // ----- First-fit searches -----

  /** The first free position at or after `from`, or |taken|. */
  function FirstFree(taken: seq<bool>, from: nat := 0): (i: nat)
    requires from <= |taken|
    ensures from <= i <= |taken|
    ensures i < |taken| ==> !taken[i]
    ensures forall k :: from <= k < i ==> taken[k]
    decreases |taken| - from
  {
    if from == |taken| || !taken[from] then from else FirstFree(taken, from + 1)
  }

  /** The first directory slot at or after `from` labelled -1, or |slots|. */
  function FirstEmptySlot(slots: seq<Slot>, from: nat := 0): (i: nat)
    requires from <= |slots|
    ensures from <= i <= |slots|
    ensures i < |slots| ==> slots[i].inum == -1
    ensures forall k :: from <= k < i ==> slots[k].inum != -1
    decreases |slots| - from
  {
    if from == |slots| || slots[from].inum == -1 then from else FirstEmptySlot(slots, from + 1)
  }

  /** `strncmp(stored, name, MAX_FILE_NAME) == 0` on C strings. */
  predicate SameName(stored: CString, name: CString) {
    Take(stored, MAX_FILE_NAME) == Take(name, MAX_FILE_NAME)
  }

  /** What `strncpy` of MAX_FILE_NAME - 1 characters and the NUL after them leave in `d_name`. */
  function StoredName(name: CString): CString { Cut(name, MAX_FILE_NAME - 1) }

  predicate Names(slot: Slot, name: CString) { slot.inum != -1 && SameName(slot.name, name) }

  /** The first occupied slot at or after `from` holding `name`, or |slots|. */
  function FirstNamed(slots: seq<Slot>, name: CString, from: nat := 0): (i: nat)
    requires from <= |slots|
    ensures from <= i <= |slots|
    ensures i < |slots| ==> Names(slots[i], name)
    ensures forall k :: from <= k < i ==> !Names(slots[k], name)
    decreases |slots| - from
  {
    if from == |slots| || Names(slots[from], name) then from else FirstNamed(slots, name, from + 1)
  }

  // ----- state.c -----

  function DataBlockAlloc(t: Tables): (Tables, int)
    requires t.Shaped()
  {
    var b: int := FirstFree(t.blockTaken);
    if b == DATA_BLOCKS then (t, -1) else (t.(blockTaken := t.blockTaken[b := true]), b)
  }

  function DataBlockFree(t: Tables, b: int): (Tables, int)
    requires t.Shaped()
  {
    if !InRange(b, DATA_BLOCKS) then (t, -1) else (t.(blockTaken := t.blockTaken[b := false]), 0)
  }

  function SetInode(t: Tables, i: nat, inode: Inode): Tables
    requires t.Shaped() && i < INODE_TABLE_SIZE
  {
    t.(inodes := t.inodes[i := inode])
  }

  function EmptySlots(slots: seq<Slot>): (r: seq<Slot>)
    ensures |r| == |slots|
    ensures forall k :: 0 <= k < |r| ==> r[k].inum == -1 && r[k].name == slots[k].name
  {
    seq(|slots|, k requires 0 <= k < |slots| => slots[k].(inum := -1))
  }

  function InodeCreate(t: Tables, kind: Kind): (Tables, int)
    requires t.Shaped()
  {
    var i: int := FirstFree(t.inodeTaken);
    if i == INODE_TABLE_SIZE then (t, -1)
    else
      var t1 := SetInode(t.(inodeTaken := t.inodeTaken[i := true]), i, t.inodes[i].(kind := kind));
      if kind.File? then (SetInode(t1, i, Inode(File, 0, -1)), i)
      else
        var (t2, b) := DataBlockAlloc(t1);
        if b == -1 then (t2.(inodeTaken := t2.inodeTaken[i := false]), -1)
        else (SetInode(t2, i, Inode(Directory, BLOCK_SIZE, b)).(slots := EmptySlots(t2.slots)), i)
  }

  function InodeDelete(t: Tables, i: int): (Tables, int)
    requires t.Shaped()
  {
    if !InRange(i, INODE_TABLE_SIZE) || !t.inodeTaken[i] then (t, -1)
    else
      var t1 := t.(inodeTaken := t.inodeTaken[i := false]);
      if t.inodes[i].size > 0 then DataBlockFree(t1, t.inodes[i].block) else (t1, 0)
  }

  /** The root inode is a directory whose block exists. */
  predicate RootReadable(t: Tables)
    requires t.Shaped()
  {
    t.inodes[ROOT_DIR_INUM].kind.Directory? && InRange(t.inodes[ROOT_DIR_INUM].block, DATA_BLOCKS)
  }

  function AddDirEntry(t: Tables, inum: int, name: CString): (Tables, int)
    requires t.Shaped()
  {
    if !InRange(inum, INODE_TABLE_SIZE) || name == [] || !RootReadable(t) then (t, -1)
    else
      var k: int := FirstEmptySlot(t.slots);
      if k == MAX_DIR_ENTRIES then (t, -1)
      else (t.(slots := t.slots[k := Slot(StoredName(name), inum)]), 0)
  }

  function FindInDir(t: Tables, name: CString): int
    requires t.Shaped()
  {
    if !RootReadable(t) then -1
    else
      var k: int := FirstNamed(t.slots, name);
      if k == MAX_DIR_ENTRIES then -1 else t.slots[k].inum
  }

  function AddToOpenFileTable(t: Tables, inum: int, offset: nat): (Tables, int)
    requires t.Shaped()
  {
    var h: int := FirstFree(t.entryTaken);
    if h == MAX_OPEN_FILES then (t, -1)
    else (t.(entryTaken := t.entryTaken[h := true], entries := t.entries[h := Entry(inum, offset)]), h)
  }

  function RemoveFromOpenFileTable(t: Tables, h: int): (Tables, int)
    requires t.Shaped()
  {
    if !InRange(h, MAX_OPEN_FILES) || !t.entryTaken[h] then (t, -1)
    else (t.(entryTaken := t.entryTaken[h := false]), 0)
  }

  // ----- operations.c -----

  function StateInit(t: Tables): Tables
    requires t.Shaped()
  {
    t.(inodeTaken := seq(INODE_TABLE_SIZE, _ => false),
       blockTaken := seq(DATA_BLOCKS, _ => false),
       entryTaken := seq(MAX_OPEN_FILES, _ => false))
  }

  function Init(t: Tables): (Tables, int)
    requires t.Shaped()
  {
    var (t1, root) := InodeCreate(StateInit(t), Directory);
    (t1, if root == ROOT_DIR_INUM then 0 else -1)
  }

  predicate ValidPathname(path: CString) { |path| > 1 && path[0] == SLASH }

  function Lookup(t: Tables, path: CString): int
    requires t.Shaped()
  {
    if ValidPathname(path) then FindInDir(t, path[1..]) else -1
  }

  /** Open's truncation step on an existing inode; None when freeing the block fails. */
  function Truncate(t: Tables, inum: nat, flags: int): (r: Option<Tables>)
    requires t.Shaped() && inum < INODE_TABLE_SIZE
    ensures r.Some? ==> r.value.Shaped()
  {
    var inode := t.inodes[inum];
    if Truncates(flags) && inode.size > 0 then
      var (t1, code) := DataBlockFree(t, inode.block);
      if code == -1 then None else Some(SetInode(t1, inum, inode.(size := 0)))
    else Some(t)
  }

  /** The caller passes a readable C string: creation evaluates `name + 1`. */
  predicate OpenDefined(path: CString, flags: int) { path != [] || !Creates(flags) }

  function Open(t: Tables, path: CString, flags: int): (r: (Tables, int))
    requires t.Shaped() && OpenDefined(path, flags)
    ensures r.0.Shaped()
  {
    var inum := Lookup(t, path);
    if inum >= 0 then
      if inum >= INODE_TABLE_SIZE then (t, -1)
      else
        match Truncate(t, inum, flags)
        case None => (t, -1)
        case Some(t1) => AddToOpenFileTable(t1, inum, if Appends(flags) then t1.inodes[inum].size else 0)
    else if Creates(flags) then
      var (t1, created) := InodeCreate(t, File);
      if created == -1 then (t1, -1)
      else
        var (t2, code) := AddDirEntry(t1, created, path[1..]);
        if code == -1 then (InodeDelete(t2, created).0, -1)
        else AddToOpenFileTable(t2, created, 0)
    else (t, -1)
  }

  function Close(t: Tables, h: int): (r: (Tables, int))
    requires t.Shaped()
    ensures r.0.Shaped()
  {
    RemoveFromOpenFileTable(t, h)
  }

  /** The inode that a read or write through `h` reaches; None on the paths that return -1. */
  function Target(t: Tables, h: int): (r: Option<nat>)
    requires t.Shaped()
    ensures r.Some? ==> InRange(h, MAX_OPEN_FILES) && r.value == t.entries[h].inum < INODE_TABLE_SIZE
  {
    if InRange(h, MAX_OPEN_FILES) && InRange(t.entries[h].inum, INODE_TABLE_SIZE) then Some(t.entries[h].inum)
    else None
  }

  /** Neither `to_write + of_offset` nor `BLOCK_SIZE - of_offset` wraps around. */
  predicate WriteDefined(t: Tables, h: int, buffer: seq<byte>)
    requires t.Shaped()
  {
    Target(t, h).Some? ==> t.entries[h].offset <= BLOCK_SIZE && |buffer| + t.entries[h].offset < SIZE_T_RANGE
  }

  function Splice(data: seq<byte>, at: nat, bytes: seq<byte>): (r: seq<byte>)
    requires at + |bytes| <= |data|
    ensures |r| == |data|
    ensures forall k :: 0 <= k < |data| ==> r[k] == if at <= k < at + |bytes| then bytes[k - at] else data[k]
  {
    data[..at] + bytes + data[at + |bytes|..]
  }

  /** The allocation step of a write: an empty file gets a new block. */
  function EnsureBlock(t: Tables, inum: nat): (r: Tables)
    requires t.Shaped() && inum < INODE_TABLE_SIZE
    ensures r.Shaped()
  {
    if t.inodes[inum].size == 0 then
      var (t1, b) := DataBlockAlloc(t);
      SetInode(t1, inum, t.inodes[inum].(block := b))
    else t
  }

  /** The copy into an existing block and the two updates after it. */
  function Store(t: Tables, h: nat, inum: nat, bytes: seq<byte>): (r: Tables)
    requires t.Shaped() && h < MAX_OPEN_FILES && inum < INODE_TABLE_SIZE
    requires InRange(t.inodes[inum].block, DATA_BLOCKS) && t.entries[h].offset + |bytes| <= BLOCK_SIZE
    ensures r.Shaped()
  {
    var inode, entry := t.inodes[inum], t.entries[h];
    var end := entry.offset + |bytes|;
    SetInode(t, inum, inode.(size := Max(end, inode.size)))
      .(data := Splice(t.data, inode.block * BLOCK_SIZE + entry.offset, bytes),
        entries := t.entries[h := entry.(offset := end)])
  }

  function Write(t: Tables, h: int, buffer: seq<byte>): (r: (Tables, int))
    requires t.Shaped() && WriteDefined(t, h, buffer)
    ensures r.0.Shaped()
  {
    match Target(t, h)
    case None => (t, -1)
    case Some(inum) =>
      var n := Min(|buffer|, BLOCK_SIZE - t.entries[h].offset);
      if n == 0 then (t, 0)
      else
        var t1 := EnsureBlock(t, inum);
        if !InRange(t1.inodes[inum].block, DATA_BLOCKS) then (t1, -1)
        else (Store(t1, h, inum, buffer[..n]), n)
  }

  /** `i_size - of_offset` as a size_t, cut to the length asked for. */
  function ToRead(size: nat, offset: nat, len: nat): (n: nat)
    ensures offset <= size ==> n == Min(size - offset, len) || size - offset >= SIZE_T_RANGE
    ensures n <= len
  {
    Min((size - offset) % SIZE_T_RANGE, len)
  }

  /** The copy out of the block array stays inside the array. */
  predicate ReadDefined(t: Tables, h: int, len: nat)
    requires t.Shaped()
  {
    match Target(t, h)
    case None => true
    case Some(inum) =>
      var n := ToRead(t.inodes[inum].size, t.entries[h].offset, len);
      n > 0 && InRange(t.inodes[inum].block, DATA_BLOCKS) ==>
        t.inodes[inum].block * BLOCK_SIZE + t.entries[h].offset + n <= BLOCK_SIZE * DATA_BLOCKS
  }

  /** The new state, the code and the bytes copied to the caller's buffer. */
  function Read(t: Tables, h: int, len: nat): (r: (Tables, int, seq<byte>))
    requires t.Shaped() && ReadDefined(t, h, len)
    ensures r.0.Shaped()
    ensures r.1 >= 0 ==> r.1 == |r.2|
  {
    match Target(t, h)
    case None => (t, -1, [])
    case Some(inum) =>
      var inode, entry := t.inodes[inum], t.entries[h];
      var n := ToRead(inode.size, entry.offset, len);
      if n == 0 then (t, 0, [])
      else if !InRange(inode.block, DATA_BLOCKS) then (t, -1, [])
      else
        var at := inode.block * BLOCK_SIZE + entry.offset;
        (t.(entries := t.entries[h := entry.(offset := entry.offset + n)]), n, t.data[at..at + n])
  }
}
