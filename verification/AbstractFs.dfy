/**
 The file system its users see: an ordered directory of named files holding bytes, and open handles with
 offsets. No inodes, no blocks, no allocation.
 */
module AbstractFs {
  import opened Config
  import opened Serial

  datatype File = File(name: CString, bytes: seq<byte>)

  datatype Handle = Handle(file: nat, offset: nat)

  datatype Fs = Fs(files: seq<File>, handles: map<int, Handle>)

  const EMPTY := Fs([], map[])

  /** Sizes are bounded and handles lead to files. */
  ghost predicate WellFormed(fs: Fs) {
    && |fs.files| <= MAX_DIR_ENTRIES
    && (forall i :: 0 <= i < |fs.files| ==>
          |fs.files[i].bytes| <= BLOCK_SIZE && 1 <= |fs.files[i].name| < MAX_FILE_NAME)
    && (forall h :: h in fs.handles ==> 0 <= h < MAX_OPEN_FILES && fs.handles[h].file < |fs.files|)
  }

  /** No handle stands past the end of its file. */
  ghost predicate OffsetsInside(fs: Fs)
    requires WellFormed(fs)
  {
    forall h :: h in fs.handles ==> fs.handles[h].offset <= |fs.files[fs.handles[h].file].bytes|
  }

  /** The first file called `name`, or |files|. */
  function IndexOf(files: seq<File>, name: CString, from: nat := 0): (i: nat)
    requires from <= |files|
    ensures from <= i <= |files|
    ensures i < |files| ==> files[i].name == name
    ensures forall k :: from <= k < i ==> files[k].name != name
    decreases |files| - from
  {
    if from == |files| || files[from].name == name then from else IndexOf(files, name, from + 1)
  }

  /** The file a path leads to: a path is '/' and at least one more character. */
  function Find(fs: Fs, path: CString): (i: nat)
    ensures i <= |fs.files|
  {
    if |path| > 1 && path[0] == SLASH then IndexOf(fs.files, path[1..]) else |fs.files|
  }

  /** The lowest handle not in use, or MAX_OPEN_FILES. */
  function LowestFree(handles: map<int, Handle>, from: nat := 0): (h: nat)
    requires from <= MAX_OPEN_FILES
    ensures from <= h <= MAX_OPEN_FILES
    ensures h < MAX_OPEN_FILES ==> h !in handles
    ensures forall k: int :: from <= k < h ==> k in handles
    decreases MAX_OPEN_FILES - from
  {
    if from == MAX_OPEN_FILES || from !in handles then from else LowestFree(handles, from + 1)
  }

  function Grant(fs: Fs, file: nat, offset: nat): (Fs, Outcome) {
    var h := LowestFree(fs.handles);
    if h == MAX_OPEN_FILES then (fs, FAILED)
    else (fs.(handles := fs.handles[h as int := Handle(file, offset)]), Returned(h, []))
  }

  function SetBytes(fs: Fs, i: nat, bytes: seq<byte>): Fs
    requires i < |fs.files|
  {
    fs.(files := fs.files[i := fs.files[i].(bytes := bytes)])
  }

  function Open(fs: Fs, path: CString, flags: int): (Fs, Outcome) {
    var i := Find(fs, path);
    if i < |fs.files| then
      var cut := if Truncates(flags) then SetBytes(fs, i, []) else fs;
      Grant(cut, i, if Appends(flags) then |cut.files[i].bytes| else 0)
    else if !Creates(flags) || |path| <= 1 || |fs.files| == MAX_DIR_ENTRIES then (fs, FAILED)
    else Grant(fs.(files := fs.files + [File(Cut(path[1..], MAX_FILE_NAME - 1), [])]), i, 0)
  }

  function Close(fs: Fs, h: int): (Fs, Outcome) {
    if h in fs.handles then (fs.(handles := fs.handles - {h}), Returned(0, [])) else (fs, FAILED)
  }

  /** Bytes replaced or added at an offset inside the old bytes. */
  function Overwrite(old_: seq<byte>, at: nat, bytes: seq<byte>): (r: seq<byte>)
    requires at <= |old_|
    ensures |r| == Max(|old_|, at + |bytes|)
    ensures forall k :: 0 <= k < |r| ==> r[k] == if at <= k < at + |bytes| then bytes[k - at] else old_[k]
  {
    old_[..at] + bytes + if at + |bytes| <= |old_| then old_[at + |bytes|..] else []
  }

  function Write(fs: Fs, h: int, buffer: seq<byte>): (Fs, Outcome)
    requires WellFormed(fs) && OffsetsInside(fs)
  {
    if h !in fs.handles then (fs, FAILED)
    else
      var Handle(i, at) := fs.handles[h];
      var stored := buffer[..Min(|buffer|, BLOCK_SIZE - at)];
      (SetBytes(fs, i, Overwrite(fs.files[i].bytes, at, stored))
         .(handles := fs.handles[h := Handle(i, at + |stored|)]),
       Returned(|stored|, []))
  }

  function Read(fs: Fs, h: int, len: nat): (Fs, Outcome)
    requires WellFormed(fs) && OffsetsInside(fs)
  {
    if h !in fs.handles then (fs, FAILED)
    else
      var Handle(i, at) := fs.handles[h];
      var got := fs.files[i].bytes[at..Min(at + len, |fs.files[i].bytes|)];
      (fs.(handles := fs.handles[h := Handle(i, at + |got|)]), Returned(|got|, got))
  }

  function Apply(fs: Fs, op: Op): (Fs, Outcome)
    requires WellFormed(fs) && OffsetsInside(fs)
  {
    match op
    case OpOpen(path, flags) => Open(fs, path, flags)
    case OpClose(h) => Close(fs, h)
    case OpWrite(h, buffer) => Write(fs, h, buffer)
    case OpRead(h, len) => Read(fs, h, len)
  }

  /** Opening `path` would truncate a file through which some handle has already moved. */
  ghost predicate CutsUnderHandle(fs: Fs, path: CString, flags: int) {
    && Find(fs, path) < |fs.files| && Truncates(flags)
    && exists h :: h in fs.handles && fs.handles[h].file == Find(fs, path) && fs.handles[h].offset > 0
  }

  /** What a caller must respect: real strings and buffers, open handles, no truncation under a moved handle. */
  ghost predicate Legal(fs: Fs, op: Op) {
    match op
    case OpOpen(path, flags) => (path != [] || !Creates(flags)) && !CutsUnderHandle(fs, path, flags)
    case OpClose(h) => h in fs.handles
    case OpWrite(h, buffer) => (InRange(h, MAX_OPEN_FILES) ==> h in fs.handles) && |buffer| + BLOCK_SIZE < SIZE_T_RANGE
    case OpRead(h, len) => (InRange(h, MAX_OPEN_FILES) ==> h in fs.handles) && len < SIZE_T_RANGE
  }

  lemma GrantKeeps(fs: Fs, file: nat, offset: nat)
    requires WellFormed(fs) && OffsetsInside(fs) && file < |fs.files| && offset <= |fs.files[file].bytes|
    ensures WellFormed(Grant(fs, file, offset).0) && OffsetsInside(Grant(fs, file, offset).0)
  {
  }

  lemma OpenKeeps(fs: Fs, path: CString, flags: int)
    requires WellFormed(fs) && OffsetsInside(fs) && Legal(fs, OpOpen(path, flags))
    ensures WellFormed(Open(fs, path, flags).0) && OffsetsInside(Open(fs, path, flags).0)
  {
    var i := Find(fs, path);
    if i < |fs.files| {
      var cut := if Truncates(flags) then SetBytes(fs, i, []) else fs;
      GrantKeeps(cut, i, if Appends(flags) then |cut.files[i].bytes| else 0);
    } else if !(!Creates(flags) || |path| <= 1 || |fs.files| == MAX_DIR_ENTRIES) {
      GrantKeeps(fs.(files := fs.files + [File(Cut(path[1..], MAX_FILE_NAME - 1), [])]), i, 0);
    }
  }

  lemma WriteAt(fs: Fs, h: int, i: nat, at: nat, buffer: seq<byte>)
    requires WellFormed(fs) && OffsetsInside(fs) && h in fs.handles && fs.handles[h] == Handle(i, at)
    ensures var stored := buffer[..Min(|buffer|, BLOCK_SIZE - at)];
            Write(fs, h, buffer) ==
            (Fs(fs.files[i := File(fs.files[i].name, Overwrite(fs.files[i].bytes, at, stored))],
                fs.handles[h := Handle(i, at + |stored|)]),
             Returned(|stored|, []))
  {
  }

  lemma ReadAt(fs: Fs, h: int, i: nat, at: nat, len: nat)
    requires WellFormed(fs) && OffsetsInside(fs) && h in fs.handles && fs.handles[h] == Handle(i, at)
    ensures var got := fs.files[i].bytes[at..Min(at + len, |fs.files[i].bytes|)];
            Read(fs, h, len) == (Fs(fs.files, fs.handles[h := Handle(i, at + |got|)]), Returned(|got|, got))
  {
  }

  lemma WriteKeeps(fs: Fs, h: int, buffer: seq<byte>)
    requires WellFormed(fs) && OffsetsInside(fs)
    ensures WellFormed(Write(fs, h, buffer).0) && OffsetsInside(Write(fs, h, buffer).0)
  {
  }

  lemma ReadKeeps(fs: Fs, h: int, len: nat)
    requires WellFormed(fs) && OffsetsInside(fs)
    ensures WellFormed(Read(fs, h, len).0) && OffsetsInside(Read(fs, h, len).0)
  {
  }

  lemma ApplyKeeps(fs: Fs, op: Op)
    requires WellFormed(fs) && OffsetsInside(fs) && Legal(fs, op)
    ensures WellFormed(Apply(fs, op).0) && OffsetsInside(Apply(fs, op).0)
  {
    match op
    case OpOpen(path, flags) => OpenKeeps(fs, path, flags);
    case OpClose(h) =>
    case OpWrite(h, buffer) => WriteKeeps(fs, h, buffer);
    case OpRead(h, len) => ReadKeeps(fs, h, len);
  }
}
