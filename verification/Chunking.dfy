/** How writes and reads are cut into calls does not matter. */
module Chunking {
  import opened Config
  import opened TableModel
  import opened Serial
  import opened Refinement
  import A = AbstractFs

  function Writes(h: int, chunks: seq<seq<byte>>): (ops: seq<Op>)
    ensures |ops| == |chunks|
  {
    if chunks == [] then [] else [OpWrite(h, chunks[0])] + Writes(h, chunks[1..])
  }

  function Reads(h: int, lens: seq<nat>): (ops: seq<Op>)
    ensures |ops| == |lens|
  {
    if lens == [] then [] else [OpRead(h, lens[0])] + Reads(h, lens[1..])
  }

  function Flatten(chunks: seq<seq<byte>>): seq<byte> {
    if chunks == [] then [] else chunks[0] + Flatten(chunks[1..])
  }

  function Sum(lens: seq<nat>): nat {
    if lens == [] then 0 else lens[0] + Sum(lens[1..])
  }

  function Codes(outcomes: seq<Outcome>): int {
    if outcomes == [] then 0
    else (if outcomes[0].Returned? then outcomes[0].code else 0) + Codes(outcomes[1..])
  }

  function Bytes(outcomes: seq<Outcome>): seq<byte> {
    if outcomes == [] then []
    else (if outcomes[0].Returned? then outcomes[0].bytes else []) + Bytes(outcomes[1..])
  }

  /** `h` is open on file `i` at offset `at`. */
  ghost predicate At(fs: A.Fs, h: int, i: nat, at: nat) {
    h in fs.handles && fs.handles[h] == A.Handle(i, at)
  }

  ghost predicate Good(fs: A.Fs) { A.WellFormed(fs) && A.OffsetsInside(fs) }

  ghost predicate RealBuffers(chunks: seq<seq<byte>>) {
    forall k :: 0 <= k < |chunks| ==> |chunks[k]| + BLOCK_SIZE < SIZE_T_RANGE
  }

  ghost predicate RealLengths(lens: seq<nat>) {
    forall k :: 0 <= k < |lens| ==> lens[k] < SIZE_T_RANGE
  }

  /** The file after appending `more`, up to the one block it may have. */
  function Appended(bytes: seq<byte>, more: seq<byte>): seq<byte> { Take(bytes + more, BLOCK_SIZE) }

  /** The state with file `i` holding `bytes` and `h` standing at its end. */
  function AtEnd(fs: A.Fs, h: int, i: nat, bytes: seq<byte>): A.Fs
    requires i < |fs.files|
  {
    A.SetBytes(fs, i, bytes).(handles := fs.handles[h := A.Handle(i, |bytes|)])
  }

  lemma AppendOnce(fs: A.Fs, h: int, i: nat, chunk: seq<byte>)
    requires Good(fs) && i < |fs.files| && At(fs, h, i, |fs.files[i].bytes|)
    ensures A.Write(fs, h, chunk).0 == AtEnd(fs, h, i, Appended(fs.files[i].bytes, chunk))
    ensures A.Write(fs, h, chunk).1 == Returned(|Appended(fs.files[i].bytes, chunk)| - |fs.files[i].bytes|, [])
  {
    var bytes := fs.files[i].bytes;
    A.WriteAt(fs, h, i, |bytes|, chunk);
    assert A.Overwrite(bytes, |bytes|, chunk[..Min(|chunk|, BLOCK_SIZE - |bytes|)]) == Appended(bytes, chunk);
  }

  lemma AppendedTwice(bytes: seq<byte>, one: seq<byte>, two: seq<byte>)
    requires |bytes| <= BLOCK_SIZE
    ensures Appended(Appended(bytes, one), two) == Appended(bytes, one + two)
  {
    assert bytes + one + two == bytes + (one + two);
  }

  /** What a legal run of writes leaves and how much it stored. */
  ghost function WriteBack(fs: A.Fs, h: int, chunks: seq<seq<byte>>): Option<(A.Fs, int)>
    requires Good(fs)
  {
    if LegalRun(fs, Writes(h, chunks))
    then Some((RunFs(fs, Writes(h, chunks)).0, Codes(RunFs(fs, Writes(h, chunks)).1))) else None
  }

  lemma NothingWritten(fs: A.Fs, h: int)
    requires Good(fs)
    ensures WriteBack(fs, h, []) == Some((fs, 0))
  {
  }

  /** One write, and what the others leave. */
  lemma WritesUnfold(fs: A.Fs, h: int, chunks: seq<seq<byte>>, end: A.Fs, stored: int)
    requires Good(fs) && chunks != [] && A.Legal(fs, OpWrite(h, chunks[0]))
    requires var (fs1, o) := A.Apply(fs, OpWrite(h, chunks[0]));
             Good(fs1) && o.Returned? && WriteBack(fs1, h, chunks[1..]) == Some((end, stored))
    ensures WriteBack(fs, h, chunks) == Some((end, A.Apply(fs, OpWrite(h, chunks[0])).1.code + stored))
  {
    assert Writes(h, chunks)[1..] == Writes(h, chunks[1..]);
  }

  lemma AtEndTwice(fs: A.Fs, h: int, i: nat, one: seq<byte>, two: seq<byte>)
    requires i < |fs.files|
    ensures |AtEnd(fs, h, i, one).files| == |fs.files| && AtEnd(AtEnd(fs, h, i, one), h, i, two) == AtEnd(fs, h, i, two)
  {
  }

  lemma AlreadyAtEnd(fs: A.Fs, h: int, i: nat)
    requires i < |fs.files| && At(fs, h, i, |fs.files[i].bytes|)
    ensures AtEnd(fs, h, i, fs.files[i].bytes) == fs
  {
    assert fs.files[i := fs.files[i].(bytes := fs.files[i].bytes)] == fs.files;
    assert fs.handles[h := fs.handles[h]] == fs.handles;
  }

  /** One write at the end: legal, and the handle is at the new end. */
  lemma WriteOnce(fs: A.Fs, h: int, i: nat, chunk: seq<byte>)
    requires Good(fs) && i < |fs.files| && At(fs, h, i, |fs.files[i].bytes|) && |chunk| + BLOCK_SIZE < SIZE_T_RANGE
    ensures A.Legal(fs, OpWrite(h, chunk))
    ensures var bytes := fs.files[i].bytes;
            var fs1 := AtEnd(fs, h, i, Appended(bytes, chunk));
            && A.Apply(fs, OpWrite(h, chunk)) == (fs1, Returned(|Appended(bytes, chunk)| - |bytes|, []))
            && Good(fs1) && At(fs1, h, i, |fs1.files[i].bytes|) && fs1.files[i].bytes == Appended(bytes, chunk)
  {
    A.ApplyKeeps(fs, OpWrite(h, chunk));
    AppendOnce(fs, h, i, chunk);
  }

  lemma {:induction false} WritesGiveEnd(fs: A.Fs, h: int, i: nat, chunks: seq<seq<byte>>)
    requires Good(fs) && i < |fs.files| && At(fs, h, i, |fs.files[i].bytes|) && RealBuffers(chunks)
    ensures var bytes, all := fs.files[i].bytes, Appended(fs.files[i].bytes, Flatten(chunks));
            WriteBack(fs, h, chunks) == Some((AtEnd(fs, h, i, all), |all| - |bytes|))
    decreases |chunks|
  {
    var bytes := fs.files[i].bytes;
    if chunks == [] {
      assert Appended(bytes, []) == bytes;
      NothingWritten(fs, h);
      AlreadyAtEnd(fs, h, i);
    } else {
      WriteOnce(fs, h, i, chunks[0]);
      var one := Appended(bytes, chunks[0]);
      var fs1 := AtEnd(fs, h, i, one);
      WritesGiveEnd(fs1, h, i, chunks[1..]);
      AppendedTwice(bytes, chunks[0], Flatten(chunks[1..]));
      var all := Appended(bytes, Flatten(chunks));
      AtEndTwice(fs, h, i, one, all);
      WritesUnfold(fs, h, chunks, AtEnd(fs, h, i, all), |all| - |one|);
    }
  }

  /** Any sequence of writes at the end of a file appends their concatenation, cut at one block. */
  lemma WritesAppend(fs: A.Fs, h: int, i: nat, chunks: seq<seq<byte>>)
    requires Good(fs) && i < |fs.files| && At(fs, h, i, |fs.files[i].bytes|) && RealBuffers(chunks)
    ensures LegalRun(fs, Writes(h, chunks))
    ensures var all := Appended(fs.files[i].bytes, Flatten(chunks));
            RunFs(fs, Writes(h, chunks)).0 == AtEnd(fs, h, i, all)
            && Codes(RunFs(fs, Writes(h, chunks)).1) == |all| - |fs.files[i].bytes|
  {
    WritesGiveEnd(fs, h, i, chunks);
  }

  /** The state with only `h` moved. */
  function Moved(fs: A.Fs, h: int, i: nat, at: nat): A.Fs {
    fs.(handles := fs.handles[h := A.Handle(i, at)])
  }

  function Piece(bytes: seq<byte>, at: nat, n: nat): seq<byte>
    requires at <= |bytes|
  {
    bytes[at..Min(at + n, |bytes|)]
  }

  lemma PiecesJoin(bytes: seq<byte>, at: nat, m: nat, n: nat)
    requires at <= |bytes|
    ensures var one := Piece(bytes, at, m);
            at + |one| <= |bytes| && one + Piece(bytes, at + |one|, n) == Piece(bytes, at, m + n)
  {
  }

  /** One read: legal, and only the handle moves, past what it gave. */
  lemma ReadOnce(fs: A.Fs, h: int, i: nat, at: nat, len: nat)
    requires Good(fs) && i < |fs.files| && At(fs, h, i, at) && len < SIZE_T_RANGE
    ensures at <= |fs.files[i].bytes| && A.Legal(fs, OpRead(h, len))
    ensures var got := Piece(fs.files[i].bytes, at, len);
            var fs1 := Moved(fs, h, i, at + |got|);
            && A.Apply(fs, OpRead(h, len)) == (fs1, Returned(|got|, got))
            && Good(fs1) && At(fs1, h, i, at + |got|) && fs1.files == fs.files && at + |got| <= |fs.files[i].bytes|
  {
    A.ReadAt(fs, h, i, at, len);
    A.ApplyKeeps(fs, OpRead(h, len));
  }

  /** What a legal run of reads gives, if its results are the lengths of what it gives. */
  ghost function ReadBack(fs: A.Fs, h: int, lens: seq<nat>): Option<seq<byte>>
    requires Good(fs)
  {
    if LegalRun(fs, Reads(h, lens))
       && Codes(RunFs(fs, Reads(h, lens)).1) == |Bytes(RunFs(fs, Reads(h, lens)).1)|
    then Some(Bytes(RunFs(fs, Reads(h, lens)).1)) else None
  }

  /** One read, and what the others give. */
  lemma ReadsUnfold(fs: A.Fs, h: int, lens: seq<nat>, rest: seq<byte>)
    requires Good(fs) && lens != [] && A.Legal(fs, OpRead(h, lens[0]))
    requires var (fs1, o) := A.Apply(fs, OpRead(h, lens[0]));
             Good(fs1) && o.Returned? && o.code == |o.bytes| && ReadBack(fs1, h, lens[1..]) == Some(rest)
    ensures ReadBack(fs, h, lens) == Some(A.Apply(fs, OpRead(h, lens[0])).1.bytes + rest)
  {
    assert Reads(h, lens)[1..] == Reads(h, lens[1..]);
  }

  lemma NothingRead(fs: A.Fs, h: int)
    requires Good(fs)
    ensures ReadBack(fs, h, []) == Some([])
  {
  }

  /** The pieces read one after another from `at`, joined. */
  function Pieces(bytes: seq<byte>, at: nat, lens: seq<nat>): seq<byte>
    requires at <= |bytes|
    decreases |lens|
  {
    if lens == [] then []
    else
      var got := Piece(bytes, at, lens[0]);
      got + Pieces(bytes, at + |got|, lens[1..])
  }

  lemma {:induction false} PiecesAreOne(bytes: seq<byte>, at: nat, lens: seq<nat>)
    requires at <= |bytes|
    ensures Pieces(bytes, at, lens) == Piece(bytes, at, Sum(lens))
    decreases |lens|
  {
    if lens != [] {
      PiecesAreOne(bytes, at + |Piece(bytes, at, lens[0])|, lens[1..]);
      PiecesJoin(bytes, at, lens[0], Sum(lens[1..]));
    }
  }

  lemma ReadsStep(fs: A.Fs, h: int, i: nat, at: nat, bytes: seq<byte>, lens: seq<nat>)
    requires Good(fs) && i < |fs.files| && At(fs, h, i, at) && fs.files[i].bytes == bytes && at <= |bytes|
    requires lens != [] && lens[0] < SIZE_T_RANGE
    requires var next := at + |Piece(bytes, at, lens[0])|;
             && next <= |bytes| && Good(Moved(fs, h, i, next))
             && ReadBack(Moved(fs, h, i, next), h, lens[1..]) == Some(Pieces(bytes, next, lens[1..]))
    ensures ReadBack(fs, h, lens) == Some(Pieces(bytes, at, lens))
  {
    ReadOnce(fs, h, i, at, lens[0]);
    ReadsUnfold(fs, h, lens, Pieces(bytes, at + |Piece(bytes, at, lens[0])|, lens[1..]));
  }

  lemma {:induction false} ReadsGivePieces(fs: A.Fs, h: int, i: nat, at: nat, bytes: seq<byte>, lens: seq<nat>)
    requires Good(fs) && i < |fs.files| && At(fs, h, i, at) && RealLengths(lens) && fs.files[i].bytes == bytes
    ensures at <= |bytes| && ReadBack(fs, h, lens) == Some(Pieces(bytes, at, lens))
    decreases |lens|
  {
    if lens == [] {
      NothingRead(fs, h);
    } else {
      ReadOnce(fs, h, i, at, lens[0]);
      var next := at + |Piece(bytes, at, lens[0])|;
      ReadsGivePieces(Moved(fs, h, i, next), h, i, next, bytes, lens[1..]);
      ReadsStep(fs, h, i, at, bytes, lens);
    }
  }

  /** Any sequence of reads returns the bytes from where the handle stands, up to the sum of the lengths. */
  lemma ReadsConcatenate(fs: A.Fs, h: int, i: nat, at: nat, lens: seq<nat>)
    requires Good(fs) && i < |fs.files| && At(fs, h, i, at) && RealLengths(lens)
    ensures at <= |fs.files[i].bytes| && ReadBack(fs, h, lens) == Some(Piece(fs.files[i].bytes, at, Sum(lens)))
  {
    ReadsGivePieces(fs, h, i, at, fs.files[i].bytes, lens);
    PiecesAreOne(fs.files[i].bytes, at, lens);
  }

  lemma TakenTwice(s: seq<byte>, m: nat, n: nat)
    ensures Take(Take(s, m), n) == s[..Min(n, Min(|s|, m))]
  {
  }

  lemma ReadsOnTables(t: Tables, fs: A.Fs, h: int, i: nat, lens: seq<nat>)
    requires Matches(t, fs) && Good(fs) && i < |fs.files| && At(fs, h, i, 0) && RealLengths(lens)
    ensures var outcomes := RunTables(t, Reads(h, lens)).1;
            Bytes(outcomes) == Take(fs.files[i].bytes, Sum(lens)) && Codes(outcomes) == |Bytes(outcomes)|
  {
    ReadsConcatenate(fs, h, i, 0, lens);
    RunRefines(t, fs, Reads(h, lens));
  }

  /** The call stores and truncates nothing. */
  predicate Quiet(op: Op) { !op.OpWrite? && (op.OpOpen? ==> !Truncates(op.flags)) }

  predicate AllQuiet(ops: seq<Op>) { forall k :: 0 <= k < |ops| ==> Quiet(ops[k]) }

  lemma QuietKeepsBytes(fs: A.Fs, op: Op, i: nat)
    requires Good(fs) && A.Legal(fs, op) && Quiet(op) && i < |fs.files|
    ensures var fs1 := A.Apply(fs, op).0; Good(fs1) && i < |fs1.files| && fs1.files[i].bytes == fs.files[i].bytes
  {
    A.ApplyKeeps(fs, op);
  }

  lemma {:induction false} QuietRunKeepsBytes(fs: A.Fs, ops: seq<Op>, i: nat)
    requires Good(fs) && LegalRun(fs, ops) && AllQuiet(ops) && i < |fs.files|
    ensures var fs1 := RunFs(fs, ops).0; i < |fs1.files| && fs1.files[i].bytes == fs.files[i].bytes
    decreases |ops|
  {
    if ops != [] {
      QuietKeepsBytes(fs, ops[0], i);
      QuietRunKeepsBytes(A.Apply(fs, ops[0]).0, ops[1..], i);
    }
  }

  /** After the writes through `w` come legal calls that leave `r` at the start of file `i`. */
  ghost predicate ThenAtStart(fs: A.Fs, w: int, chunks: seq<seq<byte>>, between: seq<Op>, r: int, i: nat)
    requires Good(fs)
  {
    LegalRun(fs, Writes(w, chunks)) &&
    var fs1 := RunFs(fs, Writes(w, chunks)).0;
    LegalRun(fs1, between) && At(RunFs(fs1, between).0, r, i, 0)
  }

  lemma WrittenOnTables(t: Tables, fs: A.Fs, w: int, i: nat, chunks: seq<seq<byte>>)
    requires Matches(t, fs) && Good(fs) && i < |fs.files| && fs.files[i].bytes == []
    requires At(fs, w, i, 0) && RealBuffers(chunks)
    ensures LegalRun(fs, Writes(w, chunks))
    ensures var fs1, (t1, written) := RunFs(fs, Writes(w, chunks)).0, RunTables(t, Writes(w, chunks));
            && Matches(t1, fs1) && Codes(written) == Min(|Flatten(chunks)|, BLOCK_SIZE)
            && i < |fs1.files| && fs1.files[i].bytes == Take(Flatten(chunks), BLOCK_SIZE)
  {
    WritesAppend(fs, w, i, chunks);
    RunRefines(t, fs, Writes(w, chunks));
    assert [] + Flatten(chunks) == Flatten(chunks);
  }

  lemma QuietOnTables(t: Tables, fs: A.Fs, between: seq<Op>, i: nat)
    requires Matches(t, fs) && Good(fs) && LegalRun(fs, between) && AllQuiet(between) && i < |fs.files|
    ensures var fs1 := RunFs(fs, between).0;
            Matches(RunTables(t, between).0, fs1) && i < |fs1.files| && fs1.files[i].bytes == fs.files[i].bytes
  {
    RunRefines(t, fs, between);
    QuietRunKeepsBytes(fs, between, i);
  }

  /**
   On the tables: an empty file with `w` open on it at offset 0. However the data is cut into writes through `w`,
   whatever is then opened, closed and read elsewhere, and however the reads through a handle `r` at the start of the
   file are sized, the reads together return the first bytes of the written data: as many as are asked for, of the at
   most BLOCK_SIZE that were stored, which is also the sum of the write results.
   */
  lemma ChunkingIndependent(
    t: Tables, fs: A.Fs, w: int, chunks: seq<seq<byte>>, between: seq<Op>, r: int, i: nat, lens: seq<nat>)
    requires Matches(t, fs) && Good(fs) && i < |fs.files| && fs.files[i].bytes == []
    requires At(fs, w, i, 0) && RealBuffers(chunks) && RealLengths(lens)
    requires AllQuiet(between) && ThenAtStart(fs, w, chunks, between, r, i)
    ensures var data := Flatten(chunks);
            var (t1, written) := RunTables(t, Writes(w, chunks));
            var t2 := RunTables(t1, between).0;
            var read := RunTables(t2, Reads(r, lens)).1;
            && Codes(written) == Min(|data|, BLOCK_SIZE)
            && Bytes(read) == data[..Min(Sum(lens), Min(|data|, BLOCK_SIZE))]
            && Codes(read) == |Bytes(read)|
  {
    WrittenOnTables(t, fs, w, i, chunks);
    var fs1, t1 := RunFs(fs, Writes(w, chunks)).0, RunTables(t, Writes(w, chunks)).0;
    QuietOnTables(t1, fs1, between, i);
    ReadsOnTables(RunTables(t1, between).0, RunFs(fs1, between).0, r, i, lens);
    TakenTwice(Flatten(chunks), BLOCK_SIZE, Sum(lens));
  }

  /** Nothing in between: `r` was open at the start of the file before the writes. */
  lemma OpenReaderSeesWrites(fs: A.Fs, w: int, r: int, i: nat, chunks: seq<seq<byte>>)
    requires Good(fs) && w != r && i < |fs.files| && fs.files[i].bytes == []
    requires At(fs, w, i, 0) && At(fs, r, i, 0) && RealBuffers(chunks)
    ensures ThenAtStart(fs, w, chunks, [], r, i)
  {
    WritesAppend(fs, w, i, chunks);
  }

  lemma SameIndex(a: seq<A.File>, b: seq<A.File>, name: CString)
    requires |a| == |b| && forall k :: 0 <= k < |a| ==> a[k].name == b[k].name
    ensures A.IndexOf(a, name) == A.IndexOf(b, name)
  {
  }

  lemma ReopenedAtStart(fs: A.Fs, w: int, path: CString, flags: int, i: nat)
    requires Good(fs) && w in fs.handles && i < |fs.files| && A.Find(fs, path) == i
    requires !Truncates(flags) && !Appends(flags)
    ensures var between := [OpClose(w), OpOpen(path, flags)];
            LegalRun(fs, between) && At(RunFs(fs, between).0, A.LowestFree(fs.handles - {w}), i, 0)
  {
    var between := [OpClose(w), OpOpen(path, flags)];
    A.ApplyKeeps(fs, OpClose(w));
    var fs1 := A.Close(fs, w).0;
    A.ApplyKeeps(fs1, OpOpen(path, flags));
    assert w !in fs1.handles;
    assert between[1..] == [OpOpen(path, flags)];
    assert RunFs(fs1, between[1..]).0 == A.Apply(fs1, OpOpen(path, flags)).0;
    assert RunFs(fs, between).0 == RunFs(fs1, between[1..]).0;
  }

  /** The usual client: close the writer, open the file again by its path, read. */
  lemma ReopenedReaderSeesWrites(fs: A.Fs, w: int, path: CString, flags: int, i: nat, chunks: seq<seq<byte>>)
    requires Good(fs) && i < |fs.files| && fs.files[i].bytes == [] && At(fs, w, i, 0) && RealBuffers(chunks)
    requires A.Find(fs, path) == i && !Truncates(flags) && !Appends(flags)
    ensures var between := [OpClose(w), OpOpen(path, flags)];
            AllQuiet(between) && ThenAtStart(fs, w, chunks, between, A.LowestFree(fs.handles - {w}), i)
  {
    WritesAppend(fs, w, i, chunks);
    var fs1 := RunFs(fs, Writes(w, chunks)).0;
    SameIndex(fs.files, fs1.files, path[1..]);
    assert fs1.handles - {w} == fs.handles - {w};
    ReopenedAtStart(fs1, w, path, flags, i);
  }
}
