/** The messages: what the client library sends, and what the dispatch loop makes of the bytes. */
module Wire {
  import opened Config
  import opened Decimal

  const NAME_SIZE: nat := 40
  const SIZE: nat := 100

  /** A call as the client library sends it. A name is sent as the NAME_SIZE bytes of memory it starts at. */
  datatype Sent =
    | SendMount(window: seq<byte>)
    | SendUnmount(sid: int)
    | SendOpen(sid: int, window: seq<byte>, flags: int)
    | SendClose(sid: int, h: int)
    | SendWrite(sid: int, h: int, data: seq<byte>)
    | SendRead(sid: int, h: int, len: int)
    | SendShutdown(sid: int)

  /** A message as the dispatch loop understands it. */
  datatype Got =
    | GotMount(name: CString)
    | GotUnmount(sid: int)
    | GotOpen(sid: int, name: CString, flags: int)
    | GotClose(sid: int, h: int)
    | GotWrite(sid: int, h: int, data: seq<byte>)
    | GotRead(sid: int, h: int, len: int)
    | GotShutdown(sid: int)
    | GotRefused(sid: int)        // a handle of -1: answered at once, nothing posted

  /** The C string at the front of a memory window. */
  function CutAtNul(window: seq<byte>): (s: CString)
    ensures |s| <= |window| && s == window[..|s|] && 0 !in s
    ensures |s| < |window| ==> window[|s|] == 0
    decreases |window|
  {
    if window == [] || window[0] == 0 then [] else [window[0]] + CutAtNul(window[1..])
  }

  /** What each message should arrive as. */
  function Meaning(m: Sent): Got {
    match m
    case SendMount(window) => GotMount(CutAtNul(window))
    case SendUnmount(sid) => GotUnmount(sid)
    case SendOpen(sid, window, flags) => GotOpen(sid, CutAtNul(window), flags)
    case SendClose(sid, h) => if h == -1 then GotRefused(sid) else GotClose(sid, h)
    case SendWrite(sid, h, data) => if h == -1 then GotRefused(sid) else GotWrite(sid, h, data)
    case SendRead(sid, h, len) => if h == -1 then GotRefused(sid) else GotRead(sid, h, len)
    case SendShutdown(sid) => GotShutdown(sid)
  }

  /** The protocol's limits: sessions and handles that exist, or the -1 of a failed open; a mount's name that ends
      within its bytes; data that fits the server's buffer. */
  predicate Proper(m: Sent) {
    match m
    case SendMount(window) => |window| == NAME_SIZE && 0 in window
    case SendUnmount(sid) => 0 <= sid <= 9
    case SendOpen(sid, window, flags) => 0 <= sid <= 9 && |window| == NAME_SIZE && 0 <= flags <= 7
    case SendClose(sid, h) => 0 <= sid <= 9 && -1 <= h <= 19
    case SendWrite(sid, h, data) => 0 <= sid <= 9 && -1 <= h <= 19 && |data| <= SIZE
    case SendRead(sid, h, len) => 0 <= sid <= 9 && -1 <= h <= 19 && 0 <= len <= 9999
    case SendShutdown(sid) => 0 <= sid <= 9
  }

  /** A read or write through the handle of a failed open. */
  predicate LeavesRest(m: Sent) { (m.SendWrite? || m.SendRead?) && m.h == -1 }

  /** The bytes the client library writes. */
  function Encode(m: Sent): (s: seq<byte>)
    requires Proper(m)
    ensures s != []
  {
    match m
    case SendMount(window) => [49] + window
    case SendUnmount(sid) => [50] + Field(sid)
    case SendOpen(sid, window, flags) => [51] + Field(sid) + window + [ZERO + flags]
    case SendClose(sid, h) => [52] + Field(sid) + Field(h)
    case SendWrite(sid, h, data) => [53] + Field(sid) + Field(h) + Field(|data|) + data
    case SendRead(sid, h, len) => [54] + Field(sid) + Field(h) + Field(len)
    case SendShutdown(sid) => [55] + Field(sid)
  }

  /** Reading a 4-byte field from position `at` of the stream into the front of `buffer`. */
  function FieldAt(stream: seq<byte>, at: nat, buffer: seq<byte>): int
    requires at + 4 <= |stream| && |buffer| == SIZE
  {
    Atoi(Into(buffer, stream[at..at + 4]))
  }

  /** The buffer after reading the field. */
  function After(stream: seq<byte>, at: nat, buffer: seq<byte>): (r: seq<byte>)
    requires at + 4 <= |stream| && |buffer| == SIZE
    ensures |r| == SIZE
  {
    Into(buffer, stream[at..at + 4])
  }

  /** One turn of the dispatch loop: the message at the front of the stream and what is left, or None where the
      bytes run out, the operation code is unknown, or a length does not fit. `junk` is what the buffers of the close
      and write handlers hold before anything is read into them; the other handlers clear theirs. */
  function Decode(stream: seq<byte>, junk: seq<byte>): (r: Option<(Got, seq<byte>)>)
    requires |junk| == SIZE
    ensures r.Some? ==> |r.value.1| < |stream|
  {
    if stream == [] then None
    else
      var command, s := Atoi(Into(Zeros(SIZE), stream[..1])), stream[1..];
      var zero := Zeros(SIZE);
      if command == 1 then
        if |s| < NAME_SIZE then None else Some((GotMount(CutAtNul(s[..NAME_SIZE])), s[NAME_SIZE..]))
      else if command == 2 then
        if |s| < 4 then None else Some((GotUnmount(FieldAt(s, 0, zero)), s[4..]))
      else if command == 3 then
        if |s| < 45 then None else Some((DecodeOpen(s[..45]), s[45..]))
      else if command == 4 then
        if |s| < 8 then None
        else
          var sid, h := FieldAt(s, 0, junk), FieldAt(s, 4, After(s, 0, junk));
          Some((if h == -1 then GotRefused(sid) else GotClose(sid, h), s[8..]))
      else if command == 5 then
        if |s| < 8 then None else DecodeWrite(s, junk)
      else if command == 6 then
        if |s| < 8 then None else DecodeRead(s)
      else if command == 7 then
        if |s| < 4 then None else Some((GotShutdown(FieldAt(s, 0, zero)), s[4..]))
      else None
  }

  /** tfs_handle_open, and the string the worker passes on: 45 bytes read at once into a cleared buffer. */
  function DecodeOpen(body: seq<byte>): Got
    requires |body| == 45
  {
    var buffer := Into(Zeros(SIZE), body);
    GotOpen(IntAt(buffer, 0), CutAtNul(Into(Zeros(SIZE), buffer[4..44])), IntAt(buffer, 44))
  }

  /** `atoi` of 4 bytes copied into a cleared buffer. */
  function IntAt(buffer: seq<byte>, at: nat): int
    requires |buffer| == SIZE && at + 4 <= SIZE
  {
    Atoi(Into(Zeros(SIZE), buffer[at..at + 4]))
  }

  /** tfs_handle_write: with a handle of -1 it returns before reading the length and the data. */
  function DecodeWrite(s: seq<byte>, junk: seq<byte>): (r: Option<(Got, seq<byte>)>)
    requires |junk| == SIZE && |s| >= 8
    ensures r.Some? ==> |r.value.1| <= |s|
  {
    var sid, h := FieldAt(s, 0, junk), FieldAt(s, 4, After(s, 0, junk));
    if h == -1 then Some((GotRefused(sid), s[8..]))
    else if |s| < 12 then None
    else
      var len := FieldAt(s, 8, After(s, 4, After(s, 0, junk)));
      if !(0 <= len <= SIZE) || |s| < 12 + len then None
      else Some((GotWrite(sid, h, s[12..12 + len]), s[12 + len..]))
  }

  /** tfs_handle_read: with a handle of -1 it returns before reading the length. */
  function DecodeRead(s: seq<byte>): (r: Option<(Got, seq<byte>)>)
    requires |s| >= 8
    ensures r.Some? ==> |r.value.1| <= |s|
  {
    var zero := Zeros(SIZE);
    var sid, h := FieldAt(s, 0, zero), FieldAt(s, 4, After(s, 0, zero));
    if h == -1 then Some((GotRefused(sid), s[8..]))
    else if |s| < 12 then None
    else Some((GotRead(sid, h, FieldAt(s, 8, After(s, 4, After(s, 0, zero)))), s[12..]))
  }

  // ----- One message -----

  lemma OpCode(c: byte, s: seq<byte>)
    requires IsDigit(c)
    ensures Atoi(Into(Zeros(SIZE), ([c] + s)[..1])) == c - ZERO
    ensures ([c] + s)[1..] == s
  {
    assert ([c] + s)[..1] == [c];
    DigitFirst(c, Into(Zeros(SIZE), [c]));
  }

  /** One digit and a NUL. */
  lemma DigitFirst(c: byte, buffer: seq<byte>)
    requires IsDigit(c) && |buffer| > 1 && buffer[0] == c && buffer[1] == 0
    ensures Atoi(buffer) == c - ZERO
  {
    assert Number(buffer[1..], c - ZERO) == c - ZERO;
  }

  lemma MountArrives(window: seq<byte>, rest: seq<byte>, junk: seq<byte>)
    requires |window| == NAME_SIZE && 0 in window && |junk| == SIZE
    ensures Decode([49] + window + rest, junk) == Some((GotMount(CutAtNul(window)), rest))
  {
    var s := window + rest;
    assert [49] + window + rest == [49] + s;
    OpCode(49, s);
    assert s[..NAME_SIZE] == window && s[NAME_SIZE..] == rest;
  }

  lemma SessionArrives(m: Sent, code: byte, sid: int, rest: seq<byte>, junk: seq<byte>)
    requires 0 <= sid <= 9 && |junk| == SIZE
    requires (m == SendUnmount(sid) && code == 50) || (m == SendShutdown(sid) && code == 55)
    ensures Decode(Encode(m) + rest, junk) == Some((Meaning(m), rest))
  {
    var s := Field(sid) + rest;
    assert Encode(m) + rest == [code] + s;
    OpCode(code, s);
    assert s[0..4] == Field(sid) && s[4..] == rest;
    FieldCarriesExactly(sid, SIZE);
  }

  /** Clearing the rest of the buffer keeps the string at its front. */
  lemma {:induction false} CutOfPadded(window: seq<byte>, n: nat)
    requires |window| <= n
    ensures CutAtNul(Into(Zeros(n), window)) == CutAtNul(window)
    decreases |window|
  {
    if window == [] {
      assert n > 0 ==> Into(Zeros(n), window)[0] == 0;
    } else if window[0] != 0 {
      assert Into(Zeros(n), window)[1..] == Into(Zeros(n - 1), window[1..]);
      CutOfPadded(window[1..], n - 1);
    }
  }

  lemma OpenBuffer(field: seq<byte>, window: seq<byte>, flag: byte)
    requires |field| == 4 && |window| == NAME_SIZE
    ensures var buffer := Into(Zeros(SIZE), field + window + [flag]);
            buffer[0..4] == field && buffer[4..44] == window && buffer[44..48] == [flag, 0, 0, 0]
  {
    var body := field + window + [flag];
    assert body[..4] == field && body[4..44] == window && body[44] == flag;
  }

  lemma SidRead(buffer: seq<byte>, sid: int)
    requires |buffer| == SIZE && buffer[0..4] == Field(sid) && 0 <= sid <= 9
    ensures IntAt(buffer, 0) == sid
  {
    FieldCarriesExactly(sid, SIZE);
  }

  lemma FlagsRead(buffer: seq<byte>, flags: int)
    requires |buffer| == SIZE && 0 <= flags <= 7 && buffer[44..48] == [ZERO + flags, 0, 0, 0]
    ensures IntAt(buffer, 44) == flags
  {
    DigitFirst(ZERO + flags, Into(Zeros(SIZE), [ZERO + flags, 0, 0, 0]));
  }

  lemma OpenDecodes(sid: int, window: seq<byte>, flags: int)
    requires 0 <= sid <= 9 && |window| == NAME_SIZE && 0 <= flags <= 7
    ensures DecodeOpen(Field(sid) + window + [ZERO + flags]) == GotOpen(sid, CutAtNul(window), flags)
  {
    var buffer := Into(Zeros(SIZE), Field(sid) + window + [ZERO + flags]);
    OpenBuffer(Field(sid), window, ZERO + flags);
    SidRead(buffer, sid);
    CutOfPadded(window, SIZE);
    FlagsRead(buffer, flags);
  }

  lemma OpenArrives(sid: int, window: seq<byte>, flags: int, rest: seq<byte>, junk: seq<byte>)
    requires 0 <= sid <= 9 && |window| == NAME_SIZE && 0 <= flags <= 7 && |junk| == SIZE
    ensures Decode(Encode(SendOpen(sid, window, flags)) + rest, junk)
         == Some((GotOpen(sid, CutAtNul(window), flags), rest))
  {
    var body := Field(sid) + window + [ZERO + flags];
    var s := body + rest;
    assert Encode(SendOpen(sid, window, flags)) + rest == [51] + s;
    OpCode(51, s);
    assert s[..45] == body && s[45..] == rest;
    OpenDecodes(sid, window, flags);
  }

  lemma CloseArrives(sid: int, h: int, rest: seq<byte>, junk: seq<byte>)
    requires 0 <= sid <= 9 && -1 <= h <= 19 && |junk| == SIZE
    ensures Decode(Encode(SendClose(sid, h)) + rest, junk) == Some((Meaning(SendClose(sid, h)), rest))
  {
    var s := Field(sid) + Field(h) + rest;
    assert Encode(SendClose(sid, h)) + rest == [52] + s;
    OpCode(52, s);
    assert s[0..4] == Field(sid) && s[4..8] == Field(h) && s[8..] == rest;
    FieldIntoJunk(sid, junk);
    FieldIntoJunk(h, After(s, 0, junk));
  }

  lemma WriteDecodes(sid: int, h: int, data: seq<byte>, rest: seq<byte>, junk: seq<byte>)
    requires 0 <= sid <= 9 && -1 <= h <= 19 && |data| <= SIZE && |junk| == SIZE
    ensures DecodeWrite(Field(sid) + Field(h) + Field(|data|) + data + rest, junk)
         == Some((Meaning(SendWrite(sid, h, data)), if h == -1 then Field(|data|) + data + rest else rest))
  {
    var s := Field(sid) + Field(h) + Field(|data|) + data + rest;
    assert s[0..4] == Field(sid) && s[4..8] == Field(h) && s[8..12] == Field(|data|);
    assert s[8..] == Field(|data|) + data + rest;
    assert s[12..12 + |data|] == data && s[12 + |data|..] == rest;
    FieldIntoJunk(sid, junk);
    FieldIntoJunk(h, After(s, 0, junk));
    FieldIntoJunk(|data|, After(s, 4, After(s, 0, junk)));
  }

  lemma ReadDecodes(sid: int, h: int, len: int, rest: seq<byte>)
    requires 0 <= sid <= 9 && -1 <= h <= 19 && 0 <= len <= 9999
    ensures DecodeRead(Field(sid) + Field(h) + Field(len) + rest)
         == Some((Meaning(SendRead(sid, h, len)), if h == -1 then Field(len) + rest else rest))
  {
    var s := Field(sid) + Field(h) + Field(len) + rest;
    var zero := Zeros(SIZE);
    assert s[0..4] == Field(sid) && s[4..8] == Field(h) && s[8..12] == Field(len);
    assert s[8..] == Field(len) + rest && s[12..] == rest;
    assert After(s, 0, zero) == Into(zero, Field(sid));
    assert Into(After(s, 0, zero), Field(h)) == Into(zero, Field(h));
    assert Into(After(s, 4, After(s, 0, zero)), Field(len)) == Into(zero, Field(len));
    FieldCarriesExactly(sid, SIZE);
    FieldCarriesExactly(h, SIZE);
    FieldCarriesExactly(len, SIZE);
  }

  lemma WriteArrives(sid: int, h: int, data: seq<byte>, rest: seq<byte>, junk: seq<byte>)
    requires 0 <= sid <= 9 && -1 <= h <= 19 && |data| <= SIZE && |junk| == SIZE
    ensures Decode(Encode(SendWrite(sid, h, data)) + rest, junk)
         == Some((Meaning(SendWrite(sid, h, data)), if h == -1 then Field(|data|) + data + rest else rest))
  {
    var s := Field(sid) + Field(h) + Field(|data|) + data + rest;
    WriteEncoded(sid, h, data, rest);
    WriteCommand(s, junk);
    WriteDecodes(sid, h, data, rest, junk);
  }

  lemma WriteEncoded(sid: int, h: int, data: seq<byte>, rest: seq<byte>)
    requires Proper(SendWrite(sid, h, data))
    ensures Encode(SendWrite(sid, h, data)) + rest == [53] + (Field(sid) + Field(h) + Field(|data|) + data + rest)
  {
  }

  lemma WriteCommand(s: seq<byte>, junk: seq<byte>)
    requires |s| >= 8 && |junk| == SIZE
    ensures Decode([53] + s, junk) == DecodeWrite(s, junk)
  {
    OpCode(53, s);
  }

  lemma ReadArrives(sid: int, h: int, len: int, rest: seq<byte>, junk: seq<byte>)
    requires 0 <= sid <= 9 && -1 <= h <= 19 && 0 <= len <= 9999 && |junk| == SIZE
    ensures Decode(Encode(SendRead(sid, h, len)) + rest, junk)
         == Some((Meaning(SendRead(sid, h, len)), if h == -1 then Field(len) + rest else rest))
  {
    var s := Field(sid) + Field(h) + Field(len) + rest;
    assert Encode(SendRead(sid, h, len)) + rest == [54] + s;
    OpCode(54, s);
    ReadDecodes(sid, h, len, rest);
  }

  /** A message decodes to its meaning and the stream stays in step, whatever follows and whatever an uncleared
      buffer held, exactly when it is not a read or write through a handle of -1. */
  lemma DecodeInvertsEncodeExactly(m: Sent, rest: seq<byte>, junk: seq<byte>)
    requires Proper(m) && |junk| == SIZE
    ensures Decode(Encode(m) + rest, junk) == Some((Meaning(m), rest)) <==> !LeavesRest(m)
  {
    match m
    case SendMount(window) => MountArrives(window, rest, junk);
    case SendUnmount(sid) => SessionArrives(m, 50, sid, rest, junk);
    case SendShutdown(sid) => SessionArrives(m, 55, sid, rest, junk);
    case SendOpen(sid, window, flags) => OpenArrives(sid, window, flags, rest, junk);
    case SendClose(sid, h) => CloseArrives(sid, h, rest, junk);
    case SendWrite(sid, h, data) =>
      WriteArrives(sid, h, data, rest, junk);
      assert |Field(|data|) + data + rest| == 4 + |data| + |rest|;
    case SendRead(sid, h, len) =>
      ReadArrives(sid, h, len, rest, junk);
      assert |Field(len) + rest| == 4 + |rest|;
  }

  /** A write through a real handle arrives exactly if its data is no longer than the server's buffer. */
  lemma WriteFitsExactly(sid: int, h: int, data: seq<byte>, rest: seq<byte>, junk: seq<byte>)
    requires 0 <= sid <= 9 && 0 <= h <= 19 && |data| <= 999 && |junk| == 100
    ensures |data| <= 100 <==>
      Decode([53] + Field(sid) + Field(h) + Field(|data|) + data + rest, junk) == Some((GotWrite(sid, h, data), rest))
  {
    var s := Field(sid) + Field(h) + Field(|data|) + data + rest;
    assert [53] + Field(sid) + Field(h) + Field(|data|) + data + rest == [53] + s;
    WriteCommand(s, junk);
    if |data| <= 100 { WriteDecodes(sid, h, data, rest, junk); } else { LongWriteStops(sid, h, data, rest, junk); }
  }

  lemma LongWriteStops(sid: int, h: int, data: seq<byte>, rest: seq<byte>, junk: seq<byte>)
    requires 0 <= sid <= 9 && 0 <= h <= 19 && 100 < |data| <= 999 && |junk| == SIZE
    ensures DecodeWrite(Field(sid) + Field(h) + Field(|data|) + data + rest, junk).None?
  {
    var s := Field(sid) + Field(h) + Field(|data|) + data + rest;
    assert s[0..4] == Field(sid) && s[4..8] == Field(h) && s[8..12] == Field(|data|);
    FieldIntoJunk(sid, junk);
    FieldIntoJunk(h, After(s, 0, junk));
    FieldIntoJunk(|data|, After(s, 4, After(s, 0, junk)));
  }

  // ----- Streams -----

  predicate AllInStep(ms: seq<Sent>) { forall k :: 0 <= k < |ms| ==> Proper(ms[k]) && !LeavesRest(ms[k]) }

  function EncodeAll(ms: seq<Sent>): seq<byte>
    requires AllInStep(ms)
  {
    if ms == [] then [] else Encode(ms[0]) + EncodeAll(ms[1..])
  }

  function Meanings(ms: seq<Sent>): seq<Got> {
    if ms == [] then [] else [Meaning(ms[0])] + Meanings(ms[1..])
  }

  /** The dispatch loop until the stream ends. Each turn finds its own junk in uncleared buffers. */
  function DecodeAll(stream: seq<byte>, junk: nat -> seq<byte>): Option<seq<Got>>
    requires forall n: nat :: |junk(n)| == SIZE
    decreases |stream|
  {
    if stream == [] then Some([])
    else
      match Decode(stream, junk(|stream|))
      case None => None
      case Some((got, rest)) =>
        match DecodeAll(rest, junk)
        case None => None
        case Some(more) => Some([got] + more)
  }

  /** Any number of messages, written one after another, come out as they were meant, and no byte is left. */
  lemma {:induction false} StreamRoundTrip(ms: seq<Sent>, junk: nat -> seq<byte>)
    requires AllInStep(ms) && forall n: nat :: |junk(n)| == SIZE
    ensures DecodeAll(EncodeAll(ms), junk) == Some(Meanings(ms))
    decreases |ms|
  {
    if ms != [] {
      var stream := EncodeAll(ms);
      DecodeInvertsEncodeExactly(ms[0], EncodeAll(ms[1..]), junk(|stream|));
      StreamRoundTrip(ms[1..], junk);
    }
  }

  // ----- The reply to a read -----

  /** What the worker writes: the code, and after a success the bytes. */
  function ReadReply(code: int, bytes: seq<byte>): seq<byte> {
    if code < 0 then Field(code) else Field(code) + bytes
  }

  /** What the client's tfs_read makes of its pipe: its result, the bytes in the caller's buffer, and what is left. */
  function ReceiveRead(pipe: seq<byte>): Option<(int, seq<byte>, seq<byte>)> {
    if |pipe| < 4 then None
    else
      var code := Atoi(Into(Zeros(9), pipe[..4]));
      if code < 0 then Some((-1, [], pipe[4..]))
      else if |pipe| < 4 + code then None
      else Some((code, pipe[4..4 + code], pipe[4 + code..]))
  }

  /** A remote read returns what the local one does and leaves the pipe empty. */
  lemma RemoteReadIsLocal(code: int, bytes: seq<byte>)
    requires (code == -1 && bytes == []) || (code == |bytes| && code <= 9999)
    ensures ReceiveRead(ReadReply(code, bytes)) == Some((code, bytes, []))
  {
    var pipe := ReadReply(code, bytes);
    assert pipe[..4] == Field(code);
    FieldCarriesExactly(code, 9);
    if code >= 0 {
      assert pipe[4..4 + code] == bytes && pipe[4 + code..] == [];
    } else {
      assert pipe[4..] == [];
    }
  }

  // ----- The reply to a write -----

  /** What the client's tfs_write, having written `len` bytes, makes of its pipe: it reads as many bytes as it wrote
      into its cleared buffer. Its result and what is left; None where it waits for bytes that are not there. */
  function ReceiveWrite(len: nat, pipe: seq<byte>): Option<(int, seq<byte>)> {
    if |pipe| < len then None else Some((Max(Atoi(Into(Zeros(14 + len), pipe[..len])), -1), pipe[len..]))
  }

  /** The reply to a write is the four bytes of a number; the client has it, and leaves its pipe in step, exactly if it
      wrote four bytes. If it wrote more it waits, if it wrote fewer it leaves bytes behind. */
  lemma WriteReplyInStepExactly(code: int, len: nat)
    requires 0 <= code <= 9999
    ensures ReceiveWrite(len, Field(code)) == Some((code, [])) <==> len == 4
    ensures len > 4 ==> ReceiveWrite(len, Field(code)).None?
    ensures len < 4 ==> ReceiveWrite(len, Field(code)).Some? && |ReceiveWrite(len, Field(code)).value.1| == 4 - len
  {
    assert Field(code)[..4] == Field(code);
    if len == 4 { FieldCarriesExactly(code, 18); }
  }

  /** What a write of fewer than four bytes leaves behind is read as the next reply: as 0, whatever that reply is. */
  lemma ShortWriteShifts(code: int, len: nat, reply: int, size: nat)
    requires 0 <= code <= len < 4 <= size
    ensures ReceiveWrite(len, Field(code)).Some?
    ensures Atoi(Into(Zeros(size), (ReceiveWrite(len, Field(code)).value.1 + Field(reply))[..4])) == 0
  {
    var rest := Field(code)[len..];
    var next := Into(Zeros(size), (rest + Field(reply))[..4]);
    assert Printed(code) == [ZERO + code];
    assert Field(code) == [ZERO + code, 0, 0, 0];
    assert next[0] == rest[0];
    if len == 0 {
      assert next[1] == 0;
      assert Number(next[1..], 0) == 0;
    }
  }
}
