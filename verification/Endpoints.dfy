/**
 Both ends of the protocol in their own form: the client library fills message buffers at a moving offset, the
 handlers of the dispatch loop read them piece by piece into theirs. Proved against the functions of Wire.
 */
module Endpoints {
  import opened Config
  import opened Decimal
  import opened Wire

  /** Reading on after `a` bytes. */
  lemma Further(s: seq<byte>, a: nat, n: nat)
    requires a + n <= |s|
    ensures s[a..][..n] == s[a..a + n] && s[a..][n..] == s[a + n..]
  {
  }

  lemma OnlyNothingIsEmpty(ms: seq<Sent>)
    requires AllInStep(ms)
    ensures EncodeAll(ms) == [] <==> ms == []
  {
    if ms != [] {
      assert |Encode(ms[0])| > 0;
    }
  }

  /** A pipe holds the bytes written and not yet read; reads and writes are whole. */
  class Pipe {
    var bytes: seq<byte>

    constructor ()
      ensures bytes == []
    {
      bytes := [];
    }
  }

  /** `memcpy(buffer + at, source, |source|)`. */
  method Copy(buffer: array<byte>, at: nat, source: seq<byte>)
    requires at + |source| <= buffer.Length
    modifies buffer
    ensures buffer[..at] == old(buffer[..at]) && buffer[at..at + |source|] == source
    ensures buffer[at + |source|..] == old(buffer[at + |source|..])
  {
    forall k | 0 <= k < |source| {
      buffer[at + k] := source[k];
    }
  }

  /** A message buffer being filled: the bytes before the moving offset are `message`. */
  method Append(buffer: array<byte>, len: nat, source: seq<byte>, ghost message: seq<byte>) returns (end: nat)
    requires len + |source| <= buffer.Length && buffer[..len] == message
    modifies buffer
    ensures end == len + |source| && buffer[..end] == message + source
  {
    Copy(buffer, len, source);
    end := len + |source|;
    assert buffer[..end] == buffer[..len] + buffer[len..end];
  }

  /** The client library: its session and its two pipes. */
  class Client {
    var sessionId: int
    const fserv: Pipe
    const fcli: Pipe

    constructor (server: Pipe, replies: Pipe)
      ensures sessionId == -1 && fserv == server && fcli == replies
    {
      sessionId := -1;
      fserv, fcli := server, replies;
    }

    method Mount(window: seq<byte>)
      requires Proper(SendMount(window))
      modifies fserv
      ensures fserv.bytes == old(fserv.bytes) + Encode(SendMount(window))
    {
      var buffer := new byte[41];
      var len := Append(buffer, 0, [49], []);
      len := Append(buffer, len, window, [49]);
      fserv.bytes := fserv.bytes + buffer[..len];
    }

    method Unmount()
      requires Proper(SendUnmount(sessionId))
      modifies fserv
      ensures fserv.bytes == old(fserv.bytes) + Encode(SendUnmount(sessionId))
    {
      var buffer := new byte[5];
      var len := Append(buffer, 0, [50], []);
      len := Append(buffer, len, Field(sessionId), [50]);
      fserv.bytes := fserv.bytes + buffer[..len];
    }

    method Open(window: seq<byte>, flags: int)
      requires Proper(SendOpen(sessionId, window, flags))
      modifies fserv
      ensures fserv.bytes == old(fserv.bytes) + Encode(SendOpen(sessionId, window, flags))
    {
      var buffer := new byte[49];
      var len := Append(buffer, 0, [51], []);
      len := Append(buffer, len, Field(sessionId), [51]);
      len := Append(buffer, len, window, [51] + Field(sessionId));
      len := Append(buffer, len, [ZERO + flags], [51] + Field(sessionId) + window);
      fserv.bytes := fserv.bytes + buffer[..len];
    }

    method Close(h: int)
      requires Proper(SendClose(sessionId, h))
      modifies fserv
      ensures fserv.bytes == old(fserv.bytes) + Encode(SendClose(sessionId, h))
    {
      var buffer := new byte[9];
      var len := Append(buffer, 0, [52], []);
      len := Append(buffer, len, Field(sessionId), [52]);
      len := Append(buffer, len, Field(h), [52] + Field(sessionId));
      fserv.bytes := fserv.bytes + buffer[..len];
    }

    method Write(h: int, data: seq<byte>)
      requires Proper(SendWrite(sessionId, h, data))
      modifies fserv
      ensures fserv.bytes == old(fserv.bytes) + Encode(SendWrite(sessionId, h, data))
    {
      var buffer := new byte[14 + |data|];
      var head := [53] + Field(sessionId);
      var offset := Append(buffer, 0, [53], []);
      offset := Append(buffer, offset, Field(sessionId), [53]);
      offset := Append(buffer, offset, Field(h), head);
      offset := Append(buffer, offset, Field(|data|), head + Field(h));
      offset := Append(buffer, offset, data, head + Field(h) + Field(|data|));
      fserv.bytes := fserv.bytes + buffer[..offset];
    }

    method Read(h: int, len: int)
      requires Proper(SendRead(sessionId, h, len))
      modifies fserv
      ensures fserv.bytes == old(fserv.bytes) + Encode(SendRead(sessionId, h, len))
    {
      var buffer := new byte[14];
      var head := [54] + Field(sessionId);
      var offset := Append(buffer, 0, [54], []);
      offset := Append(buffer, offset, Field(sessionId), [54]);
      offset := Append(buffer, offset, Field(h), head);
      offset := Append(buffer, offset, Field(len), head + Field(h));
      fserv.bytes := fserv.bytes + buffer[..offset];
    }

    method Shutdown()
      requires Proper(SendShutdown(sessionId))
      modifies fserv
      ensures fserv.bytes == old(fserv.bytes) + Encode(SendShutdown(sessionId))
    {
      var buffer := new byte[5];
      var len := Append(buffer, 0, [55], []);
      len := Append(buffer, len, Field(sessionId), [55]);
      fserv.bytes := fserv.bytes + buffer[..len];
    }

    /** The second half of tfs_read: the code, then as many bytes as it says into the caller's buffer. */
    method ReceiveReadReply() returns (code: int, bytes: seq<byte>)
      requires Wire.ReceiveRead(fcli.bytes).Some?
      modifies fcli
      ensures Wire.ReceiveRead(old(fcli.bytes)) == Some((code, bytes, fcli.bytes))
    {
      ghost var s := fcli.bytes;
      var aux := new byte[9](_ => 0);
      assert aux[..] == Zeros(9);
      Slait(fcli, aux, 4);
      code := Atoi(aux[..]);
      if code < 0 {
        return -1, [];
      }
      Further(s, 4, code);
      bytes := fcli.bytes[..code];
      fcli.bytes := fcli.bytes[code..];
    }

    /** The second half of tfs_write, after writing `len` bytes: as many bytes into the cleared message buffer. */
    method ReceiveWriteReply(len: nat) returns (written: int)
      requires Wire.ReceiveWrite(len, fcli.bytes).Some?
      modifies fcli
      ensures Wire.ReceiveWrite(len, old(fcli.bytes)) == Some((written, fcli.bytes))
    {
      var buffer := new byte[14 + len](_ => 0);
      assert buffer[..] == Zeros(14 + len);
      Slait(fcli, buffer, len);
      written := Atoi(buffer[..]);
      if written < 0 {
        return -1;
      }
    }
  }

  /** `slait`: the next `n` bytes of the pipe into the front of the buffer. */
  method Slait(pipe: Pipe, buffer: array<byte>, n: nat)
    requires n <= |pipe.bytes| && n <= buffer.Length
    modifies pipe, buffer
    ensures pipe.bytes == old(pipe.bytes)[n..]
    ensures buffer[..] == Into(old(buffer[..]), old(pipe.bytes)[..n])
  {
    Copy(buffer, 0, pipe.bytes[..n]);
    pipe.bytes := pipe.bytes[n..];
    assert buffer[..] == buffer[..n] + buffer[n..];
    assert old(buffer[..])[n..] == old(buffer[n..]);
  }

  /** The reading half of the dispatcher: every handler up to the point where it posts its request. */
  class Dispatcher {
    const fserv: Pipe

    constructor (pipe: Pipe)
      ensures fserv == pipe
    {
      fserv := pipe;
    }

    method HandleMount() returns (got: Got)
      requires |fserv.bytes| >= NAME_SIZE
      modifies fserv
      ensures got == GotMount(CutAtNul(old(fserv.bytes)[..NAME_SIZE])) && fserv.bytes == old(fserv.bytes)[NAME_SIZE..]
    {
      var name := new byte[NAME_SIZE](_ => 0);
      Slait(fserv, name, NAME_SIZE);
      got := GotMount(CutAtNul(name[..]));
      assert name[..] == old(fserv.bytes)[..NAME_SIZE];
    }

    /** tfs_handle_unmount and tfs_handle_shutdown_after_all_close read a session number. */
    method ReadSession() returns (sid: int)
      requires |fserv.bytes| >= 4
      modifies fserv
      ensures sid == FieldAt(old(fserv.bytes), 0, Zeros(SIZE)) && fserv.bytes == old(fserv.bytes)[4..]
    {
      var buffer := new byte[SIZE](_ => 0);
      assert buffer[..] == Zeros(SIZE);
      Slait(fserv, buffer, 4);
      assert old(fserv.bytes)[..4] == old(fserv.bytes)[0..4];
      sid := Atoi(buffer[..]);
    }

    method HandleOpen() returns (got: Got)
      requires |fserv.bytes| >= 45
      modifies fserv
      ensures got == DecodeOpen(old(fserv.bytes)[..45]) && fserv.bytes == old(fserv.bytes)[45..]
    {
      var buffer := new byte[SIZE](_ => 0);
      assert buffer[..] == Zeros(SIZE);
      Slait(fserv, buffer, 45);
      var len := 4;
      var sid := IntAt(buffer[..], 0);
      var name := buffer[len..len + NAME_SIZE];
      len := len + NAME_SIZE;
      var flags := IntAt(buffer[..], len);
      assert buffer[..][4..44] == name;
      got := GotOpen(sid, CutAtNul(Into(Zeros(SIZE), name)), flags);
    }

    method HandleClose() returns (got: Got, ghost junk: seq<byte>)
      requires |fserv.bytes| >= 8
      modifies fserv
      ensures |junk| == SIZE && fserv.bytes == old(fserv.bytes)[8..]
      ensures var s := old(fserv.bytes);
              var sid, h := FieldAt(s, 0, junk), FieldAt(s, 4, After(s, 0, junk));
              got == if h == -1 then GotRefused(sid) else GotClose(sid, h)
    {
      ghost var s := fserv.bytes;
      var buffer := new byte[SIZE];
      junk := buffer[..];
      Slait(fserv, buffer, 4);
      assert s[..4] == s[0..4];
      var sid := Atoi(buffer[..]);
      Slait(fserv, buffer, 4);
      Further(s, 4, 4);
      var h := Atoi(buffer[..]);
      got := if h == -1 then GotRefused(sid) else GotClose(sid, h);
    }

    method HandleWrite() returns (got: Got, ghost junk: seq<byte>)
      requires |fserv.bytes| >= 8 && forall j :: |j| == SIZE ==> DecodeWrite(fserv.bytes, j).Some?
      modifies fserv
      ensures |junk| == SIZE && DecodeWrite(old(fserv.bytes), junk) == Some((got, fserv.bytes))
    {
      ghost var s := fserv.bytes;
      var buffer := new byte[SIZE];
      junk := buffer[..];
      assert DecodeWrite(s, junk).Some?;
      Slait(fserv, buffer, 4);
      assert s[..4] == s[0..4];
      var sid := Atoi(buffer[..]);
      Slait(fserv, buffer, 4);
      Further(s, 4, 4);
      var h := Atoi(buffer[..]);
      if h == -1 {
        return GotRefused(sid), junk;
      }
      Slait(fserv, buffer, 4);
      Further(s, 8, 4);
      var len := Atoi(buffer[..]);
      Copy(buffer, 0, Zeros(len));
      Slait(fserv, buffer, len);
      Further(s, 12, len);
      assert buffer[..len] == s[12..12 + len];
      got := GotWrite(sid, h, buffer[..len]);
    }

    method HandleRead() returns (got: Got)
      requires |fserv.bytes| >= 8 && DecodeRead(fserv.bytes).Some?
      modifies fserv
      ensures DecodeRead(old(fserv.bytes)) == Some((got, fserv.bytes))
    {
      ghost var s := fserv.bytes;
      var buffer := new byte[SIZE](_ => 0);
      assert buffer[..] == Zeros(SIZE);
      Slait(fserv, buffer, 4);
      assert s[..4] == s[0..4];
      var sid := Atoi(buffer[..]);
      Slait(fserv, buffer, 4);
      Further(s, 4, 4);
      var h := Atoi(buffer[..]);
      if h == -1 {
        return GotRefused(sid);
      }
      Slait(fserv, buffer, 4);
      Further(s, 8, 4);
      var len := Atoi(buffer[..]);
      got := GotRead(sid, h, len);
    }

    /** One turn of the dispatch loop. */
    method Turn() returns (got: Got, ghost junk: seq<byte>)
      requires forall j :: |j| == SIZE ==> Decode(fserv.bytes, j).Some?
      modifies fserv
      ensures |junk| == SIZE && Decode(old(fserv.bytes), junk) == Some((got, fserv.bytes))
    {
      ghost var stream := fserv.bytes;
      junk := Zeros(SIZE);
      assert Decode(stream, junk).Some?;
      var buffer := new byte[SIZE](_ => 0);
      assert buffer[..] == Zeros(SIZE);
      Slait(fserv, buffer, 1);
      var command := Atoi(buffer[..]);
      if command == 1 {
        got := HandleMount();
      } else if command == 2 {
        var sid := ReadSession();
        got := GotUnmount(sid);
      } else if command == 3 {
        got := HandleOpen();
      } else if command == 4 {
        got, junk := HandleClose();
      } else if command == 5 {
        forall j | |j| == SIZE ensures DecodeWrite(fserv.bytes, j).Some? { assert Decode(stream, j).Some?; }
        got, junk := HandleWrite();
      } else if command == 6 {
        got := HandleRead();
      } else {
        var sid := ReadSession();
        got := GotShutdown(sid);
      }
    }

    /** The dispatch loop over a stream of messages: each is understood as it was meant, and all bytes are consumed. */
    method Serve(ghost ms: seq<Sent>) returns (gots: seq<Got>)
      requires AllInStep(ms) && fserv.bytes == EncodeAll(ms)
      modifies fserv
      ensures gots == Meanings(ms) && fserv.bytes == []
    {
      gots := [];
      ghost var left := ms;
      assert gots + Meanings(left) == Meanings(ms);
      while fserv.bytes != []
        invariant AllInStep(left) && fserv.bytes == EncodeAll(left)
        invariant gots + Meanings(left) == Meanings(ms)
        decreases |left|
      {
        forall j | |j| == SIZE ensures Decode(fserv.bytes, j) == Some((Meaning(left[0]), EncodeAll(left[1..]))) {
          DecodeInvertsEncodeExactly(left[0], EncodeAll(left[1..]), j);
        }
        var got, junk := Turn();
        assert gots + Meanings(left) == gots + [got] + Meanings(left[1..]);
        gots := gots + [got];
        left := left[1..];
      }
      OnlyNothingIsEmpty(left);
      assert gots + [] == gots;
    }
  }
}
