/** Messages of the virtual network on a byte stream: four bytes of length, low byte first, then the data. */
module VnetFraming {
  newtype byte = x: int | 0 <= x < 256

  const MAX_MESSAGE_SIZE := 1048576
  const WORD := 0x1_0000_0000

  datatype IoError = EOF | UnexpectedEOF

  datatype Error =
    | LengthError(e: IoError)
    | ZeroLength
    | TooLarge
    | DataError(e: IoError)
    | WriteFailed

  /** A message or an error, and in both cases what is left of the stream. */
  datatype Read = Message(data: seq<byte>, rest: seq<byte>) | Failed(error: Error, rest: seq<byte>)

  datatype Written = Bytes(s: seq<byte>) | Refused(error: Error)

  function LittleEndian(n: nat): (b: seq<byte>)
    requires n < WORD
    ensures |b| == 4
  {
    [(n % 256) as byte, (n / 256 % 256) as byte, (n / 65536 % 256) as byte, (n / 16777216) as byte]
  }

  function Decode(b: seq<byte>): nat
    requires |b| == 4
  {
    b[0] as nat + 256 * (b[1] as nat) + 65536 * (b[2] as nat) + 16777216 * (b[3] as nat)
  }

  function Frame(data: seq<byte>): seq<byte> {
    LittleEndian(|data| % WORD) + data
  }

  predicate Sendable(data: seq<byte>) {
    1 <= |data| <= MAX_MESSAGE_SIZE
  }

  /** WriteMessage; the length is cut to 32 bits before it is looked at. */
  function WriteSpec(data: seq<byte>): Written {
    var length := |data| % WORD;
    if length == 0 then Refused(ZeroLength)
    else if length > MAX_MESSAGE_SIZE then Refused(TooLarge)
    else Bytes(Frame(data))
  }

  /** How io.ReadFull fails on a stream that ends too early. */
  function Short(available: nat): IoError {
    if available == 0 then EOF else UnexpectedEOF
  }

  /** ReadMessage from a stream that holds s and then ends. */
  function ReadSpec(s: seq<byte>): Read {
    if |s| < 4 then Failed(LengthError(Short(|s|)), [])
    else
      var length := Decode(s[..4]);
      if length == 0 then Failed(ZeroLength, s[4..])
      else if length > MAX_MESSAGE_SIZE then Failed(TooLarge, s[4..])
      else if |s| - 4 < length then Failed(DataError(Short(|s| - 4)), [])
      else Message(s[4..4 + length], s[4 + length..])
  }

  // ---- one message ----

  lemma DecodeLittleEndian(n: nat)
    requires n < WORD
    ensures Decode(LittleEndian(n)) == n
  {
    assert n == n % 256 + 256 * (n / 256);
    assert n / 256 == n / 256 % 256 + 256 * (n / 256 / 256);
    assert n / 256 / 256 == n / 65536;
    assert n / 65536 == n / 65536 % 256 + 256 * (n / 65536 / 256);
    assert n / 65536 / 256 == n / 16777216;
  }

  lemma DecodeBounds(b: seq<byte>)
    requires |b| == 4
    ensures Decode(b) < WORD && LittleEndian(Decode(b)) == b
  {
    var n := Decode(b);
    var high := b[1] as nat + 256 * (b[2] as nat) + 65536 * (b[3] as nat);
    assert n == b[0] as nat + 256 * high && n / 256 == high && n % 256 == b[0] as nat;
    var higher := b[2] as nat + 256 * (b[3] as nat);
    assert high == b[1] as nat + 256 * higher && high / 256 == higher;
    assert n / 65536 == higher && n / 16777216 == b[3] as nat;
  }

  lemma FrameIsRead(data: seq<byte>, rest: seq<byte>)
    requires Sendable(data)
    ensures ReadSpec(Frame(data) + rest) == Message(data, rest)
  {
    var s, header := Frame(data) + rest, LittleEndian(|data|);
    DecodeLittleEndian(|data|);
    assert |data| % WORD == |data|;
    assert s[..4] == header && s[4..4 + |data|] == data && s[4 + |data|..] == rest;
  }

  lemma ReadIsFrame(s: seq<byte>)
    requires ReadSpec(s).Message?
    ensures Sendable(ReadSpec(s).data) && s == Frame(ReadSpec(s).data) + ReadSpec(s).rest
  {
    var data, rest := ReadSpec(s).data, ReadSpec(s).rest;
    DecodeBounds(s[..4]);
    assert |data| % WORD == |data| == Decode(s[..4]);
    assert s == s[..4] + data + rest;
  }

  /** A message is read exactly off the front of a stream that starts with its frame. */
  lemma ReadsExactlyFrames(s: seq<byte>, data: seq<byte>, rest: seq<byte>)
    ensures ReadSpec(s) == Message(data, rest) <==> Sendable(data) && s == Frame(data) + rest
  {
    if Sendable(data) {
      FrameIsRead(data, rest);
    }
    if ReadSpec(s).Message? {
      ReadIsFrame(s);
    }
  }

  /** What is accepted: exactly what has 1 to 1048576 bytes, counted modulo 2^32; and what is refused is refused for that. */
  lemma AcceptsExactly(data: seq<byte>)
    ensures WriteSpec(data).Bytes? <==> 1 <= |data| % 0x1_0000_0000 <= 1048576
    ensures WriteSpec(data) == Refused(ZeroLength) <==> |data| % 0x1_0000_0000 == 0
    ensures Sendable(data) ==> WriteSpec(data) == Bytes(Frame(data))
  {
    assert |data| < WORD ==> |data| % WORD == |data|;
  }

  /** What was accepted for writing is read back unless it is 4 GiB or longer. */
  lemma RoundTrip(data: seq<byte>, rest: seq<byte>)
    requires WriteSpec(data).Bytes?
    ensures ReadSpec(WriteSpec(data).s + rest) == Message(data, rest) <==> |data| < WORD
  {
    ReadsExactlyFrames(Frame(data) + rest, data, rest);
  }

  /** A longer one comes back as its first bytes, and the rest is taken for the next message. */
  lemma LongMessageIsCut(data: seq<byte>, rest: seq<byte>)
    requires WriteSpec(data).Bytes? && |data| >= WORD
    ensures var n := |data| % WORD;
            ReadSpec(WriteSpec(data).s + rest) == Message(data[..n], data[n..] + rest)
  {
    var n := |data| % WORD;
    var first, more := data[..n], data[n..] + rest;
    assert n % WORD == n;
    FrameIsRead(first, more);
    assert LittleEndian(n) + data + rest == LittleEndian(n) + first + more;
  }

  // ---- a stream of messages ----

  function Stream(msgs: seq<seq<byte>>): seq<byte> {
    if msgs == [] then [] else Frame(msgs[0]) + Stream(msgs[1..])
  }

  /** Reading until the first error. */
  function ReadAll(s: seq<byte>): (seq<seq<byte>>, Error)
    decreases |s|
  {
    match ReadSpec(s)
    case Failed(e, _) => ([], e)
    case Message(data, rest) =>
      var r := ReadAll(rest);
      ([data] + r.0, r.1)
  }

  predicate AllSendable(msgs: seq<seq<byte>>) {
    forall i | 0 <= i < |msgs| :: Sendable(msgs[i])
  }

  /** The messages whose frames lie entirely within the first k bytes. */
  function Complete(msgs: seq<seq<byte>>, k: nat): nat {
    if msgs == [] || k < 4 + |msgs[0]| then 0 else 1 + Complete(msgs[1..], k - 4 - |msgs[0]|)
  }

  lemma {:induction false} CutFrame(data: seq<byte>, rest: seq<byte>, k: nat)
    requires Sendable(data) && k < 4 + |data|
    ensures k <= |Frame(data) + rest|
    ensures ReadSpec((Frame(data) + rest)[..k]) ==
            Failed(if k < 4 then LengthError(Short(k)) else DataError(Short(k - 4)), [])
  {
    var s := (Frame(data) + rest)[..k];
    if k >= 4 {
      DecodeLittleEndian(|data|);
      assert s[..4] == LittleEndian(|data|);
    }
  }

  /** Reading goes on behind a complete frame. */
  lemma PastFrame(first: seq<byte>, tail: seq<byte>, k: nat)
    requires Sendable(first) && 4 + |first| <= k <= |Frame(first) + tail|
    ensures k - 4 - |first| <= |tail|
    ensures var r := ReadAll(tail[..k - 4 - |first|]);
            ReadAll((Frame(first) + tail)[..k]) == ([first] + r.0, r.1)
  {
    var rest := tail[..k - 4 - |first|];
    FrameIsRead(first, rest);
    assert (Frame(first) + tail)[..k] == Frame(first) + rest;
  }

  /** What is left to be shown of a cut stream: its complete messages, then an end that is clean between frames only. */
  predicate CutWell(msgs: seq<seq<byte>>, k: nat, r: (seq<seq<byte>>, Error)) {
    var n := Complete(msgs, k);
    && n <= |msgs| && r.0 == msgs[..n]
    && (r.1.LengthError? || r.1.DataError?)
    && (r.1 == LengthError(EOF) <==> k == |Stream(msgs[..n])|)
  }

  lemma {:induction false} CutWellGrows(first: seq<byte>, tail: seq<seq<byte>>, k: nat, r: (seq<seq<byte>>, Error))
    requires CutWell(tail, k, r)
    ensures CutWell([first] + tail, k + 4 + |first|, ([first] + r.0, r.1))
  {
    var msgs, n := [first] + tail, Complete(tail, k);
    assert msgs[0] == first && msgs[1..] == tail;
    assert Complete(msgs, k + 4 + |first|) == n + 1;
    assert msgs[..n + 1] == [first] + tail[..n];
    assert msgs[..n + 1][1..] == tail[..n];
    assert |Stream(msgs[..n + 1])| == 4 + |first| + |Stream(tail[..n])|;
  }

  /** However a stream of messages is cut off, the complete ones are read, in order, and then an error: never another message. */
  lemma {:induction false} CutStream(msgs: seq<seq<byte>>, k: nat)
    requires AllSendable(msgs) && k <= |Stream(msgs)|
    ensures CutWell(msgs, k, ReadAll(Stream(msgs)[..k]))
    decreases |msgs|
  {
    if msgs == [] {
      assert Stream(msgs)[..k] == [] && msgs[..0] == [];
    } else {
      var first, tail := msgs[0], msgs[1..];
      if k < 4 + |first| {
        CutFrame(first, Stream(tail), k);
        assert msgs[..0] == [];
      } else {
        PastFrame(first, Stream(tail), k);
        CutStream(tail, k - 4 - |first|);
        CutWellGrows(first, tail, k - 4 - |first|, ReadAll(Stream(tail)[..k - 4 - |first|]));
        assert msgs == [first] + tail;
      }
    }
  }

  lemma {:induction false} AllComplete(msgs: seq<seq<byte>>)
    requires AllSendable(msgs)
    ensures Complete(msgs, |Stream(msgs)|) == |msgs|
    decreases |msgs|
  {
    if msgs != [] {
      AllComplete(msgs[1..]);
    }
  }

  /** Messages written back to back are read as they were written, and then the stream ends cleanly. */
  lemma StreamRoundTrip(msgs: seq<seq<byte>>)
    requires AllSendable(msgs)
    ensures ReadAll(Stream(msgs)) == (msgs, LengthError(EOF))
  {
    var s := Stream(msgs);
    AllComplete(msgs);
    CutStream(msgs, |s|);
    assert s[..|s|] == s && msgs[..|msgs|] == msgs;
  }

  // ---- reader and writer ----

  datatype Failure = Fine | Broken(error: Error)

  class Reader {
    var pending: seq<byte>

    constructor (s: seq<byte>)
      ensures pending == s
    {
      pending := s;
    }

    /** One read gives some of what is asked for, at least a byte unless the stream has ended. */
    method Read(buf: array<byte>, from: nat) returns (n: nat)
      requires from < buf.Length
      modifies this, buf
      ensures n <= |old(pending)| && from + n <= buf.Length && (n == 0 <==> old(pending) == [])
      ensures buf[..from + n] == old(buf[..from]) + old(pending)[..n] && pending == old(pending)[n..]
    {
      if pending == [] {
        assert buf[..from] == buf[..from] + [];
        return 0;
      }
      var most := if |pending| < buf.Length - from then |pending| else buf.Length - from;
      n :| 1 <= n <= most;
      forall i | 0 <= i < n {
        buf[from + i] := pending[i];
      }
      pending := pending[n..];
    }

    /** io.ReadFull: read until the buffer is full or the stream ends. */
    method ReadFull(buf: array<byte>) returns (n: nat)
      modifies this, buf
      ensures n == if |old(pending)| < buf.Length then |old(pending)| else buf.Length
      ensures buf[..n] == old(pending)[..n] && pending == old(pending)[n..]
    {
      n := 0;
      while n < buf.Length
        invariant n <= buf.Length && n <= |old(pending)|
        invariant buf[..n] == old(pending)[..n] && pending == old(pending)[n..]
        decreases buf.Length - n
      {
        var k := Read(buf, n);
        if k == 0 {
          return;
        }
        n := n + k;
      }
    }

    method ReadMessage() returns (data: seq<byte>, failure: Failure)
      modifies this
      ensures match ReadSpec(old(pending))
              case Message(d, rest) => failure == Fine && data == d && pending == rest
              case Failed(e, rest) => failure == Broken(e) && data == [] && pending == rest
    {
      data := [];
      var header := new byte[4];
      var n := ReadFull(header);
      if n < 4 {
        return [], Broken(LengthError(Short(n)));
      }
      assert header[..] == header[..4] == old(pending)[..4];
      var length := Decode(header[..]);
      if length == 0 {
        return [], Broken(ZeroLength);
      }
      if length > MAX_MESSAGE_SIZE {
        return [], Broken(TooLarge);
      }
      var buf := new byte[length];
      n := ReadFull(buf);
      if n < length {
        return [], Broken(DataError(Short(n)));
      }
      assert buf[..] == buf[..length];
      return buf[..], Fine;
    }
  }

  class Writer {
    var sent: seq<byte>

    constructor ()
      ensures sent == []
    {
      sent := [];
    }

    /** A write that fails may have sent part of its bytes. */
    method Write(s: seq<byte>, fails: bool, partly: nat) returns (ok: bool)
      modifies this
      ensures ok == !fails && old(sent) <= sent <= old(sent) + s && (ok ==> sent == old(sent) + s)
    {
      if fails {
        sent := sent + s[..if partly < |s| then partly else |s|];
        return false;
      }
      sent := sent + s;
      return true;
    }

    method WriteMessage(data: seq<byte>, lengthFails: bool, dataFails: bool, partly: nat) returns (failure: Failure)
      modifies this
      ensures match WriteSpec(data)
              case Refused(e) => failure == Broken(e) && sent == old(sent)
              case Bytes(s) =>
                && (failure == Fine <==> !lengthFails && !dataFails) && (failure == Fine || failure == Broken(WriteFailed))
                && old(sent) <= sent <= old(sent) + s && (failure == Fine ==> sent == old(sent) + s)
    {
      var length := |data| % WORD;
      if length == 0 {
        return Broken(ZeroLength);
      }
      if length > MAX_MESSAGE_SIZE {
        return Broken(TooLarge);
      }
      var header := LittleEndian(length);
      assert old(sent) + (header + data) == old(sent) + header + data;
      var ok := Write(header, lengthFails, partly);
      if !ok {
        return Broken(WriteFailed);
      }
      ok := Write(data, dataFails, partly);
      if !ok {
        return Broken(WriteFailed);
      }
      return Fine;
    }
  }
}
