/** The length-prefixed frames of node/transport/tcp/tcp.go over a byte stream. */
module Framing {
  import opened Messages
  import opened Bytes
  import opened Codec
  import opened Wrappers

  const PREFIX := 4

  const MAX_FRAME := 65536

  function Frame(data: Bytes): Bytes {
    Le(|data| % U32_LIMIT, PREFIX) + data
  }

  /** What one read yields, and the bytes it leaves. A short stream is used up. */
  datatype Read = Read(result: Result<Message, Error>, rest: Bytes)

  function ReadOne(stream: Bytes, unzip: Unzip): Read {
    if |stream| < PREFIX then Read(Err(Eof), [])
    else
      var n := Num(stream[..PREFIX]);
      var rest := stream[PREFIX..];
      if n == 0 || n > MAX_FRAME then Read(Err(BadFrameLength(n)), rest)
      else if |rest| < n then Read(Err(Eof), [])
      else Read(Decoded(rest[..n], unzip), rest[n..])
  }

  /** The read loop: one frame after the other until a read fails. */
  datatype ReadAll = ReadAll(messages: seq<Message>, error: Error, rest: Bytes)

  function ReadEvery(stream: Bytes, unzip: Unzip): ReadAll
    decreases |stream|
  {
    var one := ReadOne(stream, unzip);
    match one.result
    case Err(error) => ReadAll([], error, one.rest)
    case Ok(m) =>
      var more := ReadEvery(one.rest, unzip);
      more.(messages := [m] + more.messages)
  }

  function Frames(ms: seq<Message>, zip: Zip): Bytes {
    if ms == [] then [] else Frame(Encoded(ms[0], zip)) + Frames(ms[1..], zip)
  }

  ghost predicate Sendable(m: Message, zip: Zip) {
    |m.payload| < U32_LIMIT && |Encoded(m, zip)| <= MAX_FRAME
  }

  // ---------- One frame ----------

  lemma FramePrefix(data: Bytes, rest: Bytes)
    requires |data| < U32_LIMIT
    ensures |Frame(data)| == PREFIX + |data|
    ensures (Frame(data) + rest)[..PREFIX] == Le(|data|, PREFIX) && Num(Le(|data|, PREFIX)) == |data|
    ensures (Frame(data) + rest)[PREFIX..] == data + rest
  {
    hide Le, Num, Pow256;
    Widths();
    NumOfLe(|data|, PREFIX);
    Splits(Le(|data|, PREFIX), data, rest, Frame(data));
  }

  /** Four bytes of length, least significant first, and then the data. */
  lemma FrameBytes(data: Bytes)
    ensures |Frame(data)| == 4 + |data| && Frame(data)[4..] == data
    ensures forall k :: 0 <= k < 4 ==> Frame(data)[k] == |data| % 0x1_0000_0000 / Pow256(k) % 256
  {
    hide Le, Pow256;
    forall k | 0 <= k < 4 ensures Frame(data)[k] == |data| % 0x1_0000_0000 / Pow256(k) % 256 {
      LeByte(|data| % U32_LIMIT, PREFIX, k);
    }
  }

  /** makeFrame checks no length; the reader takes a frame's data exactly when it is 1 to 65536 bytes long. */
  lemma FrameRead(data: Bytes, rest: Bytes, unzip: Unzip)
    requires |data| < U32_LIMIT
    ensures ReadOne(Frame(data) + rest, unzip) ==
              if 1 <= |data| <= 65536 then Read(Decoded(data, unzip), rest)
              else Read(Err(BadFrameLength(|data|)), data + rest)
  {
    hide Decoded, Frame, Num, Le;
    FramePrefix(data, rest);
    assert (data + rest)[..|data|] == data && (data + rest)[|data|..] == rest;
  }

  lemma SentFrame(m: Message, rest: Bytes, zip: Zip, unzip: Unzip)
    requires Inverse(zip, unzip) && Sendable(m, zip)
    ensures ReadOne(Frame(Encoded(m, zip)) + rest, unzip) == Read(Ok(m), rest)
  {
    hide Encoded, Decoded, Frame, Inverse;
    EncodedSize(m, zip);
    RoundTrip(m, zip, unzip);
    FrameRead(Encoded(m, zip), rest, unzip);
  }

  // ---------- Streams of frames ----------

  /** Reading the concatenated frames yields exactly the messages sent, in order, and uses up every byte;
      the read that ends the loop finds the stream empty. */
  lemma {:induction false} StreamRoundTrip(ms: seq<Message>, zip: Zip, unzip: Unzip)
    requires Inverse(zip, unzip) && forall m :: m in ms ==> Sendable(m, zip)
    ensures ReadEvery(Frames(ms, zip), unzip) == ReadAll(ms, Eof, [])
  {
    hide Sendable, Frame, Encoded, Inverse;
    if ms != [] {
      SentFrame(ms[0], Frames(ms[1..], zip), zip, unzip);
      StreamRoundTrip(ms[1..], zip, unzip);
      hide ReadOne;
      assert ms == [ms[0]] + ms[1..];
    }
  }

  /** No two lists of messages make the same stream. */
  lemma UniquelyDecodable(ms: seq<Message>, ns: seq<Message>, zip: Zip, unzip: Unzip)
    requires Inverse(zip, unzip) && (forall m :: m in ms || m in ns ==> Sendable(m, zip))
    requires Frames(ms, zip) == Frames(ns, zip)
    ensures ms == ns
  {
    hide Sendable, Frames, Inverse, ReadEvery;
    StreamRoundTrip(ms, zip, unzip);
    StreamRoundTrip(ns, zip, unzip);
  }

  /** A connection cut anywhere delivers the first of the messages, whole, and nothing else. */
  lemma {:induction false} CutStream(ms: seq<Message>, zip: Zip, unzip: Unzip, k: nat)
    requires Inverse(zip, unzip) && (forall m :: m in ms ==> Sendable(m, zip)) && k <= |Frames(ms, zip)|
    ensures var r := ReadEvery(Frames(ms, zip)[..k], unzip);
            r.messages <= ms && r.error == Eof && r.rest == []
  {
    hide Sendable, Encoded, Inverse, Decoded, Frame;
    if ms != [] {
      var first := Frame(Encoded(ms[0], zip));
      var later := Frames(ms[1..], zip);
      var stream := Frames(ms, zip)[..k];
      if k < |first| {
        assert stream == first[..k];
        CutFrame(ms[0], k, zip, unzip);
      } else {
        assert stream == first + later[..k - |first|];
        SentFrame(ms[0], later[..k - |first|], zip, unzip);
        hide ReadOne;
        CutStream(ms[1..], zip, unzip, k - |first|);
        assert ms == [ms[0]] + ms[1..];
      }
    }
  }

  lemma CutFrame(m: Message, k: nat, zip: Zip, unzip: Unzip)
    requires Sendable(m, zip) && k < |Frame(Encoded(m, zip))|
    ensures ReadOne(Frame(Encoded(m, zip))[..k], unzip) == Read(Err(Eof), [])
  {
    hide Encoded, Decoded, Frame, Num, Le;
    var data := Encoded(m, zip);
    EncodedSize(m, zip);
    FramePrefix(data, []);
    assert Frame(data) + [] == Frame(data);
    if k >= PREFIX {
      assert Frame(data)[..k][..PREFIX] == Frame(data)[..PREFIX];
    }
  }

  // ---------- The code ----------

  method MakeFrame(data: Bytes) returns (frame: Bytes)
    ensures frame == Frame(data)
  {
    var buf := new u8[PREFIX + |data|];
    PutUint(buf, 0, |data| % U32_LIMIT, PREFIX);
    assert buf[..PREFIX] == buf[..0 + PREFIX];
    CopyInto(buf, PREFIX, data);
    frame := buf[..];
  }

  /** The receiving end of a connection. */
  class Conn {
    var incoming: Bytes

    constructor (incoming: Bytes)
      ensures this.incoming == incoming
    {
      this.incoming := incoming;
    }

    /** io.ReadFull: `n` bytes, or an error with the stream used up. */
    method ReadFull(n: nat) returns (r: Result<Bytes, Error>)
      modifies this
      ensures if n <= |old(incoming)| then r == Ok(old(incoming)[..n]) && incoming == old(incoming)[n..]
              else r == Err(Eof) && incoming == []
    {
      if n <= |incoming| {
        r := Ok(incoming[..n]);
        incoming := incoming[n..];
      } else {
        r := Err(Eof);
        incoming := [];
      }
    }

    method ReadFrame(unzip: Unzip) returns (r: Result<Message, Error>)
      modifies this
      ensures Read(r, incoming) == ReadOne(old(incoming), unzip)
    {
      hide Decoded;
      var lenBuf := ReadFull(PREFIX);
      if lenBuf.Err? {
        return Err(lenBuf.error);
      }
      var frameLen := Uint(lenBuf.value, 0, PREFIX);
      assert lenBuf.value[0..0 + PREFIX] == old(incoming)[..PREFIX];
      if frameLen == 0 || frameLen > MAX_FRAME {
        return Err(BadFrameLength(frameLen));
      }
      var buf := ReadFull(frameLen);
      if buf.Err? {
        return Err(buf.error);
      }
      r := Decode(buf.value, unzip);
    }
  }
}
