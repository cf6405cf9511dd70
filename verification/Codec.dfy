/**
 The wire format of node/transport/codec/codec.go. Compression is a pair of functions of which only
 this is assumed: decompressing a compressed value gives it back.
 */
module Codec {
  import opened Messages
  import opened Bytes
  import opened Wrappers

  const HEADER := 33

  const WIDTHS: seq<nat> := [1, 2, 2, 4, 8, 8, 1, 2, 1, 4]

  const COMPRESS_THRESHOLD := 256

  const U64_LIMIT := 0x1_0000_0000_0000_0000

  datatype Error =
    | Empty
    | TooShort(got: nat)
    | Truncated(declared: nat, available: int)
    | BadZip
    | Eof
    | BadFrameLength(length: nat)

  // int64 as uint64 and back: two's complement.
  function ToU64(n: i64): u64 {
    if n < 0 then n + U64_LIMIT else n
  }

  function ToI64(n: u64): i64 {
    if n >= U64_LIMIT / 2 then n - U64_LIMIT else n
  }

  function Fields(m: Message, length: u32): seq<nat> {
    [m.kind, m.from, m.to, m.num, ToU64(m.timestamp), ToU64(m.dataTime), m.streamId, m.ttl, m.priority, length]
  }

  /** The payload as far as its uint32 length reaches. */
  function Carried(payload: Bytes): Bytes {
    payload[..|payload| % U32_LIMIT]
  }

  function Raw(m: Message): Bytes {
    Put(Fields(m, |m.payload| % U32_LIMIT), WIDTHS) + Carried(m.payload)
  }

  lemma WidthsSum()
    ensures Sum(WIDTHS) == HEADER
    ensures Sum(WIDTHS[..1]) == 1 && Sum(WIDTHS[..2]) == 3 && Sum(WIDTHS[..3]) == 5 && Sum(WIDTHS[..4]) == 9
    ensures Sum(WIDTHS[..5]) == 17 && Sum(WIDTHS[..6]) == 25 && Sum(WIDTHS[..7]) == 26 && Sum(WIDTHS[..8]) == 28
    ensures Sum(WIDTHS[..9]) == 29
  {
    hide Sum;
    SumOfNone(WIDTHS);
    SumSnoc(WIDTHS, 0);
    SumSnoc(WIDTHS, 1);
    SumSnoc(WIDTHS, 2);
    SumSnoc(WIDTHS, 3);
    SumSnoc(WIDTHS, 4);
    SumSnoc(WIDTHS, 5);
    SumSnoc(WIDTHS, 6);
    SumSnoc(WIDTHS, 7);
    SumSnoc(WIDTHS, 8);
    SumSnoc(WIDTHS, 9);
    assert WIDTHS[..10] == WIDTHS && WIDTHS[..0] == [];
  }

  lemma {:induction false} SumSnoc(widths: seq<nat>, k: nat)
    requires k < |widths|
    ensures Sum(widths[..k + 1]) == Sum(widths[..k]) + widths[k]
  {
    if k > 0 {
      SumSnoc(widths[1..], k - 1);
      assert widths[..k + 1][1..] == widths[1..][..k] && widths[..k][1..] == widths[1..][..k - 1];
    }
  }

  function Declared(data: Bytes): nat
    requires |data| >= HEADER
  {
    Num(data[29..33])
  }

  function OfFields(f: seq<nat>, payload: Bytes): Message
    requires Fits(f, WIDTHS)
  {
    Widths();
    Message(f[0], f[1], f[2], f[3], ToI64(f[4]), ToI64(f[5]), f[6], f[7], f[8], payload)
  }

  function Parse(data: Bytes): Result<Message, Error> {
    if |data| < HEADER then Err(TooShort(|data|))
    else
      WidthsSum();
      PutOfGet(data, WIDTHS);
      var length := Declared(data);
      if |data| - HEADER < length then Err(Truncated(length, |data| - HEADER))
      else Ok(OfFields(Get(data, WIDTHS), data[HEADER..HEADER + length]))
  }

  lemma FieldsFit(m: Message, length: u32)
    ensures Fits(Fields(m, length), WIDTHS)
  {
    Widths();
  }

  lemma FieldsBack(f: seq<nat>, payload: Bytes)
    requires Fits(f, WIDTHS) && f[9] == |payload| < U32_LIMIT
    ensures Fields(OfFields(f, payload), |payload|) == f
  {
    Widths();
  }

  lemma OfFieldsBack(m: Message, payload: Bytes, length: u32)
    ensures Fits(Fields(m, length), WIDTHS) && OfFields(Fields(m, length), payload) == m.(payload := payload)
  {
    FieldsFit(m, length);
  }

  lemma DeclaredIsLast(data: Bytes)
    requires |data| >= HEADER
    ensures Sum(WIDTHS) == HEADER && Get(data, WIDTHS)[9] == Declared(data)
  {
    WidthsSum();
    GetAt(data, WIDTHS, 9);
  }

  /** The reader's result in terms of the ten numbers of the header. */
  lemma ParseByFields(data: Bytes)
    requires |data| >= HEADER
    ensures Sum(WIDTHS) == HEADER && Fits(Get(data, WIDTHS), WIDTHS)
    ensures var f := Get(data, WIDTHS);
            Parse(data) == if |data| - HEADER < f[9] then Err(Truncated(f[9], |data| - HEADER))
                           else Ok(OfFields(f, data[HEADER..HEADER + f[9]]))
  {
    hide Put, Get, Num, Sum, Declared, OfFields, Fits;
    DeclaredIsLast(data);
    PutOfGet(data, WIDTHS);
  }

  lemma FieldBounds(f: seq<nat>)
    requires Fits(f, WIDTHS)
    ensures |f| == 10 && f[0] < 0x100 && f[1] < 0x1_0000 && f[2] < 0x1_0000 && f[3] < U32_LIMIT && f[4] < U64_LIMIT
    ensures f[5] < U64_LIMIT && f[6] < 0x100 && f[7] < 0x1_0000 && f[8] < 0x100 && f[9] < U32_LIMIT
  {
    Widths();
  }

  // ---------- Round trips of the raw form ----------

  /** What is read back is the message, with its payload cut where the uint32 length wraps; bytes that
      follow are ignored. */
  lemma ParseOfRaw(m: Message, rest: Bytes)
    ensures Parse(Raw(m) + rest) == Ok(m.(payload := Carried(m.payload)))
  {
    hide Put, Get, Num, Fields, OfFields, Sum, Fits, Declared;
    WidthsSum();
    var length, p := |m.payload| % U32_LIMIT, Carried(m.payload);
    var f := Fields(m, length);
    var data := Raw(m) + rest;
    OfFieldsBack(m, p, length);
    FieldsFit(m, length);
    GetOfPut(f, WIDTHS, p + rest);
    assert data == Put(f, WIDTHS) + (p + rest);
    DeclaredIsLast(data);
    LengthField(m, length);
    assert data[HEADER..HEADER + length] == p;
  }

  lemma LengthField(m: Message, length: u32)
    ensures |Fields(m, length)| == 10 && Fields(m, length)[9] == length
  {
  }

  /** The raw form is lossless exactly for payloads shorter than 2^32 bytes. */
  lemma RawRoundTrip(m: Message)
    ensures Parse(Raw(m)) == Ok(m) <==> |m.payload| < U32_LIMIT
  {
    hide Raw, Parse;
    ParseOfRaw(m, []);
    assert Raw(m) + [] == Raw(m);
    assert |m.payload| < U32_LIMIT ==> Carried(m.payload) == m.payload;
  }

  /** Printing what was read reproduces the bytes it was read from. */
  lemma RawReprints(data: Bytes)
    requires Parse(data).Ok?
    ensures var m := Parse(data).value;
            |m.payload| < U32_LIMIT && HEADER + |m.payload| <= |data| && Raw(m) == data[..HEADER + |m.payload|]
  {
    hide Parse, Put, Get, Num, Fields, OfFields, Sum, Fits, Pow256;
    ParseLength(data);
    ParseByFields(data);
    PutOfGet(data, WIDTHS);
    var f := Get(data, WIDTHS);
    FieldBounds(f);
    var payload := data[HEADER..HEADER + f[9]];
    FieldsBack(f, payload);
    PayloadOf(f, payload);
    assert data[..HEADER] + payload == data[..HEADER + f[9]];
    assert Carried(payload) == payload;
  }

  lemma ParseLength(data: Bytes)
    requires Parse(data).Ok?
    ensures |data| >= HEADER
  {
    hide Get, Put, OfFields;
  }

  lemma PayloadOf(f: seq<nat>, payload: Bytes)
    requires Fits(f, WIDTHS)
    ensures OfFields(f, payload).payload == payload
  {
  }

  ghost predicate BeginsWith(data: Bytes, m: Message) {
    |m.payload| < U32_LIMIT && Raw(m) <= data
  }

  /** What is accepted: exactly the bytes that begin with the raw form of some message. */
  lemma Accepts(data: Bytes)
    ensures Parse(data).Ok? <==> exists m :: BeginsWith(data, m)
    ensures Parse(data).Ok? <==> |data| >= HEADER && |data| - HEADER >= Declared(data)
    ensures |data| < HEADER ==> Parse(data) == Err(TooShort(|data|))
  {
    ParseCases(data);
    hide Raw, Parse, Declared;
    if Parse(data).Ok? {
      RawReprints(data);
      assert BeginsWith(data, Parse(data).value);
    }
    forall m | BeginsWith(data, m) ensures Parse(data).Ok? {
      ParseOfRaw(m, data[|Raw(m)|..]);
      assert Raw(m) + data[|Raw(m)|..] == data;
    }
  }

  lemma ParseCases(data: Bytes)
    ensures Parse(data).Ok? <==> |data| >= HEADER && |data| - HEADER >= Declared(data)
    ensures |data| < HEADER ==> Parse(data) == Err(TooShort(|data|))
  {
    hide Num, Get, OfFields;
  }

  // ---------- The bytes ----------

  /** `width` bytes from `off` on are the little-endian `v`. */
  ghost predicate FieldAt(raw: Bytes, off: nat, width: nat, v: nat) {
    off + width <= |raw| && forall k :: 0 <= k < width ==> raw[off + k] == v / Pow256(k) % 256
  }

  lemma FieldIs(m: Message, k: nat, off: nat, width: nat)
    requires k < |WIDTHS| && Sum(WIDTHS[..k]) == off && WIDTHS[k] == width
    ensures |Fields(m, |m.payload| % U32_LIMIT)| == |WIDTHS|
    ensures FieldAt(Raw(m), off, width, Fields(m, |m.payload| % U32_LIMIT)[k])
  {
    hide Put, Le, Sum, Pow256, Fields;
    FieldsFit(m, |m.payload| % U32_LIMIT);
    var f := Fields(m, |m.payload| % U32_LIMIT);
    SameSize(f, WIDTHS);
    PutAt(f, WIDTHS, k);
    forall j | 0 <= j < width ensures Raw(m)[off + j] == f[k] / Pow256(j) % 256 {
      LeByte(f[k], width, j);
      assert Put(f, WIDTHS)[off..off + width][j] == Le(f[k], width)[j];
    }
  }

  lemma TwosComplement(n: i64)
    ensures ToU64(n) == n % 0x1_0000_0000_0000_0000
  {
  }

  /** Where each field is, and how wide; the 64-bit times are in two's complement. */
  ghost predicate LaidOut(m: Message, raw: Bytes) {
    && FieldAt(raw, 0, 1, m.kind) && FieldAt(raw, 1, 2, m.from) && FieldAt(raw, 3, 2, m.to) && FieldAt(raw, 5, 4, m.num)
    && FieldAt(raw, 9, 8, m.timestamp % 0x1_0000_0000_0000_0000)
    && FieldAt(raw, 17, 8, m.dataTime % 0x1_0000_0000_0000_0000)
    && FieldAt(raw, 25, 1, m.streamId) && FieldAt(raw, 26, 2, m.ttl) && FieldAt(raw, 28, 1, m.priority)
    && FieldAt(raw, 29, 4, |m.payload| % 0x1_0000_0000)
    && |raw| >= 33 && raw[33..] == m.payload[..|m.payload| % 0x1_0000_0000]
  }

  lemma Layout(m: Message)
    ensures LaidOut(m, Raw(m))
  {
    hide Raw, FieldAt, Sum, ToU64;
    WidthsSum();
    SumOfNone(WIDTHS);
    TwosComplement(m.timestamp);
    TwosComplement(m.dataTime);
    FieldIs(m, 0, 0, 1);
    FieldIs(m, 1, 1, 2);
    FieldIs(m, 2, 3, 2);
    FieldIs(m, 3, 5, 4);
    FieldIs(m, 4, 9, 8);
    FieldIs(m, 5, 17, 8);
    FieldIs(m, 6, 25, 1);
    FieldIs(m, 7, 26, 2);
    FieldIs(m, 8, 28, 1);
    FieldIs(m, 9, 29, 4);
    PayloadBehind(m);
  }

  lemma PayloadBehind(m: Message)
    ensures |Raw(m)| >= 33 && Raw(m)[33..] == Carried(m.payload)
  {
    hide Put, Sum, Carried;
    WidthsSum();
  }

  // ---------- With the flag byte ----------

  type Zip = Bytes -> Option<Bytes>

  type Unzip = Bytes -> Option<Bytes>

  ghost predicate Inverse(zip: Zip, unzip: Unzip) {
    forall b :: zip(b).Some? ==> unzip(zip(b).value) == Some(b)
  }

  predicate Shrinks(m: Message, zip: Zip) {
    |m.payload| >= COMPRESS_THRESHOLD && zip(Raw(m)).Some? && |zip(Raw(m)).value| < |Raw(m)|
  }

  function Encoded(m: Message, zip: Zip): Bytes {
    if Shrinks(m, zip) then [1] + zip(Raw(m)).value else [0] + Raw(m)
  }

  function Decoded(data: Bytes, unzip: Unzip): Result<Message, Error> {
    if |data| < 1 then Err(Empty)
    else if data[0] != 1 then Parse(data[1..])
    else if unzip(data[1..]).None? then Err(BadZip)
    else Parse(unzip(data[1..]).value)
  }

  /** The compressed form is used, under flag 1, exactly for payloads of 256 bytes or more for which it is the
      shorter one; everything else goes as it is, under flag 0. */
  lemma CompressedWhen(m: Message, zip: Zip)
    ensures var raw, data := Raw(m), Encoded(m, zip);
            data == if |m.payload| >= 256 && zip(raw).Some? && |zip(raw).value| < |raw| then [1] + zip(raw).value
                    else [0] + raw
  {
    hide Raw;
  }

  /** What is not a message: nothing at all, what does not decompress, and what is too short either way. */
  lemma DecodedErrors(data: Bytes, unzip: Unzip)
    ensures Decoded([], unzip) == Err(Empty)
    ensures Decoded([1] + data, unzip) == if unzip(data).None? then Err(BadZip) else Parse(unzip(data).value)
    ensures Parse(data).Err? <==> |data| < 33 || |data| - 33 < Declared(data)
    ensures Parse(data).Err? ==>
      Parse(data) == Err(if |data| < 33 then TooShort(|data|) else Truncated(Declared(data), |data| - 33))
  {
    assert ([1] + data)[1..] == data;
    hide Num, Get, OfFields;
  }

  /** Decoding an encoded message gives it back, compressed or not, exactly for payloads shorter than 2^32 bytes. */
  lemma RoundTrip(m: Message, zip: Zip, unzip: Unzip)
    requires Inverse(zip, unzip)
    ensures Decoded(Encoded(m, zip), unzip) == Ok(m) <==> |m.payload| < U32_LIMIT
  {
    hide Raw, Parse;
    RawRoundTrip(m);
    assert Encoded(m, zip)[1..] == if Shrinks(m, zip) then zip(Raw(m)).value else Raw(m);
  }

  /** Messages that differ are encoded differently. */
  lemma EncodingsDiffer(m: Message, n: Message, zip: Zip, unzip: Unzip)
    requires Inverse(zip, unzip) && |m.payload| < U32_LIMIT && |n.payload| < U32_LIMIT && m != n
    ensures Encoded(m, zip) != Encoded(n, zip)
  {
    hide Encoded, Decoded;
    RoundTrip(m, zip, unzip);
    RoundTrip(n, zip, unzip);
  }

  /** Compression never makes a message longer than its 34 bytes of overhead. */
  lemma EncodedSize(m: Message, zip: Zip)
    ensures 1 <= |Encoded(m, zip)| <= 1 + HEADER + |m.payload|
  {
    hide Sum, Le, Fields;
    WidthsSum();
  }

  /** The format comment knows the flags 0 and 1; the decoder reads any flag but 1 as uncompressed, and
      ignores bytes behind the payload. */
  lemma LooseForms(flag: u8, m: Message, rest: Bytes, unzip: Unzip)
    requires flag != 1 && |m.payload| < U32_LIMIT
    ensures Decoded([flag] + Raw(m) + rest, unzip) == Ok(m)
  {
    hide Raw, Parse;
    ParseOfRaw(m, rest);
    assert Carried(m.payload) == m.payload;
    var data := [flag] + Raw(m) + rest;
    assert data[0] == flag && data[1..] == Raw(m) + rest;
  }

  // ---------- The code ----------

  /** One field of the header: `buf` then holds the fields up to it. */
  method PutField(buf: array<u8>, off: nat, v: nat, n: nat, ghost values: seq<nat>, ghost k: nat) returns (next: nat)
    requires |values| == |WIDTHS| && k < |WIDTHS| && values[k] == v && WIDTHS[k] == n && off + n <= buf.Length
    requires buf[..off] == Put(values[..k], WIDTHS[..k])
    modifies buf
    ensures next == off + n && buf[..next] == Put(values[..k + 1], WIDTHS[..k + 1])
  {
    PutUint(buf, off, v, n);
    PutSnoc(values[..k], WIDTHS[..k], v, n);
    assert values[..k] + [v] == values[..k + 1] && WIDTHS[..k] + [n] == WIDTHS[..k + 1];
    next := off + n;
  }

  method EncodeRaw(m: Message) returns (raw: Bytes)
    ensures raw == Raw(m)
  {
    hide Put, Le, Sum;
    WidthsSum();
    var payloadLen: u32 := |m.payload| % U32_LIMIT;
    var buf := new u8[HEADER + payloadLen];
    ghost var f := Fields(m, payloadLen);
    PutNothing(f, WIDTHS, buf[..]);
    var off := 0;
    off := PutField(buf, off, m.kind, 1, f, 0);
    off := PutField(buf, off, m.from, 2, f, 1);
    off := PutField(buf, off, m.to, 2, f, 2);
    off := PutField(buf, off, m.num, 4, f, 3);
    off := PutField(buf, off, ToU64(m.timestamp), 8, f, 4);
    off := PutField(buf, off, ToU64(m.dataTime), 8, f, 5);
    off := PutField(buf, off, m.streamId, 1, f, 6);
    off := PutField(buf, off, m.ttl, 2, f, 7);
    off := PutField(buf, off, m.priority, 1, f, 8);
    off := PutField(buf, off, payloadLen, 4, f, 9);
    assert f[..10] == f && WIDTHS[..10] == WIDTHS;
    CopyInto(buf, off, m.payload);
    raw := buf[..];
  }

  lemma PutNothing(values: seq<nat>, widths: seq<nat>, data: Bytes)
    requires |values| == |widths|
    ensures data[..0] == Put(values[..0], widths[..0])
  {
  }

  method Encode(m: Message, zip: Zip) returns (data: Bytes)
    ensures data == Encoded(m, zip)
  {
    hide Raw;
    var raw := EncodeRaw(m);
    if |m.payload| >= COMPRESS_THRESHOLD {
      var compressed := zip(raw);
      if compressed.Some? && |compressed.value| < |raw| {
        var out := new u8[1 + |compressed.value|];
        out[0] := 1;
        CopyInto(out, 1, compressed.value);
        return out[..];
      }
    }
    var out := new u8[1 + |raw|];
    out[0] := 0;
    CopyInto(out, 1, raw);
    data := out[..];
  }

  method GetField(data: Bytes, off: nat, n: nat, ghost k: nat) returns (v: nat, next: nat)
    requires k < |WIDTHS| && WIDTHS[k] == n && Sum(WIDTHS) <= |data| && off == Sum(WIDTHS[..k])
    ensures next == off + n && v == Get(data, WIDTHS)[k] && next == Sum(WIDTHS[..k + 1])
  {
    hide Get, Sum, Num;
    GetAt(data, WIDTHS, k);
    SumSnoc(WIDTHS, k);
    v := Uint(data, off, n);
    next := off + n;
  }

  lemma SumOfNone(widths: seq<nat>)
    ensures Sum(widths[..0]) == 0
  {
  }

  method DecodeRaw(data: Bytes) returns (r: Result<Message, Error>)
    ensures r == Parse(data)
  {
    hide Parse, Put, Get, Sum, Le, Num, Pow256, Fits, Declared;
    if |data| < HEADER {
      ParseCases(data);
      return Err(TooShort(|data|));
    }
    ParseByFields(data);
    FieldBounds(Get(data, WIDTHS));
    WidthsSum();
    SumOfNone(WIDTHS);
    var off := 0;
    var kind, from, to, num, timestamp, dataTime, streamId, ttl, priority, payloadLen;
    kind, off := GetField(data, off, 1, 0);
    from, off := GetField(data, off, 2, 1);
    to, off := GetField(data, off, 2, 2);
    num, off := GetField(data, off, 4, 3);
    timestamp, off := GetField(data, off, 8, 4);
    dataTime, off := GetField(data, off, 8, 5);
    streamId, off := GetField(data, off, 1, 6);
    ttl, off := GetField(data, off, 2, 7);
    priority, off := GetField(data, off, 1, 8);
    payloadLen, off := GetField(data, off, 4, 9);
    var remaining := |data| - off;
    if remaining < payloadLen {
      return Err(Truncated(payloadLen, remaining));
    }
    r := Ok(Message(kind, from, to, num, ToI64(timestamp), ToI64(dataTime), streamId, ttl, priority,
                    data[off..off + payloadLen]));
  }

  method Decode(data: Bytes, unzip: Unzip) returns (r: Result<Message, Error>)
    ensures r == Decoded(data, unzip)
  {
    if |data| < 1 {
      return Err(Empty);
    }
    var compressed := data[0] == 1;
    var payload := data[1..];
    if compressed {
      var plain := unzip(payload);
      if plain.None? {
        return Err(BadZip);
      }
      payload := plain.value;
    }
    r := DecodeRaw(payload);
  }
}
