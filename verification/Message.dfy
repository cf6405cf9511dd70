/** The message record of pkg/message/message.go, with the widths of its fields. */
module Messages {

  const U32_LIMIT := 0x1_0000_0000

  type u8 = n: nat | n < 0x100
  type u16 = n: nat | n < 0x1_0000
  type u32 = n: nat | n < U32_LIMIT
  type u64 = n: nat | n < 0x1_0000_0000_0000_0000
  type i64 = n: int | -0x8000_0000_0000_0000 <= n < 0x8000_0000_0000_0000

  datatype Message = Message(
    kind: u8,          // Type
    from: u16,
    to: u16,
    num: u32,          // Seq
    timestamp: i64,
    dataTime: i64,
    streamId: u8,
    ttl: u16,
    priority: u8,      // 0 is served first
    payload: seq<u8>)

  const ZERO := Message(0, 0, 0, 0, 0, 0, 0, 0, 0, [])

  const I64_LIMIT := 0x8000_0000_0000_0000

  // int64 subtraction wraps around.
  function Sub64(a: i64, b: i64): i64 {
    if a - b >= I64_LIMIT then a - b - 2 * I64_LIMIT
    else if a - b < -I64_LIMIT then a - b + 2 * I64_LIMIT
    else a - b
  }

  /** A TTL of 0 is for ever. */
  predicate Expired(m: Message, now: i64) {
    m.ttl != 0 && Sub64(now, m.timestamp) > m.ttl
  }

  /** For times less than 2^63 ms apart, a message expires when its time to live has passed since its timestamp. */
  lemma ExpiredWhen(m: Message, now: i64)
    requires -0x8000_0000_0000_0000 <= now - m.timestamp < 0x8000_0000_0000_0000
    ensures Expired(m, now) <==> m.ttl > 0 && now > m.timestamp + m.ttl
  {
  }

  /** Further apart the difference wraps: a timestamp too far back never expires, one too far ahead has expired,
      but for the last moments before the wrap. */
  lemma ExpiryWraps(m: Message, now: i64)
    requires m.ttl > 0
    ensures now - m.timestamp >= 0x8000_0000_0000_0000 ==> !Expired(m, now)
    ensures now - m.timestamp < -0x8000_0000_0000_0000 ==>
      (Expired(m, now) <==> now - m.timestamp > m.ttl - 0x1_0000_0000_0000_0000)
  {
  }
}
