/** Inbound dispatch of node/runtime/router.go: expiry, then the sender's deduplication window. */
module Router {
  import opened Dedup
  import opened Messages

  class Router {
    var dups: map<u16, PeerDedup>
    ghost var Repr: set<object>
    ghost var shown: map<(u16, u8), seq<u32>>    // every number presented to a window, by sender and stream

    constructor ()
      ensures Valid() && fresh(Repr)
      ensures Recalls() && shown == map[]
    {
      dups, Repr, shown := map[], {}, map[];
    }

    ghost predicate Valid()
      reads this`dups, this`Repr
    {
      && this !in Repr
      && (forall f :: f in dups ==> dups[f].Valid() && dups[f].Footprint() <= Repr)
      && (forall f, g :: f in dups && g in dups && f != g ==> Apart(dups[f], dups[g]))
    }

    static ghost predicate Apart(c: PeerDedup, d: PeerDedup) {
      c.highest != d.highest && c.windows != d.windows && c.inited != d.inited
    }

    /** The window kept for one stream of one sender; a sender not heard from has fresh windows. */
    ghost function StreamOf(from: u16, streamId: u8): Stream
      requires Valid()
      reads this`dups, this`Repr, Repr
    {
      if from in dups then dups[from].StreamAt(streamId) else NEW_STREAM
    }

    ghost function Shown(from: u16, streamId: u8): seq<u32>
      reads this`shown
    {
      if (from, streamId) in shown then shown[(from, streamId)] else []
    }

    /** Every window is what its numbers leave. */
    ghost predicate Recalls()
      requires Valid()
      reads this, Repr
    {
      forall f: u16, i: u8 :: StreamOf(f, i) == After(Shown(f, i))
    }

    /** Windows for a sender not heard from before. */
    method AddPeer(from: u16) returns (d: PeerDedup)
      requires Valid() && from !in dups
      modifies this`dups, this`Repr
      ensures d.Valid() && fresh(d.Footprint()) && forall i: u8 :: d.StreamAt(i) == NEW_STREAM
      ensures dups == old(dups)[from := d] && Repr == old(Repr) + d.Footprint() && Valid()
    {
      d := new PeerDedup();
      dups := dups[from := d];
      Repr := Repr + d.Footprint();
    }

    method FindPeer(from: u16) returns (d: PeerDedup)
      requires Valid()
      modifies this`dups, this`Repr
      ensures Valid() && from in dups && d == dups[from]
      ensures Repr >= old(Repr) && fresh(Repr - old(Repr))
      ensures forall f: u16, i: u8 :: StreamOf(f, i) == old(StreamOf(f, i))
    {
      hide Check, After, Apart;
      if from in dups {
        d := dups[from];
      } else {
        d := AddPeer(from);
      }
    }

    /** Looks the sender's windows up and presents the number to one of them. */
    method IsDuplicate(from: u16, streamId: u8, num: u32) returns (duplicate: bool)
      requires Valid()
      modifies this`dups, this`Repr, Repr
      ensures Valid() && fresh(Repr - old(Repr))
      ensures Answer(StreamOf(from, streamId), duplicate) == Check(old(StreamOf(from, streamId)), num)
      ensures forall f: u16, i: u8 :: f != from || i != streamId ==> StreamOf(f, i) == old(StreamOf(f, i))
    {
      hide Check;
      var d := FindPeer(from);
      label found:
      duplicate := d.IsDuplicate(streamId, num);
      forall f: u16, i: u8 | f != from
        ensures StreamOf(f, i) == old@found(StreamOf(f, i))
      {
        assert f in dups ==> Apart(dups[f], d);
      }
    }

    /** Whether the message reaches the handler: it has not expired, and the numbers presented so far on its
        stream do not make it a duplicate. An expired message is not presented. */
    method Dispatch(msg: Message, now: i64) returns (handled: bool)
      requires Valid() && Recalls()
      modifies this, Repr
      ensures Valid() && Recalls() && fresh(Repr - old(Repr))
      ensures handled <==> !Expired(msg, now) && !Check(After(old(Shown(msg.from, msg.streamId))), msg.num).duplicate
      ensures shown == if Expired(msg, now) then old(shown)
                       else old(shown)[(msg.from, msg.streamId) := old(Shown(msg.from, msg.streamId)) + [msg.num]]
    {
      hide Check, After, StreamOf, Valid, Sub64, Recalls;
      if msg.ttl != 0 && Sub64(now, msg.timestamp) > msg.ttl {
        return false;
      }
      var duplicate := Present(msg.from, msg.streamId, msg.num);
      handled := !duplicate;
    }

    lemma Outside()
      requires Valid()
      ensures this !in Repr
    {
      hide Apart;
    }

    /** Presents a number, and keeps track of it. */
    method Present(from: u16, streamId: u8, num: u32) returns (duplicate: bool)
      requires Valid() && Recalls()
      modifies this, Repr
      ensures Valid() && Recalls() && fresh(Repr - old(Repr))
      ensures duplicate <==> Check(After(old(Shown(from, streamId))), num).duplicate
      ensures shown == old(shown)[(from, streamId) := old(Shown(from, streamId)) + [num]]
    {
      hide Check, After, StreamOf, Valid;
      Outside();
      duplicate := IsDuplicate(from, streamId, num);
      AfterSnoc(Shown(from, streamId), num);
      shown := shown[(from, streamId) := Shown(from, streamId) + [num]];
    }
  }

  lemma AfterSnoc(history: seq<u32>, num: u32)
    ensures After(history + [num]) == Check(After(history), num).stream
  {
    assert (history + [num])[..|history|] == history;
  }
}
