/**
 The sending side of node/runtime/node.go: stamping, queueing and forwarding of messages.

 The peers are a set; the order in which the source's map of peers happens to list them is a parameter.
 */
module RuntimeNode {
  import opened Messages
  import M = QueueModel
  import Q = SendQueue

  /** What Send and Broadcast fill in. */
  function Stamped(msg: Message, from: u16, to: u16, num: u32, now: i64): Message {
    msg.(from := from, to := to, num := num, timestamp := if msg.timestamp == 0 then now else msg.timestamp)
  }

  /** The number on the wire of a stream's message `count`. */
  function NumberOf(count: nat): u32 {
    count % U32_LIMIT
  }

  /** The operations push `msg`, stamped for the listed peers in turn. */
  ghost predicate PushesFor(ops: seq<M.Op>, msg: Message, from: u16, peers: seq<u16>, count: nat, now: i64) {
    && |ops| == |peers|
    && forall k :: 0 <= k < |ops| ==>
         ops[k].Push? && ops[k].msg == Stamped(msg, from, peers[k], NumberOf(count + k + 1), now)
  }

  lemma PushesNone(msg: Message, from: u16, peers: seq<u16>, count: nat, now: i64)
    ensures PushesFor([], msg, from, [], count, now) && PushesFor([], msg, from, peers[..0], count, now)
  {
  }

  lemma PushesOneMore(ops: seq<M.Op>, op: M.Op, msg: Message, from: u16, peers: seq<u16>, i: nat, count: nat, now: i64)
    requires i < |peers| && PushesFor(ops, msg, from, peers[..i], count, now)
    requires op.Push? && op.msg == Stamped(msg, from, peers[i], NumberOf(count + i + 1), now)
    ensures |ops| == i && PushesFor(ops + [op], msg, from, peers[..i + 1], count, now)
  {
    hide Stamped;
  }

  /** What stamping leaves of a message: all but its addresses and number, and its time if it had one. */
  ghost predicate SameContent(msg: Message, out: Message, now: i64) {
    && out.payload == msg.payload && out.kind == msg.kind && out.priority == msg.priority
    && out.streamId == msg.streamId && out.ttl == msg.ttl && out.dataTime == msg.dataTime
    && (msg.timestamp != 0 ==> out.timestamp == msg.timestamp) && (msg.timestamp == 0 ==> out.timestamp == now)
  }

  /** What Send and Broadcast push: the same content for each peer in turn, numbered on from `count`, modulo 2^32. */
  lemma PushedContent(ops: seq<M.Op>, msg: Message, from: u16, peers: seq<u16>, count: nat, now: i64, k: nat)
    requires PushesFor(ops, msg, from, peers, count, now) && k < |peers|
    ensures |ops| == |peers| && ops[k].Push?
    ensures var out := ops[k].msg;
            && SameContent(msg, out, now) && out.from == from && out.to == peers[k]
            && out.num == (count + k + 1) % 0x1_0000_0000
  {
  }

  /** Of the queued items `all`, all but `left` have been served: `sent` are the messages among them that have a
      known peer, each once and in order, and what is left comes after them. */
  ghost predicate Served(all: set<M.Item>, left: set<M.Item>, peers: set<u16>, items: seq<M.Item>,
                         sent: seq<Message>) {
    && left <= all && |sent| == |items| && (forall i :: 0 <= i < |items| ==> sent[i] == items[i].msg)
    && (forall x :: x in items <==> x in all && x !in left && x.msg.to in peers)
    && (forall i, j :: 0 <= i < j < |items| ==> M.Before(items[i], items[j]))
    && (forall x, y :: x in items && y in left ==> M.Before(x, y))
  }

  lemma ServedNone(all: set<M.Item>, peers: set<u16>)
    ensures Served(all, all, peers, [], [])
  {
  }

  lemma ServedOne(all: set<M.Item>, left: set<M.Item>, peers: set<u16>, items: seq<M.Item>, sent: seq<Message>,
                  x: M.Item)
    requires Served(all, left, peers, items, sent) && M.Least(x, left)
    ensures if x.msg.to in peers then Served(all, left - {x}, peers, items + [x], sent + [x.msg])
            else Served(all, left - {x}, peers, items, sent)
  {
  }

  lemma PopServes(q: M.Queue, op: M.Op, q': M.Queue, cap: nat)
    requires M.Step(q, op, q', cap) && op.Pop?
    ensures M.Least(op.item, q.items) && q'.items == q.items - {op.item}
  {
    hide M.Least;
  }

  lemma MembersOwned(h: seq<Q.QueueItem>, was: set<Q.QueueItem>)
    requires Q.Members(h) <= was
    ensures forall k :: 0 <= k < |h| ==> h[k] in was
  {
    assert forall k :: 0 <= k < |h| ==> h[k] in Q.Members(h);
  }

  class Host {
    const id: u16
    var peers: set<u16>
    const counters: array<u32>
    ghost var stamped: seq<nat>      // messages stamped on each stream, without bound
    const queue: Q.SendQueue

    ghost predicate Valid()
      reads this, counters, queue, queue.h
    {
      Counts() && queue.Valid()
    }

    /** The counters are the counts, as far as 32 bits reach. */
    ghost predicate Counts()
      reads this, counters
    {
      counters.Length == 256 == |stamped| && forall i :: 0 <= i < 256 ==> counters[i] == NumberOf(stamped[i])
    }

    constructor (id: u16, capacity: nat, peers: set<u16>)
      ensures Valid() && this.id == id && this.peers == peers && fresh(counters) && fresh(queue)
      ensures queue.Model() == M.Queue({}, 0) && stamped == seq(256, _ => 0)
    {
      this.id, this.peers := id, peers;
      counters := new u32[256](_ => 0);
      stamped := seq(256, _ => 0);
      queue := new Q.SendQueue(capacity);
    }

    /** The stream's next number; an atomic uint32, so it wraps around. */
    method NextSeq(streamId: u8) returns (num: u32)
      requires Counts()
      modifies counters, this`stamped
      ensures Counts() && stamped == old(stamped)[streamId := old(stamped[streamId]) + 1]
      ensures num == NumberOf(stamped[streamId])
    {
      counters[streamId] := (counters[streamId] + 1) % U32_LIMIT;
      stamped := stamped[streamId := stamped[streamId] + 1];
      num := counters[streamId];
    }

    /** Into the queue, which may evict something. */
    method Enqueue(msg: Message) returns (ghost op: M.Op)
      requires Valid() && 1 <= queue.cap
      modifies queue, Q.Members(queue.h)
      ensures Valid() && fresh(Q.Members(queue.h) - old(Q.Members(queue.h)))
      ensures op.Push? && op.msg == msg && M.Step(old(queue.Model()), op, queue.Model(), queue.cap)
    {
      hide M.Step, Q.Values, Q.Placed, Q.Ordered, Q.Indexed, Q.GaveUp;
      MembersOwned(queue.h, Q.Members(queue.h));
      ghost var evicted := queue.Push(msg);
      op := M.Push(msg, evicted);
    }

    /** Unicast: an error for an unknown peer, else one stamped message into the queue. */
    method Send(to: u16, msg: Message, now: i64) returns (ok: bool, ghost ops: seq<M.Op>)
      requires Valid() && (to in peers ==> 1 <= queue.cap)
      modifies counters, this`stamped, queue, Q.Members(queue.h)
      ensures Valid() && fresh(Q.Members(queue.h) - old(Q.Members(queue.h))) && (ok <==> to in peers)
      ensures M.Path(old(queue.Model()), ops, queue.Model(), queue.cap)
      ensures PushesFor(ops, msg, id, if ok then [to] else [], old(stamped[msg.streamId]), now)
      ensures stamped == old(stamped)[msg.streamId := old(stamped[msg.streamId]) + |ops|]
    {
      hide M.Step, M.Path, Q.Values, Q.Placed, Q.Ordered, Q.Indexed, Q.GaveUp, Stamped, PushesFor;
      PathEmpty(queue.Model(), queue.cap);
      PushesNone(msg, id, [to], stamped[msg.streamId], now);
      ghost var count := stamped[msg.streamId];
      ops := [];
      if to !in peers {
        return false, ops;
      }
      var num := NextSeq(msg.streamId);
      ghost var was := queue.Model();
      ghost var op := Enqueue(Stamped(msg, id, to, num, now));
      M.PathSnoc(was, ops, was, op, queue.Model(), queue.cap);
      PushesOneMore(ops, op, msg, id, [to], 0, count, now);
      assert [to][..1] == [to];
      return true, ops + [op];
    }

    /** One stamped copy to every peer, each with its own number; `order` is how the peers come listed. */
    method Broadcast(msg: Message, now: i64, order: seq<u16>) returns (ghost ops: seq<M.Op>)
      requires Valid() && (order != [] ==> 1 <= queue.cap)
      requires forall p :: p in order <==> p in peers
      requires forall i, j :: 0 <= i < j < |order| ==> order[i] != order[j]
      modifies counters, this`stamped, queue, Q.Members(queue.h)
      ensures Valid() && fresh(Q.Members(queue.h) - old(Q.Members(queue.h)))
      ensures M.Path(old(queue.Model()), ops, queue.Model(), queue.cap)
      ensures PushesFor(ops, msg, id, order, old(stamped[msg.streamId]), now)
      ensures stamped == old(stamped)[msg.streamId := old(stamped[msg.streamId]) + |ops|]
    {
      hide M.Step, M.Path, Q.Values, Q.Placed, Q.Ordered, Q.Indexed, Q.GaveUp, Stamped, PushesFor;
      PathEmpty(queue.Model(), queue.cap);
      PushesNone(msg, id, order, stamped[msg.streamId], now);
      ghost var count := stamped[msg.streamId];
      ops := [];
      var i := 0;
      while i < |order|
        invariant Valid() && 0 <= i <= |order| && fresh(Q.Members(queue.h) - old(Q.Members(queue.h)))
        invariant M.Path(old(queue.Model()), ops, queue.Model(), queue.cap)
        invariant |ops| == i && PushesFor(ops, msg, id, order[..i], count, now)
        invariant stamped == old(stamped)[msg.streamId := old(stamped[msg.streamId]) + i]
      {
        var num := NextSeq(msg.streamId);
        ghost var was := queue.Model();
        ghost var op := Enqueue(Stamped(msg, id, order[i], num, now));
        M.PathSnoc(old(queue.Model()), ops, was, op, queue.Model(), queue.cap);
        PushesOneMore(ops, op, msg, id, order, i, count, now);
        ops := ops + [op];
        i := i + 1;
      }
      assert order[..i] == order;
    }

    /** One round of the send loop: pops until nothing is left and hands on exactly what has a known peer. */
    method Drain() returns (sent: seq<Message>, ghost items: seq<M.Item>, ghost ops: seq<M.Op>)
      requires Valid()
      modifies queue, Q.Members(queue.h)
      ensures Valid() && queue.Model().items == {} && Q.Members(queue.h) <= old(Q.Members(queue.h))
      ensures M.Path(old(queue.Model()), ops, queue.Model(), queue.cap) && forall k :: 0 <= k < |ops| ==> ops[k].Pop?
      ensures Served(old(queue.Model().items), {}, peers, items, sent)
    {
      hide M.Step, M.Path, Q.Values, Q.Placed, Q.Ordered, Q.Indexed, Served, M.Least;
      PathEmpty(queue.Model(), queue.cap);
      ServedNone(queue.Model().items, peers);
      sent, items, ops := [], [], [];
      while true
        invariant Valid() && Q.Members(queue.h) <= old(Q.Members(queue.h))
        invariant M.Path(old(queue.Model()), ops, queue.Model(), queue.cap)
        invariant forall k :: 0 <= k < |ops| ==> ops[k].Pop?
        invariant Served(old(queue.Model().items), queue.Model().items, peers, items, sent)
        decreases |queue.h|
      {
        MembersOwned(queue.h, Q.Members(queue.h));
        ghost var was := queue.Model();
        var msg, ok;
        ghost var op;
        msg, ok, op := queue.Pop();
        if !ok {
          Empty(was, op, queue.Model(), queue.cap);
          break;
        }
        M.PathSnoc(old(queue.Model()), ops, was, op, queue.Model(), queue.cap);
        PopServes(was, op, queue.Model(), queue.cap);
        ServedOne(old(queue.Model().items), was.items, peers, items, sent, op.item);
        ops := ops + [op];
        if msg.to in peers {
          sent, items := sent + [msg], items + [op.item];
        }
      }
    }
  }

  lemma PathEmpty(q: M.Queue, cap: nat)
    ensures M.Path(q, [], q, cap)
  {
  }

  lemma Empty(q: M.Queue, op: M.Op, q': M.Queue, cap: nat)
    requires M.Step(q, op, q', cap) && op.PopNothing?
    ensures q'.items == {} && q' == q
  {
  }
}
