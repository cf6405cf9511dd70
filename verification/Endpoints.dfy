/**
 The objects at both ends of a delivery. A router that dispatches, and a node that sends, take the steps
 of module Delivery; so what is proved of its runs holds of them.
 */
module Endpoints {
  import opened Delivery
  import opened Messages
  import opened RuntimeNode
  import M = QueueModel
  import Q = SendQueue
  import Router

  // ---------- The receiver ----------

  /** The router of node `to` has been shown what `s` says. */
  ghost predicate Receives(r: Router.Router, s: System, to: u16)
    reads r
  {
    forall f: u16, i: u8 :: r.Shown(f, i) == Nums(Heard(s, Lane(to, f, i)))
  }

  /** The message is this copy as it goes on the wire. */
  predicate OnWire(msg: Message, c: Copy) {
    msg.from == c.from && msg.to == c.to && msg.streamId == c.streamId && msg.num == NumberOf(c.uid)
  }

  /** A message arrives: the handler is reached exactly when Delivery says so. */
  method Arrival(r: Router.Router, ghost s: System, ghost copy: Copy, msg: Message, now: i64) returns (handled: bool)
    requires r.Valid() && r.Recalls() && Receives(r, s, copy.to) && OnWire(msg, copy)
    modifies r, r.Repr
    ensures r.Valid() && r.Recalls() && Receives(r, Next(s, Arrive(copy, Expired(msg, now))), copy.to)
    ensures handled <==> Handled(s, Arrive(copy, Expired(msg, now)))
  {
    hide Router.Router.Recalls, Router.Router.Valid, Expired;
    handled := r.Dispatch(msg, now);
    NumsSnoc(Heard(s, LaneOf(copy)), copy.uid);
  }

  lemma NumsSnoc(uids: seq<nat>, uid: nat)
    ensures Nums(uids + [uid]) == Nums(uids) + [NumberOf(uid)]
  {
  }

  // ---------- The sender ----------

  /** The node has stamped as many messages on each stream as `s` says. */
  ghost predicate Stamps(n: Host, s: System)
    reads n
  {
    |n.stamped| == 256 && forall i: u8 :: n.stamped[i] == Count(s, n.id, i)
  }

  /** The system after `from` has stamped a message to each of `tos` in turn. */
  function StampAll(s: System, from: u16, streamId: u8, tos: seq<u16>): System {
    if tos == [] then s
    else Next(StampAll(s, from, streamId, tos[..|tos| - 1]), Stamp(from, tos[|tos| - 1], streamId))
  }

  lemma {:induction false} StampedSoFar(s: System, from: u16, streamId: u8, tos: seq<u16>, k: nat)
    requires k <= |tos|
    ensures var s' := StampAll(s, from, streamId, tos);
            && Count(s', from, streamId) == Count(s, from, streamId) + |tos|
            && (forall i: u8 :: i != streamId ==> Count(s', from, i) == Count(s, from, i))
            && (k < |tos| ==> Copy(from, tos[k], streamId, Count(s, from, streamId) + k + 1) in s'.sent)
    decreases |tos|
  {
    if tos != [] {
      var front := tos[..|tos| - 1];
      StampedSoFar(s, from, streamId, front, if k < |front| then k else |front|);
    }
  }

  /** Each operation pushes the wire form of a copy that `s'` has stamped and `s` had not. */
  ghost predicate PushesCopies(ops: seq<M.Op>, s: System, s': System) {
    forall k :: 0 <= k < |ops| ==> ops[k].Push? && IsCopy(ops[k].msg, s, s', k + 1)
  }

  ghost predicate IsCopy(msg: Message, s: System, s': System, count: nat) {
    exists c :: c in s'.sent && OnWire(msg, c) && c.uid == Count(s, c.from, c.streamId) + count
  }

  lemma PushedAreStamped(ops: seq<M.Op>, msg: Message, from: u16, tos: seq<u16>, s: System, now: i64)
    requires PushesFor(ops, msg, from, tos, Count(s, from, msg.streamId), now)
    ensures PushesCopies(ops, s, StampAll(s, from, msg.streamId, tos))
  {
    hide StampAll;
    var s' := StampAll(s, from, msg.streamId, tos);
    forall k | 0 <= k < |ops| ensures ops[k].Push? && IsCopy(ops[k].msg, s, s', k + 1) {
      StampedSoFar(s, from, msg.streamId, tos, k);
      assert OnWire(ops[k].msg, Copy(from, tos[k], msg.streamId, Count(s, from, msg.streamId) + k + 1));
    }
  }

  /** Send takes one Stamp step, or none for an unknown peer. */
  method Unicast(n: Host, ghost s: System, to: u16, msg: Message, now: i64)
    returns (ok: bool, ghost ops: seq<M.Op>, ghost s': System)
    requires n.Valid() && Stamps(n, s) && (to in n.peers ==> 1 <= n.queue.cap)
    modifies n.counters, n`stamped, n.queue, Q.Members(n.queue.h)
    ensures n.Valid() && Stamps(n, s') && s' == StampAll(s, n.id, msg.streamId, if to in n.peers then [to] else [])
    ensures ok <==> to in n.peers
    ensures M.Path(old(n.queue.Model()), ops, n.queue.Model(), n.queue.cap) && PushesCopies(ops, s, s')
  {
    hide M.Path, PushesCopies, StampAll;
    ok, ops := n.Send(to, msg, now);
    ghost var tos := if ok then [to] else [];
    s' := StampAll(s, n.id, msg.streamId, tos);
    StampedSoFar(s, n.id, msg.streamId, tos, |tos|);
    PushedAreStamped(ops, msg, n.id, tos, s, now);
  }

  /** Broadcast takes one Stamp step for every peer. */
  method Multicast(n: Host, ghost s: System, msg: Message, now: i64, order: seq<u16>)
    returns (ghost ops: seq<M.Op>, ghost s': System)
    requires n.Valid() && Stamps(n, s) && (order != [] ==> 1 <= n.queue.cap)
    requires forall p :: p in order <==> p in n.peers
    requires forall i, j :: 0 <= i < j < |order| ==> order[i] != order[j]
    modifies n.counters, n`stamped, n.queue, Q.Members(n.queue.h)
    ensures n.Valid() && Stamps(n, s') && s' == StampAll(s, n.id, msg.streamId, order)
    ensures M.Path(old(n.queue.Model()), ops, n.queue.Model(), n.queue.cap) && PushesCopies(ops, s, s')
  {
    hide M.Path, PushesCopies, StampAll;
    ops := n.Broadcast(msg, now, order);
    s' := StampAll(s, n.id, msg.streamId, order);
    StampedSoFar(s, n.id, msg.streamId, order, |order|);
    PushedAreStamped(ops, msg, n.id, order, s, now);
  }
}
