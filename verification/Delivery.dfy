/**
 Stamping and deduplication together, over a network that drops, duplicates and reorders: what a
 receiver hands to its algorithm.

 `uid` counts a sender's messages on one stream without bound; the wire carries it modulo 2^32.
 A message that never arrives was dropped; one that arrives again was duplicated.
 */
module Delivery {
  import opened Dedup
  import opened Messages
  import opened RuntimeNode

  datatype Copy = Copy(from: u16, to: u16, streamId: u8, uid: nat)

  datatype Lane = Lane(to: u16, from: u16, streamId: u8)

  datatype System = System(
    count: map<(u16, u8), nat>,      // (sender, stream) -> messages stamped
    sent: set<Copy>,
    heard: map<Lane, seq<nat>>)      // uids presented to the receiver's window, in order

  datatype Event = Stamp(from: u16, to: u16, streamId: u8) | Arrive(copy: Copy, expired: bool)

  function Nums(uids: seq<nat>): (r: seq<u32>)
    ensures |r| == |uids| && forall k :: 0 <= k < |r| ==> r[k] == NumberOf(uids[k])
  {
    seq(|uids|, k requires 0 <= k < |uids| => NumberOf(uids[k]))
  }

  function LaneOf(c: Copy): Lane {
    Lane(c.to, c.from, c.streamId)
  }

  function Count(s: System, from: u16, streamId: u8): nat {
    if (from, streamId) in s.count then s.count[(from, streamId)] else 0
  }

  function Heard(s: System, l: Lane): seq<nat> {
    if l in s.heard then s.heard[l] else []
  }

  const NEW_SYSTEM := System(map[], {}, map[])

  ghost predicate Enabled(s: System, e: Event) {
    e.Arrive? ==> e.copy in s.sent
  }

  function Next(s: System, e: Event): System {
    match e
    case Stamp(from, to, streamId) =>
      var uid := Count(s, from, streamId) + 1;
      s.(count := s.count[(from, streamId) := uid], sent := s.sent + {Copy(from, to, streamId, uid)})
    case Arrive(copy, expired) =>
      if expired then s else s.(heard := s.heard[LaneOf(copy) := Heard(s, LaneOf(copy)) + [copy.uid]])
  }

  /** The receiver's router passes the message on: neither expired nor a duplicate. */
  predicate Handled(s: System, e: Event) {
    e.Arrive? && !e.expired && !Check(After(Nums(Heard(s, LaneOf(e.copy)))), NumberOf(e.copy.uid)).duplicate
  }

  ghost predicate Run(states: seq<System>, events: seq<Event>) {
    && |states| == |events| + 1 && states[0] == NEW_SYSTEM
    && forall k :: 0 <= k < |events| ==> Enabled(states[k], events[k]) && states[k + 1] == Next(states[k], events[k])
  }

  lemma {:induction false} HeardGrows(states: seq<System>, events: seq<Event>, j: nat, k: nat, l: Lane)
    requires Run(states, events) && j <= k < |states|
    ensures Heard(states[j], l) <= Heard(states[k], l)
    decreases k
  {
    if j < k {
      HeardGrows(states, events, j, k - 1, l);
      assert states[k] == Next(states[k - 1], events[k - 1]);
    }
  }

  /** At most once: whatever the network repeats and wherever the counter wraps, no number, and so no
      message, is handed to a receiver's algorithm twice on one stream of one sender. */
  lemma AtMostOnce(states: seq<System>, events: seq<Event>, j: nat, k: nat)
    requires Run(states, events) && j < k < |events|
    requires Handled(states[j], events[j]) && Handled(states[k], events[k])
    requires LaneOf(events[j].copy) == LaneOf(events[k].copy)
    ensures NumberOf(events[j].copy.uid) != NumberOf(events[k].copy.uid) && events[j].copy != events[k].copy
  {
    hide Check, After;
    var l := LaneOf(events[k].copy);
    HeardGrows(states, events, j + 1, k, l);
    assert states[j + 1] == Next(states[j], events[j]);
    var uids := Heard(states[k], l);
    var at := |Heard(states[j], l)|;
    assert uids[at] == events[j].copy.uid;
    if NumberOf(events[j].copy.uid) == NumberOf(events[k].copy.uid) {
      assert Nums(uids)[at] == NumberOf(events[k].copy.uid);
      assert Nums(uids) + [] == Nums(uids);
      NeverTwice(Nums(uids), [], NumberOf(events[k].copy.uid));
    }
  }

  // ---------- When a message is handled ----------

  ghost predicate Counted(s: System) {
    && (forall c :: c in s.sent ==> 1 <= c.uid <= Count(s, c.from, c.streamId))
    && (forall c, d :: c in s.sent && d in s.sent && c.from == d.from && c.streamId == d.streamId && c.uid == d.uid
          ==> c == d)
    && (forall l, k :: l in s.heard && 0 <= k < |s.heard[l]| ==> 1 <= s.heard[l][k] <= Count(s, l.from, l.streamId))
  }

  lemma {:induction false} CountedInRuns(states: seq<System>, events: seq<Event>, k: nat)
    requires Run(states, events) && k < |states|
    ensures Counted(states[k])
  {
    if k > 0 {
      CountedInRuns(states, events, k - 1);
      CountedStep(states[k - 1], events[k - 1]);
    }
  }

  lemma CountedStep(s: System, e: Event)
    requires Counted(s) && Enabled(s, e)
    ensures Counted(Next(s, e))
  {
  }

  /** Until the counter wraps, a message is handled exactly when it has not been presented before and fewer
      than 256 numbers separate it from the highest presented: nothing else is lost to the window. */
  lemma HandledWhen(states: seq<System>, events: seq<Event>, k: nat)
    requires Run(states, events) && k < |events| && events[k].Arrive? && !events[k].expired
    requires Count(states[k], events[k].copy.from, events[k].copy.streamId) < U32_LIMIT
    ensures Handled(states[k], events[k]) <==>
            var uid, heard := events[k].copy.uid, Heard(states[k], LaneOf(events[k].copy));
            uid !in heard && forall u :: u in heard ==> u < uid + 256
  {
    var s, c := states[k], events[k].copy;
    CountedInRuns(states, events, k);
    var heard := Heard(s, LaneOf(c));
    WindowRefinesHistory(Nums(heard), NumberOf(c.uid));
    hide Check, After, Run;
    assert c in s.sent;
    SmallNums(heard);
    assert NumberOf(c.uid) == c.uid;
  }

  lemma SmallNums(uids: seq<nat>)
    requires forall k :: 0 <= k < |uids| ==> uids[k] < U32_LIMIT
    ensures Nums(uids) == uids
  {
  }
}
