/**
 Raft's executions over the router, seen from the runtime: each is a run of module Delivery on stream 0,
 in which what reaches a Raft handler is exactly what Delivery says a receiver hands on. Module Endpoints
 shows that the router and node objects take Delivery's steps.

 Node identifiers are 16 bits wide on the wire.
 */
module RaftDelivered {
  import opened Messages
  import opened RaftNode
  import opened RaftCluster
  import opened RaftOverRouter
  import D = Delivery
  import opened Endpoints

  const RAFT: u8 := 0

  ghost predicate Addressed(ids: set<Id>) {
    forall i :: i in ids ==> i < 0x1_0000
  }

  function CopyOf(p: Packet): D.Copy
    requires p.from < 0x1_0000 && p.to < 0x1_0000
  {
    D.Copy(p.from, p.to, RAFT, p.uid)
  }

  /** Stamped alike, with everything sent on its way, and each receiver's window shown the same numbers. */
  ghost predicate Linked(s: Deployed, d: D.System) {
    && Addressed(s.cluster.ids) && s.cluster.stamp.Keys == s.cluster.ids
    && (forall i: u16 :: i in s.cluster.ids ==> D.Count(d, i, RAFT) == s.cluster.stamp[i])
    && (forall p :: p in s.cluster.sent ==> p.from < 0x1_0000 && p.to < 0x1_0000 && CopyOf(p) in d.sent)
    && (forall to: u16, from: u16 :: Shown(s, to, from) == D.Nums(D.Heard(d, D.Lane(to, from, RAFT))))
  }

  /** The receivers of the messages a step sends. */
  function Receivers(out: seq<Send>): (tos: seq<u16>)
    requires forall k :: 0 <= k < |out| ==> out[k].to < 0x1_0000
  {
    seq(|out|, k requires 0 <= k < |out| => out[k].to)
  }

  lemma {:induction false} StampingKeeps(d: D.System, from: u16, tos: seq<u16>)
    ensures var d' := StampAll(d, from, RAFT, tos);
            && d.sent <= d'.sent && d'.heard == d.heard
            && forall i: u16 :: i != from ==> D.Count(d', i, RAFT) == D.Count(d, i, RAFT)
  {
    if tos != [] {
      StampingKeeps(d, from, tos[..|tos| - 1]);
    }
  }

  /** The step stamped and sent `out` for node `i`. */
  ghost predicate Sends(c: Cluster, i: Id, out: seq<Send>, tag: nat, c': Cluster) {
    && i in c.ids && i in c.stamp && c'.ids == c.ids && c'.stamp == c.stamp[i := c.stamp[i] + |out|]
    && c'.sent == c.sent + Stamped(i, c.stamp[i], out, tag)
    && forall k :: 0 <= k < |out| ==> out[k].to in c.ids
  }

  lemma CopiesSent(c: Cluster, i: u16, out: seq<Send>, tag: nat, d: D.System, p: Packet)
    requires Addressed(c.ids) && i in c.stamp && D.Count(d, i, RAFT) == c.stamp[i]
    requires forall k :: 0 <= k < |out| ==> out[k].to in c.ids
    requires p in Stamped(i, c.stamp[i], out, tag)
    ensures forall k :: 0 <= k < |out| ==> out[k].to < 0x1_0000
    ensures p.from < 0x1_0000 && p.to < 0x1_0000 && CopyOf(p) in StampAll(d, i, RAFT, Receivers(out)).sent
  {
    hide StampAll, D.Count;
    var j :| 0 <= j < |out| && p == Packet(i, out[j].to, c.stamp[i] + 1 + j, out[j].body, tag);
    StampedSoFar(d, i, RAFT, Receivers(out), j);
  }

  /** Stamping the messages of a step matches it. */
  lemma SendsLinked(s: Deployed, d: D.System, i: Id, out: seq<Send>, tag: nat, c': Cluster)
    requires Linked(s, d) && Sends(s.cluster, i, out, tag, c')
    ensures i < 0x1_0000 && forall k :: 0 <= k < |out| ==> out[k].to < 0x1_0000
    ensures Linked(s.(cluster := c'), StampAll(d, i, RAFT, Receivers(out)))
  {
    hide StampAll, D.Count, Stamped, D.Nums;
    var tos := Receivers(out);
    var d' := StampAll(d, i, RAFT, tos);
    StampingKeeps(d, i, tos);
    StampedSoFar(d, i, RAFT, tos, |tos|);
    forall p | p in c'.sent ensures p.from < 0x1_0000 && p.to < 0x1_0000 && CopyOf(p) in d'.sent {
      if p !in s.cluster.sent {
        CopiesSent(s.cluster, i, out, tag, d, p);
      }
    }
    SameHeard(s, c', d, d');
  }

  lemma SameHeard(s: Deployed, c': Cluster, d: D.System, d': D.System)
    requires d'.heard == d.heard
    requires forall to: u16, from: u16 :: Shown(s, to, from) == D.Nums(D.Heard(d, D.Lane(to, from, RAFT)))
    ensures forall to: u16, from: u16 ::
      Shown(s.(cluster := c'), to, from) == D.Nums(D.Heard(d', D.Lane(to, from, RAFT)))
  {
    hide D.Nums;
  }

  /** The arrival itself, before the handler runs. */
  function Shows(s: Deployed, p: Packet, expired: bool): Deployed {
    if expired then s else s.(shown := s.shown[(p.to, p.from) := Shown(s, p.to, p.from) + [Num(p)]])
  }

  lemma ArrivalLinked(s: Deployed, d: D.System, p: Packet, expired: bool)
    requires Linked(s, d) && p in s.cluster.sent
    ensures p.from < 0x1_0000 && p.to < 0x1_0000 && D.Enabled(d, D.Arrive(CopyOf(p), expired))
    ensures Linked(Shows(s, p, expired), D.Next(d, D.Arrive(CopyOf(p), expired)))
  {
    hide D.Nums;
    NumsSnoc(D.Heard(d, D.Lane(p.to, p.from, RAFT)), p.uid);
  }

  /** What Raft's handler gets is what Delivery hands on. */
  lemma PassesIsHandled(s: Deployed, d: D.System, e: NetEvent)
    requires Linked(s, d) && e.Arrive? && e.p in s.cluster.sent
    ensures e.p.from < 0x1_0000 && e.p.to < 0x1_0000
    ensures Passes(s, e) <==> D.Handled(d, D.Arrive(CopyOf(e.p), e.expired))
  {
    hide D.Nums;
  }

  // ---------- Steps ----------

  lemma EventSends(c: Cluster, e: Event) returns (f: Effect)
    requires WF(c) && Actor(e) in c.ids && ListsPeers(e.peers, c.ids, Actor(e)) && (e.Deliver? ==> e.p in c.sent)
    ensures CanAct(c.nodes[Actor(e)], e) && Sends(c, Actor(e), f.out, Tag(e), Assemble(c, e, Actor(e), f))
    ensures f == Act(c.nodes[Actor(e)], e)
  {
    ActStaysReady(c.nodes[Actor(e)], e, c.ids);
    f := Act(c.nodes[Actor(e)], e);
    hide Act, Stamped, Observe, ListsPeers;
  }

  /** The Delivery step a step of an execution begins with, if it is an arrival. */
  function Begun(d: D.System, e: NetEvent): D.System
    requires e.Arrive? ==> e.p.from < 0x1_0000 && e.p.to < 0x1_0000
  {
    if e.Arrive? then D.Next(d, D.Arrive(CopyOf(e.p), e.expired)) else d
  }

  /** Every step of an execution is an arrival, if it is one, and then the stamping of what it sends. */
  lemma StepLinked(s: Deployed, e: NetEvent, s': Deployed, d: D.System) returns (i: u16, tos: seq<u16>)
    requires NetStep(s, e, s') && Linked(s, d)
    ensures e.Arrive? ==>
      e.p in s.cluster.sent && e.p.from < 0x1_0000 && e.p.to < 0x1_0000
      && D.Enabled(d, D.Arrive(CopyOf(e.p), e.expired))
    ensures Linked(s', StampAll(Begun(d, e), i, RAFT, tos))
  {
    hide Sends, D.Nums, D.Next, Act, ListsPeers, Linked, Passes, StampAll;
    match e
    case Local(c) =>
      var f := EventSends(s.cluster, c);
      SendsLinked(s, d, Actor(c), f.out, Tag(c), s'.cluster);
      i, tos := Actor(c), Receivers(f.out);
    case Arrive(p, expired, peers) =>
      ArrivalLinked(s, d, p, expired);
      if Passes(s, e) {
        var f := EventSends(s.cluster, Deliver(p, peers));
        SendsLinked(Shows(s, p, expired), Begun(d, e), p.to, f.out, Tag(Deliver(p, peers)), s'.cluster);
        i, tos := p.to, Receivers(f.out);
      } else {
        i, tos := 0, [];
        StampNone(Begun(d, e), i);
      }
  }

  lemma StampNone(d: D.System, i: u16)
    ensures StampAll(d, i, RAFT, []) == d
  {
  }

  // ---------- Runs ----------

  lemma LongerRun(run: seq<D.System>, steps: seq<D.Event>, e: D.Event)
    requires D.Run(run, steps) && D.Enabled(run[|run| - 1], e)
    ensures D.Run(run + [D.Next(run[|run| - 1], e)], steps + [e])
  {
    hide D.Next, D.Enabled;
  }

  lemma {:induction false} StampRun(run: seq<D.System>, steps: seq<D.Event>, i: u16, tos: seq<u16>)
    returns (run': seq<D.System>, steps': seq<D.Event>)
    requires D.Run(run, steps)
    ensures D.Run(run', steps') && run <= run' && steps <= steps'
    ensures run'[|run'| - 1] == StampAll(run[|run| - 1], i, RAFT, tos)
    decreases |tos|
  {
    hide D.Next;
    if tos == [] {
      run', steps' := run, steps;
    } else {
      var e := D.Stamp(i, tos[|tos| - 1], RAFT);
      run', steps' := StampRun(run, steps, i, tos[..|tos| - 1]);
      LongerRun(run', steps', e);
      run', steps' := run' + [D.Next(run'[|run'| - 1], e)], steps' + [e];
    }
  }

  lemma InitLinked(ids: set<Id>)
    requires 0 !in ids && Addressed(ids)
    ensures Linked(Deployed(Init(ids), map[]), D.NEW_SYSTEM)
  {
  }

  /** Step `j` of the execution, at step `at` of the run: an arrival is one there, handled if and only if its
      packet passes. */
  ghost predicate Matches(s: Deployed, e: NetEvent, run: seq<D.System>, steps: seq<D.Event>, at: nat) {
    e.Arrive? ==>
      && at < |run| && at < |steps| && e.p.from < 0x1_0000 && e.p.to < 0x1_0000
      && steps[at] == D.Arrive(CopyOf(e.p), e.expired)
      && (Passes(s, e) <==> D.Handled(run[at], steps[at]))
  }

  ghost predicate Follows(states: seq<Deployed>, events: seq<NetEvent>, k: nat, run: seq<D.System>,
                          steps: seq<D.Event>, at: seq<nat>)
    requires |states| == |events| + 1 && k < |states|
  {
    && D.Run(run, steps) && |at| == k + 1 && at[k] == |run| - 1
    && (forall j :: 0 <= j <= k ==> at[j] < |run| && Linked(states[j], run[at[j]]))
    && (forall j :: 0 <= j < k ==> Matches(states[j], events[j], run, steps, at[j]))
  }

  lemma OneMore(states: seq<Deployed>, events: seq<NetEvent>, k: nat, run: seq<D.System>, steps: seq<D.Event>,
                at: seq<nat>, run': seq<D.System>, steps': seq<D.Event>)
    requires |states| == |events| + 1 && k < |events| && Follows(states, events, k, run, steps, at)
    requires D.Run(run', steps') && run <= run' && steps <= steps' && Linked(states[k + 1], run'[|run'| - 1])
    requires Matches(states[k], events[k], run', steps', at[k])
    ensures Follows(states, events, k + 1, run', steps', at + [|run'| - 1])
  {
    hide Linked, D.Run;
    forall j | 0 <= j < k ensures Matches(states[j], events[j], run', steps', at[j]) {
      assert Matches(states[j], events[j], run, steps, at[j]);
    }
  }

  lemma OneStep(run: seq<D.System>, steps: seq<D.Event>, s: Deployed, e: NetEvent, s': Deployed)
    returns (run': seq<D.System>, steps': seq<D.Event>)
    requires D.Run(run, steps) && NetStep(s, e, s') && Linked(s, run[|run| - 1])
    ensures D.Run(run', steps') && run <= run' && steps <= steps' && Linked(s', run'[|run'| - 1])
    ensures Matches(s, e, run', steps', |run| - 1)
  {
    hide Linked, NetStep, D.Next, StampAll, D.Handled, Passes, D.Enabled;
    var d := run[|run| - 1];
    var i, tos := StepLinked(s, e, s', d);
    run', steps' := run, steps;
    if e.Arrive? {
      PassesIsHandled(s, d, e);
      var a := D.Arrive(CopyOf(e.p), e.expired);
      LongerRun(run, steps, a);
      run', steps' := run + [D.Next(d, a)], steps + [a];
    }
    assert run'[|run'| - 1] == Begun(d, e);
    hide D.Run, Begun;
    RunLength(run, steps);
    run', steps' := StampRun(run', steps', i, tos);
  }

  lemma RunLength(run: seq<D.System>, steps: seq<D.Event>)
    requires D.Run(run, steps)
    ensures |run| == |steps| + 1
  {
  }

  lemma FirstStep(states: seq<Deployed>, events: seq<NetEvent>)
    requires NetRun(states, events) && Addressed(states[0].cluster.ids)
    ensures Follows(states, events, 0, [D.NEW_SYSTEM], [], [0])
  {
    hide NetStep, Linked, Init;
    InitLinked(states[0].cluster.ids);
  }

  /** Every execution is matched by a run of Delivery, arrival for arrival, that hands on to its receivers
      exactly what reaches Raft's handlers. */
  lemma {:induction false} OnDelivery(states: seq<Deployed>, events: seq<NetEvent>, k: nat)
    returns (run: seq<D.System>, steps: seq<D.Event>, at: seq<nat>)
    requires NetRun(states, events) && Addressed(states[0].cluster.ids) && k < |states|
    ensures Follows(states, events, k, run, steps, at)
  {
    hide NetStep, Linked, Init, Matches, D.Run;
    if k == 0 {
      run, steps, at := [D.NEW_SYSTEM], [], [0];
      FirstStep(states, events);
    } else {
      run, steps, at := OnDelivery(states, events, k - 1);
      RunLength(run, steps);
      var run', steps' := OneStep(run, steps, states[k - 1], events[k - 1], states[k]);
      RunLength(run', steps');
      OneMore(states, events, k - 1, run, steps, at, run', steps');
      run, steps, at := run', steps', at + [|run'| - 1];
    }
  }
}
