/**
 The Raft cluster over the runtime's router: the network may now hand any message to a receiver as
 often as it likes, and the receiver's deduplication window decides what reaches the handler.

 Every such execution is, step for step, a run of RaftCluster or a pause in one. So the assumption
 made there, that each message is handled at most once, is discharged by the window of module Dedup.
 Raft sends on stream 0, and a packet's number is its sender's unbounded count modulo 2^32.
 */
module RaftOverRouter {
  import opened RaftNode
  import opened RaftCluster
  import opened Dedup
  import opened Messages
  import RaftElection
  import opened RaftSafety

  /** The cluster, and the numbers each receiver's window has been shown by each sender. */
  datatype Deployed = Deployed(cluster: Cluster, shown: map<(Id, Id), seq<u32>>)

  datatype NetEvent = Local(e: Event) | Arrive(p: Packet, expired: bool, peers: seq<Id>)

  function Num(p: Packet): u32 {
    p.uid % U32_LIMIT
  }

  function Shown(s: Deployed, to: Id, from: Id): seq<u32> {
    if (to, from) in s.shown then s.shown[(to, from)] else []
  }

  /** The router passes the packet to the handler. */
  predicate Passes(s: Deployed, e: NetEvent) {
    e.Arrive? && !e.expired && !Check(After(Shown(s, e.p.to, e.p.from)), Num(e.p)).duplicate
  }

  /** Any packet ever sent may arrive, whether or not it has arrived before. */
  ghost predicate CanHappen(s: Deployed, e: NetEvent) {
    match e
    case Local(e) => !e.Deliver? && Enabled(s.cluster, e)
    case Arrive(p, _, peers) => p in s.cluster.sent && p.to in s.cluster.ids && ListsPeers(peers, s.cluster.ids, p.to)
  }

  /** What the window has been shown includes every packet the handlers have had. */
  ghost predicate Remembered(s: Deployed) {
    forall p :: p in s.cluster.delivered ==> Num(p) in Shown(s, p.to, p.from)
  }

  ghost predicate NetStep(s: Deployed, e: NetEvent, s': Deployed) {
    && WF(s.cluster) && CanHappen(s, e)
    && match e
       case Local(e) => s' == s.(cluster := s'.cluster) && Steps(s.cluster, e, s'.cluster)
       case Arrive(p, expired, peers) =>
         && s'.shown == (if expired then s.shown else s.shown[(p.to, p.from) := Shown(s, p.to, p.from) + [Num(p)]])
         && s'.cluster == if Passes(s, e) then Handle(s.cluster, p, peers) else s.cluster
  }

  /** The handler runs whether or not the packet was handled before: nothing here assumes it was not. */
  function Handle(s: Cluster, p: Packet, peers: seq<Id>): Cluster
    requires WF(s) && p in s.sent && p.to in s.ids && ListsPeers(peers, s.ids, p.to)
  {
    ReadyToHandle(s, p, peers);
    Assemble(s, Deliver(p, peers), p.to, Act(s.nodes[p.to], Deliver(p, peers)))
  }

  lemma ReadyToHandle(s: Cluster, p: Packet, peers: seq<Id>)
    requires WF(s) && p in s.sent && p.to in s.ids && ListsPeers(peers, s.ids, p.to)
    ensures CanAct(s.nodes[p.to], Deliver(p, peers))
  {
  }

  ghost predicate NetRun(states: seq<Deployed>, events: seq<NetEvent>) {
    && |states| == |events| + 1
    && 0 !in states[0].cluster.ids && states[0] == Deployed(Init(states[0].cluster.ids), map[])
    && forall k :: 0 <= k < |events| ==> NetStep(states[k], events[k], states[k + 1])
  }

  /** A packet that passes the window has not been handled before. */
  lemma PassesOnce(s: Deployed, e: NetEvent)
    requires Remembered(s) && Passes(s, e)
    ensures e.p !in s.cluster.delivered
  {
    var shown := Shown(s, e.p.to, e.p.from);
    assert shown + [] == shown;
    if e.p in s.cluster.delivered {
      NeverTwice(shown, [], Num(e.p));
    }
  }

  /** The cluster event an execution step performs, when it performs one. */
  function Underlying(e: NetEvent): Event {
    match e
    case Local(c) => c
    case Arrive(p, _, peers) => Deliver(p, peers)
  }

  predicate Moves(s: Deployed, e: NetEvent) {
    e.Local? || Passes(s, e)
  }

  /** One step over the router is one step of the cluster, or leaves the cluster alone. */
  lemma StepRefines(s: Deployed, e: NetEvent, s': Deployed)
    requires NetStep(s, e, s') && Remembered(s)
    ensures Remembered(s')
    ensures if Moves(s, e) then Steps(s.cluster, Underlying(e), s'.cluster) else s'.cluster == s.cluster
  {
    hide Check, After, Act, Observe;
    if e.Arrive? && Passes(s, e) {
      PassesOnce(s, e);
    }
  }

  ghost predicate Honest(s: Cluster, e: Event, s': Cluster) {
    Truthful(s, e, s') && Current(s, e)
  }

  /** The hypotheses of state-machine safety, on the steps that reach a handler. */
  ghost predicate NetHonest(states: seq<Deployed>, events: seq<NetEvent>, upto: nat)
    requires |states| == |events| + 1 && upto <= |events|
  {
    forall k :: 0 <= k < upto && Moves(states[k], events[k]) ==>
      Honest(states[k].cluster, Underlying(events[k]), states[k + 1].cluster)
  }

  /** The steps up to `k` that moved the cluster form a run of the cluster, honest if they are, that
      passes through every cluster state seen up to then. */
  lemma {:induction false} RunRefines(states: seq<Deployed>, events: seq<NetEvent>, k: nat)
    returns (run: seq<Cluster>, steps: seq<Event>)
    requires NetRun(states, events) && k < |states|
    ensures Run(run, steps) && run[|run| - 1] == states[k].cluster && run[0].ids == states[0].cluster.ids
    ensures forall j :: 0 <= j <= k ==> states[j].cluster in run
    ensures NetHonest(states, events, k) ==> HonestRun(run, steps)
    ensures Remembered(states[k])
  {
    hide NetStep, Steps, Remembered, Init, Moves, Underlying, Run, HonestRun, Honest;
    if k == 0 {
      run, steps := [states[0].cluster], [];
      StartRun(states, events);
    } else {
      run, steps := RunRefines(states, events, k - 1);
      StepRefines(states[k - 1], events[k - 1], states[k]);
      if Moves(states[k - 1], events[k - 1]) {
        var c, s' := Underlying(events[k - 1]), states[k].cluster;
        LongerRun(run, steps, c, s');
        Passing(run, s', states, k);
        run, steps := run + [s'], steps + [c];
      }
    }
  }

  lemma StartRun(states: seq<Deployed>, events: seq<NetEvent>)
    requires NetRun(states, events)
    ensures Run([states[0].cluster], []) && HonestRun([states[0].cluster], []) && Remembered(states[0])
  {
    hide NetStep;
  }

  lemma Passing(run: seq<Cluster>, s': Cluster, states: seq<Deployed>, k: nat)
    requires 0 < k < |states| && s' == states[k].cluster
    requires forall j :: 0 <= j <= k - 1 ==> states[j].cluster in run
    ensures forall j :: 0 <= j <= k ==> states[j].cluster in run + [s']
  {
    forall j | 0 <= j <= k ensures states[j].cluster in run + [s'] {
      if j == k {
        assert (run + [s'])[|run|] == s';
      }
    }
  }

  lemma LongerRun(run: seq<Cluster>, steps: seq<Event>, c: Event, s': Cluster)
    requires Run(run, steps) && Steps(run[|run| - 1], c, s')
    ensures Run(run + [s'], steps + [c])
    ensures HonestRun(run, steps) && Honest(run[|run| - 1], c, s') ==> HonestRun(run + [s'], steps + [c])
  {
    hide Steps, Truthful, Current, Init;
  }

  /** Election safety over a network that drops, duplicates and reorders. */
  lemma ElectionSafety(states: seq<Deployed>, events: seq<NetEvent>, j: nat, k: nat, a: Id, b: Id, t: nat)
    requires NetRun(states, events) && MajorityWins(states[0].cluster.ids)
    requires j < |states| && k < |states|
    requires RaftElection.Leads(states[j].cluster, a, t) && RaftElection.Leads(states[k].cluster, b, t)
    ensures a == b
  {
    hide NetRun, Run, HonestRun, NetHonest, RaftElection.Leads;
    var run, steps := RunRefines(states, events, |states| - 1);
    var j' :| 0 <= j' < |run| && run[j'] == states[j].cluster;
    var k' :| 0 <= k' < |run| && run[k'] == states[k].cluster;
    RaftElection.ElectionSafety(run, steps, j', k', a, b, t);
  }

  /** State-machine safety over the same network, on honest executions. */
  lemma StateMachineSafety(states: seq<Deployed>, events: seq<NetEvent>, j: nat, a: Id, k: nat, b: Id, x: nat)
    requires NetRun(states, events) && NetHonest(states, events, |states| - 1) && MajorityWins(states[0].cluster.ids)
    requires j < |states| && a in states[j].cluster.nodes && x < |states[j].cluster.nodes[a].applied|
    requires k < |states| && b in states[k].cluster.nodes && x < |states[k].cluster.nodes[b].applied|
    ensures states[j].cluster.nodes[a].applied[x] == states[k].cluster.nodes[b].applied[x]
  {
    hide NetRun, Run, HonestRun, NetHonest;
    var run, steps := RunRefines(states, events, |states| - 1);
    var j' :| 0 <= j' < |run| && run[j'] == states[j].cluster;
    var k' :| 0 <= k' < |run| && run[k'] == states[k].cluster;
    RaftSafety.StateMachineSafety(run, steps, j', a, k', b, x);
  }
}
