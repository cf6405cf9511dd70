/**
 A cluster of Raft nodes over a network that may lose, delay and reorder messages but hands each
 message instance to a handler at most once (module RaftOverRouter shows that the runtime's
 router supplies that guarantee over a network that also duplicates).

 `History` records what happened for use in specifications and proofs; no handler reads it.
 */
module RaftCluster {
  import opened RaftNode

  /** One stamped message instance. `answers` is, on a reply to AppendEntries, the term of the request. */
  datatype Packet = Packet(from: Id, to: Id, uid: nat, body: Body, answers: nat)

  datatype Ballot = Ballot(candidate: Id, log: seq<Entry>)

  /** What node `id` held at some moment while in term `term`. */
  datatype Snap = Snap(id: Id, term: nat, log: seq<Entry>)

  datatype History = History(
    candLog: map<(nat, Id), seq<Entry>>,   // (term, candidate) -> its log when it stood
    ballots: map<(nat, Id), Ballot>,       // (term, voter) -> its first vote, and its log then
    tally: map<(nat, Id), set<Id>>,        // (term, candidate) -> voters counted so far
    won: map<nat, Id>,                     // term -> who became leader
    quorum: map<nat, set<Id>>,             // term -> voters counted when it did
    leaderLog: map<nat, seq<Entry>>,       // term -> the log of that term's leader
    snaps: set<Snap>)

  datatype Cluster = Cluster(
    ids: set<Id>,
    nodes: map<Id, Node>,
    stamp: map<Id, nat>,                   // messages stamped so far, per sender
    sent: set<Packet>,
    delivered: set<Packet>,
    h: History)

  datatype Event =
    | Timeout(id: Id, peers: seq<Id>)
    | Tick(id: Id, peers: seq<Id>)
    | Submit(id: Id, command: Command, peers: seq<Id>)
    | Deliver(p: Packet, peers: seq<Id>)

  function Actor(e: Event): Id {
    if e.Deliver? then e.p.to else e.id
  }

  ghost predicate ListsPeers(peers: seq<Id>, ids: set<Id>, i: Id) {
    && (forall p :: p in peers <==> p in ids && p != i)
    && (forall a, b :: 0 <= a < b < |peers| ==> peers[a] != peers[b])
  }

  function Elements(s: seq<Id>): (r: set<Id>)
    ensures forall p :: p in r <==> p in s
  {
    set p | p in s
  }

  lemma {:induction false} DistinctSize(s: seq<Id>)
    requires forall a, b :: 0 <= a < b < |s| ==> s[a] != s[b]
    ensures |Elements(s)| == |s|
  {
    if s != [] {
      var t := s[..|s| - 1];
      DistinctSize(t);
      assert Elements(s) == Elements(t) + {s[|s| - 1]};
    }
  }

  lemma PeersSize(peers: seq<Id>, ids: set<Id>, i: Id)
    requires ListsPeers(peers, ids, i) && i in ids
    ensures |peers| == |ids| - 1
  {
    DistinctSize(peers);
    assert Elements(peers) == ids - {i};
  }

  // ---------- Initial state and steps ----------

  ghost predicate Ready(n: Node, ids: set<Id>) {
    n.role == Leader ==> forall p :: p in ids && p != n.id ==> CanSendTo(n, p)
  }

  ghost predicate Routed(p: Packet, ids: set<Id>) {
    p.from in ids && p.to in ids && p.from != p.to
  }

  ghost predicate NodesWF(s: Cluster) {
    && 0 !in s.ids
    && s.nodes.Keys == s.ids && s.stamp.Keys == s.ids
    && (forall i :: i in s.ids ==> s.nodes[i].id == i && Ready(s.nodes[i], s.ids))
  }

  /** Every packet joins two different members, and (from, uid) identifies it. */
  ghost predicate PacketsWF(s: Cluster)
    requires NodesWF(s)
  {
    && (forall p :: p in s.sent ==> Routed(p, s.ids) && 1 <= p.uid <= s.stamp[p.from])
    && (forall p, q :: p in s.sent && q in s.sent && p.from == q.from && p.uid == q.uid ==> p == q)
    && s.delivered <= s.sent
  }

  ghost predicate WF(s: Cluster) {
    NodesWF(s) && PacketsWF(s)
  }

  ghost predicate Enabled(s: Cluster, e: Event) {
    && Actor(e) in s.ids
    && ListsPeers(e.peers, s.ids, Actor(e))
    && (e.Deliver? ==> e.p in s.sent && e.p !in s.delivered)
  }

  function Init(ids: set<Id>): (s: Cluster)
    requires 0 !in ids
    ensures WF(s) && s.ids == ids
  {
    Cluster(ids, map i | i in ids :: New(i), map i | i in ids :: 0, {}, {},
      History(map[], map[], map[], map[], map[], map[], set i | i in ids :: Snap(i, 0, [])))
  }

  function Receive(n: Node, p: Packet, peers: seq<Id>): Effect
    requires p.body.AppendReply? ==> CanAnswer(n, p.from, p.body)
  {
    match p.body
    case RequestVote(_, _, _, _) => HandleRequestVote(n, p.from, p.body)
    case VoteReply(_, _) => HandleVoteReply(n, p.body, peers)
    case AppendEntries(_, _, _, _, _, _) => HandleAppendEntries(n, p.from, p.body)
    case AppendReply(_, _, _) => HandleAppendReply(n, p.from, p.body, peers)
  }

  /** Where the source would have to slice its log below index 0, it cannot act. */
  predicate CanAct(n: Node, e: Event) {
    match e
    case Timeout(_, _) => true
    case Deliver(p, _) => p.body.AppendReply? ==> CanAnswer(n, p.from, p.body)
    case _ => n.role == Leader ==> CanSend(n, e.peers)
  }

  function Act(n: Node, e: Event): Effect
    requires CanAct(n, e)
  {
    match e
    case Timeout(_, peers) => StartElection(n, peers)
    case Tick(_, peers) => Heartbeat(n, peers)
    case Submit(_, command, peers) => Propose(n, command, peers)
    case Deliver(p, peers) => Receive(n, p, peers)
  }

  function Tag(e: Event): nat {
    if e.Deliver? && e.p.body.AppendEntries? then e.p.body.term else 0
  }

  function Stamped(from: Id, base: nat, out: seq<Send>, tag: nat): set<Packet> {
    set j | 0 <= j < |out| :: Packet(from, out[j].to, base + 1 + j, out[j].body, tag)
  }

  /** The vote that `e` adds to the candidate's tally, if it adds one. */
  predicate Counts(n: Node, e: Event) {
    && e.Deliver? && e.p.body.VoteReply? && e.p.body.granted
    && n.role == Candidate && e.p.body.term == n.currentTerm
  }

  function TallyOf(h: History, term: nat, c: Id): set<Id> {
    if (term, c) in h.tally then h.tally[(term, c)] else {}
  }

  function Observe(h: History, i: Id, n: Node, n': Node, e: Event): History {
    var tally := if e.Timeout? then h.tally[(n'.currentTerm, i) := {i}]
                 else if Counts(n, e) then h.tally[(n.currentTerm, i) := TallyOf(h, n.currentTerm, i) + {e.p.from}]
                 else h.tally;
    var wins := n'.role == Leader && n.role != Leader;
    History(
      if e.Timeout? then h.candLog[(n'.currentTerm, i) := n.log] else h.candLog,
      if n'.votedFor != 0 && (n'.currentTerm, i) !in h.ballots
        then h.ballots[(n'.currentTerm, i) := Ballot(n'.votedFor, n.log)] else h.ballots,
      tally,
      if wins then h.won[n'.currentTerm := i] else h.won,
      if wins && (n'.currentTerm, i) in tally then h.quorum[n'.currentTerm := tally[(n'.currentTerm, i)]] else h.quorum,
      if n'.role == Leader then h.leaderLog[n'.currentTerm := n'.log] else h.leaderLog,
      h.snaps + {Snap(i, n'.currentTerm, n'.log)})
  }

  function Assemble(s: Cluster, e: Event, i: Id, effect: Effect): Cluster
    requires i in s.nodes && i in s.stamp
  {
    Cluster(s.ids,
      s.nodes[i := effect.node],
      s.stamp[i := s.stamp[i] + |effect.out|],
      s.sent + Stamped(i, s.stamp[i], effect.out, Tag(e)),
      if e.Deliver? then s.delivered + {e.p} else s.delivered,
      Observe(s.h, i, s.nodes[i], effect.node, e))
  }

  /** What a handler may leave: a node of the same name, ready to send to its peers, and messages to some of them. */
  ghost predicate Leaves(n: Node, ids: set<Id>, f: Effect) {
    && f.node.id == n.id && Ready(f.node, ids)
    && forall k :: 0 <= k < |f.out| ==> f.out[k].to in ids && f.out[k].to != n.id
  }

  lemma PeersReady(n: Node, peers: seq<Id>, ids: set<Id>)
    requires Ready(n, ids) && ListsPeers(peers, ids, n.id) && n.role == Leader
    ensures CanSend(n, peers)
  {
  }

  lemma BroadcastLeaves(n: Node, peers: seq<Id>, ids: set<Id>)
    requires CanSend(n, peers) && ListsPeers(peers, ids, n.id)
    ensures var out := Broadcast(n, peers); forall k :: 0 <= k < |out| ==> out[k].to in ids && out[k].to != n.id
  {
    assert forall k :: 0 <= k < |peers| ==> peers[k] in peers;
  }

  lemma LeaderMade(n: Node, peers: seq<Id>, ids: set<Id>)
    requires ListsPeers(peers, ids, n.id)
    ensures Leaves(n, ids, BecomeLeader(n, peers))
  {
    hide Broadcast, SetAll;
    BroadcastLeaves(BecomeLeader(n, peers).node, peers, ids);
  }

  lemma VoteReplyLeaves(n: Node, reply: Body, peers: seq<Id>, ids: set<Id>)
    requires reply.VoteReply? && Ready(n, ids) && ListsPeers(peers, ids, n.id)
    ensures Leaves(n, ids, HandleVoteReply(n, reply, peers))
  {
    hide BecomeLeader, ListsPeers;
    LeaderMade(n.(votesReceived := n.votesReceived + 1), peers, ids);
  }

  lemma AppendReplyLeaves(n: Node, from: Id, reply: Body, peers: seq<Id>, ids: set<Id>)
    requires reply.AppendReply? && Ready(n, ids) && from in ids && from != n.id
    ensures CanAnswer(n, from, reply) && Leaves(n, ids, HandleAppendReply(n, from, reply, peers))
  {
    hide MaybeCommit;
  }

  lemma AppendEntriesLeaves(n: Node, from: Id, ae: Body, ids: set<Id>)
    requires ae.AppendEntries? && Ready(n, ids) && from in ids && from != n.id
    ensures Leaves(n, ids, HandleAppendEntries(n, from, ae))
  {
    hide FollowCommit, Overwrite, Consistent;
  }

  lemma RequestVoteLeaves(n: Node, from: Id, rv: Body, ids: set<Id>)
    requires rv.RequestVote? && Ready(n, ids) && from in ids && from != n.id
    ensures Leaves(n, ids, HandleRequestVote(n, from, rv))
  {
    hide UpToDate;
  }

  lemma ElectionLeaves(n: Node, peers: seq<Id>, ids: set<Id>)
    requires ListsPeers(peers, ids, n.id)
    ensures Leaves(n, ids, StartElection(n, peers))
  {
    assert forall k :: 0 <= k < |peers| ==> peers[k] in peers;
  }

  lemma ActStaysReady(n: Node, e: Event, ids: set<Id>)
    requires n.id in ids && n.id == Actor(e)
    requires Ready(n, ids) && ListsPeers(e.peers, ids, n.id)
    requires e.Deliver? ==> Routed(e.p, ids)
    ensures CanAct(n, e) && Leaves(n, ids, Act(n, e))
  {
    hide StartElection, HandleRequestVote, HandleVoteReply, HandleAppendEntries, HandleAppendReply, Broadcast,
      ListsPeers, CanSend;
    if n.role == Leader {
      PeersReady(n, e.peers, ids);
    }
    match e
    case Timeout(_, peers) => ElectionLeaves(n, peers, ids);
    case Tick(_, peers) =>
      if n.role == Leader {
        BroadcastLeaves(n, peers, ids);
      }
    case Submit(_, command, peers) =>
      if n.role == Leader {
        var n' := n.(log := n.log + [Entry(n.currentTerm, command)]);
        PeersReady(n', peers, ids);
        BroadcastLeaves(n', peers, ids);
      }
    case Deliver(p, peers) =>
      match p.body {
        case RequestVote(_, _, _, _) => RequestVoteLeaves(n, p.from, p.body, ids);
        case VoteReply(_, _) => VoteReplyLeaves(n, p.body, peers, ids);
        case AppendEntries(_, _, _, _, _, _) => AppendEntriesLeaves(n, p.from, p.body, ids);
        case AppendReply(_, _, _) => AppendReplyLeaves(n, p.from, p.body, peers, ids);
      }
  }

  lemma StampedAre(i: Id, base: nat, out: seq<Send>, tag: nat, ids: set<Id>, p: Packet)
    requires i in ids && p in Stamped(i, base, out, tag)
    requires forall k :: 0 <= k < |out| ==> out[k].to in ids && out[k].to != i
    ensures Routed(p, ids) && p.from == i && base < p.uid <= base + |out|
  {
  }

  lemma StampedOnce(i: Id, base: nat, out: seq<Send>, tag: nat, p: Packet, q: Packet)
    requires p in Stamped(i, base, out, tag) && q in Stamped(i, base, out, tag) && p.uid == q.uid
    ensures p == q
  {
  }

  lemma AssembleWF(s: Cluster, e: Event, i: Id, effect: Effect)
    requires WF(s) && i in s.ids && s.nodes[i].id == i
    requires e.Deliver? ==> e.p in s.sent
    requires Leaves(s.nodes[i], s.ids, effect)
    ensures WF(Assemble(s, e, i, effect))
  {
    hide Ready, Stamped, Observe, Routed;
    var s' := Assemble(s, e, i, effect);
    var base, tag := s.stamp[i], Tag(e);
    var added := Stamped(i, base, effect.out, tag);
    forall p | p in s'.sent ensures Routed(p, s.ids) && p.from in s'.stamp && 1 <= p.uid <= s'.stamp[p.from] {
      if p in added {
        StampedAre(i, base, effect.out, tag, s.ids, p);
      }
      RoutedFrom(p, s.ids);
    }
    forall p, q | p in s'.sent && q in s'.sent && p.from == q.from && p.uid == q.uid
      ensures p == q
    {
      if p in added {
        StampedAre(i, base, effect.out, tag, s.ids, p);
      }
      if q in added {
        StampedAre(i, base, effect.out, tag, s.ids, q);
      }
      if p in added && q in added {
        StampedOnce(i, base, effect.out, tag, p, q);
      }
    }
  }

  lemma RoutedFrom(p: Packet, ids: set<Id>)
    requires Routed(p, ids)
    ensures p.from in ids
  {
  }

  function Next(s: Cluster, e: Event): (s': Cluster)
    requires WF(s) && Enabled(s, e)
    ensures WF(s') && s'.ids == s.ids
  {
    var i := Actor(e);
    ActStaysReady(s.nodes[i], e, s.ids);
    AssembleWF(s, e, i, Act(s.nodes[i], e));
    Assemble(s, e, i, Act(s.nodes[i], e))
  }

  // ---------- Runs ----------

  ghost predicate Run(states: seq<Cluster>, events: seq<Event>) {
    && |states| == |events| + 1
    && 0 !in states[0].ids && states[0] == Init(states[0].ids)
    && forall k :: 0 <= k < |events| ==> Steps(states[k], events[k], states[k + 1])
  }

  ghost predicate Steps(s: Cluster, e: Event, s': Cluster) {
    WF(s) && Enabled(s, e) && s' == Next(s, e)
  }

  /** The membership sizes for which the source's vote threshold is a majority. */
  predicate MajorityWins(ids: set<Id>) {
    |ids| % 2 == 1 || |ids| == 2
  }
}
