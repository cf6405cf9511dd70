/**
 The parts that concrete runs of a cluster are put together from: an election, a submitted command, a
 message refused or accepted, an acknowledgement counted. Each extends a run by a few events and says
 what changed, what stayed as it was, and which messages are on their way.
 */
module RaftScenes {
  import opened RaftNode
  import opened RaftCluster
  import RaftElection
  import opened RaftRuns
  import opened RaftLogs
  import opened RaftReplication
  import opened RaftSafety

  /** A run and its last state. */
  datatype Tape = Tape(states: seq<Cluster>, events: seq<Event>, end: Cluster)

  /** The source cancels the election timer of a node that becomes leader. */
  ghost predicate LeadersDoNotStand(states: seq<Cluster>, events: seq<Event>)
    requires |states| == |events| + 1
  {
    forall k :: 0 <= k < |events| && events[k].Timeout? && events[k].id in states[k].nodes ==>
      states[k].nodes[events[k].id].role != Leader
  }

  ghost predicate AllTruthful(states: seq<Cluster>, events: seq<Event>)
    requires |states| == |events| + 1
  {
    forall k :: 0 <= k < |events| ==> Truthful(states[k], events[k], states[k + 1])
  }

  ghost predicate AllCurrent(states: seq<Cluster>, events: seq<Event>)
    requires |states| == |events| + 1
  {
    forall k :: 0 <= k < |events| ==> Current(states[k], events[k])
  }

  ghost predicate Good(r: Tape) {
    && GoodRun(r.states, r.events) && |r.states| == |r.events| + 1 && r.end == Last(r.states)
    && r.states[0].ids == r.end.ids == r.end.nodes.Keys
    && (forall i :: i in r.end.ids ==> r.end.nodes[i].id == i)
    && LeadersDoNotStand(r.states, r.events)
  }

  ghost predicate Honest(r: Tape) {
    |r.states| == |r.events| + 1 && AllTruthful(r.states, r.events)
  }

  ghost predicate Punctual(r: Tape) {
    |r.states| == |r.events| + 1 && AllCurrent(r.states, r.events)
  }

  /** `r'` extends `r` by steps that are truthful and current if the flags say so. */
  ghost predicate Follows(r: Tape, r': Tape, truthful: bool, current: bool) {
    && Good(r') && r'.end.ids == r.end.ids && r.states <= r'.states
    && (Honest(r) && truthful ==> Honest(r')) && (Punctual(r) && current ==> Punctual(r'))
  }

  /** From `s` to `s'`, only `touched` nodes changed and of the packets in flight only `used` were taken. */
  ghost predicate Frame(s: Cluster, s': Cluster, touched: set<Id>, used: set<Packet>) {
    && s'.nodes.Keys == s.nodes.Keys && s.sent <= s'.sent
    && (forall i :: i in s.nodes && i !in touched ==> s'.nodes[i] == s.nodes[i])
    && (forall p :: Pending(s, p) && p !in used ==> Pending(s', p))
  }

  // ---------- One event ----------

  ghost predicate Possible(s: Cluster, e: Event) {
    && Actor(e) in s.ids && Actor(e) in s.nodes && ListsPeers(e.peers, s.ids, Actor(e))
    && (e.Deliver? ==> Pending(s, e.p))
    && (e.Timeout? ==> s.nodes[e.id].role != Leader)
  }

  lemma PossibleEnabled(s: Cluster, e: Event)
    requires Possible(s, e)
    ensures Enabled(s, e)
  {
    hide ListsPeers;
  }

  lemma {:induction false} Extend(r: Tape, e: Event, s': Cluster)
    requires Good(r) && Possible(r.end, e) && Run(r.states + [s'], r.events + [e])
    requires WF(s') && s'.ids == r.end.ids
    ensures Follows(r, Tape(r.states + [s'], r.events + [e], s'), Truthful(r.end, e, s'), Current(r.end, e))
  {
    hide Run, Truthful, Current, PacketsWF, Pending, ListsPeers, Good, AllTruthful, AllCurrent;
    var r' := Tape(r.states + [s'], r.events + [e], s');
    ExtendGood(r, e, s');
    GoodLength(r);
    if Honest(r) && Truthful(r.end, e, s') {
      ExtendHonest(r, e, s');
    }
    if Punctual(r) && Current(r.end, e) {
      ExtendPunctual(r, e, s');
    }
  }

  lemma GoodLength(r: Tape)
    requires Good(r)
    ensures |r.states| == |r.events| + 1 && r.end == r.states[|r.states| - 1]
  {
    hide GoodRun, LeadersDoNotStand;
  }

  lemma ExtendGood(r: Tape, e: Event, s': Cluster)
    requires Good(r) && Possible(r.end, e) && Run(r.states + [s'], r.events + [e])
    requires WF(s') && s'.ids == r.end.ids
    ensures Good(Tape(r.states + [s'], r.events + [e], s'))
  {
    hide Run, PacketsWF, Pending, ListsPeers;
  }

  lemma ExtendHonest(r: Tape, e: Event, s': Cluster)
    requires |r.states| == |r.events| + 1 && r.end == r.states[|r.states| - 1]
    requires Honest(r) && Truthful(r.end, e, s')
    ensures Honest(Tape(r.states + [s'], r.events + [e], s'))
  {
    hide Truthful;
  }

  lemma ExtendPunctual(r: Tape, e: Event, s': Cluster)
    requires |r.states| == |r.events| + 1 && r.end == r.states[|r.states| - 1]
    requires Punctual(r) && Current(r.end, e)
    ensures Punctual(Tape(r.states + [s'], r.events + [e], s'))
  {
    hide Current;
  }

  lemma GoodEnd(r: Tape)
    requires Good(r)
    ensures Run(r.states, r.events) && |r.states| > 0 && WF(r.end) && r.end == r.states[|r.states| - 1]
  {
    hide Run, WF, LeadersDoNotStand;
  }

  lemma NodeIds(r: Tape, c: Id)
    requires Good(r) && c in r.end.ids
    ensures c in r.end.nodes && r.end.nodes[c].id == c
  {
    hide GoodRun, LeadersDoNotStand;
  }

  /** `f` is what the handler makes of `e`. */
  ghost predicate Acted(s: Cluster, e: Event, f: Effect) {
    Actor(e) in s.nodes && CanAct(s.nodes[Actor(e)], e) && f == Act(s.nodes[Actor(e)], e)
  }

  lemma ActedHere(s: Cluster, e: Event, f: Effect)
    requires WF(s) && Enabled(s, e) && CanAct(s.nodes[Actor(e)], e) && f == Act(s.nodes[Actor(e)], e)
    ensures Acted(s, e, f)
  {
    hide Act, CanAct;
  }

  lemma FiredFrame(s: Cluster, e: Event, f: Effect, s': Cluster)
    requires Fired(s, e, f, s')
    ensures Frame(s, s', {Actor(e)}, if e.Deliver? then {e.p} else {}) && s'.ids == s.ids
    ensures Actor(e) in s'.nodes && s'.nodes[Actor(e)] == f.node
  {
    hide Pending;
  }

  lemma Do(r: Tape, e: Event) returns (r': Tape, f: Effect)
    requires Good(r) && Possible(r.end, e)
    ensures Follows(r, r', Truthful(r.end, e, r'.end), Current(r.end, e))
    ensures Acted(r.end, e, f) && Fired(r.end, e, f, r'.end)
    ensures Frame(r.end, r'.end, {Actor(e)}, if e.Deliver? then {e.p} else {})
    ensures Actor(e) in r'.end.nodes && r'.end.nodes[Actor(e)] == f.node
  {
    hide *;
    GoodEnd(r);
    PossibleEnabled(r.end, e);
    var s';
    s', f := Fire(r.states, r.events, e);
    ActedHere(r.end, e, f);
    FiredFrame(r.end, e, f, s');
    Extend(r, e, s');
    r' := Tape(r.states + [s'], r.events + [e], s');
  }

  // ---------- Messages on their way ----------

  /** `p` was put in flight between `s` and `s'`. */
  ghost predicate Mail(s: Cluster, s': Cluster, p: Packet, from: Id, to: Id, body: Body, answers: nat) {
    Pending(s', p) && p !in s.sent && p.from == from && p.to == to && p.body == body && p.answers == answers
  }

  ghost predicate Posts(s: Cluster, s': Cluster, from: Id, to: Id, body: Body, answers: nat) {
    exists p :: Mail(s, s', p, from, to, body, answers)
  }

  /** The same message went to everyone else. */
  ghost predicate PostsToAll(s: Cluster, s': Cluster, from: Id, body: Body) {
    forall to :: to in s.ids && to != from ==> Posts(s, s', from, to, body, 0)
  }

  lemma Letter(s: Cluster, s': Cluster, from: Id, to: Id, body: Body, answers: nat) returns (p: Packet)
    requires Posts(s, s', from, to, body, answers)
    ensures Pending(s', p) && p !in s.sent && p.from == from && p.to == to && p.body == body && p.answers == answers
  {
    hide Pending;
    p :| Mail(s, s', p, from, to, body, answers);
  }

  lemma LetterTo(s: Cluster, s': Cluster, from: Id, to: Id, body: Body) returns (p: Packet)
    requires PostsToAll(s, s', from, body) && to in s.ids && to != from
    ensures Pending(s', p) && p !in s.sent && p.from == from && p.to == to && p.body == body && p.answers == 0
  {
    hide Posts, Pending;
    p := Letter(s, s', from, to, body, 0);
  }

  lemma Posted(r: Tape, e: Event, f: Effect, s': Cluster, j: nat)
    requires Good(r) && Fired(r.end, e, f, s') && j < |f.out|
    ensures Posts(r.end, s', Actor(e), f.out[j].to, f.out[j].body, Tag(e))
  {
    hide GoodRun, Run, LeadersDoNotStand, Pending, Mail, Tag, Good;
    var p := Packet(Actor(e), f.out[j].to, r.end.stamp[Actor(e)] + 1 + j, f.out[j].body, Tag(e));
    assert Pending(s', p);
    GoodEnd(r);
    NotYetSent(r.end, p);
    IsMail(r.end, s', p);
  }

  lemma NotYetSent(s: Cluster, p: Packet)
    requires WF(s) && p.from in s.stamp && p.uid > s.stamp[p.from]
    ensures p !in s.sent
  {
    hide Ready;
  }

  lemma IsMail(s: Cluster, s': Cluster, p: Packet)
    requires Pending(s', p) && p !in s.sent
    ensures Mail(s, s', p, p.from, p.to, p.body, p.answers)
  {
    hide Pending;
  }

  /** If the peers are each sent `body`, everyone else is. */
  lemma PostedToAll(r: Tape, e: Event, f: Effect, s': Cluster, body: Body)
    requires Good(r) && Fired(r.end, e, f, s') && ListsPeers(e.peers, r.end.ids, Actor(e)) && Tag(e) == 0
    requires |f.out| == |e.peers| && forall j :: 0 <= j < |f.out| ==> f.out[j] == Send(e.peers[j], body)
    ensures PostsToAll(r.end, s', Actor(e), body)
  {
    hide Good, Fired, Posts, Tag;
    forall to | to in r.end.ids && to != Actor(e) ensures Posts(r.end, s', Actor(e), to, body, 0) {
      var j := Position(e.peers, r.end.ids, Actor(e), to);
      Posted(r, e, f, s', j);
    }
  }

  lemma Position(peers: seq<Id>, ids: set<Id>, i: Id, p: Id) returns (j: nat)
    requires ListsPeers(peers, ids, i) && p in ids && p != i
    ensures j < |peers| && peers[j] == p
  {
    assert p in peers;
    j :| j < |peers| && peers[j] == p;
  }

  // ---------- What stays ----------

  lemma FrameTrans(s: Cluster, s1: Cluster, s2: Cluster, t1: set<Id>, u1: set<Packet>, t2: set<Id>, u2: set<Packet>,
                   t: set<Id>, u: set<Packet>)
    requires Frame(s, s1, t1, u1) && Frame(s1, s2, t2, u2) && t1 <= t && t2 <= t
    requires forall p :: p in u1 || p in u2 ==> p in u || p !in s.sent
    ensures Frame(s, s2, t, u)
  {
    forall p | Pending(s, p) && p !in u ensures Pending(s2, p) {
      assert Pending(s1, p);
    }
  }

  lemma FollowsTrans(r: Tape, r1: Tape, r2: Tape, t1: bool, c1: bool, t2: bool, c2: bool)
    requires Follows(r, r1, t1, c1) && Follows(r1, r2, t2, c2)
    ensures Follows(r, r2, t1 && t2, c1 && c2)
  {
    hide Good, Honest, Punctual;
  }

  lemma Weaker(r: Tape, r': Tape, t: bool, c: bool, t': bool, c': bool)
    requires Follows(r, r', t, c) && (t' ==> t) && (c' ==> c)
    ensures Follows(r, r', t', c')
  {
    hide Good, Honest, Punctual;
  }

  lemma FollowsGood(r: Tape, r': Tape, t: bool, c: bool)
    requires Follows(r, r', t, c)
    ensures Good(r') && r'.end.ids == r.end.ids
  {
    hide Good, Honest, Punctual;
  }

  lemma Untouched(s: Cluster, s': Cluster, touched: set<Id>, used: set<Packet>, i: Id)
    requires Frame(s, s', touched, used) && i !in touched
    ensures i in s.nodes ==> i in s'.nodes && s'.nodes[i] == s.nodes[i]
  {
    hide Pending;
  }

  lemma Others(s: Cluster, s': Cluster, touched: set<Id>, used: set<Packet>)
    requires Frame(s, s', touched, used)
    ensures forall i :: i in s.nodes && i !in touched ==> i in s'.nodes && s'.nodes[i] == s.nodes[i]
  {
    hide Pending;
  }

  lemma StillPending(s: Cluster, s': Cluster, touched: set<Id>, used: set<Packet>, p: Packet)
    requires Frame(s, s', touched, used) && Pending(s, p) && p !in used
    ensures Pending(s', p)
  {
    hide Pending;
  }

  lemma NotSent(s: Cluster, s1: Cluster, p: Packet, touched: set<Id>, used: set<Packet>)
    requires Frame(s, s1, touched, used) && p !in s1.sent
    ensures p !in s.sent
  {
    hide Pending;
  }

  /** Only accepted AppendEntries and counted success replies can be untruthful or out of date. */
  lemma Silent(s: Cluster, e: Event, s': Cluster)
    requires Actor(e) in s.nodes
    requires e.Deliver? && e.p.body.AppendEntries? ==> !Accepts(s.nodes[Actor(e)], e.p.body)
    ensures Truthful(s, e, s')
    ensures !(e.Deliver? && e.p.body.AppendReply? && e.p.body.success) ==> Current(s, e)
  {
  }

  // ---------- What each handler does to a node ----------

  datatype View = View(term: nat, log: seq<Entry>, commit: nat)

  predicate Is(n: Node, v: View) {
    && n.currentTerm == v.term && n.log == v.log && n.commitIndex == v.commit
    && (v.commit == 0 ==> n.lastApplied == 0 && n.applied == [])
  }

  predicate Holds(s: Cluster, i: Id, v: View) {
    i in s.nodes && Is(s.nodes[i], v)
  }

  predicate Leading(s: Cluster, i: Id, v: View) {
    Holds(s, i, v) && s.nodes[i].role == Leader
  }

  predicate Behind(s: Cluster, i: Id, v: View) {
    Holds(s, i, v) && s.nodes[i].role != Leader
  }

  predicate Standing(s: Cluster, i: Id, v: View, votes: nat) {
    Holds(s, i, v) && s.nodes[i].role == Candidate && s.nodes[i].votesReceived == votes
  }

  predicate NextIs(s: Cluster, i: Id, p: Id, next: nat) {
    i in s.nodes && Lookup(s.nodes[i].nextIndex, p) == next
  }

  predicate MatchIs(s: Cluster, i: Id, p: Id, m: nat) {
    i in s.nodes && p in s.nodes[i].matchIndex && s.nodes[i].matchIndex[p] == m
  }

  function Ask(c: Id, v: View): Body {
    RequestVote(v.term, c, |v.log|, LastTerm(v.log))
  }

  function AppendBody(v: View, i: Id, next: nat): (b: Body)
    requires next >= 1
    ensures b.AppendEntries? && b.term == v.term && b.prevLogIndex == next - 1 && b.leaderCommit == v.commit
  {
    AppendEntries(v.term, i, next - 1, PrevTerm(v.log, next - 1), if next - 1 < |v.log| then v.log[next - 1..] else [],
                  v.commit)
  }

  /** The view after an accepted message. */
  function Taken(v: View, ae: Body): View
    requires ae.AppendEntries? && ae.prevLogIndex <= |v.log|
  {
    var log := Overwrite(v.log, ae.prevLogIndex, ae.entries);
    View(ae.term, log, if ae.leaderCommit > v.commit then Min(ae.leaderCommit, |log|) else v.commit)
  }

  predicate Applies(n: Node, log: seq<Entry>) {
    |n.applied| == |log| && forall k :: 0 <= k < |log| ==> n.applied[k] == Applied(k + 1, log[k].command)
  }

  /** A node that learns of its first commits applies them. */
  predicate Catches(n: Node, v: View, v': View) {
    v.commit == 0 < v'.commit <= |v'.log| ==> Applies(n, v'.log[..v'.commit])
  }

  lemma TimeoutActs(n: Node, peers: seq<Id>, v: View)
    requires Is(n, v)
    ensures var f, v' := StartElection(n, peers), v.(term := v.term + 1);
            && Is(f.node, v') && f.node.role == Candidate && f.node.votesReceived == 1 && |f.out| == |peers|
            && forall j :: 0 <= j < |peers| ==> f.out[j] == Send(peers[j], Ask(n.id, v'))
  {
    assert LastIndex(n.log) == |v.log|;
  }

  lemma VoteActs(n: Node, from: Id, rv: Body, v: View)
    requires Is(n, v) && rv.RequestVote? && rv.term > v.term
    ensures var f := HandleRequestVote(n, from, rv);
            && Is(f.node, v.(term := rv.term)) && f.node.role == Follower
            && (UpToDate(rv.lastLogTerm, rv.lastLogIndex, v.log) ==> f.out == [Send(from, VoteReply(rv.term, true))])
  {
    hide UpToDate;
  }

  lemma CountVoteActs(n: Node, reply: Body, peers: seq<Id>, v: View)
    requires Is(n, v) && n.role == Candidate && reply == VoteReply(v.term, true)
    ensures var f := HandleVoteReply(n, reply, peers);
            && Is(f.node, v) && f.node.id == n.id
            && if n.votesReceived + 1 < |peers| / 2 + 1
               then f.node.role == Candidate && f.node.votesReceived == n.votesReceived + 1
               else f.node.role == Leader && f.out == Broadcast(f.node, peers)
                    && forall p :: p in peers ==> Lookup(f.node.nextIndex, p) == |v.log| + 1
  {
    hide Broadcast, SetAll;
  }

  lemma AppendIs(n: Node, p: Id, v: View)
    requires Is(n, v) && CanSendTo(n, p)
    ensures Append(n, p) == Send(p, AppendBody(v, n.id, Lookup(n.nextIndex, p)))
  {
  }

  lemma SubmitActs(n: Node, cmd: Command, peers: seq<Id>, v: View)
    requires Is(n, v) && n.role == Leader && CanSend(n, peers)
    ensures var f, v' := Propose(n, cmd, peers), v.(log := v.log + [Entry(v.term, cmd)]);
            && Is(f.node, v') && f.node.role == Leader && CanSend(f.node, peers) && f.out == Broadcast(f.node, peers)
            && f.node.id == n.id && f.node.nextIndex == n.nextIndex && f.node.matchIndex == n.matchIndex
            && f.node.applied == n.applied
  {
    hide Broadcast;
  }

  lemma RefuseActs(n: Node, from: Id, ae: Body, v: View)
    requires Is(n, v) && ae.AppendEntries? && ae.term >= v.term
    requires !Consistent(v.log, ae.prevLogIndex, ae.prevLogTerm)
    ensures var f := HandleAppendEntries(n, from, ae);
            && Is(f.node, v.(term := ae.term)) && f.node.role == Follower
            && f.out == [Send(from, AppendReply(v.term, false, 0))]
  {
    hide Consistent, Overwrite, FollowCommit;
  }

  lemma BackOffActs(n: Node, from: Id, reply: Body, peers: seq<Id>, v: View)
    requires Is(n, v) && n.role == Leader && Lookup(n.nextIndex, from) > 1
    requires reply.AppendReply? && !reply.success && reply.term <= v.term
    ensures var f, next := HandleAppendReply(n, from, reply, peers), Lookup(n.nextIndex, from) - 1;
            && Is(f.node, v) && f.node.role == Leader && f.node.matchIndex == n.matchIndex
            && f.node.nextIndex == n.nextIndex[from := next] && f.out == [Send(from, AppendBody(v, n.id, next))]
  {
    hide MaybeCommit, AppendBody, Append;
    AppendIs(n.(nextIndex := n.nextIndex[from := Lookup(n.nextIndex, from) - 1]), from, v);
  }

  lemma AcceptActs(n: Node, from: Id, ae: Body, v: View)
    requires Is(n, v) && ae.AppendEntries? && ae.term >= v.term
    requires Consistent(v.log, ae.prevLogIndex, ae.prevLogTerm) && ae.prevLogIndex <= |v.log|
    requires v.commit == 0 || Taken(v, ae).commit > 0
    ensures var f := HandleAppendEntries(n, from, ae);
            && Is(f.node, Taken(v, ae)) && f.node.role == Follower
            && f.out == [Send(from, AppendReply(v.term, true, |Taken(v, ae).log|))]
            && Catches(f.node, v, Taken(v, ae))
  {
    hide Overwrite, Consistent;
  }

  /** With a current entry on top, and enough followers `q` known to reach it, a leader commits its whole log. */
  lemma CommitActs(n: Node, from: Id, reply: Body, peers: seq<Id>, v: View, q: set<Id>)
    requires Is(n, v) && n.role == Leader && v.commit < |v.log| && v.log[|v.log| - 1].term == v.term
    requires reply.AppendReply? && reply.success && reply.term <= v.term && reply.matchIndex >= |v.log|
    requires forall p :: p in q ==> p == from || (p in n.matchIndex && n.matchIndex[p] >= |v.log|)
    requires 1 + |q| > (|peers| + 1) / 2
    ensures var n' := HandleAppendReply(n, from, reply, peers).node;
            && Is(n', v.(commit := |v.log|)) && n'.role == Leader
            && n'.matchIndex == n.matchIndex[from := reply.matchIndex]
            && n'.nextIndex == n.nextIndex[from := reply.matchIndex + 1]
            && (v.commit == 0 ==> Applies(n', v.log))
  {
    var n1 := n.(matchIndex := n.matchIndex[from := reply.matchIndex],
                 nextIndex := n.nextIndex[from := reply.matchIndex + 1]);
    assert q <= Matching(n1.matchIndex, |v.log|);
    RaftElection.SubsetSize(q, Matching(n1.matchIndex, |v.log|));
    hide Matching;
    assert CommitScan(n1, peers, |v.log|) == |v.log|;
  }

  /** A leader without entries has nothing to commit. */
  lemma NothingToCommit(n: Node, from: Id, reply: Body, peers: seq<Id>, v: View)
    requires Is(n, v) && n.role == Leader && v.log == []
    requires reply.AppendReply? && reply.success && reply.term <= v.term
    ensures var n' := HandleAppendReply(n, from, reply, peers).node;
            && Is(n', v) && n'.role == Leader && n'.matchIndex == n.matchIndex[from := reply.matchIndex]
            && n'.nextIndex == n.nextIndex[from := reply.matchIndex + 1]
  {
  }

  predicate HasApplied(s: Cluster, i: Id, log: seq<Entry>) {
    i in s.nodes && Applies(s.nodes[i], log)
  }

  // ---------- Events that answer no AppendEntries ----------

  predicate Quiet(e: Event) {
    e.Deliver? ==> !e.p.body.AppendEntries? && !(e.p.body.AppendReply? && e.p.body.success)
  }

  function Used(e: Event): set<Packet> {
    if e.Deliver? then {e.p} else {}
  }

  lemma DoQuiet(r: Tape, e: Event, c: Id) returns (r': Tape, f: Effect)
    requires Good(r) && Possible(r.end, e) && Actor(e) == c && Quiet(e)
    ensures Follows(r, r', true, true) && Good(r') && Frame(r.end, r'.end, {c}, Used(e)) && r'.end.ids == r.end.ids
    ensures Acted(r.end, e, f) && Fired(r.end, e, f, r'.end)
    ensures c in r.end.nodes && r.end.nodes[c].id == c && c in r'.end.nodes && r'.end.nodes[c] == f.node
  {
    hide Good, Possible, Follows, Frame, Acted, Fired, Truthful, Current, Actor;
    MayAct(r.end, e);
    NodeIds(r, c);
    r', f := Do(r, e);
    Silent(r.end, e, r'.end);
    Weaker(r, r', Truthful(r.end, e, r'.end), Current(r.end, e), true, true);
    FollowsGood(r, r', true, true);
  }

  lemma MayAct(s: Cluster, e: Event)
    requires Possible(s, e)
    ensures Actor(e) in s.ids && Actor(e) in s.nodes && ListsPeers(e.peers, s.ids, Actor(e))
  {
    hide ListsPeers;
  }

  /** The handler an event runs. */
  lemma ActedIs(s: Cluster, e: Event, f: Effect)
    requires Acted(s, e, f)
    ensures Actor(e) in s.nodes
    ensures var n := s.nodes[Actor(e)];
            match e
            case Timeout(_, peers) => f == StartElection(n, peers)
            case Tick(_, peers) => (n.role == Leader ==> CanSend(n, peers)) && f == Heartbeat(n, peers)
            case Submit(_, cmd, peers) => (n.role == Leader ==> CanSend(n, peers)) && f == Propose(n, cmd, peers)
            case Deliver(p, peers) =>
              match p.body
              case RequestVote(_, _, _, _) => f == HandleRequestVote(n, p.from, p.body)
              case VoteReply(_, _) => f == HandleVoteReply(n, p.body, peers)
              case AppendEntries(_, _, _, _, _, _) => f == HandleAppendEntries(n, p.from, p.body)
              case AppendReply(_, _, _) =>
                CanAnswer(n, p.from, p.body) && f == HandleAppendReply(n, p.from, p.body, peers)
  {
    hide StartElection, Heartbeat, Propose, HandleRequestVote, HandleVoteReply, HandleAppendEntries, HandleAppendReply;
  }

  /** Everyone a leader sends to, it sends what its nextIndex says. */
  lemma BroadcastTo(n: Node, peers: seq<Id>, v: View, j: nat)
    requires Is(n, v) && CanSend(n, peers) && j < |peers|
    ensures |Broadcast(n, peers)| == |peers| && Lookup(n.nextIndex, peers[j]) >= 1
    ensures Broadcast(n, peers)[j] == Send(peers[j], AppendBody(v, n.id, Lookup(n.nextIndex, peers[j])))
  {
    hide AppendBody, Append;
    assert CanSendTo(n, peers[j]);
    AppendIs(n, peers[j], v);
  }

  // ---------- Elections ----------

  /** `c`'s election timer fires, and it asks everyone for a vote in the next term. */
  lemma Stand(r: Tape, c: Id, v: View) returns (r': Tape)
    requires Good(r) && c in r.end.ids && Behind(r.end, c, v)
    ensures Follows(r, r', true, true) && Good(r') && r'.end.ids == r.end.ids && Frame(r.end, r'.end, {c}, {})
    ensures Standing(r'.end, c, v.(term := v.term + 1), 1)
    ensures PostsToAll(r.end, r'.end, c, Ask(c, v.(term := v.term + 1)))
  {
    hide Good, Follows, Frame, Fired, Acted, Posts, PostsToAll, StartElection, Ask, ListsPeers, Is;
    var peers := PeersOf(r.end.ids, c);
    var e := Timeout(c, peers);
    var f;
    r', f := DoQuiet(r, e, c);
    ActedIs(r.end, e, f);
    TimeoutActs(r.end.nodes[c], peers, v);
    PostedToAll(r, e, f, r'.end, Ask(c, v.(term := v.term + 1)));
  }

  /** `v` hears a request for a term above its own: whatever it answers, it follows that term. */
  lemma Hear(r: Tape, w: Id, v: View, q: Packet) returns (r': Tape)
    requires Good(r) && w in r.end.ids && Holds(r.end, w, v)
    requires Pending(r.end, q) && q.to == w && q.body.RequestVote? && q.body.term > v.term
    ensures Follows(r, r', true, true) && Good(r') && r'.end.ids == r.end.ids && Frame(r.end, r'.end, {w}, {q})
    ensures Behind(r'.end, w, v.(term := q.body.term))
    ensures UpToDate(q.body.lastLogTerm, q.body.lastLogIndex, v.log) ==>
              Posts(r.end, r'.end, w, q.from, VoteReply(q.body.term, true), 0)
  {
    hide Good, Follows, Frame, Fired, Acted, Posts, HandleRequestVote, ListsPeers, Is, UpToDate, Pending;
    var peers := PeersOf(r.end.ids, w);
    var e := Deliver(q, peers);
    var f;
    r', f := DoQuiet(r, e, w);
    ActedIs(r.end, e, f);
    VoteActs(r.end.nodes[w], q.from, q.body, v);
    if UpToDate(q.body.lastLogTerm, q.body.lastLogIndex, v.log) {
      Posted(r, e, f, r'.end, 0);
    }
  }

  /** `c` leads, and has just told everyone so. */
  ghost predicate Elected(s: Cluster, s': Cluster, c: Id, v: View) {
    && Leading(s', c, v) && PostsToAll(s, s', c, AppendBody(v, c, |v.log| + 1))
    && forall p :: p in s'.ids && p != c ==> NextIs(s', c, p, |v.log| + 1)
  }

  /** A granted vote reaches the candidate. */
  lemma Tally(r: Tape, c: Id, v: View, votes: nat, vote: Packet) returns (r': Tape)
    requires Good(r) && c in r.end.ids && Standing(r.end, c, v, votes)
    requires Pending(r.end, vote) && vote.to == c && vote.body == VoteReply(v.term, true)
    ensures Follows(r, r', true, true) && Good(r') && r'.end.ids == r.end.ids && Frame(r.end, r'.end, {c}, {vote})
    ensures if votes + 1 < (|r.end.ids| - 1) / 2 + 1 then Standing(r'.end, c, v, votes + 1)
            else Elected(r.end, r'.end, c, v)
  {
    hide Good, Follows, Frame, Fired, Acted, Posts, PostsToAll, HandleVoteReply, ListsPeers, Is, Pending, AppendBody,
      Broadcast;
    var peers := PeersOf(r.end.ids, c);
    PeersSize(peers, r.end.ids, c);
    var e := Deliver(vote, peers);
    var f;
    r', f := DoQuiet(r, e, c);
    ActedIs(r.end, e, f);
    CountVoteActs(r.end.nodes[c], vote.body, peers, v);
    if votes + 1 >= (|r.end.ids| - 1) / 2 + 1 {
      PeersAre(peers, r.end.ids, c);
      OutLength(f, peers);
      forall j | 0 <= j < |peers| ensures f.out[j] == Send(peers[j], AppendBody(v, c, |v.log| + 1)) {
        BroadcastTo(f.node, peers, v, j);
        assert peers[j] in peers;
      }
      PostedToAll(r, e, f, r'.end, AppendBody(v, c, |v.log| + 1));
    }
  }

  lemma PeersAre(peers: seq<Id>, ids: set<Id>, c: Id)
    requires ListsPeers(peers, ids, c)
    ensures forall p :: p in peers <==> p in ids && p != c
  {
  }

  lemma OutLength(f: Effect, peers: seq<Id>)
    requires CanSend(f.node, peers) && f.out == Broadcast(f.node, peers)
    ensures |f.out| == |peers|
  {
    hide Append;
  }

  /** `w` is asked for its vote, gives it, and `c` counts it. */
  lemma Poll(r: Tape, c: Id, v: View, votes: nat, w: Id, vw: View, q: Packet) returns (r': Tape)
    requires Good(r) && c in r.end.ids && w in r.end.ids && w != c
    requires Standing(r.end, c, v, votes) && Holds(r.end, w, vw)
    requires Pending(r.end, q) && q.from == c && q.to == w && q.body == Ask(c, v)
    requires vw.term < v.term && UpToDate(LastTerm(v.log), |v.log|, vw.log)
    ensures Follows(r, r', true, true) && Good(r') && r'.end.ids == r.end.ids && Frame(r.end, r'.end, {c, w}, {q})
    ensures Behind(r'.end, w, vw.(term := v.term))
    ensures if votes + 1 < (|r.end.ids| - 1) / 2 + 1 then Standing(r'.end, c, v, votes + 1)
            else Elected(r.end, r'.end, c, v)
  {
    hide Good, Follows, Frame, Mail, Posts, PostsToAll, Pending, UpToDate, Is, NextIs, AppendBody;
    var r1 := Hear(r, w, vw, q);
    var vote := Letter(r.end, r1.end, w, c, VoteReply(v.term, true), 0);
    Untouched(r.end, r1.end, {w}, {q}, c);
    r' := Tally(r1, c, v, votes, vote);
    Untouched(r1.end, r'.end, {c}, {vote}, w);
    FollowsTrans(r, r1, r', true, true, true, true);
    FrameTrans(r.end, r1.end, r'.end, {w}, {q}, {c}, {vote}, {c, w}, {q});
    if votes + 1 >= (|r.end.ids| - 1) / 2 + 1 {
      EarlierPosts(r.end, r1.end, r'.end, {w}, {q}, c, AppendBody(v, c, |v.log| + 1));
    }
  }

  lemma EarlierPosts(s: Cluster, s1: Cluster, s2: Cluster, touched: set<Id>, used: set<Packet>, c: Id, body: Body)
    requires Frame(s, s1, touched, used) && s1.ids == s.ids && PostsToAll(s1, s2, c, body)
    ensures PostsToAll(s, s2, c, body)
  {
    hide Pending, Frame;
    forall to | to in s.ids && to != c ensures Posts(s, s2, c, to, body, 0) {
      var p :| Mail(s1, s2, p, c, to, body, 0);
      NotSent(s, s1, p, touched, used);
      assert Mail(s, s2, p, c, to, body, 0);
    }
  }

  /** In a cluster of three, `c` wins the next term with `w`'s vote; its request to `other` stays on its way. */
  lemma Win(r: Tape, c: Id, v: View, w: Id, vw: View, other: Id) returns (r': Tape, ask: Packet)
    requires Good(r) && |r.end.ids| == 3 && c in r.end.ids && w in r.end.ids && other in r.end.ids
    requires c != w && c != other && w != other
    requires Behind(r.end, c, v)
    requires Holds(r.end, w, vw) && vw.term <= v.term && UpToDate(LastTerm(v.log), |v.log|, vw.log)
    ensures Follows(r, r', true, true) && Good(r') && r'.end.ids == r.end.ids && Frame(r.end, r'.end, {c, w}, {})
    ensures Elected(r.end, r'.end, c, v.(term := v.term + 1)) && Behind(r'.end, w, vw.(term := v.term + 1))
    ensures Pending(r'.end, ask) && ask.to == other && ask.body == Ask(c, v.(term := v.term + 1))
  {
    hide Good, Follows, Frame, Posts, PostsToAll, Pending, UpToDate, Is, NextIs, AppendBody, Elected, Ask;
    var v' := v.(term := v.term + 1);
    var r1 := Stand(r, c, v);
    var q := LetterTo(r.end, r1.end, c, w, Ask(c, v'));
    ask := LetterTo(r.end, r1.end, c, other, Ask(c, v'));
    Untouched(r.end, r1.end, {c}, {}, w);
    r' := Poll(r1, c, v', 1, w, vw, q);
    FollowsTrans(r, r1, r', true, true, true, true);
    FrameTrans(r.end, r1.end, r'.end, {c}, {}, {c, w}, {q}, {c, w}, {});
    StillPending(r1.end, r'.end, {c, w}, {q}, ask);
    ElectedSince(r.end, r1.end, r'.end, {c}, {}, c, v');
  }

  lemma ElectedSince(s: Cluster, s1: Cluster, s2: Cluster, touched: set<Id>, used: set<Packet>, c: Id, v: View)
    requires Frame(s, s1, touched, used) && s1.ids == s.ids && Elected(s1, s2, c, v)
    ensures Elected(s, s2, c, v)
  {
    hide Frame, PostsToAll, Leading, NextIs, AppendBody;
    EarlierPosts(s, s1, s2, touched, used, c, AppendBody(v, c, |v.log| + 1));
  }

  /** In a cluster of five, it takes two votes. */
  lemma WinOfFive(r: Tape, c: Id, v: View, w: Id, vw: View, x: Id, vx: View) returns (r': Tape)
    requires Good(r) && |r.end.ids| == 5 && c in r.end.ids && w in r.end.ids && x in r.end.ids
    requires c != w && c != x && w != x && Behind(r.end, c, v)
    requires Holds(r.end, w, vw) && vw.term <= v.term && UpToDate(LastTerm(v.log), |v.log|, vw.log)
    requires Holds(r.end, x, vx) && vx.term <= v.term && UpToDate(LastTerm(v.log), |v.log|, vx.log)
    ensures Follows(r, r', true, true) && Good(r') && r'.end.ids == r.end.ids && Frame(r.end, r'.end, {c, w, x}, {})
    ensures Elected(r.end, r'.end, c, v.(term := v.term + 1))
    ensures Behind(r'.end, w, vw.(term := v.term + 1)) && Behind(r'.end, x, vx.(term := v.term + 1))
  {
    hide Good, Follows, Frame, Posts, PostsToAll, Pending, UpToDate, Is, NextIs, AppendBody, Elected, Ask;
    var v' := v.(term := v.term + 1);
    var r1 := Stand(r, c, v);
    var q := LetterTo(r.end, r1.end, c, w, Ask(c, v'));
    var q' := LetterTo(r.end, r1.end, c, x, Ask(c, v'));
    Untouched(r.end, r1.end, {c}, {}, w);
    Untouched(r.end, r1.end, {c}, {}, x);
    var r2 := Poll(r1, c, v', 1, w, vw, q);
    FollowsTrans(r, r1, r2, true, true, true, true);
    FrameTrans(r.end, r1.end, r2.end, {c}, {}, {c, w}, {q}, {c, w}, {});
    StillPending(r1.end, r2.end, {c, w}, {q}, q');
    Untouched(r1.end, r2.end, {c, w}, {q}, x);
    r' := Poll(r2, c, v', 2, x, vx, q');
    Untouched(r2.end, r'.end, {c, x}, {q'}, w);
    FollowsTrans(r, r2, r', true, true, true, true);
    FrameTrans(r.end, r2.end, r'.end, {c, w}, {}, {c, x}, {q'}, {c, w, x}, {});
    ElectedSince(r.end, r2.end, r'.end, {c, w}, {}, c, v');
  }

  // ---------- Replication ----------

  /** A client submits a command to leader `c`, which tells all of `who`, among others. */
  lemma GiveAll(r: Tape, c: Id, v: View, cmd: Command, who: set<Id>, next: nat) returns (r': Tape)
    requires Good(r) && c in r.end.ids && who <= r.end.ids - {c} && Leading(r.end, c, v) && next >= 1
    requires forall p :: p in who ==> NextIs(r.end, c, p, next)
    ensures var v' := v.(log := v.log + [Entry(v.term, cmd)]);
            && Leading(r'.end, c, v')
            && (forall p :: p in who ==> Posts(r.end, r'.end, c, p, AppendBody(v', c, next), 0))
            && OnRecord(r'.end, v.term, v'.log)
    ensures Follows(r, r', true, true) && Good(r') && r'.end.ids == r.end.ids && Frame(r.end, r'.end, {c}, {})
    ensures SameBooks(r.end, r'.end, c)
  {
    hide Good, Follows, Frame, Fired, Acted, Posts, Propose, ListsPeers, Is, Pending, AppendBody, Broadcast;
    var peers := PeersOf(r.end.ids, c);
    var e := Submit(c, cmd, peers);
    var f;
    r', f := DoQuiet(r, e, c);
    ActedIs(r.end, e, f);
    SubmitActs(r.end.nodes[c], cmd, peers, v);
    var v' := v.(log := v.log + [Entry(v.term, cmd)]);
    NewRecord(r.end, e, f, r'.end, v');
    forall p | p in who ensures Posts(r.end, r'.end, c, p, AppendBody(v', c, next), 0) {
      var j := Position(peers, r.end.ids, c, p);
      BroadcastTo(f.node, peers, v', j);
      Posted(r, e, f, r'.end, j);
    }
  }

  lemma NewRecord(s: Cluster, e: Event, f: Effect, s': Cluster, v: View)
    requires Fired(s, e, f, s') && f.node.role == Leader && Is(f.node, v)
    ensures OnRecord(s', v.term, v.log)
  {
    hide Pending;
  }

  /** ... and tells `p`. */
  lemma Give(r: Tape, c: Id, v: View, cmd: Command, p: Id, next: nat) returns (r': Tape, ae: Packet)
    requires Good(r) && c in r.end.ids && p in r.end.ids && p != c && Leading(r.end, c, v) && NextIs(r.end, c, p, next)
    requires next >= 1
    ensures var v' := v.(log := v.log + [Entry(v.term, cmd)]);
            && Leading(r'.end, c, v')
            && Pending(r'.end, ae) && ae !in r.end.sent && ae.from == c && ae.to == p
            && ae.body == AppendBody(v', c, next)
    ensures Follows(r, r', true, true) && Good(r') && r'.end.ids == r.end.ids && Frame(r.end, r'.end, {c}, {})
    ensures SameBooks(r.end, r'.end, c)
  {
    hide Good, Follows, Frame, Leading, NextIs, Posts, Pending, AppendBody, SameBooks;
    r' := GiveAll(r, c, v, cmd, {p}, next);
    ae := Letter(r.end, r'.end, c, p, AppendBody(v.(log := v.log + [Entry(v.term, cmd)]), c, next), 0);
  }

  /** `c` keeps its nextIndex and matchIndex, and applies nothing. */
  predicate SameBooks(s: Cluster, s': Cluster, c: Id) {
    && c in s.nodes && c in s'.nodes
    && s'.nodes[c].nextIndex == s.nodes[c].nextIndex && s'.nodes[c].matchIndex == s.nodes[c].matchIndex
    && s'.nodes[c].applied == s.nodes[c].applied
  }

  /** Leader `c`'s heartbeat timer fires, and it tells `p`, among others, what it knows. */
  lemma Beat(r: Tape, c: Id, v: View, p: Id, next: nat) returns (r': Tape, ae: Packet)
    requires Good(r) && c in r.end.ids && p in r.end.ids && p != c && Leading(r.end, c, v) && NextIs(r.end, c, p, next)
    requires next >= 1
    ensures Leading(r'.end, c, v) && SameBooks(r.end, r'.end, c)
    ensures Pending(r'.end, ae) && ae !in r.end.sent && ae.from == c && ae.to == p && ae.body == AppendBody(v, c, next)
    ensures Follows(r, r', true, true) && Good(r') && r'.end.ids == r.end.ids && Frame(r.end, r'.end, {c}, {})
  {
    hide Good, Follows, Frame, Fired, Acted, Posts, ListsPeers, Is, Pending, AppendBody, Broadcast;
    var peers := PeersOf(r.end.ids, c);
    var e := Tick(c, peers);
    var f;
    r', f := DoQuiet(r, e, c);
    ActedIs(r.end, e, f);
    var j := Position(peers, r.end.ids, c, p);
    BroadcastTo(f.node, peers, v, j);
    Posted(r, e, f, r'.end, j);
    ae := Letter(r.end, r'.end, c, p, AppendBody(v, c, next), 0);
  }

  /** `w` refuses `ae` from leader `c`. */
  lemma Refuse(r: Tape, w: Id, vw: View, ae: Packet) returns (r': Tape)
    requires Good(r) && w in r.end.ids && Holds(r.end, w, vw)
    requires Pending(r.end, ae) && ae.to == w && ae.body.AppendEntries? && vw.term <= ae.body.term
    requires !Consistent(vw.log, ae.body.prevLogIndex, ae.body.prevLogTerm)
    ensures Follows(r, r', true, true) && Good(r') && r'.end.ids == r.end.ids && Frame(r.end, r'.end, {w}, {ae})
    ensures Behind(r'.end, w, vw.(term := ae.body.term))
    ensures Posts(r.end, r'.end, w, ae.from, AppendReply(vw.term, false, 0), ae.body.term)
  {
    hide Good, Follows, Frame, Fired, Acted, Posts, HandleAppendEntries, ListsPeers, Pending, Consistent,
      Truthful, Current;
    var peers := PeersOf(r.end.ids, w);
    var e := Deliver(ae, peers);
    var f;
    NodeIds(r, w);
    r', f := Do(r, e);
    Silent(r.end, e, r'.end);
    Weaker(r, r', Truthful(r.end, e, r'.end), Current(r.end, e), true, true);
    FollowsGood(r, r', true, true);
    ActedIs(r.end, e, f);
    RefuseActs(r.end.nodes[w], ae.from, ae.body, vw);
    Posted(r, e, f, r'.end, 0);
  }

  /** The refusal makes leader `c` back off by one and try again. */
  lemma BackOff(r: Tape, c: Id, v: View, w: Id, next: nat, no: Packet) returns (r': Tape)
    requires Good(r) && c in r.end.ids && Leading(r.end, c, v) && NextIs(r.end, c, w, next) && next > 1
    requires Pending(r.end, no) && no.from == w && no.to == c
    requires no.body.AppendReply? && !no.body.success && no.body.term <= v.term
    ensures Follows(r, r', true, true) && Good(r') && r'.end.ids == r.end.ids && Frame(r.end, r'.end, {c}, {no})
    ensures Leading(r'.end, c, v) && NextIs(r'.end, c, w, next - 1) && BackedOff(r.end, r'.end, c, w, next - 1)
    ensures Posts(r.end, r'.end, c, w, AppendBody(v, c, next - 1), 0)
  {
    hide Good, Follows, Frame, Fired, Acted, Posts, HandleAppendReply, ListsPeers, Is, Pending, AppendBody;
    var peers := PeersOf(r.end.ids, c);
    var e := Deliver(no, peers);
    var f;
    r', f := DoQuiet(r, e, c);
    ActedIs(r.end, e, f);
    BackOffActs(r.end.nodes[c], w, no.body, peers, v);
    Posted(r, e, f, r'.end, 0);
  }

  /** `c` keeps its books, but for `w`'s nextIndex. */
  predicate BackedOff(s: Cluster, s': Cluster, c: Id, w: Id, next: nat) {
    && c in s.nodes && c in s'.nodes && s'.nodes[c].matchIndex == s.nodes[c].matchIndex
    && s'.nodes[c].nextIndex == s.nodes[c].nextIndex[w := next]
  }

  /** `w` refuses `ae`; leader `c` backs off and sends `ae'` instead. */
  lemma Retry(r: Tape, c: Id, v: View, w: Id, vw: View, next: nat, ae: Packet) returns (r': Tape, ae': Packet)
    requires Good(r) && c in r.end.ids && w in r.end.ids && c != w
    requires Leading(r.end, c, v) && NextIs(r.end, c, w, next) && next > 1 && Holds(r.end, w, vw) && vw.term <= v.term
    requires Pending(r.end, ae) && ae.from == c && ae.to == w && ae.body.AppendEntries? && ae.body.term == v.term
    requires !Consistent(vw.log, ae.body.prevLogIndex, ae.body.prevLogTerm)
    ensures Follows(r, r', true, true) && Good(r') && r'.end.ids == r.end.ids && Frame(r.end, r'.end, {c, w}, {ae})
    ensures Leading(r'.end, c, v) && NextIs(r'.end, c, w, next - 1) && Behind(r'.end, w, vw.(term := v.term))
    ensures BackedOff(r.end, r'.end, c, w, next - 1)
    ensures Pending(r'.end, ae') && ae' !in r.end.sent && ae'.from == c && ae'.to == w
    ensures ae'.body == AppendBody(v, c, next - 1)
  {
    hide Good, Follows, Frame, Posts, Pending, Is, Consistent, AppendBody;
    var r1 := Refuse(r, w, vw, ae);
    var no := Letter(r.end, r1.end, w, c, AppendReply(vw.term, false, 0), v.term);
    Untouched(r.end, r1.end, {w}, {ae}, c);
    r' := BackOff(r1, c, v, w, next, no);
    Untouched(r1.end, r'.end, {c}, {no}, w);
    FollowsTrans(r, r1, r', true, true, true, true);
    FrameTrans(r.end, r1.end, r'.end, {w}, {ae}, {c}, {no}, {c, w}, {ae});
    ae' := Letter(r1.end, r'.end, c, w, AppendBody(v, c, next - 1), 0);
    NotSent(r.end, r1.end, ae', {w}, {ae});
  }

  /** `log` is a prefix of the leader log on record for the term. */
  ghost predicate OnRecord(s: Cluster, term: nat, log: seq<Entry>) {
    term in s.h.leaderLog && log <= s.h.leaderLog[term]
  }

  /** `w` accepts `ae` and says so; truthfully, if what it then holds is a prefix of the leader's log, or, as one
      term may have two leaders, of the one on record. */
  lemma Accept(r: Tape, c: Id, v: View, w: Id, vw: View, ae: Packet) returns (r': Tape, yes: Packet)
    requires Good(r) && c in r.end.ids && w in r.end.ids && c != w && Leading(r.end, c, v)
    requires Holds(r.end, w, vw) && vw.term <= v.term
    requires Pending(r.end, ae) && ae.from == c && ae.to == w && ae.body.AppendEntries? && ae.body.term == v.term
    requires Consistent(vw.log, ae.body.prevLogIndex, ae.body.prevLogTerm) && ae.body.prevLogIndex <= |vw.log|
    requires vw.commit == 0 || Taken(vw, ae.body).commit > 0
    ensures var log := Taken(vw, ae.body).log;
            Follows(r, r', (MajorityWins(r.end.ids) && log <= v.log) || OnRecord(r.end, v.term, log), true)
    ensures Good(r') && r'.end.ids == r.end.ids && r'.end.h.leaderLog == r.end.h.leaderLog
    ensures Frame(r.end, r'.end, {w}, {ae}) && Behind(r'.end, w, Taken(vw, ae.body))
    ensures Pending(r'.end, yes) && yes !in r.end.sent && yes.from == w && yes.to == c && yes.answers == v.term
    ensures yes.body == AppendReply(vw.term, true, |Taken(vw, ae.body).log|)
    ensures w in r'.end.nodes && Catches(r'.end.nodes[w], vw, Taken(vw, ae.body))
  {
    hide Good, Follows, Frame, Fired, Acted, Posts, HandleAppendEntries, ListsPeers, Pending, Consistent,
      Current, Taken, Catches;
    var peers := PeersOf(r.end.ids, w);
    var e := Deliver(ae, peers);
    var f;
    NodeIds(r, w);
    r', f := Do(r, e);
    ActedIs(r.end, e, f);
    AcceptActs(r.end.nodes[w], c, ae.body, vw);
    if MajorityWins(r.end.ids) {
      BookedLog(r, c);
    }
    var log := Taken(vw, ae.body).log;
    var honest := (MajorityWins(r.end.ids) && log <= v.log) || OnRecord(r.end, v.term, log);
    SameRecord(r.end, e, f, r'.end);
    NotAReply(r.end, e);
    Posted(r, e, f, r'.end, 0);
    Weaker(r, r', Truthful(r.end, e, r'.end), Current(r.end, e), honest, true);
    FollowsGood(r, r', honest, true);
    yes := Letter(r.end, r'.end, w, c, AppendReply(vw.term, true, |Taken(vw, ae.body).log|), v.term);
  }

  lemma SameRecord(s: Cluster, e: Event, f: Effect, s': Cluster)
    requires Fired(s, e, f, s') && f.node.role != Leader
    ensures s'.h.leaderLog == s.h.leaderLog
  {
    hide Pending;
  }

  lemma NotAReply(s: Cluster, e: Event)
    requires e.Deliver? && e.p.body.AppendEntries?
    ensures Current(s, e)
  {
  }

  lemma BookedLog(r: Tape, c: Id)
    requires Good(r) && MajorityWins(r.end.ids) && c in r.end.nodes && r.end.nodes[c].role == Leader
    ensures var n := r.end.nodes[c]; n.currentTerm in r.end.h.leaderLog && r.end.h.leaderLog[n.currentTerm] == n.log
  {
    hide Run, WF, LeadersDoNotStand;
    LogsInRuns(r.states, r.events, |r.states| - 1);
  }

  /** Leader `c` counts an acknowledgement that, with those it has of `q`, lets it commit its whole log. */
  lemma Count(r: Tape, c: Id, v: View, w: Id, yes: Packet, q: set<Id>) returns (r': Tape)
    requires Good(r) && c in r.end.ids && Leading(r.end, c, v)
    requires v.commit < |v.log| && v.log[|v.log| - 1].term == v.term
    requires Pending(r.end, yes) && yes.from == w && yes.to == c && yes.body.AppendReply?
    requires yes.body.success && yes.body.term <= v.term && yes.body.matchIndex >= |v.log|
    requires forall p :: p in q ==> p == w || exists m: nat :: m >= |v.log| && MatchIs(r.end, c, p, m)
    requires 1 + |q| > |r.end.ids| / 2
    ensures Follows(r, r', true, yes.answers == v.term) && Good(r') && r'.end.ids == r.end.ids
    ensures Frame(r.end, r'.end, {c}, {yes}) && Leading(r'.end, c, v.(commit := |v.log|))
    ensures Booked(r.end, r'.end, c, w, yes.body.matchIndex)
    ensures OnRecord(r'.end, v.term, v.log) && (v.commit == 0 ==> HasApplied(r'.end, c, v.log))
  {
    hide Good, Follows, Frame, Fired, Acted, HandleAppendReply, ListsPeers, Pending, Truthful, Is, Applies;
    var peers := PeersOf(r.end.ids, c);
    PeersSize(peers, r.end.ids, c);
    var e := Deliver(yes, peers);
    var f;
    NodeIds(r, c);
    r', f := Do(r, e);
    Silent(r.end, e, r'.end);
    ActedIs(r.end, e, f);
    IsTerm(r.end.nodes[c], v);
    CommitActs(r.end.nodes[c], w, yes.body, peers, v, q);
    NewRecord(r.end, e, f, r'.end, v.(commit := |v.log|));
    Weaker(r, r', Truthful(r.end, e, r'.end), Current(r.end, e), true, yes.answers == v.term);
    FollowsGood(r, r', true, yes.answers == v.term);
  }

  lemma IsTerm(n: Node, v: View)
    requires Is(n, v)
    ensures n.currentTerm == v.term
  {
  }

  /** `c` has written down what `w` reported. */
  predicate Booked(s: Cluster, s': Cluster, c: Id, w: Id, m: nat) {
    && c in s.nodes && c in s'.nodes
    && s'.nodes[c].matchIndex == s.nodes[c].matchIndex[w := m]
    && s'.nodes[c].nextIndex == s.nodes[c].nextIndex[w := m + 1]
  }

  /** Leader `c`, still without entries, writes an acknowledgement down. */
  lemma Note(r: Tape, c: Id, v: View, w: Id, yes: Packet) returns (r': Tape)
    requires Good(r) && c in r.end.ids && Leading(r.end, c, v) && v.log == []
    requires Pending(r.end, yes) && yes.from == w && yes.to == c && yes.body.AppendReply?
    requires yes.body.success && yes.body.term <= v.term
    ensures Follows(r, r', true, yes.answers == v.term) && Good(r') && r'.end.ids == r.end.ids
    ensures Frame(r.end, r'.end, {c}, {yes}) && Leading(r'.end, c, v)
    ensures Booked(r.end, r'.end, c, w, yes.body.matchIndex)
  {
    hide Good, Follows, Frame, Fired, Acted, HandleAppendReply, ListsPeers, Pending, Truthful, Is;
    var peers := PeersOf(r.end.ids, c);
    var e := Deliver(yes, peers);
    var f;
    NodeIds(r, c);
    r', f := Do(r, e);
    Silent(r.end, e, r'.end);
    ActedIs(r.end, e, f);
    IsTerm(r.end.nodes[c], v);
    NothingToCommit(r.end.nodes[c], w, yes.body, peers, v);
    Weaker(r, r', Truthful(r.end, e, r'.end), Current(r.end, e), true, yes.answers == v.term);
    FollowsGood(r, r', true, yes.answers == v.term);
  }

  /** The first message of the new leader to `p`. */
  lemma FirstWord(s: Cluster, s': Cluster, c: Id, v: View, p: Id) returns (hb: Packet)
    requires Elected(s, s', c, v) && p in s.ids && p != c
    ensures Pending(s', hb) && hb !in s.sent && hb.from == c && hb.to == p && hb.body == AppendBody(v, c, |v.log| + 1)
  {
    hide PostsToAll, AppendBody, Pending, Leading, NextIs;
    hb := LetterTo(s, s', c, p, AppendBody(v, c, |v.log| + 1));
  }

  lemma Leads(s: Cluster, s': Cluster, c: Id, v: View, p: Id)
    requires Elected(s, s', c, v)
    ensures Leading(s', c, v) && (p in s'.ids && p != c ==> NextIs(s', c, p, |v.log| + 1))
  {
    hide PostsToAll, AppendBody, Leading, NextIs;
  }

  lemma StillBehind(s: Cluster, s': Cluster, touched: set<Id>, used: set<Packet>, i: Id, v: View)
    requires Frame(s, s', touched, used) && i !in touched && Behind(s, i, v)
    ensures Behind(s', i, v)
  {
    hide Pending;
  }

  lemma StillLeading(s: Cluster, s': Cluster, touched: set<Id>, used: set<Packet>, i: Id, v: View)
    requires Frame(s, s', touched, used) && i !in touched && Leading(s, i, v)
    ensures Leading(s', i, v) && s'.nodes[i] == s.nodes[i]
  {
    hide Pending;
  }

  lemma StillApplied(s: Cluster, s': Cluster, touched: set<Id>, used: set<Packet>, i: Id, log: seq<Entry>)
    requires Frame(s, s', touched, used) && i !in touched && HasApplied(s, i, log)
    ensures HasApplied(s', i, log)
  {
    hide Pending;
  }

  /** What a follower with view `vw` makes of a message from a leader with view `v` that leaves it `log`. */
  function Told(v: View, vw: View, log: seq<Entry>): View {
    View(v.term, log, if v.commit > vw.commit then Min(v.commit, |log|) else vw.commit)
  }

  lemma TakenIs(v: View, c: Id, next: nat, vw: View, log: seq<Entry>)
    requires 1 <= next <= |vw.log| + 1 && Overwrite(vw.log, next - 1, AppendBody(v, c, next).entries) == log
    ensures Taken(vw, AppendBody(v, c, next)) == Told(v, vw, log)
  {
    hide Overwrite;
  }

  /** A message that starts at the beginning of the log, and the log that takes it. */
  lemma FromTheStart(v: View, c: Id, vw: View, log: seq<Entry>)
    requires Overwrite(vw.log, 0, v.log) == log
    ensures var ae := AppendBody(v, c, 1);
            Consistent(vw.log, 0, ae.prevLogTerm) && Taken(vw, ae) == Told(v, vw, log)
  {
    hide Overwrite, Taken, Told;
    TakenIs(v, c, 1, vw, log);
  }

  /** A message that goes on where the follower's log ends. */
  lemma FromTheEnd(v: View, c: Id, vw: View)
    requires |vw.log| <= |v.log| && vw.log == v.log[..|vw.log|]
    ensures var ae := AppendBody(v, c, |vw.log| + 1);
            Consistent(vw.log, ae.prevLogIndex, ae.prevLogTerm) && Taken(vw, ae) == Told(v, vw, v.log)
  {
    hide Overwrite, FirstProblem, AllPresent, Taken, Told;
    var ae := AppendBody(v, c, |vw.log| + 1);
    Filled(vw.log, ae.entries);
    assert vw.log + ae.entries == v.log;
    TakenIs(v, c, |vw.log| + 1, vw, v.log);
  }

  /** A message with the last entry only, where the follower has something else. */
  lemma LastReplaced(v: View, c: Id, vw: View)
    requires 2 <= |v.log| <= |vw.log| && v.log[|v.log| - 1].term != vw.log[|v.log| - 1].term
    requires v.log[..|v.log| - 1] == vw.log[..|v.log| - 1]
    ensures var ae := AppendBody(v, c, |v.log|);
            Consistent(vw.log, ae.prevLogIndex, ae.prevLogTerm) && Taken(vw, ae) == Told(v, vw, v.log)
  {
    hide Overwrite, FirstProblem, AllPresent, Taken, Told;
    var ae := AppendBody(v, c, |v.log|);
    var prev := |v.log| - 1;
    assert v.log[prev - 1] == v.log[..prev][prev - 1] == vw.log[..prev][prev - 1] == vw.log[prev - 1];
    assert ae.entries == [v.log[prev]];
    Replaced(vw.log, prev, v.log[prev]);
    assert vw.log[..prev] + [v.log[prev]] == v.log;
    TakenIs(v, c, |v.log|, vw, v.log);
  }

  lemma Replaced(log: seq<Entry>, at: nat, e: Entry)
    requires at < |log| && log[at].term != e.term
    ensures Overwrite(log, at, [e]) == log[..at] + [e]
  {
    assert FirstProblem(log, at, [e], at);
    OverwriteContract(log, at, [e]);
    assert [e][0..] == [e];
  }

  lemma Filled(log: seq<Entry>, entries: seq<Entry>)
    ensures Overwrite(log, |log|, entries) == log + entries
  {
    OverwriteContract(log, |log|, entries);
    hide Overwrite;
    if entries == [] {
      assert AllPresent(log, |log|, entries) && log + entries == log;
    } else {
      assert FirstProblem(log, |log|, entries, |log|);
      assert log[..|log|] == log && entries[0..] == entries;
    }
  }

  // ---------- Beginnings and ends ----------

  lemma Begin(ids: set<Id>) returns (r: Tape)
    requires 0 !in ids
    ensures Good(r) && Honest(r) && Punctual(r) && r.end.ids == ids
    ensures forall i :: i in ids ==> Behind(r.end, i, View(0, [], 0))
  {
    hide GoodRun;
    InitGood(ids);
    r := Tape([Init(ids)], [], Init(ids));
  }

  /** A run in which no leader's election timer fires. */
  ghost predicate RealRun(states: seq<Cluster>, events: seq<Event>) {
    Run(states, events) && |states| == |events| + 1 && LeadersDoNotStand(states, events)
  }

  lemma Finish(r: Tape)
    requires Good(r)
    ensures |r.states| > 0 && RealRun(r.states, r.events)
    ensures r.states[0].ids == r.end.ids && r.end == r.states[|r.states| - 1]
    ensures Honest(r) ==> AllTruthful(r.states, r.events)
    ensures Punctual(r) ==> AllCurrent(r.states, r.events)
  {
    hide Run, WF, LeadersDoNotStand, AllTruthful, AllCurrent;
  }

  lemma FinishHonest(states: seq<Cluster>, events: seq<Event>)
    requires RealRun(states, events) && AllTruthful(states, events) && AllCurrent(states, events)
    ensures HonestRun(states, events)
  {
    hide Run, Truthful, Current;
  }
}
