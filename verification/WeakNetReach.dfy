/**
 Push-pull's steps, taken to their end: who is answered and who is not, what is known of a peer and when it is
 forgotten; and from wherever a run is, requests alone can bring all nodes to the join of their states.
 */
module WeakNetReach {
  import opened Messages
  import opened Merge
  import opened WeakNet
  import opened Owners
  import opened Journeys
  import opened WeakNetCluster

  // ---------- One node ----------

  /** What is sent: what the peer is not believed to know, signed, and marked as what it is. */
  lemma Sends(n: Node, id: u16, peer: u16, isReply: bool)
    ensures var s := Send(n, id, peer, isReply);
            var known := if peer in n.peers then n.peers[peer].knownVer else 0;
            && s.payload.isReply == isReply && s.payload.sender == id && s.payload.knownVer == known
            && (forall k :: k in s.payload.delta <==> k in n.state && n.state[k].version > known)
            && (forall k :: k in s.payload.delta ==> s.payload.delta[k] == n.state[k])
            && s.node.state == n.state && peer in s.node.peers && s.node.peers - {peer} == n.peers - {peer}
            && s.node.peers[peer] == if peer in n.peers then n.peers[peer] else Stats(0, Never)
  {
  }

  /** A delta is enough for a peer that has what the delta leaves out, or something newer: merging it is merging
      the whole state. */
  lemma DeltaSuffices(peer: State, x: State, sinceVer: nat)
    requires forall k :: k in x && x[k].version <= sinceVer ==> k in peer && peer[k].version >= x[k].version
    ensures Merged(peer, DeltaFor(x, sinceVer)) == Merged(peer, x)
  {
  }

  /** Handling merges the delta; of the sender alone it takes down that it was heard, and the higher version. */
  lemma Handles(n: Node, from: u16, pp: PushPull, now: int)
    ensures var n' := Handle(n, from, pp, now);
            var known := if from in n.peers then n.peers[from].knownVer else 0;
            && n'.state == Merged(n.state, pp.delta) && from in n'.peers && n'.peers - {from} == n.peers - {from}
            && n'.peers[from].lastSeen == At(now)
            && n'.peers[from].knownVer == if pp.knownVer > known then pp.knownVer else known
  {
  }

  /** A peer heard from at `now` survives a purge exactly if the cutoff is no later. */
  lemma HeardSurvives(n: Node, from: u16, pp: PushPull, now: int, cutoff: int)
    ensures from in Purge(Handle(n, from, pp, now), cutoff).peers <==> cutoff <= now
  {
  }

  /** A purge forgets exactly the peers last heard from before the cutoff; never those not yet heard from. */
  lemma Purges(n: Node, cutoff: int, p: u16)
    ensures var n' := Purge(n, cutoff);
            && n'.state == n.state
            && (p in n'.peers <==> p in n.peers && (n.peers[p].lastSeen == Never || cutoff <= n.peers[p].lastSeen.time))
            && (p in n'.peers ==> n'.peers[p] == n.peers[p])
  {
  }

  // ---------- Requests and replies ----------

  /** A request or reply on its way says which it is and who sent it. */
  lemma Leaves(s: Cluster, e: Event, s': Cluster)
    requires Steps(s, e, s') && (e.Request? || e.Reply?)
    ensures exists m :: s'.net == s.net + {m} && m.from == e.id && m.to == e.peer && m.payload.sender == e.id
              && m.payload.isReply == e.Reply?
  {
    hide DeltaFor, StatsOf;
    var m := Sent(s, e.id, e.peer, e.Reply?);
    assert s'.net == s.net + {m};
  }

  /** A request that arrives may be answered; a reply that arrives adds nothing to answer. */
  lemma Arrives(s: Cluster, m: Sync, now: int, s': Cluster)
    requires Steps(s, Arrive(m, now), s')
    ensures if m.payload.isReply then s'.owed == s.owed
            else s'.owed == s.owed + multiset{(m.to, m.from)} && Enabled(s', Reply(m.to, m.from))
  {
    hide Merged, StatsOf;
  }

  /** An answer takes one request off, so every request is answered once at most. */
  lemma Answers(s: Cluster, id: u16, peer: u16, s': Cluster)
    requires Steps(s, Reply(id, peer), s')
    ensures s'.owed + multiset{(id, peer)} == s.owed
  {
    hide DeltaFor, StatsOf;
  }

  // ---------- Going on ----------

  datatype Trail = Trail(states: seq<Cluster>, events: seq<Event>)

  ghost predicate Runs(r: Trail) {
    |r.states| == |r.events| + 1 && Run(r.states, r.events)
  }

  function End(r: Trail): Cluster
    requires |r.states| > 0
  {
    r.states[|r.states| - 1]
  }

  /** `r'` goes on from `r` without a write. */
  ghost predicate GoesOn(r: Trail, r': Trail) {
    && Runs(r) && Runs(r') && r.states <= r'.states && r.events <= r'.events
    && (forall t :: |r.events| <= t < |r'.events| ==> !r'.events[t].Write?)
    && End(r').nodes.Keys == End(r).nodes.Keys
  }

  lemma GoesOnTrans(r: Trail, r1: Trail, r2: Trail)
    requires GoesOn(r, r1) && GoesOn(r1, r2)
    ensures GoesOn(r, r2)
  {
    hide Run;
  }

  lemma GoOn(r: Trail, e: Event) returns (r': Trail)
    requires Runs(r) && Enabled(End(r), e) && !e.Write?
    ensures GoesOn(r, r') && r'.events == r.events + [e] && Steps(End(r), e, End(r'))
  {
    hide Next, Init;
    var s' := Next(End(r), e);
    r' := Trail(r.states + [s'], r.events + [e]);
    StepMembers(End(r), e, s');
    LongerRun(r, e, s');
  }

  lemma LongerRun(r: Trail, e: Event, s': Cluster)
    requires Runs(r) && Steps(End(r), e, s')
    ensures Runs(Trail(r.states + [s'], r.events + [e]))
  {
    hide Steps, Init;
  }

  lemma CanRequest(s: Cluster, i: u16, j: u16)
    requires i in s.nodes
    ensures Enabled(s, Request(i, j))
  {
  }

  lemma RequestLeaves(s: Cluster, i: u16, j: u16, now: int, s': Cluster)
    requires Steps(s, Request(i, j), s') && j in s.nodes
    ensures i in s.nodes && Enabled(s', Arrive(Sent(s, i, j, false), now))
  {
    hide DeltaFor, StatsOf;
  }

  /** From wherever a run is, `i` can get a request through to `j`. */
  lemma RequestThrough(r: Trail, i: u16, j: u16, now: int) returns (r': Trail)
    requires Runs(r) && i in End(r).nodes && j in End(r).nodes
    ensures GoesOn(r, r') && |r'.events| == |r.events| + 2
    ensures GotThrough(r'.states, r'.events, Hop(i, j, |r.events|, |r.events| + 1))
  {
    hide Run, Steps, Enabled, Sent;
    var n, s := |r.events|, End(r);
    CanRequest(s, i, j);
    var r1 := GoOn(r, Request(i, j));
    RequestLeaves(s, i, j, now, End(r1));
    r' := GoOn(r1, Arrive(Sent(s, i, j, false), now));
    GoesOnTrans(r, r1, r');
    assert r'.states[n] == s && r'.events[n] == Request(i, j);
  }

  // ---------- All pairs ----------

  lemma SyncedStay(r: Trail, r': Trail)
    requires GoesOn(r, r')
    ensures Synced(r.states, r.events) <= Synced(r'.states, r'.events)
  {
    hide Run, Sent;
    forall h | h in Synced(r.states, r.events) ensures h in Synced(r'.states, r'.events) {
      assert GotThrough(r.states, r.events, h);
    }
  }

  /** Requests have got through for each of the pairs. */
  ghost predicate Paired(r: Trail, a: nat, pairs: set<(u16, u16)>)
    requires |r.states| == |r.events| + 1
  {
    forall q :: q in pairs ==> Linked(Synced(r.states, r.events), q.0, a, q.1, |r.events|)
  }

  lemma {:induction false} RequestAll(r: Trail, pairs: set<(u16, u16)>, now: int) returns (r': Trail)
    requires Runs(r) && forall q :: q in pairs ==> q.0 in End(r).nodes && q.1 in End(r).nodes
    ensures GoesOn(r, r') && Paired(r', |r.events|, pairs)
    decreases |pairs|
  {
    hide Run, Linked, Synced;
    if pairs == {} {
      r' := r;
    } else {
      var q :| q in pairs;
      var r1 := RequestAll(r, pairs - {q}, now);
      r' := RequestThrough(r1, q.0, q.1, now);
      GoesOnTrans(r, r1, r');
      SyncedStay(r1, r');
      var through, h := Synced(r'.states, r'.events), Hop(q.0, q.1, |r1.events|, |r1.events| + 1);
      SyncedIs(r', h);
      LinkedBy(through, h, |r.events|, |r'.events|);
      forall o | o in pairs ensures Linked(through, o.0, |r.events|, o.1, |r'.events|) {
        if o != q {
          StillLinked(Synced(r1.states, r1.events), through, o.0, |r.events|, o.1, |r1.events|, |r'.events|);
        }
      }
    }
  }

  lemma SyncedIs(r: Trail, h: Hop)
    requires |r.states| == |r.events| + 1 && GotThrough(r.states, r.events, h)
    ensures h in Synced(r.states, r.events)
  {
    hide GotThrough;
  }

  /** From every state a run can reach with one writer per key, it can go on, without a write, until all nodes
      hold the join of the states they held there. */
  lemma Converges(r: Trail, owner: Key -> u16, now: int) returns (r': Trail)
    requires Runs(r) && OneWriter(r.events, owner)
    ensures GoesOn(r, r') && OneWriter(r'.events, owner)
    ensures forall j :: j in End(r').nodes ==> IsJoin(End(r').nodes[j].state, StatesOf(LedgerOf(End(r))))
  {
    hide Run, Synced, Linked, IsJoin, StatesOf, LedgerOf;
    var ids := End(r).nodes.Keys;
    var pairs := set i, j | i in ids && j in ids :: (i, j);
    r' := RequestAll(r, pairs, now);
    var a, b := |r.events|, |r'.events|;
    forall i, j | i in ids && j in ids ensures Linked(Synced(r'.states, r'.events), i, a, j, b) {
      assert (i, j) in pairs;
      assert Linked(Synced(r'.states, r'.events), (i, j).0, a, (i, j).1, b);
    }
    forall e | e in r'.events ensures ByOwner(e, owner) {
      var t :| 0 <= t < b && r'.events[t] == e;
      if t < a {
        assert r.events[t] == e;
      }
    }
    assert r'.states[a] == End(r);
    Convergence(r'.states, r'.events, owner, a, b);
  }
}
