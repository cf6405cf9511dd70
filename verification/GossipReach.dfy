/**
 Gossip's steps, taken to their end: a push that reaches a node which has not seen it is merged there, and
 from wherever a run is, pushes alone can bring all nodes to the join of their states.
 */
module GossipReach {
  import opened Messages
  import opened Merge
  import opened Gossip
  import Owners
  import opened Journeys
  import opened GossipCluster

  /** An arriving push that is new is marked and taken, and may then be absorbed; one that is not changes nothing. */
  lemma ArriveTakes(s: Cluster, p: Push, s': Cluster)
    requires Steps(s, Arrive(p), s')
    ensures p.to in s.nodes
    ensures if (p.from, p.num) in s.nodes[p.to].seen then s' == s
            else s'.taken == s.taken + multiset{(p.to, p.state)} && Enabled(s', Absorb(p.to, p.state))
                 && s'.nodes == s.nodes[p.to := Node(s.nodes[p.to].state, s.nodes[p.to].seen + {(p.from, p.num)})]
  {
    if (p.from, p.num) in s.nodes[p.to].seen {
      assert s.nodes[p.to := s.nodes[p.to]] == s.nodes;
    }
  }

  lemma AbsorbMerges(s: Cluster, id: u16, state: State, s': Cluster)
    requires Steps(s, Absorb(id, state), s')
    ensures id in s.nodes && s'.nodes == s.nodes[id := Node(Merged(s.nodes[id].state, state), s.nodes[id].seen)]
  {
  }

  // ---------- Going on ----------

  datatype Trail = Trail(states: seq<Cluster>, events: seq<Event>)

  ghost predicate Runs(r: Trail) {
    |r.states| == |r.events| + 1 && Run(r.states, r.events)
  }

  function End(r: Trail): Cluster
    requires |r.states| > 0
  {
    r.states[|r.states| - 1]
  }

  /** `r'` goes on from `r` without a write. */
  ghost predicate GoesOn(r: Trail, r': Trail) {
    && Runs(r) && Runs(r') && r.states <= r'.states && r.events <= r'.events
    && (forall t :: |r.events| <= t < |r'.events| ==> !r'.events[t].Write?)
    && End(r').nodes.Keys == End(r).nodes.Keys
  }

  lemma GoesOnTrans(r: Trail, r1: Trail, r2: Trail)
    requires GoesOn(r, r1) && GoesOn(r1, r2)
    ensures GoesOn(r, r2)
  {
    hide Run;
  }

  lemma GoOn(r: Trail, e: Event) returns (r': Trail)
    requires Runs(r) && Enabled(End(r), e) && !e.Write?
    ensures GoesOn(r, r') && r'.events == r.events + [e] && Steps(End(r), e, End(r'))
  {
    hide Enabled, Next, Init;
    EnabledActs(End(r), e);
    var s' := Next(End(r), e);
    r' := Trail(r.states + [s'], r.events + [e]);
    SameNodes(End(r), e, s');
    LongerRun(r, e, s');
  }

  lemma EnabledActs(s: Cluster, e: Event)
    requires Enabled(s, e)
    ensures if e.Arrive? then e.push.to in s.nodes else e.id in s.nodes
  {
  }

  lemma LongerRun(r: Trail, e: Event, s': Cluster)
    requires Runs(r) && Steps(End(r), e, s')
    ensures Runs(Trail(r.states + [s'], r.events + [e]))
  {
    hide Steps, Init;
  }

  lemma RoundSends(s: Cluster, i: u16, j: u16, s': Cluster)
    requires Steps(s, Round(i, map[j := 0]), s') && j in s.nodes
    ensures i in s.nodes && s'.nodes == s.nodes && Push(i, j, 0, s.nodes[i].state) in s'.net
    ensures Push(i, j, 0, s.nodes[i].state) in Pushes(i, map[j := 0], s.nodes[i].state)
  {
    var nums: map<u16, u32> := map[j := 0];
    assert j in nums && nums[j] == 0;
  }

  lemma Forgets(s: Cluster, j: u16, mark: (u16, u32), s': Cluster, p: Push)
    requires Steps(s, Forget(j, {mark}), s') && p in s.net && p.to == j
    ensures j in s'.nodes && mark !in s'.nodes[j].seen && Enabled(s', Arrive(p))
  {
  }

  /** `i` sends `j` its state, and `j` has not seen a push of that number. */
  lemma PushOff(r: Trail, i: u16, j: u16) returns (r': Trail, p: Push)
    requires Runs(r) && i in End(r).nodes && j in End(r).nodes
    ensures GoesOn(r, r') && |r'.events| == |r.events| + 2 && p == Push(i, j, 0, End(r).nodes[i].state)
    ensures var sent := r'.events[|r.events|];
            sent.Round? && sent.id == i && p in Pushes(i, sent.nums, End(r).nodes[i].state)
    ensures j in End(r').nodes && (i, p.num) !in End(r').nodes[j].seen && Enabled(End(r'), Arrive(p))
  {
    hide Run, Steps, Enabled, Merged, Pushes;
    CanRound(End(r), i, j);
    var r1 := GoOn(r, Round(i, map[j := 0]));
    RoundSends(End(r), i, j, End(r1));
    p := Push(i, j, 0, End(r).nodes[i].state);
    CanForget(End(r1), j, (i, 0));
    r' := GoOn(r1, Forget(j, {(i, 0)}));
    Forgets(End(r1), j, (i, 0), End(r'), p);
    GoesOnTrans(r, r1, r');
  }

  lemma GoesOnFacts(r: Trail, r': Trail)
    requires GoesOn(r, r')
    ensures Runs(r') && r.states <= r'.states && r.events <= r'.events
    ensures |r.states| == |r.events| + 1 && |r'.states| == |r'.events| + 1
  {
    hide Run;
  }

  /** From wherever a run is, `i` can get a push through to `j`. */
  lemma PushThrough(r: Trail, i: u16, j: u16) returns (r': Trail)
    requires Runs(r) && i in End(r).nodes && j in End(r).nodes
    ensures GoesOn(r, r') && |r'.events| == |r.events| + 4
    ensures GotThrough(r'.states, r'.events, Hop(i, j, |r.events|, |r.events| + 3))
  {
    hide Run, Steps, Enabled, Merged, Pushes, Runs, GoesOn;
    var n := |r.events|;
    var r1, p := PushOff(r, i, j);
    GoesOnFacts(r, r1);
    var r2 := GoOn(r1, Arrive(p));
    GoesOnFacts(r1, r2);
    ArriveTakes(End(r1), p, End(r2));
    r' := GoOn(r2, Absorb(j, p.state));
    GoesOnFacts(r2, r');
    GoesOnTrans(r, r1, r2);
    GoesOnTrans(r, r2, r');
    assert r'.states[n] == End(r) && r'.states[n + 2] == End(r1) && r'.events[n] == r1.events[n];
    assert PushedThrough(r'.states, r'.events, Hop(i, j, n, n + 3), p, n + 2);
  }

  lemma CanRound(s: Cluster, i: u16, j: u16)
    requires i in s.nodes
    ensures Enabled(s, Round(i, map[j := 0]))
  {
  }

  lemma CanForget(s: Cluster, j: u16, mark: (u16, u32))
    requires j in s.nodes
    ensures Enabled(s, Forget(j, {mark}))
  {
  }

  // ---------- All pairs ----------

  lemma PushedStay(r: Trail, r': Trail)
    requires GoesOn(r, r')
    ensures Pushed(r.states, r.events) <= Pushed(r'.states, r'.events)
  {
    hide Run, Pushes;
    forall h | h in Pushed(r.states, r.events) ensures h in Pushed(r'.states, r'.events) {
      var p: Push, gotAt: nat :| PushedThrough(r.states, r.events, h, p, gotAt);
      assert PushedThrough(r'.states, r'.events, h, p, gotAt);
    }
  }

  /** Pushes have got through for each of the pairs. */
  ghost predicate Paired(r: Trail, a: nat, pairs: set<(u16, u16)>)
    requires |r.states| == |r.events| + 1
  {
    forall q :: q in pairs ==> Linked(Pushed(r.states, r.events), q.0, a, q.1, |r.events|)
  }

  lemma {:induction false} PushAll(r: Trail, pairs: set<(u16, u16)>) returns (r': Trail)
    requires Runs(r) && forall q :: q in pairs ==> q.0 in End(r).nodes && q.1 in End(r).nodes
    ensures GoesOn(r, r') && Paired(r', |r.events|, pairs)
    decreases |pairs|
  {
    hide Run, Linked, Pushed;
    if pairs == {} {
      r' := r;
    } else {
      var q :| q in pairs;
      var r1 := PushAll(r, pairs - {q});
      r' := PushThrough(r1, q.0, q.1);
      GoesOnTrans(r, r1, r');
      PushedStay(r1, r');
      var through := Pushed(r'.states, r'.events);
      PushedIs(r', Hop(q.0, q.1, |r1.events|, |r1.events| + 3));
      LinkedBy(through, Hop(q.0, q.1, |r1.events|, |r1.events| + 3), |r.events|, |r'.events|);
      forall o | o in pairs ensures Linked(through, o.0, |r.events|, o.1, |r'.events|) {
        if o != q {
          StillLinked(Pushed(r1.states, r1.events), through, o.0, |r.events|, o.1, |r1.events|, |r'.events|);
        }
      }
    }
  }

  lemma PushedIs(r: Trail, h: Hop)
    requires |r.states| == |r.events| + 1 && GotThrough(r.states, r.events, h)
    ensures h in Pushed(r.states, r.events)
  {
    hide GotThrough;
  }

  /** From every state a run can reach with one writer per key, it can go on, without a write, until all nodes
      hold the join of the states they held there. */
  lemma Converges(r: Trail, owner: Key -> u16) returns (r': Trail)
    requires Runs(r) && OneWriter(r.events, owner)
    ensures GoesOn(r, r') && OneWriter(r'.events, owner)
    ensures forall j :: j in End(r').nodes ==> IsJoin(End(r').nodes[j].state, StatesOf(LedgerOf(End(r))))
  {
    hide Run, Pushed, Linked, IsJoin, StatesOf, LedgerOf;
    var ids := End(r).nodes.Keys;
    var pairs := set i, j | i in ids && j in ids :: (i, j);
    forall q | q in pairs ensures q.0 in End(r).nodes && q.1 in End(r).nodes {
    }
    r' := PushAll(r, pairs);
    var a, b := |r.events|, |r'.events|;
    forall i, j | i in ids && j in ids ensures Linked(Pushed(r'.states, r'.events), i, a, j, b) {
      assert (i, j) in pairs;
      assert Linked(Pushed(r'.states, r'.events), (i, j).0, a, (i, j).1, b);
    }
    forall e | e in r'.events ensures ByOwner(e, owner) {
      var t :| 0 <= t < b && r'.events[t] == e;
      if t < a {
        assert r.events[t] == e;
      }
    }
    assert r'.states[a] == End(r);
    Convergence(r'.states, r'.events, owner, a, b);
  }

  // ---------- Versions count writes ----------

  function WritesOf(events: seq<Event>, key: Key): nat {
    if events == [] then 0
    else
      var last := events[|events| - 1];
      WritesOf(events[..|events| - 1], key) + if last.Write? && last.key == key then 1 else 0
  }

  function VersionOf(x: State, key: Key): nat {
    if key in x then x[key].version else 0
  }

  lemma OwnerStep(s: Cluster, e: Event, s': Cluster, owner: Key -> u16, key: Key)
    requires Steps(s, e, s') && ByOwner(e, owner) && Inv(s, owner) && owner(key) in s.nodes
    ensures owner(key) in s'.nodes
    ensures VersionOf(s'.nodes[owner(key)].state, key)
            == VersionOf(s.nodes[owner(key)].state, key) + if e.Write? && e.key == key then 1 else 0
  {
    var i, l, l' := owner(key), LedgerOf(s), LedgerOf(s');
    hide Next, Owners.Mixed, Owners.Sound, Owners.Inv, Mixes, Writes;
    SameNodes(s, e, s');
    assert l.states[i] == s.nodes[i].state && l'.states[i] == s'.nodes[i].state;
    if e.Write? {
      StepOnLedger(s, e, s');
      WrittenIs(l.states[e.id], e.key, e.value);
    } else {
      StepTraced(s, e, s', owner);
      StandsStep(l, l', owner, key);
    }
  }

  /** With one writer per key, the owner's version of a key is the number of times it has been written. */
  lemma {:induction false} VersionsCount(r: Trail, owner: Key -> u16, k: nat, key: Key)
    requires Runs(r) && OneWriter(r.events, owner) && k < |r.states| && owner(key) in r.states[k].nodes
    ensures VersionOf(r.states[k].nodes[owner(key)].state, key) == WritesOf(r.events[..k], key)
  {
    hide Steps, Inv, ByOwner, VersionOf;
    if k == 0 {
      FreshVersions(r.states[0], owner(key), key);
    } else {
      OwnersLead(r.states, r.events, owner, k - 1);
      OwnersLead(r.states, r.events, owner, k);
      VersionsCount(r, owner, k - 1, key);
      OwnerStep(r.states[k - 1], r.events[k - 1], r.states[k], owner, key);
      assert r.events[..k][..k - 1] == r.events[..k - 1];
    }
  }

  lemma FreshVersions(s: Cluster, i: u16, key: Key)
    requires s == Init(s.nodes.Keys) && i in s.nodes
    ensures VersionOf(s.nodes[i].state, key) == 0
  {
  }
}
