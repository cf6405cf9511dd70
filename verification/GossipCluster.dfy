/**
 Gossiping nodes over a network that loses, duplicates, delays and reorders pushes. Where each key is
 written by one node only, versions stay below their owner's, equal versions mean equal values, and once
 writing stops, enough deliveries bring every node to the same state.
 */
module GossipCluster {
  import opened Messages
  import opened Merge
  import opened Gossip
  import opened Owners
  import opened Journeys

  datatype Push = Push(from: u16, to: u16, num: u32, state: State)

  /** `taken` are the states marked as seen by a node but not merged yet: OnMessage lets go of its lock in
      between. `written` records every value ever set, by key and version; no node reads it. */
  datatype Cluster = Cluster(
    nodes: map<u16, Node>, net: set<Push>, taken: multiset<(u16, State)>, written: map<(Key, nat), Value>)

  datatype Event =
    | Write(id: u16, key: Key, value: Value)
    | Round(id: u16, nums: map<u16, u32>)          // the targets, and the numbers stamped on their pushes
    | Arrive(push: Push)
    | Absorb(id: u16, state: State)
    | Forget(id: u16, expired: Seen)

  function Init(ids: set<u16>): Cluster {
    Cluster(map i | i in ids :: Node(map[], {}), {}, multiset{}, map[])
  }

  function Pushes(id: u16, nums: map<u16, u32>, state: State): set<Push> {
    set to | to in nums :: Push(id, to, nums[to], state)
  }

  ghost predicate Enabled(s: Cluster, e: Event) {
    match e
    case Write(id, _, _) => id in s.nodes
    case Round(id, nums) => id in s.nodes
    case Arrive(p) => p in s.net && p.to in s.nodes
    case Absorb(id, state) => id in s.nodes && (id, state) in s.taken
    case Forget(id, _) => id in s.nodes
  }

  function SetNode(s: Cluster, id: u16, n: Node): Cluster {
    s.(nodes := s.nodes[id := n])
  }

  function Next(s: Cluster, e: Event): Cluster
    requires e.Arrive? || e.id in s.nodes
    requires e.Arrive? ==> e.push.to in s.nodes
  {
    match e
    case Write(id, key, value) =>
      var n := s.nodes[id];
      var state := Written(n.state, key, value);
      SetNode(s, id, n.(state := state)).(written := s.written[(key, state[key].version) := value])
    case Round(id, nums) => s.(net := s.net + Pushes(id, nums, s.nodes[id].state))
    case Arrive(p) =>
      var n := s.nodes[p.to];
      SetNode(s, p.to, Marked(n, TYPE_STATE, p.from, p.num)).(
        taken := if Takes(n, TYPE_STATE, p.from, p.num) then s.taken + multiset{(p.to, p.state)} else s.taken)
    case Absorb(id, state) =>
      SetNode(s, id, Absorbed(s.nodes[id], state)).(taken := s.taken - multiset{(id, state)})
    case Forget(id, expired) => SetNode(s, id, s.nodes[id].(seen := s.nodes[id].seen - expired))
  }

  ghost predicate Steps(s: Cluster, e: Event, s': Cluster) {
    Enabled(s, e) && s' == Next(s, e)
  }

  ghost predicate Run(states: seq<Cluster>, events: seq<Event>) {
    && |states| == |events| + 1 && states[0] == Init(states[0].nodes.Keys)
    && forall k :: 0 <= k < |events| ==> Steps(states[k], events[k], states[k + 1])
  }

  /** Only a key's owner writes it. */
  ghost predicate ByOwner(e: Event, owner: Key -> u16) {
    e.Write? ==> owner(e.key) == e.id
  }

  ghost predicate OneWriter(events: seq<Event>, owner: Key -> u16) {
    forall e :: e in events ==> ByOwner(e, owner)
  }

  // ---------- What every state keeps ----------

  function LedgerOf(s: Cluster): Ledger {
    Ledger(map i | i in s.nodes :: s.nodes[i].state, s.written)
  }

  ghost predicate Inv(s: Cluster, owner: Key -> u16) {
    && Owners.Inv(LedgerOf(s), owner)
    && (forall p :: p in s.net ==> Sound(p.state, LedgerOf(s), owner))
    && (forall t :: t in s.taken ==> Sound(t.1, LedgerOf(s), owner))
  }

  /** What a step does to the ledger, whose owners only advance. */
  lemma SetOnLedger(s: Cluster, s': Cluster, id: u16, n: Node)
    requires id in s.nodes && s'.nodes == s.nodes[id := n]
    ensures LedgerOf(s').states == LedgerOf(s).states[id := n.state]
    ensures n.state == s.nodes[id].state ==> LedgerOf(s').states == LedgerOf(s).states
  {
  }

  lemma StepOnLedger(s: Cluster, e: Event, s': Cluster)
    requires Steps(s, e, s')
    ensures match e
            case Write(id, key, value) => LedgerOf(s') == Wrote(LedgerOf(s), id, key, value)
            case Absorb(id, state) => LedgerOf(s') == Mixed(LedgerOf(s), id, state)
            case _ => LedgerOf(s') == LedgerOf(s)
  {
    hide Merged, Written, Pushes;
    if !e.Round? {
      var id := if e.Arrive? then e.push.to else e.id;
      SetOnLedger(s, s', id, s'.nodes[id]);
    }
  }

  lemma LedgerStep(s: Cluster, e: Event, s': Cluster, owner: Key -> u16)
    requires Steps(s, e, s') && ByOwner(e, owner) && Inv(s, owner)
    ensures Owners.Inv(LedgerOf(s'), owner) && Advances(LedgerOf(s), LedgerOf(s'), owner)
  {
    StepOnLedger(s, e, s');
    match e
    case Write(id, key, value) => WroteKeeps(LedgerOf(s), id, key, value, owner);
    case Absorb(id, state) => MixedKeeps(LedgerOf(s), id, state, owner);
    case Arrive(_) =>
    case Round(_, _) =>
    case Forget(_, _) =>
  }

  lemma TakenFrom(s: Cluster, e: Event, s': Cluster, t: (u16, State))
    requires Steps(s, e, s') && t in s'.taken
    ensures t in s.taken || exists p :: p in s.net && p.state == t.1
  {
    hide Merged, Written;
  }

  lemma SentOrNew(s: Cluster, e: Event, s': Cluster, p: Push)
    requires Steps(s, e, s') && p in s'.net
    ensures p in s.net || (e.Round? && e.id in s.nodes && p.state == s.nodes[e.id].state)
    ensures s'.nodes.Keys == s.nodes.Keys
  {
    hide Merged, Written;
  }

  lemma SameNodes(s: Cluster, e: Event, s': Cluster)
    requires Steps(s, e, s')
    ensures s'.nodes.Keys == s.nodes.Keys
  {
    hide Merged, Written, Pushes;
  }

  lemma NodeSound(s: Cluster, owner: Key -> u16, i: u16)
    requires Inv(s, owner) && i in s.nodes
    ensures Sound(s.nodes[i].state, LedgerOf(s), owner)
  {
    hide Sound;
    assert LedgerOf(s).states[i] == s.nodes[i].state;
  }

  lemma PushSound(s: Cluster, owner: Key -> u16, p: Push)
    requires Inv(s, owner) && p in s.net
    ensures Sound(p.state, LedgerOf(s), owner)
  {
    hide Sound, Owners.Inv;
  }

  lemma TakenSound(s: Cluster, owner: Key -> u16, t: (u16, State))
    requires Inv(s, owner) && t in s.taken
    ensures Sound(t.1, LedgerOf(s), owner)
  {
    hide Sound, Owners.Inv;
  }

  lemma InvStep(s: Cluster, e: Event, s': Cluster, owner: Key -> u16)
    requires Steps(s, e, s') && ByOwner(e, owner) && Inv(s, owner)
    ensures Inv(s', owner) && s'.nodes.Keys == s.nodes.Keys
  {
    hide Sound, Advances, Steps, Owners.Inv;
    LedgerStep(s, e, s', owner);
    SameNodes(s, e, s');
    forall p | p in s'.net ensures Sound(p.state, LedgerOf(s'), owner) {
      PushStaysSound(s, e, s', owner, p);
    }
    forall t | t in s'.taken ensures Sound(t.1, LedgerOf(s'), owner) {
      TakenStaysSound(s, e, s', owner, t);
    }
  }

  lemma PushStaysSound(s: Cluster, e: Event, s': Cluster, owner: Key -> u16, p: Push)
    requires Steps(s, e, s') && Inv(s, owner) && p in s'.net && Advances(LedgerOf(s), LedgerOf(s'), owner)
    ensures Sound(p.state, LedgerOf(s'), owner)
  {
    hide *;
    SentOrNew(s, e, s', p);
    if p in s.net {
      PushSound(s, owner, p);
    } else {
      NodeSound(s, owner, e.id);
    }
    SoundLasts(p.state, LedgerOf(s), LedgerOf(s'), owner);
  }

  lemma TakenStaysSound(s: Cluster, e: Event, s': Cluster, owner: Key -> u16, t: (u16, State))
    requires Steps(s, e, s') && Inv(s, owner) && t in s'.taken && Advances(LedgerOf(s), LedgerOf(s'), owner)
    ensures Sound(t.1, LedgerOf(s'), owner)
  {
    hide *;
    TakenFrom(s, e, s', t);
    if t in s.taken {
      TakenSound(s, owner, t);
    } else {
      var p :| p in s.net && p.state == t.1;
      PushSound(s, owner, p);
    }
    SoundLasts(t.1, LedgerOf(s), LedgerOf(s'), owner);
  }

  lemma InitSound(ids: set<u16>, owner: Key -> u16)
    ensures Inv(Init(ids), owner)
  {
  }

  /** In every reachable state, pushes in flight included, no version of a key exceeds its owner's, and
      equal versions carry equal values. */
  lemma {:induction false} OwnersLead(states: seq<Cluster>, events: seq<Event>, owner: Key -> u16, k: nat)
    requires Run(states, events) && OneWriter(events, owner) && k < |states|
    ensures Inv(states[k], owner) && states[k].nodes.Keys == states[0].nodes.Keys
  {
    hide Steps, Inv, Init, ByOwner;
    if k == 0 {
      InitSound(states[0].nodes.Keys, owner);
    } else {
      OwnersLead(states, events, owner, k - 1);
      InvStep(states[k - 1], events[k - 1], states[k], owner);
    }
  }

  // ---------- Convergence ----------

  function Ledgers(states: seq<Cluster>): seq<Ledger> {
    seq(|states|, k requires 0 <= k < |states| => LedgerOf(states[k]))
  }

  lemma StepTraced(s: Cluster, e: Event, s': Cluster, owner: Key -> u16)
    requires Steps(s, e, s') && ByOwner(e, owner) && Inv(s, owner)
    ensures Mixes(LedgerOf(s), LedgerOf(s'), owner) || Writes(LedgerOf(s), LedgerOf(s'), owner)
    ensures !e.Write? ==> Mixes(LedgerOf(s), LedgerOf(s'), owner)
  {
    hide Next, Mixed, Wrote, Sound, Owners.Inv;
    StepOnLedger(s, e, s');
    if e.Absorb? {
      TakenSound(s, owner, (e.id, e.state));
    }
  }

  lemma InvOnLedger(s: Cluster, owner: Key -> u16)
    requires Inv(s, owner)
    ensures Owners.Inv(LedgerOf(s), owner)
  {
  }

  lemma RunTraced(states: seq<Cluster>, events: seq<Event>, owner: Key -> u16)
    requires Run(states, events) && OneWriter(events, owner)
    ensures Trace(Ledgers(states), owner)
    ensures forall k :: 0 <= k < |events| && !events[k].Write? ==>
      Mixes(Ledgers(states)[k], Ledgers(states)[k + 1], owner)
  {
    hide Inv, Steps, LedgerOf, ByOwner, Mixes, Writes;
    var ls := Ledgers(states);
    OwnersLead(states, events, owner, 0);
    InvOnLedger(states[0], owner);
    forall k | 0 <= k < |events|
      ensures Mixes(ls[k], ls[k + 1], owner) || Writes(ls[k], ls[k + 1], owner)
      ensures !events[k].Write? ==> Mixes(ls[k], ls[k + 1], owner)
    {
      OwnersLead(states, events, owner, k);
      StepTraced(states[k], events[k], states[k + 1], owner);
    }
  }

  ghost predicate Quiet(events: seq<Event>, a: nat, b: nat)
    requires b <= |events|
  {
    forall t :: a <= t < b ==> !events[t].Write?
  }

  /** A push that got through: sent in one step, taken as new in a later one, merged in a still later one. */
  ghost predicate PushedThrough(states: seq<Cluster>, events: seq<Event>, h: Hop, p: Push, gotAt: nat)
    requires |states| == |events| + 1
  {
    && h.sentAt < gotAt < h.doneAt < |events| && p.from == h.from && p.to == h.to
    && var (sent, got) := (events[h.sentAt], states[gotAt]);
    && sent.Round? && sent.id == h.from && h.from in states[h.sentAt].nodes
    && p in Pushes(h.from, sent.nums, states[h.sentAt].nodes[h.from].state)
    && events[gotAt] == Arrive(p) && h.to in got.nodes && (h.from, p.num) !in got.nodes[h.to].seen
    && events[h.doneAt] == Absorb(h.to, p.state)
  }

  ghost predicate GotThrough(states: seq<Cluster>, events: seq<Event>, h: Hop)
    requires |states| == |events| + 1
  {
    exists p: Push, gotAt: nat :: PushedThrough(states, events, h, p, gotAt)
  }

  lemma HopCarries(states: seq<Cluster>, events: seq<Event>, owner: Key -> u16, h: Hop)
    requires Run(states, events) && OneWriter(events, owner) && GotThrough(states, events, h)
    ensures Carried(Ledgers(states), h)
  {
    var p: Push, gotAt: nat :| PushedThrough(states, events, h, p, gotAt);
    assert Steps(states[h.doneAt], events[h.doneAt], states[h.doneAt + 1]);
    OwnersLead(states, events, owner, h.doneAt);
    hide Run, OneWriter, Inv, Merged, Below, Steps;
    AbsorbKeeps(states[h.doneAt], events[h.doneAt], states[h.doneAt + 1], owner);
  }

  lemma AbsorbKeeps(s: Cluster, e: Event, s': Cluster, owner: Key -> u16)
    requires Steps(s, e, s') && Inv(s, owner) && e.Absorb?
    ensures e.id in s'.nodes && Below(e.state, s'.nodes[e.id].state)
  {
    TakenSound(s, owner, (e.id, e.state));
    NodeSound(s, owner, e.id);
    SoundCompatible(s.nodes[e.id].state, e.state, LedgerOf(s), owner);
    hide Inv, Merged, Below, Compatible;
    MergeIsJoin(s.nodes[e.id].state, e.state);
  }

  /** The pushes of the run that got through. */
  ghost function Pushed(states: seq<Cluster>, events: seq<Event>): iset<Hop>
    requires |states| == |events| + 1
  {
    iset h: Hop | GotThrough(states, events, h)
  }

  /** Convergence: once writing has stopped at `a`, and pushes have since led from every node to every
      other, every node holds exactly the join of all states at `a`; so all nodes hold the same. */
  lemma Convergence(states: seq<Cluster>, events: seq<Event>, owner: Key -> u16, a: nat, b: nat)
    requires Run(states, events) && OneWriter(events, owner) && a <= b < |states| && Quiet(events, a, b)
    requires Connected(Pushed(states, events), states[a].nodes.Keys, a, b)
    ensures forall j :: j in states[b].nodes ==> IsJoin(states[b].nodes[j].state, StatesOf(LedgerOf(states[a])))
    ensures forall i, j :: i in states[b].nodes && j in states[b].nodes ==>
      states[b].nodes[i].state == states[b].nodes[j].state
  {
    hide Steps, OneWriter, Trace, Mixes, Connected, GotThrough, Carried, IsJoin, StatesOf;
    var ls := Ledgers(states);
    RunTraced(states, events, owner);
    forall h | h in Pushed(states, events) ensures Carried(ls, h) {
      HopCarries(states, events, owner, h);
    }
    assert ls[a].states.Keys == states[a].nodes.Keys;
    AllJoin(ls, owner, Pushed(states, events), a, b);
    forall j | j in states[b].nodes ensures ls[b].states[j] == states[b].nodes[j].state {
    }
  }

  // ---------- The object's rounds ----------

  /** What GossipRound pushes, numbered as the node stamps it, is what a Round event puts on the network. */
  lemma RoundPushes(id: u16, state: State, pushes: seq<(u16, State)>, nums: map<u16, u32>)
    requires forall i :: 0 <= i < |pushes| ==> pushes[i].1 == state
    requires nums.Keys == set i | 0 <= i < |pushes| :: pushes[i].0
    ensures Pushes(id, nums, state)
            == set i | 0 <= i < |pushes| :: Push(id, pushes[i].0, nums[pushes[i].0], pushes[i].1)
  {
  }
}
