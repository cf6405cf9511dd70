/**
 Nodes in push-pull synchronisation over a lossy, duplicating, reordering network. The version a node
 believes its peer to know starts at zero and is only ever raised from messages built from it, so it
 stays zero: every delta is the whole state, and push-pull is a full exchange. So nodes with one writer per
 key converge here as they do in GossipCluster.
 */
module WeakNetCluster {
  import opened Messages
  import opened Merge
  import opened Owners
  import opened WeakNet
  import opened Journeys

  datatype Sync = Sync(from: u16, to: u16, payload: PushPull)

  /** `owed` are requests merged but not yet answered: (answering node, requester). */
  datatype Cluster = Cluster(
    nodes: map<u16, Node>, net: set<Sync>, owed: multiset<(u16, u16)>, written: map<(Key, nat), Value>)

  datatype Event =
    | Write(id: u16, key: Key, value: Value)
    | Request(id: u16, peer: u16)
    | Arrive(sync: Sync, now: int)
    | Reply(id: u16, peer: u16)
    | Sweep(id: u16, cutoff: int)

  function Init(ids: set<u16>): Cluster {
    Cluster(map i | i in ids :: Node(map[], map[]), {}, multiset{}, map[])
  }

  function Actor(e: Event): u16 {
    if e.Arrive? then e.sync.to else e.id
  }

  ghost predicate Enabled(s: Cluster, e: Event) {
    && Actor(e) in s.nodes
    && match e
       case Arrive(m, _) => m in s.net
       case Reply(id, peer) => (id, peer) in s.owed
       case _ => true
  }

  function Sent(s: Cluster, id: u16, peer: u16, isReply: bool): Sync
    requires id in s.nodes
  {
    Sync(id, peer, Send(s.nodes[id], id, peer, isReply).payload)
  }

  function Next(s: Cluster, e: Event): Cluster
    requires Actor(e) in s.nodes
  {
    var n := s.nodes[Actor(e)];
    match e
    case Write(id, key, value) =>
      var state := Written(n.state, key, value);
      s.(nodes := s.nodes[id := n.(state := state)], written := s.written[(key, state[key].version) := value])
    case Request(id, peer) =>
      s.(nodes := s.nodes[id := Send(n, id, peer, false).node], net := s.net + {Sent(s, id, peer, false)})
    case Arrive(m, now) =>
      s.(nodes := s.nodes[m.to := Handle(n, m.from, m.payload, now)],
         owed := if m.payload.isReply then s.owed else s.owed + multiset{(m.to, m.from)})
    case Reply(id, peer) =>
      s.(nodes := s.nodes[id := Send(n, id, peer, true).node], net := s.net + {Sent(s, id, peer, true)},
         owed := s.owed - multiset{(id, peer)})
    case Sweep(id, cutoff) => s.(nodes := s.nodes[id := Purge(n, cutoff)])
  }

  ghost predicate Steps(s: Cluster, e: Event, s': Cluster) {
    Enabled(s, e) && s' == Next(s, e)
  }

  ghost predicate Run(states: seq<Cluster>, events: seq<Event>) {
    && |states| == |events| + 1 && states[0] == Init(states[0].nodes.Keys)
    && forall k :: 0 <= k < |events| ==> Steps(states[k], events[k], states[k + 1])
  }

  /** Only a key's owner writes it. */
  ghost predicate ByOwner(e: Event, owner: Key -> u16) {
    e.Write? ==> owner(e.key) == e.id
  }

  ghost predicate OneWriter(events: seq<Event>, owner: Key -> u16) {
    forall e :: e in events ==> ByOwner(e, owner)
  }

  // ---------- No version is ever believed known ----------

  ghost predicate NothingKnown(s: Cluster) {
    && (forall i :: i in s.nodes ==> Ignorant(s.nodes[i]))
    && (forall m :: m in s.net ==> m.payload.knownVer == 0)
  }

  /** The statistics of one node hold no known version. */
  ghost predicate Ignorant(n: Node) {
    forall p :: p in n.peers ==> n.peers[p].knownVer == 0
  }

  lemma StaysIgnorant(s: Cluster, e: Event, s': Cluster, i: u16)
    requires Steps(s, e, s') && i in s.nodes && Ignorant(s.nodes[i])
    requires e.Arrive? ==> e.sync.payload.knownVer == 0
    ensures i in s'.nodes && Ignorant(s'.nodes[i])
  {
    hide Merged, DeltaFor, Written, Stale;
  }

  lemma SentIgnorant(s: Cluster, e: Event, s': Cluster, m: Sync)
    requires Steps(s, e, s') && m in s'.net && m !in s.net && Actor(e) in s.nodes && Ignorant(s.nodes[Actor(e)])
    ensures m.payload.knownVer == 0
  {
    hide Merged, DeltaFor, Written, Stale;
  }

  lemma StepMembers(s: Cluster, e: Event, s': Cluster)
    requires Steps(s, e, s')
    ensures Actor(e) in s.nodes && s'.nodes.Keys == s.nodes.Keys && (e.Arrive? ==> e.sync in s.net)
  {
    hide Merged, DeltaFor, Written, Stale, StatsOf;
  }

  lemma NothingKnownStep(s: Cluster, e: Event, s': Cluster)
    requires Steps(s, e, s') && NothingKnown(s)
    ensures NothingKnown(s')
  {
    hide Steps, Ignorant;
    StepMembers(s, e, s');
    forall i | i in s'.nodes ensures Ignorant(s'.nodes[i]) {
      StaysIgnorant(s, e, s', i);
    }
    forall m | m in s'.net ensures m.payload.knownVer == 0 {
      if m !in s.net {
        SentIgnorant(s, e, s', m);
      }
    }
  }

  /** In every run the known versions are zero, at all nodes and in all messages. */
  lemma {:induction false} KnownVersionsStayZero(states: seq<Cluster>, events: seq<Event>, k: nat)
    requires Run(states, events) && k < |states|
    ensures NothingKnown(states[k])
  {
    if k > 0 {
      hide NothingKnown, Next, Enabled;
      KnownVersionsStayZero(states, events, k - 1);
      NothingKnownStep(states[k - 1], events[k - 1], states[k]);
    }
  }

  // ---------- Versions start at 1 ----------

  ghost predicate Numbered(x: State) {
    forall k :: k in x ==> x[k].version > 0
  }

  ghost predicate AllNumbered(s: Cluster) {
    && (forall i :: i in s.nodes ==> Numbered(s.nodes[i].state))
    && (forall m :: m in s.net ==> Numbered(m.payload.delta))
  }

  lemma NodeStaysNumbered(s: Cluster, e: Event, s': Cluster, i: u16)
    requires Steps(s, e, s') && i in s.nodes && Numbered(s.nodes[i].state)
    requires e.Arrive? ==> Numbered(e.sync.payload.delta)
    ensures i in s'.nodes && Numbered(s'.nodes[i].state)
  {
    hide DeltaFor, Stale, StatsOf, Merged, Written, Numbered;
    var x := s.nodes[i].state;
    if e.Write? {
      ChangedNumbered(x, map[], e.key, e.value);
    } else if e.Arrive? {
      ChangedNumbered(x, e.sync.payload.delta, [], []);
    }
  }

  lemma ChangedNumbered(x: State, y: State, k: Key, v: Value)
    requires Numbered(x) && Numbered(y)
    ensures Numbered(Merged(x, y)) && Numbered(Written(x, k, v))
  {
  }

  lemma SentOrNew(s: Cluster, e: Event, s': Cluster, m: Sync)
    requires Steps(s, e, s') && m in s'.net
    ensures m in s.net
            || (!e.Arrive? && e.id in s.nodes && m.payload.delta == DeltaFor(s.nodes[e.id].state, m.payload.knownVer))
  {
    hide Merged, Written, DeltaFor, Stale, StatsOf;
  }

  lemma AllNumberedStep(s: Cluster, e: Event, s': Cluster)
    requires Steps(s, e, s') && AllNumbered(s)
    ensures AllNumbered(s')
  {
    hide Steps, Numbered, DeltaFor;
    StepMembers(s, e, s');
    forall i | i in s'.nodes ensures Numbered(s'.nodes[i].state) {
      NodeStaysNumbered(s, e, s', i);
    }
    forall m | m in s'.net ensures Numbered(m.payload.delta) {
      SentOrNew(s, e, s', m);
      if m !in s.net {
        DeltaNumbered(s.nodes[e.id].state, m.payload.knownVer);
      }
    }
  }

  lemma DeltaNumbered(x: State, sinceVer: nat)
    requires Numbered(x)
    ensures Numbered(DeltaFor(x, sinceVer))
  {
  }

  lemma {:induction false} VersionsStartAtOne(states: seq<Cluster>, events: seq<Event>, k: nat)
    requires Run(states, events) && k < |states|
    ensures AllNumbered(states[k])
  {
    if k > 0 {
      hide AllNumbered, Next, Enabled;
      VersionsStartAtOne(states, events, k - 1);
      AllNumberedStep(states[k - 1], events[k - 1], states[k]);
    }
  }

  // ---------- Deltas are whole states ----------

  lemma NothingOmitted(s: Cluster, id: u16, peer: u16, isReply: bool)
    requires NothingKnown(s) && AllNumbered(s) && id in s.nodes
    ensures Sent(s, id, peer, isReply).payload.delta == s.nodes[id].state
  {
    var x := s.nodes[id].state;
    assert Numbered(x) && StatsOf(s.nodes[id], peer).knownVer == 0;
    assert DeltaFor(x, 0) == x;
  }

  /** In every run, what a node sends is its complete state: a delta omits nothing. */
  lemma DeltaIsWholeState(states: seq<Cluster>, events: seq<Event>, k: nat, id: u16, peer: u16, isReply: bool)
    requires Run(states, events) && k < |states| && id in states[k].nodes
    ensures Sent(states[k], id, peer, isReply).payload.delta == states[k].nodes[id].state
  {
    hide Run, NothingKnown, AllNumbered, Sent;
    KnownVersionsStayZero(states, events, k);
    VersionsStartAtOne(states, events, k);
    NothingOmitted(states[k], id, peer, isReply);
  }

  // ---------- Owners lead ----------

  function LedgerOf(s: Cluster): Ledger {
    Ledger(map i | i in s.nodes :: s.nodes[i].state, s.written)
  }

  ghost predicate Inv(s: Cluster, owner: Key -> u16) {
    && Owners.Inv(LedgerOf(s), owner)
    && (forall m :: m in s.net ==> Sound(m.payload.delta, LedgerOf(s), owner))
  }

  lemma SetOnLedger(s: Cluster, s': Cluster, id: u16, n: Node)
    requires id in s.nodes && s'.nodes == s.nodes[id := n]
    ensures LedgerOf(s').states == LedgerOf(s).states[id := n.state]
    ensures n.state == s.nodes[id].state ==> LedgerOf(s').states == LedgerOf(s).states
  {
  }

  lemma StepOnLedger(s: Cluster, e: Event, s': Cluster)
    requires Steps(s, e, s')
    ensures match e
            case Write(id, key, value) => LedgerOf(s') == Wrote(LedgerOf(s), id, key, value)
            case Arrive(m, _) => LedgerOf(s') == Mixed(LedgerOf(s), m.to, m.payload.delta)
            case _ => LedgerOf(s') == LedgerOf(s)
  {
    hide Merged, Written, DeltaFor, Stale;
    SetOnLedger(s, s', Actor(e), s'.nodes[Actor(e)]);
  }

  lemma LedgerStep(s: Cluster, e: Event, s': Cluster, owner: Key -> u16)
    requires Steps(s, e, s') && ByOwner(e, owner) && Inv(s, owner)
    ensures Owners.Inv(LedgerOf(s'), owner) && Advances(LedgerOf(s), LedgerOf(s'), owner)
  {
    hide Next;
    StepOnLedger(s, e, s');
    match e
    case Write(id, key, value) => WroteKeeps(LedgerOf(s), id, key, value, owner);
    case Arrive(m, _) => MixedKeeps(LedgerOf(s), m.to, m.payload.delta, owner);
    case Request(_, _) =>
    case Reply(_, _) =>
    case Sweep(_, _) =>
  }

  lemma DeltaSound(x: State, sinceVer: nat, l: Ledger, owner: Key -> u16)
    requires Sound(x, l, owner)
    ensures Sound(DeltaFor(x, sinceVer), l, owner)
  {
    hide EntrySound;
  }

  lemma NodeSound(s: Cluster, owner: Key -> u16, i: u16)
    requires Inv(s, owner) && i in s.nodes
    ensures Sound(s.nodes[i].state, LedgerOf(s), owner)
  {
    hide Sound;
    assert LedgerOf(s).states[i] == s.nodes[i].state;
  }

  lemma SyncSound(s: Cluster, owner: Key -> u16, m: Sync)
    requires Inv(s, owner) && m in s.net
    ensures Sound(m.payload.delta, LedgerOf(s), owner)
  {
    hide Sound, Owners.Inv;
  }

  lemma SyncStaysSound(s: Cluster, e: Event, s': Cluster, owner: Key -> u16, m: Sync)
    requires Steps(s, e, s') && Inv(s, owner) && m in s'.net && Advances(LedgerOf(s), LedgerOf(s'), owner)
    ensures Sound(m.payload.delta, LedgerOf(s'), owner)
  {
    hide *;
    SentOrNew(s, e, s', m);
    if m in s.net {
      SyncSound(s, owner, m);
    } else {
      NodeSound(s, owner, e.id);
      DeltaSound(s.nodes[e.id].state, m.payload.knownVer, LedgerOf(s), owner);
    }
    SoundLasts(m.payload.delta, LedgerOf(s), LedgerOf(s'), owner);
  }

  lemma InvStep(s: Cluster, e: Event, s': Cluster, owner: Key -> u16)
    requires Steps(s, e, s') && ByOwner(e, owner) && Inv(s, owner)
    ensures Inv(s', owner) && s'.nodes.Keys == s.nodes.Keys
  {
    hide Sound, Advances, Steps, Owners.Inv;
    LedgerStep(s, e, s', owner);
    StepMembers(s, e, s');
    forall m | m in s'.net ensures Sound(m.payload.delta, LedgerOf(s'), owner) {
      SyncStaysSound(s, e, s', owner, m);
    }
  }

  lemma InitSound(ids: set<u16>, owner: Key -> u16)
    ensures Inv(Init(ids), owner)
  {
  }

  lemma {:induction false} OwnersLead(states: seq<Cluster>, events: seq<Event>, owner: Key -> u16, k: nat)
    requires Run(states, events) && OneWriter(events, owner) && k < |states|
    ensures Inv(states[k], owner) && states[k].nodes.Keys == states[0].nodes.Keys
  {
    hide Steps, Inv, Init, ByOwner;
    if k == 0 {
      InitSound(states[0].nodes.Keys, owner);
    } else {
      OwnersLead(states, events, owner, k - 1);
      InvStep(states[k - 1], events[k - 1], states[k], owner);
    }
  }

  // ---------- One exchange ----------

  /** A request from `i` sent at `t1` that `j` merges at `t2` and answers at `t3`, the answer merged at `t4`. */
  ghost predicate Exchange(states: seq<Cluster>, events: seq<Event>, i: u16, j: u16, t1: nat, t2: nat, t3: nat, t4: nat)
    requires |states| == |events| + 1
  {
    && t1 < t2 < t3 < t4 < |events| && i in states[t1].nodes && j in states[t3].nodes
    && events[t1] == Request(i, j) && events[t3] == Reply(j, i)
    && events[t2].Arrive? && events[t2].sync == Sent(states[t1], i, j, false)
    && events[t4].Arrive? && events[t4].sync == Sent(states[t3], j, i, true)
  }

  /** Nothing else changed the state of `i` or `j` while the exchange lasted. */
  ghost predicate Undisturbed(states: seq<Cluster>, i: u16, j: u16, t1: nat, t2: nat, t3: nat, t4: nat)
    requires t1 < t2 < t3 < t4 < |states| - 1
  {
    && i in states[t1].nodes && j in states[t1].nodes && j in states[t2 + 1].nodes
    && (forall t :: t1 <= t <= t4 ==> i in states[t].nodes && states[t].nodes[i].state == states[t1].nodes[i].state)
    && (forall t :: t1 <= t <= t2 ==> j in states[t].nodes && states[t].nodes[j].state == states[t1].nodes[j].state)
    && (forall t :: t2 < t <= t4 + 1 ==>
          j in states[t].nodes && states[t].nodes[j].state == states[t2 + 1].nodes[j].state)
  }

  lemma ArriveMerges(states: seq<Cluster>, events: seq<Event>, t: nat)
    requires Run(states, events) && t < |events| && events[t].Arrive?
    ensures var to := events[t].sync.to;
            && to in states[t].nodes && to in states[t + 1].nodes
            && states[t + 1].nodes[to].state == Merged(states[t].nodes[to].state, events[t].sync.payload.delta)
  {
    assert Steps(states[t], events[t], states[t + 1]);
    hide Run, Merged;
  }

  /** With one writer per key, an undisturbed request and reply leaves both nodes with the join of the
      two states they began with. */
  lemma ExchangeJoins(states: seq<Cluster>, events: seq<Event>, owner: Key -> u16,
                      i: u16, j: u16, t1: nat, t2: nat, t3: nat, t4: nat)
    requires Run(states, events) && OneWriter(events, owner) && i != j && Exchange(states, events, i, j, t1, t2, t3, t4)
    requires Undisturbed(states, i, j, t1, t2, t3, t4)
    ensures i in states[t4 + 1].nodes && j in states[t4 + 1].nodes
    ensures states[t4 + 1].nodes[i].state == states[t4 + 1].nodes[j].state
    ensures IsJoin(states[t4 + 1].nodes[i].state, {states[t1].nodes[i].state, states[t1].nodes[j].state})
  {
    ArriveMerges(states, events, t2);
    ArriveMerges(states, events, t4);
    DeltaIsWholeState(states, events, t1, i, j, false);
    DeltaIsWholeState(states, events, t3, j, i, true);
    OwnersLead(states, events, owner, t1);
    hide Run, Merged, DeltaFor, IsJoin, Compatible;
    var x, y := states[t1].nodes[i].state, states[t1].nodes[j].state;
    assert states[t3].nodes[j].state == Merged(y, x) == states[t4 + 1].nodes[j].state;
    assert states[t4 + 1].nodes[i].state == Merged(x, Merged(y, x));
    var l := LedgerOf(states[t1]);
    assert l.states[i] == x && l.states[j] == y;
    SoundCompatible(x, y, l, owner);
    MergeCommutes(x, y);
    MergeIdempotent(x, y);
    MergeAssociates(x, x, y);
    MergeIsJoin(x, y);
  }

  // ---------- Convergence ----------

  function Ledgers(states: seq<Cluster>): seq<Ledger> {
    seq(|states|, k requires 0 <= k < |states| => LedgerOf(states[k]))
  }

  lemma StepTraced(s: Cluster, e: Event, s': Cluster, owner: Key -> u16)
    requires Steps(s, e, s') && ByOwner(e, owner) && Inv(s, owner)
    ensures Mixes(LedgerOf(s), LedgerOf(s'), owner) || Writes(LedgerOf(s), LedgerOf(s'), owner)
    ensures !e.Write? ==> Mixes(LedgerOf(s), LedgerOf(s'), owner)
  {
    hide Next, Mixed, Wrote, Sound, Owners.Inv;
    StepOnLedger(s, e, s');
    if e.Arrive? {
      SyncSound(s, owner, e.sync);
    }
  }

  lemma InvOnLedger(s: Cluster, owner: Key -> u16)
    requires Inv(s, owner)
    ensures Owners.Inv(LedgerOf(s), owner)
  {
  }

  lemma RunTraced(states: seq<Cluster>, events: seq<Event>, owner: Key -> u16)
    requires Run(states, events) && OneWriter(events, owner)
    ensures Trace(Ledgers(states), owner)
    ensures forall k :: 0 <= k < |events| && !events[k].Write? ==>
      Mixes(Ledgers(states)[k], Ledgers(states)[k + 1], owner)
  {
    hide Inv, Steps, LedgerOf, ByOwner, Mixes, Writes;
    var ls := Ledgers(states);
    OwnersLead(states, events, owner, 0);
    InvOnLedger(states[0], owner);
    forall k | 0 <= k < |events|
      ensures Mixes(ls[k], ls[k + 1], owner) || Writes(ls[k], ls[k + 1], owner)
      ensures !events[k].Write? ==> Mixes(ls[k], ls[k + 1], owner)
    {
      OwnersLead(states, events, owner, k);
      StepTraced(states[k], events[k], states[k + 1], owner);
    }
  }

  ghost predicate Quiet(events: seq<Event>, a: nat, b: nat)
    requires b <= |events|
  {
    forall t :: a <= t < b ==> !events[t].Write?
  }

  /** A request or reply that got through: sent in one step, merged in a later one. */
  ghost predicate GotThrough(states: seq<Cluster>, events: seq<Event>, h: Hop)
    requires |states| == |events| + 1
  {
    && h.sentAt < h.doneAt < |events| && h.from in states[h.sentAt].nodes
    && var (sent, got) := (events[h.sentAt], events[h.doneAt]);
    && (sent == Request(h.from, h.to) || sent == Reply(h.from, h.to))
    && got.Arrive? && got.sync == Sent(states[h.sentAt], h.from, h.to, sent.Reply?)
  }

  lemma HopCarries(states: seq<Cluster>, events: seq<Event>, owner: Key -> u16, h: Hop)
    requires Run(states, events) && OneWriter(events, owner) && GotThrough(states, events, h)
    ensures Carried(Ledgers(states), h)
  {
    assert Steps(states[h.doneAt], events[h.doneAt], states[h.doneAt + 1]);
    DeltaIsWholeState(states, events, h.sentAt, h.from, h.to, events[h.sentAt].Reply?);
    OwnersLead(states, events, owner, h.doneAt);
    hide Run, OneWriter, Inv, Merged, Below, Steps;
    MergeKeepsDelta(states[h.doneAt], events[h.doneAt], states[h.doneAt + 1], owner);
  }

  lemma MergeKeepsDelta(s: Cluster, e: Event, s': Cluster, owner: Key -> u16)
    requires Steps(s, e, s') && Inv(s, owner) && e.Arrive?
    ensures e.sync.to in s'.nodes && Below(e.sync.payload.delta, s'.nodes[e.sync.to].state)
  {
    var m := e.sync;
    SyncSound(s, owner, m);
    NodeSound(s, owner, m.to);
    SoundCompatible(s.nodes[m.to].state, m.payload.delta, LedgerOf(s), owner);
    hide Inv, Merged, Below, Compatible;
    MergeIsJoin(s.nodes[m.to].state, m.payload.delta);
  }

  /** The requests and replies of the run that got through. */
  ghost function Synced(states: seq<Cluster>, events: seq<Event>): iset<Hop>
    requires |states| == |events| + 1
  {
    iset h: Hop | GotThrough(states, events, h)
  }

  /** Convergence: once writing has stopped at `a`, and requests and replies have since led from every node
      to every other, every node holds exactly the join of all states at `a`; so all nodes hold the same. */
  lemma Convergence(states: seq<Cluster>, events: seq<Event>, owner: Key -> u16, a: nat, b: nat)
    requires Run(states, events) && OneWriter(events, owner) && a <= b < |states| && Quiet(events, a, b)
    requires Connected(Synced(states, events), states[a].nodes.Keys, a, b)
    ensures forall j :: j in states[b].nodes ==> IsJoin(states[b].nodes[j].state, StatesOf(LedgerOf(states[a])))
    ensures forall i, j :: i in states[b].nodes && j in states[b].nodes ==>
      states[b].nodes[i].state == states[b].nodes[j].state
  {
    hide Steps, OneWriter, Trace, Mixes, Connected, GotThrough, Carried, IsJoin, StatesOf;
    var ls := Ledgers(states);
    RunTraced(states, events, owner);
    forall h | h in Synced(states, events) ensures Carried(ls, h) {
      HopCarries(states, events, owner, h);
    }
    assert ls[a].states.Keys == states[a].nodes.Keys;
    AllJoin(ls, owner, Synced(states, events), a, b);
    forall j | j in states[b].nodes ensures ls[b].states[j] == states[b].nodes[j].state {
    }
  }
}
