/**
 The push-pull synchronisation of node/algorithm/weaknet/weaknet.go: one node's step functions, and the
 object that takes them. Times are milliseconds; a peer never heard from has no `lastSeen`.
 */
module WeakNet {
  import opened Messages
  import opened Merge

  datatype LastSeen = Never | At(time: int)

  /** Per-peer statistics; the source's `active` is always true and never read. */
  datatype Stats = Stats(knownVer: nat, lastSeen: LastSeen)

  datatype PushPull = PushPull(isReply: bool, sender: u16, delta: State, knownVer: nat)

  datatype Node = Node(state: State, peers: map<u16, Stats>)

  function StatsOf(n: Node, peer: u16): Stats {
    if peer in n.peers then n.peers[peer] else Stats(0, Never)
  }

  function DeltaFor(state: State, sinceVer: nat): State {
    map k | k in state && state[k].version > sinceVer :: state[k]
  }

  datatype Sending = Sending(node: Node, payload: PushPull)

  function Send(n: Node, id: u16, peer: u16, isReply: bool): Sending {
    var st := StatsOf(n, peer);
    Sending(n.(peers := n.peers[peer := st]), PushPull(isReply, id, DeltaFor(n.state, st.knownVer), st.knownVer))
  }

  /** The merging half of handlePushPull; the reply is a step of its own. */
  function Handle(n: Node, from: u16, pp: PushPull, now: int): Node {
    var st := StatsOf(n, from);
    Node(Merged(n.state, pp.delta),
         n.peers[from := Stats(if pp.knownVer > st.knownVer then pp.knownVer else st.knownVer, At(now))])
  }

  predicate Stale(st: Stats, cutoff: int) {
    st.lastSeen.At? && st.lastSeen.time < cutoff
  }

  function Purge(n: Node, cutoff: int): Node {
    n.(peers := map p | p in n.peers && !Stale(n.peers[p], cutoff) :: n.peers[p])
  }

  /** The highest version in `remote`, 0 if it is empty. */
  ghost predicate IsMaxVersion(v: nat, remote: State) {
    && (forall k :: k in remote ==> remote[k].version <= v)
    && (v == 0 || exists k :: k in remote && remote[k].version == v)
  }

  lemma MaxOfNone(remote: State)
    ensures IsMaxVersion(0, remote - remote.Keys)
  {
  }

  lemma MaxOneMore(remote: State, rest: set<Key>, k: Key, v: nat)
    requires k in rest && rest <= remote.Keys && IsMaxVersion(v, remote - rest)
    ensures IsMaxVersion(if remote[k].version > v then remote[k].version else v, remote - (rest - {k}))
  {
    var more := remote - (rest - {k});
    assert forall m :: m in more <==> m in remote - rest || m == k;
    if remote[k].version > v {
      assert k in more && more[k].version == remote[k].version;
    } else if v != 0 {
      var m :| m in remote - rest && remote[m].version == v;
      assert m in more && more[m].version == v;
    }
  }

  class Algorithm {
    const id: u16
    var state: State
    var peers: map<u16, Stats>

    ghost function Model(): Node
      reads this
    {
      Node(state, peers)
    }

    constructor (id: u16)
      ensures Model() == Node(map[], map[]) && this.id == id
    {
      this.id, state, peers := id, map[], map[];
    }

    method Set(key: Key, value: Value)
      modifies this
      ensures Model() == old(Model()).(state := Written(old(state), key, value))
    {
      var ver := 1;
      if key in state {
        ver := state[key].version + 1;
      }
      state := state[key := Entry(value, ver)];
    }

    method GetPeerStats(peer: u16) returns (st: Stats)
      modifies this
      ensures st == old(StatsOf(Model(), peer)) && Model() == old(Model()).(peers := old(peers)[peer := st])
    {
      if peer in peers {
        st := peers[peer];
        assert peers == peers[peer := st];
      } else {
        st := Stats(0, Never);
        peers := peers[peer := st];
      }
    }

    method Delta(sinceVer: nat) returns (delta: State)
      ensures delta == DeltaFor(state, sinceVer)
    {
      delta := map[];
      var rest := state.Keys;
      while rest != {}
        invariant rest <= state.Keys && delta == DeltaFor(state - rest, sinceVer)
        decreases |rest|
      {
        var k :| k in rest;
        rest := rest - {k};
        if state[k].version > sinceVer {
          delta := delta[k := state[k]];
        }
      }
      assert state - {} == state;
    }

    method MergeState(remote: State) returns (maxVer: nat)
      modifies this
      ensures Model() == old(Model()).(state := Merged(old(state), remote)) && IsMaxVersion(maxVer, remote)
    {
      hide Merged, IsMaxVersion;
      maxVer := 0;
      var rest := remote.Keys;
      MergeNothing(state, remote);
      MaxOfNone(remote);
      while rest != {}
        invariant rest <= remote.Keys && peers == old(peers)
        invariant state == Merged(old(state), remote - rest) && IsMaxVersion(maxVer, remote - rest)
        decreases |rest|
      {
        var k :| k in rest;
        MergeOneMore(old(state), remote, rest, k);
        MaxOneMore(remote, rest, k, maxVer);
        rest := rest - {k};
        if remote[k].version > maxVer {
          maxVer := remote[k].version;
        }
        if k !in state || remote[k].version > state[k].version {
          state := state[k := remote[k]];
        }
      }
      assert remote - {} == remote;
    }

    method SendPushPull(peer: u16, isReply: bool) returns (payload: PushPull)
      modifies this
      ensures Sending(Model(), payload) == Send(old(Model()), id, peer, isReply)
    {
      var st := GetPeerStats(peer);
      var delta := Delta(st.knownVer);
      payload := PushPull(isReply, id, delta, st.knownVer);
    }

    /** Merges, then answers a request. */
    method HandlePushPull(from: u16, pp: PushPull, now: int) returns (reply: seq<PushPull>)
      modifies this
      ensures var merged := Handle(old(Model()), from, pp, now);
              if pp.isReply then Model() == merged && reply == []
              else |reply| == 1 && Sending(Model(), reply[0]) == Send(merged, id, from, true)
    {
      hide Merged, IsMaxVersion, DeltaFor;
      var maxVer := MergeState(pp.delta);
      var st := GetPeerStats(from);
      if pp.knownVer > st.knownVer {
        st := st.(knownVer := pp.knownVer);
      }
      st := st.(lastSeen := At(now));
      peers := peers[from := st];
      reply := [];
      if !pp.isReply {
        var payload := SendPushPull(from, true);
        reply := [payload];
      }
    }

    method PurgeStalePeers(cutoff: int)
      modifies this
      ensures Model() == Purge(old(Model()), cutoff)
    {
      var rest := peers.Keys;
      while rest != {}
        invariant rest <= peers.Keys <= old(peers).Keys && state == old(state)
        invariant forall p :: p in peers ==> peers[p] == old(peers)[p]
        invariant forall p :: p in old(peers) ==> (p in peers <==> p in rest || !Stale(old(peers)[p], cutoff))
        decreases |rest|
      {
        var p :| p in rest;
        rest := rest - {p};
        if Stale(peers[p], cutoff) {
          peers := peers - {p};
        }
      }
    }
  }
}
