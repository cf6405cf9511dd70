/** The push gossip of node/algorithm/gossip/gossip.go: one node's state, and the object that keeps it. */
module Gossip {
  import opened Messages
  import opened Merge
  import opened Wrappers

  const TYPE_STATE: u8 := 1

  type Seen = set<(u16, u32)>

  datatype Node = Node(state: State, seen: Seen)

  /** A state message not seen before is taken; anything else changes nothing. */
  predicate Takes(n: Node, kind: u8, from: u16, num: u32) {
    kind == TYPE_STATE && (from, num) !in n.seen
  }

  /** The first half of OnMessage, under its first hold of the lock. */
  function Marked(n: Node, kind: u8, from: u16, num: u32): Node {
    if Takes(n, kind, from, num) then n.(seen := n.seen + {(from, num)}) else n
  }

  /** The second half, under the second. */
  function Absorbed(n: Node, remote: State): Node {
    n.(state := Merged(n.state, remote))
  }

  /** `perm` lists the numbers below `n`, each once. */
  ghost predicate Permutation(perm: seq<nat>, n: nat) {
    && |perm| == n && (forall i :: 0 <= i < n ==> perm[i] < n)
    && forall i, j :: 0 <= i < j < n ==> perm[i] != perm[j]
  }

  /** A state message not seen before is marked, and absorbing it leaves the receiver the merge of the two states;
      what was seen before and other kinds of message change nothing. */
  lemma TakenOnce(n: Node, kind: u8, from: u16, num: u32, remote: State)
    ensures Takes(n, kind, from, num) <==> kind == 1 && (from, num) !in n.seen
    ensures var n' := Marked(n, kind, from, num);
            && !Takes(n', kind, from, num) && Marked(n', kind, from, num) == n'
            && n'.state == n.state && n'.seen == n.seen + (if kind == 1 then {(from, num)} else {})
            && Absorbed(n', remote) == Node(Merged(n.state, remote), n'.seen)
  {
  }

  class Algorithm {
    var state: State
    var seen: Seen
    const fanout: nat

    ghost function Model(): Node
      reads this
    {
      Node(state, seen)
    }

    constructor (fanout: int)
      ensures Model() == Node(map[], {}) && this.fanout == if fanout <= 0 then 3 else fanout
    {
      state, seen, this.fanout := map[], {}, if fanout <= 0 then 3 else fanout;
    }

    method Set(key: Key, value: Value)
      modifies this
      ensures Model() == old(Model()).(state := Written(old(state), key, value))
    {
      var ver := 1;
      if key in state {
        ver := state[key].version + 1;
      }
      state := state[key := Entry(value, ver)];
    }

    /** The keys of `remote` come in whatever order the map yields them. */
    method Merge(remote: State)
      modifies this
      ensures Model() == Absorbed(old(Model()), remote)
    {
      hide Merged;
      var rest := remote.Keys;
      MergeNothing(state, remote);
      while rest != {}
        invariant rest <= remote.Keys && seen == old(seen)
        invariant state == Merged(old(state), remote - rest)
        decreases |rest|
      {
        var k :| k in rest;
        MergeOneMore(old(state), remote, rest, k);
        rest := rest - {k};
        if k !in state || remote[k].version > state[k].version {
          state := state[k := remote[k]];
        }
      }
      assert remote - {} == remote;
    }

    /** Marks a state message seen, and says whether it was new. */
    method Mark(msg: Message) returns (taken: bool)
      modifies this
      ensures taken <==> msg.kind == TYPE_STATE && (msg.from, msg.num) !in old(seen)
      ensures state == old(state) && seen == old(seen) + if msg.kind == TYPE_STATE then {(msg.from, msg.num)} else {}
      ensures Model() == Marked(old(Model()), msg.kind, msg.from, msg.num)
      ensures taken <==> Takes(old(Model()), msg.kind, msg.from, msg.num)
    {
      if msg.kind != TYPE_STATE {
        return false;
      }
      var key := (msg.from, msg.num);
      if key in seen {
        return false;
      }
      seen := seen + {key};
      taken := true;
    }

    /** Both halves, if nothing comes between them; `payload` is what the payload decodes to, if it does. */
    method OnMessage(msg: Message, payload: Option<State>)
      modifies this
      ensures seen == old(seen) + if msg.kind == TYPE_STATE then {(msg.from, msg.num)} else {}
      ensures state == if msg.kind == TYPE_STATE && (msg.from, msg.num) !in old(seen) && payload.Some?
                       then Merged(old(state), payload.value) else old(state)
    {
      var taken := Mark(msg);
      if taken && payload.Some? {
        Merge(payload.value);
      }
    }

    /** Forgets the messages whose time has run out. */
    method EvictSeen(expired: Seen)
      modifies this
      ensures Model() == old(Model()).(seen := old(seen) - expired)
    {
      var rest := seen;
      while rest != {}
        invariant rest <= seen && state == old(state)
        invariant seen == (old(seen) - expired) + (rest * old(seen))
        decreases |rest|
      {
        var k :| k in rest;
        rest := rest - {k};
        if k in expired {
          seen := seen - {k};
        }
      }
    }

    /** `n` members picked by the random choice `perm`, or all of them if there are no more. */
    static method SampleN(peers: seq<u16>, n: nat, perm: seq<nat>) returns (sample: seq<u16>)
      requires Permutation(perm, |peers|) && forall i, j :: 0 <= i < j < |peers| ==> peers[i] != peers[j]
      ensures |sample| == (if n >= |peers| then |peers| else n)
      ensures (forall i :: 0 <= i < |sample| ==> sample[i] in peers)
      ensures forall i, j :: 0 <= i < j < |sample| ==> sample[i] != sample[j]
    {
      if n >= |peers| {
        return peers;
      }
      sample := [];
      for i := 0 to n
        invariant |sample| == i && forall j :: 0 <= j < i ==> sample[j] == peers[perm[j]]
      {
        sample := sample + [peers[perm[i]]];
      }
    }

    /** Pushes the whole state to `fanout` peers, or to all. */
    method GossipRound(peers: seq<u16>, perm: seq<nat>) returns (pushes: seq<(u16, State)>)
      requires Permutation(perm, |peers|) && forall i, j :: 0 <= i < j < |peers| ==> peers[i] != peers[j]
      ensures |pushes| == (if fanout >= |peers| then |peers| else fanout)
      ensures forall i :: 0 <= i < |pushes| ==> pushes[i].0 in peers && pushes[i].1 == state
      ensures forall i, j :: 0 <= i < j < |pushes| ==> pushes[i].0 != pushes[j].0
    {
      pushes := [];
      if |peers| == 0 {
        return;
      }
      var payload := state;
      var targets := SampleN(peers, fanout, perm);
      for i := 0 to |targets|
        invariant |pushes| == i && forall j :: 0 <= j < i ==> pushes[j] == (targets[j], payload)
      {
        pushes := pushes + [(targets[i], payload)];
      }
    }
  }
}
