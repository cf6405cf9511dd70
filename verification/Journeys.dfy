/**
 How states spread: what one-writer-per-key ledgers have in common, whatever messages move them. A chain
 of transfers, each begun after the one before it ended, carries a state from one node to another; and
 once nothing is written, chains between all nodes bring all to the same state.
 */
module Journeys {
  import opened Messages
  import opened Merge
  import opened Owners

  // ---------- Histories of ledgers ----------

  /** Some node merges a sound state, or nothing happens. */
  ghost predicate Mixes(l: Ledger, l': Ledger, owner: Key -> u16) {
    l' == l || exists id, x :: id in l.states && Sound(x, l, owner) && l' == Mixed(l, id, x)
  }

  /** Some node writes a key it owns. */
  ghost predicate Writes(l: Ledger, l': Ledger, owner: Key -> u16) {
    exists id, key, value :: id in l.states && owner(key) == id && l' == Wrote(l, id, key, value)
  }

  ghost predicate Trace(ls: seq<Ledger>, owner: Key -> u16) {
    && |ls| > 0 && Inv(ls[0], owner)
    && forall k :: 0 <= k < |ls| - 1 ==> Mixes(ls[k], ls[k + 1], owner) || Writes(ls[k], ls[k + 1], owner)
  }

  ghost predicate Calm(ls: seq<Ledger>, owner: Key -> u16, a: nat, b: nat)
    requires b < |ls|
  {
    forall t :: a <= t < b ==> Mixes(ls[t], ls[t + 1], owner)
  }

  lemma MixesKeeps(l: Ledger, l': Ledger, owner: Key -> u16)
    requires Mixes(l, l', owner) && Inv(l, owner)
    ensures Inv(l', owner) && l'.states.Keys == l.states.Keys
  {
    hide Inv, Sound, Merged;
    if l' != l {
      var id, x :| id in l.states && Sound(x, l, owner) && l' == Mixed(l, id, x);
      MixedKeeps(l, id, x, owner);
    }
  }

  lemma WritesKeeps(l: Ledger, l': Ledger, owner: Key -> u16)
    requires Writes(l, l', owner) && Inv(l, owner)
    ensures Inv(l', owner) && l'.states.Keys == l.states.Keys
  {
    hide Inv, Written;
    var id, key, value :| id in l.states && owner(key) == id && l' == Wrote(l, id, key, value);
    WroteKeeps(l, id, key, value, owner);
  }

  lemma {:induction false} TraceKeeps(ls: seq<Ledger>, owner: Key -> u16, k: nat)
    requires Trace(ls, owner) && k < |ls|
    ensures Inv(ls[k], owner) && ls[k].states.Keys == ls[0].states.Keys
  {
    hide Inv, Mixes, Writes;
    if k > 0 {
      TraceKeeps(ls, owner, k - 1);
      if Mixes(ls[k - 1], ls[k], owner) {
        MixesKeeps(ls[k - 1], ls[k], owner);
      } else {
        WritesKeeps(ls[k - 1], ls[k], owner);
      }
    }
  }

  // ---------- Growth ----------

  lemma BelowSelf(x: State)
    ensures Below(x, x)
  {
  }

  lemma MixesGrows(l: Ledger, l': Ledger, owner: Key -> u16, i: u16)
    requires Mixes(l, l', owner) && i in l.states
    ensures i in l'.states && Below(l.states[i], l'.states[i])
  {
    hide Sound;
  }

  lemma WritesGrows(l: Ledger, l': Ledger, owner: Key -> u16, i: u16)
    requires Writes(l, l', owner) && i in l.states
    ensures i in l'.states && Below(l.states[i], l'.states[i])
  {
  }

  lemma {:induction false} Grows(ls: seq<Ledger>, owner: Key -> u16, a: nat, b: nat, i: u16)
    requires Trace(ls, owner) && a <= b < |ls| && i in ls[a].states
    ensures i in ls[b].states && Below(ls[a].states[i], ls[b].states[i])
    decreases b
  {
    hide Below, Inv, Mixes, Writes;
    if a == b {
      BelowSelf(ls[a].states[i]);
    } else {
      Grows(ls, owner, a, b - 1, i);
      if Mixes(ls[b - 1], ls[b], owner) {
        MixesGrows(ls[b - 1], ls[b], owner, i);
      } else {
        WritesGrows(ls[b - 1], ls[b], owner, i);
      }
      BelowTrans(ls[a].states[i], ls[b - 1].states[i], ls[b].states[i]);
    }
  }

  // ---------- Chains of transfers ----------

  /** What `from` held at `sentAt` reached `to` in step `doneAt`. */
  datatype Hop = Hop(from: u16, to: u16, sentAt: nat, doneAt: nat)

  /** Transfers that lead from `i` to `j`, each begun after the one before it ended, between `a` and `b`. */
  predicate Chain(i: u16, a: nat, hops: seq<Hop>, j: u16, b: nat) {
    if hops == [] then i == j && a <= b
    else
      var last := hops[|hops| - 1];
      && last.to == j && last.sentAt < last.doneAt < b
      && Chain(i, a, hops[..|hops| - 1], last.from, last.sentAt)
  }

  ghost predicate Carried(ls: seq<Ledger>, h: Hop) {
    && h.sentAt < h.doneAt < |ls| - 1 && h.from in ls[h.sentAt].states && h.to in ls[h.doneAt + 1].states
    && Below(ls[h.sentAt].states[h.from], ls[h.doneAt + 1].states[h.to])
  }

  lemma {:induction false} ChainForward(i: u16, a: nat, hops: seq<Hop>, j: u16, b: nat)
    requires Chain(i, a, hops, j, b)
    ensures a <= b
  {
    if hops != [] {
      var last := hops[|hops| - 1];
      ChainForward(i, a, hops[..|hops| - 1], last.from, last.sentAt);
    }
  }

  /** A chain carries the state of its start to its end. */
  lemma {:induction false} ChainCarries(ls: seq<Ledger>, owner: Key -> u16, i: u16, a: nat, hops: seq<Hop>,
      j: u16, b: nat)
    requires Trace(ls, owner) && b < |ls| && Chain(i, a, hops, j, b) && forall h :: h in hops ==> Carried(ls, h)
    requires a <= b && i in ls[a].states
    ensures j in ls[b].states && Below(ls[a].states[i], ls[b].states[j])
    decreases |hops|
  {
    hide Trace, Below;
    if hops == [] {
      Grows(ls, owner, a, b, i);
    } else {
      var last := hops[|hops| - 1];
      assert Carried(ls, last);
      ChainForward(i, a, hops[..|hops| - 1], last.from, last.sentAt);
      ChainCarries(ls, owner, i, a, hops[..|hops| - 1], last.from, last.sentAt);
      Grows(ls, owner, last.doneAt + 1, b, j);
      BelowTrans(ls[a].states[i], ls[last.sentAt].states[last.from], ls[last.doneAt + 1].states[j]);
      BelowTrans(ls[a].states[i], ls[last.doneAt + 1].states[j], ls[b].states[j]);
    }
  }

  // ---------- Calm ----------

  lemma StandsStep(l: Ledger, l': Ledger, owner: Key -> u16, k: Key)
    requires Mixes(l, l', owner) && owner(k) in l.states
    ensures owner(k) in l'.states && (k in l'.states[owner(k)] <==> k in l.states[owner(k)])
    ensures k in l.states[owner(k)] ==> l'.states[owner(k)][k] == l.states[owner(k)][k]
  {
    hide Sound, Merged;
    if l' != l {
      var id, x :| id in l.states && Sound(x, l, owner) && l' == Mixed(l, id, x);
      OwnerUnmoved(l, id, x, owner, k);
    }
  }

  /** While nothing is written, an owner's entry for its key does not change. */
  lemma {:induction false} OwnerStands(ls: seq<Ledger>, owner: Key -> u16, a: nat, b: nat, k: Key)
    requires a <= b < |ls| && Calm(ls, owner, a, b) && owner(k) in ls[a].states
    ensures owner(k) in ls[b].states && (k in ls[b].states[owner(k)] <==> k in ls[a].states[owner(k)])
    ensures k in ls[a].states[owner(k)] ==> ls[b].states[owner(k)][k] == ls[a].states[owner(k)][k]
    decreases b
  {
    hide Mixes;
    if a < b {
      OwnerStands(ls, owner, a, b - 1, k);
      StandsStep(ls[b - 1], ls[b], owner, k);
    }
  }

  function StatesOf(l: Ledger): set<State> {
    set i | i in l.states :: l.states[i]
  }

  lemma NodeIsJoin(ls: seq<Ledger>, owner: Key -> u16, a: nat, b: nat, j: u16)
    requires a <= b < |ls| && Calm(ls, owner, a, b) && Inv(ls[b], owner)
    requires ls[a].states.Keys == ls[b].states.Keys && j in ls[b].states
    requires forall i :: i in ls[a].states ==> Below(ls[a].states[i], ls[b].states[j])
    ensures IsJoin(ls[b].states[j], StatesOf(ls[a]))
  {
    hide Calm;
    var t := ls[b].states[j];
    forall k | k in t ensures exists x :: x in StatesOf(ls[a]) && k in x && x[k] == t[k] {
      assert EntrySound(k, t[k], ls[b], owner);
      OwnerStands(ls, owner, a, b, k);
      var x := ls[a].states[owner(k)];
      assert x in StatesOf(ls[a]) && Below(x, t);
    }
  }

  /** Chains of the transfers in `through` lead from each of `who` to each other, between `a` and `b`. */
  ghost predicate Connected(through: iset<Hop>, who: set<u16>, a: nat, b: nat) {
    forall i, j :: i in who && j in who ==> Linked(through, i, a, j, b)
  }

  ghost predicate Linked(through: iset<Hop>, i: u16, a: nat, j: u16, b: nat) {
    exists hops: seq<Hop> :: Chain(i, a, hops, j, b) && forall h :: h in hops ==> h in through
  }

  /** One transfer is a chain. */
  lemma LinkedBy(through: iset<Hop>, h: Hop, a: nat, b: nat)
    requires h in through && a <= h.sentAt < h.doneAt < b
    ensures Linked(through, h.from, a, h.to, b)
  {
    assert [h][..0] == [] && Chain(h.from, a, [], h.from, h.sentAt);
    assert Chain(h.from, a, [h], h.to, b);
  }

  lemma StillLinked(through: iset<Hop>, through': iset<Hop>, i: u16, a: nat, j: u16, b: nat, b': nat)
    requires Linked(through, i, a, j, b) && through <= through' && b <= b'
    ensures Linked(through', i, a, j, b')
  {
    var hops: seq<Hop> :| Chain(i, a, hops, j, b) && forall h :: h in hops ==> h in through;
    assert Chain(i, a, hops, j, b');
  }

  /** Once writing has stopped, and chains have led from every node to every other, every node holds exactly
      the join of all states there were; so all nodes hold the same. */
  lemma AllJoin(ls: seq<Ledger>, owner: Key -> u16, through: iset<Hop>, a: nat, b: nat)
    requires Trace(ls, owner) && a <= b < |ls| && Calm(ls, owner, a, b)
    requires Connected(through, ls[a].states.Keys, a, b) && forall h :: h in through ==> Carried(ls, h)
    ensures forall j :: j in ls[b].states ==> IsJoin(ls[b].states[j], StatesOf(ls[a]))
    ensures forall i, j :: i in ls[b].states && j in ls[b].states ==> ls[b].states[i] == ls[b].states[j]
  {
    hide Trace, Calm, Chain, Carried, IsJoin, Inv, Below;
    TraceKeeps(ls, owner, a);
    TraceKeeps(ls, owner, b);
    forall j | j in ls[b].states ensures IsJoin(ls[b].states[j], StatesOf(ls[a])) {
      forall i | i in ls[a].states ensures Below(ls[a].states[i], ls[b].states[j]) {
        assert Linked(through, i, a, j, b);
        var hops: seq<Hop> :| Chain(i, a, hops, j, b) && forall h :: h in hops ==> h in through;
        ChainCarries(ls, owner, i, a, hops, j, b);
      }
      NodeIsJoin(ls, owner, a, b, j);
    }
    forall i, j | i in ls[b].states && j in ls[b].states ensures ls[b].states[i] == ls[b].states[j] {
      JoinUnique(ls[b].states[i], ls[b].states[j], StatesOf(ls[a]));
    }
  }
}
