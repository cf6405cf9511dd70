/**
 The one-writer-per-key discipline of cmd/gossip_bench/main.go: what it keeps true of the nodes' states
 and of every state that travels between them.
 */
module Owners {
  import opened Messages
  import opened Merge

  /** The nodes' states, and a record of every value ever set, by key and version. */
  datatype Ledger = Ledger(states: map<u16, State>, written: map<(Key, nat), Value>)

  ghost predicate OwnerHas(k: Key, version: nat, l: Ledger, owner: Key -> u16) {
    owner(k) in l.states && k in l.states[owner(k)] && version <= l.states[owner(k)][k].version
  }

  /** The entry was once written, and is no newer than its owner's. */
  ghost predicate EntrySound(k: Key, e: Entry, l: Ledger, owner: Key -> u16) {
    && (k, e.version) in l.written && l.written[(k, e.version)] == e.value
    && 1 <= e.version && OwnerHas(k, e.version, l, owner)
  }

  ghost predicate Sound(x: State, l: Ledger, owner: Key -> u16) {
    forall k :: k in x ==> EntrySound(k, x[k], l, owner)
  }

  ghost predicate Inv(l: Ledger, owner: Key -> u16) {
    && (forall i :: i in l.states ==> Sound(l.states[i], l, owner))
    && (forall k, v :: (k, v) in l.written ==> OwnerHas(k, v, l, owner))
  }

  /** Only additions to what was written, and only higher versions at the owners. */
  ghost predicate Advances(l: Ledger, l': Ledger, owner: Key -> u16) {
    && l'.states.Keys == l.states.Keys
    && (forall kv :: kv in l.written ==> kv in l'.written && l'.written[kv] == l.written[kv])
    && (forall k, v :: OwnerHas(k, v, l, owner) ==> OwnerHas(k, v, l', owner))
  }

  // ---------- The two ways a ledger changes ----------

  function Wrote(l: Ledger, id: u16, key: Key, value: Value): Ledger
    requires id in l.states
  {
    var state := Written(l.states[id], key, value);
    Ledger(l.states[id := state], l.written[(key, state[key].version) := value])
  }

  function Mixed(l: Ledger, id: u16, x: State): Ledger
    requires id in l.states
  {
    l.(states := l.states[id := Merged(l.states[id], x)])
  }

  lemma SoundLasts(x: State, l: Ledger, l': Ledger, owner: Key -> u16)
    requires Sound(x, l, owner) && Advances(l, l', owner)
    ensures Sound(x, l', owner)
  {
    hide OwnerHas;
    forall k | k in x ensures EntrySound(k, x[k], l', owner) {
      assert EntrySound(k, x[k], l, owner);
    }
  }

  lemma WroteAdvances(l: Ledger, id: u16, key: Key, value: Value, owner: Key -> u16)
    requires Inv(l, owner) && id in l.states && owner(key) == id
    ensures Advances(l, Wrote(l, id, key, value), owner)
  {
    hide Sound;
    var version := Written(l.states[id], key, value)[key].version;
    assert (key, version) !in l.written;
  }

  lemma WroteKeeps(l: Ledger, id: u16, key: Key, value: Value, owner: Key -> u16)
    requires Inv(l, owner) && id in l.states && owner(key) == id
    ensures Inv(Wrote(l, id, key, value), owner) && Advances(l, Wrote(l, id, key, value), owner)
  {
    var l' := Wrote(l, id, key, value);
    WroteAdvances(l, id, key, value, owner);
    forall i | i in l.states ensures Sound(l'.states[i], l', owner) {
      SoundLasts(l.states[i], l, l', owner);
    }
    hide Sound;
  }

  lemma MergedSound(x: State, y: State, l: Ledger, owner: Key -> u16)
    requires Sound(x, l, owner) && Sound(y, l, owner)
    ensures Sound(Merged(x, y), l, owner)
  {
    hide EntrySound;
  }

  lemma MixedKeeps(l: Ledger, id: u16, x: State, owner: Key -> u16)
    requires Inv(l, owner) && id in l.states && Sound(x, l, owner)
    ensures Inv(Mixed(l, id, x), owner) && Advances(l, Mixed(l, id, x), owner)
  {
    hide Sound;
    var l' := Mixed(l, id, x);
    forall i | i in l.states ensures Sound(l'.states[i], l', owner) {
      if i == id {
        MergedSound(l.states[id], x, l, owner);
      }
      SoundLasts(l'.states[i], l, l', owner);
    }
  }

  lemma SoundCompatible(x: State, y: State, l: Ledger, owner: Key -> u16)
    requires Sound(x, l, owner) && Sound(y, l, owner)
    ensures Compatible(x, y)
  {
    hide OwnerHas;
    forall k | k in x && k in y && x[k].version == y[k].version ensures x[k] == y[k] {
      assert EntrySound(k, x[k], l, owner) && EntrySound(k, y[k], l, owner);
    }
  }

  /** An owner's own entry survives any merge. */
  lemma OwnerUnmoved(l: Ledger, id: u16, x: State, owner: Key -> u16, k: Key)
    requires id in l.states && owner(k) in l.states && Sound(x, l, owner)
    ensures var l' := Mixed(l, id, x);
            && (k in l'.states[owner(k)] <==> k in l.states[owner(k)])
            && (k in l.states[owner(k)] ==> l'.states[owner(k)][k] == l.states[owner(k)][k])
  {
    if k in x {
      assert EntrySound(k, x[k], l, owner);
    }
  }
}
