/**
 Last-writer-wins merging of versioned states, shared by node/algorithm/gossip and node/algorithm/weaknet,
 and its laws. The reference notion is the join: the state that is above all of some states and made
 of their entries only.
 */
module Merge {
  import opened Messages

  type Key = seq<u8>
  type Value = seq<u8>

  datatype Entry = Entry(value: Value, version: nat)

  type State = map<Key, Entry>

  /** The merge loops overwrite under this test. */
  predicate Newer(e: Entry, k: Key, local: State) {
    k !in local || e.version > local[k].version
  }

  function Merged(local: State, remote: State): State {
    map k | k in local.Keys + remote.Keys :: if k in remote && Newer(remote[k], k, local) then remote[k] else local[k]
  }

  /** Set: the next version of a key, starting from 1. */
  function Written(s: State, k: Key, v: Value): State {
    s[k := Entry(v, if k in s then s[k].version + 1 else 1)]
  }

  /** Only the written key changes. */
  lemma WrittenIs(s: State, k: Key, v: Value)
    ensures var t := Written(s, k, v);
            && t.Keys == s.Keys + {k} && (forall m :: m in s && m != k ==> t[m] == s[m])
            && t[k].value == v && t[k].version == if k in s then s[k].version + 1 else 1
  {
  }

  ghost predicate Compatible(a: State, b: State) {
    forall k :: k in a && k in b && a[k].version == b[k].version ==> a[k] == b[k]
  }

  /** `b` has everything `a` has, or something newer. */
  ghost predicate Below(a: State, b: State) {
    forall k :: k in a ==> k in b && (a[k] == b[k] || a[k].version < b[k].version)
  }

  ghost predicate IsJoin(t: State, parts: set<State>) {
    && (forall x :: x in parts ==> Below(x, t))
    && (forall k :: k in t ==> exists x :: x in parts && k in x && x[k] == t[k])
  }

  lemma BelowTrans(a: State, b: State, c: State)
    requires Below(a, b) && Below(b, c)
    ensures Below(a, c)
  {
  }

  lemma JoinUnique(t: State, u: State, parts: set<State>)
    requires IsJoin(t, parts) && IsJoin(u, parts)
    ensures t == u
  {
    hide Below;
    forall k ensures k in t ==> k in u && (t[k] == u[k] || t[k].version < u[k].version) {
      JoinDominates(t, u, parts, k);
    }
    forall k ensures k in u ==> k in t && (u[k] == t[k] || u[k].version < t[k].version) {
      JoinDominates(u, t, parts, k);
    }
  }

  lemma JoinDominates(t: State, u: State, parts: set<State>, k: Key)
    requires IsJoin(t, parts) && IsJoin(u, parts)
    ensures k in t ==> k in u && (t[k] == u[k] || t[k].version < u[k].version)
  {
    if k in t {
      var x :| x in parts && k in x && x[k] == t[k];
      assert Below(x, u);
    }
  }

  // ---------- Laws of one merge ----------

  /** Merging computes the join exactly of states whose equal versions carry equal values. */
  lemma MergeIsJoin(a: State, b: State)
    ensures IsJoin(Merged(a, b), {a, b}) <==> Compatible(a, b)
  {
    var t := Merged(a, b);
    if Compatible(a, b) {
      forall k | k in t ensures exists x :: x in {a, b} && k in x && x[k] == t[k] {
        assert t[k] == (if k in b && Newer(b[k], k, a) then b[k] else a[k]);
      }
    } else {
      var k :| k in a && k in b && a[k].version == b[k].version && a[k] != b[k];
      assert t[k] == a[k];
      assert b in {a, b} && !Below(b, t);
    }
  }

  /** It never lowers a version and never drops a key, whatever the states. */
  lemma MergeKeeps(a: State, b: State)
    ensures Below(a, Merged(a, b))
    ensures forall k :: k in b ==> k in Merged(a, b) && b[k].version <= Merged(a, b)[k].version
  {
  }

  /** The side of the merge matters exactly when the states are not compatible. */
  lemma MergeCommutes(a: State, b: State)
    ensures Merged(a, b) == Merged(b, a) <==> Compatible(a, b)
  {
    var t, u := Merged(a, b), Merged(b, a);
    assert t.Keys == u.Keys;
    if !Compatible(a, b) {
      var k :| k in a && k in b && a[k].version == b[k].version && a[k] != b[k];
      assert t[k] != u[k];
    }
  }

  lemma MergeAssociates(a: State, b: State, c: State)
    ensures Merged(Merged(a, b), c) == Merged(a, Merged(b, c))
  {
    var t, u := Merged(Merged(a, b), c), Merged(a, Merged(b, c));
    assert t.Keys == u.Keys;
    forall k | k in t ensures t[k] == u[k] {
      MergeAssociatesAt(a, b, c, k);
    }
  }

  lemma MergeAssociatesAt(a: State, b: State, c: State, k: Key)
    requires k in a || k in b || k in c
    ensures Merged(Merged(a, b), c)[k] == Merged(a, Merged(b, c))[k]
  {
  }

  lemma MergeIdempotent(a: State, b: State)
    ensures Merged(Merged(a, b), b) == Merged(a, b) && Merged(a, a) == a
  {
  }

  lemma MergeNothing(local: State, remote: State)
    ensures Merged(local, remote - remote.Keys) == local
  {
  }

  /** One round of a merge loop: key `k` leaves the `rest` still to be looked at. */
  lemma MergeOneMore(local: State, remote: State, rest: set<Key>, k: Key)
    requires rest <= remote.Keys && k in rest
    ensures var done := Merged(local, remote - rest);
            Merged(local, remote - (rest - {k})) == if Newer(remote[k], k, done) then done[k := remote[k]] else done
  {
    var done, more := Merged(local, remote - rest), Merged(local, remote - (rest - {k}));
    assert more.Keys == done.Keys + {k};
  }

  // ---------- Merging many ----------

  function Fold(s: State, others: seq<State>): State {
    if others == [] then s else Merged(Fold(s, others[..|others| - 1]), others[|others| - 1])
  }

  function Parts(s: State, others: seq<State>): set<State> {
    {s} + set x | x in others
  }

  ghost predicate AllCompatible(parts: set<State>) {
    forall x, y :: x in parts && y in parts ==> Compatible(x, y)
  }

  lemma {:induction false} FoldIsJoin(s: State, others: seq<State>)
    requires AllCompatible(Parts(s, others))
    ensures IsJoin(Fold(s, others), Parts(s, others))
  {
    if others != [] {
      var rest, last := others[..|others| - 1], others[|others| - 1];
      assert others == rest + [last];
      FoldIsJoin(s, rest);
      assert Parts(s, others) == Parts(s, rest) + {last};
      JoinOneMore(Fold(s, rest), Parts(s, rest), last);
    }
  }

  lemma JoinOneMore(t: State, parts: set<State>, last: State)
    requires IsJoin(t, parts) && AllCompatible(parts + {last})
    ensures IsJoin(Merged(t, last), parts + {last})
  {
    hide Below, Merged;
    forall k | k in t && k in last && t[k].version == last[k].version ensures t[k] == last[k] {
      var x :| x in parts && k in x && x[k] == t[k];
      assert Compatible(x, last);
    }
    MergeIsJoin(t, last);
    var u := Merged(t, last);
    forall x | x in parts + {last} ensures Below(x, u) {
      if x in parts {
        BelowTrans(x, t, u);
      }
    }
    forall k | k in u ensures exists x :: x in parts + {last} && k in x && x[k] == u[k] {
      var y :| y in {t, last} && k in y && y[k] == u[k];
      if y == t {
        var x :| x in parts && k in x && x[k] == t[k];
        assert x in parts + {last};
      } else {
        assert last in parts + {last};
      }
    }
  }

  /** Merging compatible states gives a result that depends only on which they are: not on their order,
      and not on repetitions. */
  lemma FoldOrderFree(s: State, others: seq<State>, t: State, others': seq<State>)
    requires Parts(s, others) == Parts(t, others') && AllCompatible(Parts(s, others))
    ensures Fold(s, others) == Fold(t, others')
  {
    FoldIsJoin(s, others);
    FoldIsJoin(t, others');
    JoinUnique(Fold(s, others), Fold(t, others'), Parts(s, others));
  }
}
