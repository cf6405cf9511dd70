/**
 The outbound queue of node/runtime/router.go: a binary heap of items that know their own position.

 The sift loops are those of Go's container/heap, written out over this file's Less, Swap, Push and Pop.
 */
module SendQueue {
  import opened Messages
  import M = QueueModel

  class QueueItem {
    const msg: Message
    const place: nat      // seq in the source: insertion order
    var index: nat        // the item's position in the heap

    constructor (msg: Message, place: nat)
      ensures this.msg == msg && this.place == place
    {
      this.msg, this.place := msg, place;
    }

    function Value(): M.Item {
      M.Item(msg, place)
    }
  }

  // ---------- Heap order, as a fact about sequences of items ----------

  predicate Less(a: QueueItem, b: QueueItem) {
    if a.msg.priority != b.msg.priority then a.msg.priority < b.msg.priority else a.place < b.place
  }

  predicate Le(a: QueueItem, b: QueueItem) {
    !Less(b, a)
  }

  function Parent(k: nat): nat
    requires k > 0
  {
    (k - 1) / 2
  }

  ghost predicate Ordered(h: seq<QueueItem>, n: nat)
    requires n <= |h|
  {
    forall k :: 0 < k < n ==> Le(h[Parent(k)], h[k])
  }

  /** The first `n` are in order but for the item at `hole`, which may be misplaced either way. */
  ghost predicate Hole(h: seq<QueueItem>, hole: nat, n: nat)
    requires n <= |h|
  {
    && (forall k :: 0 < k < n && k != hole && Parent(k) != hole ==> Le(h[Parent(k)], h[k]))
    && (forall k :: 0 < k < n && Parent(k) == hole && 0 < hole ==> Le(h[Parent(hole)], h[k]))
  }

  /** ... which may be too small for its place, */
  ghost predicate OrderedUp(h: seq<QueueItem>, hole: nat, n: nat)
    requires n <= |h|
  {
    Hole(h, hole, n) && forall k :: 0 < k < n && Parent(k) == hole ==> Le(h[hole], h[k])
  }

  /** ... or too large for it. */
  ghost predicate OrderedDown(h: seq<QueueItem>, hole: nat, n: nat)
    requires n <= |h|
  {
    Hole(h, hole, n) && (0 < hole < n ==> Le(h[Parent(hole)], h[hole]))
  }

  lemma {:induction false} RootIsLeast(h: seq<QueueItem>, n: nat, k: nat)
    requires n <= |h| && Ordered(h, n) && k < n
    ensures Le(h[0], h[k])
    decreases k
  {
    if k > 0 {
      RootIsLeast(h, n, Parent(k));
      assert Le(h[Parent(k)], h[k]);
    }
  }

  function Swapped(h: seq<QueueItem>, i: nat, j: nat): seq<QueueItem>
    requires i < |h| && j < |h|
  {
    h[i := h[j]][j := h[i]]
  }

  /** `h` is a rearrangement of `was` that leaves what follows the first `n` alone. */
  ghost predicate Rearranged(h: seq<QueueItem>, was: seq<QueueItem>, n: nat) {
    n <= |h| == |was| && multiset(h) == multiset(was) && h[n..] == was[n..]
  }

  lemma SwapRearranges(h: seq<QueueItem>, was: seq<QueueItem>, n: nat, i: nat, j: nat)
    requires Rearranged(h, was, n) && i < n && j < n
    ensures Rearranged(Swapped(h, i, j), was, n)
  {
    SwapKeepsItems(h, i, j);
    assert Swapped(h, i, j)[n..] == h[n..];
  }

  lemma SwapKeepsItems(h: seq<QueueItem>, i: nat, j: nat)
    requires i < |h| && j < |h|
    ensures multiset(Swapped(h, i, j)) == multiset(h)
  {
  }

  lemma RearrangedFacts(h: seq<QueueItem>, was: seq<QueueItem>, n: nat)
    requires Rearranged(h, was, n)
    ensures |h| == |was| && forall k :: 0 <= k < |h| ==> h[k] in was
  {
    forall k | 0 <= k < |h| ensures h[k] in was {
      assert h[k] in multiset(h);
    }
  }

  lemma UpStep(h: seq<QueueItem>, j: nat, n: nat)
    requires 0 < j < n <= |h| && OrderedUp(h, j, n) && Less(h[j], h[Parent(j)])
    ensures OrderedUp(Swapped(h, Parent(j), j), Parent(j), n)
  {
    var i := Parent(j);
    var h' := Swapped(h, i, j);
    forall k | 0 < k < n && k != i ensures Le(h'[Parent(k)], h'[k]) {
      if Parent(k) == i && k != j {
        assert Le(h[i], h[k]);
      }
    }
    forall k | 0 < k < n && Parent(k) == i && 0 < i ensures Le(h'[Parent(i)], h'[k]) {
      assert Le(h[Parent(i)], h[i]);
    }
  }

  lemma DownStep(h: seq<QueueItem>, i: nat, j: nat, n: nat)
    requires n <= |h| && i < j < n && Parent(j) == i && Hole(h, i, n) && Less(h[j], h[i])
    requires forall k :: 0 < k < n && Parent(k) == i ==> Le(h[j], h[k])
    ensures OrderedDown(Swapped(h, i, j), j, n)
  {
    var h' := Swapped(h, i, j);
    forall k | 0 < k < n && Parent(k) != j ensures Le(h'[Parent(k)], h'[k]) {
    }
    forall k | 0 < k < n && Parent(k) == j ensures Le(h'[Parent(j)], h'[k]) {
      assert Le(h[Parent(k)], h[k]);
    }
  }

  lemma UpDone(h: seq<QueueItem>, j: nat, n: nat)
    requires n <= |h| && j <= n && OrderedUp(h, j, n) && (0 < j < n ==> !Less(h[j], h[Parent(j)]))
    ensures Ordered(h, n)
  {
    hide Less;
  }

  /** The slice after item `j` has been sifted up. */
  function SiftedUp(h: seq<QueueItem>, j: nat): seq<QueueItem>
    requires j < |h|
    decreases j
  {
    if j > 0 && Less(h[j], h[Parent(j)]) then SiftedUp(Swapped(h, Parent(j), j), Parent(j)) else h
  }

  lemma SiftOnce(h: seq<QueueItem>, j: nat)
    requires j < |h|
    ensures SiftedUp(h, j)
            == if j > 0 && Less(h[j], h[Parent(j)]) then SiftedUp(Swapped(h, Parent(j), j), Parent(j)) else h
  {
  }

  /** The slice after a push. */
  function Pushed(h: seq<QueueItem>, item: QueueItem): seq<QueueItem> {
    SiftedUp(h + [item], |h|)
  }

  ghost predicate NoSmallerChild(h: seq<QueueItem>, i: nat, n: nat)
    requires n <= |h| && i <= n
  {
    forall k :: 0 < k < n && Parent(k) == i ==> Le(h[i], h[k])
  }

  lemma NotBelowSmallest(h: seq<QueueItem>, i: nat, j: nat, n: nat)
    requires n <= |h| && i < n && j < n && !Less(h[j], h[i])
    requires forall k :: 0 < k < n && Parent(k) == i ==> Le(h[j], h[k])
    ensures NoSmallerChild(h, i, n)
  {
    forall k | 0 < k < n && Parent(k) == i ensures Le(h[i], h[k]) {
      Transitive(h[i], h[j], h[k]);
    }
  }

  lemma HoleOf(h: seq<QueueItem>, i: nat, n: nat)
    requires n <= |h| && OrderedDown(h, i, n)
    ensures Hole(h, i, n)
  {
    hide Hole;
  }

  lemma Swapping(h: seq<QueueItem>, i: nat, j: nat)
    requires i < |h| && j < |h|
    ensures |Swapped(h, i, j)| == |h| && forall k :: 0 <= k < |h| ==> Swapped(h, i, j)[k] in h
    ensures i == j ==> Swapped(h, i, j) == h && Rearranged(h, h, j)
  {
  }

  lemma OrderedFirst(h: seq<QueueItem>, n: nat)
    requires n <= |h| && Ordered(h, |h|)
    ensures Ordered(h, n)
  {
  }

  lemma NoChange(h: seq<QueueItem>, n: nat)
    requires n <= |h|
    ensures Rearranged(h, h, n)
  {
  }

  lemma DownDone(h: seq<QueueItem>, i: nat, n: nat)
    requires n <= |h| && i <= n && Hole(h, i, n)
    requires NoSmallerChild(h, i, n)
    ensures OrderedUp(h, i, n) && (OrderedDown(h, i, n) ==> Ordered(h, n))
  {
    hide Less;
  }

  /** The children of `i` are at `2i + 1` and `2i + 2`; `j` is the smaller. */
  lemma SmallerChild(h: seq<QueueItem>, i: nat, j: nat, n: nat)
    requires n <= |h| && 2 * i + 1 < n
    requires j == if 2 * i + 2 < n && Less(h[2 * i + 2], h[2 * i + 1]) then 2 * i + 2 else 2 * i + 1
    ensures i < j < n && Parent(j) == i && forall k :: 0 < k < n && Parent(k) == i ==> Le(h[j], h[k])
  {
    forall k | 0 < k < n && Parent(k) == i ensures Le(h[j], h[k]) {
      assert k == 2 * i + 1 || k == 2 * i + 2;
    }
  }

  lemma Transitive(a: QueueItem, b: QueueItem, c: QueueItem)
    requires Le(a, b) && Le(b, c)
    ensures Le(a, c)
  {
  }

  lemma SwapMakesHole(h: seq<QueueItem>, i: nat)
    requires i < |h| - 1 && Ordered(h, |h|)
    ensures Hole(Swapped(h, i, |h| - 1), i, |h| - 1)
  {
    var h' := Swapped(h, i, |h| - 1);
    forall k | 0 < k < |h| - 1 && Parent(k) == i && 0 < i ensures Le(h'[Parent(i)], h'[k]) {
      assert Le(h[Parent(i)], h[i]) && Le(h[Parent(k)], h[k]);
    }
  }

  lemma SwapMakesRootHole(h: seq<QueueItem>)
    requires |h| > 0 && Ordered(h, |h|)
    ensures Hole(Swapped(h, 0, |h| - 1), 0, |h| - 1)
  {
  }

  lemma AppendMakesHole(h: seq<QueueItem>, item: QueueItem)
    requires Ordered(h, |h|)
    ensures OrderedUp(h + [item], |h|, |h| + 1)
  {
  }

  lemma RearrangedTwice(h: seq<QueueItem>, mid: seq<QueueItem>, was: seq<QueueItem>, n: nat)
    requires Rearranged(h, mid, n) && Rearranged(mid, was, n)
    ensures Rearranged(h, was, n)
  {
  }

  // ---------- The queue ----------

  ghost predicate Indexed(h: seq<QueueItem>)
    reads h
  {
    forall k :: 0 <= k < |h| ==> h[k].index == k
  }

  /** Insertion orders run from 1 to `counter`, and no two items share one. */
  ghost predicate Placed(items: set<QueueItem>, counter: nat) {
    && (forall x :: x in items ==> 1 <= x.place <= counter)
    && (forall x, y :: x in items && y in items && x.place == y.place ==> x == y)
  }

  function Members(h: seq<QueueItem>): set<QueueItem> {
    set x | x in h
  }

  function Values(items: set<QueueItem>): set<M.Item> {
    set x | x in items :: x.Value()
  }

  lemma RearrangedMembers(h: seq<QueueItem>, was: seq<QueueItem>, n: nat)
    requires Rearranged(h, was, n)
    ensures Members(h) == Members(was)
  {
    forall x ensures x in Members(h) <==> x in Members(was) {
      assert (x in multiset(h) <==> x in h) && (x in multiset(was) <==> x in was);
    }
  }

  /** The last item after a swap with the end stays last under any rearrangement of the rest. */
  lemma EndStays(h: seq<QueueItem>, was: seq<QueueItem>, i: nat)
    requires i < |was| && Rearranged(h, Swapped(was, i, |was| - 1), |was| - 1)
    ensures |h| == |was| && h[|h| - 1] == was[i] && multiset(h) == multiset(was)
  {
    var n := |was| - 1;
    var s := Swapped(was, i, n);
    assert h[n] == h[n..][0] == s[n..][0] == s[n];
    SwapKeepsItems(was, i, n);
  }

  lemma SameMembers(h: seq<QueueItem>, was: seq<QueueItem>)
    requires multiset(h) == multiset(was)
    ensures Members(h) == Members(was)
  {
    forall x ensures x in Members(h) <==> x in Members(was) {
      assert (x in h <==> x in multiset(h)) && (x in was <==> x in multiset(was));
    }
  }

  /** Items know their places, so each is there once. */
  lemma WithoutLast(h: seq<QueueItem>)
    requires |h| > 0 && Indexed(h)
    ensures Members(h[..|h| - 1]) == Members(h) - {h[|h| - 1]} && Indexed(h[..|h| - 1])
  {
    var n := |h| - 1;
    var front := h[..n];
    assert h == front + [h[n]];
    assert forall x :: x in front ==> x.index < n;
  }

  lemma FrontOrdered(h: seq<QueueItem>, n: nat)
    requires n <= |h| && Ordered(h, n)
    ensures Ordered(h[..n], n)
  {
    hide Le;
  }

  /** Swapping item `i` to the end, rearranging the rest and cutting the end off removes item `i`. */
  lemma CutOff(h: seq<QueueItem>, was: seq<QueueItem>, i: nat)
    requires i < |was| && Rearranged(h, Swapped(was, i, |was| - 1), |was| - 1) && Indexed(h)
    requires Ordered(h, |was| - 1)
    ensures |h| == |was| && h[|h| - 1] == was[i]
    ensures Members(h[..|h| - 1]) == Members(was) - {was[i]}
    ensures Indexed(h[..|h| - 1]) && Ordered(h[..|h| - 1], |h| - 1)
  {
    hide Rearranged, Swapped, Members, Indexed, Ordered;
    EndStays(h, was, i);
    SameMembers(h, was);
    WithoutLast(h);
    FrontOrdered(h, |h| - 1);
  }

  /** With distinct insertion orders, the queue has as many values as the slice has items. */
  lemma {:induction false} ValuesSize(h: seq<QueueItem>, counter: nat)
    requires Indexed(h) && Placed(Members(h), counter)
    ensures |Values(Members(h))| == |h|
  {
    if |h| > 0 {
      var n := |h| - 1;
      var rest := h[..n];
      assert h == rest + [h[n]];
      ValuesSize(rest, counter);
      assert Members(h) == Members(rest) + {h[n]};
      assert Values(Members(h)) == Values(Members(rest)) + {h[n].Value()};
      assert h[n].Value() !in Values(Members(rest)) by {
        forall x | x in Members(rest) ensures x.Value() != h[n].Value() {
          assert x.index < n;
          assert x in Members(h) && h[n] in Members(h);
        }
      }
    }
  }

  /** Where the eviction scan ends: at the first item, in slice order, of the largest Priority value. */
  ghost predicate FirstWorst(h: seq<QueueItem>, at: nat) {
    && at < |h|
    && (forall k :: 0 <= k < |h| ==> h[k].msg.priority <= h[at].msg.priority)
    && (forall k :: 0 <= k < at ==> h[k].msg.priority < h[at].msg.priority)
  }

  /** What a push gives up: nothing below capacity, and at capacity what the scan ends at. */
  ghost predicate GaveUp(h: seq<QueueItem>, evicted: set<M.Item>, cap: nat) {
    if |h| < cap then evicted == {} else exists at: nat :: FirstWorst(h, at) && evicted == {h[at].Value()}
  }

  lemma GivesUp(h: seq<QueueItem>, at: nat, cap: nat)
    requires FirstWorst(h, at) && cap <= |h|
    ensures GaveUp(h, {h[at].Value()}, cap)
  {
    hide FirstWorst;
  }

  lemma GivesNothingUp(h: seq<QueueItem>, cap: nat)
    requires |h| < cap
    ensures GaveUp(h, {}, cap)
  {
  }

  /** A new item of this value was sifted into the slice `was`. */
  ghost predicate LaidOut(h: seq<QueueItem>, was: seq<QueueItem>, value: M.Item) {
    exists x :: x in h && x.Value() == value && h == Pushed(was, x)
  }

  lemma LaysOut(h: seq<QueueItem>, was: seq<QueueItem>, x: QueueItem)
    requires h == Pushed(was, x) && x in Members(h)
    ensures LaidOut(h, was, x.Value())
  {
    hide Pushed;
  }

  /** The slice order is no order of age. Pushing an urgent item before or after two less urgent ones leaves
      the same three items in two layouts; one gives up the older of the two, the other the newer. */
  lemma LayoutDecides(urgent: QueueItem, older: QueueItem, newer: QueueItem)
    requires urgent.msg.priority < older.msg.priority == newer.msg.priority && older.place < newer.place
    ensures var h := Pushed(Pushed(Pushed([], urgent), older), newer);
            var h' := Pushed(Pushed(Pushed([], older), newer), urgent);
            && h == [urgent, older, newer] && h' == [urgent, newer, older]
            && Ordered(h, 3) && Ordered(h', 3) && Members(h) == Members(h')
            && FirstWorst(h, 1) && h[1] == older && FirstWorst(h', 1) && h'[1] == newer
  {
    assert Pushed([], urgent) == [urgent] && Pushed([], older) == [older];
    assert Pushed([urgent], older) == [urgent, older] && Pushed([older], newer) == [older, newer];
    assert Pushed([urgent, older], newer) == [urgent, older, newer];
    assert Pushed([older, newer], urgent) == Swapped([older, newer, urgent], 0, 2) == [urgent, newer, older];
  }

  /** The item the eviction scan ends with. */
  lemma ScanIsWorst(h: seq<QueueItem>, at: nat, x: QueueItem)
    requires Ordered(h, |h|) && FirstWorst(h, at) && x == h[at]
    ensures M.Worst(x.Value(), Values(Members(h)))
  {
    var items := Values(Members(h));
    assert x in Members(h) && h[0] in Members(h);
    assert x.Value() in items && h[0].Value() in items;
    forall y | y in items ensures y.msg.priority <= x.msg.priority {
    }
    if forall y :: y in items ==> y.msg.priority == x.msg.priority {
      assert h[0].Value().msg.priority == x.msg.priority;
      forall y | y in items ensures x.place <= y.place {
        var k :| 0 <= k < |h| && h[k].Value() == y;
        RootIsLeast(h, |h|, k);
      }
    }
  }

  lemma RootIsNext(h: seq<QueueItem>, counter: nat)
    requires |h| > 0 && Ordered(h, |h|) && Placed(Members(h), counter)
    ensures M.Least(h[0].Value(), Values(Members(h)))
  {
    var items := Values(Members(h));
    assert h[0] in Members(h);
    forall y | y in items && y != h[0].Value() ensures M.Before(h[0].Value(), y) {
      var k :| 0 <= k < |h| && h[k].Value() == y;
      RootIsLeast(h, |h|, k);
      assert h[k] in Members(h);
    }
  }

  lemma ValuesWithout(items: set<QueueItem>, x: QueueItem, counter: nat)
    requires Placed(items, counter) && x in items
    ensures Values(items - {x}) == Values(items) - {x.Value()} && Placed(items - {x}, counter)
  {
    assert Values(items) == Values(items - {x}) + {x.Value()};
  }

  lemma ValuesWith(items: set<QueueItem>, x: QueueItem, counter: nat)
    requires Placed(items, counter) && x.place == counter + 1
    ensures Values(items + {x}) == Values(items) + {x.Value()} && Placed(items + {x}, counter + 1)
  {
  }

  lemma IndexOf(h: seq<QueueItem>, x: QueueItem)
    requires x in h && Indexed(h)
    ensures x.index < |h| && h[x.index] == x && x in Members(h)
  {
  }

  lemma MembersKept(h: seq<QueueItem>, was: seq<QueueItem>)
    requires Members(h) <= Members(was)
    ensures forall k :: 0 <= k < |h| ==> h[k] in was
  {
    assert forall k :: 0 <= k < |h| ==> h[k] in Members(h);
  }

  lemma RootMember(h: seq<QueueItem>)
    requires |h| > 0
    ensures h[0] in Members(h)
  {
  }

  lemma NoValues(h: seq<QueueItem>)
    requires h == []
    ensures Values(Members(h)) == {}
  {
  }

  class SendQueue {
    var h: seq<QueueItem>
    var counter: nat
    const cap: nat

    ghost predicate Valid()
      reads this, h
    {
      |h| <= cap && Indexed(h) && Ordered(h, |h|) && Placed(Members(h), counter)
    }

    ghost function Model(): M.Queue
      reads this
    {
      M.Queue(Values(Members(h)), counter)
    }

    constructor (capacity: nat)
      ensures Valid() && cap == capacity && Model() == M.Queue({}, 0)
    {
      h, counter, cap := [], 0, capacity;
    }

    method Swap(i: nat, j: nat)
      requires i < |h| && j < |h| && Indexed(h)
      modifies this`h, h
      ensures h == Swapped(old(h), i, j) && Indexed(h)
    {
      h := h[i := h[j]][j := h[i]];
      h[i].index := i;
      h[j].index := j;
    }

    /** container/heap's up, on the first `n`. */
    method Up(start: nat, n: nat)
      requires start < n <= |h| && Indexed(h) && OrderedUp(h, start, n)
      modifies this`h, h
      ensures Rearranged(h, old(h), n) && Indexed(h) && Ordered(h, n) && h == SiftedUp(old(h), start)
    {
      hide Less, Le, Hole, OrderedUp, Ordered, Indexed, Rearranged, Swapped, SiftedUp;
      var j := start;
      assert Rearranged(h, h, n) by { NoChange(h, n); }
      while true
        invariant 0 <= j < n <= |h| && Indexed(h) && OrderedUp(h, j, n)
        invariant Rearranged(h, old(h), n) && SiftedUp(h, j) == SiftedUp(old(h), start)
        decreases j
      {
        var i := if j == 0 then 0 else (j - 1) / 2;
        SiftOnce(h, j);
        if i == j || !Less(h[j], h[i]) {
          break;
        }
        UpStep(h, j, n);
        RearrangedFacts(h, old(h), n);
        SwapRearranges(h, old(h), n, i, j);
        Swap(i, j);
        RearrangedFacts(h, old(h), n);
        j := i;
      }
      UpDone(h, j, n);
    }

    /** container/heap's down, on the first `n`: reports whether the item moved. */
    method Down(start: nat, n: nat) returns (moved: bool)
      requires start <= n <= |h| && Indexed(h) && Hole(h, start, n)
      modifies this`h, h
      ensures Rearranged(h, old(h), n) && Indexed(h)
      ensures if moved then Ordered(h, n) else OrderedUp(h, start, n)
    {
      hide Less, Le, Hole, OrderedUp, OrderedDown, Ordered, Indexed, Rearranged, Swapped;
      var i := start;
      assert Rearranged(h, h, n) by { NoChange(h, n); }
      while true
        invariant start <= i <= n <= |h| && Indexed(h) && Hole(h, i, n)
        invariant i > start ==> OrderedDown(h, i, n)
        invariant Rearranged(h, old(h), n)
        decreases n - i
      {
        var j1 := 2 * i + 1;
        if j1 >= n {
          break;
        }
        var j := j1;
        var j2 := j1 + 1;
        if j2 < n && Less(h[j2], h[j1]) {
          j := j2;
        }
        SmallerChild(h, i, j, n);
        if !Less(h[j], h[i]) {
          assert NoSmallerChild(h, i, n) by { NotBelowSmallest(h, i, j, n); }
          break;
        }
        DownStep(h, i, j, n);
        RearrangedFacts(h, old(h), n);
        SwapRearranges(h, old(h), n, i, j);
        Swap(i, j);
        RearrangedFacts(h, old(h), n);
        HoleOf(h, j, n);
        i := j;
      }
      DownDone(h, i, n);
      moved := i > start;
    }

    /** Takes the last item off the slice. */
    method TakeLast() returns (item: QueueItem)
      requires |h| > 0
      modifies this`h
      ensures item == old(h[|h| - 1]) && h == old(h[..|h| - 1])
    {
      item := h[|h| - 1];
      h := h[..|h| - 1];
    }

    /** container/heap's Push, after the file's own Push. */
    method HeapPush(item: QueueItem)
      requires Indexed(h) && Ordered(h, |h|) && item !in h
      modifies this`h, h, item
      ensures |h| == |old(h)| + 1 && Members(h) == Members(old(h)) + {item} && h == Pushed(old(h), item)
      ensures Indexed(h) && Ordered(h, |h|)
    {
      hide Less, Le, Hole, OrderedUp, Ordered, Rearranged, SiftedUp;
      item.index := |h|;
      AppendMakesHole(h, item);
      h := h + [item];
      ghost var was := h;
      Up(|h| - 1, |h|);
      RearrangedMembers(h, was, |was|);
      RearrangedFacts(h, was, |was|);
    }

    /** container/heap's Pop. */
    method HeapPop() returns (item: QueueItem)
      requires |h| > 0 && Indexed(h) && Ordered(h, |h|)
      modifies this`h, h
      ensures item == old(h[0]) && |h| == |old(h)| - 1 && Members(h) == Members(old(h)) - {item}
      ensures Indexed(h) && Ordered(h, |h|)
    {
      hide Less, Le, Hole, OrderedUp, OrderedDown, Ordered, Indexed, Rearranged, Swapped, Members;
      var n := |h| - 1;
      SwapMakesRootHole(h);
      Swapping(h, 0, n);
      Swap(0, n);
      label swapped:
      var moved := Down(0, n);
      RearrangedFacts(h, old@swapped(h), n);
      if !moved {
        UpDone(h, 0, n);
      }
      CutOff(h, old(h), 0);
      item := TakeLast();
    }

    /** container/heap's Remove. */
    method Remove(i: nat) returns (item: QueueItem)
      requires i < |h| && Indexed(h) && Ordered(h, |h|)
      modifies this`h, h
      ensures item == old(h[i]) && |h| == |old(h)| - 1 && Members(h) == Members(old(h)) - {item}
      ensures Indexed(h) && Ordered(h, |h|)
    {
      hide Less, Le, Hole, OrderedUp, OrderedDown, Ordered, Indexed, Rearranged, Swapped, Members;
      var n := |h| - 1;
      Swapping(h, i, n);
      if n != i {
        SwapMakesHole(h, i);
        Swap(i, n);
        label swapped:
        var moved := Down(i, n);
        RearrangedFacts(h, old@swapped(h), n);
        if !moved {
          label settled:
          Up(i, n);
          RearrangedTwice(h, old@settled(h), old@swapped(h), n);
          RearrangedFacts(h, old@swapped(h), n);
        }
      } else {
        OrderedFirst(h, n);
      }
      CutOff(h, old(h), i);
      item := TakeLast();
    }

    /** The eviction of Push: scans for the item to give up, and removes it. */
    method Evict() returns (ghost evicted: M.Item, ghost at: nat)
      requires Valid() && |h| > 0
      modifies this`h, h
      ensures Valid() && |h| == |old(h)| - 1 && Members(h) <= Members(old(h))
      ensures FirstWorst(old(h), at) && evicted == old(h)[at].Value()
      ensures M.Worst(evicted, old(Values(Members(h)))) && Values(Members(h)) == old(Values(Members(h))) - {evicted}
    {
      hide Less, Le, Ordered, Indexed, Members, Values, Placed, M.Worst;
      var worst := h[0];
      at := 0;
      var k := 0;
      while k < |h|
        invariant 0 <= k <= |h| && at < |h| && worst == h[at] && (at < k || k == 0 == at)
        invariant forall i :: 0 <= i < k ==> h[i].msg.priority <= worst.msg.priority
        invariant forall i :: 0 <= i < at ==> h[i].msg.priority < worst.msg.priority
      {
        if h[k].msg.priority > worst.msg.priority {
          worst, at := h[k], k;
        }
        k := k + 1;
      }
      ScanIsWorst(h, at, worst);
      IndexOf(h, worst);
      ValuesWithout(Members(h), worst, counter);
      var _ := Remove(worst.index);
      evicted := worst.Value();
    }

    /** Adds `msg`; at capacity, evicts an item first. With no capacity there is none to evict, and the
        source's scan fails on the empty slice. */
    method Push(msg: Message) returns (ghost evicted: set<M.Item>)
      requires Valid() && 1 <= cap
      modifies this, h
      ensures Valid() && M.Step(old(Model()), M.Push(msg, evicted), Model(), cap)
      ensures GaveUp(old(h), evicted, cap) && fresh(Members(h) - old(Members(h)))
      ensures |old(h)| < cap ==> LaidOut(h, old(h), M.Item(msg, counter))
    {
      hide Less, Le, Ordered, Indexed, Members, Values, Placed, M.Worst, FirstWorst, GaveUp, LaidOut, Pushed;
      ValuesSize(h, counter);
      ghost var was := h;
      evicted := {};
      if |h| >= cap {
        ghost var x, at := Evict();
        evicted := {x};
        GivesUp(was, at, cap);
        MembersKept(h, was);
      } else {
        GivesNothingUp(h, cap);
      }
      counter := counter + 1;
      var item := new QueueItem(msg, counter);
      ValuesWith(Members(h), item, counter - 1);
      label placed:
      HeapPush(item);
      LaysOut(h, old@placed(h), item);
    }

    /** Removes and returns the most urgent message, the oldest of those; not ok if there is none. */
    method Pop() returns (msg: Message, ok: bool, ghost op: M.Op)
      requires Valid()
      modifies this, h
      ensures Valid() && M.Step(old(Model()), op, Model(), cap)
      ensures Members(h) <= old(Members(h)) && |h| == old(|h|) - (if ok then 1 else 0)
      ensures ok <==> op.Pop?
      ensures !ok <==> op.PopNothing?
      ensures msg == if ok then op.item.msg else ZERO
    {
      hide Less, Le, Ordered, Indexed, Members, Placed, M.Least;
      if |h| == 0 {
        NoValues(h);
        return ZERO, false, M.PopNothing;
      }
      RootIsNext(h, counter);
      RootMember(h);
      ValuesWithout(Members(h), h[0], counter);
      var item := HeapPop();
      op := M.Pop(item.Value());
      return item.msg, true, op;
    }
  }
}
