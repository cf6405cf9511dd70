/**
 The send queue as a set of stamped messages: what one Push and one Pop may do, and what that means
 for whole runs. The heap of module SendQueue is proved to take only these steps.
 */
module QueueModel {
  import opened Messages

  /** A queued message and its place in the order of pushes. */
  datatype Item = Item(msg: Message, place: nat)

  datatype Queue = Queue(items: set<Item>, counter: nat)

  datatype Op = Push(msg: Message, evicted: set<Item>) | Pop(item: Item) | PopNothing

  predicate Before(a: Item, b: Item) {
    a.msg.priority < b.msg.priority || (a.msg.priority == b.msg.priority && a.place < b.place)
  }

  /** `x` may be evicted from `items`: none has a larger Priority value, and if all have the same, it is the oldest. */
  ghost predicate Worst(x: Item, items: set<Item>) {
    && x in items
    && (forall y :: y in items ==> y.msg.priority <= x.msg.priority)
    && ((forall y :: y in items ==> y.msg.priority == x.msg.priority) ==> forall y :: y in items ==> x.place <= y.place)
  }

  ghost predicate Least(x: Item, items: set<Item>) {
    x in items && forall y :: y in items && y != x ==> Before(x, y)
  }

  ghost predicate Step(q: Queue, op: Op, q': Queue, cap: nat) {
    match op
    case Push(msg, evicted) =>
      && (if |q.items| < cap then evicted == {} else exists x :: evicted == {x} && Worst(x, q.items))
      && q' == Queue(q.items - evicted + {Item(msg, q.counter + 1)}, q.counter + 1)
    case Pop(item) => Least(item, q.items) && q' == q.(items := q.items - {item})
    case PopNothing => q.items == {} && q' == q
  }

  ghost predicate Run(states: seq<Queue>, ops: seq<Op>, cap: nat) {
    && |states| == |ops| + 1 && states[0] == Queue({}, 0)
    && forall k :: 0 <= k < |ops| ==> Step(states[k], ops[k], states[k + 1], cap)
  }

  /** The operations lead from `q` to `q'`. */
  ghost predicate Path(q: Queue, ops: seq<Op>, q': Queue, cap: nat) {
    if ops == [] then q' == q
    else
      var before, last := ops[..|ops| - 1], ops[|ops| - 1];
      exists mid :: Path(q, before, mid, cap) && Step(mid, last, q', cap)
  }

  lemma PathSnoc(q: Queue, ops: seq<Op>, mid: Queue, op: Op, q': Queue, cap: nat)
    requires Path(q, ops, mid, cap) && Step(mid, op, q', cap)
    ensures Path(q, ops + [op], q', cap)
  {
    assert (ops + [op])[..|ops|] == ops;
  }

  /** Draining the queue serves it in stable priority order. */
  lemma {:induction false} PopsInOrder(q: Queue, ops: seq<Op>, q': Queue, cap: nat, j: nat, k: nat)
    requires Path(q, ops, q', cap) && j < k < |ops| && forall i :: 0 <= i < |ops| ==> ops[i].Pop?
    ensures var a, b := ops[j].item, ops[k].item;
            a.msg.priority < b.msg.priority || (a.msg.priority == b.msg.priority && a.place < b.place)
    decreases |ops|
  {
    var rest := ops[..|ops| - 1];
    var mid :| Path(q, rest, mid, cap) && Step(mid, ops[|ops| - 1], q', cap);
    if k < |rest| {
      PopsInOrder(q, rest, mid, cap, j, k);
    } else {
      LeftBehind(q, rest, mid, cap, j, ops[k].item);
    }
  }

  /** What is still queued after a series of pops comes after everything popped. */
  lemma {:induction false} LeftBehind(q: Queue, ops: seq<Op>, q': Queue, cap: nat, j: nat, y: Item)
    requires Path(q, ops, q', cap) && j < |ops| && forall i :: 0 <= i < |ops| ==> ops[i].Pop?
    requires y in q'.items
    ensures Before(ops[j].item, y)
    decreases |ops|
  {
    var rest := ops[..|ops| - 1];
    var mid :| Path(q, rest, mid, cap) && Step(mid, ops[|ops| - 1], q', cap);
    if j < |rest| {
      LeftBehind(q, rest, mid, cap, j, y);
    }
  }

  // ---------- Where every message is ----------

  /** The messages pushed, popped and evicted by the first `k` operations. */
  function Pushed(ops: seq<Op>): set<Item> {
    set k | 0 <= k < |ops| && ops[k].Push? :: Item(ops[k].msg, PushesIn(ops[..k]) + 1)
  }

  function Popped(ops: seq<Op>): set<Item> {
    set k | 0 <= k < |ops| && ops[k].Pop? :: ops[k].item
  }

  function Evicted(ops: seq<Op>): set<Item> {
    set k, x | 0 <= k < |ops| && ops[k].Push? && x in ops[k].evicted :: x
  }

  function PushesIn(ops: seq<Op>): nat {
    if ops == [] then 0 else PushesIn(ops[..|ops| - 1]) + if ops[|ops| - 1].Push? then 1 else 0
  }

  /** Every message pushed so far has been popped, evicted, or is still queued, and only one of these. */
  ghost predicate Accounted(q: Queue, ops: seq<Op>) {
    && q.counter == PushesIn(ops)
    && Split(Pushed(ops), Popped(ops), Evicted(ops), q.items)
    && Placed(Pushed(ops), q.counter)
  }

  /** `all` is the disjoint union of the three others. */
  ghost predicate Split<T(!new)>(all: set<T>, a: set<T>, b: set<T>, c: set<T>) {
    && (forall x :: x in all <==> x in a || x in b || x in c)
    && (forall x :: !(x in a && x in b) && !(x in a && x in c) && !(x in b && x in c))
  }

  /** Places run from 1 to `counter`, and no two items share one. */
  ghost predicate Placed(items: set<Item>, counter: nat) {
    && (forall x :: x in items ==> 1 <= x.place <= counter)
    && (forall x, y :: x in items && y in items && x.place == y.place ==> x == y)
  }

  lemma PushedSnoc(ops: seq<Op>, op: Op)
    ensures Pushed(ops + [op]) == Pushed(ops) + if op.Push? then {Item(op.msg, PushesIn(ops) + 1)} else {}
    ensures Popped(ops + [op]) == Popped(ops) + if op.Pop? then {op.item} else {}
    ensures Evicted(ops + [op]) == Evicted(ops) + if op.Push? then op.evicted else {}
    ensures PushesIn(ops + [op]) == PushesIn(ops) + if op.Push? then 1 else 0
  {
    var more := ops + [op];
    assert more[..|ops|] == ops;
    forall k | 0 <= k < |ops| ensures more[..k] == ops[..k] && more[k] == ops[k] {
    }
    assert more[|ops|] == op;
  }

  lemma AccountedPush(q: Queue, ops: seq<Op>, op: Op, q': Queue)
    requires Accounted(q, ops) && op.Push? && op.evicted <= q.items
    requires q' == Queue(q.items - op.evicted + {Item(op.msg, q.counter + 1)}, q.counter + 1)
    ensures Accounted(q', ops + [op])
  {
    hide PushesIn, Pushed, Popped, Evicted;
    PushedSnoc(ops, op);
  }

  lemma AccountedPop(q: Queue, ops: seq<Op>, op: Op, q': Queue)
    requires Accounted(q, ops) && op.Pop? && op.item in q.items && q' == q.(items := q.items - {op.item})
    ensures Accounted(q', ops + [op])
  {
    hide PushesIn, Pushed, Popped, Evicted;
    PushedSnoc(ops, op);
  }

  lemma AccountedStep(q: Queue, ops: seq<Op>, op: Op, q': Queue, cap: nat)
    requires Accounted(q, ops) && Step(q, op, q', cap)
    ensures Accounted(q', ops + [op])
  {
    hide Accounted;
    match op
    case Push(_, _) =>
      EvictedQueued(q, op, q', cap);
      AccountedPush(q, ops, op, q');
    case Pop(_) => AccountedPop(q, ops, op, q');
    case PopNothing => AccountedNothing(q, ops, op);
  }

  lemma AccountedNothing(q: Queue, ops: seq<Op>, op: Op)
    requires Accounted(q, ops) && op.PopNothing?
    ensures Accounted(q, ops + [op])
  {
    hide PushesIn, Pushed, Popped, Evicted;
    PushedSnoc(ops, op);
  }

  lemma EvictedQueued(q: Queue, op: Op, q': Queue, cap: nat)
    requires Step(q, op, q', cap) && op.Push?
    ensures op.evicted <= q.items
  {
  }

  /** Conservation: after any run, pushed messages are exactly the popped, the evicted and the queued. */
  lemma {:induction false} Conserved(states: seq<Queue>, ops: seq<Op>, cap: nat, k: nat)
    requires Run(states, ops, cap) && k < |states|
    ensures Accounted(states[k], ops[..k])
  {
    if k == 0 {
      assert ops[..0] == [];
    } else {
      hide Accounted, Step;
      Conserved(states, ops, cap, k - 1);
      assert Step(states[k - 1], ops[k - 1], states[k], cap);
      AccountedStep(states[k - 1], ops[..k - 1], ops[k - 1], states[k], cap);
      assert ops[..k - 1] + [ops[k - 1]] == ops[..k];
    }
  }

  /** Over any run the queue never holds more than its capacity. */
  lemma {:induction false} Bounded(states: seq<Queue>, ops: seq<Op>, cap: nat, k: nat)
    requires Run(states, ops, cap) && k < |states| && 1 <= cap
    ensures |states[k].items| <= cap
  {
    if k > 0 {
      Bounded(states, ops, cap, k - 1);
      assert Step(states[k - 1], ops[k - 1], states[k], cap);
    }
  }

  /** Two messages of equal priority that are both popped come out in push order. */
  lemma FifoWithinPriority(states: seq<Queue>, ops: seq<Op>, cap: nat, j: nat, k: nat)
    requires Run(states, ops, cap) && j < k < |ops| && ops[j].Pop? && ops[k].Pop?
    requires ops[j].item.msg.priority == ops[k].item.msg.priority
    ensures ops[j].item.place < ops[k].item.place
  {
    var x, y := ops[j].item, ops[k].item;
    assert Step(states[j], ops[j], states[j + 1], cap) && Step(states[k], ops[k], states[k + 1], cap);
    Conserved(states, ops, cap, j);
    Conserved(states, ops, cap, j + 1);
    hide Run, Accounted, Pushed, Popped, Evicted, PushesIn, Step;
    PlaceInRange(states[j], ops[..j], x);
    OldOrNew(states, ops, cap, j + 1, k, y);
    CounterKept(states, ops, cap, j);
  }

  lemma PlaceInRange(q: Queue, ops: seq<Op>, x: Item)
    requires Accounted(q, ops) && x in q.items
    ensures x.place <= q.counter
  {
    hide Pushed, Popped, Evicted, PushesIn;
  }

  lemma CounterKept(states: seq<Queue>, ops: seq<Op>, cap: nat, j: nat)
    requires Run(states, ops, cap) && j < |ops| && ops[j].Pop?
    ensures states[j + 1].counter == states[j].counter && states[j + 1].items == states[j].items - {ops[j].item}
    ensures forall y :: y in states[j + 1].items ==> Before(ops[j].item, y)
  {
    assert Step(states[j], ops[j], states[j + 1], cap);
  }

  /** What is queued later was queued now, or is pushed in between and so carries a later place. */
  lemma {:induction false} OldOrNew(states: seq<Queue>, ops: seq<Op>, cap: nat, j: nat, k: nat, y: Item)
    requires Run(states, ops, cap) && j <= k < |states| && y in states[k].items
    ensures y in states[j].items || y.place > states[j].counter
    ensures states[j].counter <= states[k].counter
    decreases k
  {
    if j < k {
      assert Step(states[k - 1], ops[k - 1], states[k], cap);
      hide Worst, Least;
      if y in states[k - 1].items {
        OldOrNew(states, ops, cap, j, k - 1, y);
      } else {
        CounterGrows(states, ops, cap, j, k - 1);
      }
      CounterGrows(states, ops, cap, j, k);
    }
  }

  lemma {:induction false} CounterGrows(states: seq<Queue>, ops: seq<Op>, cap: nat, j: nat, k: nat)
    requires Run(states, ops, cap) && j <= k < |states|
    ensures states[j].counter <= states[k].counter
    decreases k
  {
    if j < k {
      CounterGrows(states, ops, cap, j, k - 1);
      assert Step(states[k - 1], ops[k - 1], states[k], cap);
    }
  }

  /** How urgent an evicted message is, is how urgent the least urgent queued one was: a priority-0 message
      is evicted exactly when only priority-0 messages are queued. */
  lemma UrgentEvictedLast(q: Queue, op: Op, q': Queue, cap: nat, x: Item, p: nat)
    requires Step(q, op, q', cap) && op.Push? && x in op.evicted
    ensures x.msg.priority <= p <==> forall y :: y in q.items ==> y.msg.priority <= p
  {
  }

  /** The doc comment calls eviction drop-tail. It is the opposite, dropping what would be served next,
      exactly when all queued messages have one priority. */
  lemma EvictsHeadAmongEquals(q: Queue, op: Op, q': Queue, cap: nat, x: Item)
    requires Step(q, op, q', cap) && op.Push? && x in op.evicted
    requires forall y, z :: y in q.items && z in q.items && y.place == z.place ==> y == z
    ensures Least(x, q.items) <==> forall y, z :: y in q.items && z in q.items ==> y.msg.priority == z.msg.priority
  {
    if Least(x, q.items) {
      forall y | y in q.items ensures y.msg.priority == x.msg.priority {
        assert y != x ==> Before(x, y);
      }
    }
  }

  lemma PushFits(q: Queue, msg: Message, cap: nat)
    requires |q.items| < cap
    ensures Step(q, Push(msg, {}), Queue(q.items + {Item(msg, q.counter + 1)}, q.counter + 1), cap)
  {
    assert q.items - {} == q.items;
  }

  lemma PushEvicts(q: Queue, msg: Message, x: Item, cap: nat)
    requires |q.items| >= cap && Worst(x, q.items)
    ensures Step(q, Push(msg, {x}), Queue(q.items - {x} + {Item(msg, q.counter + 1)}, q.counter + 1), cap)
  {
  }

  /** A queue of capacity two that is pushed the same message three times drops the first. */
  lemma DropsHead(msg: Message) returns (states: seq<Queue>, ops: seq<Op>)
    ensures Run(states, ops, 2) && |ops| == 3 && ops[2] == Push(msg, {Item(msg, 1)})
    ensures Least(Item(msg, 1), states[2].items) && states[3].items == {Item(msg, 2), Item(msg, 3)}
  {
    var a, b, c := Item(msg, 1), Item(msg, 2), Item(msg, 3);
    var q0, q1, q2, q3 := Queue({}, 0), Queue({a}, 1), Queue({a, b}, 2), Queue({b, c}, 3);
    assert Worst(a, {a, b}) && Least(a, {a, b});
    hide Step, Worst, Least;
    PushFits(q0, msg, 2);
    assert {} + {a} == {a} && |{a}| == 1;
    PushFits(q1, msg, 2);
    assert {a} + {b} == {a, b} && |{a, b}| == 2;
    PushEvicts(q2, msg, a, 2);
    assert {a, b} - {a} + {c} == {b, c};
    ops := [Push(msg, {}), Push(msg, {}), Push(msg, {a})];
    states := [q0, q1, q2, q3];
  }
}
