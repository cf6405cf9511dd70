/**
 The per-peer deduplication window of node/runtime/router.go, in exact uint32 arithmetic, and the
 proof that its bounded memory answers as an unbounded one would.
 */
module Dedup {
  import opened Messages

  const WINDOW := 256

  // uint32 addition and subtraction wrap around.
  function Add32(a: u32, b: u32): u32 {
    (a + b) % U32_LIMIT
  }

  function Sub32(a: u32, b: u32): u32 {
    (a - b) % U32_LIMIT
  }

  /** One stream of one peer: the highest number seen, and the numbers remembered below it. */
  datatype Stream = Stream(inited: bool, highest: u32, window: set<u32>)

  const NEW_STREAM := Stream(false, 0, {})

  datatype Answer = Answer(stream: Stream, duplicate: bool)

  function Cutoff(num: u32): u32 {
    Add32(Sub32(num, WINDOW), 1)
  }

  function Evict(window: set<u32>, num: u32): set<u32> {
    if num >= WINDOW then set k | k in window && k >= Cutoff(num) else window
  }

  function Check(st: Stream, num: u32): Answer {
    if !st.inited then Answer(Stream(true, num, st.window + {num}), false)
    else if num <= st.highest && Sub32(st.highest, num) >= WINDOW then Answer(st, true)
    else
      var window := if num > st.highest then Evict(st.window, num) else st.window;
      var highest := if num > st.highest then num else st.highest;
      if num in window then Answer(Stream(true, highest, window), true)
      else Answer(Stream(true, highest, window + {num}), false)
  }

  // ---------- Against the full history ----------

  /** The stream after a series of presented numbers. */
  function After(history: seq<u32>): Stream {
    if history == [] then NEW_STREAM
    else Check(After(history[..|history| - 1]), history[|history| - 1]).stream
  }

  function Highest(history: seq<u32>): (h: u32)
    requires history != []
    ensures h in history && forall s :: s in history ==> s <= h
  {
    var last := history[|history| - 1];
    if |history| == 1 then last
    else
      var rest := history[..|history| - 1];
      assert forall s :: s in history <==> s in rest || s == last;
      if Highest(rest) > last then Highest(rest) else last
  }

  /** What unbounded memory would accept: a number never presented before that is the first, above all
      others, or less than 256 below the highest. */
  ghost predicate Fresh(history: seq<u32>, num: u32) {
    num !in history && (history == [] || num > Highest(history) || Highest(history) - num < 256)
  }

  /** The window is exactly the part of the history within reach of the highest number. */
  ghost predicate Remembers(history: seq<u32>, st: Stream) {
    && (st.inited <==> history != [])
    && (history == [] ==> st.window == {})
    && (history != [] ==>
          && st.highest == Highest(history)
          && forall s :: s in st.window <==> s in history && st.highest - s < WINDOW)
  }

  lemma SubExact(a: u32, b: u32)
    requires b <= a
    ensures Sub32(a, b) == a - b
  {
  }

  /** The cutoff wraps around exactly for numbers below 255, and the guard never lets those through. */
  lemma CutoffExact(num: u32)
    ensures num >= WINDOW ==> Cutoff(num) == num - WINDOW + 1
    ensures num < WINDOW - 1 <==> Cutoff(num) > num
  {
  }

  lemma CheckRemembers(history: seq<u32>, st: Stream, num: u32)
    requires Remembers(history, st)
    ensures Remembers(history + [num], Check(st, num).stream)
    ensures Check(st, num).duplicate <==> !Fresh(history, num)
  {
    var history' := history + [num];
    assert forall s :: s in history' <==> s in history || s == num;
    CutoffExact(num);
    if history != [] && num <= st.highest {
      SubExact(st.highest, num);
    }
    assert history'[..|history'| - 1] == history;
  }

  lemma {:induction false} AfterRemembers(history: seq<u32>)
    ensures Remembers(history, After(history))
  {
    if history != [] {
      var rest := history[..|history| - 1];
      AfterRemembers(rest);
      CheckRemembers(rest, After(rest), history[|history| - 1]);
      assert rest + [history[|history| - 1]] == history;
    }
  }

  /** The bounded window refines full history: after any numbers, the next is called a duplicate
      exactly when full history would not call it fresh. */
  lemma {:induction false} WindowRefinesHistory(history: seq<u32>, num: u32)
    ensures Check(After(history), num).duplicate <==> !Fresh(history, num)
  {
    AfterRemembers(history);
    CheckRemembers(history, After(history), num);
  }

  /** Memory stays bounded: at most 256 numbers, none more than 255 below the highest. */
  lemma WindowBounded(history: seq<u32>)
    ensures |After(history).window| <= 256
    ensures forall s :: s in After(history).window ==> s <= After(history).highest < s + 256
  {
    AfterRemembers(history);
    var st := After(history);
    if history == [] {
      assert st.window == {};
    } else {
      var low := if st.highest < WINDOW then 0 else st.highest - WINDOW + 1;
      forall s | s in st.window ensures low <= s <= st.highest {
        assert s in history;
      }
      RangeSize(st.window, low, st.highest + 1);
    }
  }

  lemma {:induction false} RangeSize(s: set<u32>, low: nat, high: nat)
    requires low <= high && forall k :: k in s ==> low <= k < high
    ensures |s| <= high - low
    decreases high - low
  {
    if low < high {
      var rest := set k | k in s && k != high - 1;
      RangeSize(rest, low, high - 1);
      if high - 1 < U32_LIMIT && high - 1 in s {
        assert s == rest + {high - 1};
      } else {
        assert s == rest;
      }
    } else {
      assert s == {};
    }
  }

  /** A number once presented is never accepted again, however the counter wraps in between. */
  lemma NeverTwice(history: seq<u32>, more: seq<u32>, num: u32)
    requires num in history
    ensures Check(After(history + more), num).duplicate
  {
    WindowRefinesHistory(history + more, num);
  }

  /** Once the last number before the wrap has been seen, exactly the numbers within a window of it that
      are still unseen can be accepted: the wrapped ones that follow it are not. */
  lemma {:induction false} WrapSilences(history: seq<u32>, num: u32)
    requires U32_LIMIT - 1 in history
    ensures Check(After(history), num).duplicate <==> num in history || num <= U32_LIMIT - 1 - 256
  {
    WindowRefinesHistory(history, num);
    assert Highest(history) == U32_LIMIT - 1;
  }

  // ---------- The object ----------

  class PeerDedup {
    const highest: array<u32>
    const windows: array<set<u32>>
    const inited: array<bool>

    ghost predicate Valid() {
      highest.Length == 256 && windows.Length == 256 && inited.Length == 256
    }

    ghost function Footprint(): set<object> {
      {highest as object, windows as object, inited as object}
    }

    ghost function StreamAt(i: nat): Stream
      requires Valid() && i < 256
      reads highest, windows, inited
    {
      Stream(inited[i], highest[i], windows[i])
    }

    constructor ()
      ensures Valid() && fresh(Footprint())
      ensures forall i :: 0 <= i < 256 ==> StreamAt(i) == NEW_STREAM
    {
      highest := new u32[256](_ => 0);
      windows := new set<u32>[256](_ => {});
      inited := new bool[256](_ => false);
    }

    /** The sweep that drops what fell out of range, key by key in any order. */
    method Sweep(streamId: nat, cutoff: u32)
      requires Valid() && streamId < 256
      modifies windows
      ensures windows[streamId] == set k | k in old(windows[streamId]) && k >= cutoff
      ensures forall i :: 0 <= i < 256 && i != streamId ==> windows[i] == old(windows[i])
    {
      var rest := windows[streamId];
      while rest != {}
        invariant rest <= windows[streamId]
        invariant windows[streamId] == set k | k in old(windows[streamId]) && (k >= cutoff || k in rest)
        invariant forall i :: 0 <= i < 256 && i != streamId ==> windows[i] == old(windows[i])
        decreases |rest|
      {
        var k :| k in rest;
        rest := rest - {k};
        if k < cutoff {
          windows[streamId] := windows[streamId] - {k};
        }
      }
    }

    method IsDuplicate(streamId: nat, num: u32) returns (duplicate: bool)
      requires Valid() && streamId < 256
      modifies Footprint()
      ensures Answer(StreamAt(streamId), duplicate) == Check(old(StreamAt(streamId)), num)
      ensures forall i :: 0 <= i < 256 && i != streamId ==> StreamAt(i) == old(StreamAt(i))
    {
      if !inited[streamId] {
        highest[streamId] := num;
        inited[streamId] := true;
        windows[streamId] := windows[streamId] + {num};
        return false;
      }
      if num > highest[streamId] {
        var cutoff := Add32(Sub32(num, WINDOW), 1);
        if num >= WINDOW {
          Sweep(streamId, cutoff);
        }
        highest[streamId] := num;
      } else if Sub32(highest[streamId], num) >= WINDOW {
        return true;
      }
      if num in windows[streamId] {
        return true;
      }
      windows[streamId] := windows[streamId] + {num};
      return false;
    }
  }
}
