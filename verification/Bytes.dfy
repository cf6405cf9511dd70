/** Little-endian numbers and records of fixed-width fields, as printed and as read back. */
module Bytes {
  import opened Messages

  type Bytes = seq<u8>

  function Pow256(n: nat): (p: nat)
    ensures p > 0
  {
    if n == 0 then 1 else 256 * Pow256(n - 1)
  }

  /** `v` in `n` bytes, least significant first; what does not fit is lost. */
  function Le(v: nat, n: nat): (b: Bytes)
    ensures |b| == n
  {
    if n == 0 then [] else [v % 256] + Le(v / 256, n - 1)
  }

  function Num(b: Bytes): nat {
    if b == [] then 0 else b[0] + 256 * Num(b[1..])
  }

  lemma {:induction false} NumOfLe(v: nat, n: nat)
    requires v < Pow256(n)
    ensures Num(Le(v, n)) == v
  {
    if n > 0 {
      NumOfLe(v / 256, n - 1);
      assert Le(v, n)[1..] == Le(v / 256, n - 1);
    }
  }

  lemma {:induction false} LeOfNum(b: Bytes)
    ensures Le(Num(b), |b|) == b && Num(b) < Pow256(|b|)
  {
    if b != [] {
      LeOfNum(b[1..]);
      assert b == [b[0]] + b[1..];
    }
  }

  /** Byte `k` of a little-endian number is its digit `k` to the base 256. */
  lemma {:induction false} LeByte(v: nat, n: nat, k: nat)
    requires k < n
    ensures Le(v, n)[k] == v / Pow256(k) % 256
  {
    if k > 0 {
      LeByte(v / 256, n - 1, k - 1);
      DivTwice(v, Pow256(k - 1));
    }
  }

  lemma DivTwice(v: nat, b: nat)
    requires b > 0
    ensures v / 256 / b == v / (256 * b)
  {
    var u := v / 256;
    var q, r, r' := u / b, v % 256, u % b;
    var p := b * q;
    assert u == p + r' && v == 256 * p + (256 * r' + r);
    assert 256 * p == (256 * b) * q;
    DivIs(v, 256 * b, q, 256 * r' + r);
  }

  lemma DivIs(v: nat, d: nat, q: nat, r: nat)
    requires d > 0 && v == d * q + r && r < d
    ensures v / d == q
  {
    var k := v / d - q;
    assert v == d * (v / d) + v % d;
    assert d * (v / d) == d * q + d * k;
    Multiple(d, k);
  }

  lemma Multiple(d: int, k: int)
    requires d > 0
    ensures k >= 1 ==> d * k >= d
    ensures k <= -1 ==> d * k <= -d
  {
    assert d * k == d + d * (k - 1) == d * (k + 1) - d;
  }

  lemma Widths()
    ensures Pow256(1) == 0x100 && Pow256(2) == 0x1_0000
    ensures Pow256(4) == 0x1_0000_0000 && Pow256(8) == 0x1_0000_0000_0000_0000
  {
    assert Pow256(4) == 256 * Pow256(3) && Pow256(3) == 256 * Pow256(2);
    assert Pow256(8) == 256 * Pow256(7) && Pow256(7) == 256 * Pow256(6) && Pow256(6) == 256 * Pow256(5)
        && Pow256(5) == 256 * Pow256(4);
  }

  // ---------- Records ----------

  function Sum(widths: seq<nat>): nat {
    if widths == [] then 0 else widths[0] + Sum(widths[1..])
  }

  ghost predicate Fits(values: seq<nat>, widths: seq<nat>) {
    |values| == |widths| && forall k :: 0 <= k < |values| ==> values[k] < Pow256(widths[k])
  }

  function Put(values: seq<nat>, widths: seq<nat>): (b: Bytes)
    requires |values| == |widths|
    ensures |b| == Sum(widths)
  {
    if values == [] then [] else Le(values[0], widths[0]) + Put(values[1..], widths[1..])
  }

  function Get(data: Bytes, widths: seq<nat>): (values: seq<nat>)
    requires Sum(widths) <= |data|
    ensures |values| == |widths|
  {
    if widths == [] then [] else [Num(data[..widths[0]])] + Get(data[widths[0]..], widths[1..])
  }

  lemma PutCons(values: seq<nat>, widths: seq<nat>)
    requires |values| == |widths| > 0
    ensures Put(values, widths) == Le(values[0], widths[0]) + Put(values[1..], widths[1..])
    ensures Sum(widths) == widths[0] + Sum(widths[1..]) && |Put(values, widths)| == Sum(widths)
  {
    hide Le;
  }

  lemma GetCons(data: Bytes, widths: seq<nat>)
    requires widths != [] && Sum(widths) <= |data|
    ensures Sum(widths) == widths[0] + Sum(widths[1..]) && widths[0] <= |data|
    ensures Get(data, widths) == [Num(data[..widths[0]])] + Get(data[widths[0]..], widths[1..])
    ensures |Get(data, widths)| == |widths|
  {
    hide Num;
  }

  lemma FitsCons(values: seq<nat>, widths: seq<nat>)
    requires |values| == |widths| > 0
    ensures Fits(values, widths) <==> values[0] < Pow256(widths[0]) && Fits(values[1..], widths[1..])
  {
    hide Pow256;
    assert forall k :: 0 < k < |values| ==> values[k] == values[1..][k - 1] && widths[k] == widths[1..][k - 1];
  }

  lemma SameSize(values: seq<nat>, widths: seq<nat>)
    requires Fits(values, widths)
    ensures |values| == |widths|
  {
  }

  lemma PutNone()
    ensures Put([], []) == [] && Sum([]) == 0 && Fits([], [])
    ensures forall data :: Get(data, []) == []
  {
  }

  lemma Splits(a: Bytes, b: Bytes, c: Bytes, d: Bytes)
    requires d == a + b
    ensures d + c == a + (b + c) && (d + c)[..|a|] == a && (d + c)[|a|..] == b + c
  {
  }

  lemma {:induction false} GetOfPut(values: seq<nat>, widths: seq<nat>, rest: Bytes)
    requires Fits(values, widths)
    ensures |values| == |widths| && Get(Put(values, widths) + rest, widths) == values
  {
    hide *;
    SameSize(values, widths);
    if values == [] {
      PutNone();
      assert widths == [];
    } else {
      var first, more := Le(values[0], widths[0]), Put(values[1..], widths[1..]);
      FitsCons(values, widths);
      PutCons(values, widths);
      NumOfLe(values[0], widths[0]);
      GetOfPut(values[1..], widths[1..], rest);
      Splits(first, more, rest, Put(values, widths));
      GetCons(Put(values, widths) + rest, widths);
      assert values == [values[0]] + values[1..];
    }
  }

  lemma {:induction false} PutOfGet(data: Bytes, widths: seq<nat>)
    requires Sum(widths) <= |data|
    ensures |Get(data, widths)| == |widths| && Put(Get(data, widths), widths) == data[..Sum(widths)]
    ensures Fits(Get(data, widths), widths)
  {
    hide *;
    if widths == [] {
      PutNone();
      assert data[..0] == [];
    } else {
      GetCons(data, widths);
      var w, rest := widths[0], data[widths[0]..];
      var values := Get(data, widths);
      LeOfNum(data[..w]);
      PutOfGet(rest, widths[1..]);
      assert values[0] == Num(data[..w]) && values[1..] == Get(rest, widths[1..]);
      PutCons(values, widths);
      FitsCons(values, widths);
      Joins(data, w, Sum(widths[1..]));
    }
  }

  lemma Joins(data: Bytes, a: nat, b: nat)
    requires a + b <= |data|
    ensures data[..a] + data[a..][..b] == data[..a + b]
  {
  }

  /** Field `k` lies behind the fields before it. */
  lemma {:induction false} GetAt(data: Bytes, widths: seq<nat>, k: nat)
    requires Sum(widths) <= |data| && k < |widths|
    ensures |Get(data, widths)| == |widths| && Sum(widths[..k]) + widths[k] <= |data|
    ensures Get(data, widths)[k] == Num(data[Sum(widths[..k])..Sum(widths[..k]) + widths[k]])
  {
    hide *;
    GetCons(data, widths);
    var w := widths[0];
    if k == 0 {
      PutNone();
      assert widths[..0] == [] && data[0..w] == data[..w];
    } else {
      GetAt(data[w..], widths[1..], k - 1);
      SumCons(widths[..k]);
      assert widths[..k][1..] == widths[1..][..k - 1];
      var o := Sum(widths[1..][..k - 1]);
      Shifted(data, w, o, widths[k]);
    }
  }

  /** ... and is printed there. */
  lemma {:induction false} PutAt(values: seq<nat>, widths: seq<nat>, k: nat)
    requires |values| == |widths| && k < |widths|
    ensures Sum(widths[..k]) + widths[k] <= |Put(values, widths)|
    ensures Put(values, widths)[Sum(widths[..k])..Sum(widths[..k]) + widths[k]] == Le(values[k], widths[k])
  {
    hide *;
    PutCons(values, widths);
    var w, rest := widths[0], Put(values[1..], widths[1..]);
    if k == 0 {
      PutNone();
      assert widths[..0] == [] && Put(values, widths)[0..w] == Le(values[0], w);
    } else {
      PutAt(values[1..], widths[1..], k - 1);
      SumCons(widths[..k]);
      assert widths[..k][1..] == widths[1..][..k - 1];
      var o := Sum(widths[1..][..k - 1]);
      assert Put(values, widths)[w..] == rest;
      Shifted(Put(values, widths), w, o, widths[k]);
    }
  }

  lemma SumCons(widths: seq<nat>)
    requires widths != []
    ensures Sum(widths) == widths[0] + Sum(widths[1..])
  {
  }

  lemma Shifted(data: Bytes, w: nat, o: nat, n: nat)
    requires w + o + n <= |data|
    ensures data[w..][o..o + n] == data[w + o..w + o + n]
  {
  }

  lemma {:induction false} PutSnoc(values: seq<nat>, widths: seq<nat>, v: nat, w: nat)
    requires |values| == |widths|
    ensures Put(values + [v], widths + [w]) == Put(values, widths) + Le(v, w)
  {
    if values == [] {
      assert Put([v], [w]) == Le(v, w) + Put([], []);
    } else {
      PutSnoc(values[1..], widths[1..], v, w);
      assert (values + [v])[1..] == values[1..] + [v] && (widths + [w])[1..] == widths[1..] + [w];
    }
  }

  // ---------- On buffers ----------

  /** Writes `v` at `off` in `n` bytes, as binary.LittleEndian does. */
  method PutUint(buf: array<u8>, off: nat, v: nat, n: nat)
    requires off + n <= buf.Length
    modifies buf
    ensures buf[..off + n] == old(buf[..off]) + Le(v, n)
  {
    var i, rest := 0, v;
    while i < n
      invariant 0 <= i <= n && buf[..off + i] + Le(rest, n - i) == old(buf[..off]) + Le(v, n)
    {
      ghost var before := buf[..off + i];
      buf[off + i] := rest % 256;
      assert buf[..off + i] == before && buf[..off + i + 1] == before + [rest % 256];
      assert before + Le(rest, n - i) == before + [rest % 256] + Le(rest / 256, n - i - 1);
      i, rest := i + 1, rest / 256;
    }
  }

  method Uint(data: Bytes, off: nat, n: nat) returns (v: nat)
    requires off + n <= |data|
    ensures v == Num(data[off..off + n])
  {
    v := 0;
    var i := n;
    while i > 0
      invariant 0 <= i <= n && v == Num(data[off + i..off + n])
    {
      i := i - 1;
      assert data[off + i..off + n][1..] == data[off + i + 1..off + n];
      v := data[off + i] + 256 * v;
    }
  }

  /** Go's copy into the rest of a buffer: as much of `src` as there is room for. */
  method CopyInto(buf: array<u8>, off: nat, src: Bytes)
    requires off <= buf.Length
    modifies buf
    ensures var n := if |src| < buf.Length - off then |src| else buf.Length - off;
            buf[..off + n] == old(buf[..off]) + src[..n]
    ensures |src| >= buf.Length - off ==> buf[..] == old(buf[..off]) + src[..buf.Length - off]
  {
    var n := if |src| < buf.Length - off then |src| else buf.Length - off;
    for i := 0 to n
      invariant buf[..off + i] == old(buf[..off]) + src[..i]
    {
      ghost var before := buf[..off + i];
      buf[off + i] := src[i];
      assert buf[..off + i + 1] == before + [src[i]];
    }
    assert off + n == buf.Length ==> buf[..off + n] == buf[..];
  }
}
