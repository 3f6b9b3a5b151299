/** The JavaScript Array built-ins that the subtitle and waveform code relies on
    (slice, reverse, find, findIndex, and the reduce that flattens a list of
    lines), together with the reference definitions they are proved against. */
module JsArray {

  /** A value or its absence: `undefined` as returned by Array.prototype.find,
      or a missing window bound standing for -Infinity/+Infinity. */
  datatype Option<T> = None | Some(value: T)

  /** Math.max of two integers. */
  function Max(a: int, b: int): int { if a < b then b else a }

  function Min(a: int, b: int): int { if a < b then a else b }

  /** How Array.prototype.slice resolves one of its arguments: a negative index
      counts back from the end, and the result is clamped to [0, len]. */
  function ResolveIndex(k: int, len: nat): (r: nat)
    ensures r <= len
  {
    if k < 0 then Max(0, len + k) else Min(k, len)
  }

  /** Array.prototype.slice(start, end). */
  function Slice<T>(s: seq<T>, start: int, end: int): (r: seq<T>)
    ensures |r| <= |s|
    ensures 0 <= start <= end ==> r == s[Min(start, |s|)..Min(end, |s|)]
    ensures 0 <= end <= start ==> r == []
    ensures |s| <= start ==> r == []
  {
    var from := ResolveIndex(start, |s|);
    var to := ResolveIndex(end, |s|);
    if from < to then s[from..to] else []
  }

  /** Array.prototype.reverse applied to a copy (`slice().reverse()`). */
  function Reverse<T>(s: seq<T>): (r: seq<T>)
    ensures |r| == |s|
    ensures forall i :: 0 <= i < |s| ==> r[i] == s[|s| - 1 - i]
  {
    if s == [] then [] else Reverse(s[1..]) + [s[0]]
  }

  /** Array.prototype.findIndex: the first position whose element satisfies
      `p`, or -1 when there is none. */
  function FindIndex<T>(s: seq<T>, p: T -> bool): (r: int)
    ensures -1 <= r < |s|
    ensures r == -1 <==> forall i :: 0 <= i < |s| ==> !p(s[i])
    ensures 0 <= r ==> p(s[r]) && forall i :: 0 <= i < r ==> !p(s[i])
  {
    if s == [] then -1
    else if p(s[0]) then 0
    else
      var k := FindIndex(s[1..], p);
      if k < 0 then -1 else k + 1
  }

  /** Array.prototype.find: the first element satisfying `p`, or undefined. */
  function Find<T>(s: seq<T>, p: T -> bool): (r: Option<T>)
    ensures r.None? <==> forall i :: 0 <= i < |s| ==> !p(s[i])
    ensures r.Some? ==> exists i :: 0 <= i < |s| && s[i] == r.value && p(s[i])
                                    && forall j :: 0 <= j < i ==> !p(s[j])
  {
    var k := FindIndex(s, p);
    if k < 0 then None else Some(s[k])
  }

  /** Reference definition: the elements of `s` that satisfy `p`, in order. */
  function Filter<T>(s: seq<T>, p: T -> bool): (r: seq<T>)
    ensures |r| <= |s|
  {
    if s == [] then []
    else
      var n := |s| - 1;
      Filter(s[..n], p) + if p(s[n]) then [s[n]] else []
  }

  /** The positions that Filter keeps. Its contract says that Filter is an
      order-preserving selection of exactly the positions satisfying `p`. */
  function FilterIndices<T>(s: seq<T>, p: T -> bool): (ks: seq<nat>)
    ensures |ks| == |Filter(s, p)|
    ensures forall k :: 0 <= k < |ks| ==> ks[k] < |s| && Filter(s, p)[k] == s[ks[k]]
    ensures forall a, b :: 0 <= a < b < |ks| ==> ks[a] < ks[b]
    ensures forall j :: 0 <= j < |s| ==> (j in ks <==> p(s[j]))
  {
    if s == [] then []
    else
      var n := |s| - 1;
      assert s[..n] + [s[n]] == s;
      FilterIndices(s[..n], p) + if p(s[n]) then [n] else []
  }

  /** Filter seen from the front: the first element is kept or dropped, and
      the rest is filtered in turn. */
  lemma {:induction false} FilterFront<T>(s: seq<T>, p: T -> bool)
    requires s != []
    ensures Filter(s, p) == (if p(s[0]) then [s[0]] else []) + Filter(s[1..], p)
    decreases |s|
  {
    if |s| > 1 {
      var n := |s| - 1;
      assert s[..n][0] == s[0];
      assert s[..n][1..] == s[1..][..n - 1];
      FilterFront(s[..n], p);
    } else {
      assert s[..0] == [] && s[1..] == [];
    }
  }

  /** An element satisfying `p` survives Filter, and only such elements do. */
  lemma FilterMembership<T>(s: seq<T>, p: T -> bool, x: T)
    ensures x in Filter(s, p) <==> x in s && p(x)
  {
    var r, ks := Filter(s, p), FilterIndices(s, p);
    if x in r {
      var k :| 0 <= k < |r| && r[k] == x;
      assert s[ks[k]] == x && ks[k] in ks;
    }
    if x in s && p(x) {
      var j :| 0 <= j < |s| && s[j] == x;
      assert j in ks;
      var k :| 0 <= k < |ks| && ks[k] == j;
      assert r[k] == x;
    }
  }

  /** When every element satisfies `p`, Filter keeps the whole sequence. */
  lemma {:induction false} FilterAll<T>(s: seq<T>, p: T -> bool)
    requires forall i :: 0 <= i < |s| ==> p(s[i])
    ensures Filter(s, p) == s
  {
    if s != [] {
      var n := |s| - 1;
      FilterAll(s[..n], p);
      assert s[..n] + [s[n]] == s;
    }
  }

  /** When no element satisfies `p`, Filter keeps nothing. */
  lemma {:induction false} FilterNone<T>(s: seq<T>, p: T -> bool)
    requires forall i :: 0 <= i < |s| ==> !p(s[i])
    ensures Filter(s, p) == []
  {
    if s != [] {
      FilterNone(s[..|s| - 1], p);
    }
  }

  /** Array.prototype.reduce(f, init): a left fold over `s`. */
  function Reduce<T, A>(s: seq<T>, f: (A, T) -> A, init: A): A
    decreases |s|
  {
    if s == [] then init else Reduce(s[1..], f, f(init, s[0]))
  }

  /** Reference definition: `h` applied to every element, in order. */
  function Map<T, U>(s: seq<T>, h: T -> U): (r: seq<U>)
    ensures |r| == |s|
    ensures forall i :: 0 <= i < |s| ==> r[i] == h(s[i])
  {
    seq(|s|, i requires 0 <= i < |s| => h(s[i]))
  }

  /** Reference definition: the pieces `g(x)` of the elements, joined in order. */
  function FlatMap<T, U>(s: seq<T>, g: T -> seq<U>): seq<U>
    decreases |s|
  {
    if s == [] then [] else g(s[0]) + FlatMap(s[1..], g)
  }

  /** Reference definition: the lines of `lines` joined end to end. */
  function Concat<T>(lines: seq<seq<T>>): seq<T>
    decreases |lines|
  {
    if lines == [] then [] else lines[0] + Concat(lines[1..])
  }

  /** A reduce whose callback only ever appends `g(x)` to the accumulator
      appends the pieces of all elements, in order. */
  lemma {:induction false} ReduceAppending<T, U>(s: seq<T>, f: (seq<U>, T) -> seq<U>,
                                                 g: T -> seq<U>, acc: seq<U>)
    requires forall a, x :: f(a, x) == a + g(x)
    ensures Reduce(s, f, acc) == acc + FlatMap(s, g)
    decreases |s|
  {
    if s != [] {
      ReduceAppending(s[1..], f, g, acc + g(s[0]));
      assert acc + g(s[0]) + FlatMap(s[1..], g) == acc + (g(s[0]) + FlatMap(s[1..], g));
    }
  }

  /** The piece of `x` when only elements satisfying `p` contribute, as `h(x)`. */
  function Selecting<T, U>(p: T -> bool, h: T -> U): T -> seq<U>
  {
    x => if p(x) then [h(x)] else []
  }

  /** Gathering the selected pieces is mapping over the filtered elements. */
  lemma {:induction false} FlatMapSelecting<T, U>(s: seq<T>, p: T -> bool, h: T -> U)
    ensures FlatMap(s, Selecting(p, h)) == Map(Filter(s, p), h)
    decreases |s|
  {
    if s != [] {
      FlatMapSelecting(s[1..], p, h);
      FilterFront(s, p);
      var head := if p(s[0]) then [s[0]] else [];
      assert Map(head + Filter(s[1..], p), h) == Map(head, h) + Map(Filter(s[1..], p), h);
    }
  }

  /** `(subs, item) => [...subs, ...item]`: the callback of the flattening reduce. */
  function Append<T>(): (seq<T>, seq<T>) -> seq<T>
  {
    (subs: seq<T>, item: seq<T>) => subs + item
  }

  /** The flattening reduce appends the concatenation of the lines, in order. */
  lemma {:induction false} FlattenIsConcat<T>(acc: seq<T>, lines: seq<seq<T>>)
    ensures Reduce(lines, Append(), acc) == acc + Concat(lines)
    decreases |lines|
  {
    if lines != [] {
      FlattenIsConcat(acc + lines[0], lines[1..]);
      assert acc + lines[0] + Concat(lines[1..]) == acc + (lines[0] + Concat(lines[1..]));
    }
  }
}
