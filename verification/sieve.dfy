/** A sequence sorted out by a mask: what was kept, what was dropped, both in order. */
module Sieve {

  /** The elements of `s` whose mask bit is set. */
  function Kept<T>(s: seq<T>, mask: seq<bool>): seq<T>
    requires |s| == |mask|
    decreases |s|
  {
    if s == [] then []
    else
      var last := |s| - 1;
      Kept(s[..last], mask[..last]) + (if mask[last] then [s[last]] else [])
  }

  /** The elements of `s` whose mask bit is clear. */
  function Dropped<T>(s: seq<T>, mask: seq<bool>): seq<T>
    requires |s| == |mask|
    decreases |s|
  {
    if s == [] then []
    else
      var last := |s| - 1;
      Dropped(s[..last], mask[..last]) + (if mask[last] then [] else [s[last]])
  }

  lemma {:induction false} Extend<T>(s: seq<T>, mask: seq<bool>, x: T, keep: bool)
    requires |s| == |mask|
    ensures Kept(s + [x], mask + [keep]) == if keep then Kept(s, mask) + [x] else Kept(s, mask)
    ensures Dropped(s + [x], mask + [keep]) == if keep then Dropped(s, mask) else Dropped(s, mask) + [x]
  {
    assert (s + [x])[..|s|] == s && (mask + [keep])[..|s|] == mask;
  }

  lemma Regroup<T>(a: seq<T>, b: seq<T>, c: seq<T>)
    ensures a + b + c == a + (b + c)
  {
  }

  lemma {:induction false} AppendToLast<T>(a: seq<T>, b: seq<T>, x: T, append: bool)
    ensures (if append then (a + b) + [x] else a + b) == a + if append then b + [x] else b
  {
    Regroup(a, b, [x]);
  }

  lemma {:induction false} ConcatNext<T>(s: seq<T>, m: seq<bool>, t: seq<T>, n: seq<bool>, x: T, keep: bool)
    requires |s| == |m| && |t| == |n|
    requires Kept(s + t, m + n) == Kept(s, m) + Kept(t, n)
    requires Dropped(s + t, m + n) == Dropped(s, m) + Dropped(t, n)
    ensures Kept(s + (t + [x]), m + (n + [keep])) == Kept(s, m) + Kept(t + [x], n + [keep])
    ensures Dropped(s + (t + [x]), m + (n + [keep])) == Dropped(s, m) + Dropped(t + [x], n + [keep])
  {
    hide Kept, Dropped;
    var st, mn := s + t, m + n;
    assert st + [x] == s + (t + [x]) by { Regroup(s, t, [x]); }
    assert mn + [keep] == m + (n + [keep]) by { Regroup(m, n, [keep]); }
    Extend(st, mn, x, keep);
    Extend(t, n, x, keep);
    AppendToLast(Kept(s, m), Kept(t, n), x, keep);
    AppendToLast(Dropped(s, m), Dropped(t, n), x, !keep);
  }

  /** Sorting out a concatenation sorts out its parts. */
  lemma {:induction false} Concat<T>(s: seq<T>, m: seq<bool>, t: seq<T>, n: seq<bool>)
    requires |s| == |m| && |t| == |n|
    ensures Kept(s + t, m + n) == Kept(s, m) + Kept(t, n)
    ensures Dropped(s + t, m + n) == Dropped(s, m) + Dropped(t, n)
    decreases |t|
  {
    if t == [] {
      assert s + t == s && m + n == m;
    } else {
      hide Kept, Dropped;
      var last := |t| - 1;
      Concat(s, m, t[..last], n[..last]);
      ConcatNext(s, m, t[..last], n[..last], t[last], n[last]);
      assert t[..last] + [t[last]] == t && n[..last] + [n[last]] == n;
    }
  }

  /** Sorting out neither loses nor doubles an element. */
  lemma {:induction false} Conserves<T>(s: seq<T>, mask: seq<bool>)
    requires |s| == |mask|
    ensures multiset(Kept(s, mask)) + multiset(Dropped(s, mask)) == multiset(s)
    decreases |s|
  {
    if s != [] {
      var last := |s| - 1;
      Conserves(s[..last], mask[..last]);
      assert s == s[..last] + [s[last]];
    }
  }

  /** Where in `base + s` the `i`th element of `base` and the kept ones comes from. */
  lemma {:induction false} Origin<T>(base: seq<T>, s: seq<T>, mask: seq<bool>, i: nat) returns (j: nat)
    requires |s| == |mask| && i < |base + Kept(s, mask)|
    ensures j < |base + s| && (base + s)[j] == (base + Kept(s, mask))[i]
    decreases |s|
  {
    if i < |base| {
      j := i;
    } else {
      var last := |s| - 1;
      if i == |base + Kept(s[..last], mask[..last])| {
        j := |base| + last;
      } else {
        j := Origin(base, s[..last], mask[..last], i);
      }
    }
  }
}
