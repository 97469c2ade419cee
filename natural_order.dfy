/**
 * The "natural order" of `pick_files` (hdg.py:149-153): names are compared
 * by Python's string order after being left-padded with '0' to the length
 * of the longest name, and the list is sorted stably by that key.
 */
module NaturalOrder {

  /** Python's `<` on str: code-point lexicographic order, a proper prefix first. */
  predicate Below(a: string, b: string)
    decreases |a|
  {
    if a == [] then b != []
    else if b == [] then false
    else if a[0] != b[0] then a[0] < b[0]
    else Below(a[1..], b[1..])
  }

  /** `'0' * count` */
  function Zeros(count: nat): string
  {
    if count == 0 then [] else Zeros(count - 1) + ['0']
  }

  /** `x.rjust(width, '0')`: the sort key of hdg.py:153. */
  function PadKey(x: string, width: nat): string
  {
    if |x| >= width then x else Zeros(width - |x|) + x
  }

  /** `len(max(files, key=len))` (hdg.py:151); 0 for an empty list. */
  function MaxLen(s: seq<string>): nat
  {
    if s == [] then 0
    else
      var rest := MaxLen(s[1..]);
      if |s[0]| >= rest then |s[0]| else rest
  }

  /** Every pair appears in key order: no later name has a key below an earlier one's. */
  ghost predicate SortedByKey(s: seq<string>, width: nat)
  {
    forall i, j :: 0 <= i < j < |s| ==> !Below(PadKey(s[j], width), PadKey(s[i], width))
  }

  /** No name of `s` has a key below `bound`. */
  ghost predicate AllAtLeast(s: seq<string>, bound: string, width: nat)
  {
    forall i :: 0 <= i < |s| ==> !Below(PadKey(s[i], width), bound)
  }

  /** The names of `s` whose key is `key`, in the order of `s`. */
  function WithKey(s: seq<string>, key: string, width: nat): seq<string>
  {
    if s == [] then []
    else (if PadKey(s[0], width) == key then [s[0]] else []) + WithKey(s[1..], key, width)
  }

  /** Puts `x` in front of the first name whose key is not below its own. */
  function InsertByKey(x: string, t: seq<string>, width: nat): (r: seq<string>)
    ensures multiset(r) == multiset(t) + multiset{x}
  {
    if t == [] then [x]
    else if Below(PadKey(t[0], width), PadKey(x, width)) then
      assert t == [t[0]] + t[1..];
      [t[0]] + InsertByKey(x, t[1..], width)
    else [x] + t
  }

  /** A stable sort by `PadKey(_, width)`: `list.sort(key=...)`. */
  function SortByKey(s: seq<string>, width: nat): (r: seq<string>)
    ensures multiset(r) == multiset(s)
  {
    if s == [] then []
    else
      assert s == [s[0]] + s[1..];
      InsertByKey(s[0], SortByKey(s[1..], width), width)
  }

  /** The sort of hdg.py:150-153: the width is the length of the longest name. */
  function NaturalSort(s: seq<string>): seq<string>
  {
    SortByKey(s, MaxLen(s))
  }

  // ---------------------------------------------------------------------
  // The padding and the width

  lemma {:induction false} ZerosShape(count: nat)
    ensures |Zeros(count)| == count
    ensures forall i :: 0 <= i < count ==> Zeros(count)[i] == '0'
  {
    if count > 0 {
      ZerosShape(count - 1);
    }
  }

  /** `x.rjust(width, '0')` is `x` preceded by as many '0' as it is short of `width`. */
  lemma PadKeyShape(x: string, width: nat)
    ensures |PadKey(x, width)| == if |x| >= width then |x| else width
    ensures |x| < width ==> PadKey(x, width) == Zeros(width - |x|) + x
  {
    if |x| < width {
      ZerosShape(width - |x|);
    }
  }

  lemma {:induction false} ZerosSplit(m: nat, n: nat)
    ensures Zeros(m + n) == Zeros(m) + Zeros(n)
    decreases n
  {
    if n > 0 {
      ZerosSplit(m, n - 1);
    }
  }

  /** The width is the length of a longest name: no name is longer, and some name has it. */
  lemma {:induction false} MaxLenBounds(s: seq<string>)
    ensures forall i :: 0 <= i < |s| ==> |s[i]| <= MaxLen(s)
    ensures s != [] ==> exists i :: 0 <= i < |s| && |s[i]| == MaxLen(s)
    ensures s == [] ==> MaxLen(s) == 0
    decreases |s|
  {
    if s != [] {
      MaxLenBounds(s[1..]);
      if |s| > 1 && |s[0]| < MaxLen(s[1..]) {
        var k :| 0 <= k < |s[1..]| && |s[1..][k]| == MaxLen(s[1..]);
        assert s[k + 1] == s[1..][k];
      }
      forall i | 1 <= i < |s|
        ensures |s[i]| <= MaxLen(s)
      {
        assert s[i] == s[1..][i - 1];
      }
    }
  }

  // ---------------------------------------------------------------------
  // The order on strings

  lemma {:induction false} BelowIrreflexive(a: string)
    ensures !Below(a, a)
    decreases |a|
  {
    if a != [] {
      BelowIrreflexive(a[1..]);
    }
  }

  lemma {:induction false} BelowTransitive(a: string, b: string, c: string)
    requires Below(a, b) && Below(b, c)
    ensures Below(a, c)
    decreases |a|
  {
    if a != [] && a[0] == b[0] && b[0] == c[0] {
      BelowTransitive(a[1..], b[1..], c[1..]);
    }
  }

  lemma {:induction false} BelowTotal(a: string, b: string)
    requires a != b
    ensures Below(a, b) || Below(b, a)
    decreases |a|
  {
    if a != [] && b != [] && a[0] == b[0] {
      assert a == [a[0]] + a[1..] && b == [b[0]] + b[1..];
      BelowTotal(a[1..], b[1..]);
    }
  }

  lemma BelowAsymmetric(a: string, b: string)
    requires Below(a, b)
    ensures !Below(b, a)
  {
    if Below(b, a) {
      BelowTransitive(a, b, a);
      BelowIrreflexive(a);
    }
  }

  /** "Not below" is transitive: the sort's order is a total preorder. */
  lemma NotBelowTransitive(a: string, b: string, c: string)
    requires !Below(a, b) && !Below(b, c)
    ensures !Below(a, c)
  {
    if a != b && Below(a, c) {
      BelowTotal(a, b);
      BelowTransitive(b, a, c);
    }
  }

  /** A common prefix does not change the order. */
  lemma {:induction false} BelowCommonPrefix(p: string, a: string, b: string)
    requires Below(a, b)
    ensures Below(p + a, p + b)
    decreases |p|
  {
    if p == [] {
      assert p + a == a && p + b == b;
    } else {
      assert (p + a)[0] == (p + b)[0] == p[0];
      assert (p + a)[1..] == p[1..] + a && (p + b)[1..] == p[1..] + b;
      BelowCommonPrefix(p[1..], a, b);
    }
  }

  /**
   * The point of the padding: between two names whose longer one starts
   * above '0', the shorter sorts first, so "a2" comes before "a10".
   */
  lemma ShorterNameFirst(a: string, b: string, width: nat)
    requires |a| < |b| <= width
    requires b[0] > '0'
    ensures Below(PadKey(a, width), PadKey(b, width))
  {
    var common := Zeros(width - |b|);
    var extra := Zeros(|b| - |a|) + a;
    ZerosShape(|b| - |a|);
    assert extra[0] == '0';
    assert PadKey(a, width) == common + extra by {
      ZerosSplit(width - |b|, |b| - |a|);
    }
    if width > |b| {
      BelowCommonPrefix(common, extra, b);
    } else {
      assert common == [];
    }
  }

  // ---------------------------------------------------------------------
  // The sort

  lemma {:induction false} InsertAllAtLeast(x: string, t: seq<string>, bound: string, width: nat)
    requires AllAtLeast(t, bound, width) && !Below(PadKey(x, width), bound)
    ensures AllAtLeast(InsertByKey(x, t, width), bound, width)
    decreases |t|
  {
    if t != [] && Below(PadKey(t[0], width), PadKey(x, width)) {
      InsertAllAtLeast(x, t[1..], bound, width);
    }
  }

  lemma {:induction false} InsertSorted(x: string, t: seq<string>, width: nat)
    requires SortedByKey(t, width)
    ensures SortedByKey(InsertByKey(x, t, width), width)
    decreases |t|
  {
    if t == [] {
    } else if Below(PadKey(t[0], width), PadKey(x, width)) {
      var rest := InsertByKey(x, t[1..], width);
      InsertSorted(x, t[1..], width);
      BelowAsymmetric(PadKey(t[0], width), PadKey(x, width));
      InsertAllAtLeast(x, t[1..], PadKey(t[0], width), width);
      assert InsertByKey(x, t, width) == [t[0]] + rest;
    } else {
      forall j | 0 < j < |t|
        ensures !Below(PadKey(t[j], width), PadKey(x, width))
      {
        NotBelowTransitive(PadKey(t[j], width), PadKey(t[0], width), PadKey(x, width));
      }
    }
  }

  lemma {:induction false} SortByKeySorted(s: seq<string>, width: nat)
    ensures SortedByKey(SortByKey(s, width), width)
    decreases |s|
  {
    if s != [] {
      SortByKeySorted(s[1..], width);
      InsertSorted(s[0], SortByKey(s[1..], width), width);
    }
  }

  lemma {:induction false} InsertWithKey(x: string, t: seq<string>, key: string, width: nat)
    ensures WithKey(InsertByKey(x, t, width), key, width)
            == (if PadKey(x, width) == key then [x] else []) + WithKey(t, key, width)
    decreases |t|
  {
    var kx := if PadKey(x, width) == key then [x] else [];
    if t == [] {
      assert [x][1..] == [];
    } else if Below(PadKey(t[0], width), PadKey(x, width)) {
      var k0 := if PadKey(t[0], width) == key then [t[0]] else [];
      var rest := InsertByKey(x, t[1..], width);
      var tail := WithKey(t[1..], key, width);
      assert ([t[0]] + rest)[0] == t[0] && ([t[0]] + rest)[1..] == rest;
      assert WithKey(InsertByKey(x, t, width), key, width) == k0 + WithKey(rest, key, width);
      InsertWithKey(x, t[1..], key, width);
      if PadKey(x, width) == key {
        BelowIrreflexive(key);
        assert k0 == [];
        assert k0 + tail == tail && k0 + (kx + tail) == kx + tail;
      } else {
        assert kx == [];
        assert kx + tail == tail && kx + (k0 + tail) == k0 + tail;
      }
    } else {
      assert ([x] + t)[0] == x && ([x] + t)[1..] == t;
    }
  }

  /** The sort is stable: names with equal keys keep their relative order. */
  lemma {:induction false} SortByKeyStable(s: seq<string>, key: string, width: nat)
    ensures WithKey(SortByKey(s, width), key, width) == WithKey(s, key, width)
    decreases |s|
  {
    if s != [] {
      SortByKeyStable(s[1..], key, width);
      InsertWithKey(s[0], SortByKey(s[1..], width), key, width);
    }
  }

  /** Lists holding the same names have the same longest length. */
  lemma MaxLenPermutation(s: seq<string>, t: seq<string>)
    requires multiset(s) == multiset(t)
    ensures MaxLen(s) == MaxLen(t)
  {
    MaxLenBounds(s);
    MaxLenBounds(t);
    if s != [] {
      var i :| 0 <= i < |s| && |s[i]| == MaxLen(s);
      assert s[i] in multiset(t);
      var k :| 0 <= k < |t| && |t[k]| == MaxLen(t);
      assert t[k] in multiset(s);
    } else {
      assert |t| == |multiset(t)| == 0;
    }
  }

  /**
   * What the sort of hdg.py:153 delivers: the same names, in key order,
   * with names of equal key in their original order.
   */
  lemma NaturalSortCorrect(s: seq<string>)
    ensures multiset(NaturalSort(s)) == multiset(s)
    ensures MaxLen(NaturalSort(s)) == MaxLen(s)
    ensures SortedByKey(NaturalSort(s), MaxLen(s))
    ensures forall key :: WithKey(NaturalSort(s), key, MaxLen(s)) == WithKey(s, key, MaxLen(s))
  {
    MaxLenPermutation(NaturalSort(s), s);
    SortByKeySorted(s, MaxLen(s));
    forall key {
      SortByKeyStable(s, key, MaxLen(s));
    }
  }
}
