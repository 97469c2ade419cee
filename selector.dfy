/**
 * `pick_files` (hdg.py:136-154): keep the names with the input extension,
 * thin them to at most `layers` by linear interpolation, and sort them in
 * natural order.
 */
module Selector {
  import opened PathRules
  import opened NaturalOrder

  /** `filter(lambda f: splitext(f)[-1] == extension, files)` (hdg.py:139). */
  function FilterByExtension(files: seq<string>, extension: string): seq<string>
  {
    if files == [] then []
    else (if Extension(files[0]) == extension then [files[0]] else []) + FilterByExtension(files[1..], extension)
  }

  /** The filter keeps every occurrence of a matching name and none of the others. */
  lemma {:induction false} FilterByExtensionCounts(files: seq<string>, extension: string)
    ensures forall x :: multiset(FilterByExtension(files, extension))[x]
                        == if Extension(x) == extension then multiset(files)[x] else 0
    decreases |files|
  {
    if files != [] {
      assert files == [files[0]] + files[1..];
      FilterByExtensionCounts(files[1..], extension);
    }
  }

  /** `math.floor(delta * i) - 1` with `delta = samples / layers` (hdg.py:145-147), in exact arithmetic. */
  function PickIndex(samples: nat, layers: nat, i: nat): int
    requires layers > 0
  {
    ((samples as real / layers as real) * i as real).Floor - 1
  }

  lemma MulMonotone(x: int, y: int, k: int)
    requires k >= 0 && x <= y
    ensures x * k <= y * k
  {
    assert y * k - x * k == (y - x) * k;
  }

  lemma MulCancel(x: int, y: int, k: int)
    requires k > 0 && x * k < y * k
    ensures x < y
  {
    if y <= x {
      MulMonotone(y, x, k);
    }
  }

  /** `delta * i` times `layers` is `samples * i` (hdg.py:145-147 in exact arithmetic). */
  lemma ScaledProduct(samples: nat, layers: nat, i: nat)
    requires layers > 0
    ensures ((samples as real / layers as real) * i as real) * layers as real == (samples * i) as real
  {
    var n, k, m := samples as real, layers as real, i as real;
    assert (n / k) * k == n;
    assert ((n / k) * m) * k == ((n / k) * k) * m;
  }

  lemma FloorLowerScaled(x: real, k: nat, f: int, a: nat)
    requires k > 0 && f == x.Floor && x * k as real == a as real
    ensures f * k <= a
  {
    assert f as real <= x;
    assert (f as real) * (k as real) <= x * (k as real);
    assert (f * k) as real == (f as real) * (k as real);
  }

  lemma FloorUpperScaled(x: real, k: nat, f: int, a: nat)
    requires k > 0 && f == x.Floor && x * k as real == a as real
    ensures a < (f + 1) * k
  {
    assert x < (f + 1) as real;
    assert x * (k as real) < ((f + 1) as real) * (k as real);
    assert ((f + 1) * k) as real == ((f + 1) as real) * (k as real);
  }

  /**
   * The floor of hdg.py:147 in integers: with `q` one more than the picked
   * index, `q * layers <= samples * i < (q + 1) * layers`.
   */
  lemma PickIndexBracket(samples: nat, layers: nat, i: nat)
    requires layers > 0
    ensures var q := PickIndex(samples, layers, i) + 1;
            q * layers <= samples * i < (q + 1) * layers
  {
    var x := (samples as real / layers as real) * i as real;
    ScaledProduct(samples, layers, i);
    FloorLowerScaled(x, layers, x.Floor, samples * i);
    FloorUpperScaled(x, layers, x.Floor, samples * i);
  }

  /** The real floor of hdg.py:147 is integer division. */
  lemma PickIndexIsQuotient(samples: nat, layers: nat, i: nat)
    requires layers > 0
    ensures PickIndex(samples, layers, i) == (samples * i) / layers - 1
  {
    var q := PickIndex(samples, layers, i) + 1;
    var d := (samples * i) / layers;
    PickIndexBracket(samples, layers, i);
    assert samples * i == d * layers + (samples * i) % layers;
    MulCancel(q, d + 1, layers);
    MulCancel(d, q + 1, layers);
  }

  /** Every picked index is inside the filtered list. */
  lemma PickIndexInRange(samples: nat, layers: nat, i: nat)
    requires 0 < layers < samples && 1 <= i <= layers
    ensures 0 <= PickIndex(samples, layers, i) < samples
  {
    var q := PickIndex(samples, layers, i) + 1;
    PickIndexBracket(samples, layers, i);
    MulMonotone(1, i, samples);
    MulCancel(1, q + 1, layers);
    MulMonotone(i, layers, samples);
    MulCancel(q, samples + 1, layers);
  }

  /** Consecutive picks never collide: the indices strictly increase. */
  lemma PickIndexIncreasing(samples: nat, layers: nat, i: nat)
    requires 0 < layers < samples && 1 <= i < layers
    ensures PickIndex(samples, layers, i) < PickIndex(samples, layers, i + 1)
  {
    var p := PickIndex(samples, layers, i) + 1;
    var q := PickIndex(samples, layers, i + 1) + 1;
    PickIndexBracket(samples, layers, i);
    PickIndexBracket(samples, layers, i + 1);
    assert samples * (i + 1) == samples * i + samples;
    assert (p + 1) * layers == p * layers + layers;
    MulCancel(p + 1, q + 1, layers);
  }

  lemma PickIndexMonotone(samples: nat, layers: nat, i: nat, j: nat)
    requires 0 < layers < samples && 1 <= i < j <= layers
    ensures PickIndex(samples, layers, i) < PickIndex(samples, layers, j)
    decreases j - i
  {
    PickIndexIncreasing(samples, layers, i);
    if i + 1 < j {
      PickIndexMonotone(samples, layers, i + 1, j);
    }
  }

  /** The last pick (`i = layers`) is always the last file. */
  lemma PickIndexLast(samples: nat, layers: nat)
    requires 0 < layers
    ensures PickIndex(samples, layers, layers) == samples - 1
  {
    var q := PickIndex(samples, layers, layers) + 1;
    PickIndexBracket(samples, layers, layers);
    MulCancel(q, samples + 1, layers);
    MulCancel(samples, q + 1, layers);
  }

  function PickedAt(files: seq<string>, layers: nat, i: nat): string
    requires 0 < layers < |files| && 1 <= i <= layers
  {
    PickIndexInRange(|files|, layers, i);
    files[PickIndex(|files|, layers, i)]
  }

  /**
   * `[files[math.floor(delta * i) - 1] for i in range(1, layers + 1)]`
   * (hdg.py:145-147); a negative `layers` gives an empty range.
   */
  function Thin(files: seq<string>, layers: int): seq<string>
    requires layers < |files|
  {
    if layers <= 0 then []
    else seq(layers, j requires 0 <= j < layers => PickedAt(files, layers, j + 1))
  }

  /**
   * The list `pick_files` goes on to sort (hdg.py:139-147): the matching
   * names, thinned when there are more than `layers` of them.
   */
  function Chosen(files: seq<string>, extension: string, layers: int): seq<string>
  {
    var matching := FilterByExtension(files, extension);
    if layers != 0 && |matching| > layers then Thin(matching, layers) else matching
  }

  /** `pick_files(files, extension, layers)`; `layers == 0` is the falsy case. */
  function PickFiles(files: seq<string>, extension: string, layers: int): seq<string>
  {
    var chosen := Chosen(files, extension, layers);
    if chosen != [] then NaturalSort(chosen) else chosen
  }

  // ---------------------------------------------------------------------
  // What pick_files promises

  /** The thinned list: `layers` names at strictly increasing positions, the last one last. */
  lemma ThinSelects(files: seq<string>, layers: nat)
    requires 0 < layers < |files|
    ensures |Thin(files, layers)| == layers
    ensures forall j :: 0 <= j < layers ==>
              0 <= PickIndex(|files|, layers, j + 1) < |files|
              && Thin(files, layers)[j] == files[PickIndex(|files|, layers, j + 1)]
    ensures forall i, j :: 1 <= i < j <= layers ==> PickIndex(|files|, layers, i) < PickIndex(|files|, layers, j)
    ensures Thin(files, layers)[layers - 1] == files[|files| - 1]
  {
    ThinKeepsLast(files, layers);
    forall i | 1 <= i <= layers
      ensures 0 <= PickIndex(|files|, layers, i) < |files|
    {
      PickIndexInRange(|files|, layers, i);
    }
    forall i, j | 1 <= i < j <= layers
      ensures PickIndex(|files|, layers, i) < PickIndex(|files|, layers, j)
    {
      PickIndexMonotone(|files|, layers, i, j);
    }
  }

  /** The last pick is the last name, whatever the thinning ratio. */
  lemma ThinKeepsLast(files: seq<string>, layers: nat)
    requires 0 < layers < |files|
    ensures |Thin(files, layers)| == layers && Thin(files, layers)[layers - 1] == files[|files| - 1]
  {
    PickIndexLast(|files|, layers);
  }

  /** Whatever branch is taken, the output is the natural sort of the chosen list. */
  lemma PickFilesSortsChosen(files: seq<string>, extension: string, layers: int)
    ensures var r := PickFiles(files, extension, layers);
            && r == NaturalSort(Chosen(files, extension, layers))
            && multiset(r) == multiset(Chosen(files, extension, layers))
  {
    NaturalSortCorrect(Chosen(files, extension, layers));
  }

  lemma FilterMembers(files: seq<string>, extension: string, x: string)
    requires x in FilterByExtension(files, extension)
    ensures x in files && Extension(x) == extension
  {
    FilterByExtensionCounts(files, extension);
    assert multiset(FilterByExtension(files, extension))[x] > 0;
  }

  lemma ThinMembers(files: seq<string>, layers: nat, x: string)
    requires 0 < layers < |files|
    requires x in Thin(files, layers)
    ensures x in files
  {
    ThinSelects(files, layers);
    var j :| 0 <= j < layers && Thin(files, layers)[j] == x;
  }

  /** Only names whose `splitext` extension is exactly `extension` come out. */
  lemma PickFilesMatchExtension(files: seq<string>, extension: string, layers: int)
    ensures forall x :: x in PickFiles(files, extension, layers) ==> x in files && Extension(x) == extension
  {
    var matching := FilterByExtension(files, extension);
    var chosen := Chosen(files, extension, layers);
    PickFilesSortsChosen(files, extension, layers);
    forall x | x in PickFiles(files, extension, layers)
      ensures x in files && Extension(x) == extension
    {
      assert x in multiset(chosen);
      if layers > 0 && |matching| > layers {
        ThinMembers(matching, layers, x);
      }
      FilterMembers(files, extension, x);
    }
  }

  /** Without thinning every matching name is kept, only reordered. */
  lemma PickFilesKeepsAll(files: seq<string>, extension: string, layers: int)
    requires layers == 0 || |FilterByExtension(files, extension)| <= layers
    ensures multiset(PickFiles(files, extension, layers)) == multiset(FilterByExtension(files, extension))
  {
    PickFilesSortsChosen(files, extension, layers);
  }

  /**
   * With more matching names than layers, exactly `layers` names come out:
   * those at the strictly increasing picked positions, among them the last
   * matching name in walk order.
   */
  lemma PickFilesThins(files: seq<string>, extension: string, layers: int)
    requires layers > 0 && |FilterByExtension(files, extension)| > layers
    ensures |PickFiles(files, extension, layers)| == layers
    ensures multiset(PickFiles(files, extension, layers)) == multiset(Thin(FilterByExtension(files, extension), layers))
    ensures LastOf(FilterByExtension(files, extension)) in PickFiles(files, extension, layers)
  {
    var matching := FilterByExtension(files, extension);
    var chosen := Thin(matching, layers);
    assert Chosen(files, extension, layers) == chosen;
    PickFilesSortsChosen(files, extension, layers);
    ThinKeepsLast(matching, layers);
    var last := LastOf(matching);
    assert chosen[layers - 1] == last;
    SameElements(PickFiles(files, extension, layers), chosen, last);
  }

  function LastOf(s: seq<string>): string
    requires s != []
  {
    s[|s| - 1]
  }

  /** Two lists with the same multiset have the same length and members. */
  lemma SameElements(a: seq<string>, b: seq<string>, x: string)
    requires multiset(a) == multiset(b) && x in b
    ensures |a| == |b| && x in a
  {
    assert |a| == |multiset(a)|;
    assert x in multiset(b);
  }

  /** A negative layer cap selects nothing: `range(1, layers + 1)` is empty. */
  lemma PickFilesNegativeCap(files: seq<string>, extension: string, layers: int)
    requires layers < 0
    ensures PickFiles(files, extension, layers) == []
  {
  }

  /** How many names `pick_files` returns. */
  lemma PickFilesCount(files: seq<string>, extension: string, layers: int)
    ensures var n := |FilterByExtension(files, extension)|;
            |PickFiles(files, extension, layers)|
            == if layers != 0 && n > layers then (if layers > 0 then layers else 0) else n
  {
    var chosen := Chosen(files, extension, layers);
    var r := PickFiles(files, extension, layers);
    PickFilesSortsChosen(files, extension, layers);
    assert |r| == |multiset(r)| == |multiset(chosen)| == |chosen|;
    var matching := FilterByExtension(files, extension);
    if layers > 0 && |matching| > layers {
      ThinSelects(matching, layers);
    }
  }

  /** An empty listing gives an empty selection, without error. */
  lemma PickFilesEmpty(extension: string, layers: int)
    ensures PickFiles([], extension, layers) == []
  {
  }

  /**
   * The output is in natural order by `x.rjust(L, '0')`, L the length of
   * its longest name, and names with equal keys keep their order.
   */
  lemma PickFilesNaturalOrder(files: seq<string>, extension: string, layers: int)
    ensures var r := PickFiles(files, extension, layers);
            && SortedByKey(r, MaxLen(r))
            && forall key :: WithKey(r, key, MaxLen(r)) == WithKey(Chosen(files, extension, layers), key, MaxLen(r))
  {
    PickFilesSortsChosen(files, extension, layers);
    NaturalSortCorrect(Chosen(files, extension, layers));
  }

  /** In a key-sorted list, a shorter name precedes a longer one that starts above '0'. */
  lemma SortedShorterFirst(r: seq<string>, width: nat, i: nat, j: nat)
    requires SortedByKey(r, width)
    requires i < |r| && j < |r| && |r[i]| < |r[j]| <= width && r[j][0] > '0'
    ensures i < j
  {
    ShorterNameFirst(r[i], r[j], width);
  }

  /** "a2" before "a10": of two picked names, a shorter one precedes a longer one starting above '0'. */
  lemma PickFilesShorterFirst(files: seq<string>, extension: string, layers: int, i: nat, j: nat)
    requires var r := PickFiles(files, extension, layers); i < |r| && j < |r| && |r[i]| < |r[j]| && r[j][0] > '0'
    ensures i < j
  {
    var r := PickFiles(files, extension, layers);
    PickFilesNaturalOrder(files, extension, layers);
    MaxLenBounds(r);
    SortedShorterFirst(r, MaxLen(r), i, j);
  }
}
