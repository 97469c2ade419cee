/**
 * The POSIX path helpers the generator relies on (`os.path.splitext`,
 * `join`, `basename` with separator '/'), the destination-name rule of
 * `copy_files` and the instrument-name rule of `main`.
 */
module PathRules {
  import opened Results

  const Sep: char := '/'
  const ExtSep: char := '.'

  /** `s.rfind(c)`: the index of the last `c` in `s`, or -1. */
  function RFind(s: string, c: char): (r: int)
    ensures -1 <= r < |s|
  {
    if s == [] then -1
    else if s[|s| - 1] == c then |s| - 1
    else RFind(s[..|s| - 1], c)
  }

  /**
   * Some character of `s[lo..hi]` is not a dot: the scan of
   * `posixpath.splitext` over the leading dots of the final component.
   */
  predicate HasNonDot(s: string, lo: int, hi: int)
    requires 0 <= lo && hi <= |s|
    decreases hi - lo
  {
    lo < hi && (s[lo] != ExtSep || HasNonDot(s, lo + 1, hi))
  }

  /**
   * `posixpath.splitext`: the extension is everything from the last dot
   * on, provided that dot comes after the last separator and is not one
   * of the leading dots of the final component.
   */
  function Splitext(p: string): (string, string)
  {
    var sepIndex := RFind(p, Sep);
    var dotIndex := RFind(p, ExtSep);
    if dotIndex > sepIndex && HasNonDot(p, sepIndex + 1, dotIndex) then
      (p[..dotIndex], p[dotIndex..])
    else
      (p, [])
  }

  function Extension(p: string): string
  {
    Splitext(p).1
  }

  /** `posixpath.join(a, b)` for two components. */
  function Join(a: string, b: string): string
  {
    if |b| > 0 && b[0] == Sep then b
    else if a == [] || a[|a| - 1] == Sep then a + b
    else a + [Sep] + b
  }

  /** `posixpath.basename`: what follows the last separator. */
  function Basename(p: string): string
  {
    p[RFind(p, Sep) + 1..]
  }

  /** Whether `output_format` is truthy: given and not the empty string. */
  predicate Converts(outputFormat: Option<string>)
  {
    outputFormat.Some? && outputFormat.value != []
  }

  /**
   * The destination path of `copy_files` (hdg.py:112-115): the file joined
   * to the kit directory and, when converting, its extension replaced by
   * '.' and the output format.
   */
  function Destination(drumkitPath: string, file: string, outputFormat: Option<string>): string
  {
    var destination := Join(drumkitPath, file);
    if Converts(outputFormat) then Splitext(destination).0 + [ExtSep] + outputFormat.value
    else destination
  }

  /** The paths `copy_files` yields, one per file and in order (hdg.py:108-122). */
  function CopiedFiles(files: seq<string>, drumkitPath: string, outputFormat: Option<string>): seq<string>
  {
    seq(|files|, i requires 0 <= i < |files| => Destination(drumkitPath, files[i], outputFormat))
  }

  /** The `<filename>` of a layer: the basename of the destination (hdg.py:225). */
  function LayerFilename(drumkitPath: string, file: string, outputFormat: Option<string>): string
  {
    Basename(Destination(drumkitPath, file, outputFormat))
  }

  /** `s[n:]` in Python: empty once `n` passes the end. */
  function SliceFrom(s: string, n: nat): (r: string)
    ensures n <= |s| ==> s == s[..n] + r
    ensures n >= |s| ==> r == []
  {
    if n >= |s| then [] else s[n..]
  }

  /** `re.sub(sep, ' ', s)` with sep '/': every separator becomes a space. */
  function ReplaceSeparators(s: string): (r: string)
    ensures |r| == |s|
    ensures forall i :: 0 <= i < |s| ==> r[i] == (if s[i] == Sep then ' ' else s[i])
    ensures Sep !in r
  {
    if s == [] then []
    else ReplaceSeparators(s[..|s| - 1]) + [if s[|s| - 1] == Sep then ' ' else s[|s| - 1]]
  }

  /** The instrument name of hdg.py:202 and 221. */
  function InstrumentName(root: string, samplesPath: string): string
  {
    ReplaceSeparators(SliceFrom(root, |samplesPath|))
  }

  // ---------------------------------------------------------------------
  // Lemmas

  /** `rfind` finds the last occurrence, and -1 means there is none. */
  lemma {:induction false} RFindLast(s: string, c: char)
    ensures RFind(s, c) >= 0 ==> s[RFind(s, c)] == c
    ensures forall j :: RFind(s, c) < j < |s| ==> s[j] != c
  {
    if s != [] && s[|s| - 1] != c {
      RFindLast(s[..|s| - 1], c);
    }
  }

  /**
   * `splitext` cuts the path in two, and a non-empty extension is one dot
   * followed by no dot and no separator.
   */
  lemma SplitextParts(p: string)
    ensures Splitext(p).0 + Splitext(p).1 == p
    ensures var ext := Splitext(p).1;
            ext == [] || (ext[0] == ExtSep && ExtSep !in ext[1..] && Sep !in ext)
  {
    var sepIndex := RFind(p, Sep);
    var dotIndex := RFind(p, ExtSep);
    RFindLast(p, Sep);
    RFindLast(p, ExtSep);
    if dotIndex > sepIndex && HasNonDot(p, sepIndex + 1, dotIndex) {
      var ext := p[dotIndex..];
      assert p[..dotIndex] + ext == p;
      forall j | 0 <= j < |ext| ensures ext[j] != Sep && (j > 0 ==> ext[j] != ExtSep) {
        assert ext[j] == p[dotIndex + j];
      }
    }
  }

  /** The directory `join` puts in front of a relative name: `a`, ending in a separator. */
  function JoinDir(a: string): (dir: string)
    ensures dir == [] || dir[|dir| - 1] == Sep
  {
    if a == [] || a[|a| - 1] == Sep then a
    else
      assert (a + [Sep])[|a|] == Sep;
      a + [Sep]
  }

  /**
   * Joining a name that does not start with a separator appends it to `a`,
   * with a separator added only when `a` is non-empty and lacks a final one.
   */
  lemma JoinRelative(a: string, b: string)
    requires b == [] || b[0] != Sep
    ensures Join(a, b) == JoinDir(a) + b
  {
  }

  /** `basename` leaves what follows the last separator, which holds none. */
  lemma BasenameShape(p: string)
    ensures Sep !in Basename(p)
    ensures p == p[..RFind(p, Sep) + 1] + Basename(p)
  {
    var start := RFind(p, Sep) + 1;
    assert p == p[..start] + p[start..];
    BasenameNoSep(p);
  }

  lemma BasenameNoSep(p: string)
    ensures Sep !in Basename(p)
  {
    RFindLast(p, Sep);
    var start := RFind(p, Sep) + 1;
    var name := p[start..];
    forall j | 0 <= j < |name| ensures name[j] != Sep {
      assert name[j] == p[start + j];
    }
  }

  /** A character absent from `s` is not found. */
  lemma RFindAbsent(s: string, c: char)
    requires c !in s
    ensures RFind(s, c) == -1
  {
    RFindLast(s, c);
  }

  /** The last occurrence in `a + b` is in `b` when `b` has one. */
  lemma RFindAppend(a: string, b: string, c: char)
    ensures RFind(a + b, c) == if c in b then |a| + RFind(b, c) else RFind(a, c)
  {
    var s := a + b;
    var r := RFind(s, c);
    RFindLast(s, c);
    RFindLast(a, c);
    RFindLast(b, c);
    if c in b {
      var rb := RFind(b, c);
      var i :| 0 <= i < |b| && b[i] == c;
      assert rb >= 0;
      assert s[|a| + rb] == c;
    } else {
      var ra := RFind(a, c);
      if ra >= 0 {
        assert s[ra] == c;
      }
      if r >= 0 {
        assert a[r] == s[r];
      }
    }
  }

  lemma {:induction false} HasNonDotShift(dir: string, file: string, lo: nat, hi: nat)
    requires lo <= hi <= |file|
    ensures HasNonDot(dir + file, |dir| + lo, |dir| + hi) == HasNonDot(file, lo, hi)
    decreases hi - lo
  {
    if lo < hi {
      assert (dir + file)[|dir| + lo] == file[lo];
      HasNonDotShift(dir, file, lo + 1, hi);
    }
  }

  /** The last separator of `dir + file` ends `dir` when `file` has none. */
  lemma LastSepOfDirectory(dir: string, file: string)
    requires dir == [] || dir[|dir| - 1] == Sep
    requires Sep !in file
    ensures RFind(dir + file, Sep) == |dir| - 1
  {
    RFindAppend(dir, file, Sep);
  }

  /**
   * Splitting the extension off a file inside a directory splits it off
   * the file name alone: the directory part is never touched.
   */
  lemma SplitextUnderDirectory(dir: string, file: string)
    requires dir == [] || dir[|dir| - 1] == Sep
    requires Sep !in file
    ensures Splitext(dir + file) == (dir + Splitext(file).0, Splitext(file).1)
  {
    var p := dir + file;
    LastSepOfDirectory(dir, file);
    RFindAbsent(file, Sep);
    RFindAppend(dir, file, ExtSep);
    RFindLast(file, ExtSep);
    if ExtSep in file {
      var d := RFind(file, ExtSep);
      assert d >= 0;
      assert RFind(p, ExtSep) == |dir| + d;
      HasNonDotShift(dir, file, 0, d);
      if HasNonDot(file, 0, d) {
        assert p[..|dir| + d] == dir + file[..d];
        assert p[|dir| + d..] == file[d..];
      }
    } else {
      RFindLast(dir, ExtSep);
      var dd := RFind(dir, ExtSep);
      assert dd < |dir| - 1 || dd == -1;
    }
  }

  /** The basename of a path below a directory is the file name. */
  lemma BasenameUnderDirectory(dir: string, file: string)
    requires dir == [] || dir[|dir| - 1] == Sep
    requires Sep !in file
    ensures Basename(dir + file) == file
  {
    LastSepOfDirectory(dir, file);
    assert (dir + file)[|dir|..] == file;
  }

  /**
   * The destination-name rule of hdg.py:112-115 seen through `basename`
   * (hdg.py:225): a file name as `os.walk` lists it keeps its name, or its
   * stem followed by '.' and the output format when converting.
   */
  lemma LayerFilenameRule(drumkitPath: string, file: string, outputFormat: Option<string>)
    requires Sep !in file
    requires outputFormat.Some? ==> Sep !in outputFormat.value
    ensures LayerFilename(drumkitPath, file, outputFormat)
            == if Converts(outputFormat) then Splitext(file).0 + [ExtSep] + outputFormat.value else file
  {
    var dir := JoinDir(drumkitPath);
    JoinRelative(drumkitPath, file);
    if Converts(outputFormat) {
      ConvertedName(dir, file, outputFormat.value);
    } else {
      BasenameUnderDirectory(dir, file);
    }
  }

  /** The converting branch of `LayerFilenameRule`, below the directory `dir`. */
  lemma ConvertedName(dir: string, file: string, format: string)
    requires dir == [] || dir[|dir| - 1] == Sep
    requires Sep !in file && Sep !in format
    ensures Basename(Splitext(dir + file).0 + [ExtSep] + format) == Splitext(file).0 + [ExtSep] + format
  {
    var stem := Splitext(file).0;
    SplitextParts(file);
    SplitextUnderDirectory(dir, file);
    assert stem == file[..|stem|];
    var name := stem + [ExtSep] + format;
    assert Sep !in name;
    assert Splitext(dir + file).0 + [ExtSep] + format == dir + name;
    BasenameUnderDirectory(dir, name);
  }

  /**
   * A root below the samples folder is named by its relative path with
   * separators turned into spaces.
   */
  lemma InstrumentNameOfRelativePath(samplesPath: string, relative: string)
    ensures InstrumentName(samplesPath + relative, samplesPath) == ReplaceSeparators(relative)
  {
    assert SliceFrom(samplesPath + relative, |samplesPath|) == relative by {
      if |relative| > 0 {
        assert (samplesPath + relative)[|samplesPath|..] == relative;
      }
    }
  }

  /** A samples folder given without a trailing separator leaves a leading space. */
  lemma InstrumentNameLeadingSpace()
    ensures InstrumentName("samples/kick", "samples") == " kick"
  {
    InstrumentNameOfRelativePath("samples", "/kick");
    assert "samples/kick" == "samples" + "/kick";
  }
}
