/**
 * What the loop of `main` (hdg.py:200-238) promises about a whole run:
 * which directories become instruments, in which order and with which
 * ids, when the run fails, and what one instrument's layers look like.
 */
module AssemblyFacts {
  import opened Results
  import opened PathRules
  import opened Selector
  import opened Velocity
  import opened DrumkitXml
  import opened Assembler

  /** Every directory of `dirs` is left with at least two samples. */
  ghost predicate AllLayered(dirs: seq<Picked>)
  {
    forall j :: 0 <= j < |dirs| ==> |dirs[j].samples| >= 2
  }

  // ---------------------------------------------------------------------
  // One directory

  /**
   * A directory contributes nothing exactly when it has no file with the
   * input extension or the layer cap is negative (hdg.py:204-211).
   */
  lemma PickedFilesEmptyIff(entry: WalkEntry, cfg: Config)
    ensures PickedFiles(entry, cfg) == [] <==> FilterByExtension(entry.files, InputExtension(cfg)) == [] || cfg.layers < 0
  {
    if entry.files != [] {
      PickFilesCount(entry.files, InputExtension(cfg), cfg.layers);
    }
  }

  // ---------------------------------------------------------------------
  // The directories with samples

  /** The directories kept are directories of the list, each with samples. */
  lemma {:induction false} ProductiveDirsMembers(dirs: seq<Picked>)
    ensures forall j :: 0 <= j < |ProductiveDirs(dirs)| ==>
              ProductiveDirs(dirs)[j] in dirs && ProductiveDirs(dirs)[j].samples != []
    decreases |dirs|
  {
    if dirs != [] {
      ProductiveDirsMembers(dirs[1..]);
    }
  }

  /** None is kept exactly when no directory has samples. */
  lemma {:induction false} ProductiveDirsEmptyIff(dirs: seq<Picked>)
    ensures ProductiveDirs(dirs) == [] <==> forall k :: 0 <= k < |dirs| ==> dirs[k].samples == []
    decreases |dirs|
  {
    if dirs != [] {
      ProductiveDirsEmptyIff(dirs[1..]);
      if dirs[0].samples == [] {
        forall k | 1 <= k < |dirs|
          ensures dirs[k] == dirs[1..][k - 1]
        {
        }
      }
    }
  }

  // ---------------------------------------------------------------------
  // The walk

  /** Whether the kept directories all have two samples, by the first directory of the walk. */
  lemma AllLayeredHead(dirs: seq<Picked>)
    requires dirs != []
    ensures AllLayered(ProductiveDirs(dirs))
            <==> (dirs[0].samples != [] ==> |dirs[0].samples| >= 2) && AllLayered(ProductiveDirs(dirs[1..]))
  {
    ProductiveDirsHead(dirs);
    if dirs[0].samples != [] {
      AllLayeredCons(dirs[0], ProductiveDirs(dirs[1..]));
    }
  }

  lemma ProductiveDirsHead(dirs: seq<Picked>)
    requires dirs != []
    ensures ProductiveDirs(dirs)
            == if dirs[0].samples != [] then [dirs[0]] + ProductiveDirs(dirs[1..]) else ProductiveDirs(dirs[1..])
  {
    assert [] + ProductiveDirs(dirs[1..]) == ProductiveDirs(dirs[1..]);
  }

  lemma AllLayeredCons(d: Picked, q: seq<Picked>)
    ensures AllLayered([d] + q) <==> |d.samples| >= 2 && AllLayered(q)
  {
    var p := [d] + q;
    ConsAt(p, d, q);
    if AllLayered(p) {
      forall j | 0 <= j < |q|
        ensures |q[j].samples| >= 2
      {
        assert q[j] == p[j + 1];
      }
    }
  }

  /**
   * The walk gets through exactly when every directory with samples has
   * at least two of them; otherwise it fails with the division by zero of
   * hdg.py:217.
   */
  lemma {:induction false} AssembleSucceedsIff(dirs: seq<Picked>, cfg: Config, nextId: nat)
    ensures Assemble(dirs, cfg, nextId).Success? <==> AllLayered(ProductiveDirs(dirs))
    ensures Assemble(dirs, cfg, nextId).Failure? ==> Assemble(dirs, cfg, nextId).error == ZeroDivision
    decreases |dirs|
  {
    if dirs != [] {
      AssembleHead(dirs, cfg, nextId);
      AllLayeredHead(dirs);
      if dirs[0].samples == [] {
        AssembleSucceedsIff(dirs[1..], cfg, nextId);
      } else if |dirs[0].samples| >= 2 {
        AssembleSucceedsIff(dirs[1..], cfg, nextId + 1);
      }
    }
  }

  /** The elements of `[x] + s`, one by one. */
  lemma ConsAt<T>(r: seq<T>, x: T, s: seq<T>)
    requires r == [x] + s
    ensures |r| == |s| + 1 && r[0] == x
    ensures forall j :: 1 <= j < |r| ==> r[j] == s[j - 1]
  {
  }

  /** A walk that gets through yields as many instruments as it keeps directories. */
  lemma {:induction false} AssembleLength(dirs: seq<Picked>, cfg: Config, nextId: nat)
    requires Assemble(dirs, cfg, nextId).Success?
    ensures |Assemble(dirs, cfg, nextId).value| == |ProductiveDirs(dirs)|
    decreases |dirs|
  {
    if dirs != [] {
      AssembleHead(dirs, cfg, nextId);
      if dirs[0].samples == [] {
        AssembleLength(dirs[1..], cfg, nextId);
      } else {
        AssembleLength(dirs[1..], cfg, nextId + 1);
      }
    }
  }

  /**
   * The j-th instrument of a walk that gets through comes from the j-th
   * kept directory, which has at least two samples, and is numbered
   * `nextId + j` (hdg.py:200-233).
   */
  lemma {:induction false} AssembleNth(dirs: seq<Picked>, cfg: Config, nextId: nat, j: nat)
    requires Assemble(dirs, cfg, nextId).Success? && j < |ProductiveDirs(dirs)|
    ensures |ProductiveDirs(dirs)[j].samples| >= 2
    ensures j < |Assemble(dirs, cfg, nextId).value|
    ensures Assemble(dirs, cfg, nextId).value[j]
            == InstrumentOf(nextId + j, ProductiveDirs(dirs)[j].root, ProductiveDirs(dirs)[j].samples, cfg)
    decreases |dirs|
  {
    var rest := dirs[1..];
    var p, q := ProductiveDirs(dirs), ProductiveDirs(rest);
    AssembleHead(dirs, cfg, nextId);
    if dirs[0].samples == [] {
      assert p == q;
      AssembleNth(rest, cfg, nextId, j);
    } else {
      var r := Assemble(dirs, cfg, nextId).value;
      var s := Assemble(rest, cfg, nextId + 1).value;
      ConsAt(r, InstrumentOf(nextId, dirs[0].root, dirs[0].samples, cfg), s);
      ConsAt(p, dirs[0], q);
      if j > 0 {
        AssembleNth(rest, cfg, nextId + 1, j - 1);
        assert nextId + j == nextId + 1 + (j - 1);
      }
    }
  }

  /**
   * A walk that gets through yields one instrument per directory with
   * samples, in walk order, the j-th numbered `nextId + j`: skipped
   * directories take no id (hdg.py:200-233).
   */
  lemma AssembleInstruments(dirs: seq<Picked>, cfg: Config, nextId: nat)
    requires Assemble(dirs, cfg, nextId).Success?
    ensures |Assemble(dirs, cfg, nextId).value| == |ProductiveDirs(dirs)|
    ensures forall j :: 0 <= j < |ProductiveDirs(dirs)| ==>
              |ProductiveDirs(dirs)[j].samples| >= 2
              && Assemble(dirs, cfg, nextId).value[j]
                 == InstrumentOf(nextId + j, ProductiveDirs(dirs)[j].root, ProductiveDirs(dirs)[j].samples, cfg)
  {
    AssembleLength(dirs, cfg, nextId);
    forall j | 0 <= j < |ProductiveDirs(dirs)|
      ensures |ProductiveDirs(dirs)[j].samples| >= 2
              && Assemble(dirs, cfg, nextId).value[j]
                 == InstrumentOf(nextId + j, ProductiveDirs(dirs)[j].root, ProductiveDirs(dirs)[j].samples, cfg)
    {
      AssembleNth(dirs, cfg, nextId, j);
    }
  }

  // ---------------------------------------------------------------------
  // A whole run

  /** The walk yields nothing exactly when it keeps no directory. */
  lemma AssembleNothingIff(dirs: seq<Picked>, cfg: Config, nextId: nat)
    ensures Assemble(dirs, cfg, nextId) == Success([]) <==> ProductiveDirs(dirs) == []
  {
    AssembleSucceedsIff(dirs, cfg, nextId);
    if Assemble(dirs, cfg, nextId).Success? {
      AssembleInstruments(dirs, cfg, nextId);
    }
  }

  /** A walk keeps no directory exactly when no directory of it keeps a sample. */
  lemma PickWalkNothingIff(walk: seq<WalkEntry>, cfg: Config)
    ensures ProductiveDirs(PickWalk(walk, cfg)) == [] <==> forall k :: 0 <= k < |walk| ==> PickedFiles(walk[k], cfg) == []
  {
    var dirs := PickWalk(walk, cfg);
    ProductiveDirsEmptyIff(dirs);
    assert forall k :: 0 <= k < |walk| ==> dirs[k].samples == PickedFiles(walk[k], cfg);
  }

  /**
   * No instrument at all is the `no files found` error, and nothing else
   * is: it happens exactly when no directory of the walk keeps a sample
   * (hdg.py:236-238).
   */
  lemma RunNoFilesFound(walk: seq<WalkEntry>, cfg: Config)
    ensures Run(walk, cfg) == Failure(NoFilesFound)
            <==> forall k :: 0 <= k < |walk| ==> PickedFiles(walk[k], cfg) == []
  {
    AssembleNothingIff(PickWalk(walk, cfg), cfg, 0);
    AssembleSucceedsIff(PickWalk(walk, cfg), cfg, 0);
    PickWalkNothingIff(walk, cfg);
  }

  /** A run fails only by dividing by zero or by finding nothing. */
  lemma RunErrors(walk: seq<WalkEntry>, cfg: Config)
    ensures Run(walk, cfg).Failure? ==> Run(walk, cfg).error == ZeroDivision || Run(walk, cfg).error == NoFilesFound
  {
    AssembleSucceedsIff(PickWalk(walk, cfg), cfg, 0);
  }

  /**
   * A kit lists one instrument per directory with samples, in walk order,
   * with ids 0, 1, 2, … and no gaps (hdg.py:200, 229-233).
   */
  lemma RunInstruments(walk: seq<WalkEntry>, cfg: Config)
    requires Run(walk, cfg).Success?
    ensures Run(walk, cfg).value.name == cfg.kitName
    ensures |Run(walk, cfg).value.instruments| == |ProductiveDirs(PickWalk(walk, cfg))| > 0
    ensures forall j :: 0 <= j < |ProductiveDirs(PickWalk(walk, cfg))| ==>
              |ProductiveDirs(PickWalk(walk, cfg))[j].samples| >= 2
              && Run(walk, cfg).value.instruments[j].id == j
              && Run(walk, cfg).value.instruments[j]
                 == InstrumentOf(j, ProductiveDirs(PickWalk(walk, cfg))[j].root, ProductiveDirs(PickWalk(walk, cfg))[j].samples, cfg)
  {
    var dirs := PickWalk(walk, cfg);
    var p := ProductiveDirs(dirs);
    AssembleLength(dirs, cfg, 0);
    forall j | 0 <= j < |p|
      ensures |p[j].samples| >= 2
              && Run(walk, cfg).value.instruments[j].id == j
              && Run(walk, cfg).value.instruments[j] == InstrumentOf(j, p[j].root, p[j].samples, cfg)
    {
      AssembleNth(dirs, cfg, 0, j);
    }
  }

  /** A directory left with a single sample aborts the run before any document (hdg.py:217). */
  lemma RunAbortsOnSingleSample(walk: seq<WalkEntry>, cfg: Config, k: nat)
    requires k < |walk| && |PickedFiles(walk[k], cfg)| == 1
    ensures Run(walk, cfg) == Failure(ZeroDivision)
  {
    var dirs := PickWalk(walk, cfg);
    AssembleSucceedsIff(dirs, cfg, 0);
    if Assemble(dirs, cfg, 0).Success? {
      SingleSampleKept(dirs, k);
    }
  }

  /** A directory with a single sample leaves the kept directories not all layered. */
  lemma {:induction false} SingleSampleKept(dirs: seq<Picked>, k: nat)
    requires k < |dirs| && |dirs[k].samples| == 1
    ensures !AllLayered(ProductiveDirs(dirs))
    decreases k
  {
    AllLayeredHead(dirs);
    if k > 0 {
      assert dirs[1..][k - 1] == dirs[k];
      SingleSampleKept(dirs[1..], k - 1);
    }
  }

  /** With a cap of one layer every directory keeps at most one sample, so no kit is ever made. */
  lemma LayerCapOneFails(walk: seq<WalkEntry>, cfg: Config, k: nat)
    requires cfg.layers == 1 && k < |walk| && PickedFiles(walk[k], cfg) != []
    ensures Run(walk, cfg) == Failure(ZeroDivision)
  {
    PickFilesCount(walk[k].files, InputExtension(cfg), cfg.layers);
    RunAbortsOnSingleSample(walk, cfg, k);
  }

  // ---------------------------------------------------------------------
  // One instrument

  /** One layer per copied file. */
  lemma {:induction false} InstrumentLayersLength(copied: seq<string>, ranges: seq<Range>)
    requires |ranges| == |copied|
    ensures |InstrumentLayers(copied, ranges)| == |copied|
    decreases |copied|
  {
    if copied != [] {
      var n := |copied| - 1;
      InstrumentLayersLength(copied[..n], ranges[..n]);
    }
  }

  /** Layer `i` pairs the basename of the i-th copied file with the i-th range. */
  lemma {:induction false} InstrumentLayerAt(copied: seq<string>, ranges: seq<Range>, i: nat)
    requires |ranges| == |copied| && i < |copied|
    ensures |InstrumentLayers(copied, ranges)| == |copied|
    ensures InstrumentLayers(copied, ranges)[i] == Layer(Basename(copied[i]), ranges[i].min, ranges[i].max)
    decreases |copied|
  {
    var n := |copied| - 1;
    InstrumentLayersLength(copied[..n], ranges[..n]);
    if i < n {
      InstrumentLayerAt(copied[..n], ranges[..n], i);
      assert copied[..n][i] == copied[i] && ranges[..n][i] == ranges[i];
    }
  }

  /**
   * The `<filename>` of layer `i`: the name `copy_files` gives the i-th
   * picked file, seen through `basename` (hdg.py:112-115, 225).
   */
  lemma InstrumentOfFilename(id: nat, root: string, picked: seq<string>, cfg: Config, i: nat)
    requires |picked| >= 2 && i < |picked|
    requires Sep !in picked[i]
    requires cfg.outputFormat.Some? ==> Sep !in cfg.outputFormat.value
    ensures |InstrumentOf(id, root, picked, cfg).layers| == |picked|
    ensures InstrumentOf(id, root, picked, cfg).layers[i].filename
            == if Converts(cfg.outputFormat) then Splitext(picked[i]).0 + [ExtSep] + cfg.outputFormat.value else picked[i]
  {
    var copied := CopiedFiles(picked, cfg.drumkitPath, cfg.outputFormat);
    InstrumentLayerAt(copied, VelocityRanges(|picked|).value, i);
    assert Basename(copied[i]) == LayerFilename(cfg.drumkitPath, picked[i], cfg.outputFormat);
    LayerFilenameRule(cfg.drumkitPath, picked[i], cfg.outputFormat);
  }

  /**
   * Layer `i` has the i-th velocity range, the one the loop of
   * hdg.py:223-227 computes from `length` and `offset` (see `RangesAt`).
   */
  lemma InstrumentOfRange(id: nat, root: string, picked: seq<string>, cfg: Config, i: nat)
    requires |picked| >= 2 && i < |picked|
    ensures |InstrumentOf(id, root, picked, cfg).layers| == |picked|
    ensures InstrumentOf(id, root, picked, cfg).layers[i].min == VelocityRanges(|picked|).value[i].min
    ensures InstrumentOf(id, root, picked, cfg).layers[i].max == VelocityRanges(|picked|).value[i].max
  {
    var copied := CopiedFiles(picked, cfg.drumkitPath, cfg.outputFormat);
    InstrumentLayerAt(copied, VelocityRanges(|picked|).value, i);
  }

  /**
   * The layers of an instrument cover the velocity scale: each is
   * `4/(3n)` wide and inside [0, 1], the first starts at 0 and the last
   * ends exactly at 1 (hdg.py:216-227).
   */
  lemma InstrumentOfRanges(id: nat, root: string, picked: seq<string>, cfg: Config)
    requires |picked| >= 2
    ensures |InstrumentOf(id, root, picked, cfg).layers| == |picked|
    ensures forall i :: 0 <= i < |picked| ==>
              InstrumentOf(id, root, picked, cfg).layers[i].max - InstrumentOf(id, root, picked, cfg).layers[i].min
                == 4.0 / (3.0 * |picked| as real)
              && 0.0 <= InstrumentOf(id, root, picked, cfg).layers[i].min
              && InstrumentOf(id, root, picked, cfg).layers[i].min < InstrumentOf(id, root, picked, cfg).layers[i].max
              && InstrumentOf(id, root, picked, cfg).layers[i].max <= 1.0
    ensures InstrumentOf(id, root, picked, cfg).layers[0].min == 0.0
    ensures InstrumentOf(id, root, picked, cfg).layers[|picked| - 1].max == 1.0
  {
    var layers := InstrumentOf(id, root, picked, cfg).layers;
    RangesWithinUnit(|picked|);
    RangesSpanUnit(|picked|);
    InstrumentOfRange(id, root, picked, cfg, 0);
    InstrumentOfRange(id, root, picked, cfg, |picked| - 1);
    forall i | 0 <= i < |picked|
      ensures layers[i].max - layers[i].min == 4.0 / (3.0 * |picked| as real)
              && 0.0 <= layers[i].min < layers[i].max <= 1.0
    {
      InstrumentOfRange(id, root, picked, cfg, i);
    }
  }

  /** Every layer of every instrument of a kit lies inside [0, 1] (hdg.py:216-227). */
  lemma RunLayersInUnit(walk: seq<WalkEntry>, cfg: Config, j: nat, i: nat)
    requires Run(walk, cfg).Success?
    requires j < |Run(walk, cfg).value.instruments| && i < |Run(walk, cfg).value.instruments[j].layers|
    ensures |Run(walk, cfg).value.instruments[j].layers| >= 2
    ensures 0.0 <= Run(walk, cfg).value.instruments[j].layers[i].min
    ensures Run(walk, cfg).value.instruments[j].layers[i].min < Run(walk, cfg).value.instruments[j].layers[i].max
    ensures Run(walk, cfg).value.instruments[j].layers[i].max <= 1.0
  {
    RunInstruments(walk, cfg);
    var dir := ProductiveDirs(PickWalk(walk, cfg))[j];
    InstrumentOfRanges(j, dir.root, dir.samples, cfg);
  }
}
