/**
 * The instrument assembler of `main` (hdg.py:197-238): one instrument per
 * directory of the walk that has samples left after picking, numbered in
 * walk order, each layer paired with its velocity range, and the document
 * refused when no instrument came out.
 */
module Assembler {
  import opened Results
  import opened PathRules
  import opened Selector
  import opened Velocity
  import opened DrumkitXml

  /** The command-line settings the loop reads (hdg.py:186-191). */
  datatype Config = Config(
    kitName: string,                 // args.name
    samplesPath: string,             // args.folder
    drumkitPath: string,             // the kit folder of get_drumkit_path
    inputFormat: string,             // args.input_format
    layers: int,                     // args.layers; 0 is falsy
    outputFormat: Option<string>)    // args.output_format

  /** One `(root, files)` pair as `os.walk(samples_path, topdown=False)` yields it. */
  datatype WalkEntry = WalkEntry(root: string, files: seq<string>)

  /** `input_extension = '.' + input_format` (hdg.py:197). */
  function InputExtension(cfg: Config): string
  {
    [ExtSep] + cfg.inputFormat
  }

  /** The samples a directory contributes (hdg.py:204-207): none when it has no files. */
  function PickedFiles(entry: WalkEntry, cfg: Config): seq<string>
  {
    if entry.files == [] then [] else PickFiles(entry.files, InputExtension(cfg), cfg.layers)
  }

  /** A directory after picking: its root and the samples it keeps. */
  datatype Picked = Picked(root: string, samples: seq<string>)

  /** Every directory of the walk after picking, in walk order (hdg.py:203-207). */
  function PickWalk(walk: seq<WalkEntry>, cfg: Config): seq<Picked>
  {
    seq(|walk|, k requires 0 <= k < |walk| => Picked(walk[k].root, PickedFiles(walk[k], cfg)))
  }

  /** The layers of one instrument: the i-th copied file with the i-th range (hdg.py:220-227). */
  function InstrumentLayers(copied: seq<string>, ranges: seq<Range>): seq<Layer>
    requires |ranges| == |copied|
  {
    if copied == [] then []
    else
      var n := |copied| - 1;
      InstrumentLayers(copied[..n], ranges[..n]) + [Layer(Basename(copied[n]), ranges[n].min, ranges[n].max)]
  }

  /** The instrument a directory with at least two picked samples becomes (hdg.py:212-231). */
  function InstrumentOf(id: nat, root: string, picked: seq<string>, cfg: Config): Instrument
    requires |picked| >= 2
  {
    var copied := CopiedFiles(picked, cfg.drumkitPath, cfg.outputFormat);
    Instrument(id, InstrumentName(root, cfg.samplesPath), InstrumentLayers(copied, VelocityRanges(|picked|).value))
  }

  /**
   * What one directory contributes: nothing when no sample is left, the
   * division by zero of hdg.py:217 for a single sample, and otherwise its
   * instrument.
   */
  function Emitted(id: nat, dir: Picked, cfg: Config): Result<Option<Instrument>>
  {
    if dir.samples == [] then Success(None)
    else if |dir.samples| == 1 then Failure(ZeroDivision)
    else Success(Some(InstrumentOf(id, dir.root, dir.samples, cfg)))
  }

  /** `prefix` in front of a successful list; a failure stays a failure. */
  function Prepend(prefix: seq<Instrument>, r: Result<seq<Instrument>>): Result<seq<Instrument>>
  {
    match r
    case Success(rest) => Success(prefix + rest)
    case Failure(e) => Failure(e)
  }

  /**
   * The instruments the picked directories produce, the first one numbered
   * `nextId`; directories without samples are skipped and take no id.
   */
  function Assemble(dirs: seq<Picked>, cfg: Config, nextId: nat): Result<seq<Instrument>>
    decreases |dirs|
  {
    if dirs == [] then Success([])
    else
      match Emitted(nextId, dirs[0], cfg)
      case Failure(e) => Failure(e)
      case Success(None) => Assemble(dirs[1..], cfg, nextId)
      case Success(Some(instrument)) => Prepend([instrument], Assemble(dirs[1..], cfg, nextId + 1))
  }

  /** A whole run: the kit, or the error that stops it (hdg.py:200-238). */
  function Run(walk: seq<WalkEntry>, cfg: Config): Result<Drumkit>
  {
    match Assemble(PickWalk(walk, cfg), cfg, 0)
    case Failure(e) => Failure(e)
    case Success(instruments) =>
      if |instruments| == 0 then Failure(NoFilesFound) else Success(Drumkit(cfg.kitName, instruments))
  }

  /** The text `drumkit.xml` receives, or the error. */
  function RenderedRun(walk: seq<WalkEntry>, cfg: Config, formatReal: real -> string): Result<string>
  {
    match Run(walk, cfg)
    case Failure(e) => Failure(e)
    case Success(kit) => Success(RenderDrumkit(kit, formatReal))
  }

  /** The picked directories that have samples left, in walk order. */
  function ProductiveDirs(dirs: seq<Picked>): seq<Picked>
    decreases |dirs|
  {
    if dirs == [] then []
    else (if dirs[0].samples != [] then [dirs[0]] else []) + ProductiveDirs(dirs[1..])
  }

  // ---------------------------------------------------------------------
  // One step of the walk, as the loop below takes it

  /** `Assemble` on a non-empty list, by what its first directory yields. */
  lemma AssembleHead(dirs: seq<Picked>, cfg: Config, nextId: nat)
    requires dirs != []
    ensures Assemble(dirs, cfg, nextId)
            == match Emitted(nextId, dirs[0], cfg)
               case Failure(e) => Failure(e)
               case Success(None) => Assemble(dirs[1..], cfg, nextId)
               case Success(Some(instrument)) => Prepend([instrument], Assemble(dirs[1..], cfg, nextId + 1))
  {
  }

  lemma AssembleAt(dirs: seq<Picked>, k: nat, cfg: Config, nextId: nat)
    requires k < |dirs|
    ensures Assemble(dirs[k..], cfg, nextId)
            == match Emitted(nextId, dirs[k], cfg)
               case Failure(e) => Failure(e)
               case Success(None) => Assemble(dirs[k + 1..], cfg, nextId)
               case Success(Some(instrument)) => Prepend([instrument], Assemble(dirs[k + 1..], cfg, nextId + 1))
  {
    var rest := dirs[k..];
    assert rest[0] == dirs[k] && rest[1..] == dirs[k + 1..];
    AssembleHead(rest, cfg, nextId);
  }

  lemma PrependNothing(r: Result<seq<Instrument>>)
    ensures Prepend([], r) == r
  {
    if r.Success? {
      assert [] + r.value == r.value;
    }
  }

  lemma PrependTwice(a: seq<Instrument>, b: seq<Instrument>, r: Result<seq<Instrument>>)
    ensures Prepend(a, Prepend(b, r)) == Prepend(a + b, r)
  {
    if r.Success? {
      assert a + (b + r.value) == (a + b) + r.value;
    }
  }

  // ---------------------------------------------------------------------
  // The loop of main

  /**
   * The inner loop of hdg.py:220-227: one `LAYER` text per copied file,
   * layer `i` from `i * offset` to `i * offset + length`.
   */
  method LayersXml(files: seq<string>, length: real, offset: real, formatReal: real -> string, ghost ranges: seq<Range>)
    returns (layersXml: string)
    requires |ranges| == |files|
    requires forall i :: 0 <= i < |ranges| ==> ranges[i] == Range(i as real * offset, i as real * offset + length)
    ensures layersXml == RenderLayers(InstrumentLayers(files, ranges), formatReal)
  {
    layersXml := "";
    for i := 0 to |files|
      invariant layersXml == RenderLayers(InstrumentLayers(files[..i], ranges[..i]), formatReal)
    {
      var min := i as real * offset;
      LayersStep(files, ranges, i, formatReal, min, min + length);
      layersXml := layersXml + LayerXml(Basename(files[i]), formatReal(min), formatReal(min + length));
    }
    assert files[..|files|] == files && ranges[..|files|] == ranges;
  }

  /** One turn of the loop of `LayersXml`: layer `i` appends its text. */
  lemma LayersStep(files: seq<string>, ranges: seq<Range>, i: nat, formatReal: real -> string, min: real, max: real)
    requires |ranges| == |files| && i < |files| && ranges[i] == Range(min, max)
    ensures RenderLayers(InstrumentLayers(files[..i + 1], ranges[..i + 1]), formatReal)
            == RenderLayers(InstrumentLayers(files[..i], ranges[..i]), formatReal)
               + LayerXml(Basename(files[i]), formatReal(min), formatReal(max))
  {
    assert files[..i + 1][..i] == files[..i] && ranges[..i + 1][..i] == ranges[..i];
    var layer := Layer(Basename(files[i]), min, max);
    assert InstrumentLayers(files[..i + 1], ranges[..i + 1]) == InstrumentLayers(files[..i], ranges[..i]) + [layer];
    RenderLayersSnoc(InstrumentLayers(files[..i], ranges[..i]), layer, formatReal);
  }

  /**
   * The body of hdg.py:214-231 for one directory whose copied samples are
   * `copied`: the two divisions, the instrument name and the `INSTRUMENT`
   * text, or the division by zero that a single sample causes.
   */
  method InstrumentText(root: string, copied: seq<string>, instrumentId: nat, cfg: Config, formatReal: real -> string)
    returns (r: Result<string>)
    requires copied != []
    ensures r.Failure? <==> |copied| == 1
    ensures r.Failure? ==> r.error == ZeroDivision
    ensures r.Success? ==> |copied| >= 2 && r.value == RenderInstrument(
              Instrument(instrumentId, InstrumentName(root, cfg.samplesPath),
                         InstrumentLayers(copied, VelocityRanges(|copied|).value)), formatReal)
  {
    var samples := |copied|;
    var length := (1.0 / samples as real) * (1.0 + LayersInterleaving);
    if samples - 1 == 0 {
      return Failure(ZeroDivision);
    }
    var offset := (1.0 - length) / ((samples - 1) as real);
    var instrumentName := ReplaceSeparators(SliceFrom(root, |cfg.samplesPath|));
    RangesAt(samples, length, offset);
    var layersXml := LayersXml(copied, length, offset, formatReal, VelocityRanges(samples).value);
    r := Success(InstrumentXml(Decimal(instrumentId), instrumentName, layersXml));
  }

  /**
   * One turn of the loop of hdg.py:200-235 for the directory `walk[k]`:
   * exactly what `Emitted` says that directory contributes (nothing, the
   * failure a single sample causes, or its instrument), the instrument
   * rendered as its `INSTRUMENT` text; and so one step of `Assemble`.
   */
  method DirectoryText(walk: seq<WalkEntry>, k: nat, instrumentId: nat, cfg: Config, formatReal: real -> string)
    returns (text: Result<Option<string>>, ghost instrument: Instrument)
    requires k < |walk|
    ensures text.Failure? <==> Emitted(instrumentId, PickWalk(walk, cfg)[k], cfg).Failure?
    ensures text.Failure? ==> text.error == Emitted(instrumentId, PickWalk(walk, cfg)[k], cfg).error
    ensures text == Success(None) <==> Emitted(instrumentId, PickWalk(walk, cfg)[k], cfg) == Success(None)
    ensures text.Success? && text.value.Some? ==>
              Emitted(instrumentId, PickWalk(walk, cfg)[k], cfg) == Success(Some(instrument))
              && text.value.value == RenderInstrument(instrument, formatReal)
    ensures var dirs := PickWalk(walk, cfg);
            match text
            case Failure(e) => Assemble(dirs[k..], cfg, instrumentId) == Failure(e)
            case Success(None) => Assemble(dirs[k..], cfg, instrumentId) == Assemble(dirs[k + 1..], cfg, instrumentId)
            case Success(Some(t)) =>
              Assemble(dirs[k..], cfg, instrumentId) == Prepend([instrument], Assemble(dirs[k + 1..], cfg, instrumentId + 1))
              && t == RenderInstrument(instrument, formatReal)
  {
    ghost var dirs := PickWalk(walk, cfg);
    AssembleAt(dirs, k, cfg, instrumentId);
    var root, files := walk[k].root, walk[k].files;
    instrument := Instrument(instrumentId, [], []);
    if files == [] {
      return Success(None), instrument;
    }
    files := PickFiles(files, InputExtension(cfg), cfg.layers);
    assert dirs[k] == Picked(root, files);
    if |files| == 0 {
      return Success(None), instrument;
    }
    var copied := CopiedFiles(files, cfg.drumkitPath, cfg.outputFormat);
    var xml := InstrumentText(root, copied, instrumentId, cfg, formatReal);
    if xml.Failure? {
      return Failure(xml.error), instrument;
    }
    instrument := InstrumentOf(instrumentId, root, files, cfg);
    text := Success(Some(xml.value));
  }

  /**
   * The loop of hdg.py:200-235: the `INSTRUMENT` texts of the walk one after
   * another, as the source builds them string by string, together with
   * the ghost list of records that text renders.
   */
  method InstrumentsText(walk: seq<WalkEntry>, cfg: Config, formatReal: real -> string)
    returns (r: Result<string>, instrumentId: nat, ghost emitted: seq<Instrument>)
    ensures r.Failure? ==> Assemble(PickWalk(walk, cfg), cfg, 0) == Failure(r.error)
    ensures r.Success? ==> Assemble(PickWalk(walk, cfg), cfg, 0) == Success(emitted)
                           && r.value == RenderInstruments(emitted, formatReal)
    ensures r.Success? ==> instrumentId == |emitted|
  {
    instrumentId := 0;
    var instrumentsXml := "";
    emitted := [];
    ghost var dirs := PickWalk(walk, cfg);
    assert dirs[0..] == dirs;
    PrependNothing(Assemble(dirs, cfg, 0));
    for k := 0 to |walk|
      invariant instrumentId == |emitted|
      invariant instrumentsXml == RenderInstruments(emitted, formatReal)
      invariant Assemble(dirs, cfg, 0) == Prepend(emitted, Assemble(dirs[k..], cfg, instrumentId))
    {
      var text, instrument := DirectoryText(walk, k, instrumentId, cfg, formatReal);
      if text.Failure? {
        return Failure(text.error), instrumentId, emitted;
      }
      if text.value.Some? {
        PrependTwice(emitted, [instrument], Assemble(dirs[k + 1..], cfg, instrumentId + 1));
        instrumentsXml := instrumentsXml + text.value.value;
        RenderInstrumentsSnoc(emitted, instrument, formatReal);
        emitted := emitted + [instrument];
        instrumentId := instrumentId + 1;
      }
    }
    assert dirs[|walk|..] == [];
    assert emitted + [] == emitted;
    r := Success(instrumentsXml);
  }

  /**
   * `main` from hdg.py:197-238: the document `drumkit.xml` receives, or the
   * error that stops the run, no instrument at all among them.
   */
  method GenerateDrumkit(walk: seq<WalkEntry>, cfg: Config, formatReal: real -> string)
    returns (result: Result<string>)
    ensures result == RenderedRun(walk, cfg, formatReal)
  {
    var instruments, instrumentId, emitted := InstrumentsText(walk, cfg, formatReal);
    if instruments.Failure? {
      return Failure(instruments.error);
    }
    var xml := DocumentXml(cfg.kitName, instruments.value);
    if instrumentId == 0 {
      return Failure(NoFilesFound);
    }
    result := Success(xml);
  }
}
