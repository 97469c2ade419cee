# Hydrogen drum kit generator: the sample-layering engine

`hdg.py` turns a tree of audio samples into a Hydrogen drum kit. In a run that succeeds, every
directory that `os.walk(samples_path, topdown=False)` lists and that still holds a sample after
picking becomes one instrument. Directories with no files, or with no file of the input format,
are skipped, and a negative `--layers` skips every directory. A directory left with exactly one
sample stops the whole run (hdg.py:217). The samples become layers, each with a velocity range, and the whole kit is written out as
`drumkit.xml`. This project
models the part of the script that decides what goes into that document:

- `pick_files`: the extension filter, the linear-interpolation thinning to at most `layers`
  samples, and the "natural order" sort by `x.rjust(longest, '0')`;
- the velocity partition of `main`: `length = (1/n)(1 + 1/3)`, `offset = (1 - length)/(n - 1)`,
  and layer `i` spanning `[i*offset, i*offset + length]`;
- the loop of `main` that walks the directories, numbers the instruments, names them and fills
  in the `LAYER`, `INSTRUMENT` and `XML` templates, and refuses to produce a kit with no instrument;
- the destination-name rule of `copy_files`: the file joined to the kit folder, with its
  extension replaced when converting, and the `basename` of that path as a layer's `<filename>`.

Modules, one per file:

- `Results` (`results.dfy`): `Option`, `Result` and the two errors of a run this model keeps.
  These are the division by zero of hdg.py:217 and the "no files found" exit of hdg.py:238. The
  other exits of hdg.py (132, 183, 195) and the failures of `copyfile` and `sox` (119-121) are
  under "## Left out".
- `PathRules` (`path_rules.dfy`): POSIX `splitext`, `join` and `basename`; `copy_files`'
  destinations; the instrument name.
- `NaturalOrder` (`natural_order.dfy`): Python's `<` on `str`, the `rjust` key, and the stable
  sort of `list.sort`.
- `Selector` (`selector.dfy`): `pick_files` and what it promises.
- `Velocity` (`velocity.dfy`): the ranges, in exact real arithmetic.
- `DrumkitXml` (`drumkit_xml.dfy`): the kit, instrument and layer records, the three templates as
  lists of fixed text pieces and placeholders, `str()` of an id, and the rendering of records to text.
- `Assembler` (`assembler.dfy`): the loop of `main`. There are specification functions
  (`PickWalk`, `Assemble`, `Run`, `RenderedRun`) and the imperative loop as methods
  (`GenerateDrumkit`, `InstrumentsText`, `DirectoryText`, `InstrumentText`, `LayersXml`). The
  methods build the text step by step, as the script does, and are proved to build exactly
  the rendering of `Run`.
- `AssemblyFacts` (`assembly_facts.dfy`): what a whole run promises. This covers which
  directories become instruments, their ids and order, when the run fails, and the shape of each
  instrument's layers.

Inputs that the script gets from its environment are parameters here:

- `walk` is the sequence of `(root, files)` pairs `os.walk` yields, with `dirs` dropped, as the
  loop never reads it;
- `cfg` holds the parsed arguments and the kit folder;
- `formatReal` stands for Python's rendering of a float inside `str.format`.

How `hdg.py` behaves at its edges, as the model states it:

- hdg.py has no single-layer case. For a directory whose pick leaves one sample, hdg.py:217
  divides by `samples - 1 == 0` and the whole run stops before any document is written. `Run`
  returns `Failure(ZeroDivision)`, and `RunAbortsOnSingleSample` proves it.
- Names are padded on the left (`rjust`, hdg.py:153), and the padded keys are compared.
- Thinning (hdg.py:144-147) happens before sorting, on the names in listing order.
- The instrument name is `root[len(samples_path):]` with each `/` turned into a space, and
  nothing else is normalised. A samples folder given without a trailing `/` leaves a leading
  space (`InstrumentNameLeadingSpace`).

Arithmetic is exact in the model. `delta`, `length`, `offset`, `min` and `max` are reals, and
the thinning index is proved equal to `(n * i) div k - 1`. `hdg.py` computes these in IEEE
doubles. Some facts hold in doubles too, and some only in exact arithmetic:

- Picks stay distinct, increasing and inside `0..n-1` in doubles too (`PickIndexInRange`,
  `PickIndexIncreasing`, `PickIndexMonotone`): each `delta * i` exceeds the one before by about
  `delta > 1`, so the floors strictly increase.
- Only in exact arithmetic is the last pick (`i = k`) the last matching name (`PickIndexLast`,
  `ThinKeepsLast`, and the last clause of `PickFilesThins`).
  - In doubles, `(15/11)*11` is `14.999999999999998`. So with 15 matching names and
    `--layers 11`, hdg.py:147 picks index 13 for `i = 11` and drops the last name.
  - Below 60 names, 42 pairs `(n, k)` behave this way, among them (15, 13), (26, 23) and (29, 25).
  - With the default cap of 16 the doubles agree with the exact model, as `n/16` and its
    multiples by `i <= 16` are exact for any realistic `n`.
- Only in exact arithmetic is the last layer's `max` 1 and no `max` above 1 (`RangesSpanUnit`,
  `RangesWithinUnit`, `InstrumentOfRanges`, `RunLayersInUnit`). In doubles the last `max` is
  `0.9999999999999999` for 13 samples and `1.0000000000000002` for 111 samples, which
  `--layers 0` allows. Below 2000 samples, 142 counts give a `max` above 1, among them 111, 112
  and 168.

## Model

| member | source | states |
|---|---|---|
| PathRules.Splitext | hdg.py:139 | `posixpath.splitext`: the extension runs from the last '.' that comes after the last '/' and is not one of the leading dots of the final component; otherwise it is empty (properties in `SplitextParts`) |
| PathRules.Extension | hdg.py:139 | `splitext(f)[-1]`, the extension part of `Splitext` (see `SplitextParts`) |
| PathRules.Join | hdg.py:112 | `posixpath.join(a, b)`: `b` when it is absolute, `a + b` when `a` is empty or ends in '/', and `a + '/' + b` otherwise (see `JoinRelative`) |
| PathRules.Basename | hdg.py:225 | `posixpath.basename`: what follows the last '/' (see `BasenameShape`) |
| PathRules.Converts | hdg.py:114-118 | `if output_format:` (hdg.py:114 and 118) is true exactly when a format is given and is not the empty string |
| PathRules.Destination | hdg.py:112-115 | the destination of one file: joined to the kit folder and, when `output_format` is truthy, its extension replaced by '.' + format |
| PathRules.LayerFilename | hdg.py:225 | `basename(file)` of a copied file, which `LayerFilenameRule` proves is the file name or its stem + '.' + format |
| PathRules.CopiedFiles | hdg.py:108-122 | the paths `copy_files` yields, one per picked file and in order |
| PathRules.InstrumentName | hdg.py:202-221 | `re.sub(sep, ' ', root[len(samples_path):])` (see `InstrumentNameOfRelativePath`) |
| PathRules.SplitextParts | hdg.py:139 | `splitext` cuts a path into stem and extension; a non-empty extension is one dot followed by neither a dot nor a separator |
| PathRules.JoinRelative | hdg.py:112 | joining a relative file name to the kit folder appends it to the folder, adding a '/' only when the folder is non-empty and does not already end in one |
| PathRules.BasenameShape | hdg.py:225 | `basename` holds no separator and is what follows the last separator of the path |
| PathRules.SplitextUnderDirectory | hdg.py:115 | splitting the extension off `dir/file` splits it off `file` alone; the folder part is never cut |
| PathRules.BasenameUnderDirectory | hdg.py:225 | the basename of `dir/file` is `file` when the file name has no separator |
| PathRules.LayerFilenameRule | hdg.py:112-115 | the `<filename>` of a copied file is the file name itself, or its stem + '.' + output format when an output format is given and not empty |
| PathRules.ConvertedName | hdg.py:115 | replacing the extension of `dir/file` and taking the basename gives `stem(file)` + '.' + format |
| PathRules.SliceFrom | hdg.py:221 | `root[n:]`: the root is its first `n` characters followed by the result, and the result is empty once `n` passes the end |
| PathRules.ReplaceSeparators | hdg.py:221 | `re.sub(sep, ' ', s)`: same length, every '/' becomes ' ', every other character is kept, and no '/' is left |
| PathRules.InstrumentNameOfRelativePath | hdg.py:221 | a root below the samples folder is named by its relative path with separators turned into spaces |
| PathRules.InstrumentNameLeadingSpace | hdg.py:221 | root `samples/kick` under folder `samples` is named `" kick"`, with a leading space |
| NaturalOrder.Below | hdg.py:153 | Python's `<` on str: code-point lexicographic, a proper prefix first (order laws in the `Below…` lemmas) |
| NaturalOrder.PadKey | hdg.py:153 | `x.rjust(width, '0')` (see `PadKeyShape`) |
| NaturalOrder.MaxLen | hdg.py:151 | `len(max(files, key=len))`, 0 for no names (see `MaxLenBounds`) |
| NaturalOrder.NaturalSort | hdg.py:149-153 | `files.sort(key=lambda x: x.rjust(length, '0'))` with `length` the longest name (see `NaturalSortCorrect`) |
| NaturalOrder.PadKeyShape | hdg.py:153 | `x.rjust(width, '0')` is `x` when it is long enough, and otherwise `x` preceded by exactly `width - len(x)` zeros |
| NaturalOrder.MaxLenBounds | hdg.py:151 | `len(max(files, key=len))`: no name is longer, some name has that length, and it is 0 for no names |
| NaturalOrder.BelowIrreflexive | hdg.py:153 | Python's `<` on str is irreflexive |
| NaturalOrder.BelowTransitive | hdg.py:153 | Python's `<` on str is transitive |
| NaturalOrder.BelowTotal | hdg.py:153 | of two different strings one is below the other |
| NaturalOrder.NotBelowTransitive | hdg.py:153 | "not below" is transitive, so the sort key induces a total preorder |
| NaturalOrder.BelowCommonPrefix | hdg.py:153 | putting a common prefix in front of two strings keeps their order |
| NaturalOrder.ShorterNameFirst | hdg.py:150-153 | after padding, a shorter name sorts before a longer one that starts above '0' ("a2" before "a10") |
| NaturalOrder.InsertByKey | hdg.py:153 | inserting a name adds exactly that name to the multiset of names |
| NaturalOrder.SortByKey | hdg.py:153 | the sort is a permutation of its input |
| NaturalOrder.InsertSorted | hdg.py:153 | inserting into a key-sorted list keeps it key-sorted |
| NaturalOrder.SortByKeySorted | hdg.py:153 | the sort's output is sorted by key |
| NaturalOrder.InsertWithKey | hdg.py:153 | inserting a name adds it in front of the names with the same key and leaves their order alone |
| NaturalOrder.SortByKeyStable | hdg.py:153 | the sort is stable: names with the same key keep their relative order |
| NaturalOrder.MaxLenPermutation | hdg.py:151 | reordering the names does not change the padding width |
| NaturalOrder.NaturalSortCorrect | hdg.py:149-153 | the natural sort returns the same names, sorted by their padded key, stably, with the width unchanged |
| Selector.FilterByExtension | hdg.py:139 | `filter(lambda f: splitext(f)[-1] == extension, files)`, in order (see `FilterByExtensionCounts`) |
| Selector.PickIndex | hdg.py:145-147 | `math.floor(delta * i) - 1` with `delta = samples / layers`, in exact arithmetic (see `PickIndexIsQuotient`) |
| Selector.Thin | hdg.py:145-147 | `[files[PickIndex(i)] for i in range(1, layers + 1)]`, empty for a negative cap (see `ThinSelects`) |
| Selector.Chosen | hdg.py:139-147 | the matching names, thinned exactly when the cap is non-zero and exceeded |
| Selector.PickFiles | hdg.py:136-154 | `pick_files`: `Chosen`, then naturally sorted when not empty (see the `PickFiles…` lemmas) |
| Selector.FilterByExtensionCounts | hdg.py:139 | the filter keeps every occurrence of a name whose `splitext` extension equals the given one exactly, and drops all others |
| Selector.PickIndexBracket | hdg.py:145-147 | with `q = floor(delta * i)`: `q * layers <= samples * i < (q + 1) * layers` |
| Selector.PickIndexIsQuotient | hdg.py:145-147 | `floor((samples / layers) * i) - 1` equals `(samples * i) div layers - 1` |
| Selector.PickIndexInRange | hdg.py:147 | for `samples > layers` and `1 <= i <= layers`, every picked index is in `0..samples-1` |
| Selector.PickIndexIncreasing | hdg.py:146-147 | consecutive picked indices strictly increase |
| Selector.PickIndexMonotone | hdg.py:146-147 | picked indices strictly increase with `i`, so no file is picked twice |
| Selector.PickIndexLast | hdg.py:146-147 | the pick for `i = layers` is index `samples - 1`, the last file |
| Selector.ThinSelects | hdg.py:144-147 | thinning yields `layers` names, the j-th at the (j+1)-th picked index; the indices are in bounds and strictly increasing, and the last name is the last file |
| Selector.ThinKeepsLast | hdg.py:146-147 | thinning yields `layers` names and ends with the last file |
| Selector.PickFilesSortsChosen | hdg.py:149-154 | the result is the natural sort of the filtered, possibly thinned list, and holds the same names |
| Selector.FilterMembers | hdg.py:139 | a name the filter keeps is an input name with exactly the given extension |
| Selector.ThinMembers | hdg.py:147 | every thinned name is one of the filtered names |
| Selector.PickFilesMatchExtension | hdg.py:139 | every returned name is an input name with exactly the given extension |
| Selector.PickFilesKeepsAll | hdg.py:141-144 | with a falsy cap or no more matching names than the cap, the result is a permutation of the matching names |
| Selector.PickFilesThins | hdg.py:144-147 | with more matching names than a positive cap, exactly `layers` names come out; they are the thinned ones, reordered, among them the last matching name in listing order |
| Selector.PickFilesNegativeCap | hdg.py:146 | a negative cap selects nothing, as `range(1, layers + 1)` is empty |
| Selector.PickFilesCount | hdg.py:141-147 | the result has `layers` names when a non-zero cap is exceeded (none when it is negative), and otherwise as many as match |
| Selector.PickFilesEmpty | hdg.py:149-154 | an empty listing gives an empty selection and no error |
| Selector.PickFilesNaturalOrder | hdg.py:150-153 | the result is sorted by `x.rjust(L, '0')`, L its longest length, and names with equal keys keep their order |
| Selector.SortedShorterFirst | hdg.py:150-153 | in a key-sorted list, a shorter name comes before a longer one that starts above '0' |
| Selector.PickFilesShorterFirst | hdg.py:150-153 | of two returned names, a shorter one comes before a longer one that starts above '0' |
| Velocity.VelocityRanges | hdg.py:216-217 | the partition exists exactly for two or more samples, has one range per sample, and otherwise fails with a division by zero |
| Velocity.LayersInterleaving | hdg.py:105 | `layers_interleaving = 1 / 3`: each layer is a third wider than the even share `1/n`, so its width is `4/(3n)` (`LayerLengthValue`); neighbours then overlap by `1/(3(n-1))` (`NeighboursOverlap`) |
| Velocity.LayerLength | hdg.py:216 | `length = (1 / samples) * (1 + layers_interleaving)`, which `LayerLengthValue` proves is `4/(3n)` |
| Velocity.LayerOffset | hdg.py:217 | `offset = (1 - length) / (samples - 1)`, which `LayerOffsetValue` proves is the step fitting `n` layers into [0, 1] |
| Velocity.LayerLengthValue | hdg.py:216 | `length = 4/(3n)`, which is positive |
| Velocity.LayerOffsetValue | hdg.py:217 | `(n - 1)` steps and one width span exactly 1, and a step is positive and shorter than the width |
| Velocity.LengthBelowOne | hdg.py:216 | for two or more samples a layer is narrower than the unit interval |
| Velocity.OffsetBelowLength | hdg.py:217 | the step is shorter than the width, so neighbouring layers overlap |
| Velocity.MinStrictlyIncreasing | hdg.py:223 | `min` strictly increases with the layer index |
| Velocity.RangesSpanUnit | hdg.py:216-227 | the first layer starts at 0 and the last ends exactly at 1 |
| Velocity.RangesWithinUnit | hdg.py:216-227 | every layer is `4/(3n)` wide, with `0 <= min < max <= 1` |
| Velocity.NeighboursOverlap | hdg.py:216-227 | each layer overlaps the next by `1/(3(n - 1))`, the interleaving of hdg.py:105 |
| DrumkitXml.Format | hdg.py:224-234 | `template.format(...)`: the template's text pieces in order, each placeholder replaced by its argument |
| DrumkitXml.LayerXml | hdg.py:88-95 | `LAYER.format(filename=…, min=…, max=…)`; `LayerTemplate` holds the text of hdg.py:88-95 with the three placeholders |
| DrumkitXml.InstrumentXml | hdg.py:45-80 | `INSTRUMENT.format(id=…, name=…, layers=…)`; `InstrumentTemplate` holds the text of hdg.py:45-80 |
| DrumkitXml.DocumentXml | hdg.py:18-37 | `XML.format(name=…, instrumentList=…)`; `DocumentTemplate` holds the text of hdg.py:18-37 |
| DrumkitXml.ConcatMap | hdg.py:220-233 | the `+=` loops: the texts of the elements one after another, empty for none (see `ConcatMapAppend`) |
| DrumkitXml.RenderLayer | hdg.py:224-227 | `LAYER.format(filename=…, min=…, max=…)` of one layer |
| DrumkitXml.RenderLayers | hdg.py:220-227 | `layers_xml`: the layers' `LAYER` texts in order (`LayersXml` is proved to build it) |
| DrumkitXml.RenderInstrument | hdg.py:228-231 | `INSTRUMENT.format(id=…, name=…, layers=…)` with `str(id)` (see `DecimalRoundTrip`) |
| DrumkitXml.RenderInstruments | hdg.py:228-233 | `instruments_xml`: the instruments' texts in order (`InstrumentsText` is proved to build it) |
| DrumkitXml.RenderDrumkit | hdg.py:234 | `XML.format(name=name, instrumentList=instruments_xml)` (`GenerateDrumkit` is proved to yield it) |
| DrumkitXml.Decimal | hdg.py:229 | `str(id)` is a non-empty string of digits without a leading zero |
| DrumkitXml.DecimalRoundTrip | hdg.py:229 | reading the rendered id back as a number gives the id |
| DrumkitXml.DecimalInjective | hdg.py:229 | distinct ids are rendered as distinct text |
| DrumkitXml.ConcatMapAppend | hdg.py:233 | the text of a concatenation of records is the concatenation of their texts |
| Assembler.InputExtension | hdg.py:197 | `input_extension = '.' + input_format` |
| Assembler.PickedFiles | hdg.py:204-207 | the samples a directory contributes: none when it lists no files, otherwise `pick_files(files, '.' + input_format, layers)` (see `PickedFilesEmptyIff`) |
| Assembler.PickWalk | hdg.py:203-207 | every directory of the walk with its picked samples, in walk order |
| Assembler.InstrumentLayers | hdg.py:220-227 | layer i is the basename of the i-th copied file with the i-th range (see `InstrumentLayerAt`) |
| Assembler.InstrumentOf | hdg.py:212-231 | the instrument of a directory with two or more samples: its id, its name, and its layers over the copied files (see `InstrumentOfFilename`, `InstrumentOfRanges`) |
| Assembler.Emitted | hdg.py:209-231 | what one directory contributes: nothing without samples, the division by zero of hdg.py:217 for one sample, otherwise its instrument |
| Assembler.Assemble | hdg.py:200-233 | the instruments of the walk, the first numbered `nextId`, skipped directories taking no id, stopping at the first failure (see `AssembleSucceedsIff`, `AssembleInstruments`) |
| Assembler.Run | hdg.py:200-238 | a whole run: the kit, or the division by zero, or "no files found" when no instrument came out (see the `Run…` lemmas) |
| Assembler.RenderedRun | hdg.py:234-243 | the text `drumkit.xml` receives, or the error that stops the run |
| Assembler.LayersXml | hdg.py:220-227 | the loop builds exactly the rendering of the instrument's layers: the basename of the i-th copied file with the i-th range |
| Assembler.LayersStep | hdg.py:224-227 | one turn of the layer loop appends exactly the next layer's text |
| Assembler.InstrumentText | hdg.py:214-231 | exactly a single sample fails, with a division by zero; otherwise the text is the rendering of the instrument with that id, its name and one layer per copied file |
| Assembler.DirectoryText | hdg.py:203-233 | one turn of the walk yields exactly what `Emitted` gives for that directory: nothing exactly when it has no sample, a failure with the same error exactly when it has one, and otherwise the `INSTRUMENT` text of its instrument; hence one step of `Assemble` |
| Assembler.InstrumentsText | hdg.py:200-233 | the loop's text is the rendering of the instruments `Assemble` yields for the walk, in walk order; the counter ends at their number; a failure is the walk's failure |
| Assembler.GenerateDrumkit | hdg.py:197-238 | `main` yields exactly the rendering of `Run`: the document, or the division by zero, or "no files found" when no instrument came out |
| AssemblyFacts.PickedFilesEmptyIff | hdg.py:204-211 | a directory yields no sample exactly when none of its files has the input extension or the cap is negative |
| AssemblyFacts.ProductiveDirsMembers | hdg.py:203-211 | the directories kept are directories of the walk, each with samples |
| AssemblyFacts.ProductiveDirsEmptyIff | hdg.py:204-211 | no directory is kept exactly when no directory has samples |
| AssemblyFacts.AssembleSucceedsIff | hdg.py:209-217 | the walk gets through exactly when every directory with samples has at least two, and otherwise fails only by a division by zero |
| AssemblyFacts.AssembleLength | hdg.py:228-233 | a walk that gets through yields one instrument per kept directory |
| AssemblyFacts.AssembleNth | hdg.py:228-232 | the j-th instrument comes from the j-th kept directory, which has at least two samples, and is numbered `nextId + j` |
| AssemblyFacts.AssembleInstruments | hdg.py:200-233 | one instrument per directory with samples, in walk order, numbered consecutively; skipped directories take no id |
| AssemblyFacts.AssembleNothingIff | hdg.py:236-238 | the walk yields no instrument exactly when it keeps no directory |
| AssemblyFacts.PickWalkNothingIff | hdg.py:204-211 | a walk keeps no directory exactly when no directory keeps a sample |
| AssemblyFacts.RunNoFilesFound | hdg.py:236-238 | the run ends with "no files found" exactly when no directory of the walk keeps a sample |
| AssemblyFacts.RunErrors | hdg.py:216-238 | a run fails only by a division by zero or by finding nothing |
| AssemblyFacts.RunInstruments | hdg.py:200-233 | a kit carries the given name and at least one instrument; instrument j has id j and is built from the j-th directory with samples, which has at least two |
| AssemblyFacts.RunAbortsOnSingleSample | hdg.py:217 | any directory left with exactly one sample makes the whole run fail with a division by zero |
| AssemblyFacts.SingleSampleKept | hdg.py:209-217 | a directory with a single sample leaves a kept directory with fewer than two samples |
| AssemblyFacts.LayerCapOneFails | hdg.py:141-217 | with `--layers 1`, any directory with a matching file makes the run fail with a division by zero |
| AssemblyFacts.InstrumentLayerAt | hdg.py:222-227 | layer i pairs the basename of the i-th copied file with the i-th range |
| AssemblyFacts.InstrumentOfFilename | hdg.py:112-115 | layer i's `<filename>` is the i-th picked name, or its stem + '.' + output format when converting |
| AssemblyFacts.InstrumentOfRange | hdg.py:222-227 | layer i has the i-th velocity range |
| AssemblyFacts.InstrumentOfRanges | hdg.py:216-227 | an instrument's layers are each `4/(3n)` wide and inside [0, 1]; the first starts at 0 and the last ends exactly at 1 |
| AssemblyFacts.RunLayersInUnit | hdg.py:216-227 | every layer of every instrument of a kit has `0 <= min < max <= 1`, and every instrument has at least two layers |

## Left out

- Argument parsing (hdg.py:157-177): the parsed values are the fields of `Config`. `layers` is
  an `int` whose falsy value is 0; `argparse`'s default of 16 and a missing value are not modelled.
- The Hydrogen folder discovery and its platform test (hdg.py:97-103, 182-183), and
  `get_drumkit_path` with `makedirs` (hdg.py:125-133). The kit folder is `Config.drumkitPath`.
- The `shutil.which('sox')` check (hdg.py:194-195), the `exists` test, `copyfile` and the `sox`
  call of `copy_files` (hdg.py:116-121). These are filesystem and subprocess effects. Only the
  destination path each file gets is modelled (`CopiedFiles`), so files already copied before
  a run stops are not tracked. An `OSError` from `copyfile` or a `CalledProcessError` from
  `sox` (hdg.py:119-121) ends the run partway through the walk, with earlier kit files already
  copied and no document written; the model has no error for this.
- The other exits of hdg.py: Hydrogen data not found (hdg.py:183), the kit folder that cannot
  be created (hdg.py:132) and `sox` not found (hdg.py:195). They happen before the walk and are
  not errors of the model.
- `copy_files` is a generator that the layer loop consumes lazily. Its copies interleave with
  building the layer text. The model takes the list of destinations at once, which gives the
  same text.
- The `os.walk` traversal itself (hdg.py:203): its output is the `walk` parameter.
- Writing `drumkit.xml` and the progress messages (hdg.py:111, 240-244). `GenerateDrumkit`
  returns the text instead.
- Floating-point behaviour: `length`, `offset`, `min` and `max` are exact reals, and the
  thinning index is exact integer division. Doubles already differ at small counts, as listed
  above.
- Selector.PickIndexLast: a fact of the exact model. In doubles the last pick can be `n - 2`,
  e.g. 15 names with `--layers 11`.
- Selector.ThinKeepsLast: a fact of the exact model, for the same reason.
- Selector.PickFilesThins: its last clause (the last matching name is kept) is a fact of the
  exact model, for the same reason.
- Velocity.RangesSpanUnit: a fact of the exact model. In doubles the last `max` is
  `0.9999999999999999` for 13 samples and `1.0000000000000002` for 111.
- Velocity.RangesWithinUnit: its `max <= 1` is a fact of the exact model. In doubles the last
  `max` exceeds 1 for 111, 112, 168 and 139 more counts below 2000.
- AssemblyFacts.InstrumentOfRanges: its `max <= 1` and its last `max == 1` are facts of the
  exact model, for the same reason.
- AssemblyFacts.RunLayersInUnit: its `max <= 1` is a fact of the exact model, for the same reason.
- Python's rendering of a float in `str.format` (hdg.py:226-227) is the parameter `formatReal`.
- `files.sort` sorts the list in place. The model sorts a value with a stable insertion sort,
  which gives the same order as Python's stable sort; the mutation itself is not modelled.
- The loop of `main` (hdg.py:200-233) is written as `InstrumentsText`, calling
  `DirectoryText`, `InstrumentText` and `LayersXml` for one turn of each nested loop. They run
  in the same order and update the same text.
- The separator is '/'. The regular expression `re.sub(sep, ...)` with a Windows backslash
  separator is not modelled.
- `DrumkitXml.Format` renders a placeholder without an argument as empty text. The three
  templates never have one.
