/**
 * The drum kit document: the records the generator fills in and the fixed
 * `XML`, `INSTRUMENT` and `LAYER` templates (hdg.py:18-95) it formats them
 * with. Numbers for `min`/`max` are rendered by a caller-supplied function,
 * standing in for Python's float formatting.
 */
module DrumkitXml {

  datatype Layer = Layer(filename: string, min: real, max: real)
  datatype Instrument = Instrument(id: nat, name: string, layers: seq<Layer>)
  datatype Drumkit = Drumkit(name: string, instruments: seq<Instrument>)

  // ---------------------------------------------------------------------
  // `str(n)` for the instrument id

  function DigitChar(d: nat): (c: char)
    requires d < 10
    ensures '0' <= c <= '9'
  {
    ('0' as int + d) as char
  }

  predicate IsDigits(s: string)
  {
    forall i :: 0 <= i < |s| ==> '0' <= s[i] <= '9'
  }

  /** The decimal digits of `n`, without leading zeros. */
  function Decimal(n: nat): (s: string)
    ensures |s| >= 1 && IsDigits(s)
    ensures |s| > 1 ==> s[0] != '0'
  {
    if n < 10 then [DigitChar(n)] else Decimal(n / 10) + [DigitChar(n % 10)]
  }

  /** The number a string of decimal digits denotes. */
  function DecimalValue(s: string): nat
    requires IsDigits(s)
  {
    if s == [] then 0
    else DecimalValue(s[..|s| - 1]) * 10 + (s[|s| - 1] as int - '0' as int)
  }

  /** Reading the id back from the document gives the id. */
  lemma {:induction false} DecimalRoundTrip(n: nat)
    ensures DecimalValue(Decimal(n)) == n
  {
    if n >= 10 {
      var s := Decimal(n);
      assert s[..|s| - 1] == Decimal(n / 10);
      DecimalRoundTrip(n / 10);
    }
  }

  /** Distinct ids appear as distinct text. */
  lemma DecimalInjective(m: nat, n: nat)
    requires Decimal(m) == Decimal(n)
    ensures m == n
  {
    DecimalRoundTrip(m);
    DecimalRoundTrip(n);
  }

  // ---------------------------------------------------------------------
  // The templates of hdg.py:18-95, with their placeholders as parameters

  /** A piece of a template: literal text, or the placeholder filled by argument `index`. */
  datatype Piece = Text(text: string) | Hole(index: nat)

  /** `template.format(...)` with the placeholders numbered in argument order. */
  function Format(template: seq<Piece>, args: seq<string>): string
  {
    if template == [] then []
    else
      var last := template[|template| - 1];
      Format(template[..|template| - 1], args)
      + match last
        case Text(text) => text
        case Hole(k) => if k < |args| then args[k] else []
  }

  /** `LAYER` (hdg.py:88-95): filename, min, max. */
  const LayerTemplate: seq<Piece> := [
    Text("<layer>\n"),
    Text("\t<filename>"), Hole(0), Text("</filename>\n"),
    Text("\t<min>"), Hole(1), Text("</min>\n"),
    Text("\t<max>"), Hole(2), Text("</max>\n"),
    Text("\t<gain>1</gain>\n"),
    Text("\t<pitch>0</pitch>\n"),
    Text("</layer>\n")]

  /** `INSTRUMENT` (hdg.py:45-80): id, name, layers. */
  const InstrumentTemplate: seq<Piece> := [
    Text("<instrument>\n"),
    Text("\t<id>"), Hole(0), Text("</id>\n"),
    Text("\t<name>"), Hole(1), Text("</name>\n"),
    Text("\t<volume>1</volume>\n"),
    Text("\t<isMuted>false</isMuted>\n"),
    Text("\t<pan_L>1</pan_L>\n"),
    Text("\t<pan_R>1</pan_R>\n"),
    Text("\t<randomPitchFactor>0</randomPitchFactor>\n"),
    Text("\t<gain>1</gain>\n"),
    Text("\t<applyVelocity>true</applyVelocity>\n"),
    Text("\t<filterActive>false</filterActive>\n"),
    Text("\t<filterCutoff>1</filterCutoff>\n"),
    Text("\t<filterResonance>0</filterResonance>\n"),
    Text("\t<Attack>0</Attack>\n"),
    Text("\t<Decay>0</Decay>\n"),
    Text("\t<Sustain>1</Sustain>\n"),
    Text("\t<Release>1000</Release>\n"),
    Text("\t<muteGroup>-1</muteGroup>\n"),
    Text("\t<midiOutChannel>-1</midiOutChannel>\n"),
    Text("\t<midiOutNote>60</midiOutNote>\n"),
    Text("\t<isStopNote>false</isStopNote>\n"),
    Text("\t<sampleSelectionAlgo>VELOCITY</sampleSelectionAlgo>\n"),
    Text("\t<isHihat>-1</isHihat>\n"),
    Text("\t<lower_cc>0</lower_cc>\n"),
    Text("\t<higher_cc>127</higher_cc>\n"),
    Text("\t<FX1Level>0</FX1Level>\n"),
    Text("\t<FX2Level>0</FX2Level>\n"),
    Text("\t<FX3Level>0</FX3Level>\n"),
    Text("\t<FX4Level>0</FX4Level>\n"),
    Text("\t<instrumentComponent>\n"),
    Text("\t\t<component_id>0</component_id>\n"),
    Text("\t\t<gain>1</gain>\n"),
    Text("\t\t"), Hole(2), Text("\n"),
    Text("\t</instrumentComponent>\n"),
    Text("</instrument>\n")]

  /** `XML` (hdg.py:18-37): name, instrumentList. */
  const DocumentTemplate: seq<Piece> := [
    Text("<?xml version=\"1.0\" encoding=\"UTF-8\"?>\n"),
    Text("<drumkit_info xmlns=\"http://www.hydrogen-music.org/drumkit\" xmlns:xsi=\"http://www.w3.org/2001/XMLSchema-instance\">\n"),
    Text("\t<name>"), Hole(0), Text("</name>\n"),
    Text("\t<author></author>\n"),
    Text("\t<info></info>\n"),
    Text("\t<license>undefined license</license>\n"),
    Text("\t<image></image>\n"),
    Text("\t<imageLicense>undefined license</imageLicense>\n"),
    Text("\t<componentList>\n"),
    Text("\t\t<drumkitComponent>\n"),
    Text("\t\t\t<id>0</id>\n"),
    Text("\t\t\t<name>Main</name>\n"),
    Text("\t\t\t<volume>1</volume>\n"),
    Text("\t\t</drumkitComponent>\n"),
    Text("\t</componentList>\n"),
    Text("\t<instrumentList>\n"),
    Hole(1), Text("\n"),
    Text("\t</instrumentList>\n"),
    Text("</drumkit_info>\n")]

  /** `LAYER.format(filename=..., min=..., max=...)` (hdg.py:224-227). */
  function LayerXml(filename: string, min: string, max: string): string
  {
    Format(LayerTemplate, [filename, min, max])
  }

  /** `INSTRUMENT.format(id=..., name=..., layers=...)` (hdg.py:228-231). */
  function InstrumentXml(id: string, name: string, layers: string): string
  {
    Format(InstrumentTemplate, [id, name, layers])
  }

  /** `XML.format(name=..., instrumentList=...)` (hdg.py:234). */
  function DocumentXml(name: string, instrumentList: string): string
  {
    Format(DocumentTemplate, [name, instrumentList])
  }

  // ---------------------------------------------------------------------
  // Rendering the records

  /** The texts of the elements of `s` one after another: the `+=` loops of hdg.py:224 and 233. */
  function ConcatMap<T>(s: seq<T>, render: T -> string): string
  {
    if s == [] then [] else ConcatMap(s[..|s| - 1], render) + render(s[|s| - 1])
  }

  function RenderLayer(layer: Layer, formatReal: real -> string): string
  {
    LayerXml(layer.filename, formatReal(layer.min), formatReal(layer.max))
  }

  function RenderLayers(layers: seq<Layer>, formatReal: real -> string): string
  {
    ConcatMap(layers, layer => RenderLayer(layer, formatReal))
  }

  function RenderInstrument(instrument: Instrument, formatReal: real -> string): string
  {
    InstrumentXml(Decimal(instrument.id), instrument.name, RenderLayers(instrument.layers, formatReal))
  }

  function RenderInstruments(instruments: seq<Instrument>, formatReal: real -> string): string
  {
    ConcatMap(instruments, instrument => RenderInstrument(instrument, formatReal))
  }

  function RenderDrumkit(kit: Drumkit, formatReal: real -> string): string
  {
    DocumentXml(kit.name, RenderInstruments(kit.instruments, formatReal))
  }

  /**
   * The document lists the instruments in order: rendering a concatenation
   * concatenates the renderings, for layers and instruments alike.
   */
  lemma {:induction false} ConcatMapAppend<T>(a: seq<T>, b: seq<T>, render: T -> string)
    ensures ConcatMap(a + b, render) == ConcatMap(a, render) + ConcatMap(b, render)
    decreases |b|
  {
    if b == [] {
      assert a + b == a;
    } else {
      assert (a + b)[..|a + b| - 1] == a + b[..|b| - 1];
      ConcatMapAppend(a, b[..|b| - 1], render);
    }
  }

  /** Each instrument's text is exactly its own rendering, in list order. */
  lemma {:induction false} ConcatMapOne<T>(x: T, render: T -> string)
    ensures ConcatMap([x], render) == render(x)
  {
    assert [x][..0] == [];
  }

  /** One more layer appends its `LAYER` text (hdg.py:224). */
  lemma RenderLayersSnoc(layers: seq<Layer>, layer: Layer, formatReal: real -> string)
    ensures RenderLayers(layers + [layer], formatReal) == RenderLayers(layers, formatReal) + RenderLayer(layer, formatReal)
  {
    assert (layers + [layer])[..|layers|] == layers;
  }

  /** One more instrument appends its `INSTRUMENT` text (hdg.py:233). */
  lemma RenderInstrumentsSnoc(instruments: seq<Instrument>, instrument: Instrument, formatReal: real -> string)
    ensures RenderInstruments(instruments + [instrument], formatReal)
            == RenderInstruments(instruments, formatReal) + RenderInstrument(instrument, formatReal)
  {
    assert (instruments + [instrument])[..|instruments|] == instruments;
  }
}
