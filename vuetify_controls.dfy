/** The control panels of `src/controls.py`: wavelength and spectral-band
    lists edited in place through sliders, an active selection reported
    sorted, and the optics and detector parameter panels. */
module VuetifyControls {
  import opened Handlers
  import opened PyList
  import opened Formatting
  import opened SpectralBand

  const SliderStep: real := 0.1

  predicate Ascending(s: seq<int>)
  {
    forall i, j :: 0 <= i < j < |s| ==> s[i] <= s[j]
  }

  /** `x` put into the ascending list `s` before the first larger entry. */
  function Insert(x: int, s: seq<int>): (r: seq<int>)
    requires Ascending(s)
    ensures Ascending(r) && multiset(r) == multiset(s) + multiset{x}
    ensures |r| == |s| + 1 && r[0] == if s == [] || x <= s[0] then x else s[0]
    decreases |s|
  {
    if s == [] || x <= s[0] then [x] + s
    else
      assert s == [s[0]] + s[1..];
      var rest := Insert(x, s[1..]);
      assert forall j :: 0 <= j < |rest| ==> s[0] <= rest[0] <= rest[j];
      [s[0]] + rest
  }

  /** Python's `sorted` on a list of integers: the same entries, ascending. */
  function Sorted(s: seq<int>): (r: seq<int>)
    ensures Ascending(r) && multiset(r) == multiset(s)
    decreases |s|
  {
    if s == [] then []
    else
      assert s == [s[0]] + s[1..];
      Insert(s[0], Sorted(s[1..]))
  }

  /** An ascending list is determined by its entries. */
  lemma {:induction false} AscendingUnique(a: seq<int>, b: seq<int>)
    requires Ascending(a) && Ascending(b) && multiset(a) == multiset(b)
    ensures a == b
    decreases |a|
  {
    if a != [] {
      assert a[0] in multiset(b);
      assert b != [];
      assert b[0] in multiset(a);
      assert a[0] == b[0] by {
        var i :| 0 <= i < |b| && b[i] == a[0];
        var j :| 0 <= j < |a| && a[j] == b[0];
        assert b[0] <= b[i] && a[0] <= a[j];
      }
      assert a == [a[0]] + a[1..] && b == [b[0]] + b[1..];
      assert multiset(a) == multiset{a[0]} + multiset(a[1..]);
      assert multiset(b) == multiset{b[0]} + multiset(b[1..]);
      assert multiset(a[1..]) == multiset(a) - multiset{a[0]};
      assert multiset(b[1..]) == multiset(b) - multiset{b[0]};
      AscendingUnique(a[1..], b[1..]);
    }
  }

  /** `sorted(s)` is the one ascending arrangement of the entries of `s`. */
  lemma SortedIsTheSortedPermutation(s: seq<int>, r: seq<int>)
    requires Ascending(r) && multiset(r) == multiset(s)
    ensures r == Sorted(s)
  {
    AscendingUnique(r, Sorted(s));
  }

  /** A float slider as the panels build it: its title, value, bounds,
      step and the list entry its observer updates. */
  datatype Slider<V> = Slider(title: string, value: V, min: real, max: real, step: real, observer: nat)

  function WavelengthLabel(i: nat): string
  {
    Numbered("Wavelength #", i + 1, " (\U{00B5}m)")
  }

  function BandLabel(i: nat): string
  {
    Numbered("Band #", i + 1, " (\U{00B5}m)")
  }

  /** Slider labels number the entries from 1, so no two sliders of a
      panel share a label. */
  lemma WavelengthLabelInjective(i: nat, j: nat)
    requires WavelengthLabel(i) == WavelengthLabel(j)
    ensures i == j
  {
    NumberedInjective("Wavelength #", i + 1, j + 1, " (\U{00B5}m)");
  }

  lemma BandLabelInjective(i: nat, j: nat)
    requires BandLabel(i) == BandLabel(j)
    ensures i == j
  {
    NumberedInjective("Band #", i + 1, j + 1, " (\U{00B5}m)");
  }

  /** The default slider limits of the wavelength and band panels (the
      default `lambda_max` is the integer 30). */
  const DefaultLambdaMin: real := 0.2
  const DefaultLambdaMax: real := 30.0

  /** The default lists of the wavelength and band panels. */
  const DefaultWavelengths: seq<real> := [3.0, 5.0]
  const DefaultSpectralBands: seq<Band> := [(3.0, 5.0)]

  /** The default list objects of the two panels' `__init__`. Python
      evaluates each default list once, when its `def` runs, so every panel
      built without `xlambda` (or without `spectral_bands`) holds the same
      list object: such a panel is built on `defaults.xlambda` (or
      `defaults.spectralBands`). */
  class DefaultArguments {
    const xlambda: ListRef<real>
    const spectralBands: ListRef<Band>

    constructor ()
      ensures fresh(xlambda) && xlambda.items == DefaultWavelengths
      ensures fresh(spectralBands) && spectralBands.items == DefaultSpectralBands
    {
      xlambda := new ListRef(DefaultWavelengths);
      spectralBands := new ListRef(DefaultSpectralBands);
    }
  }

  /** `WavelengthsControlPanel` of `src/controls.py`. */
  class WavelengthsControlPanel {
    var xlambda: ListRef<real>
    var lambdaMin: real
    var lambdaMax: real
    var activeWavelengths: seq<int>
    var onChange: Handler
    var notified: seq<nat>

    /** `__init__`: keeps the caller's list object, selects entry 0. */
    constructor (xlambda: ListRef<real>, lambdaMin: real := DefaultLambdaMin, lambdaMax: real := DefaultLambdaMax)
      ensures this.xlambda == xlambda && this.lambdaMin == lambdaMin && this.lambdaMax == lambdaMax
      ensures activeWavelengths == [0]
      ensures onChange == Unset && notified == []
    {
      this.xlambda := xlambda;
      this.lambdaMin := lambdaMin;
      this.lambdaMax := lambdaMax;
      activeWavelengths := [0];
      onChange := Unset;
      notified := [];
    }

    /** `toggle_wavelength`: the selection becomes the event's list. */
    method ToggleWavelength(data: seq<int>)
      modifies this`activeWavelengths, this`notified
      ensures activeWavelengths == data
      ensures notified == Notify(old(notified), onChange)
    {
      activeWavelengths := data;
      notified := Notify(notified, onChange);
    }

    /** `update_wavelength`: entry `idx` becomes the slider's new value. */
    method UpdateWavelength(idx: nat, value: real)
      requires idx < |xlambda.items|
      modifies this`notified, xlambda
      ensures xlambda.items == old(xlambda.items)[idx := value]
      ensures notified == Notify(old(notified), onChange)
    {
      xlambda.SetItem(idx, value);
      notified := Notify(notified, onChange);
    }

    /** `active_wavelengths`: the selection, sorted. */
    function ActiveWavelengths(): (r: seq<int>)
      reads this
      ensures Ascending(r) && multiset(r) == multiset(activeWavelengths)
    {
      Sorted(activeWavelengths)
    }

    /** `widget`: one slider per entry over [lambda_min, lambda_max],
        labelled from 1; a second pass binds slider `i` to entry `i`. */
    method Widget() returns (sliders: seq<Slider<real>>)
      ensures |sliders| == |xlambda.items|
      ensures forall i :: 0 <= i < |sliders| ==>
        sliders[i] == Slider(WavelengthLabel(i), xlambda.items[i], lambdaMin, lambdaMax, SliderStep, i)
    {
      var xs := xlambda.items;
      var built: seq<Slider<real>> := [];
      var i := 0;
      while i < |xs|
        invariant 0 <= i <= |xs| && |built| == i
        invariant forall j :: 0 <= j < i ==>
          built[j] == Slider(WavelengthLabel(j), xs[j], lambdaMin, lambdaMax, SliderStep, 0)
      {
        built := built + [Slider(WavelengthLabel(i), xs[i], lambdaMin, lambdaMax, SliderStep, 0)];
        i := i + 1;
      }
      sliders := built;
      i := 0;
      while i < |sliders|
        invariant 0 <= i <= |sliders| && |sliders| == |xs|
        invariant forall j :: 0 <= j < i ==>
          sliders[j] == Slider(WavelengthLabel(j), xs[j], lambdaMin, lambdaMax, SliderStep, j)
        invariant forall j :: i <= j < |sliders| ==> sliders[j] == built[j]
      {
        sliders := sliders[i := sliders[i].(observer := i)];
        i := i + 1;
      }
    }

    /** `on_change`: registers the change handler. */
    method OnChange(h: Handler)
      modifies this`onChange
      ensures onChange == h
    {
      onChange := h;
    }
  }

  /** `SpectralBandsControlPanel` of `src/controls.py`. */
  class SpectralBandsControlPanel {
    var spectralBands: ListRef<Band>
    var lambdaMin: real
    var lambdaMax: real
    var activeSpectralBands: seq<int>
    var onChange: Handler
    var notified: seq<nat>

    /** `__init__`: keeps the caller's list object, selects band 0. */
    constructor (spectralBands: ListRef<Band>, lambdaMin: real := DefaultLambdaMin, lambdaMax: real := DefaultLambdaMax)
      ensures this.spectralBands == spectralBands
      ensures this.lambdaMin == lambdaMin && this.lambdaMax == lambdaMax
      ensures activeSpectralBands == [0]
      ensures onChange == Unset && notified == []
    {
      this.spectralBands := spectralBands;
      this.lambdaMin := lambdaMin;
      this.lambdaMax := lambdaMax;
      activeSpectralBands := [0];
      onChange := Unset;
      notified := [];
    }

    /** `toggle_spectral_band`: the selection becomes the event's list. */
    method ToggleSpectralBand(data: seq<int>)
      modifies this`activeSpectralBands, this`notified
      ensures activeSpectralBands == data
      ensures notified == Notify(old(notified), onChange)
    {
      activeSpectralBands := data;
      notified := Notify(notified, onChange);
    }

    /** `update_spectral_band`: band `idx` becomes the range slider's value. */
    method UpdateSpectralBand(idx: nat, band: Band)
      requires idx < |spectralBands.items|
      modifies this`notified, spectralBands
      ensures spectralBands.items == old(spectralBands.items)[idx := band]
      ensures notified == Notify(old(notified), onChange)
    {
      spectralBands.SetItem(idx, band);
      notified := Notify(notified, onChange);
    }

    /** `active_spectral_bands`: the selection, sorted. */
    function ActiveSpectralBands(): (r: seq<int>)
      reads this
      ensures Ascending(r) && multiset(r) == multiset(activeSpectralBands)
    {
      Sorted(activeSpectralBands)
    }

    /** `widget`: one range slider per band over [lambda_min, lambda_max],
        labelled from 1; a second pass binds slider `i` to band `i`. */
    method Widget() returns (sliders: seq<Slider<Band>>)
      ensures |sliders| == |spectralBands.items|
      ensures forall i :: 0 <= i < |sliders| ==>
        sliders[i] == Slider(BandLabel(i), spectralBands.items[i], lambdaMin, lambdaMax, SliderStep, i)
    {
      var bs := spectralBands.items;
      var built: seq<Slider<Band>> := [];
      var i := 0;
      while i < |bs|
        invariant 0 <= i <= |bs| && |built| == i
        invariant forall j :: 0 <= j < i ==>
          built[j] == Slider(BandLabel(j), bs[j], lambdaMin, lambdaMax, SliderStep, 0)
      {
        built := built + [Slider(BandLabel(i), bs[i], lambdaMin, lambdaMax, SliderStep, 0)];
        i := i + 1;
      }
      sliders := built;
      i := 0;
      while i < |sliders|
        invariant 0 <= i <= |sliders| && |sliders| == |bs|
        invariant forall j :: 0 <= j < i ==>
          sliders[j] == Slider(BandLabel(j), bs[j], lambdaMin, lambdaMax, SliderStep, j)
        invariant forall j :: i <= j < |sliders| ==> sliders[j] == built[j]
      {
        sliders := sliders[i := sliders[i].(observer := i)];
        i := i + 1;
      }
    }

    /** `on_change`: registers the change handler. */
    method OnChange(h: Handler)
      modifies this`onChange
      ensures onChange == h
    {
      onChange := h;
    }
  }

  /** Panels built with only their list get sliders from 0.2 to 30 µm. */
  method PanelsOnDefaultLimits(xs: ListRef<real>, bands: ListRef<Band>)
    returns (w: WavelengthsControlPanel, s: SpectralBandsControlPanel)
    ensures w.xlambda == xs && w.lambdaMin == 0.2 && w.lambdaMax == 30.0
    ensures s.spectralBands == bands && s.lambdaMin == 0.2 && s.lambdaMax == 30.0
  {
    w := new WavelengthsControlPanel(xs);
    s := new SpectralBandsControlPanel(bands);
  }

  /** The two sliders of the optics panel both run from 0.1 to 10. */
  const OpticsSliderMin: real := 0.1
  const OpticsSliderMax: real := 10.0

  datatype OpticsParameter = Diameter | FocalLength

  /** `OpticsControlPanel` of `src/controls.py`. */
  class OpticsControlPanel {
    var diameter: real
    var focalLength: real
    var onChange: Handler
    var notified: seq<nat>

    /** `__init__`, with the defaults 1.0 and 2.0. */
    constructor (diameter: real := 1.0, focalLength: real := 2.0)
      ensures this.diameter == diameter && this.focalLength == focalLength
      ensures onChange == Unset && notified == []
    {
      this.diameter := diameter;
      this.focalLength := focalLength;
      onChange := Unset;
      notified := [];
    }

    /** `fnumber`: focal length over diameter (Python raises for a zero
        diameter). */
    function FNumber(): (f: real)
      reads this
      requires diameter != 0.0
      ensures f * diameter == focalLength
    {
      focalLength / diameter
    }

    /** `update_parameters`: `setattr` of the one named field, then notify. */
    method UpdateParameters(parameter: OpticsParameter, value: real)
      modifies this`diameter, this`focalLength, this`notified
      ensures parameter == Diameter ==> diameter == value && focalLength == old(focalLength)
      ensures parameter == FocalLength ==> focalLength == value && diameter == old(diameter)
      ensures notified == Notify(old(notified), onChange)
    {
      match parameter {
        case Diameter => diameter := value;
        case FocalLength => focalLength := value;
      }
      notified := Notify(notified, onChange);
    }

    method OnChange(h: Handler)
      modifies this`onChange
      ensures onChange == h
    {
      onChange := h;
    }
  }

  lemma MulLtReal(a: real, b: real, d: real)
    requires a < b && d > 0.0
    ensures a * d < b * d
  {
  }

  lemma CancelLeReal(a: real, b: real, d: real)
    requires d > 0.0 && a * d <= b * d
    ensures a <= b
  {
    if b < a { MulLtReal(b, a, d); }
  }

  /** With both sliders inside their range the divisor is positive and the
      f-number lies between 0.01 and 100. */
  lemma FNumberInSliderRange(p: OpticsControlPanel)
    requires OpticsSliderMin <= p.diameter <= OpticsSliderMax
    requires OpticsSliderMin <= p.focalLength <= OpticsSliderMax
    ensures p.diameter > 0.0
    ensures 0.01 <= p.FNumber() <= 100.0
  {
    var f, d := p.FNumber(), p.diameter;
    assert f * d == p.focalLength;
    var lo := 0.01 * d;
    assert lo <= 0.1;
    assert lo <= f * d;
    CancelLeReal(0.01, f, d);
    var hi := 100.0 * d;
    assert 10.0 <= hi;
    CancelLeReal(f, 100.0, d);
  }

  /** What a detector text field's input event delivers; `setattr` stores
      it as it comes. */
  datatype FieldValue = IntValue(i: int) | RealValue(r: real) | TextValue(text: string)

  datatype DetectorParameter = Hdim | Vdim | Pitch

  /** `DetectorFormatControlPanel` of `src/controls.py`. */
  class DetectorFormatControlPanel {
    var hdim: FieldValue
    var vdim: FieldValue
    var pitch: FieldValue
    var onChange: Handler
    var notified: seq<nat>

    /** `__init__`: stores what the caller passes, whatever its type, with
        the defaults 1280, 720 and 20.0. */
    constructor (hdim: FieldValue := IntValue(1280), vdim: FieldValue := IntValue(720),
                 pitch: FieldValue := RealValue(20.0))
      ensures this.hdim == hdim && this.vdim == vdim && this.pitch == pitch
      ensures onChange == Unset && notified == []
    {
      this.hdim := hdim;
      this.vdim := vdim;
      this.pitch := pitch;
      onChange := Unset;
      notified := [];
    }

    /** `update_parameters`: `setattr` of the one named field, then notify. */
    method UpdateParameters(parameter: DetectorParameter, data: FieldValue)
      modifies this`hdim, this`vdim, this`pitch, this`notified
      ensures hdim == if parameter == Hdim then data else old(hdim)
      ensures vdim == if parameter == Vdim then data else old(vdim)
      ensures pitch == if parameter == Pitch then data else old(pitch)
      ensures notified == Notify(old(notified), onChange)
    {
      match parameter {
        case Hdim => hdim := data;
        case Vdim => vdim := data;
        case Pitch => pitch := data;
      }
      notified := Notify(notified, onChange);
    }

    method OnChange(h: Handler)
      modifies this`onChange
      ensures onChange == h
    {
      onChange := h;
    }
  }

  /** A detector panel built with an integer pitch keeps it an integer;
      Hdim and Vdim take their defaults. */
  method DetectorWithIntegerPitch(pitch: int) returns (p: DetectorFormatControlPanel)
    ensures p.pitch == IntValue(pitch) && p.pitch != RealValue(pitch as real)
    ensures p.hdim == IntValue(1280) && p.vdim == IntValue(720)
  {
    p := new DetectorFormatControlPanel(pitch := IntValue(pitch));
  }
}
