/** The lookup into the precomputed LOWTRAN 7 table shared by both viewer
    notebooks: the flat row of a (model, range, haze) selection, and the
    samples of a spectral band. */
module Lowtran7Data {
  import opened Optional
  import opened Formatting
  import opened SpectralBand

  /** Number of elements of an array of the given shape. */
  function Product(shape: seq<nat>): nat
    decreases |shape|
  {
    if shape == [] then 1 else Product(shape[..|shape| - 1]) * shape[|shape| - 1]
  }

  /** Every coordinate is a valid index along its axis. */
  predicate InBounds(coords: seq<int>, shape: seq<nat>)
  {
    |coords| == |shape| && forall i :: 0 <= i < |coords| ==> 0 <= coords[i] < shape[i]
  }

  predicate PositiveShape(shape: seq<nat>)
  {
    forall i :: 0 <= i < |shape| ==> shape[i] > 0
  }

  lemma ProductPositive(shape: seq<nat>)
    requires PositiveShape(shape)
    ensures Product(shape) > 0
    decreases |shape|
  {
    if shape != [] {
      ProductPositive(shape[..|shape| - 1]);
    }
  }

  /** One more coordinate below `d` on top of a flat index below `p` gives a
      flat index below `p * d`. */
  lemma StepBound(f: nat, p: nat, c: nat, d: nat)
    requires f < p && c < d
    ensures f * d + c < p * d
  {
    assert f * d <= (p - 1) * d;
  }

  /** Row-major (C order) position of in-bounds coordinates. */
  function Flat(coords: seq<int>, shape: seq<nat>): (k: nat)
    requires InBounds(coords, shape)
    ensures k < Product(shape)
    decreases |coords|
  {
    if coords == [] then 0
    else
      var n := |coords|;
      assert InBounds(coords[..n - 1], shape[..n - 1]);
      var f := Flat(coords[..n - 1], shape[..n - 1]);
      StepBound(f, Product(shape[..n - 1]), coords[n - 1], shape[n - 1]);
      f * shape[n - 1] + coords[n - 1]
  }

  /** `np.ravel_multi_index(coords, shape)` in its default mode: the
      row-major position, or an error for a coordinate outside its axis. */
  function RavelMultiIndex(coords: seq<int>, shape: seq<nat>): (r: Option<nat>)
    ensures r.Some? <==> InBounds(coords, shape)
    ensures r.Some? ==> r.value < Product(shape)
  {
    if InBounds(coords, shape) then Some(Flat(coords, shape)) else None
  }

  /** `np.unravel_index(k, shape)`: the coordinates of flat position `k`. */
  function UnravelIndex(k: nat, shape: seq<nat>): (coords: seq<int>)
    requires PositiveShape(shape)
    ensures |coords| == |shape|
    decreases |shape|
  {
    if shape == [] then []
    else
      var n := |shape|;
      UnravelIndex(k / shape[n - 1], shape[..n - 1]) + [k % shape[n - 1]]
  }

  /** Unravelling a raveled position gives back the coordinates. */
  lemma {:induction false} UnravelRavel(coords: seq<int>, shape: seq<nat>)
    requires InBounds(coords, shape) && PositiveShape(shape)
    ensures UnravelIndex(Flat(coords, shape), shape) == coords
    decreases |coords|
  {
    if coords != [] {
      var n := |coords|;
      var d := shape[n - 1];
      var f := Flat(coords[..n - 1], shape[..n - 1]);
      var c := coords[n - 1];
      assert Flat(coords, shape) == f * d + c;
      DivModStep(f, d, c);
      UnravelRavel(coords[..n - 1], shape[..n - 1]);
      assert coords == coords[..n - 1] + [c];
    }
  }

  lemma MulLe(a: int, b: int, d: nat)
    requires a <= b
    ensures a * d <= b * d
  {
  }

  lemma MulCancelLt(a: int, b: int, d: nat)
    requires d > 0 && a * d < b * d
    ensures a < b
  {
    if b <= a { MulLe(b, a, d); }
  }

  /** Quotient and remainder are the unique q, r with x == q*d + r, 0 <= r < d. */
  lemma DivModStep(q: int, d: nat, r: int)
    requires 0 <= r < d
    ensures (q * d + r) / d == q && (q * d + r) % d == r
  {
    var x := q * d + r;
    var q', r' := x / d, x % d;
    assert q' * d + r' == q * d + r;
    MulCancelLt(q', q + 1, d);
    MulCancelLt(q, q' + 1, d);
  }

  /** Every position below the size unravels to in-bounds coordinates that
      ravel back to it. */
  lemma {:induction false} RavelUnravel(k: nat, shape: seq<nat>)
    requires PositiveShape(shape) && k < Product(shape)
    ensures InBounds(UnravelIndex(k, shape), shape)
    ensures Flat(UnravelIndex(k, shape), shape) == k
    decreases |shape|
  {
    if shape != [] {
      var n := |shape|;
      var d := shape[n - 1];
      var prefix := shape[..n - 1];
      assert PositiveShape(prefix);
      var q, r := k / d, k % d;
      assert q < Product(prefix) by {
        assert Product(shape) == Product(prefix) * d;
        QuotientBound(k, Product(prefix), d);
      }
      RavelUnravel(q, prefix);
      var front := UnravelIndex(q, prefix);
      var coords := UnravelIndex(k, shape);
      assert coords == front + [r];
      assert coords[..n - 1] == front;
      assert InBounds(coords, shape);
      assert Flat(coords, shape) == Flat(front, prefix) * d + r;
      assert q * d + r == k by { Recompose(k, d); }
    }
  }

  lemma Recompose(k: nat, d: nat)
    requires d > 0
    ensures (k / d) * d + k % d == k
  {
  }

  lemma QuotientBound(k: nat, p: nat, d: nat)
    requires d > 0 && k < p * d
    ensures k / d < p
  {
    MulCancelLt(k / d, p, d);
  }

  /** Different coordinates never share a flat position. */
  lemma RavelInjective(a: seq<int>, b: seq<int>, shape: seq<nat>)
    requires PositiveShape(shape)
    requires RavelMultiIndex(a, shape).Some? && RavelMultiIndex(a, shape) == RavelMultiIndex(b, shape)
    ensures a == b
  {
    UnravelRavel(a, shape);
    UnravelRavel(b, shape);
  }

  /** Shape of the precomputed table: 6 atmospheric models, 7 path ranges,
      4 haze kinds. */
  const TableShape: seq<nat> := [6, 7, 4]
  const TableRows: nat := 6 * 7 * 4

  /** The table row of the selector values `model`, `range` and `haze`,
      which count from 1; `None` where numpy raises. */
  function DataIndex(model: int, range: int, haze: int): Option<nat>
  {
    RavelMultiIndex([model - 1, range - 1, haze - 1], TableShape)
  }

  predicate Selectable(model: int, range: int, haze: int)
  {
    1 <= model <= 6 && 1 <= range <= 7 && 1 <= haze <= 4
  }

  /** The row exists exactly for the values the selectors offer, and it is
      `((model-1)*7 + (range-1))*4 + (haze-1)`, below 168. */
  lemma DataIndexFormula(model: int, range: int, haze: int)
    ensures DataIndex(model, range, haze).Some? <==> Selectable(model, range, haze)
    ensures Selectable(model, range, haze) ==>
      DataIndex(model, range, haze) == Some(((model - 1) * 7 + (range - 1)) * 4 + (haze - 1))
    ensures Selectable(model, range, haze) ==> DataIndex(model, range, haze).value < TableRows
  {
    var coords := [model - 1, range - 1, haze - 1];
    if Selectable(model, range, haze) {
      assert coords[..2] == [model - 1, range - 1] && coords[..2][..1] == [model - 1];
      assert TableShape[..2] == [6, 7] && TableShape[..2][..1] == [6];
      assert [model - 1][..0] == [] && [6][..0] == [];
      assert Flat([model - 1], [6]) == model - 1;
      assert Flat(coords[..2], TableShape[..2]) == (model - 1) * 7 + (range - 1);
    }
  }

  /** The six LOWTRAN 7 atmospheric models, which the batch driver runs
      and the Model selector offers, and the values the Range and Haze
      selectors offer. */
  const Models: seq<int> := [1, 2, 3, 4, 5, 6]
  const RangeValues: seq<int> := [1, 2, 3, 4, 5, 6, 7]
  const HazeValues: seq<int> := [1, 2, 3, 4]

  /** A selection reads a row exactly when each selector holds one of its
      offered values. */
  lemma SelectorValuesSelectable(model: int, range: int, haze: int)
    ensures (model in Models && range in RangeValues && haze in HazeValues)
      <==> Selectable(model, range, haze)
  {
    assert model in Models <==> 1 <= model <= 6;
    assert range in RangeValues <==> 1 <= range <= 7;
  }

  /** Every row of the table is read by some selection: the one whose
      values are the row's unravelled coordinates plus one. */
  lemma EveryRowSelectable(k: nat)
    requires k < TableRows
    ensures var c := UnravelIndex(k, TableShape);
      && Selectable(c[0] + 1, c[1] + 1, c[2] + 1)
      && DataIndex(c[0] + 1, c[1] + 1, c[2] + 1) == Some(k)
  {
    assert Product(TableShape) == TableRows by {
      assert TableShape[..2] == [6, 7] && [6, 7][..1] == [6] && [6 as nat][..0] == [];
    }
    RavelUnravel(k, TableShape);
    var c := UnravelIndex(k, TableShape);
    assert [c[0] + 1 - 1, c[1] + 1 - 1, c[2] + 1 - 1] == c;
  }

  /** Two different selections never read the same row. */
  lemma DataIndexInjective(m1: int, r1: int, h1: int, m2: int, r2: int, h2: int)
    requires Selectable(m1, r1, h1) && Selectable(m2, r2, h2)
    requires DataIndex(m1, r1, h1) == DataIndex(m2, r2, h2)
    ensures m1 == m2 && r1 == r2 && h1 == h2
  {
    RavelInjective([m1 - 1, r1 - 1, h1 - 1], [m2 - 1, r2 - 1, h2 - 1], TableShape);
    assert [m1 - 1, r1 - 1, h1 - 1][0] == [m2 - 1, r2 - 1, h2 - 1][0];
    assert [m1 - 1, r1 - 1, h1 - 1][1] == [m2 - 1, r2 - 1, h2 - 1][1];
  }

  /** `np.logical_and(x > lambda_min, x < lambda_max)` over the samples. */
  function Mask(xs: seq<real>, band: Band): seq<bool>
  {
    seq(|xs|, i requires 0 <= i < |xs| => band.0 < xs[i] < band.1)
  }

  /** The positions where the mask holds, in increasing order. */
  function Positions(mask: seq<bool>): (ps: seq<nat>)
    ensures forall k :: 0 <= k < |ps| ==> ps[k] < |mask| && mask[ps[k]]
    ensures forall k, l :: 0 <= k < l < |ps| ==> ps[k] < ps[l]
    ensures forall i :: 0 <= i < |mask| && mask[i] ==> i in ps
    decreases |mask|
  {
    if mask == [] then []
    else
      var n := |mask|;
      var ps := Positions(mask[..n - 1]);
      if mask[n - 1] then ps + [n - 1] else ps
  }

  /** Boolean indexing `vs[mask]`: the entries at the mask's positions, in
      their order. numpy requires the mask to be as long as the array. */
  function Compress<T>(vs: seq<T>, mask: seq<bool>): (r: seq<T>)
    requires |vs| == |mask|
    ensures |r| == |Positions(mask)|
    ensures forall k :: 0 <= k < |r| ==> r[k] == vs[Positions(mask)[k]]
    decreases |vs|
  {
    if vs == [] then []
    else
      var n := |vs|;
      var r := Compress(vs[..n - 1], mask[..n - 1]);
      if mask[n - 1] then r + [vs[n - 1]] else r
  }

  /** What a band hands to the figure and to the average: the wavelengths
      inside the band and the transmissions at the same samples. */
  datatype BandSamples = BandSamples(wavelengths: seq<real>, transmissions: seq<real>)

  function InBand(xs: seq<real>, ts: seq<real>, band: Band): BandSamples
    requires |xs| == |ts|
  {
    var mask := Mask(xs, band);
    BandSamples(Compress(xs, mask), Compress(ts, mask))
  }

  /** A band keeps exactly the samples strictly inside it, in their
      original order, and each kept wavelength stays paired with its own
      transmission. */
  lemma InBandExact(xs: seq<real>, ts: seq<real>, band: Band)
    requires |xs| == |ts|
    ensures var s := InBand(xs, ts, band); var ps := Positions(Mask(xs, band));
      && |s.wavelengths| == |s.transmissions| == |ps|
      && (forall k :: 0 <= k < |ps| ==>
            ps[k] < |xs| && s.wavelengths[k] == xs[ps[k]] && s.transmissions[k] == ts[ps[k]]
            && band.0 < s.wavelengths[k] < band.1)
      && (forall k, l :: 0 <= k < l < |ps| ==> ps[k] < ps[l])
      && (forall i :: 0 <= i < |xs| && band.0 < xs[i] < band.1 ==> i in ps)
  {
    var mask := Mask(xs, band);
    var ps := Positions(mask);
    forall i | 0 <= i < |xs| && band.0 < xs[i] < band.1
      ensures i in ps
    {
      assert mask[i];
    }
  }

  /** A sample on either edge of a band is never in it. */
  lemma BandEdgesExcluded(xs: seq<real>, ts: seq<real>, band: Band)
    requires |xs| == |ts|
    ensures forall x :: x in InBand(xs, ts, band).wavelengths ==> x != band.0 && x != band.1
  {
    InBandExact(xs, ts, band);
  }

  /** One row of a notebook's results table: its label and the samples
      whose trapezoid average over the band is its value. */
  datatype TableRow = TableRow(parameter: string, samples: BandSamples)

  /** The `values` comprehension of `Table.update` with each value
      labelled by its band's number counted from 1. */
  function LabelledRows(xs: seq<real>, ts: seq<real>, bands: seq<Band>, prefix: string, suffix: string): seq<TableRow>
    requires |xs| == |ts|
  {
    seq(|bands|, k requires 0 <= k < |bands| =>
      TableRow(Numbered(prefix, k + 1, suffix), InBand(xs, ts, bands[k])))
  }

  /** The table has one row per band, in list order; row k carries number
      k + 1, no two rows share a label, and row k averages exactly the
      samples strictly inside band k, in their order. */
  lemma LabelledRowsOnePerBand(xs: seq<real>, ts: seq<real>, bands: seq<Band>, prefix: string, suffix: string, k: nat, l: nat)
    requires |xs| == |ts| && k < |bands| && l < |bands|
    ensures var rows := LabelledRows(xs, ts, bands, prefix, suffix);
      && |rows| == |bands|
      && rows[k].parameter == prefix + Digits(k + 1) + suffix
      && (k != l ==> rows[k].parameter != rows[l].parameter)
      && rows[k].samples == InBand(xs, ts, bands[k])
      && (forall x :: x in rows[k].samples.wavelengths ==> bands[k].0 < x < bands[k].1)
  {
    var rows := LabelledRows(xs, ts, bands, prefix, suffix);
    InBandExact(xs, ts, bands[k]);
    if rows[k].parameter == rows[l].parameter {
      NumberedInjective(prefix, k + 1, l + 1, suffix);
    }
  }
}
