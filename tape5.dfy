/** The LOWTRAN 7 batch driver: the (model, range) grid it runs, the number
    of spectral samples, and the TAPE5 input records it writes, one per grid
    row, with the integer fields in fixed five-column cards. */
module Tape5 {
  import opened Optional
  import opened Formatting
  import opened Lowtran7Data

  /** The path ranges (km) the driver runs, with every model of `Models`. */
  const Ranges: seq<real> := [0.5, 1.0, 2.0, 5.0, 10.0, 20.0, 50.0]

  /** One block of the grid: model `m` with every range. */
  function Block(m: int, rs: seq<real>): seq<(int, real)>
  {
    seq(|rs|, j requires 0 <= j < |rs| => (m, rs[j]))
  }

  /** `np.array(np.meshgrid(ms, rs, indexing='ij')).reshape((2,-1)).T`: every
      (model, range) pair, the model varying slowest. */
  function Grid(ms: seq<int>, rs: seq<real>): seq<(int, real)>
    decreases |ms|
  {
    if ms == [] then [] else Block(ms[0], rs) + Grid(ms[1..], rs)
  }

  /** The grid holds |ms| * |rs| rows and row i*|rs| + j is (ms[i], rs[j]). */
  lemma {:induction false} GridAt(ms: seq<int>, rs: seq<real>, i: nat, j: nat)
    requires i < |ms| && j < |rs|
    ensures |Grid(ms, rs)| == |ms| * |rs|
    ensures i * |rs| + j < |Grid(ms, rs)|
    ensures Grid(ms, rs)[i * |rs| + j] == (ms[i], rs[j])
    decreases i
  {
    GridLength(ms, rs);
    MulLe(i + 1, |ms|, |rs|);
    if i == 0 {
      assert Grid(ms, rs)[j] == Block(ms[0], rs)[j];
    } else {
      var n := |rs|;
      assert (i - 1) * n + j == i * n + j - n;
      GridAt(ms[1..], rs, i - 1, j);
      assert Grid(ms, rs)[i * n + j] == Grid(ms[1..], rs)[(i - 1) * n + j];
    }
  }

  lemma {:induction false} GridLength(ms: seq<int>, rs: seq<real>)
    ensures |Grid(ms, rs)| == |ms| * |rs|
    decreases |ms|
  {
    if ms != [] {
      GridLength(ms[1..], rs);
      assert |ms| * |rs| == |rs| + (|ms| - 1) * |rs|;
    }
  }

  /** `parameters` of the driver. */
  const Parameters: seq<(int, real)> := Grid(Models, Ranges)

  /** 42 rows; row k is (Models[k div 7], Ranges[k mod 7]). */
  lemma ParametersAt(k: nat)
    requires k < 42
    ensures |Parameters| == 42
    ensures Parameters[k] == (Models[k / 7], Ranges[k % 7])
  {
    GridAt(Models, Ranges, k / 7, k % 7);
  }

  /** The grid is in the row-major order of `np.ravel_multi_index` over
      shape (6, 7): the flat index of (model i, range j) is the grid row of
      that pair. */
  lemma GridMatchesRavel(i: nat, j: nat)
    requires i < 6 && j < 7
    ensures RavelMultiIndex([i, j], [6, 7]).Some?
    ensures var k := RavelMultiIndex([i, j], [6, 7]).value;
      k < |Parameters| && Parameters[k] == (Models[i], Ranges[j])
  {
    assert [i, j][..1] == [i] && [6, 7][..1] == [6 as nat];
    assert [i][..0] == [] && [6 as nat][..0] == [];
    assert Flat([i], [6]) == i;
    assert Flat([i, j], [6, 7]) == i * 7 + j;
    GridAt(Models, Ranges, i, j);
  }

  /** `plot` reads flat row `ravel_multi_index((4, 1), (6, 7))`: row 29, the
      fifth model at the second range (1 km). */
  lemma PlotRow()
    ensures RavelMultiIndex([4, 1], [6, 7]) == Some(29)
    ensures Parameters[29] == (5, 1.0)
  {
    GridMatchesRavel(4, 1);
    assert Flat([4, 1], [6, 7]) == 29 by {
      assert [4, 1][..1] == [4] && [6, 7][..1] == [6 as nat];
      assert [4][..0] == [] && [6 as nat][..0] == [];
      assert Flat([4], [6]) == 4;
    }
  }

  /** Wavenumbers run from 400 to 50000 cm^-1. */
  const FirstWavenumber: int := 400
  const LastWavenumber: int := 50000
  const H1: real := 0.0
  const DV: int := 5

  /** `Npts` for step `dv`: `None` where the driver fails (the assertion that
      `dv` divides 50000 - 400, or the modulo by zero). */
  function SampleCount(dv: int): (n: Option<int>)
    ensures n.Some? <==> dv != 0 && (LastWavenumber - FirstWavenumber) % dv == 0
    ensures n.Some? ==> FirstWavenumber + (n.value - 1) * dv == LastWavenumber
  {
    var span := LastWavenumber - FirstWavenumber;
    if dv == 0 || span % dv != 0 then None else Some(span / dv + 1)
  }

  /** With DV = 5 the grid has 9921 samples. */
  lemma SampleCountForDV()
    ensures SampleCount(DV) == Some(9921)
  {
  }

  /** The parameters of one TAPE5 record. */
  datatype Record = Record(model: int, h1: real, range: real, dv: int, irpt: int)

  /** IRPT: 1 (another record follows) except on the last record. */
  function Irpt(k: nat, count: nat): int
  {
    if k == count - 1 then 0 else 1
  }

  /** Among `count` records exactly one, the last, has IRPT 0. */
  lemma OnlyLastStops(count: nat)
    requires count >= 1
    ensures (set k | 0 <= k < count && Irpt(k, count) == 0) == {count - 1}
    ensures forall k :: 0 <= k < count ==> Irpt(k, count) in {0, 1}
  {
    var s := set k | 0 <= k < count && Irpt(k, count) == 0;
    assert count - 1 in s;
  }

  /** `main`: one record per grid row, in grid order, the last one
      flagged as the end of the run. */
  method WriteRecords(parameters: seq<(int, real)>) returns (records: seq<Record>)
    ensures |records| == |parameters|
    ensures forall k :: 0 <= k < |records| ==>
      records[k] == Record(parameters[k].0, H1, parameters[k].1, DV, Irpt(k, |parameters|))
  {
    records := [];
    var idx := 0;
    while idx < |parameters|
      invariant 0 <= idx <= |parameters| && |records| == idx
      invariant forall k :: 0 <= k < idx ==>
        records[k] == Record(parameters[k].0, H1, parameters[k].1, DV, Irpt(k, |parameters|))
    {
      var (model, range) := parameters[idx];
      var irpt := if idx == |parameters| - 1 then 0 else 1;
      records := records + [Record(model, H1, range, DV, irpt)];
      idx := idx + 1;
    }
  }

  /** First card: `'%5d'` of MODEL, then `    1    0    0`, 40 blanks and
      `    0`. */
  function Card1(model: int): string
  {
    FormatInt(model, 5) + "    1    0    0" + Spaces(40) + "    0"
  }

  const Card2: string := "    0    0    0"

  /** Last card: `'%5d'` of IRPT. */
  function Card5(irpt: int): string
  {
    FormatInt(irpt, 5)
  }

  /** The literal fields of the first card are `'%5d'` of 1 and of 0, and
      the second card is three `'%5d'` fields of 0. */
  lemma LiteralFields()
    ensures "    1    0    0" == FormatInt(1, 5) + FormatInt(0, 5) + FormatInt(0, 5)
    ensures "    0" == FormatInt(0, 5)
    ensures Card2 == FormatInt(0, 5) + FormatInt(0, 5) + FormatInt(0, 5)
  {
    assert Spaces(4) == "    ";
    assert FormatInt(1, 5) == "    1";
    assert FormatInt(0, 5) == "    0";
  }

  /** The first card is MODEL's field, the fields 1, 0 and 0, forty blank
      columns and the field 0, each integer field `'%5d'`. */
  lemma Card1Layout(model: int)
    ensures Card1(model) == FormatInt(model, 5) + (FormatInt(1, 5) + (FormatInt(0, 5)
      + (FormatInt(0, 5) + (Spaces(40) + FormatInt(0, 5)))))
  {
    LiteralFields();
  }

  /** A slice of `a + b` that lies inside `b` is a slice of `b`. */
  lemma SliceRight(a: string, b: string, i: nat, j: nat)
    requires |a| <= i <= j <= |a| + |b|
    ensures (a + b)[i..j] == b[i - |a|..j - |a|]
  {
    assert forall c :: i <= c < j ==> (a + b)[c] == b[c - |a|];
  }

  /** Cut at five-column boundaries, the first card is MODEL's field, the
      fields 1, 0 and 0, forty blank columns and the field 0. */
  lemma Card1Slices(model: int)
    requires 0 <= model < 100000
    ensures |Card1(model)| == 65
    ensures Card1(model)[0..5] == FormatInt(model, 5)
    ensures Card1(model)[5..10] == FormatInt(1, 5)
    ensures Card1(model)[10..15] == Card1(model)[15..20] == Card1(model)[60..65] == FormatInt(0, 5)
    ensures Card1(model)[20..60] == Spaces(40)
  {
    var m, one, zero := FormatInt(model, 5), FormatInt(1, 5), FormatInt(0, 5);
    assert |m| == 5 by { FiveColumnField(model); }
    assert |one| == 5 by { FiveColumnField(1); }
    assert |zero| == 5 by { FiveColumnField(0); }
    var blanks := Spaces(40);
    var t4 := blanks + zero;
    var t3 := zero + t4;
    var t2 := zero + t3;
    var t1 := one + t2;
    var c := m + t1;
    Card1Layout(model);
    assert c[0..5] == m;
    SliceRight(m, t1, 5, 10);
    assert t1[0..5] == one;
    SliceRight(m, t1, 10, 15);
    SliceRight(one, t2, 5, 10);
    assert t2[0..5] == zero;
    SliceRight(m, t1, 15, 20);
    SliceRight(one, t2, 10, 15);
    SliceRight(zero, t3, 5, 10);
    assert t3[0..5] == zero;
    SliceRight(m, t1, 20, 60);
    SliceRight(one, t2, 15, 55);
    SliceRight(zero, t3, 10, 50);
    SliceRight(zero, t4, 5, 45);
    assert t4[0..40] == blanks;
    SliceRight(m, t1, 60, 65);
    SliceRight(one, t2, 55, 60);
    SliceRight(zero, t3, 50, 55);
    SliceRight(zero, t4, 45, 50);
    SliceRight(blanks, zero, 40, 45);
    assert zero[0..5] == zero;
  }

  /** Read in five-column fields, the first card gives back MODEL in
      columns 1-5, then 1, 0, 0, forty blank columns and 0 in columns
      61-65. */
  lemma Card1Fields(model: int)
    requires 0 <= model < 100000
    ensures |Card1(model)| == 65
    ensures ParseIntField(Card1(model)[0..5]) == Some(model)
    ensures ParseIntField(Card1(model)[5..10]) == Some(1)
    ensures ParseIntField(Card1(model)[10..15]) == Some(0)
    ensures ParseIntField(Card1(model)[15..20]) == Some(0)
    ensures forall c :: 20 <= c < 60 ==> Card1(model)[c] == ' '
    ensures ParseIntField(Card1(model)[60..65]) == Some(0)
  {
    Card1Slices(model);
    FiveColumnField(model);
    FiveColumnField(1);
    FiveColumnField(0);
    var blanks := Card1(model)[20..60];
    assert forall c :: 20 <= c < 60 ==> Card1(model)[c] == blanks[c - 20];
  }

  /** The last card is exactly five columns and reads back as IRPT. */
  lemma Card5Field(irpt: int)
    requires 0 <= irpt < 100000
    ensures |Card5(irpt)| == 5
    ensures ParseIntField(Card5(irpt)) == Some(irpt)
  {
    FiveColumnField(irpt);
  }
}
