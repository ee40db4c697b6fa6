/** The earlier LOWTRAN 7 viewer notebook `lowtran7.py`: the same
    `parameters`, figure and table as `src/lowtran7.py`, with ipywidgets
    dropdowns, an HTML table rendered from a template, and no export
    button. */
module Lowtran7LegacyView {
  import opened Lowtran7Data
  import opened SpectralBand

  /** The rows the template renders: `In-band (Λ<sub>n</sub>) average
      transmission`, where n is the template's `loop.index`, counted
      from 1. */
  function Rows(xs: seq<real>, ts: seq<real>, bands: seq<Band>): seq<TableRow>
    requires |xs| == |ts|
  {
    LabelledRows(xs, ts, bands, "In-band (\U{039B}<sub>", "</sub>) average transmission")
  }

  /** The notebook's state. */
  class Viewer {
    const xlambda: seq<real>
    const tcoeff: seq<seq<real>>
    var model: int
    var range: int
    var haze: int
    var spectralBands: seq<Band>
    /** The table row the figure draws. */
    var figureRow: nat
    /** The table row the HTML table was computed from, and its rows. */
    var tableRow: nat
    var rows: seq<TableRow>

    /** The table holds one row of |xlambda| samples per selection. */
    ghost predicate Valid()
    {
      && |tcoeff| == TableRows
      && forall r :: 0 <= r < |tcoeff| ==> |tcoeff[r]| == |xlambda|
    }

    /** Running the notebook up to the first figure and table. */
    constructor (xlambda: seq<real>, tcoeff: seq<seq<real>>)
      requires |tcoeff| == TableRows && forall r :: 0 <= r < |tcoeff| ==> |tcoeff[r]| == |xlambda|
      ensures Valid() && this.xlambda == xlambda && this.tcoeff == tcoeff
      ensures model == 6 && range == 1 && haze == 1
      ensures spectralBands == [(3.0, 5.0), (8.0, 12.0)]
      ensures figureRow == tableRow == 140
      ensures rows == Rows(xlambda, tcoeff[140], spectralBands)
    {
      this.xlambda := xlambda;
      this.tcoeff := tcoeff;
      model, range, haze := 6, 1, 1;
      spectralBands := [(3.0, 5.0), (8.0, 12.0)];
      DataIndexFormula(6, 1, 1);
      figureRow := 140;
      tableRow := 140;
      rows := Rows(xlambda, tcoeff[140], [(3.0, 5.0), (8.0, 12.0)]);
    }

    /** The figure and the table show the row of the current selection
        with the current bands. */
    ghost predicate Refreshed()
      reads this
    {
      && Selectable(model, range, haze)
      && var row := DataIndex(model, range, haze).value;
        && row < |tcoeff| && |tcoeff[row]| == |xlambda|
        && figureRow == row && tableRow == row
        && rows == Rows(xlambda, tcoeff[row], spectralBands)
    }

    /** `update`: redraw the figure, then re-render the table. With a
        selection outside the table `ravel_multi_index` raises in the
        figure and neither is touched. */
    method Update() returns (ok: bool)
      requires Valid()
      modifies this`figureRow, this`tableRow, this`rows
      ensures ok <==> Selectable(model, range, haze)
      ensures ok ==> Refreshed()
      ensures !ok ==> (figureRow == old(figureRow) && tableRow == old(tableRow) && rows == old(rows))
    {
      DataIndexFormula(model, range, haze);
      var index := DataIndex(model, range, haze);
      if index.None? {
        return false;
      }
      var row := index.value;
      figureRow := row;
      tableRow := row;
      rows := Rows(xlambda, tcoeff[row], spectralBands);
      ok := true;
    }

    /** `update_model`, `update_range`, `update_haze`: the dropdown
        observers store the new value under their key and update. */
    method UpdateModel(value: int) returns (ok: bool)
      requires Valid()
      modifies this`model, this`figureRow, this`tableRow, this`rows
      ensures model == value && range == old(range) && haze == old(haze)
      ensures spectralBands == old(spectralBands)
      ensures ok <==> Selectable(model, range, haze)
      ensures ok ==> Refreshed()
      ensures !ok ==> (figureRow == old(figureRow) && tableRow == old(tableRow) && rows == old(rows))
    {
      model := value;
      ok := Update();
    }

    method UpdateRange(value: int) returns (ok: bool)
      requires Valid()
      modifies this`range, this`figureRow, this`tableRow, this`rows
      ensures range == value && model == old(model) && haze == old(haze)
      ensures spectralBands == old(spectralBands)
      ensures ok <==> Selectable(model, range, haze)
      ensures ok ==> Refreshed()
      ensures !ok ==> (figureRow == old(figureRow) && tableRow == old(tableRow) && rows == old(rows))
    {
      range := value;
      ok := Update();
    }

    method UpdateHaze(value: int) returns (ok: bool)
      requires Valid()
      modifies this`haze, this`figureRow, this`tableRow, this`rows
      ensures haze == value && model == old(model) && range == old(range)
      ensures spectralBands == old(spectralBands)
      ensures ok <==> Selectable(model, range, haze)
      ensures ok ==> Refreshed()
      ensures !ok ==> (figureRow == old(figureRow) && tableRow == old(tableRow) && rows == old(rows))
    {
      haze := value;
      ok := Update();
    }

    /** `update_wavelengths`: store the bands panel's current list and
        update. */
    method UpdateWavelengths(bands: seq<Band>) returns (ok: bool)
      requires Valid()
      modifies this`spectralBands, this`figureRow, this`tableRow, this`rows
      ensures spectralBands == bands
      ensures model == old(model) && range == old(range) && haze == old(haze)
      ensures ok <==> Selectable(model, range, haze)
      ensures ok ==> Refreshed()
      ensures !ok ==> (figureRow == old(figureRow) && tableRow == old(tableRow) && rows == old(rows))
    {
      spectralBands := bands;
      ok := Update();
    }
  }

  /** Starting from the notebook's defaults, any value a dropdown offers
      redraws the figure and the table from the row that value selects. */
  method DropdownChange(xlambda: seq<real>, tcoeff: seq<seq<real>>, value: int) returns (v: Viewer, ok: bool)
    requires |tcoeff| == TableRows && forall r :: 0 <= r < |tcoeff| ==> |tcoeff[r]| == |xlambda|
    requires value in Models
    ensures ok && v.model == value
    ensures v.tableRow == DataIndex(value, 1, 1).value == (value - 1) * 28
  {
    v := new Viewer(xlambda, tcoeff);
    SelectorValuesSelectable(value, 1, 1);
    DataIndexFormula(value, 1, 1);
    ok := v.UpdateModel(value);
  }
}
