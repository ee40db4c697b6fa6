/** The LOWTRAN 7 viewer notebook `src/lowtran7.py`: the module-level
    `parameters` (model, range, haze, spectral bands), the figure, the
    results table and the export button that every selector change
    refreshes. The band list is one list object shared with the bands
    panel. */
module Lowtran7View {
  import opened Optional
  import opened PyList
  import opened Lowtran7Data
  import opened SpectralBand
  import VuetifyControls

  /** The id under which the notebook registers `update_wavelengths` as the
      bands panel's change handler. */
  const UpdateWavelengthsHandler: nat := 0

  /** The rows of `Table.update`: `Band #<k+1> average transmission`
      for band k, in list order. */
  function Items(xs: seq<real>, ts: seq<real>, bands: seq<Band>): seq<TableRow>
    requires |xs| == |ts|
  {
    LabelledRows(xs, ts, bands, "Band #", " average transmission")
  }

  /** The export button: the "Prepare Data Export" button, or a download
      link to the CSV columns (wavelength, transmission) of one row. */
  datatype Download = PrepareButton | Link(row: nat, columns: seq<(real, real)>)

  function Columns(xs: seq<real>, ts: seq<real>): seq<(real, real)>
    requires |xs| == |ts|
  {
    seq(|xs|, i requires 0 <= i < |xs| => (xs[i], ts[i]))
  }

  function Min(xs: seq<real>): (m: real)
    requires xs != []
    ensures m in xs && forall x :: x in xs ==> m <= x
    decreases |xs|
  {
    if |xs| == 1 then xs[0]
    else
      var m := Min(xs[1..]);
      assert xs == [xs[0]] + xs[1..];
      if xs[0] <= m then xs[0] else m
  }

  function Max(xs: seq<real>): (m: real)
    requires xs != []
    ensures m in xs && forall x :: x in xs ==> x <= m
    decreases |xs|
  {
    if |xs| == 1 then xs[0]
    else
      var m := Max(xs[1..]);
      assert xs == [xs[0]] + xs[1..];
      if xs[0] >= m then xs[0] else m
  }

  /** The notebook's state. `xlambda` and `tcoeff` are the wavelength grid
      and the transmission table read from `lowtran7.npz`. */
  class Viewer {
    const xlambda: seq<real>
    const tcoeff: seq<seq<real>>
    var model: int
    var range: int
    var haze: int
    var spectralBands: ListRef<Band>
    const panel: VuetifyControls.SpectralBandsControlPanel
    /** The table row the figure draws. */
    var figureRow: nat
    /** The table row the results table was computed from, and its rows. */
    var tableRow: nat
    var items: seq<TableRow>
    var download: Download

    /** The table holds one row of |xlambda| samples per selection, and
        the notebook and the panel hold the same band list. */
    ghost predicate Valid()
      reads this, panel
    {
      && |tcoeff| == TableRows
      && (forall r :: 0 <= r < |tcoeff| ==> |tcoeff[r]| == |xlambda|)
      && panel.spectralBands == spectralBands
    }

    /** Running the notebook: the default parameters, the first figure and
        table, the export button, the bands panel over the notebook's own
        band list, and `update_wavelengths` registered on it. */
    constructor (xlambda: seq<real>, tcoeff: seq<seq<real>>)
      requires xlambda != []
      requires |tcoeff| == TableRows && forall r :: 0 <= r < |tcoeff| ==> |tcoeff[r]| == |xlambda|
      ensures Valid() && fresh(panel) && fresh(spectralBands)
      ensures this.xlambda == xlambda && this.tcoeff == tcoeff
      ensures model == 6 && range == 1 && haze == 1
      ensures spectralBands.items == [(3.0, 5.0), (8.0, 12.0)]
      ensures figureRow == tableRow == 140
      ensures items == Items(xlambda, tcoeff[140], spectralBands.items)
      ensures download == PrepareButton
      ensures panel.lambdaMin == Min(xlambda) && panel.lambdaMax == Max(xlambda)
      ensures panel.activeSpectralBands == [0]
      ensures panel.onChange == VuetifyControls.Handlers.Callback(UpdateWavelengthsHandler)
      ensures panel.notified == []
    {
      this.xlambda := xlambda;
      this.tcoeff := tcoeff;
      model, range, haze := 6, 1, 1;
      var bands := new ListRef([(3.0, 5.0), (8.0, 12.0)]);
      spectralBands := bands;
      DataIndexFormula(6, 1, 1);
      figureRow := 140;
      tableRow := 140;
      items := Items(xlambda, tcoeff[140], bands.items);
      download := PrepareButton;
      panel := new VuetifyControls.SpectralBandsControlPanel(bands, Min(xlambda), Max(xlambda));
      new;
      panel.OnChange(VuetifyControls.Handlers.Callback(UpdateWavelengthsHandler));
    }

    /** The figure and the table show the row of the current selection
        with the current bands, and the export button is reset. */
    ghost predicate Refreshed()
      reads this, spectralBands
    {
      && Selectable(model, range, haze)
      && var row := DataIndex(model, range, haze).value;
        && row < |tcoeff| && |tcoeff[row]| == |xlambda|
        && figureRow == row && tableRow == row
        && items == Items(xlambda, tcoeff[row], spectralBands.items)
        && download == PrepareButton
    }

    /** `update`: redraw the figure, recompute the table, reset the export
        button. With a selection outside the table, `ravel_multi_index`
        raises in the figure and nothing is redrawn. */
    method Update() returns (ok: bool)
      requires Valid()
      modifies this`figureRow, this`tableRow, this`items, this`download
      ensures ok <==> Selectable(model, range, haze)
      ensures ok ==> Refreshed()
      ensures !ok ==> (figureRow == old(figureRow) && tableRow == old(tableRow)
        && items == old(items) && download == old(download))
    {
      DataIndexFormula(model, range, haze);
      var index := DataIndex(model, range, haze);
      if index.None? {
        return false;
      }
      var row := index.value;
      figureRow := row;
      tableRow := row;
      items := Items(xlambda, tcoeff[row], spectralBands.items);
      download := PrepareButton;
      ok := true;
    }

    /** `update_model`, `update_range`, `update_haze`: set one key of
        `parameters`, then update. */
    method UpdateModel(data: int) returns (ok: bool)
      requires Valid()
      modifies this`model, this`figureRow, this`tableRow, this`items, this`download
      ensures Valid() && model == data && range == old(range) && haze == old(haze)
      ensures spectralBands == old(spectralBands)
      ensures ok <==> Selectable(model, range, haze)
      ensures ok ==> Refreshed()
      ensures !ok ==> (figureRow == old(figureRow) && tableRow == old(tableRow)
        && items == old(items) && download == old(download))
    {
      model := data;
      ok := Update();
    }

    method UpdateRange(data: int) returns (ok: bool)
      requires Valid()
      modifies this`range, this`figureRow, this`tableRow, this`items, this`download
      ensures Valid() && range == data && model == old(model) && haze == old(haze)
      ensures spectralBands == old(spectralBands)
      ensures ok <==> Selectable(model, range, haze)
      ensures ok ==> Refreshed()
      ensures !ok ==> (figureRow == old(figureRow) && tableRow == old(tableRow)
        && items == old(items) && download == old(download))
    {
      range := data;
      ok := Update();
    }

    method UpdateHaze(data: int) returns (ok: bool)
      requires Valid()
      modifies this`haze, this`figureRow, this`tableRow, this`items, this`download
      ensures Valid() && haze == data && model == old(model) && range == old(range)
      ensures spectralBands == old(spectralBands)
      ensures ok <==> Selectable(model, range, haze)
      ensures ok ==> Refreshed()
      ensures !ok ==> (figureRow == old(figureRow) && tableRow == old(tableRow)
        && items == old(items) && download == old(download))
    {
      haze := data;
      ok := Update();
    }

    /** `update_wavelengths`: take the panel's band list (the same object)
        into `parameters`, then update. */
    method UpdateWavelengths() returns (ok: bool)
      requires Valid()
      modifies this`spectralBands, this`figureRow, this`tableRow, this`items, this`download
      ensures Valid() && spectralBands == old(spectralBands)
      ensures model == old(model) && range == old(range) && haze == old(haze)
      ensures ok <==> Selectable(model, range, haze)
      ensures ok ==> Refreshed()
      ensures !ok ==> (figureRow == old(figureRow) && tableRow == old(tableRow)
        && items == old(items) && download == old(download))
    {
      spectralBands := panel.spectralBands;
      ok := Update();
    }

    /** Dragging the range slider of band `idx`: the panel overwrites that
        band in the shared list and calls `update_wavelengths`, so the
        figure and the table are redrawn with the new band. */
    method BandSliderMoved(idx: nat, band: Band) returns (ok: bool)
      requires Valid() && idx < |spectralBands.items|
      requires panel.onChange == VuetifyControls.Handlers.Callback(UpdateWavelengthsHandler)
      modifies this`spectralBands, this`figureRow, this`tableRow, this`items, this`download
      modifies panel`notified, spectralBands
      ensures Valid() && spectralBands == old(spectralBands)
      ensures spectralBands.items == old(spectralBands.items)[idx := band]
      ensures model == old(model) && range == old(range) && haze == old(haze)
      ensures panel.onChange == old(panel.onChange)
      ensures panel.notified == old(panel.notified) + [UpdateWavelengthsHandler]
      ensures ok <==> Selectable(model, range, haze)
      ensures ok ==> Refreshed()
      ensures !ok ==> (figureRow == old(figureRow) && tableRow == old(tableRow)
        && items == old(items) && download == old(download))
    {
      panel.UpdateSpectralBand(idx, band);
      ok := UpdateWavelengths();
    }

    /** `prepare_download`: the export link carries the wavelength and
        transmission columns of the selected row. */
    method PrepareDownload() returns (ok: bool)
      requires Valid()
      modifies this`download
      ensures ok <==> Selectable(model, range, haze)
      ensures ok ==> var row := DataIndex(model, range, haze).value;
        && download.Link? && download.row == row && row < |tcoeff|
        && |download.columns| == |xlambda|
        && forall i :: 0 <= i < |xlambda| ==> download.columns[i] == (xlambda[i], tcoeff[row][i])
      ensures !ok ==> download == old(download)
    {
      DataIndexFormula(model, range, haze);
      var index := DataIndex(model, range, haze);
      if index.None? {
        return false;
      }
      var row := index.value;
      download := Link(row, Columns(xlambda, tcoeff[row]));
      ok := true;
    }
  }
}
