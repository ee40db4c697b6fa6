# LOWTRAN 7 notebooks and control panels, modelled in Dafny

This project models the interactive core of a set of optics notebooks:

- the wavelength-list panel of `controls.py`;
- the four panels of `src/controls.py`: wavelengths, spectral bands, optics and detector format;
- the two LOWTRAN 7 viewer notebooks, `src/lowtran7.py` and the earlier `lowtran7.py`;
- the LOWTRAN 7 batch driver `lowtran/lowtran7.py`.

Panels and notebooks change state in place, so they are classes. Each
method's `modifies` clause names the fields it may change, and its
`ensures` clauses say what every one of them becomes, on success and on
failure. A Python list shared by reference is a
`PyList.ListRef` object. The panel and the notebook that hold the same list
hold the same object, so a slider that writes one band is seen by the
notebook's next update.

A registered handler is a `Handlers.Handler`: either `Unset`, which stands
for the `type(None)` placeholder, or a callback with an id. Calling the
handler appends its id to the panel's `notified` log. The placeholder
appends nothing.

The computations the notebooks share are pure functions in
`Lowtran7Data`:

- the `ravel_multi_index` lookup of a (model, range, haze) selection, with
  `unravel_index` as its inverse;
- the `logical_and` band mask;
- the boolean indexing that keeps each band's wavelengths and
  transmissions paired.

The batch driver's grid, sample count, IRPT flags and `%5d` card fields
are in `Tape5`. `Formatting` holds `str`, `%wd` and a field reader that
reads them back.

Modules, one per file:

- `optional.dfy`: `Option`.
- `handlers.dfy`: registered handlers and the notification log.
- `py_list.dfy`: a Python list held by reference.
- `spectral_band.dfy`: the (lambda_min, lambda_max) band type.
- `formatting.dfy`: decimal digits, `%wd`, a fixed-width field reader and numbered labels.
- `controls.dfy`: `controls.py`.
- `vuetify_controls.dfy`: `src/controls.py`.
- `lowtran7_data.dfy`: the table lookup, the band mask and the per-band table rows.
- `lowtran7_view.dfy`: `src/lowtran7.py`.
- `lowtran7_legacy_view.dfy`: `lowtran7.py`.
- `tape5.dfy`: `lowtran/lowtran7.py`.

## Model

| member | source | states |
|---|---|---|
| Controls.DefaultArguments.constructor | controls.py:8 | the default `xlambda` is one list object holding [3.0, 5.0], which every panel built without `xlambda` holds |
| Controls.WavelengthsControlPanel.constructor | controls.py:8-16 | keeps the caller's list object (the default object when `xlambda` is omitted) unchanged, sets all three handlers to the placeholder, and builds the layout of the list |
| Controls.WavelengthsControlPanel.UpdateWidgets | controls.py:42-62 | children are one slider row per entry followed by the Add button; row i shows entry i and its remove button deletes entry i; after the second pass, row i's observer is bound to entry i |
| Controls.LayoutShape | controls.py:42-62 | the layout has exactly one Add button, and it is the last child; row i shows, removes and observes entry i, with the remove rule for a list of that length |
| Controls.WavelengthsControlPanel.AddWavelength | controls.py:18-21 | the list gains the value at its end, the widgets are rebuilt for the new list, and the add handler is called once |
| Controls.WavelengthsControlPanel.RemoveWavelength | controls.py:23-26 | entry idx is deleted and the rest keep their order, the widgets are rebuilt, and the remove handler is called once |
| Controls.WavelengthsControlPanel.UpdateWavelength | controls.py:28-30 | only entry idx changes; the change handler is called once and the widgets are left as they were |
| Controls.AddAppendsFive | controls.py:32-35 | an enabled Add button appends exactly one 5 |
| Controls.EnableRules | controls.py:32-40 | the Add button does nothing exactly when there are 10 or more entries; a remove button keeps the length exactly for the only row of a one-entry list |
| Controls.PressBounds | controls.py:32-40 | one click never empties a non-empty list and never grows it past 10 entries |
| Controls.ClickOnCurrentLayout | controls.py:32-40 | on children that match the list, a click never raises and does what `Pressed` says |
| Controls.PressAllBounds | controls.py:32-40 | clicks through the one panel that holds the list, each on the layout the previous one rebuilt, keep a list of 1 to 10 entries within 1 to 10 entries |
| Controls.WavelengthsControlPanel.Press | controls.py:18-40 | a click on child k does what that button was built to do to the list as it is now: an enabled Add appends 5, an enabled remove pops the entry it was built for and fails with the list unchanged when that entry is gone, a disabled button does nothing; an enabled button that succeeds rebuilds the children and calls the add or remove handler once, otherwise children and log are unchanged; on children that match the list the click succeeds as `Pressed` says and the children match again |
| Controls.WavelengthsControlPanel.Slide | controls.py:28-62 | dragging slider k writes entry j through the observer bound to j and calls the change handler once; it fails with nothing changed when entry j is gone, and an unbound slider changes nothing; on children that match the list, slider k writes entry k and the children still match |
| Controls.WavelengthsControlPanel.OnChange | controls.py:68-69 | the change handler is replaced |
| Controls.WavelengthsControlPanel.OnAddWavelength | controls.py:71-72 | the add handler is replaced |
| Controls.WavelengthsControlPanel.OnRemoveWavelength | controls.py:74-75 | the remove handler is replaced |
| Controls.SharedListEmptied | controls.py:8-40 | for any list object of two entries held by two panels, a remove through the first and then one through the second leave the shared list empty |
| Controls.DefaultListEmptied | controls.py:8-40 | two panels built without `xlambda` hold the same default list object, and one remove through each empties it |
| Controls.SharedListOverflows | controls.py:8-35 | for any list object of nine entries held by two panels, an Add through each leaves the shared list with 11 entries |
| VuetifyControls.Insert | src/controls.py:101-103 | inserting into an ascending list gives an ascending list with one more occurrence of the value |
| VuetifyControls.Sorted | src/controls.py:101-103 | `sorted` returns an ascending list with the same entries, counted with multiplicity |
| VuetifyControls.AscendingUnique | src/controls.py:101-103 | two ascending lists with the same entries are equal |
| VuetifyControls.SortedIsTheSortedPermutation | src/controls.py:101-103 | any ascending rearrangement of a list is the list's `sorted` value |
| VuetifyControls.WavelengthLabelInjective | src/controls.py:107-116 | the sliders' `Wavelength #n (µm)` labels number entries from 1, so no two sliders share a label |
| VuetifyControls.BandLabelInjective | src/controls.py:173-182 | no two band sliders share a `Band #n (µm)` label |
| VuetifyControls.DefaultArguments.constructor | src/controls.py:85-151 | the default `xlambda` is one list object holding [3.0, 5.0], and the default `spectral_bands` one list object holding [(3.0, 5.0)] |
| VuetifyControls.PanelsOnDefaultLimits | src/controls.py:85-151 | a wavelength or band panel built with only its list keeps that list object and gets the default slider limits 0.2 and 30 |
| VuetifyControls.WavelengthsControlPanel.constructor | src/controls.py:85-91 | keeps the caller's list object and bounds (0.2 and 30 by default), selects entry 0, and sets the placeholder handler |
| VuetifyControls.WavelengthsControlPanel.ToggleWavelength | src/controls.py:93-95 | the selection becomes the event's list, and the change handler is called once |
| VuetifyControls.WavelengthsControlPanel.UpdateWavelength | src/controls.py:97-99 | only entry idx changes, and the change handler is called once |
| VuetifyControls.WavelengthsControlPanel.ActiveWavelengths | src/controls.py:101-103 | returns the selection's entries, in ascending order |
| VuetifyControls.WavelengthsControlPanel.Widget | src/controls.py:105-118 | one slider per entry, in list order; slider i is labelled from 1 with entry i's value, runs over [lambda_min, lambda_max] in 0.1 steps, and its observer updates entry i |
| VuetifyControls.WavelengthsControlPanel.OnChange | src/controls.py:140-141 | the change handler is replaced |
| VuetifyControls.SpectralBandsControlPanel.constructor | src/controls.py:151-157 | keeps the caller's band list object and bounds (0.2 and 30 by default), selects band 0, and sets the placeholder handler |
| VuetifyControls.SpectralBandsControlPanel.ToggleSpectralBand | src/controls.py:159-161 | the selection becomes the event's list, and the change handler is called once |
| VuetifyControls.SpectralBandsControlPanel.UpdateSpectralBand | src/controls.py:163-165 | only band idx changes, and the change handler is called once |
| VuetifyControls.SpectralBandsControlPanel.ActiveSpectralBands | src/controls.py:167-169 | returns the selection's entries, in ascending order |
| VuetifyControls.SpectralBandsControlPanel.Widget | src/controls.py:171-184 | one range slider per band, in list order; slider i is labelled from 1 with band i, runs over [lambda_min, lambda_max] in 0.1 steps, and its observer updates band i |
| VuetifyControls.SpectralBandsControlPanel.OnChange | src/controls.py:206-207 | the change handler is replaced |
| VuetifyControls.OpticsControlPanel.constructor | src/controls.py:217-221 | stores the diameter and the focal length (1.0 and 2.0 by default), and sets the placeholder handler |
| VuetifyControls.OpticsControlPanel.FNumber | src/controls.py:223-225 | the f-number times the diameter is the focal length; a zero diameter is excluded, because Python raises there |
| VuetifyControls.OpticsControlPanel.UpdateParameters | src/controls.py:227-229 | `setattr` changes only the named field, then calls the change handler once |
| VuetifyControls.OpticsControlPanel.OnChange | src/controls.py:259-260 | the change handler is replaced |
| VuetifyControls.FNumberInSliderRange | src/controls.py:223-246 | with both sliders in [0.1, 10], the diameter is positive and the f-number lies in [0.01, 100] |
| VuetifyControls.DetectorFormatControlPanel.constructor | src/controls.py:271-276 | stores Hdim, Vdim and pitch as passed, whatever their type (1280, 720 and 20.0 by default), and sets the placeholder handler |
| VuetifyControls.DetectorWithIntegerPitch | src/controls-gallery.py:31 | a panel built with an integer pitch stores an integer, not a real, and takes the default Hdim and Vdim |
| VuetifyControls.DetectorFormatControlPanel.UpdateParameters | src/controls.py:278-280 | `setattr` stores the event's value as delivered in the named field only, then calls the change handler once |
| VuetifyControls.DetectorFormatControlPanel.OnChange | src/controls.py:321-322 | the change handler is replaced |
| Formatting.Spaces | lowtran/lowtran7.py:9 | `' '*k` is exactly k columns, each blank |
| Formatting.Digits | src/controls.py:109 | `str` of a count is a non-empty run of decimal digits with no leading zero |
| Formatting.DigitsRoundTrip | src/controls.py:109 | the digits of n read back as n |
| Formatting.DigitsInjective | src/controls.py:109 | different counts print differently |
| Formatting.NumberedInjective | src/lowtran7.py:116 | labels that differ only in the number written into them are different |
| Formatting.FormatIntRoundTrip | lowtran/lowtran7.py:9 | `%wd` is padded to at least w columns, and a field reader gives the integer back |
| Formatting.DigitsAtMost | lowtran/lowtran7.py:13 | a count below 10^k has at most k decimal digits |
| Formatting.FiveColumnField | lowtran/lowtran7.py:13 | `%5d` of an integer in [0, 99999] is exactly five columns, right-aligned, and reads back |
| Lowtran7Data.Flat | src/lowtran7.py:94 | the row-major position of in-bounds coordinates is below the product of the shape |
| Lowtran7Data.RavelMultiIndex | src/lowtran7.py:94 | `ravel_multi_index` returns a position exactly when every coordinate is inside its axis, and that position is below the array size; otherwise it is the error |
| Lowtran7Data.UnravelRavel | src/lowtran7.py:94 | unravelling a raveled position gives back the coordinates |
| Lowtran7Data.RavelUnravel | src/lowtran7.py:94 | every position below the size unravels to in-bounds coordinates that ravel back to it |
| Lowtran7Data.RavelInjective | src/lowtran7.py:94 | different coordinates never share a position |
| Lowtran7Data.DataIndexFormula | src/lowtran7.py:91-94 | a selection reads a row exactly when model is 1-6, range 1-7 and haze 1-4; that row is ((model-1)*7+(range-1))*4+(haze-1), below 168 |
| Lowtran7Data.DataIndexInjective | src/lowtran7.py:91-94 | different selections read different rows |
| Lowtran7Data.SelectorValuesSelectable | src/lowtran7.py:159-195 | a selection reads a row exactly when each selector holds one of the values it offers |
| Lowtran7Data.EveryRowSelectable | src/lowtran7.py:159-195 | every one of the 168 rows is read by some offered selection |
| Lowtran7Data.Positions | src/lowtran7.py:100 | the mask's true positions, each exactly once, in increasing order |
| Lowtran7Data.Compress | src/lowtran7.py:100-101 | boolean indexing keeps the entries at the mask's true positions, in their order |
| Lowtran7Data.InBandExact | src/lowtran7.py:98-104 | a band keeps exactly the samples strictly inside it, in order, each wavelength paired with its own transmission |
| Lowtran7Data.BandEdgesExcluded | src/lowtran7.py:100 | a sample on a band edge is never in the band |
| Lowtran7Data.LabelledRowsOnePerBand | src/lowtran7.py:98-120 | the table has one row per band, in list order; row k carries number k+1 and a label no other row has, and averages exactly band k's samples |
| Lowtran7View.Min | src/lowtran7.py:199 | `np.min` is an element below or equal to every element |
| Lowtran7View.Max | src/lowtran7.py:200 | `np.max` is an element above or equal to every element |
| Lowtran7View.Viewer.constructor | src/lowtran7.py:154-201 | default parameters (6, 1, 1) with two bands; figure and table on row 140; the export button is reset; the panel holds the notebook's own band list and the sample extent, selects band 0, and has update_wavelengths registered on it and not yet called |
| Lowtran7View.Viewer.Update | src/lowtran7.py:204-207 | an update succeeds exactly for a selectable choice: figure and table then use its row, the table holds the current bands, and the export button is reset; otherwise the figure raises and nothing changes |
| Lowtran7View.Viewer.UpdateModel | src/lowtran7.py:210-213 | stores the new model, keeps the other keys and the band list, then updates: for a selectable choice the figure, table and export button show its row, otherwise they are left as they were |
| Lowtran7View.Viewer.UpdateRange | src/lowtran7.py:216-218 | stores the new range, keeps the other keys, then updates; a failed update leaves figure, table and export button as they were |
| Lowtran7View.Viewer.UpdateHaze | src/lowtran7.py:221-223 | stores the new haze, keeps the other keys, then updates; a failed update leaves figure, table and export button as they were |
| Lowtran7View.Viewer.UpdateWavelengths | src/lowtran7.py:226-228 | takes the panel's list, which is the same object, keeps model, range and haze, then updates; a failed update leaves figure, table and export button as they were |
| Lowtran7View.Viewer.BandSliderMoved | src/lowtran7.py:226-234 | a band slider rewrites only that band in the shared list and the panel calls update_wavelengths once; model, range, haze and the registered handler are kept; for a selectable choice the figure, table and export button then show its row with the new band, otherwise they are left as they were |
| Lowtran7View.Viewer.PrepareDownload | src/lowtran7.py:133-146 | for a selectable choice, the export link carries the (wavelength, transmission) columns of its row; otherwise it raises and nothing changes |
| Lowtran7LegacyView.Viewer.constructor | lowtran7.py:15-122 | default parameters (6, 1, 1) with two bands; figure and HTML table on row 140 |
| Lowtran7LegacyView.Viewer.Update | lowtran7.py:170-172 | succeeds exactly for a selectable choice, and then draws its row and renders one `In-band (Λ<sub>n</sub>)` row per band; otherwise nothing changes |
| Lowtran7LegacyView.Viewer.UpdateModel | lowtran7.py:175-177 | stores the dropdown's new model, keeps the other keys and the bands, then updates; a failed update leaves figure and table as they were |
| Lowtran7LegacyView.Viewer.UpdateRange | lowtran7.py:180-182 | stores the new range, keeps the other keys and the bands, then updates; a failed update leaves figure and table as they were |
| Lowtran7LegacyView.Viewer.UpdateHaze | lowtran7.py:185-187 | stores the new haze, keeps the other keys and the bands, then updates; a failed update leaves figure and table as they were |
| Lowtran7LegacyView.Viewer.UpdateWavelengths | lowtran7.py:190-192 | stores the given band list and keeps model, range and haze, then updates with it; a failed update leaves figure and table as they were |
| Lowtran7LegacyView.DropdownChange | lowtran7.py:125-136 | from the defaults, choosing any offered model always redraws, from row (model-1)*28 |
| Tape5.GridLength | lowtran/lowtran7.py:20 | the grid has len(models) * len(ranges) rows |
| Tape5.GridAt | lowtran/lowtran7.py:20 | grid row i*len(ranges)+j is (models[i], ranges[j]), so the model varies slowest |
| Tape5.ParametersAt | lowtran/lowtran7.py:17-20 | 42 rows; row k is (models[k div 7], ranges[k mod 7]) |
| Tape5.GridMatchesRavel | lowtran/lowtran7.py:20 | the grid row of (model i, range j) is `ravel_multi_index((i, j), (6, 7))` |
| Tape5.PlotRow | lowtran/lowtran7.py:77 | `plot` reads row 29, the fifth model at 1 km |
| Tape5.SampleCount | lowtran/lowtran7.py:25-27 | Npts exists exactly when DV is non-zero and divides 49600, and then the last sample lands on 50000 |
| Tape5.SampleCountForDV | lowtran/lowtran7.py:22-27 | with DV = 5 there are 9921 samples |
| Tape5.OnlyLastStops | lowtran/lowtran7.py:35 | exactly one record, the last, has IRPT 0; every IRPT is 0 or 1 |
| Tape5.WriteRecords | lowtran/lowtran7.py:32-45 | one record per grid row, in grid order, with H1 = 0 and DV = 5; IRPT is 0 only on the last record |
| Tape5.LiteralFields | lowtran/lowtran7.py:9-10 | the literal columns of the first card are `%5d` of 1, 0, 0 and 0, and the second card is three `%5d` fields of 0 |
| Tape5.Card1Layout | lowtran/lowtran7.py:9 | the first card is MODEL's `%5d` field, the fields 1, 0 and 0, forty blanks and the field 0 |
| Tape5.SliceRight | lowtran/lowtran7.py:9 | a slice of a concatenated card that lies in its second part is that part's slice |
| Tape5.Card1Slices | lowtran/lowtran7.py:9 | cut at five-column boundaries, the 65-column first card yields MODEL's field in columns 1-5, then 1, 0, 0, forty blanks and 0 |
| Tape5.Card1Fields | lowtran/lowtran7.py:9 | the first card is 65 columns: MODEL in 1-5, then 1, 0 and 0, 40 blanks, and 0 in 61-65 |
| Tape5.Card5Field | lowtran/lowtran7.py:13 | the last card is five columns and reads back as IRPT |

## Left out

- **Rendering and layout.** Widgets, HTML, Vuetify templates, layout containers and matplotlib drawing are left out. The figure is modelled only by the table row it draws. The figure's band fills use the same mask as the table, whose rows are modelled.
- **Floating point.**
  - The trapezoid average (`np.trapz(...) / (lambda_max - lambda_min)`) is not modelled. Each table row carries the exact samples that are averaged.
  - Reals are exact, with no rounding.
  - The `%g`, `.3f`, `%.4f`/`%.6f` and `%10.3f` formats are left out. So are cards 3 and 4 of TAPE5, which print H1, RANGE and DV.
  - `np.linspace` for the wavenumbers and `1e4/xnu` are left out.
- **Batch-driver I/O.** Writing TAPE5, `post_process` reading TAPE7, `np.savez`/`np.load` and `sys.argv` are not modelled. Of `plot`, only the row it reads is modelled (`Tape5.PlotRow`); its drawing is left out. The notebooks take the loaded, already reversed `xlambda` and `Tcoeff` as constructor arguments.
- **CSV export.** The CSV text and its base64 encoding in `prepare_download` are not modelled: the link carries the column pairs.
- **Table shape.** The batch driver's table has 42 rows (model × range, no haze). The notebooks index a 168-row table of shape (6, 7, 4). The viewers require a 168-row table and do not relate it to the driver's output.
- **Numpy float grid.** `np.meshgrid` of integer models and float ranges gives a float array, so the driver's MODEL is a float that `%5d` prints as an integer. The model takes MODEL as an integer.
- **The legacy notebook's bands panel.** `lowtran7.py` imports `SpectralBandsControlPanel` from `controls`, whose `controls.py` defines only `WavelengthsControlPanel`. Its panel, its `widget_container` and the `on_add_spectral_band`/`on_remove_spectral_band` registrations are therefore not modelled. `Lowtran7LegacyView.Viewer.UpdateWavelengths` takes the panel's band list as an argument. `add_spectral_band` and `remove_spectral_band` have the same body as `update_wavelengths` and are represented by it.
- **Widgets left out of the model.** The `BtnToggle` built by the panels' `widget` is not among the children it returns. It is therefore not modelled, though its handler is (`ToggleWavelength`, `ToggleSpectralBand`). The optics and detector panels' `widget` is modelled through the observers it binds, `UpdateParameters`.
- **`__str__` and `widget_container`.** Neither changes state, and both are left out.
- **Detector field values.** `VuetifyControls.DetectorFormatControlPanel.UpdateParameters` stores a text field's input event value as it comes (a `FieldValue`). It does not model how the front end converts the text to a number.
- **Slider bounds.** `Controls.WavelengthsControlPanel.Slide` does not model the slider's clamping to [0.1, 30] or its 0.1 step: any value reaches the list.
- **Default list objects.** Python creates each default list once, when the `def` runs. The model creates them in a `DefaultArguments` object, and a caller that omits the list passes that object's list explicitly. The model does not enforce that a program has only one `DefaultArguments`.
