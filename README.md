# kepler.gl colour-scale selector and export-data modal, in Dafny

This project models the decision logic in two kepler.gl UI components and proves properties of it.

**Colour-scale selector** (module `ColorScaleSelector`, file `color_scale_selector.dfy`). The selector derives the legend breaks of the current colour scale. Its `onSelectScale`, `onApply` and `onCancel` handlers decide three things:

- what they send to the colour UI state through `setColorUI`;
- what they send to the layer configuration through `onSelect`;
- when they hide the popover.

Selecting "custom" stages a custom palette. Its colour map is the range's own map if there is one, else the map built from the legend, else none. Selecting any other option clears the break-editing flag, but only if it was set. It also strips `colorMap` from the emitted range when `hasColorMap` holds.

The model has two layers:

- Pure functions give the specification: `SelectScaleReaction` says what one selection decides, and `Emitted` turns that into the ordered events.
- The class `Selector` holds the UI state and the ordered log of emitted events. Its handler methods are proved to append exactly those events.

The colour-scale library is foreign code: `getLayerColorScale`, `getLegendOfScale`, `colorBreaksToColorMap`, `hasColorMap` and the option accessor. In the model these are the function-valued fields of an `Engine`, and nothing is assumed about them.

**Export-data modal** (module `ExportDataModal`, file `export_data_modal.dfy`). It covers:

- `getDataRowCount`, returning one of four tagged results: `NoText`, `FileCount(n)`, `Dash` or `RowCount(n)`;
- the `exportAllDatasets` and `showTiledDatasetWarning` flags;
- the dataset dropdown;
- the ordered callbacks of `componentDidMount`, the dataset-change handler and the click handlers.

`datasets` is modelled as the key order that `Object.keys` reports plus a map from id to dataset. `Datasets.Valid` ties the two together. Following JavaScript, `selectedDataset` is "truthy" when it is defined and not the empty string.

Two details of the handlers are worth stating:

- A non-custom selection strips `colorMap` whenever `hasColorMap(range)` holds, whether or not break editing was active (`color-scale-selector.tsx:174-188`).
- `onCancel` only hides the popover. The staged palette stays in the UI state (`color-scale-selector.tsx:199-201`). In the model, `OnCancel` appends the hide event, if any, and changes nothing else.

One edge case is also proved. A dataset whose id is the empty string counts as "export all" when it is selected, yet the subtitles show that dataset's own counts: its row count for unfiltered data, and its filtered count, or `-` when it has no filtered index, for filtered data (`EmptyIdSelectionExportsAll`).

## Model

| member | source | states |
|---|---|---|
| `ColorScaleSelector.ColorBreaks` | src/components/src/side-panel/layer-panel/color-scale-selector.tsx:131-146 | the legend is absent exactly when the engine builds no scale, and is the engine's legend of that scale otherwise |
| `ColorScaleSelector.MemoKeysDetermineLegend` | src/components/src/side-panel/layer-panel/color-scale-selector.tsx:131-146 | `ColorScale` depends only on the range, domain and scale type, and `ColorBreaks` only on those and the field type: the memo keys are enough |
| `ColorScaleSelector.SelectedValueMarksCustom` | src/components/src/side-panel/layer-panel/color-scale-selector.tsx:203 | once the layer takes the selected value as its scale type, `IsCustomBreaks` holds exactly when the custom option was chosen; after apply it always holds |
| `ColorScaleSelector.HideOnClick` | src/components/src/side-panel/layer-panel/color-scale-selector.tsx:225 | an outside click closes the popover exactly when custom breaks are not being edited |
| `ColorScaleSelector.MergeColorUI` | src/components/src/side-panel/layer-panel/color-scale-selector.tsx:164-179 | a key in a `setColorUI` update replaces the old value, and a key absent from it keeps the old value |
| `ColorScaleSelector.MergeIdempotent` | src/components/src/side-panel/layer-panel/color-scale-selector.tsx:164-179 | merging the same update twice gives the same state as merging it once |
| `ColorScaleSelector.CustomPalette` | src/components/src/side-panel/layer-panel/color-scale-selector.tsx:153-163 | the staged palette is named `color.customPalette`, has type `custom` and category `Custom`, and keeps the range's colours; its colour map is the range's own map, else the map built from the legend, else absent, and it is absent exactly when both of those are |
| `ColorScaleSelector.WithoutColorMap` | src/components/src/side-panel/layer-panel/color-scale-selector.tsx:184 | removing the colour map changes no other key, and putting the old map back restores the range |
| `ColorScaleSelector.SelectScaleReaction` | src/components/src/side-panel/layer-panel/color-scale-selector.tsx:148-192 | choosing custom shows the chart, sets `customBreaks`, stages the palette and selects custom with that same palette; any other option updates the UI only if breaks were being edited, and then only clears `customBreaks`; it selects the option's value with the map-stripped range when `hasColorMap` holds, and with no range otherwise |
| `ColorScaleSelector.Emitted` | src/components/src/side-panel/layer-panel/color-scale-selector.tsx:164-188 | the UI update, if any, comes first, followed by exactly one `onSelect`, which is the last event |
| `ColorScaleSelector.ApplySelection` | src/components/src/side-panel/layer-panel/color-scale-selector.tsx:195 | apply selects `custom` with the staged palette |
| `ColorScaleSelector.SelectScaleSelectsOnce` | src/components/src/side-panel/layer-panel/color-scale-selector.tsx:148-192 | every option selection emits exactly one `onSelect` |
| `ColorScaleSelector.EnterCustomThenApply` | src/components/src/side-panel/layer-panel/color-scale-selector.tsx:164-197 | after choosing custom, the chart is shown and outside clicks no longer close the popover; apply then selects exactly what the custom choice selected |
| `ColorScaleSelector.LeaveCustomKeepsStaged` | src/components/src/side-panel/layer-panel/color-scale-selector.tsx:174-180 | after choosing a non-custom option, outside clicks close the popover again, and the chart flag and staged palette are unchanged |
| `ColorScaleSelector.LeaveCustomDropsColorMap` | src/components/src/side-panel/layer-panel/color-scale-selector.tsx:181-188 | when `hasColorMap` recognises every present map, a non-custom selection leaves the layer without a colour map: the range it sends has none, or it sends no range and the current range has none |
| `ColorScaleSelector.ReenterCustomReusesMap` | src/components/src/side-panel/layer-panel/color-scale-selector.tsx:158-159 | choosing custom on a range that has a colour map stages that map unchanged |
| `ColorScaleSelector.Selector.constructor` | src/components/src/side-panel/layer-panel/color-scale-selector.tsx:112-130 | a new selector holds the given props and UI state, has no popover instance and has emitted nothing |
| `ColorScaleSelector.Selector.OnCreatePopover` | src/components/src/side-panel/layer-panel/color-scale-selector.tsx:226 | the popover's `onCreate` stores the instance |
| `ColorScaleSelector.Selector.SetColorUI` | src/components/src/side-panel/layer-panel/color-scale-selector.tsx:164-170 | `setColorUI` logs the update and merges it into the UI state |
| `ColorScaleSelector.Selector.OnSelect` | src/components/src/side-panel/layer-panel/color-scale-selector.tsx:171 | `onSelect` logs the selection and changes nothing else |
| `ColorScaleSelector.Selector.HideTippy` | src/components/src/side-panel/layer-panel/color-scale-selector.tsx:89-93 | the popover is hidden only when its instance exists |
| `ColorScaleSelector.Selector.OnSelectScale` | src/components/src/side-panel/layer-panel/color-scale-selector.tsx:148-192 | the log grows by exactly the events of `SelectScaleReaction` for the UI state at the time of the call, the UI state becomes that reaction's merge, and exactly one selection is added |
| `ColorScaleSelector.Selector.OnApply` | src/components/src/side-panel/layer-panel/color-scale-selector.tsx:194-197 | apply emits custom with the staged palette, then the hide event if there is a popover; exactly one selection is added |
| `ColorScaleSelector.Selector.OnCancel` | src/components/src/side-panel/layer-panel/color-scale-selector.tsx:199-201 | cancel emits only the hide event if there is a popover, adds no selection and leaves the UI state alone |
| `ExportDataModal.GetDataRowCount` | src/components/src/modals/export-data-modal.tsx:21-49 | there is no text exactly when nothing is selected; there is a file count of all keys exactly when the selection is not a dataset; there is a dash exactly for a filtered export of a dataset with no filtered index; otherwise there is the filtered-index length (filtered) or the row total (unfiltered) |
| `ExportDataModal.UnfilteredNeverDash` | src/components/src/modals/export-data-modal.tsx:37-48 | the unfiltered subtitle is never a dash, and it is a row count exactly when the filtered subtitle is a row count or a dash |
| `ExportDataModal.IsTiled` | src/components/src/modals/export-data-modal.tsx:96-98 | a dataset type is tiled exactly when it is a vector, raster or WMS tile type |
| `ExportDataModal.IsTruthy` | src/components/src/modals/export-data-modal.tsx:72 | a selection is truthy exactly when it is defined and not the empty string |
| `ExportDataModal.ExportAllDatasets` | src/components/src/modals/export-data-modal.tsx:93 | all datasets are exported exactly when the selection is undefined, empty, or not a dataset id |
| `ExportDataModal.FileCountMeansExportAll` | src/components/src/modals/export-data-modal.tsx:27-36 | unless the empty id names a dataset, the file-count subtitle appears exactly when a defined selection exports all datasets |
| `ExportDataModal.EmptyIdSelectionExportsAll` | src/components/src/modals/export-data-modal.tsx:93 | selecting a dataset whose id is empty exports all datasets, while the unfiltered subtitle shows that dataset's row count and the filtered subtitle its filtered count, or `-` when it has no filtered index |
| `ExportDataModal.SomeTiledExported` | src/components/src/modals/export-data-modal.tsx:94-101 | the scan over the ids finds a match exactly when some listed id is tiled and is either selected or covered by an export of all |
| `ExportDataModal.ShowTiledDatasetWarning` | src/components/src/modals/export-data-modal.tsx:94-101 | the warning shows exactly when some dataset is a vector, raster or WMS tile dataset and is either the selected one or covered by an export of all |
| `ExportDataModal.TiledWarnsWhenExportingAll` | src/components/src/modals/export-data-modal.tsx:94-101 | with nothing selected, any tiled dataset triggers the warning |
| `ExportDataModal.NonTiledSelectionNoWarning` | src/components/src/modals/export-data-modal.tsx:94-101 | selecting a non-tiled dataset whose id is not empty hides the warning, whatever the other datasets are |
| `ExportDataModal.DisplayName` | src/components/src/modals/export-data-modal.tsx:121 | an entry shows the dataset's label when the id names a dataset with a non-empty label, and the id otherwise; a non-empty id never shows empty text |
| `ExportDataModal.OptionsFor` | src/components/src/modals/export-data-modal.tsx:119-123 | one option per id, in order; each selects its id and displays the dataset's label if it has one, else the id |
| `ExportDataModal.DatasetOptions` | src/components/src/modals/export-data-modal.tsx:117-123 | the dropdown is the "all datasets" entry followed by one entry per key, in key order |
| `ExportDataModal.AllDatasetsEntrySelectsAll` | src/components/src/modals/export-data-modal.tsx:117-123 | picking the first entry (whose label is no dataset id) exports all datasets and shows the file count |
| `ExportDataModal.DatasetEntrySelectsOne` | src/components/src/modals/export-data-modal.tsx:117-123 | picking a dataset's entry (with a non-empty id) selects that id, narrows the export to that dataset and shows its row count or a dash |
| `ExportDataModal.MountFilterTarget` | src/components/src/modals/export-data-modal.tsx:72 | the mount filter targets the selected id when the selection is truthy, and every key otherwise |
| `ExportDataModal.MountFilterCoversExport` | src/components/src/modals/export-data-modal.tsx:72-73 | a mount filter over every key goes with an export of all datasets, and an export of one dataset is filtered on that dataset alone |
| `ExportDataModal.SelectDatasetEvents` | src/components/src/modals/export-data-modal.tsx:76-79 | a dataset change filters the chosen id first, then reports the selection change |
| `ExportDataModal.DataTypeClickEvents` | src/components/src/modals/export-data-modal.tsx:141 | a data-type click reports the type change exactly when that type is available |
| `ExportDataModal.Modal.constructor` | src/components/src/modals/export-data-modal.tsx:51-67 | a new modal holds the given props and has fired nothing |
| `ExportDataModal.Modal.CheckedDataTypes` | src/components/src/modals/export-data-modal.tsx:137-146 | a data-type button is marked selected, and shows the check mark, exactly when its id is the chosen data type |
| `ExportDataModal.Modal.AtMostOneCheckedDataType` | src/components/src/modals/export-data-modal.tsx:137-146 | when the supported types have distinct ids, at most one button is marked selected |
| `ExportDataModal.Modal.FilterOptions` | src/components/src/modals/export-data-modal.tsx:159-184 | the unfiltered option shows the unfiltered row count and the filtered option the filtered one; exactly one of the two is checked, the filtered one exactly when `filtered` is set |
| `ExportDataModal.Modal.ComponentDidMount` | src/components/src/modals/export-data-modal.tsx:71-74 | mounting fires `applyCPUFilter` once, on the mount filter target |
| `ExportDataModal.Modal.OnSelectDataset` | src/components/src/modals/export-data-modal.tsx:76-79 | a dataset change fires the CPU filter on the chosen id, then the selection-change callback |
| `ExportDataModal.Modal.OnClickDataType` | src/components/src/modals/export-data-modal.tsx:137-141 | a click on a data-type button fires the type change only when the type is available |
| `ExportDataModal.Modal.OnClickFiltered` | src/components/src/modals/export-data-modal.tsx:159-176 | a click on the unfiltered or filtered option reports `false` or `true` |

## Left out

- Rendering is not modelled: styled components, JSX layout, the dropdown, typeahead and popover widgets, and the file-type icons. The model only says which data-type button and which filter option are marked selected and carry the check mark (`Modal.CheckedDataTypes`, `Modal.FilterOptions`).
- The `selected` highlighting of dropdown entries is rendering and is not modelled.
- React hook mechanics are not modelled: `useMemo` and `useCallback` memoisation, and the `useState` that holds the popover instance. The derivations are pure functions of their inputs, which is all that memoisation relies on.
- `getLayerColorScale`, `getLegendOfScale`, `colorBreaksToColorMap`, `hasColorMap` and `Accessor.generateOptionToStringFor` are foreign code. They are arbitrary function values of an `Engine`. The layer argument of `getLayerColorScale` is absorbed into that function value.
- `intl.formatMessage` and `toLocaleString` are localisation. Messages are the tagged values `FileCount`, `RowCount` and `Dash`. The "all datasets" label is a parameter.
- What `onSelect`, `applyCPUFilter` and the export modal's other callbacks do in the external store is not modelled: they are recorded in order in a log. Props are therefore fixed for the life of a `Selector` or `Modal`. `setColorUI` is the exception: see the next line.
- ColorScaleSelector.MergeColorUI: the store behind `setColorUI` (`SetColorUIFunc`, defined in `custom-palette`, which is not part of this model) is assumed to merge each update: a key present in the update replaces the old value, an absent key keeps it, and `colorRangeConfig` is merged sub-key by sub-key. `EnterCustomThenApply`, `LeaveCustomKeepsStaged` and `Selector.SetColorUI` hold under this assumption.
- Popover visibility as shown by the popover widget is not modelled. Only the `hide` calls are recorded.
- Colour ranges carry only the keys these handlers read or write: name, type, category, colours.
- Colour ranges also carry the optional colour map. Other keys, such as `reversed`, are not modelled.
- The colour UI state carries only `showColorChart`, `colorRangeConfig.customBreaks` and `customPalette`. The handlers never write its other keys.
- The default `supportedDataTypes = EXPORT_DATA_TYPE_OPTIONS` is not modelled, because the constant is not shown. The data types are a prop.
- Dataset lookups are own-key membership. In the source, a selected id that names an inherited `Object.prototype` property (such as `toString`) finds a function, which is truthy: `getDataRowCount` (export-data-modal.tsx:37) destructures it, the filtered subtitle is `-`, the unfiltered subtitle throws on `dataContainer.numRows()`, and `exportAllDatasets` (line 93) is false. The model treats such an id as a missing dataset instead.
- `src/layers/src/icon-layer/icon-info-modal.tsx`, `website/src/components/home.js` and `src/components/side-panel/interaction-manager.tsx` are not part of this model. They hold static icon rendering, a marketing page with `localStorage` I/O, and a pure mapping of config keys to panels.
