/**
 * The export-data modal: which dataset the export covers, the row-count
 * subtitle of the filtered and unfiltered options, the tiled-dataset warning,
 * the dataset dropdown, and the callbacks its mount and click handlers fire.
 *
 * Localised messages are tagged values, not strings.
 */
module ExportDataModal {
  import opened Wrappers

  /** `DatasetType`: the three tiled kinds, and `OtherType` for every kind that is not a tile kind. */
  datatype DatasetType = VectorTile | RasterTile | WmsTile | OtherType

  /** The type test of the tiled-dataset warning: vector, raster or WMS tiles. */
  predicate IsTiled(t: DatasetType)
    ensures IsTiled(t) <==> t != OtherType
  {
    t.VectorTile? || t.RasterTile? || t.WmsTile?
  }

  /**
   * What the modal reads of a dataset: its type, its `label` (`""` stands for a
   * missing or empty label), `dataContainer.numRows()`, and the length of
   * `filteredIdxCPU` when that index exists.
   */
  datatype Dataset = Dataset(
    kind: DatasetType,
    title: string,
    numRows: nat,
    filteredIdxLength: Option<nat>)

  /**
   * The `datasets` object: `keys` is the order `Object.keys` reports, `byId`
   * the own properties.
   */
  datatype Datasets = Datasets(keys: seq<string>, byId: map<string, Dataset>) {
    /** `Object.keys` lists every own key exactly once. */
    predicate Valid()
    {
      && (forall i, j :: 0 <= i < j < |keys| ==> keys[i] != keys[j])
      && (forall id :: id in keys ==> id in byId)
      && (forall id :: id in byId ==> id in keys)
    }
  }

  /** A JavaScript truthiness test on `selectedDataset`: defined and not empty. */
  predicate IsTruthy(selected: Option<string>)
    ensures IsTruthy(selected) <==> selected != None && selected != Some("")
  {
    selected.Some? && selected.value != ""
  }

  // ---------------------------------------------------------------------------
  // Row-count subtitle

  /** The subtitle under an export option: nothing, a file count, a dash or a row count. */
  datatype RowCountText = NoText | FileCount(files: nat) | Dash | RowCount(rows: nat)

  /** `getDataRowCount(datasets, selectedDataset, filtered)`. */
  function GetDataRowCount(ds: Datasets, selected: Option<string>, filtered: bool): (r: RowCountText)
    ensures r.NoText? <==> selected.None?
    ensures r.FileCount? <==> selected.Some? && selected.value !in ds.byId
    ensures r.FileCount? ==> r.files == |ds.keys|
    ensures r.Dash? <==>
      selected.Some? && selected.value in ds.byId && filtered
      && ds.byId[selected.value].filteredIdxLength.None?
    ensures r.RowCount? && filtered ==>
      ds.byId[selected.value].filteredIdxLength == Some(r.rows)
    ensures r.RowCount? && !filtered ==>
      r.rows == ds.byId[selected.value].numRows
  {
    if selected.None? then NoText
    else if selected.value !in ds.byId then FileCount(|ds.keys|)
    else
      var data := ds.byId[selected.value];
      if filtered && data.filteredIdxLength.None? then Dash
      else if filtered then RowCount(data.filteredIdxLength.value)
      else RowCount(data.numRows)
  }

  /** The unfiltered option never shows a dash; it differs from the filtered one only in counts. */
  lemma UnfilteredNeverDash(ds: Datasets, selected: Option<string>)
    ensures GetDataRowCount(ds, selected, false) != Dash
    ensures GetDataRowCount(ds, selected, false).RowCount? <==>
      GetDataRowCount(ds, selected, true).RowCount? || GetDataRowCount(ds, selected, true).Dash?
  {
  }

  // ---------------------------------------------------------------------------
  // Which datasets the export covers

  /** `exportAllDatasets`: no truthy selection, or a selection that is not a dataset. */
  function ExportAllDatasets(ds: Datasets, selected: Option<string>): (r: bool)
    ensures r <==> selected.None? || selected.value == "" || selected.value !in ds.byId
  {
    if IsTruthy(selected) then selected.value !in ds.byId else true
  }

  /** The file-count subtitle appears exactly when a defined selection exports everything. */
  lemma FileCountMeansExportAll(ds: Datasets, selected: Option<string>, filtered: bool)
    requires selected != Some("") || "" !in ds.byId
    ensures GetDataRowCount(ds, selected, filtered).FileCount? <==>
      selected.Some? && ExportAllDatasets(ds, selected)
  {
  }

  /**
   * A dataset whose id is the empty string is exported together with all the
   * others when selected, although the subtitles show that dataset's own
   * counts: its row count unfiltered, and its filtered count, or a dash when
   * it has no filtered index, filtered.
   */
  lemma EmptyIdSelectionExportsAll(ds: Datasets)
    requires "" in ds.byId
    ensures ExportAllDatasets(ds, Some(""))
    ensures GetDataRowCount(ds, Some(""), false) == RowCount(ds.byId[""].numRows)
    ensures ds.byId[""].filteredIdxLength.Some? ==>
      GetDataRowCount(ds, Some(""), true) == RowCount(ds.byId[""].filteredIdxLength.value)
    ensures ds.byId[""].filteredIdxLength.None? ==> GetDataRowCount(ds, Some(""), true) == Dash
  {
  }

  // ---------------------------------------------------------------------------
  // Tiled-dataset warning

  /** Whether some id in `ids` is a tiled dataset that is selected or that an export of all covers. */
  function SomeTiledExported(ds: Datasets, selected: Option<string>, all: bool, ids: seq<string>): (r: bool)
    requires forall id :: id in ids ==> id in ds.byId
    ensures r <==> exists i :: 0 <= i < |ids| && IsTiled(ds.byId[ids[i]].kind) && (selected == Some(ids[i]) || all)
  {
    if ids == [] then false
    else
      (IsTiled(ds.byId[ids[0]].kind) && (selected == Some(ids[0]) || all))
      || SomeTiledExported(ds, selected, all, ids[1..])
  }

  /** `showTiledDatasetWarning`: some tiled dataset is selected, or is covered by an export of all. */
  function ShowTiledDatasetWarning(ds: Datasets, selected: Option<string>): (r: bool)
    requires ds.Valid()
    ensures r <==> exists id :: id in ds.byId && IsTiled(ds.byId[id].kind)
                                && (selected == Some(id) || ExportAllDatasets(ds, selected))
  {
    var all := ExportAllDatasets(ds, selected);
    var r := SomeTiledExported(ds, selected, all, ds.keys);
    assert r ==> exists id :: id in ds.byId && IsTiled(ds.byId[id].kind) && (selected == Some(id) || all) by {
      if r {
        var i :| 0 <= i < |ds.keys| && IsTiled(ds.byId[ds.keys[i]].kind) && (selected == Some(ds.keys[i]) || all);
        assert ds.keys[i] in ds.byId;
      }
    }
    r
  }

  /** With a tiled dataset present and nothing selected, the warning shows. */
  lemma TiledWarnsWhenExportingAll(ds: Datasets, id: string)
    requires ds.Valid()
    requires id in ds.byId && IsTiled(ds.byId[id].kind)
    ensures ShowTiledDatasetWarning(ds, None)
  {
  }

  /** Selecting a non-tiled dataset whose id is not empty silences the warning, whatever the other datasets are. */
  lemma NonTiledSelectionNoWarning(ds: Datasets, id: string)
    requires ds.Valid()
    requires id != "" && id in ds.byId && !IsTiled(ds.byId[id].kind)
    ensures !ShowTiledDatasetWarning(ds, Some(id))
  {
  }

  // ---------------------------------------------------------------------------
  // Dataset dropdown

  /** An `<option>`: the value it selects and the text it displays. */
  datatype SelectOption = SelectOption(value: string, text: string)

  /** `(datasets[d] && datasets[d].label) || d`: the label when there is one, else the id. */
  function DisplayName(ds: Datasets, d: string): (s: string)
    ensures d in ds.byId && ds.byId[d].title != "" ==> s == ds.byId[d].title
    ensures !(d in ds.byId && ds.byId[d].title != "") ==> s == d
    ensures d != "" ==> s != ""
  {
    if d in ds.byId && ds.byId[d].title != "" then ds.byId[d].title else d
  }

  /** One option per id, in order, each labelled by `DisplayName`. */
  function OptionsFor(ds: Datasets, ids: seq<string>): (r: seq<SelectOption>)
    ensures |r| == |ids|
    ensures forall i :: 0 <= i < |r| ==> r[i] == SelectOption(ids[i], DisplayName(ds, ids[i]))
  {
    if ids == [] then [] else [SelectOption(ids[0], DisplayName(ds, ids[0]))] + OptionsFor(ds, ids[1..])
  }

  /** The dropdown: the "all datasets" entry, then one entry per dataset key in key order. */
  function DatasetOptions(ds: Datasets, allDatasetsLabel: string): (r: seq<SelectOption>)
    ensures |r| == |ds.keys| + 1
    ensures r[0] == SelectOption(allDatasetsLabel, DisplayName(ds, allDatasetsLabel))
    ensures forall i :: 0 <= i < |ds.keys| ==> r[i + 1] == SelectOption(ds.keys[i], DisplayName(ds, ds.keys[i]))
  {
    OptionsFor(ds, [allDatasetsLabel] + ds.keys)
  }

  /**
   * Picking the first entry selects its label, which is no dataset id, so the
   * export covers every dataset and the subtitle is the file count.
   */
  lemma AllDatasetsEntrySelectsAll(ds: Datasets, allDatasetsLabel: string, filtered: bool)
    requires allDatasetsLabel !in ds.byId
    ensures var v := DatasetOptions(ds, allDatasetsLabel)[0].value;
      && ExportAllDatasets(ds, Some(v))
      && GetDataRowCount(ds, Some(v), filtered) == FileCount(|ds.keys|)
  {
  }

  /** Picking a dataset's entry narrows the export to that dataset and shows its own count. */
  lemma DatasetEntrySelectsOne(ds: Datasets, allDatasetsLabel: string, i: nat, filtered: bool)
    requires ds.Valid()
    requires i < |ds.keys| && ds.keys[i] != ""
    ensures var v := DatasetOptions(ds, allDatasetsLabel)[i + 1].value;
      && v == ds.keys[i]
      && !ExportAllDatasets(ds, Some(v))
      && (GetDataRowCount(ds, Some(v), filtered).RowCount? || GetDataRowCount(ds, Some(v), filtered).Dash?)
  {
  }

  // ---------------------------------------------------------------------------
  // Callbacks

  /** The argument of `applyCPUFilter`: one dataset id or a list of ids. */
  datatype FilterTarget = OneDataset(id: string) | ManyDatasets(ids: seq<string>)

  /** `selectedDataset || Object.keys(datasets)`. */
  function MountFilterTarget(ds: Datasets, selected: Option<string>): (t: FilterTarget)
    ensures t.OneDataset? <==> IsTruthy(selected)
    ensures t.OneDataset? ==> t.id == selected.value
    ensures t.ManyDatasets? ==> t.ids == ds.keys
  {
    if IsTruthy(selected) then OneDataset(selected.value) else ManyDatasets(ds.keys)
  }

  /**
   * On mount, a filter on every key goes with an export of all datasets, and
   * an export of one dataset is filtered on that dataset alone.
   */
  lemma MountFilterCoversExport(ds: Datasets, selected: Option<string>)
    ensures MountFilterTarget(ds, selected).ManyDatasets? ==> ExportAllDatasets(ds, selected)
    ensures !ExportAllDatasets(ds, selected) ==>
      MountFilterTarget(ds, selected) == OneDataset(selected.value) && selected.value in ds.byId
  {
  }

  /** An export-data type button: `id`, `label` (its file extension) and whether it can be chosen. */
  datatype DataTypeOption = DataTypeOption(id: string, ext: string, available: bool)

  /** One of the two filter options as rendered: its count subtitle and whether it carries the check mark. */
  datatype FilterOptionView = FilterOptionView(subtitle: RowCountText, checked: bool)

  /** The callbacks the modal fires, in order. */
  datatype ModalEvent =
    | ApplyCpuFilter(target: FilterTarget)
    | ChangeSelectedDataset(id: string)
    | ChangeDataType(typeId: string)
    | ChangeFiltered(isFiltered: bool)

  /** The dataset-change handler's events: the filter first, then the selection change. */
  function SelectDatasetEvents(value: string): (events: seq<ModalEvent>)
    ensures |events| == 2
    ensures events[0] == ApplyCpuFilter(OneDataset(value))
    ensures events[1] == ChangeSelectedDataset(value)
  {
    [ApplyCpuFilter(OneDataset(value)), ChangeSelectedDataset(value)]
  }

  /** A data-type click fires the type change exactly when that type is available. */
  function DataTypeClickEvents(op: DataTypeOption): (events: seq<ModalEvent>)
    ensures |events| <= 1
    ensures events != [] <==> op.available
    ensures events != [] ==> events[0] == ChangeDataType(op.id)
  {
    if op.available then [ChangeDataType(op.id)] else []
  }

  /**
   * A mounted modal with fixed props. `log` holds every callback it has fired.
   */
  class Modal {
    const datasets: Datasets
    const selectedDataset: Option<string>
    const dataType: string
    const filtered: bool
    const supportedDataTypes: seq<DataTypeOption>
    var log: seq<ModalEvent>

    constructor (datasets: Datasets, selectedDataset: Option<string>, dataType: string,
                 filtered: bool, supportedDataTypes: seq<DataTypeOption>)
      ensures this.datasets == datasets && this.selectedDataset == selectedDataset
      ensures this.dataType == dataType && this.filtered == filtered
      ensures this.supportedDataTypes == supportedDataTypes
      ensures log == []
    {
      this.datasets := datasets;
      this.selectedDataset := selectedDataset;
      this.dataType := dataType;
      this.filtered := filtered;
      this.supportedDataTypes := supportedDataTypes;
      log := [];
    }

    /** The data-type buttons that are marked selected: those whose id is the chosen `dataType`. */
    function CheckedDataTypes(): (r: set<nat>)
      ensures forall i :: i in r ==> i < |supportedDataTypes| && supportedDataTypes[i].id == dataType
      ensures forall i :: 0 <= i < |supportedDataTypes| && supportedDataTypes[i].id == dataType ==> i in r
    {
      set i: nat | i < |supportedDataTypes| && supportedDataTypes[i].id == dataType
    }

    /** With distinct type ids, at most one data-type button is marked selected. */
    lemma AtMostOneCheckedDataType()
      requires forall i, j :: 0 <= i < j < |supportedDataTypes| ==> supportedDataTypes[i].id != supportedDataTypes[j].id
      ensures forall i, j :: i in CheckedDataTypes() && j in CheckedDataTypes() ==> i == j
    {
    }

    /** The unfiltered and the filtered option, in that order. */
    function FilterOptions(): (r: (FilterOptionView, FilterOptionView))
      ensures r.0.subtitle == GetDataRowCount(datasets, selectedDataset, false)
      ensures r.1.subtitle == GetDataRowCount(datasets, selectedDataset, true)
      ensures r.0.checked != r.1.checked
      ensures r.1.checked <==> filtered
    {
      (FilterOptionView(GetDataRowCount(datasets, selectedDataset, false), !filtered),
       FilterOptionView(GetDataRowCount(datasets, selectedDataset, true), filtered))
    }

    /** `componentDidMount`. */
    method ComponentDidMount()
      modifies this`log
      ensures log == old(log) + [ApplyCpuFilter(MountFilterTarget(datasets, selectedDataset))]
    {
      var toCpuFilter := if IsTruthy(selectedDataset) then OneDataset(selectedDataset.value)
                         else ManyDatasets(datasets.keys);
      log := log + [ApplyCpuFilter(toCpuFilter)];
    }

    /** `_onSelectDataset` with the chosen option's value. */
    method OnSelectDataset(value: string)
      modifies this`log
      ensures log == old(log) + SelectDatasetEvents(value)
    {
      log := log + [ApplyCpuFilter(OneDataset(value))];
      log := log + [ChangeSelectedDataset(value)];
    }

    /** A click on the `i`-th data-type button. */
    method OnClickDataType(i: nat)
      requires i < |supportedDataTypes|
      modifies this`log
      ensures log == old(log) + DataTypeClickEvents(supportedDataTypes[i])
    {
      var op := supportedDataTypes[i];
      if op.available {
        log := log + [ChangeDataType(op.id)];
      }
    }

    /** A click on the unfiltered (`false`) or filtered (`true`) option. */
    method OnClickFiltered(isFiltered: bool)
      modifies this`log
      ensures log == old(log) + [ChangeFiltered(isFiltered)]
    {
      log := log + [ChangeFiltered(isFiltered)];
    }
  }
}
