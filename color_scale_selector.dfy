/**
 * The colour-scale selector of a layer's colour channel: which scale and
 * legend it derives from its props, and what its option-selected, apply and
 * cancel handlers send to the UI-state store (`setColorUI`), to the layer
 * configuration (`onSelect`) and to the popover (`hide`).
 *
 * The colour-scale library the component calls is foreign code; it enters the
 * model as the function-valued fields of an `Engine`.
 */
module ColorScaleSelector {
  import opened Wrappers

  type Color = string

  /** One entry of a custom colour map: a data value (or range key) and its colour. */
  datatype ColorMapEntry = ColorMapEntry(value: string, color: Color)

  type ColorMap = seq<ColorMapEntry>

  /** A colour range; `kind` is its `type` key. `colorMap` is an optional key. */
  datatype ColorRange = ColorRange(
    name: string,
    kind: string,
    category: string,
    colors: seq<Color>,
    colorMap: Option<ColorMap>)

  /** One legend entry of a scale: what it labels and the colour it shows. */
  datatype ColorBreak = ColorBreak(caption: string, color: Color)

  /** The visual channel's domain; its values only pass through to the engine. */
  type Domain = seq<string>

  /** An opaque handle on a scale object built by the engine. */
  datatype Scale = Scale(handle: nat)

  /** An entry of the scale-type dropdown. */
  datatype ScaleOption = ScaleOption(caption: string, value: string)

  /** `SCALE_TYPES.custom` and the fixed keys of the palette built on entering it. */
  const CUSTOM: string := "custom"
  const CUSTOM_PALETTE_NAME: string := "color.customPalette"
  const CUSTOM_CATEGORY: string := "Custom"

  /**
   * The foreign collaborators: `getLayerColorScale` (with the layer fixed),
   * `getLegendOfScale`, `colorBreaksToColorMap`, `hasColorMap` and the
   * option-to-value accessor built from the `getOptionValue` prop.
   */
  datatype Engine = Engine(
    layerColorScale: (ColorRange, Domain, string) -> Option<Scale>,
    legendOfScale: (Scale, string, string) -> seq<ColorBreak>,
    colorBreaksToColorMap: seq<ColorBreak> -> ColorMap,
    hasColorMap: ColorRange -> bool,
    optionValue: ScaleOption -> string)

  /** The props the handlers read: scale type, domain, range and the field's type. */
  datatype SelectorProps = SelectorProps(
    scaleType: string,
    domain: Domain,
    range: ColorRange,
    fieldType: string)

  /**
   * The part of the colour UI state these handlers touch: `showColorChart`,
   * `colorRangeConfig.customBreaks` and `customPalette`.
   */
  datatype ColorUI = ColorUI(
    showColorChart: bool,
    customBreaks: bool,
    customPalette: ColorRange)

  /** A partial update passed to `setColorUI`: a `None` key is not in the update. */
  datatype ColorUIUpdate = ColorUIUpdate(
    showColorChart: Option<bool>,
    customBreaks: Option<bool>,
    customPalette: Option<ColorRange>)

  /** One `onSelect(value, range?)` call; `range == None` is the call without a range. */
  datatype Selection = Selection(value: string, range: Option<ColorRange>)

  /** What the handlers emit, in order. */
  datatype Event =
    | SetUI(update: ColorUIUpdate)
    | Select(selection: Selection)
    | HidePopover

  /** The decisions of one `onSelectScale` call: the UI update, if any, and the selection. */
  datatype Reaction = Reaction(uiUpdate: Option<ColorUIUpdate>, selection: Selection)

  // ---------------------------------------------------------------------------
  // Derivations recomputed from the props

  /** The scale built for the current props, or `None` when the engine cannot build one. */
  function ColorScale(engine: Engine, props: SelectorProps): Option<Scale>
  {
    engine.layerColorScale(props.range, props.domain, props.scaleType)
  }

  /** The legend of the current scale; `None` (the source's null) whenever there is no scale. */
  function ColorBreaks(engine: Engine, props: SelectorProps): (r: Option<seq<ColorBreak>>)
    ensures r.None? <==> ColorScale(engine, props).None?
    ensures r.Some? ==>
      r.value == engine.legendOfScale(ColorScale(engine, props).value, props.scaleType, props.fieldType)
  {
    match ColorScale(engine, props)
    case Some(scale) => Some(engine.legendOfScale(scale, props.scaleType, props.fieldType))
    case None => None
  }

  /** Whether the breaks panel is told that the current scale is the custom one. */
  function IsCustomBreaks(props: SelectorProps): (r: bool)
    ensures r <==> props.scaleType == CUSTOM
  {
    props.scaleType == CUSTOM
  }

  /** Whether a click outside closes the popover: not while custom breaks are edited. */
  function HideOnClick(ui: ColorUI): (r: bool)
    ensures r <==> !ui.customBreaks
  {
    !ui.customBreaks
  }

  // ---------------------------------------------------------------------------
  // The state store's merge of a partial update

  /** A key present in the update replaces the old value; an absent key keeps it. */
  function MergeColorUI(ui: ColorUI, u: ColorUIUpdate): (r: ColorUI)
    ensures u.showColorChart.None? ==> r.showColorChart == ui.showColorChart
    ensures u.showColorChart.Some? ==> r.showColorChart == u.showColorChart.value
    ensures u.customBreaks.None? ==> r.customBreaks == ui.customBreaks
    ensures u.customBreaks.Some? ==> r.customBreaks == u.customBreaks.value
    ensures u.customPalette.None? ==> r.customPalette == ui.customPalette
    ensures u.customPalette.Some? ==> r.customPalette == u.customPalette.value
  {
    ColorUI(
      if u.showColorChart.Some? then u.showColorChart.value else ui.showColorChart,
      if u.customBreaks.Some? then u.customBreaks.value else ui.customBreaks,
      if u.customPalette.Some? then u.customPalette.value else ui.customPalette)
  }

  /** Merging the same update twice is merging it once. */
  lemma MergeIdempotent(ui: ColorUI, u: ColorUIUpdate)
    ensures MergeColorUI(MergeColorUI(ui, u), u) == MergeColorUI(ui, u)
  {
  }

  /** The UI state after a handler's optional update. */
  function ApplyUpdate(ui: ColorUI, u: Option<ColorUIUpdate>): ColorUI
  {
    if u.Some? then MergeColorUI(ui, u.value) else ui
  }

  // ---------------------------------------------------------------------------
  // onSelectScale as a specification

  /**
   * The palette staged on entering custom mode. Its colour map is the range's
   * own if it has one, else the map drawn from the legend if there is a legend,
   * else absent.
   */
  function CustomPalette(engine: Engine, range: ColorRange, breaks: Option<seq<ColorBreak>>): (p: ColorRange)
    ensures p.name == CUSTOM_PALETTE_NAME && p.kind == CUSTOM && p.category == CUSTOM_CATEGORY
    ensures p.colors == range.colors
    ensures range.colorMap.Some? ==> p.colorMap == range.colorMap
    ensures range.colorMap.None? && breaks.Some? ==>
      p.colorMap == Some(engine.colorBreaksToColorMap(breaks.value))
    ensures p.colorMap.None? <==> range.colorMap.None? && breaks.None?
  {
    ColorRange(
      CUSTOM_PALETTE_NAME,
      CUSTOM,
      CUSTOM_CATEGORY,
      range.colors,
      if range.colorMap.Some? then range.colorMap
      else if breaks.Some? then Some(engine.colorBreaksToColorMap(breaks.value))
      else None)
  }

  /** `range` with its `colorMap` key removed. */
  function WithoutColorMap(range: ColorRange): (r: ColorRange)
    ensures r.colorMap.None?
    ensures r.name == range.name && r.kind == range.kind && r.category == range.category
    ensures r.colors == range.colors
    ensures r.(colorMap := range.colorMap) == range
  {
    range.(colorMap := None)
  }

  /**
   * What selecting `opt` decides, given the props and the UI state at the time
   * of the call.
   */
  function SelectScaleReaction(engine: Engine, props: SelectorProps, ui: ColorUI, opt: ScaleOption): (r: Reaction)
    // entering custom: show the chart, start editing breaks, stage the palette,
    // and select custom with that same palette
    ensures engine.optionValue(opt) == CUSTOM ==>
      var p := CustomPalette(engine, props.range, ColorBreaks(engine, props));
      && r.uiUpdate == Some(ColorUIUpdate(Some(true), Some(true), Some(p)))
      && r.selection == Selection(CUSTOM, Some(p))
    // any other option: the UI is updated only when breaks were being edited,
    // and then only `customBreaks` is cleared
    ensures engine.optionValue(opt) != CUSTOM ==>
      && (r.uiUpdate.Some? <==> ui.customBreaks)
      && (r.uiUpdate.Some? ==> r.uiUpdate.value == ColorUIUpdate(None, Some(false), None))
      && r.selection.value == engine.optionValue(opt)
    // a colour map is stripped from the range; without one no range is sent
    ensures engine.optionValue(opt) != CUSTOM && engine.hasColorMap(props.range) ==>
      r.selection.range == Some(WithoutColorMap(props.range))
    ensures engine.optionValue(opt) != CUSTOM && !engine.hasColorMap(props.range) ==>
      r.selection.range.None?
  {
    if engine.optionValue(opt) == CUSTOM then
      var palette := CustomPalette(engine, props.range, ColorBreaks(engine, props));
      Reaction(Some(ColorUIUpdate(Some(true), Some(true), Some(palette))), Selection(CUSTOM, Some(palette)))
    else
      var update := if ui.customBreaks then Some(ColorUIUpdate(None, Some(false), None)) else None;
      if engine.hasColorMap(props.range) then
        Reaction(update, Selection(engine.optionValue(opt), Some(WithoutColorMap(props.range))))
      else
        Reaction(update, Selection(engine.optionValue(opt), None))
  }

  /** The `onSelect` calls in an event log, in order. */
  function Selections(log: seq<Event>): seq<Selection>
  {
    if log == [] then []
    else if log[0].Select? then [log[0].selection] + Selections(log[1..])
    else Selections(log[1..])
  }

  lemma {:induction false} SelectionsAppend(a: seq<Event>, b: seq<Event>)
    ensures Selections(a + b) == Selections(a) + Selections(b)
  {
    if a == [] {
      assert a + b == b;
    } else {
      assert (a + b)[1..] == a[1..] + b;
      SelectionsAppend(a[1..], b);
    }
  }

  /** The events a reaction emits: the UI update first, then exactly one selection. */
  function Emitted(r: Reaction): (events: seq<Event>)
    ensures Selections(events) == [r.selection]
    ensures events[|events| - 1] == Select(r.selection)
    ensures r.uiUpdate.Some? ==> events == [SetUI(r.uiUpdate.value), Select(r.selection)]
    ensures r.uiUpdate.None? ==> events == [Select(r.selection)]
  {
    var events := (if r.uiUpdate.Some? then [SetUI(r.uiUpdate.value)] else []) + [Select(r.selection)];
    assert Selections([Select(r.selection)]) == [r.selection];
    assert r.uiUpdate.Some? ==> events[1..] == [Select(r.selection)];
    events
  }

  /** What `onApply` selects: custom, with the staged palette. */
  function ApplySelection(ui: ColorUI): (s: Selection)
    ensures s.value == CUSTOM && s.range == Some(ui.customPalette)
  {
    Selection(CUSTOM, Some(ui.customPalette))
  }

  // ---------------------------------------------------------------------------
  // Properties relating several handlers

  /**
   * Once the layer takes the selected value as its scale type, the breaks panel
   * is told the scale is custom exactly when the custom option was chosen; after
   * apply it is always told so.
   */
  lemma SelectedValueMarksCustom(engine: Engine, props: SelectorProps, ui: ColorUI, opt: ScaleOption)
    ensures var v := SelectScaleReaction(engine, props, ui, opt).selection.value;
      IsCustomBreaks(props.(scaleType := v)) <==> engine.optionValue(opt) == CUSTOM
    ensures IsCustomBreaks(props.(scaleType := ApplySelection(ui).value))
  {
  }

  /**
   * The memo keys suffice: the scale depends only on range, domain and scale
   * type, and the legend only on those and the field's type.
   */
  lemma MemoKeysDetermineLegend(engine: Engine, p: SelectorProps, q: SelectorProps)
    requires p.range == q.range && p.domain == q.domain && p.scaleType == q.scaleType
    ensures ColorScale(engine, p) == ColorScale(engine, q)
    ensures p.fieldType == q.fieldType ==> ColorBreaks(engine, p) == ColorBreaks(engine, q)
  {
  }

  /** Every selection emits exactly one `onSelect`, and it is the last event. */
  lemma SelectScaleSelectsOnce(engine: Engine, props: SelectorProps, ui: ColorUI, opt: ScaleOption)
    ensures |Selections(Emitted(SelectScaleReaction(engine, props, ui, opt)))| == 1
  {
  }

  /**
   * After entering custom mode the popover stays open on outside clicks, the
   * chart is shown, and applying commits exactly the palette that was selected.
   */
  lemma EnterCustomThenApply(engine: Engine, props: SelectorProps, ui: ColorUI, opt: ScaleOption)
    requires engine.optionValue(opt) == CUSTOM
    ensures var r := SelectScaleReaction(engine, props, ui, opt);
      var ui' := ApplyUpdate(ui, r.uiUpdate);
      && !HideOnClick(ui')
      && ui'.showColorChart
      && ApplySelection(ui') == r.selection
  {
  }

  /**
   * Leaving custom mode stops break editing, so outside clicks close the
   * popover again, and keeps the chart flag and the staged palette as they were.
   */
  lemma LeaveCustomKeepsStaged(engine: Engine, props: SelectorProps, ui: ColorUI, opt: ScaleOption)
    requires engine.optionValue(opt) != CUSTOM
    ensures var ui' := ApplyUpdate(ui, SelectScaleReaction(engine, props, ui, opt).uiUpdate);
      && HideOnClick(ui')
      && ui'.showColorChart == ui.showColorChart
      && ui'.customPalette == ui.customPalette
  {
  }

  /**
   * When `hasColorMap` recognises every present map, the layer is left without
   * a colour map after a selection away from custom: either the emitted range
   * has none, or no range is emitted and the current one has none.
   */
  lemma LeaveCustomDropsColorMap(engine: Engine, props: SelectorProps, ui: ColorUI, opt: ScaleOption)
    requires engine.optionValue(opt) != CUSTOM
    requires props.range.colorMap.Some? ==> engine.hasColorMap(props.range)
    ensures var s := SelectScaleReaction(engine, props, ui, opt).selection;
      (if s.range.Some? then s.range.value else props.range).colorMap.None?
  {
  }

  /** Re-entering custom mode on a range that kept its map reuses that map unchanged. */
  lemma ReenterCustomReusesMap(engine: Engine, props: SelectorProps, ui: ColorUI, opt: ScaleOption)
    requires engine.optionValue(opt) == CUSTOM
    requires props.range.colorMap.Some?
    ensures var s := SelectScaleReaction(engine, props, ui, opt).selection;
      s.range.Some? && s.range.value.colorMap == props.range.colorMap
  {
  }

  // ---------------------------------------------------------------------------
  // The component and its UI state

  /**
   * One rendered selector together with the colour UI state it writes through
   * `setColorUI`. `log` is everything the handlers have emitted so far;
   * `hasPopover` says whether the popover's `onCreate` has handed over its
   * instance.
   */
  class Selector {
    const engine: Engine
    const props: SelectorProps
    var colorUI: ColorUI
    var hasPopover: bool
    var log: seq<Event>

    constructor (engine: Engine, props: SelectorProps, colorUI: ColorUI)
      ensures this.engine == engine && this.props == props && this.colorUI == colorUI
      ensures !hasPopover && log == []
    {
      this.engine := engine;
      this.props := props;
      this.colorUI := colorUI;
      hasPopover := false;
      log := [];
    }

    /** The popover's `onCreate`: the instance is stored for later `hide` calls. */
    method OnCreatePopover()
      modifies this`hasPopover
      ensures hasPopover
    {
      hasPopover := true;
    }

    /** `setColorUI(update)`: the store merges it into the UI state. */
    method SetColorUI(update: ColorUIUpdate)
      modifies this`colorUI, this`log
      ensures colorUI == MergeColorUI(old(colorUI), update)
      ensures log == old(log) + [SetUI(update)]
    {
      colorUI := MergeColorUI(colorUI, update);
      log := log + [SetUI(update)];
    }

    /** `onSelect(value, range?)`. */
    method OnSelect(selection: Selection)
      modifies this`log
      ensures log == old(log) + [Select(selection)]
    {
      log := log + [Select(selection)];
    }

    /** `hideTippy`: hides the popover only when its instance exists. */
    method HideTippy()
      modifies this`log
      ensures log == old(log) + (if hasPopover then [HidePopover] else [])
    {
      if hasPopover {
        log := log + [HidePopover];
      }
    }

    /** `onSelectScale(val)`. */
    method OnSelectScale(opt: ScaleOption)
      modifies this`colorUI, this`log
      ensures var r := SelectScaleReaction(engine, props, old(colorUI), opt);
        && log == old(log) + Emitted(r)
        && colorUI == ApplyUpdate(old(colorUI), r.uiUpdate)
        && Selections(log) == Selections(old(log)) + [r.selection]
    {
      ghost var r := SelectScaleReaction(engine, props, colorUI, opt);
      ghost var log0 := log;
      var isEditingColorBreaks := colorUI.customBreaks;
      var value := engine.optionValue(opt);
      if value == CUSTOM {
        var breaks := ColorBreaks(engine, props);
        var palette := CustomPalette(engine, props.range, breaks);
        SetColorUI(ColorUIUpdate(Some(true), Some(true), Some(palette)));
        OnSelect(Selection(CUSTOM, Some(palette)));
      } else {
        if isEditingColorBreaks {
          SetColorUI(ColorUIUpdate(None, Some(false), None));
        }
        if engine.hasColorMap(props.range) {
          OnSelect(Selection(value, Some(WithoutColorMap(props.range))));
        } else {
          OnSelect(Selection(value, None));
        }
      }
      assert log == log0 + Emitted(r);
      SelectionsAppend(log0, Emitted(r));
    }

    /** `onApply`: select custom with the staged palette, then close the popover. */
    method OnApply()
      modifies this`log
      ensures log == old(log) + [Select(ApplySelection(colorUI))] + (if hasPopover then [HidePopover] else [])
      ensures Selections(log) == Selections(old(log)) + [ApplySelection(colorUI)]
    {
      ghost var log0 := log;
      OnSelect(ApplySelection(colorUI));
      HideTippy();
      ghost var closing := if hasPopover then [HidePopover] else [];
      if hasPopover {
        assert closing[1..] == [];
      }
      assert Selections(closing) == [];
      ghost var tail := [Select(ApplySelection(colorUI))] + closing;
      assert tail[1..] == closing;
      assert log == log0 + tail;
      SelectionsAppend(log0, tail);
    }

    /** `onCancel`: close the popover; nothing is selected. */
    method OnCancel()
      modifies this`log
      ensures log == old(log) + (if hasPopover then [HidePopover] else [])
      ensures Selections(log) == Selections(old(log))
    {
      ghost var log0 := log;
      HideTippy();
      SelectionsAppend(log0, if hasPopover then [HidePopover] else []);
    }
  }
}
