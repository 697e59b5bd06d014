/** The drawing tool: the style record and its text forms (colour strings,
    font string, GeoJSON properties), the feature-id counter, and the state
    updates of the tool, selection and style popup. The map, its interactions
    and the geometries are not modelled: a feature carries only its id, its
    style and the point the popup would be anchored at. */
module DrawStore {
  import opened Util
  import JsNumber

  // -------------------------------------------------------------------------
  // Style records

  /** A style property value as JavaScript holds it. */
  datatype StyleValue = VStr(s: string) | VNum(n: real) | VBool(b: bool) | VNumList(items: seq<real>)

  /** A style object (`DrawStyle`, or a `Partial<DrawStyle>` patch): property
      name to value. */
  type DrawStyle = map<string, StyleValue>

  /** The properties of `DEFAULT_DRAW_STYLE`, in declaration order. */
  const DefaultEntries: seq<(string, StyleValue)> := [
    ("strokeColor", VStr("#3399CC")),
    ("strokeWidth", VNum(2.0)),
    ("strokeOpacity", VNum(1.0)),
    ("strokeDash", VNumList([])),
    ("fillColor", VStr("#FFFFFF")),
    ("fillOpacity", VNum(0.4)),
    ("pointRadius", VNum(5.0)),
    ("pointColor", VStr("#3399CC")),
    ("pointOpacity", VNum(1.0)),
    ("isTextFeature", VBool(false)),
    ("text", VStr("")),
    ("fontSize", VNum(12.0)),
    ("fontColor", VStr("#333333")),
    ("fontBold", VBool(false)),
    ("fontItalic", VBool(false)),
    ("textRotation", VNum(0.0))]

  /** `DEFAULT_DRAW_STYLE`. */
  function DefaultDrawStyle(): DrawStyle {
    LastWins(DefaultEntries)
  }

  /** `{ ...base, ...patch }`: the patch's properties replace the base's, every
      other property is kept. */
  function Merge(base: DrawStyle, patch: DrawStyle): (r: DrawStyle)
    ensures r.Keys == base.Keys + patch.Keys
    ensures forall k | k in patch :: r[k] == patch[k]
    ensures forall k | k in base && k !in patch :: r[k] == base[k]
  {
    base + patch
  }

  /** JavaScript truthiness of a property that may be missing. */
  predicate Truthy(v: Option<StyleValue>) {
    match v
    case None => false
    case Some(VStr(s)) => s != ""
    case Some(VNum(n)) => n != 0.0
    case Some(VBool(b)) => b
    case Some(VNumList(_)) => true
  }

  function Get(st: DrawStyle, key: string): (v: Option<StyleValue>)
    ensures v.Some? <==> key in st
    ensures v.Some? ==> v.value == st[key]
  {
    if key in st then Some(st[key]) else None
  }

  // -------------------------------------------------------------------------
  // Colour strings

  /** `hex.slice(i, j)` with JavaScript's clamping of the bounds. */
  function Slice(s: string, i: nat, j: nat): (r: string)
    requires i <= j
    ensures |s| >= j ==> r == s[i..j]
    ensures |s| <= i ==> r == ""
  {
    var a := if i <= |s| then i else |s|;
    var b := if j <= |s| then j else |s|;
    s[a..b]
  }

  /** The three channels `hexToRgba` reads; `None` stands for NaN. */
  datatype Channels = Channels(red: Option<int>, green: Option<int>, blue: Option<int>)

  function HexChannels(hex: string): Channels {
    Channels(JsNumber.ParseInt(Slice(hex, 1, 3), 16),
             JsNumber.ParseInt(Slice(hex, 3, 5), 16),
             JsNumber.ParseInt(Slice(hex, 5, 7), 16))
  }

  /** `#RRGGBB` with six hexadecimal digits. */
  predicate IsHexColor(hex: string) {
    |hex| == 7 && hex[0] == '#' && forall i | 1 <= i < 7 :: JsNumber.IsRadixDigit(hex[i], 16)
  }

  function HexPair(hex: string, i: nat): (v: nat)
    requires IsHexColor(hex) && 1 <= i < 6
  {
    JsNumber.HexByte(hex[i], hex[i + 1])
  }

  /** On a `#RRGGBB` colour each channel is the value of its two hex digits. */
  lemma HexChannelsOfHexColor(hex: string)
    requires IsHexColor(hex)
    ensures HexChannels(hex) == Channels(Some(HexPair(hex, 1)), Some(HexPair(hex, 3)), Some(HexPair(hex, 5)))
    ensures 0 <= HexPair(hex, 1) <= 255 && 0 <= HexPair(hex, 3) <= 255 && 0 <= HexPair(hex, 5) <= 255
  {
    HexPairParses(hex, 1);
    HexPairParses(hex, 3);
    HexPairParses(hex, 5);
  }

  lemma HexPairParses(hex: string, i: nat)
    requires IsHexColor(hex) && 1 <= i < 6
    ensures JsNumber.ParseInt(Slice(hex, i, i + 2), 16) == Some(HexPair(hex, i))
    ensures 0 <= HexPair(hex, i) <= 255
  {
    var pair := [hex[i], hex[i + 1]];
    assert Slice(hex, i, i + 2) == pair;
    assert JsNumber.IsRadixDigit(hex[i], 16) && JsNumber.IsRadixDigit(hex[i + 1], 16);
    JsNumber.ParseIntTwoHexDigits(hex[i], hex[i + 1]);
  }

  function HexDigit(d: nat): (c: char)
    requires d < 16
    ensures JsNumber.IsRadixDigit(c, 16) && JsNumber.RadixDigitValue(c, 16) == d
  {
    if d < 10 then DigitChar(d) else (('A' as int) + d - 10) as char
  }

  /** A colour written as `#RRGGBB` in upper-case hex. */
  function HexColor(red: nat, green: nat, blue: nat): (hex: string)
    requires red < 256 && green < 256 && blue < 256
    ensures IsHexColor(hex)
  {
    ['#', HexDigit(red / 16), HexDigit(red % 16), HexDigit(green / 16), HexDigit(green % 16),
     HexDigit(blue / 16), HexDigit(blue % 16)]
  }

  /** Reading the channels of a written colour gives them back. */
  lemma HexChannelsRoundTrip(red: nat, green: nat, blue: nat)
    requires red < 256 && green < 256 && blue < 256
    ensures HexChannels(HexColor(red, green, blue)) == Channels(Some(red), Some(green), Some(blue))
  {
    var hex := HexColor(red, green, blue);
    HexChannelsOfHexColor(hex);
    assert HexPair(hex, 1) == red && HexPair(hex, 3) == green && HexPair(hex, 5) == blue;
  }

  function ChannelText(c: Option<int>): string {
    match c
    case None => "NaN"
    case Some(v) => IntToString(v)
  }

  /** `hexToRgba(hex, opacity)`; how the opacity number prints is left to the
      caller (`opacityText`). */
  function HexToRgba(hex: string, opacityText: string): (r: string)
    ensures IsHexColor(hex) ==>
      r == "rgba(" + IntToString(HexPair(hex, 1)) + ", " + IntToString(HexPair(hex, 3)) + ", "
           + IntToString(HexPair(hex, 5)) + ", " + opacityText + ")"
  {
    var ch := HexChannels(hex);
    var text := "rgba(" + ChannelText(ch.red) + ", " + ChannelText(ch.green) + ", " + ChannelText(ch.blue) + ", "
      + opacityText + ")";
    if IsHexColor(hex) then HexChannelsOfHexColor(hex); text else text
  }

  // -------------------------------------------------------------------------
  // Font string

  /** How a style value prints in a template string; numbers print through
      `numberText`. */
  function ValueText(v: Option<StyleValue>, numberText: real -> string): string {
    match v
    case None => "undefined"
    case Some(VStr(s)) => s
    case Some(VNum(n)) => numberText(n)
    case Some(VBool(b)) => if b then "true" else "false"
    case Some(VNumList(items)) => Join(seq(|items|, i requires 0 <= i < |items| => numberText(items[i])), ",")
  }

  function FontParts(st: DrawStyle, numberText: real -> string): seq<string> {
    (if Truthy(Get(st, "fontBold")) then ["bold"] else [])
    + (if Truthy(Get(st, "fontItalic")) then ["italic"] else [])
    + [ValueText(Get(st, "fontSize"), numberText) + "px", "sans-serif"]
  }

  /** The font of a text feature: the parts joined with single spaces. */
  function FontString(st: DrawStyle, numberText: real -> string): string {
    Join(FontParts(st, numberText), " ")
  }

  /** Read back word by word, the font string is: `bold` when the style is bold,
      then `italic` when it is italic, then the size in pixels, then
      `sans-serif`, and nothing else (for a size printed without spaces). */
  lemma FontStringWords(st: DrawStyle, numberText: real -> string)
    requires ' ' !in ValueText(Get(st, "fontSize"), numberText)
    ensures var words := Split(FontString(st, numberText), ' ');
      var bold := Truthy(Get(st, "fontBold"));
      var italic := Truthy(Get(st, "fontItalic"));
      && |words| == 2 + (if bold then 1 else 0) + (if italic then 1 else 0)
      && (bold ==> words[0] == "bold")
      && (italic ==> words[if bold then 1 else 0] == "italic")
      && words[|words| - 2] == ValueText(Get(st, "fontSize"), numberText) + "px"
      && words[|words| - 1] == "sans-serif"
  {
    var parts := FontParts(st, numberText);
    forall i | 0 <= i < |parts| ensures ' ' !in parts[i] {
    }
    SplitJoin(parts, ' ');
  }

  // -------------------------------------------------------------------------
  // Feature ids

  /** The id `assignFeatureId` hands out for counter value `n`. */
  function IdOf(n: nat): string {
    "draw_" + NatToString(n)
  }

  lemma IdOfInjective(a: nat, b: nat)
    ensures IdOf(a) == IdOf(b) ==> a == b
  {
    if IdOf(a) == IdOf(b) {
      assert IdOf(a)[5..] == NatToString(a);
      assert IdOf(b)[5..] == NatToString(b);
      NatToStringInjective(a, b);
    }
  }

  /** `assignFeatureId`: pre-increments the counter and names the feature after it. */
  function AssignFeatureId(counter: nat): (r: (string, nat))
    ensures r.1 == counter + 1 && r.0 == IdOf(r.1)
  {
    (IdOf(counter + 1), counter + 1)
  }

  // -------------------------------------------------------------------------
  // The store

  datatype DrawTool = NoTool | PointTool | LineTool | PolygonTool | TextTool | ModifyTool

  predicate IsDrawingTool(t: DrawTool) {
    t == PointTool || t == LineTool || t == PolygonTool || t == TextTool
  }

  datatype Coord = Coord(x: real, y: real)

  /** A drawn feature: id (if assigned), style (if set), and where its popup is anchored. */
  datatype Feature = Feature(id: Option<string>, drawStyle: Option<DrawStyle>, anchor: Option<Coord>)

  /** The vector source with its features, and the draw layer's visibility. */
  datatype Canvas = Canvas(features: seq<Feature>, visible: bool)

  /** The store state plus what the store keeps in closure variables: the
      canvas (present between `initialize` and `destroy`) and the id counter. */
  datatype DrawState = DrawState(
    activeTool: DrawTool,
    selectedFeatureId: Option<string>,
    currentStyle: DrawStyle,
    showStylePopup: bool,
    featureCount: nat,
    popupCoordinate: Option<Coord>,
    layerVisible: bool,
    canvas: Option<Canvas>,
    counter: nat)

  const Initial := DrawState(NoTool, None, DefaultDrawStyle(), false, 0, None, true, None, 0)

  /** `getFeatureById`. */
  function FindFeature(features: seq<Feature>, id: string): (r: Option<nat>)
    ensures r.Some? ==> r.value < |features| && features[r.value].id == Some(id)
    ensures r.None? ==> forall i | 0 <= i < |features| :: features[i].id != Some(id)
  {
    FirstIndex(features, (f: Feature) => f.id == Some(id))
  }

  function RemoveAt(features: seq<Feature>, i: nat): (r: seq<Feature>)
    requires i < |features|
    ensures |r| == |features| - 1
    ensures forall j | 0 <= j < i :: r[j] == features[j]
    ensures forall j | i <= j < |r| :: r[j] == features[j + 1]
  {
    features[..i] + features[i + 1..]
  }

  /** `initialize`: a fresh, empty, visible draw layer. The rest of the state is kept. */
  function Initialize(s: DrawState): (r: DrawState)
    ensures r.canvas == Some(Canvas([], true))
    ensures r == s.(canvas := r.canvas)
  {
    s.(canvas := Some(Canvas([], true)))
  }

  /** `destroy`: the initial state; only the id counter survives. */
  function Destroy(s: DrawState): (r: DrawState)
    ensures r == Initial.(counter := s.counter)
    ensures r.canvas.None? && r.currentStyle == DefaultDrawStyle() && r.featureCount == 0
  {
    Initial.(counter := s.counter)
  }

  /** Selection, popup and popup anchor cleared. */
  function Deselect(s: DrawState): (r: DrawState)
    ensures r.selectedFeatureId.None? && !r.showStylePopup && r.popupCoordinate.None?
    ensures r == s.(selectedFeatureId := None, showStylePopup := false, popupCoordinate := None)
  {
    s.(selectedFeatureId := None, showStylePopup := false, popupCoordinate := None)
  }

  /** `setTool`: switches the tool and drops the selection; style, features and
      count are kept. */
  function SetTool(s: DrawState, tool: DrawTool): (r: DrawState)
    ensures r.activeTool == tool
    ensures r.selectedFeatureId.None? && !r.showStylePopup && r.popupCoordinate.None?
    ensures r.currentStyle == s.currentStyle && r.featureCount == s.featureCount && r.canvas == s.canvas
    ensures r == Deselect(s).(activeTool := tool)
  {
    Deselect(s).(activeTool := tool)
  }

  /** The style a newly drawn feature gets: a copy of the current style, marked
      as a text feature with text `Text` (unless it has one) for the text tool. */
  function NewFeatureStyle(current: DrawStyle, tool: DrawTool): (st: DrawStyle)
    ensures tool != TextTool ==> st == current
    ensures tool == TextTool ==> st.Keys == current.Keys + {"isTextFeature", "text"}
    ensures tool == TextTool ==> st["isTextFeature"] == VBool(true)
    ensures tool == TextTool && Truthy(Get(current, "text")) ==> st["text"] == current["text"]
    ensures tool == TextTool && !Truthy(Get(current, "text")) ==> st["text"] == VStr("Text")
    ensures forall k | k in current && k != "isTextFeature" && k != "text" :: st[k] == current[k]
  {
    if tool != TextTool then current
    else
      var text := if Truthy(Get(current, "text")) then current["text"] else VStr("Text");
      current["isTextFeature" := VBool(true)]["text" := text]
  }

  /** The end of a drawing: the new feature gets the next id and its style, the
      tool goes back to none with the new feature selected and its popup open,
      and the feature joins the layer (which recounts the features). Without a
      drawing tool there is no draw interaction and nothing happens. */
  function DrawEnd(s: DrawState, anchor: Option<Coord>): (r: DrawState)
    ensures s.canvas.None? || !IsDrawingTool(s.activeTool) ==> r == s
    ensures s.canvas.Some? && IsDrawingTool(s.activeTool) ==>
      && r.counter == s.counter + 1
      && r.activeTool == NoTool && r.selectedFeatureId == Some(IdOf(r.counter))
      && r.showStylePopup && r.popupCoordinate == anchor
      && r.canvas == Some(s.canvas.value.(features := s.canvas.value.features
                            + [Feature(Some(IdOf(r.counter)), Some(NewFeatureStyle(s.currentStyle, s.activeTool)), anchor)]))
      && r.featureCount == |r.canvas.value.features|
      && r.currentStyle == s.currentStyle && r.layerVisible == s.layerVisible
  {
    if s.canvas.None? || !IsDrawingTool(s.activeTool) then s
    else
      var (id, counter) := AssignFeatureId(s.counter);
      var feature := Feature(Some(id), Some(NewFeatureStyle(s.currentStyle, s.activeTool)), anchor);
      var features := s.canvas.value.features + [feature];
      s.(activeTool := NoTool, selectedFeatureId := Some(id), showStylePopup := true, popupCoordinate := anchor,
         canvas := Some(s.canvas.value.(features := features)), featureCount := |features|, counter := counter)
  }

  /** The id of feature `i`, assigning one when it has none. */
  function EnsureId(s: DrawState, i: nat): (r: (string, DrawState))
    requires s.canvas.Some? && i < |s.canvas.value.features|
    ensures s.canvas.value.features[i].id.Some? ==> r == (s.canvas.value.features[i].id.value, s)
    ensures r.1.canvas.Some? && |r.1.canvas.value.features| == |s.canvas.value.features|
    ensures r.1.canvas.value.features[i].id == Some(r.0)
    ensures r.1 == s.(canvas := r.1.canvas, counter := r.1.counter)
  {
    var f := s.canvas.value.features[i];
    if f.id.Some? then (f.id.value, s)
    else
      var (id, counter) := AssignFeatureId(s.counter);
      (id, s.(canvas := Some(s.canvas.value.(features := s.canvas.value.features[i := f.(id := Some(id))])),
              counter := counter))
  }

  /** A map click on feature `hit` (or on empty map): outside drawing and modify
      mode and outside the short pause after a drawing, a hit selects the feature
      and opens its popup; a miss closes an open popup. */
  function Click(s: DrawState, hit: Option<nat>, suppressed: bool): (r: DrawState)
    ensures s.canvas.None? || suppressed || IsDrawingTool(s.activeTool) || s.activeTool == ModifyTool ==> r == s
    ensures s.canvas.Some? && !suppressed && !IsDrawingTool(s.activeTool) && s.activeTool != ModifyTool &&
            hit.Some? && hit.value < |s.canvas.value.features| ==>
      && r.showStylePopup && r.selectedFeatureId == Some(EnsureId(s, hit.value).0)
      && r.popupCoordinate == s.canvas.value.features[hit.value].anchor
      && r.activeTool == s.activeTool && r.currentStyle == s.currentStyle
    ensures s.canvas.Some? && !suppressed && !IsDrawingTool(s.activeTool) && s.activeTool != ModifyTool &&
            !(hit.Some? && hit.value < |s.canvas.value.features|) ==>
      r == if s.showStylePopup then Deselect(s) else s
  {
    if s.canvas.None? || suppressed || IsDrawingTool(s.activeTool) || s.activeTool == ModifyTool then s
    else if hit.Some? && hit.value < |s.canvas.value.features| then
      var (id, s1) := EnsureId(s, hit.value);
      s1.(selectedFeatureId := Some(id), showStylePopup := true,
          popupCoordinate := s.canvas.value.features[hit.value].anchor)
    else if s.showStylePopup then Deselect(s)
    else s
  }

  /** A selection by the modify tool's select interaction: only the selected id
      changes (no popup in modify mode). */
  function ModifySelect(s: DrawState, selected: Option<nat>): (r: DrawState)
    ensures s.canvas.None? || s.activeTool != ModifyTool ==> r == s
    ensures s.canvas.Some? && s.activeTool == ModifyTool ==>
      && r.showStylePopup == s.showStylePopup && r.popupCoordinate == s.popupCoordinate
      && r.activeTool == s.activeTool && r.currentStyle == s.currentStyle
      && (selected.Some? && selected.value < |s.canvas.value.features| <==> r.selectedFeatureId.Some?)
  {
    if s.canvas.None? || s.activeTool != ModifyTool then s
    else if selected.Some? && selected.value < |s.canvas.value.features| then
      var (id, s1) := EnsureId(s, selected.value);
      s1.(selectedFeatureId := Some(id))
    else s.(selectedFeatureId := None)
  }

  /** The selected feature, when there is a canvas, a non-empty selected id and
      a feature with that id. */
  function SelectedIndex(s: DrawState): (r: Option<nat>)
    ensures r.Some? ==> s.canvas.Some? && r.value < |s.canvas.value.features|
    ensures r.Some? ==> s.selectedFeatureId.Some? && s.canvas.value.features[r.value].id == s.selectedFeatureId
  {
    if s.canvas.None? || s.selectedFeatureId.None? || s.selectedFeatureId.value == "" then None
    else FindFeature(s.canvas.value.features, s.selectedFeatureId.value)
  }

  /** `applyStyleToSelected`: without a selected feature nothing happens;
      otherwise the patch is merged into the feature's style (the current style
      when it has none) and into the current style. */
  function ApplyStyleToSelected(s: DrawState, patch: DrawStyle): (r: DrawState)
    ensures SelectedIndex(s).None? ==> r == s
    ensures SelectedIndex(s).Some? ==>
      var i := SelectedIndex(s).value;
      var f := s.canvas.value.features[i];
      && r.currentStyle == Merge(s.currentStyle, patch)
      && r.canvas == Some(s.canvas.value.(features := s.canvas.value.features[i :=
                            f.(drawStyle := Some(Merge(f.drawStyle.GetOr(s.currentStyle), patch)))]))
      && r == s.(currentStyle := r.currentStyle, canvas := r.canvas)
  {
    match SelectedIndex(s)
    case None => s
    case Some(i) =>
      var f := s.canvas.value.features[i];
      var updated := f.(drawStyle := Some(Merge(f.drawStyle.GetOr(s.currentStyle), patch)));
      s.(currentStyle := Merge(s.currentStyle, patch),
         canvas := Some(s.canvas.value.(features := s.canvas.value.features[i := updated])))
  }

  /** `deleteSelected`: with a canvas and a non-empty selected id, removes the
      feature with that id (if any, recounting) and clears the selection;
      otherwise nothing happens. */
  function DeleteSelected(s: DrawState): (r: DrawState)
    ensures s.canvas.None? || s.selectedFeatureId.None? || s.selectedFeatureId.value == "" ==> r == s
    ensures SelectedIndex(s).Some? ==>
      var i := SelectedIndex(s).value;
      && r.canvas == Some(s.canvas.value.(features := RemoveAt(s.canvas.value.features, i)))
      && r.featureCount == |s.canvas.value.features| - 1
      && r == Deselect(s).(canvas := r.canvas, featureCount := r.featureCount)
    ensures s.canvas.Some? && s.selectedFeatureId.Some? && s.selectedFeatureId.value != "" && SelectedIndex(s).None? ==>
      r == Deselect(s)
  {
    if s.canvas.None? || s.selectedFeatureId.None? || s.selectedFeatureId.value == "" then s
    else
      match SelectedIndex(s)
      case None => Deselect(s)
      case Some(i) =>
        var features := RemoveAt(s.canvas.value.features, i);
        Deselect(s).(canvas := Some(s.canvas.value.(features := features)), featureCount := |features|)
  }

  /** `closeStylePopup`. */
  function CloseStylePopup(s: DrawState): (r: DrawState)
    ensures r == Deselect(s)
    ensures r.activeTool == s.activeTool && r.currentStyle == s.currentStyle && r.canvas == s.canvas
  {
    Deselect(s)
  }

  /** `clearAll`: the layer loses every feature, the count drops to zero and the
      selection is cleared; tool, style and id counter are kept. */
  function ClearAll(s: DrawState): (r: DrawState)
    ensures r.featureCount == 0
    ensures s.canvas.Some? ==> r.canvas == Some(s.canvas.value.(features := []))
    ensures s.canvas.None? ==> r.canvas.None?
    ensures r == Deselect(s).(featureCount := 0, canvas := r.canvas)
  {
    var canvas := if s.canvas.Some? then Some(s.canvas.value.(features := [])) else None;
    Deselect(s).(featureCount := 0, canvas := canvas)
  }

  /** `toggleLayerVisibility`: flips the layer's own flag and mirrors it. */
  function ToggleLayerVisibility(s: DrawState): (r: DrawState)
    ensures s.canvas.None? ==> r == s
    ensures s.canvas.Some? ==>
      && r.layerVisible == !s.canvas.value.visible
      && r.canvas == Some(s.canvas.value.(visible := r.layerVisible))
      && r == s.(layerVisible := r.layerVisible, canvas := r.canvas)
  {
    if s.canvas.None? then s
    else
      var v := !s.canvas.value.visible;
      s.(layerVisible := v, canvas := Some(s.canvas.value.(visible := v)))
  }

  function SetLayerVisible(s: DrawState, visible: bool): (r: DrawState)
    ensures s.canvas.None? ==> r == s
    ensures s.canvas.Some? ==>
      r == s.(layerVisible := visible, canvas := Some(s.canvas.value.(visible := visible)))
  {
    if s.canvas.None? then s
    else s.(layerVisible := visible, canvas := Some(s.canvas.value.(visible := visible)))
  }

  // -------------------------------------------------------------------------
  // GeoJSON properties of the style

  const Prefix := "drawStyle_"

  /** A property value as `exportGeoJSON` writes it: arrays as JSON text. */
  function ExportValue(v: StyleValue, stringify: seq<real> -> string): StyleValue {
    match v
    case VNumList(items) => VStr(stringify(items))
    case _ => v
  }

  lemma PrefixInjective(a: string, b: string)
    ensures Prefix + a == Prefix + b ==> a == b
  {
    if Prefix + a == Prefix + b {
      assert (Prefix + a)[|Prefix|..] == a;
      assert (Prefix + b)[|Prefix|..] == b;
    }
  }

  /** `exportGeoJSON` for one style: every property `k` becomes `drawStyle_k`. */
  function ExportProps(st: DrawStyle, stringify: seq<real> -> string): (props: map<string, StyleValue>)
    ensures forall k | k in st :: Prefix + k in props && props[Prefix + k] == ExportValue(st[k], stringify)
    ensures forall p | p in props :: StartsWith(p, Prefix) && p[|Prefix|..] in st
  {
    forall a, b | a in st && b in st && Prefix + a == Prefix + b ensures a == b {
      PrefixInjective(a, b);
    }
    map k | k in st :: Prefix + k := ExportValue(st[k], stringify)
  }

  /** A property value as `importGeoJSON` reads it, as written: any text that
      starts with `[` is parsed as JSON, and kept when parsing fails. */
  function ImportValueAsWritten(v: StyleValue, parse: string -> Option<StyleValue>): StyleValue {
    if v.VStr? && StartsWith(v.s, "[") then parse(v.s).GetOr(v) else v
  }

  /** The same, with parsing limited to the one array-valued property. */
  function ImportValue(key: string, v: StyleValue, parse: string -> Option<StyleValue>): StyleValue {
    if key == "strokeDash" then ImportValueAsWritten(v, parse) else v
  }

  predicate HasStyleKey(props: map<string, StyleValue>) {
    exists p | p in props :: StartsWith(p, Prefix)
  }

  /** The style properties of an imported feature, with the prefix stripped. */
  function StylePatch(props: map<string, StyleValue>, decode: (string, StyleValue) -> StyleValue): (patch: DrawStyle)
    ensures forall k | k in patch :: Prefix + k in props && patch[k] == decode(k, props[Prefix + k])
    ensures forall p | p in props && StartsWith(p, Prefix) :: p[|Prefix|..] in patch
    ensures |patch| > 0 <==> HasStyleKey(props)
  {
    forall p | p in props && StartsWith(p, Prefix) ensures p == Prefix + p[|Prefix|..] {
    }
    var patch := map p | p in props && StartsWith(p, Prefix) :: p[|Prefix|..] := decode(p[|Prefix|..], props[p]);
    PatchNonEmpty(props, patch);
    patch
  }

  lemma PatchNonEmpty(props: map<string, StyleValue>, patch: DrawStyle)
    requires forall p | p in props && StartsWith(p, Prefix) :: p[|Prefix|..] in patch
    ensures HasStyleKey(props) ==> |patch| > 0
  {
    if HasStyleKey(props) {
      var p :| p in props && StartsWith(p, Prefix);
      assert p[|Prefix|..] in patch;
    }
  }

  /** Reading a property value as written; the key plays no part. */
  function AsWrittenDecoder(parse: string -> Option<StyleValue>): (string, StyleValue) -> StyleValue {
    (k: string, v: StyleValue) => ImportValueAsWritten(v, parse)
  }

  /** `importGeoJSON`'s style for one feature, as written: the defaults
      overridden by the `drawStyle_*` properties, or none without such keys. */
  function ImportedStyleAsWritten(props: map<string, StyleValue>, parse: string -> Option<StyleValue>): (r: Option<DrawStyle>)
    ensures r.Some? <==> HasStyleKey(props)
  {
    var patch := StylePatch(props, AsWrittenDecoder(parse));
    if |patch| > 0 then Some(Merge(DefaultDrawStyle(), patch)) else None
  }

  /** The same with the corrected value reading; `ReadStyle` picks it when
      `corrected` is true. */
  function ImportedStyle(props: map<string, StyleValue>, parse: string -> Option<StyleValue>): (r: Option<DrawStyle>)
    ensures r.Some? <==> HasStyleKey(props)
  {
    var patch := StylePatch(props, (k: string, v: StyleValue) => ImportValue(k, v, parse));
    if |patch| > 0 then Some(Merge(DefaultDrawStyle(), patch)) else None
  }

  /** Only `strokeDash` holds an array, and it always does. */
  predicate WellTyped(st: DrawStyle) {
    forall k | k in st :: (k == "strokeDash" <==> st[k].VNumList?)
  }

  /** The JSON text of each array in the style starts with `[` and parses back to it. */
  predicate ListsParseBack(st: DrawStyle, stringify: seq<real> -> string, parse: string -> Option<StyleValue>) {
    forall k | k in st && st[k].VNumList? ::
      StartsWith(stringify(st[k].items), "[") && parse(stringify(st[k].items)) == Some(st[k])
  }

  /** Exporting a well-typed, non-empty style and importing it back gives the
      style completed by the defaults (the style itself when it has every
      default property). */
  lemma ImportExportRoundTrip(st: DrawStyle, stringify: seq<real> -> string, parse: string -> Option<StyleValue>)
    requires WellTyped(st) && |st| > 0 && ListsParseBack(st, stringify, parse)
    ensures ImportedStyle(ExportProps(st, stringify), parse) == Some(Merge(DefaultDrawStyle(), st))
    ensures DefaultDrawStyle().Keys <= st.Keys ==> ImportedStyle(ExportProps(st, stringify), parse) == Some(st)
  {
    var props := ExportProps(st, stringify);
    ExportedPatch(st, stringify, parse);
    var k0 :| k0 in st;
    assert Prefix + k0 in props && StartsWith(Prefix + k0, Prefix);
    MergeCovering(DefaultDrawStyle(), st);
  }

  /** The style properties read back from an export are the style itself. */
  lemma ExportedPatch(st: DrawStyle, stringify: seq<real> -> string, parse: string -> Option<StyleValue>)
    requires WellTyped(st) && ListsParseBack(st, stringify, parse)
    ensures StylePatch(ExportProps(st, stringify), (k: string, v: StyleValue) => ImportValue(k, v, parse)) == st
  {
    var decode := (k: string, v: StyleValue) => ImportValue(k, v, parse);
    var patch := StylePatch(ExportProps(st, stringify), decode);
    forall k | k in st ensures k in patch && patch[k] == st[k] {
      ExportedValue(st, stringify, parse, k);
    }
    forall k | k in patch ensures k in st {
      assert (Prefix + k)[|Prefix|..] == k;
    }
  }

  /** Each property of a well-typed style is read back as exported. */
  lemma ExportedValue(st: DrawStyle, stringify: seq<real> -> string, parse: string -> Option<StyleValue>, k: string)
    requires WellTyped(st) && ListsParseBack(st, stringify, parse) && k in st
    ensures var patch := StylePatch(ExportProps(st, stringify), (k: string, v: StyleValue) => ImportValue(k, v, parse));
      k in patch && patch[k] == st[k]
  {
    PatchOfExport(st, stringify, (k: string, v: StyleValue) => ImportValue(k, v, parse), k);
  }

  /** A patch that sets every property of the base replaces it entirely. */
  lemma MergeCovering(base: DrawStyle, patch: DrawStyle)
    ensures base.Keys <= patch.Keys ==> Merge(base, patch) == patch
  {
  }

  /** The value an exported style property comes back with, before merging. */
  lemma PatchOfExport(st: DrawStyle, stringify: seq<real> -> string, decode: (string, StyleValue) -> StyleValue, k: string)
    requires k in st
    ensures k in StylePatch(ExportProps(st, stringify), decode)
    ensures StylePatch(ExportProps(st, stringify), decode)[k] == decode(k, ExportValue(st[k], stringify))
  {
    assert (Prefix + k)[|Prefix|..] == k;
  }

  /** A serializer that writes every list as the empty array. */
  function EmptyArrayText(l: seq<real>): (t: string)
    ensures StartsWith(t, "[")
  {
    "[]"
  }

  /** A parser that knows only the empty array. */
  function ParseEmptyArray(t: string): (r: Option<StyleValue>)
    ensures r.Some? <==> t == "[]"
  {
    if t == "[]" then Some(VNumList([])) else None
  }

  /** As written, a label text that happens to be JSON array text (`[]`) does
      not survive the export/import round trip: it comes back as an array. */
  lemma ImportAsWrittenBreaksTextLabel()
    ensures var st := map["text" := VStr("[]")];
      && WellTyped(st) && ListsParseBack(st, EmptyArrayText, ParseEmptyArray)
      && ImportedStyle(ExportProps(st, EmptyArrayText), ParseEmptyArray) == Some(Merge(DefaultDrawStyle(), st))
      && ImportedStyleAsWritten(ExportProps(st, EmptyArrayText), ParseEmptyArray) != Some(Merge(DefaultDrawStyle(), st))
  {
    var st := map["text" := VStr("[]")];
    TextLabelWellTyped();
    ImportExportRoundTrip(st, EmptyArrayText, ParseEmptyArray);
    TextLabelReadAsArray();
  }

  /** The label style holds no array, so it is well typed. */
  lemma TextLabelWellTyped()
    ensures var st := map["text" := VStr("[]")];
      WellTyped(st) && ListsParseBack(st, EmptyArrayText, ParseEmptyArray)
  {
    var st := map["text" := VStr("[]")];
    assert "text" != "strokeDash" by { assert |"text"| != |"strokeDash"|; }
  }

  /** As written, the exported label text `[]` is read back as the empty array. */
  lemma TextLabelReadAsArray()
    ensures var st := map["text" := VStr("[]")];
      ImportedStyleAsWritten(ExportProps(st, EmptyArrayText), ParseEmptyArray) != Some(Merge(DefaultDrawStyle(), st))
  {
    var st := map["text" := VStr("[]")];
    var props := ExportProps(st, EmptyArrayText);
    PatchOfExport(st, EmptyArrayText, AsWrittenDecoder(ParseEmptyArray), "text");
    var patch := StylePatch(props, AsWrittenDecoder(ParseEmptyArray));
    assert patch["text"] == VNumList([]);
    assert Merge(DefaultDrawStyle(), patch)["text"] != Merge(DefaultDrawStyle(), st)["text"];
  }

  /** An imported feature: its GeoJSON properties and its popup anchor. */
  datatype ImportedFeature = ImportedFeature(props: map<string, StyleValue>, anchor: Option<Coord>)

  /** How a feature's style is read from its properties. */
  type StyleReader = map<string, StyleValue> -> Option<DrawStyle>

  /** The reader `importGeoJSON` uses: as written, or with the corrected
      value reading. */
  function ReadStyle(parse: string -> Option<StyleValue>, corrected: bool): StyleReader {
    if corrected then props => ImportedStyle(props, parse)
    else props => ImportedStyleAsWritten(props, parse)
  }

  /** The features an import adds, numbered on from `counter`. */
  function ImportedFeatures(features: seq<ImportedFeature>, counter: nat, read: StyleReader): (r: seq<Feature>)
    ensures |r| == |features|
    ensures forall i | 0 <= i < |r| ::
      r[i] == Feature(Some(IdOf(counter + i + 1)), read(features[i].props), features[i].anchor)
    decreases |features|
  {
    if |features| == 0 then []
    else
      var rest := ImportedFeatures(features[1..], counter + 1, read);
      assert forall i | 1 <= i < |features| :: features[1..][i - 1] == features[i];
      [Feature(Some(IdOf(counter + 1)), read(features[0].props), features[0].anchor)] + rest
  }

  /** The loop of `importGeoJSON`: each feature, in order, gets its style from
      its properties and the next id, and joins the layer (which recounts).
      Without a canvas nothing happens. */
  function AddImported(s: DrawState, features: seq<ImportedFeature>, read: StyleReader): (r: DrawState)
    ensures r.counter >= s.counter
    decreases |features|
  {
    if s.canvas.None? || |features| == 0 then s
    else
      var (id, counter) := AssignFeatureId(s.counter);
      var f := Feature(Some(id), read(features[0].props), features[0].anchor);
      var added := s.canvas.value.features + [f];
      var s1 := s.(canvas := Some(s.canvas.value.(features := added)), counter := counter, featureCount := |added|);
      AddImported(s1, features[1..], read)
  }

  /** `importGeoJSON`. */
  function ImportGeoJson(s: DrawState, features: seq<ImportedFeature>, parse: string -> Option<StyleValue>, corrected: bool): (r: DrawState)
    ensures r.counter >= s.counter
  {
    AddImported(s, features, ReadStyle(parse, corrected))
  }

  /** What an import adds: the imported features after the existing ones, with
      consecutive fresh ids. Without a canvas nothing happens. */
  lemma {:induction false} AddImportedAppends(s: DrawState, features: seq<ImportedFeature>, read: StyleReader)
    ensures s.canvas.None? ==> AddImported(s, features, read) == s
    ensures s.canvas.Some? ==>
      && AddImported(s, features, read).canvas.Some?
      && AddImported(s, features, read).canvas.value.features
         == s.canvas.value.features + ImportedFeatures(features, s.counter, read)
      && AddImported(s, features, read).canvas.value.visible == s.canvas.value.visible
      && AddImported(s, features, read).counter == s.counter + |features|
    decreases |features|
  {
    if s.canvas.Some? {
      var fs := s.canvas.value.features;
      if |features| == 0 {
        assert ImportedFeatures(features, s.counter, read) == [];
        assert fs + [] == fs;
      } else {
        var f := Feature(Some(IdOf(s.counter + 1)), read(features[0].props), features[0].anchor);
        var added := fs + [f];
        var s1 := s.(canvas := Some(s.canvas.value.(features := added)), counter := s.counter + 1, featureCount := |added|);
        var r1 := AddImported(s1, features[1..], read);
        assert AddImported(s, features, read) == r1;
        AddImportedAppends(s1, features[1..], read);
        var rest := ImportedFeatures(features[1..], s.counter + 1, read);
        assert r1.canvas.value.features == added + rest;
        assert ImportedFeatures(features, s.counter, read) == [f] + rest;
        AppendAssoc(fs, [f], rest);
      }
    }
  }

  /** An import changes only the canvas, the counter and the feature count,
      which then counts the features on the layer. */
  lemma {:induction false} AddImportedFrame(s: DrawState, features: seq<ImportedFeature>, read: StyleReader)
    ensures var r := AddImported(s, features, read);
      && r == s.(canvas := r.canvas, counter := r.counter, featureCount := r.featureCount)
      && (|features| > 0 && s.canvas.Some? ==> r.canvas.Some? && r.featureCount == |r.canvas.value.features|)
      && (|features| == 0 || s.canvas.None? ==> r.featureCount == s.featureCount)
    decreases |features|
  {
    if s.canvas.Some? && |features| > 0 {
      var (id, counter) := AssignFeatureId(s.counter);
      var f := Feature(Some(id), read(features[0].props), features[0].anchor);
      var added := s.canvas.value.features + [f];
      var s1 := s.(canvas := Some(s.canvas.value.(features := added)), counter := counter, featureCount := |added|);
      AddImportedFrame(s1, features[1..], read);
    }
  }

  // -------------------------------------------------------------------------
  // Every operation of the tool

  datatype DrawOp =
    | InitializeOp
    | DestroyOp
    | SetToolOp(tool: DrawTool)
    | DrawEndOp(anchor: Option<Coord>)
    | ClickOp(hit: Option<nat>, suppressed: bool)
    | ModifySelectOp(selected: Option<nat>)
    | ApplyStyleOp(patch: DrawStyle)
    | DeleteSelectedOp
    | CloseStylePopupOp
    | ClearAllOp
    | ToggleLayerOp
    | SetLayerVisibleOp(visible: bool)
    | ImportOp(features: seq<ImportedFeature>, parse: string -> Option<StyleValue>)

  /** One step of the tool; `corrected` selects the corrected import reading. */
  function Apply(s: DrawState, op: DrawOp, corrected: bool): DrawState {
    match op
    case InitializeOp => Initialize(s)
    case DestroyOp => Destroy(s)
    case SetToolOp(t) => SetTool(s, t)
    case DrawEndOp(a) => DrawEnd(s, a)
    case ClickOp(hit, suppressed) => Click(s, hit, suppressed)
    case ModifySelectOp(sel) => ModifySelect(s, sel)
    case ApplyStyleOp(patch) => ApplyStyleToSelected(s, patch)
    case DeleteSelectedOp => DeleteSelected(s)
    case CloseStylePopupOp => CloseStylePopup(s)
    case ClearAllOp => ClearAll(s)
    case ToggleLayerOp => ToggleLayerVisibility(s)
    case SetLayerVisibleOp(v) => SetLayerVisible(s, v)
    case ImportOp(features, parse) => ImportGeoJson(s, features, parse, corrected)
  }

  function Run(s: DrawState, ops: seq<DrawOp>, corrected: bool): DrawState
    decreases |ops|
  {
    if |ops| == 0 then s else Run(Apply(s, ops[0], corrected), ops[1..], corrected)
  }

  /** The ids issued so far. */
  predicate Issued(id: string, counter: nat) {
    exists k | 1 <= k <= counter :: id == IdOf(k)
  }

  /** Every feature on the layer has an issued id, and no two share one. */
  predicate IdsUnique(s: DrawState) {
    s.canvas.Some? ==>
      var fs := s.canvas.value.features;
      && (forall i | 0 <= i < |fs| :: fs[i].id.Some? && Issued(fs[i].id.value, s.counter))
      && (forall i, j | 0 <= i < j < |fs| :: fs[i].id != fs[j].id)
  }

  /** The id `assignFeatureId` hands out was never handed out before. */
  lemma FreshIdNotIssued(counter: nat)
    ensures !Issued(IdOf(counter + 1), counter)
  {
    forall k | 1 <= k <= counter ensures IdOf(counter + 1) != IdOf(k) {
      IdOfInjective(k, counter + 1);
    }
  }

  lemma IssuedGrows(id: string, a: nat, b: nat)
    requires Issued(id, a) && a <= b
    ensures Issued(id, b)
  {
  }

  lemma {:induction false} ImportKeepsIdsUnique(s: DrawState, features: seq<ImportedFeature>, read: StyleReader)
    requires IdsUnique(s)
    ensures IdsUnique(AddImported(s, features, read))
    decreases |features|
  {
    if s.canvas.Some? && |features| > 0 {
      var (id, counter) := AssignFeatureId(s.counter);
      var f := Feature(Some(id), read(features[0].props), features[0].anchor);
      var fs := s.canvas.value.features;
      var added := fs + [f];
      var s1 := s.(canvas := Some(s.canvas.value.(features := added)), counter := counter, featureCount := |added|);
      FreshIdNotIssued(s.counter);
      forall i | 0 <= i < |fs| ensures Issued(fs[i].id.value, counter) {
        IssuedGrows(fs[i].id.value, s.counter, counter);
      }
      assert Issued(id, counter);
      assert IdsUnique(s1);
      ImportKeepsIdsUnique(s1, features[1..], read);
    }
  }

  lemma EnsureIdKeepsIdsUnique(s: DrawState, i: nat)
    requires IdsUnique(s) && s.canvas.Some? && i < |s.canvas.value.features|
    ensures IdsUnique(EnsureId(s, i).1)
  {
  }

  /** Finishing a drawing adds a feature with a fresh id. */
  lemma DrawEndKeepsIdsUnique(s: DrawState, a: Option<Coord>)
    requires IdsUnique(s)
    ensures IdsUnique(DrawEnd(s, a))
  {
    if s.canvas.Some? && IsDrawingTool(s.activeTool) {
      FreshIdNotIssued(s.counter);
      var fs := s.canvas.value.features;
      forall i | 0 <= i < |fs| ensures Issued(fs[i].id.value, s.counter + 1) {
        IssuedGrows(fs[i].id.value, s.counter, s.counter + 1);
      }
      assert Issued(IdOf(s.counter + 1), s.counter + 1);
    }
  }

  /** Deleting the selected feature keeps the others' ids apart. */
  lemma DeleteKeepsIdsUnique(s: DrawState)
    requires IdsUnique(s)
    ensures IdsUnique(DeleteSelected(s))
  {
    if SelectedIndex(s).Some? {
      var fs := s.canvas.value.features;
      var i := SelectedIndex(s).value;
      var r := RemoveAt(fs, i);
      forall a, b | 0 <= a < b < |r| ensures r[a].id != r[b].id {
        var a' := if a < i then a else a + 1;
        var b' := if b < i then b else b + 1;
        assert r[a] == fs[a'] && r[b] == fs[b'];
      }
    }
  }

  /** A click can only give the hit feature an id. */
  lemma ClickKeepsIdsUnique(s: DrawState, hit: Option<nat>, suppressed: bool)
    requires IdsUnique(s)
    ensures IdsUnique(Click(s, hit, suppressed))
  {
    if s.canvas.Some? && hit.Some? && hit.value < |s.canvas.value.features| {
      EnsureIdKeepsIdsUnique(s, hit.value);
    }
  }

  /** A modify-mode selection can only give the selected feature an id. */
  lemma ModifySelectKeepsIdsUnique(s: DrawState, sel: Option<nat>)
    requires IdsUnique(s)
    ensures IdsUnique(ModifySelect(s, sel))
  {
    if s.canvas.Some? && sel.Some? && sel.value < |s.canvas.value.features| {
      EnsureIdKeepsIdsUnique(s, sel.value);
    }
  }

  /** Restyling the selected feature leaves every id alone. */
  lemma ApplyStyleKeepsIdsUnique(s: DrawState, patch: DrawStyle)
    requires IdsUnique(s)
    ensures IdsUnique(ApplyStyleToSelected(s, patch))
  {
    if SelectedIndex(s).Some? {
      var i := SelectedIndex(s).value;
      var fs := s.canvas.value.features;
      var r := ApplyStyleToSelected(s, patch).canvas.value.features;
      assert |r| == |fs| && forall j | 0 <= j < |r| :: r[j].id == fs[j].id;
    }
  }

  /** No step ever gives two features on the layer the same id, and no step
      takes the id counter back. */
  lemma ApplyKeepsIdsUnique(s: DrawState, op: DrawOp, corrected: bool)
    requires IdsUnique(s)
    ensures IdsUnique(Apply(s, op, corrected))
    ensures Apply(s, op, corrected).counter >= s.counter
  {
    match op {
      case InitializeOp => LifecycleKeepsIdsUnique(s, op, corrected);
      case DestroyOp => LifecycleKeepsIdsUnique(s, op, corrected);
      case SetToolOp(t) => LifecycleKeepsIdsUnique(s, op, corrected);
      case DrawEndOp(a) => DrawEndKeepsIdsUnique(s, a);
      case ClickOp(hit, suppressed) => ClickKeepsIdsUnique(s, hit, suppressed);
      case ModifySelectOp(sel) => ModifySelectKeepsIdsUnique(s, sel);
      case ApplyStyleOp(patch) => ApplyStyleKeepsIdsUnique(s, patch);
      case DeleteSelectedOp => DeleteKeepsIdsUnique(s);
      case CloseStylePopupOp => LayerOpKeepsIdsUnique(s, op, corrected);
      case ClearAllOp => LayerOpKeepsIdsUnique(s, op, corrected);
      case ToggleLayerOp => LayerOpKeepsIdsUnique(s, op, corrected);
      case SetLayerVisibleOp(v) => LayerOpKeepsIdsUnique(s, op, corrected);
      case ImportOp(features, parse) => ImportKeepsIdsUnique(s, features, ReadStyle(parse, corrected));
    }
  }

  /** Creating or destroying the canvas and switching tools keep the ids
      unique. */
  lemma LifecycleKeepsIdsUnique(s: DrawState, op: DrawOp, corrected: bool)
    requires IdsUnique(s)
    requires op.InitializeOp? || op.DestroyOp? || op.SetToolOp?
    ensures IdsUnique(Apply(s, op, corrected))
    ensures Apply(s, op, corrected).counter >= s.counter
  {
  }

  /** Closing the popup, clearing, and toggling the layer keep the ids unique. */
  lemma LayerOpKeepsIdsUnique(s: DrawState, op: DrawOp, corrected: bool)
    requires IdsUnique(s)
    requires op.CloseStylePopupOp? || op.ClearAllOp? || op.ToggleLayerOp? || op.SetLayerVisibleOp?
    ensures IdsUnique(Apply(s, op, corrected))
    ensures Apply(s, op, corrected).counter >= s.counter
  {
  }

  lemma {:induction false} RunKeepsIdsUnique(s: DrawState, ops: seq<DrawOp>, corrected: bool)
    requires IdsUnique(s)
    ensures IdsUnique(Run(s, ops, corrected))
    ensures Run(s, ops, corrected).counter >= s.counter
    decreases |ops|
  {
    if |ops| > 0 {
      ApplyKeepsIdsUnique(s, ops[0], corrected);
      RunKeepsIdsUnique(Apply(s, ops[0], corrected), ops[1..], corrected);
    }
  }

  /** An open style popup always belongs to a selected feature, and the modify
      tool never shows the popup. */
  predicate PopupConsistent(s: DrawState) {
    && (s.showStylePopup ==> s.selectedFeatureId.Some?)
    && (s.activeTool == ModifyTool ==> !s.showStylePopup)
  }

  lemma ApplyKeepsPopupConsistent(s: DrawState, op: DrawOp, corrected: bool)
    requires PopupConsistent(s)
    ensures PopupConsistent(Apply(s, op, corrected))
  {
    if op.ImportOp? {
      AddImportedFrame(s, op.features, ReadStyle(op.parse, corrected));
    }
  }

  lemma {:induction false} RunKeepsPopupConsistent(s: DrawState, ops: seq<DrawOp>, corrected: bool)
    requires PopupConsistent(s)
    ensures PopupConsistent(Run(s, ops, corrected))
    decreases |ops|
  {
    if |ops| > 0 {
      ApplyKeepsPopupConsistent(s, ops[0], corrected);
      RunKeepsPopupConsistent(Apply(s, ops[0], corrected), ops[1..], corrected);
    }
  }

  /** From the initial state, whatever the user does, feature ids on the layer
      stay unique and the popup stays tied to a selection. */
  lemma ReachableStatesConsistent(ops: seq<DrawOp>, corrected: bool)
    ensures IdsUnique(Run(Initial, ops, corrected)) && PopupConsistent(Run(Initial, ops, corrected))
  {
    RunKeepsIdsUnique(Initial, ops, corrected);
    RunKeepsPopupConsistent(Initial, ops, corrected);
  }
}
