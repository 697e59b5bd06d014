/** The print request sent to MapFish Print (`export.py`): MapFish styles for
    the sketched features, the WMS layers to print, and the map attributes. */
module Export {
  import opened Util
  import opened PyJson

  const EmptyDict := JObj([])

  /** `props.get(key, default)` on a dict. */
  function PropOr(d: Dict, key: string, default: Json): Json {
    Lookup(d, key).GetOr(default)
  }

  // ---------------------------------------------------------------------
  // Dash styles

  /** `DASH_MAP`: the compact text of a dash array, and its MapFish style. */
  const DashMap: seq<(string, string)> := [
    ("[]", "solid"),
    ("[10,10]", "dash"),
    ("[2,6]", "dot"),
    ("[10,6,2,6]", "dashdot"),
    ("[20,10]", "longdash"),
    ("[6,6]", "dash")
  ]

  /** `table.get(key)`: the first entry with the key. */
  function TableLookup(table: seq<(string, string)>, key: string): (r: Option<string>)
    ensures r.Some? ==> exists i | 0 <= i < |table| :: table[i] == (key, r.value)
    ensures r.None? ==> forall i | 0 <= i < |table| :: table[i].0 != key
  {
    if |table| == 0 then None
    else if table[0].0 == key then Some(table[0].1)
    else
      var r := TableLookup(table[1..], key);
      assert forall i | 0 <= i < |table[1..]| :: table[1..][i] == table[i + 1];
      r
  }

  /** `s.replace(' ', '')`. */
  function RemoveSpaces(s: string): (r: string)
    ensures ' ' !in r && |r| <= |s|
  {
    if |s| == 0 then ""
    else (if s[0] == ' ' then "" else [s[0]]) + RemoveSpaces(s[1..])
  }

  /** `_dash_to_style`: a falsy dash array is solid; otherwise its text
      without spaces is looked up, with solid for anything unknown. */
  function DashToStyle(dash: Json, floatText: FloatText): (r: string)
    ensures !Truthy(dash) ==> r == "solid"
    ensures r == "solid" || exists i | 0 <= i < |DashMap| :: DashMap[i].1 == r
  {
    if !Truthy(dash) then "solid"
    else TableLookup(DashMap, RemoveSpaces(PyStr(dash, floatText))).GetOr("solid")
  }

  lemma {:induction false} RemoveSpacesAppend(a: string, b: string)
    ensures RemoveSpaces(a + b) == RemoveSpaces(a) + RemoveSpaces(b)
    decreases |a|
  {
    if |a| == 0 {
      assert a + b == b;
    } else {
      var head := if a[0] == ' ' then "" else [a[0]];
      RemoveSpacesAppend(a[1..], b);
      assert (a + b)[1..] == a[1..] + b;
      assert (a + b)[0] == a[0];
      assert RemoveSpaces(a + b) == head + RemoveSpaces(a[1..] + b);
      AppendAssoc(head, RemoveSpaces(a[1..]), RemoveSpaces(b));
    }
  }

  lemma {:induction false} RemoveSpacesNone(s: string)
    requires ' ' !in s
    ensures RemoveSpaces(s) == s
    decreases |s|
  {
    if |s| > 0 {
      RemoveSpacesNone(s[1..]);
      assert s == [s[0]] + s[1..];
    }
  }

  /** Python separates list items by `", "`; removing spaces leaves the
      compact form. */
  lemma {:induction false} RemoveSpacesJoin(parts: seq<string>)
    requires forall i | 0 <= i < |parts| :: ' ' !in parts[i]
    ensures RemoveSpaces(Join(parts, ", ")) == Join(parts, ",")
    decreases |parts|
  {
    if |parts| == 1 {
      RemoveSpacesNone(parts[0]);
    } else if |parts| > 1 {
      RemoveSpacesJoin(parts[1..]);
      RemoveSpacesNone(parts[0]);
      RemoveSpacesAppend(parts[0] + ", ", Join(parts[1..], ", "));
      RemoveSpacesAppend(parts[0], ", ");
      assert RemoveSpaces(", ") == ",";
    }
  }

  lemma IntToStringNoSpace(i: int)
    ensures ' ' !in IntToString(i)
  {
    var s := NatToString(if i < 0 then -i else i);
    assert forall k | 0 <= k < |s| :: IsDigit(s[k]);
  }

  /** A non-empty list of integers is looked up by its compact text, e.g.
      `[10, 10]` by `"[10,10]"`. */
  lemma DashIntList(items: seq<int>, floatText: FloatText)
    requires |items| > 0
    ensures var texts := seq(|items|, i requires 0 <= i < |items| => IntToString(items[i]));
      DashToStyle(JArr(seq(|items|, i requires 0 <= i < |items| => JInt(items[i]))), floatText)
        == TableLookup(DashMap, "[" + Join(texts, ",") + "]").GetOr("solid")
  {
    var texts := seq(|items|, i requires 0 <= i < |items| => IntToString(items[i]));
    var j := JArr(seq(|items|, i requires 0 <= i < |items| => JInt(items[i])));
    PyStrIntList(items, floatText);
    forall i | 0 <= i < |texts| ensures ' ' !in texts[i] {
      IntToStringNoSpace(items[i]);
    }
    CompactListText(texts);
    var key := RemoveSpaces(PyStr(j, floatText));
    assert key == "[" + Join(texts, ",") + "]";
    assert Truthy(j);
    assert DashToStyle(j, floatText) == TableLookup(DashMap, key).GetOr("solid");
  }

  /** The text of a list without spaces. */
  lemma CompactListText(texts: seq<string>)
    requires forall i | 0 <= i < |texts| :: ' ' !in texts[i]
    ensures RemoveSpaces("[" + Join(texts, ", ") + "]") == "[" + Join(texts, ",") + "]"
  {
    RemoveSpacesJoin(texts);
    RemoveSpacesAppend("[" + Join(texts, ", "), "]");
    RemoveSpacesAppend("[", Join(texts, ", "));
    assert RemoveSpaces("[") == "[";
    assert RemoveSpaces("]") == "]";
  }

  /** Every key of the table maps to its own style: the keys are distinct. */
  lemma DashMapEntries()
    ensures forall i | 0 <= i < |DashMap| :: TableLookup(DashMap, DashMap[i].0) == Some(DashMap[i].1)
  {
  }

  /** A truthy dash value is looked up by its text without spaces: a key of
      the table yields that key's style, any other text yields solid. */
  lemma DashToStyleSpec(dash: Json, floatText: FloatText)
    ensures var key := RemoveSpaces(PyStr(dash, floatText));
      && (Truthy(dash) ==>
            forall i | 0 <= i < |DashMap| :: DashMap[i].0 == key ==> DashToStyle(dash, floatText) == DashMap[i].1)
      && (Truthy(dash) && (forall i | 0 <= i < |DashMap| :: DashMap[i].0 != key) ==>
            DashToStyle(dash, floatText) == "solid")
  {
    var key := RemoveSpaces(PyStr(dash, floatText));
    if Truthy(dash) {
      forall i | 0 <= i < |DashMap| && DashMap[i].0 == key
        ensures DashToStyle(dash, floatText) == DashMap[i].1
      {
        DashMapEntries();
      }
    }
  }

  /** A dash style given as text: the text without spaces picks the style
      when it is a key of the table; an empty text, or any other, is solid. */
  lemma DashStrStyle(s: string, floatText: FloatText)
    ensures forall i | 0 <= i < |DashMap| :: DashMap[i].0 == RemoveSpaces(s) ==>
      DashToStyle(JStr(s), floatText) == DashMap[i].1
    ensures (forall i | 0 <= i < |DashMap| :: DashMap[i].0 != RemoveSpaces(s)) ==>
      DashToStyle(JStr(s), floatText) == "solid"
  {
    DashToStyleSpec(JStr(s), floatText);
    assert PyStr(JStr(s), floatText) == s;
    forall i | 0 <= i < |DashMap| && DashMap[i].0 == RemoveSpaces(s)
      ensures |s| > 0
    {
      assert |DashMap[i].0| > 0;
    }
  }

  // ---------------------------------------------------------------------
  // Geometry types

  /** The simple geometry type: a multi-geometry counts as its part type,
      anything else passes through. */
  function BaseGeomType(t: Json): (r: Json)
    ensures r == t || (t.JStr? && r.JStr? && t.s == "Multi" + r.s)
  {
    if t == JStr("Point") || t == JStr("MultiPoint") then JStr("Point")
    else if t == JStr("LineString") || t == JStr("MultiLineString") then JStr("LineString")
    else if t == JStr("Polygon") || t == JStr("MultiPolygon") then JStr("Polygon")
    else t
  }

  /** `_geom_type`: `feature.get('geometry', {}).get('type', '')`, simplified. */
  function GeomType(feature: Json): (r: PyResult<Json>)
    ensures r.Ok? ==> feature.JObj?
    ensures r.Ok? ==> r.value == BaseGeomType(At(feature, ["geometry", "type"]).GetOr(JStr("")))
  {
    var geom :- GetOr(feature, "geometry", EmptyDict);
    var t :- GetOr(geom, "type", JStr(""));
    AtGeometryType(feature);
    Ok(BaseGeomType(t))
  }

  lemma AtGeometryType(feature: Json)
    requires feature.JObj?
    requires GetOr(feature, "geometry", EmptyDict).Ok?
    requires GetOr(GetOr(feature, "geometry", EmptyDict).value, "type", JStr("")).Ok?
    ensures At(feature, ["geometry", "type"]).GetOr(JStr(""))
      == GetOr(GetOr(feature, "geometry", EmptyDict).value, "type", JStr("")).value
  {
    var geom := GetOr(feature, "geometry", EmptyDict).value;
    if HasKey(feature.entries, "geometry") {
      AtTwo(feature, "geometry", "type");
    } else {
      assert ["geometry", "type"][0] == "geometry";
    }
  }

  /** Each multi-geometry collapses to its part type, and the simple types
      are fixed points. */
  lemma GeomTypeCollapse()
    ensures BaseGeomType(JStr("MultiPoint")) == JStr("Point") && BaseGeomType(JStr("Point")) == JStr("Point")
    ensures BaseGeomType(JStr("MultiLineString")) == JStr("LineString")
    ensures BaseGeomType(JStr("LineString")) == JStr("LineString")
    ensures BaseGeomType(JStr("MultiPolygon")) == JStr("Polygon") && BaseGeomType(JStr("Polygon")) == JStr("Polygon")
  {
  }

  /** Simplifying twice changes nothing more. */
  lemma BaseGeomTypeIdempotent(t: Json)
    ensures BaseGeomType(BaseGeomType(t)) == BaseGeomType(t)
  {
  }

  // ---------------------------------------------------------------------
  // Feature styles

  /** The label style of a text feature, up to its alignment. */
  function TextHead(d: Dict, text: Json, floatText: FloatText): (r: Dict)
    ensures Keys(r) == TextHeadKeys
    ensures Lookup(r, "strokeLinecap") == Some(JStr("round")) && Lookup(r, "label") == Some(text)
  {
    TextEntries(
      text,
      JStr(PyStr(PropOr(d, "drawStyle_fontSize", JInt(12)), floatText)),
      PropOr(d, "drawStyle_fontColor", JStr("#333333")),
      if Truthy(PropOr(d, "drawStyle_fontBold", JNull)) then "bold" else "normal",
      if Truthy(PropOr(d, "drawStyle_fontItalic", JNull)) then "italic" else "normal")
  }

  /** The entries of a text style, in the order they are written. */
  function TextEntries(labelText: Json, fontSize: Json, fontColor: Json, weight: string, style: string): (r: Dict)
    ensures Keys(r) == TextHeadKeys
    ensures Lookup(r, "strokeLinecap") == Some(JStr("round")) && Lookup(r, "label") == Some(labelText)
  {
    [ ("strokeLinecap", JStr("round")),
      ("label", labelText),
      ("fontSize", fontSize),
      ("fontColor", fontColor),
      ("fontWeight", JStr(weight)),
      ("fontStyle", JStr(style)),
      ("fontFamily", JStr("sans-serif")),
      ("labelAlign", JStr("cm")) ]
  }

  /** The rotation, when there is one, and the hidden point. */
  function TextTail(d: Dict, floatText: FloatText): Dict {
    var rotation := PropOr(d, "drawStyle_textRotation", JInt(0));
    (if Truthy(rotation) then [("labelRotation", JStr(PyStr(rotation, floatText)))] else [])
      + [("pointRadius", JInt(0))]
  }

  /** The stroke of a line, polygon or point. */
  function StrokeStyle(d: Dict, floatText: FloatText): (r: Dict)
    ensures Keys(r) == StrokeKeys
    ensures Lookup(r, "strokeLinecap") == Some(JStr("round"))
    ensures Lookup(r, "strokeDashstyle") == Some(JStr(DashToStyle(PropOr(d, "drawStyle_strokeDash", JNull), floatText)))
  {
    StrokeEntries(
      PropOr(d, "drawStyle_strokeColor", JStr("#3399CC")),
      PropOr(d, "drawStyle_strokeWidth", JInt(2)),
      PropOr(d, "drawStyle_strokeOpacity", JInt(1)),
      DashToStyle(PropOr(d, "drawStyle_strokeDash", JNull), floatText))
  }

  /** The entries of a stroke, in the order they are written. */
  function StrokeEntries(color: Json, width: Json, opacity: Json, dashStyle: string): (r: Dict)
    ensures Keys(r) == StrokeKeys
    ensures Lookup(r, "strokeLinecap") == Some(JStr("round"))
    ensures Lookup(r, "strokeDashstyle") == Some(JStr(dashStyle))
  {
    var r := [ ("strokeLinecap", JStr("round")),
      ("strokeColor", color),
      ("strokeWidth", width),
      ("strokeOpacity", opacity),
      ("strokeDashstyle", JStr(dashStyle)) ];
    assert |r[0].0| == 13 && |r[1].0| == 11 && |r[2].0| == 11 && |r[3].0| == 13 && |r[4].0| == 15;
    LookupFirst(r, 4);
    r
  }

  /** The fill of a point or polygon; other geometries have none. */
  function FillStyle(d: Dict, geomType: Json): Dict {
    if geomType == JStr("Point") then
      [ ("pointRadius", PropOr(d, "drawStyle_pointRadius", JInt(5))),
        ("fillColor", PropOr(d, "drawStyle_pointColor", PropOr(d, "drawStyle_fillColor", JStr("#FFFFFF")))),
        ("fillOpacity", PropOr(d, "drawStyle_fillOpacity", JFloat(0.4))) ]
    else if geomType == JStr("Polygon") then
      [ ("fillColor", PropOr(d, "drawStyle_fillColor", JStr("#FFFFFF"))),
        ("fillOpacity", PropOr(d, "drawStyle_fillOpacity", JFloat(0.4))) ]
    else []
  }

  /** A point marked as a text feature is drawn as its label. */
  predicate IsTextStyle(d: Dict, geomType: Json) {
    Truthy(PropOr(d, "drawStyle_isTextFeature", JBool(false))) && geomType == JStr("Point")
  }

  /** `_build_mapfish_style`: only the properties must be a dict. */
  function MapfishStyle(props: Json, geomType: Json, floatText: FloatText): (r: PyResult<Json>)
    ensures r.Ok? <==> props.JObj?
    ensures r.Ok? ==> r.value.JObj?
  {
    var isText :- GetOr(props, "drawStyle_isTextFeature", JBool(false));
    var d := props.entries;
    var text := PropOr(d, "drawStyle_text", JStr(""));
    if Truthy(isText) && geomType == JStr("Point") then Ok(JObj(TextHead(d, text, floatText) + TextTail(d, floatText)))
    else Ok(JObj(StrokeStyle(d, floatText) + FillStyle(d, geomType)))
  }

  const TextHeadKeys: seq<string> :=
    ["strokeLinecap", "label", "fontSize", "fontColor", "fontWeight", "fontStyle", "fontFamily", "labelAlign"]
  const StrokeKeys: seq<string> := ["strokeLinecap", "strokeColor", "strokeWidth", "strokeOpacity", "strokeDashstyle"]

  /** The keys a text style never has, and the one it always has last. */
  lemma TextKeysFacts()
    ensures "strokeColor" !in TextHeadKeys && "strokeWidth" !in TextHeadKeys
    ensures "strokeOpacity" !in TextHeadKeys && "strokeDashstyle" !in TextHeadKeys
    ensures "pointRadius" !in TextHeadKeys && "fillColor" !in TextHeadKeys
  {
  }

  lemma StrokeKeysFacts()
    ensures "fillColor" !in StrokeKeys && "fillOpacity" !in StrokeKeys && "pointRadius" !in StrokeKeys
    ensures "strokeDashstyle" == StrokeKeys[4]
    ensures forall j | 0 <= j < 4 :: StrokeKeys[j] != "strokeDashstyle"
  {
  }

  lemma FillKeysOf(d: Dict, geomType: Json)
    ensures var keys := Keys(FillStyle(d, geomType));
      && ("fillColor" in keys <==> geomType == JStr("Point") || geomType == JStr("Polygon"))
      && ("fillOpacity" in keys <==> geomType == JStr("Point") || geomType == JStr("Polygon"))
      && ("pointRadius" in keys <==> geomType == JStr("Point"))
      && "strokeColor" !in keys && "strokeWidth" !in keys && "strokeOpacity" !in keys && "strokeDashstyle" !in keys
  {
    var keys := Keys(FillStyle(d, geomType));
    if geomType == JStr("Point") {
      assert keys == ["pointRadius", "fillColor", "fillOpacity"];
    } else if geomType == JStr("Polygon") {
      assert keys == ["fillColor", "fillOpacity"];
    } else {
      assert keys == [];
    }
  }

  lemma TextTailKeys(d: Dict, floatText: FloatText)
    ensures var keys := Keys(TextTail(d, floatText));
      && "strokeColor" !in keys && "strokeWidth" !in keys && "strokeOpacity" !in keys && "strokeDashstyle" !in keys
      && "fillColor" !in keys
      && Lookup(TextTail(d, floatText), "pointRadius") == Some(JInt(0))
  {
    var rotation := PropOr(d, "drawStyle_textRotation", JInt(0));
    var head: Dict := if Truthy(rotation) then [("labelRotation", JStr(PyStr(rotation, floatText)))] else [];
    var last: Dict := [("pointRadius", JInt(0))];
    assert TextTail(d, floatText) == head + last;
    KeysAppend(head, last);
    LookupAppend(head, last, "pointRadius");
  }

  /** A key in neither half of a concatenated dict is not in the whole. */
  lemma AbsentFromBoth(a: Dict, b: Dict, k: string)
    requires k !in Keys(a) && k !in Keys(b)
    ensures !HasKey(a + b, k)
  {
    KeysAppend(a, b);
  }

  /** The style of a text feature: its label, a hidden point, and no
      stroke or fill. */
  lemma TextStyleShape(d: Dict, text: Json, floatText: FloatText)
    ensures var r := TextHead(d, text, floatText) + TextTail(d, floatText);
      && Lookup(r, "strokeLinecap") == Some(JStr("round"))
      && Lookup(r, "label") == Some(text)
      && Lookup(r, "pointRadius") == Some(JInt(0))
      && !HasKey(r, "strokeColor") && !HasKey(r, "strokeWidth")
      && !HasKey(r, "strokeOpacity") && !HasKey(r, "strokeDashstyle")
      && !HasKey(r, "fillColor")
  {
    var head := TextHead(d, text, floatText);
    var tail := TextTail(d, floatText);
    TextKeysFacts();
    TextTailKeys(d, floatText);
    LookupAppend(head, tail, "pointRadius");
    LookupAppend(head, tail, "strokeLinecap");
    LookupAppend(head, tail, "label");
    AbsentFromBoth(head, tail, "strokeColor");
    AbsentFromBoth(head, tail, "strokeWidth");
    AbsentFromBoth(head, tail, "strokeOpacity");
    AbsentFromBoth(head, tail, "strokeDashstyle");
    AbsentFromBoth(head, tail, "fillColor");
  }

  /** The style of any other feature: its stroke, and a fill exactly for
      points and polygons. */
  lemma StrokeFillShape(d: Dict, geomType: Json, floatText: FloatText)
    ensures var r := StrokeStyle(d, floatText) + FillStyle(d, geomType);
      && Lookup(r, "strokeLinecap") == Some(JStr("round"))
      && Lookup(r, "strokeDashstyle") == Some(JStr(DashToStyle(PropOr(d, "drawStyle_strokeDash", JNull), floatText)))
      && (HasKey(r, "fillColor") <==> geomType == JStr("Point") || geomType == JStr("Polygon"))
      && (HasKey(r, "fillOpacity") <==> geomType == JStr("Point") || geomType == JStr("Polygon"))
      && (HasKey(r, "pointRadius") <==> geomType == JStr("Point"))
  {
    var stroke := StrokeStyle(d, floatText);
    var fill := FillStyle(d, geomType);
    KeysAppend(stroke, fill);
    StrokeKeysFacts();
    FillKeysOf(d, geomType);
    LookupAppend(stroke, fill, "strokeLinecap");
    LookupAppend(stroke, fill, "strokeDashstyle");
  }

  /** A text feature is a label without stroke or fill and with a hidden
      point; every other feature is stroked with the dash style of its
      properties and filled exactly when it is a point or polygon. The line
      cap is always round. */
  lemma MapfishStyleShape(d: Dict, geomType: Json, floatText: FloatText)
    ensures var r := MapfishStyle(JObj(d), geomType, floatText).value.entries;
      && Lookup(r, "strokeLinecap") == Some(JStr("round"))
      && (IsTextStyle(d, geomType) ==>
            && Lookup(r, "label") == Some(PropOr(d, "drawStyle_text", JStr("")))
            && Lookup(r, "pointRadius") == Some(JInt(0))
            && !HasKey(r, "strokeColor") && !HasKey(r, "strokeWidth")
            && !HasKey(r, "strokeOpacity") && !HasKey(r, "strokeDashstyle")
            && !HasKey(r, "fillColor"))
      && (!IsTextStyle(d, geomType) ==>
            && Lookup(r, "strokeDashstyle") == Some(JStr(DashToStyle(PropOr(d, "drawStyle_strokeDash", JNull), floatText)))
            && (HasKey(r, "fillColor") <==> geomType == JStr("Point") || geomType == JStr("Polygon"))
            && (HasKey(r, "fillOpacity") <==> geomType == JStr("Point") || geomType == JStr("Polygon"))
            && (HasKey(r, "pointRadius") <==> geomType == JStr("Point")))
  {
    var text := PropOr(d, "drawStyle_text", JStr(""));
    assert GetOr(JObj(d), "drawStyle_isTextFeature", JBool(false)) == Ok(PropOr(d, "drawStyle_isTextFeature", JBool(false)));
    if IsTextStyle(d, geomType) {
      assert MapfishStyle(JObj(d), geomType, floatText).value.entries == TextHead(d, text, floatText) + TextTail(d, floatText);
      TextStyleShape(d, text, floatText);
    } else {
      assert MapfishStyle(JObj(d), geomType, floatText).value.entries == StrokeStyle(d, floatText) + FillStyle(d, geomType);
      StrokeFillShape(d, geomType, floatText);
    }
  }

  // ---------------------------------------------------------------------
  // The draw layer

  /** The style id of the feature at position `i`: `str(i)`. */
  function StyleId(i: nat): (r: string)
    ensures |r| >= 1 && forall k | 0 <= k < |r| :: IsDigit(r[k])
  {
    NatToString(i)
  }

  /** `feature.setdefault('properties', {})['mapfishStyleId'] = id`, for a
      feature whose properties (or the empty default) are `props`. */
  function Tagged(feature: Dict, props: Dict, id: string): (r: Dict)
    ensures Lookup(r, "properties") == Some(JObj(Set(props, "mapfishStyleId", JStr(id))))
  {
    LookupSet(feature, "properties", JObj(Set(props, "mapfishStyleId", JStr(id))), "properties");
    Set(feature, "properties", JObj(Set(props, "mapfishStyleId", JStr(id))))
  }

  /** One turn of the loop in `build_draw_layer`: the style of the feature
      at position `i`, and the feature tagged with that style's id. */
  function StyleFeature(feature: Json, i: nat, floatText: FloatText): (r: PyResult<(Json, Json)>)
    ensures r.Ok? <==>
      && feature.JObj?
      && PropOr(feature.entries, "properties", EmptyDict).JObj?
      && GeomType(feature).Ok?
    ensures r.Ok? ==>
      var props := PropOr(feature.entries, "properties", EmptyDict);
      && r.value.0 == MapfishStyle(props, GeomType(feature).value, floatText).value
      && r.value.1 == JObj(Tagged(feature.entries, props.entries, StyleId(i)))
  {
    var props :- GetOr(feature, "properties", EmptyDict);
    var geomType :- GeomType(feature);
    var style :- MapfishStyle(props, geomType, floatText);
    Ok((style, JObj(Tagged(feature.entries, props.entries, StyleId(i)))))
  }

  /** The turns of the loop in `build_draw_layer`, one per feature. */
  function StyleTurns(features: seq<Json>, floatText: FloatText): (r: seq<PyResult<(Json, Json)>>)
    ensures |r| == |features|
    ensures forall j | 0 <= j < |features| :: r[j] == StyleFeature(features[j], j, floatText)
  {
    seq(|features|, j requires 0 <= j < |features| => StyleFeature(features[j], j, floatText))
  }

  /** The style entries of the loop, keyed by position. */
  function StyleEntries(styled: seq<(Json, Json)>): (r: Dict)
    ensures |r| == |styled|
    ensures forall j | 0 <= j < |styled| :: r[j] == (StyleId(j), styled[j].0)
  {
    seq(|styled|, j requires 0 <= j < |styled| => (StyleId(j), styled[j].0))
  }

  /** The tagged features of the loop. */
  function TaggedFeatures(styled: seq<(Json, Json)>): (r: seq<Json>)
    ensures |r| == |styled|
    ensures forall j | 0 <= j < |styled| :: r[j] == styled[j].1
  {
    seq(|styled|, j requires 0 <= j < |styled| => styled[j].1)
  }

  /** The fixed head of the style dict. */
  const StylesHead: Dict := [("version", JStr("1")), ("styleProperty", JStr("mapfishStyleId"))]

  /** `build_draw_layer`: a GeoJSON layer whose features carry the id of
      their style, and the styles keyed by those ids. */
  function DrawLayer(featureCollection: Json, floatText: FloatText): (r: PyResult<Json>)
    ensures r.Ok? ==> featureCollection.JObj? && r.value.JObj?
    ensures r.Ok? ==> Keys(r.value.entries) == ["type", "geoJson", "style"]
  {
    var features :- GetOr(featureCollection, "features", JArr([]));
    var items :- Iter(features);
    var styled :- AllOk(StyleTurns(items, floatText));
    Ok(LayerOf(featureCollection.entries, styled))
  }

  /** The layer dict built from the collection and the loop's results: the
      collection's features are replaced by the tagged ones, unless there
      were none. */
  function LayerOf(fc: Dict, styled: seq<(Json, Json)>): (r: Json)
    ensures r.JObj? && Keys(r.entries) == ["type", "geoJson", "style"]
  {
    var geoJson := if |styled| == 0 then JObj(fc)
      else JObj(Set(fc, "features", JArr(TaggedFeatures(styled))));
    JObj([("type", JStr("geojson")), ("geoJson", geoJson), ("style", JObj(StylesHead + StyleEntries(styled)))])
  }

  /** Tagging a feature sets its style id and changes nothing else. */
  lemma TaggedKeeps(feature: Dict, props: Dict, id: string, k: string)
    ensures At(JObj(Tagged(feature, props, id)), ["properties", "mapfishStyleId"]) == Some(JStr(id))
    ensures k != "properties" ==> Lookup(Tagged(feature, props, id), k) == Lookup(feature, k)
    ensures k != "mapfishStyleId" ==> At(JObj(Tagged(feature, props, id)), ["properties", k]) == Lookup(props, k)
  {
    var t := Tagged(feature, props, id);
    LookupSet(feature, "properties", JObj(Set(props, "mapfishStyleId", JStr(id))), k);
    AtTwo(JObj(t), "properties", "mapfishStyleId");
    AtTwo(JObj(t), "properties", k);
    LookupSet(props, "mapfishStyleId", JStr(id), "mapfishStyleId");
    LookupSet(props, "mapfishStyleId", JStr(id), k);
  }

  /** A style id is all digits, so it never clashes with the fixed head. */
  lemma StyleIdNotHead(i: nat)
    ensures !HasKey(StylesHead, StyleId(i))
  {
    var id := StyleId(i);
    assert IsDigit(id[0]);
    assert Keys(StylesHead) == ["version", "styleProperty"];
  }

  /** The style dict maps the id of every position to that position's
      style, after the fixed head. */
  lemma StyleLookup(styled: seq<(Json, Json)>, i: nat)
    requires i < |styled|
    ensures Lookup(StylesHead + StyleEntries(styled), StyleId(i)) == Some(styled[i].0)
    ensures Lookup(StylesHead + StyleEntries(styled), "version") == Some(JStr("1"))
    ensures Lookup(StylesHead + StyleEntries(styled), "styleProperty") == Some(JStr("mapfishStyleId"))
  {
    var e := StyleEntries(styled);
    StyleIdNotHead(i);
    LookupAppend(StylesHead, e, StyleId(i));
    LookupAppend(StylesHead, e, "version");
    LookupAppend(StylesHead, e, "styleProperty");
    forall j | 0 <= j < i
      ensures e[j].0 != e[i].0
    {
      NatToStringInjective(j, i);
    }
    LookupFirst(e, i);
  }

  /** The features list of a GeoJSON layer, or none. */
  function LayerFeatures(layer: Json): seq<Json> {
    match At(layer, ["geoJson", "features"])
    case Some(JArr(xs)) => xs
    case _ => []
  }

  /** The layer's style dict maps `str(i)` to the style of turn `i`,
      after the fixed head. */
  lemma LayerStyles(fc: Dict, styled: seq<(Json, Json)>)
    ensures var layer := LayerOf(fc, styled);
      && At(layer, ["type"]) == Some(JStr("geojson"))
      && At(layer, ["style", "version"]) == Some(JStr("1"))
      && At(layer, ["style", "styleProperty"]) == Some(JStr("mapfishStyleId"))
      && forall i | 0 <= i < |styled| :: At(layer, ["style", StyleId(i)]) == Some(styled[i].0)
  {
    var layer := LayerOf(fc, styled);
    var style := StylesHead + StyleEntries(styled);
    AtOne(layer, "type");
    assert Lookup(layer.entries, "style") == Some(JObj(style));
    AtTwo(layer, "style", "version");
    AtTwo(layer, "style", "styleProperty");
    LookupAppend(StylesHead, StyleEntries(styled), "version");
    LookupAppend(StylesHead, StyleEntries(styled), "styleProperty");
    forall i | 0 <= i < |styled|
      ensures At(layer, ["style", StyleId(i)]) == Some(styled[i].0)
    {
      AtTwo(layer, "style", StyleId(i));
      StyleLookup(styled, i);
    }
  }

  /** The layer's features are the tagged ones in order, and the rest of
      the collection is kept; with no features the collection is kept
      whole. */
  lemma LayerGeoJson(fc: Dict, styled: seq<(Json, Json)>)
    ensures var layer := LayerOf(fc, styled);
      && (|styled| == 0 ==> At(layer, ["geoJson"]) == Some(JObj(fc)))
      && (|styled| > 0 ==>
            && LayerFeatures(layer) == TaggedFeatures(styled)
            && forall k | k != "features" :: At(layer, ["geoJson", k]) == Lookup(fc, k))
  {
    if |styled| > 0 {
      LayerGeoJsonTagged(fc, styled);
    } else {
      AtOne(LayerOf(fc, styled), "geoJson");
    }
  }

  /** With styled features, the layer's GeoJSON is the collection with its
      features replaced by the tagged ones. */
  lemma LayerGeoJsonTagged(fc: Dict, styled: seq<(Json, Json)>)
    requires |styled| > 0
    ensures var layer := LayerOf(fc, styled);
      && LayerFeatures(layer) == TaggedFeatures(styled)
      && forall k | k != "features" :: At(layer, ["geoJson", k]) == Lookup(fc, k)
  {
    var layer := LayerOf(fc, styled);
    AtOne(layer, "geoJson");
    var tagged := TaggedFeatures(styled);
    LookupSet(fc, "features", JArr(tagged), "features");
    AtTwo(layer, "geoJson", "features");
    forall k | k != "features"
      ensures At(layer, ["geoJson", k]) == Lookup(fc, k)
    {
      AtTwo(layer, "geoJson", k);
      LookupSet(fc, "features", JArr(tagged), k);
    }
  }

  /** The loop's results, position by position. */
  lemma StyledAt(items: seq<Json>, floatText: FloatText, i: nat)
    requires AllOk(StyleTurns(items, floatText)).Ok? && i < |items|
    ensures AllOk(StyleTurns(items, floatText)).value[i] == StyleFeature(items[i], i, floatText).value
  {
  }

  /** A tagged turn carries its id and keeps the feature's other keys. */
  lemma StyleFeatureTagged(feature: Json, i: nat, floatText: FloatText)
    requires StyleFeature(feature, i, floatText).Ok?
    ensures var t := StyleFeature(feature, i, floatText).value.1;
      && t.JObj?
      && At(t, ["properties", "mapfishStyleId"]) == Some(JStr(StyleId(i)))
      && forall k | k != "properties" :: Lookup(t.entries, k) == Lookup(feature.entries, k)
  {
    var props := PropOr(feature.entries, "properties", EmptyDict);
    TaggedKeeps(feature.entries, props.entries, StyleId(i), "properties");
    forall k | k != "properties"
      ensures Lookup(StyleFeature(feature, i, floatText).value.1.entries, k) == Lookup(feature.entries, k)
    {
      TaggedKeeps(feature.entries, props.entries, StyleId(i), k);
    }
  }

  /** When every feature is styled, the layer is built from the styled
      features in their order. */
  lemma DrawLayerStyled(fc: Dict, items: seq<Json>, floatText: FloatText) returns (styled: seq<(Json, Json)>)
    requires PropOr(fc, "features", JArr([])) == JArr(items)
    requires forall j | 0 <= j < |items| :: StyleFeature(items[j], j, floatText).Ok?
    ensures DrawLayer(JObj(fc), floatText) == Ok(LayerOf(fc, styled))
    ensures |styled| == |items|
    ensures forall i | 0 <= i < |items| :: styled[i] == StyleFeature(items[i], i, floatText).value
  {
    var turns := StyleTurns(items, floatText);
    assert GetOr(JObj(fc), "features", JArr([])) == Ok(JArr(items));
    styled := AllOk(turns).value;
    forall i | 0 <= i < |items|
      ensures styled[i] == StyleFeature(items[i], i, floatText).value
    {
      StyledAt(items, floatText, i);
    }
  }

  /** The style part of a drawing layer: the layer type, the MapFish style
      version and property, and the style of each feature under its id. */
  lemma DrawLayerSpec(fc: Dict, items: seq<Json>, floatText: FloatText)
    requires PropOr(fc, "features", JArr([])) == JArr(items)
    requires forall j | 0 <= j < |items| :: StyleFeature(items[j], j, floatText).Ok?
    ensures DrawLayer(JObj(fc), floatText).Ok?
    ensures var layer := DrawLayer(JObj(fc), floatText).value;
      && At(layer, ["type"]) == Some(JStr("geojson"))
      && At(layer, ["style", "version"]) == Some(JStr("1"))
      && At(layer, ["style", "styleProperty"]) == Some(JStr("mapfishStyleId"))
      && (forall i | 0 <= i < |items| ::
            At(layer, ["style", StyleId(i)]) == Some(StyleFeature(items[i], i, floatText).value.0))
  {
    var styled := DrawLayerStyled(fc, items, floatText);
    LayerStyles(fc, styled);
  }

  /** The GeoJSON part of a drawing layer: the collection itself when it has
      no features, otherwise the collection with one feature per input
      feature and every other key kept. */
  lemma DrawLayerFeatures(fc: Dict, items: seq<Json>, floatText: FloatText)
    requires PropOr(fc, "features", JArr([])) == JArr(items)
    requires forall j | 0 <= j < |items| :: StyleFeature(items[j], j, floatText).Ok?
    ensures DrawLayer(JObj(fc), floatText).Ok?
    ensures var layer := DrawLayer(JObj(fc), floatText).value;
      && (|items| == 0 ==> At(layer, ["geoJson"]) == Some(JObj(fc)))
      && (|items| > 0 ==>
            && |LayerFeatures(layer)| == |items|
            && forall k | k != "features" :: At(layer, ["geoJson", k]) == Lookup(fc, k))
  {
    var styled := DrawLayerStyled(fc, items, floatText);
    LayerGeoJson(fc, styled);
  }

  /** Feature `i` of a drawing layer is input feature `i` carrying its style
      id in its properties and otherwise unchanged. */
  lemma DrawLayerTagged(fc: Dict, items: seq<Json>, floatText: FloatText, i: nat)
    requires PropOr(fc, "features", JArr([])) == JArr(items)
    requires forall j | 0 <= j < |items| :: StyleFeature(items[j], j, floatText).Ok?
    requires i < |items|
    ensures DrawLayer(JObj(fc), floatText).Ok?
    ensures var feature := LayerFeatures(DrawLayer(JObj(fc), floatText).value);
      && i < |feature|
      && feature[i].JObj? && items[i].JObj?
      && At(feature[i], ["properties", "mapfishStyleId"]) == Some(JStr(StyleId(i)))
      && forall k | k != "properties" :: Lookup(feature[i].entries, k) == Lookup(items[i].entries, k)
  {
    var styled := DrawLayerStyled(fc, items, floatText);
    LayerGeoJson(fc, styled);
    assert LayerFeatures(LayerOf(fc, styled))[i] == StyleFeature(items[i], i, floatText).value.1;
    StyleFeatureTagged(items[i], i, floatText);
  }

  /** `build_draw_layer` raises when the collection is not a dict, when its
      features are not iterable, when they are a non-empty dict or string
      (whose members are strings, not features), and when any feature
      cannot be styled. */
  lemma DrawLayerErrors(fc: Json, floatText: FloatText)
    ensures !fc.JObj? ==> DrawLayer(fc, floatText).Err?
    ensures fc.JObj? ==>
      var features := PropOr(fc.entries, "features", JArr([]));
      && (Iter(features).Err? ==> DrawLayer(fc, floatText).Err?)
      && ((features.JObj? && |features.entries| > 0) || (features.JStr? && |features.s| > 0) ==>
            DrawLayer(fc, floatText).Err?)
      && (features.JArr? && (exists j | 0 <= j < |features.items| :: StyleFeature(features.items[j], j, floatText).Err?) ==>
            DrawLayer(fc, floatText).Err?)
  {
    if fc.JObj? {
      var features := PropOr(fc.entries, "features", JArr([]));
      assert GetOr(fc, "features", JArr([])) == Ok(features);
      if (features.JObj? && |features.entries| > 0) || (features.JStr? && |features.s| > 0) {
        var items := Iter(features).value;
        assert items[0].JStr?;
        assert StyleTurns(items, floatText)[0].Err?;
      }
    }
  }

  // ---------------------------------------------------------------------
  // WMS layers of the print spec

  /** The interpreter's reading of a decimal string, or `None` where
      `float(s)` raises. */
  type FloatParse = string -> Option<real>

  /** `float(value)`: numbers and booleans convert, strings are parsed,
      anything else raises. */
  function PyFloat(j: Json, parseFloat: FloatParse): (r: PyResult<real>)
    ensures j.JInt? ==> r == Ok(j.i as real)
    ensures j.JFloat? ==> r == Ok(j.x)
    ensures r.Ok? <==> j.JInt? || j.JFloat? || j.JBool? || (j.JStr? && parseFloat(j.s).Some?)
  {
    match j
    case JInt(i) => Ok(i as real)
    case JFloat(x) => Ok(x)
    case JBool(b) => Ok(if b then 1.0 else 0.0)
    case JStr(s) => if parseFloat(s).Some? then Ok(parseFloat(s).value) else Err(ValueError)
    case _ => Err(TypeError)
  }

  /** The `LAYERS` parameter split at commas, as a JSON list. */
  function LayerList(param: string): (r: seq<Json>)
    ensures |r| == |Split(param, ',')|
    ensures forall i | 0 <= i < |r| :: r[i] == JStr(Split(param, ',')[i])
  {
    seq(|Split(param, ',')|, i requires 0 <= i < |Split(param, ',')| => JStr(Split(param, ',')[i]))
  }

  /** The custom parameters of every WMS print layer. */
  const TransparentParams: Json := JObj([("TRANSPARENT", JStr("true"))])

  /** The WMS layer of a print spec, before its opacity. */
  function WmsSpecLayer(baseUrl: Json, param: string): Dict {
    WmsEntries(baseUrl, JArr(LayerList(param)))
  }

  /** The fields of a WMS print layer before its opacity. */
  function WmsEntries(baseUrl: Json, layers: Json): Dict {
    [ ("type", JStr("WMS")),
      ("baseURL", baseUrl),
      ("layers", layers),
      ("imageFormat", JStr("image/png")),
      ("customParams", TransparentParams) ]
  }

  /** A WMS print layer names its type, its base URL and its layer list. */
  lemma WmsEntriesHead(baseUrl: Json, layers: Json)
    ensures var r := WmsEntries(baseUrl, layers);
      && Lookup(r, "type") == Some(JStr("WMS"))
      && Lookup(r, "baseURL") == Some(baseUrl)
      && Lookup(r, "layers") == Some(layers)
  {
    var r := WmsEntries(baseUrl, layers);
    assert |r[0].0| == 4 && |r[1].0| == 7 && |r[2].0| == 6;
    LookupFirst(r, 0);
    LookupFirst(r, 1);
    LookupFirst(r, 2);
  }

  /** A WMS print layer asks for PNG images. */
  lemma WmsEntriesFormat(baseUrl: Json, layers: Json)
    ensures Lookup(WmsEntries(baseUrl, layers), "imageFormat") == Some(JStr("image/png"))
  {
    var r := WmsEntries(baseUrl, layers);
    assert |r[0].0| == 4 && |r[1].0| == 7 && |r[2].0| == 6 && |r[3].0| == 11;
    LookupFirst(r, 3);
  }

  /** A WMS print layer asks for transparency. */
  lemma WmsEntriesParams(baseUrl: Json, layers: Json)
    ensures Lookup(WmsEntries(baseUrl, layers), "customParams") == Some(TransparentParams)
  {
    var r := WmsEntries(baseUrl, layers);
    assert |r[0].0| == 4 && |r[1].0| == 7 && |r[2].0| == 6 && |r[3].0| == 11 && |r[4].0| == 12;
    LookupFirst(r, 4);
  }

  /** A WMS print layer has no opacity of its own. */
  lemma WmsEntriesNoOpacity(baseUrl: Json, layers: Json)
    ensures !HasKey(WmsEntries(baseUrl, layers), "opacity")
  {
    var r := WmsEntries(baseUrl, layers);
    assert |r[0].0| == 4 && |r[2].0| == 6 && |r[3].0| == 11 && |r[4].0| == 12;
    assert "opacity"[0] != r[1].0[0];
    assert Keys(r) == [r[0].0, r[1].0, r[2].0, r[3].0, r[4].0];
  }

  /** The base URL of a tiled WMS layer: through the hash map when the
      layer names a hash, else the source's own URL. An unknown hash gives
      `None`. */
  function BaseUrl(layersConfig: Json, urlHash: Json, source: Dict): (r: PyResult<Json>)
    ensures !Truthy(urlHash) ==> r == Ok(PropOr(source, "url", JNull))
    ensures Truthy(urlHash) && r.Ok? ==> layersConfig.JObj?
  {
    if Truthy(urlHash) then
      var hashMap :- GetOr(layersConfig, "hash_map", EmptyDict);
      GetAnyOr(hashMap, urlHash, JNull)
    else Ok(PropOr(source, "url", JNull))
  }

  /** `opacities[name]` once `name in opacities` holds: only a dict can be
      indexed by a layer name. */
  function OpacityItem(opacities: Json, name: Json): (r: PyResult<Json>)
    ensures opacities.JObj? && name.JStr? ==> r == Index(opacities, name.s)
    ensures r.Ok? ==> opacities.JObj? && name.JStr?
  {
    if opacities.JObj? && name.JStr? then Index(opacities, name.s) else Err(TypeError)
  }

  /** The configured definition of a layer name. */
  function LayerDef(layersConfig: Json, name: Json): PyResult<Json> {
    var defs :- GetOr(layersConfig, "layers", EmptyDict);
    GetAnyOr(defs, name, JNull)
  }

  /** The opacity step: the layer gets `float(opacities[name])` when the
      request gives one for the name, and is otherwise unchanged. */
  function WithOpacity(spec: Dict, name: Json, opacities: Json, parseFloat: FloatParse): (r: PyResult<Json>)
    ensures r.Ok? ==> r.value.JObj?
    ensures r.Ok? ==> forall k | k != "opacity" :: Lookup(r.value.entries, k) == Lookup(spec, k)
    ensures r.Ok? ==>
      if opacities.JObj? && name.JStr? && HasKey(opacities.entries, name.s) then
        var opacity := PyFloat(Lookup(opacities.entries, name.s).value, parseFloat);
        opacity.Ok? && Lookup(r.value.entries, "opacity") == Some(JFloat(opacity.value))
      else r.value.entries == spec
  {
    var hasOpacity :- Contains(opacities, name);
    if !hasOpacity then Ok(JObj(spec))
    else
      var raw :- OpacityItem(opacities, name);
      var opacity :- PyFloat(raw, parseFloat);
      LookupSet(spec, "opacity", JFloat(opacity), "opacity");
      assert forall k | k != "opacity" :: Lookup(Set(spec, "opacity", JFloat(opacity)), k) == Lookup(spec, k) by {
        forall k | k != "opacity" {
          LookupSet(spec, "opacity", JFloat(opacity), k);
        }
      }
      Ok(JObj(Set(spec, "opacity", JFloat(opacity))))
  }

  /** The print layer of a tiled WMS source, or `None` without a base URL. */
  function WmsLayerFor(layersConfig: Json, layerDef: Dict, source: Dict, name: Json, opacities: Json, parseFloat: FloatParse)
    : (r: PyResult<Option<Json>>)
    ensures r.Ok? ==>
      var base := BaseUrl(layersConfig, PropOr(layerDef, "url_hash", JNull), source);
      && base.Ok?
      && (r.value.Some? <==> Truthy(base.value))
    ensures r.Ok? && r.value.Some? ==>
      var params := PropOr(source, "params", EmptyDict);
      && params.JObj?
      && var param := PropOr(params.entries, "LAYERS", JStr(""));
      && param.JStr?
      && var layer := WithOpacity(WmsSpecLayer(BaseUrl(layersConfig, PropOr(layerDef, "url_hash", JNull), source).value, param.s), name, opacities, parseFloat);
         layer.Ok? && r.value == Some(layer.value)
  {
    var baseUrl :- BaseUrl(layersConfig, PropOr(layerDef, "url_hash", JNull), source);
    if !Truthy(baseUrl) then Ok(None)
    else
      var params := PropOr(source, "params", EmptyDict);
      var param :- GetOr(params, "LAYERS", JStr(""));
      if !param.JStr? then Err(TypeError)
      else
        var layer :- WithOpacity(WmsSpecLayer(baseUrl, param.s), name, opacities, parseFloat);
        Ok(Some(layer))
  }

  /** The print layer of a configured layer definition: only tiled WMS
      layers are printed. */
  function TiledLayerFor(layersConfig: Json, layerDef: Json, name: Json, opacities: Json, parseFloat: FloatParse)
    : (r: PyResult<Option<Json>>)
    ensures r.Ok? ==>
      && layerDef.JObj? && PropOr(layerDef.entries, "source", EmptyDict).JObj?
      && var source := PropOr(layerDef.entries, "source", EmptyDict).entries;
      if PropOr(source, "type", JStr("")) == JStr("TiledWMS") then r == WmsLayerFor(layersConfig, layerDef.entries, source, name, opacities, parseFloat)
      else r == Ok(None)
  {
    var source :- GetOr(layerDef, "source", EmptyDict);
    var layerType :- GetOr(source, "type", JStr(""));
    if layerType != JStr("TiledWMS") then Ok(None)
    else WmsLayerFor(layersConfig, layerDef.entries, source.entries, name, opacities, parseFloat)
  }

  /** One turn of the layer loop in `build_mapfish_spec`: the print layer
      of one requested name, or `None` when the name is unknown, not a
      tiled WMS, or has no base URL. */
  function SpecLayerFor(layersConfig: Json, name: Json, opacities: Json, parseFloat: FloatParse): (r: PyResult<Option<Json>>)
    ensures r.Ok? ==> LayerDef(layersConfig, name).Ok?
    ensures r.Ok? && !Truthy(LayerDef(layersConfig, name).value) ==> r == Ok(None)
    ensures r.Ok? && Truthy(LayerDef(layersConfig, name).value) ==>
      r == TiledLayerFor(layersConfig, LayerDef(layersConfig, name).value, name, opacities, parseFloat)
  {
    var layerDef :- LayerDef(layersConfig, name);
    if !Truthy(layerDef) then Ok(None)
    else TiledLayerFor(layersConfig, layerDef, name, opacities, parseFloat)
  }

  /** The turns of the layer loop, one per requested name. */
  function SpecTurns(layersConfig: Json, names: seq<Json>, opacities: Json, parseFloat: FloatParse): (r: seq<PyResult<Option<Json>>>)
    ensures |r| == |names|
    ensures forall j | 0 <= j < |names| :: r[j] == SpecLayerFor(layersConfig, names[j], opacities, parseFloat)
  {
    seq(|names|, j requires 0 <= j < |names| => SpecLayerFor(layersConfig, names[j], opacities, parseFloat))
  }

  /** The layers a loop appended, in turn order. */
  function Appended(turns: seq<Option<Json>>): (r: seq<Json>)
    ensures |r| <= |turns|
    ensures forall y | y in r :: Some(y) in turns
    decreases |turns|
  {
    if |turns| == 0 then []
    else (if turns[0].Some? then [turns[0].value] else []) + Appended(turns[1..])
  }

  /** The WMS layers of the print spec, in the order the names were
      requested. */
  function SpecLayers(layersConfig: Json, names: seq<Json>, opacities: Json, parseFloat: FloatParse): (r: PyResult<seq<Json>>)
    ensures r.Ok? <==> forall j | 0 <= j < |names| :: SpecLayerFor(layersConfig, names[j], opacities, parseFloat).Ok?
  {
    var turns :- AllOk(SpecTurns(layersConfig, names, opacities, parseFloat));
    Ok(Appended(turns))
  }

  /** A requested name yields a print layer exactly when it names a
      configured tiled WMS layer with a base URL; unknown names are skipped
      without error. */
  lemma SpecLayerForSkips(layersConfig: Json, name: Json, opacities: Json, parseFloat: FloatParse)
    ensures var r := SpecLayerFor(layersConfig, name, opacities, parseFloat);
      && (LayerDef(layersConfig, name).Ok? && !Truthy(LayerDef(layersConfig, name).value) ==> r == Ok(None))
      && (r.Ok? ==>
            var layerDef := LayerDef(layersConfig, name).value;
            && (r.value.Some? ==> Truthy(layerDef) && layerDef.JObj?)
            && (Truthy(layerDef) && layerDef.JObj? ==>
                  var source := PropOr(layerDef.entries, "source", EmptyDict);
                  && source.JObj?
                  && (r.value.Some? <==>
                        && PropOr(source.entries, "type", JStr("")) == JStr("TiledWMS")
                        && Truthy(BaseUrl(layersConfig, PropOr(layerDef.entries, "url_hash", JNull), source.entries).value))))
  {
  }

  /** A WMS print layer: its base URL, its `LAYERS` split at commas, PNG
      images with transparency, and an opacity exactly when the request
      gives one for the name. */
  lemma WmsLayerShape(base: Json, param: string, name: Json, opacities: Json, parseFloat: FloatParse)
    requires WithOpacity(WmsSpecLayer(base, param), name, opacities, parseFloat).Ok?
    ensures var layer := WithOpacity(WmsSpecLayer(base, param), name, opacities, parseFloat).value.entries;
      && Lookup(layer, "type") == Some(JStr("WMS"))
      && Lookup(layer, "baseURL") == Some(base)
      && Lookup(layer, "layers") == Some(JArr(LayerList(param)))
      && Lookup(layer, "imageFormat") == Some(JStr("image/png"))
      && Lookup(layer, "customParams") == Some(TransparentParams)
      && (HasKey(layer, "opacity") <==> opacities.JObj? && name.JStr? && HasKey(opacities.entries, name.s))
  {
    WmsEntriesHead(base, JArr(LayerList(param)));
    WmsEntriesFormat(base, JArr(LayerList(param)));
    WmsEntriesParams(base, JArr(LayerList(param)));
    WmsEntriesNoOpacity(base, JArr(LayerList(param)));
  }

  /** The print layer of a requested name is the WMS layer of its
      definition's base URL and `LAYERS` parameter. */
  lemma SpecLayerForShape(layersConfig: Json, name: Json, opacities: Json, parseFloat: FloatParse)
    requires SpecLayerFor(layersConfig, name, opacities, parseFloat).Ok?
    requires SpecLayerFor(layersConfig, name, opacities, parseFloat).value.Some?
    ensures var layerDef := LayerDef(layersConfig, name).value;
      && layerDef.JObj?
      && var source := PropOr(layerDef.entries, "source", EmptyDict);
      && source.JObj?
      && var params := PropOr(source.entries, "params", EmptyDict);
      && params.JObj?
      && var param := PropOr(params.entries, "LAYERS", JStr(""));
      && param.JStr?
      && var base := BaseUrl(layersConfig, PropOr(layerDef.entries, "url_hash", JNull), source.entries);
      && base.Ok? && Truthy(base.value)
      && var layer := WithOpacity(WmsSpecLayer(base.value, param.s), name, opacities, parseFloat);
      && layer.Ok?
      && SpecLayerFor(layersConfig, name, opacities, parseFloat).value == Some(layer.value)
  {
  }

  /** The loop appends in turn order: the layers of two runs of names are
      the layers of each run, one after the other. */
  lemma {:induction false} AppendedConcat(a: seq<Option<Json>>, b: seq<Option<Json>>)
    ensures Appended(a + b) == Appended(a) + Appended(b)
    decreases |a|
  {
    if |a| == 0 {
      assert a + b == b;
    } else {
      var h := if a[0].Some? then [a[0].value] else [];
      assert (a + b)[0] == a[0];
      assert (a + b)[1..] == a[1..] + b;
      assert Appended(a + b) == h + Appended(a[1..] + b);
      assert Appended(a) == h + Appended(a[1..]);
      AppendedConcat(a[1..], b);
      AppendAssoc(h, Appended(a[1..]), Appended(b));
    }
  }

  /** The turns of two runs of names are the turns of each run. */
  lemma SpecTurnsConcat(layersConfig: Json, names: seq<Json>, more: seq<Json>, opacities: Json, parseFloat: FloatParse)
    ensures SpecTurns(layersConfig, names + more, opacities, parseFloat)
      == SpecTurns(layersConfig, names, opacities, parseFloat) + SpecTurns(layersConfig, more, opacities, parseFloat)
  {
    var all := names + more;
    var t := SpecTurns(layersConfig, all, opacities, parseFloat);
    var a := SpecTurns(layersConfig, names, opacities, parseFloat);
    var b := SpecTurns(layersConfig, more, opacities, parseFloat);
    forall j | 0 <= j < |all|
      ensures t[j] == (a + b)[j]
    {
      if j < |names| {
        assert all[j] == names[j];
      } else {
        assert all[j] == more[j - |names|];
      }
    }
  }

  /** The print layers follow the order of the requested names. */
  lemma SpecLayersConcat(layersConfig: Json, names: seq<Json>, more: seq<Json>, opacities: Json, parseFloat: FloatParse)
    requires SpecLayers(layersConfig, names, opacities, parseFloat).Ok?
    requires SpecLayers(layersConfig, more, opacities, parseFloat).Ok?
    ensures SpecLayers(layersConfig, names + more, opacities, parseFloat)
      == Ok(SpecLayers(layersConfig, names, opacities, parseFloat).value + SpecLayers(layersConfig, more, opacities, parseFloat).value)
  {
    var ta := SpecTurns(layersConfig, names, opacities, parseFloat);
    var tb := SpecTurns(layersConfig, more, opacities, parseFloat);
    SpecTurnsConcat(layersConfig, names, more, opacities, parseFloat);
    AllOkConcat(ta, tb);
    AppendedConcat(AllOk(ta).value, AllOk(tb).value);
  }

  /** The requested name yields at most one print layer. */
  lemma SpecLayersOne(layersConfig: Json, name: Json, opacities: Json, parseFloat: FloatParse)
    requires SpecLayerFor(layersConfig, name, opacities, parseFloat).Ok?
    ensures var r := SpecLayerFor(layersConfig, name, opacities, parseFloat).value;
      SpecLayers(layersConfig, [name], opacities, parseFloat) == Ok(if r.Some? then [r.value] else [])
  {
    var r := SpecLayerFor(layersConfig, name, opacities, parseFloat);
    var turns := SpecTurns(layersConfig, [name], opacities, parseFloat);
    assert turns == [r];
    assert AllOk(turns).value == [r.value];
    var opts := [r.value];
    assert Appended(opts) == if r.value.Some? then [r.value.value] else [] by {
      assert opts[1..] == [];
    }
  }

  /** Splitting a comma-joined `LAYERS` parameter gives its names back. */
  lemma LayerListJoin(parts: seq<string>)
    requires |parts| >= 1
    requires forall i | 0 <= i < |parts| :: ',' !in parts[i]
    ensures LayerList(Join(parts, ",")) == seq(|parts|, i requires 0 <= i < |parts| => JStr(parts[i]))
  {
    SplitJoin(parts, ',');
  }

  // ---------------------------------------------------------------------
  // The print spec

  /** The draw layer, on top of the others, when the request carries drawn
      features. */
  function DrawLayers(drawFeatures: Json, floatText: FloatText): (r: PyResult<seq<Json>>)
    ensures !Truthy(drawFeatures) ==> r == Ok([])
    ensures Truthy(drawFeatures) && !drawFeatures.JObj? ==> r.Err?
    ensures drawFeatures.JObj? && !Truthy(PropOr(drawFeatures.entries, "features", JNull)) ==> r == Ok([])
    ensures drawFeatures.JObj? && Truthy(PropOr(drawFeatures.entries, "features", JNull)) ==>
      && (r.Ok? <==> DrawLayer(drawFeatures, floatText).Ok?)
      && (r.Ok? ==> r.value == [DrawLayer(drawFeatures, floatText).value])
  {
    if !Truthy(drawFeatures) then Ok([])
    else
      var features :- Get(drawFeatures, "features");
      if !Truthy(features) then Ok([])
      else
        var layer :- DrawLayer(drawFeatures, floatText);
        Ok([layer])
  }

  /** `container[i]` for a non-negative integer `i`. */
  function Subscript(container: Json, i: nat): (r: PyResult<Json>)
    ensures container.JArr? ==> r == if i < |container.items| then Ok(container.items[i]) else Err(IndexError)
    ensures r.Ok? <==> (container.JArr? && i < |container.items|) || (container.JStr? && i < |container.s|)
  {
    match container
    case JArr(items) => if i < |items| then Ok(items[i]) else Err(IndexError)
    case JStr(s) => if i < |s| then Ok(JStr([s[i]])) else Err(IndexError)
    case JObj(_) => Err(KeyError(JInt(i)))
    case _ => Err(TypeError)
  }

  /** Values that add as numbers: integers, floats and booleans. */
  predicate IsNumber(j: Json) {
    j.JInt? || j.JFloat? || j.JBool?
  }

  function NumberValue(j: Json): real
    requires IsNumber(j)
  {
    match j
    case JInt(i) => i as real
    case JFloat(x) => x
    case JBool(b) => if b then 1.0 else 0.0
  }

  /** `(a + b) / 2`: true division of the sum of two numbers. Strings and
      lists add but do not divide, and everything else does not add. */
  function Midpoint(a: Json, b: Json): (r: PyResult<Json>)
    ensures r.Ok? <==> IsNumber(a) && IsNumber(b)
    ensures r.Ok? ==> r.value.JFloat? && r.value.x + r.value.x == NumberValue(a) + NumberValue(b)
  {
    if IsNumber(a) && IsNumber(b) then Ok(JFloat((NumberValue(a) + NumberValue(b)) / 2.0))
    else Err(TypeError)
  }

  /** The center of a bounding box `[minx, miny, maxx, maxy]`. */
  function Center(bbox: Json): (r: PyResult<Json>)
    ensures r.Ok? ==> bbox.JArr? && |bbox.items| >= 4
    ensures r.Ok? ==>
      IsNumber(bbox.items[0]) && IsNumber(bbox.items[1]) && IsNumber(bbox.items[2]) && IsNumber(bbox.items[3])
    ensures bbox.JArr? && |bbox.items| < 3 ==> r == Err(IndexError)
    ensures bbox.JArr? && |bbox.items| == 3 && Midpoint(bbox.items[0], bbox.items[2]).Ok? ==> r == Err(IndexError)
    ensures r.Ok? ==>
      var x := Midpoint(bbox.items[0], bbox.items[2]);
      var y := Midpoint(bbox.items[1], bbox.items[3]);
      x.Ok? && y.Ok? && r.value == JArr([x.value, y.value])
  {
    var minX :- Subscript(bbox, 0);
    var maxX :- Subscript(bbox, 2);
    var x :- Midpoint(minX, maxX);
    var minY := Subscript(bbox, 1).value;
    var maxY :- Subscript(bbox, 3);
    var y :- Midpoint(minY, maxY);
    Ok(JArr([x, y]))
  }

  /** The reference system, resolution and rotation of the printed map. */
  function MapFrame(srs: Json, floatText: FloatText): Dict {
    [("projection", JStr("EPSG:" + PyStr(srs, floatText))), ("dpi", JInt(150)), ("rotation", JInt(0))]
  }

  /** What the printed map shows. */
  function MapContent(center: Json, scale: Json, layers: seq<Json>): Dict {
    [("center", center), ("scale", scale), ("layers", JArr(layers))]
  }

  /** The `map` attribute of the print spec. */
  function MapAttributes(srs: Json, center: Json, scale: Json, layers: seq<Json>, floatText: FloatText): Dict {
    MapFrame(srs, floatText) + MapContent(center, scale, layers)
  }

  /** The scale bar attribute of every print spec. */
  const ScaleBar: Json := JObj([("geodetic", JBool(false))])

  /** The attributes of the print spec around its map. */
  function Attributes(mapSpec: Dict): Dict {
    [("map", JObj(mapSpec)), ("title", JStr("Kartenausdruck")), ("scalebar", ScaleBar)]
  }

  function PrintSpec(outputFormat: Json, mapSpec: Dict): Json {
    JObj([("layout", JStr("A4 portrait")), ("outputFormat", outputFormat), ("attributes", JObj(Attributes(mapSpec)))])
  }

  /** The names the request asks to print, in its order. */
  function RequestedNames(data: Dict): PyResult<seq<Json>> {
    Iter(PropOr(data, "layers", JArr([])))
  }

  /** `build_mapfish_spec`: the MapFish Print request for a map export. The
      requested page size is read but has no effect. */
  function BuildMapfishSpec(data: Json, layersConfig: Json, floatText: FloatText, parseFloat: FloatParse): (r: PyResult<Json>)
    ensures r.Ok? ==> data.JObj? && r.value.JObj?
    ensures r.Ok? ==>
      var d := data.entries;
      && RequestedNames(d).Ok?
      && SpecLayers(layersConfig, RequestedNames(d).value, PropOr(d, "opacities", EmptyDict), parseFloat).Ok?
      && DrawLayers(PropOr(d, "drawFeatures", JNull), floatText).Ok?
      && Center(PropOr(d, "bbox", JArr([]))).Ok?
  {
    var bbox :- GetOr(data, "bbox", JArr([]));
    var d := data.entries;
    var srs := PropOr(d, "srs", JInt(25832));
    var scale := PropOr(d, "scale", JInt(2500));
    var outputFormat := PropOr(d, "outputFormat", JStr("pdf"));
    var opacities := PropOr(d, "opacities", EmptyDict);
    var names :- RequestedNames(d);
    var specLayers :- SpecLayers(layersConfig, names, opacities, parseFloat);
    var drawLayers :- DrawLayers(PropOr(d, "drawFeatures", JNull), floatText);
    var center :- Center(bbox);
    Ok(PrintSpec(outputFormat, MapAttributes(srs, center, scale, specLayers + drawLayers, floatText)))
  }

  /** The fixed frame of the print spec around its map attributes. */
  lemma PrintSpecFrame(outputFormat: Json, mapSpec: Dict)
    ensures var spec := PrintSpec(outputFormat, mapSpec);
      && At(spec, ["layout"]) == Some(JStr("A4 portrait"))
      && At(spec, ["outputFormat"]) == Some(outputFormat)
      && Lookup(spec.entries, "attributes") == Some(JObj(Attributes(mapSpec)))
  {
    var spec := PrintSpec(outputFormat, mapSpec);
    AtOne(spec, "layout");
    AtOne(spec, "outputFormat");
    assert Lookup(spec.entries, "attributes") == Some(JObj(Attributes(mapSpec))) by { LookupFirst(spec.entries, 2); }
  }

  /** The title and scale bar of every print spec. */
  lemma PrintSpecTitle(outputFormat: Json, mapSpec: Dict)
    ensures var spec := PrintSpec(outputFormat, mapSpec);
      && At(spec, ["attributes", "title"]) == Some(JStr("Kartenausdruck"))
      && At(spec, ["attributes", "scalebar"]) == Some(ScaleBar)
  {
    var spec := PrintSpec(outputFormat, mapSpec);
    PrintSpecFrame(outputFormat, mapSpec);
    AttributesLookups(mapSpec);
    AtTwo(spec, "attributes", "title");
    AtTwo(spec, "attributes", "scalebar");
  }

  /** The fixed title and scale bar next to the map attributes. */
  lemma AttributesLookups(mapSpec: Dict)
    ensures Lookup(Attributes(mapSpec), "title") == Some(JStr("Kartenausdruck"))
    ensures Lookup(Attributes(mapSpec), "scalebar") == Some(ScaleBar)
  {
    var attributes := Attributes(mapSpec);
    assert |attributes[0].0| == 3 && |attributes[1].0| == 5 && |attributes[2].0| == 8;
    LookupFirst(attributes, 1);
    LookupFirst(attributes, 2);
  }

  /** The map attributes sit under `attributes.map`. */
  lemma PrintSpecMap(outputFormat: Json, mapSpec: Dict, k: string)
    ensures At(PrintSpec(outputFormat, mapSpec), ["attributes", "map", k]) == Lookup(mapSpec, k)
  {
    var spec := PrintSpec(outputFormat, mapSpec);
    var attributes := Attributes(mapSpec);
    PrintSpecFrame(outputFormat, mapSpec);
    assert Lookup(attributes, "map") == Some(JObj(mapSpec));
    AtThree(spec, "attributes", "map", k);
  }

  /** The projection of the reference system, and a fixed resolution and
      rotation. */
  lemma MapAttributesFrame(srs: Json, center: Json, scale: Json, layers: seq<Json>, floatText: FloatText)
    ensures var m := MapAttributes(srs, center, scale, layers, floatText);
      && Lookup(m, "projection") == Some(JStr("EPSG:" + PyStr(srs, floatText)))
      && Lookup(m, "dpi") == Some(JInt(150))
      && Lookup(m, "rotation") == Some(JInt(0))
  {
    var frame := MapFrame(srs, floatText);
    var content := MapContent(center, scale, layers);
    LookupAppend(frame, content, "projection");
    LookupAppend(frame, content, "dpi");
    LookupAppend(frame, content, "rotation");
  }

  /** The center, the scale and the layers of the map. */
  lemma MapAttributesContent(srs: Json, center: Json, scale: Json, layers: seq<Json>, floatText: FloatText)
    ensures var m := MapAttributes(srs, center, scale, layers, floatText);
      && Lookup(m, "center") == Some(center)
      && Lookup(m, "scale") == Some(scale)
      && Lookup(m, "layers") == Some(JArr(layers))
  {
    var frame := MapFrame(srs, floatText);
    var content := MapContent(center, scale, layers);
    assert Keys(frame) == ["projection", "dpi", "rotation"];
    assert !HasKey(frame, "center") && !HasKey(frame, "scale") && !HasKey(frame, "layers") by {
      assert |"center"| == 6 && |"scale"| == 5 && |"layers"| == 6;
    }
    assert Lookup(content, "center") == Some(center) by { LookupFirst(content, 0); }
    assert Lookup(content, "scale") == Some(scale) by { LookupFirst(content, 1); }
    assert Lookup(content, "layers") == Some(JArr(layers)) by {
      assert "center"[0] != "layers"[0];
      assert |"scale"| != |"layers"|;
      LookupFirst(content, 2);
    }
    LookupAppend(frame, content, "center");
    LookupAppend(frame, content, "scale");
    LookupAppend(frame, content, "layers");
  }

  /** The map attributes of a built spec, as computed from the request. */
  function SpecMap(data: Dict, layersConfig: Json, floatText: FloatText, parseFloat: FloatParse): Dict
    requires BuildMapfishSpec(JObj(data), layersConfig, floatText, parseFloat).Ok?
  {
    var names := RequestedNames(data).value;
    var specLayers := SpecLayers(layersConfig, names, PropOr(data, "opacities", EmptyDict), parseFloat).value;
    var drawLayers := DrawLayers(PropOr(data, "drawFeatures", JNull), floatText).value;
    MapAttributes(PropOr(data, "srs", JInt(25832)), Center(PropOr(data, "bbox", JArr([]))).value,
                  PropOr(data, "scale", JInt(2500)), specLayers + drawLayers, floatText)
  }

  /** A built spec is the frame around its map attributes. */
  lemma BuildSpecIsFrame(data: Dict, layersConfig: Json, floatText: FloatText, parseFloat: FloatParse)
    requires BuildMapfishSpec(JObj(data), layersConfig, floatText, parseFloat).Ok?
    ensures BuildMapfishSpec(JObj(data), layersConfig, floatText, parseFloat).value
      == PrintSpec(PropOr(data, "outputFormat", JStr("pdf")), SpecMap(data, layersConfig, floatText, parseFloat))
  {
    assert GetOr(JObj(data), "bbox", JArr([])) == Ok(PropOr(data, "bbox", JArr([])));
  }

  /** A print spec needs a dict request whose bounding box is a list of at
      least four numbers, and its layers are the requested WMS layers in
      request order with the draw layer, if any, on top. */
  lemma BuildSpecLayers(data: Dict, layersConfig: Json, floatText: FloatText, parseFloat: FloatParse)
    requires BuildMapfishSpec(JObj(data), layersConfig, floatText, parseFloat).Ok?
    ensures var spec := BuildMapfishSpec(JObj(data), layersConfig, floatText, parseFloat).value;
      var bbox := PropOr(data, "bbox", JArr([]));
      && RequestedNames(data).Ok?
      && var specLayers := SpecLayers(layersConfig, RequestedNames(data).value, PropOr(data, "opacities", EmptyDict), parseFloat);
      && var drawLayers := DrawLayers(PropOr(data, "drawFeatures", JNull), floatText);
      && specLayers.Ok? && drawLayers.Ok?
      && bbox.JArr? && |bbox.items| >= 4
      && IsNumber(bbox.items[0]) && IsNumber(bbox.items[1]) && IsNumber(bbox.items[2]) && IsNumber(bbox.items[3])
      && At(spec, ["attributes", "map", "center"]) == Some(Center(bbox).value)
      && At(spec, ["attributes", "map", "layers"]) == Some(JArr(specLayers.value + drawLayers.value))
  {
    var bbox := PropOr(data, "bbox", JArr([]));
    assert GetOr(JObj(data), "bbox", JArr([])) == Ok(bbox);
    var m := SpecMap(data, layersConfig, floatText, parseFloat);
    var outputFormat := PropOr(data, "outputFormat", JStr("pdf"));
    BuildSpecIsFrame(data, layersConfig, floatText, parseFloat);
    var names := RequestedNames(data).value;
    var specLayers := SpecLayers(layersConfig, names, PropOr(data, "opacities", EmptyDict), parseFloat).value;
    var drawLayers := DrawLayers(PropOr(data, "drawFeatures", JNull), floatText).value;
    MapAttributesContent(PropOr(data, "srs", JInt(25832)), Center(bbox).value,
                         PropOr(data, "scale", JInt(2500)), specLayers + drawLayers, floatText);
    PrintSpecMap(outputFormat, m, "center");
    PrintSpecMap(outputFormat, m, "layers");
  }

  /** The projection, scale and output format come from the request or
      their defaults; the page layout, resolution and rotation are fixed. */
  lemma BuildSpecSettings(data: Dict, layersConfig: Json, floatText: FloatText, parseFloat: FloatParse)
    requires BuildMapfishSpec(JObj(data), layersConfig, floatText, parseFloat).Ok?
    ensures var spec := BuildMapfishSpec(JObj(data), layersConfig, floatText, parseFloat).value;
      && At(spec, ["layout"]) == Some(JStr("A4 portrait"))
      && At(spec, ["outputFormat"]) == Some(PropOr(data, "outputFormat", JStr("pdf")))
      && At(spec, ["attributes", "title"]) == Some(JStr("Kartenausdruck"))
      && At(spec, ["attributes", "map", "projection"]) == Some(JStr("EPSG:" + PyStr(PropOr(data, "srs", JInt(25832)), floatText)))
      && At(spec, ["attributes", "map", "dpi"]) == Some(JInt(150))
      && At(spec, ["attributes", "map", "rotation"]) == Some(JInt(0))
      && At(spec, ["attributes", "map", "scale"]) == Some(PropOr(data, "scale", JInt(2500)))
  {
    var m := SpecMap(data, layersConfig, floatText, parseFloat);
    var outputFormat := PropOr(data, "outputFormat", JStr("pdf"));
    BuildSpecIsFrame(data, layersConfig, floatText, parseFloat);
    var names := RequestedNames(data).value;
    var specLayers := SpecLayers(layersConfig, names, PropOr(data, "opacities", EmptyDict), parseFloat).value;
    var drawLayers := DrawLayers(PropOr(data, "drawFeatures", JNull), floatText).value;
    var center := Center(PropOr(data, "bbox", JArr([]))).value;
    MapAttributesFrame(PropOr(data, "srs", JInt(25832)), center, PropOr(data, "scale", JInt(2500)), specLayers + drawLayers, floatText);
    MapAttributesContent(PropOr(data, "srs", JInt(25832)), center, PropOr(data, "scale", JInt(2500)), specLayers + drawLayers, floatText);
    PrintSpecFrame(outputFormat, m);
    PrintSpecTitle(outputFormat, m);
    PrintSpecMap(outputFormat, m, "projection");
    PrintSpecMap(outputFormat, m, "dpi");
    PrintSpecMap(outputFormat, m, "rotation");
    PrintSpecMap(outputFormat, m, "scale");
  }

  /** The center of a numeric bounding box is the midpoint of its corners. */
  lemma CenterMidpoint(bbox: seq<Json>)
    requires |bbox| >= 4 && forall i | 0 <= i < 4 :: IsNumber(bbox[i])
    ensures Center(JArr(bbox)) == Ok(JArr([
      JFloat((NumberValue(bbox[0]) + NumberValue(bbox[2])) / 2.0),
      JFloat((NumberValue(bbox[1]) + NumberValue(bbox[3])) / 2.0)]))
  {
  }

  /** `str(25832)`. */
  lemma DefaultSrsText()
    ensures IntToString(25832) == "25832"
  {
    assert NatToString(2) == "2";
    assert NatToString(25) == "25";
    assert NatToString(258) == "258";
    assert NatToString(2583) == "2583";
  }

  /** A request without projection, scale or output format prints a PDF at
      1:2500 in ETRS89 / UTM zone 32N. */
  lemma BuildSpecDefaults(data: Dict, layersConfig: Json, floatText: FloatText, parseFloat: FloatParse)
    requires BuildMapfishSpec(JObj(data), layersConfig, floatText, parseFloat).Ok?
    requires !HasKey(data, "srs") && !HasKey(data, "scale") && !HasKey(data, "outputFormat")
    ensures var spec := BuildMapfishSpec(JObj(data), layersConfig, floatText, parseFloat).value;
      && At(spec, ["outputFormat"]) == Some(JStr("pdf"))
      && At(spec, ["attributes", "map", "projection"]) == Some(JStr("EPSG:25832"))
      && At(spec, ["attributes", "map", "scale"]) == Some(JInt(2500))
  {
    BuildSpecSettings(data, layersConfig, floatText, parseFloat);
    DefaultSrsText();
    DefaultProjection();
  }

  /** The name of the default reference system. */
  lemma DefaultProjection()
    ensures "EPSG:" + "25832" == "EPSG:25832"
  {
    var a := "EPSG:" + "25832";
    var b := "EPSG:25832";
    forall i | 0 <= i < |a|
      ensures a[i] == b[i]
    {
      if i < 5 {
        assert a[i] == "EPSG:"[i];
      } else {
        assert a[i] == "25832"[i - 5];
      }
    }
  }

  /** The request must be a dict, and one without a bounding box fails:
      the default empty box has no corners. */
  lemma BuildSpecErrors(data: Json, layersConfig: Json, floatText: FloatText, parseFloat: FloatParse)
    ensures !data.JObj? ==> BuildMapfishSpec(data, layersConfig, floatText, parseFloat) == Err(TypeError)
    ensures data.JObj? && !HasKey(data.entries, "bbox") ==> BuildMapfishSpec(data, layersConfig, floatText, parseFloat).Err?
  {
  }
}
