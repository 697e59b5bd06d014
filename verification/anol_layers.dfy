/** Conversion of the loaded layer configurations into the records the
    frontend receives (`anol_background_layer`, `anol_overlay_layer`,
    `create_anol_layers` in `layers.py`), and the group assembly of
    `load_layers_config`. */
module AnolLayers {
  import opened Util
  import opened PyJson

  const EmptyDict := JObj([])

  /** `for prop in props: if prop in src: dst[prop] = src[prop]`. */
  function CopyProps(dst: Dict, src: Dict, props: seq<string>): Dict
    decreases |props|
  {
    if |props| == 0 then dst
    else match Lookup(src, props[0])
      case Some(v) => CopyProps(Set(dst, props[0], v), src, props[1..])
      case None => CopyProps(dst, src, props[1..])
  }

  /** Copying leaves every other key alone and copies exactly the listed keys
      the source has. */
  lemma {:induction false} CopyPropsLookup(dst: Dict, src: Dict, props: seq<string>, k: string)
    ensures Lookup(CopyProps(dst, src, props), k) ==
      if k in props && HasKey(src, k) then Lookup(src, k) else Lookup(dst, k)
    decreases |props|
  {
    if |props| > 0 {
      var p := props[0];
      match Lookup(src, p)
      case Some(v) =>
        CopyPropsLookup(Set(dst, p, v), src, props[1..], k);
        LookupSet(dst, p, v, k);
      case None =>
        CopyPropsLookup(dst, src, props[1..], k);
    }
  }

  lemma CopyPropsOther(dst: Dict, src: Dict, props: seq<string>, k: string)
    requires k !in props
    ensures Lookup(CopyProps(dst, src, props), k) == Lookup(dst, k)
  {
    CopyPropsLookup(dst, src, props, k);
  }

  // ---------------------------------------------------------------------
  // Source pieces both layer kinds share

  /** `layer_conf.get('source', {}).get('directAccess')` is truthy. */
  function DirectAccess(conf: Json): PyResult<bool> {
    var src :- GetOr(conf, "source", EmptyDict);
    var da :- Get(src, "directAccess");
    Ok(Truthy(da))
  }

  /** The WMS `LAYERS` parameter: the configured source layers joined with
      commas when there are any, the layer's own name otherwise. */
  function WmsLayers(conf: Json): PyResult<Json> {
    var src :- GetOr(conf, "source", EmptyDict);
    var layers :- Get(src, "layers");
    if Truthy(layers) then
      var joined :- JoinStrings(layers, ",");
      Ok(JStr(joined))
    else Index(conf, "name")
  }

  function Strings(items: seq<string>): (r: seq<Json>)
    ensures |r| == |items|
    ensures forall i | 0 <= i < |items| :: r[i] == JStr(items[i])
  {
    seq(|items|, i requires 0 <= i < |items| => JStr(items[i]))
  }

  lemma JoinStringsOf(items: seq<string>, sep: string)
    ensures JoinStrings(JArr(Strings(items)), sep) == Ok(Join(items, sep))
  {
    var js := Strings(items);
    assert seq(|js|, i requires 0 <= i < |js| => js[i].s) == items;
  }

  /** A non-empty list of source layers becomes the comma-joined `LAYERS`
      value; an empty one falls back to the layer's name. */
  lemma WmsLayersValue(conf: Json, src: Json, layers: seq<string>)
    requires conf.JObj? && Lookup(conf.entries, "source") == Some(src)
    requires src.JObj? && Lookup(src.entries, "layers") == Some(JArr(Strings(layers)))
    ensures |layers| > 0 ==> WmsLayers(conf) == Ok(JStr(Join(layers, ",")))
    ensures |layers| == 0 ==> WmsLayers(conf) == Index(conf, "name")
  {
    var js := JArr(Strings(layers));
    assert GetOr(conf, "source", EmptyDict) == Ok(src);
    assert Get(src, "layers") == Ok(js);
    if |layers| > 0 {
      assert Truthy(js);
      JoinStringsOf(layers, ",");
    } else {
      assert !Truthy(js);
    }
  }

  lemma WmsLayersWithoutSource(conf: Json)
    requires conf.JObj? && !HasKey(conf.entries, "source")
    ensures WmsLayers(conf) == Index(conf, "name")
  {
  }

  /** The WMTS `layer`: the layer's name, or the source's `layer` under direct
      access. */
  function WmtsLayer(conf: Json): PyResult<Json> {
    var name :- Index(conf, "name");
    var direct :- DirectAccess(conf);
    if direct then
      var src :- Index(conf, "source");
      Get(src, "layer")
    else Ok(name)
  }

  function WmtsSource(conf: Json): PyResult<Dict> {
    var layer :- WmtsLayer(conf);
    var src :- Index(conf, "source");
    var srs :- Index(src, "srs");
    var format :- Index(src, "format");
    var extent :- Index(src, "extent");
    var levels :- Index(src, "levels");
    var matrixSet :- Index(src, "matrixSet");
    Ok([("layer", layer), ("projection", srs), ("format", format), ("extent", extent),
        ("levels", levels), ("matrixSet", matrixSet)])
  }

  function WmsSource(conf: Json): PyResult<Dict> {
    var layers :- WmsLayers(conf);
    var src :- Index(conf, "source");
    var format :- Index(src, "format");
    var srs :- Index(src, "srs");
    Ok([("format", format), ("params", JObj([("LAYERS", layers), ("SRS", srs)]))])
  }

  predicate IsWmsType(t: Json) {
    t == JStr("wms") || t == JStr("tiledwms")
  }

  /** `source[prop] = layer_conf['source'][prop]` for the listed properties
      the configured source has. */
  function WithSourceProps(conf: Json, source: Dict, props: seq<string>): PyResult<Dict> {
    var src :- Index(conf, "source");
    if src.JObj? then Ok(CopyProps(source, src.entries, props)) else Err(TypeError)
  }

  // ---------------------------------------------------------------------
  // anol_background_layer

  const BackgroundSourceProps := ["tilePixelRatio", "tileSize", "hqUrl", "hqLayer", "hqMatrixSet"]
  const BackgroundLayerProps := ["metadataUrl", "searchConfig", "legend", "opacity", "attribution", "previewImage"]

  function BackgroundSource(conf: Json, t: Json): PyResult<Dict> {
    var source :- if t == JStr("wmts") then WmtsSource(conf)
      else if IsWmsType(t) then WmsSource(conf)
      else Err(Unsupported(t));
    WithSourceProps(conf, source, BackgroundSourceProps)
  }

  /** The background record around a finished source. */
  function BackgroundFields(name: Json, title: Json, t: Json, d: Dict, source: Dict): Dict {
    var layer := [("name", name), ("title", title), ("isBackground", JBool(true)), ("type", t),
                  ("catalog", Lookup(d, "catalog").GetOr(JBool(false))),
                  ("status", Lookup(d, "status").GetOr(JStr("active"))),
                  ("olLayer", JObj([("source", JObj(source))]))];
    CopyProps(layer, d, BackgroundLayerProps)
  }

  function BackgroundRecord(d: Dict, t: Json, source: Dict): (r: PyResult<Json>)
    ensures r.Ok? <==> HasKey(d, "name") && HasKey(d, "title")
  {
    var name :- Index(JObj(d), "name");
    var title :- Index(JObj(d), "title");
    Ok(JObj(BackgroundFields(name, title, t, d, source)))
  }

  /** `anol_background_layer`. */
  function AnolBackgroundLayer(conf: Json): (r: PyResult<Json>)
    ensures r.Ok? ==> r.value.JObj?
  {
    var t :- Index(conf, "type");
    var source :- BackgroundSource(conf, t);
    BackgroundRecord(conf.entries, t, source)
  }

  /** Only WMTS, WMS and tiled WMS layers can be backgrounds; every other type
      raises `UnsupportedLayerError`, which carries the type. */
  lemma BackgroundUnsupported(conf: Json)
    requires conf.JObj? && HasKey(conf.entries, "type")
    ensures var t := Lookup(conf.entries, "type").value;
      t != JStr("wmts") && !IsWmsType(t) ==> AnolBackgroundLayer(conf) == Err(Unsupported(t))
  {
    var t := Lookup(conf.entries, "type").value;
    assert Index(conf, "type") == Ok(t);
  }

  const BackgroundKeys := ["name", "title", "isBackground", "type", "catalog", "status", "olLayer"]

  lemma BackgroundKeysFacts()
    ensures NoDuplicates(BackgroundKeys)
    ensures "name" !in BackgroundLayerProps && "title" !in BackgroundLayerProps
    ensures "isBackground" !in BackgroundLayerProps && "type" !in BackgroundLayerProps
    ensures "olLayer" !in BackgroundLayerProps
  {
  }

  /** The fixed part of a background record, before the optional properties
      are copied in. */
  predicate BackgroundBase(layer: Dict, name: Json, title: Json, t: Json, ol: Json) {
    && |layer| == 7 && layer[0] == ("name", name) && layer[1] == ("title", title)
    && layer[2] == ("isBackground", JBool(true)) && layer[3] == ("type", t)
    && layer[4].0 == "catalog" && layer[5].0 == "status" && layer[6] == ("olLayer", ol)
  }

  /** Each fixed key of a background record finds its own value. */
  lemma BackgroundBaseLookups(layer: Dict, name: Json, title: Json, t: Json, ol: Json)
    requires BackgroundBase(layer, name, title, t, ol)
    ensures Lookup(layer, "name") == Some(name)
    ensures Lookup(layer, "title") == Some(title)
    ensures Lookup(layer, "isBackground") == Some(JBool(true))
    ensures Lookup(layer, "type") == Some(t)
    ensures Lookup(layer, "olLayer") == Some(ol)
  {
    BackgroundBaseNames(layer, name, title, t, ol);
    BackgroundBaseKind(layer, name, title, t, ol);
    BackgroundBaseOlLayer(layer, name, title, t, ol);
  }

  lemma BackgroundBaseNames(layer: Dict, name: Json, title: Json, t: Json, ol: Json)
    requires BackgroundBase(layer, name, title, t, ol)
    ensures Lookup(layer, "name") == Some(name)
    ensures Lookup(layer, "title") == Some(title)
  {
    assert |layer[0].0| == 4 && |layer[1].0| == 5;
    LookupFirst(layer, 0);
    LookupFirst(layer, 1);
  }

  lemma BackgroundBaseKind(layer: Dict, name: Json, title: Json, t: Json, ol: Json)
    requires BackgroundBase(layer, name, title, t, ol)
    ensures Lookup(layer, "isBackground") == Some(JBool(true))
    ensures Lookup(layer, "type") == Some(t)
  {
    assert |layer[0].0| == 4 && |layer[1].0| == 5 && |layer[2].0| == 12 && |layer[3].0| == 4;
    assert layer[0].0[0] == 'n' && layer[3].0[0] == 't';
    LookupFirst(layer, 2);
    LookupFirst(layer, 3);
  }

  lemma BackgroundBaseOlLayer(layer: Dict, name: Json, title: Json, t: Json, ol: Json)
    requires BackgroundBase(layer, name, title, t, ol)
    ensures Lookup(layer, "olLayer") == Some(ol)
  {
    assert |layer[0].0| == 4 && |layer[1].0| == 5 && |layer[2].0| == 12 && |layer[3].0| == 4;
    assert |layer[4].0| == 7 && |layer[5].0| == 6 && |layer[6].0| == 7;
    assert layer[4].0[0] == 'c' && layer[6].0[0] == 'o';
    forall j | 0 <= j < 6 ensures layer[j].0 != layer[6].0 {
      if j == 4 {
        assert layer[j].0[0] != layer[6].0[0];
      } else {
        assert |layer[j].0| != |layer[6].0|;
      }
    }
    LookupFirst(layer, 6);
  }

  /** The record is marked as a background, keeps name, title and type, and
      wraps the source in `olLayer`; the optional properties come from the
      configuration. */
  lemma BackgroundFieldsShape(name: Json, title: Json, t: Json, d: Dict, source: Dict, k: string)
    ensures var r := BackgroundFields(name, title, t, d, source);
      && Lookup(r, "isBackground") == Some(JBool(true))
      && Lookup(r, "name") == Some(name)
      && Lookup(r, "title") == Some(title)
      && Lookup(r, "type") == Some(t)
      && Lookup(r, "olLayer") == Some(JObj([("source", JObj(source))]))
      && (k in BackgroundLayerProps && HasKey(d, k) ==> Lookup(r, k) == Lookup(d, k))
  {
    var layer := [("name", name), ("title", title), ("isBackground", JBool(true)), ("type", t),
                  ("catalog", Lookup(d, "catalog").GetOr(JBool(false))),
                  ("status", Lookup(d, "status").GetOr(JStr("active"))),
                  ("olLayer", JObj([("source", JObj(source))]))];
    BackgroundBaseLookups(layer, name, title, t, layer[6].1);
    BackgroundKeysFacts();
    CopyPropsOther(layer, d, BackgroundLayerProps, "isBackground");
    CopyPropsOther(layer, d, BackgroundLayerProps, "name");
    CopyPropsOther(layer, d, BackgroundLayerProps, "title");
    CopyPropsOther(layer, d, BackgroundLayerProps, "type");
    CopyPropsOther(layer, d, BackgroundLayerProps, "olLayer");
    CopyPropsLookup(layer, d, BackgroundLayerProps, k);
  }

  /** A converted background has a supported type, is marked as a
      background, keeps the configured name, title and type, and wraps its
      source in `olLayer`. */
  lemma BackgroundShape(conf: Json)
    requires AnolBackgroundLayer(conf).Ok?
    ensures conf.JObj? && HasKey(conf.entries, "type")
    ensures var t := Lookup(conf.entries, "type").value;
      var r := AnolBackgroundLayer(conf).value.entries;
      && (t == JStr("wmts") || IsWmsType(t))
      && BackgroundSource(conf, t).Ok?
      && Lookup(r, "isBackground") == Some(JBool(true))
      && Lookup(r, "name") == Lookup(conf.entries, "name")
      && Lookup(r, "title") == Lookup(conf.entries, "title")
      && Lookup(r, "type") == Some(t)
      && Lookup(r, "olLayer") == Some(JObj([("source", JObj(BackgroundSource(conf, t).value))]))
  {
    var t := Lookup(conf.entries, "type").value;
    var d := conf.entries;
    BackgroundFieldsShape(Lookup(d, "name").value, Lookup(d, "title").value, t, d,
                          BackgroundSource(conf, t).value, "");
  }

  /** A WMS background asks for the layers `WmsLayers` names, in the
      configured projection. */
  lemma WmsBackgroundParams(conf: Json, t: Json)
    requires IsWmsType(t) && BackgroundSource(conf, t).Ok?
    ensures var src := Lookup(conf.entries, "source").value;
      Lookup(BackgroundSource(conf, t).value, "params") ==
        Some(JObj([("LAYERS", WmsLayers(conf).value), ("SRS", Lookup(src.entries, "srs").value)]))
  {
    var source := WmsSource(conf).value;
    var src := Index(conf, "source").value;
    assert BackgroundSource(conf, t) == WithSourceProps(conf, source, BackgroundSourceProps);
    assert BackgroundSource(conf, t).value == CopyProps(source, src.entries, BackgroundSourceProps);
    assert "params" !in BackgroundSourceProps by {
      assert |"params"| == 6;
      assert |BackgroundSourceProps[0]| == 14 && |BackgroundSourceProps[1]| == 8;
      assert |BackgroundSourceProps[2]| == 5 && |BackgroundSourceProps[3]| == 7;
      assert |BackgroundSourceProps[4]| == 11;
    }
    CopyPropsOther(source, src.entries, BackgroundSourceProps, "params");
    WmsSourceParams(conf);
  }

  /** The WMS source carries the layers and the projection as parameters. */
  lemma WmsSourceParams(conf: Json)
    requires WmsSource(conf).Ok?
    ensures var src := Lookup(conf.entries, "source").value;
      Lookup(WmsSource(conf).value, "params") ==
        Some(JObj([("LAYERS", WmsLayers(conf).value), ("SRS", Lookup(src.entries, "srs").value)]))
  {
    var source := WmsSource(conf).value;
    assert source[1].0 == "params" && source[0].0 != "params";
    LookupFirst(source, 1);
  }

  // ---------------------------------------------------------------------
  // anol_overlay_layer

  const OverlayProps := ["attribution", "metadataUrl", "showGroup", "abstract", "featureinfo", "legend"]

  /** The types whose layers are clustered vector layers. */
  predicate IsVectorType(t: Json) {
    t == JStr("postgis") || t == JStr("static_geojson") || t == JStr("digitize")
  }

  predicate IsOverlayType(t: Json) {
    IsVectorType(t) || IsWmsType(t) || t == JStr("wmts") || t == JStr("sensorthings")
  }

  /** `source['params'][key] = value`. */
  function SetParam(source: Dict, key: string, value: Json): (r: PyResult<Dict>)
    ensures r.Ok? ==> exists params: Dict ::
      (Lookup(source, "params") == Some(JObj(params)) && Lookup(r.value, "params") == Some(JObj(Set(params, key, value))))
  {
    match Lookup(source, "params")
    case None => Err(KeyError(JStr("params")))
    case Some(params) =>
      var updated :- SetKey(params, key, value);
      LookupSet(source, "params", updated, "params");
      Ok(Set(source, "params", updated))
  }

  /** The `STYLES` step: set when styles are configured. */
  function WithStyles(source: Dict, styles: Json): PyResult<Dict> {
    if Truthy(styles) then
      var joined :- JoinStrings(styles, ",");
      SetParam(source, "STYLES", JStr(joined))
    else Ok(source)
  }

  /** The `TRANSPARENT` step: set whenever transparency is configured at all. */
  function WithTransparent(source: Dict, transparent: Json): PyResult<Dict> {
    if transparent != JNull then
      SetParam(source, "TRANSPARENT", JStr(if Truthy(transparent) then "TRUE" else "FALSE"))
    else Ok(source)
  }

  /** The WMS overlay source: like a background's, plus `projection` for
      single-tile WMS, `STYLES` and `TRANSPARENT`. */
  function WmsOverlaySource(conf: Json, t: Json): PyResult<Dict> {
    var base :- WmsSource(conf);
    var src :- Index(conf, "source");
    var srs :- Index(src, "srs");
    var withProjection := if t == JStr("wms") then Set(base, "projection", srs) else base;
    var styles :- Get(src, "styles");
    var withStyles :- WithStyles(withProjection, styles);
    var transparent :- Get(src, "transparent");
    WithTransparent(withStyles, transparent)
  }

  /** `TRANSPARENT` appears exactly when the configured value is not `None`,
      as `TRUE` for a truthy value and `FALSE` otherwise. */
  lemma TransparentParam(source: Dict, transparent: Json, params: Dict)
    requires Lookup(source, "params") == Some(JObj(params))
    ensures WithTransparent(source, transparent).Ok?
    ensures var r := Lookup(WithTransparent(source, transparent).value, "params");
      && r.Some? && r.value.JObj?
      && (HasKey(r.value.entries, "TRANSPARENT") <==> HasKey(params, "TRANSPARENT") || transparent != JNull)
      && (transparent != JNull ==>
            Lookup(r.value.entries, "TRANSPARENT") == Some(JStr(if Truthy(transparent) then "TRUE" else "FALSE")))
  {
    if transparent != JNull {
      var v := JStr(if Truthy(transparent) then "TRUE" else "FALSE");
      LookupSet(source, "params", JObj(Set(params, "TRANSPARENT", v)), "params");
      LookupSet(params, "TRANSPARENT", v, "TRANSPARENT");
    }
  }

  function SensorThingsSource(conf: Json): PyResult<Dict> {
    var src :- Index(conf, "source");
    var url :- Index(src, "url");
    var urlParameters :- Index(src, "urlParameters");
    var filter :- Index(urlParameters, "filter");
    var expand :- Index(urlParameters, "expand");
    var refresh :- Index(src, "refreshInterval");
    var source := [("url", url), ("urlParameters", JObj([("filter", filter), ("expand", expand)])),
                   ("refreshInterval", refresh)];
    var direct :- DirectAccess(conf);
    if direct then Ok(Set(source, "layer", Lookup(src.entries, "layer").GetOr(JNull)))
    else Ok(source)
  }

  function OverlaySource(conf: Json, t: Json): PyResult<Dict> {
    if t == JStr("postgis") then
      var name :- Index(conf, "name");
      Ok([("additionalParameters", JObj([("layers", JArr([name]))]))])
    else if t == JStr("digitize") then
      var src :- Index(conf, "source");
      var name :- Index(src, "name");
      var srs :- Index(src, "srs");
      Ok([("layer", name), ("dataProjection", srs)])
    else if t == JStr("static_geojson") then
      var src :- Index(conf, "source");
      var srs :- Index(src, "srs");
      var file :- Index(src, "file");
      Ok([("dataProjection", srs), ("file", file)])
    else if IsWmsType(t) then WmsOverlaySource(conf, t)
    else if t == JStr("wmts") then WmtsSource(conf)
    else if t == JStr("sensorthings") then SensorThingsSource(conf)
    else Err(Unsupported(t))
  }

  /** The style step: a truthy style is attached, with its
      `externalGraphicPrefix` moved out onto the layer. */
  function WithStyle(layer: Dict, style: Json): PyResult<Dict> {
    if !Truthy(style) then Ok(layer)
    else
      var hasPrefix :- Contains(style, JStr("externalGraphicPrefix"));
      if !hasPrefix then Ok(Set(layer, "style", style))
      else if !style.JObj? then Err(TypeError)
      else
        var prefix := Lookup(style.entries, "externalGraphicPrefix").GetOr(JNull);
        Ok(Set(Set(layer, "externalGraphicPrefix", prefix), "style",
               JObj(Remove(style.entries, "externalGraphicPrefix"))))
  }

  /** The `opacity` entry, present when the configuration sets one. */
  function Opacity(d: Dict): Dict {
    match Lookup(d, "opacity")
    case Some(o) => [("opacity", o)]
    case None => []
  }

  /** The OpenLayers part: the source, initially invisible. */
  function OlLayer(d: Dict, source: Dict): Dict {
    [("source", JObj(source)), ("visible", JBool(false))] + Opacity(d)
  }

  function OverlayFields(d: Dict, t: Json, source: Dict, name: Json, title: Json): Dict {
    [("name", name), ("title", title), ("type", t),
     ("catalog", Lookup(d, "catalog").GetOr(JBool(false))),
     ("searchConfig", Lookup(d, "searchConfig").GetOr(JArr([]))),
     ("status", Lookup(d, "status").GetOr(JStr("active"))),
     ("olLayer", JObj(OlLayer(d, source)))]
  }

  /** The overlay record before the style step. */
  function OverlayBase(d: Dict, t: Json, source: Dict, name: Json, title: Json): Dict {
    var layer := OverlayFields(d, t, source, name, title) + Opacity(d);
    if IsVectorType(t) then Set(layer, "cluster", Lookup(d, "cluster").GetOr(JBool(false))) else layer
  }

  /** The overlay record after the style step: optional properties, then the
      PostGIS rewrite to a dynamic GeoJSON layer. */
  function OverlayFinish(d: Dict, t: Json, styled: Dict): Dict {
    var layer := CopyProps(styled, d, OverlayProps);
    if t == JStr("postgis") then
      Set(Set(layer, "type", JStr("dynamic_geojson")), "createIndex", Lookup(d, "create_index").GetOr(JBool(true)))
    else layer
  }

  function OverlayRecord(d: Dict, t: Json, source: Dict): PyResult<Json> {
    var name :- Index(JObj(d), "name");
    var title :- Index(JObj(d), "title");
    var styled :- WithStyle(OverlayBase(d, t, source, name, title), Lookup(d, "style").GetOr(JNull));
    Ok(JObj(OverlayFinish(d, t, styled)))
  }

  /** `anol_overlay_layer`. */
  function AnolOverlayLayer(conf: Json): (r: PyResult<Json>)
    ensures r.Ok? ==> r.value.JObj?
  {
    var t :- Index(conf, "type");
    var source :- OverlaySource(conf, t);
    OverlayRecord(conf.entries, t, source)
  }

  // ---------------------------------------------------------------------
  // Properties of the overlay record

  const OverlayKeys := ["name", "title", "type", "catalog", "searchConfig", "status", "olLayer"]

  predicate IsStyleKey(k: string) {
    k == "style" || k == "externalGraphicPrefix"
  }

  lemma OverlayKeysFacts()
    ensures NoDuplicates(OverlayKeys) && NoDuplicates(["source", "visible"])
    ensures "opacity" !in OverlayKeys && "cluster" !in OverlayKeys && "createIndex" !in OverlayKeys
    ensures "opacity" !in ["source", "visible"]
    ensures "style" !in OverlayKeys && "externalGraphicPrefix" !in OverlayKeys
    ensures "name" !in OverlayProps && "title" !in OverlayProps && "type" !in OverlayProps
    ensures "olLayer" !in OverlayProps && "cluster" !in OverlayProps && "createIndex" !in OverlayProps
    ensures "opacity" !in OverlayProps
    ensures !IsStyleKey("name") && !IsStyleKey("title") && !IsStyleKey("type") && !IsStyleKey("olLayer")
    ensures !IsStyleKey("cluster") && !IsStyleKey("createIndex") && !IsStyleKey("opacity")
  {
  }

  /** The OpenLayers part starts invisible, holds the source, and carries the
      configured opacity. */
  lemma OlLayerShape(d: Dict, source: Dict)
    ensures Lookup(OlLayer(d, source), "visible") == Some(JBool(false))
    ensures Lookup(OlLayer(d, source), "source") == Some(JObj(source))
    ensures Lookup(OlLayer(d, source), "opacity") == Lookup(d, "opacity")
  {
    var head := [("source", JObj(source)), ("visible", JBool(false))];
    OverlayKeysFacts();
    assert Keys(head) == ["source", "visible"];
    LookupEntry(head, "visible", JBool(false));
    LookupEntry(head, "source", JObj(source));
    LookupAppend(head, Opacity(d), "visible");
    LookupAppend(head, Opacity(d), "source");
    LookupAppend(head, Opacity(d), "opacity");
  }

  /** The fixed fields of an overlay record. */
  lemma OverlayFieldsLookup(d: Dict, t: Json, source: Dict, name: Json, title: Json)
    ensures var f := OverlayFields(d, t, source, name, title);
      && Lookup(f, "name") == Some(name) && Lookup(f, "title") == Some(title)
      && Lookup(f, "type") == Some(t) && Lookup(f, "olLayer") == Some(JObj(OlLayer(d, source)))
      && !HasKey(f, "opacity") && !HasKey(f, "cluster") && !HasKey(f, "createIndex")
      && !HasKey(f, "style") && !HasKey(f, "externalGraphicPrefix")
  {
    var fields := OverlayFields(d, t, source, name, title);
    OverlayKeysFacts();
    assert Keys(fields) == OverlayKeys;
    LookupEntry(fields, "name", name);
    LookupEntry(fields, "title", title);
    LookupEntry(fields, "type", t);
    LookupEntry(fields, "olLayer", JObj(OlLayer(d, source)));
  }

  /** The record before the `cluster` flag: the fixed fields, then the
      opacity. */
  lemma OverlayLayerLookup(d: Dict, t: Json, source: Dict, name: Json, title: Json, k: string)
    ensures var f := OverlayFields(d, t, source, name, title);
      Lookup(f + Opacity(d), k) == if k == "opacity" then Lookup(d, "opacity") else Lookup(f, k)
  {
    var f := OverlayFields(d, t, source, name, title);
    OverlayFieldsLookup(d, t, source, name, title);
    LookupAppend(f, Opacity(d), k);
    if k != "opacity" && !HasKey(f, k) {
      OpacityLookup(d, k);
      assert Lookup(f, k) == None;
    }
  }

  /** Before the style step the record keeps name, title and type, holds the
      OpenLayers part, copies the opacity, and has a `cluster` flag exactly
      for the vector types. */
  lemma OverlayBaseShape(d: Dict, t: Json, source: Dict, name: Json, title: Json)
    ensures var r := OverlayBase(d, t, source, name, title);
      && Lookup(r, "name") == Some(name)
      && Lookup(r, "title") == Some(title)
      && Lookup(r, "type") == Some(t)
      && Lookup(r, "olLayer") == Some(JObj(OlLayer(d, source)))
      && Lookup(r, "opacity") == Lookup(d, "opacity")
      && (HasKey(r, "cluster") <==> IsVectorType(t))
      && (IsVectorType(t) ==> Lookup(r, "cluster") == Some(Lookup(d, "cluster").GetOr(JBool(false))))
      && !HasKey(r, "createIndex")
      && !HasKey(r, "style") && !HasKey(r, "externalGraphicPrefix")
  {
    var f := OverlayFields(d, t, source, name, title);
    var layer := f + Opacity(d);
    OverlayFieldsLookup(d, t, source, name, title);
    OverlayLayerLookup(d, t, source, name, title, "name");
    OverlayLayerLookup(d, t, source, name, title, "title");
    OverlayLayerLookup(d, t, source, name, title, "type");
    OverlayLayerLookup(d, t, source, name, title, "olLayer");
    OverlayLayerLookup(d, t, source, name, title, "opacity");
    OverlayLayerLookup(d, t, source, name, title, "cluster");
    OverlayLayerLookup(d, t, source, name, title, "createIndex");
    OverlayLayerLookup(d, t, source, name, title, "style");
    OverlayLayerLookup(d, t, source, name, title, "externalGraphicPrefix");
    if IsVectorType(t) {
      var c := Lookup(d, "cluster").GetOr(JBool(false));
      LookupSet(layer, "cluster", c, "name");
      LookupSet(layer, "cluster", c, "title");
      LookupSet(layer, "cluster", c, "type");
      LookupSet(layer, "cluster", c, "olLayer");
      LookupSet(layer, "cluster", c, "opacity");
      LookupSet(layer, "cluster", c, "cluster");
      LookupSet(layer, "cluster", c, "createIndex");
      LookupSet(layer, "cluster", c, "style");
      LookupSet(layer, "cluster", c, "externalGraphicPrefix");
    }
  }

  lemma OpacityLookup(d: Dict, k: string)
    ensures Lookup(Opacity(d), k) == if k == "opacity" then Lookup(d, "opacity") else None
  {
  }

  /** The style step changes nothing but `style` and
      `externalGraphicPrefix`; a truthy style is attached with its graphic
      prefix moved onto the layer. */
  lemma WithStyleShape(layer: Dict, style: Json, k: string)
    requires WithStyle(layer, style).Ok?
    ensures var r := WithStyle(layer, style).value;
      && (!IsStyleKey(k) ==> Lookup(r, k) == Lookup(layer, k))
      && (!Truthy(style) ==> r == layer)
      && (Truthy(style) && style.JObj? && HasKey(style.entries, "externalGraphicPrefix") ==>
            && Lookup(r, "externalGraphicPrefix") == Lookup(style.entries, "externalGraphicPrefix")
            && Lookup(r, "style") == Some(JObj(Remove(style.entries, "externalGraphicPrefix"))))
  {
    if Truthy(style) {
      var has := Contains(style, JStr("externalGraphicPrefix")).value;
      if !has {
        LookupSet(layer, "style", style, k);
      } else {
        var prefix := Lookup(style.entries, "externalGraphicPrefix").GetOr(JNull);
        var rest := JObj(Remove(style.entries, "externalGraphicPrefix"));
        LookupSet(layer, "externalGraphicPrefix", prefix, k);
        LookupSet(Set(layer, "externalGraphicPrefix", prefix), "style", rest, k);
        LookupSet(layer, "externalGraphicPrefix", prefix, "externalGraphicPrefix");
        LookupSet(Set(layer, "externalGraphicPrefix", prefix), "style", rest, "externalGraphicPrefix");
        LookupSet(Set(layer, "externalGraphicPrefix", prefix), "style", rest, "style");
      }
    }
  }

  /** The final step copies the optional properties and turns a PostGIS layer
      into a dynamic GeoJSON one with an index flag that defaults to true. */
  lemma OverlayFinishShape(d: Dict, t: Json, styled: Dict, k: string)
    ensures var r := OverlayFinish(d, t, styled);
      && Lookup(r, "type") == (if t == JStr("postgis") then Some(JStr("dynamic_geojson")) else Lookup(styled, "type"))
      && (t == JStr("postgis") ==> Lookup(r, "createIndex") == Some(Lookup(d, "create_index").GetOr(JBool(true))))
      && (t != JStr("postgis") ==> Lookup(r, "createIndex") == Lookup(styled, "createIndex"))
      && (k != "type" && k != "createIndex" ==>
            Lookup(r, k) == if k in OverlayProps && HasKey(d, k) then Lookup(d, k) else Lookup(styled, k))
  {
    var layer := CopyProps(styled, d, OverlayProps);
    OverlayKeysFacts();
    CopyPropsOther(styled, d, OverlayProps, "type");
    CopyPropsOther(styled, d, OverlayProps, "createIndex");
    CopyPropsLookup(styled, d, OverlayProps, k);
    if t == JStr("postgis") {
      var ci := Lookup(d, "create_index").GetOr(JBool(true));
      var typed := Set(layer, "type", JStr("dynamic_geojson"));
      LookupSet(layer, "type", JStr("dynamic_geojson"), "type");
      LookupSet(typed, "createIndex", ci, "type");
      LookupSet(typed, "createIndex", ci, "createIndex");
      LookupSet(layer, "type", JStr("dynamic_geojson"), k);
      LookupSet(typed, "createIndex", ci, k);
    }
  }

  /** Only the seven known overlay types convert; every other type raises
      `UnsupportedLayerError`, which carries the type. */
  lemma OverlayUnsupported(conf: Json)
    requires conf.JObj? && HasKey(conf.entries, "type")
    ensures var t := Lookup(conf.entries, "type").value;
      !IsOverlayType(t) ==> AnolOverlayLayer(conf) == Err(Unsupported(t))
  {
  }

  /** A converted overlay has a known type, keeps name and title, starts
      invisible around its source, is clustered exactly when it is a vector
      layer, and a PostGIS layer becomes a dynamic GeoJSON layer whose index
      flag defaults to true. */
  lemma OverlayShape(conf: Json)
    requires AnolOverlayLayer(conf).Ok?
    ensures conf.JObj? && HasKey(conf.entries, "type")
    ensures var d := conf.entries;
      var t := Lookup(d, "type").value;
      var r := AnolOverlayLayer(conf).value.entries;
      && IsOverlayType(t)
      && OverlaySource(conf, t).Ok?
      && Lookup(r, "name") == Lookup(d, "name")
      && Lookup(r, "title") == Lookup(d, "title")
      && Lookup(r, "type") == Some(if t == JStr("postgis") then JStr("dynamic_geojson") else t)
      && Lookup(r, "olLayer") == Some(JObj(OlLayer(d, OverlaySource(conf, t).value)))
      && Lookup(OlLayer(d, OverlaySource(conf, t).value), "visible") == Some(JBool(false))
      && (HasKey(r, "cluster") <==> IsVectorType(t))
      && (HasKey(r, "createIndex") <==> t == JStr("postgis"))
      && (t == JStr("postgis") ==> Lookup(r, "createIndex") == Some(Lookup(d, "create_index").GetOr(JBool(true))))
  {
    var d := conf.entries;
    var t := Lookup(d, "type").value;
    var source := OverlaySource(conf, t).value;
    var name := Lookup(d, "name").value;
    var title := Lookup(d, "title").value;
    var base := OverlayBase(d, t, source, name, title);
    var style := Lookup(d, "style").GetOr(JNull);
    var styled := WithStyle(base, style).value;
    assert AnolOverlayLayer(conf) == Ok(JObj(OverlayFinish(d, t, styled)));
    OverlayKeysFacts();
    OverlayBaseShape(d, t, source, name, title);
    OlLayerShape(d, source);
    WithStyleShape(base, style, "name");
    WithStyleShape(base, style, "title");
    WithStyleShape(base, style, "type");
    WithStyleShape(base, style, "olLayer");
    WithStyleShape(base, style, "cluster");
    WithStyleShape(base, style, "createIndex");
    OverlayFinishShape(d, t, styled, "name");
    OverlayFinishShape(d, t, styled, "title");
    OverlayFinishShape(d, t, styled, "olLayer");
    OverlayFinishShape(d, t, styled, "cluster");
  }

  // ---------------------------------------------------------------------
  // create_anol_layers

  /** An `UnsupportedLayerError`, the one failure the conversion loops
      swallow. */
  predicate Skipped(r: PyResult<Json>) {
    r.Err? && r.error.Unsupported?
  }

  /** The loop `for layer in layers: try: out.append(convert(layer)) except
      UnsupportedLayerError: continue`, with `acc` the list built so far. */
  function ConvertAll(convert: Json -> PyResult<Json>, items: seq<Json>, acc: seq<Json>): PyResult<seq<Json>>
    decreases |items|
  {
    if |items| == 0 then Ok(acc)
    else
      var r := convert(items[0]);
      if Skipped(r) then ConvertAll(convert, items[1..], acc)
      else if r.Err? then Err(r.error)
      else ConvertAll(convert, items[1..], acc + [r.value])
  }

  /** The converted values, in order, of the conversions that succeeded. */
  function Converted(rs: seq<PyResult<Json>>): seq<Json> {
    if |rs| == 0 then []
    else (if rs[0].Ok? then [rs[0].value] else []) + Converted(rs[1..])
  }

  /** The first failure that is not a skip, if any. */
  function FirstFailure(rs: seq<PyResult<Json>>): Option<PyError> {
    if |rs| == 0 then None
    else if rs[0].Err? && !Skipped(rs[0]) then Some(rs[0].error)
    else FirstFailure(rs[1..])
  }

  function Results(convert: Json -> PyResult<Json>, items: seq<Json>): (rs: seq<PyResult<Json>>)
    ensures |rs| == |items|
    ensures forall i | 0 <= i < |items| :: rs[i] == convert(items[i])
  {
    seq(|items|, i requires 0 <= i < |items| => convert(items[i]))
  }

  /** The loop fails with the first failure that is not a skip; otherwise it
      returns exactly the successful conversions, in input order: skipped
      layers disappear and their siblings stay. */
  lemma {:induction false} ConvertAllSpec(convert: Json -> PyResult<Json>, items: seq<Json>, acc: seq<Json>)
    ensures var rs := Results(convert, items);
      ConvertAll(convert, items, acc) ==
        match FirstFailure(rs)
        case Some(e) => Err(e)
        case None => Ok(acc + Converted(rs))
    decreases |items|
  {
    var rs := Results(convert, items);
    if |items| == 0 {
      assert acc + [] == acc;
    } else {
      assert Results(convert, items[1..]) == rs[1..];
      var r := convert(items[0]);
      if Skipped(r) {
        assert Converted(rs) == Converted(rs[1..]);
        ConvertAllSpec(convert, items[1..], acc);
      } else if r.Ok? {
        ConvertAllSpec(convert, items[1..], acc + [r.value]);
        AppendAssoc(acc, [r.value], Converted(rs[1..]));
      }
    }
  }

  /** Nothing fails and nothing is skipped: every item converts. */
  lemma {:induction false} ConvertedAll(rs: seq<PyResult<Json>>)
    requires forall i | 0 <= i < |rs| :: rs[i].Ok?
    ensures |Converted(rs)| == |rs|
    ensures forall i | 0 <= i < |rs| :: Converted(rs)[i] == rs[i].value
  {
    if |rs| > 0 {
      ConvertedAll(rs[1..]);
    }
  }

  /** Every converted value came out of a successful conversion. */
  lemma {:induction false} ConvertedFrom(rs: seq<PyResult<Json>>, v: Json)
    requires v in Converted(rs)
    ensures exists i | 0 <= i < |rs| :: rs[i] == Ok(v)
  {
    if |rs| > 0 {
      if rs[0].Ok? && v == rs[0].value {
        assert rs[0] == Ok(v);
      } else {
        ConvertedFrom(rs[1..], v);
        var i :| 0 <= i < |rs[1..]| && rs[1..][i] == Ok(v);
        assert rs[i + 1] == Ok(v);
      }
    }
  }

  const GroupDefaults: Dict := [
    ("metadataUrl", JStr("")), ("searchConfig", JArr([])), ("showGroup", JBool(true)),
    ("abstract", JStr("")), ("legend", JBool(false)), ("singleSelect", JBool(false)),
    ("singleSelectGroup", JBool(false)), ("catalog", JBool(false)), ("status", JStr("active"))]

  /** `group.get(key, default)` for every defaulted group field. */
  function GroupSettings(d: Dict, defaults: Dict): (r: Dict)
    ensures Keys(r) == Keys(defaults)
    ensures forall i | 0 <= i < |defaults| :: r[i].1 == Lookup(d, defaults[i].0).GetOr(defaults[i].1)
    decreases |defaults|
  {
    if |defaults| == 0 then []
    else [(defaults[0].0, Lookup(d, defaults[0].0).GetOr(defaults[0].1))] + GroupSettings(d, defaults[1..])
  }

  /** An `anol_group` record around its converted overlays. */
  function GroupRecord(name: Json, title: Json, d: Dict, overlays: seq<Json>): Dict {
    [("name", name), ("title", title)] + GroupSettings(d, GroupDefaults)
      + [("layers", JArr(overlays)),
         ("defaultVisibleLayers", Lookup(d, "defaultVisibleLayers").GetOr(JArr([])))]
  }

  /** One `anol_group`: the group's fields with their defaults, and the
      overlays that converted. */
  function AnolGroup(group: Json): PyResult<Json> {
    var name :- Index(group, "name");
    var title :- Index(group, "title");
    var layers :- Index(group, "layers");
    var items :- Iter(layers);
    var converted :- ConvertAll(AnolOverlayLayer, items, []);
    Ok(JObj(GroupRecord(name, title, group.entries, converted)))
  }

  /** `for group in conf['groups']: anol_conf['overlays'].append(...)`. */
  function ConvertGroups(groups: seq<Json>): (r: PyResult<seq<Json>>)
    ensures r.Ok? ==> |r.value| == |groups|
    ensures r.Ok? ==> forall i | 0 <= i < |groups| :: AnolGroup(groups[i]) == Ok(r.value[i])
  {
    if |groups| == 0 then Ok([])
    else
      var g :- AnolGroup(groups[0]);
      var rest :- ConvertGroups(groups[1..]);
      Ok([g] + rest)
  }

  /** `create_anol_layers`. */
  function CreateAnolLayers(conf: Json): PyResult<Json> {
    var backgrounds :- Index(conf, "backgrounds");
    var bgItems :- Iter(backgrounds);
    var bgLayers :- ConvertAll(AnolBackgroundLayer, bgItems, []);
    var groups :- Index(conf, "groups");
    var groupItems :- Iter(groups);
    var overlays :- ConvertGroups(groupItems);
    Ok(JObj([("backgroundLayer", JArr(bgLayers)), ("overlays", JArr(overlays))]))
  }

  /** The backgrounds are the convertible ones, in configuration order, each
      marked as a background; every configured group yields one overlay
      group, in order, even when none of its layers converted. */
  lemma CreateAnolLayersShape(conf: Json, backgrounds: seq<Json>, groups: seq<Json>)
    requires conf.JObj?
    requires Lookup(conf.entries, "backgrounds") == Some(JArr(backgrounds))
    requires Lookup(conf.entries, "groups") == Some(JArr(groups))
    requires CreateAnolLayers(conf).Ok?
    ensures var out := CreateAnolLayers(conf).value;
      var rs := Results(AnolBackgroundLayer, backgrounds);
      && FirstFailure(rs) == None
      && out == JObj([("backgroundLayer", JArr(Converted(rs))),
                      ("overlays", JArr(ConvertGroups(groups).value))])
      && |ConvertGroups(groups).value| == |groups|
      && forall b | b in Converted(rs) :: b.JObj? && Lookup(b.entries, "isBackground") == Some(JBool(true))
  {
    var rs := Results(AnolBackgroundLayer, backgrounds);
    ConvertAllSpec(AnolBackgroundLayer, backgrounds, []);
    assert [] + Converted(rs) == Converted(rs);
    forall b | b in Converted(rs) ensures b.JObj? && Lookup(b.entries, "isBackground") == Some(JBool(true)) {
      ConvertedFrom(rs, b);
      var i :| 0 <= i < |rs| && rs[i] == Ok(b);
      BackgroundShape(backgrounds[i]);
    }
  }

  /** A group's overlays are its convertible layers, in order. */
  lemma AnolGroupShape(group: Json, layers: seq<Json>)
    requires group.JObj? && Lookup(group.entries, "layers") == Some(JArr(layers))
    requires AnolGroup(group).Ok?
    ensures var rs := Results(AnolOverlayLayer, layers);
      && FirstFailure(rs) == None
      && AnolGroup(group) == Ok(JObj(GroupRecord(Lookup(group.entries, "name").value,
                                                 Lookup(group.entries, "title").value,
                                                 group.entries, Converted(rs))))
  {
    var rs := Results(AnolOverlayLayer, layers);
    var name := Index(group, "name").value;
    var title := Index(group, "title").value;
    assert Index(group, "layers") == Ok(JArr(layers));
    assert Iter(JArr(layers)) == Ok(layers);
    ConvertAllSpec(AnolOverlayLayer, layers, []);
    assert ConvertAll(AnolOverlayLayer, layers, []).Ok?;
    assert FirstFailure(rs) == None;
    assert [] + Converted(rs) == Converted(rs);
    assert ConvertAll(AnolOverlayLayer, layers, []) == Ok(Converted(rs));
    assert AnolGroup(group) == Ok(JObj(GroupRecord(name, title, group.entries, Converted(rs))));
  }

  /** A defaulted field reads the group's own value, or the default. */
  lemma {:induction false} GroupSettingsLookup(d: Dict, defaults: Dict, k: string)
    ensures Lookup(GroupSettings(d, defaults), k) ==
      match Lookup(defaults, k)
      case Some(v) => Some(Lookup(d, k).GetOr(v))
      case None => None
    decreases |defaults|
  {
    if |defaults| > 0 {
      GroupSettingsLookup(d, defaults[1..], k);
    }
  }

  const GroupKeys := ["metadataUrl", "searchConfig", "showGroup", "abstract", "legend",
                       "singleSelect", "singleSelectGroup", "catalog", "status"]

  lemma GroupDefaultsKeys()
    ensures Keys(GroupDefaults) == GroupKeys
  {
  }

  lemma GroupKeysFacts()
    ensures "name" !in GroupKeys && "title" !in GroupKeys && "layers" !in GroupKeys
  {
  }

  /** The group record keeps name and title, lists the overlays under
      `layers`, and every defaulted field is the group's own value or its
      default. */
  lemma GroupRecordShape(name: Json, title: Json, d: Dict, overlays: seq<Json>, k: string)
    ensures var r := GroupRecord(name, title, d, overlays);
      && Lookup(r, "name") == Some(name)
      && Lookup(r, "title") == Some(title)
      && Lookup(r, "layers") == Some(JArr(overlays))
      && (HasKey(GroupDefaults, k) ==>
            Lookup(r, k) == Some(Lookup(d, k).GetOr(Lookup(GroupDefaults, k).value)))
  {
    GroupRecordFixed(name, title, d, overlays);
    if HasKey(GroupDefaults, k) {
      GroupRecordSetting(name, title, d, overlays, k);
    }
  }

  /** The keys a group record always sets itself. */
  lemma GroupRecordFixed(name: Json, title: Json, d: Dict, overlays: seq<Json>)
    ensures var r := GroupRecord(name, title, d, overlays);
      && Lookup(r, "name") == Some(name)
      && Lookup(r, "title") == Some(title)
      && Lookup(r, "layers") == Some(JArr(overlays))
  {
    var head: Dict := [("name", name), ("title", title)];
    var settings := GroupSettings(d, GroupDefaults);
    var tail: Dict := [("layers", JArr(overlays)),
                       ("defaultVisibleLayers", Lookup(d, "defaultVisibleLayers").GetOr(JArr([])))];
    GroupKeysFacts();
    GroupDefaultsKeys();
    GroupSettingsLookup(d, GroupDefaults, "layers");
    LookupAppend(head, settings, "name");
    LookupAppend(head, settings, "title");
    LookupAppend(head, settings, "layers");
    LookupAppend(head + settings, tail, "name");
    LookupAppend(head + settings, tail, "title");
    LookupAppend(head + settings, tail, "layers");
  }

  /** A group setting comes from the configuration, or from its default. */
  lemma GroupRecordSetting(name: Json, title: Json, d: Dict, overlays: seq<Json>, k: string)
    requires HasKey(GroupDefaults, k)
    ensures Lookup(GroupRecord(name, title, d, overlays), k) ==
      Some(Lookup(d, k).GetOr(Lookup(GroupDefaults, k).value))
  {
    var head: Dict := [("name", name), ("title", title)];
    var settings := GroupSettings(d, GroupDefaults);
    var tail: Dict := [("layers", JArr(overlays)),
                       ("defaultVisibleLayers", Lookup(d, "defaultVisibleLayers").GetOr(JArr([])))];
    GroupKeysFacts();
    GroupDefaultsKeys();
    GroupSettingsLookup(d, GroupDefaults, k);
    LookupAppend(head, settings, k);
    LookupAppend(head + settings, tail, k);
    assert k != "name" && k != "title";
    assert Lookup(head, k) == None;
  }


  // ---------------------------------------------------------------------
  // Group assembly in load_layers_config

  /** `group['layers']`: the known layers a group names, in the group's order;
      unknown names are skipped. */
  function ResolveLayers(names: seq<Json>, layers: Dict): PyResult<seq<Json>>
    decreases |names|
  {
    if |names| == 0 then Ok([])
    else
      var known :- Contains(JObj(layers), names[0]);
      var rest :- ResolveLayers(names[1..], layers);
      if known then Ok([Lookup(layers, names[0].s).GetOr(JNull)] + rest) else Ok(rest)
  }

  /** The names a group lists that the layer table knows. */
  function KnownNames(names: seq<string>, layers: Dict): (r: seq<string>)
    ensures forall n | n in r :: n in names && HasKey(layers, n)
  {
    if |names| == 0 then []
    else (if HasKey(layers, names[0]) then [names[0]] else []) + KnownNames(names[1..], layers)
  }

  /** With string names, resolution looks up exactly the known names, in
      order. */
  lemma {:induction false} ResolveLayersSpec(names: seq<string>, layers: Dict)
    ensures var known := KnownNames(names, layers);
      ResolveLayers(Strings(names), layers) ==
        Ok(seq(|known|, i requires 0 <= i < |known| => Lookup(layers, known[i]).value))
  {
    var known := KnownNames(names, layers);
    var values := seq(|known|, i requires 0 <= i < |known| => Lookup(layers, known[i]).value);
    if |names| > 0 {
      ResolveLayersSpec(names[1..], layers);
      ResolveLayersHead(names, layers);
      KnownValuesHead(names, layers);
    } else {
      assert values == [];
    }
  }

  /** One step of the resolution loop over string names. */
  lemma ResolveLayersHead(names: seq<string>, layers: Dict)
    requires |names| > 0
    ensures ResolveLayers(Strings(names), layers) ==
      match ResolveLayers(Strings(names[1..]), layers)
      case Ok(rest) => Ok(if HasKey(layers, names[0]) then [Lookup(layers, names[0]).value] + rest else rest)
      case Err(e) => Err(e)
  {
    var js := Strings(names);
    assert js[1..] == Strings(names[1..]);
    assert Contains(JObj(layers), js[0]) == Ok(HasKey(layers, names[0]));
  }

  /** The values of the known names, split at the first name. */
  lemma KnownValuesHead(names: seq<string>, layers: Dict)
    requires |names| > 0
    ensures var known := KnownNames(names, layers);
      var rest := KnownNames(names[1..], layers);
      var values := seq(|known|, i requires 0 <= i < |known| => Lookup(layers, known[i]).value);
      var restValues := seq(|rest|, i requires 0 <= i < |rest| => Lookup(layers, rest[i]).value);
      values == if HasKey(layers, names[0]) then [Lookup(layers, names[0]).value] + restValues else restValues
  {
    var known := KnownNames(names, layers);
    var rest := KnownNames(names[1..], layers);
    var values := seq(|known|, i requires 0 <= i < |known| => Lookup(layers, known[i]).value);
    var restValues := seq(|rest|, i requires 0 <= i < |rest| => Lookup(layers, rest[i]).value);
    if HasKey(layers, names[0]) {
      assert known == [names[0]] + rest;
      var head := [Lookup(layers, names[0]).value];
      forall i | 0 <= i < |values| ensures values[i] == (head + restValues)[i] {
        if i == 0 {
          assert values[i] == head[0];
        } else {
          assert known[i] == rest[i - 1];
          assert values[i] == restValues[i - 1];
        }
      }
      assert values == head + restValues;
    } else {
      assert known == rest;
      assert values == restValues;
    }
  }

  /** One group of the loop: its layer list replaced by the resolved layers,
      or `None` when nothing resolved (the group is then dropped, after its
      name is read for the warning). */
  function BuildGroup(config: Json, layers: Dict): PyResult<Option<Json>> {
    if !config.JObj? then Err(TypeError)
    else
      var listed :- GetOr(config, "layers", JArr([]));
      var names :- Iter(listed);
      var resolved :- ResolveLayers(names, layers);
      if |resolved| > 0 then Ok(Some(JObj(Set(config.entries, "layers", JArr(resolved)))))
      else
        var _ :- Index(config, "name");
        Ok(None)
  }

  /** The group loop of `load_layers_config`. */
  function BuildGroups(configs: seq<Json>, layers: Dict): PyResult<seq<Json>>
    decreases |configs|
  {
    if |configs| == 0 then Ok([])
    else
      var g :- BuildGroup(configs[0], layers);
      var rest :- BuildGroups(configs[1..], layers);
      Ok((if g.Some? then [g.value] else []) + rest)
  }

  /** Every group that survives lists at least one layer. */
  lemma {:induction false} BuildGroupsNonEmpty(configs: seq<Json>, layers: Dict)
    requires BuildGroups(configs, layers).Ok?
    ensures forall g | g in BuildGroups(configs, layers).value ::
      g.JObj? && exists xs :: Lookup(g.entries, "layers") == Some(JArr(xs)) && |xs| > 0
    decreases |configs|
  {
    if |configs| > 0 {
      BuildGroupsNonEmpty(configs[1..], layers);
      var g := BuildGroup(configs[0], layers).value;
      if g.Some? {
        var resolved := ResolveLayers(Iter(GetOr(configs[0], "layers", JArr([])).value).value, layers).value;
        LookupSet(configs[0].entries, "layers", JArr(resolved), "layers");
      }
    }
  }

  /** A group whose names are all unknown is dropped and the others are kept;
      a group with a known name is kept, with just the known layers. */
  lemma BuildGroupOfNames(config: Json, names: seq<string>, layers: Dict)
    requires config.JObj? && Lookup(config.entries, "layers") == Some(JArr(Strings(names)))
    requires HasKey(config.entries, "name")
    ensures var known := KnownNames(names, layers);
      BuildGroup(config, layers) ==
        if |known| == 0 then Ok(None)
        else Ok(Some(JObj(Set(config.entries, "layers",
          JArr(seq(|known|, i requires 0 <= i < |known| => Lookup(layers, known[i]).value))))))
  {
    ResolveLayersSpec(names, layers);
  }
}
