/** The WMS layer variants (tiled and single-tile). Both switch a layer off by
    emptying the `LAYERS` request parameter rather than only hiding the handle;
    the single-tile variant also builds GetLegendGraphic URLs. */
module Wms {
  import opened Util
  import opened LayerTypes
  import FormEncoding

  /** `wmsLayers`: the configured `params.LAYERS`, or '' when absent. */
  function WmsLayers(source: SourceConfig): (r: string)
    ensures source.params.None? ==> r == ""
    ensures source.params.Some? && source.params.value.layers.None? ==> r == ""
    ensures source.params.Some? && source.params.value.layers.Some? ==> r == source.params.value.layers.value
  {
    match source.params
    case Some(p) => p.layers.GetOr("")
    case None => ""
  }

  /** The `LAYERS` value that matches a visibility state. */
  function LayersParamFor(source: SourceConfig, visible: bool): string {
    if visible then WmsLayers(source) else ""
  }

  /** Request parameters the WMS source is created with. */
  function RequestAtCreation(source: SourceConfig, visible: bool): (r: WmsRequest)
    ensures r.layers == LayersParamFor(source, visible)
    ensures source.format.None? ==> r.format == "image/png"
    ensures source.format.Some? ==> r.format == source.format.value
    ensures r.transparent == "TRUE"
    ensures r.styles.Some? <==> source.params.Some? && source.params.value.styles.Some? && source.params.value.styles.value != ""
    ensures r.styles.Some? ==> r.styles == source.params.value.styles
  {
    var srs := if source.params.Some? then source.params.value.srs else None;
    var styles :=
      if source.params.Some? && source.params.value.styles.Some? && source.params.value.styles.value != ""
      then source.params.value.styles else None;
    WmsRequest(LayersParamFor(source, visible), srs, source.format.GetOr("image/png"), "TRUE", styles)
  }

  /** `TiledWMS.createOlLayer`. */
  function CreateTiledHandle(source: SourceConfig, visible: bool, opacity: real): (h: Handle)
    ensures h.visible == visible && h.opacity == opacity
    ensures h.source.TileWmsSource? && h.source.params.layers == LayersParamFor(source, visible)
  {
    Handle(visible, opacity, TileWmsSource(source.url, RequestAtCreation(source, visible)))
  }

  /** `SingleTileWMS.createOlLayer`. */
  function CreateSingleTileHandle(source: SourceConfig, visible: bool, opacity: real): (h: Handle)
    ensures h.visible == visible && h.opacity == opacity
    ensures h.source.ImageWmsSource? && h.source.params.layers == LayersParamFor(source, visible)
  {
    Handle(visible, opacity, ImageWmsSource(source.url, RequestAtCreation(source, visible), source.projection))
  }

  /** `onVisibilityChange` of both WMS variants: rewrites `LAYERS` of an existing
      handle's source and leaves everything else alone. */
  function OnVisibilityChange(handle: Option<Handle>, source: SourceConfig, visible: bool): (r: Option<Handle>)
    ensures handle.None? ==> r.None?
    ensures handle.Some? ==> r.Some? && r.value.visible == handle.value.visible && r.value.opacity == handle.value.opacity
    ensures handle.Some? && handle.value.source.TileWmsSource? ==>
      var s := handle.value.source;
      r.value.source == TileWmsSource(s.url, s.params.(layers := LayersParamFor(source, visible)))
    ensures handle.Some? && handle.value.source.ImageWmsSource? ==>
      var s := handle.value.source;
      r.value.source == ImageWmsSource(s.url, s.params.(layers := LayersParamFor(source, visible)), s.projection)
    ensures handle.Some? && !handle.value.source.TileWmsSource? && !handle.value.source.ImageWmsSource? ==> r == handle
  {
    match handle
    case None => None
    case Some(h) =>
      match h.source
      case TileWmsSource(url, params) =>
        Some(h.(source := TileWmsSource(url, params.(layers := LayersParamFor(source, visible)))))
      case ImageWmsSource(url, params, projection) =>
        Some(h.(source := ImageWmsSource(url, params.(layers := LayersParamFor(source, visible)), projection)))
      case _ => handle
  }

  // -------------------------------------------------------------------------
  // GetLegendGraphic

  /** What joins the base URL and the query. */
  function Separator(url: string): (sep: string)
    ensures FindChar(url, '?').None? ==> sep == "?"
    ensures FindChar(url, '?').Some? && !EndsWith(url, "&") && !EndsWith(url, "?") ==> sep == "&"
    ensures FindChar(url, '?').Some? && (EndsWith(url, "&") || EndsWith(url, "?")) ==> sep == ""
  {
    if FindChar(url, '?').None? then "?"
    else if !EndsWith(url, "&") && !EndsWith(url, "?") then "&"
    else ""
  }

  /** The legend request parameters, in the order the URL carries them. */
  function LegendParams(legend: Option<LegendConfig>, source: SourceConfig): seq<(string, string)> {
    var version := if legend.Some? then legend.value.version.GetOr("1.3.0") else "1.3.0";
    var sldVersion := if legend.Some? then legend.value.sldVersion.GetOr("1.1.0") else "1.1.0";
    var format := if legend.Some? then legend.value.format.GetOr("image/png") else "image/png";
    [("SERVICE", "WMS"), ("VERSION", version), ("SLD_VERSION", sldVersion),
     ("REQUEST", "GetLegendGraphic"), ("FORMAT", format), ("LAYER", WmsLayers(source))]
  }

  /** The legend configuration object, when `legend` is one (not a boolean). */
  function LegendObjectOf(legend: Option<Legend>): Option<LegendConfig> {
    if legend.Some? && legend.value.LegendObject? then Some(legend.value.config) else None
  }

  /** Legend disabled, or of a kind that is not a GetLegendGraphic image. */
  predicate LegendSuppressed(legend: Option<Legend>) {
    legend == Some(LegendFlag(false))
    || (var c := LegendObjectOf(legend);
        c.Some? && (c.value.legendType == Some("link") || c.value.legendType == Some("text")))
  }

  /** `SingleTileWMS.getLegendGraphicUrl`. */
  function LegendGraphicUrl(legend: Option<Legend>, source: SourceConfig): (r: Option<string>)
    ensures r.None? <==> LegendSuppressed(legend) || source.url.None? || source.url == Some("")
    ensures r.Some? ==> StartsWith(r.value, source.url.value)
  {
    if LegendSuppressed(legend) then None
    else if source.url.None? || source.url == Some("") then None
    else
      var url := source.url.value;
      var query := FormEncoding.Serialize(LegendParams(LegendObjectOf(legend), source));
      assert (url + Separator(url) + query)[..|url|] == url;
      Some(url + Separator(url) + query)
  }

  /** Whatever the base URL, the text before the query contains a `?` and ends in
      `?` or `&`, so the appended parameters always form a well-delimited query. */
  lemma SeparatorDelimitsQuery(url: string)
    ensures FindChar(url + Separator(url), '?').Some?
    ensures EndsWith(url + Separator(url), "?") || EndsWith(url + Separator(url), "&")
  {
    var t := url + Separator(url);
    if FindChar(url, '?').None? {
      assert t[|t| - 1] == '?';
    } else {
      assert '?' in url;
      assert url[FindChar(url, '?').value] == t[FindChar(url, '?').value];
      if !EndsWith(url, "&") && !EndsWith(url, "?") {
        assert t[|t| - 1..] == "&";
      } else {
        assert t == url;
      }
    }
  }

  /** The query of a legend URL consists of exactly the six parameters, in order,
      with the configured overrides or the defaults VERSION 1.3.0, SLD_VERSION
      1.1.0 and FORMAT image/png, and LAYER equal to the layer's `wmsLayers`. */
  lemma LegendQueryParameters(legend: Option<Legend>, source: SourceConfig)
    requires LegendGraphicUrl(legend, source).Some?
    ensures
      var url := source.url.value;
      var r := LegendGraphicUrl(legend, source).value;
      var c := LegendObjectOf(legend);
      && |url + Separator(url)| <= |r|
      && r[..|url + Separator(url)|] == url + Separator(url)
      && Split(r[|url + Separator(url)|..], '&') == FormEncoding.EncodedPairs(
           [("SERVICE", "WMS"),
            ("VERSION", if c.Some? && c.value.version.Some? then c.value.version.value else "1.3.0"),
            ("SLD_VERSION", if c.Some? && c.value.sldVersion.Some? then c.value.sldVersion.value else "1.1.0"),
            ("REQUEST", "GetLegendGraphic"),
            ("FORMAT", if c.Some? && c.value.format.Some? then c.value.format.value else "image/png"),
            ("LAYER", WmsLayers(source))])
  {
    var url := source.url.value;
    var pairs := LegendParams(LegendObjectOf(legend), source);
    var query := FormEncoding.Serialize(pairs);
    var r := url + Separator(url) + query;
    assert r[|url + Separator(url)|..] == query;
    FormEncoding.SerializeSplitsIntoPairs(pairs);
  }
}
