/** Configuration records the client receives for layers and groups, and the
    abstract render handle a layer owns. Absent optional properties are `None`;
    JavaScript `??` becomes `GetOr`. */
module LayerTypes {
  import opened Util

  /** `params` of a WMS source. */
  datatype WmsParams = WmsParams(layers: Option<string>, srs: Option<string>, styles: Option<string>)

  /** `tileSize` is a number or an array of numbers in the configuration. */
  datatype TileSize = TileSizeNumber(n: int) | TileSizeArray(items: seq<int>)

  /** A layer's `olLayer.source`: one record holding every property any source
      kind reads, since each layer class casts the same object to its own type. */
  datatype SourceConfig = SourceConfig(
    url: Option<string>,
    format: Option<string>,
    params: Option<WmsParams>,
    projection: Option<string>,
    layer: Option<string>,
    matrixSet: Option<string>,
    levels: Option<nat>,
    tileSize: Option<TileSize>,
    extent: Option<seq<real>>,
    dataProjection: Option<string>)

  const EmptySource := SourceConfig(None, None, None, None, None, None, None, None, None, None)

  datatype OlLayerConfig = OlLayerConfig(source: Option<SourceConfig>, visible: Option<bool>, opacity: Option<real>)

  datatype LegendConfig = LegendConfig(
    legendType: Option<string>, version: Option<string>, sldVersion: Option<string>, format: Option<string>)

  /** `legend?: boolean | LegendConfig`. */
  datatype Legend = LegendFlag(enabled: bool) | LegendObject(config: LegendConfig)

  datatype LayerConfig = LayerConfig(
    name: string,
    title: string,
    layerType: string,
    isBackground: Option<bool>,
    visible: Option<bool>,
    opacity: Option<real>,
    olLayer: Option<OlLayerConfig>,
    legend: Option<Legend>)

  datatype GroupConfig = GroupConfig(
    name: string,
    title: string,
    layers: seq<LayerConfig>,
    showGroup: Option<bool>,
    singleSelect: Option<bool>,
    singleSelectGroup: Option<bool>,
    defaultVisibleLayers: Option<seq<string>>,
    collapsed: Option<bool>)

  /** The layers definition the backend returns: `backgroundLayer` and `overlays`. */
  datatype LayersDef = LayersDef(backgroundLayer: seq<LayerConfig>, overlays: seq<GroupConfig>)

  /** The configured source of a layer, `config.olLayer?.source ?? {}`. */
  function SourceOf(config: LayerConfig): SourceConfig {
    match config.olLayer
    case Some(ol) => ol.source.GetOr(EmptySource)
    case None => EmptySource
  }

  // -------------------------------------------------------------------------
  // Render handle (the OpenLayers layer object, reduced to what the model observes)

  /** Request parameters of a WMS image/tile source. */
  datatype WmsRequest = WmsRequest(
    layers: string, srs: Option<string>, format: string, transparent: string, styles: Option<string>)

  datatype WmtsRequest = WmtsRequest(
    url: string, layer: string, matrixSet: string, format: string, projection: string,
    matrixIds: seq<string>, tileSize: Option<int>, requestEncoding: string, style: string)

  datatype HandleSource =
    | TileWmsSource(url: Option<string>, params: WmsRequest)
    | ImageWmsSource(url: Option<string>, params: WmsRequest, projection: Option<string>)
    | WmtsSource(request: WmtsRequest)
    | VectorSource(url: Option<string>, dataProjection: string)

  datatype Handle = Handle(visible: bool, opacity: real, source: HandleSource)

  /** Why creating a handle can throw: the projection is not registered, or
      neither the source nor the projection provides an extent. */
  datatype HandleError = ProjectionNotFound(code: string) | NoExtent(layerName: string)

  /** Projections known to the rendering engine, with the extent each defines
      (`None` when the projection has no extent). */
  type ProjectionRegistry = map<string, Option<seq<real>>>
}
