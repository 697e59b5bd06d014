/** A map layer: configuration, the visibility and opacity state the client
    owns, and a lazily created render handle that mirrors that state. */
module Layers {
  import opened Util
  import opened LayerTypes
  import JsNumber
  import Wms
  import Wmts

  /** The concrete layer class the factory instantiated. */
  datatype Kind = TiledWmsKind | SingleTileWmsKind | WmtsKind | StaticGeoJsonKind

  datatype Layer = Layer(
    name: string,
    title: string,
    layerType: string,
    kind: Kind,
    isBackground: bool,
    legend: Option<Legend>,
    source: SourceConfig,
    visible: bool,
    opacity: real,
    handle: Option<Handle>)
  {
    predicate IsWms() {
      kind == TiledWmsKind || kind == SingleTileWmsKind
    }
  }

  /** The layer constructor (common part and the kind's `sourceConfig`). */
  function NewLayer(config: LayerConfig, kind: Kind): (l: Layer)
    ensures l.name == config.name && l.title == config.title && l.layerType == config.layerType
    ensures l.kind == kind && l.legend == config.legend && l.source == SourceOf(config)
    ensures l.isBackground == config.isBackground.GetOr(false)
    ensures config.visible.Some? ==> l.visible == config.visible.value
    ensures config.visible.None? && config.olLayer.Some? && config.olLayer.value.visible.Some? ==>
      l.visible == config.olLayer.value.visible.value
    ensures config.visible.None? && (config.olLayer.None? || config.olLayer.value.visible.None?) ==> !l.visible
    ensures config.opacity.Some? ==> l.opacity == config.opacity.value
    ensures config.opacity.None? && config.olLayer.Some? && config.olLayer.value.opacity.Some? ==>
      l.opacity == config.olLayer.value.opacity.value
    ensures config.opacity.None? && (config.olLayer.None? || config.olLayer.value.opacity.None?) ==> l.opacity == 1.0
    ensures l.handle.None?
  {
    var olVisible := if config.olLayer.Some? then config.olLayer.value.visible else None;
    var olOpacity := if config.olLayer.Some? then config.olLayer.value.opacity else None;
    Layer(config.name, config.title, config.layerType, kind, config.isBackground.GetOr(false), config.legend,
          SourceOf(config), config.visible.GetOr(olVisible.GetOr(false)),
          config.opacity.GetOr(olOpacity.GetOr(1.0)), None)
  }

  /** `createOlLayer` of the layer's kind, with the layer's current state. */
  function CreateHandle(l: Layer, registry: ProjectionRegistry): Result<Handle, HandleError> {
    match l.kind
    case TiledWmsKind => Ok(Wms.CreateTiledHandle(l.source, l.visible, l.opacity))
    case SingleTileWmsKind => Ok(Wms.CreateSingleTileHandle(l.source, l.visible, l.opacity))
    case WmtsKind => Wmts.CreateHandle(l.source, l.name, l.visible, l.opacity, registry)
    case StaticGeoJsonKind =>
      Ok(Handle(l.visible, l.opacity, VectorSource(l.source.url, l.source.dataProjection.GetOr("EPSG:4326"))))
  }

  /** The handle is in step with the layer: same visibility and opacity, and for
      WMS kinds a source of the matching class whose `LAYERS` is the configured
      list exactly when the layer is visible. */
  predicate Mirrors(l: Layer) {
    match l.handle
    case None => true
    case Some(h) =>
      && h.visible == l.visible && h.opacity == l.opacity
      && (l.kind == TiledWmsKind ==> h.source.TileWmsSource?)
      && (l.kind == SingleTileWmsKind ==> h.source.ImageWmsSource?)
      && (l.IsWms() ==> h.source.params.layers == Wms.LayersParamFor(l.source, l.visible))
  }

  /** The `olLayer` getter: creates the handle on first access and keeps it. */
  function AccessHandle(l: Layer, registry: ProjectionRegistry): (r: Result<Layer, HandleError>)
    ensures l.handle.Some? ==> r == Ok(l)
    ensures r.Ok? ==> r.value.handle.Some? && r.value == l.(handle := r.value.handle)
    ensures l.handle.None? && r.Ok? ==>
      r.value.handle.value.visible == l.visible && r.value.handle.value.opacity == l.opacity
    ensures r.Err? ==> l.handle.None? && l.kind == WmtsKind
  {
    if l.handle.Some? then Ok(l)
    else
      match CreateHandle(l, registry)
      case Ok(h) => Ok(l.(handle := Some(h)))
      case Err(e) => Err(e)
  }

  /** `setVisible`: stores the flag, forwards it to an existing handle, and for
      WMS kinds rewrites the handle's `LAYERS` parameter. */
  function SetVisible(l: Layer, visible: bool): (r: Layer)
    ensures r.visible == visible
    ensures r.handle.Some? == l.handle.Some?
    ensures r.handle.Some? ==> r.handle.value.visible == visible && r.handle.value.opacity == l.handle.value.opacity
    ensures r == l.(visible := visible, handle := r.handle)
  {
    var forwarded := if l.handle.Some? then Some(l.handle.value.(visible := visible)) else None;
    var handle := if l.IsWms() then Wms.OnVisibilityChange(forwarded, l.source, visible) else forwarded;
    l.(visible := visible, handle := handle)
  }

  /** `setOpacity`: the stored opacity is always within [0, 1]. */
  function SetOpacity(l: Layer, opacity: real): (r: Layer)
    ensures 0.0 <= r.opacity <= 1.0
    ensures 0.0 <= opacity <= 1.0 ==> r.opacity == opacity
    ensures opacity < 0.0 ==> r.opacity == 0.0
    ensures opacity > 1.0 ==> r.opacity == 1.0
    ensures r.handle.Some? == l.handle.Some?
    ensures r.handle.Some? ==> r.handle.value == l.handle.value.(opacity := r.opacity)
    ensures r == l.(opacity := r.opacity, handle := r.handle)
  {
    var o := JsNumber.Clamp(0.0, 1.0, opacity);
    l.(opacity := o, handle := if l.handle.Some? then Some(l.handle.value.(opacity := o)) else None)
  }

  /** `dispose`: drops the handle; state is kept. */
  function Dispose(l: Layer): (r: Layer)
    ensures r.handle.None?
    ensures r.visible == l.visible && r.opacity == l.opacity
    ensures r == l.(handle := None)
  {
    l.(handle := None)
  }

  /** `getLegendGraphicUrl`: only single-tile WMS layers provide one. */
  function LegendGraphicUrl(l: Layer): (r: Option<string>)
    ensures l.kind != SingleTileWmsKind ==> r.None?
    ensures l.kind == SingleTileWmsKind ==> r == Wms.LegendGraphicUrl(l.legend, l.source)
  {
    if l.kind == SingleTileWmsKind then Wms.LegendGraphicUrl(l.legend, l.source) else None
  }

  // -------------------------------------------------------------------------
  // The handle mirrors the layer's state under every operation

  lemma AccessHandleMirrors(l: Layer, registry: ProjectionRegistry)
    requires Mirrors(l)
    ensures AccessHandle(l, registry).Ok? ==> Mirrors(AccessHandle(l, registry).value)
  {
  }

  lemma SetVisibleMirrors(l: Layer, visible: bool)
    requires Mirrors(l)
    ensures Mirrors(SetVisible(l, visible))
  {
  }

  lemma SetOpacityMirrors(l: Layer, opacity: real)
    requires Mirrors(l)
    ensures Mirrors(SetOpacity(l, opacity))
  {
  }

  /** The operations a caller can apply to a layer. */
  datatype LayerOp = Access | SetVisibleOp(visible: bool) | SetOpacityOp(opacity: real) | DisposeOp

  function Apply(l: Layer, op: LayerOp, registry: ProjectionRegistry): Layer {
    match op
    case Access => (match AccessHandle(l, registry) case Ok(l2) => l2 case Err(_) => l)
    case SetVisibleOp(v) => SetVisible(l, v)
    case SetOpacityOp(o) => SetOpacity(l, o)
    case DisposeOp => Dispose(l)
  }

  function Run(l: Layer, ops: seq<LayerOp>, registry: ProjectionRegistry): Layer
    decreases |ops|
  {
    if |ops| == 0 then l else Run(Apply(l, ops[0], registry), ops[1..], registry)
  }

  /** Starting from a freshly constructed layer, after any sequence of operations
      the render handle (when one exists) shows exactly the layer's visibility
      and opacity, and a WMS handle requests its layers exactly when visible. */
  lemma {:induction false} HandleAlwaysMirrors(l: Layer, ops: seq<LayerOp>, registry: ProjectionRegistry)
    requires Mirrors(l)
    ensures Mirrors(Run(l, ops, registry))
    decreases |ops|
  {
    if |ops| > 0 {
      var next := Apply(l, ops[0], registry);
      match ops[0] {
        case Access => AccessHandleMirrors(l, registry);
        case SetVisibleOp(v) => SetVisibleMirrors(l, v);
        case SetOpacityOp(o) => SetOpacityMirrors(l, o);
        case DisposeOp =>
      }
      HandleAlwaysMirrors(next, ops[1..], registry);
    }
  }

  lemma NewLayerMirrors(config: LayerConfig, kind: Kind)
    ensures Mirrors(NewLayer(config, kind))
  {
  }
}
