/** The layer factory: picks the layer class from the configured type, builds
    groups from their layer configurations, and builds the whole layer tree. */
module Factory {
  import opened Util
  import opened LayerTypes
  import Layers
  import Groups

  /** The class each supported type string is served by; `None` for
      `sensorthings` and every unknown type. */
  function KindOf(layerType: string): (k: Option<Layers.Kind>)
    ensures layerType == "tiledwms" ==> k == Some(Layers.TiledWmsKind)
    ensures layerType == "wms" ==> k == Some(Layers.SingleTileWmsKind)
    ensures layerType == "wmts" ==> k == Some(Layers.WmtsKind)
    ensures layerType in {"static_geojson", "dynamic_geojson", "postgis", "digitize"} ==>
      k == Some(Layers.StaticGeoJsonKind)
    ensures k.Some? <==>
      layerType in {"tiledwms", "wms", "wmts", "static_geojson", "dynamic_geojson", "postgis", "digitize"}
  {
    if layerType == "tiledwms" then Some(Layers.TiledWmsKind)
    else if layerType == "wms" then Some(Layers.SingleTileWmsKind)
    else if layerType == "wmts" then Some(Layers.WmtsKind)
    else if layerType in {"static_geojson", "dynamic_geojson", "postgis", "digitize"} then Some(Layers.StaticGeoJsonKind)
    else None
  }

  /** `createLayer`. */
  function CreateLayer(config: LayerConfig): (r: Option<Layers.Layer>)
    ensures r.Some? <==> KindOf(config.layerType).Some?
    ensures r.Some? ==> r.value == Layers.NewLayer(config, KindOf(config.layerType).value)
    ensures r.Some? ==> r.value.name == config.name && r.value.handle.None?
  {
    match KindOf(config.layerType)
    case Some(k) => Some(Layers.NewLayer(config, k))
    case None => None
  }

  /** The layers of the configurations that the factory supports, in order. */
  function Survivors(configs: seq<LayerConfig>): (r: seq<Layers.Layer>)
    ensures |r| <= |configs|
    ensures |configs| == 1 ==> r == (if CreateLayer(configs[0]).Some? then [CreateLayer(configs[0]).value] else [])
    ensures forall l | l in r :: exists c | c in configs :: CreateLayer(c) == Some(l)
    ensures forall c | c in configs && CreateLayer(c).Some? :: CreateLayer(c).value in r
    decreases |configs|
  {
    if |configs| == 0 then []
    else
      var rest := Survivors(configs[1..]);
      assert forall c | c in configs[1..] :: c in configs;
      assert forall c | c in configs :: c == configs[0] || c in configs[1..];
      match CreateLayer(configs[0])
      case Some(l) => [l] + rest
      case None => rest
  }

  /** Filtering commutes with concatenation: layer order follows configuration
      order and no supported configuration is dropped. */
  lemma {:induction false} SurvivorsAppend(a: seq<LayerConfig>, b: seq<LayerConfig>)
    ensures Survivors(a + b) == Survivors(a) + Survivors(b)
    decreases |a|
  {
    if |a| > 0 {
      assert (a + b)[1..] == a[1..] + b;
      SurvivorsAppend(a[1..], b);
    } else {
      assert a + b == b;
    }
  }

  /** `createGroup`: the group of the supported layers, in configuration order. */
  function CreateGroup(config: GroupConfig): (g: Groups.Group)
    ensures g == Groups.NewGroup(config, Survivors(config.layers))
    ensures g.name == config.name
  {
    Groups.NewGroup(config, Survivors(config.layers))
  }

  /** `{ ...config, isBackground: true }`. */
  function AsBackground(config: LayerConfig): (c: LayerConfig)
    ensures c.isBackground == Some(true)
    ensures c == config.(isBackground := Some(true))
  {
    config.(isBackground := Some(true))
  }

  /** `initializeLayers`: background layers (all marked as backgrounds) and one
      group per overlay configuration. */
  function InitializeLayers(def: LayersDef): (r: (seq<Layers.Layer>, seq<Groups.Group>))
    ensures r.0 == Survivors(seq(|def.backgroundLayer|, i requires 0 <= i < |def.backgroundLayer| => AsBackground(def.backgroundLayer[i])))
    ensures forall i | 0 <= i < |r.0| :: r.0[i].isBackground
    ensures |r.1| == |def.overlays|
    ensures forall i | 0 <= i < |r.1| :: r.1[i] == CreateGroup(def.overlays[i])
  {
    var bgConfigs := seq(|def.backgroundLayer|, i requires 0 <= i < |def.backgroundLayer| => AsBackground(def.backgroundLayer[i]));
    var bgs := Survivors(bgConfigs);
    forall i | 0 <= i < |bgs| ensures bgs[i].isBackground {
      assert bgs[i] in bgs;
    }
    (bgs, seq(|def.overlays|, i requires 0 <= i < |def.overlays| => CreateGroup(def.overlays[i])))
  }
}
