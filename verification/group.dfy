/** A layer group of the layer switcher: its layers, the display options from
    the configuration, and a stored visibility flag. */
module Groups {
  import opened Util
  import opened LayerTypes
  import Layers

  type Layer = Layers.Layer

  datatype Group = Group(
    name: string,
    title: string,
    layers: seq<Layer>,
    showGroup: bool,
    singleSelect: bool,
    singleSelectGroup: bool,
    defaultVisibleLayers: seq<string>,
    collapsed: bool,
    visible: bool)

  predicate AnyVisible(layers: seq<Layer>) {
    exists i | 0 <= i < |layers| :: layers[i].visible
  }

  function CountVisible(layers: seq<Layer>): (n: nat)
    ensures n <= |layers|
    ensures n == 0 <==> !AnyVisible(layers)
  {
    if |layers| == 0 then 0
    else
      (if layers[|layers| - 1].visible then 1 else 0) + CountVisible(layers[..|layers| - 1])
  }

  /** Same layers up to visibility, opacity and handles: names and background flags kept. */
  predicate SameLayers(a: seq<Layer>, b: seq<Layer>) {
    |a| == |b| && forall i | 0 <= i < |a| :: a[i].name == b[i].name && a[i].isBackground == b[i].isBackground
  }

  /** The group constructor. */
  function NewGroup(config: GroupConfig, layers: seq<Layer>): (g: Group)
    ensures g.name == config.name && g.title == config.title && g.layers == layers
    ensures g.showGroup == config.showGroup.GetOr(true)
    ensures g.singleSelect == config.singleSelect.GetOr(false)
    ensures g.singleSelectGroup == config.singleSelectGroup.GetOr(false)
    ensures g.defaultVisibleLayers == config.defaultVisibleLayers.GetOr([])
    ensures g.collapsed == config.collapsed.GetOr(true)
    ensures g.visible <==> AnyVisible(layers)
  {
    Group(config.name, config.title, layers, config.showGroup.GetOr(true), config.singleSelect.GetOr(false),
          config.singleSelectGroup.GetOr(false), config.defaultVisibleLayers.GetOr([]),
          config.collapsed.GetOr(true), AnyVisible(layers))
  }

  /** Calls `setVisible(want(i))` on layer `i`, for every layer. */
  function SetEach(layers: seq<Layer>, want: nat -> bool): (r: seq<Layer>)
    ensures |r| == |layers|
    ensures forall i | 0 <= i < |r| :: r[i] == Layers.SetVisible(layers[i], want(i))
    ensures SameLayers(layers, r)
  {
    seq(|layers|, i requires 0 <= i < |layers| => Layers.SetVisible(layers[i], want(i)))
  }

  /** Which layer positions `setVisible(true)` turns on. */
  function ShownOnGroupShow(g: Group): nat -> bool {
    if |g.defaultVisibleLayers| > 0 then
      (i: nat) => i < |g.layers| && g.layers[i].name in g.defaultVisibleLayers
    else if g.singleSelect then
      (i: nat) => i == 0
    else
      (i: nat) => true
  }

  /** `setVisible`: stores the flag; hiding hides every layer; showing turns on
      the default-visible layers when some are configured, else only the first
      layer of a single-select group, else every layer. */
  function SetVisible(g: Group, visible: bool): (r: Group)
    ensures r.visible == visible
    ensures r == g.(visible := visible, layers := r.layers)
    ensures SameLayers(g.layers, r.layers)
    ensures !visible ==> forall i | 0 <= i < |r.layers| :: !r.layers[i].visible
    ensures visible && |g.defaultVisibleLayers| > 0 ==>
      forall i | 0 <= i < |r.layers| :: r.layers[i].visible <==> g.layers[i].name in g.defaultVisibleLayers
    ensures visible && |g.defaultVisibleLayers| == 0 && g.singleSelect ==>
      forall i | 0 <= i < |r.layers| :: r.layers[i].visible <==> i == 0
    ensures visible && |g.defaultVisibleLayers| == 0 && !g.singleSelect ==>
      forall i | 0 <= i < |r.layers| :: r.layers[i].visible
  {
    var want := if visible then ShownOnGroupShow(g) else (i: nat) => false;
    g.(visible := visible, layers := SetEach(g.layers, want))
  }

  /** `layers.find(l => l.name === name)`. */
  function FindLayer(layers: seq<Layer>, name: string): (r: Option<nat>)
    ensures r.None? <==> forall i | 0 <= i < |layers| :: layers[i].name != name
    ensures r.Some? ==>
      && r.value < |layers| && layers[r.value].name == name
      && forall j | 0 <= j < r.value :: layers[j].name != name
  {
    FirstIndex(layers, (l: Layer) => l.name == name)
  }

  /** `toggleLayer`: unknown names change nothing. In single-select mode every
      layer named `name` is shown if the first one was hidden and every other
      layer is hidden; otherwise the first layer named `name` flips. The group
      flag is then recomputed. */
  function ToggleLayer(g: Group, name: string): (r: Group)
    ensures FindLayer(g.layers, name).None? ==> r == g
    ensures SameLayers(g.layers, r.layers)
    ensures r == g.(visible := r.visible, layers := r.layers)
    ensures FindLayer(g.layers, name).Some? ==> (r.visible <==> AnyVisible(r.layers))
    ensures FindLayer(g.layers, name).Some? && g.singleSelect ==>
      var wasVisible := g.layers[FindLayer(g.layers, name).value].visible;
      forall i | 0 <= i < |r.layers| :: r.layers[i].visible <==> (g.layers[i].name == name && !wasVisible)
    ensures FindLayer(g.layers, name).Some? && !g.singleSelect ==>
      var t := FindLayer(g.layers, name).value;
      && r.layers[t].visible == !g.layers[t].visible
      && forall i | 0 <= i < |r.layers| && i != t :: r.layers[i] == g.layers[i]
  {
    match FindLayer(g.layers, name)
    case None => g
    case Some(t) =>
      var layers :=
        if g.singleSelect then
          var wasVisible := g.layers[t].visible;
          SetEach(g.layers, (i: nat) => i < |g.layers| && g.layers[i].name == name && !wasVisible)
        else
          g.layers[t := Layers.SetVisible(g.layers[t], !g.layers[t].visible)];
      g.(layers := layers, visible := AnyVisible(layers))
  }

  /** `getVisibleLayers`. */
  function VisibleLayers(g: Group): (r: seq<Layer>)
    ensures forall l | l in r :: l in g.layers && l.visible
    ensures forall l | l in g.layers && l.visible :: l in r
    ensures |r| == CountVisible(g.layers)
  {
    FilterVisible(g.layers)
  }

  function FilterVisible(layers: seq<Layer>): (r: seq<Layer>)
    ensures forall l | l in r :: l in layers && l.visible
    ensures forall l | l in layers && l.visible :: l in r
    ensures |r| == CountVisible(layers)
  {
    if |layers| == 0 then []
    else
      var last := layers[|layers| - 1];
      var init := layers[..|layers| - 1];
      assert layers == init + [last];
      FilterVisible(init) + (if last.visible then [last] else [])
  }

  /** `isLayerVisible`: visibility of the first layer with that name, false when none. */
  function IsLayerVisible(g: Group, name: string): (r: bool)
    ensures r <==> exists i | 0 <= i < |g.layers| :: g.layers[i].name == name && g.layers[i].visible
                    && forall j | 0 <= j < i :: g.layers[j].name != name
  {
    match FindLayer(g.layers, name)
    case None => false
    case Some(t) => g.layers[t].visible
  }

  /** `dispose`: every layer drops its handle. */
  function Dispose(g: Group): (r: Group)
    ensures |r.layers| == |g.layers|
    ensures forall i | 0 <= i < |r.layers| :: r.layers[i] == Layers.Dispose(g.layers[i])
    ensures r == g.(layers := r.layers)
  {
    g.(layers := seq(|g.layers|, i requires 0 <= i < |g.layers| => Layers.Dispose(g.layers[i])))
  }

  // -------------------------------------------------------------------------
  // Single-select groups

  predicate UniqueNames(layers: seq<Layer>) {
    forall i, j | 0 <= i < j < |layers| :: layers[i].name != layers[j].name
  }

  predicate AtMostOneVisible(layers: seq<Layer>) {
    forall i, j | 0 <= i < j < |layers| :: !(layers[i].visible && layers[j].visible)
  }

  /** With unique layer names, toggling a layer of a single-select group leaves at
      most one layer visible, and that layer is the toggled one. */
  lemma SingleSelectToggleShowsAtMostOne(g: Group, name: string)
    requires g.singleSelect && UniqueNames(g.layers)
    ensures FindLayer(g.layers, name).Some? ==> AtMostOneVisible(ToggleLayer(g, name).layers)
    ensures FindLayer(g.layers, name).Some? ==>
      forall i | 0 <= i < |g.layers| && ToggleLayer(g, name).layers[i].visible :: g.layers[i].name == name
  {
  }

  /** The operations the layer switcher applies to one group. */
  datatype GroupOp = ShowGroup | HideGroup | Toggle(name: string)

  function Apply(g: Group, op: GroupOp): Group {
    match op
    case ShowGroup => SetVisible(g, true)
    case HideGroup => SetVisible(g, false)
    case Toggle(n) => ToggleLayer(g, n)
  }

  function Run(g: Group, ops: seq<GroupOp>): Group
    decreases |ops|
  {
    if |ops| == 0 then g else Run(Apply(g, ops[0]), ops[1..])
  }

  /** A single-select group with unique layer names and no configured default
      layers never shows two layers at once, whatever the user does, once it
      starts with at most one visible. */
  lemma {:induction false} SingleSelectInvariant(g: Group, ops: seq<GroupOp>)
    requires g.singleSelect && |g.defaultVisibleLayers| == 0
    requires UniqueNames(g.layers) && AtMostOneVisible(g.layers)
    ensures AtMostOneVisible(Run(g, ops).layers)
    decreases |ops|
  {
    if |ops| > 0 {
      var next := Apply(g, ops[0]);
      match ops[0] {
        case ShowGroup =>
        case HideGroup =>
        case Toggle(n) =>
          if FindLayer(g.layers, n).Some? {
            SingleSelectToggleShowsAtMostOne(g, n);
          }
      }
      assert UniqueNames(next.layers);
      SingleSelectInvariant(next, ops[1..]);
    }
  }
}
