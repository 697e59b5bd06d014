/** The layer store: background layers, overlay groups, the active background,
    and the name indexes every name-based operation goes through.

    The client shares layer objects between the lists and the indexes; here a
    layer is addressed by its position (`LayerRef`), so an index entry points
    at a slot and every change to that slot is seen through the lists. */
module LayerStore {
  import opened Util
  import Layers
  import Groups

  type Layer = Layers.Layer
  type Group = Groups.Group

  /** Position of a layer: `Bg(i)` in the background list, `Ov(g, j)` the j-th
      layer of overlay group g. */
  datatype LayerRef = Bg(index: nat) | Ov(group: nat, index: nat)

  datatype Store = Store(
    backgrounds: seq<Layer>,
    overlays: seq<Group>,
    active: Option<LayerRef>,
    initialized: bool,
    layersByName: map<string, LayerRef>,
    groupsByName: map<string, nat>)

  const Empty := Store([], [], None, false, map[], map[])

  // -------------------------------------------------------------------------
  // Addressing layers

  predicate ValidRefIn(bgs: seq<Layer>, ovs: seq<Group>, r: LayerRef) {
    match r
    case Bg(i) => i < |bgs|
    case Ov(g, j) => g < |ovs| && j < |ovs[g].layers|
  }

  predicate ValidRef(s: Store, r: LayerRef) {
    ValidRefIn(s.backgrounds, s.overlays, r)
  }

  function LayerAt(s: Store, r: LayerRef): Layer
    requires ValidRef(s, r)
  {
    match r
    case Bg(i) => s.backgrounds[i]
    case Ov(g, j) => s.overlays[g].layers[j]
  }

  /** Replaces the layer in one slot; nothing else changes. */
  function PutLayer(s: Store, r: LayerRef, l: Layer): (s': Store)
    requires ValidRef(s, r)
    ensures forall q :: ValidRef(s', q) <==> ValidRef(s, q)
    ensures forall q | ValidRef(s, q) :: LayerAt(s', q) == if q == r then l else LayerAt(s, q)
    ensures |s'.overlays| == |s.overlays|
    ensures forall g | 0 <= g < |s.overlays| :: s'.overlays[g] == s.overlays[g].(layers := s'.overlays[g].layers)
    ensures s' == s.(backgrounds := s'.backgrounds, overlays := s'.overlays)
  {
    match r
    case Bg(i) => s.(backgrounds := s.backgrounds[i := l])
    case Ov(g, j) => s.(overlays := s.overlays[g := s.overlays[g].(layers := s.overlays[g].layers[j := l])])
  }

  /** Positions of all layers in document order: backgrounds, then each group's
      layers in group order. */
  function OverlayRefs(ovs: seq<Group>): (refs: seq<LayerRef>)
    ensures forall k | 0 <= k < |refs| :: refs[k].Ov? && ValidRefIn([], ovs, refs[k])
    decreases |ovs|
  {
    if |ovs| == 0 then []
    else
      var n := |ovs| - 1;
      var init := OverlayRefs(ovs[..n]);
      init + seq(|ovs[n].layers|, j requires 0 <= j < |ovs[n].layers| => Ov(n, j))
  }

  function AllRefs(bgs: seq<Layer>, ovs: seq<Group>): (refs: seq<LayerRef>)
    ensures forall k | 0 <= k < |refs| :: ValidRefIn(bgs, ovs, refs[k])
  {
    seq(|bgs|, i requires 0 <= i < |bgs| => Bg(i)) + OverlayRefs(ovs)
  }

  /** All overlay layers, group by group. */
  function Flatten(ovs: seq<Group>): (r: seq<Layer>)
    ensures |r| == |OverlayRefs(ovs)|
    ensures forall k | 0 <= k < |r| ::
      r[k] == ovs[OverlayRefs(ovs)[k].group].layers[OverlayRefs(ovs)[k].index]
    decreases |ovs|
  {
    if |ovs| == 0 then []
    else
      var n := |ovs| - 1;
      assert forall g | 0 <= g < n :: ovs[..n][g] == ovs[g];
      Flatten(ovs[..n]) + ovs[n].layers
  }

  /** Every overlay slot appears among the overlay positions. */
  lemma {:induction false} OverlayRefsComplete(ovs: seq<Group>, g: nat, j: nat)
    requires g < |ovs| && j < |ovs[g].layers|
    ensures Ov(g, j) in OverlayRefs(ovs)
    decreases |ovs|
  {
    var n := |ovs| - 1;
    var tail := seq(|ovs[n].layers|, j requires 0 <= j < |ovs[n].layers| => Ov(n, j));
    if g == n {
      assert tail[j] == Ov(g, j);
    } else {
      assert ovs[..n][g] == ovs[g];
      OverlayRefsComplete(ovs[..n], g, j);
    }
  }

  /** Name of the layer in a slot of the lists `initialize` receives. */
  function RefName(bgs: seq<Layer>, ovs: seq<Group>, r: LayerRef): string
    requires ValidRefIn(bgs, ovs, r)
  {
    match r
    case Bg(i) => bgs[i].name
    case Ov(g, j) => ovs[g].layers[j].name
  }

  /** The index entries `initialize` inserts, in insertion order. */
  function LayerEntries(bgs: seq<Layer>, ovs: seq<Group>): (e: seq<(string, LayerRef)>)
    ensures |e| == |AllRefs(bgs, ovs)|
    ensures forall k | 0 <= k < |e| :: e[k] == (RefName(bgs, ovs, AllRefs(bgs, ovs)[k]), AllRefs(bgs, ovs)[k])
  {
    var refs := AllRefs(bgs, ovs);
    seq(|refs|, k requires 0 <= k < |refs| => (RefName(bgs, ovs, refs[k]), refs[k]))
  }

  function GroupEntries(ovs: seq<Group>): (e: seq<(string, nat)>)
    ensures |e| == |ovs| && forall g | 0 <= g < |ovs| :: e[g] == (ovs[g].name, g)
  {
    seq(|ovs|, g requires 0 <= g < |ovs| => (ovs[g].name, g))
  }

  // -------------------------------------------------------------------------
  // Store invariant

  /** The indexes point at existing slots holding layers/groups of that name,
      and the active background (if any) is an existing slot. */
  predicate Valid(s: Store) {
    && (forall n | n in s.layersByName :: ValidRef(s, s.layersByName[n]) && LayerAt(s, s.layersByName[n]).name == n)
    && (forall n | n in s.groupsByName :: s.groupsByName[n] < |s.overlays| && s.overlays[s.groupsByName[n]].name == n)
    && (s.active.Some? ==> ValidRef(s, s.active.value))
  }

  // -------------------------------------------------------------------------
  // Operations

  /** The background `initialize` makes active: the first visible one, else the
      first one, else none. */
  function InitialActive(bgs: seq<Layer>): (r: Option<nat>)
    ensures r.None? <==> |bgs| == 0
    ensures r.Some? ==> r.value < |bgs|
    ensures r.Some? && bgs[r.value].visible ==> forall j | 0 <= j < r.value :: !bgs[j].visible
    ensures r.Some? && !bgs[r.value].visible ==> r.value == 0 && forall j | 0 <= j < |bgs| :: !bgs[j].visible
  {
    match FirstIndex(bgs, (l: Layer) => l.visible)
    case Some(i) => Some(i)
    case None => if |bgs| > 0 then Some(0) else None
  }

  /** `initialize`. */
  function Initialize(bgs: seq<Layer>, ovs: seq<Group>): (s: Store)
    ensures s.initialized && s.overlays == ovs && |s.backgrounds| == |bgs|
    ensures s.active.None? <==> |bgs| == 0
    ensures s.active.Some? ==> s.active == Some(Bg(InitialActive(bgs).value))
    ensures forall i | 0 <= i < |bgs| :: s.backgrounds[i] == Layers.SetVisible(bgs[i], Some(Bg(i)) == s.active)
    ensures forall i | 0 <= i < |bgs| :: s.backgrounds[i].visible <==> Some(Bg(i)) == s.active
    ensures s.layersByName == LastWins(LayerEntries(bgs, ovs))
    ensures s.groupsByName == LastWins(GroupEntries(ovs))
  {
    var active := InitialActive(bgs);
    var shown := seq(|bgs|, i requires 0 <= i < |bgs| => Layers.SetVisible(bgs[i], Some(i) == active));
    Store(shown, ovs, if active.Some? then Some(Bg(active.value)) else None, true,
          LastWins(LayerEntries(bgs, ovs)), LastWins(GroupEntries(ovs)))
  }

  /** Looks a layer up through the index. */
  function Lookup(s: Store, name: string): (r: Option<LayerRef>)
    ensures r.Some? ==> name in s.layersByName && ValidRef(s, r.value) && r == Some(s.layersByName[name])
    ensures Valid(s) ==> (r.Some? <==> name in s.layersByName)
  {
    if name in s.layersByName && ValidRef(s, s.layersByName[name]) then Some(s.layersByName[name]) else None
  }

  function HideBackgrounds(s: Store): (s': Store)
    ensures |s'.backgrounds| == |s.backgrounds|
    ensures forall i | 0 <= i < |s.backgrounds| :: s'.backgrounds[i] == Layers.SetVisible(s.backgrounds[i], false)
    ensures s' == s.(backgrounds := s'.backgrounds)
  {
    s.(backgrounds := seq(|s.backgrounds|, i requires 0 <= i < |s.backgrounds| => Layers.SetVisible(s.backgrounds[i], false)))
  }

  /** `setActiveBackground`: hides every background, shows the given layer and
      records it as active. */
  function SetActiveBackground(s: Store, r: LayerRef): (s': Store)
    requires ValidRef(s, r)
    ensures ValidRef(s', r) && LayerAt(s', r).visible && s'.active == Some(r)
    ensures forall i | 0 <= i < |s'.backgrounds| :: s'.backgrounds[i].visible <==> r == Bg(i)
    ensures forall q | ValidRef(s, q) ::
      && ValidRef(s', q)
      && LayerAt(s', q).name == LayerAt(s, q).name && LayerAt(s', q).isBackground == LayerAt(s, q).isBackground
    ensures forall q | ValidRef(s, q) && q != r && !q.Bg? :: LayerAt(s', q) == LayerAt(s, q)
    ensures s'.layersByName == s.layersByName && s'.groupsByName == s.groupsByName
    ensures s'.initialized == s.initialized && |s'.backgrounds| == |s.backgrounds|
  {
    var hidden := HideBackgrounds(s);
    var shown := PutLayer(hidden, r, Layers.SetVisible(LayerAt(hidden, r), true));
    shown.(active := Some(r))
  }

  /** `setActiveBackgroundByName`: only a known layer flagged as a background
      can be activated; any other name changes nothing. */
  function SetActiveBackgroundByName(s: Store, name: string): (s': Store)
    ensures Lookup(s, name).None? || !LayerAt(s, Lookup(s, name).value).isBackground ==> s' == s
    ensures Lookup(s, name).Some? && LayerAt(s, Lookup(s, name).value).isBackground ==>
      s' == SetActiveBackground(s, Lookup(s, name).value)
  {
    match Lookup(s, name)
    case Some(r) => if LayerAt(s, r).isBackground then SetActiveBackground(s, r) else s
    case None => s
  }

  /** The overlay layer a name-based visibility change applies to, if any. */
  function OverlayTarget(s: Store, name: string): (r: Option<LayerRef>)
    ensures r.Some? ==> Lookup(s, name) == r && !LayerAt(s, r.value).isBackground
    ensures r.None? ==> Lookup(s, name).None? || LayerAt(s, Lookup(s, name).value).isBackground
  {
    match Lookup(s, name)
    case Some(r) => if LayerAt(s, r).isBackground then None else Some(r)
    case None => None
  }

  /** `setLayerVisibility`: unknown names and background layers are ignored;
      otherwise exactly the indexed layer changes. */
  function SetLayerVisibility(s: Store, name: string, visible: bool): (s': Store)
    ensures OverlayTarget(s, name).None? ==> s' == s
    ensures OverlayTarget(s, name).Some? ==>
      var r := OverlayTarget(s, name).value;
      && ValidRef(s', r) && LayerAt(s', r) == Layers.SetVisible(LayerAt(s, r), visible)
      && LayerAt(s', r).visible == visible
      && (forall q | ValidRef(s, q) && q != r :: ValidRef(s', q) && LayerAt(s', q) == LayerAt(s, q))
      && s' == s.(backgrounds := s'.backgrounds, overlays := s'.overlays)
  {
    match OverlayTarget(s, name)
    case Some(r) => PutLayer(s, r, Layers.SetVisible(LayerAt(s, r), visible))
    case None => s
  }

  /** `toggleLayerVisibility`. */
  function ToggleLayerVisibility(s: Store, name: string): (s': Store)
    ensures OverlayTarget(s, name).None? ==> s' == s
    ensures OverlayTarget(s, name).Some? ==>
      var r := OverlayTarget(s, name).value;
      s' == SetLayerVisibility(s, name, !LayerAt(s, r).visible) && LayerAt(s', r).visible != LayerAt(s, r).visible
  {
    match OverlayTarget(s, name)
    case Some(r) => SetLayerVisibility(s, name, !LayerAt(s, r).visible)
    case None => s
  }

  /** `setLayerOpacity`: applies to any indexed layer, background or not. */
  function SetLayerOpacity(s: Store, name: string, opacity: real): (s': Store)
    ensures Lookup(s, name).None? ==> s' == s
    ensures Lookup(s, name).Some? ==>
      var r := Lookup(s, name).value;
      && ValidRef(s', r) && LayerAt(s', r) == Layers.SetOpacity(LayerAt(s, r), opacity)
      && (forall q | ValidRef(s, q) && q != r :: ValidRef(s', q) && LayerAt(s', q) == LayerAt(s, q))
      && s' == s.(backgrounds := s'.backgrounds, overlays := s'.overlays)
  {
    match Lookup(s, name)
    case Some(r) => PutLayer(s, r, Layers.SetOpacity(LayerAt(s, r), opacity))
    case None => s
  }

  function LookupGroup(s: Store, name: string): (r: Option<nat>)
    ensures r.Some? ==> name in s.groupsByName && r.value < |s.overlays| && r == Some(s.groupsByName[name])
    ensures Valid(s) ==> (r.Some? <==> name in s.groupsByName)
  {
    if name in s.groupsByName && s.groupsByName[name] < |s.overlays| then Some(s.groupsByName[name]) else None
  }

  /** `setGroupVisibility`: `Group.setVisible` on the indexed group. */
  function SetGroupVisibility(s: Store, name: string, visible: bool): (s': Store)
    ensures LookupGroup(s, name).None? ==> s' == s
    ensures LookupGroup(s, name).Some? ==>
      var g := LookupGroup(s, name).value;
      s' == s.(overlays := s.overlays[g := Groups.SetVisible(s.overlays[g], visible)])
  {
    match LookupGroup(s, name)
    case Some(g) => s.(overlays := s.overlays[g := Groups.SetVisible(s.overlays[g], visible)])
    case None => s
  }

  /** `toggleGroupVisibility`: negates the group's stored flag, which layer-level
      changes made through the store do not update. */
  function ToggleGroupVisibility(s: Store, name: string): (s': Store)
    ensures LookupGroup(s, name).None? ==> s' == s
    ensures LookupGroup(s, name).Some? ==>
      var g := LookupGroup(s, name).value;
      s' == SetGroupVisibility(s, name, !s.overlays[g].visible) && s'.overlays[g].visible != s.overlays[g].visible
  {
    match LookupGroup(s, name)
    case Some(g) => SetGroupVisibility(s, name, !s.overlays[g].visible)
    case None => s
  }

  /** `getLayerByName`. */
  function GetLayerByName(s: Store, name: string): (r: Option<Layer>)
    ensures r.Some? <==> Lookup(s, name).Some?
    ensures r.Some? ==> r.value == LayerAt(s, Lookup(s, name).value)
  {
    match Lookup(s, name)
    case Some(q) => Some(LayerAt(s, q))
    case None => None
  }

  /** `getGroupByName`. */
  function GetGroupByName(s: Store, name: string): (r: Option<Group>)
    ensures r.Some? <==> LookupGroup(s, name).Some?
    ensures r.Some? ==> r.value == s.overlays[LookupGroup(s, name).value]
    ensures r.Some? && Valid(s) ==> r.value.name == name
  {
    match LookupGroup(s, name)
    case Some(g) => Some(s.overlays[g])
    case None => None
  }

  /** `getAllLayers`: the backgrounds, then every group's layers. */
  function GetAllLayers(s: Store): (r: seq<Layer>)
    ensures |r| == |AllRefs(s.backgrounds, s.overlays)|
    ensures forall k | 0 <= k < |r| :: r[k] == LayerAt(s, AllRefs(s.backgrounds, s.overlays)[k])
    ensures r[..|s.backgrounds|] == s.backgrounds
  {
    var r := s.backgrounds + Flatten(s.overlays);
    assert r[..|s.backgrounds|] == s.backgrounds;
    r
  }

  /** `a` is visited before `b` by the loop over the groups and, inside a
      group, over its layers. */
  predicate OvBefore(a: LayerRef, b: LayerRef) {
    a.Ov? && b.Ov? && (a.group < b.group || (a.group == b.group && a.index < b.index))
  }

  predicate InLoopOrder(refs: seq<LayerRef>) {
    forall k1, k2 | 0 <= k1 < k2 < |refs| :: OvBefore(refs[k1], refs[k2])
  }

  /** Every overlay position of `ovs`. */
  predicate OverlayPositions(ovs: seq<Group>, refs: seq<LayerRef>) {
    forall k | 0 <= k < |refs| :: refs[k].Ov? && ValidRefIn([], ovs, refs[k])
  }

  /** The positions among `refs` whose layer is visible, in the same order. */
  function VisibleRefs(ovs: seq<Group>, refs: seq<LayerRef>): (r: seq<LayerRef>)
    requires OverlayPositions(ovs, refs)
    ensures OverlayPositions(ovs, r)
    ensures forall q | q in r :: q in refs
    ensures forall k | 0 <= k < |refs| && ovs[refs[k].group].layers[refs[k].index].visible :: refs[k] in r
    decreases |refs|
  {
    if |refs| == 0 then []
    else
      var n := |refs| - 1;
      var q := refs[n];
      assert forall k | 0 <= k < n :: refs[..n][k] == refs[k];
      VisibleRefs(ovs, refs[..n]) + (if ovs[q.group].layers[q.index].visible then [q] else [])
  }

  /** `OverlayRefs` lists the positions in loop order. */
  lemma {:induction false} OverlayRefsInLoopOrder(ovs: seq<Group>)
    ensures InLoopOrder(OverlayRefs(ovs))
    decreases |ovs|
  {
    if |ovs| > 0 {
      var n := |ovs| - 1;
      var init := OverlayRefs(ovs[..n]);
      var tail := seq(|ovs[n].layers|, j requires 0 <= j < |ovs[n].layers| => Ov(n, j));
      OverlayRefsInLoopOrder(ovs[..n]);
      var refs := init + tail;
      assert OverlayRefs(ovs) == refs;
      forall k1, k2 | 0 <= k1 < k2 < |refs|
        ensures OvBefore(refs[k1], refs[k2])
      {
        if k2 < |init| {
          assert refs[k1] == init[k1] && refs[k2] == init[k2];
        } else if k1 < |init| {
          assert refs[k1] == init[k1] && init[k1].group < n;
          assert refs[k2] == tail[k2 - |init|];
        } else {
          assert refs[k1] == tail[k1 - |init|] && refs[k2] == tail[k2 - |init|];
        }
      }
    }
  }

  /** Keeping only the visible positions keeps the order. */
  lemma {:induction false} VisibleRefsInLoopOrder(ovs: seq<Group>, refs: seq<LayerRef>)
    requires OverlayPositions(ovs, refs) && InLoopOrder(refs)
    ensures InLoopOrder(VisibleRefs(ovs, refs))
    decreases |refs|
  {
    if |refs| > 0 {
      var n := |refs| - 1;
      var init := refs[..n];
      assert OverlayPositions(ovs, init) by {
        forall k | 0 <= k < n ensures init[k] == refs[k] {}
      }
      assert InLoopOrder(init) by {
        forall k1, k2 | 0 <= k1 < k2 < n ensures OvBefore(init[k1], init[k2]) {
          assert init[k1] == refs[k1] && init[k2] == refs[k2];
        }
      }
      VisibleRefsInLoopOrder(ovs, init);
      var v := VisibleRefs(ovs, init);
      var q := refs[n];
      var r := v + (if ovs[q.group].layers[q.index].visible then [q] else []);
      assert VisibleRefs(ovs, refs) == r;
      forall k1, k2 | 0 <= k1 < k2 < |r|
        ensures OvBefore(r[k1], r[k2])
      {
        if k2 < |v| {
          assert r[k1] == v[k1] && r[k2] == v[k2];
        } else {
          assert r[k1] == v[k1] && r[k2] == q;
          assert v[k1] in init;
          var i :| 0 <= i < n && init[i] == v[k1];
          assert refs[i] == v[k1];
        }
      }
    }
  }

  /** One step of the two filters: both keep their last element exactly when
      the layer at the last position is visible. */
  lemma FilterVisibleLastStep(ovs: seq<Group>, refs: seq<LayerRef>, flat: seq<Layer>)
    requires OverlayPositions(ovs, refs) && |flat| == |refs| > 0
    requires forall k | 0 <= k < |refs| :: flat[k] == ovs[refs[k].group].layers[refs[k].index]
    ensures var n := |refs| - 1;
      var q := refs[n];
      var keep := ovs[q.group].layers[q.index].visible;
      && OverlayPositions(ovs, refs[..n])
      && VisibleRefs(ovs, refs) == VisibleRefs(ovs, refs[..n]) + (if keep then [q] else [])
      && Groups.FilterVisible(flat) == Groups.FilterVisible(flat[..n]) + (if keep then [flat[n]] else [])
      && flat[n] == ovs[q.group].layers[q.index]
      && forall k | 0 <= k < n :: flat[..n][k] == ovs[refs[..n][k].group].layers[refs[..n][k].index]
  {
    var n := |refs| - 1;
    assert OverlayPositions(ovs, refs[..n]) by {
      forall k | 0 <= k < n ensures refs[..n][k] == refs[k] {}
    }
  }

  /** Filtering the flattened layers by visibility picks the layers at the
      visible positions. */
  lemma {:induction false} FilterVisibleAtRefs(ovs: seq<Group>, refs: seq<LayerRef>, flat: seq<Layer>)
    requires OverlayPositions(ovs, refs) && |flat| == |refs|
    requires forall k | 0 <= k < |refs| :: flat[k] == ovs[refs[k].group].layers[refs[k].index]
    ensures var v := VisibleRefs(ovs, refs);
      var r := Groups.FilterVisible(flat);
      && |r| == |v|
      && forall k | 0 <= k < |r| :: r[k] == ovs[v[k].group].layers[v[k].index]
    decreases |refs|
  {
    if |refs| > 0 {
      var n := |refs| - 1;
      FilterVisibleLastStep(ovs, refs, flat);
      FilterVisibleAtRefs(ovs, refs[..n], flat[..n]);
      var q := refs[n];
      AppendAtRefs(ovs, Groups.FilterVisible(flat[..n]), VisibleRefs(ovs, refs[..n]),
                   ovs[q.group].layers[q.index].visible, flat[n], q);
    }
  }

  /** Extending both filtered lists by the same position keeps them in step. */
  lemma AppendAtRefs(ovs: seq<Group>, r0: seq<Layer>, v0: seq<LayerRef>, keep: bool, x: Layer, q: LayerRef)
    requires OverlayPositions(ovs, v0) && q.Ov? && ValidRefIn([], ovs, q)
    requires |r0| == |v0| && forall k | 0 <= k < |r0| :: r0[k] == ovs[v0[k].group].layers[v0[k].index]
    requires x == ovs[q.group].layers[q.index]
    ensures var r := r0 + (if keep then [x] else []);
      var v := v0 + (if keep then [q] else []);
      && |r| == |v|
      && forall k | 0 <= k < |r| :: r[k] == ovs[v[k].group].layers[v[k].index]
  {
  }

  /** `getVisibleOverlayLayers`: the visible layers of all groups, in group order. */
  function GetVisibleOverlayLayers(s: Store): (r: seq<Layer>)
    ensures forall l | l in r :: l.visible && exists g, j | 0 <= g < |s.overlays| && 0 <= j < |s.overlays[g].layers| :: s.overlays[g].layers[j] == l
    ensures forall g, j | 0 <= g < |s.overlays| && 0 <= j < |s.overlays[g].layers| && s.overlays[g].layers[j].visible ::
      s.overlays[g].layers[j] in r
  {
    var flat := Flatten(s.overlays);
    forall g, j | 0 <= g < |s.overlays| && 0 <= j < |s.overlays[g].layers|
      ensures s.overlays[g].layers[j] in flat
    {
      OverlayRefsComplete(s.overlays, g, j);
      var k :| 0 <= k < |OverlayRefs(s.overlays)| && OverlayRefs(s.overlays)[k] == Ov(g, j);
      assert flat[k] == s.overlays[g].layers[j];
    }
    forall l | l in flat
      ensures exists g, j | 0 <= g < |s.overlays| && 0 <= j < |s.overlays[g].layers| :: s.overlays[g].layers[j] == l
    {
      var k :| 0 <= k < |flat| && flat[k] == l;
      var q := OverlayRefs(s.overlays)[k];
      assert s.overlays[q.group].layers[q.index] == l;
    }
    Groups.FilterVisible(flat)
  }

  /** The visible layers come once per visible position, in the order the
      nested loops over the groups and their layers visit them. */
  lemma GetVisibleOverlayLayersOrder(s: Store)
    ensures var refs := VisibleRefs(s.overlays, OverlayRefs(s.overlays));
      var r := GetVisibleOverlayLayers(s);
      && InLoopOrder(refs)
      && |r| == |refs|
      && (forall k | 0 <= k < |r| :: r[k] == s.overlays[refs[k].group].layers[refs[k].index])
      && (forall g, j | 0 <= g < |s.overlays| && 0 <= j < |s.overlays[g].layers| ::
            s.overlays[g].layers[j].visible <==> Ov(g, j) in refs)
  {
    var ovs := s.overlays;
    var all := OverlayRefs(ovs);
    var refs := VisibleRefs(ovs, all);
    OverlayRefsInLoopOrder(ovs);
    VisibleRefsInLoopOrder(ovs, all);
    FilterVisibleAtRefs(ovs, all, Flatten(ovs));
    forall g, j | 0 <= g < |ovs| && 0 <= j < |ovs[g].layers|
      ensures ovs[g].layers[j].visible <==> Ov(g, j) in refs
    {
      if ovs[g].layers[j].visible {
        OverlayRefsComplete(ovs, g, j);
        var k :| 0 <= k < |all| && all[k] == Ov(g, j);
      }
      if Ov(g, j) in refs {
        var k :| 0 <= k < |refs| && refs[k] == Ov(g, j);
        var r := GetVisibleOverlayLayers(s);
        assert r[k] == ovs[g].layers[j];
        assert r[k] in r;
      }
    }
  }


  /** `reset`. */
  function Reset(s: Store): (s': Store)
    ensures !s'.initialized && s'.active.None?
    ensures |s'.backgrounds| == 0 && |s'.overlays| == 0
    ensures |s'.layersByName| == 0 && |s'.groupsByName| == 0
  {
    Empty
  }

  // -------------------------------------------------------------------------
  // Properties

  /** The layer index `initialize` builds (`Initialize(bgs, ovs).layersByName`)
      holds a name exactly when some layer carries it, and maps it to the last
      such layer in document order (backgrounds, then groups in order): later
      duplicates shadow earlier ones. */
  lemma InitializeIndexesLastLayer(bgs: seq<Layer>, ovs: seq<Group>, name: string)
    ensures var m := LastWins(LayerEntries(bgs, ovs));
      var refs := AllRefs(bgs, ovs);
      && (name in m <==> exists k | 0 <= k < |refs| :: RefName(bgs, ovs, refs[k]) == name)
      && (name in m ==> exists k | 0 <= k < |refs| ::
            && RefName(bgs, ovs, refs[k]) == name && refs[k] == m[name]
            && forall k2 | k < k2 < |refs| :: RefName(bgs, ovs, refs[k2]) != name)
  {
    var e := LayerEntries(bgs, ovs);
    var refs := AllRefs(bgs, ovs);
    LastWinsLookup(e, name);
    if name in LastWins(e) {
      var k :| 0 <= k < |e| && IsLastEntry(e, k, name) && e[k].1 == LastWins(e)[name];
      assert RefName(bgs, ovs, refs[k]) == name;
    }
  }

  /** Group names resolve to the last group carrying that name. */
  lemma InitializeIndexesLastGroup(bgs: seq<Layer>, ovs: seq<Group>, name: string)
    ensures var s := Initialize(bgs, ovs);
      && (name in s.groupsByName <==> exists g | 0 <= g < |ovs| :: ovs[g].name == name)
      && (name in s.groupsByName ==> var g := s.groupsByName[name];
            g < |ovs| && ovs[g].name == name && forall g2 | g < g2 < |ovs| :: ovs[g2].name != name)
  {
    var s := Initialize(bgs, ovs);
    var e := GroupEntries(ovs);
    LastWinsLookup(e, name);
    if name in s.groupsByName {
      var g :| 0 <= g < |e| && IsLastEntry(e, g, name) && e[g].1 == s.groupsByName[name];
      assert g == s.groupsByName[name];
    }
  }

  lemma InitializeValid(bgs: seq<Layer>, ovs: seq<Group>)
    ensures Valid(Initialize(bgs, ovs))
  {
    var s := Initialize(bgs, ovs);
    var e := LayerEntries(bgs, ovs);
    forall n | n in s.layersByName
      ensures ValidRef(s, s.layersByName[n]) && LayerAt(s, s.layersByName[n]).name == n
    {
      LastWinsLookup(e, n);
      var k :| 0 <= k < |e| && IsLastEntry(e, k, n) && e[k].1 == s.layersByName[n];
    }
    forall n | n in s.groupsByName
      ensures s.groupsByName[n] < |s.overlays| && s.overlays[s.groupsByName[n]].name == n
    {
      LastWinsLookup(GroupEntries(ovs), n);
    }
  }

  /** At most one background layer is visible. */
  predicate AtMostOneBackgroundVisible(s: Store) {
    forall i, j | 0 <= i < j < |s.backgrounds| :: !(s.backgrounds[i].visible && s.backgrounds[j].visible)
  }

  /** Exactly one background layer is visible, and it is the active one. */
  predicate ActiveBackgroundShown(s: Store) {
    && s.active.Some? && s.active.value.Bg? && s.active.value.index < |s.backgrounds|
    && forall i | 0 <= i < |s.backgrounds| :: s.backgrounds[i].visible <==> s.active == Some(Bg(i))
  }

  /** `initialize` with at least one background leaves exactly that one shown. */
  lemma InitializeShowsOneBackground(bgs: seq<Layer>, ovs: seq<Group>)
    requires |bgs| > 0
    ensures ActiveBackgroundShown(Initialize(bgs, ovs))
  {
  }

  /** Activating a background by the name of a layer in the background list
      keeps exactly one background shown: the requested one. */
  lemma SetActiveBackgroundByNameShowsIt(s: Store, name: string)
    requires Valid(s)
    requires Lookup(s, name).Some? && Lookup(s, name).value.Bg?
    requires LayerAt(s, Lookup(s, name).value).isBackground
    ensures ActiveBackgroundShown(SetActiveBackgroundByName(s, name))
    ensures SetActiveBackgroundByName(s, name).active == Some(s.layersByName[name])
  {
  }

  /** The operations the UI applies to an initialized store. */
  datatype StoreOp =
    | ActivateBackground(name: string)
    | ToggleLayer(name: string)
    | SetLayerVisible(name: string, visible: bool)
    | SetOpacity(name: string, opacity: real)
    | ToggleGroup(name: string)
    | SetGroupVisible(name: string, visible: bool)

  function Apply(s: Store, op: StoreOp): Store {
    match op
    case ActivateBackground(n) => SetActiveBackgroundByName(s, n)
    case ToggleLayer(n) => ToggleLayerVisibility(s, n)
    case SetLayerVisible(n, v) => SetLayerVisibility(s, n, v)
    case SetOpacity(n, o) => SetLayerOpacity(s, n, o)
    case ToggleGroup(n) => ToggleGroupVisibility(s, n)
    case SetGroupVisible(n, v) => SetGroupVisibility(s, n, v)
  }

  function Run(s: Store, ops: seq<StoreOp>): Store
    decreases |ops|
  {
    if |ops| == 0 then s else Run(Apply(s, ops[0]), ops[1..])
  }

  /** The background list holds only layers flagged as backgrounds (what
      `initializeLayers` produces). */
  predicate BackgroundsFlagged(s: Store) {
    forall i | 0 <= i < |s.backgrounds| :: s.backgrounds[i].isBackground
  }

  predicate Inv(s: Store) {
    Valid(s) && BackgroundsFlagged(s) && AtMostOneBackgroundVisible(s)
  }

  /** A layer-slot update that keeps names and background flags keeps `Valid`. */
  lemma PutLayerValid(s: Store, r: LayerRef, l: Layer)
    requires Valid(s) && ValidRef(s, r)
    requires l.name == LayerAt(s, r).name
    ensures Valid(PutLayer(s, r, l))
  {
    var s' := PutLayer(s, r, l);
    assert forall g | 0 <= g < |s.overlays| :: s'.overlays[g].name == s.overlays[g].name;
  }

  lemma ActivateKeepsInv(s: Store, n: string)
    requires Inv(s)
    ensures Inv(SetActiveBackgroundByName(s, n))
  {
    var s' := SetActiveBackgroundByName(s, n);
    if s' != s {
      assert forall g | 0 <= g < |s.overlays| :: s'.overlays[g].name == s.overlays[g].name;
      assert forall i | 0 <= i < |s.backgrounds| :: ValidRef(s, Bg(i));
    }
  }

  /** Changing one non-background slot keeps the invariant. */
  lemma PutOverlayKeepsInv(s: Store, r: LayerRef, l: Layer)
    requires Inv(s) && ValidRef(s, r) && !LayerAt(s, r).isBackground
    requires l.name == LayerAt(s, r).name && l.isBackground == LayerAt(s, r).isBackground
    ensures Inv(PutLayer(s, r, l))
  {
    PutLayerValid(s, r, l);
    assert forall i | 0 <= i < |s.backgrounds| :: ValidRef(s, Bg(i));
  }

  lemma SetOpacityKeepsInv(s: Store, n: string, o: real)
    requires Inv(s)
    ensures Inv(SetLayerOpacity(s, n, o))
  {
    if Lookup(s, n).Some? {
      var r := Lookup(s, n).value;
      var l := Layers.SetOpacity(LayerAt(s, r), o);
      PutLayerValid(s, r, l);
      assert forall i | 0 <= i < |s.backgrounds| :: ValidRef(s, Bg(i));
    }
  }

  lemma SetGroupKeepsInv(s: Store, n: string, v: bool)
    requires Inv(s)
    ensures Inv(SetGroupVisibility(s, n, v))
  {
  }

  lemma {:induction false} ApplyKeepsInv(s: Store, op: StoreOp)
    requires Inv(s)
    ensures Inv(Apply(s, op))
  {
    match op {
      case ActivateBackground(n) => ActivateKeepsInv(s, n);
      case ToggleLayer(n) =>
        if OverlayTarget(s, n).Some? {
          var r := OverlayTarget(s, n).value;
          PutOverlayKeepsInv(s, r, Layers.SetVisible(LayerAt(s, r), !LayerAt(s, r).visible));
        }
      case SetLayerVisible(n, v) =>
        if OverlayTarget(s, n).Some? {
          var r := OverlayTarget(s, n).value;
          PutOverlayKeepsInv(s, r, Layers.SetVisible(LayerAt(s, r), v));
        }
      case SetOpacity(n, o) => SetOpacityKeepsInv(s, n, o);
      case ToggleGroup(n) =>
        if LookupGroup(s, n).Some? {
          SetGroupKeepsInv(s, n, !s.overlays[LookupGroup(s, n).value].visible);
        }
      case SetGroupVisible(n, v) => SetGroupKeepsInv(s, n, v);
    }
  }

  /** Whatever sequence of operations the UI applies, the indexes stay in step
      with the lists and no two backgrounds are ever shown at once. */
  lemma {:induction false} RunKeepsInv(s: Store, ops: seq<StoreOp>)
    requires Inv(s)
    ensures Inv(Run(s, ops))
    decreases |ops|
  {
    if |ops| > 0 {
      ApplyKeepsInv(s, ops[0]);
      RunKeepsInv(Apply(s, ops[0]), ops[1..]);
    }
  }

  /** No overlay layer carries the background flag. The factory does not clear
      a configured `isBackground` on overlays, so this is an assumption about
      the configuration, not something the client enforces. */
  predicate OverlaysUnflagged(s: Store) {
    forall g, j | 0 <= g < |s.overlays| && 0 <= j < |s.overlays[g].layers| :: !s.overlays[g].layers[j].isBackground
  }

  /** Exactly one background is shown, unless there are none. */
  predicate OneBackgroundShown(s: Store) {
    |s.backgrounds| == 0 || ActiveBackgroundShown(s)
  }

  /** A change confined to the overlay groups keeps the shown background. */
  lemma OverlayChangeKeepsShown(s: Store, s': Store)
    requires s'.backgrounds == s.backgrounds && s'.active == s.active
    requires |s'.overlays| == |s.overlays|
    requires forall g | 0 <= g < |s.overlays| :: Groups.SameLayers(s.overlays[g].layers, s'.overlays[g].layers)
    requires OverlaysUnflagged(s) && OneBackgroundShown(s)
    ensures OverlaysUnflagged(s') && OneBackgroundShown(s')
  {
  }

  /** Writing one overlay slot with a layer of the same name and flag leaves the
      backgrounds and the active choice alone. */
  lemma PutOverlayFrame(s: Store, r: LayerRef, l: Layer)
    requires ValidRef(s, r) && r.Ov?
    requires l.name == LayerAt(s, r).name && l.isBackground == LayerAt(s, r).isBackground
    ensures var s' := PutLayer(s, r, l);
      && s'.backgrounds == s.backgrounds && s'.active == s.active && |s'.overlays| == |s.overlays|
      && forall g | 0 <= g < |s.overlays| :: Groups.SameLayers(s.overlays[g].layers, s'.overlays[g].layers)
  {
    var s' := PutLayer(s, r, l);
    forall g | 0 <= g < |s.overlays|
      ensures Groups.SameLayers(s.overlays[g].layers, s'.overlays[g].layers)
    {
      forall j | 0 <= j < |s.overlays[g].layers|
        ensures s'.overlays[g].layers[j].name == s.overlays[g].layers[j].name
        ensures s'.overlays[g].layers[j].isBackground == s.overlays[g].layers[j].isBackground
      {
        assert ValidRef(s, Ov(g, j));
      }
    }
  }

  /** Activating a background by name, when only backgrounds are flagged,
      shows exactly that background. */
  lemma ActivateKeepsOneShown(s: Store, n: string)
    requires Inv(s) && OverlaysUnflagged(s) && OneBackgroundShown(s)
    ensures OverlaysUnflagged(SetActiveBackgroundByName(s, n)) && OneBackgroundShown(SetActiveBackgroundByName(s, n))
  {
    var s' := SetActiveBackgroundByName(s, n);
    if Lookup(s, n).Some? && LayerAt(s, Lookup(s, n).value).isBackground {
      var r := Lookup(s, n).value;
      assert r.Bg?;
      forall g, j | 0 <= g < |s'.overlays| && 0 <= j < |s'.overlays[g].layers|
        ensures !s'.overlays[g].layers[j].isBackground
      {
        assert ValidRef(s, Ov(g, j));
      }
    }
  }

  /** Setting an opacity never changes which layers are shown. */
  lemma OpacityKeepsOneShown(s: Store, n: string, o: real)
    requires Inv(s) && OverlaysUnflagged(s) && OneBackgroundShown(s)
    ensures OverlaysUnflagged(SetLayerOpacity(s, n, o)) && OneBackgroundShown(SetLayerOpacity(s, n, o))
  {
    var s' := SetLayerOpacity(s, n, o);
    if Lookup(s, n).Some? {
      var r := Lookup(s, n).value;
      var l := Layers.SetOpacity(LayerAt(s, r), o);
      if r.Ov? {
        PutOverlayFrame(s, r, l);
        OverlayChangeKeepsShown(s, s');
      } else {
        assert s'.backgrounds == s.backgrounds[r.index := l];
      }
    }
  }

  /** Showing or hiding one overlay layer by name leaves the backgrounds alone. */
  lemma LayerVisibilityKeepsOneShown(s: Store, n: string, v: bool)
    requires Inv(s) && OverlaysUnflagged(s) && OneBackgroundShown(s)
    ensures OverlaysUnflagged(SetLayerVisibility(s, n, v)) && OneBackgroundShown(SetLayerVisibility(s, n, v))
  {
    if OverlayTarget(s, n).Some? {
      var r := OverlayTarget(s, n).value;
      PutOverlayFrame(s, r, Layers.SetVisible(LayerAt(s, r), v));
      OverlayChangeKeepsShown(s, SetLayerVisibility(s, n, v));
    }
  }

  /** With no flagged overlay, every store operation keeps exactly one
      background shown (or none when there are none). */
  lemma {:induction false} ApplyKeepsOneBackgroundShown(s: Store, op: StoreOp)
    requires Inv(s) && OverlaysUnflagged(s) && OneBackgroundShown(s)
    ensures OverlaysUnflagged(Apply(s, op)) && OneBackgroundShown(Apply(s, op))
  {
    match op {
      case ActivateBackground(n) => ActivateKeepsOneShown(s, n);
      case ToggleLayer(n) =>
        if OverlayTarget(s, n).Some? {
          LayerVisibilityKeepsOneShown(s, n, !LayerAt(s, OverlayTarget(s, n).value).visible);
        }
      case SetLayerVisible(n, v) => LayerVisibilityKeepsOneShown(s, n, v);
      case SetOpacity(n, o) => OpacityKeepsOneShown(s, n, o);
      case ToggleGroup(n) =>
        if LookupGroup(s, n).Some? {
          OverlayChangeKeepsShown(s, Apply(s, op));
        }
      case SetGroupVisible(n, v) =>
        if LookupGroup(s, n).Some? {
          OverlayChangeKeepsShown(s, Apply(s, op));
        }
    }
  }

  /** With no flagged overlay, no sequence of store operations shows a second
      background or hides the active one. */
  lemma {:induction false} RunKeepsOneBackgroundShown(s: Store, ops: seq<StoreOp>)
    requires Inv(s) && OverlaysUnflagged(s) && OneBackgroundShown(s)
    ensures OverlaysUnflagged(Run(s, ops)) && OneBackgroundShown(Run(s, ops))
    decreases |ops|
  {
    if |ops| > 0 {
      ApplyKeepsInv(s, ops[0]);
      ApplyKeepsOneBackgroundShown(s, ops[0]);
      RunKeepsOneBackgroundShown(Apply(s, ops[0]), ops[1..]);
    }
  }

  /** From the factory's output without flagged overlays, every reachable store
      shows exactly the active background whenever there is a background. */
  lemma ReachableShowsOneBackground(bgs: seq<Layer>, ovs: seq<Group>, ops: seq<StoreOp>)
    requires forall i | 0 <= i < |bgs| :: bgs[i].isBackground
    requires forall g, j | 0 <= g < |ovs| && 0 <= j < |ovs[g].layers| :: !ovs[g].layers[j].isBackground
    requires |bgs| > 0
    ensures ActiveBackgroundShown(Run(Initialize(bgs, ovs), ops))
  {
    InitializeInv(bgs, ovs);
    InitializeShowsOneBackground(bgs, ovs);
    RunKeepsOneBackgroundShown(Initialize(bgs, ovs), ops);
    assert |Run(Initialize(bgs, ovs), ops).backgrounds| == |bgs| by {
      RunKeepsBackgroundCount(Initialize(bgs, ovs), ops);
    }
  }

  /** No store operation adds or removes a background. */
  lemma {:induction false} RunKeepsBackgroundCount(s: Store, ops: seq<StoreOp>)
    ensures |Run(s, ops).backgrounds| == |s.backgrounds|
    decreases |ops|
  {
    if |ops| > 0 {
      RunKeepsBackgroundCount(Apply(s, ops[0]), ops[1..]);
    }
  }

  /** The store built from the factory's output satisfies the invariant. */
  lemma InitializeInv(bgs: seq<Layer>, ovs: seq<Group>)
    requires forall i | 0 <= i < |bgs| :: bgs[i].isBackground
    ensures Inv(Initialize(bgs, ovs))
  {
    InitializeValid(bgs, ovs);
  }
}
