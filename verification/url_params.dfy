/** Applying the `map`, `layers` and `groups` query parameters to the layer
    store at start-up.

    `layers` is a comma-separated list of `name` or `name:opacity` entries
    (opacity in percent); `groups` an explicit group order; `map` is
    `zoom,x,y`. Reordering groups and finding a layer's group are store
    operations the client calls but does not define; they are parameters here
    (`reorder`, `groupOf`), and the reorder requests made are reported. */
module UrlParams {
  import opened Util
  import JsNumber
  import Layers
  import LayerStore

  type Store = LayerStore.Store
  type LayerRef = LayerStore.LayerRef

  // -------------------------------------------------------------------------
  // Parsing

  datatype ParsedEntry = ParsedEntry(name: string, opacity: int)

  /** `parseLayerEntry`: the name is the text before the first `:`; the opacity
      is `parseInt` of the second `:`-field, 100 when absent or NaN. */
  function ParseLayerEntry(entry: string): (e: ParsedEntry)
    ensures e.name == Split(entry, ':')[0] && ':' !in e.name
    ensures |Split(entry, ':')| == 1 ==> e.opacity == 100
    ensures |Split(entry, ':')| > 1 && JsNumber.ParseInt(Split(entry, ':')[1], 10).None? ==> e.opacity == 100
    ensures |Split(entry, ':')| > 1 && JsNumber.ParseInt(Split(entry, ':')[1], 10).Some? ==>
      e.opacity == JsNumber.ParseInt(Split(entry, ':')[1], 10).value
  {
    var parts := Split(entry, ':');
    var opacity := if |parts| > 1 then JsNumber.ParseInt(parts[1], 10) else Some(100);
    ParsedEntry(parts[0], opacity.GetOr(100))
  }

  /** The entry `UrlSync` writes for a layer (`name` at full opacity, else
      `name:percent`) parses back to that name and percentage. */
  lemma ParseLayerEntryRoundTrip(name: string, percent: nat)
    requires ':' !in name
    ensures ParseLayerEntry(name) == ParsedEntry(name, 100)
    ensures ParseLayerEntry(name + ":" + NatToString(percent)) == ParsedEntry(name, percent)
  {
    SplitJoin([name], ':');
    var digits := NatToString(percent);
    assert ':' !in digits by {
      assert forall i | 0 <= i < |digits| :: IsDigit(digits[i]);
    }
    SplitJoin([name, digits], ':');
    assert Join([name, digits], ":") == name + ":" + digits;
    JsNumber.ParseIntNatToString(percent);
  }

  /** `split(',').filter(n => n.trim())`: the comma-separated pieces that are not
      blank, unchanged (not trimmed) and in order. */
  function NonBlank(param: string): (r: seq<string>)
    ensures forall i | 0 <= i < |r| :: JsTrimNonEmpty(r[i]) && ',' !in r[i]
  {
    KeepNonBlank(Split(param, ','))
  }

  function KeepNonBlank(parts: seq<string>): (r: seq<string>)
    ensures forall i | 0 <= i < |r| :: JsTrimNonEmpty(r[i]) && r[i] in parts
    ensures forall p | p in parts && JsTrimNonEmpty(p) :: p in r
    ensures |r| <= |parts|
    decreases |parts|
  {
    if |parts| == 0 then []
    else
      var rest := KeepNonBlank(parts[1..]);
      assert forall p | p in parts :: p == parts[0] || p in parts[1..];
      if JsTrimNonEmpty(parts[0]) then [parts[0]] + rest else rest
  }

  /** Joining non-blank comma-free names and reading them back gives the names. */
  lemma {:induction false} KeepNonBlankIdentity(names: seq<string>)
    requires forall i | 0 <= i < |names| :: JsTrimNonEmpty(names[i])
    ensures KeepNonBlank(names) == names
    decreases |names|
  {
    if |names| > 0 {
      KeepNonBlankIdentity(names[1..]);
    }
  }

  lemma NonBlankOfJoin(names: seq<string>)
    requires |names| >= 1
    requires forall i | 0 <= i < |names| :: JsTrimNonEmpty(names[i]) && ',' !in names[i]
    ensures NonBlank(Join(names, ",")) == names
  {
    SplitJoin(names, ',');
    KeepNonBlankIdentity(names);
  }

  datatype MapState = MapState(zoom: real, x: real, y: real)

  /** A query parameter value JavaScript treats as true: present and non-empty. */
  predicate Truthy(p: Option<string>) {
    p.Some? && p.value != ""
  }

  /** The `map` parameter: three leading comma-separated numbers. `parseFloat`
      is a parameter (`None` for NaN). */
  function ParseMapParam(mapParam: Option<string>, parseFloat: string -> Option<real>): (r: Option<MapState>)
    ensures r.Some? <==>
      && Truthy(mapParam) && |Split(mapParam.value, ',')| >= 3
      && parseFloat(Split(mapParam.value, ',')[0]).Some?
      && parseFloat(Split(mapParam.value, ',')[1]).Some?
      && parseFloat(Split(mapParam.value, ',')[2]).Some?
  {
    if !Truthy(mapParam) then None
    else
      var parts := Split(mapParam.value, ',');
      if |parts| < 3 then None
      else
        match (parseFloat(parts[0]), parseFloat(parts[1]), parseFloat(parts[2]))
        case (Some(z), Some(x), Some(y)) => Some(MapState(z, x, y))
        case _ => None
  }

  /** A `map` value written as `zoom,x,y` reads back as those three numbers. */
  lemma ParseMapParamRoundTrip(zoom: string, x: string, y: string, parseFloat: string -> Option<real>)
    requires ',' !in zoom && ',' !in x && ',' !in y
    requires parseFloat(zoom).Some? && parseFloat(x).Some? && parseFloat(y).Some?
    ensures ParseMapParam(Some(zoom + "," + x + "," + y), parseFloat) ==
      Some(MapState(parseFloat(zoom).value, parseFloat(x).value, parseFloat(y).value))
  {
    SplitJoin([zoom, x, y], ',');
    assert [zoom, x, y][1..] == [x, y] && [x, y][1..] == [y];
    assert Join([x, y], ",") == x + "," + y;
    assert Join([zoom, x, y], ",") == zoom + "," + (x + "," + y);
    AppendAssoc(zoom + ",", x, ",");
    AppendAssoc(zoom + ",", x + ",", y);
  }

  // -------------------------------------------------------------------------
  // Store shape: what visibility and opacity changes leave alone

  /** Same indexes, same slots, and every slot keeps its name and background flag. */
  ghost predicate SameShape(s: Store, s': Store) {
    && s'.layersByName == s.layersByName && s'.groupsByName == s.groupsByName
    && (forall q :: LayerStore.ValidRef(s', q) <==> LayerStore.ValidRef(s, q))
    && (forall q | LayerStore.ValidRef(s, q) ::
          && LayerStore.LayerAt(s', q).name == LayerStore.LayerAt(s, q).name
          && LayerStore.LayerAt(s', q).isBackground == LayerStore.LayerAt(s, q).isBackground)
  }

  lemma SameShapeTransitive(a: Store, b: Store, c: Store)
    requires SameShape(a, b) && SameShape(b, c)
    ensures SameShape(a, c)
  {
  }

  /** Name-based lookups see the same slots in stores of the same shape. */
  lemma SameShapeTarget(s: Store, s': Store, name: string)
    requires SameShape(s, s')
    ensures LayerStore.OverlayTarget(s', name) == LayerStore.OverlayTarget(s, name)
    ensures LayerStore.Lookup(s', name) == LayerStore.Lookup(s, name)
  {
  }

  /** The slot is the one its name's index entry points to. */
  predicate Indexed(s: Store, q: LayerRef) {
    && LayerStore.ValidRef(s, q)
    && LayerStore.LayerAt(s, q).name in s.layersByName
    && s.layersByName[LayerStore.LayerAt(s, q).name] == q
  }

  /** An overlay slot the `layers` parameter can reach: indexed and not a background. */
  predicate Reachable(s: Store, q: LayerRef) {
    Indexed(s, q) && !LayerStore.LayerAt(s, q).isBackground
  }

  // -------------------------------------------------------------------------
  // Hiding every overlay

  /** The hide loop: `setLayerVisibility(layer.name, false)` for every listed
      layer that is not a background. */
  function HideListed(s: Store, layers: seq<Layers.Layer>): Store
    decreases |layers|
  {
    if |layers| == 0 then s
    else
      var s1 := HideListed(s, layers[..|layers| - 1]);
      var l := layers[|layers| - 1];
      if l.isBackground then s1 else LayerStore.SetLayerVisibility(s1, l.name, false)
  }

  ghost predicate ListsNonBackground(layers: seq<Layers.Layer>, name: string) {
    exists k | 0 <= k < |layers| :: layers[k].name == name && !layers[k].isBackground
  }

  lemma SetLayerVisibilityShape(s: Store, name: string, v: bool)
    requires LayerStore.Valid(s)
    ensures SameShape(s, LayerStore.SetLayerVisibility(s, name, v))
    ensures LayerStore.Valid(LayerStore.SetLayerVisibility(s, name, v))
    ensures LayerStore.SetLayerVisibility(s, name, v).active == s.active
  {
    if LayerStore.OverlayTarget(s, name).Some? {
      var r := LayerStore.OverlayTarget(s, name).value;
      LayerStore.PutLayerValid(s, r, Layers.SetVisible(LayerStore.LayerAt(s, r), v));
    }
  }

  lemma SetLayerOpacityShape(s: Store, name: string, o: real)
    requires LayerStore.Valid(s)
    ensures SameShape(s, LayerStore.SetLayerOpacity(s, name, o))
    ensures LayerStore.Valid(LayerStore.SetLayerOpacity(s, name, o))
    ensures LayerStore.SetLayerOpacity(s, name, o).active == s.active
  {
    if LayerStore.Lookup(s, name).Some? {
      var r := LayerStore.Lookup(s, name).value;
      LayerStore.PutLayerValid(s, r, Layers.SetOpacity(LayerStore.LayerAt(s, r), o));
    }
  }

  /** The hide loop changes no index, slot, name or background flag, nor the
      active background. */
  lemma {:induction false} HideListedShape(s: Store, layers: seq<Layers.Layer>)
    requires LayerStore.Valid(s)
    ensures SameShape(s, HideListed(s, layers)) && LayerStore.Valid(HideListed(s, layers))
    ensures HideListed(s, layers).active == s.active
    decreases |layers|
  {
    if |layers| > 0 {
      var s1 := HideListed(s, layers[..|layers| - 1]);
      HideListedShape(s, layers[..|layers| - 1]);
      SetLayerVisibilityShape(s1, layers[|layers| - 1].name, false);
    }
  }

  /** One step of the hide loop. */
  lemma HideOneEffect(s: Store, l: Layers.Layer, q: LayerRef)
    requires LayerStore.Valid(s) && LayerStore.ValidRef(s, q)
    ensures var s' := if l.isBackground then s else LayerStore.SetLayerVisibility(s, l.name, false);
      && LayerStore.ValidRef(s', q)
      && if Reachable(s, q) && !l.isBackground && l.name == LayerStore.LayerAt(s, q).name
         then !LayerStore.LayerAt(s', q).visible && LayerStore.LayerAt(s', q).opacity == LayerStore.LayerAt(s, q).opacity
         else LayerStore.LayerAt(s', q) == LayerStore.LayerAt(s, q)
  {
    if !l.isBackground {
      SetLayerVisibilityShape(s, l.name, false);
    }
  }

  /** After the hide loop every reachable slot named by a listed non-background
      layer is hidden (its opacity kept); every other slot is unchanged. */
  lemma {:induction false} HideListedEffect(s: Store, layers: seq<Layers.Layer>, q: LayerRef)
    requires LayerStore.Valid(s) && LayerStore.ValidRef(s, q)
    ensures LayerStore.ValidRef(HideListed(s, layers), q)
    ensures var s' := HideListed(s, layers);
      var l := LayerStore.LayerAt(s, q);
      if Reachable(s, q) && ListsNonBackground(layers, l.name)
      then !LayerStore.LayerAt(s', q).visible && LayerStore.LayerAt(s', q).opacity == l.opacity
      else LayerStore.LayerAt(s', q) == l
    decreases |layers|
  {
    HideListedShape(s, layers);
    if |layers| > 0 {
      var init := layers[..|layers| - 1];
      var last := layers[|layers| - 1];
      var s1 := HideListed(s, init);
      HideListedShape(s, init);
      HideListedEffect(s, init, q);
      HideOneEffect(s1, last, q);
      assert Reachable(s1, q) <==> Reachable(s, q);
      assert forall k | 0 <= k < |init| :: init[k] == layers[k];
      assert ListsNonBackground(layers, LayerStore.LayerAt(s, q).name) <==>
        ListsNonBackground(init, LayerStore.LayerAt(s, q).name)
        || (!last.isBackground && LayerStore.LayerAt(s, q).name == last.name);
    }
  }

  // -------------------------------------------------------------------------
  // Showing the listed layers

  /** The opacity (percent) of the last entry naming `name`, if any. */
  function LastOpacity(entries: seq<ParsedEntry>, name: string): (r: Option<int>)
    ensures r.None? <==> forall k | 0 <= k < |entries| :: entries[k].name != name
    decreases |entries|
  {
    if |entries| == 0 then None
    else if entries[|entries| - 1].name == name then Some(entries[|entries| - 1].opacity)
    else
      var init := entries[..|entries| - 1];
      assert forall k | 0 <= k < |init| :: init[k] == entries[k];
      LastOpacity(init, name)
  }

  /** Percent to the store's opacity scale. */
  function Fraction(percent: int): real {
    (percent as real) / 100.0
  }

  /** One entry: a known overlay layer is shown and gets the entry's opacity. */
  function ShowEntry(s: Store, e: ParsedEntry): Store {
    if LayerStore.OverlayTarget(s, e.name).Some? then
      LayerStore.SetLayerOpacity(LayerStore.SetLayerVisibility(s, e.name, true), e.name, Fraction(e.opacity))
    else s
  }

  function ShowEntries(s: Store, entries: seq<ParsedEntry>): Store
    decreases |entries|
  {
    if |entries| == 0 then s else ShowEntry(ShowEntries(s, entries[..|entries| - 1]), entries[|entries| - 1])
  }

  lemma ShowEntryShape(s: Store, e: ParsedEntry)
    requires LayerStore.Valid(s)
    ensures SameShape(s, ShowEntry(s, e)) && LayerStore.Valid(ShowEntry(s, e))
    ensures ShowEntry(s, e).active == s.active
  {
    if LayerStore.OverlayTarget(s, e.name).Some? {
      var s1 := LayerStore.SetLayerVisibility(s, e.name, true);
      SetLayerVisibilityShape(s, e.name, true);
      SetLayerOpacityShape(s1, e.name, Fraction(e.opacity));
    }
  }

  lemma ShowEntryEffect(s: Store, e: ParsedEntry, q: LayerRef)
    requires LayerStore.Valid(s) && LayerStore.ValidRef(s, q)
    ensures LayerStore.ValidRef(ShowEntry(s, e), q)
    ensures var s' := ShowEntry(s, e);
      var l := LayerStore.LayerAt(s, q);
      if Reachable(s, q) && l.name == e.name
      then LayerStore.LayerAt(s', q).visible
        && LayerStore.LayerAt(s', q).opacity == JsNumber.Clamp(0.0, 1.0, Fraction(e.opacity))
      else LayerStore.LayerAt(s', q) == l
  {
    ShowEntryShape(s, e);
    if LayerStore.OverlayTarget(s, e.name).Some? {
      var s1 := LayerStore.SetLayerVisibility(s, e.name, true);
      SetLayerVisibilityShape(s, e.name, true);
      SameShapeTarget(s, s1, e.name);
    }
  }

  lemma {:induction false} ShowEntriesShape(s: Store, entries: seq<ParsedEntry>)
    requires LayerStore.Valid(s)
    ensures SameShape(s, ShowEntries(s, entries)) && LayerStore.Valid(ShowEntries(s, entries))
    ensures ShowEntries(s, entries).active == s.active
    decreases |entries|
  {
    if |entries| > 0 {
      ShowEntriesShape(s, entries[..|entries| - 1]);
      ShowEntryShape(ShowEntries(s, entries[..|entries| - 1]), entries[|entries| - 1]);
    }
  }

  /** After the show loop a reachable slot whose name some entry carries is
      visible with the opacity of the last such entry (clamped); every other
      slot is unchanged. */
  lemma {:induction false} ShowEntriesEffect(s: Store, entries: seq<ParsedEntry>, q: LayerRef)
    requires LayerStore.Valid(s) && LayerStore.ValidRef(s, q)
    ensures LayerStore.ValidRef(ShowEntries(s, entries), q)
    ensures var s' := ShowEntries(s, entries);
      var l := LayerStore.LayerAt(s, q);
      if Reachable(s, q) && LastOpacity(entries, l.name).Some?
      then LayerStore.LayerAt(s', q).visible
        && LayerStore.LayerAt(s', q).opacity == JsNumber.Clamp(0.0, 1.0, Fraction(LastOpacity(entries, l.name).value))
      else LayerStore.LayerAt(s', q) == l
    decreases |entries|
  {
    ShowEntriesShape(s, entries);
    if |entries| > 0 {
      var init := entries[..|entries| - 1];
      var last := entries[|entries| - 1];
      var s1 := ShowEntries(s, init);
      ShowEntriesShape(s, init);
      ShowEntriesEffect(s, init, q);
      ShowEntryEffect(s1, last, q);
      assert Reachable(s1, q) <==> Reachable(s, q);
    }
  }

  // -------------------------------------------------------------------------
  // Group order from the `layers` entries

  /** The group of every entry that names a reachable overlay, in entry order. */
  function EntryGroups(s: Store, entries: seq<ParsedEntry>, groupOf: string -> Option<string>): (r: seq<string>)
    ensures forall g | g in r :: exists k | 0 <= k < |entries| ::
      LayerStore.OverlayTarget(s, entries[k].name).Some? && groupOf(entries[k].name) == Some(g)
    ensures forall k | 0 <= k < |entries| && LayerStore.OverlayTarget(s, entries[k].name).Some? && groupOf(entries[k].name).Some? ::
      groupOf(entries[k].name).value in r
    decreases |entries|
  {
    if |entries| == 0 then []
    else
      var init := entries[..|entries| - 1];
      var e := entries[|entries| - 1];
      var r0 := EntryGroups(s, init, groupOf);
      assert forall k | 0 <= k < |init| :: init[k] == entries[k];
      if LayerStore.OverlayTarget(s, e.name).Some? && groupOf(e.name).Some? then r0 + [groupOf(e.name).value] else r0
  }

  /** `groupOrder`: groups in order of first mention, each once. */
  function GroupOrder(s: Store, entries: seq<ParsedEntry>, groupOf: string -> Option<string>): (r: seq<string>)
    ensures NoDuplicates(r)
    ensures forall g :: g in r <==> g in EntryGroups(s, entries, groupOf)
    ensures forall i, j | 0 <= i < j < |r| ::
      IndexOf(EntryGroups(s, entries, groupOf), r[i]) < IndexOf(EntryGroups(s, entries, groupOf), r[j])
  {
    DedupeFirstOccurrenceOrder(EntryGroups(s, entries, groupOf));
    Dedupe(EntryGroups(s, entries, groupOf))
  }

  // -------------------------------------------------------------------------
  // The whole `layers` parameter

  /** The first entry may switch the background; no other entry can. */
  function BackgroundStep(s: Store, first: ParsedEntry): Store {
    match LayerStore.GetLayerByName(s, first.name)
    case Some(l) => if l.isBackground then LayerStore.SetActiveBackgroundByName(s, first.name) else s
    case None => s
  }

  /** Background switch, hide every overlay, show the listed ones; with group
      tracking on, also the group order of the listed layers. */
  function ApplyLayersParam(s: Store, entries: seq<ParsedEntry>, trackGroups: bool,
                            groupOf: string -> Option<string>): (r: (Store, seq<string>))
    requires |entries| > 0
    ensures !trackGroups ==> r.1 == []
  {
    var s0 := BackgroundStep(s, entries[0]);
    var s1 := HideListed(s0, LayerStore.GetAllLayers(s0));
    var s2 := ShowEntries(s1, entries);
    (s2, if trackGroups then GroupOrder(s0, entries, groupOf) else [])
  }

  lemma BackgroundStepShape(s: Store, first: ParsedEntry)
    requires LayerStore.Inv(s)
    ensures SameShape(s, BackgroundStep(s, first)) && LayerStore.Inv(BackgroundStep(s, first))
    ensures forall q | LayerStore.ValidRef(s, q) && !LayerStore.LayerAt(s, q).isBackground ::
      LayerStore.LayerAt(BackgroundStep(s, first), q) == LayerStore.LayerAt(s, q)
  {
    LayerStore.ActivateKeepsInv(s, first.name);
    if BackgroundStep(s, first) != s {
      var r := LayerStore.Lookup(s, first.name).value;
      assert LayerStore.LayerAt(s, r).isBackground;
      forall q | LayerStore.ValidRef(s, q) && !LayerStore.LayerAt(s, q).isBackground
        ensures LayerStore.LayerAt(BackgroundStep(s, first), q) == LayerStore.LayerAt(s, q)
      {
        assert q != r && !q.Bg?;
      }
    }
  }

  /** Every overlay slot not flagged as a background is listed by `getAllLayers`. */
  lemma ReachableIsListed(s: Store, q: LayerRef)
    requires LayerStore.ValidRef(s, q) && !LayerStore.LayerAt(s, q).isBackground
    ensures ListsNonBackground(LayerStore.GetAllLayers(s), LayerStore.LayerAt(s, q).name)
  {
    var all := LayerStore.GetAllLayers(s);
    var refs := LayerStore.AllRefs(s.backgrounds, s.overlays);
    match q {
      case Bg(i) =>
        assert refs[i] == q;
        assert all[i] == LayerStore.LayerAt(s, q);
      case Ov(g, j) =>
        LayerStore.OverlayRefsComplete(s.overlays, g, j);
        var k :| 0 <= k < |LayerStore.OverlayRefs(s.overlays)| && LayerStore.OverlayRefs(s.overlays)[k] == q;
        assert refs[|s.backgrounds| + k] == q;
        assert all[|s.backgrounds| + k] == LayerStore.LayerAt(s, q);
    }
  }

  /** The `layers` parameter changes no index, slot, name or flag. */
  lemma ApplyLayersParamShape(s: Store, entries: seq<ParsedEntry>, trackGroups: bool,
                              groupOf: string -> Option<string>)
    requires LayerStore.Inv(s) && |entries| > 0
    ensures var s0 := BackgroundStep(s, entries[0]);
      var s' := ApplyLayersParam(s, entries, trackGroups, groupOf).0;
      SameShape(s, s') && LayerStore.Valid(s') && s'.active == s0.active
  {
    var s0 := BackgroundStep(s, entries[0]);
    BackgroundStepShape(s, entries[0]);
    var s1 := HideListed(s0, LayerStore.GetAllLayers(s0));
    HideListedShape(s0, LayerStore.GetAllLayers(s0));
    ShowEntriesShape(s1, entries);
  }

  /** After the `layers` parameter, a reachable overlay layer is visible exactly
      when some entry names it, and then has the last such entry's opacity
      (percent / 100, clamped to [0, 1]); its opacity is otherwise kept.
      Overlay slots the index does not reach (shadowed duplicates) keep their
      state. */
  lemma ApplyLayersParamOverlays(s: Store, entries: seq<ParsedEntry>, trackGroups: bool,
                                 groupOf: string -> Option<string>, q: LayerRef)
    requires LayerStore.Inv(s) && |entries| > 0
    requires LayerStore.ValidRef(s, q) && !LayerStore.LayerAt(s, q).isBackground
    ensures LayerStore.ValidRef(ApplyLayersParam(s, entries, trackGroups, groupOf).0, q)
    ensures var s' := ApplyLayersParam(s, entries, trackGroups, groupOf).0;
      var l := LayerStore.LayerAt(s, q);
      && (Reachable(s, q) ==>
            && (LayerStore.LayerAt(s', q).visible <==> exists k | 0 <= k < |entries| :: entries[k].name == l.name)
            && LayerStore.LayerAt(s', q).opacity ==
                 (if LastOpacity(entries, l.name).Some?
                  then JsNumber.Clamp(0.0, 1.0, Fraction(LastOpacity(entries, l.name).value))
                  else l.opacity))
      && (!Reachable(s, q) ==> LayerStore.LayerAt(s', q) == l)
  {
    ApplyLayersParamShape(s, entries, trackGroups, groupOf);
    var s0 := BackgroundStep(s, entries[0]);
    BackgroundStepShape(s, entries[0]);
    HideShowEffect(s0, entries, q);
    assert Reachable(s0, q) <==> Reachable(s, q);
  }

  /** Hide every overlay, then show the entries, seen from one non-background slot. */
  lemma HideShowEffect(s: Store, entries: seq<ParsedEntry>, q: LayerRef)
    requires LayerStore.Valid(s)
    requires LayerStore.ValidRef(s, q) && !LayerStore.LayerAt(s, q).isBackground
    ensures var s' := ShowEntries(HideListed(s, LayerStore.GetAllLayers(s)), entries);
      var l := LayerStore.LayerAt(s, q);
      && LayerStore.ValidRef(s', q)
      && (Reachable(s, q) ==>
            && (LayerStore.LayerAt(s', q).visible <==> LastOpacity(entries, l.name).Some?)
            && LayerStore.LayerAt(s', q).opacity ==
                 (if LastOpacity(entries, l.name).Some?
                  then JsNumber.Clamp(0.0, 1.0, Fraction(LastOpacity(entries, l.name).value))
                  else l.opacity))
      && (!Reachable(s, q) ==> LayerStore.LayerAt(s', q) == l)
  {
    var all := LayerStore.GetAllLayers(s);
    var s1 := HideListed(s, all);
    HideListedShape(s, all);
    HideListedEffect(s, all, q);
    ReachableIsListed(s, q);
    ShowEntriesEffect(s1, entries, q);
    assert Reachable(s1, q) <==> Reachable(s, q);
  }

  /** Only the first entry can change which background is shown: the
      backgrounds end up as the background switch for that entry left them. */
  lemma ApplyLayersParamBackgrounds(s: Store, entries: seq<ParsedEntry>, trackGroups: bool,
                                    groupOf: string -> Option<string>, i: nat)
    requires LayerStore.Inv(s) && |entries| > 0 && i < |s.backgrounds|
    ensures var s' := ApplyLayersParam(s, entries, trackGroups, groupOf).0;
      var s0 := BackgroundStep(s, entries[0]);
      s'.active == s0.active && i < |s'.backgrounds| && i < |s0.backgrounds| && s'.backgrounds[i] == s0.backgrounds[i]
  {
    ApplyLayersParamShape(s, entries, trackGroups, groupOf);
    var s0 := BackgroundStep(s, entries[0]);
    BackgroundStepShape(s, entries[0]);
    var q := LayerStore.Bg(i);
    var all := LayerStore.GetAllLayers(s0);
    var s1 := HideListed(s0, all);
    HideListedShape(s0, all);
    HideListedEffect(s0, all, q);
    ShowEntriesEffect(s1, entries, q);
  }

  // -------------------------------------------------------------------------
  // The whole start-up step

  datatype UrlQuery = UrlQuery(mapParam: Option<string>, layersParam: Option<string>, groupsParam: Option<string>)

  /** What applying the query produced: the store, the parsed map state, and
      the `reorderGroups` requests made, in order. */
  datatype UrlOutcome = UrlOutcome(store: Store, mapState: Option<MapState>, reorders: seq<seq<string>>)

  /** `applyUrlLayerState`. */
  function ApplyUrlLayerState(s: Store, q: UrlQuery, parseFloat: string -> Option<real>,
                              reorder: (Store, seq<string>) -> Store,
                              groupOf: string -> Option<string>): (r: UrlOutcome)
    ensures r.mapState == ParseMapParam(q.mapParam, parseFloat)
    ensures |r.reorders| <= 1
    ensures forall i | 0 <= i < |r.reorders| :: |r.reorders[i]| > 0
    ensures Truthy(q.groupsParam) ==>
      r.reorders == (if |NonBlank(q.groupsParam.value)| > 0 then [NonBlank(q.groupsParam.value)] else [])
    ensures !Truthy(q.groupsParam) && |r.reorders| == 1 ==>
      Truthy(q.layersParam) && |NonBlank(q.layersParam.value)| > 0
    ensures !Truthy(q.layersParam) || |NonBlank(q.layersParam.value)| == 0 ==>
      r.store == (if |r.reorders| == 1 then reorder(s, r.reorders[0]) else s)
  {
    var mapState := ParseMapParam(q.mapParam, parseFloat);
    var groupNames := if Truthy(q.groupsParam) then NonBlank(q.groupsParam.value) else [];
    var s1 := if |groupNames| > 0 then reorder(s, groupNames) else s;
    var calls := if |groupNames| > 0 then [groupNames] else [];
    var entries := if Truthy(q.layersParam) then NonBlank(q.layersParam.value) else [];
    if |entries| == 0 then UrlOutcome(s1, mapState, calls)
    else
      var parsed := seq(|entries|, i requires 0 <= i < |entries| => ParseLayerEntry(entries[i]));
      var (s2, order) := ApplyLayersParam(s1, parsed, !Truthy(q.groupsParam), groupOf);
      if !Truthy(q.groupsParam) && |order| > 0 then UrlOutcome(reorder(s2, order), mapState, calls + [order])
      else UrlOutcome(s2, mapState, calls)
  }

  /** Without a `groups` parameter, the reorder request (if any) lists the
      groups of the listed overlay layers, each once, in order of first mention. */
  lemma InferredGroupOrder(s: Store, q: UrlQuery, parseFloat: string -> Option<real>,
                           reorder: (Store, seq<string>) -> Store, groupOf: string -> Option<string>)
    requires !Truthy(q.groupsParam) && Truthy(q.layersParam) && |NonBlank(q.layersParam.value)| > 0
    ensures var r := ApplyUrlLayerState(s, q, parseFloat, reorder, groupOf);
      var entries := NonBlank(q.layersParam.value);
      var parsed := seq(|entries|, i requires 0 <= i < |entries| => ParseLayerEntry(entries[i]));
      var order := GroupOrder(BackgroundStep(s, parsed[0]), parsed, groupOf);
      r.reorders == (if |order| > 0 then [order] else [])
  {
  }
}
