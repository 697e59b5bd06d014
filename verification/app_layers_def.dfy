/** Selection and decoration of the converted layers for one app
    (`app_layers_def.py`): include/exclude/explicit rules, proxy URLs,
    initial visibility, and the explicit ordering. */
module AppLayersDef {
  import opened Util
  import opened PyJson

  const EmptyDict := JObj([])

  /** `app_config.get(section, {}).get(key, default)`. */
  function Setting(app: Json, section: string, key: string, default: Json): PyResult<Json> {
    var s :- GetOr(app, section, EmptyDict);
    GetOr(s, key, default)
  }

  // ---------------------------------------------------------------------
  // is_active

  /** `is_active`: a non-empty explicit list decides alone; otherwise an
      active layer is shown unless excluded and an inactive one only when
      included. */
  function IsActive(name: Json, active: bool, includes: Json, excludes: Json, explicits: Json): (r: PyResult<bool>)
    ensures includes.JArr? && excludes.JArr? && explicits.JArr? ==>
      r == Ok(if |explicits.items| > 0 then name in explicits.items
              else (active && name !in excludes.items) || (!active && name in includes.items))
  {
    var inc :- Contains(includes, name);
    var exc :- Contains(excludes, name);
    var expl :- Contains(explicits, name);
    var n :- Len(explicits);
    if n > 0 then Ok(expl)
    else if active && !exc then Ok(true)
    else if !active && inc then Ok(true)
    else Ok(false)
  }

  // ---------------------------------------------------------------------
  // URLs

  /** The URL a layer's source gets: the proxy path when the layer has a
      hash, else its `url`, else its source's `url`, else none. */
  function SourceUrl(conf: Json, floatText: FloatText): PyResult<Option<Json>> {
    var hash :- Get(conf, "hash");
    if Truthy(hash) then Ok(Some(JStr("/proxy/wms/" + PyStr(hash, floatText) + "/service")))
    else
      var url :- Get(conf, "url");
      if Truthy(url) then Ok(Some(url))
      else
        var src :- GetOr(conf, "source", EmptyDict);
        var has :- Contains(src, JStr("url"));
        if has then
          var u :- Index(src, "url");
          Ok(Some(u))
        else Ok(None)
  }

  /** The precedence of the three URL sources. */
  lemma SourceUrlPrecedence(d: Dict, floatText: FloatText)
    ensures var hash := Lookup(d, "hash").GetOr(JNull);
      var url := Lookup(d, "url").GetOr(JNull);
      var src := Lookup(d, "source").GetOr(EmptyDict);
      && (Truthy(hash) ==> SourceUrl(JObj(d), floatText) == Ok(Some(JStr("/proxy/wms/" + PyStr(hash, floatText) + "/service"))))
      && (!Truthy(hash) && Truthy(url) ==> SourceUrl(JObj(d), floatText) == Ok(Some(url)))
      && (!Truthy(hash) && !Truthy(url) && src.JObj? ==>
            SourceUrl(JObj(d), floatText) == Ok(Lookup(src.entries, "url")))
  {
    var src := Lookup(d, "source").GetOr(EmptyDict);
    if src.JObj? {
      assert GetOr(JObj(d), "source", EmptyDict) == Ok(src);
      assert Contains(src, JStr("url")) == Ok(HasKey(src.entries, "url"));
    }
  }

  /** `value[path[0]]...[path[n-1]][key] = v`, every step a dict. */
  function SetIn(j: Json, path: seq<string>, key: string, v: Json): (r: PyResult<Json>)
    ensures r.Ok? ==> j.JObj? && r.value.JObj?
    decreases |path|
  {
    if |path| == 0 then SetKey(j, key, v)
    else
      var child :- Index(j, path[0]);
      var updated :- SetIn(child, path[1..], key, v);
      SetKey(j, path[0], updated)
  }

  /** Setting a nested key changes only the dicts along the path. */
  lemma {:induction false} SetInLookup(j: Json, path: seq<string>, key: string, v: Json, k: string)
    requires SetIn(j, path, key, v).Ok?
    ensures var r := SetIn(j, path, key, v).value.entries;
      && (|path| == 0 ==> Lookup(r, k) == if k == key then Some(v) else Lookup(j.entries, k))
      && (|path| > 0 && k != path[0] ==> Lookup(r, k) == Lookup(j.entries, k))
      && (|path| > 0 ==> Lookup(r, path[0]) == Some(SetIn(Lookup(j.entries, path[0]).value, path[1..], key, v).value))
  {
    if |path| == 0 {
      LookupSet(j.entries, key, v, k);
    } else {
      var child := Index(j, path[0]).value;
      var updated := SetIn(child, path[1..], key, v).value;
      LookupSet(j.entries, path[0], updated, k);
      LookupSet(j.entries, path[0], updated, path[0]);
    }
  }

  /** `layer['olLayer']['source']['url'] = url` when there is a URL. */
  function WithUrl(layer: Json, url: Option<Json>): PyResult<Json> {
    match url
    case Some(u) => SetIn(layer, ["olLayer", "source"], "url", u)
    case None => Ok(layer)
  }

  // ---------------------------------------------------------------------
  // Explicit ordering

  /** Every layer is a dict with a name. */
  predicate Named(layers: seq<Json>) {
    forall i | 0 <= i < |layers| :: layers[i].JObj? && HasKey(layers[i].entries, "name")
  }

  function NameOf(layer: Json): Json
    requires layer.JObj? && HasKey(layer.entries, "name")
  {
    Lookup(layer.entries, "name").value
  }

  function Names(layers: seq<Json>): (r: seq<Json>)
    requires Named(layers)
    ensures |r| == |layers|
    ensures forall i | 0 <= i < |layers| :: r[i] == NameOf(layers[i])
  {
    seq(|layers|, i requires 0 <= i < |layers| && Named(layers) => NameOf(layers[i]))
  }

  /** The inner loop: the first layer with the name. */
  function FirstWithName(name: Json, layers: seq<Json>): PyResult<Option<Json>>
    decreases |layers|
  {
    if |layers| == 0 then Ok(None)
    else
      var n :- Index(layers[0], "name");
      if n == name then Ok(Some(layers[0])) else FirstWithName(name, layers[1..])
  }

  /** `for name in explicits: for layer in layers: if layer['name'] == name:
      sorted.append(layer); break`. */
  function ExplicitOrder(names: seq<Json>, layers: seq<Json>): PyResult<seq<Json>>
    decreases |names|
  {
    if |names| == 0 then Ok([])
    else
      var first :- FirstWithName(names[0], layers);
      var rest :- ExplicitOrder(names[1..], layers);
      Ok((if first.Some? then [first.value] else []) + rest)
  }

  /** Some layer carries the name. */
  predicate HasName(layers: seq<Json>, name: Json)
    requires Named(layers)
  {
    exists i | 0 <= i < |layers| :: NameOf(layers[i]) == name
  }

  /** The explicit names some layer carries, in explicit order. */
  function Present(names: seq<Json>, layers: seq<Json>): (r: seq<Json>)
    requires Named(layers)
    ensures forall n | n in r :: n in names && HasName(layers, n)
  {
    if |names| == 0 then []
    else (if HasName(layers, names[0]) then [names[0]] else []) + Present(names[1..], layers)
  }

  lemma {:induction false} FirstWithNameSpec(name: Json, layers: seq<Json>)
    requires Named(layers)
    ensures var r := FirstWithName(name, layers);
      && r.Ok?
      && (r.value.Some? <==> HasName(layers, name))
      && (r.value.Some? ==> r.value.value in layers && NameOf(r.value.value) == name)
    decreases |layers|
  {
    if |layers| > 0 {
      var tail := layers[1..];
      NamedTail(layers);
      FirstWithNameSpec(name, tail);
      assert Index(layers[0], "name") == Ok(NameOf(layers[0]));
      if NameOf(layers[0]) != name {
        assert FirstWithName(name, layers) == FirstWithName(name, tail);
        HasNameTail(layers, name);
      } else {
        assert HasName(layers, name) by { assert NameOf(layers[0]) == name; }
      }
    }
  }

  lemma NamedTail(layers: seq<Json>)
    requires Named(layers) && |layers| > 0
    ensures Named(layers[1..])
  {
    var tail := layers[1..];
    forall i | 0 <= i < |tail| ensures tail[i] == layers[i + 1] {}
  }

  /** Past a layer with another name, the name is carried by the rest or by
      none. */
  lemma HasNameTail(layers: seq<Json>, name: Json)
    requires Named(layers) && |layers| > 0 && NameOf(layers[0]) != name
    ensures Named(layers[1..])
    ensures HasName(layers, name) <==> HasName(layers[1..], name)
  {
    var tail := layers[1..];
    NamedTail(layers);
    if HasName(layers, name) {
      var i :| 0 <= i < |layers| && NameOf(layers[i]) == name;
      assert i > 0;
      assert NameOf(tail[i - 1]) == name;
    }
    if HasName(tail, name) {
      var i :| 0 <= i < |tail| && NameOf(tail[i]) == name;
      assert NameOf(layers[i + 1]) == name;
    }
  }

  /** Prepending an optional named layer to named layers. */
  lemma NamesPrefix(first: Option<Json>, rest: seq<Json>)
    requires Named(rest)
    requires first.Some? ==> first.value.JObj? && HasKey(first.value.entries, "name")
    ensures var out := (if first.Some? then [first.value] else []) + rest;
      && Named(out)
      && Names(out) == (if first.Some? then [NameOf(first.value)] else []) + Names(rest)
  {
    var out := (if first.Some? then [first.value] else []) + rest;
    if first.Some? {
      NamesCons(first.value, rest);
    } else {
      assert out == rest;
    }
  }

  lemma NamesCons(first: Json, rest: seq<Json>)
    requires Named(rest) && first.JObj? && HasKey(first.entries, "name")
    ensures Named([first] + rest)
    ensures Names([first] + rest) == [NameOf(first)] + Names(rest)
  {
    var out := [first] + rest;
    forall i | 0 <= i < |out| ensures out[i].JObj? && HasKey(out[i].entries, "name") {
      if i > 0 { assert out[i] == rest[i - 1]; }
    }
    var ns := Names(out);
    forall i | 0 <= i < |ns| ensures ns[i] == ([NameOf(first)] + Names(rest))[i] {
      if i > 0 { assert out[i] == rest[i - 1]; }
    }
  }

  /** With named layers, the explicit ordering yields, for each explicit name
      that some layer carries, the first such layer, in explicit order. */
  lemma {:induction false} ExplicitOrderSpec(names: seq<Json>, layers: seq<Json>)
    requires Named(layers)
    ensures var r := ExplicitOrder(names, layers);
      && r.Ok?
      && Named(r.value)
      && (forall l | l in r.value :: l in layers)
      && Names(r.value) == Present(names, layers)
    decreases |names|
  {
    if |names| > 0 {
      FirstWithNameSpec(names[0], layers);
      ExplicitOrderSpec(names[1..], layers);
      var first := FirstWithName(names[0], layers).value;
      var rest := ExplicitOrder(names[1..], layers).value;
      assert ExplicitOrder(names, layers) == Ok((if first.Some? then [first.value] else []) + rest);
      NamesPrefix(first, rest);
    }
  }

  /** A name listed once in the explicit list appears at most once in the
      output. */
  lemma {:induction false} PresentNoDuplicates(names: seq<Json>, layers: seq<Json>)
    requires Named(layers) && NoDuplicates(names)
    ensures NoDuplicates(Present(names, layers))
    decreases |names|
  {
    if |names| > 0 {
      var tail := names[1..];
      assert NoDuplicates(tail) by {
        forall i, j | 0 <= i < j < |tail| ensures tail[i] != tail[j] {
          assert tail[i] == names[i + 1] && tail[j] == names[j + 1];
        }
      }
      PresentNoDuplicates(tail, layers);
      var rest := Present(tail, layers);
      if HasName(layers, names[0]) {
        assert names[0] !in tail by {
          forall i | 0 <= i < |tail| ensures tail[i] != names[0] {
            assert tail[i] == names[i + 1];
          }
        }
        var out := [names[0]] + rest;
        forall i, j | 0 <= i < j < |out| ensures out[i] != out[j] {
          if i == 0 {
            assert out[j] == rest[j - 1] && rest[j - 1] in rest;
          } else {
            assert out[i] == rest[i - 1] && out[j] == rest[j - 1];
          }
        }
      } else {
        assert Present(names, layers) == rest;
      }
    }
  }

  /** A duplicated explicit name repeats its layer. */
  lemma ExplicitDuplicateRepeats(layer: Json)
    requires layer.JObj? && HasKey(layer.entries, "name")
    ensures ExplicitOrder([NameOf(layer), NameOf(layer)], [layer]) == Ok([layer, layer])
  {
    var n := NameOf(layer);
    var ls := [layer];
    assert ls[0] == layer;
    assert Index(ls[0], "name") == Ok(n);
    assert FirstWithName(n, ls) == Ok(Some(layer));
    assert [n][1..] == [];
    assert ExplicitOrder([], ls) == Ok([]);
    assert [n][0] == n;
    assert [layer] + [] == [layer];
    assert ExplicitOrder([n], ls) == Ok([layer]);
    assert [n, n][1..] == [n];
    assert [n, n][0] == n;
    assert [layer] + [layer] == [layer, layer];
    assert ExplicitOrder([n, n], ls) == Ok([layer] + [layer]);
  }

  // ---------------------------------------------------------------------
  // Nested assignment

  /** A nested assignment needs dicts all along the path, and leaves the
      last of them with the key set. */
  lemma {:induction false} SetInAt(j: Json, path: seq<string>, key: string, v: Json)
    requires SetIn(j, path, key, v).Ok?
    ensures At(j, path).Some? && At(j, path).value.JObj?
    ensures At(SetIn(j, path, key, v).value, path) == Some(JObj(Set(At(j, path).value.entries, key, v)))
    decreases |path|
  {
    if |path| > 0 {
      var child := Index(j, path[0]).value;
      var updated := SetIn(child, path[1..], key, v).value;
      SetInAt(child, path[1..], key, v);
      LookupSet(j.entries, path[0], updated, path[0]);
    }
  }

  /** Assigning one key leaves the paths through the other keys alone. */
  lemma AtSetOther(d: Dict, k: string, v: Json, path: seq<string>)
    requires |path| > 0 && path[0] != k
    ensures At(JObj(Set(d, k, v)), path) == At(JObj(d), path)
  {
    LookupSet(d, k, v, path[0]);
  }

  // ---------------------------------------------------------------------
  // Filtering loops

  /** The rule settings of one section of the app configuration. */
  datatype Rules = Rules(includes: Json, excludes: Json, explicits: Json)

  function SectionRules(app: Json, section: string): PyResult<Rules> {
    var includes :- Setting(app, section, "include", JArr([]));
    var excludes :- Setting(app, section, "exclude", JArr([]));
    var explicits :- Setting(app, section, "explicit", JArr([]));
    Ok(Rules(includes, excludes, explicits))
  }

  /** `status` reads `active`, which is the default. */
  predicate StatusActive(d: Dict) {
    Lookup(d, "status").GetOr(JStr("active")) == JStr("active")
  }

  /** The body of one of the three filtering loops, with what it reads from
      outside the loop. */
  datatype Step =
    | BackgroundStep(app: Json, rules: Rules, layersConfig: Json, floatText: FloatText)
    | GroupLayerStep(rules: Rules, defaultOverlays: Json, groupActive: bool, layersConfig: Json, floatText: FloatText)
    | OverlayGroupStep(app: Json, rules: Rules, singleSelect: Json, layersConfig: Json, floatText: FloatText)

  /** Only a group's loop runs another loop, over its layers. */
  function StepRank(step: Step): nat {
    if step.OverlayGroupStep? then 1 else 0
  }

  /** One loop iteration: `None` for `continue` or for an entry not
      appended. */
  function Prepare(step: Step, item: Json): PyResult<Option<Json>>
    decreases StepRank(step), 2
  {
    match step
    case BackgroundStep(app, rules, layersConfig, floatText) =>
      PrepareBackground(app, rules, item, layersConfig, floatText)
    case GroupLayerStep(rules, defaultOverlays, groupActive, layersConfig, floatText) =>
      PrepareGroupLayer(rules, defaultOverlays, groupActive, item, layersConfig, floatText)
    case OverlayGroupStep(app, rules, singleSelect, layersConfig, floatText) =>
      PrepareOverlayGroup(app, rules, singleSelect, item, layersConfig, floatText)
  }

  /** The loop: the appended entries in order, or the first error. */
  function Collect(step: Step, items: seq<Json>): PyResult<seq<Json>>
    decreases StepRank(step), 3, |items|
  {
    if |items| == 0 then Ok([])
    else
      var first :- Prepare(step, items[0]);
      var rest :- Collect(step, items[1..]);
      Ok((if first.Some? then [first.value] else []) + rest)
  }

  /** Every collected entry is what the loop body made of some item. */
  lemma {:induction false} CollectFrom(step: Step, items: seq<Json>)
    requires Collect(step, items).Ok?
    ensures forall y | y in Collect(step, items).value ::
      exists i | 0 <= i < |items| :: Prepare(step, items[i]) == Ok(Some(y))
    decreases |items|
  {
    if |items| > 0 {
      CollectFrom(step, items[1..]);
      var first := Prepare(step, items[0]).value;
      var rest := Collect(step, items[1..]).value;
      forall y | y in Collect(step, items).value
        ensures exists i | 0 <= i < |items| :: Prepare(step, items[i]) == Ok(Some(y))
      {
        if first.Some? && y == first.value {
          assert Prepare(step, items[0]) == Ok(Some(y));
        } else {
          assert y in rest;
          var i :| 0 <= i < |items[1..]| && Prepare(step, items[1..][i]) == Ok(Some(y));
          assert items[1..][i] == items[i + 1];
        }
      }
    }
  }

  /** `if explicits:` reorder by the explicit names. */
  function Ordered(explicits: Json, entries: seq<Json>): PyResult<seq<Json>> {
    if Truthy(explicits) then
      var names :- Iter(explicits);
      ExplicitOrder(names, entries)
    else Ok(entries)
  }

  /** Without explicit names the order is the loop's; with a list of them it is
      the explicit order, each name at most once when listed once. */
  lemma OrderedSpec(explicits: Json, entries: seq<Json>)
    requires Named(entries)
    ensures var r := Ordered(explicits, entries);
      && (explicits.JArr? ==> r.Ok?)
      && (r.Ok? ==> Named(r.value) && (forall l | l in r.value :: l in entries))
      && (!Truthy(explicits) ==> r == Ok(entries))
      && (explicits.JArr? && |explicits.items| > 0 ==>
            && Names(r.value) == Present(explicits.items, entries)
            && (NoDuplicates(explicits.items) ==> NoDuplicates(Names(r.value))))
  {
    if Truthy(explicits) && Iter(explicits).Ok? {
      var names := Iter(explicits).value;
      ExplicitOrderSpec(names, entries);
      if explicits.JArr? && NoDuplicates(names) {
        PresentNoDuplicates(names, entries);
      }
    }
  }

  // ---------------------------------------------------------------------
  // prepare_background_layers

  /** One background: `None` when the rules hide it, otherwise the layer with
      its URL and with `visible` set for the default background. */
  function PrepareBackground(app: Json, rules: Rules, layer: Json, layersConfig: Json, floatText: FloatText)
    : PyResult<Option<Json>>
  {
    var name :- Index(layer, "name");
    var shown :- IsActive(name, StatusActive(layer.entries), rules.includes, rules.excludes, rules.explicits);
    if !shown then Ok(None)
    else
      var conf :- GetAnyOr(layersConfig, name, EmptyDict);
      var url :- SourceUrl(conf, floatText);
      var withUrl :- WithUrl(layer, url);
      var defaultBackground :- Setting(app, "map", "defaultBackground", JNull);
      var visible :- SetIn(withUrl, ["olLayer"], "visible", JBool(name == defaultBackground));
      Ok(Some(visible))
  }

  /** `prepare_background_layers`. */
  function PrepareBackgroundLayers(app: Json, anol: Json, layersConfig: Json, floatText: FloatText)
    : PyResult<seq<Json>>
  {
    var rules :- SectionRules(app, "backgrounds");
    var layersValue :- GetOr(anol, "backgroundLayer", JArr([]));
    var layers :- Iter(layersValue);
    var prepared :- Collect(BackgroundStep(app, rules, layersConfig, floatText), layers);
    Ordered(rules.explicits, prepared)
  }

  /** A named layer whose `olLayer.visible` says whether it is the default
      background. */
  predicate VisibleIffDefault(r: Json, defaultBackground: Json) {
    && r.JObj? && HasKey(r.entries, "name")
    && At(r, ["olLayer", "visible"]) == Some(JBool(NameOf(r) == defaultBackground))
  }

  /** Attaching the URL keeps the name. */
  lemma WithUrlName(layer: Json, url: Option<Json>)
    requires WithUrl(layer, url).Ok? && layer.JObj?
    ensures WithUrl(layer, url).value.JObj?
    ensures Lookup(WithUrl(layer, url).value.entries, "name") == Lookup(layer.entries, "name")
  {
    if url.Some? {
      SetInLookup(layer, ["olLayer", "source"], "url", url.value, "name");
    }
  }

  /** The intermediate values of a background layer that is sent to the client. */
  lemma BackgroundSteps(app: Json, rules: Rules, layer: Json, layersConfig: Json, floatText: FloatText)
    returns (url: Option<Json>, withUrl: Json)
    requires PrepareBackground(app, rules, layer, layersConfig, floatText).Ok?
    requires PrepareBackground(app, rules, layer, layersConfig, floatText).value.Some?
    ensures layer.JObj? && HasKey(layer.entries, "name")
    ensures var name := Lookup(layer.entries, "name").value;
      && IsActive(name, StatusActive(layer.entries), rules.includes, rules.excludes, rules.explicits) == Ok(true)
      && WithUrl(layer, url) == Ok(withUrl)
      && Setting(app, "map", "defaultBackground", JNull).Ok?
      && var v := JBool(name == Setting(app, "map", "defaultBackground", JNull).value);
         && SetIn(withUrl, ["olLayer"], "visible", v).Ok?
         && PrepareBackground(app, rules, layer, layersConfig, floatText) ==
              Ok(Some(SetIn(withUrl, ["olLayer"], "visible", v).value))
  {
    var name := Index(layer, "name").value;
    var conf := GetAnyOr(layersConfig, name, EmptyDict).value;
    url := SourceUrl(conf, floatText).value;
    withUrl := WithUrl(layer, url).value;
  }

  /** A prepared background passed the rules, and is visible exactly when it
      is the default background. */
  lemma PrepareBackgroundShape(app: Json, rules: Rules, layer: Json, layersConfig: Json, floatText: FloatText)
    requires PrepareBackground(app, rules, layer, layersConfig, floatText).Ok?
    requires PrepareBackground(app, rules, layer, layersConfig, floatText).value.Some?
    ensures var r := PrepareBackground(app, rules, layer, layersConfig, floatText).value.value;
      var name := Lookup(layer.entries, "name").value;
      && IsActive(name, StatusActive(layer.entries), rules.includes, rules.excludes, rules.explicits) == Ok(true)
      && Setting(app, "map", "defaultBackground", JNull).Ok?
      && VisibleIffDefault(r, Setting(app, "map", "defaultBackground", JNull).value)
      && Lookup(r.entries, "name") == Some(name)
  {
    var name := Index(layer, "name").value;
    var url, withUrl := BackgroundSteps(app, rules, layer, layersConfig, floatText);
    var defaultBackground := Setting(app, "map", "defaultBackground", JNull).value;
    var v := JBool(name == defaultBackground);
    var r := SetIn(withUrl, ["olLayer"], "visible", v).value;
    WithUrlName(layer, url);
    SetInLookup(withUrl, ["olLayer"], "visible", v, "name");
    SetInAt(withUrl, ["olLayer"], "visible", v);
    var ol := At(withUrl, ["olLayer"]).value;
    LookupSet(ol.entries, "visible", v, "visible");
    assert At(r, ["olLayer"]) == Some(JObj(Set(ol.entries, "visible", v)));
    assert At(r, ["olLayer", "visible"]) == At(JObj(Set(ol.entries, "visible", v)), ["visible"]);
  }

  /** Every background layer sent to the client is visible exactly when it is
      the app's default background. */
  lemma BackgroundLayersVisible(app: Json, anol: Json, layersConfig: Json, floatText: FloatText)
    requires PrepareBackgroundLayers(app, anol, layersConfig, floatText).Ok?
    ensures forall r | r in PrepareBackgroundLayers(app, anol, layersConfig, floatText).value ::
      && Setting(app, "map", "defaultBackground", JNull).Ok?
      && VisibleIffDefault(r, Setting(app, "map", "defaultBackground", JNull).value)
  {
    var rules := SectionRules(app, "backgrounds").value;
    var layers := Iter(GetOr(anol, "backgroundLayer", JArr([])).value).value;
    var step := BackgroundStep(app, rules, layersConfig, floatText);
    var prepared := Collect(step, layers).value;
    CollectFrom(step, layers);
    forall y | y in prepared
      ensures Setting(app, "map", "defaultBackground", JNull).Ok?
      ensures VisibleIffDefault(y, Setting(app, "map", "defaultBackground", JNull).value)
    {
      var i :| 0 <= i < |layers| && Prepare(step, layers[i]) == Ok(Some(y));
      PrepareBackgroundShape(app, rules, layers[i], layersConfig, floatText);
    }
    assert Named(prepared) by {
      forall i | 0 <= i < |prepared| ensures prepared[i].JObj? && HasKey(prepared[i].entries, "name") {
        assert prepared[i] in prepared;
      }
    }
    OrderedSpec(rules.explicits, prepared);
  }

  /** With an explicit list, the backgrounds follow it, each listed name at
      most once. */
  lemma BackgroundLayersOrder(app: Json, anol: Json, layersConfig: Json, floatText: FloatText)
    requires PrepareBackgroundLayers(app, anol, layersConfig, floatText).Ok?
    ensures var rules := SectionRules(app, "backgrounds").value;
      var layers := Iter(GetOr(anol, "backgroundLayer", JArr([])).value).value;
      var prepared := Collect(BackgroundStep(app, rules, layersConfig, floatText), layers).value;
      var out := PrepareBackgroundLayers(app, anol, layersConfig, floatText).value;
      && Named(prepared)
      && (!Truthy(rules.explicits) ==> out == prepared)
      && (rules.explicits.JArr? && |rules.explicits.items| > 0 ==>
            && Named(out)
            && Names(out) == Present(rules.explicits.items, prepared)
            && (NoDuplicates(rules.explicits.items) ==> NoDuplicates(Names(out))))
  {
    var rules := SectionRules(app, "backgrounds").value;
    var layers := Iter(GetOr(anol, "backgroundLayer", JArr([])).value).value;
    var step := BackgroundStep(app, rules, layersConfig, floatText);
    var prepared := Collect(step, layers).value;
    CollectFrom(step, layers);
    assert Named(prepared) by {
      forall i | 0 <= i < |prepared| ensures prepared[i].JObj? && HasKey(prepared[i].entries, "name") {
        assert prepared[i] in prepared;
        var j :| 0 <= j < |layers| && Prepare(step, layers[j]) == Ok(Some(prepared[i]));
        PrepareBackgroundShape(app, rules, layers[j], layersConfig, floatText);
      }
    }
    OrderedSpec(rules.explicits, prepared);
  }

  // ---------------------------------------------------------------------
  // prepare_group_layers

  /** A `static_geojson` layer loads its file from the static route; the
      `file` key is dropped from its source. Other layers are unchanged. */
  function StaticGeoJson(layer: Json, floatText: FloatText): PyResult<Json> {
    var t :- Index(layer, "type");
    if t != JStr("static_geojson") then Ok(layer)
    else
      var ol :- Index(layer, "olLayer");
      var src :- Index(ol, "source");
      var file :- GetOr(src, "file", JStr(""));
      var withUrl := Set(src.entries, "url", JStr(StaticUrl(file, floatText)));
      var source := if HasKey(withUrl, "file") then Remove(withUrl, "file") else withUrl;
      Ok(JObj(Set(layer.entries, "olLayer", JObj(Set(ol.entries, "source", JObj(source))))))
  }

  function StaticUrl(file: Json, floatText: FloatText): string {
    "/static_geojson/" + PyStr(file, floatText)
  }

  /** One layer of a group: `None` when the rules hide it, otherwise the layer
      with its search configuration defaulted, its visibility, its URL and the
      static file route. */
  function PrepareGroupLayer(rules: Rules, defaultOverlays: Json, groupActive: bool, layer: Json,
                             layersConfig: Json, floatText: FloatText): PyResult<Option<Json>>
  {
    var name :- Index(layer, "name");
    var active := groupActive && StatusActive(layer.entries);
    var shown :- IsActive(name, active, rules.includes, rules.excludes, rules.explicits);
    if !shown then Ok(None)
    else
      var searchConfig := Lookup(layer.entries, "searchConfig").GetOr(JArr([]));
      var visible :- Contains(defaultOverlays, name);
      var decorated := JObj(Set(Set(layer.entries, "searchConfig", searchConfig), "visible", JBool(visible)));
      var conf :- GetAnyOr(layersConfig, name, EmptyDict);
      var url :- SourceUrl(conf, floatText);
      var withUrl :- WithUrl(decorated, url);
      var result :- StaticGeoJson(withUrl, floatText);
      Ok(Some(result))
  }

  /** `prepare_group_layers`. */
  function PrepareGroupLayers(app: Json, groupLayers: Json, groupActive: bool, layersConfig: Json,
                              floatText: FloatText): PyResult<seq<Json>>
    decreases 1, 0
  {
    var rules :- SectionRules(app, "layers");
    var defaultOverlays :- Setting(app, "map", "defaultOverlays", JArr([]));
    var layers :- Iter(groupLayers);
    Collect(GroupLayerStep(rules, defaultOverlays, groupActive, layersConfig, floatText), layers)
  }

  /** The static file route replaces any URL and removes the `file` key; the
      rest of the layer is kept. */
  lemma StaticGeoJsonShape(layer: Json, floatText: FloatText)
    requires StaticGeoJson(layer, floatText).Ok?
    ensures var r := StaticGeoJson(layer, floatText).value;
      && layer.JObj? && r.JObj?
      && (forall k | k != "olLayer" :: Lookup(r.entries, k) == Lookup(layer.entries, k))
      && (Lookup(layer.entries, "type") != Some(JStr("static_geojson")) ==> r == layer)
      && (Lookup(layer.entries, "type") == Some(JStr("static_geojson")) ==>
            && At(layer, ["olLayer", "source"]).Some?
            && At(layer, ["olLayer", "source"]).value.JObj?
            && var file := Lookup(At(layer, ["olLayer", "source"]).value.entries, "file").GetOr(JStr(""));
               && At(r, ["olLayer", "source", "url"]) == Some(JStr("/static_geojson/" + PyStr(file, floatText)))
               && At(r, ["olLayer", "source", "file"]) == None)
  {
    var r := StaticGeoJson(layer, floatText).value;
    if Lookup(layer.entries, "type") == Some(JStr("static_geojson")) {
      var ol := Index(layer, "olLayer").value;
      var src := Index(ol, "source").value;
      var file := Lookup(src.entries, "file").GetOr(JStr(""));
      var withUrl := Set(src.entries, "url", JStr(StaticUrl(file, floatText)));
      var source := if HasKey(withUrl, "file") then Remove(withUrl, "file") else withUrl;
      var ol' := Set(ol.entries, "source", JObj(source));
      assert r == JObj(Set(layer.entries, "olLayer", JObj(ol')));
      forall k | k != "olLayer" ensures Lookup(r.entries, k) == Lookup(layer.entries, k) {
        LookupSet(layer.entries, "olLayer", JObj(ol'), k);
      }
      LookupSet(layer.entries, "olLayer", JObj(ol'), "olLayer");
      LookupSet(ol.entries, "source", JObj(source), "source");
      AtTwo(layer, "olLayer", "source");
      LookupSet(src.entries, "url", JStr(StaticUrl(file, floatText)), "url");
      LookupSet(src.entries, "url", JStr(StaticUrl(file, floatText)), "file");
      if HasKey(withUrl, "file") {
        RemoveOther(withUrl, "file", "url");
        RemoveGone(withUrl, "file");
      }
      AtThree(r, "olLayer", "source", "url");
      AtThree(r, "olLayer", "source", "file");
    }
  }

  /** Visible exactly when listed in the default overlays, and with a search
      configuration, which defaults to an empty list. */
  lemma PrepareGroupLayerShape(rules: Rules, defaultOverlays: Json, groupActive: bool, layer: Json,
                               layersConfig: Json, floatText: FloatText)
    requires PrepareGroupLayer(rules, defaultOverlays, groupActive, layer, layersConfig, floatText).Ok?
    requires PrepareGroupLayer(rules, defaultOverlays, groupActive, layer, layersConfig, floatText).value.Some?
    ensures var r := PrepareGroupLayer(rules, defaultOverlays, groupActive, layer, layersConfig, floatText).value.value;
      var name := Lookup(layer.entries, "name").value;
      && IsActive(name, groupActive && StatusActive(layer.entries), rules.includes, rules.excludes, rules.explicits) == Ok(true)
      && Contains(defaultOverlays, name).Ok?
      && r.JObj?
      && Lookup(r.entries, "name") == Some(name)
      && Lookup(r.entries, "visible") == Some(JBool(Contains(defaultOverlays, name).value))
      && Lookup(r.entries, "searchConfig") == Some(Lookup(layer.entries, "searchConfig").GetOr(JArr([])))
  {
    var visible, url, withUrl := GroupLayerSteps(rules, defaultOverlays, groupActive, layer, layersConfig, floatText);
    var searchConfig := Lookup(layer.entries, "searchConfig").GetOr(JArr([]));
    var withSearch := Set(layer.entries, "searchConfig", searchConfig);
    var decorated := JObj(Set(withSearch, "visible", visible));
    StaticGeoJsonShape(withUrl, floatText);
    WithUrlOther(decorated, url, "name");
    WithUrlOther(decorated, url, "visible");
    WithUrlOther(decorated, url, "searchConfig");
    LookupSet(withSearch, "visible", visible, "name");
    LookupSet(withSearch, "visible", visible, "visible");
    LookupSet(withSearch, "visible", visible, "searchConfig");
    LookupSet(layer.entries, "searchConfig", searchConfig, "name");
    LookupSet(layer.entries, "searchConfig", searchConfig, "searchConfig");
  }

  /** A group layer sent to the client is visible exactly when its name is
      in the app's default overlays. */
  lemma GroupLayersVisible(app: Json, groupLayers: Json, groupActive: bool, layersConfig: Json, floatText: FloatText)
    requires PrepareGroupLayers(app, groupLayers, groupActive, layersConfig, floatText).Ok?
    ensures var defaultOverlays := Setting(app, "map", "defaultOverlays", JArr([])).value;
      forall r | r in PrepareGroupLayers(app, groupLayers, groupActive, layersConfig, floatText).value ::
        && r.JObj? && HasKey(r.entries, "name")
        && (defaultOverlays.JArr? ==>
              Lookup(r.entries, "visible") == Some(JBool(Lookup(r.entries, "name").value in defaultOverlays.items)))
  {
    var rules := SectionRules(app, "layers").value;
    var defaultOverlays := Setting(app, "map", "defaultOverlays", JArr([])).value;
    var layers := Iter(groupLayers).value;
    var step := GroupLayerStep(rules, defaultOverlays, groupActive, layersConfig, floatText);
    CollectFrom(step, layers);
    forall r | r in Collect(step, layers).value
      ensures r.JObj? && HasKey(r.entries, "name")
      ensures defaultOverlays.JArr? ==>
        Lookup(r.entries, "visible") == Some(JBool(Lookup(r.entries, "name").value in defaultOverlays.items))
    {
      var i :| 0 <= i < |layers| && Prepare(step, layers[i]) == Ok(Some(r));
      PrepareGroupLayerShape(rules, defaultOverlays, groupActive, layers[i], layersConfig, floatText);
    }
  }

  // ---------------------------------------------------------------------
  // prepare_overlays

  /** The group entry sent to the client, with the group's defaults. */
  function GroupEntry(d: Dict, layers: seq<Json>, name: Json, title: Json, singleSelectGroup: bool): Json {
    JObj([
      ("layers", JArr(layers)),
      ("name", name),
      ("title", title),
      ("status", Lookup(d, "status").GetOr(JStr("active"))),
      ("metadataUrl", Lookup(d, "metadataUrl").GetOr(JStr(""))),
      ("showGroup", Lookup(d, "showGroup").GetOr(JBool(true))),
      ("abstract", Lookup(d, "abstract").GetOr(JStr(""))),
      ("singleSelect", Lookup(d, "singleSelect").GetOr(JBool(false))),
      ("singleSelectGroup", JBool(singleSelectGroup)),
      ("legend", Lookup(d, "legend").GetOr(JBool(false))),
      ("defaultVisibleLayers", Lookup(d, "defaultVisibleLayers").GetOr(JArr([])))
    ])
  }

  /** One group: `None` when it has no layers or none of them survives the
      rules, otherwise its entry. */
  function PrepareOverlayGroup(app: Json, rules: Rules, singleSelect: Json, group: Json,
                               layersConfig: Json, floatText: FloatText): PyResult<Option<Json>>
    decreases 1, 1
  {
    var layersValue :- GetOr(group, "layers", JArr([]));
    var count :- Len(layersValue);
    if count == 0 then Ok(None)
    else
      var name :- Index(group, "name");
      var groupActive :- IsActive(name, StatusActive(group.entries), rules.includes, rules.excludes, rules.explicits);
      var groupLayers :- PrepareGroupLayers(app, layersValue, groupActive, layersConfig, floatText);
      var singleSelectGroup :- Contains(singleSelect, name);
      if |groupLayers| == 0 then Ok(None)
      else
        var title :- Index(group, "title");
        Ok(Some(GroupEntry(group.entries, groupLayers, name, title, singleSelectGroup)))
  }

  /** `prepare_overlays`. */
  function PrepareOverlays(app: Json, anol: Json, layersConfig: Json, floatText: FloatText): PyResult<seq<Json>> {
    var rules :- SectionRules(app, "groups");
    var singleSelect :- Setting(app, "groups", "singleSelect", JArr([]));
    var groupsValue :- GetOr(anol, "overlays", JArr([]));
    var groups :- Iter(groupsValue);
    var overlays :- Collect(OverlayGroupStep(app, rules, singleSelect, layersConfig, floatText), groups);
    Ordered(rules.explicits, overlays)
  }

  /** `prepare_layers_def`: both lists under their client-side keys. */
  function PrepareLayersDef(app: Json, anol: Json, layersConfig: Json, floatText: FloatText): (r: PyResult<Json>)
    ensures r.Ok? <==>
      PrepareBackgroundLayers(app, anol, layersConfig, floatText).Ok? && PrepareOverlays(app, anol, layersConfig, floatText).Ok?
    ensures r.Ok? ==> r.value.JObj? && Keys(r.value.entries) == ["backgroundLayer", "overlays"]
  {
    var backgrounds :- PrepareBackgroundLayers(app, anol, layersConfig, floatText);
    var overlays :- PrepareOverlays(app, anol, layersConfig, floatText);
    Ok(JObj([("backgroundLayer", JArr(backgrounds)), ("overlays", JArr(overlays))]))
  }

  /** The entries the client reads from a group entry. */
  lemma GroupEntryLookup(d: Dict, layers: seq<Json>, name: Json, title: Json, singleSelectGroup: bool)
    ensures var e := GroupEntry(d, layers, name, title, singleSelectGroup).entries;
      && Lookup(e, "layers") == Some(JArr(layers))
      && Lookup(e, "name") == Some(name)
      && Lookup(e, "singleSelectGroup") == Some(JBool(singleSelectGroup))
  {
    var e := GroupEntry(d, layers, name, title, singleSelectGroup).entries;
    LookupFirst(e, 8);
  }

  /** Setting the source url leaves every top-level key but `olLayer` alone. */
  lemma WithUrlOther(decorated: Json, url: Option<Json>, k: string)
    requires decorated.JObj? && WithUrl(decorated, url).Ok? && k != "olLayer"
    ensures WithUrl(decorated, url).value.JObj?
    ensures Lookup(WithUrl(decorated, url).value.entries, k) == Lookup(decorated.entries, k)
  {
    if url.Some? {
      SetInLookup(decorated, ["olLayer", "source"], "url", url.value, k);
    }
  }

  /** Setting the source url keeps the layer's type and the source's `file`. */
  lemma WithUrlKeepsFile(decorated: Json, url: Option<Json>)
    requires decorated.JObj? && WithUrl(decorated, url).Ok?
    ensures var w := WithUrl(decorated, url).value;
      && w.JObj?
      && Lookup(w.entries, "type") == Lookup(decorated.entries, "type")
      && (At(w, ["olLayer", "source"]).Some? && At(w, ["olLayer", "source"]).value.JObj? ==>
            && At(decorated, ["olLayer", "source"]).Some?
            && At(decorated, ["olLayer", "source"]).value.JObj?
            && Lookup(At(w, ["olLayer", "source"]).value.entries, "file") ==
               Lookup(At(decorated, ["olLayer", "source"]).value.entries, "file"))
  {
    var path := ["olLayer", "source"];
    if url.Some? {
      SetInLookup(decorated, path, "url", url.value, "type");
      SetInAt(decorated, path, "url", url.value);
      LookupSet(At(decorated, path).value.entries, "url", url.value, "file");
    }
  }

  /** The intermediate values of a group layer that is sent to the client. */
  lemma GroupLayerSteps(rules: Rules, defaultOverlays: Json, groupActive: bool, layer: Json,
                        layersConfig: Json, floatText: FloatText)
    returns (visible: Json, url: Option<Json>, withUrl: Json)
    requires PrepareGroupLayer(rules, defaultOverlays, groupActive, layer, layersConfig, floatText).Ok?
    requires PrepareGroupLayer(rules, defaultOverlays, groupActive, layer, layersConfig, floatText).value.Some?
    ensures layer.JObj? && HasKey(layer.entries, "name")
    ensures var name := Lookup(layer.entries, "name").value;
      && IsActive(name, groupActive && StatusActive(layer.entries), rules.includes, rules.excludes, rules.explicits) == Ok(true)
      && Contains(defaultOverlays, name).Ok?
      && visible == JBool(Contains(defaultOverlays, name).value)
    ensures var searchConfig := Lookup(layer.entries, "searchConfig").GetOr(JArr([]));
      WithUrl(JObj(Set(Set(layer.entries, "searchConfig", searchConfig), "visible", visible)), url) == Ok(withUrl)
    ensures StaticGeoJson(withUrl, floatText).Ok?
    ensures PrepareGroupLayer(rules, defaultOverlays, groupActive, layer, layersConfig, floatText) ==
      Ok(Some(StaticGeoJson(withUrl, floatText).value))
  {
    var name := Index(layer, "name").value;
    var searchConfig := Lookup(layer.entries, "searchConfig").GetOr(JArr([]));
    visible := JBool(Contains(defaultOverlays, name).value);
    var decorated := JObj(Set(Set(layer.entries, "searchConfig", searchConfig), "visible", visible));
    var conf := GetAnyOr(layersConfig, name, EmptyDict).value;
    url := SourceUrl(conf, floatText).value;
    withUrl := WithUrl(decorated, url).value;
  }

  /** A `static_geojson` group layer loads its file from the static route,
      without a `file` key left in its source. */
  lemma GroupLayerStaticRoute(rules: Rules, defaultOverlays: Json, groupActive: bool, layer: Json,
                              layersConfig: Json, floatText: FloatText)
    requires PrepareGroupLayer(rules, defaultOverlays, groupActive, layer, layersConfig, floatText).Ok?
    requires PrepareGroupLayer(rules, defaultOverlays, groupActive, layer, layersConfig, floatText).value.Some?
    requires Lookup(layer.entries, "type") == Some(JStr("static_geojson"))
    ensures var r := PrepareGroupLayer(rules, defaultOverlays, groupActive, layer, layersConfig, floatText).value.value;
      && At(layer, ["olLayer", "source"]).Some?
      && At(layer, ["olLayer", "source"]).value.JObj?
      && var file := Lookup(At(layer, ["olLayer", "source"]).value.entries, "file").GetOr(JStr(""));
         && At(r, ["olLayer", "source", "url"]) == Some(JStr("/static_geojson/" + PyStr(file, floatText)))
         && At(r, ["olLayer", "source", "file"]) == None
  {
    var visible, url, withUrl := GroupLayerSteps(rules, defaultOverlays, groupActive, layer, layersConfig, floatText);
    var searchConfig := Lookup(layer.entries, "searchConfig").GetOr(JArr([]));
    var withSearch := Set(layer.entries, "searchConfig", searchConfig);
    var decorated := JObj(Set(withSearch, "visible", visible));
    var path := ["olLayer", "source"];
    AtSetOther(withSearch, "visible", visible, path);
    AtSetOther(layer.entries, "searchConfig", searchConfig, path);
    assert At(decorated, path) == At(layer, path);
    LookupSet(withSearch, "visible", visible, "type");
    LookupSet(layer.entries, "searchConfig", searchConfig, "type");
    WithUrlKeepsFile(decorated, url);
    StaticGeoJsonShape(withUrl, floatText);
  }

  /** A group sent to the client has at least one layer, and `singleSelectGroup`
      says whether the app lists it as single-select. */
  lemma PrepareOverlayGroupShape(app: Json, rules: Rules, singleSelect: Json, group: Json,
                                 layersConfig: Json, floatText: FloatText)
    requires PrepareOverlayGroup(app, rules, singleSelect, group, layersConfig, floatText).Ok?
    requires PrepareOverlayGroup(app, rules, singleSelect, group, layersConfig, floatText).value.Some?
    ensures var r := PrepareOverlayGroup(app, rules, singleSelect, group, layersConfig, floatText).value.value;
      var name := Lookup(group.entries, "name").value;
      && group.JObj? && HasKey(group.entries, "name")
      && Contains(singleSelect, name).Ok?
      && r.JObj?
      && Lookup(r.entries, "name") == Some(name)
      && Lookup(r.entries, "layers").Some?
      && Lookup(r.entries, "layers").value.JArr?
      && |Lookup(r.entries, "layers").value.items| > 0
      && Lookup(r.entries, "singleSelectGroup") == Some(JBool(Contains(singleSelect, name).value))
  {
    var groupLayers, title := OverlayGroupSteps(app, rules, singleSelect, group, layersConfig, floatText);
    var name := Lookup(group.entries, "name").value;
    GroupEntryLookup(group.entries, groupLayers, name, title, Contains(singleSelect, name).value);
  }

  /** The intermediate values of a group that is sent to the client. */
  lemma OverlayGroupSteps(app: Json, rules: Rules, singleSelect: Json, group: Json,
                          layersConfig: Json, floatText: FloatText)
    returns (groupLayers: seq<Json>, title: Json)
    requires PrepareOverlayGroup(app, rules, singleSelect, group, layersConfig, floatText).Ok?
    requires PrepareOverlayGroup(app, rules, singleSelect, group, layersConfig, floatText).value.Some?
    ensures group.JObj? && HasKey(group.entries, "name")
    ensures var name := Lookup(group.entries, "name").value;
      && Contains(singleSelect, name).Ok?
      && |groupLayers| > 0
      && PrepareOverlayGroup(app, rules, singleSelect, group, layersConfig, floatText) ==
           Ok(Some(GroupEntry(group.entries, groupLayers, name, title, Contains(singleSelect, name).value)))
  {
    var layersValue := GetOr(group, "layers", JArr([])).value;
    var name := Index(group, "name").value;
    var groupActive := IsActive(name, StatusActive(group.entries), rules.includes, rules.excludes, rules.explicits).value;
    groupLayers := PrepareGroupLayers(app, layersValue, groupActive, layersConfig, floatText).value;
    title := Index(group, "title").value;
  }

  /** A group without layers is left out. */
  lemma EmptyGroupOmitted(app: Json, rules: Rules, singleSelect: Json, group: Json,
                          layersConfig: Json, floatText: FloatText)
    requires group.JObj? && Lookup(group.entries, "layers").GetOr(JArr([])) == JArr([])
    ensures PrepareOverlayGroup(app, rules, singleSelect, group, layersConfig, floatText) == Ok(None)
  {
  }

  /** Every group sent to the client has layers; with a list of single-select
      names, `singleSelectGroup` is membership in it. */
  lemma OverlaysSpec(app: Json, anol: Json, layersConfig: Json, floatText: FloatText)
    requires PrepareOverlays(app, anol, layersConfig, floatText).Ok?
    ensures var singleSelect := Setting(app, "groups", "singleSelect", JArr([])).value;
      forall g | g in PrepareOverlays(app, anol, layersConfig, floatText).value ::
        && g.JObj? && HasKey(g.entries, "name")
        && Lookup(g.entries, "layers").Some?
        && Lookup(g.entries, "layers").value.JArr?
        && |Lookup(g.entries, "layers").value.items| > 0
        && (singleSelect.JArr? ==>
              Lookup(g.entries, "singleSelectGroup") == Some(JBool(NameOf(g) in singleSelect.items)))
  {
    var rules := SectionRules(app, "groups").value;
    var singleSelect := Setting(app, "groups", "singleSelect", JArr([])).value;
    var groups := Iter(GetOr(anol, "overlays", JArr([])).value).value;
    var step := OverlayGroupStep(app, rules, singleSelect, layersConfig, floatText);
    var overlays := Collect(step, groups).value;
    CollectFrom(step, groups);
    forall g | g in overlays
      ensures g.JObj? && HasKey(g.entries, "name")
      ensures Lookup(g.entries, "layers").Some? && Lookup(g.entries, "layers").value.JArr?
      ensures |Lookup(g.entries, "layers").value.items| > 0
      ensures singleSelect.JArr? ==>
        Lookup(g.entries, "singleSelectGroup") == Some(JBool(NameOf(g) in singleSelect.items))
    {
      var i :| 0 <= i < |groups| && Prepare(step, groups[i]) == Ok(Some(g));
      PrepareOverlayGroupShape(app, rules, singleSelect, groups[i], layersConfig, floatText);
    }
    assert Named(overlays) by {
      forall i | 0 <= i < |overlays| ensures overlays[i].JObj? && HasKey(overlays[i].entries, "name") {
        assert overlays[i] in overlays;
      }
    }
    OrderedSpec(rules.explicits, overlays);
  }

  /** With an explicit list, the groups follow it, each listed name at most
      once. */
  lemma OverlaysOrder(app: Json, anol: Json, layersConfig: Json, floatText: FloatText)
    requires PrepareOverlays(app, anol, layersConfig, floatText).Ok?
    ensures var rules := SectionRules(app, "groups").value;
      var singleSelect := Setting(app, "groups", "singleSelect", JArr([])).value;
      var groups := Iter(GetOr(anol, "overlays", JArr([])).value).value;
      var overlays := Collect(OverlayGroupStep(app, rules, singleSelect, layersConfig, floatText), groups).value;
      var out := PrepareOverlays(app, anol, layersConfig, floatText).value;
      && Named(overlays)
      && (!Truthy(rules.explicits) ==> out == overlays)
      && (rules.explicits.JArr? && |rules.explicits.items| > 0 ==>
            && Named(out)
            && Names(out) == Present(rules.explicits.items, overlays)
            && (NoDuplicates(rules.explicits.items) ==> NoDuplicates(Names(out))))
  {
    var rules := SectionRules(app, "groups").value;
    var singleSelect := Setting(app, "groups", "singleSelect", JArr([])).value;
    var groups := Iter(GetOr(anol, "overlays", JArr([])).value).value;
    var step := OverlayGroupStep(app, rules, singleSelect, layersConfig, floatText);
    var overlays := Collect(step, groups).value;
    OverlayGroupsNamed(app, rules, singleSelect, groups, layersConfig, floatText);
    OrderedSpec(rules.explicits, overlays);
  }

  /** Every group entry that is sent to the client carries its name. */
  lemma OverlayGroupsNamed(app: Json, rules: Rules, singleSelect: Json, groups: seq<Json>,
                           layersConfig: Json, floatText: FloatText)
    requires Collect(OverlayGroupStep(app, rules, singleSelect, layersConfig, floatText), groups).Ok?
    ensures Named(Collect(OverlayGroupStep(app, rules, singleSelect, layersConfig, floatText), groups).value)
  {
    var step := OverlayGroupStep(app, rules, singleSelect, layersConfig, floatText);
    var overlays := Collect(step, groups).value;
    CollectFrom(step, groups);
    forall i | 0 <= i < |overlays| ensures overlays[i].JObj? && HasKey(overlays[i].entries, "name") {
      assert overlays[i] in overlays;
      var j :| 0 <= j < |groups| && Prepare(step, groups[j]) == Ok(Some(overlays[i]));
      PrepareOverlayGroupShape(app, rules, singleSelect, groups[j], layersConfig, floatText);
    }
  }

  /** A prepared background points its source at the URL its configuration
      selects, when there is one. */
  lemma PrepareBackgroundUrl(app: Json, rules: Rules, layer: Json, layersConfig: Json, floatText: FloatText)
    requires PrepareBackground(app, rules, layer, layersConfig, floatText).Ok?
    requires PrepareBackground(app, rules, layer, layersConfig, floatText).value.Some?
    ensures var r := PrepareBackground(app, rules, layer, layersConfig, floatText).value.value;
      var conf := GetAnyOr(layersConfig, Lookup(layer.entries, "name").value, EmptyDict);
      && conf.Ok? && SourceUrl(conf.value, floatText).Ok?
      && (SourceUrl(conf.value, floatText).value.Some? ==>
            At(r, ["olLayer", "source", "url"]) == Some(SourceUrl(conf.value, floatText).value.value))
  {
    var name := Index(layer, "name").value;
    var conf := GetAnyOr(layersConfig, name, EmptyDict).value;
    var url := SourceUrl(conf, floatText).value;
    var withUrl := WithUrl(layer, url).value;
    var defaultBackground := Setting(app, "map", "defaultBackground", JNull).value;
    var v := JBool(name == defaultBackground);
    var r := SetIn(withUrl, ["olLayer"], "visible", v).value;
    if url.Some? {
      var u := url.value;
      SetInAt(layer, ["olLayer", "source"], "url", u);
      var src0 := At(layer, ["olLayer", "source"]).value;
      SetInAt(withUrl, ["olLayer"], "visible", v);
      var ol1 := At(withUrl, ["olLayer"]).value;
      AtOne(withUrl, "olLayer");
      AtOne(r, "olLayer");
      LookupSet(ol1.entries, "visible", v, "source");
      AtTwo(withUrl, "olLayer", "source");
      LookupSet(src0.entries, "url", u, "url");
      AtThree(r, "olLayer", "source", "url");
    }
  }
}
