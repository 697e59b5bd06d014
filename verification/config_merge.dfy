/** Recursive dict merging (`merge_dict` in `layers.py`, `deep_merge` in
    `app.py`) and `base` inheritance between layer configurations
    (`apply_base_config`). */
module ConfigMerge {
  import opened Util
  import opened PyJson

  // ---------------------------------------------------------------------
  // merge_dict(target, base)

  /** The value `merge_dict` stores for a key of the target: a dict meeting a
      dict is merged recursively, anything else is the target's value. */
  function Combine(v: Json, cur: Option<Json>): Json
    decreases v, 2
  {
    if cur.Some? && cur.value.JObj? && v.JObj? then JObj(MergeObj(v, cur.value.entries)) else v
  }

  /** The loop of `merge_dict` from the target's `i`-th entry on. */
  function MergeFrom(t: Json, i: nat, result: Dict): Dict
    requires t.JObj? && i <= |t.entries|
    decreases t, 0, |t.entries| - i
  {
    if i == |t.entries| then result
    else
      var e := t.entries[i];
      assert e.1 < e;
      MergeFrom(t, i + 1, Set(result, e.0, Combine(e.1, Lookup(result, e.0))))
  }

  function MergeObj(t: Json, base: Dict): Dict
    requires t.JObj?
    decreases t, 1
  {
    MergeFrom(t, 0, base)
  }

  /** `merge_dict(target, base)`: a copy of `base` with every entry of `target`
      written over it in target order. */
  function MergeDict(target: Dict, base: Dict): Dict {
    MergeObj(JObj(target), base)
  }

  /** What the loop leaves under key `k`: untouched unless a remaining target
      entry has key `k`. */
  lemma {:induction false} MergeFromLookup(t: Json, i: nat, result: Dict, k: string)
    requires t.JObj? && i <= |t.entries| && ValidDict(t.entries)
    ensures Lookup(MergeFrom(t, i, result), k) ==
      if HasKey(t.entries[i..], k) then Some(Combine(Lookup(t.entries, k).value, Lookup(result, k)))
      else Lookup(result, k)
    decreases |t.entries| - i
  {
    var es := t.entries;
    if i < |es| {
      var e := es[i];
      var r' := Set(result, e.0, Combine(e.1, Lookup(result, e.0)));
      MergeFromLookup(t, i + 1, r', k);
      LookupSet(result, e.0, Combine(e.1, Lookup(result, e.0)), k);
      assert Keys(es[i..]) == [e.0] + Keys(es[i + 1..]) by {
        assert es[i..] == [e] + es[i + 1..];
      }
      if e.0 == k {
        LookupEntry(es, k, e.1);
        var tail := es[i + 1..];
        forall j | 0 <= j < |tail| ensures Keys(tail)[j] != k {
          assert tail[j] == es[i + 1 + j];
        }
      }
    } else {
      assert Keys(es[i..]) == [];
    }
  }

  /** `merge_dict(target, base)` holds every key of either dict. A key only in
      `base` keeps its value; a key of `target` takes the target's value unless
      both values are dicts, which are merged recursively. */
  lemma MergeDictLookup(target: Dict, base: Dict, k: string)
    requires ValidDict(target)
    ensures Lookup(MergeDict(target, base), k) ==
      if HasKey(target, k) then Some(Combine(Lookup(target, k).value, Lookup(base, k)))
      else Lookup(base, k)
    ensures HasKey(MergeDict(target, base), k) <==> HasKey(target, k) || HasKey(base, k)
    ensures HasKey(target, k) && HasKey(base, k) && Lookup(target, k).value.JObj? && Lookup(base, k).value.JObj? ==>
      Lookup(MergeDict(target, base), k) == Some(JObj(MergeDict(Lookup(target, k).value.entries, Lookup(base, k).value.entries)))
    ensures HasKey(target, k) && !(HasKey(base, k) && Lookup(target, k).value.JObj? && Lookup(base, k).value.JObj?) ==>
      Lookup(MergeDict(target, base), k) == Lookup(target, k)
  {
    assert target[0..] == target;
    MergeFromLookup(JObj(target), 0, base, k);
  }

  /** The keys of `target` that `present` does not hold, in target order. */
  function NewKeys(ks: seq<string>, present: seq<string>): (r: seq<string>)
    ensures forall k | k in r :: k in ks && k !in present
    decreases |ks|
  {
    if |ks| == 0 then []
    else (if ks[0] in present then [] else [ks[0]]) + NewKeys(ks[1..], present)
  }

  lemma {:induction false} NewKeysIgnores(ks: seq<string>, present: seq<string>, k: string)
    requires k !in ks
    ensures NewKeys(ks, present + [k]) == NewKeys(ks, present)
    decreases |ks|
  {
    if |ks| > 0 {
      NewKeysIgnores(ks[1..], present, k);
    }
  }

  lemma {:induction false} MergeFromKeys(t: Json, i: nat, result: Dict)
    requires t.JObj? && i <= |t.entries| && ValidDict(t.entries)
    ensures Keys(MergeFrom(t, i, result)) == Keys(result) + NewKeys(Keys(t.entries)[i..], Keys(result))
    decreases |t.entries| - i
  {
    var es := t.entries;
    var ks := Keys(es);
    if i < |es| {
      var e := es[i];
      var r' := Set(result, e.0, Combine(e.1, Lookup(result, e.0)));
      MergeFromKeys(t, i + 1, r');
      SetKeys(result, e.0, Combine(e.1, Lookup(result, e.0)));
      assert ks[i..][1..] == ks[i + 1..];
      if !HasKey(result, e.0) {
        assert e.0 !in ks[i + 1..] by {
          forall j | i + 1 <= j < |ks| ensures ks[j] != e.0 {
          }
        }
        NewKeysIgnores(ks[i + 1..], Keys(result), e.0);
        AppendAssoc(Keys(result), [e.0], NewKeys(ks[i + 1..], Keys(result)));
      }
    } else {
      assert ks[i..] == [];
    }
  }

  /** `merge_dict` keeps the base's key order and appends the target's new
      keys in target order. */
  lemma MergeDictKeys(target: Dict, base: Dict)
    requires ValidDict(target)
    ensures Keys(MergeDict(target, base)) == Keys(base) + NewKeys(Keys(target), Keys(base))
  {
    assert Keys(target)[0..] == Keys(target);
    MergeFromKeys(JObj(target), 0, base);
  }

  lemma {:induction false} MergeFromValid(t: Json, i: nat, result: Dict)
    requires t.JObj? && i <= |t.entries| && ValidDict(result)
    ensures ValidDict(MergeFrom(t, i, result))
    decreases |t.entries| - i
  {
    if i < |t.entries| {
      var e := t.entries[i];
      SetValid(result, e.0, Combine(e.1, Lookup(result, e.0)));
      MergeFromValid(t, i + 1, Set(result, e.0, Combine(e.1, Lookup(result, e.0))));
    }
  }

  /** Merging into a valid dict gives a valid dict. */
  lemma MergeDictValid(target: Dict, base: Dict)
    requires ValidDict(base)
    ensures ValidDict(MergeDict(target, base))
  {
    MergeFromValid(JObj(target), 0, base);
  }

  // ---------------------------------------------------------------------
  // deep_merge(base, override)

  function DeepValue(cur: Option<Json>, v: Json): Json
    decreases v, 2
  {
    if cur.Some? && cur.value.JObj? && v.JObj? then JObj(DeepObj(cur.value.entries, v)) else v
  }

  /** The loop of `deep_merge` from the override's `i`-th entry on. */
  function DeepFrom(o: Json, i: nat, result: Dict): Dict
    requires o.JObj? && i <= |o.entries|
    decreases o, 0, |o.entries| - i
  {
    if i == |o.entries| then result
    else
      var e := o.entries[i];
      assert e.1 < e;
      DeepFrom(o, i + 1, Set(result, e.0, DeepValue(Lookup(result, e.0), e.1)))
  }

  function DeepObj(base: Dict, o: Json): Dict
    requires o.JObj?
    decreases o, 1
  {
    DeepFrom(o, 0, base)
  }

  /** `deep_merge(base, override)`: a shallow copy of `base` with every entry
      of `override` written over it. */
  function DeepMerge(base: Dict, override: Dict): Dict {
    DeepObj(base, JObj(override))
  }

  lemma {:induction false} DeepFromIsMergeFrom(o: Json, i: nat, result: Dict)
    requires o.JObj? && i <= |o.entries|
    ensures DeepFrom(o, i, result) == MergeFrom(o, i, result)
    decreases o, 0, |o.entries| - i
  {
    if i < |o.entries| {
      var e := o.entries[i];
      assert e.1 < e;
      DeepValueIsCombine(Lookup(result, e.0), e.1);
      DeepFromIsMergeFrom(o, i + 1, Set(result, e.0, DeepValue(Lookup(result, e.0), e.1)));
    }
  }

  lemma {:induction false} DeepValueIsCombine(cur: Option<Json>, v: Json)
    ensures DeepValue(cur, v) == Combine(v, cur)
    decreases v, 2
  {
    if cur.Some? && cur.value.JObj? && v.JObj? {
      DeepFromIsMergeFrom(v, 0, cur.value.entries);
    }
  }

  /** The two merges of the backend agree: `deep_merge(base, override)` is
      `merge_dict(override, base)`, so everything proved about one holds for
      the other. */
  lemma DeepMergeIsMergeDict(base: Dict, override: Dict)
    ensures DeepMerge(base, override) == MergeDict(override, base)
  {
    DeepFromIsMergeFrom(JObj(override), 0, base);
  }

  // ---------------------------------------------------------------------
  // apply_base_config(current_config, layer_configs)

  /** `layer_config['name'] == name`, raising when the entry has no name. */
  function NameMatches(lc: Json, name: Json): (r: PyResult<bool>)
    ensures lc.JObj? && HasKey(lc.entries, "name") ==> r == Ok(Lookup(lc.entries, "name").value == name)
  {
    var n :- Index(lc, "name");
    Ok(n == name)
  }

  /** `apply_base_config`. Python's recursion limit is the parameter `fuel`:
      each nested resolution uses one unit, and running out raises. */
  function ApplyBase(config: Json, layerConfigs: seq<Json>, fuel: nat): (r: PyResult<Json>)
    ensures r.Ok? && config.JObj? ==> r.value.JObj?
    decreases fuel, 1
  {
    var hasBase :- Contains(config, JStr("base"));
    if !hasBase then Ok(config)
    else if !config.JObj? then Err(TypeError)
    else
      var name := Lookup(config.entries, "base").value;
      var current := Remove(config.entries, "base");
      var found :- ScanBase(name, layerConfigs, 0, None, fuel);
      match found
      case None => Err(InvalidConfiguration(name))
      case Some(b) => if b.JObj? then Ok(JObj(MergeDict(current, b.entries))) else Err(TypeError)
  }

  /** The loop over `layer_configs`: every entry named `name` is resolved in
      turn and the last one is kept. */
  function ScanBase(name: Json, layerConfigs: seq<Json>, i: nat, found: Option<Json>, fuel: nat): PyResult<Option<Json>>
    requires i <= |layerConfigs|
    decreases fuel, 0, |layerConfigs| - i
  {
    if i == |layerConfigs| then Ok(found)
    else
      var m :- NameMatches(layerConfigs[i], name);
      if !m then ScanBase(name, layerConfigs, i + 1, found, fuel)
      else if fuel == 0 then Err(RecursionLimit)
      else
        var b :- ApplyBase(layerConfigs[i], layerConfigs, fuel - 1);
        ScanBase(name, layerConfigs, i + 1, Some(b), fuel)
  }

  /** A configuration without `base` comes back unchanged. */
  lemma ApplyBaseWithoutBase(config: Json, layerConfigs: seq<Json>, fuel: nat)
    requires config.JObj? && !HasKey(config.entries, "base")
    ensures ApplyBase(config, layerConfigs, fuel) == Ok(config)
  {
  }

  /** Every layer configuration that is a dict has no repeated key. */
  predicate AllValid(layerConfigs: seq<Json>) {
    forall j | 0 <= j < |layerConfigs| :: layerConfigs[j].JObj? ==> ValidDict(layerConfigs[j].entries)
  }

  /** Every resolved configuration is a dict without `base`. */
  lemma {:induction false} ApplyBaseDropsBase(config: Json, layerConfigs: seq<Json>, fuel: nat)
    requires config.JObj?
    requires ApplyBase(config, layerConfigs, fuel).Ok?
    requires AllValid(layerConfigs)
    ensures ApplyBase(config, layerConfigs, fuel).value.JObj?
    ensures HasKey(config.entries, "base") && ValidDict(config.entries) ==>
      !HasKey(ApplyBase(config, layerConfigs, fuel).value.entries, "base")
    decreases fuel, 1
  {
    if HasKey(config.entries, "base") && ValidDict(config.entries) {
      var name := Lookup(config.entries, "base").value;
      var current := Remove(config.entries, "base");
      var b := ScanBase(name, layerConfigs, 0, None, fuel).value.value;
      ScanBaseDropsBase(name, layerConfigs, 0, None, fuel);
      RemoveLookup(config.entries, "base", "base");
      MergeDictLookup(current, b.entries, "base");
    }
  }

  /** A resolved configuration: a dict without `base`. */
  predicate NoBase(v: Json) {
    v.JObj? && !HasKey(v.entries, "base")
  }

  /** Resolving one layer configuration yields a dict without `base`. */
  lemma ResolvedNoBase(lc: Json, layerConfigs: seq<Json>, fuel: nat, b: Json)
    requires lc.JObj? && ValidDict(lc.entries) && AllValid(layerConfigs)
    requires ApplyBase(lc, layerConfigs, fuel) == Ok(b)
    ensures NoBase(b)
    decreases fuel, 2
  {
    ApplyBaseDropsBase(lc, layerConfigs, fuel);
    if !HasKey(lc.entries, "base") {
      ApplyBaseWithoutBase(lc, layerConfigs, fuel);
    }
  }

  /** A configuration that carries the name is resolved and becomes the
      candidate. */
  lemma ScanBaseMatch(name: Json, layerConfigs: seq<Json>, i: nat, found: Option<Json>, fuel: nat)
    returns (b: Json)
    requires i < |layerConfigs|
    requires ScanBase(name, layerConfigs, i, found, fuel).Ok?
    requires NameMatches(layerConfigs[i], name) == Ok(true)
    ensures fuel > 0 && layerConfigs[i].JObj?
    ensures ApplyBase(layerConfigs[i], layerConfigs, fuel - 1) == Ok(b)
    ensures ScanBase(name, layerConfigs, i, found, fuel) == ScanBase(name, layerConfigs, i + 1, Some(b), fuel)
  {
    assert layerConfigs[i].JObj?;
    b := ApplyBase(layerConfigs[i], layerConfigs, fuel - 1).value;
  }

  lemma {:induction false} ScanBaseDropsBase(name: Json, layerConfigs: seq<Json>, i: nat, found: Option<Json>, fuel: nat)
    requires i <= |layerConfigs|
    requires ScanBase(name, layerConfigs, i, found, fuel).Ok?
    requires found.Some? ==> NoBase(found.value)
    requires AllValid(layerConfigs)
    ensures var r := ScanBase(name, layerConfigs, i, found, fuel).value;
      r.Some? ==> r.value.JObj? && !HasKey(r.value.entries, "base")
    decreases fuel, 0, |layerConfigs| - i
  {
    if i < |layerConfigs| {
      var m := NameMatches(layerConfigs[i], name).value;
      if !m {
        ScanBaseDropsBase(name, layerConfigs, i + 1, found, fuel);
      } else {
        var lc := layerConfigs[i];
        var b := ScanBaseMatch(name, layerConfigs, i, found, fuel);
        assert ValidDict(lc.entries);
        ResolvedNoBase(lc, layerConfigs, fuel - 1, b);
        ScanBaseDropsBase(name, layerConfigs, i + 1, Some(b), fuel);
      }
    }
  }

  /** Every layer configuration is a dict with a `name`. */
  predicate AllNamed(layerConfigs: seq<Json>) {
    forall j | 0 <= j < |layerConfigs| ::
      layerConfigs[j].JObj? && HasKey(layerConfigs[j].entries, "name")
  }

  function NameOf(lc: Json): Json
    requires lc.JObj? && HasKey(lc.entries, "name")
  {
    Lookup(lc.entries, "name").value
  }

  /** The last configuration from index `i` on that is named `name`. */
  function LastNamed(layerConfigs: seq<Json>, name: Json, i: nat): (r: Option<nat>)
    requires AllNamed(layerConfigs) && i <= |layerConfigs|
    ensures r.Some? ==> i <= r.value < |layerConfigs| && NameOf(layerConfigs[r.value]) == name
    ensures r.None? ==> forall j | i <= j < |layerConfigs| :: NameOf(layerConfigs[j]) != name
    decreases |layerConfigs| - i
  {
    if i == |layerConfigs| then None
    else
      var later := LastNamed(layerConfigs, name, i + 1);
      if later.Some? then later
      else if NameOf(layerConfigs[i]) == name then Some(i)
      else None
  }

  lemma {:induction false} ScanBaseLast(name: Json, layerConfigs: seq<Json>, i: nat, found: Option<Json>, fuel: nat)
    requires AllNamed(layerConfigs) && i <= |layerConfigs| && fuel > 0
    requires forall j | i <= j < |layerConfigs| && NameOf(layerConfigs[j]) == name ::
      ApplyBase(layerConfigs[j], layerConfigs, fuel - 1).Ok?
    ensures ScanBase(name, layerConfigs, i, found, fuel) ==
      match LastNamed(layerConfigs, name, i)
      case None => Ok(found)
      case Some(j) => Ok(Some(ApplyBase(layerConfigs[j], layerConfigs, fuel - 1).value))
    decreases |layerConfigs| - i
  {
    if i < |layerConfigs| {
      var lc := layerConfigs[i];
      assert NameMatches(lc, name) == Ok(NameOf(lc) == name);
      if NameOf(lc) == name {
        ScanBaseLast(name, layerConfigs, i + 1, Some(ApplyBase(lc, layerConfigs, fuel - 1).value), fuel);
      } else {
        ScanBaseLast(name, layerConfigs, i + 1, found, fuel);
      }
    }
  }

  /** `apply_base_config` resolves the base by name: with no configuration of
      that name it raises `InvalidConfigurationError`; otherwise the last
      configuration of that name, itself resolved, is the base that the
      configuration (without its `base` key) is merged into. */
  lemma ApplyBaseResolvesLastNamed(config: Json, layerConfigs: seq<Json>, fuel: nat)
    requires config.JObj? && HasKey(config.entries, "base")
    requires AllNamed(layerConfigs) && fuel > 0
    requires forall j | 0 <= j < |layerConfigs| && NameOf(layerConfigs[j]) == Lookup(config.entries, "base").value ::
      ApplyBase(layerConfigs[j], layerConfigs, fuel - 1).Ok?
    ensures var name := Lookup(config.entries, "base").value;
      match LastNamed(layerConfigs, name, 0)
      case None => ApplyBase(config, layerConfigs, fuel) == Err(InvalidConfiguration(name))
      case Some(j) =>
        ApplyBase(layerConfigs[j], layerConfigs, fuel - 1).value.JObj? &&
        ApplyBase(config, layerConfigs, fuel) == Ok(JObj(MergeDict(Remove(config.entries, "base"),
          ApplyBase(layerConfigs[j], layerConfigs, fuel - 1).value.entries)))
  {
    var name := Lookup(config.entries, "base").value;
    match LastNamed(layerConfigs, name, 0) {
      case None =>
        assert ScanBase(name, layerConfigs, 0, None, fuel) == Ok(None) by {
          ScanBaseLast(name, layerConfigs, 0, None, fuel);
        }
        ApplyBaseFound(config, layerConfigs, fuel, None);
      case Some(j) =>
        assert ApplyBase(layerConfigs[j], layerConfigs, fuel - 1).Ok?;
        assert ScanBase(name, layerConfigs, 0, None, fuel) ==
          Ok(Some(ApplyBase(layerConfigs[j], layerConfigs, fuel - 1).value)) by {
          ScanBaseLast(name, layerConfigs, 0, None, fuel);
        }
        ApplyBaseFromResolved(config, layerConfigs, fuel, j);
    }
  }

  /** When the scan finds the resolved `j`-th layer configuration, `config`
      is merged over it. */
  lemma ApplyBaseFromResolved(config: Json, layerConfigs: seq<Json>, fuel: nat, j: nat)
    requires config.JObj? && HasKey(config.entries, "base")
    requires AllNamed(layerConfigs) && j < |layerConfigs| && fuel > 0
    requires ApplyBase(layerConfigs[j], layerConfigs, fuel - 1).Ok?
    requires ScanBase(Lookup(config.entries, "base").value, layerConfigs, 0, None, fuel) ==
      Ok(Some(ApplyBase(layerConfigs[j], layerConfigs, fuel - 1).value))
    ensures ApplyBase(layerConfigs[j], layerConfigs, fuel - 1).value.JObj?
    ensures ApplyBase(config, layerConfigs, fuel) == Ok(JObj(MergeDict(Remove(config.entries, "base"),
      ApplyBase(layerConfigs[j], layerConfigs, fuel - 1).value.entries)))
  {
    var b := ApplyBase(layerConfigs[j], layerConfigs, fuel - 1).value;
    ApplyBaseFound(config, layerConfigs, fuel, Some(b));
  }

  /** A dict with a `base` key resolves to whatever the scan of the layer configurations found. */
  lemma ApplyBaseFound(config: Json, layerConfigs: seq<Json>, fuel: nat, found: Option<Json>)
    requires config.JObj? && HasKey(config.entries, "base")
    requires ScanBase(Lookup(config.entries, "base").value, layerConfigs, 0, None, fuel) == Ok(found)
    ensures found.None? ==>
      ApplyBase(config, layerConfigs, fuel) == Err(InvalidConfiguration(Lookup(config.entries, "base").value))
    ensures found.Some? && found.value.JObj? ==>
      ApplyBase(config, layerConfigs, fuel) == Ok(JObj(MergeDict(Remove(config.entries, "base"), found.value.entries)))
  {
    assert Contains(config, JStr("base")) == Ok(true);
  }

  /** A configuration whose base is itself never resolves: the recursion runs
      until the interpreter's limit, whatever that limit is. */
  lemma {:induction false} SelfBaseNeverResolves(fuel: nat)
    ensures var c := JObj([("name", JStr("a")), ("base", JStr("a"))]);
      ApplyBase(c, [c], fuel) == Err(RecursionLimit)
    decreases fuel
  {
    var c := JObj([("name", JStr("a")), ("base", JStr("a"))]);
    assert Keys(c.entries) == ["name", "base"];
    assert Lookup(c.entries, "base") == Some(JStr("a"));
    assert Lookup(c.entries, "name") == Some(JStr("a"));
    if fuel > 0 {
      SelfBaseNeverResolves(fuel - 1);
    }
    assert ScanBase(JStr("a"), [c], 0, None, fuel) == Err(RecursionLimit);
  }
}
