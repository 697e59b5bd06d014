/** Name resolution behind the catalog-names endpoint (`get_catalog_names` in
    `app.py`): which configured groups and layers a comma-separated list of
    names refers to, each reported with its title. */
module CatalogNames {
  import opened Util
  import opened PyJson

  // ---------------------------------------------------------------------
  // The `names` parameter

  /** The stripped piece, if it is not blank. */
  function KeptName(part: string): (r: seq<string>)
    ensures |r| <= 1
    ensures forall n | n in r :: n == PyStrip(part)
    ensures forall n | n in r :: |n| > 0 && !IsPySpace(n[0]) && !IsPySpace(n[|n| - 1])
    ensures PyStrip(part) == part && part != "" ==> r == [part]
  {
    var name := PyStrip(part);
    if name != "" then [name] else []
  }

  /** The stripped pieces that are not blank, in order. */
  function NonBlank(parts: seq<string>): (names: seq<string>)
    ensures |names| <= |parts|
    ensures forall n | n in names :: |n| > 0 && !IsPySpace(n[0]) && !IsPySpace(n[|n| - 1])
  {
    if |parts| == 0 then [] else KeptName(parts[0]) + NonBlank(parts[1..])
  }

  /** `[n.strip() for n in param.split(',') if n.strip()]`, with an empty
      parameter giving no names. */
  function ParseNames(param: string): (names: seq<string>)
    ensures param == "" ==> names == []
    ensures forall n | n in names :: |n| > 0 && ',' !in n
  {
    if param == "" then []
    else
      var parts := Split(param, ',');
      NonBlankFrom(parts);
      NonBlank(parts)
  }

  /** Every name is the stripped form of one of the pieces. */
  lemma {:induction false} NonBlankFrom(parts: seq<string>)
    ensures forall n | n in NonBlank(parts) :: exists i | 0 <= i < |parts| :: n == PyStrip(parts[i])
    ensures (forall i | 0 <= i < |parts| :: ',' !in parts[i]) ==> forall n | n in NonBlank(parts) :: ',' !in n
    decreases |parts|
  {
    if |parts| > 0 {
      NonBlankFrom(parts[1..]);
      var rest := NonBlank(parts[1..]);
      assert NonBlank(parts) == KeptName(parts[0]) + rest;
      forall n | n in NonBlank(parts) ensures exists i | 0 <= i < |parts| :: n == PyStrip(parts[i]) {
        if n in rest {
          var i :| 0 <= i < |parts[1..]| && n == PyStrip(parts[1..][i]);
          assert parts[1..][i] == parts[i + 1];
        }
      }
      if forall i | 0 <= i < |parts| :: ',' !in parts[i] {
        assert forall i | 0 <= i < |parts[1..]| :: parts[1..][i] == parts[i + 1];
        StripKeeps(parts[0], ',');
      }
    }
  }

  /** Stripping only removes characters. */
  lemma StripKeeps(s: string, c: char)
    requires c !in s
    ensures c !in PyStrip(s)
  {
    var t := DropLeadingPySpace(s);
    assert forall i | 0 <= i < |t| :: t[i] == s[|s| - |t| + i];
    var r := DropTrailingPySpace(t);
    assert forall i | 0 <= i < |r| :: r[i] == t[i];
  }

  /** Names already stripped, without commas, are read back from their
      comma-joined form. */
  lemma ParseNamesJoin(names: seq<string>)
    requires forall i | 0 <= i < |names| :: names[i] != "" && PyStrip(names[i]) == names[i] && ',' !in names[i]
    ensures ParseNames(Join(names, ",")) == names
  {
    if |names| > 0 {
      SplitJoin(names, ',');
      NonBlankKeeps(names);
      assert Join(names, ",") != "" by {
        JoinNonEmpty(names);
      }
    }
  }

  lemma {:induction false} NonBlankKeeps(names: seq<string>)
    requires forall i | 0 <= i < |names| :: names[i] != "" && PyStrip(names[i]) == names[i]
    ensures NonBlank(names) == names
    decreases |names|
  {
    if |names| > 0 {
      var rest := names[1..];
      assert forall i | 0 <= i < |rest| :: rest[i] == names[i + 1];
      NonBlankKeeps(rest);
      assert names == [names[0]] + rest;
      NonBlankCons(names[0], rest);
    }
  }

  lemma NonBlankCons(part: string, rest: seq<string>)
    ensures NonBlank([part] + rest) == KeptName(part) + NonBlank(rest)
  {
    assert ([part] + rest)[1..] == rest;
  }

  lemma JoinNonEmpty(names: seq<string>)
    requires |names| > 0 && names[0] != ""
    ensures Join(names, ",") != ""
  {
    if |names| > 1 {
      assert Join(names, ",") == names[0] + "," + Join(names[1..], ",");
    }
  }

  /** The parsed names as the string values they are compared with. */
  function AsJson(names: seq<string>): (r: seq<Json>)
    ensures |r| == |names|
    ensures forall i | 0 <= i < |names| :: r[i] == JStr(names[i])
  {
    seq(|names|, i requires 0 <= i < |names| => JStr(names[i]))
  }

  // ---------------------------------------------------------------------
  // Matching

  /** What the endpoint returns on success. */
  datatype Catalog = Catalog(groups: seq<Json>, layers: seq<Json>)

  /** `{'name': e['name'], 'title': e['title']}` for an entry whose name was
      asked for; only its name is read otherwise. */
  function Matched(entry: Json, names: seq<Json>): (r: PyResult<Option<Json>>)
    ensures r.Ok? ==> entry.JObj? && HasKey(entry.entries, "name")
  {
    var name :- Index(entry, "name");
    if name in names then
      var title :- Index(entry, "title");
      Ok(Some(JObj([("name", name), ("title", title)])))
    else Ok(None)
  }

  /** The loop over a group's layers. */
  function MatchAll(entries: seq<Json>, names: seq<Json>): PyResult<seq<Json>>
    decreases |entries|
  {
    if |entries| == 0 then Ok([])
    else
      var first :- Matched(entries[0], names);
      var rest :- MatchAll(entries[1..], names);
      Ok((if first.Some? then [first.value] else []) + rest)
  }

  /** The loop over the overlay groups: each group is checked, then its
      layers. */
  function Resolve(groups: seq<Json>, names: seq<Json>): PyResult<Catalog>
    decreases |groups|
  {
    if |groups| == 0 then Ok(Catalog([], []))
    else
      var group :- Matched(groups[0], names);
      var layers :- Iter(Lookup(groups[0].entries, "layers").GetOr(JArr([])));
      var matchedLayers :- MatchAll(layers, names);
      var rest :- Resolve(groups[1..], names);
      Ok(Catalog((if group.Some? then [group.value] else []) + rest.groups, matchedLayers + rest.layers))
  }

  /** `get_catalog_names` without the HTTP layer: an error stands for the
      500 response. */
  function ResolveCatalogNames(param: string, anol: Json): PyResult<Catalog> {
    var names := ParseNames(param);
    if |names| == 0 then Ok(Catalog([], []))
    else
      var overlays :- GetOr(anol, "overlays", JArr([]));
      var groups :- Iter(overlays);
      Resolve(groups, AsJson(names))
  }

  // ---------------------------------------------------------------------
  // Reference: what a well-formed configuration resolves to

  /** A group or layer with a name and a title. */
  predicate Entry(e: Json) {
    e.JObj? && HasKey(e.entries, "name") && HasKey(e.entries, "title")
  }

  function NameOf(e: Json): Json
    requires Entry(e)
  {
    Lookup(e.entries, "name").value
  }

  /** The name and title reported for an entry. */
  function Summary(e: Json): Json
    requires Entry(e)
  {
    JObj([("name", NameOf(e)), ("title", Lookup(e.entries, "title").value)])
  }

  predicate Entries(es: seq<Json>) {
    forall i | 0 <= i < |es| :: Entry(es[i])
  }

  /** A group whose layers, if any, are a list of entries. */
  predicate WellFormedGroup(g: Json) {
    && Entry(g)
    && Lookup(g.entries, "layers").GetOr(JArr([])).JArr?
    && Entries(Lookup(g.entries, "layers").GetOr(JArr([])).items)
  }

  function LayersOf(g: Json): seq<Json>
    requires WellFormedGroup(g)
  {
    Lookup(g.entries, "layers").GetOr(JArr([])).items
  }

  predicate WellFormed(groups: seq<Json>) {
    forall i | 0 <= i < |groups| :: WellFormedGroup(groups[i])
  }

  /** The summaries of the entries whose names were asked for, in order. */
  function Asked(es: seq<Json>, names: seq<Json>): (r: seq<Json>)
    requires Entries(es)
  {
    if |es| == 0 then []
    else (if NameOf(es[0]) in names then [Summary(es[0])] else []) + Asked(es[1..], names)
  }

  /** The same for the layers of all groups, group by group. */
  function AskedLayers(groups: seq<Json>, names: seq<Json>): seq<Json>
    requires WellFormed(groups)
  {
    if |groups| == 0 then []
    else Asked(LayersOf(groups[0]), names) + AskedLayers(groups[1..], names)
  }

  /** An entry is reported exactly when it is the summary of an entry whose
      name was asked for. */
  lemma {:induction false} AskedMembers(es: seq<Json>, names: seq<Json>, s: Json)
    requires Entries(es)
    ensures s in Asked(es, names) <==> exists i | 0 <= i < |es| :: NameOf(es[i]) in names && Summary(es[i]) == s
    decreases |es|
  {
    if |es| > 0 {
      var tail := es[1..];
      assert Entries(tail) by {
        forall i | 0 <= i < |tail| ensures Entry(tail[i]) { assert tail[i] == es[i + 1]; }
      }
      AskedMembers(tail, names, s);
      var head := if NameOf(es[0]) in names then [Summary(es[0])] else [];
      assert Asked(es, names) == head + Asked(tail, names);
      if s in Asked(es, names) {
        if s in head {
          assert NameOf(es[0]) in names && Summary(es[0]) == s;
        } else {
          var i :| 0 <= i < |tail| && NameOf(tail[i]) in names && Summary(tail[i]) == s;
          assert es[i + 1] == tail[i];
        }
      }
      if exists i | 0 <= i < |es| :: NameOf(es[i]) in names && Summary(es[i]) == s {
        var i :| 0 <= i < |es| && NameOf(es[i]) in names && Summary(es[i]) == s;
        if i > 0 {
          assert tail[i - 1] == es[i];
          assert s in Asked(tail, names);
        } else {
          assert s in head;
        }
      }
    }
  }

  lemma {:induction false} MatchAllSpec(es: seq<Json>, names: seq<Json>)
    requires Entries(es)
    ensures MatchAll(es, names) == Ok(Asked(es, names))
    decreases |es|
  {
    if |es| > 0 {
      var tail := es[1..];
      assert Entries(tail) by {
        forall i | 0 <= i < |tail| ensures Entry(tail[i]) { assert tail[i] == es[i + 1]; }
      }
      MatchAllSpec(tail, names);
      assert Index(es[0], "name") == Ok(NameOf(es[0]));
      if NameOf(es[0]) in names {
        assert Index(es[0], "title") == Ok(Lookup(es[0].entries, "title").value);
      }
    }
  }

  /** On a well-formed configuration nothing fails: the groups asked for and
      then the layers asked for, each in configuration order. */
  lemma {:induction false} ResolveSpec(groups: seq<Json>, names: seq<Json>)
    requires WellFormed(groups)
    ensures Resolve(groups, names) == Ok(Catalog(Asked(groups, names), AskedLayers(groups, names)))
    decreases |groups|
  {
    assert Entries(groups) by {
      forall i | 0 <= i < |groups| ensures Entry(groups[i]) { assert WellFormedGroup(groups[i]); }
    }
    if |groups| > 0 {
      var tail := groups[1..];
      assert WellFormed(tail) by {
        forall i | 0 <= i < |tail| ensures WellFormedGroup(tail[i]) { assert tail[i] == groups[i + 1]; }
      }
      ResolveSpec(tail, names);
      var g := groups[0];
      assert WellFormedGroup(g);
      assert Index(g, "name") == Ok(NameOf(g));
      if NameOf(g) in names {
        assert Index(g, "title") == Ok(Lookup(g.entries, "title").value);
      }
      MatchAllSpec(LayersOf(g), names);
      assert Asked(groups, names) == (if NameOf(g) in names then [Summary(g)] else []) + Asked(tail, names);
    }
  }

  /** The endpoint on a well-formed list of overlay groups. */
  lemma CatalogNamesSpec(param: string, anol: Json)
    requires anol.JObj?
    requires Lookup(anol.entries, "overlays").GetOr(JArr([])).JArr?
    requires WellFormed(Lookup(anol.entries, "overlays").GetOr(JArr([])).items)
    ensures var groups := Lookup(anol.entries, "overlays").GetOr(JArr([])).items;
      var names := AsJson(ParseNames(param));
      ResolveCatalogNames(param, anol) ==
        if names == [] then Ok(Catalog([], []))
        else Ok(Catalog(Asked(groups, names), AskedLayers(groups, names)))
  {
    var groups := Lookup(anol.entries, "overlays").GetOr(JArr([])).items;
    ResolveSpec(groups, AsJson(ParseNames(param)));
  }
}
