/** The values the Python backend passes around: parsed YAML/JSON made of
    `None`, booleans, integers, floats, strings, lists and dicts. A dict is an
    ordered list of entries, because Python dicts keep insertion order and the
    backend's output is serialized in that order. Python exceptions become
    `Err` values. */
module PyJson {
  import opened Util

  datatype Json =
    | JNull
    | JBool(b: bool)
    | JInt(i: int)
    | JFloat(x: real)
    | JStr(s: string)
    | JArr(items: seq<Json>)
    | JObj(entries: seq<(string, Json)>)

  type Dict = seq<(string, Json)>

  /** The exceptions the modelled code can raise. `TypeError` also stands for
      `AttributeError` (a method called on a value of the wrong type). */
  datatype PyError =
    | KeyError(key: Json)
    | TypeError
    | IndexError
    | ValueError
    | Unsupported(layerType: Json)
    | InvalidConfiguration(baseName: Json)
    | RecursionLimit

  type PyResult<T> = Result<T, PyError>

  // ---------------------------------------------------------------------
  // Dicts as ordered entry lists

  function Keys(d: Dict): (ks: seq<string>)
    ensures |ks| == |d|
    ensures forall i | 0 <= i < |d| :: ks[i] == d[i].0
    decreases |d|
  {
    if |d| == 0 then [] else [d[0].0] + Keys(d[1..])
  }

  /** An entry's key is a key of the dict. */
  lemma EntryKey(d: Dict, e: (string, Json))
    requires e in d
    ensures HasKey(d, e.0)
  {
    var i :| 0 <= i < |d| && d[i] == e;
    assert Keys(d)[i] == e.0;
  }

  predicate HasKey(d: Dict, k: string) {
    k in Keys(d)
  }

  /** A Python dict never holds the same key twice. */
  predicate ValidDict(d: Dict) {
    forall i, j | 0 <= i < j < |d| :: d[i].0 != d[j].0
  }

  /** `d.get(k)`, as an option. */
  function Lookup(d: Dict, k: string): (r: Option<Json>)
    ensures r.Some? <==> HasKey(d, k)
    ensures r.Some? ==> (k, r.value) in d
    decreases |d|
  {
    if |d| == 0 then None
    else if d[0].0 == k then Some(d[0].1)
    else
      assert Keys(d) == [d[0].0] + Keys(d[1..]);
      Lookup(d[1..], k)
  }

  /** Lookup in a concatenation looks in the first part first. */
  lemma {:induction false} LookupAppend(a: Dict, b: Dict, k: string)
    ensures Lookup(a + b, k) == if HasKey(a, k) then Lookup(a, k) else Lookup(b, k)
    decreases |a|
  {
    if |a| > 0 {
      assert (a + b)[0] == a[0];
      if a[0].0 == k {
        assert Keys(a)[0] == k;
      } else {
        assert (a + b)[1..] == a[1..] + b;
        assert Keys(a) == [a[0].0] + Keys(a[1..]);
        assert Lookup(a + b, k) == Lookup(a[1..] + b, k);
        LookupAppend(a[1..], b, k);
      }
    } else {
      assert a + b == b;
    }
  }

  /** Lookup finds the first entry with the key. */
  lemma {:induction false} LookupFirst(d: Dict, i: nat)
    requires i < |d| && forall j | 0 <= j < i :: d[j].0 != d[i].0
    ensures Lookup(d, d[i].0) == Some(d[i].1)
    decreases i
  {
    if i > 0 {
      assert d[1..][i - 1] == d[i];
      LookupFirst(d[1..], i - 1);
    }
  }

  /** In a valid dict the entry for a key is the only one. */
  lemma {:induction false} LookupEntry(d: Dict, k: string, v: Json)
    requires ValidDict(d) && (k, v) in d
    ensures Lookup(d, k) == Some(v)
    decreases |d|
  {
    if d[0] != (k, v) {
      assert (k, v) in d[1..];
      var j :| 0 <= j < |d[1..]| && d[1..][j] == (k, v);
      assert d[j + 1] == (k, v);
      LookupEntry(d[1..], k, v);
    }
  }

  /** `d[k] = v`: replaces the value in place, or appends a new entry. */
  function Set(d: Dict, k: string, v: Json): (r: Dict)
    decreases |d|
  {
    if |d| == 0 then [(k, v)]
    else if d[0].0 == k then [(k, v)] + d[1..]
    else [d[0]] + Set(d[1..], k, v)
  }

  /** `d[k] = v` keeps the key order: an existing key stays where it is, a new
      one goes last. */
  lemma {:induction false} SetKeys(d: Dict, k: string, v: Json)
    ensures Keys(Set(d, k, v)) == if HasKey(d, k) then Keys(d) else Keys(d) + [k]
    decreases |d|
  {
    if |d| > 0 {
      assert Keys(d) == [d[0].0] + Keys(d[1..]);
      if d[0].0 == k {
        assert Keys(Set(d, k, v)) == [k] + Keys(d[1..]);
      } else {
        SetKeys(d[1..], k, v);
        assert Keys(Set(d, k, v)) == [d[0].0] + Keys(Set(d[1..], k, v));
        if !HasKey(d, k) {
          AppendAssoc([d[0].0], Keys(d[1..]), [k]);
        }
      }
    }
  }

  /** After `d[k] = v`, `k` maps to `v` and every other key is untouched. */
  lemma {:induction false} LookupSet(d: Dict, k: string, v: Json, k': string)
    ensures Lookup(Set(d, k, v), k') == if k' == k then Some(v) else Lookup(d, k')
    decreases |d|
  {
    if |d| > 0 && d[0].0 != k {
      LookupSet(d[1..], k, v, k');
    }
  }

  /** `d[k] = v` keeps the keys distinct. */
  lemma SetValid(d: Dict, k: string, v: Json)
    requires ValidDict(d)
    ensures ValidDict(Set(d, k, v))
  {
    var r := Set(d, k, v);
    SetKeys(d, k, v);
    forall i, j | 0 <= i < j < |r| ensures r[i].0 != r[j].0 {
      assert Keys(r)[i] == r[i].0 && Keys(r)[j] == r[j].0;
      if j == |d| {
        assert Keys(r)[j] == k && !HasKey(d, k);
        assert Keys(d)[i] == Keys(r)[i];
      } else {
        assert Keys(d)[i] == Keys(r)[i] && Keys(d)[j] == Keys(r)[j];
      }
    }
  }

  /** `d.pop(k, None)`: drops the entry for `k`, keeping the others in order. */
  function Remove(d: Dict, k: string): (r: Dict)
    ensures forall e | e in r :: e in d && e.0 != k
    ensures forall e | e in d && e.0 != k :: e in r
    decreases |d|
  {
    if |d| == 0 then []
    else if d[0].0 == k then Remove(d[1..], k)
    else [d[0]] + Remove(d[1..], k)
  }

  lemma RemoveLookup(d: Dict, k: string, k': string)
    requires ValidDict(d)
    ensures Lookup(Remove(d, k), k') == if k' == k then None else Lookup(d, k')
    ensures ValidDict(Remove(d, k))
  {
    var r := Remove(d, k);
    RemoveValid(d, k);
    if k' == k {
      forall i | 0 <= i < |r| ensures Keys(r)[i] != k {
        assert r[i] in r;
      }
    } else if Lookup(d, k').Some? {
      LookupEntry(r, k', Lookup(d, k').value);
    } else {
      forall i | 0 <= i < |r| ensures Keys(r)[i] != k' {
        assert r[i] in r;
        EntryKey(d, r[i]);
      }
    }
  }

  /** `del d[k]` leaves the other keys' values as they were. */
  lemma {:induction false} RemoveOther(d: Dict, k: string, k': string)
    requires k' != k
    ensures Lookup(Remove(d, k), k') == Lookup(d, k')
    decreases |d|
  {
    if |d| > 0 {
      RemoveOther(d[1..], k, k');
      if d[0].0 != k {
        assert ([d[0]] + Remove(d[1..], k))[1..] == Remove(d[1..], k);
      }
    }
  }

  /** After `del d[k]` the key is gone. */
  lemma RemoveGone(d: Dict, k: string)
    ensures Lookup(Remove(d, k), k) == None
  {
    var r := Remove(d, k);
    forall i | 0 <= i < |r| ensures Keys(r)[i] != k {
      assert r[i] in r;
    }
  }

  lemma {:induction false} RemoveValid(d: Dict, k: string)
    requires ValidDict(d)
    ensures ValidDict(Remove(d, k))
    decreases |d|
  {
    if |d| > 0 {
      RemoveValid(d[1..], k);
      if d[0].0 != k {
        var rest := Remove(d[1..], k);
        forall j | 0 <= j < |rest| ensures rest[j].0 != d[0].0 {
          assert rest[j] in rest;
          var m :| 0 <= m < |d[1..]| && d[1..][m] == rest[j];
          assert d[m + 1] == rest[j];
        }
      }
    }
  }

  // ---------------------------------------------------------------------
  // Python operations on values

  /** Python truthiness: `None`, `False`, zero, and empty strings, lists and
      dicts are false. */
  predicate Truthy(j: Json) {
    match j
    case JNull => false
    case JBool(b) => b
    case JInt(i) => i != 0
    case JFloat(x) => x != 0.0
    case JStr(s) => |s| > 0
    case JArr(items) => |items| > 0
    case JObj(entries) => |entries| > 0
  }

  /** `obj[key]` with a string key. */
  function Index(o: Json, key: string): (r: PyResult<Json>)
    ensures r.Ok? <==> o.JObj? && HasKey(o.entries, key)
    ensures r.Ok? ==> (key, r.value) in o.entries
    ensures o.JObj? && !HasKey(o.entries, key) ==> r == Err(KeyError(JStr(key)))
  {
    if !o.JObj? then Err(TypeError)
    else match Lookup(o.entries, key)
      case Some(v) => Ok(v)
      case None => Err(KeyError(JStr(key)))
  }

  /** `obj.get(key, default)`. */
  function GetOr(o: Json, key: string, default: Json): (r: PyResult<Json>)
    ensures r.Ok? <==> o.JObj?
    ensures o.JObj? && !HasKey(o.entries, key) ==> r == Ok(default)
    ensures o.JObj? && HasKey(o.entries, key) ==> r == Index(o, key)
  {
    if !o.JObj? then Err(TypeError) else Ok(Lookup(o.entries, key).GetOr(default))
  }

  /** `obj.get(key)`: `None` when the key is missing. */
  function Get(o: Json, key: string): PyResult<Json> {
    GetOr(o, key, JNull)
  }

  /** A key lookup with an arbitrary value as the key (`d.get(name)`, `name in
      d`): strings can be present, other hashable values never are (every key of
      a modelled dict is a string), lists and dicts are unhashable. */
  function KeyOf(key: Json): (r: PyResult<Option<string>>)
    ensures r.Err? <==> key.JArr? || key.JObj?
    ensures key.JStr? ==> r == Ok(Some(key.s))
    ensures r.Ok? && r.value.Some? ==> key.JStr?
  {
    match key
    case JStr(s) => Ok(Some(s))
    case JArr(_) => Err(TypeError)
    case JObj(_) => Err(TypeError)
    case _ => Ok(None)
  }

  /** `obj.get(key, default)` with an arbitrary key. */
  function GetAnyOr(o: Json, key: Json, default: Json): (r: PyResult<Json>)
    ensures key.JStr? ==> r == GetOr(o, key.s, default)
    ensures r.Ok? && !key.JStr? ==> r.value == default
  {
    if !o.JObj? then Err(TypeError)
    else
      var k :- KeyOf(key);
      if k.Some? then GetOr(o, k.value, default) else Ok(default)
  }

  predicate OccursAt(a: string, b: string, i: nat) {
    i + |a| <= |b| && b[i..i + |a|] == a
  }

  /** Python's `a in b` on strings. */
  predicate IsSubstring(a: string, b: string) {
    exists i: nat | i <= |b| :: OccursAt(a, b, i)
  }

  /** `x in container`. */
  function Contains(container: Json, x: Json): (r: PyResult<bool>)
    ensures container.JArr? ==> r == Ok(x in container.items)
    ensures container.JObj? && x.JStr? ==> r == Ok(HasKey(container.entries, x.s))
  {
    match container
    case JArr(items) => Ok(x in items)
    case JObj(entries) =>
      var k :- KeyOf(x);
      Ok(k.Some? && HasKey(entries, k.value))
    case JStr(s) => if x.JStr? then Ok(IsSubstring(x.s, s)) else Err(TypeError)
    case _ => Err(TypeError)
  }

  /** `for x in value`: list items, a dict's keys, a string's characters. */
  function Iter(j: Json): (r: PyResult<seq<Json>>)
    ensures j.JArr? ==> r == Ok(j.items)
    ensures r.Ok? <==> j.JArr? || j.JObj? || j.JStr?
  {
    match j
    case JArr(items) => Ok(items)
    case JObj(entries) => Ok(seq(|entries|, i requires 0 <= i < |entries| => JStr(entries[i].0)))
    case JStr(s) => Ok(seq(|s|, i requires 0 <= i < |s| => JStr([s[i]])))
    case _ => Err(TypeError)
  }

  /** `len(value)`. */
  function Len(j: Json): (r: PyResult<nat>)
    ensures j.JArr? ==> r == Ok(|j.items|)
  {
    match j
    case JArr(items) => Ok(|items|)
    case JObj(entries) => Ok(|entries|)
    case JStr(s) => Ok(|s|)
    case _ => Err(TypeError)
  }

  /** `obj[key] = value` on a value that must be a dict. */
  function SetKey(o: Json, key: string, v: Json): (r: PyResult<Json>)
    ensures r.Ok? <==> o.JObj?
    ensures r.Ok? ==> r.value == JObj(Set(o.entries, key, v))
  {
    if o.JObj? then Ok(JObj(Set(o.entries, key, v))) else Err(TypeError)
  }

  /** `sep.join(value)`: every item must be a string. */
  function JoinStrings(j: Json, sep: string): (r: PyResult<string>)
    ensures j.JArr? && (forall i | 0 <= i < |j.items| :: j.items[i].JStr?) ==>
      r == Ok(Join(seq(|j.items|, i requires 0 <= i < |j.items| => j.items[i].s), sep))
  {
    var items :- Iter(j);
    if forall i | 0 <= i < |items| :: items[i].JStr? then
      Ok(Join(seq(|items|, i requires 0 <= i < |items| => items[i].s), sep))
    else Err(TypeError)
  }

  /** Text of a float as Python's `repr` writes it; not modelled, a parameter. */
  type FloatText = real -> string

  /** `str(value)`. A string inside a container is quoted with `'` (escaping
      is not modelled). */
  function PyStr(j: Json, floatText: FloatText): string
    decreases j, 1
  {
    match j
    case JNull => "None"
    case JBool(b) => if b then "True" else "False"
    case JInt(i) => IntToString(i)
    case JFloat(x) => floatText(x)
    case JStr(s) => s
    case JArr(items) => "[" + Join(ItemReprs(j, 0, floatText), ", ") + "]"
    case JObj(entries) => "{" + Join(EntryReprs(j, 0, floatText), ", ") + "}"
  }

  /** `repr(value)` of an element inside a container. */
  function Repr(j: Json, floatText: FloatText): string
    decreases j, 2
  {
    if j.JStr? then "'" + j.s + "'" else PyStr(j, floatText)
  }

  function ItemReprs(j: Json, from: nat, floatText: FloatText): (r: seq<string>)
    requires j.JArr? && from <= |j.items|
    ensures |r| == |j.items| - from
    decreases j, 0, |j.items| - from
  {
    if from == |j.items| then []
    else [Repr(j.items[from], floatText)] + ItemReprs(j, from + 1, floatText)
  }

  function EntryReprs(j: Json, from: nat, floatText: FloatText): (r: seq<string>)
    requires j.JObj? && from <= |j.entries|
    ensures |r| == |j.entries| - from
    decreases j, 0, |j.entries| - from
  {
    if from == |j.entries| then []
    else
      var e := j.entries[from];
      assert e.1 < e;
      ["'" + e.0 + "': " + Repr(e.1, floatText)] + EntryReprs(j, from + 1, floatText)
  }

  /** `str` of a list of integers is the decimal items between brackets,
      separated by `, `. */
  lemma {:induction false} PyStrIntList(items: seq<int>, floatText: FloatText)
    ensures PyStr(JArr(seq(|items|, i requires 0 <= i < |items| => JInt(items[i]))), floatText)
      == "[" + Join(seq(|items|, i requires 0 <= i < |items| => IntToString(items[i])), ", ") + "]"
  {
    var j := JArr(seq(|items|, i requires 0 <= i < |items| => JInt(items[i])));
    ItemReprsInts(j, 0, items, floatText);
    assert seq(|items|, i requires 0 <= i < |items| => IntToString(items[i]))[0..] ==
      seq(|items|, i requires 0 <= i < |items| => IntToString(items[i]));
  }

  lemma {:induction false} ItemReprsInts(j: Json, from: nat, items: seq<int>, floatText: FloatText)
    requires j == JArr(seq(|items|, i requires 0 <= i < |items| => JInt(items[i]))) && from <= |items|
    ensures ItemReprs(j, from, floatText) == seq(|items|, i requires 0 <= i < |items| => IntToString(items[i]))[from..]
    decreases |items| - from
  {
    var strs := seq(|items|, i requires 0 <= i < |items| => IntToString(items[i]));
    if from < |items| {
      ItemReprsInts(j, from + 1, items, floatText);
      assert Repr(j.items[from], floatText) == strs[from];
      assert strs[from..] == [strs[from]] + strs[from + 1..];
    } else {
      assert strs[from..] == [];
    }
  }

  // ---------------------------------------------------------------------
  // Nested lookups

  /** `j[path[0]]...[path[n-1]]`, or `None` when a step is missing or not a
      dict. */
  function At(j: Json, path: seq<string>): Option<Json>
    decreases |path|
  {
    if |path| == 0 then Some(j)
    else if !j.JObj? then None
    else match Lookup(j.entries, path[0])
      case None => None
      case Some(c) => At(c, path[1..])
  }

  /** Two steps down through dicts. */
  lemma AtTwo(j: Json, a: string, b: string)
    requires j.JObj? && Lookup(j.entries, a).Some? && Lookup(j.entries, a).value.JObj?
    ensures At(j, [a, b]) == Lookup(Lookup(j.entries, a).value.entries, b)
  {
    var x := Lookup(j.entries, a).value;
    assert [a, b][1..] == [b];
    assert At(x, [b]) == Lookup(x.entries, b) by {
      assert [b][1..] == [];
    }
  }

  /** Three steps down through dicts. */
  lemma AtThree(j: Json, a: string, b: string, c: string)
    requires j.JObj? && Lookup(j.entries, a).Some? && Lookup(j.entries, a).value.JObj?
    requires Lookup(Lookup(j.entries, a).value.entries, b).Some?
    requires Lookup(Lookup(j.entries, a).value.entries, b).value.JObj?
    ensures At(j, [a, b, c]) == Lookup(Lookup(Lookup(j.entries, a).value.entries, b).value.entries, c)
  {
    var x := Lookup(j.entries, a).value;
    assert [a, b, c][1..] == [b, c];
    AtTwo(x, b, c);
  }

  /** One step down through a dict. */
  lemma AtOne(j: Json, a: string)
    requires j.JObj?
    ensures At(j, [a]) == Lookup(j.entries, a)
  {
    assert [a][1..] == [];
  }

  /** The keys of a concatenation. */
  lemma {:induction false} KeysAppend(a: Dict, b: Dict)
    ensures Keys(a + b) == Keys(a) + Keys(b)
    decreases |a|
  {
    if |a| > 0 {
      KeysAppend(a[1..], b);
      assert (a + b)[1..] == a[1..] + b;
    } else {
      assert a + b == b;
    }
  }

  // ---------------------------------------------------------------------
  // Loops that raise

  /** A loop whose turns may raise: the results of all turns when none
      fails, otherwise the error of the first turn that fails. */
  function AllOk<T>(turns: seq<PyResult<T>>): (r: PyResult<seq<T>>)
    ensures r.Ok? <==> forall j | 0 <= j < |turns| :: turns[j].Ok?
    ensures r.Ok? ==> |r.value| == |turns| && forall j | 0 <= j < |turns| :: r.value[j] == turns[j].value
    ensures r.Err? ==> exists j | 0 <= j < |turns| ::
      && turns[j].Err? && r.error == turns[j].error
      && forall k | 0 <= k < j :: turns[k].Ok?
    decreases |turns|
  {
    if |turns| == 0 then Ok([])
    else if turns[0].Err? then Err(turns[0].error)
    else
      var rest :- AllOk(turns[1..]);
      Ok([turns[0].value] + rest)
  }

  /** Running a loop over two runs of turns is running it over each. */
  lemma {:induction false} AllOkConcat<T>(a: seq<PyResult<T>>, b: seq<PyResult<T>>)
    requires AllOk(a).Ok? && AllOk(b).Ok?
    ensures AllOk(a + b) == Ok(AllOk(a).value + AllOk(b).value)
    decreases |a|
  {
    if |a| == 0 {
      assert a + b == b;
      assert AllOk(a).value + AllOk(b).value == AllOk(b).value;
    } else {
      var ab := a + b;
      assert ab[0] == a[0];
      assert ab[1..] == a[1..] + b;
      AllOkHead(a);
      AllOkConcat(a[1..], b);
      AllOkHead(ab);
      var vr, vb := AllOk(a[1..]).value, AllOk(b).value;
      assert [a[0].value] + (vr + vb) == ([a[0].value] + vr) + vb;
    }
  }

  /** A successful first turn puts its value in front of the rest's. */
  lemma AllOkHead<T>(turns: seq<PyResult<T>>)
    requires |turns| > 0 && turns[0].Ok?
    ensures AllOk(turns) ==
      if AllOk(turns[1..]).Ok? then Ok([turns[0].value] + AllOk(turns[1..]).value) else Err(AllOk(turns[1..]).error)
  {
  }



}
