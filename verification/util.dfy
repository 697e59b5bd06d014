/** Shared helpers: optional values, results, and the string operations the
    JavaScript and Python sources rely on (`split`, `join`, `indexOf`,
    `endsWith`, decimal formatting, whitespace classes). */
module Util {

  datatype Option<+T> = None | Some(value: T) {
    function GetOr(default: T): T {
      match this
      case Some(v) => v
      case None => default
    }
  }

  /** Failure-compatible result, usable with `:-`. */
  datatype Result<+T, +E> = Ok(value: T) | Err(error: E) {
    predicate IsFailure() {
      Err?
    }
    function PropagateFailure<U>(): Result<U, E>
      requires Err?
    {
      Err(error)
    }
    function Extract(): T
      requires Ok?
    {
      value
    }
  }

  // ---------------------------------------------------------------------
  // Searching

  /** Position of the first occurrence of `c` in `s` (`indexOf` for one char). */
  function FindChar(s: string, c: char): (r: Option<nat>)
    ensures r.None? <==> c !in s
    ensures r.Some? ==> r.value < |s| && s[r.value] == c && c !in s[..r.value]
  {
    if |s| == 0 then None
    else if s[0] == c then Some(0)
    else
      match FindChar(s[1..], c)
      case None => None
      case Some(k) =>
        assert s[..k + 1] == [s[0]] + s[1..][..k];
        Some(k + 1)
  }

  predicate EndsWith(s: string, suffix: string) {
    |suffix| <= |s| && s[|s| - |suffix|..] == suffix
  }

  predicate StartsWith(s: string, prefix: string) {
    |prefix| <= |s| && s[..|prefix|] == prefix
  }

  // ---------------------------------------------------------------------
  // split / join with a one-character separator (same in JS and Python)

  function Split(s: string, sep: char): (parts: seq<string>)
    ensures |parts| >= 1
    ensures forall i | 0 <= i < |parts| :: sep !in parts[i]
    decreases |s|
  {
    match FindChar(s, sep)
    case None => [s]
    case Some(k) => [s[..k]] + Split(s[k + 1..], sep)
  }

  function Join(parts: seq<string>, sep: string): string {
    if |parts| == 0 then ""
    else if |parts| == 1 then parts[0]
    else parts[0] + sep + Join(parts[1..], sep)
  }

  lemma {:induction false} FindCharAfterPrefix(a: string, c: char, b: string)
    requires c !in a
    ensures FindChar(a + [c] + b, c) == Some(|a|)
    decreases |a|
  {
    if |a| > 0 {
      assert (a + [c] + b)[1..] == a[1..] + [c] + b;
      FindCharAfterPrefix(a[1..], c, b);
    }
  }

  /** The first occurrence in a prefix is the first occurrence overall. */
  lemma FindCharInPrefix(p: string, c: char, q: string)
    requires FindChar(p, c).Some?
    ensures FindChar(p + q, c) == FindChar(p, c)
  {
    var s := p + q;
    var k := FindChar(p, c).value;
    assert s[k] == c;
    assert s[..k] == p[..k];
  }

  /** Splitting at a separator splits the two sides independently. */
  lemma {:induction false} SplitConcat(p: string, sep: char, t: string)
    ensures Split(p + [sep] + t, sep) == Split(p, sep) + Split(t, sep)
    decreases |p|
  {
    if FindChar(p, sep).None? {
      SplitAtFirst(p, sep, t);
    } else {
      var k := FindChar(p, sep).value;
      SplitConcat(p[k + 1..], sep, t);
      SplitConcatStep(p, sep, t);
    }
  }

  lemma SplitConcatStep(p: string, sep: char, t: string)
    requires FindChar(p, sep).Some?
    requires var rest := p[FindChar(p, sep).value + 1..];
      Split(rest + [sep] + t, sep) == Split(rest, sep) + Split(t, sep)
    ensures Split(p + [sep] + t, sep) == Split(p, sep) + Split(t, sep)
  {
    var k := FindChar(p, sep).value;
    SplitBeforeFirst(p, sep, t);
  }

  lemma SplitAtFirst(p: string, sep: char, t: string)
    requires sep !in p
    ensures Split(p + [sep] + t, sep) == [p] + Split(t, sep)
    ensures Split(p, sep) == [p]
  {
    var s := p + [sep] + t;
    FindCharAfterPrefix(p, sep, t);
    assert s[..|p|] == p;
    assert s[|p| + 1..] == t;
  }

  lemma SplitBeforeFirst(p: string, sep: char, t: string)
    requires FindChar(p, sep).Some?
    ensures var k := FindChar(p, sep).value;
      && Split(p + [sep] + t, sep) == [p[..k]] + Split(p[k + 1..] + [sep] + t, sep)
      && Split(p, sep) == [p[..k]] + Split(p[k + 1..], sep)
  {
    var s := p + [sep] + t;
    var k := FindChar(p, sep).value;
    FindCharInPrefix(p, sep, [sep] + t);
    assert s == p + ([sep] + t);
    assert s[..k] == p[..k];
    assert s[k + 1..] == p[k + 1..] + [sep] + t;
  }

  /** Joining the pieces of a split gives the original text back. */
  lemma {:induction false} JoinSplit(s: string, sep: char)
    ensures Join(Split(s, sep), [sep]) == s
    decreases |s|
  {
    match FindChar(s, sep)
    case None =>
    case Some(k) =>
      var rest := Split(s[k + 1..], sep);
      JoinSplit(s[k + 1..], sep);
      assert Split(s, sep) == [s[..k]] + rest;
      assert s == s[..k] + [sep] + s[k + 1..];
  }

  /** Splitting a join of separator-free pieces gives the pieces back. */
  lemma {:induction false} SplitJoin(parts: seq<string>, sep: char)
    requires |parts| >= 1
    requires forall i | 0 <= i < |parts| :: sep !in parts[i]
    ensures Split(Join(parts, [sep]), sep) == parts
    decreases |parts|
  {
    if |parts| > 1 {
      var head := parts[0];
      var tail := Join(parts[1..], [sep]);
      var s := head + [sep] + tail;
      assert Join(parts, [sep]) == s;
      FindCharAfterPrefix(head, sep, tail);
      assert s[..|head|] == head;
      assert s[|head| + 1..] == tail;
      assert Split(s, sep) == [head] + Split(tail, sep);
      SplitJoin(parts[1..], sep);
      assert parts == [head] + parts[1..];
    }
  }

  // ---------------------------------------------------------------------
  // Decimal numerals

  predicate IsDigit(c: char) {
    '0' <= c <= '9'
  }

  function DigitValue(c: char): nat
    requires IsDigit(c)
  {
    (c as int) - ('0' as int)
  }

  function DigitChar(d: nat): (c: char)
    requires d < 10
    ensures IsDigit(c) && DigitValue(c) == d
  {
    (('0' as int) + d) as char
  }

  /** `String(n)` for a non-negative integer. */
  function NatToString(n: nat): (r: string)
    ensures |r| >= 1
    ensures forall i | 0 <= i < |r| :: IsDigit(r[i])
    decreases n
  {
    if n < 10 then [DigitChar(n)] else NatToString(n / 10) + [DigitChar(n % 10)]
  }

  /** `String(i)` for any integer. */
  function IntToString(i: int): string {
    if i < 0 then "-" + NatToString(-i) else NatToString(i)
  }

  /** Value of a string of decimal digits. */
  function DigitsValue(s: string): nat
    requires forall i | 0 <= i < |s| :: IsDigit(s[i])
  {
    if |s| == 0 then 0 else DigitsValue(s[..|s| - 1]) * 10 + DigitValue(s[|s| - 1])
  }

  lemma {:induction false} NatToStringValue(n: nat)
    ensures DigitsValue(NatToString(n)) == n
    decreases n
  {
    if n >= 10 {
      var s := NatToString(n);
      NatToStringValue(n / 10);
      assert s[..|s| - 1] == NatToString(n / 10);
    }
  }

  /** Distinct numbers print differently. */
  lemma NatToStringInjective(a: nat, b: nat)
    ensures NatToString(a) == NatToString(b) ==> a == b
  {
    NatToStringValue(a);
    NatToStringValue(b);
  }

  // ---------------------------------------------------------------------
  // Whitespace classes

  /** ECMAScript WhiteSpace or LineTerminator: what `trim` and `parseInt` skip. */
  predicate IsJsSpace(c: char) {
    || c == '\t' || c == '\n' || c == '\U{000B}' || c == '\U{000C}' || c == '\r' || c == ' '
    || c == '\U{00A0}' || c == '\U{1680}' || ('\U{2000}' <= c <= '\U{200A}')
    || c == '\U{2028}' || c == '\U{2029}' || c == '\U{202F}' || c == '\U{205F}'
    || c == '\U{3000}' || c == '\U{FEFF}'
  }

  /** Characters for which Python's `str.isspace` holds: what `str.strip()` removes. */
  predicate IsPySpace(c: char) {
    || ('\t' <= c <= '\r') || ('\U{001C}' <= c <= '\U{001F}') || c == ' '
    || c == '\U{0085}' || c == '\U{00A0}' || c == '\U{1680}' || ('\U{2000}' <= c <= '\U{200A}')
    || c == '\U{2028}' || c == '\U{2029}' || c == '\U{202F}' || c == '\U{205F}' || c == '\U{3000}'
  }

  /** JavaScript `s.trim()` is truthy (non-empty). */
  predicate JsTrimNonEmpty(s: string) {
    exists i | 0 <= i < |s| :: !IsJsSpace(s[i])
  }

  function DropLeadingPySpace(s: string): (r: string)
    ensures |r| <= |s| && r == s[|s| - |r|..]
    ensures |r| > 0 ==> !IsPySpace(r[0])
    ensures forall i | 0 <= i < |s| - |r| :: IsPySpace(s[i])
  {
    if |s| > 0 && IsPySpace(s[0]) then DropLeadingPySpace(s[1..]) else s
  }

  function DropTrailingPySpace(s: string): (r: string)
    ensures |r| <= |s| && r == s[..|r|]
    ensures |r| > 0 ==> !IsPySpace(r[|r| - 1])
    ensures forall i | |r| <= i < |s| :: IsPySpace(s[i])
  {
    if |s| > 0 && IsPySpace(s[|s| - 1]) then DropTrailingPySpace(s[..|s| - 1]) else s
  }

  /** Python `s.strip()`. */
  function PyStrip(s: string): (r: string)
    ensures |r| > 0 ==> !IsPySpace(r[0]) && !IsPySpace(r[|r| - 1])
    ensures |r| == 0 <==> forall i | 0 <= i < |s| :: IsPySpace(s[i])
  {
    var t := DropLeadingPySpace(s);
    StripEmptyIffAllSpace(s, t);
    DropTrailingPySpace(t)
  }

  lemma StripEmptyIffAllSpace(s: string, t: string)
    requires t == DropLeadingPySpace(s)
    ensures |DropTrailingPySpace(t)| == 0 <==> forall i | 0 <= i < |s| :: IsPySpace(s[i])
  {
    var r := DropTrailingPySpace(t);
    if |r| > 0 {
      assert !IsPySpace(s[|s| - |t|]);
    }
  }

  // ---------------------------------------------------------------------
  // Sequence helpers

  /** Position of the first element satisfying `p`, as `Array.prototype.find` / `findIndex` scan. */
  function FirstIndex<T>(s: seq<T>, p: T -> bool): (r: Option<nat>)
    ensures r.Some? ==> r.value < |s| && p(s[r.value]) && forall j | 0 <= j < r.value :: !p(s[j])
    ensures r.None? ==> forall j | 0 <= j < |s| :: !p(s[j])
  {
    if |s| == 0 then None
    else if p(s[0]) then Some(0)
    else
      match FirstIndex(s[1..], p)
      case None => None
      case Some(k) => Some(k + 1)
  }

  /** A map built by inserting `entries` in order, later keys overwriting earlier
      ones (`Map.set` in a loop, or a Python dict filled in a loop). */
  function LastWins<V>(entries: seq<(string, V)>): (m: map<string, V>)
    ensures |entries| > 0 ==> entries[|entries| - 1].0 in m
    decreases |entries|
  {
    if |entries| == 0 then map[]
    else
      var last := entries[|entries| - 1];
      LastWins(entries[..|entries| - 1])[last.0 := last.1]
  }

  /** `entries[i]` is the last entry with key `k`. */
  predicate IsLastEntry<V>(entries: seq<(string, V)>, i: nat, k: string) {
    i < |entries| && entries[i].0 == k && forall j | i < j < |entries| :: entries[j].0 != k
  }

  /** A key is present exactly when some entry has it, and then it maps to the
      value of the last such entry. */
  lemma {:induction false} LastWinsLookup<V>(entries: seq<(string, V)>, k: string)
    ensures k in LastWins(entries) <==> exists i | 0 <= i < |entries| :: entries[i].0 == k
    ensures k in LastWins(entries) ==>
      exists i | 0 <= i < |entries| :: IsLastEntry(entries, i, k) && entries[i].1 == LastWins(entries)[k]
    decreases |entries|
  {
    if |entries| > 0 {
      var n := |entries|;
      var init := entries[..n - 1];
      if entries[n - 1].0 == k {
        assert IsLastEntry(entries, n - 1, k);
      } else {
        LastWinsLookup(init, k);
        assert forall i | 0 <= i < n - 1 :: init[i] == entries[i];
        if k in LastWins(init) {
          var i :| 0 <= i < |init| && IsLastEntry(init, i, k) && init[i].1 == LastWins(init)[k];
          assert IsLastEntry(entries, i, k);
        }
      }
    }
  }

  /** Position of the first occurrence of `x` in `xs`. */
  function IndexOf<T(==)>(xs: seq<T>, x: T): (i: nat)
    requires x in xs
    ensures i < |xs| && xs[i] == x && x !in xs[..i]
  {
    if xs[0] == x then 0
    else
      var k := IndexOf(xs[1..], x);
      assert xs[..k + 1] == [xs[0]] + xs[1..][..k];
      k + 1
  }

  predicate NoDuplicates<T(==)>(xs: seq<T>) {
    forall i, j | 0 <= i < j < |xs| :: xs[i] != xs[j]
  }

  /** Keeps the first occurrence of every element (a list filled through a
      "seen" set). */
  function Dedupe(xs: seq<string>): (r: seq<string>)
    ensures forall x :: x in r <==> x in xs
    decreases |xs|
  {
    if |xs| == 0 then []
    else
      var init := xs[..|xs| - 1];
      var last := xs[|xs| - 1];
      assert xs == init + [last];
      Dedupe(init) + (if last in init then [] else [last])
  }

  /** The deduplicated list has no repeats and lists the elements in the order
      of their first occurrence. */
  lemma {:induction false} DedupeFirstOccurrenceOrder(xs: seq<string>)
    ensures NoDuplicates(Dedupe(xs))
    ensures forall i, j | 0 <= i < j < |Dedupe(xs)| :: IndexOf(xs, Dedupe(xs)[i]) < IndexOf(xs, Dedupe(xs)[j])
    decreases |xs|
  {
    if |xs| > 0 {
      var init := xs[..|xs| - 1];
      var last := xs[|xs| - 1];
      var d := Dedupe(init);
      DedupeFirstOccurrenceOrder(init);
      forall y | y in init ensures IndexOf(xs, y) == IndexOf(init, y) {
        IndexOfPrefix(init, last, y);
      }
      if last !in init {
        assert xs == init + [last];
        assert IndexOf(xs, last) == |xs| - 1 by {
          assert last !in xs[..|xs| - 1];
        }
      }
    }
  }

  /** Concatenation is associative (stated generically, where it is cheap). */
  lemma AppendAssoc<T>(a: seq<T>, b: seq<T>, c: seq<T>)
    ensures (a + b) + c == a + (b + c)
  {
  }

  lemma IndexOfPrefix<T>(init: seq<T>, last: T, y: T)
    requires y in init
    ensures IndexOf(init + [last], y) == IndexOf(init, y)
  {
    var xs := init + [last];
    var i := IndexOf(init, y);
    assert init[..i] == xs[..i];
    FirstOccurrenceUnique(xs, y, i, IndexOf(xs, y));
  }

  lemma FirstOccurrenceUnique<T>(xs: seq<T>, y: T, a: nat, b: nat)
    requires a < |xs| && xs[a] == y && y !in xs[..a]
    requires b < |xs| && xs[b] == y && y !in xs[..b]
    ensures a == b
  {
  }
}
