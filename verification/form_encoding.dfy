/** `URLSearchParams.prototype.toString`: the application/x-www-form-urlencoded
    serializer of the WHATWG URL Standard (section 5.2). Each character is
    taken as its UTF-8 bytes; `*-._`, ASCII digits and letters stay, a space
    becomes `+`, every other byte becomes `%XX` with upper-case hex. */
module FormEncoding {
  import opened Util

  /** UTF-8 encoding of one Unicode scalar value. */
  function Utf8(c: char): (bytes: seq<nat>)
    ensures 1 <= |bytes| <= 4
    ensures forall i | 0 <= i < |bytes| :: bytes[i] < 256
    ensures (c as int) < 0x80 <==> |bytes| == 1
    ensures |bytes| == 1 ==> bytes[0] == c as int
  {
    var cp := c as int;
    if cp < 0x80 then [cp]
    else if cp < 0x800 then [0xC0 + cp / 64, 0x80 + cp % 64]
    else if cp < 0x10000 then [0xE0 + cp / 4096, 0x80 + (cp / 64) % 64, 0x80 + cp % 64]
    else [0xF0 + cp / 262144, 0x80 + (cp / 4096) % 64, 0x80 + (cp / 64) % 64, 0x80 + cp % 64]
  }

  /** Bytes the serializer leaves as they are. */
  predicate IsUnreservedByte(b: nat) {
    b == 0x2A || b == 0x2D || b == 0x2E || b == 0x5F
    || (0x30 <= b <= 0x39) || (0x41 <= b <= 0x5A) || (0x61 <= b <= 0x7A)
  }

  function HexUpper(d: nat): (c: char)
    requires d < 16
    ensures IsDigit(c) || ('A' <= c <= 'F')
  {
    if d < 10 then DigitChar(d) else (('A' as int) + d - 10) as char
  }

  /** Characters a serialized component can contain. */
  predicate IsEncodedChar(c: char) {
    c == '+' || c == '%' || IsUnreservedByte(c as int)
  }

  function EncodeByte(b: nat): (r: string)
    requires b < 256
    ensures forall i | 0 <= i < |r| :: IsEncodedChar(r[i])
  {
    if IsUnreservedByte(b) then [b as char]
    else if b == 0x20 then "+"
    else ['%', HexUpper(b / 16), HexUpper(b % 16)]
  }

  function EncodeBytes(bytes: seq<nat>): (r: string)
    requires forall i | 0 <= i < |bytes| :: bytes[i] < 256
    ensures forall i | 0 <= i < |r| :: IsEncodedChar(r[i])
  {
    if |bytes| == 0 then "" else EncodeByte(bytes[0]) + EncodeBytes(bytes[1..])
  }

  /** Serializes one name or value. */
  function Encode(s: string): (r: string)
    ensures forall i | 0 <= i < |r| :: IsEncodedChar(r[i])
  {
    if |s| == 0 then "" else EncodeBytes(Utf8(s[0])) + Encode(s[1..])
  }

  /** Serializes a list of name/value pairs: `n1=v1&n2=v2&...`. */
  function Serialize(pairs: seq<(string, string)>): string {
    Join(EncodedPairs(pairs), "&")
  }

  function EncodedPairs(pairs: seq<(string, string)>): (r: seq<string>)
    ensures |r| == |pairs|
    ensures forall i | 0 <= i < |pairs| :: r[i] == Encode(pairs[i].0) + "=" + Encode(pairs[i].1)
  {
    if |pairs| == 0 then [] else [Encode(pairs[0].0) + "=" + Encode(pairs[0].1)] + EncodedPairs(pairs[1..])
  }

  /** A string made only of unreserved ASCII characters is serialized unchanged. */
  lemma {:induction false} EncodeUnreserved(s: string)
    requires forall i | 0 <= i < |s| :: IsUnreservedByte(s[i] as int)
    ensures Encode(s) == s
  {
    if |s| > 0 {
      EncodeUnreserved(s[1..]);
      assert Utf8(s[0]) == [s[0] as int];
      assert EncodeBytes([s[0] as int]) == [s[0]];
      assert s == [s[0]] + s[1..];
    }
  }

  /** A serialized component never contains the pair or name/value separators. */
  lemma EncodeHasNoSeparators(s: string)
    ensures '&' !in Encode(s) && '=' !in Encode(s) && '?' !in Encode(s)
  {
  }

  /** The serialized query splits on `&` into exactly one `name=value` piece per
      pair, in order: a reader of the query sees the parameters that were given. */
  lemma SerializeSplitsIntoPairs(pairs: seq<(string, string)>)
    requires |pairs| >= 1
    ensures Split(Serialize(pairs), '&') == EncodedPairs(pairs)
  {
    var e := EncodedPairs(pairs);
    forall i | 0 <= i < |e| ensures '&' !in e[i] {
      EncodeHasNoSeparators(pairs[i].0);
      EncodeHasNoSeparators(pairs[i].1);
    }
    SplitJoin(e, '&');
  }
}
