/**
 * The two percent-encoders the browser client uses: the application/x-www-form-urlencoded
 * serializer behind `URLSearchParams.prototype.toString` and `encodeURIComponent`. A form
 * decoder and a query parser of the same standard are the reference they are proved against:
 * what the client sends is what the identity provider reads.
 */
module UrlEncoding {
  import opened Wrappers
  import opened Text
  import opened Runtime

  predicate IsAscii(s: string)
  {
    forall k :: 0 <= k < |s| ==> (s[k] as int) < 128
  }

  lemma AsciiAppend(a: string, b: string)
    requires IsAscii(a) && IsAscii(b)
    ensures IsAscii(a + b)
  {
    assert forall k :: 0 <= k < |a| ==> (a + b)[k] == a[k];
    assert forall k :: |a| <= k < |a| + |b| ==> (a + b)[k] == b[k - |a|];
  }

  /** An upper-case hexadecimal digit. */
  function HexDigit(d: nat): (c: char)
    requires d < 16
    ensures '0' <= c <= '9' || 'A' <= c <= 'F'
  {
    if d < 10 then ('0' as int + d) as char else ('A' as int + d - 10) as char
  }

  /** The value of a hexadecimal digit of either case. */
  function HexValue(c: char): (v: Option<nat>)
    ensures v.Some? ==> v.value < 16
  {
    if '0' <= c <= '9' then Some(c as int - '0' as int)
    else if 'A' <= c <= 'F' then Some(c as int - 'A' as int + 10)
    else if 'a' <= c <= 'f' then Some(c as int - 'a' as int + 10)
    else None
  }

  lemma HexValueOfDigit(d: nat)
    requires d < 16
    ensures HexValue(HexDigit(d)) == Some(d)
  {
  }

  /** `%XX` for one byte, with upper-case digits. */
  function PercentEscape(b: nat): string
    requires b < 256
  {
    ['%', HexDigit(b / 16), HexDigit(b % 16)]
  }

  /** The characters the form serializer leaves as they are. */
  predicate FormKeeps(c: char)
  {
    c == '*' || c == '-' || c == '.' || c == '_' || '0' <= c <= '9' || 'A' <= c <= 'Z' || 'a' <= c <= 'z'
  }

  /** The characters `encodeURIComponent` leaves as they are. */
  predicate UriComponentKeeps(c: char)
  {
    '0' <= c <= '9' || 'A' <= c <= 'Z' || 'a' <= c <= 'z'
    || c == '-' || c == '_' || c == '.' || c == '!' || c == '~' || c == '*' || c == '\'' || c == '(' || c == ')'
  }

  function FormEncodeChar(c: char, p: Platform): string
  {
    if FormKeeps(c) then [c]
    else if c == ' ' then "+"
    else if (c as int) < 128 then PercentEscape(c as int)
    else p.percentEncodeNonAscii(c)
  }

  /**
   * One name or value as `URLSearchParams` serialises it: space becomes `+`, the kept
   * characters stay, every other character is percent-encoded. Encoded ASCII text can no
   * longer contain the query's own delimiters.
   */
  function FormEncode(s: string, p: Platform): (r: string)
    ensures IsAscii(s) ==> '&' !in r && '=' !in r && '#' !in r
  {
    if s == [] then [] else FormEncodeChar(s[0], p) + FormEncode(s[1..], p)
  }

  function UriComponentEncodeChar(c: char, p: Platform): string
  {
    if UriComponentKeeps(c) then [c]
    else if (c as int) < 128 then PercentEscape(c as int)
    else p.percentEncodeNonAscii(c)
  }

  /** `encodeURIComponent(s)`: encoded ASCII text holds none of the query's delimiters. */
  function EncodeUriComponent(s: string, p: Platform): (r: string)
    ensures IsAscii(s) ==> '&' !in r && '=' !in r && '#' !in r
  {
    if s == [] then [] else UriComponentEncodeChar(s[0], p) + EncodeUriComponent(s[1..], p)
  }

  /**
   * The form decoder: `+` is a space and `%XX` the character with that code; any other
   * character, a lone `%` included, stands for itself. For ASCII text this is exactly the
   * percent-decoding followed by UTF-8 decoding the standard prescribes.
   */
  function FormDecode(s: string): string
  {
    if s == [] then []
    else if s[0] == '+' then " " + FormDecode(s[1..])
    else if s[0] == '%' && |s| >= 3 && HexValue(s[1]).Some? && HexValue(s[2]).Some? then
      [(HexValue(s[1]).value * 16 + HexValue(s[2]).value) as char] + FormDecode(s[3..])
    else [s[0]] + FormDecode(s[1..])
  }

  /** Decoding the escape of an ASCII character gives the character back. */
  lemma DecodePercentEscape(c: char, rest: string)
    requires (c as int) < 128
    ensures FormDecode(PercentEscape(c as int) + rest) == [c] + FormDecode(rest)
  {
    var b := c as int;
    var s := PercentEscape(b) + rest;
    HexValueOfDigit(b / 16);
    HexValueOfDigit(b % 16);
    assert s[0] == '%' && s[1] == HexDigit(b / 16) && s[2] == HexDigit(b % 16);
    assert s[3..] == rest;
    assert (b / 16) * 16 + b % 16 == b;
  }

  lemma DecodeFormChar(c: char, rest: string, p: Platform)
    requires (c as int) < 128
    ensures FormDecode(FormEncodeChar(c, p) + rest) == [c] + FormDecode(rest)
  {
    if FormKeeps(c) {
      assert ([c] + rest)[1..] == rest;
    } else if c == ' ' {
      assert ("+" + rest)[1..] == rest;
    } else {
      DecodePercentEscape(c, rest);
    }
  }

  lemma DecodeUriComponentChar(c: char, rest: string, p: Platform)
    requires (c as int) < 128
    ensures FormDecode(UriComponentEncodeChar(c, p) + rest) == [c] + FormDecode(rest)
  {
    if UriComponentKeeps(c) {
      assert ([c] + rest)[1..] == rest;
    } else {
      DecodePercentEscape(c, rest);
    }
  }

  /** The form decoder inverts the form serializer on ASCII text. */
  lemma {:induction false} FormDecodeEncode(s: string, p: Platform)
    requires IsAscii(s)
    ensures FormDecode(FormEncode(s, p)) == s
  {
    if s != [] {
      assert IsAscii(s[1..]) by {
        assert forall k :: 0 <= k < |s| - 1 ==> s[1..][k] == s[k + 1];
      }
      FormDecodeEncode(s[1..], p);
      DecodeFormChar(s[0], FormEncode(s[1..], p), p);
      assert s == [s[0]] + s[1..];
    }
  }

  /** The form decoder inverts `encodeURIComponent` on ASCII text (which encodes `+` itself). */
  lemma {:induction false} FormDecodeUriComponent(s: string, p: Platform)
    requires IsAscii(s)
    ensures FormDecode(EncodeUriComponent(s, p)) == s
  {
    if s != [] {
      assert IsAscii(s[1..]) by {
        assert forall k :: 0 <= k < |s| - 1 ==> s[1..][k] == s[k + 1];
      }
      FormDecodeUriComponent(s[1..], p);
      DecodeUriComponentChar(s[0], EncodeUriComponent(s[1..], p), p);
      assert s == [s[0]] + s[1..];
    }
  }

  /** `name=value` as `URLSearchParams` serialises one entry. */
  function EncodePair(name: string, value: string, p: Platform): string
  {
    FormEncode(name, p) + "=" + FormEncode(value, p)
  }

  function EncodePairs(pairs: seq<(string, string)>, p: Platform): (parts: seq<string>)
    ensures |parts| == |pairs|
    ensures forall k :: 0 <= k < |pairs| ==> parts[k] == EncodePair(pairs[k].0, pairs[k].1, p)
  {
    if pairs == [] then [] else [EncodePair(pairs[0].0, pairs[0].1, p)] + EncodePairs(pairs[1..], p)
  }

  /** `new URLSearchParams(pairs).toString()`: the encoded entries in order, joined by `&`. */
  function Query(pairs: seq<(string, string)>, p: Platform): string
  {
    Join(EncodePairs(pairs, p), '&')
  }

  /** One entry of a query: the name before the first `=`, the value after it (empty without one). */
  function DecodePair(part: string): (string, string)
  {
    var pieces := Split(part, '=');
    if |pieces| == 1 then (FormDecode(pieces[0]), "")
    else (FormDecode(pieces[0]), FormDecode(Join(pieces[1..], '=')))
  }

  function DecodePairs(parts: seq<string>): seq<(string, string)>
  {
    if parts == [] then []
    else if parts[0] == "" then DecodePairs(parts[1..])
    else [DecodePair(parts[0])] + DecodePairs(parts[1..])
  }

  /** The form parser: the `&`-separated entries, empty ones skipped, each decoded. */
  function ParseQuery(q: string): seq<(string, string)>
  {
    DecodePairs(Split(q, '&'))
  }

  predicate AsciiPairs(pairs: seq<(string, string)>)
  {
    forall k :: 0 <= k < |pairs| ==> IsAscii(pairs[k].0) && IsAscii(pairs[k].1)
  }

  /** An encoded ASCII entry decodes to its name and value. */
  lemma DecodeEncodedPair(name: string, value: string, p: Platform)
    requires IsAscii(name) && IsAscii(value)
    ensures DecodePair(EncodePair(name, value, p)) == (name, value)
  {
    var a := FormEncode(name, p);
    var b := FormEncode(value, p);
    JoinCons(a, [b], '=');
    assert Join([a, b], '=') == EncodePair(name, value, p);
    SplitJoin([a, b], '=');
    assert [a, b][1..] == [b];
    FormDecodeEncode(name, p);
    FormDecodeEncode(value, p);
  }

  lemma {:induction false} DecodeEncodedPairs(pairs: seq<(string, string)>, p: Platform)
    requires AsciiPairs(pairs)
    ensures DecodePairs(EncodePairs(pairs, p)) == pairs
  {
    if pairs != [] {
      var parts := EncodePairs(pairs, p);
      assert parts[0] != "" by {
        assert parts[0][|FormEncode(pairs[0].0, p)|] == '=';
      }
      assert parts[1..] == EncodePairs(pairs[1..], p);
      DecodeEncodedPair(pairs[0].0, pairs[0].1, p);
      DecodeEncodedPairs(pairs[1..], p);
    }
  }

  lemma EncodedPairsAmpersandFree(pairs: seq<(string, string)>, p: Platform)
    requires AsciiPairs(pairs)
    ensures forall k :: 0 <= k < |pairs| ==> '&' !in EncodePairs(pairs, p)[k]
  {
    forall k | 0 <= k < |pairs| ensures '&' !in EncodePairs(pairs, p)[k] {
      assert IsAscii(pairs[k].0) && IsAscii(pairs[k].1);
    }
  }

  /** An entry whose name and value hold no `=` splits at its one `=`. */
  lemma SplitEntry(name: string, value: string)
    requires '=' !in name && '=' !in value
    ensures Split(name + "=" + value, '=') == [name, value]
  {
    assert [name] + [value] == [name, value];
    JoinCons(name, [value], '=');
    SplitJoin([name, value], '=');
  }

  lemma ParseOnePart(q: string)
    requires q != [] && '&' !in q
    ensures ParseQuery(q) == [DecodePair(q)]
  {
    var parts := [q];
    assert Split(q, '&') == parts;
    assert DecodePairs(parts) == [DecodePair(q)] + DecodePairs(parts[1..]);
    assert parts[1..] == [];
  }

  /** A query of one `name=value` entry, neither part holding a delimiter, parses to that entry. */
  lemma ParseSingleEntry(name: string, value: string)
    requires '&' !in name && '=' !in name && '&' !in value && '=' !in value
    ensures ParseQuery(name + "=" + value) == [(FormDecode(name), FormDecode(value))]
  {
    var q := name + "=" + value;
    SplitEntry(name, value);
    assert [name, value][1..] == [value];
    assert DecodePair(q) == (FormDecode(name), FormDecode(value));
    ParseOnePart(q);
  }

  /** Parsing a serialised query of ASCII entries gives back the entries, in order. */
  lemma QueryRoundTrip(pairs: seq<(string, string)>, p: Platform)
    requires |pairs| >= 1
    requires AsciiPairs(pairs)
    ensures ParseQuery(Query(pairs, p)) == pairs
  {
    EncodedPairsAmpersandFree(pairs, p);
    SplitJoin(EncodePairs(pairs, p), '&');
    DecodeEncodedPairs(pairs, p);
  }
}
