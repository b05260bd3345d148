/**
 * Base 64 as the browser client uses it: `btoa` over the characters of a byte array (the
 * standard alphabet with `=` padding, section 4 of RFC 4648), the `.replace` chain that turns
 * that into the URL- and filename-safe alphabet without padding (section 5), and the reverse
 * chain `parseJwtPayload` applies before `atob`.
 */
module Base64 {
  import opened Text

  type Byte = b: int | 0 <= b < 256

  /** The six-bit groups of a byte string, most significant first, the last group zero-filled. */
  function Sextets(bytes: seq<Byte>): (vs: seq<nat>)
    ensures |vs| == 4 * (|bytes| / 3) + (if |bytes| % 3 == 0 then 0 else |bytes| % 3 + 1)
    ensures forall k :: 0 <= k < |vs| ==> vs[k] < 64
    decreases |bytes|
  {
    if |bytes| == 0 then []
    else if |bytes| == 1 then [bytes[0] / 4, bytes[0] % 4 * 16]
    else if |bytes| == 2 then [bytes[0] / 4, bytes[0] % 4 * 16 + bytes[1] / 16, bytes[1] % 16 * 4]
    else
      [bytes[0] / 4, bytes[0] % 4 * 16 + bytes[1] / 16, bytes[1] % 16 * 4 + bytes[2] / 64, bytes[2] % 64]
      + Sextets(bytes[3..])
  }

  predicate AllSextets(vs: seq<nat>)
  {
    forall k :: 0 <= k < |vs| ==> vs[k] < 64
  }

  /** The bytes a list of six-bit groups carries: the decoding direction of section 4 of RFC 4648. */
  function Octets(vs: seq<nat>): seq<Byte>
    requires AllSextets(vs)
  {
    if |vs| < 2 then []
    else if |vs| == 2 then [vs[0] * 4 + vs[1] / 16]
    else if |vs| == 3 then [vs[0] * 4 + vs[1] / 16, vs[1] % 16 * 16 + vs[2] / 4]
    else [vs[0] * 4 + vs[1] / 16, vs[1] % 16 * 16 + vs[2] / 4, vs[2] % 4 * 64 + vs[3]] + Octets(vs[4..])
  }

  /** One full group of three bytes survives the split into four sextets and back. */
  lemma GroupRoundTrip(b0: Byte, b1: Byte, b2: Byte)
    ensures (b0 / 4) * 4 + (b0 % 4 * 16 + b1 / 16) / 16 == b0
    ensures (b0 % 4 * 16 + b1 / 16) % 16 * 16 + (b1 % 16 * 4 + b2 / 64) / 4 == b1
    ensures (b1 % 16 * 4 + b2 / 64) % 4 * 64 + b2 % 64 == b2
  {
    assert (b0 % 4 * 16 + b1 / 16) / 16 == b0 % 4;
    assert (b0 % 4 * 16 + b1 / 16) % 16 == b1 / 16;
    assert (b1 % 16 * 4 + b2 / 64) / 4 == b1 % 16;
    assert (b1 % 16 * 4 + b2 / 64) % 4 == b2 / 64;
  }

  /** The sextets of one full group of three bytes. */
  function GroupSextets(b0: Byte, b1: Byte, b2: Byte): seq<nat>
  {
    [b0 / 4, b0 % 4 * 16 + b1 / 16, b1 % 16 * 4 + b2 / 64, b2 % 64]
  }

  lemma OctetsOfGroup(b0: Byte, b1: Byte, b2: Byte, rest: seq<nat>)
    requires AllSextets(rest)
    ensures AllSextets(GroupSextets(b0, b1, b2) + rest)
    ensures Octets(GroupSextets(b0, b1, b2) + rest) == [b0, b1, b2] + Octets(rest)
  {
    var vs := GroupSextets(b0, b1, b2) + rest;
    assert vs[4..] == rest;
    GroupRoundTrip(b0, b1, b2);
  }

  lemma OctetsOfOne(b0: Byte)
    ensures Octets(Sextets([b0])) == [b0]
  {
    var vs := [b0 / 4, b0 % 4 * 16];
    assert Sextets([b0]) == vs;
    assert (b0 % 4 * 16) / 16 == b0 % 4;
  }

  lemma OctetsOfTwo(b0: Byte, b1: Byte)
    ensures Octets(Sextets([b0, b1])) == [b0, b1]
  {
    var vs := [b0 / 4, b0 % 4 * 16 + b1 / 16, b1 % 16 * 4];
    assert Sextets([b0, b1]) == vs;
    assert (b0 % 4 * 16 + b1 / 16) / 16 == b0 % 4;
    assert (b0 % 4 * 16 + b1 / 16) % 16 == b1 / 16;
    assert (b1 % 16 * 4) / 4 == b1 % 16;
  }

  /** Decoding the sextets of a byte string gives the byte string back. */
  lemma {:induction false} OctetsOfSextets(bytes: seq<Byte>)
    ensures Octets(Sextets(bytes)) == bytes
    decreases |bytes|
  {
    if |bytes| == 1 {
      OctetsOfOne(bytes[0]);
      assert bytes == [bytes[0]];
    } else if |bytes| == 2 {
      OctetsOfTwo(bytes[0], bytes[1]);
      assert bytes == [bytes[0], bytes[1]];
    } else if |bytes| >= 3 {
      var rest := Sextets(bytes[3..]);
      assert Sextets(bytes) == GroupSextets(bytes[0], bytes[1], bytes[2]) + rest;
      OctetsOfGroup(bytes[0], bytes[1], bytes[2], rest);
      OctetsOfSextets(bytes[3..]);
      assert bytes == [bytes[0], bytes[1], bytes[2]] + bytes[3..];
    }
  }

  /** The digit for a six-bit value in the standard alphabet, or in the URL-safe one. */
  function Digit(v: nat, urlSafe: bool): char
    requires v < 64
  {
    if v < 26 then ('A' as int + v) as char
    else if v < 52 then ('a' as int + (v - 26)) as char
    else if v < 62 then ('0' as int + (v - 52)) as char
    else if v == 62 then (if urlSafe then '-' else '+')
    else (if urlSafe then '_' else '/')
  }

  /** The digits of the URL-safe alphabet of section 5 of RFC 4648. */
  predicate UrlDigit(c: char)
  {
    'A' <= c <= 'Z' || 'a' <= c <= 'z' || '0' <= c <= '9' || c == '-' || c == '_'
  }

  /** The digits of a byte string, without padding. */
  function Encoded(bytes: seq<Byte>, urlSafe: bool): (r: string)
    ensures |r| == |Sextets(bytes)|
    ensures urlSafe ==> forall k :: 0 <= k < |r| ==> UrlDigit(r[k])
  {
    var vs := Sextets(bytes);
    seq(|vs|, k requires 0 <= k < |vs| => Digit(vs[k], urlSafe))
  }

  /** The `=` characters that fill the last group of four. */
  function Padding(n: nat): (r: string)
    ensures |r| == (3 - n % 3) % 3
    ensures forall k :: 0 <= k < |r| ==> r[k] == '='
  {
    if n % 3 == 1 then "==" else if n % 3 == 2 then "=" else ""
  }

  /** `btoa(String.fromCharCode(...bytes))`. */
  function Btoa(bytes: seq<Byte>): (r: string)
    ensures |r| % 4 == 0
  {
    Encoded(bytes, false) + Padding(|bytes|)
  }

  /** `.replace(/\+/g, '-').replace(/\//g, '_').replace(/=/g, '')`. */
  function ToBase64Url(s: string): (r: string)
    ensures '+' !in r && '/' !in r && '=' !in r
  {
    RemoveChar(ReplaceChar(ReplaceChar(s, '+', '-'), '/', '_'), '=')
  }

  /** `.replace(/-/g, '+').replace(/_/g, '/')`, as in `parseJwtPayload`. */
  function FromBase64Url(s: string): (r: string)
    ensures '-' !in r && '_' !in r
  {
    ReplaceChar(ReplaceChar(s, '-', '+'), '_', '/')
  }

  /** Padding is nothing but `=`, so removing `=` removes all of it. */
  lemma RemovePadding(s: string)
    requires forall k :: 0 <= k < |s| ==> s[k] == '='
    ensures RemoveChar(s, '=') == []
  {
  }

  /**
   * The replace chain turns the padded standard encoding into the unpadded URL-safe one:
   * section 5 of RFC 4648 with the padding its section 3.2 allows to be left out.
   */
  lemma ToBase64UrlOfBtoa(bytes: seq<Byte>)
    ensures ToBase64Url(Btoa(bytes)) == Encoded(bytes, true)
  {
    var std := Encoded(bytes, false);
    var url := Encoded(bytes, true);
    var pad := Padding(|bytes|);
    var swapped := ReplaceChar(ReplaceChar(std + pad, '+', '-'), '/', '_');
    assert swapped == url + pad by {
      assert |swapped| == |url + pad|;
      forall k | 0 <= k < |swapped|
        ensures swapped[k] == (url + pad)[k]
      {
        if k < |std| {
          assert (std + pad)[k] == std[k];
        } else {
          assert (std + pad)[k] == pad[k - |std|];
        }
      }
    }
    RemoveCharAppend(url, pad, '=');
    RemovePadding(pad);
    assert RemoveChar(url, '=') == url by {
      assert '=' !in url by {
        forall k | 0 <= k < |url| ensures url[k] != '=' {
          assert UrlDigit(url[k]);
        }
      }
    }
    assert url + [] == url;
  }

  /** The reverse chain of `parseJwtPayload` turns the URL-safe digits back into standard ones. */
  lemma FromBase64UrlOfEncoded(bytes: seq<Byte>)
    ensures FromBase64Url(Encoded(bytes, true)) == Encoded(bytes, false)
  {
  }

  /** A URL-safe text survives the reverse chain followed by the forward one unchanged. */
  lemma ToFromBase64Url(s: string)
    requires '+' !in s && '/' !in s && '=' !in s
    ensures ToBase64Url(FromBase64Url(s)) == s
  {
    var back := ReplaceChar(ReplaceChar(FromBase64Url(s), '+', '-'), '/', '_');
    assert '=' !in back by {
      forall k | 0 <= k < |back| ensures back[k] != '=' {
        assert s[k] != '=';
      }
    }
    assert back == s by {
      forall k | 0 <= k < |s| ensures back[k] == s[k] {
        assert s[k] != '+' && s[k] != '/';
      }
    }
  }

  /**
   * On text without `-` or `_` (a standard encoding), the forward chain followed by the
   * reverse one loses only the `=` padding.
   */
  lemma {:induction false} FromToBase64Url(s: string)
    requires '-' !in s && '_' !in s
    ensures FromBase64Url(ToBase64Url(s)) == RemoveChar(s, '=')
  {
    if s != [] {
      var t := s[1..];
      assert s == [s[0]] + t;
      var c := s[0];
      var c1 := if c == '+' then '-' else c;
      var c2 := if c1 == '/' then '_' else c1;
      var r1 := ReplaceChar(s, '+', '-');
      var r2 := ReplaceChar(r1, '/', '_');
      assert r1 == [c1] + ReplaceChar(t, '+', '-');
      assert r2[1..] == ReplaceChar(ReplaceChar(t, '+', '-'), '/', '_') by {
        assert r1[1..] == ReplaceChar(t, '+', '-');
      }
      FromToBase64Url(t);
      if c == '=' {
        assert RemoveChar(s, '=') == RemoveChar(t, '=');
        assert ToBase64Url(s) == ToBase64Url(t);
      } else {
        assert RemoveChar(s, '=') == [c] + RemoveChar(t, '=');
        assert ToBase64Url(s) == [c2] + ToBase64Url(t);
        var u := ToBase64Url(t);
        var f1 := ReplaceChar([c2] + u, '-', '+');
        assert f1 == [if c2 == '-' then '+' else c2] + ReplaceChar(u, '-', '+') by {
          assert ([c2] + u)[1..] == u;
        }
        assert FromBase64Url([c2] + u) == [c] + FromBase64Url(u) by {
          assert f1[1..] == ReplaceChar(u, '-', '+');
        }
      }
    }
  }
}
