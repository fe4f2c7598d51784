/**
 * PHP's urlencode and http_build_query, with PHP's urldecode and a
 * form-query parser as their reference partners.
 *
 * A PHP string is a byte string; the model writes it as a Dafny string
 * whose characters below 256 stand for bytes. Characters from 256 up do
 * not occur in PHP strings; the encoder passes them through unchanged so
 * that every function here is total.
 */
module FormEncoding {

  /** the bytes urlencode leaves as they are: ASCII letters, digits, '-', '_', '.' */
  predicate IsUnreserved(c: char) {
    ('a' <= c <= 'z') || ('A' <= c <= 'Z') || ('0' <= c <= '9') || c == '-' || c == '_' || c == '.'
  }

  predicate IsHexDigit(c: char) {
    ('0' <= c <= '9') || ('A' <= c <= 'F') || ('a' <= c <= 'f')
  }

  /** a character that may appear in urlencode's output */
  predicate IsEncodedChar(c: char) {
    IsUnreserved(c) || c == '+' || c == '%' || c as int >= 256
  }

  predicate IsEncoded(s: string) {
    forall i | 0 <= i < |s| :: IsEncodedChar(s[i])
  }

  function HexDigit(d: nat): (c: char)
    requires d < 16
    ensures IsHexDigit(c) && IsUnreserved(c)
  {
    "0123456789ABCDEF"[d]
  }

  function HexValue(c: char): (d: nat)
    requires IsHexDigit(c)
    ensures d < 16
  {
    if '0' <= c <= '9' then c as int - '0' as int
    else if 'A' <= c <= 'F' then c as int - 'A' as int + 10
    else c as int - 'a' as int + 10
  }

  lemma HexValueOfDigit(d: nat)
    requires d < 16
    ensures HexValue(HexDigit(d)) == d
  {
  }

  /** urlencode of one byte: itself, '+' for a space, or '%' and two upper-case hex digits */
  function EncodeChar(c: char): (r: string)
    ensures 1 <= |r| <= 3
  {
    if IsUnreserved(c) then [c]
    else if c == ' ' then "+"
    else if c as int < 256 then ['%', HexDigit(c as int / 16), HexDigit(c as int % 16)]
    else [c]
  }

  /** PHP's urlencode */
  function Urlencode(s: string): (r: string)
    ensures |r| >= |s|
  {
    if s == [] then [] else EncodeChar(s[0]) + Urlencode(s[1..])
  }

  lemma EncodeCharEncoded(c: char)
    ensures IsEncoded(EncodeChar(c))
  {
    if !IsUnreserved(c) && c != ' ' && c as int < 256 {
      var e := EncodeChar(c);
      assert e[1] == HexDigit(c as int / 16) && e[2] == HexDigit(c as int % 16);
    }
  }

  /** urlencode's output holds only unreserved bytes, '+' and '%' (and the characters from 256 up) */
  lemma {:induction false} UrlencodeEncoded(s: string)
    ensures IsEncoded(Urlencode(s))
  {
    if s != [] {
      EncodeCharEncoded(s[0]);
      UrlencodeEncoded(s[1..]);
      var a, b := EncodeChar(s[0]), Urlencode(s[1..]);
      assert forall i | 0 <= i < |a + b| :: (a + b)[i] == if i < |a| then a[i] else b[i - |a|];
    }
  }

  /** PHP's urldecode: '+' is a space, '%' with two hex digits a byte, anything else itself */
  function Urldecode(s: string): string {
    if s == [] then []
    else if s[0] == '+' then " " + Urldecode(s[1..])
    else if s[0] == '%' && |s| >= 3 && IsHexDigit(s[1]) && IsHexDigit(s[2]) then
      [(HexValue(s[1]) * 16 + HexValue(s[2])) as char] + Urldecode(s[3..])
    else [s[0]] + Urldecode(s[1..])
  }

  lemma DecodeEncodedChar(c: char, rest: string)
    ensures Urldecode(EncodeChar(c) + rest) == [c] + Urldecode(rest)
  {
    var e := EncodeChar(c) + rest;
    if IsUnreserved(c) || c as int >= 256 {
      assert e[1..] == rest;
    } else if c == ' ' {
      assert e[1..] == rest;
    } else {
      HexValueOfDigit(c as int / 16);
      HexValueOfDigit(c as int % 16);
      assert e[3..] == rest;
    }
  }

  lemma {:induction false} DecodeEncode(s: string)
    ensures Urldecode(Urlencode(s)) == s
  {
    if s != [] {
      DecodeEncodedChar(s[0], Urlencode(s[1..]));
      DecodeEncode(s[1..]);
    }
  }

  lemma {:induction false} EncodeAppend(a: string, b: string)
    ensures Urlencode(a + b) == Urlencode(a) + Urlencode(b)
  {
    if a == [] {
      assert a + b == b;
    } else {
      assert (a + b)[0] == a[0];
      assert (a + b)[1..] == a[1..] + b;
      EncodeAppend(a[1..], b);
      calc {
        Urlencode(a + b);
        EncodeChar(a[0]) + Urlencode(a[1..] + b);
        EncodeChar(a[0]) + (Urlencode(a[1..]) + Urlencode(b));
        (EncodeChar(a[0]) + Urlencode(a[1..])) + Urlencode(b);
      }
    }
  }

  /** urlencode leaves a string of unreserved bytes as it is */
  predicate AllUnreserved(s: string) {
    forall i | 0 <= i < |s| :: IsUnreserved(s[i])
  }

  lemma {:induction false} EncodeUnreserved(s: string)
    requires AllUnreserved(s)
    ensures Urlencode(s) == s
  {
    if s != [] {
      EncodeUnreserved(s[1..]);
    }
  }

  /** one key=value pair of http_build_query */
  function EncodePair(p: (string, string)): string {
    Urlencode(p.0) + "=" + Urlencode(p.1)
  }

  /** PHP's http_build_query on a list of string values, with the default '&' separator */
  function BuildQuery(ps: seq<(string, string)>): string {
    if |ps| == 0 then ""
    else if |ps| == 1 then EncodePair(ps[0])
    else EncodePair(ps[0]) + "&" + BuildQuery(ps[1..])
  }

  /** s cut at every occurrence of sep, in order */
  function Split(s: string, sep: char): (parts: seq<string>)
    ensures |parts| >= 1
  {
    if s == [] then [[]]
    else
      var tail := Split(s[1..], sep);
      if s[0] == sep then [[]] + tail else [[s[0]] + tail[0]] + tail[1..]
  }

  /** s cut at its first sep; the whole of s and "" when there is none */
  function CutAt(s: string, sep: char): (string, string) {
    if s == [] then ([], [])
    else if s[0] == sep then ([], s[1..])
    else
      var (before, after) := CutAt(s[1..], sep);
      ([s[0]] + before, after)
  }

  function DecodePairs(pieces: seq<string>): seq<(string, string)> {
    if pieces == [] then []
    else if pieces[0] == [] then DecodePairs(pieces[1..])
    else
      var (k, v) := CutAt(pieces[0], '=');
      [(Urldecode(k), Urldecode(v))] + DecodePairs(pieces[1..])
  }

  /**
   * How the receiving end reads a form-encoded query: the pieces between
   * '&', each cut at its first '=', both halves urldecoded; empty pieces
   * are skipped, as PHP's parse_str skips them.
   */
  function ParseQuery(q: string): seq<(string, string)> {
    if q == [] then [] else DecodePairs(Split(q, '&'))
  }

  lemma {:induction false} SplitWithout(a: string, sep: char)
    requires sep !in a
    ensures Split(a, sep) == [a]
  {
    if a != [] {
      SplitWithout(a[1..], sep);
      assert [a[0]] + a[1..] == a;
    }
  }

  lemma {:induction false} SplitAtSep(a: string, b: string, sep: char)
    requires sep !in a
    ensures Split(a + [sep] + b, sep) == [a] + Split(b, sep)
  {
    var s := a + [sep] + b;
    if a == [] {
      assert s[1..] == b;
    } else {
      assert s[0] == a[0] && s[1..] == a[1..] + [sep] + b;
      SplitAtSep(a[1..], b, sep);
      assert [a[0]] + a[1..] == a;
    }
  }

  lemma {:induction false} CutAtSep(a: string, b: string, sep: char)
    requires sep !in a
    ensures CutAt(a + [sep] + b, sep) == (a, b)
  {
    var s := a + [sep] + b;
    if a == [] {
      assert s[1..] == b;
    } else {
      assert s[0] == a[0] && s[1..] == a[1..] + [sep] + b;
      CutAtSep(a[1..], b, sep);
      assert [a[0]] + a[1..] == a;
    }
  }

  function Pieces(ps: seq<(string, string)>): (r: seq<string>)
    ensures |r| == |ps|
  {
    if ps == [] then [] else [EncodePair(ps[0])] + Pieces(ps[1..])
  }

  lemma {:induction false} PiecesAt(ps: seq<(string, string)>)
    ensures forall i | 0 <= i < |ps| :: Pieces(ps)[i] == EncodePair(ps[i])
  {
    if ps != [] {
      PiecesAt(ps[1..]);
      assert forall i | 1 <= i < |ps| :: Pieces(ps)[i] == Pieces(ps[1..])[i - 1];
    }
  }

  lemma {:induction false} SplitQuery(ps: seq<(string, string)>)
    requires |ps| >= 1
    ensures Split(BuildQuery(ps), '&') == Pieces(ps)
  {
    var first := EncodePair(ps[0]);
    assert '&' !in first by {
      UrlencodeEncoded(ps[0].0);
      UrlencodeEncoded(ps[0].1);
      assert first == Urlencode(ps[0].0) + "=" + Urlencode(ps[0].1);
    }
    if |ps| == 1 {
      SplitWithout(first, '&');
    } else {
      SplitAtSep(first, BuildQuery(ps[1..]), '&');
      SplitQuery(ps[1..]);
    }
  }

  lemma {:induction false} DecodePieces(ps: seq<(string, string)>)
    ensures DecodePairs(Pieces(ps)) == ps
  {
    if ps != [] {
      var (k, v) := ps[0];
      UrlencodeEncoded(k);
      assert '=' !in Urlencode(k);
      CutAtSep(Urlencode(k), Urlencode(v), '=');
      DecodeEncode(k);
      DecodeEncode(v);
      assert Pieces(ps)[1..] == Pieces(ps[1..]);
      DecodePieces(ps[1..]);
    }
  }

  /** Reading back what http_build_query wrote gives the same pairs, in the same order. */
  lemma ParseBuildQuery(ps: seq<(string, string)>)
    ensures ParseQuery(BuildQuery(ps)) == ps
  {
    if ps != [] {
      var q := BuildQuery(ps);
      assert q != [] by {
        if |ps| == 1 { assert |EncodePair(ps[0])| >= 1; } else { assert |q| > |EncodePair(ps[0])|; }
      }
      SplitQuery(ps);
      DecodePieces(ps);
    }
  }
}
