/**
 * json_encode of the checkout's item list: an array of objects with the
 * keys "name", "quantity" and "value", in that order, with a decoder for
 * exactly that shape as its reference partner.
 *
 * Strings are escaped the way json_encode escapes '"', '\' and '/'. Its
 * escapes of control characters (\b, \f, \n, \r, \t and \u00XX) and of
 * non-ASCII text (\uXXXX) are not modelled: such characters are written raw.
 */
module ItemsJson {
  import opened Wrappers
  import opened Decimal

  /** one entry of the checkout's items array */
  datatype Item = Item(name: string, quantity: int, value: string)

  function EscapeChar(c: char): string {
    if c == '"' then "\\\""
    else if c == '\\' then "\\\\"
    else if c == '/' then "\\/"
    else [c]
  }

  function Escape(s: string): string {
    if s == [] then [] else EscapeChar(s[0]) + Escape(s[1..])
  }

  /** one object, keys in the order the checkout writes them */
  function EncodeItem(it: Item): string {
    "{\"name\":\"" + Escape(it.name) + "\"" + ",\"quantity\":" + ShowInt(it.quantity)
    + ",\"value\":\"" + Escape(it.value) + "\"" + "}"
  }

  function EncodeElements(items: seq<Item>): string {
    if |items| == 0 then ""
    else if |items| == 1 then EncodeItem(items[0])
    else EncodeItem(items[0]) + "," + EncodeElements(items[1..])
  }

  /** json_encode of a list of items */
  function EncodeItems(items: seq<Item>): string {
    "[" + EncodeElements(items) + "]"
  }

  // Decoding: each parser returns what it read and the text after it.

  function Literal(lit: string, s: string): (r: Option<string>)
    ensures r.Some? ==> |r.value| == |s| - |lit|
  {
    if lit <= s then Some(s[|lit|..]) else None
  }

  /** the characters of a JSON string up to its closing quote, unescaped */
  function StringBody(s: string): (r: Option<(string, string)>)
    ensures r.Some? ==> |r.value.1| < |s|
  {
    if s == [] then None
    else if s[0] == '"' then Some(([], s[1..]))
    else if s[0] == '\\' then
      if |s| >= 2 && (s[1] == '"' || s[1] == '\\' || s[1] == '/') then
        var (body, rest) :- StringBody(s[2..]);
        Some(([s[1]] + body, rest))
      else None
    else
      var (body, rest) :- StringBody(s[1..]);
      Some(([s[0]] + body, rest))
  }

  /** a run of decimal digits and its value */
  function Natural(s: string): (r: Option<(nat, string)>)
    ensures r.Some? ==> |r.value.1| < |s|
  {
    var n := DigitRun(s);
    if n == 0 then None else Some((Value(s[..n]), s[n..]))
  }

  /** a JSON integer: an optional '-' and a run of digits */
  function Integer(s: string): (r: Option<(int, string)>)
    ensures r.Some? ==> |r.value.1| < |s|
  {
    if |s| > 0 && s[0] == '-' then
      var (m, rest) :- Natural(s[1..]);
      Some((-(m as int), rest))
    else
      var (m, rest) :- Natural(s);
      Some((m as int, rest))
  }

  function ItemOf(s: string): (r: Option<(Item, string)>)
    ensures r.Some? ==> |r.value.1| < |s|
  {
    var s1 :- Literal("{\"name\":\"", s);
    var (name, s2) :- StringBody(s1);
    var s3 :- Literal(",\"quantity\":", s2);
    var (quantity, s4) :- Integer(s3);
    var s5 :- Literal(",\"value\":\"", s4);
    var (value, s6) :- StringBody(s5);
    var s7 :- Literal("}", s6);
    Some((Item(name, quantity, value), s7))
  }

  function ElementsOf(s: string): (r: Option<(seq<Item>, string)>)
    ensures r.Some? ==> |r.value.1| < |s|
    decreases |s|
  {
    var (first, rest) :- ItemOf(s);
    if |rest| > 0 && rest[0] == ',' then
      var (others, after) :- ElementsOf(rest[1..]);
      Some(([first] + others, after))
    else Some(([first], rest))
  }

  /** reads back a JSON array of items; None for any other text */
  function DecodeItems(s: string): Option<seq<Item>> {
    var s1 :- Literal("[", s);
    if s1 == "]" then Some([])
    else
      var (items, s2) :- ElementsOf(s1);
      if s2 == "]" then Some(items) else None
  }

  /** json_encode leaves text without '"', '\\' and '/' as it is */
  lemma {:induction false} EscapePlain(s: string)
    requires forall i | 0 <= i < |s| :: s[i] != '"' && s[i] != '\\' && s[i] != '/'
    ensures Escape(s) == s
  {
    if s != [] {
      EscapePlain(s[1..]);
      assert [s[0]] + s[1..] == s;
    }
  }

  lemma {:induction false} StringBodyOfEscape(x: string, rest: string)
    ensures StringBody(Escape(x) + "\"" + rest) == Some((x, rest))
  {
    var s := Escape(x) + "\"" + rest;
    if x == [] {
      assert s == "\"" + rest;
      assert s[1..] == rest;
    } else {
      var e := EscapeChar(x[0]);
      assert s == e + (Escape(x[1..]) + "\"" + rest);
      StringBodyOfEscape(x[1..], rest);
      assert s[|e|..] == Escape(x[1..]) + "\"" + rest;
      assert [x[0]] + x[1..] == x;
    }
  }

  lemma IntegerOfShow(i: int, rest: string)
    requires rest == [] || !IsDigit(rest[0])
    ensures Integer(ShowInt(i) + rest) == Some((i, rest))
  {
    if i < 0 {
      assert ShowInt(i) == "-" + Show(-i);
      Regroup3("-", Show(-i), rest);
      NegativeOfShow(-i, rest);
    } else {
      assert ShowInt(i) == Show(i);
      NonNegativeOfShow(i, rest);
    }
  }

  lemma NonNegativeOfShow(n: nat, rest: string)
    requires rest == [] || !IsDigit(rest[0])
    ensures Integer(Show(n) + rest) == Some((n as int, rest))
  {
    ValueOfShow(n);
    ShowDigits(n);
    UnsignedDigits(Show(n), rest);
  }

  lemma NegativeOfShow(n: nat, rest: string)
    requires rest == [] || !IsDigit(rest[0])
    ensures Integer("-" + (Show(n) + rest)) == Some((-(n as int), rest))
  {
    ValueOfShow(n);
    ShowDigits(n);
    NaturalOfDigits(Show(n), rest);
    SignedDigits(Show(n) + rest, n, rest);
  }

  lemma NaturalOfDigits(d: string, rest: string)
    requires |d| > 0 && AllDigits(d)
    requires rest == [] || !IsDigit(rest[0])
    ensures Natural(d + rest) == Some((Value(d), rest))
  {
    DigitRunOfDigits(d, rest);
    assert (d + rest)[..|d|] == d;
    assert (d + rest)[|d|..] == rest;
  }

  lemma UnsignedDigits(d: string, rest: string)
    requires |d| > 0 && AllDigits(d)
    requires rest == [] || !IsDigit(rest[0])
    ensures Integer(d + rest) == Some((Value(d) as int, rest))
  {
    NaturalOfDigits(d, rest);
    assert (d + rest)[0] == d[0];
  }

  lemma SignedDigits(t: string, m: nat, rest: string)
    requires Natural(t) == Some((m, rest))
    ensures Integer("-" + t) == Some((-(m as int), rest))
  {
    var s := "-" + t;
    assert s[0] == '-';
    assert s[1..] == t;
    Negated(s, m, rest);
  }

  lemma Negated(s: string, m: nat, rest: string)
    requires |s| > 0 && s[0] == '-'
    requires Natural(s[1..]) == Some((m, rest))
    ensures Integer(s) == Some((-(m as int), rest))
  {
  }

  lemma LiteralOfPrefix(lit: string, rest: string)
    ensures Literal(lit, lit + rest) == Some(rest)
  {
    assert (lit + rest)[..|lit|] == lit;
    assert (lit + rest)[|lit|..] == rest;
  }

  /** EncodeItem written as one right-nested concatenation, in the order ItemOf reads it */
  lemma EncodeItemNested(it: Item, rest: string)
    ensures EncodeItem(it) + rest
      == "{\"name\":\"" + (Escape(it.name) + "\"" + (",\"quantity\":" + (ShowInt(it.quantity)
         + (",\"value\":\"" + (Escape(it.value) + "\"" + ("}" + rest))))))
  {
    Nine("{\"name\":\"", Escape(it.name), "\"", ",\"quantity\":", ShowInt(it.quantity),
      ",\"value\":\"", Escape(it.value), "\"", "}", rest);
  }

  lemma ItemOfEncoding(it: Item, rest: string)
    ensures ItemOf(EncodeItem(it) + rest) == Some((it, rest))
  {
    var s7 := rest;
    var s6 := "}" + s7;
    var s5 := Escape(it.value) + "\"" + s6;
    var s4 := ",\"value\":\"" + s5;
    var s3 := ShowInt(it.quantity) + s4;
    var s2 := ",\"quantity\":" + s3;
    var s1 := Escape(it.name) + "\"" + s2;
    EncodeItemNested(it, rest);
    assert EncodeItem(it) + rest == "{\"name\":\"" + s1;
    LiteralOfPrefix("{\"name\":\"", s1);
    StringBodyOfEscape(it.name, s2);
    LiteralOfPrefix(",\"quantity\":", s3);
    IntegerOfShow(it.quantity, s4);
    LiteralOfPrefix(",\"value\":\"", s5);
    StringBodyOfEscape(it.value, s6);
    LiteralOfPrefix("}", s7);
  }

  lemma ElementsOfNext(s: string, first: Item, tail: string)
    requires ItemOf(s) == Some((first, "," + tail))
    ensures ElementsOf(s) == match ElementsOf(tail)
      case Some((others, after)) => Some(([first] + others, after))
      case None => None
  {
    assert ("," + tail)[1..] == tail;
  }

  lemma ElementsOfLast(s: string, last: Item, rest: string)
    requires ItemOf(s) == Some((last, rest))
    requires rest == [] || rest[0] != ','
    ensures ElementsOf(s) == Some(([last], rest))
  {
  }

  lemma {:induction false} ElementsOfEncoding(items: seq<Item>, rest: string)
    requires |items| >= 1
    requires rest == [] || rest[0] != ','
    ensures ElementsOf(EncodeElements(items) + rest) == Some((items, rest))
  {
    if |items| == 1 {
      ItemOfEncoding(items[0], rest);
      assert EncodeElements(items) == EncodeItem(items[0]);
      ElementsOfLast(EncodeItem(items[0]) + rest, items[0], rest);
      assert items == [items[0]];
    } else {
      var tail := EncodeElements(items[1..]) + rest;
      Regroup(EncodeItem(items[0]), EncodeElements(items[1..]), rest);
      ItemOfEncoding(items[0], "," + tail);
      ElementsOfNext(EncodeItem(items[0]) + ("," + tail), items[0], tail);
      ElementsOfEncoding(items[1..], rest);
      assert [items[0]] + items[1..] == items;
    }
  }

  lemma ElementsOpenWithBrace(items: seq<Item>)
    requires |items| >= 1
    ensures EncodeElements(items)[0] == '{'
  {
    var e := EncodeItem(items[0]);
    assert e[0] == '{';
    if |items| > 1 {
      assert EncodeElements(items) == e + "," + EncodeElements(items[1..]);
    }
  }

  /** Reading back what json_encode wrote gives the same items, in the same order. */
  lemma DecodeEncodeItems(items: seq<Item>)
    ensures DecodeItems(EncodeItems(items)) == Some(items)
  {
    assert EncodeItems(items) == "[" + (EncodeElements(items) + "]");
    LiteralOfPrefix("[", EncodeElements(items) + "]");
    if items != [] {
      ElementsOpenWithBrace(items);
      assert (EncodeElements(items) + "]")[0] == '{';
      ElementsOfEncoding(items, "]");
    }
  }

  // Solver steps: associativity of '+', spelled out for the proofs above.

  lemma Regroup3(a: string, b: string, c: string)
    ensures a + b + c == a + (b + c)
  {
  }

  lemma Regroup(a: string, b: string, rest: string)
    ensures a + "," + b + rest == a + ("," + (b + rest))
  {
  }

  lemma Nine(a: string, b: string, c: string, d: string, e: string, f: string, g: string, h: string, i: string, rest: string)
    ensures a + b + c + d + e + f + g + h + i + rest
      == a + (b + c + (d + (e + (f + (g + h + (i + rest))))))
  {
  }
}
