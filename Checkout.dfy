/**
 * WC_Gateway_InfinitePay::process_payment: the order's line items become a
 * JSON items list, six query parameters are assembled and form-encoded,
 * and the customer is sent to the hosted checkout at
 * https://checkout.infinitepay.io/<handle>?<query>. A QR-chart URL for the
 * same link is recorded on the order as a note.
 */
module Checkout {
  import opened Wrappers
  import opened FormEncoding
  import opened ItemsJson
  import opened NumberFormat
  import opened Orders
  import opened Site
  import opened Decimal

  const CHECKOUT_BASE := "https://checkout.infinitepay.io/"
  const QR_CHART := "https://chart.googleapis.com/chart?chs=300x300&cht=qr&chl="
  const RETURN_PATH := "/infinitepay-return?order_nsu="

  /** the array process_payment returns to WooCommerce */
  datatype PaymentResult = PaymentResult(result: string, redirect: string)

  /** the items entry for one line: its name, its quantity and its total written to two decimals */
  function ItemOfLine(line: LineItem): (it: Item)
    ensures it.name == line.name && it.quantity == line.quantity
    ensures ParseCents(it.value) == Some(line.totalCents)
  {
    ParseFormatCents(line.totalCents);
    Item(line.name, line.quantity, FormatCents(line.totalCents))
  }

  /** the items list, one entry per line in the order of get_items */
  function ItemsOf(lines: seq<LineItem>): seq<Item> {
    seq(|lines|, i requires 0 <= i < |lines| => ItemOfLine(lines[i]))
  }

  /** the foreach loop that builds $items */
  method BuildItems(lines: seq<LineItem>) returns (items: seq<Item>)
    ensures |items| == |lines|
    ensures forall i | 0 <= i < |lines| ::
      && items[i].name == lines[i].name
      && items[i].quantity == lines[i].quantity
      && items[i].value == FormatCents(lines[i].totalCents)
  {
    items := [];
    for i := 0 to |lines|
      invariant |items| == i
      invariant forall j | 0 <= j < i :: items[j] == ItemOfLine(lines[j])
    {
      items := items + [ItemOfLine(lines[i])];
    }
  }

  function CustomerName(billing: Billing): string {
    billing.firstName + " " + billing.lastName
  }

  /** On the wire before http_build_query, customer_name is both names urlencoded, joined by '+'. */
  lemma NameWire(b: Billing)
    ensures Urlencode(CustomerName(b)) == Urlencode(b.firstName) + "+" + Urlencode(b.lastName)
  {
    EncodeAppend(b.firstName + " ", b.lastName);
    EncodeAppend(b.firstName, " ");
    assert Urlencode(" ") == "+";
  }

  /** where the checkout sends the buyer back: home_url('/infinitepay-return?order_nsu=' . number) */
  function ReturnUrl(home: string, number: string): string {
    HomeUrl(home, RETURN_PATH + number)
  }

  /** $params: every value but order_nsu is already urlencoded once */
  function CheckoutParams(items: seq<Item>, number: string, billing: Billing, home: string): seq<(string, string)> {
    [ ("items", Urlencode(EncodeItems(items))),
      ("order_nsu", number),
      ("customer_name", Urlencode(CustomerName(billing))),
      ("customer_email", Urlencode(billing.email)),
      ("customer_cellphone", Urlencode(billing.phone)),
      ("redirect_url", Urlencode(ReturnUrl(home, number))) ]
  }

  function CheckoutUrl(handle: string, items: seq<Item>, number: string, billing: Billing, home: string): string {
    CHECKOUT_BASE + handle + "?" + BuildQuery(CheckoutParams(items, number, billing, home))
  }

  function QrUrl(checkoutUrl: string): string {
    QR_CHART + Urlencode(checkoutUrl)
  }

  /** the order note, given the QR URL as esc_url returned it */
  function QrNote(escapedQrUrl: string): string {
    "QR Code para pagamento InfinitePay:<br><img src=\"" + escapedQrUrl + "\" width=\"200\" />"
  }

  /**
   * process_payment for an order the caller has already loaded. The
   * gateway's handle and the site's home address are parameters, and so is
   * esc_url, whose escaping is outside the model.
   */
  method ProcessPayment(order: Order, handle: string, home: string, escUrl: string -> string)
    returns (r: PaymentResult)
    modifies order
    ensures r == PaymentResult("success", CheckoutUrl(handle, ItemsOf(order.lines), order.number, order.billing, home))
    ensures order.State() == old(order.State()).(notes := old(order.notes) + [QrNote(escUrl(QrUrl(r.redirect)))])
  {
    var items := BuildItems(order.lines);
    assert items == ItemsOf(order.lines);
    var params := CheckoutParams(items, order.number, order.billing, home);
    var query := BuildQuery(params);
    var checkoutUrl := CHECKOUT_BASE + handle + "?" + query;
    var qrCodeUrl := QrUrl(checkoutUrl);
    order.AddOrderNote(QrNote(escUrl(qrCodeUrl)));
    r := PaymentResult("success", checkoutUrl);
  }

  // What the checkout URL promises.

  /**
   * Cut at its first '?', the checkout URL is the checkout host with the raw
   * handle, and its query reads back as the six parameters, in the order
   * items, order_nsu, customer_name, customer_email, customer_cellphone,
   * redirect_url, with the values of $params.
   */
  lemma CheckoutUrlParameters(handle: string, items: seq<Item>, number: string, billing: Billing, home: string)
    requires '?' !in handle
    ensures var (target, query) := CutAt(CheckoutUrl(handle, items, number, billing, home), '?');
      && target == CHECKOUT_BASE + handle
      && ParseQuery(query) == CheckoutParams(items, number, billing, home)
  {
    var ps := CheckoutParams(items, number, billing, home);
    CutCheckoutUrl(handle, BuildQuery(ps));
    ParseBuildQuery(ps);
  }

  lemma CutCheckoutUrl(handle: string, query: string)
    requires '?' !in handle
    ensures CutAt(CHECKOUT_BASE + handle + "?" + query, '?') == (CHECKOUT_BASE + handle, query)
  {
    CheckoutUrlRegroup(handle, query);
    assert '?' !in CHECKOUT_BASE + handle;
    CutAtSep(CHECKOUT_BASE + handle, query, '?');
  }

  /**
   * The values that were urlencoded before http_build_query need a second
   * urldecode: after it the items JSON reads back as the items, and the
   * customer fields and the return URL are the plain strings. order_nsu is
   * the order number after one decoding.
   */
  lemma CheckoutValuesDecode(items: seq<Item>, number: string, billing: Billing, home: string)
    ensures var ps := CheckoutParams(items, number, billing, home);
      && DecodeItems(Urldecode(ps[0].1)) == Some(items)
      && ps[1].1 == number
      && Urldecode(ps[2].1) == CustomerName(billing)
      && Urldecode(ps[3].1) == billing.email
      && Urldecode(ps[4].1) == billing.phone
      && Urldecode(ps[5].1) == ReturnUrl(home, number)
  {
    var ps := CheckoutParams(items, number, billing, home);
    assert ps[0].1 == Urlencode(EncodeItems(items));
    assert ps[2].1 == Urlencode(CustomerName(billing));
    assert ps[3].1 == Urlencode(billing.email);
    assert ps[4].1 == Urlencode(billing.phone);
    assert ps[5].1 == Urlencode(ReturnUrl(home, number));
    DecodeEncode(EncodeItems(items));
    DecodeEncodeItems(items);
    DecodeEncode(CustomerName(billing));
    DecodeEncode(billing.email);
    DecodeEncode(billing.phone);
    DecodeEncode(ReturnUrl(home, number));
  }

  /**
   * The query as http_build_query writes it, piece by piece between the '&'
   * separators: items, the customer fields and redirect_url appear
   * urlencoded twice, order_nsu once.
   */
  lemma CheckoutQueryText(items: seq<Item>, number: string, billing: Billing, home: string)
    ensures var parts := Split(BuildQuery(CheckoutParams(items, number, billing, home)), '&');
      && |parts| == 6
      && parts[0] == "items" + "=" + Urlencode(Urlencode(EncodeItems(items)))
      && parts[1] == "order_nsu" + "=" + Urlencode(number)
      && parts[2] == "customer_name" + "=" + Urlencode(Urlencode(CustomerName(billing)))
      && parts[3] == "customer_email" + "=" + Urlencode(Urlencode(billing.email))
      && parts[4] == "customer_cellphone" + "=" + Urlencode(Urlencode(billing.phone))
      && parts[5] == "redirect_url" + "=" + Urlencode(Urlencode(ReturnUrl(home, number)))
  {
    WirePieces(CheckoutParams(items, number, billing, home));
  }

  /** http_build_query of six values under the checkout's keys, piece by piece */
  lemma WirePieces(ps: seq<(string, string)>)
    requires |ps| == 6
    requires ps[0].0 == "items" && ps[1].0 == "order_nsu" && ps[2].0 == "customer_name"
    requires ps[3].0 == "customer_email" && ps[4].0 == "customer_cellphone" && ps[5].0 == "redirect_url"
    ensures var parts := Split(BuildQuery(ps), '&');
      && |parts| == 6
      && parts[0] == "items" + "=" + Urlencode(ps[0].1)
      && parts[1] == "order_nsu" + "=" + Urlencode(ps[1].1)
      && parts[2] == "customer_name" + "=" + Urlencode(ps[2].1)
      && parts[3] == "customer_email" + "=" + Urlencode(ps[3].1)
      && parts[4] == "customer_cellphone" + "=" + Urlencode(ps[4].1)
      && parts[5] == "redirect_url" + "=" + Urlencode(ps[5].1)
  {
    SplitQuery(ps);
    ItemsKey();
    KeyedPiece(ps, 0, "items");
    OrderNsuKey();
    KeyedPiece(ps, 1, "order_nsu");
    NameKey();
    KeyedPiece(ps, 2, "customer_name");
    EmailKey();
    KeyedPiece(ps, 3, "customer_email");
    PhoneKey();
    KeyedPiece(ps, 4, "customer_cellphone");
    RedirectKey();
    KeyedPiece(ps, 5, "redirect_url");
  }

  lemma KeyedPiece(ps: seq<(string, string)>, i: nat, k: string)
    requires i < |ps| && ps[i].0 == k && Urlencode(k) == k
    ensures Pieces(ps)[i] == k + "=" + Urlencode(ps[i].1)
  {
    PiecesAt(ps);
  }

  // Each key of $params is made of unreserved characters only, so
  // urlencode leaves it as it is.

  lemma KeysUnreserved()
    ensures AllUnreserved("items") && AllUnreserved("order_nsu") && AllUnreserved("customer_name")
    ensures AllUnreserved("customer_email") && AllUnreserved("customer_cellphone") && AllUnreserved("redirect_url")
  {
  }

  lemma ItemsKey() ensures Urlencode("items") == "items" { KeysUnreserved(); EncodeUnreserved("items"); }

  lemma OrderNsuKey() ensures Urlencode("order_nsu") == "order_nsu" { KeysUnreserved(); EncodeUnreserved("order_nsu"); }

  lemma NameKey() ensures Urlencode("customer_name") == "customer_name" { KeysUnreserved(); EncodeUnreserved("customer_name"); }

  lemma EmailKey() ensures Urlencode("customer_email") == "customer_email" { KeysUnreserved(); EncodeUnreserved("customer_email"); }

  lemma PhoneKey() ensures Urlencode("customer_cellphone") == "customer_cellphone" { KeysUnreserved(); EncodeUnreserved("customer_cellphone"); }

  lemma RedirectKey() ensures Urlencode("redirect_url") == "redirect_url" { KeysUnreserved(); EncodeUnreserved("redirect_url"); }

  /** urlencode changes a string exactly when it holds a byte outside the unreserved set */
  lemma {:induction false} UrlencodeFixed(s: string)
    ensures Urlencode(s) == s <==> forall i | 0 <= i < |s| :: IsUnreserved(s[i]) || s[i] as int >= 256
  {
    if s != [] {
      UrlencodeFixed(s[1..]);
      var e := EncodeChar(s[0]);
      assert Urlencode(s) == e + Urlencode(s[1..]);
      if IsUnreserved(s[0]) || s[0] as int >= 256 {
        assert e == [s[0]];
        if Urlencode(s) == s {
          assert Urlencode(s[1..]) == Urlencode(s)[1..];
        }
        assert [s[0]] + s[1..] == s;
      } else {
        if s[0] == ' ' {
          assert Urlencode(s)[0] == '+';
        } else {
          assert |Urlencode(s)| >= 3 + |s[1..]|;
        }
      }
    }
  }

  /**
   * The double encoding is visible: decoded once, customer_name is never the
   * customer's name (it always holds a space, which became '+' before
   * http_build_query encoded it again), items is never the JSON text, and
   * redirect_url is never the return address (its '?' is still %3F).
   */
  lemma OnceDecodedIsStillEncoded(items: seq<Item>, number: string, billing: Billing, home: string)
    ensures var ps := CheckoutParams(items, number, billing, home);
      && ps[0].1 != EncodeItems(items)
      && ps[2].1 != CustomerName(billing)
      && ps[5].1 != ReturnUrl(home, number)
  {
    JsonIsChanged(items);
    NameIsChanged(billing);
    ReturnUrlIsChanged(home, number);
  }

  lemma ReturnUrlIsChanged(home: string, number: string)
    ensures Urlencode(ReturnUrl(home, number)) != ReturnUrl(home, number)
  {
    var rest := "infinitepay-return?order_nsu=" + number;
    assert RETURN_PATH + number == "/" + rest;
    HomeUrlOfRooted(home, rest);
    var url := ReturnUrl(home, number);
    assert url == home + "/" + rest;
    assert url[|home| + 19] == rest[18] == '?';
    UrlencodeFixed(url);
  }

  lemma JsonIsChanged(items: seq<Item>)
    ensures Urlencode(EncodeItems(items)) != EncodeItems(items)
  {
    var json := EncodeItems(items);
    assert json[0] == '[';
    UrlencodeFixed(json);
  }

  lemma NameIsChanged(billing: Billing)
    ensures Urlencode(CustomerName(billing)) != CustomerName(billing)
  {
    var name := CustomerName(billing);
    assert name[|billing.firstName|] == ' ';
    UrlencodeFixed(name);
  }

  lemma BuildThree(a: (string, string), b: (string, string), c: (string, string))
    ensures BuildQuery([a, b, c]) == EncodePair(a) + "&" + EncodePair(b) + "&" + EncodePair(c)
  {
    assert [a, b, c][1..] == [b, c];
    assert [b, c][1..] == [c];
    assert BuildQuery([c]) == EncodePair(c);
    assert BuildQuery([b, c]) == EncodePair(b) + "&" + EncodePair(c);
    assert BuildQuery([a, b, c]) == EncodePair(a) + "&" + (EncodePair(b) + "&" + EncodePair(c));
  }

  lemma QrWordsUnreserved()
    ensures AllUnreserved("chs") && AllUnreserved("300x300") && AllUnreserved("cht")
    ensures AllUnreserved("qr") && AllUnreserved("chl")
  {
  }

  lemma SizePair()
    ensures EncodePair(("chs", "300x300")) == "chs" + "=" + "300x300"
  {
    QrWordsUnreserved();
    EncodeUnreserved("chs");
    EncodeUnreserved("300x300");
  }

  lemma TypePair()
    ensures EncodePair(("cht", "qr")) == "cht" + "=" + "qr"
  {
    QrWordsUnreserved();
    EncodeUnreserved("cht");
    EncodeUnreserved("qr");
  }

  lemma ChlPair(checkoutUrl: string)
    ensures EncodePair(("chl", checkoutUrl)) == "chl" + "=" + Urlencode(checkoutUrl)
  {
    QrWordsUnreserved();
    EncodeUnreserved("chl");
  }

  lemma QrQuery(checkoutUrl: string)
    ensures BuildQuery(QrParams(checkoutUrl))
      == "chs=300x300&cht=qr&chl=" + Urlencode(checkoutUrl)
  {
    BuildThree(("chs", "300x300"), ("cht", "qr"), ("chl", checkoutUrl));
    SizePair();
    TypePair();
    ChlPair(checkoutUrl);
    Regroup5("chs" + "=" + "300x300", "&", "cht" + "=" + "qr", "&", "chl" + "=", Urlencode(checkoutUrl));
    QrParamsText();
  }

  function QrParams(checkoutUrl: string): seq<(string, string)> {
    [("chs", "300x300"), ("cht", "qr"), ("chl", checkoutUrl)]
  }

  lemma QrUrlAsQuery(checkoutUrl: string)
    ensures QrUrl(checkoutUrl) == "https://chart.googleapis.com/chart" + ['?'] + BuildQuery(QrParams(checkoutUrl))
  {
    QrQuery(checkoutUrl);
    QrBaseText();
  }

  /** The QR URL carries the checkout URL as its chl parameter, urlencoded once. */
  lemma QrUrlCarriesCheckoutUrl(checkoutUrl: string)
    ensures var (target, query) := CutAt(QrUrl(checkoutUrl), '?');
      && target == "https://chart.googleapis.com/chart"
      && ParseQuery(query) == QrParams(checkoutUrl)
  {
    QrUrlAsQuery(checkoutUrl);
    ChartPathHasNoQuestionMark();
    CutAtSep("https://chart.googleapis.com/chart", BuildQuery(QrParams(checkoutUrl)), '?');
    ParseBuildQuery(QrParams(checkoutUrl));
  }

  // A worked example: order ORD-1001 with one line, 2 x Widget for 19.99.

  lemma WidgetValue()
    ensures FormatCents(1999) == "19.99"
  {
    assert Show(19) == Show(1) + "9";
  }

  lemma WidgetEntry()
    ensures ItemsOf([LineItem("Widget", 2, 1999)]) == [Item("Widget", 2, "19.99")]
  {
    WidgetValue();
  }

  lemma WidgetObject()
    ensures EncodeItem(Item("Widget", 2, "19.99"))
      == "{\"name\":\"" + "Widget" + "\"" + ",\"quantity\":" + "2" + ",\"value\":\"" + "19.99" + "\"" + "}"
  {
    EscapePlain("Widget");
    EscapePlain("19.99");
    assert ShowInt(2) == "2";
  }

  lemma WidgetJson()
    ensures EncodeItems([Item("Widget", 2, "19.99")]) == "[" + "{\"name\":\"Widget\",\"quantity\":2,\"value\":\"19.99\"}" + "]"
  {
    WidgetObject();
    WidgetObjectText();
    assert EncodeElements([Item("Widget", 2, "19.99")]) == EncodeItem(Item("Widget", 2, "19.99"));
  }

  lemma OrderNumberKept()
    ensures Urlencode("ORD-1001") == "ORD-1001"
  {
    EncodeUnreserved("ORD-1001");
  }

  lemma WidgetOrderNsu(items: seq<Item>, billing: Billing, home: string)
    ensures var parts := Split(BuildQuery(CheckoutParams(items, "ORD-1001", billing, home)), '&');
      |parts| == 6 && parts[1] == "order_nsu=ORD-1001"
  {
    CheckoutQueryText(items, "ORD-1001", billing, home);
    OrderNumberKept();
    OrderNsuText();
  }

  // Solver steps: associativity of '+' and literals written as concatenations.
  // They state nothing about the plugin; the lemmas above cite them.

  lemma CheckoutUrlRegroup(handle: string, query: string)
    ensures CHECKOUT_BASE + handle + "?" + query == (CHECKOUT_BASE + handle) + ['?'] + query
  {
  }

  lemma Regroup5(a: string, b: string, c: string, d: string, e: string, t: string)
    ensures a + b + c + d + (e + t) == (a + b + c + d + e) + t
  {
  }

  lemma QrParamsText()
    ensures ("chs" + "=" + "300x300") + "&" + ("cht" + "=" + "qr") + "&" + ("chl" + "=") == "chs=300x300&cht=qr&chl="
  {
  }

  lemma QrBaseText()
    ensures QR_CHART == "https://chart.googleapis.com/chart" + ['?'] + "chs=300x300&cht=qr&chl="
  {
  }

  lemma ChartPathHasNoQuestionMark()
    ensures '?' !in "https://chart.googleapis.com/chart"
  {
  }

  lemma WidgetObjectText()
    ensures "{\"name\":\"" + "Widget" + "\"" + ",\"quantity\":" + "2" + ",\"value\":\"" + "19.99" + "\"" + "}"
      == "{\"name\":\"Widget\",\"quantity\":2,\"value\":\"19.99\"}"
  {
  }

  lemma OrderNsuText()
    ensures "order_nsu" + "=" + "ORD-1001" == "order_nsu=ORD-1001"
  {
  }
}
