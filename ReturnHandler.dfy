/**
 * The template_redirect callback behind /infinitepay-return: when the
 * rewrite sets infinitepay_return to 1 and the URL carries order_nsu, it
 * looks the order up, asks the provider for the payment status of the
 * gateway's handle, marks the order paid when the answer says "paid", and
 * redirects the buyer to /pedido-confirmado.
 *
 * The HTTP call and json_decode are a parameter: `fetch` maps the request
 * URL to what wp_remote_get and json_decode together produce.
 */
module ReturnHandler {
  import opened Wrappers
  import opened Decimal
  import opened Orders
  import opened Site

  const STATUS_ENDPOINT := "https://api.infinitepay.io/invoices/public/checkout/payment_check/"
  const CONFIRMED_NOTE := "Pagamento confirmado via InfinitePay."
  const RECEIPT_KEY := "infinitepay_receipt_url"
  const CONFIRMATION_PATH := "/pedido-confirmado"

  /** what wp_remote_get returned: a WP_Error, or a response whose body json_decode turned into a value */
  datatype StatusResponse = WpError | Received(body: JsonValue)

  /** how the request ends: WordPress carries on, the buyer is redirected, or PHP stops with a fatal error */
  datatype Exit = Continue | Redirect(location: string) | Fatal

  /** the branch the callback takes */
  datatype Step =
    | Ignore
    | RedirectOnly
    | ConfirmAndRedirect(receipt: JsonValue)
    | MethodCallOnFalse

  function StatusCheckUrl(handle: string): string {
    STATUS_ENDPOINT + handle
  }

  /** the query var compared loosely with 1: a string of digits whose value is 1 */
  predicate LooselyEqualsOne(v: string) {
    v != [] && AllDigits(v) && Value(v) == 1
  }

  /** the guard of the callback */
  predicate Triggered(queryVar: string, get: map<string, string>) {
    LooselyEqualsOne(queryVar) && "order_nsu" in get
  }

  /** isset($body[k]): the key is present and its value is not null */
  predicate Isset(fields: map<string, JsonValue>, k: string) {
    k in fields && fields[k] != JNull
  }

  /** not a WP_Error, and the decoded body has status === 'paid' */
  predicate IsPaid(r: StatusResponse) {
    && r.Received?
    && r.body.JObject?
    && Isset(r.body.fields, "status")
    && r.body.fields["status"] == JString("paid")
  }

  /** $body['receipt_url'], which is null when the key is missing */
  function ReceiptUrl(r: StatusResponse): JsonValue
    requires IsPaid(r)
  {
    var fields := r.body.fields;
    if "receipt_url" in fields then fields["receipt_url"] else JNull
  }

  /** the order wc_get_order_id_by_order_key finds for the callback's order_nsu, taken as an order key */
  function TargetOrder(orders: map<string, Order>, get: map<string, string>): Option<Order> {
    if "order_nsu" in get && get["order_nsu"] in orders then Some(orders[get["order_nsu"]]) else None
  }

  function TargetSet(orders: map<string, Order>, get: map<string, string>): set<Order> {
    if TargetOrder(orders, get).Some? then {TargetOrder(orders, get).value} else {}
  }

  function Decide(queryVar: string, get: map<string, string>, found: bool, response: StatusResponse): (step: Step)
    ensures step.Ignore? <==> !Triggered(queryVar, get)
    ensures step.ConfirmAndRedirect? <==> Triggered(queryVar, get) && found && IsPaid(response)
    ensures step.MethodCallOnFalse? <==> Triggered(queryVar, get) && !found && IsPaid(response)
    ensures step.ConfirmAndRedirect? ==> IsPaid(response) && step.receipt == ReceiptUrl(response)
  {
    if !Triggered(queryVar, get) then Ignore
    else if !IsPaid(response) then RedirectOnly
    else if !found then MethodCallOnFalse
    else ConfirmAndRedirect(ReceiptUrl(response))
  }

  function ExitOf(step: Step, home: string): Exit {
    match step
    case Ignore => Continue
    case MethodCallOnFalse => Fatal
    case _ => Redirect(HomeUrl(home, CONFIRMATION_PATH))
  }

  /** payment_complete, one note, the receipt URL in the metadata, save */
  function Confirmed(s: OrderState, receipt: JsonValue): OrderState {
    s.(paid := true, notes := s.notes + [CONFIRMED_NOTE], meta := s.meta[RECEIPT_KEY := receipt], saves := s.saves + 1)
  }

  /**
   * The callback. `queryVar` is get_query_var('infinitepay_return') ('' when
   * unset), `get` is $_GET, `orders` maps order keys to orders, `handle` is
   * the gateway's handle setting and `home` the site's home address.
   * `requested` is the URL passed to wp_remote_get, if any.
   */
  method HandleReturn(queryVar: string, get: map<string, string>, orders: map<string, Order>,
                      handle: string, home: string, fetch: string -> StatusResponse)
    returns (requested: Option<string>, exit: Exit)
    modifies TargetSet(orders, get)
    ensures requested == if Triggered(queryVar, get) then Some(StatusCheckUrl(handle)) else None
    ensures var step := Decide(queryVar, get, TargetOrder(orders, get).Some?, fetch(StatusCheckUrl(handle)));
      && exit == ExitOf(step, home)
      && (TargetOrder(orders, get).Some? ==>
            var order := TargetOrder(orders, get).value;
            order.State() == if step.ConfirmAndRedirect? then Confirmed(old(order.State()), step.receipt)
                             else old(order.State()))
  {
    if LooselyEqualsOne(queryVar) && "order_nsu" in get {
      var found := TargetOrder(orders, get);
      var url := StatusCheckUrl(handle);
      requested := Some(url);
      var response := fetch(url);
      if response.Received? {
        var body := response.body;
        if body.JObject? && Isset(body.fields, "status") && body.fields["status"] == JString("paid") {
          if found.None? {
            exit := Fatal;
            return;
          }
          var order := found.value;
          order.PaymentComplete();
          order.AddOrderNote(CONFIRMED_NOTE);
          order.UpdateMetaData(RECEIPT_KEY, if "receipt_url" in body.fields then body.fields["receipt_url"] else JNull);
          order.Save();
        }
      }
      exit := Redirect(HomeUrl(home, CONFIRMATION_PATH));
    } else {
      requested := None;
      exit := Continue;
    }
  }

  // What the callback promises.

  /** Once the guard holds, the buyer is always sent to <home>/pedido-confirmado, except when PHP dies on a missing order. */
  lemma RedirectsOnceTriggered(queryVar: string, get: map<string, string>, found: bool, response: StatusResponse, home: string)
    requires Triggered(queryVar, get)
    ensures var exit := ExitOf(Decide(queryVar, get, found, response), home);
      exit == Fatal || exit == Redirect(home + "/pedido-confirmado")
    ensures ExitOf(Decide(queryVar, get, found, response), home) == Fatal <==> !found && IsPaid(response)
  {
    HomeUrlOfRooted(home, "pedido-confirmado");
    assert CONFIRMATION_PATH == "/" + "pedido-confirmado";
  }

  /**
   * No already-paid guard: a second paid callback completes the order again,
   * adds a second copy of the note, overwrites the receipt and saves again,
   * so confirming is not idempotent.
   */
  lemma ReplayRepeatsConfirmation(s: OrderState, first: JsonValue, second: JsonValue)
    ensures var twice := Confirmed(Confirmed(s, first), second);
      && twice.paid
      && twice.notes == s.notes + [CONFIRMED_NOTE, CONFIRMED_NOTE]
      && twice.meta == s.meta[RECEIPT_KEY := second]
      && twice.saves == s.saves + 2
      && twice != Confirmed(s, first)
  {
    assert s.notes + [CONFIRMED_NOTE] + [CONFIRMED_NOTE] == s.notes + [CONFIRMED_NOTE, CONFIRMED_NOTE];
  }

  /**
   * The status request names only the handle: two callbacks for different
   * orders send the same request, so one order's payment confirms any order
   * whose callback arrives while the provider reports the handle as paid.
   */
  lemma StatusCheckIgnoresOrder(handle: string, q1: string, get1: map<string, string>, q2: string, get2: map<string, string>,
                                fetch: string -> StatusResponse)
    requires Triggered(q1, get1) && Triggered(q2, get2)
    ensures Decide(q1, get1, true, fetch(StatusCheckUrl(handle))).ConfirmAndRedirect?
        <==> Decide(q2, get2, true, fetch(StatusCheckUrl(handle))).ConfirmAndRedirect?
  {
  }

  /**
   * Two callbacks for two different orders, while the provider reports the
   * handle as paid: both orders end up paid, whichever of them was paid for.
   */
  method OnePaymentConfirmsTwoOrders(a: Order, b: Order, handle: string, home: string, fetch: string -> StatusResponse)
    returns (exitA: Exit, exitB: Exit)
    requires a != b && a.key != b.key
    requires IsPaid(fetch(StatusCheckUrl(handle)))
    modifies a, b
    ensures a.paid && b.paid
    ensures exitA == exitB == Redirect(HomeUrl(home, CONFIRMATION_PATH))
  {
    var orders := map[a.key := a, b.key := b];
    assert Value("1") == 1 by {
      assert "1"[..0] == [];
    }
    var requested;
    requested, exitA := HandleReturn("1", map["order_nsu" := a.key], orders, handle, home, fetch);
    requested, exitB := HandleReturn("1", map["order_nsu" := b.key], orders, handle, home, fetch);
  }

  /** orders are stored under their own order key */
  ghost predicate KeyedByOrderKey(orders: map<string, Order>) {
    forall k | k in orders :: orders[k].key == k
  }

  /**
   * The return URL carries the order number as order_nsu, but the callback
   * looks it up as an order key: the callback for an order finds that order
   * exactly when its number and its key coincide.
   */
  lemma CallbackFindsOrderOnlyIfNumberIsKey(orders: map<string, Order>, o: Order)
    requires KeyedByOrderKey(orders)
    requires o in orders.Values
    ensures TargetOrder(orders, map["order_nsu" := o.number]) == Some(o) <==> o.key == o.number
  {
    var k :| k in orders && orders[k] == o;
    assert o.key == k;
  }

  /**
   * Two paid callbacks in a row for an order whose number is its key, the
   * provider answering `first` and then `second`: both redirect, the order
   * carries two confirmation notes and the second receipt.
   */
  method ReplayedPaidCallback(order: Order, handle: string, home: string,
                              first: string -> StatusResponse, second: string -> StatusResponse)
    returns (exit1: Exit, exit2: Exit)
    requires order.key == order.number
    requires IsPaid(first(StatusCheckUrl(handle))) && IsPaid(second(StatusCheckUrl(handle)))
    modifies order
    ensures exit1 == exit2 == Redirect(HomeUrl(home, CONFIRMATION_PATH))
    ensures order.paid
    ensures order.notes == old(order.notes) + [CONFIRMED_NOTE, CONFIRMED_NOTE]
    ensures order.meta == old(order.meta)[RECEIPT_KEY := ReceiptUrl(second(StatusCheckUrl(handle)))]
    ensures order.saves == old(order.saves) + 2
  {
    var orders := map[order.key := order];
    var get := map["order_nsu" := order.number];
    assert Value("1") == 1 by {
      assert "1"[..0] == [];
    }
    assert TargetOrder(orders, get) == Some(order);
    var requested;
    requested, exit1 := HandleReturn("1", get, orders, handle, home, first);
    requested, exit2 := HandleReturn("1", get, orders, handle, home, second);
    ReplayRepeatsConfirmation(old(order.State()), ReceiptUrl(first(StatusCheckUrl(handle))), ReceiptUrl(second(StatusCheckUrl(handle))));
  }
}
