/**
 * The slice of a WooCommerce order the plugin reads and writes. The order
 * store itself is outside the model: an order is an object whose identity,
 * line items and billing data are fixed, and whose paid flag, notes,
 * metadata and save count the plugin changes in place.
 */
module Orders {

  /** a value as json_decode(..., true) returns it (numbers limited to integers) */
  datatype JsonValue =
    | JNull
    | JBool(b: bool)
    | JNumber(n: int)
    | JString(s: string)
    | JArray(elems: seq<JsonValue>)
    | JObject(fields: map<string, JsonValue>)

  /** one line of the order: its name, its quantity and its line total in cents */
  datatype LineItem = LineItem(name: string, quantity: int, totalCents: int)

  datatype Billing = Billing(firstName: string, lastName: string, email: string, phone: string)

  /** the part of an order that the plugin changes */
  datatype OrderState = OrderState(paid: bool, notes: seq<string>, meta: map<string, JsonValue>, saves: nat)

  class Order {
    /** the order key (wc_get_order_id_by_order_key looks orders up by it) */
    const key: string
    /** what get_order_number returns */
    const number: string
    const lines: seq<LineItem>
    const billing: Billing

    var paid: bool
    var notes: seq<string>
    var meta: map<string, JsonValue>
    var saves: nat

    function State(): OrderState
      reads this
    {
      OrderState(paid, notes, meta, saves)
    }

    constructor (key: string, number: string, lines: seq<LineItem>, billing: Billing, state: OrderState)
      ensures this.key == key && this.number == number && this.lines == lines && this.billing == billing
      ensures State() == state
    {
      this.key, this.number, this.lines, this.billing := key, number, lines, billing;
      paid, notes, meta, saves := state.paid, state.notes, state.meta, state.saves;
    }

    /** add_order_note */
    method AddOrderNote(note: string)
      modifies this
      ensures State() == old(State()).(notes := old(notes) + [note])
    {
      notes := notes + [note];
    }

    /** payment_complete, seen only through its effect on the paid flag */
    method PaymentComplete()
      modifies this
      ensures State() == old(State()).(paid := true)
    {
      paid := true;
    }

    /** update_meta_data: sets one key, replacing any earlier value */
    method UpdateMetaData(k: string, v: JsonValue)
      modifies this
      ensures State() == old(State()).(meta := old(meta)[k := v])
    {
      meta := meta[k := v];
    }

    /** save */
    method Save()
      modifies this
      ensures State() == old(State()).(saves := old(saves) + 1)
    {
      saves := saves + 1;
    }
  }
}
