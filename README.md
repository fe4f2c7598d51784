# InfinitePay for WooCommerce: checkout link and return callback

This project models the two parts of the InfinitePay WooCommerce gateway
that hold logic.

- `WC_Gateway_InfinitePay::process_payment` takes an order and builds the
  hosted-checkout link for it:
  - it turns each line item into a `{name, quantity, value}` record, with the
    line total written as two-decimal text;
  - it `json_encode`s that list;
  - it assembles six query parameters and runs `http_build_query` on them;
  - it wraps the query as `https://checkout.infinitepay.io/<handle>?<query>`;
  - it derives a Google-chart QR URL from that link and records it in an
    order note;
  - it returns `success` with the link.
- The `template_redirect` callback serves `/infinitepay-return`. When the
  `infinitepay_return` query variable is loosely equal to 1 and `order_nsu`
  is present:
  - it looks the order up by order key;
  - it asks the provider for the payment status of the merchant handle;
  - if the answer is `paid`, it completes the order, adds one note, stores
    the receipt URL and saves;
  - it then redirects to `/pedido-confirmado`.

The modules follow the pieces the plugin is built from:

- `Decimal`: how PHP writes and reads digit strings.
- `NumberFormat`: `number_format(x, 2, '.', '')` on integer cents, with a
  parser as its inverse.
- `FormEncoding`: PHP's `urlencode`, `urldecode` and `http_build_query`, plus
  a form-query parser that is the receiving end.
- `ItemsJson`: `json_encode` of the items list, with a decoder for that
  shape.
- `Site`: `home_url`.
- `Orders`: the order object. Its paid flag, notes, metadata and save count
  are fields that its methods update in place.
- `Checkout`: `process_payment`. The `foreach` that builds `$items` is a
  method with a loop, and the rest is functions.
- `ReturnHandler`: the callback, as a method that mutates the order it
  finds. A function `Decide` states which branch it takes.

Each encoder is paired with a decoder and reads back as its input:

- `urldecode(urlencode(s)) == s`
- parsing an `http_build_query` result gives the same pairs, in order
- decoding the items JSON gives the items
- parsing a formatted amount gives the cents

From these pairs the model proves:

- what the checkout URL carries;
- which parameters are encoded twice;
- what the callback does on each branch.

Where the code and a plain description of the plugin differ, the model
follows the code:

- The callback has no "already paid" guard. A replayed paid callback
  completes the order again, adds the note again and overwrites the receipt.
- The status request names only the merchant handle, not the order.
- The callback passes the order *number* it put in the return URL to
  `wc_get_order_id_by_order_key`. So it finds the order only when the order's
  number equals its key.
- The looked-up order is never checked for `false`. A `paid` answer with no
  such order ends in a PHP fatal error, not a redirect.
- There is no error for an order without items, no retry, and no separate
  audit log beyond the receipt metadata.
- `process_payment` puts the handle setting into the checkout URL without
  escaping it. A '?' in the handle moves the start of the query, and a '#'
  turns the whole query into a fragment. The URL lemmas assume a handle
  without '?'; fragments are not modelled.
- `urlencode` escapes `~` (it is not RFC 3986's unreserved set), and a space
  becomes `+`.

## Model

| member | source | states |
|---|---|---|
| Checkout.ItemOfLine | infinitepay-woocommerce.php:65-69 | an items entry carries the line's name and quantity, and its value reads back as the line total in cents |
| Checkout.BuildItems | infinitepay-woocommerce.php:62-70 | the foreach yields exactly one entry per line item, in get_items order, with that line's name, quantity and two-decimal total |
| Checkout.ItemsOf | infinitepay-woocommerce.php:64-70 | definition: $items, the list of ItemOfLine of each line in order |
| NumberFormat.FormatCents | infinitepay-woocommerce.php:68 | number_format's text has at least four characters and starts with '-' exactly for a negative total |
| NumberFormat.FormatCentsShape | infinitepay-woocommerce.php:68 | the text has exactly one '.', three places from the end; every other character is a digit, except a leading '-'; the whole part has no leading zero unless it is 0 |
| NumberFormat.ParseFormatCents | infinitepay-woocommerce.php:68 | the formatted value reads back as the same number of cents, so no thousands separator or rounding creeps in |
| ItemsJson.DecodeEncodeItems | infinitepay-woocommerce.php:73 | json_encode of the items list decodes to the same items, in the same order |
| ItemsJson.EncodeItems | infinitepay-woocommerce.php:73 | definition: json_encode of $items, '[' and the encoded objects separated by ',' and ']' |
| ItemsJson.EncodeItem | infinitepay-woocommerce.php:65-69 | definition: one object with keys name, quantity and value in that order, the strings escaped and the quantity as an integer |
| ItemsJson.Escape | infinitepay-woocommerce.php:73 | definition: json_encode's escaping of '"', '\' and '/' inside a string |
| ItemsJson.ItemOfEncoding | infinitepay-woocommerce.php:65-69 | one encoded {name, quantity, value} object reads back as that item, whatever text follows it |
| ItemsJson.ElementsOfEncoding | infinitepay-woocommerce.php:73 | a non-empty comma-separated run of encoded objects reads back as the list, in order |
| ItemsJson.StringBodyOfEscape | infinitepay-woocommerce.php:73 | an escaped JSON string body reads back as the original text up to its closing quote |
| ItemsJson.IntegerOfShow | infinitepay-woocommerce.php:67 | the quantity as json_encode writes it (sign and digits) reads back as the same integer |
| Decimal.ValueOfShow | infinitepay-woocommerce.php:67-68 | the decimal writing of a number denotes that number |
| Decimal.Show | infinitepay-woocommerce.php:67-68 | the decimal writing is non-empty, starts with a digit, and has no leading zero |
| Decimal.ShowInt | infinitepay-woocommerce.php:67 | how json_encode writes an integer: non-empty, starting with '-' exactly for a negative |
| FormEncoding.DecodeEncode | infinitepay-woocommerce.php:73-78 | urldecode undoes urlencode on every string |
| FormEncoding.Urlencode | infinitepay-woocommerce.php:73-78 | definition: PHP's urlencode, byte by byte; its output is never shorter than its input |
| FormEncoding.UrlencodeEncoded | infinitepay-woocommerce.php:73-78 | urlencode's output holds only unreserved bytes, '+' and '%', so never '&' or '=' |
| FormEncoding.EncodeAppend | infinitepay-woocommerce.php:75 | urlencode of a concatenation is the concatenation of the encodings |
| Checkout.NameWire | infinitepay-woocommerce.php:75 | customer_name before http_build_query is the first name urlencoded, '+', and the last name urlencoded |
| FormEncoding.ParseBuildQuery | infinitepay-woocommerce.php:81 | parsing what http_build_query wrote gives back the same key/value pairs, in order |
| FormEncoding.BuildQuery | infinitepay-woocommerce.php:81 | definition: http_build_query, key=value pairs with both sides urlencoded, joined by '&' in list order |
| FormEncoding.SplitQuery | infinitepay-woocommerce.php:81 | http_build_query's output splits at '&' into exactly one key=value piece per parameter |
| Checkout.UrlencodeFixed | infinitepay-woocommerce.php:73-78 | urlencode leaves a string unchanged exactly when every byte of it is unreserved |
| Checkout.CheckoutValuesDecode | infinitepay-woocommerce.php:72-79 | after the decoding that matches the pre-encoding, items is the items list, customer_name is first name, ' ', last name, the other customer fields are billing email and phone, and redirect_url is home_url('/infinitepay-return?order_nsu=' + number); order_nsu is the order number |
| Checkout.CheckoutParams | infinitepay-woocommerce.php:72-79 | definition: $params, the six keys in source order with their values as the code computes them |
| Checkout.CustomerName | infinitepay-woocommerce.php:75 | definition: billing first name, ' ', billing last name |
| Checkout.ReturnUrl | infinitepay-woocommerce.php:78 | definition: home_url('/infinitepay-return?order_nsu=' + order number) |
| Checkout.CheckoutQueryText | infinitepay-woocommerce.php:72-81 | the query has six pieces in the fixed order items, order_nsu, customer_name, customer_email, customer_cellphone, redirect_url; every value but order_nsu is urlencoded twice, order_nsu once |
| Checkout.WirePieces | infinitepay-woocommerce.php:81 | http_build_query under the six fixed keys writes each key unchanged and the value urlencoded |
| Checkout.OnceDecodedIsStillEncoded | infinitepay-woocommerce.php:73-81 | after the receiver's single decoding, items is never the JSON text, customer_name is never the customer's name, and redirect_url is never the return address |
| Checkout.ReturnUrlIsChanged | infinitepay-woocommerce.php:78 | the return address always holds a '?', so urlencode always changes it |
| Checkout.CheckoutUrlParameters | infinitepay-woocommerce.php:81-82 | for a handle without '?', the checkout URL is the checkout host plus the handle, then '?', then a query that parses back as $params |
| Checkout.CheckoutUrl | infinitepay-woocommerce.php:82 | definition: the checkout host, the handle, '?' and the query |
| Checkout.CutCheckoutUrl | infinitepay-woocommerce.php:82 | the checkout URL cut at its first '?' is the checkout host plus the handle, and the query |
| Checkout.QrUrlAsQuery | infinitepay-woocommerce.php:85 | the QR URL is the chart path, '?', and the query chs=300x300, cht=qr, chl=checkout URL as http_build_query would write it |
| Checkout.QrQuery | infinitepay-woocommerce.php:85 | that three-parameter query is the fixed prefix followed by the checkout URL urlencoded once |
| Checkout.QrUrlCarriesCheckoutUrl | infinitepay-woocommerce.php:85 | the QR URL's query parses back as chs=300x300, cht=qr and chl = the checkout URL |
| Checkout.QrUrl | infinitepay-woocommerce.php:85 | definition: the chart URL prefix followed by the urlencoded checkout URL |
| Checkout.QrNote | infinitepay-woocommerce.php:86 | definition: the note text around the esc_url-escaped QR URL |
| Checkout.ProcessPayment | infinitepay-woocommerce.php:60-92 | the result is success with the checkout URL built from the order's items, number, billing and the home address; the only state change is one appended note holding the escaped QR URL |
| Checkout.WidgetValue | infinitepay-woocommerce.php:68 | 1999 cents is written 19.99 |
| Checkout.WidgetEntry | infinitepay-woocommerce.php:64-70 | one line of 2 x Widget at 19.99 becomes the single entry (Widget, 2, "19.99") |
| Checkout.WidgetJson | infinitepay-woocommerce.php:73 | that entry is encoded as [{"name":"Widget","quantity":2,"value":"19.99"}] |
| Checkout.WidgetOrderNsu | infinitepay-woocommerce.php:74-81 | the query of order ORD-1001 has order_nsu=ORD-1001 as its second piece |
| Site.HomeUrlOfRooted | infinitepay-woocommerce.php:78 | home_url of '/' plus a path that starts without a slash is the home address, '/' and that path |
| Site.HomeUrl | infinitepay-woocommerce.php:78 | definition: home_url, the home address alone for an empty path, else the home address, '/' and the path without its leading slashes |
| Site.TrimLeadingSlashes | infinitepay-woocommerce.php:78 | home_url's trimmed path never starts with a slash |
| Site.TrimKeepsRest | infinitepay-woocommerce.php:78 | trimming removes a run of leading slashes and nothing else: the result is a suffix of the path and every character cut was a '/' |
| Orders.Order.AddOrderNote | infinitepay-woocommerce.php:86 | add_order_note appends one note and changes nothing else |
| Orders.Order.PaymentComplete | infinitepay-woocommerce.php:119 | payment_complete sets the paid flag and changes nothing else |
| Orders.Order.UpdateMetaData | infinitepay-woocommerce.php:121 | update_meta_data sets one key and leaves the others and the rest of the order alone |
| Orders.Order.Save | infinitepay-woocommerce.php:122 | save records one more save and changes nothing else |
| ReturnHandler.Decide | infinitepay-woocommerce.php:110-124 | the callback ignores the request exactly when the guard fails; it confirms exactly when guarded, the order is found and the answer is paid, and then with the answer's receipt_url; it dies exactly when guarded, paid and no order is found |
| ReturnHandler.LooselyEqualsOne | infinitepay-woocommerce.php:110 | definition: the query var == 1, for a digit string whose value is 1 |
| ReturnHandler.Triggered | infinitepay-woocommerce.php:110 | definition: the guard, the query var loosely 1 and order_nsu present in $_GET |
| ReturnHandler.TargetOrder | infinitepay-woocommerce.php:111-112 | definition: the order stored under $_GET['order_nsu'] taken as an order key, if any |
| ReturnHandler.StatusCheckUrl | infinitepay-woocommerce.php:115 | definition: the payment_check endpoint followed by the handle |
| ReturnHandler.IsPaid | infinitepay-woocommerce.php:116-118 | definition: not a WP_Error, and the decoded body has a non-null status equal to 'paid' |
| ReturnHandler.Isset | infinitepay-woocommerce.php:118 | definition: isset, the key present with a non-null value |
| ReturnHandler.ReceiptUrl | infinitepay-woocommerce.php:121 | definition: $body['receipt_url'], null when the key is missing |
| ReturnHandler.Confirmed | infinitepay-woocommerce.php:119-122 | definition: the order state after payment_complete, the note, the receipt metadata and save |
| ReturnHandler.ExitOf | infinitepay-woocommerce.php:126-127 | definition: no exit when ignored, a fatal error on the missing order, else the redirect to home_url('/pedido-confirmado') |
| ReturnHandler.HandleReturn | infinitepay-woocommerce.php:109-128 | the status request is made exactly when the guard holds, to the handle's endpoint; the order changes only on the confirm branch (completed, one note, the receipt URL, one save) and is otherwise unchanged; the exit is the decided one |
| ReturnHandler.RedirectsOnceTriggered | infinitepay-woocommerce.php:126-127 | once the guard holds, the request ends in a redirect to home + '/pedido-confirmado', or a fatal error exactly when the answer is paid and no order was found |
| ReturnHandler.ReplayRepeatsConfirmation | infinitepay-woocommerce.php:118-123 | confirming twice leaves two notes, the second receipt and two saves, so a replay is not idempotent |
| ReturnHandler.ReplayedPaidCallback | infinitepay-woocommerce.php:109-128 | for an order whose number is its key, two paid callbacks in a row, sent with the number as order_nsu, both redirect and leave the order paid with two confirmation notes, the second answer's receipt and two saves |
| ReturnHandler.StatusCheckIgnoresOrder | infinitepay-woocommerce.php:115 | given one answer to the handle's status request, any two triggered callbacks for found orders confirm together or not at all |
| ReturnHandler.OnePaymentConfirmsTwoOrders | infinitepay-woocommerce.php:115-122 | callbacks for two different orders while the handle is reported paid leave both orders paid, and both redirect |
| ReturnHandler.CallbackFindsOrderOnlyIfNumberIsKey | infinitepay-woocommerce.php:111-112 | the callback for an order, given its number as order_nsu, finds that order exactly when the number equals the order key |

## Left out

- The settings form, the constructor and option reading (lines 18-58) are configuration. The handle is a parameter.
- Hook and filter registration and the rewrite rule (lines 12, 95-107) are not modelled. `get_query_var('infinitepay_return')` is a string parameter, '' when unset.
- The HTTP request and `json_decode` (lines 115-117) are the parameter `fetch`. It maps the request URL to a WP_Error or a decoded JSON value, so timeouts and network faults are outside the model.
- `wc_get_order` and `wc_get_order_id_by_order_key` are a map from order keys to order objects. `process_payment` receives the order already loaded.
- `payment_complete`, `add_order_note`, `update_meta_data` and `save` act only on the fields the plugin sees. WooCommerce's own effects (status transitions, stock, e-mails, hooks) are not modelled, and neither is any idempotence `payment_complete` itself may have.
- Line totals are integer cents, not PHP floats. Float rounding in `number_format` is not modelled.
- NumberFormat.FormatCents: the negative case is written as a sign before the magnitude. PHP's float formatting of a negative total that rounds to zero (-0.00) is not modelled.
- `json_encode` is modelled for its escapes of '"', '\' and '/'. Its escapes of control characters (`\b`, `\f`, `\n`, `\r`, `\t`, `\u00XX`) and of non-ASCII text (`\uXXXX`), and its failure on invalid UTF-8, are not modelled: a name holding a tab or a newline is written raw.
- `esc_url` is the parameter `escUrl` of `ProcessPayment`. Only the fact that the note holds its result is stated.
- PHP strings are byte strings. Characters from 256 up stand for nothing in PHP; `urlencode` passes them through unchanged so that every function is total.
- `home_url` is the home address joined with the path. Scheme selection and filters are not modelled.
- The loose comparison `get_query_var(...) == 1` is modelled for digit strings whose value is 1. Strings such as " 1" or "1.0", which PHP 8 also treats as equal, are not modelled.
- `get` stands for `$_GET` after WordPress's `wp_magic_quotes` has run `addslashes` on it. ReturnHandler.CallbackFindsOrderOnlyIfNumberIsKey passes the number unchanged, so it covers order numbers without `'`, `"` or `\`.
- `$_GET['order_nsu']` as an array value is not modelled. `$_GET` is a map from strings to strings.
- The decoded JSON value (`Orders.JsonValue`) has integer numbers only, and JSON arrays and objects are kept apart, where `json_decode(..., true)` returns a PHP array for both. The only value this touches is the stored receipt_url.
- The log admin page (lines 132-144) is not modelled. It is a SQL query and HTML output.
- Checkout.CheckoutUrlParameters: stated for a handle without '?'. Line 82 inserts the handle unescaped, and URL fragments ('#') are not modelled, so a handle holding '#' is read as if it were part of the path.
