/**
 * The `orders/create` webhook that alerts on the order's own payload: it
 * authenticates the request, rejects a missing body, reads the shop's settings,
 * and when alerts are on, the total is over the threshold and a recipient is
 * set, it normalises the raw order and hands it to the alert composer.
 */
module OrdersCreateWebhook {
  import opened Wrappers
  import opened JsStrings
  import opened JsNumbers
  import opened EmailServer
  import opened AppIndex

  /** A line item of the webhook body, every field as optional as the body makes it. */
  datatype RawLineItem = RawLineItem(title: Option<string>, name: Option<string>, quantity: Option<int>, price: Option<string>)

  /** The fields of the webhook body the handler reads. */
  datatype RawOrder = RawOrder(
    id: Option<string>,
    name: Option<string>,
    orderNumber: Option<int>,
    totalPrice: Option<string>,
    currency: Option<string>,
    lineItems: Option<seq<RawLineItem>>)

  /** What the platform's webhook authentication gives the handler: a failure, or the shop and the body. */
  datatype WebhookAuth = AuthFailed | Authenticated(shop: string, payload: Option<RawOrder>)

  /** How a handler ends: a JSON response, a thrown response, or an exception it does not catch. */
  datatype Reply =
    | Json(status: int, success: bool, message: Option<string>, error: Option<string>)
    | ThrownResponse(status: int, body: string)
    | Escaped

  /** The arguments of one `sendOrderAlert` call, and the configured shop domain its link uses. */
  datatype AlertRequest = AlertRequest(to: string, order: OrderDetails, threshold: real, shopDomain: Option<string>)

  /** What the composer logs and returns for a request. */
  function Report(request: AlertRequest): (r: AlertReport)
    ensures r.result == SendResult(true, LoggedMessage) && r.recipient == request.to
  {
    SendOrderAlert(request.to, request.order, request.threshold, request.shopDomain)
  }

  /** The calls a handler makes to the outside, in order: the settings read, the order query, the alert. */
  datatype Effect = ReadSettings(shop: string) | QueryOrder(id: Option<string>) | Alert(request: AlertRequest)

  const Unauthorized: Reply := Json(401, false, None, Some("Authentication failed"))
  const MissingBody: Reply := ThrownResponse(400, "Request body not found")
  const AlertsOff: Reply := Json(200, true, Some("Alerts disabled or settings not found"), None)
  const Handled: Reply := Json(200, true, None, None)

  // ---------------------------------------------------------------- normalisation

  /** The currency every amount of the normalised order carries. */
  function OrderCurrency(o: RawOrder): (r: string)
    ensures r != []
    ensures Truthy(o.currency) ==> r == o.currency.value
    ensures !Truthy(o.currency) ==> r == "USD"
  {
    OrElse(o.currency, "USD")
  }

  /** The order's name, else its number as decimal text, else "Unknown"; never empty. */
  function OrderName(o: RawOrder): (r: string)
    ensures r != []
    ensures Truthy(o.name) ==> r == o.name.value
    ensures !Truthy(o.name) && o.orderNumber.Some? && o.orderNumber.value != 0 ==> r == IntText(o.orderNumber.value)
    ensures !Truthy(o.name) && (o.orderNumber.None? || o.orderNumber.value == 0) ==> r == "Unknown"
  {
    if Truthy(o.name) then o.name.value
    else if o.orderNumber.Some? && o.orderNumber.value != 0 then IntText(o.orderNumber.value)
    else "Unknown"
  }

  /** One line item with its defaults: title, else name, else "Unknown Item"; quantity 1; price "0.00"; the order's currency. */
  function NormalizeItem(item: RawLineItem, currency: string): (r: LineItem)
    ensures r.title != []
    ensures Truthy(item.title) ==> r.title == item.title.value
    ensures !Truthy(item.title) && Truthy(item.name) ==> r.title == item.name.value
    ensures !Truthy(item.title) && !Truthy(item.name) ==> r.title == "Unknown Item"
    ensures r.quantity != 0
    ensures (item.quantity.None? || item.quantity.value == 0) ==> r.quantity == 1
    ensures item.quantity.Some? && item.quantity.value != 0 ==> r.quantity == item.quantity.value
    ensures Truthy(r.unitPrice.amount)
    ensures Truthy(item.price) ==> r.unitPrice.amount == item.price
    ensures !Truthy(item.price) ==> r.unitPrice.amount == Some("0.00")
    ensures r.unitPrice.currencyCode == currency
  {
    LineItem(
      OrElse(item.title, OrElse(item.name, "Unknown Item")),
      OrElseInt(item.quantity, 1),
      Money(Some(OrElse(item.price, "0.00")), currency))
  }

  function NormalizeItems(items: seq<RawLineItem>, currency: string): (r: seq<LineItem>)
    ensures |r| == |items|
    ensures forall i :: 0 <= i < |items| ==> r[i] == NormalizeItem(items[i], currency)
  {
    if items == [] then [] else [NormalizeItem(items[0], currency)] + NormalizeItems(items[1..], currency)
  }

  /**
   * The order record built from the webhook body: the first three line items in
   * their order (none when the body has no list), amounts in the order's
   * currency, the total as the body states it, and never a customer.
   */
  function Normalize(o: RawOrder): (d: OrderDetails)
    ensures d.id == o.id && d.name == OrderName(o) && d.customer.None?
    ensures d.totalPrice == Money(o.totalPrice, OrderCurrency(o))
    ensures var raw := o.lineItems.GetOr([]);
      && |d.lineItems| == (if |raw| < 3 then |raw| else 3)
      && forall i :: 0 <= i < |d.lineItems| ==> d.lineItems[i] == NormalizeItem(raw[i], OrderCurrency(o))
  {
    var currency := OrderCurrency(o);
    OrderDetails(o.id, OrderName(o), Money(o.totalPrice, currency), None,
      NormalizeItems(Slice(o.lineItems.GetOr([]), 3), currency))
  }

  /** A record read back as a webhook body, every field present. */
  function Embed(d: OrderDetails): RawOrder {
    RawOrder(d.id, Some(d.name), None, d.totalPrice.amount, Some(d.totalPrice.currencyCode),
      Some(seq(|d.lineItems|, i requires 0 <= i < |d.lineItems| => EmbedItem(d.lineItems[i]))))
  }

  function EmbedItem(item: LineItem): RawLineItem {
    RawLineItem(Some(item.title), None, Some(item.quantity), item.unitPrice.amount)
  }

  /** Every default the normaliser applies leaves a field no later `||` would replace. */
  lemma NormalizedFieldsAreSet(o: RawOrder)
    ensures var d := Normalize(o);
      && d.name != [] && d.totalPrice.currencyCode != []
      && forall i :: 0 <= i < |d.lineItems| ==>
           && d.lineItems[i].title != [] && d.lineItems[i].quantity != 0
           && Truthy(d.lineItems[i].unitPrice.amount)
           && d.lineItems[i].unitPrice.currencyCode == d.totalPrice.currencyCode
  {
  }

  /** Normalising is idempotent: a normalised order, read back as a body, normalises to itself. */
  lemma NormalizeIdempotent(o: RawOrder)
    ensures Normalize(Embed(Normalize(o))) == Normalize(o)
  {
    var d := Normalize(o);
    var e := Embed(d);
    var d2 := Normalize(e);
    var raw := e.lineItems.GetOr([]);
    assert |raw| == |d.lineItems| <= 3;
    assert Slice(raw, 3) == raw;
    forall i | 0 <= i < |d.lineItems|
      ensures d2.lineItems[i] == d.lineItems[i]
    {
      var item := d.lineItems[i];
      assert raw[i] == EmbedItem(item);
      assert item.unitPrice.currencyCode == OrderCurrency(o);
    }
    assert d2.lineItems == d.lineItems;
  }

  // ---------------------------------------------------------------- the decision

  /** The total the handler compares: `total_price`, or "0" when it is missing or empty, parsed. */
  function OrderTotal(o: RawOrder): Number {
    ParseFloat(OrElse(o.totalPrice, "0"))
  }

  predicate ExceedsThreshold(o: RawOrder, s: Settings) {
    GreaterThan(OrderTotal(o), s.orderThreshold)
  }

  /** The alert rule: strictly over the threshold, and a recipient to send to. */
  predicate ShouldAlert(o: RawOrder, s: Settings) {
    ExceedsThreshold(o, s) && s.emailRecipient != ""
  }

  /** The shop has a settings record and it has alerts enabled. */
  predicate AlertsOn(table: Table, shop: string) {
    shop in table && table[shop].isEnabled
  }

  /** The trace holds an alert call. */
  predicate SentAlert(effects: seq<Effect>) {
    exists i :: 0 <= i < |effects| && effects[i].Alert?
  }

  lemma NoAlertIn(effects: seq<Effect>)
    requires forall i :: 0 <= i < |effects| ==> !effects[i].Alert?
    ensures !SentAlert(effects)
  {
  }

  /** The alert the handlers send for an order record under a shop's settings. */
  function AlertFor(s: Settings, order: OrderDetails, shopDomain: Option<string>): Effect {
    Alert(AlertRequest(s.emailRecipient, order, s.orderThreshold, shopDomain))
  }

  /** The handler; `shopDomain` is the configured shop domain the alert's link uses. */
  method HandleOrderCreated(auth: WebhookAuth, store: SettingsStore, shopDomain: Option<string>)
    returns (reply: Reply, effects: seq<Effect>)
    ensures auth.AuthFailed? ==> reply == Unauthorized && effects == []
    ensures auth.Authenticated? && auth.payload.None? ==> reply == MissingBody && effects == []
    ensures auth.Authenticated? && auth.payload.Some? && !AlertsOn(store.table, auth.shop) ==>
      reply == AlertsOff && effects == [ReadSettings(auth.shop)]
    ensures auth.Authenticated? && auth.payload.Some? && AlertsOn(store.table, auth.shop) ==>
      var s := store.table[auth.shop];
      var o := auth.payload.value;
      && reply == Handled
      && (ShouldAlert(o, s) ==> effects == [ReadSettings(auth.shop), AlertFor(s, Normalize(o), shopDomain)])
      && (!ShouldAlert(o, s) ==> effects == [ReadSettings(auth.shop)])
    ensures SentAlert(effects) <==>
      auth.Authenticated? && auth.payload.Some? && AlertsOn(store.table, auth.shop)
      && ShouldAlert(auth.payload.value, store.table[auth.shop])
  {
    if auth.AuthFailed? {
      reply := Unauthorized;
      effects := [];
      return;
    }
    if auth.payload.None? {
      reply := MissingBody;
      effects := [];
      return;
    }
    var settings := store.FindUnique(auth.shop);
    effects := [ReadSettings(auth.shop)];
    NoAlertIn(effects);
    if settings.None? || !settings.value.isEnabled {
      reply := AlertsOff;
      return;
    }
    var order := auth.payload.value;
    var s := settings.value;
    var orderTotal := OrderTotal(order);
    if GreaterThan(orderTotal, s.orderThreshold) {
      if s.emailRecipient != "" {
        var orderDetails := Normalize(order);
        effects := [ReadSettings(auth.shop), Alert(AlertRequest(s.emailRecipient, orderDetails, s.orderThreshold, shopDomain))];
        assert effects[1].Alert?;
      }
    }
    reply := Handled;
  }

  // ---------------------------------------------------------------- properties of the rule

  /** A total exactly at the threshold never alerts. */
  lemma AtThresholdNeverAlerts(o: RawOrder, s: Settings)
    requires OrderTotal(o) == Finite(s.orderThreshold)
    ensures !ShouldAlert(o, s)
  {
  }

  /** A total that does not parse is NaN, and NaN is never over any threshold. */
  lemma UnparsableTotalNeverAlerts(o: RawOrder, s: Settings)
    requires OrderTotal(o).NaN?
    ensures !ShouldAlert(o, s)
  {
  }

  /** A missing or empty total counts as zero. */
  lemma MissingTotalIsZero(o: RawOrder)
    requires !Truthy(o.totalPrice)
    ensures OrderTotal(o) == Finite(0.0)
  {
    assert NatText(0) == "0";
    ParseNatText(0);
  }

  /** So a missing total never alerts under a threshold of zero or more. */
  lemma MissingTotalNeverAlerts(o: RawOrder, s: Settings)
    requires !Truthy(o.totalPrice) && s.orderThreshold >= 0.0
    ensures !ShouldAlert(o, s)
  {
    MissingTotalIsZero(o);
  }

  /** A total written with two decimals alerts exactly when its value is over the threshold and a recipient is set. */
  lemma CentsTotalAlertsIffOver(o: RawOrder, s: Settings, cents: int)
    requires o.totalPrice == Some(Fixed2(cents as real / 100.0))
    ensures ShouldAlert(o, s) <==> cents as real / 100.0 > s.orderThreshold && s.emailRecipient != ""
  {
    Fixed2Shape(cents as real / 100.0);
    ParseFixed2Exact(cents);
  }
}
