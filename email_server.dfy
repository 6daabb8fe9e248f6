/**
 * The alert composer of the email service: `sendOrderAlert` renders a fixed
 * plain-text message from an order and the shop's threshold, writes it to the
 * log (no mail transport is configured) and always reports success.
 */
module EmailServer {
  import opened Wrappers
  import opened JsStrings
  import opened JsNumbers

  /** An amount as the store's API gives it: decimal text, and its currency code. */
  datatype Money = Money(amount: Option<string>, currencyCode: string)

  datatype LineItem = LineItem(title: string, quantity: int, unitPrice: Money)

  datatype Customer = Customer(firstName: string, lastName: string, email: string)

  /** The order shape `sendOrderAlert` accepts; the line items are the nodes of `lineItems.edges`. */
  datatype OrderDetails = OrderDetails(
    id: Option<string>,
    name: string,
    totalPrice: Money,
    customer: Option<Customer>,
    lineItems: seq<LineItem>)

  datatype SendResult = SendResult(success: bool, message: string)

  /** What one call does: the message it writes to the log for `recipient`, and what it returns. */
  datatype AlertReport = AlertReport(recipient: string, content: string, result: SendResult)

  const AlertHeader: string := "\U{1F6A8} HIGH VALUE ORDER ALERT \U{1F6A8}"
  const GuestCustomer: string := "Guest Customer"
  const LoggedMessage: string := "Order alert logged (email service not configured)"

  /** The customer line's name: "Guest Customer" without a customer, else the trimmed full name, which may be empty. */
  function CustomerName(customer: Option<Customer>): (r: string)
    ensures customer.None? ==> r == GuestCustomer
    ensures customer.Some? ==> IsTrimmed(r) && r == Trim(customer.value.firstName + " " + customer.value.lastName)
  {
    if customer.None? then GuestCustomer else Trim(customer.value.firstName + " " + customer.value.lastName)
  }

  /** One item line; the currency shown is the order's, passed in, not the item's own. */
  function ItemLine(item: LineItem, currency: string): string {
    item.title + " (Qty: " + IntText(item.quantity) + ") - " + currency + " "
      + ToFixed2(ParseFloatOf(item.unitPrice.amount))
  }

  function ItemLines(items: seq<LineItem>, currency: string): (lines: seq<string>)
    ensures |lines| == |items|
    ensures forall i :: 0 <= i < |items| ==> lines[i] == ItemLine(items[i], currency)
  {
    if items == [] then [] else [ItemLine(items[0], currency)] + ItemLines(items[1..], currency)
  }

  /** The items section: the lines of the first three items, joined by newlines. */
  function TopItems(order: OrderDetails): string {
    Join(ItemLines(Slice(order.lineItems, 3), order.totalPrice.currencyCode), "\n")
  }

  /** Text of the order id in a template string: an absent id reads `undefined` (a `null` id is not modelled). */
  function IdText(id: Option<string>): string {
    id.GetOr("undefined")
  }

  /** The admin deep link; a missing or empty shop domain becomes `your-store`. */
  function OrderLink(shopDomain: Option<string>, id: Option<string>): (r: string)
    ensures !Truthy(shopDomain) ==> r == "https://" + "your-store" + ".myshopify.com/admin/orders/" + IdText(id)
    ensures Truthy(shopDomain) ==> r == "https://" + shopDomain.value + ".myshopify.com/admin/orders/" + IdText(id)
  {
    "https://" + OrElse(shopDomain, "your-store") + ".myshopify.com/admin/orders/" + IdText(id)
  }

  /** The texts the template interpolates, each as it prints. */
  datatype MessageFields = MessageFields(
    name: string,
    customer: string,
    currency: string,
    total: string,
    threshold: string,
    items: string,
    link: string)

  /**
   * The fields of the message for an order: the total parsed and printed to two
   * decimals, the threshold printed to two decimals, both after the order's currency.
   */
  function Fields(order: OrderDetails, threshold: real, shopDomain: Option<string>): MessageFields {
    MessageFields(
      order.name,
      CustomerName(order.customer),
      order.totalPrice.currencyCode,
      ToFixed2(ParseFloatOf(order.totalPrice.amount)),
      Fixed2(threshold),
      TopItems(order),
      OrderLink(shopDomain, order.id))
  }

  /** The lines of the alert text, in order (the items section is one entry and may span several lines). */
  function MessageLines(f: MessageFields): seq<string> {
    [ AlertHeader,
      "",
      "Order Details:",
      "- Order #: " + f.name,
      "- Customer: " + f.customer,
      "- Order Total: " + f.currency + " " + f.total,
      "- Threshold: " + f.currency + " " + f.threshold,
      "",
      "Top 3 Items:",
      f.items,
      "",
      "Order Link: " + f.link,
      "",
      "This order exceeds your configured threshold of " + f.currency + " " + f.threshold + "." ]
  }

  function MessageText(f: MessageFields): string {
    Join(MessageLines(f), "\n")
  }

  /**
   * The message: the template spans from a newline after its opening quote to
   * two spaces of indentation before its closing one, and is then trimmed.
   */
  function EmailContent(order: OrderDetails, threshold: real, shopDomain: Option<string>): (r: string)
    ensures r == MessageText(Fields(order, threshold, shopDomain))
  {
    var body := MessageText(Fields(order, threshold, shopDomain));
    MessageIsTrimmed(Fields(order, threshold, shopDomain));
    TrimFramed("\n", body, "\n  ");
    Trim("\n" + body + "\n  ")
  }

  /** The message starts with the alert header and has no white space at either end. */
  lemma MessageIsTrimmed(f: MessageFields)
    ensures var body := MessageText(f);
      body != [] && IsTrimmed(body) && |AlertHeader| <= |body| && body[..|AlertHeader|] == AlertHeader
  {
    var lines := MessageLines(f);
    var last := lines[13];
    assert |lines| == 14 && lines[0] == AlertHeader;
    assert last != [] && last[|last| - 1] == '.';
    JoinStartsWith(lines, "\n");
    JoinEndsWith(lines, "\n");
    var body := Join(lines, "\n");
    assert body[0] == AlertHeader[0];
    assert body[|body| - 1] == last[|last| - 1];
  }

  /** Each interpolated line of the template occurs in the message text. */
  lemma TextShowsFields(f: MessageFields)
    ensures Contains(MessageText(f), "- Order #: " + f.name)
    ensures Contains(MessageText(f), "- Customer: " + f.customer)
    ensures Contains(MessageText(f), "- Order Total: " + f.currency + " " + f.total)
    ensures Contains(MessageText(f), "- Threshold: " + f.currency + " " + f.threshold)
    ensures Contains(MessageText(f), f.items)
    ensures Contains(MessageText(f), "Order Link: " + f.link)
    ensures Contains(MessageText(f), "This order exceeds your configured threshold of " + f.currency + " " + f.threshold + ".")
  {
    var lines := MessageLines(f);
    JoinContainsPart(lines, "\n", 3);
    JoinContainsPart(lines, "\n", 4);
    JoinContainsPart(lines, "\n", 5);
    JoinContainsPart(lines, "\n", 6);
    JoinContainsPart(lines, "\n", 9);
    JoinContainsPart(lines, "\n", 11);
    JoinContainsPart(lines, "\n", 13);
  }

  /** `sendOrderAlert`: logs the message for `to` and always answers success. */
  function SendOrderAlert(to: string, order: OrderDetails, threshold: real, shopDomain: Option<string>): (r: AlertReport)
    ensures r.result == SendResult(true, LoggedMessage)
    ensures r.recipient == to && r.content == EmailContent(order, threshold, shopDomain)
  {
    AlertReport(to, EmailContent(order, threshold, shopDomain), SendResult(true, LoggedMessage))
  }

  // ---------------------------------------------------------------- what the message shows

  /** The message names the order and the customer. */
  lemma ContentShowsOrderAndCustomer(order: OrderDetails, threshold: real, shopDomain: Option<string>)
    ensures Contains(EmailContent(order, threshold, shopDomain), "- Order #: " + order.name)
    ensures Contains(EmailContent(order, threshold, shopDomain), "- Customer: " + CustomerName(order.customer))
  {
    var f := Fields(order, threshold, shopDomain);
    assert f.name == order.name && f.customer == CustomerName(order.customer);
    TextShowsFields(f);
  }

  /** The message shows the total, parsed and printed to two decimals, after the order's currency. */
  lemma ContentShowsTotal(order: OrderDetails, threshold: real, shopDomain: Option<string>)
    ensures Contains(EmailContent(order, threshold, shopDomain),
      "- Order Total: " + order.totalPrice.currencyCode + " " + ToFixed2(ParseFloatOf(order.totalPrice.amount)))
  {
    var f := Fields(order, threshold, shopDomain);
    assert f.currency == order.totalPrice.currencyCode && f.total == ToFixed2(ParseFloatOf(order.totalPrice.amount));
    TextShowsFields(f);
  }

  /** The message shows the threshold to two decimals, and again in its closing sentence. */
  lemma ContentShowsThreshold(order: OrderDetails, threshold: real, shopDomain: Option<string>)
    ensures Contains(EmailContent(order, threshold, shopDomain),
      "- Threshold: " + order.totalPrice.currencyCode + " " + Fixed2(threshold))
    ensures Contains(EmailContent(order, threshold, shopDomain),
      "This order exceeds your configured threshold of " + order.totalPrice.currencyCode + " " + Fixed2(threshold) + ".")
  {
    var f := Fields(order, threshold, shopDomain);
    assert f.currency == order.totalPrice.currencyCode && f.threshold == Fixed2(threshold);
    TextShowsFields(f);
  }

  /** The message carries the admin link of the order. */
  lemma ContentShowsLink(order: OrderDetails, threshold: real, shopDomain: Option<string>)
    ensures Contains(EmailContent(order, threshold, shopDomain), "Order Link: " + OrderLink(shopDomain, order.id))
  {
    var f := Fields(order, threshold, shopDomain);
    assert f.link == OrderLink(shopDomain, order.id);
    TextShowsFields(f);
  }

  /** Each of the first three items has its line in the message, in the order's currency. */
  lemma ContentShowsItem(order: OrderDetails, threshold: real, shopDomain: Option<string>, k: nat)
    requires k < 3 && k < |order.lineItems|
    ensures Contains(EmailContent(order, threshold, shopDomain), ItemLine(order.lineItems[k], order.totalPrice.currencyCode))
  {
    var f := Fields(order, threshold, shopDomain);
    var top := Slice(order.lineItems, 3);
    var itemLines := ItemLines(top, order.totalPrice.currencyCode);
    assert f.items == Join(itemLines, "\n");
    assert itemLines[k] == ItemLine(order.lineItems[k], order.totalPrice.currencyCode);
    JoinContainsPart(itemLines, "\n", k);
    TextShowsFields(f);
    ContainsTransitive(MessageText(f), f.items, itemLines[k]);
  }

  /** The items section lists at most three lines: items after the third never reach the message. */
  lemma TopItemsIgnoresRest(order: OrderDetails)
    ensures TopItems(order) == TopItems(order.(lineItems := Slice(order.lineItems, 3)))
    ensures |ItemLines(Slice(order.lineItems, 3), order.totalPrice.currencyCode)| <= 3
  {
    var s := Slice(order.lineItems, 3);
    assert Slice(s, 3) == s;
  }

  function WithCurrency(item: LineItem, currency: string): LineItem {
    item.(unitPrice := item.unitPrice.(currencyCode := currency))
  }

  /** An item line shows the order's currency whatever currency the item carries. */
  lemma ItemLineIgnoresItemCurrency(item: LineItem, other: string, currency: string)
    ensures ItemLine(WithCurrency(item, other), currency) == ItemLine(item, currency)
  {
    assert WithCurrency(item, other).unitPrice.amount == item.unitPrice.amount;
  }

  /** The items section does not depend on the items' own currency codes. */
  lemma {:induction false} ItemLinesIgnoreItemCurrency(items: seq<LineItem>, currency: string, other: seq<string>)
    requires |other| == |items|
    ensures ItemLines(seq(|items|, i requires 0 <= i < |items| => WithCurrency(items[i], other[i])), currency)
         == ItemLines(items, currency)
  {
    var changed := seq(|items|, i requires 0 <= i < |items| => WithCurrency(items[i], other[i]));
    var a := ItemLines(changed, currency);
    var b := ItemLines(items, currency);
    forall i | 0 <= i < |items|
      ensures a[i] == b[i]
    {
      ItemLineIgnoresItemCurrency(items[i], other[i], currency);
    }
  }

  /** Without a customer the message reads "Guest Customer", whatever else the order holds. */
  lemma GuestWithoutCustomer(order: OrderDetails, threshold: real, shopDomain: Option<string>)
    requires order.customer.None?
    ensures Contains(EmailContent(order, threshold, shopDomain), "- Customer: " + GuestCustomer)
  {
    ContentShowsOrderAndCustomer(order, threshold, shopDomain);
  }
}
