/**
 * The sample order of the repository's webhook test script, run through the
 * model: the settings page stores a threshold of 100.00 with alerts on, the
 * `orders/create` webhook receives the 150.00 order, and the alert text shows
 * the order, the amounts and the items. A total of exactly 100.00 and
 * disabled alerts are the cases that do not alert.
 */
module Scenarios {
  import opened Wrappers
  import opened JsStrings
  import opened JsNumbers
  import opened EmailServer
  import opened AppIndex
  import opened OrdersCreateWebhook
  import opened OrdersCreateQueryWebhook

  const Shop: string := "test-shop.myshopify.com"
  const Recipient: string := "a@b.com"
  const OrderId: string := "gid://shopify/Order/123456789"

  /** The sample body; its customer object is a field the handler never reads, so it is absent here. */
  const TestOrder: RawOrder := RawOrder(
    Some(OrderId), Some("#1001"), None, Some("150.00"), Some("USD"),
    Some([ RawLineItem(Some("Test Product 1"), None, Some(2), Some("50.00")),
           RawLineItem(Some("Test Product 2"), None, Some(1), Some("50.00")) ]))

  const TestSettings: Settings := Settings(100.0, Recipient, true)

  /** The settings form as the page submits it, with the checkbox ticked. */
  const TestForm: FormData := map["orderThreshold" := "100.00", "emailRecipient" := Recipient, "isEnabled" := "on"]

  /** The normalised sample order, as the handler passes it to the composer. */
  const TestDetails: OrderDetails := OrderDetails(
    Some(OrderId), "#1001", Money(Some("150.00"), "USD"), None,
    [ LineItem("Test Product 1", 2, Money(Some("50.00"), "USD")),
      LineItem("Test Product 2", 1, Money(Some("50.00"), "USD")) ])

  lemma HundredText()
    ensures Fixed2(100.0) == "100.00"
  {
    assert Cents(100.0) == 10000;
  }

  lemma HundredFiftyText()
    ensures Fixed2(150.0) == "150.00"
  {
    assert Cents(150.0) == 15000;
  }

  lemma FiftyText()
    ensures Fixed2(50.0) == "50.00"
  {
    assert Cents(50.0) == 5000;
  }

  /** The sample total reads as 150. */
  lemma TestOrderTotal()
    ensures OrderTotal(TestOrder) == Finite(150.0)
  {
    HundredFiftyText();
    ParseFixed2Exact(15000);
  }

  /** 150.00 is over the threshold of 100 and a recipient is set: the sample order alerts. */
  lemma TestOrderAlerts()
    ensures ShouldAlert(TestOrder, TestSettings)
  {
    TestOrderTotal();
  }

  /** The same order with a total of exactly 100.00 does not. */
  lemma AtHundredDoesNotAlert()
    ensures !ShouldAlert(TestOrder.(totalPrice := Some("100.00")), TestSettings)
  {
    HundredText();
    ParseFixed2Exact(10000);
    AtThresholdNeverAlerts(TestOrder.(totalPrice := Some("100.00")), TestSettings);
  }

  /** The normaliser keeps the sample's fields and puts every amount in the order's currency. */
  lemma TestOrderNormalized()
    ensures Normalize(TestOrder) == TestDetails
  {
    var d := Normalize(TestOrder);
    assert d.lineItems[0] == TestDetails.lineItems[0];
    assert d.lineItems[1] == TestDetails.lineItems[1];
  }

  /** The form stores a threshold of 100, the recipient, and alerts on. */
  lemma TestFormIsStored()
    ensures ToRecord(DecodeForm(TestForm)) == Some(TestSettings)
  {
    HundredText();
    ParseFixed2Exact(10000);
    SavedFormIsStored(TestForm);
  }

  /** A price of "50.00" prints back as 50.00. */
  lemma FiftyPrints()
    ensures ToFixed2(ParseFloatOf(Some("50.00"))) == "50.00"
  {
    FiftyText();
    ParseFixed2Exact(5000);
  }

  /** The two item lines, "Test Product 1 (Qty: 2) - USD 50.00" and "Test Product 2 (Qty: 1) - USD 50.00". */
  const ItemLine1: string := "Test Product 1" + " (Qty: " + "2" + ") - " + "USD" + " " + "50.00"
  const ItemLine2: string := "Test Product 2" + " (Qty: " + "1" + ") - " + "USD" + " " + "50.00"

  lemma TestItemLines()
    ensures ItemLines(Slice(TestDetails.lineItems, 3), "USD") == [ItemLine1, ItemLine2]
  {
    FiftyPrints();
    assert IntText(2) == "2" && IntText(1) == "1";
    var lines := ItemLines(TestDetails.lineItems, "USD");
    assert lines[0] == ItemLine(TestDetails.lineItems[0], "USD") == ItemLine1;
    assert lines[1] == ItemLine(TestDetails.lineItems[1], "USD") == ItemLine2;
  }

  /** The admin link without a configured shop domain. */
  const Link: string := "https://" + "your-store" + ".myshopify.com/admin/orders/" + OrderId

  /** What the template interpolates for the sample, without a configured shop domain. */
  lemma TestFields()
    ensures Fields(TestDetails, 100.0, None) == MessageFields(
      "#1001", GuestCustomer, "USD", "150.00", "100.00", Join([ItemLine1, ItemLine2], "\n"),
      Link)
  {
    HundredFiftyText();
    ParseFixed2Exact(15000);
    HundredText();
    TestItemLines();
  }

  /** The alert text for the sample shows the order, the guest customer, both amounts, both items and the link. */
  lemma TestAlertContent()
    ensures var content := EmailContent(TestDetails, 100.0, None);
      && Contains(content, "- Order #: " + "#1001")
      && Contains(content, "- Customer: " + "Guest Customer")
      && Contains(content, "- Order Total: " + "USD" + " " + "150.00")
      && Contains(content, "- Threshold: " + "USD" + " " + "100.00")
      && Contains(content, ItemLine1)
      && Contains(content, ItemLine2)
      && Contains(content, "Order Link: " + Link)
  {
    TestFields();
    var f := Fields(TestDetails, 100.0, None);
    TextShowsFields(f);
    JoinContainsPart([ItemLine1, ItemLine2], "\n", 0);
    JoinContainsPart([ItemLine1, ItemLine2], "\n", 1);
    ContainsTransitive(MessageText(f), f.items, ItemLine1);
    ContainsTransitive(MessageText(f), f.items, ItemLine2);
  }

  /** Settings saved through the page, then the sample webhook: one settings read and one alert for the recipient. */
  method SampleRun() returns (saved: SaveReply, reply: Reply, effects: seq<Effect>)
    ensures saved == Redirect("/app")
    ensures reply == Handled
    ensures effects == [ReadSettings(Shop), Alert(AlertRequest(Recipient, TestDetails, 100.0, None))]
  {
    var store := new SettingsStore();
    saved := store.Save(Shop, TestForm);
    TestFormIsStored();
    TestOrderAlerts();
    TestOrderNormalized();
    reply, effects := HandleOrderCreated(Authenticated(Shop, Some(TestOrder)), store, None);
  }

  /** With alerts switched off the same webhook only reads the settings. */
  method DisabledRun() returns (reply: Reply, effects: seq<Effect>)
    ensures reply == AlertsOff
    ensures effects == [ReadSettings(Shop)]
  {
    var store := new SettingsStore();
    store.Upsert(Shop, TestSettings.(isEnabled := false));
    reply, effects := HandleOrderCreated(Authenticated(Shop, Some(TestOrder)), store, None);
  }

  /** The querying variant on the sample order: the order is over the threshold, so it is queried; a failed query is a 500. */
  method QueryFailsRun() returns (reply: Reply, effects: seq<Effect>)
    ensures reply == ProcessingFailed
    ensures effects == [ReadSettings(Shop), QueryOrder(Some(OrderId))]
  {
    var store := new SettingsStore();
    store.Upsert(Shop, TestSettings);
    TestOrderAlerts();
    reply, effects := HandleOrderCreatedWithQuery(Authenticated(Shop, Some(TestOrder)), store, QueryFailed, None);
  }

  /** Unticking the box on the page and saving: the upsert throws and the shop's alerts stay on. */
  method UntickedSaveRun() returns (saved: SaveReply, found: Option<Settings>)
    ensures saved == UpsertThrows
    ensures found == Some(TestSettings)
  {
    var store := new SettingsStore();
    store.Upsert(Shop, TestSettings);
    UntickedFormIsNotStored("100.00", Recipient);
    saved := store.Save(Shop, PageForm(false, "100.00", Recipient));
    found := store.FindUnique(Shop);
  }

  /** The same save with the intended form switches the shop's alerts off and keeps its threshold and recipient. */
  method IntendedUntickedSaveRun() returns (saved: SaveReply, found: Option<Settings>)
    ensures saved == Redirect("/app")
    ensures found == Some(TestSettings.(isEnabled := false))
  {
    var store := new SettingsStore();
    store.Upsert(Shop, TestSettings);
    HundredText();
    ParseFixed2Exact(10000);
    IntendedFormStoresSwitch(false, "100.00", Recipient);
    saved := store.Save(Shop, IntendedPageForm(false, "100.00", Recipient));
    found := store.FindUnique(Shop);
  }
}
