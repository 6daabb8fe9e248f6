/**
 * The variant of the `orders/create` webhook that, once an order is over the
 * threshold, asks the store's API for the order's details (customer and first
 * three line items included) and alerts with those. The API's answer is an
 * input: a failure, or the order record if the store returned one.
 */
module OrdersCreateQueryWebhook {
  import opened Wrappers
  import opened EmailServer
  import opened AppIndex
  import opened OrdersCreateWebhook

  /** What the order query comes back with: an error raised while querying, or the order, if any. */
  datatype QueryOutcome = QueryFailed | QueryAnswered(order: Option<OrderDetails>)

  const ProcessingFailed: Reply := Json(500, false, None, Some("Failed to process order alert"))

  predicate QueriedOrder(effects: seq<Effect>) {
    exists i :: 0 <= i < |effects| && effects[i].QueryOrder?
  }

  /**
   * What the handler answers and which calls it makes, case by case: a failed
   * authentication escapes; a missing body is a thrown 400; no settings or
   * disabled alerts end after the settings read; a total not over the
   * threshold ends there too; otherwise the order is queried, a failure is a
   * 500, and an alert goes out when the query found the order and a recipient
   * is set.
   */
  function QueryFlow(auth: WebhookAuth, table: Table, query: QueryOutcome, shopDomain: Option<string>): (Reply, seq<Effect>) {
    if auth.AuthFailed? then (Escaped, [])
    else if auth.payload.None? then (MissingBody, [])
    else if !AlertsOn(table, auth.shop) then (AlertsOff, [ReadSettings(auth.shop)])
    else
      var s := table[auth.shop];
      var o := auth.payload.value;
      if !ExceedsThreshold(o, s) then (Handled, [ReadSettings(auth.shop)])
      else
        var asked := [ReadSettings(auth.shop), QueryOrder(o.id)];
        if query.QueryFailed? then (ProcessingFailed, asked)
        else if query.order.Some? && s.emailRecipient != "" then
          (Handled, [ReadSettings(auth.shop), QueryOrder(o.id), AlertFor(s, query.order.value, shopDomain)])
        else (Handled, asked)
  }

  /**
   * The handler; a failed authentication is an exception it does not catch.
   * `query` is what the order query returns when the handler makes it.
   */
  method HandleOrderCreatedWithQuery(auth: WebhookAuth, store: SettingsStore, query: QueryOutcome, shopDomain: Option<string>)
    returns (reply: Reply, effects: seq<Effect>)
    ensures (reply, effects) == QueryFlow(auth, store.table, query, shopDomain)
  {
    if auth.AuthFailed? {
      reply := Escaped;
      effects := [];
      return;
    }
    if auth.payload.None? {
      reply := MissingBody;
      effects := [];
      return;
    }
    var settings := store.FindUnique(auth.shop);
    effects := [ReadSettings(auth.shop)];
    if settings.None? || !settings.value.isEnabled {
      reply := AlertsOff;
      return;
    }
    var order := auth.payload.value;
    var s := settings.value;
    assert s == store.table[auth.shop];
    if ExceedsThreshold(order, s) {
      effects := [ReadSettings(auth.shop), QueryOrder(order.id)];
      if query.QueryFailed? {
        reply := ProcessingFailed;
        return;
      }
      var orderDetails := query.order;
      if orderDetails.Some? && s.emailRecipient != "" {
        effects := [ReadSettings(auth.shop), QueryOrder(order.id), Alert(AlertRequest(s.emailRecipient, orderDetails.value, s.orderThreshold, shopDomain))];
      }
    }
    reply := Handled;
  }

  // ---------------------------------------------------------------- properties of the flow

  /** Authentication, body and settings gates: nothing is queried or sent before them. */
  lemma GatesComeFirst(auth: WebhookAuth, table: Table, query: QueryOutcome, shopDomain: Option<string>)
    ensures var (reply, effects) := QueryFlow(auth, table, query, shopDomain);
      && (auth.AuthFailed? ==> reply == Escaped && effects == [])
      && (auth.Authenticated? && auth.payload.None? ==> reply == MissingBody && effects == [])
      && (auth.Authenticated? && auth.payload.Some? ==> |effects| >= 1 && effects[0] == ReadSettings(auth.shop))
      && (auth.Authenticated? && auth.payload.Some? && !AlertsOn(table, auth.shop) ==>
            reply == AlertsOff && effects == [ReadSettings(auth.shop)])
  {
  }

  /** The order is queried exactly when alerts are on and the total is strictly over the threshold. */
  lemma {:induction false} QueriesIffOverThreshold(auth: WebhookAuth, table: Table, query: QueryOutcome, shopDomain: Option<string>)
    ensures var (_, effects) := QueryFlow(auth, table, query, shopDomain);
      QueriedOrder(effects) <==>
        auth.Authenticated? && auth.payload.Some? && AlertsOn(table, auth.shop)
        && ExceedsThreshold(auth.payload.value, table[auth.shop])
  {
    var (_, effects) := QueryFlow(auth, table, query, shopDomain);
    if auth.Authenticated? && auth.payload.Some? && AlertsOn(table, auth.shop)
      && ExceedsThreshold(auth.payload.value, table[auth.shop]) {
      assert effects[1].QueryOrder?;
    } else {
      assert forall i :: 0 <= i < |effects| ==> effects[i].ReadSettings?;
    }
  }

  /** An alert goes out exactly when the order was queried, the query found it, and a recipient is set. */
  lemma {:induction false} AlertsIffFoundAndRecipient(auth: WebhookAuth, table: Table, query: QueryOutcome, shopDomain: Option<string>)
    ensures var (_, effects) := QueryFlow(auth, table, query, shopDomain);
      SentAlert(effects) <==>
        && auth.Authenticated? && auth.payload.Some? && AlertsOn(table, auth.shop)
        && ExceedsThreshold(auth.payload.value, table[auth.shop])
        && query.QueryAnswered? && query.order.Some? && table[auth.shop].emailRecipient != ""
  {
    var (_, effects) := QueryFlow(auth, table, query, shopDomain);
    if && auth.Authenticated? && auth.payload.Some? && AlertsOn(table, auth.shop)
       && ExceedsThreshold(auth.payload.value, table[auth.shop])
       && query.QueryAnswered? && query.order.Some? && table[auth.shop].emailRecipient != "" {
      assert effects[2].Alert?;
    } else {
      assert forall i :: 0 <= i < |effects| ==> !effects[i].Alert?;
    }
  }

  /** The handler fails with a 500 exactly when it queries the order and the query raises an error. */
  lemma FailsIffQueryFails(auth: WebhookAuth, table: Table, query: QueryOutcome, shopDomain: Option<string>)
    ensures var (reply, _) := QueryFlow(auth, table, query, shopDomain);
      reply == ProcessingFailed <==>
        auth.Authenticated? && auth.payload.Some? && AlertsOn(table, auth.shop)
        && ExceedsThreshold(auth.payload.value, table[auth.shop]) && query.QueryFailed?
  {
  }

  /** Past the settings gate, the reply is success unless the query fails, whatever the alert outcome. */
  lemma SucceedsUnlessQueryFails(auth: WebhookAuth, table: Table, query: QueryOutcome, shopDomain: Option<string>)
    requires auth.Authenticated? && auth.payload.Some? && AlertsOn(table, auth.shop)
    ensures var (reply, _) := QueryFlow(auth, table, query, shopDomain);
      reply == ProcessingFailed || reply == Handled
  {
  }

  /** The alert carries the queried order, not the webhook body, with the shop's recipient and threshold. */
  lemma AlertUsesQueriedOrder(auth: WebhookAuth, table: Table, order: OrderDetails, shopDomain: Option<string>)
    requires auth.Authenticated? && auth.payload.Some? && AlertsOn(table, auth.shop)
    requires ExceedsThreshold(auth.payload.value, table[auth.shop]) && table[auth.shop].emailRecipient != ""
    ensures QueryFlow(auth, table, QueryAnswered(Some(order)), shopDomain)
         == (Handled, [ReadSettings(auth.shop), QueryOrder(auth.payload.value.id),
                       Alert(AlertRequest(table[auth.shop].emailRecipient, order, table[auth.shop].orderThreshold, shopDomain))])
  {
  }
}
