/** The PayPal webhook endpoint (server/src/routes/webhooks.ts): the
    signature-verification decision, the extraction of the PayPal invoice id
    from an event, and the reconciliation of the invoice table. The results of
    the two verification requests are parameters. */
module Webhooks {
  import opened Common
  import opened InvoiceStore

  // ---------------------------------------------------------------------------
  // Verification

  /** PAYPAL_WEBHOOK_ID, PAYPAL_CLIENT_ID and PAYPAL_CLIENT_SECRET. */
  datatype WebhookEnv = WebhookEnv(webhookId: Option<string>, clientId: Option<string>, clientSecret: Option<string>)

  /** A request and the reading of its JSON: it threw, or it answered with
      its `ok` flag and the one field read (`access_token`,
      `verification_status`). */
  datatype CallResult = Threw | Answered(ok: bool, field: Option<string>)

  /** The decision and the number of requests made to reach it. */
  datatype Verification = Verification(valid: bool, requests: nat)

  /** `verifyPayPalWebhook` */
  function VerifyWebhook(env: WebhookEnv, token: CallResult, verify: CallResult): (v: Verification)
    // No webhook id configured: accepted unverified, with no request.
    ensures !Truthy(env.webhookId) ==> v == Verification(true, 0)
    // An id but no credentials: rejected, with no request.
    ensures Truthy(env.webhookId) && !(Truthy(env.clientId) && Truthy(env.clientSecret)) ==> v == Verification(false, 0)
    // Otherwise: valid exactly when both requests answered ok and the status is SUCCESS.
    ensures v.valid <==>
      !Truthy(env.webhookId)
      || (&& Truthy(env.clientId) && Truthy(env.clientSecret)
          && token.Answered? && token.ok
          && verify.Answered? && verify.ok && verify.field == Some("SUCCESS"))
    // The verify request is made only after a token was obtained.
    ensures v.requests == 2 ==> token.Answered? && token.ok
    ensures v.requests <= 2
  {
    if !Truthy(env.webhookId) then Verification(true, 0)
    else if !Truthy(env.clientId) || !Truthy(env.clientSecret) then Verification(false, 0)
    else if !(token.Answered? && token.ok) then Verification(false, 1)
    else if !(verify.Answered? && verify.ok) then Verification(false, 2)
    else Verification(verify.field == Some("SUCCESS"), 2)
  }

  // ---------------------------------------------------------------------------
  // Events

  /** `event.resource`: `invoice.id` (the newer payload shape) and `id`. */
  datatype Resource = Resource(invoiceId: Option<string>, id: Option<string>)

  datatype WebhookEvent = WebhookEvent(eventType: string, resource: Option<Resource>)

  predicate IsPaidEvent(e: WebhookEvent)
  {
    e.eventType == "INVOICING.INVOICE.PAID" || e.eventType == "INVOICES.INVOICE.PAID"
  }

  predicate IsCancelledEvent(e: WebhookEvent)
  {
    e.eventType == "INVOICING.INVOICE.CANCELLED" || e.eventType == "INVOICES.INVOICE.CANCELLED"
  }

  /** `event.resource?.invoice?.id || event.resource?.id`, None when falsy. */
  function ProviderIdOf(e: WebhookEvent): (pid: Option<string>)
    ensures pid.Some? ==> pid.value != ""
    ensures pid.Some? <==> e.resource.Some? && (Truthy(e.resource.value.invoiceId) || Truthy(e.resource.value.id))
    ensures e.resource.Some? && Truthy(e.resource.value.invoiceId) ==> pid == e.resource.value.invoiceId
    ensures e.resource.Some? && !Truthy(e.resource.value.invoiceId) && Truthy(e.resource.value.id) ==>
      pid == e.resource.value.id
  {
    match e.resource
    case None => None
    case Some(r) =>
      if Truthy(r.invoiceId) then r.invoiceId
      else if Truthy(r.id) then r.id
      else None
  }

  /** The guild row: its notification webhook URL. */
  datatype Guild = Guild(webhookUrl: Option<string>)

  /** The payment notification sent after a PAID write: only when the
      invoice's guild has a truthy webhook URL. */
  function NotifyFor(inv: Invoice, guilds: map<string, Guild>): (calls: seq<Effect>)
    ensures |calls| <= 1
    ensures calls != [] <==> inv.guildId in guilds && Truthy(guilds[inv.guildId].webhookUrl)
    ensures calls != [] ==> calls == [Notified(inv.id, guilds[inv.guildId].webhookUrl.value)]
  {
    if inv.guildId in guilds && Truthy(guilds[inv.guildId].webhookUrl) then
      [Notified(inv.id, guilds[inv.guildId].webhookUrl.value)]
    else []
  }

  /** The table and the effects after a verified event. */
  datatype Reconciled = Reconciled(rows: map<InvoiceId, Invoice>, effects: seq<Effect>)

  /** What a verified event does to the table. */
  function Reconcile(rows: map<InvoiceId, Invoice>, guilds: map<string, Guild>, e: WebhookEvent, now: int): (r: Reconciled)
    requires DistinctProviderIds(rows)
    // An event of another type, or without a usable id, changes nothing.
    ensures (!IsPaidEvent(e) && !IsCancelledEvent(e)) || ProviderIdOf(e).None? ==> r == Reconciled(rows, [])
    // A PAID event for an unknown PayPal id changes nothing.
    ensures IsPaidEvent(e) && ProviderIdOf(e).Some? && ProviderRow(rows, ProviderIdOf(e).value).None? ==>
      r == Reconciled(rows, [])
    // A PAID event for a known id marks that one row PAID at `now`, whatever
    // its status was, and then notifies the guild.
    ensures IsPaidEvent(e) && ProviderIdOf(e).Some? && ProviderRow(rows, ProviderIdOf(e).value).Some? ==>
      var id := ProviderRow(rows, ProviderIdOf(e).value).value;
      r == Reconciled(rows[id := rows[id].(status := Paid, paidAt := Some(now))],
                      [StatusSet(id, Paid)] + NotifyFor(rows[id], guilds))
    // A CANCELLED event cancels every row holding the id, PAID ones included.
    ensures IsCancelledEvent(e) && ProviderIdOf(e).Some? ==>
      r == Reconciled(CancelByProvider(rows, ProviderIdOf(e).value), [CancelledByProvider(ProviderIdOf(e).value)])
  {
    match ProviderIdOf(e)
    case None => Reconciled(rows, [])
    case Some(pid) =>
      if IsPaidEvent(e) then
        match ProviderRow(rows, pid)
        case None => Reconciled(rows, [])
        case Some(id) =>
          Reconciled(rows[id := rows[id].(status := Paid, paidAt := Some(now))],
                     [StatusSet(id, Paid)] + NotifyFor(rows[id], guilds))
      else if IsCancelledEvent(e) then
        Reconciled(CancelByProvider(rows, pid), [CancelledByProvider(pid)])
      else Reconciled(rows, [])
  }

  /** POST /paypal: `verification` is what `verifyPayPalWebhook` decided. */
  method HandlePayPalWebhook(db: InvoiceTable, guilds: map<string, Guild>, e: WebhookEvent, verification: Verification, now: int)
    returns (status: int, body: string)
    requires db.Valid()
    modifies db
    ensures db.Valid()
    // An unverified event: 401 and no write.
    ensures !verification.valid ==> status == 401 && body == "Unauthorized" && unchanged(db)
    // Every verified event: 200 "OK", with the writes and notifications of `Reconcile`.
    ensures verification.valid ==>
      && status == 200 && body == "OK"
      && db.rows == Reconcile(old(db.rows), guilds, e, now).rows
      && db.effects == old(db.effects) + Reconcile(old(db.rows), guilds, e, now).effects
      && db.nextId == old(db.nextId)
  {
    if !verification.valid {
      return 401, "Unauthorized";
    }
    var pid := ProviderIdOf(e);
    if IsPaidEvent(e) {
      if pid.None? {
        return 200, "OK";
      }
      var found := db.FindByProvider(pid.value);
      if found.None? {
        return 200, "OK";
      }
      var inv := found.value;
      var _ := db.MarkPaid(inv.id, now);
      if inv.guildId in guilds && Truthy(guilds[inv.guildId].webhookUrl) {
        db.Record(Notified(inv.id, guilds[inv.guildId].webhookUrl.value));
      }
    }
    if IsCancelledEvent(e) && pid.Some? {
      db.CancelAllWithProvider(pid.value);
    }
    return 200, "OK";
  }

  // ---------------------------------------------------------------------------
  // What the handler does not guard against

  /** A PAID event and a CANCELLED event never share a type. */
  lemma PaidAndCancelledExclusive(e: WebhookEvent)
    ensures !(IsPaidEvent(e) && IsCancelledEvent(e))
  {
  }

  /** Replaying a PAID event is not a no-op: the payment time is rewritten
      with the later time and the guild is notified again. */
  lemma PaidReplayRewrites(rows: map<InvoiceId, Invoice>, guilds: map<string, Guild>, e: WebhookEvent, t1: int, t2: int)
    requires DistinctProviderIds(rows)
    requires IsPaidEvent(e) && ProviderIdOf(e).Some? && ProviderRow(rows, ProviderIdOf(e).value).Some?
    ensures var first := Reconcile(rows, guilds, e, t1);
      DistinctProviderIds(first.rows)
      && var second := Reconcile(first.rows, guilds, e, t2);
      var id := ProviderRow(rows, ProviderIdOf(e).value).value;
      && second.rows[id].status == Paid && second.rows[id].paidAt == Some(t2)
      && second.effects == [StatusSet(id, Paid)] + NotifyFor(rows[id], guilds)
  {
    var pid := ProviderIdOf(e).value;
    var id := ProviderRow(rows, pid).value;
    var first := Reconcile(rows, guilds, e, t1);
    assert first.rows == rows[id := rows[id].(status := Paid, paidAt := Some(t1))];
    assert first.rows[id].paypalInvoiceId == Some(pid);
    assert DistinctProviderIds(first.rows);
    var j := ProviderRow(first.rows, pid).value;
    assert j == id;
  }

  /** A CANCELLED event after a PAID one leaves the row CANCELLED (its
      payment time kept). */
  lemma CancelledOverwritesPaid(rows: map<InvoiceId, Invoice>, guilds: map<string, Guild>, paid: WebhookEvent, cancelled: WebhookEvent, now: int)
    requires DistinctProviderIds(rows)
    requires IsPaidEvent(paid) && ProviderIdOf(paid).Some? && ProviderRow(rows, ProviderIdOf(paid).value).Some?
    requires IsCancelledEvent(cancelled) && ProviderIdOf(cancelled) == ProviderIdOf(paid)
    ensures var first := Reconcile(rows, guilds, paid, now);
      DistinctProviderIds(first.rows)
      && var id := ProviderRow(rows, ProviderIdOf(paid).value).value;
      var second := Reconcile(first.rows, guilds, cancelled, now);
      && first.rows[id].status == Paid
      && second.rows[id].status == Cancelled && second.rows[id].paidAt == Some(now)
  {
    var pid := ProviderIdOf(paid).value;
    var id := ProviderRow(rows, pid).value;
    var first := Reconcile(rows, guilds, paid, now);
    assert first.rows == rows[id := rows[id].(status := Paid, paidAt := Some(now))];
  }
}
