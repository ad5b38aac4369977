/** The invoice routes (server/src/routes/invoices.ts): create, list by
    guild, get, cancel. Each handler reads and writes the invoice table; the
    answers PayPal gives to the create and send calls are parameters (what
    produces them is modelled in the PayPal module). */
module InvoiceRoutes {
  import opened Common
  import opened Schemas
  import opened InvoiceStore
  import PayPal

  /** The user row the create route looks up by (user id, guild id). */
  datatype User = User(paypalEmail: Option<string>, currency: Option<string>)

  /** A JSON body: an error, one invoice (with an optional warning) or a list. */
  datatype Body = Error(error: string) | One(invoice: Invoice, warning: Option<string>) | Many(invoices: seq<Invoice>)

  datatype Response = Response(status: int, body: Body)

  const NoPaypalEmail: string := "PayPal email not configured. Use /setup command first."
  const CreateFailedWarning: string := "Failed to create PayPal invoice"
  const SendFailedWarning: string := "Invoice created but email sending failed. Share the link manually."
  const NotFound: string := "Invoice not found"
  const CannotCancelPaid: string := "Cannot cancel a paid invoice"
  const PageSize: nat := 50

  // ---------------------------------------------------------------------------
  // Create

  /** The user has a truthy PayPal email. */
  predicate HasPaypalEmail(users: map<(string, string), User>, req: InvoiceRequest)
  {
    (req.userId, req.guildId) in users && Truthy(users[(req.userId, req.guildId)].paypalEmail)
  }

  /** `currency || user.currency || "USD"` */
  function EffectiveCurrency(requested: string, user: User): (c: string)
    ensures requested != "" ==> c == requested
    ensures requested == "" && Truthy(user.currency) ==> c == user.currency.value
    ensures requested == "" && !Truthy(user.currency) ==> c == DefaultCurrency
  {
    if requested != "" then requested else OrElse(user.currency, DefaultCurrency)
  }

  /** The schema always supplies a three-letter currency, so the user's
      saved currency never decides the invoice currency. */
  lemma UserCurrencyUnreachable(raw: RawInvoiceRequest, isEmail: string -> bool, user: User)
    requires ParseCreateInvoice(raw, isEmail).Ok?
    ensures var req := ParseCreateInvoice(raw, isEmail).value;
      EffectiveCurrency(req.currency, user) == req.currency
  {
    var req := ParseCreateInvoice(raw, isEmail).value;
    assert |req.currency| == 3;
  }

  /** The data of the new row. */
  function RowData(req: InvoiceRequest, user: User): NewInvoice
  {
    NewInvoice(req.userId, req.guildId, req.clientDiscordId, req.clientEmail,
               req.amount, EffectiveCurrency(req.currency, user), req.description)
  }

  /** The row after the PayPal id and link are saved. */
  function WithPayPal(draft: Invoice, created: PayPal.PayPalInvoice): Invoice
  {
    draft.(paypalInvoiceId := Some(created.id), paypalLink := Some(created.href), status := Draft)
  }

  /** The PayPal invoice was created and its id can be saved (no other row holds it). */
  predicate Linkable(rows: map<InvoiceId, Invoice>, id: InvoiceId, created: Result<PayPal.PayPalInvoice, string>)
  {
    created.Ok? && !ProviderIdTaken(rows, created.value.id, id)
  }

  /** The call to PayPal's create made for the new row `draft`. */
  function CreateCall(draft: Invoice, req: InvoiceRequest, user: User): Effect
    requires Truthy(req.clientEmail) && Truthy(user.paypalEmail)
  {
    RemoteCreate(draft.id, req.amount, draft.currency, req.description, user.paypalEmail.value, req.clientEmail.value)
  }

  /** The outcome of a create for a user with a PayPal email: the DRAFT row
      is inserted first under the next id; then, from the starting table
      (`rows0`, `next0`, `effects0`) to the final one (`rows`, `effects`):
      - no client email: the DRAFT row, no PayPal call, no warning;
      - PayPal create failed, or its id is already stored: the unchanged
        DRAFT row with the create warning, and send is not attempted;
      - created, send failed: the PayPal id and link saved, still DRAFT,
        with the send warning;
      - created and sent: the row SENT, no warning. */
  predicate CreatedForUser(
    rows0: map<InvoiceId, Invoice>, next0: InvoiceId, effects0: seq<Effect>,
    req: InvoiceRequest, user: User,
    created: Result<PayPal.PayPalInvoice, string>, sent: Result<(), string>,
    rows: map<InvoiceId, Invoice>, effects: seq<Effect>, resp: Response)
    requires Truthy(user.paypalEmail)
  {
    var draft := DraftRow(next0, RowData(req, user));
    var linkable := Linkable(rows0, next0, created);
    && (!Truthy(req.clientEmail) ==>
          resp == Response(201, One(draft, None))
          && rows == rows0[next0 := draft] && effects == effects0 + [Inserted(next0)])
    && (Truthy(req.clientEmail) && !linkable ==>
          resp == Response(201, One(draft, Some(CreateFailedWarning)))
          && rows == rows0[next0 := draft]
          && effects == effects0 + [Inserted(next0), CreateCall(draft, req, user)])
    && (Truthy(req.clientEmail) && linkable && sent.Err? ==>
          resp == Response(201, One(WithPayPal(draft, created.value), Some(SendFailedWarning)))
          && rows == rows0[next0 := WithPayPal(draft, created.value)]
          && effects == effects0 + [Inserted(next0), CreateCall(draft, req, user),
                                    Linked(next0, created.value.id), RemoteSend(created.value.id)])
    && (Truthy(req.clientEmail) && linkable && sent.Ok? ==>
          resp == Response(201, One(WithPayPal(draft, created.value).(status := Sent), None))
          && rows == rows0[next0 := WithPayPal(draft, created.value).(status := Sent)]
          && effects == effects0 + [Inserted(next0), CreateCall(draft, req, user),
                                    Linked(next0, created.value.id), RemoteSend(created.value.id),
                                    StatusSet(next0, Sent)])
  }

  /** Every path of a create inserts the DRAFT row before anything else, and
      a PayPal call is made only when there is a client email. */
  lemma InsertComesFirst(
    rows0: map<InvoiceId, Invoice>, next0: InvoiceId, effects0: seq<Effect>,
    req: InvoiceRequest, user: User,
    created: Result<PayPal.PayPalInvoice, string>, sent: Result<(), string>,
    rows: map<InvoiceId, Invoice>, effects: seq<Effect>, resp: Response)
    requires Truthy(user.paypalEmail)
    requires CreatedForUser(rows0, next0, effects0, req, user, created, sent, rows, effects, resp)
    ensures |effects| > |effects0| && effects[..|effects0| + 1] == effects0 + [Inserted(next0)]
    ensures !Truthy(req.clientEmail) <==> |effects| == |effects0| + 1
    ensures resp.status == 201 && resp.body.One? && resp.body.invoice == rows[next0]
  {
  }

  /** The part of POST / after validation and the user check. */
  method CreateForUser(
    db: InvoiceTable, req: InvoiceRequest, user: User,
    created: Result<PayPal.PayPalInvoice, string>, sent: Result<(), string>)
    returns (resp: Response)
    requires db.Valid() && Truthy(user.paypalEmail) && DataOk(RowData(req, user))
    requires created.Ok? ==> created.value.id != ""
    modifies db
    ensures db.Valid() && db.nextId == old(db.nextId) + 1
    ensures CreatedForUser(old(db.rows), old(db.nextId), old(db.effects), req, user, created, sent, db.rows, db.effects, resp)
  {
    var invoice := db.Insert(RowData(req, user));
    if !Truthy(req.clientEmail) {
      return Response(201, One(invoice, None));
    }
    db.Record(RemoteCreate(invoice.id, req.amount, invoice.currency, req.description, user.paypalEmail.value, req.clientEmail.value));
    if created.Err? {
      return Response(201, One(invoice, Some(CreateFailedWarning)));
    }
    TakenIgnoresOwnRow(old(db.rows), invoice.id, invoice, created.value.id);
    var linked := db.Link(invoice.id, created.value.id, created.value.href);
    if linked.Err? {
      return Response(201, One(invoice, Some(CreateFailedWarning)));
    }
    db.Record(RemoteSend(created.value.id));
    if sent.Err? {
      return Response(201, One(linked.value, Some(SendFailedWarning)));
    }
    var final := db.MarkSent(invoice.id);
    resp := Response(201, One(final, None));
  }

  /** POST /: `created` is what `createInvoice` resolved to (Err when it
      threw), `sent` what `sendInvoice` did. */
  method CreateInvoice(
    db: InvoiceTable, raw: RawInvoiceRequest, isEmail: string -> bool,
    users: map<(string, string), User>,
    created: Result<PayPal.PayPalInvoice, string>, sent: Result<(), string>)
    returns (resp: Response)
    requires db.Valid()
    requires created.Ok? ==> created.value.id != ""   // as PayPal.CreatedInvoice guarantees
    modifies db
    ensures db.Valid()
    // A request the schema refuses: 400 with the formatted issues, and no write.
    ensures ParseCreateInvoice(raw, isEmail).Err? ==>
      resp == Response(400, Error(FormatZodError(ParseCreateInvoice(raw, isEmail).error))) && unchanged(db)
    // A user without a PayPal email: 400, and no write.
    ensures ParseCreateInvoice(raw, isEmail).Ok? && !HasPaypalEmail(users, ParseCreateInvoice(raw, isEmail).value) ==>
      resp == Response(400, Error(NoPaypalEmail)) && unchanged(db)
    // Otherwise one of the four outcomes of a create.
    ensures ParseCreateInvoice(raw, isEmail).Ok? && HasPaypalEmail(users, ParseCreateInvoice(raw, isEmail).value) ==>
      var req := ParseCreateInvoice(raw, isEmail).value;
      && db.nextId == old(db.nextId) + 1
      && CreatedForUser(old(db.rows), old(db.nextId), old(db.effects), req, users[(req.userId, req.guildId)],
                        created, sent, db.rows, db.effects, resp)
  {
    var parsed := ParseCreateInvoice(raw, isEmail);
    if parsed.Err? {
      return Response(400, Error(FormatZodError(parsed.error)));
    }
    var req := parsed.value;
    if !HasPaypalEmail(users, req) {
      return Response(400, Error(NoPaypalEmail));
    }
    var user := users[(req.userId, req.guildId)];
    UserCurrencyUnreachable(raw, isEmail, user);
    resp := CreateForUser(db, req, user, created, sent);
  }

  // ---------------------------------------------------------------------------
  // List, get

  /** The `where` object of GET /guild/:guildId: the owner and status
      constraints are added only for truthy query values. */
  function ListFilter(guildId: string, userId: Option<string>, status: Option<string>): (w: Where)
    ensures w.guildId == guildId
    ensures w.userId.Some? <==> Truthy(userId)
    ensures w.status.Some? <==> Truthy(status)
    ensures w.userId.Some? ==> w.userId == userId
    ensures w.status.Some? ==> w.status == status
  {
    Where(guildId,
          if Truthy(userId) then userId else None,
          if Truthy(status) then status else None)
  }

  /** GET /guild/:guildId: at most 50 of the guild's invoices that match
      the query, newest first, none newer left out. */
  function ListGuildInvoices(db: InvoiceTable, guildId: string, userId: Option<string>, status: Option<string>): (resp: Response)
    requires db.Valid()
    reads db
    ensures resp.status == 200 && resp.body.Many?
    ensures var r := resp.body.invoices;
      && |r| <= PageSize
      && (forall k | 0 <= k < |r| ::
            && r[k].id in db.rows && db.rows[r[k].id] == r[k]
            && r[k].guildId == guildId
            && (Truthy(userId) ==> r[k].userId == userId.value)
            && (Truthy(status) ==> StatusName(r[k].status) == status.value))
      && (forall k, l | 0 <= k < l < |r| :: r[k].createdAt > r[l].createdAt)
      && (forall id | id in db.rows && Matches(ListFilter(guildId, userId, status), db.rows[id]) ::
            db.rows[id] in r || (|r| == PageSize && forall k | 0 <= k < |r| :: r[k].createdAt > id))
  {
    Response(200, Many(NewestFirst(db.rows, ListFilter(guildId, userId, status), db.nextId, PageSize)))
  }

  /** GET /:id */
  function GetInvoice(db: InvoiceTable, id: InvoiceId): (resp: Response)
    reads db
    ensures id !in db.rows ==> resp == Response(404, Error(NotFound))
    ensures id in db.rows ==> resp == Response(200, One(db.rows[id], None))
  {
    match db.Get(id)
    case None => Response(404, Error(NotFound))
    case Some(inv) => Response(200, One(inv, None))
  }

  // ---------------------------------------------------------------------------
  // Cancel

  /** The remote cancel attempted for a row: only when it has a PayPal id. */
  function RemoteCancelFor(inv: Invoice): (calls: seq<Effect>)
    ensures |calls| <= 1
    ensures calls != [] <==> Truthy(inv.paypalInvoiceId)
    ensures calls != [] ==> calls == [RemoteCancel(inv.paypalInvoiceId.value)]
  {
    if Truthy(inv.paypalInvoiceId) then [RemoteCancel(inv.paypalInvoiceId.value)] else []
  }

  /** PATCH /:id/cancel. What PayPal answers to the cancel call is not a
      parameter: the route ignores it. */
  method CancelInvoice(db: InvoiceTable, id: InvoiceId) returns (resp: Response)
    requires db.Valid()
    modifies db
    ensures db.Valid()
    ensures id !in old(db.rows) ==> resp == Response(404, Error(NotFound)) && unchanged(db)
    // A PAID invoice is refused and left as it is.
    ensures id in old(db.rows) && old(db.rows)[id].status == Paid ==>
      resp == Response(400, Error(CannotCancelPaid)) && unchanged(db)
    // Otherwise: a remote cancel when there is a PayPal id, then CANCELLED
    // locally whatever PayPal answered.
    ensures id in old(db.rows) && old(db.rows)[id].status != Paid ==>
      var inv := old(db.rows)[id];
      && db.rows == old(db.rows)[id := inv.(status := Cancelled)]
      && db.nextId == old(db.nextId)
      && db.effects == old(db.effects) + RemoteCancelFor(inv) + [StatusSet(id, Cancelled)]
      && resp == Response(200, One(inv.(status := Cancelled), None))
  {
    var found := db.Get(id);
    if found.None? {
      return Response(404, Error(NotFound));
    }
    var inv := found.value;
    if inv.status == Paid {
      return Response(400, Error(CannotCancelPaid));
    }
    if Truthy(inv.paypalInvoiceId) {
      db.Record(RemoteCancel(inv.paypalInvoiceId.value));
    }
    var updated := db.MarkCancelled(id);
    resp := Response(200, One(updated, None));
  }
}
