/** The request schemas of the server (server/src/validators/schemas.ts).
    Each field rule is stated once as a predicate; the invoice and template
    schemas are also modelled as parsers that produce the ordered list of
    issues a failed parse reports, and `FormatZodError` renders that list.
    Whether a string is a well-formed e-mail address or URL is left to the
    caller-supplied predicates `isEmail` and `isUrl`. */
module Schemas {
  import opened Common

  // ---------------------------------------------------------------------------
  // Field rules

  const MaxAmount: real := 1000000.0
  const DefaultCurrency: string := "USD"
  const DiscordWebhookPrefix: string := "https://discord.com/api/webhooks/"

  /** `z.number().positive().max(1000000)` */
  predicate AmountOk(amount: real)
  {
    0.0 < amount <= MaxAmount
  }

  /** `z.string().length(3)` */
  predicate CurrencyOk(code: string)
  {
    |code| == 3
  }

  /** `z.string().min(1).max(500)` */
  predicate DescriptionOk(text: string)
  {
    1 <= |text| <= 500
  }

  /** `z.string().min(1).max(100)` (template names) */
  predicate TemplateNameOk(name: string)
  {
    1 <= |name| <= 100
  }

  /** `[a-zA-Z0-9]` */
  predicate IsAsciiAlnum(c: char)
  {
    ('a' <= c <= 'z') || ('A' <= c <= 'Z') || ('0' <= c <= '9')
  }

  /** `z.string().min(1).max(50).regex(/^[a-zA-Z0-9]+$/)` */
  predicate PaypalMeOk(username: string)
  {
    1 <= |username| <= 50 && forall i | 0 <= i < |username| :: IsAsciiAlnum(username[i])
  }

  /** `z.string().url().startsWith("https://discord.com/api/webhooks/")` */
  predicate WebhookUrlOk(url: string, isUrl: string -> bool)
  {
    isUrl(url) && StartsWith(url, DiscordWebhookPrefix)
  }

  /** An optional field: absent, or present and satisfying its rule. */
  predicate OptionalOk(v: Option<string>, ok: string -> bool)
  {
    v.None? || ok(v.value)
  }

  // ---------------------------------------------------------------------------
  // Issues and their rendering

  /** One failed check: the path of the offending field and its message. */
  datatype Issue = Issue(path: seq<string>, message: string)

  /** `${e.path.join(".")}: ${e.message}` */
  function RenderIssue(issue: Issue): (r: string)
    ensures |r| >= 2
  {
    Join(issue.path, ".") + ": " + issue.message
  }

  function RenderAll(issues: seq<Issue>): (r: seq<string>)
    ensures |r| == |issues|
  {
    if issues == [] then [] else [RenderIssue(issues[0])] + RenderAll(issues[1..])
  }

  /** `formatZodError`: every issue rendered, in order, joined by ", ". */
  function FormatZodError(issues: seq<Issue>): (r: string)
    ensures issues == [] <==> r == ""
    ensures |issues| == 1 ==> r == RenderIssue(issues[0])
  {
    var parts := RenderAll(issues);
    assert parts != [] ==> |Join(parts, ", ")| >= |parts[0]|;
    Join(parts, ", ")
  }

  lemma {:induction false} RenderAllAppend(a: seq<Issue>, b: seq<Issue>)
    ensures RenderAll(a + b) == RenderAll(a) + RenderAll(b)
    decreases |a|
  {
    if a != [] {
      calc {
        RenderAll(a + b);
        [RenderIssue(a[0])] + RenderAll((a + b)[1..]);
        { assert (a + b)[1..] == a[1..] + b; }
        [RenderIssue(a[0])] + RenderAll(a[1..] + b);
        { RenderAllAppend(a[1..], b); }
        [RenderIssue(a[0])] + (RenderAll(a[1..]) + RenderAll(b));
        ([RenderIssue(a[0])] + RenderAll(a[1..])) + RenderAll(b);
        RenderAll(a) + RenderAll(b);
      }
    } else {
      assert a + b == b;
    }
  }

  /** The message for a concatenation of issue lists is the two messages
      separated by ", ": order is preserved and nothing is dropped. */
  lemma FormatZodErrorAppend(a: seq<Issue>, b: seq<Issue>)
    requires a != [] && b != []
    ensures FormatZodError(a + b) == FormatZodError(a) + ", " + FormatZodError(b)
  {
    RenderAllAppend(a, b);
    JoinAppend(RenderAll(a), RenderAll(b), ", ");
  }

  // ---------------------------------------------------------------------------
  // Per-field issue lists (zod reports at most one issue per field here)

  /** A required string with `.min(1, minMessage)`. */
  function RequiredTextIssues(field: string, v: Option<string>, minMessage: string): (r: seq<Issue>)
    ensures r == [] <==> (v.Some? && v.value != "")
    ensures |r| <= 1
  {
    match v
    case None => [Issue([field], "Required")]
    case Some(s) => if s == "" then [Issue([field], minMessage)] else []
  }

  function AmountIssues(v: Option<real>): (r: seq<Issue>)
    ensures r == [] <==> (v.Some? && AmountOk(v.value))
    ensures |r| <= 1
  {
    match v
    case None => [Issue(["amount"], "Required")]
    case Some(a) =>
      if a <= 0.0 then [Issue(["amount"], "Amount must be positive")]
      else if a > MaxAmount then [Issue(["amount"], "Amount too large")]
      else []
  }

  /** `.length(3).default("USD")`: an absent currency is not an issue. */
  function CurrencyIssues(v: Option<string>): (r: seq<Issue>)
    ensures r == [] <==> OptionalOk(v, CurrencyOk)
    ensures |r| <= 1
  {
    match v
    case None => []
    case Some(c) => if |c| != 3 then [Issue(["currency"], "Currency must be a 3-letter code")] else []
  }

  function DescriptionIssues(v: Option<string>): (r: seq<Issue>)
    ensures r == [] <==> (v.Some? && DescriptionOk(v.value))
    ensures |r| <= 1
  {
    match v
    case None => [Issue(["description"], "Required")]
    case Some(d) =>
      if |d| < 1 then [Issue(["description"], "Description is required")]
      else if |d| > 500 then [Issue(["description"], "Description too long")]
      else []
  }

  function EmailIssues(field: string, v: Option<string>, isEmail: string -> bool, message: string): (r: seq<Issue>)
    ensures r == [] <==> OptionalOk(v, isEmail)
    ensures |r| <= 1
  {
    if v.Some? && !isEmail(v.value) then [Issue([field], message)] else []
  }

  function TemplateNameIssues(v: Option<string>): (r: seq<Issue>)
    ensures r == [] <==> (v.Some? && TemplateNameOk(v.value))
    ensures |r| <= 1
  {
    match v
    case None => [Issue(["name"], "Required")]
    case Some(n) =>
      if |n| < 1 then [Issue(["name"], "Name is required")]
      else if |n| > 100 then [Issue(["name"], "Name too long")]
      else []
  }

  // ---------------------------------------------------------------------------
  // createInvoiceSchema

  /** The body of POST /api/invoices as received; an absent key is `None`. */
  datatype RawInvoiceRequest = RawInvoiceRequest(
    userId: Option<string>,
    guildId: Option<string>,
    clientDiscordId: Option<string>,
    clientEmail: Option<string>,
    amount: Option<real>,
    currency: Option<string>,
    description: Option<string>)

  /** The parsed request (`validation.data`). */
  datatype InvoiceRequest = InvoiceRequest(
    userId: string,
    guildId: string,
    clientDiscordId: string,
    clientEmail: Option<string>,
    amount: real,
    currency: string,
    description: string)

  /** The declarative acceptance rule of `createInvoiceSchema`. */
  predicate InvoiceAccepted(raw: RawInvoiceRequest, isEmail: string -> bool)
  {
    && Truthy(raw.userId)
    && Truthy(raw.guildId)
    && Truthy(raw.clientDiscordId)
    && OptionalOk(raw.clientEmail, isEmail)
    && raw.amount.Some? && AmountOk(raw.amount.value)
    && OptionalOk(raw.currency, CurrencyOk)
    && raw.description.Some? && DescriptionOk(raw.description.value)
  }

  /** The issues of `createInvoiceSchema.safeParse`, in the schema's field order. */
  function InvoiceIssues(raw: RawInvoiceRequest, isEmail: string -> bool): (r: seq<Issue>)
    ensures r == [] <==> InvoiceAccepted(raw, isEmail)
    ensures |r| <= 7
  {
    RequiredTextIssues("userId", raw.userId, "User ID is required")
    + RequiredTextIssues("guildId", raw.guildId, "Guild ID is required")
    + RequiredTextIssues("clientDiscordId", raw.clientDiscordId, "Client Discord ID is required")
    + EmailIssues("clientEmail", raw.clientEmail, isEmail, "Invalid email format")
    + AmountIssues(raw.amount)
    + CurrencyIssues(raw.currency)
    + DescriptionIssues(raw.description)
  }

  /** `createInvoiceSchema.safeParse`: either the parsed request, with the
      currency defaulted to "USD", or the non-empty list of issues. */
  function ParseCreateInvoice(raw: RawInvoiceRequest, isEmail: string -> bool): (r: Result<InvoiceRequest, seq<Issue>>)
    ensures r.Ok? <==> InvoiceAccepted(raw, isEmail)
    ensures r.Err? ==> r.error != [] && r.error == InvoiceIssues(raw, isEmail)
    ensures r.Ok? ==>
      && r.value.userId == raw.userId.value
      && r.value.guildId == raw.guildId.value
      && r.value.clientDiscordId == raw.clientDiscordId.value
      && r.value.clientEmail == raw.clientEmail
      && r.value.amount == raw.amount.value
      && r.value.currency == (if raw.currency.Some? then raw.currency.value else DefaultCurrency)
      && r.value.description == raw.description.value
    ensures r.Ok? ==> InvoiceRequestOk(r.value, isEmail)
  {
    var issues := InvoiceIssues(raw, isEmail);
    if issues != [] then Err(issues)
    else Ok(InvoiceRequest(
      raw.userId.value, raw.guildId.value, raw.clientDiscordId.value, raw.clientEmail,
      raw.amount.value,
      if raw.currency.Some? then raw.currency.value else DefaultCurrency,
      raw.description.value))
  }

  /** What every parsed invoice request satisfies. */
  predicate InvoiceRequestOk(req: InvoiceRequest, isEmail: string -> bool)
  {
    && req.userId != "" && req.guildId != "" && req.clientDiscordId != ""
    && OptionalOk(req.clientEmail, isEmail)
    && AmountOk(req.amount)
    && CurrencyOk(req.currency)
    && DescriptionOk(req.description)
  }

  // ---------------------------------------------------------------------------
  // createTemplateSchema

  datatype RawTemplateRequest = RawTemplateRequest(
    userId: Option<string>,
    name: Option<string>,
    amount: Option<real>,
    currency: Option<string>,
    description: Option<string>)

  datatype TemplateRequest = TemplateRequest(
    userId: string, name: string, amount: real, currency: string, description: string)

  predicate TemplateAccepted(raw: RawTemplateRequest)
  {
    && Truthy(raw.userId)
    && raw.name.Some? && TemplateNameOk(raw.name.value)
    && raw.amount.Some? && AmountOk(raw.amount.value)
    && OptionalOk(raw.currency, CurrencyOk)
    && raw.description.Some? && DescriptionOk(raw.description.value)
  }

  /** The issues of `createTemplateSchema.safeParse`, in the schema's field order. */
  function TemplateIssues(raw: RawTemplateRequest): (r: seq<Issue>)
    ensures r == [] <==> TemplateAccepted(raw)
    ensures |r| <= 5
  {
    RequiredTextIssues("userId", raw.userId, "User ID is required")
    + TemplateNameIssues(raw.name)
    + AmountIssues(raw.amount)
    + CurrencyIssues(raw.currency)
    + DescriptionIssues(raw.description)
  }

  /** `createTemplateSchema.safeParse`: the amount, currency and description
      rules (and their messages) are those of the invoice schema. */
  function ParseCreateTemplate(raw: RawTemplateRequest): (r: Result<TemplateRequest, seq<Issue>>)
    ensures r.Ok? <==> TemplateAccepted(raw)
    ensures r.Err? ==> r.error != [] && r.error == TemplateIssues(raw)
    ensures r.Ok? ==>
      && r.value.userId == raw.userId.value
      && r.value.name == raw.name.value
      && r.value.amount == raw.amount.value
      && r.value.currency == (if raw.currency.Some? then raw.currency.value else DefaultCurrency)
      && r.value.description == raw.description.value
    ensures r.Ok? ==>
      && r.value.userId != "" && TemplateNameOk(r.value.name)
      && AmountOk(r.value.amount) && CurrencyOk(r.value.currency) && DescriptionOk(r.value.description)
  {
    var issues := TemplateIssues(raw);
    if issues != [] then Err(issues)
    else Ok(TemplateRequest(
      raw.userId.value, raw.name.value, raw.amount.value,
      if raw.currency.Some? then raw.currency.value else DefaultCurrency,
      raw.description.value))
  }

  // ---------------------------------------------------------------------------
  // User, guild and client schemas (acceptance only)

  /** `updateUserSchema`: every field optional. */
  predicate UserUpdateAccepted(
    email: Option<string>, paypalEmail: Option<string>, paypalMeUsername: Option<string>,
    currency: Option<string>, isEmail: string -> bool)
  {
    && OptionalOk(email, isEmail)
    && OptionalOk(paypalEmail, isEmail)
    && OptionalOk(paypalMeUsername, PaypalMeOk)
    && OptionalOk(currency, CurrencyOk)
  }

  /** `registerUserSchema`: `updateUserSchema` plus a required id. */
  predicate RegisterUserAccepted(
    id: Option<string>, email: Option<string>, paypalEmail: Option<string>,
    paypalMeUsername: Option<string>, currency: Option<string>, isEmail: string -> bool)
  {
    Truthy(id) && UserUpdateAccepted(email, paypalEmail, paypalMeUsername, currency, isEmail)
  }

  /** `registerGuildSchema` */
  predicate RegisterGuildAccepted(
    id: Option<string>, name: Option<string>, webhookUrl: Option<string>, isUrl: string -> bool)
  {
    Truthy(id) && Truthy(name) && (webhookUrl.None? || WebhookUrlOk(webhookUrl.value, isUrl))
  }

  /** `updateGuildWebhookSchema` */
  predicate WebhookUpdateAccepted(webhookUrl: Option<string>, isUrl: string -> bool)
  {
    webhookUrl.Some? && WebhookUrlOk(webhookUrl.value, isUrl)
  }

  /** `clientSchema`: every field required, the e-mail well-formed. */
  predicate ClientAccepted(
    userId: Option<string>, guildId: Option<string>, discordId: Option<string>,
    name: Option<string>, email: Option<string>, isEmail: string -> bool)
  {
    Truthy(userId) && Truthy(guildId) && Truthy(discordId) && Truthy(name)
    && email.Some? && isEmail(email.value)
  }
}
