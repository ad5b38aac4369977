/** The PayPal Invoicing client (server/src/services/paypal.ts).
    `PayPalService` keeps the OAuth bearer token and its expiry in mutable
    fields; every remote operation first obtains a token and then makes one
    HTTP request. The clock, the credentials and the replies of PayPal are
    parameters: a reply stands for whatever PayPal (or the network) answered. */
module PayPal {
  import opened Common

  // ---------------------------------------------------------------------------
  // Replies

  /** The client id and secret from the environment. */
  datatype Credentials = Credentials(clientId: Option<string>, clientSecret: Option<string>)

  predicate Configured(creds: Credentials)
  {
    Truthy(creds.clientId) && Truthy(creds.clientSecret)
  }

  /** The answer to POST /v1/oauth2/token. A granted token also carries
      `receivedAt`, the clock read (`Date.now()`) after the awaited response,
      which is the base of the stored expiry. */
  datatype TokenReply =
    | TokenGranted(accessToken: string, expiresIn: int, receivedAt: int)   // `expires_in`, in seconds
    | TokenRefused(statusText: string)                    // a non-2xx status
    | TokenUnreachable(message: string)                   // `fetch` rejected

  /** The answer to an invoicing request: a status, the body as text, and the
      body as JSON (read only on success); or a rejected `fetch`. */
  datatype Reply<T> = Reply(status: int, text: string, json: T) | NetworkError(message: string)

  predicate IsOk(status: int)
  {
    200 <= status <= 299
  }

  /** What the create call's JSON may carry. */
  datatype CreatedBody = CreatedBody(id: Option<string>, href: Option<string>)

  /** What the details call's JSON may carry: `detail.metadata.recipient_view_url`. */
  datatype InvoiceDetails = InvoiceDetails(recipientViewUrl: Option<string>)

  /** The value `createInvoice` resolves to. */
  datatype PayPalInvoice = PayPalInvoice(id: string, href: string, status: string)

  // ---------------------------------------------------------------------------
  // The bearer-token cache

  const TokenMarginMs: int := 60000

  datatype TokenCache = TokenCache(accessToken: Option<string>, tokenExpiry: int)

  /** `this.accessToken && Date.now() < this.tokenExpiry` */
  predicate Fresh(cache: TokenCache, now: int)
  {
    Truthy(cache.accessToken) && now < cache.tokenExpiry
  }

  /** The result of one `getAccessToken` call: the new cache, the token or
      the error thrown, and whether a token request was sent. */
  datatype Acquisition = Acquisition(cache: TokenCache, token: Result<string, string>, requested: bool)

  /** `getAccessToken` called at time `now` (milliseconds): `now` decides
      freshness, and a granted reply's own `receivedAt` dates the new expiry. */
  function Acquire(cache: TokenCache, now: int, creds: Credentials, reply: TokenReply): (a: Acquisition)
    // A fresh token is returned as it is, with no request.
    ensures Fresh(cache, now) ==> a == Acquisition(cache, Ok(cache.accessToken.value), false)
    // Missing credentials fail before any request is made.
    ensures !Fresh(cache, now) && !Configured(creds) ==>
      a == Acquisition(cache, Err("PayPal credentials not configured"), false)
    // A request is sent exactly when the cache is stale and credentials exist.
    ensures a.requested <==> !Fresh(cache, now) && Configured(creds)
    // Only a granted token changes the cache: it is stored with the expiry
    // `receivedAt + expires_in * 1000 - 60000`, from the clock read after the response.
    ensures a.cache != cache ==> a.requested && reply.TokenGranted?
    ensures a.requested && reply.TokenGranted? ==>
      a.cache == TokenCache(Some(reply.accessToken), reply.receivedAt + reply.expiresIn * 1000 - TokenMarginMs)
      && a.token == Ok(reply.accessToken)
    ensures a.requested && reply.TokenRefused? ==> a.token == Err("PayPal auth failed: " + reply.statusText)
    // A rejected token request fails with its own error and leaves the cache as it was.
    ensures a.requested && reply.TokenUnreachable? ==> a == Acquisition(cache, Err(reply.message), true)
    // A token is obtained exactly from a fresh cache or a granted request.
    ensures a.token.Ok? <==> Fresh(cache, now) || (Configured(creds) && reply.TokenGranted?)
  {
    if Fresh(cache, now) then Acquisition(cache, Ok(cache.accessToken.value), false)
    else if !Configured(creds) then Acquisition(cache, Err("PayPal credentials not configured"), false)
    else match reply
      case TokenGranted(t, e, at) => Acquisition(TokenCache(Some(t), at + e * 1000 - TokenMarginMs), Ok(t), true)
      case TokenRefused(text) => Acquisition(cache, Err("PayPal auth failed: " + text), true)
      case TokenUnreachable(m) => Acquisition(cache, Err(m), true)
  }

  /** A token granted with `expires_in <= 60` is stored already expired: no
      call made after the response arrived reuses it. */
  lemma ShortLivedTokenNeverReused(cache: TokenCache, now: int, creds: Credentials, reply: TokenReply, later: int)
    requires !Fresh(cache, now) && Configured(creds)
    requires reply.TokenGranted? && reply.expiresIn <= 60
    requires reply.receivedAt <= later
    ensures !Fresh(Acquire(cache, now, creds, reply).cache, later)
  {
  }

  /** A non-empty token received at `receivedAt` is reused, with no request,
      by every later call made before `receivedAt + expires_in * 1000 - 60000`,
      whatever PayPal would have answered. */
  lemma GrantedTokenReused(
    cache: TokenCache, now: int, creds: Credentials, reply: TokenReply,
    later: int, creds': Credentials, reply': TokenReply)
    requires !Fresh(cache, now) && Configured(creds)
    requires reply.TokenGranted? && reply.accessToken != ""
    requires reply.receivedAt <= later < reply.receivedAt + reply.expiresIn * 1000 - TokenMarginMs
    ensures var a := Acquire(cache, now, creds, reply);
      Acquire(a.cache, later, creds', reply') == Acquisition(a.cache, Ok(reply.accessToken), false)
  {
  }

  // ---------------------------------------------------------------------------
  // Provider-id recovery and the payer link

  /** `href.split("/").pop()`: what follows the last '/' (all of `href` when
      it has none). */
  function LastSegment(href: string): (seg: string)
    ensures |seg| <= |href| && href[|href| - |seg|..] == seg
    ensures forall k | 0 <= k < |seg| :: seg[k] != '/'
    ensures |seg| < |href| ==> href[|href| - |seg| - 1] == '/'
  {
    if href == [] then []
    else if href[|href| - 1] == '/' then []
    else LastSegment(href[..|href| - 1]) + [href[|href| - 1]]
  }

  /** A segment is recovered from any prefix that ends in '/'. */
  lemma {:induction false} LastSegmentAfterSlash(base: string, id: string)
    requires |base| > 0 && base[|base| - 1] == '/'
    requires forall k | 0 <= k < |id| :: id[k] != '/'
    ensures LastSegment(base + id) == id
    decreases |id|
  {
    if id == [] {
      assert base + id == base;
    } else {
      var init := id[..|id| - 1];
      assert (base + id)[..|base + id| - 1] == base + init;
      LastSegmentAfterSlash(base, init);
      assert init + [id[|id| - 1]] == id;
    }
  }

  const ExtractFailure: string := "Failed to extract invoice ID from PayPal response"

  /** The provider id: `data.id` when truthy, else the last segment of a
      truthy `data.href`; an empty result is an error. */
  function InvoiceIdOf(body: CreatedBody): (r: Result<string, string>)
    ensures r.Ok? ==> r.value != ""
    ensures Truthy(body.id) ==> r == Ok(body.id.value)
    ensures !Truthy(body.id) && Truthy(body.href) && LastSegment(body.href.value) != "" ==>
      r == Ok(LastSegment(body.href.value))
    ensures r.Err? <==> !Truthy(body.id) && (!Truthy(body.href) || LastSegment(body.href.value) == "")
    ensures r.Err? ==> r.error == ExtractFailure
  {
    if Truthy(body.id) then Ok(body.id.value)
    else if Truthy(body.href) && LastSegment(body.href.value) != "" then Ok(LastSegment(body.href.value))
    else Err(ExtractFailure)
  }

  const SandboxPayerBase: string := "https://www.sandbox.paypal.com/invoice/p/"

  /** The link built when PayPal gives no payer-view URL. */
  function FallbackPayerLink(id: string): (link: string)
    ensures StartsWith(link, SandboxPayerBase) && link[|SandboxPayerBase|..] == id
  {
    SandboxPayerBase + id
  }

  /** The fallback link and the href-based id recovery are inverse: the id of
      a slash-free invoice is recovered from its own fallback link. */
  lemma FallbackLinkRoundTrip(id: string)
    requires id != "" && forall k | 0 <= k < |id| :: id[k] != '/'
    ensures InvoiceIdOf(CreatedBody(None, Some(FallbackPayerLink(id)))) == Ok(id)
  {
    LastSegmentAfterSlash(SandboxPayerBase, id);
  }

  /** The payer link: the details' `recipient_view_url` when the details
      call succeeded and the URL is truthy, otherwise the fallback link. */
  function PayerLink(id: string, details: Result<InvoiceDetails, string>): (link: string)
    ensures details.Ok? && Truthy(details.value.recipientViewUrl) ==> link == details.value.recipientViewUrl.value
    ensures !(details.Ok? && Truthy(details.value.recipientViewUrl)) ==> link == FallbackPayerLink(id)
  {
    if details.Ok? && Truthy(details.value.recipientViewUrl) then details.value.recipientViewUrl.value
    else FallbackPayerLink(id)
  }

  // ---------------------------------------------------------------------------
  // The create payload

  datatype CreateInvoiceParams = CreateInvoiceParams(
    invoiceId: string, amount: real, currency: string, description: string,
    invoicerEmail: string, recipientEmail: string)

  /** The fields of the JSON body POSTed to /v2/invoicing/invoices. */
  datatype InvoicePayload = InvoicePayload(
    invoiceNumber: string, currencyCode: string, note: string, termType: string,
    invoicerEmail: string, recipientEmail: string,
    itemName: string, quantity: string, unitCurrency: string, unitValue: real)

  const MaxItemName: nat := 100

  function BuildPayload(p: CreateInvoiceParams): (pl: InvoicePayload)
    // The single line item is named after the description, cut to 100 characters.
    ensures |pl.itemName| <= MaxItemName && StartsWith(p.description, pl.itemName)
    ensures |p.description| <= MaxItemName ==> pl.itemName == p.description
    ensures |p.description| > MaxItemName ==> |pl.itemName| == MaxItemName
    // The whole description travels as the note; one unit of the full amount.
    ensures pl.note == p.description && pl.quantity == "1" && pl.unitValue == p.amount
    ensures pl.invoiceNumber == p.invoiceId
    ensures pl.currencyCode == p.currency && pl.unitCurrency == p.currency
    ensures pl.invoicerEmail == p.invoicerEmail && pl.recipientEmail == p.recipientEmail
  {
    InvoicePayload(
      p.invoiceId, p.currency, p.description, "NET_30",
      p.invoicerEmail, p.recipientEmail,
      Prefix(p.description, MaxItemName), "1", p.currency, p.amount)
  }

  // ---------------------------------------------------------------------------
  // How each call reads PayPal's answer

  /** The create call: a non-2xx status throws with PayPal's text; a 2xx
      status yields the provider id (or the extraction error). */
  function CreateOutcome(reply: Reply<CreatedBody>): (r: Result<string, string>)
    ensures reply.Reply? && !IsOk(reply.status) ==> r == Err("PayPal create invoice failed: " + reply.text)
    ensures reply.Reply? && IsOk(reply.status) ==> r == InvoiceIdOf(reply.json)
    ensures reply.NetworkError? ==> r == Err(reply.message)
    ensures r.Ok? ==> r.value != ""
  {
    match reply
    case NetworkError(m) => Err(m)
    case Reply(status, text, json) =>
      if !IsOk(status) then Err("PayPal create invoice failed: " + text) else InvoiceIdOf(json)
  }

  /** `sendInvoice` and `getInvoice`: every non-2xx status is an error. */
  function StrictOutcome<T>(reply: Reply<T>, what: string): (r: Result<T, string>)
    ensures r.Ok? <==> reply.Reply? && IsOk(reply.status)
    ensures r.Ok? ==> r.value == reply.json
    ensures reply.Reply? && !IsOk(reply.status) ==> r == Err("PayPal " + what + " failed: " + reply.text)
  {
    match reply
    case NetworkError(m) => Err(m)
    case Reply(status, text, json) =>
      if IsOk(status) then Ok(json) else Err("PayPal " + what + " failed: " + text)
  }

  /** `deleteInvoice`: 404 (already deleted) counts as success. */
  function DeleteOutcome(reply: Reply<()>): (r: Result<(), string>)
    ensures r.Ok? <==> reply.Reply? && (IsOk(reply.status) || reply.status == 404)
    ensures reply.Reply? && !IsOk(reply.status) && reply.status != 404 ==>
      r == Err("PayPal delete invoice failed: " + reply.text)
  {
    match reply
    case NetworkError(m) => Err(m)
    case Reply(status, text, _) =>
      if IsOk(status) || status == 404 then Ok(()) else Err("PayPal delete invoice failed: " + text)
  }

  /** `cancelInvoice`: 404 and 422 (absent, or already cancelled) count as success. */
  function CancelOutcome(reply: Reply<()>): (r: Result<(), string>)
    ensures r.Ok? <==> reply.Reply? && (IsOk(reply.status) || reply.status == 404 || reply.status == 422)
    ensures reply.Reply? && !IsOk(reply.status) && reply.status != 404 && reply.status != 422 ==>
      r == Err("PayPal cancel invoice failed: " + reply.text)
  {
    match reply
    case NetworkError(m) => Err(m)
    case Reply(status, text, _) =>
      if IsOk(status) || status == 404 || status == 422 then Ok(())
      else Err("PayPal cancel invoice failed: " + text)
  }

  /** A 404 is benign for delete and cancel but an error for send; a 422 is
      benign only for cancel. */
  lemma BenignStatusesDiffer(text: string)
    ensures DeleteOutcome(Reply(404, text, ())).Ok? && CancelOutcome(Reply(404, text, ())).Ok?
    ensures StrictOutcome(Reply(404, text, ()), "send invoice").Err?
    ensures CancelOutcome(Reply(422, text, ())).Ok? && DeleteOutcome(Reply(422, text, ())).Err?
  {
  }

  /** The answer of an authenticated call: the token error if no token was
      obtained, else the reading of PayPal's reply. */
  function Authorized<T>(token: Result<string, string>, outcome: Result<T, string>): (r: Result<T, string>)
    ensures token.Err? ==> r == Err(token.error)
    ensures token.Ok? ==> r == outcome
  {
    if token.Err? then Err(token.error) else outcome
  }

  /** What `createInvoice` resolves to, given the token step of the create
      call, PayPal's answer to it, and the result of the details call. */
  function CreatedInvoice(token: Result<string, string>, reply: Reply<CreatedBody>, details: Result<InvoiceDetails, string>): (r: Result<PayPalInvoice, string>)
    ensures r.Ok? ==> r.value.status == "DRAFT" && r.value.id != ""
    ensures r.Ok? ==> token.Ok? && CreateOutcome(reply) == Ok(r.value.id)
    ensures r.Ok? ==> r.value.href == PayerLink(r.value.id, details)
    ensures r.Err? <==> token.Err? || CreateOutcome(reply).Err?
  {
    match Authorized(token, CreateOutcome(reply))
    case Err(e) => Err(e)
    case Ok(id) => Ok(PayPalInvoice(id, PayerLink(id, details), "DRAFT"))
  }

  // ---------------------------------------------------------------------------
  // The service

  class PayPalService {
    var accessToken: Option<string>
    var tokenExpiry: int

    function Cache(): TokenCache
      reads this
    {
      TokenCache(accessToken, tokenExpiry)
    }

    constructor ()
      ensures Cache() == TokenCache(None, 0)
    {
      accessToken := None;
      tokenExpiry := 0;
    }

    /** `getAccessToken` */
    method GetAccessToken(now: int, creds: Credentials, reply: TokenReply)
      returns (token: Result<string, string>, requested: bool)
      modifies this
      ensures var a := Acquire(old(Cache()), now, creds, reply);
        Cache() == a.cache && token == a.token && requested == a.requested
    {
      if Truthy(accessToken) && now < tokenExpiry {
        return Ok(accessToken.value), false;
      }
      if !Configured(creds) {
        return Err("PayPal credentials not configured"), false;
      }
      requested := true;
      match reply {
        case TokenGranted(t, e, at) =>
          accessToken := Some(t);
          tokenExpiry := at + e * 1000 - TokenMarginMs;
          token := Ok(t);
        case TokenRefused(text) =>
          token := Err("PayPal auth failed: " + text);
        case TokenUnreachable(m) =>
          token := Err(m);
      }
    }

    /** `getInvoice` */
    method GetInvoice(id: string, now: int, creds: Credentials, tokenReply: TokenReply, reply: Reply<InvoiceDetails>)
      returns (r: Result<InvoiceDetails, string>)
      modifies this
      ensures var a := Acquire(old(Cache()), now, creds, tokenReply);
        Cache() == a.cache && r == Authorized(a.token, StrictOutcome(reply, "get invoice"))
    {
      var token, _ := GetAccessToken(now, creds, tokenReply);
      if token.Err? {
        return Err(token.error);
      }
      r := StrictOutcome(reply, "get invoice");
    }

    /** `createInvoice`: a token, the create request, then a details request
      (with its own token step, at time `detailsNow`) for the payer link; a
      failed details request falls back to the constructed link. `sent` is
      the payload of the create request, when one was made. */
    method CreateInvoice(
      p: CreateInvoiceParams, creds: Credentials,
      now: int, tokenReply: TokenReply, reply: Reply<CreatedBody>,
      detailsNow: int, detailsTokenReply: TokenReply, detailsReply: Reply<InvoiceDetails>)
      returns (r: Result<PayPalInvoice, string>, ghost sent: Option<InvoicePayload>)
      modifies this
      ensures var a := Acquire(old(Cache()), now, creds, tokenReply);
        && sent == (if a.token.Ok? then Some(BuildPayload(p)) else None)
        && (Authorized(a.token, CreateOutcome(reply)).Err? ==>
              Cache() == a.cache && r == Err(Authorized(a.token, CreateOutcome(reply)).error))
        && (Authorized(a.token, CreateOutcome(reply)).Ok? ==>
              var d := Acquire(a.cache, detailsNow, creds, detailsTokenReply);
              Cache() == d.cache
              && r == CreatedInvoice(a.token, reply, Authorized(d.token, StrictOutcome(detailsReply, "get invoice"))))
    {
      var token, _ := GetAccessToken(now, creds, tokenReply);
      if token.Err? {
        return Err(token.error), None;
      }
      sent := Some(BuildPayload(p));
      var created := CreateOutcome(reply);
      if created.Err? {
        return Err(created.error), sent;
      }
      var id := created.value;
      var details := GetInvoice(id, detailsNow, creds, detailsTokenReply, detailsReply);
      r := Ok(PayPalInvoice(id, PayerLink(id, details), "DRAFT"));
    }

    /** `sendInvoice` */
    method SendInvoice(id: string, now: int, creds: Credentials, tokenReply: TokenReply, reply: Reply<()>)
      returns (r: Result<(), string>)
      modifies this
      ensures var a := Acquire(old(Cache()), now, creds, tokenReply);
        Cache() == a.cache && r == Authorized(a.token, StrictOutcome(reply, "send invoice"))
    {
      var token, _ := GetAccessToken(now, creds, tokenReply);
      if token.Err? {
        return Err(token.error);
      }
      r := StrictOutcome(reply, "send invoice");
    }

    /** `deleteInvoice` */
    method DeleteInvoice(id: string, now: int, creds: Credentials, tokenReply: TokenReply, reply: Reply<()>)
      returns (r: Result<(), string>)
      modifies this
      ensures var a := Acquire(old(Cache()), now, creds, tokenReply);
        Cache() == a.cache && r == Authorized(a.token, DeleteOutcome(reply))
    {
      var token, _ := GetAccessToken(now, creds, tokenReply);
      if token.Err? {
        return Err(token.error);
      }
      r := DeleteOutcome(reply);
    }

    /** `cancelInvoice` */
    method CancelInvoice(id: string, now: int, creds: Credentials, tokenReply: TokenReply, reply: Reply<()>)
      returns (r: Result<(), string>)
      modifies this
      ensures var a := Acquire(old(Cache()), now, creds, tokenReply);
        Cache() == a.cache && r == Authorized(a.token, CancelOutcome(reply))
    {
      var token, _ := GetAccessToken(now, creds, tokenReply);
      if token.Err? {
        return Err(token.error);
      }
      r := CancelOutcome(reply);
    }
  }
}
