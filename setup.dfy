/** The input gates of the bot's `/setup` command (bot/src/commands/setup.ts).
    Each handler either refuses with a reply, before any API call, or
    produces the API calls it makes, in order. Replies after an API call and
    embed rendering are not modelled. */
module SetupGates {
  import opened Common
  import Schemas

  /** What a handler needs to know about the Discord interaction. */
  datatype Interaction = Interaction(
    userId: string,
    guildId: Option<string>,
    guildName: Option<string>,   // `interaction.guild?.name`; None when there is no guild object
    isAdmin: bool)

  /** The calls into the server API that the handlers make. */
  datatype ApiCall =
    | RegisterGuild(id: string, name: string)
    | RegisterUser(userId: string, guildId: Option<string>, change: UserChange)
    | UpdateGuildWebhook(guildId: Option<string>, url: string)

  datatype UserChange = SetPaypalEmail(email: string) | SetCurrency(code: string) | SetPaypalMe(username: string)

  /** A handler's decision: refuse with a reply, or make these calls. */
  datatype Outcome = Refused(reply: string) | Calls(calls: seq<ApiCall>)

  const InvalidEmailReply: string := "\U{274C} Please provide a valid email address."
  const InvalidCurrencyReply: string := "\U{274C} Invalid currency code. Use standard 3-letter codes like USD, EUR, GBP, INR, etc."
  const UsernameCharsReply: string := "\U{274C} PayPal.me username can only contain letters and numbers (no spaces or special characters)."
  const UsernameLengthReply: string := "\U{274C} Username is too long. Maximum 50 characters."
  const NotAdminReply: string := "\U{274C} Only server administrators can configure the webhook."
  const InvalidWebhookReply: string := "\U{274C} Please provide a valid Discord webhook URL."

  // ---------------------------------------------------------------------------
  // ensureGuild

  /** `ensureGuild`: registers the guild only when both the guild id and the
      guild object are there. */
  function EnsureGuild(it: Interaction): (calls: seq<ApiCall>)
    ensures calls == [] <==> !(Truthy(it.guildId) && it.guildName.Some?)
    ensures calls != [] ==> calls == [RegisterGuild(it.guildId.value, it.guildName.value)]
  {
    if Truthy(it.guildId) && it.guildName.Some? then [RegisterGuild(it.guildId.value, it.guildName.value)]
    else []
  }

  // ---------------------------------------------------------------------------
  // /setup paypal

  /** `\s` of a JavaScript regular expression. */
  predicate IsJsWhitespace(c: char)
  {
    c == '\t' || c == '\n' || c == '\U{000B}' || c == '\U{000C}' || c == '\r' || c == ' '
    || c == '\U{00A0}' || c == '\U{1680}' || ('\U{2000}' <= c <= '\U{200A}')
    || c == '\U{2028}' || c == '\U{2029}' || c == '\U{202F}' || c == '\U{205F}'
    || c == '\U{3000}' || c == '\U{FEFF}'
  }

  /** `[^\s@]` */
  predicate Plain(c: char)
  {
    c != '@' && !IsJsWhitespace(c)
  }

  predicate AllPlain(t: string)
  {
    forall k | 0 <= k < |t| :: Plain(t[k])
  }

  /** `/^[^\s@]+@[^\s@]+\.[^\s@]+$/.test(s)`: a non-empty plain local part,
      '@', a non-empty plain part, '.', and a non-empty plain tail. */
  predicate EmailRegexMatches(s: string)
  {
    exists at, dot | 0 < at < dot < |s| - 1 ::
      at + 1 < dot && s[at] == '@' && s[dot] == '.'
      && AllPlain(s[..at]) && AllPlain(s[at + 1..dot]) && AllPlain(s[dot + 1..])
  }

  /** An address the regex accepts has no white space and exactly one '@'. */
  lemma EmailShape(s: string)
    requires EmailRegexMatches(s)
    ensures forall k | 0 <= k < |s| :: !IsJsWhitespace(s[k])
    ensures exists at | 0 < at < |s| :: s[at] == '@' && forall k | 0 <= k < |s| && k != at :: s[k] != '@'
  {
    var at, dot :| 0 < at < dot < |s| - 1 && at + 1 < dot && s[at] == '@' && s[dot] == '.'
      && AllPlain(s[..at]) && AllPlain(s[at + 1..dot]) && AllPlain(s[dot + 1..]);
    forall k | 0 <= k < |s| && k != at
      ensures Plain(s[k])
    {
      if k < at {
        assert s[k] == s[..at][k];
      } else if k < dot {
        assert s[k] == s[at + 1..dot][k - at - 1];
      } else if k > dot {
        assert s[k] == s[dot + 1..][k - dot - 1];
      }
    }
  }

  /** `handlePaypal`: the address is checked before any API call. */
  function HandlePaypal(it: Interaction, email: string): (r: Outcome)
    ensures r.Refused? <==> !EmailRegexMatches(email)
    ensures r.Refused? ==> r.reply == InvalidEmailReply
    ensures r.Calls? ==> r.calls == EnsureGuild(it) + [RegisterUser(it.userId, it.guildId, SetPaypalEmail(email))]
  {
    if !EmailRegexMatches(email) then Refused(InvalidEmailReply)
    else Calls(EnsureGuild(it) + [RegisterUser(it.userId, it.guildId, SetPaypalEmail(email))])
  }

  // ---------------------------------------------------------------------------
  // /setup currency

  const CommonCurrencies: seq<string> := [
    "USD", "EUR", "GBP", "CAD", "AUD", "INR", "JPY", "CNY", "BRL", "MXN",
    "SGD", "HKD", "NZD", "CHF", "SEK", "NOK", "DKK", "PLN", "CZK", "HUF"]

  /** `toUpperCase`, on ASCII letters. */
  function ToUpper(s: string): (r: string)
    ensures |r| == |s|
    ensures forall k | 0 <= k < |s| :: r[k] == (if 'a' <= s[k] <= 'z' then s[k] - 'a' + 'A' else s[k])
  {
    if s == [] then []
    else [if 'a' <= s[0] <= 'z' then s[0] - 'a' + 'A' else s[0]] + ToUpper(s[1..])
  }

  /** `handleCurrency`: the upper-cased code is refused when it is neither in
      the list nor three characters long. */
  function HandleCurrency(it: Interaction, code: string): (r: Outcome)
    ensures var c := ToUpper(code);
      r.Refused? <==> (c !in CommonCurrencies && |c| != 3)
    ensures r.Refused? ==> r.reply == InvalidCurrencyReply
    ensures r.Calls? ==> r.calls == EnsureGuild(it) + [RegisterUser(it.userId, it.guildId, SetCurrency(ToUpper(code)))]
  {
    var c := ToUpper(code);
    if c !in CommonCurrencies && |c| != 3 then Refused(InvalidCurrencyReply)
    else Calls(EnsureGuild(it) + [RegisterUser(it.userId, it.guildId, SetCurrency(c))])
  }

  /** Every listed code is three letters long, so the list adds nothing: a
      code is accepted exactly when it is three characters long, and what is
      saved then passes the server's currency rule. */
  lemma CurrencyGateIsLengthThree(it: Interaction, code: string)
    ensures HandleCurrency(it, code).Calls? <==> |code| == 3
  {
    UnlistedOrShortIsShort(ToUpper(code));
  }

  lemma CurrencyGateSavesValidCode(it: Interaction, code: string)
    ensures HandleCurrency(it, code).Calls? ==> Schemas.CurrencyOk(ToUpper(code))
  {
    UnlistedOrShortIsShort(ToUpper(code));
  }

  lemma UnlistedOrShortIsShort(c: string)
    ensures (c !in CommonCurrencies && |c| != 3) <==> |c| != 3
  {
    ListedCodesAreThreeLong();
  }

  lemma ListedCodesAreThreeLong()
    ensures forall c | c in CommonCurrencies :: |c| == 3
  {
  }

  // ---------------------------------------------------------------------------
  // /setup paypalme

  /** `/^[a-zA-Z0-9]+$/.test(s)` */
  predicate AlnumRegexMatches(s: string)
  {
    |s| >= 1 && forall k | 0 <= k < |s| :: Schemas.IsAsciiAlnum(s[k])
  }

  /** `handlePaypalMe`: the character check comes before the length check. */
  function HandlePaypalMe(it: Interaction, username: string): (r: Outcome)
    ensures !AlnumRegexMatches(username) ==> r == Refused(UsernameCharsReply)
    ensures AlnumRegexMatches(username) && |username| > 50 ==> r == Refused(UsernameLengthReply)
    ensures r.Calls? ==> r.calls == EnsureGuild(it) + [RegisterUser(it.userId, it.guildId, SetPaypalMe(username))]
  {
    if !AlnumRegexMatches(username) then Refused(UsernameCharsReply)
    else if |username| > 50 then Refused(UsernameLengthReply)
    else Calls(EnsureGuild(it) + [RegisterUser(it.userId, it.guildId, SetPaypalMe(username))])
  }

  /** The bot accepts exactly the usernames the server's user schema accepts. */
  lemma PaypalMeGateAgreesWithSchema(it: Interaction, username: string)
    ensures HandlePaypalMe(it, username).Calls? <==> Schemas.PaypalMeOk(username)
  {
  }

  // ---------------------------------------------------------------------------
  // /setup webhook

  /** `handleWebhook`: non-administrators are refused before the URL is looked at. */
  function HandleWebhook(it: Interaction, url: string): (r: Outcome)
    ensures !it.isAdmin ==> r == Refused(NotAdminReply)
    ensures it.isAdmin ==> (r.Refused? <==> !StartsWith(url, Schemas.DiscordWebhookPrefix))
    ensures it.isAdmin && r.Refused? ==> r.reply == InvalidWebhookReply
    ensures r.Calls? ==> r.calls == EnsureGuild(it) + [UpdateGuildWebhook(it.guildId, url)]
  {
    if !it.isAdmin then Refused(NotAdminReply)
    else if !StartsWith(url, Schemas.DiscordWebhookPrefix) then Refused(InvalidWebhookReply)
    else Calls(EnsureGuild(it) + [UpdateGuildWebhook(it.guildId, url)])
  }

  // ---------------------------------------------------------------------------
  // /setup status

  /** The user record as the API returns it. */
  datatype UserRecord = UserRecord(paypalEmail: Option<string>, paypalMeUsername: Option<string>, currency: Option<string>)

  /** What the status embed shows. */
  datatype StatusView =
    | NotSetUp
    | Configured(paypalEmail: Option<string>, paypalMeUsername: Option<string>, currency: string, actionRequired: bool)

  /** `handleStatus`: `lookup` is None when the API call failed or returned no user. */
  function HandleStatus(lookup: Option<UserRecord>): (v: StatusView)
    ensures lookup.None? <==> v.NotSetUp?
    ensures v.Configured? ==> v.currency == (if Truthy(lookup.value.currency) then lookup.value.currency.value else "USD")
    ensures v.Configured? ==> (v.actionRequired <==> !Truthy(lookup.value.paypalEmail))
    ensures v.Configured? ==> v.currency != ""
  {
    match lookup
    case None => NotSetUp
    case Some(u) =>
      Configured(
        if Truthy(u.paypalEmail) then u.paypalEmail else None,
        if Truthy(u.paypalMeUsername) then u.paypalMeUsername else None,
        OrElse(u.currency, "USD"),
        !Truthy(u.paypalEmail))
  }
}
