/** Translation of PayPal failures into messages for Discord users
    (bot/src/utils/errors.ts). */
module ErrorTranslation {
  import opened Common

  /** The thing that was thrown or returned: a plain string, an object with
      an optional `message` and the result of its `toString()`, or
      `null`/`undefined`. */
  datatype ErrorValue =
    | Text(text: string)
    | Thrown(message: Option<string>, rendered: string)
    | Nullish

  /** `ERROR_TRANSLATIONS`, in declaration order (the order `Object.entries`
      yields them). */
  const Translations: seq<(string, string)> := [
    ("INR_FOREIGN_CURRENCY_BLOCKED", "PayPal India doesn't allow sending invoices to other Indian accounts. Share the payment link manually instead."),
    ("RECIPIENT_UNCONFIRMED_EMAIL", "The client's email isn't verified on PayPal. They need to verify their PayPal email first."),
    ("INVOICE_NOT_FOUND", "This invoice no longer exists on PayPal."),
    ("INVOICE_ALREADY_CANCELLED", "This invoice has already been cancelled."),
    ("INVOICE_ALREADY_PAID", "This invoice has already been paid."),
    ("INVOICE_NOT_ELIGIBLE_FOR_REMINDER", "This invoice can't receive reminders - it may be too new or already reminded recently."),
    ("PERMISSION_DENIED", "PayPal API permission denied. Please re-authenticate your PayPal account."),
    ("RATE_LIMIT_EXCEEDED", "Too many requests to PayPal. Please wait a moment and try again."),
    ("INTERNAL_SERVICE_ERROR", "PayPal is experiencing issues. Please try again later."),
    ("VALIDATION_ERROR", "Invalid invoice data. Please check the amount and email address."),
    ("CURRENCY_NOT_SUPPORTED", "This currency isn't supported for your PayPal account region."),
    ("AMOUNT_EXCEEDS_MAXIMUM", "The invoice amount exceeds PayPal's maximum limit."),
    ("DUPLICATE_INVOICE_NUMBER", "An invoice with this number already exists.")
  ]

  const NetworkMessage: string := "Couldn't connect to PayPal. Please try again."
  const AuthMessage: string := "PayPal authentication failed. The bot owner needs to check API credentials."
  const ForbiddenMessage: string := "PayPal denied this request. Your account may not have permission for this action."
  const OutageMessage: string := "PayPal is experiencing issues. Please try again later."
  const FallbackPrefix: string := "PayPal error: "

  /** The message that is searched: a string as it is, else a truthy
      `message`, else a truthy `toString()`, else "Unknown error". */
  function MessageOf(e: ErrorValue): (m: string)
    ensures e.Text? ==> m == e.text
    ensures e.Thrown? && Truthy(e.message) ==> m == e.message.value
    ensures e.Thrown? && !Truthy(e.message) && e.rendered != "" ==> m == e.rendered
    ensures e.Nullish? || (e.Thrown? && !Truthy(e.message) && e.rendered == "") ==> m == "Unknown error"
    ensures !e.Text? ==> m != ""
  {
    match e
    case Text(s) => s
    case Thrown(message, rendered) => OrElse(message, OrElse(Some(rendered), "Unknown error"))
    case Nullish => "Unknown error"
  }

  /** The index of the first entry of `table` at or after `from` whose key
      occurs in `msg`. */
  function FirstMatchFrom(table: seq<(string, string)>, msg: string, from: nat): (r: Option<nat>)
    requires from <= |table|
    ensures r.Some? ==> from <= r.value < |table| && Contains(msg, table[r.value].0)
    ensures r.Some? ==> forall j | from <= j < r.value :: !Contains(msg, table[j].0)
    ensures r.None? ==> forall j | from <= j < |table| :: !Contains(msg, table[j].0)
    decreases |table| - from
  {
    if from == |table| then None
    else if Contains(msg, table[from].0) then Some(from)
    else FirstMatchFrom(table, msg, from + 1)
  }

  /** Key `k` is the first key of the table that occurs in `m`. */
  predicate FirstKeyAt(m: string, k: nat)
  {
    k < |Translations| && Contains(m, Translations[k].0)
    && forall j | 0 <= j < k :: !Contains(m, Translations[j].0)
  }

  /** The `for ... of Object.entries(ERROR_TRANSLATIONS)` search. */
  function TableTranslation(m: string): (r: Option<string>)
    ensures r.None? <==> forall k | 0 <= k < |Translations| :: !Contains(m, Translations[k].0)
    ensures forall k: nat | FirstKeyAt(m, k) :: r == Some(Translations[k].1)
    ensures r.Some? ==> exists k: nat :: FirstKeyAt(m, k) && r.value == Translations[k].1
    ensures r.Some? ==> r.value != ""
  {
    match FirstMatchFrom(Translations, m, 0)
    case Some(k) =>
      assert FirstKeyAt(m, k);
      assert |Translations[k].1| > 0;
      Some(Translations[k].1)
    case None => None
  }

  /** The tests made when no key matched: network, 401, 403, 5xx, in that
      order, then "PayPal error: " and at most 100 characters of `m`. */
  function StatusTranslation(m: string): (r: string)
    ensures (Contains(m, "ENOTFOUND") || Contains(m, "ETIMEDOUT")) ==> r == NetworkMessage
    ensures (!(Contains(m, "ENOTFOUND") || Contains(m, "ETIMEDOUT"))
      && (Contains(m, "401") || Contains(m, "Unauthorized"))) ==> r == AuthMessage
    ensures (!(Contains(m, "ENOTFOUND") || Contains(m, "ETIMEDOUT"))
      && !(Contains(m, "401") || Contains(m, "Unauthorized"))
      && (Contains(m, "403") || Contains(m, "Forbidden"))) ==> r == ForbiddenMessage
    ensures (!(Contains(m, "ENOTFOUND") || Contains(m, "ETIMEDOUT"))
      && !(Contains(m, "401") || Contains(m, "Unauthorized"))
      && !(Contains(m, "403") || Contains(m, "Forbidden"))
      && (Contains(m, "500") || Contains(m, "503"))) ==> r == OutageMessage
    ensures (!(Contains(m, "ENOTFOUND") || Contains(m, "ETIMEDOUT"))
      && !(Contains(m, "401") || Contains(m, "Unauthorized"))
      && !(Contains(m, "403") || Contains(m, "Forbidden"))
      && !(Contains(m, "500") || Contains(m, "503"))) ==>
        StartsWith(r, FallbackPrefix) && r[|FallbackPrefix|..] == Prefix(m, 100)
        && |r| <= |FallbackPrefix| + 100
    ensures r != ""
  {
    if Contains(m, "ENOTFOUND") || Contains(m, "ETIMEDOUT") then NetworkMessage
    else if Contains(m, "401") || Contains(m, "Unauthorized") then AuthMessage
    else if Contains(m, "403") || Contains(m, "Forbidden") then ForbiddenMessage
    else if Contains(m, "500") || Contains(m, "503") then OutageMessage
    else FallbackPrefix + Prefix(m, 100)
  }

  /** `translatePayPalError`: a table match first, the status tests only when
      no key occurs; the answer is never empty. */
  function TranslatePayPalError(e: ErrorValue): (r: string)
    ensures forall k: nat | FirstKeyAt(MessageOf(e), k) :: r == Translations[k].1
    ensures (forall k | 0 <= k < |Translations| :: !Contains(MessageOf(e), Translations[k].0))
      ==> r == StatusTranslation(MessageOf(e))
    ensures r != ""
  {
    var m := MessageOf(e);
    match TableTranslation(m)
    case Some(t) => t
    case None => StatusTranslation(m)
  }
}
