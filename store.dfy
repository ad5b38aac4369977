/** The invoice table as the routes and the webhook handler use it through
    Prisma: rows keyed by internal id, a unique index on the PayPal invoice
    id, single-row updates, an update-many by PayPal id, and filtered,
    newest-first listing. Ids are handed out by a counter and `createdAt` is
    the insertion number, so a newer row always has a larger id. `effects`
    records, in order, the writes and the remote calls made around them. */
module InvoiceStore {
  import opened Common
  import Schemas

  datatype Status = Draft | Sent | Paid | Cancelled

  /** The status as stored and sent over the API. */
  function StatusName(s: Status): string
  {
    match s
    case Draft => "DRAFT"
    case Sent => "SENT"
    case Paid => "PAID"
    case Cancelled => "CANCELLED"
  }

  /** Statuses are compared by name in filters: distinct statuses have
      distinct names. */
  lemma StatusNameInjective(a: Status, b: Status)
    requires StatusName(a) == StatusName(b)
    ensures a == b
  {
  }

  type InvoiceId = nat

  datatype Invoice = Invoice(
    id: InvoiceId,
    userId: string,
    guildId: string,
    clientDiscordId: string,
    clientEmail: Option<string>,
    amount: real,
    currency: string,
    description: string,
    status: Status,
    paypalInvoiceId: Option<string>,
    paypalLink: Option<string>,
    createdAt: nat,
    paidAt: Option<int>)

  /** What the create route writes into a new row. */
  datatype NewInvoice = NewInvoice(
    userId: string, guildId: string, clientDiscordId: string, clientEmail: Option<string>,
    amount: real, currency: string, description: string)

  /** The bounds the create schema puts on the data of a row. */
  predicate DataOk(d: NewInvoice)
  {
    && d.userId != "" && d.guildId != "" && d.clientDiscordId != ""
    && Schemas.AmountOk(d.amount) && Schemas.CurrencyOk(d.currency) && Schemas.DescriptionOk(d.description)
  }

  /** The DRAFT row `insert` creates for `d` under `id`. */
  function DraftRow(id: InvoiceId, d: NewInvoice): (inv: Invoice)
    ensures inv.id == id && inv.createdAt == id && inv.status == Draft
    ensures inv.paypalInvoiceId == None && inv.paypalLink == None && inv.paidAt == None
  {
    Invoice(id, d.userId, d.guildId, d.clientDiscordId, d.clientEmail,
            d.amount, d.currency, d.description, Draft, None, None, id, None)
  }

  /** What every stored row satisfies: its key is its id and its creation
      number; its data keeps the schema bounds; a PAID row has a payment
      time; a SENT or PAID row has a (non-empty) PayPal id. */
  predicate RowOk(id: InvoiceId, inv: Invoice)
  {
    && inv.id == id && inv.createdAt == id
    && DataOk(NewInvoice(inv.userId, inv.guildId, inv.clientDiscordId, inv.clientEmail,
                         inv.amount, inv.currency, inv.description))
    && (inv.status == Paid ==> inv.paidAt.Some?)
    && (inv.status == Sent || inv.status == Paid ==> inv.paypalInvoiceId.Some?)
    && (inv.paypalInvoiceId.Some? ==> inv.paypalInvoiceId.value != "")
  }

  /** The unique index on `paypalInvoiceId`. */
  predicate DistinctProviderIds(rows: map<InvoiceId, Invoice>)
  {
    forall i, j | i in rows && j in rows && i != j && rows[i].paypalInvoiceId.Some? ::
      rows[i].paypalInvoiceId != rows[j].paypalInvoiceId
  }

  predicate ProviderIdTaken(rows: map<InvoiceId, Invoice>, pid: string, except: InvoiceId)
  {
    exists j | j in rows :: j != except && rows[j].paypalInvoiceId == Some(pid)
  }

  /** Whether another row holds `pid` does not depend on the row under `id` itself. */
  lemma TakenIgnoresOwnRow(rows: map<InvoiceId, Invoice>, id: InvoiceId, inv: Invoice, pid: string)
    ensures ProviderIdTaken(rows[id := inv], pid, id) <==> ProviderIdTaken(rows, pid, id)
  {
    if ProviderIdTaken(rows[id := inv], pid, id) {
      var j :| j in rows[id := inv] && j != id && rows[id := inv][j].paypalInvoiceId == Some(pid);
      assert j in rows && rows[j].paypalInvoiceId == Some(pid);
    }
    if ProviderIdTaken(rows, pid, id) {
      var j :| j in rows && j != id && rows[j].paypalInvoiceId == Some(pid);
      assert j in rows[id := inv] && rows[id := inv][j].paypalInvoiceId == Some(pid);
    }
  }

  /** The key of the row holding `pid`, if any (one at most, by the unique index). */
  function ProviderRow(rows: map<InvoiceId, Invoice>, pid: string): (r: Option<InvoiceId>)
    requires DistinctProviderIds(rows)
    ensures r.None? <==> forall id | id in rows :: rows[id].paypalInvoiceId != Some(pid)
    ensures r.Some? ==> r.value in rows && rows[r.value].paypalInvoiceId == Some(pid)
  {
    if exists id | id in rows :: rows[id].paypalInvoiceId == Some(pid) then
      var id :| id in rows && rows[id].paypalInvoiceId == Some(pid);
      Some(id)
    else None
  }

  /** Each row's key is its id and its creation number. */
  predicate Keyed(rows: map<InvoiceId, Invoice>)
  {
    forall id | id in rows :: rows[id].id == id && rows[id].createdAt == id
  }

  /** `updateMany({ where: { paypalInvoiceId: pid }, data: { status: "CANCELLED" } })` */
  function CancelByProvider(rows: map<InvoiceId, Invoice>, pid: string): (r: map<InvoiceId, Invoice>)
    ensures r.Keys == rows.Keys
    ensures forall id | id in rows :: r[id] == if rows[id].paypalInvoiceId == Some(pid) then rows[id].(status := Cancelled) else rows[id]
  {
    map id | id in rows :: if rows[id].paypalInvoiceId == Some(pid) then rows[id].(status := Cancelled) else rows[id]
  }

  /** With the unique index, the update-many touches at most one row. */
  lemma CancelByProviderTouchesOneRow(rows: map<InvoiceId, Invoice>, pid: string, i: InvoiceId, j: InvoiceId)
    requires DistinctProviderIds(rows)
    requires i in rows && j in rows
    requires CancelByProvider(rows, pid)[i] != rows[i] && CancelByProvider(rows, pid)[j] != rows[j]
    ensures i == j
  {
  }

  /** The ordered effects the model keeps track of. */
  datatype Effect =
    | Inserted(id: InvoiceId)
    | Linked(id: InvoiceId, paypalInvoiceId: string)
    | StatusSet(id: InvoiceId, status: Status)
    | CancelledByProvider(paypalInvoiceId: string)
    | RemoteCreate(id: InvoiceId, amount: real, currency: string, description: string, invoicerEmail: string, recipientEmail: string)
    | RemoteSend(paypalInvoiceId: string)
    | RemoteCancel(paypalInvoiceId: string)
    | Notified(id: InvoiceId, webhookUrl: string)

  // ---------------------------------------------------------------------------
  // Filtered listing, newest first

  /** A `findMany` filter: the guild, and optionally the owner and the status. */
  datatype Where = Where(guildId: string, userId: Option<string>, status: Option<string>)

  predicate Matches(w: Where, inv: Invoice)
  {
    && inv.guildId == w.guildId
    && (w.userId.Some? ==> inv.userId == w.userId.value)
    && (w.status.Some? ==> StatusName(inv.status) == w.status.value)
  }

  /** `findMany({ where: w, orderBy: { createdAt: "desc" }, take })` over the
      rows created before `below`. */
  function NewestFirst(rows: map<InvoiceId, Invoice>, w: Where, below: nat, take: nat): (r: seq<Invoice>)
    requires Keyed(rows)
    // At most `take` rows, each a stored row matching the filter.
    ensures |r| <= take
    ensures forall k | 0 <= k < |r| :: r[k].id in rows && rows[r[k].id] == r[k] && r[k].id < below && Matches(w, r[k])
    // Strictly newest first (so no row twice).
    ensures forall k, l | 0 <= k < l < |r| :: r[k].createdAt > r[l].createdAt
    // Nothing newer is skipped: a matching row left out lies beyond a full page of newer rows.
    ensures forall id | id in rows && id < below && Matches(w, rows[id]) ::
      rows[id] in r || (|r| == take && forall k | 0 <= k < |r| :: r[k].createdAt > id)
    decreases below
  {
    if below == 0 || take == 0 then []
    else
      var id := below - 1;
      if id in rows && Matches(w, rows[id]) then [rows[id]] + NewestFirst(rows, w, id, take - 1)
      else NewestFirst(rows, w, id, take)
  }

  // ---------------------------------------------------------------------------
  // The table

  class InvoiceTable {
    var rows: map<InvoiceId, Invoice>
    var nextId: InvoiceId
    ghost var effects: seq<Effect>

    ghost predicate Valid()
      reads this
    {
      && (forall id | id in rows :: id < nextId && RowOk(id, rows[id]))
      && DistinctProviderIds(rows)
    }

    constructor ()
      ensures Valid() && rows == map[] && nextId == 0 && effects == []
    {
      rows := map[];
      nextId := 0;
      effects := [];
    }

    /** `findUnique({ where: { id } })` */
    function Get(id: InvoiceId): (r: Option<Invoice>)
      reads this
      ensures r.Some? <==> id in rows
      ensures r.Some? ==> r.value == rows[id]
    {
      if id in rows then Some(rows[id]) else None
    }

    /** `findUnique({ where: { paypalInvoiceId: pid } })` */
    function FindByProvider(pid: string): (r: Option<Invoice>)
      requires Valid()
      reads this
      ensures r.None? <==> ProviderRow(rows, pid).None?
      ensures r.Some? ==> r.value == rows[ProviderRow(rows, pid).value]
    {
      match ProviderRow(rows, pid)
      case None => None
      case Some(id) => Some(rows[id])
    }

    /** `create` of a DRAFT row with the next id. */
    method Insert(d: NewInvoice) returns (inv: Invoice)
      requires Valid() && DataOk(d)
      modifies this
      ensures inv == DraftRow(old(nextId), d) && inv.id !in old(rows)
      ensures rows == old(rows)[inv.id := inv] && nextId == old(nextId) + 1
      ensures effects == old(effects) + [Inserted(inv.id)]
      ensures Valid()
    {
      inv := DraftRow(nextId, d);
      rows := rows[nextId := inv];
      nextId := nextId + 1;
      effects := effects + [Inserted(inv.id)];
    }

    /** `update` of the PayPal id and link (status kept DRAFT); fails on the
        unique index when another row already holds `pid`. */
    method Link(id: InvoiceId, pid: string, link: string) returns (r: Result<Invoice, string>)
      requires Valid() && id in rows && pid != "" && rows[id].status == Draft
      modifies this
      ensures ProviderIdTaken(old(rows), pid, id) ==>
        r.Err? && rows == old(rows) && nextId == old(nextId) && effects == old(effects)
      ensures !ProviderIdTaken(old(rows), pid, id) ==>
        && r == Ok(old(rows)[id].(paypalInvoiceId := Some(pid), paypalLink := Some(link), status := Draft))
        && rows == old(rows)[id := r.value] && nextId == old(nextId)
        && effects == old(effects) + [Linked(id, pid)]
      ensures Valid()
    {
      if exists j | j in rows :: j != id && rows[j].paypalInvoiceId == Some(pid) {
        return Err("Unique constraint failed on the fields: (`paypalInvoiceId`)");
      }
      var inv := rows[id].(paypalInvoiceId := Some(pid), paypalLink := Some(link), status := Draft);
      rows := rows[id := inv];
      effects := effects + [Linked(id, pid)];
      r := Ok(inv);
    }

    /** `update` of the status to SENT. */
    method MarkSent(id: InvoiceId) returns (inv: Invoice)
      requires Valid() && id in rows && rows[id].paypalInvoiceId.Some?
      modifies this
      ensures inv == old(rows)[id].(status := Sent)
      ensures rows == old(rows)[id := inv] && nextId == old(nextId)
      ensures effects == old(effects) + [StatusSet(id, Sent)]
      ensures Valid()
    {
      inv := rows[id].(status := Sent);
      rows := rows[id := inv];
      effects := effects + [StatusSet(id, Sent)];
    }

    /** `update` of the status to PAID with the payment time. */
    method MarkPaid(id: InvoiceId, now: int) returns (inv: Invoice)
      requires Valid() && id in rows && rows[id].paypalInvoiceId.Some?
      modifies this
      ensures inv == old(rows)[id].(status := Paid, paidAt := Some(now))
      ensures rows == old(rows)[id := inv] && nextId == old(nextId)
      ensures effects == old(effects) + [StatusSet(id, Paid)]
      ensures Valid()
    {
      inv := rows[id].(status := Paid, paidAt := Some(now));
      rows := rows[id := inv];
      effects := effects + [StatusSet(id, Paid)];
    }

    /** `update` of the status to CANCELLED. */
    method MarkCancelled(id: InvoiceId) returns (inv: Invoice)
      requires Valid() && id in rows
      modifies this
      ensures inv == old(rows)[id].(status := Cancelled)
      ensures rows == old(rows)[id := inv] && nextId == old(nextId)
      ensures effects == old(effects) + [StatusSet(id, Cancelled)]
      ensures Valid()
    {
      inv := rows[id].(status := Cancelled);
      rows := rows[id := inv];
      effects := effects + [StatusSet(id, Cancelled)];
    }

    /** `updateMany` of every row holding `pid` to CANCELLED. */
    method CancelAllWithProvider(pid: string)
      requires Valid()
      modifies this
      ensures rows == CancelByProvider(old(rows), pid) && nextId == old(nextId)
      ensures effects == old(effects) + [CancelledByProvider(pid)]
      ensures Valid()
    {
      rows := CancelByProvider(rows, pid);
      effects := effects + [CancelledByProvider(pid)];
    }

    /** Records a call made to PayPal or Discord. */
    ghost method Record(e: Effect)
      modifies this
      ensures rows == old(rows) && nextId == old(nextId) && effects == old(effects) + [e]
    {
      effects := effects + [e];
    }
  }
}
