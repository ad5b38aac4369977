/** GET /user/:userId of the stats route (server/src/routes/stats.ts): one
    pass over a user's invoices counting them by status and summing the
    amounts of SENT and PAID ones, overall and per currency. Amounts are
    exact (`real`), so the sums are exact. */
module Stats {
  import opened Common
  import opened InvoiceStore

  datatype Bucket = Bucket(invoiced: real, paid: real, pending: real)

  /** The `stats` object the route answers with. */
  datatype Stats = Stats(
    total: nat, draft: nat, sent: nat, paid: nat, cancelled: nat,
    totalInvoiced: real, totalPaid: real, totalPending: real,
    currencies: map<string, Bucket>)

  // ---------------------------------------------------------------------------
  // Reference definitions over a list of invoices

  /** The invoices among `invs` with status `s`. */
  function CountStatus(invs: seq<Invoice>, s: Status): (n: nat)
    ensures n <= |invs|
  {
    if invs == [] then 0
    else CountStatus(invs[..|invs| - 1], s) + (if invs[|invs| - 1].status == s then 1 else 0)
  }

  /** `c` is None (all currencies) or the invoice's currency. */
  predicate InCurrency(inv: Invoice, c: Option<string>)
  {
    c.None? || inv.currency == c.value
  }

  /** The total amount of the invoices in currency `c` with status `s`. */
  function Sum(invs: seq<Invoice>, c: Option<string>, s: Status): real
  {
    if invs == [] then 0.0
    else
      var last := invs[|invs| - 1];
      Sum(invs[..|invs| - 1], c, s) + (if InCurrency(last, c) && last.status == s then last.amount else 0.0)
  }

  /** The total amount invoiced in currency `c`: what was sent or paid. */
  function Invoiced(invs: seq<Invoice>, c: Option<string>): real
  {
    if invs == [] then 0.0
    else
      var last := invs[|invs| - 1];
      Invoiced(invs[..|invs| - 1], c)
      + (if InCurrency(last, c) && (last.status == Sent || last.status == Paid) then last.amount else 0.0)
  }

  /** The currencies that occur among `invs`. */
  function Currencies(invs: seq<Invoice>): (cs: set<string>)
    ensures forall k | 0 <= k < |invs| :: invs[k].currency in cs
    ensures forall c | c in cs :: exists k | 0 <= k < |invs| :: invs[k].currency == c
  {
    set k | 0 <= k < |invs| :: invs[k].currency
  }

  /** The bucket currency `c` must hold for `invs`. */
  function BucketOf(invs: seq<Invoice>, c: string): Bucket
  {
    Bucket(Invoiced(invs, Some(c)), Sum(invs, Some(c), Paid), Sum(invs, Some(c), Sent))
  }

  /** What the counters and buckets must hold after the invoices `invs`
      have been visited. */
  predicate Tallied(st: Stats, invs: seq<Invoice>)
  {
    && st.draft == CountStatus(invs, Draft) && st.sent == CountStatus(invs, Sent)
    && st.paid == CountStatus(invs, Paid) && st.cancelled == CountStatus(invs, Cancelled)
    && st.totalInvoiced == Invoiced(invs, None)
    && st.totalPaid == Sum(invs, None, Paid)
    && st.totalPending == Sum(invs, None, Sent)
    && st.currencies.Keys == Currencies(invs)
    && forall c | c in st.currencies :: st.currencies[c] == BucketOf(invs, c)
  }

  /** What the route's answer must be for `invs`. */
  predicate Describes(st: Stats, invs: seq<Invoice>)
  {
    st.total == |invs| && Tallied(st, invs)
  }

  // ---------------------------------------------------------------------------
  // The loop

  /** The `for (const inv of invoices)` loop; `total` is set beforehand. */
  method Tally(invs: seq<Invoice>) returns (st: Stats)
    ensures Describes(st, invs)
  {
    st := Stats(|invs|, 0, 0, 0, 0, 0.0, 0.0, 0.0, map[]);
    for i := 0 to |invs|
      invariant st.total == |invs|
      invariant Tallied(st, invs[..i])
    {
      assert invs[..i + 1] == invs[..i] + [invs[i]];
      st := Visit(st, invs[..i], invs[i]);
    }
    assert invs[..|invs|] == invs;
  }

  /** One turn of the loop: a bucket is opened for a new currency, then the
      invoice's status decides what is counted and added. */
  method Visit(st0: Stats, seen: seq<Invoice>, inv: Invoice) returns (st: Stats)
    requires Tallied(st0, seen)
    ensures Tallied(st, seen + [inv]) && st.total == st0.total
  {
    st := st0;
    var currency := inv.currency;
    if currency !in st.currencies {
      NewCurrencyHasZeroBucket(seen, currency);
      st := st.(currencies := st.currencies[currency := Bucket(0.0, 0.0, 0.0)]);
    }
    CurrenciesGrow(seen, inv);
    st := Count(st, seen, inv);
  }

  /** The `switch (inv.status)` of one turn, once the bucket of the
      invoice's currency is open. */
  method Count(st0: Stats, seen: seq<Invoice>, inv: Invoice) returns (st: Stats)
    requires st0.currencies.Keys == Currencies(seen + [inv])
    requires forall c | c in st0.currencies :: st0.currencies[c] == BucketOf(seen, c)
    requires st0.draft == CountStatus(seen, Draft) && st0.sent == CountStatus(seen, Sent)
    requires st0.paid == CountStatus(seen, Paid) && st0.cancelled == CountStatus(seen, Cancelled)
    requires st0.totalInvoiced == Invoiced(seen, None)
    requires st0.totalPaid == Sum(seen, None, Paid) && st0.totalPending == Sum(seen, None, Sent)
    ensures Tallied(st, seen + [inv]) && st.total == st0.total
  {
    var amount := inv.amount;
    var currency := inv.currency;
    ScalarsStep(seen, inv);
    forall c | c in st0.currencies
      ensures BucketOf(seen + [inv], c) == (if c == currency then AddTo(st0.currencies[c], inv) else st0.currencies[c])
    {
      BucketStep(seen, inv, c);
    }
    assert currency in st0.currencies;
    st := st0;
    match inv.status {
      case Draft =>
        st := st.(draft := st.draft + 1);
      case Sent =>
        var b := st.currencies[currency];
        st := st.(sent := st.sent + 1,
                  totalInvoiced := st.totalInvoiced + amount,
                  totalPending := st.totalPending + amount,
                  currencies := st.currencies[currency := b.(invoiced := b.invoiced + amount, pending := b.pending + amount)]);
      case Paid =>
        var b := st.currencies[currency];
        st := st.(paid := st.paid + 1,
                  totalInvoiced := st.totalInvoiced + amount,
                  totalPaid := st.totalPaid + amount,
                  currencies := st.currencies[currency := b.(invoiced := b.invoiced + amount, paid := b.paid + amount)]);
      case Cancelled =>
        st := st.(cancelled := st.cancelled + 1);
    }
  }

  /** What one invoice adds to its currency's bucket. */
  function AddTo(b: Bucket, inv: Invoice): Bucket
  {
    match inv.status
    case Sent => b.(invoiced := b.invoiced + inv.amount, pending := b.pending + inv.amount)
    case Paid => b.(invoiced := b.invoiced + inv.amount, paid := b.paid + inv.amount)
    case _ => b
  }

  lemma BucketStep(seen: seq<Invoice>, inv: Invoice, c: string)
    ensures BucketOf(seen + [inv], c) == if c == inv.currency then AddTo(BucketOf(seen, c), inv) else BucketOf(seen, c)
  {
    var after := seen + [inv];
    assert after[..|after| - 1] == seen && after[|after| - 1] == inv;
  }

  lemma ScalarsStep(seen: seq<Invoice>, inv: Invoice)
    ensures forall s :: CountStatus(seen + [inv], s) == CountStatus(seen, s) + (if inv.status == s then 1 else 0)
    ensures Invoiced(seen + [inv], None) == Invoiced(seen, None) + (if inv.status == Sent || inv.status == Paid then inv.amount else 0.0)
    ensures forall s :: Sum(seen + [inv], None, s) == Sum(seen, None, s) + (if inv.status == s then inv.amount else 0.0)
  {
    var after := seen + [inv];
    assert after[..|after| - 1] == seen && after[|after| - 1] == inv;
  }

  /** A currency that has not occurred yet has nothing summed for it. */
  lemma {:induction false} NewCurrencyHasZeroBucket(invs: seq<Invoice>, c: string)
    requires c !in Currencies(invs)
    ensures Invoiced(invs, Some(c)) == 0.0 && Sum(invs, Some(c), Paid) == 0.0 && Sum(invs, Some(c), Sent) == 0.0
    decreases |invs|
  {
    if invs != [] {
      var init := invs[..|invs| - 1];
      assert forall k | 0 <= k < |init| :: init[k] == invs[k];
      assert c !in Currencies(init);
      NewCurrencyHasZeroBucket(init, c);
    }
  }

  lemma CurrenciesGrow(invs: seq<Invoice>, inv: Invoice)
    ensures Currencies(invs + [inv]) == Currencies(invs) + {inv.currency}
  {
    var both := invs + [inv];
    assert forall k | 0 <= k < |invs| :: both[k] == invs[k];
    assert both[|invs|] == inv;
  }

  // ---------------------------------------------------------------------------
  // The route

  /** `findMany({ where })` for the stats route, oldest first: the user's
      rows, in the guild when one is given, each once. */
  function Selected(rows: map<InvoiceId, Invoice>, below: nat, userId: string, guildId: Option<string>): (r: seq<Invoice>)
    requires Keyed(rows)
    ensures |r| <= below
    ensures forall k | 0 <= k < |r| ::
      && r[k].id in rows && rows[r[k].id] == r[k] && r[k].id < below
      && r[k].userId == userId && (guildId.Some? ==> r[k].guildId == guildId.value)
    // In increasing id order, so no row is listed twice.
    ensures forall k, l | 0 <= k < l < |r| :: r[k].id < r[l].id
    ensures forall id | id in rows && id < below && rows[id].userId == userId
                        && (guildId.Some? ==> rows[id].guildId == guildId.value) :: rows[id] in r
  {
    if below == 0 then []
    else
      var id := below - 1;
      Selected(rows, id, userId, guildId)
      + (if id in rows && rows[id].userId == userId && (guildId.Some? ==> rows[id].guildId == guildId.value)
         then [rows[id]] else [])
  }

  /** GET /user/:userId: the guild filter applies only for a truthy `guildId`. */
  method UserStats(db: InvoiceTable, userId: string, guildId: Option<string>) returns (st: Stats)
    requires db.Valid()
    ensures var guild := if Truthy(guildId) then guildId else None;
      Describes(st, Selected(db.rows, db.nextId, userId, guild))
  {
    var guild := if Truthy(guildId) then guildId else None;
    var invoices := Selected(db.rows, db.nextId, userId, guild);
    st := Tally(invoices);
  }

  // ---------------------------------------------------------------------------
  // What the answer satisfies

  /** Every invoice is counted under exactly one status. */
  lemma {:induction false} CountsAddUp(invs: seq<Invoice>)
    ensures CountStatus(invs, Draft) + CountStatus(invs, Sent) + CountStatus(invs, Paid) + CountStatus(invs, Cancelled) == |invs|
    decreases |invs|
  {
    if invs != [] {
      CountsAddUp(invs[..|invs| - 1]);
    }
  }

  /** What is invoiced is what is paid plus what is pending, in every currency. */
  lemma {:induction false} InvoicedSplits(invs: seq<Invoice>, c: Option<string>)
    ensures Invoiced(invs, c) == Sum(invs, c, Paid) + Sum(invs, c, Sent)
    decreases |invs|
  {
    if invs != [] {
      InvoicedSplits(invs[..|invs| - 1], c);
    }
  }

  /** Invoices that are only ever DRAFT or CANCELLED add no amount. */
  lemma {:induction false} IdleInvoicesAddNothing(invs: seq<Invoice>, c: Option<string>)
    requires forall k | 0 <= k < |invs| :: InCurrency(invs[k], c) ==> invs[k].status == Draft || invs[k].status == Cancelled
    ensures Invoiced(invs, c) == 0.0 && Sum(invs, c, Paid) == 0.0 && Sum(invs, c, Sent) == 0.0
    decreases |invs|
  {
    if invs != [] {
      var init := invs[..|invs| - 1];
      assert forall k | 0 <= k < |init| :: init[k] == invs[k];
      IdleInvoicesAddNothing(init, c);
    }
  }

  /** The currencies in the order their buckets are opened. */
  function CurrencyOrder(invs: seq<Invoice>): (cs: seq<string>)
    ensures forall i, j | 0 <= i < j < |cs| :: cs[i] != cs[j]
    ensures forall c :: c in cs <==> c in Currencies(invs)
  {
    if invs == [] then []
    else
      var init := invs[..|invs| - 1];
      var c := invs[|invs| - 1].currency;
      CurrenciesGrow(init, invs[|invs| - 1]);
      assert invs == init + [invs[|invs| - 1]];
      if c in CurrencyOrder(init) then CurrencyOrder(init) else CurrencyOrder(init) + [c]
  }

  /** The sum over the currencies `cs` of the per-currency totals for status `s`. */
  function SumByCurrency(cs: seq<string>, invs: seq<Invoice>, s: Status): real
  {
    if cs == [] then 0.0 else Sum(invs, Some(cs[0]), s) + SumByCurrency(cs[1..], invs, s)
  }

  lemma {:induction false} SumByCurrencyOfNothing(cs: seq<string>, s: Status)
    ensures SumByCurrency(cs, [], s) == 0.0
    decreases |cs|
  {
    if cs != [] {
      SumByCurrencyOfNothing(cs[1..], s);
    }
  }

  /** Appending one invoice adds its amount to exactly one currency of a
      duplicate-free list that holds its currency. */
  lemma {:induction false} SumByCurrencyStep(cs: seq<string>, invs: seq<Invoice>, inv: Invoice, s: Status)
    requires forall i, j | 0 <= i < j < |cs| :: cs[i] != cs[j]
    ensures SumByCurrency(cs, invs + [inv], s)
      == SumByCurrency(cs, invs, s) + (if inv.currency in cs && inv.status == s then inv.amount else 0.0)
    decreases |cs|
  {
    var both := invs + [inv];
    assert both[..|both| - 1] == invs;
    if cs != [] {
      assert forall i, j | 0 <= i < j < |cs[1..]| :: cs[1..][i] == cs[i + 1] && cs[1..][j] == cs[j + 1];
      SumByCurrencyStep(cs[1..], invs, inv, s);
      assert inv.currency in cs <==> inv.currency == cs[0] || inv.currency in cs[1..] by {
        assert cs == [cs[0]] + cs[1..];
      }
      assert inv.currency == cs[0] ==> inv.currency !in cs[1..];
    }
  }

  /** Summing per currency over a duplicate-free list of all the currencies
      gives the overall total. */
  lemma {:induction false} SumByCurrencyCovers(cs: seq<string>, invs: seq<Invoice>, s: Status)
    requires forall i, j | 0 <= i < j < |cs| :: cs[i] != cs[j]
    requires forall k | 0 <= k < |invs| :: invs[k].currency in cs
    ensures SumByCurrency(cs, invs, s) == Sum(invs, None, s)
    decreases |invs|
  {
    if invs == [] {
      SumByCurrencyOfNothing(cs, s);
    } else {
      var init := invs[..|invs| - 1];
      var last := invs[|invs| - 1];
      assert forall k | 0 <= k < |init| :: init[k] == invs[k];
      SumByCurrencyCovers(cs, init, s);
      assert invs == init + [last];
      SumByCurrencyStep(cs, init, last, s);
    }
  }

  /** The answer is consistent: the status counts add up to the total; what
      is invoiced is paid plus pending, overall and in each bucket; and the
      per-currency paid amounts, over the buckets in the order they were
      opened, add up to the total paid. */
  lemma StatsConsistent(st: Stats, invs: seq<Invoice>)
    requires Describes(st, invs)
    ensures st.draft + st.sent + st.paid + st.cancelled == st.total
    ensures st.totalInvoiced == st.totalPaid + st.totalPending
    ensures forall c | c in st.currencies :: st.currencies[c].invoiced == st.currencies[c].paid + st.currencies[c].pending
    ensures SumByCurrency(CurrencyOrder(invs), invs, Paid) == st.totalPaid
    ensures forall c :: c in CurrencyOrder(invs) <==> c in st.currencies
  {
    CountsAddUp(invs);
    InvoicedSplits(invs, None);
    forall c | c in st.currencies
      ensures st.currencies[c].invoiced == st.currencies[c].paid + st.currencies[c].pending
    {
      InvoicedSplits(invs, Some(c));
    }
    SumByCurrencyCovers(CurrencyOrder(invs), invs, Paid);
  }

  /** A currency whose invoices are all DRAFT or CANCELLED still has a
      bucket, and it is all zeros. */
  lemma IdleCurrencyBucketIsZero(st: Stats, invs: seq<Invoice>, c: string)
    requires Describes(st, invs)
    requires exists k | 0 <= k < |invs| :: invs[k].currency == c
    requires forall k | 0 <= k < |invs| :: invs[k].currency == c ==> invs[k].status == Draft || invs[k].status == Cancelled
    ensures c in st.currencies && st.currencies[c] == Bucket(0.0, 0.0, 0.0)
  {
    IdleInvoicesAddNothing(invs, Some(c));
  }
}
