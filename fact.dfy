/** The transaction rows of `populate_fact` before they are encoded: keys
    sampled from the dimension key pools, the nullable promotion and browser
    chosen with `np.where`, and transaction ids counted from a start value. */
module Fact {
  import opened Common

  datatype Browser = Chrome | Safari | Firefox | Edge | Opera | Brave

  function BrowserName(b: Browser): string
  {
    match b
    case Chrome => "Chrome"
    case Safari => "Safari"
    case Firefox => "Firefox"
    case Edge => "Edge"
    case Opera => "Opera"
    case Brave => "Brave"
  }

  datatype PayMethod = Card | ApplePay | GooglePay | PayPal | Cash

  function PayMethodName(p: PayMethod): string
  {
    match p
    case Card => "Card"
    case ApplePay => "ApplePay"
    case GooglePay => "GooglePay"
    case PayPal => "PayPal"
    case Cash => "Cash"
  }

  /** `PAYMETHODS_ONLINE` and `PAYMETHODS_OFFLINE`. */
  const OnlinePayMethods: seq<PayMethod> := [Card, ApplePay, GooglePay, PayPal]
  const OfflinePayMethods: seq<PayMethod> := [Cash, Card]

  type OnlinePayIndex = i: int | 0 <= i < 4
  type OfflinePayIndex = i: int | 0 <= i < 2

  /** `tickets_sold` is drawn from 1..6. */
  type TicketCount = t: int | 1 <= t <= 6 witness 1

  /** The text `float(total_price[i])` prints. Its digits are not modelled;
      what matters to the encoding is that a float's text is never empty and
      holds no tab and no line break. */
  predicate IsPriceText(s: string)
  {
    |s| > 0 && forall k :: 0 <= k < |s| ==> s[k] != '\t' && s[k] != '\n'
  }

  type PriceText = s: string | IsPriceText(s) witness "0.0"

  /** The surrogate keys read back from the six dimension tables. */
  datatype KeyPools = KeyPools(
    dateKeys: seq<int>, customerKeys: seq<int>, movieKeys: seq<int>,
    cinemaKeys: seq<int>, promoKeys: seq<int>, showingKeys: seq<int>)

  /** `np.random.choice` of an empty pool raises ValueError. */
  predicate PoolsNonEmpty(p: KeyPools)
  {
    |p.dateKeys| > 0 && |p.customerKeys| > 0 && |p.movieKeys| > 0 &&
    |p.cinemaKeys| > 0 && |p.promoKeys| > 0 && |p.showingKeys| > 0
  }

  /** Everything drawn for one transaction. Key choices are indexes into
      the pools. Both pay-method vocabularies, a promotion key and a browser
      are drawn for every row, as `np.where` evaluates both of its arms. */
  datatype FactDraw = FactDraw(
    date: nat, customer: nat, movie: nat, cinema: nat, showing: nat,
    hasPromo: bool, promo: nat,
    isOnline: bool, browser: Browser, onlinePay: OnlinePayIndex, offlinePay: OfflinePayIndex,
    tickets: TicketCount, totalPrice: PriceText)

  /** The draw indexes fall inside the pools. */
  predicate DrawFits(p: KeyPools, d: FactDraw)
  {
    d.date < |p.dateKeys| && d.customer < |p.customerKeys| && d.movie < |p.movieKeys| &&
    d.cinema < |p.cinemaKeys| && d.promo < |p.promoKeys| && d.showing < |p.showingKeys|
  }

  /** One row of transaction_ft, in its column order. */
  datatype FactRow = FactRow(
    dateKey: int, customerKey: int, movieKey: int, cinemaKey: int,
    promotionKey: Option<int>, showingKey: int, transactionId: int,
    payMethod: PayMethod, isOnline: bool, browser: Option<Browser>,
    ticketsSold: TicketCount, totalPrice: PriceText)

  /** The row of one draw, as the `np.where` and key-sampling lines build it. */
  function FactRowOf(p: KeyPools, d: FactDraw, txnId: int): FactRow
    requires DrawFits(p, d)
  {
    FactRow(
      p.dateKeys[d.date], p.customerKeys[d.customer], p.movieKeys[d.movie], p.cinemaKeys[d.cinema],
      if d.hasPromo then Some(p.promoKeys[d.promo]) else None,
      p.showingKeys[d.showing], txnId,
      if d.isOnline then OnlinePayMethods[d.onlinePay] else OfflinePayMethods[d.offlinePay],
      d.isOnline,
      if d.isOnline then Some(d.browser) else None,
      d.tickets, d.totalPrice)
  }

  /** Every key of the row is a member of its pool (referential integrity);
      the promotion is absent exactly when `has_promo` is false, the browser
      exactly when the sale is offline; the pay method comes from the
      vocabulary of the sale's channel. */
  lemma FactRowOfMeaning(p: KeyPools, d: FactDraw, txnId: int)
    requires DrawFits(p, d)
    ensures var row := FactRowOf(p, d, txnId);
      && row.dateKey in p.dateKeys && row.customerKey in p.customerKeys
      && row.movieKey in p.movieKeys && row.cinemaKey in p.cinemaKeys && row.showingKey in p.showingKeys
      && (row.promotionKey.None? <==> !d.hasPromo)
      && (row.promotionKey.Some? ==> row.promotionKey.value in p.promoKeys)
      && (row.browser.None? <==> !d.isOnline)
      && row.isOnline == d.isOnline
      && (row.isOnline ==> row.payMethod in OnlinePayMethods)
      && (!row.isOnline ==> row.payMethod in OfflinePayMethods)
      && row.transactionId == txnId
      && row.ticketsSold == d.tickets && row.totalPrice == d.totalPrice
  {
  }

  /** The rows of a run: draw i becomes the row with transaction id start + i
      (`np.arange(txn_id_start + inserted, ...)` over the batches). */
  function FactRows(p: KeyPools, draws: seq<FactDraw>, start: int): (rows: seq<FactRow>)
    requires forall i :: 0 <= i < |draws| ==> DrawFits(p, draws[i])
    ensures |rows| == |draws|
  {
    seq(|draws|, i requires 0 <= i < |draws| => FactRowOf(p, draws[i], start + i))
  }

  /** The transaction ids a sequence of rows carries. */
  function TransactionIdSet(rows: seq<FactRow>): set<int>
  {
    set i | 0 <= i < |rows| :: rows[i].transactionId
  }

  /** Transaction ids are strictly increasing, so never reused, and they
      are exactly start .. start + |draws| - 1. */
  lemma TransactionIds(p: KeyPools, draws: seq<FactDraw>, start: int)
    requires forall i :: 0 <= i < |draws| ==> DrawFits(p, draws[i])
    ensures forall i, j :: 0 <= i < j < |draws| ==>
              FactRows(p, draws, start)[i].transactionId < FactRows(p, draws, start)[j].transactionId
    ensures forall t :: t in TransactionIdSet(FactRows(p, draws, start)) <==> start <= t < start + |draws|
  {
    var rows := FactRows(p, draws, start);
    forall t | start <= t < start + |draws|
      ensures t in TransactionIdSet(rows)
    {
      assert rows[t - start].transactionId == t;
    }
  }

  /** The rows of a prefix of the draws are the prefix of the rows. */
  lemma FactRowsPrefix(p: KeyPools, draws: seq<FactDraw>, start: int, n: int)
    requires forall i :: 0 <= i < |draws| ==> DrawFits(p, draws[i])
    requires 0 <= n <= |draws|
    ensures FactRows(p, draws[..n], start) == FactRows(p, draws, start)[..n]
  {
  }
}
