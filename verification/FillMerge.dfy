/**
 * How `BinanceApprovalRuntime` turns private-stream TRADE events and REST user-trade reconciliations of
 * the same trades into one set of ledger fills.
 */
module FillMerge {
  import opened Trading
  import opened AuditRules
  import opened LedgerTables
  import opened Ledger

  /** A trade as either source reports it; `marker` is the text that names it. */
  datatype Trade = Trade(
    marker: string, symbol: string, price: real, quantity: real, commission: real, asset: string, pnl: real,
    time: int)

  datatype RestRow = RestRow(orderId: int, trade: Trade)

  /** One observation: a TRADE event of the private stream, or the answer to a REST reconciliation. */
  datatype Observation =
    | Stream(order: string, trade: Trade, observedAt: int, note: OrderEvent)
    | Rest(order: string, executed: real, orderId: Option<int>, rows: Option<seq<RestRow>>)

  function FillId(symbol: string, marker: string): string { "binance-trade:" + symbol + ":" + marker }

  function CommissionId(symbol: string, marker: string): string { "trade-commission:" + symbol + ":" + marker }

  lemma MarkersNameFills(symbol: string, a: string, b: string)
    ensures FillId(symbol, a) == FillId(symbol, b) <==> a == b
  {
    var prefix := "binance-trade:" + symbol + ":";
    assert FillId(symbol, a)[|prefix|..] == a && FillId(symbol, b)[|prefix|..] == b;
  }

  // Bookings: what a fill row says, without the row's own id and insertion time

  datatype Booking = Booking(
    order: string, externalId: Option<string>, price: real, quantity: real, fee: real, pnl: Option<real>,
    filledAt: int)

  function BookingOf(f: Fill): Booking {
    Booking(f.order, f.externalId, f.price, f.quantity, f.fee, f.realizedPnl, f.filledAt)
  }

  function Bookings(fills: seq<Fill>): seq<Booking> {
    if fills == [] then [] else Bookings(fills[..|fills| - 1]) + [BookingOf(fills[|fills| - 1])]
  }

  lemma {:induction false} BookingsAt(fills: seq<Fill>)
    ensures |Bookings(fills)| == |fills|
    ensures forall k :: 0 <= k < |fills| ==> Bookings(fills)[k] == BookingOf(fills[k])
  {
    if fills != [] { BookingsAt(fills[..|fills| - 1]); }
  }

  function TradeBooking(order: Order, t: Trade): Booking {
    Booking(order.id, Some(FillId(order.symbol, t.marker)), t.price, t.quantity, t.commission, Some(t.pnl), t.time)
  }

  /** Two bookings of one trade of one order. */
  ghost predicate SameTrade(a: Booking, b: Booking) {
    a.externalId.Some? && a.order == b.order && a.externalId == b.externalId
  }

  ghost predicate Known(bookings: seq<Booking>, b: Booking) {
    exists k :: 0 <= k < |bookings| && SameTrade(b, bookings[k])
  }

  /** A trade is booked once; a second report of it changes nothing. */
  ghost function Booked(bookings: seq<Booking>, b: Booking): seq<Booking> {
    if Known(bookings, b) then bookings else bookings + [b]
  }

  /** The realized profit of the selected bookings. */
  ghost function Realized(bookings: seq<Booking>, keep: Booking -> bool): real {
    if bookings == [] then 0.0
    else Realized(bookings[..|bookings| - 1], keep) + Share(bookings[|bookings| - 1], keep)
  }

  ghost function Share(b: Booking, keep: Booking -> bool): real {
    if keep(b) && b.pnl.Some? then b.pnl.value else 0.0
  }

  ghost predicate Distinct(bookings: seq<Booking>) {
    forall i, k :: 0 <= i < k < |bookings| ==> bookings[i] != bookings[k]
  }

  lemma {:induction false} RealizedOfSum(a: seq<Booking>, b: seq<Booking>, keep: Booking -> bool)
    ensures Realized(a + b, keep) == Realized(a, keep) + Realized(b, keep)
    decreases |b|
  {
    if b == [] {
      assert a + b == a;
    } else {
      assert (a + b)[..|a + b| - 1] == a + b[..|b| - 1];
      RealizedOfSum(a, b[..|b| - 1], keep);
    }
  }

  function Without(bookings: seq<Booking>, k: nat): (r: seq<Booking>)
    requires k < |bookings|
    ensures |r| == |bookings| - 1
  {
    bookings[..k] + bookings[k + 1..]
  }

  lemma RealizedWithout(bookings: seq<Booking>, k: nat, keep: Booking -> bool)
    requires k < |bookings|
    ensures Realized(bookings, keep) == Realized(Without(bookings, k), keep) + Realized([bookings[k]], keep)
  {
    SplitAt(bookings, k, keep);
    RealizedOfSum(bookings[..k], bookings[k + 1..], keep);
  }

  lemma SplitAt(bookings: seq<Booking>, k: nat, keep: Booking -> bool)
    requires k < |bookings|
    ensures Realized(bookings, keep) ==
            Realized(bookings[..k], keep) + Realized([bookings[k]], keep) + Realized(bookings[k + 1..], keep)
  {
    var head, one, tail := bookings[..k], [bookings[k]], bookings[k + 1..];
    RealizedOfSum(head + one, tail, keep);
    RealizedOfSum(head, one, keep);
    assert bookings == (head + one) + tail;
  }

  /** The realized total depends on which bookings there are, not on their order. */
  lemma {:induction false} RealizedIgnoresOrder(a: seq<Booking>, b: seq<Booking>, keep: Booking -> bool)
    requires Distinct(a) && Distinct(b) && forall x :: x in a <==> x in b
    ensures Realized(a, keep) == Realized(b, keep) && |a| == |b|
    decreases |a|
  {
    assert b != [] ==> b[0] in b;
    if a != [] {
      assert a[0] in b;
      var k :| 0 <= k < |b| && b[k] == a[0];
      WithoutOne(a, 0);
      WithoutOne(b, k);
      RealizedIgnoresOrder(Without(a, 0), Without(b, k), keep);
      RealizedWithout(a, 0, keep);
      RealizedWithout(b, k, keep);
    }
  }

  lemma WithoutOne(b: seq<Booking>, k: nat)
    requires k < |b| && Distinct(b)
    ensures Distinct(Without(b, k))
    ensures forall x :: x in Without(b, k) <==> x in b && x != b[k]
  {
    var other := Without(b, k);
    forall x | x in b && x != b[k]
      ensures x in other
    {
      var i :| 0 <= i < |b| && b[i] == x;
      assert other[if i < k then i else i - 1] == x;
    }
    forall x | x in other
      ensures x in b && x != b[k]
    {
      var i :| 0 <= i < |other| && other[i] == x;
      assert b[if i < k then i else i + 1] == x;
    }
  }

  // What a set of observations ought to book

  predicate CloseTo(a: real, b: real) { Abs(a - b) <= Max(0.000000001 * Max(Abs(a), Abs(b)), DUST) }

  ghost function Quantity(rows: seq<RestRow>): real {
    if rows == [] then 0.0 else Quantity(rows[..|rows| - 1]) + rows[|rows| - 1].trade.quantity
  }

  /** One REST row is bound to the reconciled order and complete. */
  predicate RowBound(order: Order, orderId: int, row: RestRow) {
    var t := row.trade;
    t.symbol == order.symbol && row.orderId == orderId && Sized(t) && t.marker != "" && t.time > 0
  }

  /** The rows add up to the executed quantity, up to the dust or a billionth of either. */
  ghost predicate Accounts(sum: real, executed: real) {
    var gap := Abs(executed - sum);
    gap <= DUST || gap * 1000000000.0 <= Abs(executed) || gap * 1000000000.0 <= Abs(sum)
  }

  /** A REST answer that accounts for the whole executed quantity, with every row of the reconciled order. */
  ghost predicate Complete(order: Order, executed: real, orderId: Option<int>, rows: Option<seq<RestRow>>) {
    && orderId.Some? && orderId.value > 0 && rows.Some? && rows.value != []
    && (forall k :: 0 <= k < |rows.value| ==>
          var row := rows.value[k];
          && row.orderId == orderId.value && row.trade.symbol == order.symbol
          && Sized(row.trade) && row.trade.marker != "" && row.trade.time > 0)
    && Accounts(Quantity(rows.value), executed)
  }

  /** The trades that an observation reports for an order. */
  function Reported(o: Observation): seq<Trade> {
    match o
    case Stream(_, trade, _, _) => [trade]
    case Rest(_, executed, _, rows) =>
      if executed <= 0.0 || rows.None? then [] else seq(|rows.value|, k requires 0 <= k < |rows.value| => rows.value[k].trade)
  }

  /** The observation reports a trade that is booked as `b`. */
  ghost predicate SeenIn(orders: map<string, Order>, o: Observation, b: Booking) {
    o.order in orders && exists k :: 0 <= k < |Reported(o)| && TradeBooking(orders[o.order], Reported(o)[k]) == b
  }

  ghost predicate Seen(orders: map<string, Order>, observations: seq<Observation>, b: Booking) {
    exists i :: 0 <= i < |observations| && SeenIn(orders, observations[i], b)
  }

  lemma SeenStep(orders: map<string, Order>, observations: seq<Observation>, k: nat)
    requires k < |observations|
    ensures forall b :: Seen(orders, observations[..k + 1], b) <==>
              Seen(orders, observations[..k], b) || SeenIn(orders, observations[k], b)
  {
    var longer, shorter := observations[..k + 1], observations[..k];
    assert longer[k] == observations[k];
    forall b
      ensures Seen(orders, longer, b) <==> Seen(orders, shorter, b) || SeenIn(orders, longer[k], b)
    {
      assert forall i :: 0 <= i < k ==> longer[i] == shorter[i];
      if Seen(orders, longer, b) {
        var i :| 0 <= i < |longer| && SeenIn(orders, longer[i], b);
        assert i < k ==> SeenIn(orders, shorter[i], b);
      }
    }
  }

  /** Every report of a trade says the same. */
  ghost predicate Consistent(orders: map<string, Order>, observations: seq<Observation>) {
    forall a, b :: Seen(orders, observations, a) && Seen(orders, observations, b) && SameTrade(a, b) ==> a == b
  }

  /** The trades of one order, booked in turn. */
  ghost function BookAll(bookings: seq<Booking>, order: Order, trades: seq<Trade>): seq<Booking> {
    if trades == [] then bookings
    else Booked(BookAll(bookings, order, trades[..|trades| - 1]), TradeBooking(order, trades[|trades| - 1]))
  }

  /** Booking `b` is still to do (`n` is 0) or done. */
  ghost predicate BookedOrNot(before: seq<Booking>, after: seq<Booking>, b: Booking, n: nat) {
    n <= 1 && after == if n == 0 then before else Booked(before, b)
  }

  lemma BookNext(start: seq<Booking>, now: seq<Booking>, after: seq<Booking>, order: Order, trades: seq<Trade>, k: nat, step: nat)
    requires k < |trades| && now == BookAll(start, order, trades[..k])
    requires BookedOrNot(now, after, TradeBooking(order, trades[k]), step)
    ensures after == BookAll(start, order, trades[..k + step])
  {
    assert trades[..k + 1][..k] == trades[..k];
  }

  /** From `before` to `after` exactly new trades were booked, each once. */
  ghost predicate Adds(before: seq<Booking>, after: seq<Booking>, added: seq<Booking>) {
    && after == before + added && Distinct(added)
    && (forall b :: b in added ==> b.externalId.Some? && !Known(before, b))
  }

  lemma BookedAdds(before: seq<Booking>, after: seq<Booking>, added: seq<Booking>, b: Booking) returns (more: seq<Booking>)
    requires Adds(before, after, added) && b.externalId.Some?
    ensures Adds(before, Booked(after, b), added + more) && |more| <= 1 && (forall x :: x in more ==> x == b)
    ensures Known(Booked(after, b), b)
  {
    more := if Known(after, b) then [] else [b];
    assert added + [] == added;
    if !Known(after, b) {
      assert after + [b] == before + (added + [b]);
      forall i | 0 <= i < |added|
        ensures added[i] != b
      {
        assert after[|before| + i] == added[i];
      }
      assert forall k :: 0 <= k < |before| ==> after[k] == before[k];
      assert (after + [b])[|after|] == b;
    }
  }

  lemma KnownGrows(bookings: seq<Booking>, b: Booking, x: Booking)
    requires Known(bookings, x)
    ensures Known(Booked(bookings, b), x)
  {
    var k :| 0 <= k < |bookings| && SameTrade(x, bookings[k]);
    assert Booked(bookings, b)[k] == bookings[k];
  }

  /** Booking some trades of one order adds some of them, and afterwards all of them are known. */
  lemma {:induction false} BookAllAdds(
      before: seq<Booking>, after: seq<Booking>, added: seq<Booking>, order: Order, trades: seq<Trade>)
    returns (more: seq<Booking>)
    requires Adds(before, after, added)
    ensures Adds(before, BookAll(after, order, trades), added + more)
    ensures forall b :: b in more ==> IsTradeOf(order, trades, b)
    ensures forall k :: 0 <= k < |trades| ==> Known(BookAll(after, order, trades), TradeBooking(order, trades[k]))
    ensures forall x :: Known(after, x) ==> Known(BookAll(after, order, trades), x)
    decreases |trades|
  {
    if trades == [] {
      more := [];
      assert added + [] == added;
    } else {
      var shorter, last := trades[..|trades| - 1], TradeBooking(order, trades[|trades| - 1]);
      var first := BookAllAdds(before, after, added, order, shorter);
      var step := BookedAdds(before, BookAll(after, order, shorter), added + first, last);
      more := first + step;
      assert added + more == (added + first) + step;
      AllKnownGrows(BookAll(after, order, shorter), last);
      forall b | b in more
        ensures IsTradeOf(order, trades, b)
      {
        if b in first {
          var k :| 0 <= k < |shorter| && TradeBooking(order, shorter[k]) == b;
          assert trades[k] == shorter[k];
        }
      }
    }
  }

  ghost predicate IsTradeOf(order: Order, trades: seq<Trade>, b: Booking) {
    exists k :: 0 <= k < |trades| && TradeBooking(order, trades[k]) == b
  }

  lemma AllKnownGrows(bookings: seq<Booking>, b: Booking)
    ensures forall x :: Known(bookings, x) ==> Known(Booked(bookings, b), x)
  {
    forall x | Known(bookings, x)
      ensures Known(Booked(bookings, b), x)
    {
      KnownGrows(bookings, b, x);
    }
  }

  /** What a run over observations leaves behind when it starts from `before`. */
  ghost predicate Merged(orders: map<string, Order>, observations: seq<Observation>, before: seq<Booking>,
                         after: seq<Booking>, added: seq<Booking>, complete: bool) {
    && Adds(before, after, added)
    && (forall b :: b in added ==> Seen(orders, observations, b))
    && (complete ==> forall b :: Seen(orders, observations, b) ==> Known(after, b))
  }

  lemma MergedStep(orders: map<string, Order>, observations: seq<Observation>, k: nat, before: seq<Booking>,
                   after: seq<Booking>, added: seq<Booking>, complete: bool, n: nat, all: bool)
    returns (more: seq<Booking>)
    requires k < |observations| && Merged(orders, observations[..k], before, after, added, complete)
    requires observations[k].order in orders && n <= |Reported(observations[k])|
    requires all ==> n == |Reported(observations[k])|
    ensures var o := observations[k];
            Merged(orders, observations[..k + 1], before, BookAll(after, orders[o.order], Reported(o)[..n]), added + more,
                   complete && all)
  {
    var o := observations[k];
    var trades := Reported(o)[..n];
    more := BookAllAdds(before, after, added, orders[o.order], trades);
    SeenStep(orders, observations, k);
    forall b | b in more
      ensures SeenIn(orders, o, b)
    {
      var i :| 0 <= i < |trades| && TradeBooking(orders[o.order], trades[i]) == b;
      assert Reported(o)[i] == trades[i];
    }
    assert all ==> trades == Reported(o);
  }

  lemma MergedNothing(orders: map<string, Order>, observations: seq<Observation>, k: nat, before: seq<Booking>,
                      after: seq<Booking>, added: seq<Booking>, complete: bool)
    requires k < |observations| && Merged(orders, observations[..k], before, after, added, complete)
    ensures Merged(orders, observations[..k + 1], before, after, added, false)
  {
    SeenStep(orders, observations, k);
  }

  /** Complete runs over the same consistent trades add the same bookings, in whatever order and however often
      the trades were reported; so the ledger totals agree. */
  lemma SameTradesSameTotals(
      orders: map<string, Order>, one: seq<Observation>, two: seq<Observation>, before: seq<Booking>,
      after1: seq<Booking>, added1: seq<Booking>, after2: seq<Booking>, added2: seq<Booking>, keep: Booking -> bool)
    requires Consistent(orders, one) && forall b :: Seen(orders, one, b) <==> Seen(orders, two, b)
    requires Merged(orders, one, before, after1, added1, true) && Merged(orders, two, before, after2, added2, true)
    ensures forall b :: b in added1 <==> b in added2
    ensures forall b :: b in after1 <==> b in after2
    ensures |after1| == |after2| && Realized(after1, keep) == Realized(after2, keep)
  {
    AddedAreTheNew(orders, one, before, after1, added1);
    assert Consistent(orders, two);
    AddedAreTheNew(orders, two, before, after2, added2);
    RealizedIgnoresOrder(added1, added2, keep);
    RealizedOfSum(before, added1, keep);
    RealizedOfSum(before, added2, keep);
  }

  /** A complete run books exactly the trades seen that were not known before, once each. */
  lemma AddedAreTheNew(orders: map<string, Order>, observations: seq<Observation>, before: seq<Booking>,
                       after: seq<Booking>, added: seq<Booking>)
    requires Consistent(orders, observations) && Merged(orders, observations, before, after, added, true)
    ensures forall b :: b in added <==> Seen(orders, observations, b) && !Known(before, b)
  {
    forall b | Seen(orders, observations, b) && !Known(before, b)
      ensures b in added
    {
      assert Known(after, b);
      var k :| 0 <= k < |after| && SameTrade(b, after[k]);
      assert forall i :: 0 <= i < |before| ==> after[i] == before[i];
      assert after[k] == added[k - |before|] && after[k] in added;
    }
  }

  function CashFlow(id: string, venue: string, order: Order, t: Trade, at: int): Accounting {
    Accounting(id, Some(order.trace), Some(order.id), venue, CommissionId(order.symbol, t.marker), Some(order.symbol),
               "COMMISSION", t.asset, -t.commission, at, Some(t.marker))
  }

  /** The two sources agree on a commission exactly when they agree on its time. */
  lemma CommissionConflictsIffTimesDiffer(venue: string, order: Order, t: Trade, id: string, other: string, at: int, again: int)
    ensures SameCashFlow(CashFlow(id, venue, order, t, at), CashFlow(other, venue, order, t, again)) <==> at == again
    ensures CashFlow(id, venue, order, t, at).income == "trade-commission:" + order.symbol + ":" + t.marker
    ensures CashFlow(id, venue, order, t, at).amount + t.commission == 0.0
  {
  }

  // When a run is complete

  /** A trade that the ledger can take. */
  predicate Sized(t: Trade) {
    t.quantity > 0.0 && t.price > 0.0 && t.commission >= 0.0 && (t.commission > 0.0 ==> t.asset != "")
  }

  ghost predicate Noted(note: OrderEvent) {
    note.kind != "" && note.status != "" && note.executed >= 0.0 && (note.sourceEvent.Some? ==> note.sourceEvent.value != "")
  }

  /** An observation of a known order that is complete in itself. */
  ghost predicate Acceptable(orders: map<string, Order>, o: Observation) {
    && o.order in orders
    && match o
       case Stream(order, t, _, note) => t.symbol == orders[order].symbol && Sized(t) && Noted(note)
       case Rest(order, executed, orderId, rows) => executed <= 0.0 || Complete(orders[order], executed, orderId, rows)
  }

  /** The cash flows that may be booked: those in the ledger at the start, and those that will be reported. */
  datatype Cash = Cash(base: seq<Accounting>, reported: set<Accounting>)
  {
    /** One time, amount and asset for each income id. */
    ghost predicate Agrees() {
      && (forall a, b :: a in reported && b in reported && SameIncome(a, b) ==> SameCashFlow(a, b))
      && (forall a, b :: a in base && b in reported && SameIncome(a, b) ==> SameCashFlow(a, b))
    }

    /** Every row of the ledger is one of them. */
    ghost predicate Explains(rows: seq<Accounting>) {
      forall k :: 0 <= k < |rows| ==>
        rows[k] in base || exists a :: a in reported && SameIncome(rows[k], a) && SameCashFlow(rows[k], a)
    }
  }

  /** The ledger has no cash flow that contradicts this one. */
  ghost predicate CashFits(rows: seq<Accounting>, a: Accounting) {
    var k := FindAccounting(rows, a.venue, a.income);
    k < |rows| ==> SameCashFlow(rows[k], a)
  }

  lemma ExplainedFits(cash: Cash, rows: seq<Accounting>, a: Accounting)
    requires cash.Agrees() && cash.Explains(rows) && a in cash.reported
    ensures CashFits(rows, a)
  {
    var k := FindAccounting(rows, a.venue, a.income);
    if k < |rows| && rows[k] !in cash.base {
      var b :| b in cash.reported && SameIncome(rows[k], b) && SameCashFlow(rows[k], b);
      assert SameIncome(b, a);
    }
  }

  /** Nothing was booked, or this cash flow. */
  ghost predicate CashStep(before: seq<Accounting>, after: seq<Accounting>, a: Accounting) {
    || after == before
    || (|after| == |before| + 1 && before <= after && SameIncome(after[|before|], a) && SameCashFlow(after[|before|], a))
  }

  lemma StepExplained(cash: Cash, before: seq<Accounting>, after: seq<Accounting>, a: Accounting)
    requires cash.Explains(before) && CashStep(before, after, a) && a in cash.reported
    ensures cash.Explains(after)
  {
  }

  /** A commission with a fresh id is accepted exactly when nothing recorded contradicts it. */
  lemma CommissionAccepted(t: Tables, id: string, venue: string, order: Order, trade: Trade, at: int)
    requires order.id in t.orders && t.orders[order.id] == order
    requires forall k :: 0 <= k < |t.accounting| ==> t.accounting[k].id != id
    ensures CashAccepted(t, CashFlow(id, venue, order, trade, at)) <==>
              venue != "" && trade.asset != "" && CashFits(t.accounting, CashFlow("", venue, order, trade, at))
  {
    assert CommissionId(order.symbol, trade.marker)[0] == 't';
  }

  lemma CommissionBooked(t: Tables, after: seq<Accounting>, id: string, venue: string, order: Order, trade: Trade, at: int)
    requires order.id in t.orders && t.orders[order.id] == order
    requires var a := CashFlow(id, venue, order, trade, at);
             after == if CashKnown(t, a) then t.accounting else t.accounting + [Traced(t, a)]
    ensures CashStep(t.accounting, after, CashFlow("", venue, order, trade, at))
    ensures CashAccepted(t, CashFlow(id, venue, order, trade, at)) ==> Charged(after, CashFlow("", venue, order, trade, at))
  {
    var a := CashFlow(id, venue, order, trade, at);
    var k := FindAccounting(t.accounting, venue, a.income);
    if CashKnown(t, a) {
      assert CashAccepted(t, a) ==> SameIncome(after[k], a) && SameCashFlow(after[k], a);
    } else {
      assert SameIncome(after[|t.accounting|], a);
    }
  }

  /** The ledger has this cash flow. */
  ghost predicate Charged(rows: seq<Accounting>, a: Accounting) {
    exists k :: 0 <= k < |rows| && SameIncome(rows[k], a) && SameCashFlow(rows[k], a)
  }

  /** The ledger has the commission of a trade, if there is one. */
  ghost predicate Paid(rows: seq<Accounting>, venue: string, order: Order, t: Trade, at: int) {
    t.commission != 0.0 ==> Charged(rows, CashFlow("", venue, order, t, at))
  }

  lemma PaidStays(rows: seq<Accounting>, later: seq<Accounting>, venue: string, order: Order, t: Trade, at: int)
    requires rows <= later && Paid(rows, venue, order, t, at)
    ensures Paid(later, venue, order, t, at)
  {
    if t.commission != 0.0 {
      var a := CashFlow("", venue, order, t, at);
      var k :| 0 <= k < |rows| && SameIncome(rows[k], a) && SameCashFlow(rows[k], a);
      assert later[k] == rows[k];
    }
  }

  /** The ledger has the commissions of the first `count` trades. */
  ghost predicate TradesPaid(rows: seq<Accounting>, venue: string, order: Order, trades: seq<Trade>, count: nat)
    requires count <= |trades|
  {
    forall k :: 0 <= k < count ==> Paid(rows, venue, order, trades[k], trades[k].time)
  }

  lemma TradesPaidStay(rows: seq<Accounting>, later: seq<Accounting>, venue: string, order: Order, trades: seq<Trade>,
                       count: nat)
    requires rows <= later && count <= |trades| && TradesPaid(rows, venue, order, trades, count)
    ensures TradesPaid(later, venue, order, trades, count)
  {
    forall k | 0 <= k < count
      ensures Paid(later, venue, order, trades[k], trades[k].time)
    {
      PaidStays(rows, later, venue, order, trades[k], trades[k].time);
    }
  }

  lemma TradesPaidNext(rows: seq<Accounting>, later: seq<Accounting>, venue: string, order: Order, trades: seq<Trade>, k: nat)
    requires rows <= later && k < |trades| && TradesPaid(rows, venue, order, trades, k)
    requires Paid(later, venue, order, trades[k], trades[k].time)
    ensures TradesPaid(later, venue, order, trades, k + 1)
  {
    TradesPaidStay(rows, later, venue, order, trades, k);
  }

  /** The ledger has the commissions of all trades of an observation. */
  ghost predicate AllPaid(rows: seq<Accounting>, venue: string, orders: map<string, Order>, o: Observation) {
    o.order in orders ==>
      match o
      case Stream(order, t, at, _) => Paid(rows, venue, orders[order], t, at)
      case Rest(order, _, _, _) => TradesPaid(rows, venue, orders[order], Reported(o), |Reported(o)|)
  }

  lemma AllPaidStays(rows: seq<Accounting>, later: seq<Accounting>, venue: string, orders: map<string, Order>, o: Observation)
    requires rows <= later && AllPaid(rows, venue, orders, o)
    ensures AllPaid(later, venue, orders, o)
  {
    if o.order in orders {
      match o
      case Stream(order, t, at, _) => PaidStays(rows, later, venue, orders[order], t, at);
      case Rest(order, _, _, _) => TradesPaidStay(rows, later, venue, orders[order], Reported(o), |Reported(o)|);
    }
  }

  /** The same for the first `count` observations. */
  ghost predicate PaidUpTo(rows: seq<Accounting>, venue: string, orders: map<string, Order>, observations: seq<Observation>,
                           count: nat)
    requires count <= |observations|
  {
    forall k :: 0 <= k < count ==> AllPaid(rows, venue, orders, observations[k])
  }

  lemma PaidNext(rows: seq<Accounting>, later: seq<Accounting>, venue: string, orders: map<string, Order>,
                 observations: seq<Observation>, k: nat)
    requires rows <= later && k < |observations| && PaidUpTo(rows, venue, orders, observations, k)
    requires AllPaid(later, venue, orders, observations[k])
    ensures PaidUpTo(later, venue, orders, observations, k + 1)
  {
    forall i | 0 <= i < k
      ensures AllPaid(later, venue, orders, observations[i])
    {
      AllPaidStays(rows, later, venue, orders, observations[i]);
    }
  }

  /** The cash flow of a trade, if it has one, is among the reported. */
  ghost predicate Announced(cash: Cash, venue: string, order: Order, t: Trade, at: int) {
    t.commission != 0.0 ==> CashFlow("", venue, order, t, at) in cash.reported
  }

  /** The cash flows of an observation are among the reported. */
  ghost predicate Covers(cash: Cash, venue: string, orders: map<string, Order>, o: Observation) {
    o.order in orders ==>
      match o
      case Stream(order, t, at, _) => Announced(cash, venue, orders[order], t, at)
      case Rest(order, _, _, _) =>
        forall k :: 0 <= k < |Reported(o)| ==> Announced(cash, venue, orders[order], Reported(o)[k], Reported(o)[k].time)
  }

  /** Acceptable observations whose cash flows agree with each other and with the ledger. */
  ghost predicate Harmonious(cash: Cash, venue: string, orders: map<string, Order>, observations: seq<Observation>) {
    && venue != "" && cash.Agrees()
    && forall k :: 0 <= k < |observations| ==>
         Acceptable(orders, observations[k]) && Covers(cash, venue, orders, observations[k])
  }

  class ApprovalRuntime {
    const repo: AuditRepository
    const venue: string
    var killed: bool

    constructor (repo: AuditRepository, venue: string)
      ensures this.repo == repo && this.venue == venue && !killed
    {
      this.repo, this.venue, killed := repo, venue, false;
    }

    /** Only fills, accounting and order events change. */
    twostate predicate OnlyBooks()
      reads this, repo
    {
      && repo.tables == old(repo.tables).(events := repo.tables.events, fills := repo.tables.fills,
                                          accounting := repo.tables.accounting)
      && old(repo.tables).accounting <= repo.tables.accounting
      && (old(killed) ==> killed)
    }

    /** The order is in the ledger, and every cash flow in the ledger is one of `cash`. */
    ghost predicate Ready(order: Order, cash: Cash)
      reads repo
    {
      && repo.Valid() && order.id in repo.tables.orders && repo.tables.orders[order.id] == order
      && cash.Explains(repo.tables.accounting)
    }

    /** The fill row of one trade. */
    method AppendTradeFill(order: Order, t: Trade) returns (r: Result<string>)
      requires repo.Valid() && order.id in repo.tables.orders && repo.tables.orders[order.id] == order
      modifies repo
      ensures repo.Valid() && OnlyBooks() && repo.tables.accounting == old(repo.tables).accounting
      ensures r.Err? ==> Bookings(repo.tables.fills) == Bookings(old(repo.tables).fills)
      ensures r.Ok? ==> Bookings(repo.tables.fills) == Booked(Bookings(old(repo.tables).fills), TradeBooking(order, t))
      ensures Sized(t) ==> r.Ok?
    {
      var id := NewId(set k | 0 <= k < |repo.tables.fills| :: repo.tables.fills[k].id);
      var now: int := *;
      var f := Fill.Fill(id, order.trace, order.id, Some(FillId(order.symbol, t.marker)), t.price, t.quantity, t.commission,
                    Some(t.pnl), t.time, now);
      assert f.externalId.value[0] == 'b';
      ghost var before := repo.tables.fills;
      r := repo.AppendFill(f);
      if r.Ok? { FillBooked(before, repo.tables.fills, f); }
    }

    /** The commission of one trade, as a cash flow of its own: accepted exactly when nothing recorded contradicts it. */
    method AppendCommission(order: Order, t: Trade, at: int) returns (r: Result<string>)
      requires repo.Valid() && order.id in repo.tables.orders && repo.tables.orders[order.id] == order
      modifies repo
      ensures repo.Valid() && OnlyBooks() && repo.tables.fills == old(repo.tables).fills
      ensures r.Ok? <==>
                venue != "" && t.asset != "" && CashFits(old(repo.tables).accounting, CashFlow("", venue, order, t, at))
      ensures CashStep(old(repo.tables).accounting, repo.tables.accounting, CashFlow("", venue, order, t, at))
      ensures r.Ok? ==> Charged(repo.tables.accounting, CashFlow("", venue, order, t, at))
    {
      var id := NewId(set k | 0 <= k < |repo.tables.accounting| :: repo.tables.accounting[k].id);
      ghost var before := repo.tables;
      r := repo.AppendAccounting(CashFlow(id, venue, order, t, at));
      CommissionAccepted(before, id, venue, order, t, at);
      if r.Ok? { CommissionBooked(before, repo.tables.accounting, id, venue, order, t, at); }
    }

    /** One trade: its fill, then its commission if there is one. `n` is 1 when the fill is in the ledger. */
    method BookTrade(order: Order, t: Trade, cashAt: int, ghost cash: Cash) returns (r: Result<string>, ghost n: nat)
      requires Ready(order, cash) && Announced(cash, venue, order, t, cashAt)
      modifies repo
      ensures Ready(order, cash) && OnlyBooks()
      ensures BookedOrNot(Bookings(old(repo.tables).fills), Bookings(repo.tables.fills), TradeBooking(order, t), n)
      ensures r.Ok? ==> n == 1 && Paid(repo.tables.accounting, venue, order, t, cashAt)
      ensures Sized(t) && venue != "" && cash.Agrees() ==> r.Ok?
    {
      r := AppendTradeFill(order, t);
      n := if r.Ok? then 1 else 0;
      if r.Ok? && t.commission != 0.0 {
        ghost var before, a := repo.tables.accounting, CashFlow("", venue, order, t, cashAt);
        r := AppendCommission(order, t, cashAt);
        StepExplained(cash, before, repo.tables.accounting, a);
        if cash.Agrees() { ExplainedFits(cash, before, a); }
      }
    }

    /** The order event that precedes the fill. */
    method AppendNote(order: Order, note: OrderEvent) returns (r: Result<string>)
      requires repo.Valid() && order.id in repo.tables.orders && repo.tables.orders[order.id] == order
      modifies repo
      ensures repo.Valid() && OnlyBooks() && repo.tables.fills == old(repo.tables).fills
      ensures repo.tables.accounting == old(repo.tables).accounting
      ensures Noted(note) ==> r.Ok?
    {
      var id := NewId(set k | 0 <= k < |repo.tables.events| :: repo.tables.events[k].id);
      r := repo.AppendOrderEvent(note.(id := id, order := order.id, trace := order.trace));
    }

    /** `_handle_order_trade_update` for a TRADE execution, with `_append_private_trade_fill`. */
    method OnTradeEvent(order: string, t: Trade, observedAt: int, note: OrderEvent, ghost cash: Cash)
      returns (r: Result<string>, ghost n: nat)
      requires repo.Valid() && cash.Explains(repo.tables.accounting)
      requires Covers(cash, venue, repo.tables.orders, Stream(order, t, observedAt, note))
      modifies this, repo
      ensures repo.Valid() && OnlyBooks() && cash.Explains(repo.tables.accounting)
      ensures (r.Ok? ==> n == 1) && (r.Err? ==> killed) && (n == 1 ==> order in old(repo.tables).orders)
      ensures r.Ok? ==> Paid(repo.tables.accounting, venue, old(repo.tables).orders[order], t, observedAt)
      ensures order !in old(repo.tables).orders ==> n == 0 && Bookings(repo.tables.fills) == Bookings(old(repo.tables).fills)
      ensures order in old(repo.tables).orders ==>
                BookedOrNot(Bookings(old(repo.tables).fills), Bookings(repo.tables.fills),
                            TradeBooking(old(repo.tables).orders[order], t), n)
      ensures Acceptable(old(repo.tables).orders, Stream(order, t, observedAt, note)) && venue != "" && cash.Agrees() ==> r.Ok?
    {
      n := 0;
      if order !in repo.tables.orders || repo.tables.orders[order].symbol != t.symbol {
        killed := true;
        return Err("unknown or mismatched order"), 0;
      }
      var owner := repo.tables.orders[order];
      assert PartOk(OrderRows, repo.tables, repo.hash) && OrderOk(repo.tables, order, owner);
      r := AppendNote(owner, note);
      if r.Ok? && !Sized(t) { r := Err("TRADE update is incomplete"); }
      if r.Ok? {
        r, n := BookTrade(owner, t, observedAt, cash);
      }
      if r.Err? { killed := true; }
    }

    /** The checks of `_append_reconciled_fill_delta`; nothing is written before all of them pass. */
    method ValidateRows(order: Order, executed: real, orderId: Option<int>, rows: Option<seq<RestRow>>) returns (valid: bool)
      modifies `killed
      ensures valid <==> Complete(order, executed, orderId, rows)
      ensures killed <==> old(killed) || !valid
    {
      if orderId.None? || orderId.value <= 0 || rows.None? || rows.value == [] {
        killed := true;
        return false;
      }
      var accounted := 0.0;
      for k := 0 to |rows.value|
        invariant killed == old(killed)
        invariant forall i :: 0 <= i < k ==> RowBound(order, orderId.value, rows.value[i])
        invariant accounted == Quantity(rows.value[..k])
      {
        assert rows.value[..k + 1][..k] == rows.value[..k];
        if !RowBound(order, orderId.value, rows.value[k]) {
          killed := true;
          return false;
        }
        accounted := accounted + rows.value[k].trade.quantity;
      }
      assert rows.value[..|rows.value|] == rows.value;
      valid := CloseTo(accounted, executed);
      if !valid { killed := true; }
    }

    /** The next of the trades to book. */
    method BookRow(order: Order, trades: seq<Trade>, k: nat, ghost start: seq<Booking>, ghost cash: Cash)
      returns (r: Result<string>, ghost n: nat)
      requires Ready(order, cash)
      requires k < |trades| && Bookings(repo.tables.fills) == BookAll(start, order, trades[..k])
      requires Announced(cash, venue, order, trades[k], trades[k].time)
      modifies repo
      ensures Ready(order, cash) && OnlyBooks()
      ensures k <= n <= k + 1 && (r.Ok? ==> n == k + 1)
      ensures r.Ok? ==> Paid(repo.tables.accounting, venue, order, trades[k], trades[k].time)
      ensures Bookings(repo.tables.fills) == BookAll(start, order, trades[..n])
      ensures Sized(trades[k]) && venue != "" && cash.Agrees() ==> r.Ok?
    {
      ghost var now := Bookings(repo.tables.fills);
      ghost var step: nat;
      r, step := BookTrade(order, trades[k], trades[k].time, cash);
      BookNext(start, now, Bookings(repo.tables.fills), order, trades, k, step);
      n := k + step;
    }

    /** The booking loop of `_append_reconciled_fill_delta`; `n` counts the trades whose fill is in the ledger. */
    method BookRows(order: Order, trades: seq<Trade>, ghost cash: Cash) returns (r: Result<string>, ghost n: nat)
      requires Ready(order, cash)
      requires forall k :: 0 <= k < |trades| ==> Announced(cash, venue, order, trades[k], trades[k].time)
      modifies repo
      ensures Ready(order, cash) && OnlyBooks()
      ensures n <= |trades| && (r.Ok? ==> n == |trades|)
      ensures r.Ok? ==> TradesPaid(repo.tables.accounting, venue, order, trades, |trades|)
      ensures Bookings(repo.tables.fills) == BookAll(Bookings(old(repo.tables).fills), order, trades[..n])
      ensures (forall k :: 0 <= k < |trades| ==> Sized(trades[k])) && venue != "" && cash.Agrees() ==> r.Ok?
    {
      n := 0;
      r := Ok("");
      ghost var start := Bookings(repo.tables.fills);
      for k := 0 to |trades|
        invariant Ready(order, cash) && OnlyBooks() && n == k && r.Ok?
        invariant Bookings(repo.tables.fills) == BookAll(start, order, trades[..n])
        invariant TradesPaid(repo.tables.accounting, venue, order, trades, k)
      {
        ghost var rows := repo.tables.accounting;
        r, n := BookRow(order, trades, k, start, cash);
        if r.Err? { return; }
        TradesPaidNext(rows, repo.tables.accounting, venue, order, trades, k);
      }
    }

    /** `_append_reconciled_fill_delta`: everything that was executed, or nothing at all. */
    method OnRestReport(o: Observation, ghost cash: Cash) returns (r: Result<string>, ghost n: nat)
      requires repo.Valid() && o.Rest? && cash.Explains(repo.tables.accounting)
      requires Covers(cash, venue, repo.tables.orders, o)
      modifies this, repo
      ensures repo.Valid() && OnlyBooks() && cash.Explains(repo.tables.accounting)
      ensures n <= |Reported(o)| && (r.Ok? ==> n == |Reported(o)|) && (n > 0 ==> o.order in old(repo.tables).orders)
      ensures r.Ok? ==> AllPaid(repo.tables.accounting, venue, old(repo.tables).orders, o)
      ensures o.order in old(repo.tables).orders ==>
                && var order := old(repo.tables).orders[o.order];
                   && Bookings(repo.tables.fills) == BookAll(Bookings(old(repo.tables).fills), order, Reported(o)[..n])
                   && (o.executed > 0.0 && !Complete(order, o.executed, o.orderId, o.rows) ==>
                         r.Err? && killed && repo.tables == old(repo.tables))
                   && (o.executed > 0.0 && r.Ok? ==> Complete(order, o.executed, o.orderId, o.rows))
      ensures o.order !in old(repo.tables).orders ==> r.Err? && repo.tables == old(repo.tables)
      ensures Acceptable(old(repo.tables).orders, o) && venue != "" && cash.Agrees() ==> r.Ok?
    {
      n := 0;
      if o.order !in repo.tables.orders { return Err("unknown order"), 0; }
      var order := repo.tables.orders[o.order];
      assert PartOk(OrderRows, repo.tables, repo.hash) && OrderOk(repo.tables, o.order, order);
      if o.executed <= 0.0 { return Ok(""), 0; }
      var valid := ValidateRows(order, o.executed, o.orderId, o.rows);
      if !valid { return Err("user-trade accounting is incomplete or not bound to the order"), 0; }
      assert forall k :: 0 <= k < |Reported(o)| ==> Sized(Reported(o)[k]) by {
        assert forall k :: 0 <= k < |Reported(o)| ==> RowBound(order, o.orderId.value, o.rows.value[k]);
      }
      r, n := BookRows(order, Reported(o), cash);
    }

    method Observe(o: Observation, ghost cash: Cash) returns (r: Result<string>, ghost n: nat)
      requires repo.Valid() && cash.Explains(repo.tables.accounting) && Covers(cash, venue, repo.tables.orders, o)
      modifies this, repo
      ensures repo.Valid() && OnlyBooks() && cash.Explains(repo.tables.accounting)
      ensures n <= |Reported(o)| && (r.Ok? ==> n == |Reported(o)| && o.order in old(repo.tables).orders)
      ensures r.Ok? ==> AllPaid(repo.tables.accounting, venue, old(repo.tables).orders, o)
      ensures o.order in old(repo.tables).orders ==>
                Bookings(repo.tables.fills) ==
                BookAll(Bookings(old(repo.tables).fills), old(repo.tables).orders[o.order], Reported(o)[..n])
      ensures o.order !in old(repo.tables).orders ==> Bookings(repo.tables.fills) == Bookings(old(repo.tables).fills)
      ensures Acceptable(old(repo.tables).orders, o) && venue != "" && cash.Agrees() ==> r.Ok?
    {
      match o
      case Stream(order, trade, observedAt, note) =>
        r, n := OnTradeEvent(order, trade, observedAt, note, cash);
        assert Reported(o)[..1] == [trade] && [trade][..0] == [];
      case Rest(_, _, _, _) =>
        r, n := OnRestReport(o, cash);
    }

    /** A whole run, over any mixture of both sources. `complete` says that no step failed; no step fails when every
        observation is acceptable and the cash flows agree. */
    method Run(observations: seq<Observation>, ghost cash: Cash) returns (complete: bool, ghost added: seq<Booking>)
      requires repo.Valid() && cash.Explains(repo.tables.accounting)
      requires forall k :: 0 <= k < |observations| ==> Covers(cash, venue, repo.tables.orders, observations[k])
      modifies this, repo
      ensures repo.Valid() && OnlyBooks()
      ensures Merged(old(repo.tables).orders, observations, Bookings(old(repo.tables).fills), Bookings(repo.tables.fills),
                     added, complete)
      ensures complete ==> PaidUpTo(repo.tables.accounting, venue, old(repo.tables).orders, observations, |observations|)
      ensures Harmonious(cash, venue, old(repo.tables).orders, observations) ==> complete
    {
      complete, added := true, [];
      ghost var before, orders := Bookings(repo.tables.fills), repo.tables.orders;
      for k := 0 to |observations|
        invariant repo.Valid() && OnlyBooks() && repo.tables.orders == orders && cash.Explains(repo.tables.accounting)
        invariant Merged(orders, observations[..k], before, Bookings(repo.tables.fills), added, complete)
        invariant complete ==> PaidUpTo(repo.tables.accounting, venue, orders, observations, k)
        invariant Harmonious(cash, venue, orders, observations) ==> complete
      {
        complete, added := ObserveNext(observations, k, before, added, complete, cash);
      }
      assert observations[..|observations|] == observations;
    }

    /** One step of that run. */
    method ObserveNext(observations: seq<Observation>, k: nat, ghost before: seq<Booking>, ghost added: seq<Booking>,
                       complete: bool, ghost cash: Cash)
      returns (still: bool, ghost all: seq<Booking>)
      requires repo.Valid() && cash.Explains(repo.tables.accounting) && k < |observations|
      requires Covers(cash, venue, repo.tables.orders, observations[k])
      requires Merged(repo.tables.orders, observations[..k], before, Bookings(repo.tables.fills), added, complete)
      requires complete ==> PaidUpTo(repo.tables.accounting, venue, repo.tables.orders, observations, k)
      modifies this, repo
      ensures repo.Valid() && OnlyBooks() && cash.Explains(repo.tables.accounting)
      ensures Merged(repo.tables.orders, observations[..k + 1], before, Bookings(repo.tables.fills), all, still)
      ensures still ==> complete && PaidUpTo(repo.tables.accounting, venue, repo.tables.orders, observations, k + 1)
      ensures complete && Acceptable(repo.tables.orders, observations[k]) && venue != "" && cash.Agrees() ==> still
    {
      ghost var now, rows := Bookings(repo.tables.fills), repo.tables.accounting;
      ghost var n: nat;
      var r: Result<string>;
      r, n := Observe(observations[k], cash);
      all := added;
      if observations[k].order in repo.tables.orders {
        ghost var more := MergedStep(repo.tables.orders, observations, k, before, now, added, complete, n, r.Ok?);
        all := added + more;
      } else {
        MergedNothing(repo.tables.orders, observations, k, before, now, added, complete);
      }
      still := complete && r.Ok?;
      if still { PaidNext(rows, repo.tables.accounting, venue, repo.tables.orders, observations, k); }
    }
  }

  /** The bookings that count towards a venue's realized profit, up to a time if one is given. */
  function Counted(orders: map<string, Order>, venue: string, asOf: Option<int>): Booking -> bool {
    (b: Booking) => b.order in orders && orders[b.order].venue == venue && (asOf.Some? ==> b.filledAt <= asOf.value)
  }

  /** One more fill moves the total by its own profit, gain or loss, if its order is of the venue and it is not too late. */
  lemma FillMovesTotal(bookings: seq<Booking>, b: Booking, orders: map<string, Order>, venue: string, asOf: Option<int>)
    ensures var keep := Counted(orders, venue, asOf);
            var counts := b.order in orders && orders[b.order].venue == venue && (asOf.None? || b.filledAt <= asOf.value);
            && Realized(bookings + [b], keep) - Realized(bookings, keep) == Realized([b], keep)
            && Realized([b], keep) == (if counts && b.pnl.Some? then b.pnl.value else 0.0)
  {
    var keep := Counted(orders, venue, asOf);
    RealizedOfSum(bookings, [b], keep);
    assert [b][..0] == [];
    assert Realized([], keep) == 0.0;
  }

  lemma RealizedNext(fills: seq<Fill>, k: nat, keep: Booking -> bool)
    requires k < |fills|
    ensures Realized(Bookings(fills[..k + 1]), keep) ==
            Realized(Bookings(fills[..k]), keep) + Share(BookingOf(fills[k]), keep)
  {
    assert fills[..k + 1][..k] == fills[..k];
    var before := Bookings(fills[..k]);
    assert (before + [BookingOf(fills[k])])[..|before|] == before;
  }

  /** A counted fill without an exact realized profit. */
  predicate Lacking(f: Fill, keep: Booking -> bool) { keep(BookingOf(f)) && f.realizedPnl.None? }

  /** The realized half of `authoritative_accounting_totals` over the rows that the query selects: exact, or refused
      when one of them has no realized profit. */
  method RealizedTotal(fills: seq<Fill>, keep: Booking -> bool) returns (r: Result<real>)
    ensures r.Ok? ==> r.value == Realized(Bookings(fills), keep)
    ensures r.Err? <==> AnyLacking(fills, keep)
  {
    var total := 0.0;
    for k := 0 to |fills|
      invariant !AnyLacking(fills[..k], keep)
      invariant total == Realized(Bookings(fills[..k]), keep)
    {
      LackingNext(fills, k, keep);
      RealizedNext(fills, k, keep);
      if Lacking(fills[k], keep) { return Err("missing realized profit"); }
      if keep(BookingOf(fills[k])) { total := total + fills[k].realizedPnl.value; }
    }
    assert fills[..|fills|] == fills;
    r := Ok(total);
  }

  ghost predicate AnyLacking(fills: seq<Fill>, keep: Booking -> bool) {
    exists k :: 0 <= k < |fills| && Lacking(fills[k], keep)
  }

  /** Whether the total is available depends only on which bookings there are. */
  lemma LackingIffBooked(fills: seq<Fill>, keep: Booking -> bool)
    ensures AnyLacking(fills, keep) <==> exists b :: b in Bookings(fills) && keep(b) && b.pnl.None?
  {
    BookingsAt(fills);
    if AnyLacking(fills, keep) {
      var k :| 0 <= k < |fills| && Lacking(fills[k], keep);
      assert Bookings(fills)[k] in Bookings(fills);
    }
    if b :| b in Bookings(fills) && keep(b) && b.pnl.None? {
      var k :| 0 <= k < |fills| && Bookings(fills)[k] == b;
      assert Lacking(fills[k], keep);
    }
  }

  lemma LackingNext(fills: seq<Fill>, k: nat, keep: Booking -> bool)
    requires k < |fills|
    ensures AnyLacking(fills[..k + 1], keep) <==> AnyLacking(fills[..k], keep) || Lacking(fills[k], keep)
    ensures Lacking(fills[k], keep) ==> AnyLacking(fills, keep)
  {
    var longer := fills[..k + 1];
    assert longer[k] == fills[k] && forall i :: 0 <= i < k ==> longer[i] == fills[..k][i];
  }

  /** Two runtimes that start alike and see the same trades, in any order and any number of times, report the same
      realized total; and both runs are complete when the observations are acceptable and agree. */
  method RunsAgree(a: ApprovalRuntime, b: ApprovalRuntime, one: seq<Observation>, two: seq<Observation>, ghost cash: Cash,
                   asOf: Option<int>) returns (complete: bool, first: Result<real>, second: Result<real>)
    requires a != b && a.repo != b.repo && a.repo.Valid() && b.repo.Valid() && a.repo.tables == b.repo.tables
    requires a.venue == b.venue && cash.base == a.repo.tables.accounting
    requires Consistent(a.repo.tables.orders, one)
    requires forall x :: Seen(a.repo.tables.orders, one, x) <==> Seen(a.repo.tables.orders, two, x)
    requires forall k :: 0 <= k < |one| ==> Covers(cash, a.venue, a.repo.tables.orders, one[k])
    requires forall k :: 0 <= k < |two| ==> Covers(cash, a.venue, a.repo.tables.orders, two[k])
    modifies a, a.repo, b, b.repo
    ensures && Harmonious(cash, a.venue, old(a.repo.tables).orders, one)
            && Harmonious(cash, a.venue, old(a.repo.tables).orders, two)
            ==> complete
    ensures complete ==> |a.repo.tables.fills| == |b.repo.tables.fills|
    ensures complete ==> (first.Ok? <==> second.Ok?)
    ensures complete && first.Ok? ==> first == second
  {
    ghost var orders, before := a.repo.tables.orders, Bookings(a.repo.tables.fills);
    var done1, added1 := a.Run(one, cash);
    var done2, added2 := b.Run(two, cash);
    complete := done1 && done2;
    var keep := Counted(a.repo.tables.orders, a.venue, asOf);
    first := RealizedTotal(a.repo.tables.fills, keep);
    second := RealizedTotal(b.repo.tables.fills, keep);
    if complete {
      BookingsAt(a.repo.tables.fills);
      BookingsAt(b.repo.tables.fills);
      SameTradesSameTotals(orders, one, two, before, Bookings(a.repo.tables.fills), added1,
                           Bookings(b.repo.tables.fills), added2, keep);
      LackingIffBooked(a.repo.tables.fills, keep);
      LackingIffBooked(b.repo.tables.fills, keep);
    }
  }

  /** The ledger's rule for a repeated fill is the rule for a repeated booking. */
  lemma FillBooked(before: seq<Fill>, after: seq<Fill>, f: Fill)
    requires after == if FindFill(before, f) < |before| then before else before + [f]
    ensures Bookings(after) == Booked(Bookings(before), BookingOf(f))
  {
    KnownIffFound(before, f);
    if FindFill(before, f) == |before| {
      assert (before + [f])[..|before|] == before;
    }
  }

  lemma KnownIffFound(fills: seq<Fill>, f: Fill)
    ensures Known(Bookings(fills), BookingOf(f)) <==> FindFill(fills, f) < |fills|
  {
    BookingsAt(fills);
    var k := FindFill(fills, f);
    assert forall i :: 0 <= i < |fills| ==> SameTrade(BookingOf(f), Bookings(fills)[i]) == SameFill(f, fills[i]);
    assert k < |fills| ==> SameTrade(BookingOf(f), Bookings(fills)[k]);
  }
}
