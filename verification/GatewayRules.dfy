/**
 * The vocabulary of the gateway proofs: what its calls return, how it names and sizes orders, and
 * facts about stretches of the journal together with the lemmas that carry them along.
 */
module GatewayRules {
  import opened Trading
  import opened SymbolRules
  import opened Venue

  /** `_ObservedOrder` without its raw response. */
  datatype Observed = Observed(id: string, executed: real, status: OrderStatus)

  datatype Submission = Submission(status: OrderStatus, filled: real, stop: Option<Stop>, attempts: nat)

  datatype Cause = NotAllowed | QuoteFailed | ZeroPrice | RecheckFailed | NormalizerFailed | ExitRejected

  /** What the price refresh after the first child decides. */
  datatype Refresh = Reprice(quote: Quote) | Settle | Abort(cause: Cause)

  datatype Outcome =
    | Done(submission: Submission)
    | Unresolved(emergency: real, side: Side)
    | AccountUnresolved
    | Raised(cause: Cause)

  /** The locals of the entry loop. */
  datatype Progress = Progress(
    working: Quote, remaining: real, total: real, attempts: nat, repriced: Option<Quote>,
    failure: Option<Outcome>, stopped: bool)
  {
    predicate Open() { failure.None? && !stopped }

    ghost predicate Settled() { failure.None? || failure.value.Raised? }
  }

  /** A call on the gateway from outside. */
  datatype Request =
    | Submit(intent: Intent, quote: Quote, id: string)
    | CancelAll
    | ReconcileAccount(report: Option<bool>)
    | ReconcileProtective(actual: map<string, real>, known: seq<Stop>)
    | RegisterStop(stop: Stop)

  datatype Placed = Protected(stop: Stop) | Unverified | NormalizerRaised

  function Take(text: string, count: nat): string {
    if |text| <= count then text else text[..count]
  }

  /** `_child_id`: parent cut to 34 characters, a dash and the suffix, cut to 36. */
  function ChildId(parent: string, suffix: string): string {
    Take(Take(parent, 34) + "-" + suffix, 36)
  }

  /**
   * A one-letter child id differs from its parent unless the parent is 36 characters long and
   * already ends in that suffix; then a replacement entry would be sent under the parent's own id
   * and the client would turn it into a query.
   */
  lemma ChildIdCollision(parent: string, letter: char)
    ensures ChildId(parent, [letter]) == parent <==> |parent| == 36 && parent[34..] == ['-', letter]
    ensures |ChildId(parent, [letter])| <= 36
  {
    var cut := Take(parent, 34);
    var child := ChildId(parent, [letter]);
    assert child == cut + ['-', letter] by {
      assert "-" + [letter] == ['-', letter];
    }
    if |parent| == 36 {
      assert parent == parent[..34] + parent[34..];
      assert child[34..] == ['-', letter];
    }
  }

  function ActionText(action: Action): string {
    match action
    case Open => "open"
    case Add => "add"
    case Hold => "hold"
    case Reduce => "reduce"
    case Close => "close"
    case Reject => "reject"
  }

  /** The id under which the approval coordinator submits an order. */
  function CoordinatorId(trace: string, action: Action): string {
    Take("gpt-" + ActionText(action) + "-" + Take(trace, 24), 36)
  }

  /** It is too short for its children to take its place. */
  lemma CoordinatorIdHasNoCollision(trace: string, action: Action, letter: char)
    ensures |CoordinatorId(trace, action)| <= 35
    ensures ChildId(CoordinatorId(trace, action), [letter]) != CoordinatorId(trace, action)
  {
    assert |ActionText(action)| <= 6;
    ChildIdCollision(CoordinatorId(trace, action), letter);
  }

  function EntrySide(intent: Intent): Side {
    if intent.side.Some? then intent.side.value else Buy
  }

  function LimitPrice(quote: Quote, side: Side): real {
    if side == Buy then quote.ask else quote.bid
  }

  /** A BUY goes to the ask and a SELL to the bid. */
  ghost predicate AtTouch(entry: Entry, quote: Quote) {
    (entry.side == Buy ==> entry.price == quote.ask) && (entry.side == Sell ==> entry.price == quote.bid)
  }

  /** The price moved by at most `bps` basis points between the two quotes. */
  predicate Near(first: Quote, second: Quote, bps: real) {
    first.last != 0.0 && Abs(second.last - first.last) / first.last * 10000.0 <= bps
  }

  /** For a positive price: the refreshed one is within `bps` ten-thousandths of it on either side. */
  lemma NearIff(first: Quote, second: Quote, bps: real)
    requires first.last > 0.0
    ensures Near(first, second, bps) <==>
              (first.last - second.last) * 10000.0 <= bps * first.last && (second.last - first.last) * 10000.0 <= bps * first.last
  {
    var gap := Abs(second.last - first.last);
    var share := gap / first.last;
    assert share * first.last == gap;
    RatioIff(share, first.last, gap, bps);
  }

  lemma RatioIff(share: real, price: real, gap: real, bps: real)
    requires price > 0.0 && share * price == gap
    ensures share * 10000.0 <= bps <==> gap * 10000.0 <= bps * price
  {
    var parts := share * 10000.0;
    assert parts * price == gap * 10000.0;
    if parts <= bps {
      Scale(parts, bps, price);
    } else {
      GrowsStrictly(bps, parts, price);
    }
  }

  lemma GrowsStrictly(a: real, b: real, factor: real)
    requires a < b && factor > 0.0
    ensures a * factor < b * factor
  {
    var more := b - a;
    assert more * factor > 0.0;
    assert b * factor == a * factor + more * factor;
  }

  /** What the refresh between the two children decides; `passed` says that the entry check passed again. */
  function Decide(quote: Quote, answer: Option<Quote>, passed: bool, filled: bool, bps: real): Refresh {
    if answer.None? then Abort(QuoteFailed)
    else if !passed then (if filled then Settle else Abort(RecheckFailed))
    else if quote.last == 0.0 then Abort(ZeroPrice)
    else if Near(quote, answer.value, bps) then Reprice(answer.value)
    else Settle
  }

  /** Exceptions from the calls and the division that stand outside every try block. */
  predicate Unguarded(cause: Cause) { cause in {QuoteFailed, ZeroPrice, NormalizerFailed} }

  function UnguardedCause(outcome: Option<Outcome>): Option<Cause> {
    if outcome.Some? && outcome.value.Raised? && Unguarded(outcome.value.cause) then Some(outcome.value.cause) else None
  }

  /** The last signal from number `heard` on is a stop that the filters refused or that could not be checked. */
  ghost predicate Refusal(signals: seq<Call>, heard: nat) {
    |signals| > heard && signals[|signals| - 1].StopNormalized? && !signals[|signals| - 1].accepted
  }

  /** The last signals are a quote and a passed entry check. */
  ghost predicate Rechecked(signals: seq<Call>, heard: nat) {
    && |signals| >= heard + 2 && signals[|signals| - 1] == FeedRead(true)
    && signals[|signals| - 2].QuoteRead? && signals[|signals| - 2].quote.Some?
  }

  /** The exception that the signals of a submission force, if any; `quote` is the one handed to it. */
  ghost function Escape(signals: seq<Call>, heard: nat, quote: Quote): Option<Cause> {
    if |signals| > heard && signals[|signals| - 1].QuoteRead? && signals[|signals| - 1].quote.None? then Some(QuoteFailed)
    else if Refusal(signals, heard) then Some(NormalizerFailed)
    else if Rechecked(signals, heard) && quote.last == 0.0 then Some(ZeroPrice)
    else None
  }

  /** The refresh forces an exception exactly when it decides for one. */
  lemma RefreshEscapes(before: seq<Call>, after: seq<Call>, heard: nat, symbol: string, answer: Option<Quote>,
                       passed: bool, filled: bool, quote: Quote, bps: real)
    requires heard <= |before|
    requires var asked := before + [QuoteRead(symbol, answer)];
             if passed then after == asked + [FeedRead(true)] && answer.Some?
             else after == asked || after == asked + [FeedRead(false)]
    requires answer.None? ==> after == before + [QuoteRead(symbol, answer)]
    ensures var next := Decide(quote, answer, passed, filled, bps);
            && Escape(after, heard, quote) == (if next.Abort? && Unguarded(next.cause) then Some(next.cause) else None)
            && (next.Reprice? ==> after[|after| - 1].FeedRead?)
  {
  }

  /** An entry check alone forces no exception. */
  lemma CheckForcesNothing(before: seq<Call>, after: seq<Call>, heard: nat, quote: Quote)
    requires heard <= |before| && (heard < |before| ==> before[|before| - 1].FeedRead?)
    requires after == before || exists ready :: after == before + [FeedRead(ready)]
    requires Escape(before, heard, quote).None?
    ensures Escape(after, heard, quote).None? && (heard < |after| ==> after[|after| - 1].FeedRead?)
  {
  }

  /** That many configuration requests, each straight after an enabled control read. */
  ghost function Configurations(count: nat): seq<Call> {
    if count == 0 then [] else Configurations(count - 1) + [ControlRead(true), Configured]
  }

  /** The filters were asked once more. */
  ghost predicate AskedFilters(before: seq<Call>, after: seq<Call>, accepted: bool) {
    && |after| == |before| + 1 && before <= after
    && after[|before|].StopNormalized? && after[|before|].accepted == accepted
  }

  /** Asking the filters forces an exception exactly when they refuse. */
  lemma FiltersEscape(before: seq<Call>, after: seq<Call>, heard: nat, quote: Quote, refused: bool)
    requires heard <= |before| && Escape(before, heard, quote).None?
    requires AskedFilters(before, after, !refused) || (!refused && after == before)
    ensures Escape(after, heard, quote) == if refused then Some(NormalizerFailed) else None
  {
  }

  /** The trigger of an entry's stop. */
  function TriggerOf(intent: Intent, last: real): real {
    if intent.stopPrice.Some? && intent.stopPrice.value != 0.0 then intent.stopPrice.value else last
  }

  /** The side `_install_complete_protection` asks for. */
  function StopSide(intent: Intent): Side {
    if intent.side == Some(Buy) then Sell else Buy
  }

  /** The quantity `_install_complete_protection` protects; None when it cannot be determined. */
  function EntryBasis(position: Option<real>, action: Action, active: Option<Stop>, filled: real): Option<real> {
    if position.Some? then position
    else if action == Open then Some(filled)
    else if active.Some? then Some(active.value.quantity + filled)
    else None
  }

  /** The residual `_submit_exit` protects; None when it cannot be determined. */
  function ExitBasis(position: Option<real>, intent: Intent, active: Option<Stop>, executed: real): Option<real> {
    if position.Some? then position
    else if intent.action == Close && executed + DUST >= intent.quantity then Some(0.0)
    else if active.Some? then Some(Max(0.0, active.value.quantity - executed))
    else None
  }

  function EntryStatus(filled: real, quantity: real): OrderStatus {
    if filled + DUST >= quantity then Filled else if filled > 0.0 then PartiallyFilled else Canceled
  }

  /** `_replacement_algo_id` without its digest: any function of the old id and the new quantity. */
  function ReplacementId(digest: (string, real) -> string, id: string, quantity: real): string {
    Take(Take(id, 24) + "-rs-" + Take(digest(id, quantity), 8), 36)
  }

  /** Nothing of a replacement id is cut off, and it is no id of fewer than 28 characters again. */
  lemma ReplacementIdIsWhole(digest: (string, real) -> string, id: string, quantity: real)
    ensures ReplacementId(digest, id, quantity) == Take(id, 24) + "-rs-" + Take(digest(id, quantity), 8)
    ensures |id| < 28 ==> ReplacementId(digest, id, quantity) != id
  {
    assert |Take(id, 24)| <= 24 && |Take(digest(id, quantity), 8)| <= 8;
  }

  /** The side `_raise_unresolved` closes with. */
  function EmergencySide(intent: Intent): Side {
    if intent.reduceOnly then (if intent.side.Some? then intent.side.value else Sell)
    else if intent.side == Some(Buy) then Sell else Buy
  }

  /**
   * An intent without a side is entered as BUY but protected and flattened with BUY as well, so the
   * stop and the emergency order close the position exactly when the side is given.
   */
  lemma ProtectionClosesIffSideGiven(intent: Intent)
    requires !intent.reduceOnly
    ensures StopSide(intent) == EmergencySide(intent)
    ensures StopSide(intent) == EntrySide(intent).Opposite() <==> intent.side.Some?
  {
    if intent.side.Some? {
      assert intent.side == Some(intent.side.value);
    }
  }

  /** An input on which stop and emergency order add to the position instead of closing it. */
  lemma UnsidedEntryIsNotClosed()
    ensures var intent := Intent(Open, "BTCUSDT", None, 1.0, false, Some(90.0));
            EntrySide(intent) == Buy && StopSide(intent) == Buy && EmergencySide(intent) == Buy
  {
  }

  function Tolerance(expected: real): real {
    Max(DUST, Abs(expected) * 0.000000001)
  }

  /** `_verified_protective_state`: the codes of every field that fails. */
  function VerificationErrors(answer: AlgoReport, expected: Stop): seq<string> {
    (if answer.id != expected.id then ["client_id"] else [])
    + (if answer.symbol != expected.symbol then ["symbol"] else [])
    + (if answer.side != Some(expected.side) then ["side"] else [])
    + (if answer.quantity <= 0.0 || Abs(answer.quantity - expected.quantity) > Tolerance(expected.quantity)
       then ["quantity"] else [])
    + (if answer.trigger <= 0.0 || Abs(answer.trigger - expected.trigger) > Tolerance(expected.trigger)
       then ["trigger_price"] else [])
    + (if !answer.conditional then ["algo_type"] else [])
    + (if !answer.stopMarket then ["order_type"] else [])
    + (if !answer.markPrice then ["working_type"] else [])
    + (if !answer.oneWay then ["position_side"] else [])
    + (if !answer.reduceOnly then ["reduce_only"] else [])
    + (if answer.closePosition then ["close_position"] else [])
    + (if !answer.priceProtect then ["price_protect"] else [])
    + (if !answer.status.Active() then ["status"] else [])
  }

  /** What an answer has to say for a stop to count as protection. */
  ghost predicate Guards(answer: AlgoReport, expected: Stop) {
    && answer.id == expected.id && answer.symbol == expected.symbol && answer.side == Some(expected.side)
    && answer.quantity > 0.0 && Abs(answer.quantity - expected.quantity) <= Tolerance(expected.quantity)
    && answer.trigger > 0.0 && Abs(answer.trigger - expected.trigger) <= Tolerance(expected.trigger)
    && answer.conditional && answer.stopMarket && answer.markPrice && answer.oneWay
    && answer.reduceOnly && !answer.closePosition && answer.priceProtect
    && answer.status.Active()
  }

  lemma VerifiedIffGuards(answer: AlgoReport, expected: Stop)
    ensures VerificationErrors(answer, expected) == [] <==> Guards(answer, expected)
  {
  }

  /** The state registered after a verification: remote quantity and trigger, not the requested ones. */
  function RemoteState(answer: AlgoReport, expected: Stop): Stop {
    expected.(trigger := answer.trigger, quantity := answer.quantity)
  }

  /** The last thing the gateway did was to read `stop` back as an active guard of `expected`. */
  ghost predicate JustVerified(journal: seq<Call>, stop: Stop, expected: Stop) {
    && |journal| > 0
    && var last := journal[|journal| - 1];
       && last.StopRead? && last.answer.Some? && last.id == expected.id
       && Guards(last.answer.value, expected)
       && stop == RemoteState(last.answer.value, expected)
  }

  /** The stop was sent straight before the last call. */
  ghost predicate SentLast(journal: seq<Call>, stop: Stop) { |journal| > 1 && journal[|journal| - 2] == StopSent(stop) }

  /** The calls from `from` up to number `to` set no latch. */
  ghost predicate Calm(journal: seq<Call>, from: nat, to: nat) {
    forall i :: from <= i < to && i < |journal| ==> !journal[i].Latched?
  }

  /** Call number `k` was made from `from` on and before any latch. */
  ghost predicate Early(journal: seq<Call>, from: nat, k: nat) { from <= k < |journal| && Calm(journal, from, k + 1) }

  lemma EarlyStays(before: seq<Call>, after: seq<Call>, from: nat, k: nat)
    requires before <= after && Early(before, from, k)
    ensures Early(after, from, k) && after[k] == before[k]
  {
  }

  /** The order was read, and the answer does not say that it is terminal. */
  ghost predicate OrderInDoubt(call: Call, symbol: string, id: string) {
    call.OrderRead? && call.symbol == symbol && call.id == id
    && (call.report.None? || !call.report.value.status.Terminal())
  }

  /** The stop was read, and the answer does not say that it is terminal. */
  ghost predicate StopInDoubt(call: Call, id: string) { call.StopRead? && call.id == id && !IsStopEnd(call, id) }

  /** The order was read back, and the answer does not show an active guard of the size and trigger the filters make of it. */
  ghost predicate Unproven(call: Call, order: Stop, rules: map<string, Rules>)
    requires forall s :: s in rules ==> rules[s].Valid()
  {
    && call.StopRead? && call.id == order.id
    && var size := StopSize(rules, order.symbol, order.quantity, order.trigger);
       size.Some? && (call.answer.None?
         || !Guards(call.answer.value, order.(quantity := size.value.0, trigger := size.value.1)))
  }

  /** Somewhere from `from` on the stop was read back as terminal. */
  ghost predicate StopEnded(journal: seq<Call>, from: nat, id: string) {
    exists k :: from <= k < |journal| && IsStopEnd(journal[k], id)
  }

  ghost predicate IsStopEnd(call: Call, id: string) {
    call.StopRead? && call.id == id && call.answer.Some? && call.answer.value.status.Terminal()
  }

  /** The exit path flattened `quantity` of `symbol` with a reduce-only order. */
  ghost predicate CloseTried(journal: seq<Call>, from: nat, symbol: string, side: Side, quantity: real) {
    exists k :: from <= k < |journal| && IsClose(journal[k], symbol, side, quantity)
  }

  ghost predicate IsClose(call: Call, symbol: string, side: Side, quantity: real) {
    call.CloseSent? && call.symbol == symbol && call.side == side && call.quantity == quantity
  }

  /** Some answer for the order said so much. */
  ghost predicate Told(journal: seq<Call>, from: nat, id: string, report: Report) {
    exists k :: from <= k < |journal| && IsAnswer(journal[k], id, report)
  }

  ghost predicate IsAnswer(call: Call, id: string, report: Report) {
    (call.CloseSent? || call.OrderRead?) && call.id == id && call.report == Some(report)
  }

  lemma ToldStays(before: seq<Call>, after: seq<Call>, from: nat, earlier: nat, id: string, report: Report)
    requires before <= after && earlier <= from && Told(before, from, id, report)
    ensures Told(after, earlier, id, report)
  {
    var k :| from <= k < |before| && IsAnswer(before[k], id, report);
    assert IsAnswer(after[k], id, report);
  }

  ghost predicate ClosesNothing(journal: seq<Call>, from: nat) {
    forall k :: from <= k < |journal| ==> !journal[k].CloseSent?
  }

  ghost predicate Killed(journal: seq<Call>, from: nat) {
    exists k :: from < k < |journal| && IsKill(journal, k)
  }

  ghost predicate IsKill(journal: seq<Call>, k: nat)
    requires 0 < k < |journal|
  {
    journal[k] == KillEngaged && journal[k - 1] == Latched
  }

  /** The cancellation of the order was requested and the order was read straight after. */
  ghost predicate CancelTried(journal: seq<Call>, from: nat, order: Listed) {
    exists k :: from <= k < |journal| - 1 && IsTry(journal, k, order)
  }

  ghost predicate IsTry(journal: seq<Call>, k: nat, order: Listed)
    requires k < |journal| - 1
  {
    && journal[k] == OrderCancel(order.symbol, order.id)
    && journal[k + 1].OrderRead? && journal[k + 1].symbol == order.symbol && journal[k + 1].id == order.id
  }

  /** Call number `k` listed the open orders, and from there on each listed entry was tried to be cancelled. */
  ghost predicate IsSweep(journal: seq<Call>, k: nat, cancelled: bool)
    requires k < |journal|
  {
    && journal[k].OrdersListed?
    && (cancelled && journal[k].orders.Some? ==>
          forall o :: o in journal[k].orders.value && o.Entry() ==> CancelTried(journal, k, o))
  }

  /** Straight after latch and kill switch the open entries were listed and tried to be cancelled. */
  ghost predicate Swept(journal: seq<Call>, from: nat, cancelled: bool) {
    exists k :: from < k < |journal| - 1 && IsKill(journal, k) && IsSweep(journal, k + 1, cancelled)
  }

  /** Each tracked stop was read. */
  ghost predicate AllRead(journal: seq<Call>, from: nat, tracking: map<string, Stop>, symbols: set<string>) {
    forall s :: s in symbols && s in tracking ==> StopWasRead(journal, from, tracking[s].id)
  }

  ghost predicate StopWasRead(journal: seq<Call>, from: nat, id: string) {
    exists k :: from <= k < |journal| && journal[k].StopRead? && journal[k].id == id
  }

  /** Ordinary-order cancellation touches nothing else. */
  ghost predicate CancelsOnly(journal: seq<Call>, from: nat) {
    forall k :: from <= k < |journal| ==>
      journal[k].ControlRead? || journal[k].OrdersListed? || journal[k].OrderCancel? || journal[k].OrderRead?
  }

  /** The order was read as terminal, and straight before that its cancellation was requested. */
  ghost predicate SeenTerminal(journal: seq<Call>, from: nat, order: Listed, cancelled: bool) {
    exists k :: from < k < |journal| && IsBarrier(journal, k, order, cancelled)
  }

  ghost predicate IsBarrier(journal: seq<Call>, k: nat, order: Listed, cancelled: bool)
    requires 0 < k < |journal|
  {
    && journal[k].OrderRead? && journal[k].symbol == order.symbol && journal[k].id == order.id
    && journal[k].report.Some? && journal[k].report.value.status.Terminal()
    && (cancelled ==> journal[k - 1] == OrderCancel(order.symbol, order.id))
  }

  /** Each cancelled order is an entry of the listing, and no two cancellations name the same one. */
  ghost predicate CancelsListedOnce(journal: seq<Call>, from: nat, listing: seq<Listed>) {
    && (forall k :: from <= k < |journal| && journal[k].OrderCancel? ==> journal[k].Key() in EntryKeys(listing))
    && (forall i, k :: from <= i < k < |journal| && journal[i].OrderCancel? && journal[k].OrderCancel? ==>
          journal[i].Key() != journal[k].Key())
  }

  ghost function EntryKeys(listing: seq<Listed>): set<(string, string)> {
    set o | o in listing && o.Entry() :: o.Key()
  }

  /**
   * The barrier of `cancel_all`: every entry of the first listing was seen terminal and the account,
   * listed again at the end, shows nothing but reduce-only orders.
   */
  ghost predicate Cleared(journal: seq<Call>, from: nat, cancelled: bool) {
    && from < |journal| - 1
    && journal[from].OrdersListed? && journal[from].orders.Some?
    && journal[|journal| - 1].OrdersListed? && journal[|journal| - 1].orders.Some?
    && (forall o :: o in journal[from].orders.value ==>
          o.Named() && (!o.reduceOnly ==> SeenTerminal(journal, from, o, cancelled)))
    && (forall o :: o in journal[|journal| - 1].orders.value ==> o.Named() && o.reduceOnly)
  }

  /** `stop` was read back at some point as an active guard of `expected`. */
  ghost predicate VerifiedSince(journal: seq<Call>, from: nat, stop: Stop, expected: Stop) {
    exists k :: from <= k < |journal| && IsGuardRead(journal[k], stop, expected)
  }

  ghost predicate IsGuardRead(call: Call, stop: Stop, expected: Stop) {
    && call.StopRead? && call.id == expected.id && call.answer.Some?
    && VerificationErrors(call.answer.value, expected) == []
    && stop == RemoteState(call.answer.value, expected)
  }

  /** Reads, control checks and ordinary-order calls only: no stop was placed or cancelled. */
  ghost predicate StopsUntouched(journal: seq<Call>, from: nat) {
    forall k :: from <= k < |journal| ==> !journal[k].StopSent? && !journal[k].StopCancel?
  }

  /** Of `count` known stops none has to go: there is none, or the only one is the keeper. */
  ghost predicate AllKept(count: nat, kept: Option<nat>) {
    count == 0 || (count == 1 && kept == Some(0))
  }

  /** The newest of the states that fits the position. */
  function LastFit(states: seq<Stop>, signed: real): (kept: Option<nat>)
    ensures kept.Some? ==> kept.value < |states| && Fits(states[kept.value], signed)
                           && forall j :: kept.value < j < |states| ==> !Fits(states[j], signed)
    ensures kept.None? ==> forall j :: 0 <= j < |states| ==> !Fits(states[j], signed)
  {
    if states == [] then None
    else if Fits(states[|states| - 1], signed) then Some(|states| - 1)
    else LastFit(states[..|states| - 1], signed)
  }

  /** The call read `record` back as an active guard of itself. */
  ghost predicate IsReadBack(call: Call, record: Stop) {
    && call.StopRead? && call.id == record.id && call.answer.Some?
    && VerificationErrors(call.answer.value, record) == []
  }

  /** From `at` on the known stops of a symbol were read back, one after the other. */
  ghost predicate ReadBack(journal: seq<Call>, at: nat, records: seq<Stop>) {
    && at + |records| <= |journal|
    && forall i :: 0 <= i < |records| ==> IsReadBack(journal[at + i], records[i])
  }

  /** What those reads showed. */
  ghost function StatesAt(journal: seq<Call>, at: nat, records: seq<Stop>): (states: seq<Stop>)
    requires ReadBack(journal, at, records)
    ensures |states| == |records|
    ensures forall i :: 0 <= i < |records| ==>
              IsReadBack(journal[at + i], records[i]) && states[i] == RemoteState(journal[at + i].answer.value, records[i])
  {
    seq(|records|, i requires 0 <= i < |records| && IsReadBack(journal[at + i], records[i]) =>
      RemoteState(journal[at + i].answer.value, records[i]))
  }

  /** Nothing is to be done: a flat symbol without stops, or a single stop that fits the position. */
  ghost predicate Quiet(states: seq<Stop>, signed: real) {
    if states == [] then Abs(signed) <= DUST else |states| == 1 && Fits(states[0], signed)
  }

  lemma QuietIffKept(states: seq<Stop>, signed: real)
    ensures Quiet(states, signed) ==>
              AllKept(|states|, LastFit(states, signed)) && (LastFit(states, signed).Some? || Abs(signed) <= DUST)
    ensures AllKept(|states|, LastFit(states, signed)) && (states != [] || Abs(signed) <= DUST) ==> Quiet(states, signed)
  {
  }

  ghost predicate QuietAt(journal: seq<Call>, at: nat, records: seq<Stop>, signed: real) {
    ReadBack(journal, at, records) && Quiet(StatesAt(journal, at, records), signed)
  }

  /** Every symbol is quiet; `began` says where the reads of a symbol begin. */
  ghost predicate AllQuiet(journal: seq<Call>, actual: map<string, real>, known: seq<Stop>, symbols: set<string>,
                           began: map<string, nat>) {
    forall s :: s in symbols ==> s in began && QuietAt(journal, began[s], RecordsOf(known, s), Signed(actual, s))
  }

  /** The first read that did not show an active guard. */
  ghost predicate BadRead(journal: seq<Call>, at: nat, records: seq<Stop>) {
    exists i :: 0 <= i < |records| && at + i < |journal| && ReadBack(journal, at, records[..i])
      && journal[at + i].StopRead? && journal[at + i].id == records[i].id && !IsReadBack(journal[at + i], records[i])
  }

  /** Why the reads from `at` on do not leave a symbol alone. */
  ghost predicate Trouble(journal: seq<Call>, at: nat, records: seq<Stop>, signed: real) {
    || BadRead(journal, at, records)
    || (ReadBack(journal, at, records) && !Quiet(StatesAt(journal, at, records), signed))
  }

  /** Some symbol was in trouble before any stop was touched. */
  ghost predicate Troubled(journal: seq<Call>, from: nat, actual: map<string, real>, known: seq<Stop>, symbols: set<string>) {
    exists s, at: nat :: s in symbols && IsTroubled(journal, from, actual, known, s, at)
  }

  ghost predicate IsTroubled(journal: seq<Call>, from: nat, actual: map<string, real>, known: seq<Stop>, s: string, at: nat) {
    && from <= at <= |journal| && StopsUntouched(journal[..at], from)
    && Trouble(journal, at, RecordsOf(known, s), Signed(actual, s))
  }

  lemma StatesStay(before: seq<Call>, after: seq<Call>, at: nat, records: seq<Stop>)
    requires before <= after && ReadBack(before, at, records)
    ensures ReadBack(after, at, records) && StatesAt(after, at, records) == StatesAt(before, at, records)
  {
  }

  lemma TroubleStays(before: seq<Call>, after: seq<Call>, at: nat, records: seq<Stop>, signed: real)
    requires before <= after && Trouble(before, at, records, signed)
    ensures Trouble(after, at, records, signed)
  {
    if BadRead(before, at, records) {
      var i :| 0 <= i < |records| && at + i < |before| && ReadBack(before, at, records[..i])
        && before[at + i].StopRead? && before[at + i].id == records[i].id && !IsReadBack(before[at + i], records[i]);
      assert ReadBack(after, at, records[..i]);
    } else {
      StatesStay(before, after, at, records);
    }
  }

  lemma TroubledStays(before: seq<Call>, after: seq<Call>, from: nat, actual: map<string, real>, known: seq<Stop>,
                      symbols: set<string>, more: set<string>)
    requires before <= after && symbols <= more && Troubled(before, from, actual, known, symbols)
    ensures Troubled(after, from, actual, known, more)
  {
    var s, at: nat :| s in symbols && IsTroubled(before, from, actual, known, s, at);
    TroubleStays(before, after, at, RecordsOf(known, s), Signed(actual, s));
    assert after[..at] == before[..at];
    assert IsTroubled(after, from, actual, known, s, at);
  }

  /** The list holds each tracked stop once. */
  ghost predicate Lists(known: seq<Stop>, tracking: map<string, Stop>) {
    && (forall r :: r in known ==> r.symbol in tracking)
    && (forall s :: RecordsOf(known, s) == if s in tracking then [tracking[s]] else [])
  }

  /** As long as no stop was touched from `from` on, every tracked stop was read back as it is tracked. */
  ghost predicate Unchanged(journal: seq<Call>, from: nat, tracking: map<string, Stop>) {
    forall k, s :: from <= k < |journal| && s in tracking && StopsUntouched(journal[..k], from)
                   && journal[k].StopRead? && journal[k].id == tracking[s].id ==>
      IsReadBack(journal[k], tracking[s]) && RemoteState(journal[k].answer.value, tracking[s]) == tracking[s]
  }

  /** Every tracked stop has an open position, of its own quantity within the dust. */
  ghost predicate AllSized(tracking: map<string, Stop>, actual: map<string, real>) {
    forall s :: s in tracking ==>
      Signed(actual, s) != 0.0 && Abs(tracking[s].quantity - Abs(Signed(actual, s))) <= DUST
  }

  /** Every tracked stop fits the position of its symbol. */
  ghost predicate AllFit(tracking: map<string, Stop>, actual: map<string, real>) {
    forall s :: s in tracking ==> Fits(tracking[s], Signed(actual, s))
  }

  /** Every open position has a tracked stop. */
  ghost predicate AllTracked(tracking: map<string, Stop>, actual: map<string, real>) {
    forall s :: Abs(Signed(actual, s)) > DUST ==> s in tracking
  }

  lemma TrackedReadBack(journal: seq<Call>, from: nat, at: nat, tracking: map<string, Stop>, s: string)
    requires Unchanged(journal, from, tracking) && s in tracking && from <= at
    requires ReadBack(journal, at, [tracking[s]]) && StopsUntouched(journal[..at], from)
    ensures StatesAt(journal, at, [tracking[s]]) == [tracking[s]]
  {
    assert IsReadBack(journal[at + 0], [tracking[s]][0]);
  }

  lemma TrackedReadsWell(journal: seq<Call>, from: nat, at: nat, tracking: map<string, Stop>, s: string)
    requires Unchanged(journal, from, tracking) && s in tracking && from <= at <= |journal|
    requires StopsUntouched(journal[..at], from)
    ensures !BadRead(journal, at, [tracking[s]])
  {
    assert at < |journal| && journal[at].StopRead? && journal[at].id == tracking[s].id ==> IsReadBack(journal[at], tracking[s]);
  }

  /** With unchanged answers only a stop that does not fit makes trouble. */
  lemma FittingStopsAreNoTrouble(journal: seq<Call>, from: nat, actual: map<string, real>, known: seq<Stop>,
                                 tracking: map<string, Stop>)
    requires Unchanged(journal, from, tracking) && Lists(known, tracking)
    requires AllFit(tracking, actual) && AllTracked(tracking, actual)
    ensures !Troubled(journal, from, actual, known, Symbols(actual, known))
  {
    forall s, at: nat | IsTroubled(journal, from, actual, known, s, at)
      ensures false
    {
      if s in tracking {
        TrackedReadsWell(journal, from, at, tracking, s);
        TrackedReadBack(journal, from, at, tracking, s);
      }
    }
  }

  /** With unchanged answers a run that touches nothing found every tracked stop fitting. */
  lemma QuietMeansFitting(journal: seq<Call>, from: nat, actual: map<string, real>, known: seq<Stop>,
                          tracking: map<string, Stop>, began: map<string, nat>)
    requires Unchanged(journal, from, tracking) && Lists(known, tracking) && StopsUntouched(journal, from)
    requires AllQuiet(journal, actual, known, Symbols(actual, known), began)
    requires forall s :: s in Symbols(actual, known) && s in began ==> from <= began[s]
    ensures AllFit(tracking, actual)
  {
    forall s | s in tracking
      ensures Fits(tracking[s], Signed(actual, s))
    {
      assert RecordsOf(known, s) == [tracking[s]] && tracking[s] in RecordsOf(known, s);
      assert s in Symbols(actual, known);
      QuietStopFits(journal, from, began[s], tracking, s, Signed(actual, s));
    }
  }

  lemma QuietStopFits(journal: seq<Call>, from: nat, at: nat, tracking: map<string, Stop>, s: string, signed: real)
    requires Unchanged(journal, from, tracking) && s in tracking && StopsUntouched(journal, from) && from <= at
    requires QuietAt(journal, at, [tracking[s]], signed)
    ensures Fits(tracking[s], signed)
  {
    TrackedReadBack(journal, from, at, tracking, s);
  }

  function IdsOfTracked(tracking: map<string, Stop>): set<string> { set s | s in tracking :: tracking[s].id }

  lemma ListedIds(known: seq<Stop>, tracking: map<string, Stop>)
    requires Lists(known, tracking)
    ensures IdsOf(known) == IdsOfTracked(tracking)
  {
    forall r | r in known
      ensures r.symbol in tracking && r == tracking[r.symbol]
    {
      assert r in RecordsOf(known, r.symbol);
    }
    forall s | s in tracking
      ensures tracking[s] in known
    {
      assert tracking[s] in RecordsOf(known, s);
    }
  }

  lemma RecordsAppend(known: seq<Stop>, stop: Stop, symbol: string)
    ensures RecordsOf(known + [stop], symbol) ==
            if stop.symbol == symbol then RecordsOf(known, symbol) + [stop] else RecordsOf(known, symbol)
  {
    assert (known + [stop])[..|known|] == known;
  }

  /** One more read at the end of the journal. */
  lemma OneMoreRead(before: seq<Call>, after: seq<Call>, at: nat, records: seq<Stop>, i: nat)
    requires i < |records| && |before| == at + i && |after| == |before| + 1 && before <= after
    requires ReadBack(before, at, records[..i]) && IsReadBack(after[at + i], records[i])
    ensures ReadBack(after, at, records[..i + 1])
    ensures StatesAt(after, at, records[..i + 1]) ==
            StatesAt(before, at, records[..i]) + [RemoteState(after[at + i].answer.value, records[i])]
  {
    var longer, shorter := records[..i + 1], records[..i];
    assert longer[i] == records[i] && forall k :: 0 <= k < i ==> longer[k] == shorter[k] && after[at + k] == before[at + k];
  }

  /** Trouble of one more symbol, or of an earlier one. */
  lemma TroubleGrows(before: seq<Call>, after: seq<Call>, from: nat, actual: map<string, real>, known: seq<Stop>,
                     done: set<string>, symbol: string, failed: bool)
    requires before <= after && from <= |before|
    requires !StopsUntouched(before, from) ==> Troubled(before, from, actual, known, done)
    requires failed || !StopsUntouched(after, |before|) ==>
               Trouble(after, |before|, RecordsOf(known, symbol), Signed(actual, symbol))
    ensures failed || !StopsUntouched(after, from) ==> Troubled(after, from, actual, known, done + {symbol})
  {
    if !StopsUntouched(before, from) {
      TroubledStays(before, after, from, actual, known, done, done + {symbol});
    } else if failed || !StopsUntouched(after, from) {
      UntouchedSplit(before, after, from);
      assert after[..|before|] == before;
      assert IsTroubled(after, from, actual, known, symbol, |before|);
    }
  }

  /** The reads of one more symbol, at the end of the journal. */
  lemma QuietGrows(before: seq<Call>, after: seq<Call>, actual: map<string, real>, known: seq<Stop>, done: set<string>,
                   began: map<string, nat>, symbol: string)
    requires before <= after && symbol !in done
    requires forall s :: s in done ==> s in began && ReadBack(before, began[s], RecordsOf(known, s))
    ensures AllQuiet(after, actual, known, done + {symbol}, began[symbol := |before|]) <==>
              AllQuiet(before, actual, known, done, began)
              && QuietAt(after, |before|, RecordsOf(known, symbol), Signed(actual, symbol))
  {
    var more := began[symbol := |before|];
    forall s | s in done
      ensures s in began && more[s] == began[s]
      ensures QuietAt(after, began[s], RecordsOf(known, s), Signed(actual, s))
              <==> QuietAt(before, began[s], RecordsOf(known, s), Signed(actual, s))
    {
      StatesStay(before, after, began[s], RecordsOf(known, s));
    }
    if AllQuiet(after, actual, known, done + {symbol}, more) {
      assert symbol in done + {symbol};
      assert forall s :: s in done ==> s in done + {symbol};
    }
  }

  function Signed(actual: map<string, real>, symbol: string): real {
    if symbol in actual then actual[symbol] else 0.0
  }

  /** Symbols with a known stop or an open position. */
  function Symbols(actual: map<string, real>, known: seq<Stop>): set<string> {
    (set r | r in known :: r.symbol) + (set s | s in actual && actual[s] != 0.0)
  }

  function IdsOf(known: seq<Stop>): set<string> { set r | r in known :: r.id }

  /** A remote stop that uses the bot's prefix without an audited owner. */
  predicate Foreign(answer: AlgoReport, audited: set<string>) {
    |answer.id| >= 4 && answer.id[..4] == "gpt-" && answer.id !in audited
  }

  /** The cancellation of the stop was requested, and the stop was read straight after. */
  ghost predicate StopCancelled(journal: seq<Call>, from: nat, id: string) {
    exists k :: from <= k < |journal| - 1 && IsStopTry(journal, k, id)
  }

  ghost predicate IsStopTry(journal: seq<Call>, k: nat, id: string)
    requires k < |journal| - 1
  {
    journal[k] == StopCancel(id) && journal[k + 1].StopRead? && journal[k + 1].id == id
  }

  /** Of the first `count` listed stops, each that uses the bot's prefix without an audited owner was tried to be cancelled. */
  ghost predicate ForeignCancelled(journal: seq<Call>, from: nat, listing: seq<AlgoReport>, audited: set<string>, count: nat)
    requires count <= |listing|
  {
    forall i :: 0 <= i < count && "gpt-" <= listing[i].id && listing[i].id !in audited ==>
      StopCancelled(journal, from, listing[i].id)
  }

  lemma ForeignCarries(before: seq<Call>, after: seq<Call>, from: nat, earlier: nat, listing: seq<AlgoReport>,
                       audited: set<string>, count: nat)
    requires before <= after && earlier <= from && count <= |listing|
    requires ForeignCancelled(before, from, listing, audited, count)
    ensures ForeignCancelled(after, earlier, listing, audited, count)
  {
    forall i | 0 <= i < count && "gpt-" <= listing[i].id && listing[i].id !in audited
      ensures StopCancelled(after, earlier, listing[i].id)
    {
      var k :| from <= k < |before| - 1 && IsStopTry(before, k, listing[i].id);
      assert IsStopTry(after, k, listing[i].id);
    }
  }

  lemma ForeignStays(before: seq<Call>, after: seq<Call>, from: nat, listing: seq<AlgoReport>, audited: set<string>, count: nat)
    requires before <= after && from <= |before| && count < |listing|
    requires ForeignCancelled(before, from, listing, audited, count)
    requires StopCancelled(after, |before|, listing[count].id)
    ensures ForeignCancelled(after, from, listing, audited, count + 1)
  {
    ForeignCarries(before, after, from, from, listing, audited, count);
  }

  ghost predicate AllAudited(listing: seq<AlgoReport>, audited: set<string>) {
    forall answer :: answer in listing && "gpt-" <= answer.id ==> answer.id in audited
  }

  function TrackedIn(tracking: map<string, Stop>, symbol: string): Option<Stop> {
    if symbol in tracking then Some(tracking[symbol]) else None
  }

  /** The stops tracked once `state` is what is known of `symbol`. */
  function WithTracked(before: map<string, Stop>, symbol: string, state: Option<Stop>): map<string, Stop> {
    if state.Some? then before[symbol := state.value] else before - {symbol}
  }

  lemma ElsewhereStays(base: map<string, Stop>, before: map<string, Stop>, symbol: string, state: Option<Stop>,
                       symbols: set<string>)
    requires TrackedElsewhere(base, before, symbols) && symbol in symbols
    ensures TrackedElsewhere(base, WithTracked(before, symbol, state), symbols)
  {
  }

  /** Outside `symbols` the same stops are tracked. */
  ghost predicate TrackedElsewhere(before: map<string, Stop>, after: map<string, Stop>, symbols: set<string>) {
    forall s :: s !in symbols ==> TrackedIn(after, s) == TrackedIn(before, s)
  }

  /** `_signed_exit_intent`. */
  function SignedExit(symbol: string, signed: real): Intent {
    Intent(Close, symbol, Some(ClosingSide(signed)), Abs(signed), true, None)
  }

  /** The side that closes a signed position, as restart reconciliation computes it. */
  function ClosingSide(signed: real): Side { if signed > 0.0 then Sell else Buy }

  /** A remote stop that needs no change for the position. */
  predicate Fits(stop: Stop, signed: real) {
    Abs(signed) > 0.0 && stop.side == ClosingSide(signed) && Abs(stop.quantity - Abs(signed)) <= DUST
  }

  /**
   * Verification accepts a relative deviation of the quantity, restart reconciliation only an absolute one: a stop
   * that was just verified for a position need not fit that position, and is then replaced by the next run.
   */
  lemma VerifiedStopMayNotFit()
    ensures var expected := Stop("BTCUSDT", "gpt-1", Sell, 90.0, 10.0);
            var answer := AlgoReport("gpt-1", "BTCUSDT", Some(Sell), 10.000000001, 90.0, true, true, true, true, true, false,
                                     true, Working);
            && Guards(answer, expected) && Fits(expected, 10.0)
            && !Fits(RemoteState(answer, expected), 10.0)
  {
  }

  /**
   * Restart reconciliation asks for a stop of the rounded size. Whatever the exchange answers, a verified stop of that
   * size can fit the position exactly when rounding took away no more than the two tolerances together.
   */
  lemma StopCanFitIff(expected: Stop, signed: real)
    requires expected.side == ClosingSide(signed) && signed != 0.0 && expected.trigger > 0.0
    requires 0.0 <= expected.quantity <= Abs(signed)
    ensures (exists answer: AlgoReport :: Guards(answer, expected) && Fits(RemoteState(answer, expected), signed))
            <==> Abs(signed) - expected.quantity <= Tolerance(expected.quantity) + DUST
  {
    var most := expected.quantity + Tolerance(expected.quantity);
    if Abs(signed) - expected.quantity <= Tolerance(expected.quantity) + DUST {
      var answer := AlgoReport(expected.id, expected.symbol, Some(expected.side), Min(Abs(signed), most), expected.trigger,
                               true, true, true, true, true, false, true, Working);
      assert Guards(answer, expected) && Fits(RemoteState(answer, expected), signed);
    }
  }

  /** A position between two lot steps: no stop of the rounded size ever fits it. */
  lemma OffGridPositionNeverFits()
    ensures var rules := Rules(None, None, None, 1.0, None, 1.0, 1.0, None, 1.0);
            && rules.Valid() && rules.NormalizeQuantity(10.5, true) == Some(10.0)
    ensures forall answer: AlgoReport ::
              Guards(answer, Stop("BTCUSDT", "gpt-1", Sell, 90.0, 10.0)) ==>
              !Fits(RemoteState(answer, Stop("BTCUSDT", "gpt-1", Sell, 90.0, 10.0)), 10.5)
  {
    var rules := Rules(None, None, None, 1.0, None, 1.0, 1.0, None, 1.0);
    assert 10.5 / 1.0 == 10.5 && (10.5).Floor == 10;
    StopCanFitIff(Stop("BTCUSDT", "gpt-1", Sell, 90.0, 10.0), 10.5);
  }

  function RecordsOf(known: seq<Stop>, symbol: string): (records: seq<Stop>)
    ensures forall r :: r in records <==> r in known && r.symbol == symbol
  {
    if known == [] then []
    else
      var rest := RecordsOf(known[..|known| - 1], symbol);
      var last := known[|known| - 1];
      assert known == known[..|known| - 1] + [last];
      if last.symbol == symbol then rest + [last] else rest
  }

  ghost predicate AllOf(records: seq<Stop>, symbol: string) { forall r :: r in records ==> r.symbol == symbol }

  ghost predicate AllEnded(journal: seq<Call>, from: nat, records: seq<Stop>, kept: Option<nat>) {
    forall i :: 0 <= i < |records| && kept != Some(i) ==> StopEnded(journal, from, records[i].id)
  }

  lemma CancelTriedStays(before: seq<Call>, after: seq<Call>, from: nat, order: Listed)
    requires before <= after && CancelTried(before, from, order)
    ensures CancelTried(after, from, order)
  {
    var k :| from <= k < |before| - 1 && IsTry(before, k, order);
    assert IsTry(after, k, order);
  }

  lemma SweepStays(before: seq<Call>, after: seq<Call>, k: nat, cancelled: bool)
    requires before <= after && k < |before| && IsSweep(before, k, cancelled)
    ensures IsSweep(after, k, cancelled)
  {
    if cancelled && before[k].orders.Some? {
      forall o | o in before[k].orders.value && o.Entry()
        ensures CancelTried(after, k, o)
      {
        CancelTriedStays(before, after, k, o);
      }
    }
  }

  lemma SweptStays(before: seq<Call>, after: seq<Call>, from: nat, cancelled: bool)
    requires before <= after && Swept(before, from, cancelled)
    ensures Swept(after, from, cancelled)
  {
    var k :| from < k < |before| - 1 && IsKill(before, k) && IsSweep(before, k + 1, cancelled);
    assert IsKill(after, k);
    SweepStays(before, after, k + 1, cancelled);
  }

  lemma SweptIsKilled(journal: seq<Call>, from: nat, cancelled: bool)
    requires Swept(journal, from, cancelled)
    ensures Killed(journal, from)
  {
    var k :| from < k < |journal| - 1 && IsKill(journal, k) && IsSweep(journal, k + 1, cancelled);
  }

  lemma AllReadStays(before: seq<Call>, after: seq<Call>, from: nat, at: nat, tracking: map<string, Stop>, symbols: set<string>)
    requires before <= after && from <= at && AllRead(before, at, tracking, symbols)
    ensures AllRead(after, from, tracking, symbols)
  {
    forall s | s in symbols && s in tracking
      ensures StopWasRead(after, from, tracking[s].id)
    {
      var k :| at <= k < |before| && before[k].StopRead? && before[k].id == tracking[s].id;
      assert after[k] == before[k];
    }
  }

  /** One more listed entry was tried to be cancelled. */
  lemma TriedGrows(before: seq<Call>, after: seq<Call>, from: nat, listing: seq<Listed>, order: Listed,
                   seen: set<(string, string)>)
    requires before <= after && CancelTried(after, from, order)
    requires forall o :: o in listing && o.Entry() && o.Key() in seen ==> CancelTried(before, from, o)
    ensures forall o :: o in listing && o.Entry() && o.Key() in seen + {order.Key()} ==> CancelTried(after, from, o)
  {
    forall o | o in listing && o.Entry() && o.Key() in seen + {order.Key()}
      ensures CancelTried(after, from, o)
    {
      if o.Key() in seen {
        CancelTriedStays(before, after, from, o);
      } else {
        var k :| from <= k < |after| - 1 && IsTry(after, k, order);
        assert IsTry(after, k, o);
      }
    }
  }

  lemma KilledStays(before: seq<Call>, after: seq<Call>, from: nat)
    requires before <= after && Killed(before, from)
    ensures Killed(after, from)
  {
    var k :| from < k < |before| && IsKill(before, k);
    assert IsKill(after, k);
  }

  /** Either nothing new was sent, or one order that differs from the offer only in its rounded size. */
  ghost predicate Sent(before: seq<Entry>, after: seq<Entry>, offer: Entry) {
    || after == before
    || (|after| == |before| + 1 && before <= after
        && after[|before|] == offer.(quantity := after[|before|].quantity))
  }

  /** What one round adds if it sends an order: its own potential, at most what was offered. */
  lemma RoundExposure(entries: seq<Entry>, lo: nat, entry: Entry, before: map<string, Truth>, after: map<string, Truth>)
    requires lo <= |entries| && AllTerminal(entries, before)
    requires forall id :: id in before ==> before[id].Valid()
    requires entry.id !in before && entry.id in after && Evolves(before, after)
    requires forall k :: 0 <= k < |entries| ==> entries[k].id in before
    ensures var more := entries + [entry];
            && Exposure(more, lo, |more|, after)
               == Exposure(entries, lo, |entries|, before) + after[entry.id].Potential()
            && FilledTotal(more, lo, |more|, after)
               == FilledTotal(entries, lo, |entries|, before) + after[entry.id].filled
  {
    var more := entries + [entry];
    ExposureOfPrefix(entries, more, lo, |entries|, entry.id, after);
    ExposureShrinks(entries, lo, |entries|, before, after - {entry.id});
    assert more[|more| - 1] == entry;
  }

  lemma VerifiedStays(before: seq<Call>, after: seq<Call>, from: nat, stop: Stop, expected: Stop)
    requires before <= after && VerifiedSince(before, from, stop, expected)
    ensures VerifiedSince(after, from, stop, expected)
  {
    var k :| from <= k < |before| && IsGuardRead(before[k], stop, expected);
    assert IsGuardRead(after[k], stop, expected);
  }

  lemma EndedGrows(before: seq<Call>, after: seq<Call>, from: nat, active: seq<Stop>, kept: Option<nat>, done: nat)
    requires before <= after && done <= |active|
    requires forall j :: 0 <= j < done && kept != Some(j) ==> StopEnded(before, from, active[j].id)
    ensures forall j :: 0 <= j < done && kept != Some(j) ==> StopEnded(after, from, active[j].id)
  {
    forall j | 0 <= j < done && kept != Some(j)
      ensures StopEnded(after, from, active[j].id)
    {
      StopEndedStays(before, after, from, active[j].id);
    }
  }

  /** The states read back carry the ids of their records, and each is verified. */
  lemma ReadBackVerifies(journal: seq<Call>, from: nat, at: nat, records: seq<Stop>)
    requires from <= at && ReadBack(journal, at, records)
    ensures forall i :: 0 <= i < |records| ==>
              && StatesAt(journal, at, records)[i].id == records[i].id
              && StatesAt(journal, at, records)[i].symbol == records[i].symbol
              && VerifiedSince(journal, from, StatesAt(journal, at, records)[i], records[i])
  {
    forall i | 0 <= i < |records|
      ensures VerifiedSince(journal, from, StatesAt(journal, at, records)[i], records[i])
    {
      assert IsGuardRead(journal[at + i], StatesAt(journal, at, records)[i], records[i]);
    }
  }

  lemma UntouchedSplit(before: seq<Call>, after: seq<Call>, from: nat)
    requires before <= after && from <= |before|
    ensures StopsUntouched(after, from) <==> StopsUntouched(before, from) && StopsUntouched(after, |before|)
  {
    forall k | from <= k < |before|
      ensures before[k] == after[k]
    {
    }
  }

  lemma StopEndedStays(before: seq<Call>, after: seq<Call>, from: nat, id: string)
    requires before <= after && StopEnded(before, from, id)
    ensures StopEnded(after, from, id)
  {
    var k :| from <= k < |before| && IsStopEnd(before[k], id);
    assert IsStopEnd(after[k], id);
  }

  lemma CloseTriedStays(before: seq<Call>, after: seq<Call>, from: nat, symbol: string, side: Side, quantity: real)
    requires before <= after && CloseTried(before, from, symbol, side, quantity)
    ensures CloseTried(after, from, symbol, side, quantity)
  {
    var k :| from <= k < |before| && IsClose(before[k], symbol, side, quantity);
    assert IsClose(after[k], symbol, side, quantity);
  }

  lemma CloseTriedFromEarlier(journal: seq<Call>, from: nat, mid: nat, symbol: string, side: Side, quantity: real)
    requires from <= mid && CloseTried(journal, mid, symbol, side, quantity)
    ensures CloseTried(journal, from, symbol, side, quantity)
  {
  }

  lemma KillKeepsCancels(before: seq<Call>, after: seq<Call>, from: nat, listing: seq<Listed>)
    requires after == before + [Latched, KillEngaged] && CancelsListedOnce(before, from, listing)
    ensures CancelsListedOnce(after, from, listing)
  {
  }

  /** The closing enumeration neither cancels anything nor undoes what was seen. */
  lemma CancelsStay(before: seq<Call>, after: seq<Call>, from: nat, listing: seq<Listed>)
    requires before < after && |after| == |before| + 1 && after[|before|].OrdersListed?
    requires CancelsListedOnce(before, from, listing)
    ensures CancelsListedOnce(after, from, listing)
  {
  }

  lemma BarrierReached(before: seq<Call>, after: seq<Call>, from: nat, listing: seq<Listed>, cancelled: bool)
    requires before < after && |after| == |before| + 1 && after[|before|].OrdersListed?
    requires from < |before| && before[from] == OrdersListed(Some(listing))
    requires forall o :: o in listing ==> o.Named()
    requires forall o :: o in listing && o.Entry() ==> SeenTerminal(before, from, o, cancelled)
    ensures (var last := after[|before|].orders;
             last.Some? && forall o :: o in last.value ==> o.Named() && o.reduceOnly)
            ==> Cleared(after, from, cancelled)
  {
    forall o | o in listing && o.Entry()
      ensures SeenTerminal(after, from, o, cancelled)
    {
      SeenTerminalStays(before, after, from, o, cancelled);
    }
    assert after[from] == before[from];
  }

  lemma SameKeySeen(journal: seq<Call>, from: nat, order: Listed, other: Listed, cancelled: bool)
    requires SeenTerminal(journal, from, order, cancelled) && order.Key() == other.Key()
    ensures SeenTerminal(journal, from, other, cancelled)
  {
    var k :| from < k < |journal| && IsBarrier(journal, k, order, cancelled);
    assert IsBarrier(journal, k, other, cancelled);
  }

  lemma SweepGrows(before: seq<Call>, after: seq<Call>, from: nat, listing: seq<Listed>, order: Listed,
                   seen: set<(string, string)>, cancelled: bool)
    requires before <= after && SeenTerminal(after, from, order, cancelled)
    requires forall o :: o in listing && o.Entry() && o.Key() in seen ==> SeenTerminal(before, from, o, cancelled)
    ensures forall o :: o in listing && o.Entry() && o.Key() in seen + {order.Key()} ==>
              SeenTerminal(after, from, o, cancelled)
  {
    forall o | o in listing && o.Entry() && o.Key() in seen + {order.Key()}
      ensures SeenTerminal(after, from, o, cancelled)
    {
      if o.Key() in seen {
        SeenTerminalStays(before, after, from, o, cancelled);
      } else {
        SameKeySeen(after, from, order, o, cancelled);
      }
    }
  }

  lemma CancelsGrow(before: seq<Call>, after: seq<Call>, from: nat, listing: seq<Listed>, order: Listed,
                    seen: set<(string, string)>)
    requires before <= after && from <= |before| && CancelsListedOnce(before, from, listing)
    requires order in listing && order.Entry() && order.Key() !in seen
    requires forall k :: from <= k < |before| && before[k].OrderCancel? ==> before[k].Key() in seen
    requires forall k :: |before| <= k < |after| && after[k].OrderCancel? ==>
               after[k] == OrderCancel(order.symbol, order.id)
    requires forall i, k :: |before| <= i < k < |after| ==> !(after[i].OrderCancel? && after[k].OrderCancel?)
    ensures CancelsListedOnce(after, from, listing)
  {
    assert order.Key() in EntryKeys(listing);
  }

  lemma SeenTerminalStays(before: seq<Call>, after: seq<Call>, from: nat, order: Listed, cancelled: bool)
    requires before <= after && SeenTerminal(before, from, order, cancelled)
    ensures SeenTerminal(after, from, order, cancelled)
  {
    var k :| from < k < |before| && IsBarrier(before, k, order, cancelled);
    assert IsBarrier(after, k, order, cancelled);
  }
}
