/**
 * Everything the execution gateway is handed: the REST client with the exchange behind it, the
 * shared trading control, the quote provider and the stream flag.
 *
 * What the environment answers is a script: an arbitrary function of the number of answers given so far. The exchange may
 * lose a reply, answer with an error, or fill an order between any two calls. What it may not do is stated by `Evolves` and
 * `Honest`: an order never fills beyond its quantity, a terminal order never changes again, and a terminal report carries
 * the final cumulative quantity.
 */
module Venue {
  import opened Trading
  import opened SymbolRules

  datatype OrderStatus =
    | New | PartiallyFilled | Filled | Canceled | Expired | ExpiredInMatch | Rejected | Unknown
  {
    predicate Terminal() {
      this in {Filled, Canceled, Expired, ExpiredInMatch, Rejected}
    }
  }

  /** Status and cumulative quantity of a standard order as one response reports them. */
  datatype Report = Report(status: OrderStatus, executed: real)

  datatype AlgoStatus =
    | AlgoNew | PendingNew | Working | Accepted
    | AlgoCanceled | AlgoExpired | AlgoRejected | Finished | Triggered | AlgoUnknown
  {
    predicate Active() { this in {AlgoNew, PendingNew, Working, Accepted} }

    predicate Terminal() {
      this in {AlgoCanceled, AlgoExpired, AlgoRejected, Finished, Triggered}
    }
  }

  /** An order that is new, partly filled or unknown may still fill; a stop is active, ended or unknown. */
  lemma StatusesAreSorted(order: OrderStatus, stop: AlgoStatus)
    ensures order.Terminal() <==> !order.New? && !order.PartiallyFilled? && !order.Unknown?
    ensures stop.Active() <==> !stop.Terminal() && !stop.AlgoUnknown?
    ensures stop.Terminal() <==>
              stop.AlgoCanceled? || stop.AlgoExpired? || stop.AlgoRejected? || stop.Finished? || stop.Triggered?
  {
  }

  /** A protective stop as the gateway tracks it. */
  datatype Stop = Stop(symbol: string, id: string, side: Side, trigger: real, quantity: real)

  /** The fields of an algo response that the semantic verification reads. */
  datatype AlgoReport = AlgoReport(
    id: string, symbol: string, side: Option<Side>, quantity: real, trigger: real,
    conditional: bool, stopMarket: bool, markPrice: bool, oneWay: bool,
    reduceOnly: bool, closePosition: bool, priceProtect: bool, status: AlgoStatus)

  /** One entry of an open-order listing, as received. */
  datatype Listed = Listed(
    readable: bool, symbol: string, id: string, side: Option<Side>, quantity: real, reduceOnly: bool)
  {
    /** `_ordinary_order_fields` returned something. */
    predicate WellFormed() {
      readable && symbol != "" && id != "" && side.Some? && quantity > 0.0
    }

    /** It names an order: symbol, id and side are there, and a quantity above zero. */
    ghost predicate Named() { readable && side != None && 0.0 < quantity && 0 < |symbol| && 0 < |id| }

    ghost predicate Entry() { Named() && !reduceOnly }

    function Key(): (string, string) { (symbol, id) }
  }

  datatype Quote = Quote(bid: real, ask: real, last: real)

  /** What really happened to an entry order at the exchange. */
  datatype Truth = Truth(quantity: real, filled: real, terminal: bool) {
    ghost predicate Valid() { 0.0 <= filled <= quantity }

    predicate Becomes(later: Truth) {
      && later.quantity == quantity && filled <= later.filled <= later.quantity
      && (terminal ==> later == this)
    }

    /** The most this order has opened or can still open. */
    function Potential(): real { if terminal then filled else quantity }
  }

  /** An order that can open exposure, as it went on the wire. */
  datatype Entry = Entry(id: string, symbol: string, side: Side, quantity: real, price: real)

  /** The operations of the gateway on its environment, in order. */
  datatype Call =
    | ControlRead(enabled: bool)
    | Latched
    | KillEngaged
    | Configured
    | EntrySent(entry: Entry, number: nat, alone: bool)
    | CloseSent(id: string, symbol: string, side: Side, quantity: real, report: Option<Report>)
    | OrderCancel(symbol: string, id: string)
    | OrderRead(symbol: string, id: string, report: Option<Report>)
    | OrdersListed(orders: Option<seq<Listed>>)
    | PositionRead(symbol: string, net: Option<real>)
    | QuoteRead(symbol: string, quote: Option<Quote>)
    | FeedRead(ready: bool)
    | StopNormalized(symbol: string, quantity: real, trigger: real, reachable: bool, accepted: bool)
    | StopSent(stop: Stop)
    | StopCancel(id: string)
    | StopRead(id: string, answer: Option<AlgoReport>)
    | StopsListed(stops: Option<seq<AlgoReport>>)
  {
    function Key(): (string, string)
      requires OrderCancel?
    {
      (symbol, id)
    }
  }

  /** One answer of the environment; each call looks at the fields it asked for. */
  datatype Reply = Reply(
    next: map<string, Truth>, enabled: bool, live: bool, accepted: bool, report: Option<Report>,
    orders: Option<seq<Listed>>, position: Option<real>, quote: Option<Quote>, stop: Option<AlgoReport>,
    stops: Option<seq<AlgoReport>>)

  /** An order was read and its report came back. */
  ghost predicate Reports(call: Call) { call.OrderRead? && call.report.Some? }

  /** Calls on which the source decides outside the exchange: the quote, the feed and the filters. */
  predicate IsSignal(call: Call) { call.QuoteRead? || call.FeedRead? || call.StopNormalized? }

  ghost function Signals(journal: seq<Call>): seq<Call> {
    if journal == [] then []
    else
      var before, last := Signals(journal[..|journal| - 1]), journal[|journal| - 1];
      if IsSignal(last) then before + [last] else before
  }

  lemma SignalsAppend(journal: seq<Call>, call: Call)
    ensures Signals(journal + [call]) == if IsSignal(call) then Signals(journal) + [call] else Signals(journal)
  {
    assert (journal + [call])[..|journal|] == journal;
  }

  /** Orders that exist keep their quantity, are filled further up to it, and stay as they are once terminal. */
  ghost predicate Evolves(before: map<string, Truth>, after: map<string, Truth>) {
    forall id :: id in before ==> id in after && before[id].Becomes(after[id])
  }

  /** The exchange moved on its own: no order appeared. */
  predicate Moves(before: map<string, Truth>, after: map<string, Truth>) {
    && (forall id :: id in after ==> id in before)
    && forall id :: id in before ==> id in after && before[id].Becomes(after[id])
  }

  ghost predicate AllValid(truth: map<string, Truth>) { forall id :: id in truth ==> truth[id].Valid() }

  /** Every state that the orders were in evolved from all earlier ones. */
  ghost predicate Chained(past: seq<map<string, Truth>>) {
    forall i, k {:trigger Evolves(past[i], past[k])} :: 0 <= i < k < |past| ==> Evolves(past[i], past[k])
  }

  lemma ChainGrows(past: seq<map<string, Truth>>, next: map<string, Truth>)
    requires past != [] && Chained(past) && Evolves(past[|past| - 1], next)
    ensures Chained(past + [next])
  {
    var more := past + [next];
    forall i, k | 0 <= i < k < |more|
      ensures Evolves(more[i], more[k])
    {
      if k < |past| {
        assert Evolves(past[i], past[k]);
      } else if i < |past| - 1 {
        assert Evolves(past[i], past[|past| - 1]);
      }
    }
  }

  predicate Honest(report: Report, truth: Truth) {
    && report.executed <= truth.filled
    && (report.status.Terminal() ==> truth.terminal && report.executed == truth.filled)
  }

  ghost predicate AllTerminal(entries: seq<Entry>, truth: map<string, Truth>) {
    forall k :: 0 <= k < |entries| ==> entries[k].id in truth && truth[entries[k].id].terminal
  }

  /** Total that the entry orders number `lo` to `hi` have opened or can still open. */
  ghost function Exposure(entries: seq<Entry>, lo: nat, hi: nat, truth: map<string, Truth>): real
    requires hi <= |entries|
    decreases hi
  {
    if hi <= lo then 0.0
    else
      var id := entries[hi - 1].id;
      Exposure(entries, lo, hi - 1, truth) + (if id in truth then truth[id].Potential() else 0.0)
  }

  /** Total that was really filled. */
  ghost function FilledTotal(entries: seq<Entry>, lo: nat, hi: nat, truth: map<string, Truth>): real
    requires hi <= |entries|
    decreases hi
  {
    if hi <= lo then 0.0
    else
      var id := entries[hi - 1].id;
      FilledTotal(entries, lo, hi - 1, truth) + (if id in truth then truth[id].filled else 0.0)
  }

  /** However the exchange moves, the exposure of orders already sent never grows. */
  lemma {:induction false} ExposureShrinks(
    entries: seq<Entry>, lo: nat, hi: nat, before: map<string, Truth>, after: map<string, Truth>)
    requires hi <= |entries| && Evolves(before, after) && forall k :: 0 <= k < |entries| ==> entries[k].id in before
    requires forall id :: id in before ==> before[id].Valid()
    ensures Exposure(entries, lo, hi, after) <= Exposure(entries, lo, hi, before)
    ensures AllTerminal(entries, before) ==>
              && Exposure(entries, lo, hi, after) == Exposure(entries, lo, hi, before)
              && FilledTotal(entries, lo, hi, after) == FilledTotal(entries, lo, hi, before)
    decreases hi
  {
    if lo < hi {
      ExposureShrinks(entries, lo, hi - 1, before, after);
    }
  }

  /** Exposure is at least what was really filled, and exactly that once every order is terminal. */
  lemma {:induction false} ExposureCoversFills(entries: seq<Entry>, lo: nat, hi: nat, truth: map<string, Truth>)
    requires hi <= |entries|
    requires forall k :: 0 <= k < |entries| && entries[k].id in truth ==> truth[entries[k].id].Valid()
    ensures FilledTotal(entries, lo, hi, truth) <= Exposure(entries, lo, hi, truth)
    ensures AllTerminal(entries, truth) ==>
              FilledTotal(entries, lo, hi, truth) == Exposure(entries, lo, hi, truth)
    decreases hi
  {
    if lo < hi {
      ExposureCoversFills(entries, lo, hi - 1, truth);
    }
  }

  /** Whatever the exchange does later, what these orders fill stays within their exposure of today. */
  lemma LateFillsStayWithin(entries: seq<Entry>, lo: nat, hi: nat, now: map<string, Truth>, later: map<string, Truth>)
    requires hi <= |entries| && Evolves(now, later) && forall k :: 0 <= k < |entries| ==> entries[k].id in now
    requires forall id :: id in now ==> now[id].Valid()
    ensures FilledTotal(entries, lo, hi, later) <= Exposure(entries, lo, hi, now)
  {
    ExposureShrinks(entries, lo, hi, now, later);
    ExposureCoversFills(entries, lo, hi, later);
  }

  /** Orders sent later, and the truth about them, do not matter for the earlier ones. */
  lemma {:induction false} ExposureOfPrefix(
    entries: seq<Entry>, more: seq<Entry>, lo: nat, hi: nat, id: string, truth: map<string, Truth>)
    requires hi <= |entries| && entries <= more
    requires forall k :: 0 <= k < |entries| ==> entries[k].id != id
    ensures Exposure(more, lo, hi, truth) == Exposure(entries, lo, hi, truth - {id})
    ensures FilledTotal(more, lo, hi, truth) == FilledTotal(entries, lo, hi, truth - {id})
    decreases hi
  {
    if lo < hi {
      ExposureOfPrefix(entries, more, lo, hi - 1, id, truth);
      assert more[hi - 1] == entries[hi - 1];
    }
  }

  /**
   * The safety of a whole run: an order that can open exposure is sent only straight after the
   * control was read as enabled, never once the uncertainty latch is set, and never while another
   * entry order could still fill; and every such order is one of `entries`.
   */
  ghost predicate Safe(journal: seq<Call>, entries: seq<Entry>) {
    && (forall k :: 0 <= k < |journal| && (journal[k].EntrySent? || journal[k].Configured?) ==>
          k > 0 && journal[k - 1] == ControlRead(true))
    && (forall k :: 0 <= k < |journal| && journal[k].EntrySent? ==>
          journal[k].alone && journal[k].number < |entries| && entries[journal[k].number] == journal[k].entry)
    && (forall i, k :: 0 <= i < k < |journal| && journal[i].Latched? ==>
          !journal[k].EntrySent? && !journal[k].Configured?)
  }

  lemma SafeAppend(journal: seq<Call>, entries: seq<Entry>, call: Call)
    requires Safe(journal, entries) && !call.EntrySent?
    requires call.Configured? ==>
               && |journal| > 0 && journal[|journal| - 1] == ControlRead(true)
               && forall k :: 0 <= k < |journal| ==> !journal[k].Latched?
    ensures Safe(journal + [call], entries)
  {
  }

  lemma SafeSend(journal: seq<Call>, entries: seq<Entry>, entry: Entry)
    requires Safe(journal, entries)
    requires |journal| > 0 && journal[|journal| - 1] == ControlRead(true)
    requires forall k :: 0 <= k < |journal| ==> !journal[k].Latched?
    ensures Safe(journal + [EntrySent(entry, |entries|, true)], entries + [entry])
  {
  }

  /** Size and trigger of a stop as the filters round them, when they accept both. */
  function StopSize(rules: map<string, Rules>, symbol: string, quantity: real, trigger: real): Option<(real, real)>
    requires forall s :: s in rules ==> rules[s].Valid()
  {
    if symbol !in rules then None
    else
      var size, price := rules[symbol].NormalizeQuantity(quantity, true), rules[symbol].NormalizePrice(trigger);
      if size.Some? && price.Some? then Some((size.value, price.value)) else None
  }

  /** The filters accept a stop exactly when they can be read and neither size nor trigger is refused. */
  ghost predicate Filtered(call: Call, rules: map<string, Rules>)
    requires forall s :: s in rules ==> rules[s].Valid()
  {
    call.StopNormalized? ==>
      (call.accepted <==> call.reachable && StopSize(rules, call.symbol, call.quantity, call.trigger).Some?)
  }

  datatype Law = SafeRun | LatchKept | SignalsHeard | FiltersTold

  /** One law of the records. */
  ghost predicate Obeys(law: Law, records: Records)
    requires records.RulesValid()
  {
    match law
    case SafeRun => Safe(records.journal, records.entries)
    case LatchKept => forall k :: 0 <= k < |records.journal| && records.journal[k].Latched? ==> records.latched
    case SignalsHeard => records.signals == Signals(records.journal)
    case FiltersTold => forall k :: 0 <= k < |records.signals| ==> Filtered(records.signals[k], records.rules)
  }

  /** What is written down of a run: the journal and what is kept beside it. */
  datatype Records = Records(
    journal: seq<Call>, signals: seq<Call>, entries: seq<Entry>, latched: bool, rules: map<string, Rules>)
  {
    ghost predicate RulesValid() { forall s :: s in rules ==> rules[s].Valid() }

    /** The run is safe, the latch and the signals are those of the journal, and what they say of the filters is true. */
    ghost predicate Lawful() { RulesValid() && forall law :: Obeys(law, this) }

    /** One more call. */
    function With(call: Call): Records {
      Records(journal + [call], if IsSignal(call) then signals + [call] else signals,
              if call.EntrySent? then entries + [call.entry] else entries, latched || call.Latched?, rules)
    }

    /** The call follows an enabled control read while the latch is open. */
    ghost predicate Permitted() { !latched && |journal| > 0 && journal[|journal| - 1] == ControlRead(true) }

    lemma LawfulParts()
      requires Lawful()
      ensures Safe(journal, entries) && signals == Signals(journal)
      ensures forall k :: 0 <= k < |journal| && journal[k].Latched? ==> latched
      ensures forall k :: 0 <= k < |signals| ==> Filtered(signals[k], rules)
    {
      assert Obeys(SafeRun, this) && Obeys(LatchKept, this) && Obeys(SignalsHeard, this) && Obeys(FiltersTold, this);
    }

    lemma Grows(call: Call)
      requires Lawful() && Filtered(call, rules)
      requires call.EntrySent? || call.Configured? ==> Permitted()
      requires call.EntrySent? ==> call.alone && call.number == |entries|
      ensures With(call).Lawful()
    {
      LawfulParts();
      SignalsAppend(journal, call);
      if call.EntrySent? {
        SafeSend(journal, entries, call.entry);
      } else {
        SafeAppend(journal, entries, call);
      }
    }
  }

  class World {
    const rules: map<string, Rules>
    const script: nat -> Reply
    var tick: nat
    ghost var journal: seq<Call>
    ghost var signals: seq<Call>
    ghost var entries: seq<Entry>
    var truth: map<string, Truth>
    ghost var past: seq<map<string, Truth>>
    ghost var latched: bool
    var enabled: bool
    var sent: set<string>
    var sentStops: set<string>

    ghost predicate Valid()
      reads this
    {
      && Written().Lawful()
      && past != [] && past[|past| - 1] == truth && Chained(past)
      && (forall k :: 0 <= k < |entries| ==> entries[k].id in truth)
      && (forall id :: id in truth ==> truth[id].Valid() && id in sent)
      && (forall s :: s in rules ==> rules[s].Valid())
    }

    /** Orders may have evolved, and no entry order was sent. */
    twostate predicate Passed()
      reads this
    {
      old(past) <= past && entries == old(entries) && truth.Keys == old(truth.Keys)
    }

    /** The orders evolved from what they were when the past was `earlier`. */
    lemma Evolved(earlier: seq<map<string, Truth>>)
      requires Valid() && earlier != [] && earlier <= past
      ensures Evolves(earlier[|earlier| - 1], truth)
    {
      if |earlier| < |past| { assert Evolves(past[|earlier| - 1], past[|past| - 1]); }
    }

    /** Orders that were terminal stay terminal. */
    lemma StillTerminal(earlier: seq<map<string, Truth>>)
      requires Valid() && earlier != [] && earlier <= past && AllTerminal(entries, earlier[|earlier| - 1])
      ensures AllTerminal(entries, truth)
    {
      Evolved(earlier);
    }

    /** So the exposure of orders sent by then has not grown, and is unchanged if they were terminal. */
    lemma Shrank(earlier: seq<map<string, Truth>>, lo: nat)
      requires Valid() && earlier != [] && earlier <= past
      requires forall k :: 0 <= k < |entries| ==> entries[k].id in earlier[|earlier| - 1]
      requires AllValid(earlier[|earlier| - 1])
      ensures var before := earlier[|earlier| - 1];
              && Exposure(entries, lo, |entries|, truth) <= Exposure(entries, lo, |entries|, before)
              && (AllTerminal(entries, before) ==>
                    && AllTerminal(entries, truth)
                    && Exposure(entries, lo, |entries|, truth) == Exposure(entries, lo, |entries|, before)
                    && FilledTotal(entries, lo, |entries|, truth) == FilledTotal(entries, lo, |entries|, before))
    {
      Evolved(earlier);
      ExposureShrinks(entries, lo, |entries|, earlier[|earlier| - 1], truth);
    }

    ghost function Written(): Records
      reads this
    {
      Records(journal, signals, entries, latched, rules)
    }

    constructor (rules: map<string, Rules>, script: nat -> Reply)
      requires forall s :: s in rules ==> rules[s].Valid()
      ensures Valid() && journal == [] && entries == [] && truth == map[] && sent == {} && !latched
      ensures this.rules == rules && this.script == script
    {
      this.rules, this.script, tick := rules, script, 0;
      journal, signals, entries, truth, past, latched := [], [], [], map[], [map[]], false;
      enabled, sent, sentStops := true, {}, {};
    }

    // Scripts under which some answers are known

    /** The switch stays on, the feed ready, and no request is refused. */
    ghost predicate Willing() { forall n :: script(n).enabled && script(n).live && script(n).accepted }

    /** The quantity that the first report names. */
    function FirstFill(): real { if script(0).report.Some? then script(0).report.value.executed else 0.0 }

    /** An order for `quantity` under this id is filled by that much and then expires. */
    ghost predicate FillsPart(id: string, quantity: real) {
      forall n ::
        && script(n).next == map[id := Truth(quantity, FirstFill(), true)]
        && script(n).report == Some(Report(Expired, FirstFill()))
    }

    function FirstQuote(): Option<Quote> { script(0).quote }

    /** The quote provider always answers the same. */
    ghost predicate QuotesSteadily() { forall n :: script(n).quote == FirstQuote() }

    ghost predicate HidesPosition() { forall n :: script(n).position.None? }

    /** Every order is reported as filled by the first quantity. */
    ghost predicate FillsAlways() { forall n :: script(n).report == Some(Report(Filled, FirstFill())) }

    /** Every stop is reported as cancelled. */
    ghost predicate EndsStops() {
      forall n :: script(n).stop.Some? && script(n).stop.value.status.Terminal()
    }

    /** The next answer of the script. */
    method Ask() returns (reply: Reply)
      modifies `tick
      ensures reply == script(old(tick)) && tick == old(tick) + 1
    {
      reply := script(tick);
      tick := tick + 1;
    }

    /** The exchange moves on its own. */
    method Evolve()
      requires Valid()
      modifies `truth, `past, `tick
      ensures Valid() && Passed()
      ensures exists n :: truth == if Moves(old(truth), script(n).next) then script(n).next else old(truth)
    {
      var reply := Ask();
      if Moves(truth, reply.next) {
        ChainGrows(past, reply.next);
        truth, past := reply.next, past + [reply.next];
      }
    }

    /** Records a call that opens no exposure; before it is answered the exchange may move. */
    method Log(ghost call: Call)
      requires Valid()
      requires !call.EntrySent? && !call.Latched?
      requires call.Configured? ==> !latched && |journal| > 0 && journal[|journal| - 1] == ControlRead(true)
      requires Filtered(call, rules)
      modifies `journal, `signals, `truth, `past, `tick
      ensures Valid() && journal == old(journal) + [call] && Passed()
      ensures signals == if IsSignal(call) then old(signals) + [call] else old(signals)
    {
      Written().Grows(call);
      journal, signals := journal + [call], if IsSignal(call) then signals + [call] else signals;
      Evolve();
    }

    /** The same for a call that is no signal. */
    method LogPlain(ghost call: Call)
      requires Valid()
      requires !call.EntrySent? && !call.Latched? && !call.Configured? && !IsSignal(call)
      modifies `journal, `truth, `past, `tick
      ensures Valid() && journal == old(journal) + [call] && Passed()
    {
      Written().Grows(call);
      journal := journal + [call];
      Evolve();
    }

    /** `TradingControl.snapshot`: an operator may have changed the switch since the last read. */
    method ReadControl() returns (newPositions: bool, liveUnlocked: bool)
      requires Valid()
      modifies this
      ensures Valid() && Passed() && latched == old(latched)
      ensures sent == old(sent) && sentStops == old(sentStops) && signals == old(signals)
      ensures journal == old(journal) + [ControlRead(newPositions)]
      ensures Willing() ==> newPositions && liveUnlocked
    {
      var reply := Ask();
      enabled := reply.enabled;
      newPositions, liveUnlocked := enabled, reply.live;
      Log(ControlRead(newPositions));
    }

    /** The latch and the kill switch are always set together. */
    method LatchAndKill()
      requires Valid()
      modifies this
      ensures Valid() && Passed() && latched
      ensures sent == old(sent) && sentStops == old(sentStops) && signals == old(signals)
      ensures journal == old(journal) + [Latched, KillEngaged] && !enabled
    {
      Written().Grows(Latched);
      journal, latched := journal + [Latched], true;
      enabled := false;
      Log(KillEngaged);
      assert journal == old(journal) + [Latched, KillEngaged];
    }

    /** A position-mode, margin or leverage change. */
    method Configure() returns (ok: bool)
      requires Valid() && !latched && |journal| > 0 && journal[|journal| - 1] == ControlRead(true)
      modifies this
      ensures Valid() && Passed() && latched == old(latched)
      ensures sent == old(sent) && sentStops == old(sentStops) && signals == old(signals)
      ensures journal == old(journal) + [Configured]
      ensures Willing() ==> ok
    {
      Log(Configured);
      var reply := Ask();
      ok := reply.accepted;
    }

    /**
     * `place_limit_order`. None is any exception. A quantity the filters refuse never reaches the
     * exchange; a client id sent before becomes a query; otherwise the order may exist from now on,
     * whatever the reply says.
     */
    method PlaceLimit(symbol: string, side: Side, quantity: real, price: real, id: string)
      returns (report: Option<Report>)
      requires Valid() && !latched && |journal| > 0 && journal[|journal| - 1] == ControlRead(true)
      requires AllTerminal(entries, truth)
      modifies this
      ensures Valid() && latched == old(latched) && sentStops == old(sentStops) && signals == old(signals)
      ensures report.Some? ==> report.value.executed >= 0.0
      ensures report.Some? && id in truth ==> Honest(report.value, truth[id])
      ensures old(Ready(id, symbol, quantity)) ==>
                report == Some(Report(Expired, FirstFill())) && entries != old(entries)
      ensures report.None? ==> |journal| > 0 && !Reports(journal[|journal| - 1])
      ensures entries == old(entries) ==>
                Passed() && old(journal) <= journal
      ensures entries == old(entries) ||
              (&& id !in old(truth) && id in truth
               && 0.0 < truth[id].quantity <= quantity && Normalize(symbol, quantity, false) == Some(truth[id].quantity)
               && old(past) <= past
               && entries == old(entries) + [Entry(id, symbol, side, truth[id].quantity, price)]
               && journal == old(journal) + [EntrySent(entries[|entries| - 1], |old(entries)|, true)])
    {
      if id in sent {
        report := QueryOrder(symbol, id);
        return;
      }
      var size := NormalizeLimit(symbol, quantity);
      if size.None? { return None; }
      Register(Entry(id, symbol, side, size.value, price));
      report := Answer(id);
    }

    /** An order that the exchange will take, fill in part and expire; nothing was sent before. */
    ghost predicate Ready(id: string, symbol: string, quantity: real)
      requires Valid()
      reads this
    {
      && Willing() && FillsPart(id, quantity) && sent == {} && truth == map[]
      && 0.0 < FirstFill() <= quantity && Normalize(symbol, quantity, false) == Some(quantity)
    }

    /** The order size `place_limit_order` puts on the wire, or None when it raises before that. */
    method NormalizeLimit(symbol: string, quantity: real) returns (size: Option<real>)
      requires Valid()
      modifies `tick
      ensures Valid() && (size.Some? ==> 0.0 < size.value <= quantity && size == Normalize(symbol, quantity, false))
      ensures Willing() && quantity > 0.0 && Normalize(symbol, quantity, false) == Some(quantity) ==> size == Some(quantity)
    {
      size := Normalize(symbol, quantity, false);
      var reply := Ask();
      if size.None? || size.value <= 0.0 || !reply.accepted { return None; }
      NormalizeQuantityIsStable(rules[symbol], quantity, false);
    }

    /** The client remembers the id and posts the order; from here on the exchange may fill it. */
    method Register(entry: Entry)
      requires Valid() && !latched && |journal| > 0 && journal[|journal| - 1] == ControlRead(true)
      requires AllTerminal(entries, truth)
      requires entry.id !in sent && entry.quantity > 0.0
      modifies this
      ensures Valid() && latched == old(latched) && sentStops == old(sentStops) && signals == old(signals)
      ensures entries == old(entries) + [entry] && entry.id !in old(truth) && entry.id in truth
      ensures old(truth) == map[] && 0.0 < FirstFill() <= entry.quantity && FillsPart(entry.id, entry.quantity) ==>
                truth[entry.id] == Truth(entry.quantity, FirstFill(), true)
      ensures truth[entry.id].quantity == entry.quantity && old(past) <= past
      ensures journal == old(journal) + [EntrySent(entry, |old(entries)|, true)]
    {
      Record(entry);
      ghost var placed := truth;
      Evolve();
      if old(truth) == map[] {
        assert placed == map[entry.id := Truth(entry.quantity, 0.0, false)];
      }
    }

    /** The entry goes on the wire, unfilled. */
    method Record(entry: Entry)
      requires Valid() && !latched && |journal| > 0 && journal[|journal| - 1] == ControlRead(true)
      requires AllTerminal(entries, truth)
      requires entry.id !in sent && entry.quantity > 0.0
      modifies `journal, `entries, `truth, `past, `sent
      ensures Valid() && entry.id !in old(truth)
      ensures entries == old(entries) + [entry] && old(past) <= past
      ensures truth == old(truth)[entry.id := Truth(entry.quantity, 0.0, false)]
      ensures journal == old(journal) + [EntrySent(entry, |old(entries)|, true)]
    {
      ghost var call := EntrySent(entry, |entries|, AllTerminal(entries, truth));
      Written().Grows(call);
      sent := sent + {entry.id};
      ghost var placed := truth[entry.id := Truth(entry.quantity, 0.0, false)];
      ChainGrows(past, placed);
      truth, past := truth[entry.id := Truth(entry.quantity, 0.0, false)], past + [placed];
      journal, entries := journal + [call], entries + [entry];
    }

    /** `query_order` as seen by its caller: an honest report or an exception. */
    method QueryOrder(symbol: string, id: string) returns (report: Option<Report>)
      requires Valid()
      modifies `journal, `truth, `past, `tick
      ensures Valid() && Passed()
      ensures journal == old(journal) + [OrderRead(symbol, id, report)]
      ensures report.Some? ==> report.value.executed >= 0.0
      ensures report.Some? && id in truth ==> Honest(report.value, truth[id])
    {
      Evolve();
      report := Answer(id);
      Written().Grows(OrderRead(symbol, id, report));
      journal := journal + [OrderRead(symbol, id, report)];
    }

    method Answer(id: string) returns (report: Option<Report>)
      requires Valid()
      modifies `tick
      ensures Valid()
      ensures report.Some? ==> report.value.executed >= 0.0
      ensures report.Some? && id in truth ==> Honest(report.value, truth[id])
      ensures exists n :: report == if Truthful(script(n).report, id) then script(n).report else None
    {
      var reply := Ask();
      report := if Truthful(reply.report, id) then reply.report else None;
    }

    predicate Truthful(report: Option<Report>, id: string)
      reads this
    {
      report.Some? ==>
        && report.value.executed >= 0.0
        && (id in truth ==> Honest(report.value, truth[id]))
    }

    /** The deterministic part of a normalizer; it may also fail on the network (`refused`). */
    function Normalize(symbol: string, quantity: real, market: bool): Option<real>
      requires forall s :: s in rules ==> rules[s].Valid()
    {
      if symbol in rules then rules[symbol].NormalizeQuantity(quantity, market) else None
    }

    function NormalizePrice(symbol: string, price: real): Option<real>
      requires forall s :: s in rules ==> rules[s].Valid()
    {
      if symbol in rules then rules[symbol].NormalizePrice(price) else None
    }

    /** `normalize_price` and `normalize_quantity` together: exact, or an exception. */
    method NormalizeStop(symbol: string, quantity: real, trigger: real)
      returns (result: Option<(real, real)>)
      requires Valid()
      modifies `journal, `signals, `truth, `past, `tick
      ensures Valid() && Passed()
      ensures exists reachable ::
                && result == (if reachable then StopSize(rules, symbol, quantity, trigger) else None)
                && (Willing() ==> reachable)
                && var call := StopNormalized(symbol, quantity, trigger, reachable, result.Some?);
                   journal == old(journal) + [call] && signals == old(signals) + [call]
    {
      var reply := Ask();
      result := if reply.accepted then StopSize(rules, symbol, quantity, trigger) else None;
      Log(StopNormalized(symbol, quantity, trigger, reply.accepted, result.Some?));
    }

    /** `place_reduce_only_market_order`: the attempt is recorded even when the client refuses it. */
    method PlaceReduceOnly(symbol: string, side: Side, quantity: real, id: string)
      returns (report: Option<Report>)
      requires Valid()
      modifies this
      ensures Valid() && Passed() && latched == old(latched)
      ensures sentStops == old(sentStops) && signals == old(signals)
      ensures journal == old(journal) + [CloseSent(id, symbol, side, quantity, report)]
      ensures sent == old(sent) + {id}
      ensures report.Some? ==> report.value.executed >= 0.0
      ensures report.Some? && id in truth ==> Honest(report.value, truth[id])
      ensures FillsAlways() && FirstFill() >= 0.0 && old(truth) == map[] ==> report == Some(Report(Filled, FirstFill()))
    {
      Evolve();
      sent := sent + {id};
      report := Answer(id);
      Written().Grows(CloseSent(id, symbol, side, quantity, report));
      journal := journal + [CloseSent(id, symbol, side, quantity, report)];
    }

    method CancelOrder(symbol: string, id: string) returns (report: Option<Report>)
      requires Valid()
      modifies `journal, `truth, `past, `tick
      ensures Valid() && Passed()
      ensures journal == old(journal) + [OrderCancel(symbol, id)]
    {
      LogPlain(OrderCancel(symbol, id));
      report := Answer(id);
    }

    method ListOrders() returns (orders: Option<seq<Listed>>)
      requires Valid()
      modifies `journal, `truth, `past, `tick
      ensures Valid() && Passed()
      ensures journal == old(journal) + [OrdersListed(orders)]
    {
      var reply := Ask();
      orders := reply.orders;
      LogPlain(OrdersListed(orders));
    }

    /** `_current_position_quantity`: the absolute net position, or None when both reads failed. */
    method ReadPosition(symbol: string) returns (quantity: Option<real>)
      requires Valid()
      modifies `journal, `truth, `past, `tick
      ensures Valid() && Passed()
      ensures journal == old(journal) + [PositionRead(symbol, quantity)]
      ensures quantity.Some? ==> quantity.value >= 0.0
      ensures HidesPosition() ==> quantity.None?
    {
      var reply := Ask();
      quantity := if reply.position.Some? then Some(Abs(reply.position.value)) else None;
      LogPlain(PositionRead(symbol, quantity));
    }

    method PlaceStop(stop: Stop) returns (ok: bool)
      requires Valid()
      modifies this
      ensures Valid() && Passed() && latched == old(latched)
      ensures sent == old(sent) && sentStops == old(sentStops) + {stop.id} && signals == old(signals)
      ensures journal == old(journal) + [StopSent(stop)]
    {
      Log(StopSent(stop));
      sentStops := sentStops + {stop.id};
      var reply := Ask();
      ok := reply.accepted;
    }

    method CancelStop(id: string) returns (ok: bool)
      requires Valid()
      modifies `journal, `truth, `past, `tick
      ensures Valid() && Passed()
      ensures journal == old(journal) + [StopCancel(id)]
    {
      LogPlain(StopCancel(id));
      var reply := Ask();
      ok := reply.accepted;
    }

    method QueryStop(id: string) returns (answer: Option<AlgoReport>)
      requires Valid()
      modifies `journal, `truth, `past, `tick
      ensures Valid() && Passed()
      ensures journal == old(journal) + [StopRead(id, answer)]
      ensures EndsStops() ==> answer.Some? && answer.value.status.Terminal()
    {
      var reply := Ask();
      answer := reply.stop;
      LogPlain(StopRead(id, answer));
    }

    method ListStops() returns (stops: Option<seq<AlgoReport>>)
      requires Valid()
      modifies `journal, `truth, `past, `tick
      ensures Valid() && Passed()
      ensures journal == old(journal) + [StopsListed(stops)]
    {
      var reply := Ask();
      stops := reply.stops;
      LogPlain(StopsListed(stops));
    }

    /** `stream_ready()` together with the age check on the quote. */
    method FeedReady(quote: Quote) returns (ready: bool)
      requires Valid()
      modifies `journal, `signals, `truth, `past, `tick
      ensures Valid() && Passed()
      ensures journal == old(journal) + [FeedRead(ready)] && signals == old(signals) + [FeedRead(ready)]
      ensures Willing() ==> ready
    {
      var reply := Ask();
      ready := reply.accepted;
      Log(FeedRead(ready));
    }

    /** `quote_provider`; None is any exception. */
    method FetchQuote(symbol: string) returns (quote: Option<Quote>)
      requires Valid()
      modifies `journal, `signals, `truth, `past, `tick
      ensures Valid() && Passed()
      ensures journal == old(journal) + [QuoteRead(symbol, quote)]
      ensures signals == old(signals) + [QuoteRead(symbol, quote)]
      ensures QuotesSteadily() ==> quote == FirstQuote()
    {
      var reply := Ask();
      quote := reply.quote;
      Log(QuoteRead(symbol, quote));
    }
  }
}
