/**
 * `BinanceFuturesExecutionGateway`: entry with at most one replacement, reduce-only exit,
 * protective stops, kill-switch cancellation and restart reconciliation.
 *
 * Python exceptions become values of `Outcome`: `Unresolved` is the auditable failure that carries
 * the latch, the kill switch and the emergency close; `Raised` is any other exception.
 */
module Gateway {
  import opened Trading
  import opened SymbolRules
  import opened Venue
  import opened GatewayRules

  class ExecutionGateway {
    const world: World
    const venueMatches: bool
    const production: bool
    const productionUnlocked: bool
    const protectionBps: real
    const digest: (string, real) -> string
    var uncertain: bool
    var tracked: map<string, Stop>
    var modeConfigured: bool
    var configuredSymbols: set<string>

    /** The static half of `_authorize`. */
    ghost predicate StaticOk() { venueMatches && (production ==> productionUnlocked) }

    ghost predicate Core()
      reads this, world
    {
      && world.Valid()
      && (uncertain <==> world.latched)
      && (forall s :: s in tracked ==> tracked[s].symbol == s)
    }

    /** Between two calls: as long as the latch is open, no entry order ever sent can still fill. */
    ghost predicate Valid()
      reads this, world
    {
      Core() && (!uncertain ==> AllTerminal(world.entries, world.truth))
    }

    /** What was terminal when the past was `earlier` still is. */
    lemma StillSettled(earlier: seq<map<string, Truth>>)
      requires Core() && earlier != [] && earlier <= world.past
      requires !uncertain ==> AllTerminal(world.entries, earlier[|earlier| - 1])
      ensures Valid()
    {
      if !uncertain { world.StillTerminal(earlier); }
    }

    /** The journal grew, exposure was not opened, and the latch was not cleared. */
    twostate predicate Held()
      reads this, world
    {
      && old(world.journal) <= world.journal
      && world.Passed()
      && (old(uncertain) ==> uncertain)
    }

    /** The same, and neither the quote, the feed nor the filters were asked. */
    twostate predicate Kept()
      reads this, world
    {
      Held() && world.signals == old(world.signals)
    }

    /** The filters were asked once, for `order`. */
    twostate predicate Normalized(order: Stop, accepted: bool)
      reads world
    {
      exists reachable :: world.signals ==
        old(world.signals) + [StopNormalized(order.symbol, order.quantity, order.trigger, reachable, accepted)]
    }

    /** The filters refused `order` exactly when that is the failure; otherwise they accepted it or were not asked. */
    twostate predicate Sized(order: Stop, new failure: Option<Outcome>)
      reads world
    {
      if failure == Some(Raised(NormalizerFailed)) then Normalized(order, false)
      else world.signals == old(world.signals) || Normalized(order, true)
    }

    /** An order for `quantity` goes out with this size. */
    ghost predicate SizedAs(size: real, symbol: string, quantity: real)
      reads world
    {
      (forall s :: s in world.rules ==> world.rules[s].Valid()) && world.Normalize(symbol, quantity, false) == Some(size)
    }

    /** As `Kept`, except that one entry order may have been sent, for at most `offer.quantity`. */
    twostate predicate KeptBut(offer: Entry)
      reads this, world
    {
      && old(world.journal) <= world.journal
      && (old(uncertain) ==> uncertain) && world.signals == old(world.signals)
      && old(world.past) <= world.past
      && (Kept() ||
          (&& offer.id !in old(world.truth) && offer.id in world.truth
           && 0.0 < world.truth[offer.id].quantity <= offer.quantity
           && SizedAs(world.truth[offer.id].quantity, offer.symbol, offer.quantity)
           && world.entries == old(world.entries) + [offer.(quantity := world.truth[offer.id].quantity)]))
    }

    ghost predicate Faithful(observed: Observed)
      reads world
    {
      && observed.executed >= 0.0
      && (observed.id in world.truth ==>
            Honest(Report(observed.status, observed.executed), world.truth[observed.id]))
    }

    constructor (world: World, venueMatches: bool, production: bool, productionUnlocked: bool, protectionBps: real,
                 digest: (string, real) -> string)
      requires world.Valid() && !world.latched && world.entries == []
      ensures Valid() && this.world == world && !uncertain && tracked == map[]
      ensures this.venueMatches == venueMatches && this.production == production
      ensures this.productionUnlocked == productionUnlocked && this.protectionBps == protectionBps
    {
      this.world, this.venueMatches, this.production := world, venueMatches, production;
      this.productionUnlocked, this.protectionBps, this.digest := productionUnlocked, protectionBps, digest;
      uncertain, tracked, modeConfigured, configuredSymbols := false, map[], false, {};
    }

    /** `_authorize`; false stands for the safety error. */
    method Authorize(reduceOnly: bool) returns (ok: bool)
      requires Core()
      modifies world
      ensures Core() && Kept()
      ensures StaticOk() ==> exists b :: world.journal == old(world.journal) + [ControlRead(b)]
      ensures !StaticOk() ==> !ok && world.journal == old(world.journal)
      ensures world.sent == old(world.sent) && world.sentStops == old(world.sentStops)
      ensures reduceOnly && StaticOk() ==> ok
      ensures ok && !reduceOnly ==>
                |world.journal| > 0 && world.journal[|world.journal| - 1] == ControlRead(true)
      ensures StaticOk() && world.Willing() ==> ok
    {
      if !venueMatches || (production && !productionUnlocked) { return false; }
      var enabled, live := world.ReadControl();
      if production && !reduceOnly && (!live || !enabled) { return false; }
      if !reduceOnly && !enabled { return false; }
      return true;
    }

    /** `_assert_entry_state`. */
    method AssertEntryState(quote: Quote) returns (ok: bool)
      requires Core()
      modifies world
      ensures Core() && Held()
      ensures world.sent == old(world.sent)
      ensures ok ==> !uncertain && StaticOk() && world.journal == old(world.journal) + [ControlRead(true), FeedRead(true)]
      ensures ok ==> world.signals == old(world.signals) + [FeedRead(true)]
      ensures !ok ==> world.signals == old(world.signals) || world.signals == old(world.signals) + [FeedRead(false)]
      ensures StaticOk() && !uncertain && world.Willing() ==> ok
    {
      ok := Authorize(false);
      if !ok || uncertain { return false; }
      ok := world.FeedReady(quote);
    }

    /** `_configure_symbol`: one-way mode, isolated margin and leverage, each freshly authorized. */
    method ConfigureSymbol(symbol: string) returns (ok: bool)
      requires Core() && !uncertain
      modifies world, `modeConfigured, `configuredSymbols
      ensures Core() && Kept() && world.sent == old(world.sent)
      ensures StaticOk() && world.Willing() ==> ok
      ensures ok ==>
                && modeConfigured && configuredSymbols == old(configuredSymbols) + {symbol}
                && world.journal == old(world.journal) +
                     Configurations((if old(modeConfigured) then 0 else 1) + (if symbol in old(configuredSymbols) then 0 else 2))
    {
      ok := true;
      ghost var done := 0;
      if !modeConfigured {
        ok := ConfigureOnce();
        if !ok { return; }
        modeConfigured, done := true, 1;
        assert world.journal == old(world.journal) + Configurations(done);
      }
      if symbol !in configuredSymbols {
        ok := ConfigureOnce();
        if !ok { return; }
        done := done + 1;
        assert world.journal == old(world.journal) + Configurations(done);
        ok := ConfigureOnce();
        if !ok { return; }
        done := done + 1;
        assert world.journal == old(world.journal) + Configurations(done);
        configuredSymbols := configuredSymbols + {symbol};
      }
      assert configuredSymbols == old(configuredSymbols) + {symbol};
    }

    method ConfigureOnce() returns (ok: bool)
      requires Core() && !uncertain
      modifies world
      ensures Core() && Kept() && world.sent == old(world.sent)
      ensures StaticOk() && world.Willing() ==> ok
      ensures ok ==> world.journal == old(world.journal) + [ControlRead(true), Configured]
    {
      ok := Authorize(false);
      if ok { ok := world.Configure(); }
    }

    /** `_query_standard`: an unreadable order keeps its last quantity and becomes UNKNOWN. */
    method QueryStandard(symbol: string, id: string, fallback: Observed) returns (observed: Observed)
      requires Core() && fallback.id == id && Faithful(fallback)
      modifies world`journal, world`truth, world`past, world`tick
      ensures Core() && Kept() && Faithful(observed) && observed.id == id
      ensures |world.journal| == |old(world.journal)| + 1
      ensures var last := world.journal[|world.journal| - 1];
              && last.OrderRead? && last.symbol == symbol && last.id == id
              && (last.report == None ==> observed == Observed(id, fallback.executed, Unknown))
              && (last.report.Some? ==>
                    observed == Observed(id, last.report.value.executed, last.report.value.status))
    {
      var report := world.QueryOrder(symbol, id);
      world.Evolved(old(world.past));
      observed := if report.Some? then Observed(id, report.value.executed, report.value.status)
                  else Observed(id, fallback.executed, Unknown);
    }

    /** One authorized cancellation request; its response is not used. */
    method RequestCancel(symbol: string, id: string)
      requires Core()
      modifies world
      ensures Core() && Kept() && world.sentStops == old(world.sentStops)
      ensures !StaticOk() ==> world.journal == old(world.journal)
      ensures StaticOk() ==> exists b ::
                world.journal == old(world.journal) + [ControlRead(b), OrderCancel(symbol, id)]
    {
      var ok := Authorize(true);
      if ok {
        ghost var b :| world.journal == old(world.journal) + [ControlRead(b)];
        var _ := world.CancelOrder(symbol, id);
        assert world.journal == old(world.journal) + [ControlRead(b), OrderCancel(symbol, id)];
      }
    }

    /**
     * `_cancel_and_resolve_entry`: the cancellation response is never the barrier; only a fresh read
     * that shows a terminal status resolves the order.
     */
    method CancelAndResolve(symbol: string, observed: Observed) returns (final: Option<Observed>)
      requires Core() && Faithful(observed)
      modifies world
      ensures Core() && Kept() && CancelsOnly(world.journal, |old(world.journal)|)
      ensures Calm(world.journal, |old(world.journal)|, |world.journal|) && |world.journal| > |old(world.journal)|
      ensures final.None? ==> OrderInDoubt(world.journal[|world.journal| - 1], symbol, observed.id)
      ensures StaticOk() ==> |world.journal| == |old(world.journal)| + 3
      ensures final.Some? ==>
                && final.value.id == observed.id && final.value.status.Terminal() && Faithful(final.value)
                && |world.journal| > |old(world.journal)|
                && world.journal[|world.journal| - 1] ==
                     OrderRead(symbol, observed.id, Some(Report(final.value.status, final.value.executed)))
                && (StaticOk() ==>
                      && |world.journal| > |old(world.journal)| + 1
                      && world.journal[|world.journal| - 2] == OrderCancel(symbol, observed.id))
    {
      ghost var past := world.past;
      RequestCancel(symbol, observed.id);
      world.Evolved(past);
      var read := QueryStandard(symbol, observed.id, observed);
      final := if read.status.Terminal() then Some(read) else None;
    }

    /**
     * `_cancel_remote_entry_orders`. Each listed entry is cancelled at most once and read afterwards;
     * with `requireTerminal` the account is listed again, and false stands for the exception.
     */
    method CancelRemoteEntries(requireTerminal: bool) returns (ok: bool, ghost listing: Option<seq<Listed>>)
      requires Core()
      modifies world
      ensures Core() && Kept() && CancelsOnly(world.journal, |old(world.journal)|)
      ensures world.sentStops == old(world.sentStops)
      ensures old(world.journal) + [OrdersListed(listing)] <= world.journal
      ensures CancelsListedOnce(world.journal, |old(world.journal)|, if listing.Some? then listing.value else [])
      ensures ok && requireTerminal ==> Cleared(world.journal, |old(world.journal)|, StaticOk())
      ensures !requireTerminal ==> ok
      ensures IsSweep(world.journal, |old(world.journal)|, StaticOk())
    {
      ghost var from := |world.journal|;
      var orders := world.ListOrders();
      listing := orders;
      ok := !requireTerminal;
      if orders.Some? {
        ok := SweepListing(orders.value, requireTerminal, from);
      }
    }

    /** That sweep once the listing is known. */
    method SweepListing(listing: seq<Listed>, requireTerminal: bool, ghost from: nat) returns (ok: bool)
      requires Core() && |world.journal| == from + 1 && world.journal[from] == OrdersListed(Some(listing))
      modifies world
      ensures Core() && Kept() && CancelsOnly(world.journal, from)
      ensures world.sentStops == old(world.sentStops)
      ensures CancelsListedOnce(world.journal, from, listing)
      ensures ok && requireTerminal ==> Cleared(world.journal, from, StaticOk())
      ensures !requireTerminal ==> ok
      ensures IsSweep(world.journal, from, StaticOk())
    {
      var resolved := CancelEach(listing, requireTerminal, from);
      ok := !requireTerminal;
      if requireTerminal && resolved {
        ghost var before := world.journal;
        ok := NothingLeftOpen();
        CancelsStay(before, world.journal, from, listing);
        SweepStays(before, world.journal, from, StaticOk());
        BarrierReached(before, world.journal, from, listing, StaticOk());
      }
    }

    /** The cancellation loop; `resolved` is false when the source collects an unresolved order. */
    method CancelEach(listing: seq<Listed>, requireTerminal: bool, ghost from: nat) returns (resolved: bool)
      requires Core() && |world.journal| == from + 1 && world.journal[from] == OrdersListed(Some(listing))
      modifies world
      ensures Core() && Kept() && CancelsOnly(world.journal, from)
      ensures world.sentStops == old(world.sentStops)
      ensures CancelsListedOnce(world.journal, from, listing)
      ensures resolved ==> forall o :: o in listing && o.Entry() ==> SeenTerminal(world.journal, from, o, StaticOk())
      ensures resolved && requireTerminal ==> forall o :: o in listing ==> o.Named()
      ensures IsSweep(world.journal, from, StaticOk())
    {
      resolved := true;
      var seen: set<(string, string)> := {};
      for i := 0 to |listing|
        invariant Core() && Kept() && CancelsOnly(world.journal, from) && world.sentStops == old(world.sentStops)
        invariant from < |world.journal| && world.journal[from] == OrdersListed(Some(listing))
        invariant SweptSoFar(listing, seen, resolved, from)
        invariant resolved && requireTerminal ==> forall j :: 0 <= j < i ==> listing[j].Named()
        invariant forall j :: 0 <= j < i && listing[j].Entry() ==> listing[j].Key() in seen
      {
        var order := listing[i];
        if !order.WellFormed() {
          if requireTerminal { resolved := false; }
        } else if !order.reduceOnly && order.Key() !in seen {
          var terminal := CancelNext(order, resolved, listing, seen, from);
          seen := seen + {order.Key()};
          resolved := resolved && terminal;
        }
      }
    }

    /** What holds of the listed entries with a key in `seen`. */
    ghost predicate SweptSoFar(listing: seq<Listed>, seen: set<(string, string)>, resolved: bool, from: nat)
      reads this, world
    {
      && CancelsListedOnce(world.journal, from, listing)
      && (forall k :: from <= k < |world.journal| && world.journal[k].OrderCancel? ==> world.journal[k].Key() in seen)
      && (StaticOk() ==> forall o :: o in listing && o.Entry() && o.Key() in seen ==> CancelTried(world.journal, from, o))
      && (resolved ==>
            forall o :: o in listing && o.Entry() && o.Key() in seen ==> SeenTerminal(world.journal, from, o, StaticOk()))
    }

    /** One pass of that loop for an entry with a new key. */
    method CancelNext(order: Listed, ghost resolved: bool, ghost listing: seq<Listed>, ghost seen: set<(string, string)>,
                      ghost from: nat)
      returns (terminal: bool)
      requires Core() && from < |world.journal| && order in listing && order.Entry() && order.Key() !in seen
      requires SweptSoFar(listing, seen, resolved, from)
      modifies world
      ensures Core() && Kept() && CancelsOnly(world.journal, |old(world.journal)|)
      ensures world.sentStops == old(world.sentStops)
      ensures SweptSoFar(listing, seen + {order.Key()}, resolved && terminal, from)
    {
      ghost var before := world.journal;
      terminal := CancelListed(order, from);
      if resolved && terminal {
        SweepGrows(before, world.journal, from, listing, order, seen, StaticOk());
      }
      if StaticOk() { TriedGrows(before, world.journal, from, listing, order, seen); }
      CancelsGrow(before, world.journal, from, listing, order, seen);
    }

    /** The second enumeration: no malformed row and no entry order may show up. */
    method NothingLeftOpen() returns (ok: bool)
      requires Core()
      modifies world`journal, world`truth, world`past, world`tick
      ensures Core() && Kept() && |world.journal| == |old(world.journal)| + 1
      ensures world.journal[|world.journal| - 1].OrdersListed?
      ensures ok ==>
                var orders := world.journal[|world.journal| - 1].orders;
                orders.Some? && forall o :: o in orders.value ==> o.Named() && o.reduceOnly
    {
      var again := world.ListOrders();
      if again.None? { return false; }
      ok := true;
      for i := 0 to |again.value|
        invariant ok ==> forall j :: 0 <= j < i ==> again.value[j].Named() && again.value[j].reduceOnly
      {
        if !again.value[i].WellFormed() || !again.value[i].reduceOnly { ok := false; }
      }
    }

    /** One cancellation, never resent, followed by one read. */
    method CancelListed(order: Listed, ghost from: nat) returns (terminal: bool)
      requires Core() && from < |world.journal|
      modifies world
      ensures Core() && Kept() && CancelsOnly(world.journal, |old(world.journal)|)
      ensures world.sentStops == old(world.sentStops)
      ensures terminal ==> SeenTerminal(world.journal, from, order, StaticOk())
      ensures StaticOk() ==> CancelTried(world.journal, |old(world.journal)|, order)
      ensures forall i, k :: |old(world.journal)| <= i < k < |world.journal| ==>
                !(world.journal[i].OrderCancel? && world.journal[k].OrderCancel?)
      ensures forall k :: |old(world.journal)| <= k < |world.journal| && world.journal[k].OrderCancel? ==>
                world.journal[k] == OrderCancel(order.symbol, order.id)
    {
      RequestCancel(order.symbol, order.id);
      assert StaticOk() ==> world.journal[|world.journal| - 1] == OrderCancel(order.symbol, order.id);
      var report := world.QueryOrder(order.symbol, order.id);
      terminal := report.Some? && report.value.status.Terminal();
      assert terminal ==> IsBarrier(world.journal, |world.journal| - 1, order, StaticOk());
      assert StaticOk() ==> IsTry(world.journal, |world.journal| - 2, order);
    }

    /** `cancel_all`; false stands for the exception, raised with the latch and the kill switch set. */
    method CancelAll() returns (ok: bool, ghost listing: Option<seq<Listed>>)
      requires Valid()
      modifies world, `uncertain
      ensures Valid() && Kept()
      ensures old(world.journal) + [OrdersListed(listing)] <= world.journal
      ensures CancelsListedOnce(world.journal, |old(world.journal)|, if listing.Some? then listing.value else [])
      ensures ok ==>
                && uncertain == old(uncertain)
                && CancelsOnly(world.journal, |old(world.journal)|)
                && Cleared(world.journal, |old(world.journal)|, StaticOk())
      ensures !ok ==> uncertain && Killed(world.journal, |old(world.journal)|)
    {
      ghost var from := |world.journal|;
      ok, listing := CancelRemoteEntries(true);
      if !ok {
        ghost var before := world.journal;
        Latch();
        KillKeepsCancels(before, world.journal, from, if listing.Some? then listing.value else []);
      }
      StillSettled(old(world.past));
    }

    /** The latch is only ever set, and always together with the kill switch. */
    method Latch()
      requires Core()
      modifies world, `uncertain
      ensures Core() && Kept() && uncertain && world.sentStops == old(world.sentStops)
      ensures world.journal == old(world.journal) + [Latched, KillEngaged]
      ensures Killed(world.journal, |old(world.journal)|)
    {
      world.LatchAndKill();
      uncertain := true;
      assert IsKill(world.journal, |old(world.journal)| + 1);
    }

    /** `reconcile`: `report` is None when the client raises, else whether the account is consistent. */
    method ReconcileAccount(report: Option<bool>) returns (consistent: Option<bool>)
      requires Valid()
      modifies world, `uncertain
      ensures Valid() && Kept() && consistent == report
      ensures report == Some(false) ==> uncertain && Killed(world.journal, |old(world.journal)|)
      ensures report != Some(false) ==> world.journal == old(world.journal) && uncertain == old(uncertain)
    {
      consistent := report;
      if report == Some(false) { Latch(); }
    }

    /** `_emergency_close`: one reduce-only market order, read back when its status is open. */
    method EmergencyClose(symbol: string, side: Side, quantity: real, id: string) returns (ghost answer: Option<Report>)
      requires Core()
      modifies world
      ensures Core() && Kept() && world.sentStops == old(world.sentStops)
      ensures StopsUntouched(world.journal, |old(world.journal)|)
      ensures StaticOk() ==> CloseTried(world.journal, |old(world.journal)|, symbol, side, quantity)
      ensures answer.None? || !answer.value.status.Terminal() ==>
                && |world.journal| > |old(world.journal)|
                && var last := world.journal[|world.journal| - 1];
                   last.OrderRead? && last.symbol == symbol && last.id == id
      ensures answer.Some? && answer.value.status.Terminal() ==>
                |world.journal| > |old(world.journal)| && world.journal[|world.journal| - 1].CloseSent?
    {
      var report := SendClose(symbol, side, quantity, id);
      answer := report;
      if report.None? || !report.value.status.Terminal() {
        ghost var before := world.journal;
        var _ := world.QueryOrder(symbol, id);
        if StaticOk() {
          CloseTriedStays(before, world.journal, |old(world.journal)|, symbol, side, quantity);
        }
      }
    }

    /** One authorized reduce-only market order; None is any exception. */
    method SendClose(symbol: string, side: Side, quantity: real, id: string) returns (report: Option<Report>)
      requires Core()
      modifies world
      ensures Core() && Kept() && world.sentStops == old(world.sentStops)
      ensures StopsUntouched(world.journal, |old(world.journal)|)
      ensures Calm(world.journal, |old(world.journal)|, |world.journal|)
      ensures report.Some? ==> report.value.executed >= 0.0 && StaticOk()
                               && |world.journal| > |old(world.journal)| && world.journal[|world.journal| - 1].CloseSent?
                               && IsAnswer(world.journal[|world.journal| - 1], id, report.value)
                               && Faithful(Observed(id, report.value.executed, report.value.status))
      ensures StaticOk() ==> CloseTried(world.journal, |old(world.journal)|, symbol, side, quantity)
      ensures StaticOk() && world.FillsAlways() && world.FirstFill() >= 0.0 && old(world.truth) == map[] ==>
                report == Some(Report(Filled, world.FirstFill()))
    {
      report := None;
      var ok := Authorize(true);
      if ok {
        report := world.PlaceReduceOnly(symbol, side, quantity, id);
        assert IsClose(world.journal[|world.journal| - 1], symbol, side, quantity);
      }
    }

    /** The closing part of `_engage_uncertainty`: every tracked stop is read, none is touched. */
    method VerifyTracked()
      requires Core()
      modifies world`journal, world`truth, world`past, world`tick
      ensures Core() && Kept() && StopsUntouched(world.journal, |old(world.journal)|)
      ensures AllRead(world.journal, |old(world.journal)|, tracked, tracked.Keys)
      ensures ClosesNothing(world.journal, |old(world.journal)|)
    {
      var todo := tracked.Keys;
      while todo != {}
        invariant Core() && Kept() && StopsUntouched(world.journal, |old(world.journal)|) && todo <= tracked.Keys
        invariant AllRead(world.journal, |old(world.journal)|, tracked, tracked.Keys - todo)
        invariant ClosesNothing(world.journal, |old(world.journal)|)
        decreases todo
      {
        var symbol :| symbol in todo;
        todo := todo - {symbol};
        ghost var before := world.journal;
        var _ := world.QueryStop(tracked[symbol].id);
        OneMoreStopRead(before, |old(world.journal)|, todo, symbol);
      }
    }

    lemma OneMoreStopRead(before: seq<Call>, from: nat, todo: set<string>, symbol: string)
      requires symbol in tracked && symbol !in todo && from <= |before| < |world.journal| && before <= world.journal
      requires AllRead(before, from, tracked, tracked.Keys - todo - {symbol})
      requires world.journal[|before|].StopRead? && world.journal[|before|].id == tracked[symbol].id
      ensures AllRead(world.journal, from, tracked, tracked.Keys - todo)
    {
      AllReadStays(before, world.journal, from, from, tracked, tracked.Keys - todo - {symbol});
      assert forall s :: s in tracked.Keys - todo ==> s in tracked.Keys - todo - {symbol} || s == symbol;
    }

    /**
     * The fail-closed exit of one submission: latch and kill switch, then the open entries listed and tried to be cancelled,
     * then every tracked stop read and the emergency quantity flattened.
     */
    ghost predicate FailedClosed(outcome: Outcome, intent: Intent, from: nat)
      reads this, world
    {
      && outcome.Unresolved? && uncertain
      && Swept(world.journal, from, StaticOk()) && AllRead(world.journal, from, tracked, tracked.Keys)
      && ((outcome.side == Buy) == (intent.reduceOnly == (intent.side == Some(Buy))))
      && (outcome.emergency > DUST && StaticOk() ==>
            CloseTried(world.journal, from, intent.symbol, outcome.side, outcome.emergency))
    }

    /** `_raise_unresolved` with `_engage_uncertainty`. */
    method RaiseUnresolved(intent: Intent, parent: string, emergency: real, ghost from: nat) returns (outcome: Outcome)
      requires Core()
      requires from <= |world.journal|
      modifies world, `uncertain
      ensures Core() && Kept() && world.sentStops == old(world.sentStops)
      ensures StopsUntouched(world.journal, |old(world.journal)|)
      ensures outcome == Unresolved(emergency, EmergencySide(intent))
      ensures FailedClosed(outcome, intent, from)
      ensures emergency <= DUST ==> ClosesNothing(world.journal, |old(world.journal)|)
    {
      EngageUncertainty(from);
      ghost var killed := world.journal;
      outcome := Unresolved(emergency, EmergencySide(intent));
      if emergency > DUST {
        var _ := EmergencyClose(intent.symbol, EmergencySide(intent), emergency, ChildId(parent, "x"));
        SweptStays(killed, world.journal, from, StaticOk());
        AllReadStays(killed, world.journal, from, from, tracked, tracked.Keys);
        if StaticOk() {
          CloseTriedFromEarlier(world.journal, from, |killed|, intent.symbol, EmergencySide(intent), emergency);
        }
      }
    }

    /** `_engage_uncertainty`: latch, kill switch, best-effort entry cancellation, stop verification. */
    method EngageUncertainty(ghost from: nat)
      requires Core()
      requires from <= |world.journal|
      modifies world, `uncertain
      ensures Core() && Kept() && uncertain && world.sentStops == old(world.sentStops)
      ensures StopsUntouched(world.journal, |old(world.journal)|)
      ensures Swept(world.journal, from, StaticOk()) && AllRead(world.journal, from, tracked, tracked.Keys)
      ensures ClosesNothing(world.journal, |old(world.journal)|)
    {
      Latch();
      ghost var killed := world.journal;
      CancelAndVerify();
      assert IsKill(world.journal, |killed| - 1);
      AllReadStays(world.journal, world.journal, from, |killed|, tracked, tracked.Keys);
    }

    /** Best-effort entry cancellation, then a read of every tracked stop. */
    method CancelAndVerify()
      requires Core()
      modifies world
      ensures Core() && Kept() && world.sentStops == old(world.sentStops)
      ensures StopsUntouched(world.journal, |old(world.journal)|)
      ensures |world.journal| > |old(world.journal)| && IsSweep(world.journal, |old(world.journal)|, StaticOk())
      ensures AllRead(world.journal, |old(world.journal)|, tracked, tracked.Keys)
      ensures ClosesNothing(world.journal, |old(world.journal)|)
    {
      var _, _ := CancelRemoteEntries(false);
      ghost var swept := world.journal;
      VerifyTracked();
      SweepStays(swept, world.journal, |old(world.journal)|, StaticOk());
      AllReadStays(world.journal, world.journal, |old(world.journal)|, |swept|, tracked, tracked.Keys);
    }

    /** Why an order of a submission leaves it in doubt: before any latch it was read and not seen terminal. */
    ghost predicate DoubtedOrder(symbol: string, id: string, from: nat)
      reads world
    {
      exists k: nat :: Early(world.journal, from, k) && OrderInDoubt(world.journal[k], symbol, id)
    }

    /**
     * The same for an entry, with the quantity to flatten: the position as it was read straight after, or without one what
     * the last report before the cancellation said was filled, and never more than was.
     */
    ghost predicate EntryDoubtedAt(k: nat, symbol: string, id: string, emergency: real, from: nat)
      reads this, world
    {
      && Early(world.journal, from, k) && OrderInDoubt(world.journal[k], symbol, id)
      && k + 1 < |world.journal| && IsReading(world.journal[k + 1], symbol)
      && var net := world.journal[k + 1].net;
         if net.Some? && net.value != 0.0 then emergency == net.value
         else
           && Faithful(Observed(id, emergency, Unknown))
           && (StaticOk() && k >= 3 && Reports(world.journal[k - 3]) ==> world.journal[k - 3].report.value.executed == emergency)
    }

    ghost predicate EntryDoubted(symbol: string, id: string, emergency: real, from: nat)
      reads this, world
    {
      exists k: nat :: EntryDoubtedAt(k, symbol, id, emergency, from)
    }

    /** Nothing was sent yet, and the exchange will fill a part of the offer and let it expire. */
    ghost predicate Fresh(offer: Entry)
      reads this, world
    {
      world.Valid() && StaticOk() && !uncertain && world.Ready(offer.id, offer.symbol, offer.quantity)
    }

    /** That child ended as announced. */
    ghost predicate FillsAndExpires(id: string, observed: Observed, failure: Option<Outcome>, before: seq<Entry>)
      reads world
    {
      failure.None? && observed == Observed(id, world.FirstFill(), Expired) && world.entries != before
    }

    /** `_place_entry_child`. */
    method PlaceEntryChild(intent: Intent, offer: Entry, ghost from: nat)
      returns (observed: Observed, failure: Option<Outcome>)
      requires Core() && !uncertain && StaticOk() && AllTerminal(world.entries, world.truth)
      requires offer.symbol == intent.symbol
      requires from <= |world.journal|
      modifies world, `uncertain
      ensures Core() && KeptBut(offer)
      ensures failure.None? ==> !uncertain && observed.id == offer.id && Faithful(observed)
      ensures failure.Some? ==>
                FailedClosed(failure.value, intent, from) && EntryDoubted(intent.symbol, offer.id, failure.value.emergency, from)
      ensures old(Fresh(offer)) ==> FillsAndExpires(offer.id, observed, failure, old(world.entries))
    {
      var report := OfferEntry(offer);
      if report.Some? {
        observed, failure := Observed(offer.id, report.value.executed, report.value.status), None;
      } else {
        ghost var past := world.past;
        observed, failure := ResolveUnknownPlacement(intent, offer.id, from);
        world.Evolved(past);
      }
    }

    /** The guarded mutation: authorize, then send. */
    method OfferEntry(offer: Entry) returns (report: Option<Report>)
      requires Core() && !uncertain && AllTerminal(world.entries, world.truth)
      modifies world
      ensures Core() && KeptBut(offer)
      ensures report.Some? ==> Faithful(Observed(offer.id, report.value.executed, report.value.status))
      ensures report.None? && StaticOk() ==> |world.journal| > 0 && !Reports(world.journal[|world.journal| - 1])
      ensures old(Fresh(offer)) ==>
                report == Some(Report(Expired, world.FirstFill())) && world.entries != old(world.entries)
    {
      var ok := Authorize(false);
      report := None;
      if ok {
        world.StillTerminal(old(world.past));
        report := world.PlaceLimit(offer.symbol, offer.side, offer.quantity, offer.price, offer.id);
      }
    }

    /** The exception branch of `_place_entry_child`. */
    method ResolveUnknownPlacement(intent: Intent, id: string, ghost from: nat)
      returns (observed: Observed, failure: Option<Outcome>)
      requires Core() && !uncertain
      requires from <= |world.journal|
      requires |world.journal| > 0 && !Reports(world.journal[|world.journal| - 1])
      modifies world, `uncertain
      ensures Core() && Kept()
      ensures failure.None? ==> !uncertain && observed.id == id && Faithful(observed) && observed.status.Terminal()
      ensures failure.Some? ==>
                FailedClosed(failure.value, intent, from) && EntryDoubted(intent.symbol, id, failure.value.emergency, from)
    {
      observed, failure := CancelOpenChild(intent, Observed(id, 0.0, Unknown), id, from);
    }

    /** The order was asked for, then cancelled and found in doubt; then the position was read and the gateway failed closed. */
    lemma DoubtStays(asked: seq<Call>, doubted: seq<Call>, earlier: seq<map<string, Truth>>, symbol: string, observed: Observed,
                     reading: Option<real>, emergency: real, from: nat)
      requires world.Valid() && earlier != [] && earlier <= world.past && observed.executed >= 0.0
      requires observed.id in world.truth ==>
                 && observed.id in earlier[|earlier| - 1]
                 && observed.executed <= earlier[|earlier| - 1][observed.id].filled
      requires asked <= doubted < world.journal && |doubted| > 0 && Early(doubted, from, |doubted| - 1)
      requires OrderInDoubt(doubted[|doubted| - 1], symbol, observed.id)
      requires world.journal[|doubted|] == PositionRead(symbol, reading)
      requires emergency == if reading.Some? && reading.value != 0.0 then reading.value else observed.executed
      requires StaticOk() ==>
                 && |asked| > 0 && |doubted| == |asked| + 3
                 && (Reports(asked[|asked| - 1]) ==> asked[|asked| - 1].report.value.executed == observed.executed)
      ensures EntryDoubted(symbol, observed.id, emergency, from)
    {
      world.Evolved(earlier);
      EarlyStays(doubted, world.journal, from, |doubted| - 1);
      assert StaticOk() ==> world.journal[|doubted| - 4] == asked[|asked| - 1];
      assert EntryDoubtedAt(|doubted| - 1, symbol, observed.id, emergency, from);
    }

    lemma OpenLatchIsCalm(from: nat)
      requires Core() && !uncertain
      ensures Calm(world.journal, from, |world.journal|)
    {
      world.Written().LawfulParts();
    }

    /** One entry child up to its terminal barrier: place, wait, query, cancel, query again. */
    method RunChild(intent: Intent, offer: Entry, parent: string, ghost from: nat)
      returns (observed: Observed, failure: Option<Outcome>)
      requires Core() && !uncertain && StaticOk() && AllTerminal(world.entries, world.truth)
      requires offer.symbol == intent.symbol
      requires from <= |world.journal|
      modifies world, `uncertain
      ensures Core() && KeptBut(offer)
      ensures failure.None? ==>
                && !uncertain && AllTerminal(world.entries, world.truth)
                && observed.id == offer.id && observed.status.Terminal() && Faithful(observed)
      ensures failure.Some? ==>
                FailedClosed(failure.value, intent, from) && EntryDoubted(intent.symbol, offer.id, failure.value.emergency, from)
      ensures old(Fresh(offer)) ==> FillsAndExpires(offer.id, observed, failure, old(world.entries))
    {
      observed, failure := PlaceEntryChild(intent, offer, from);
      if failure.None? && !observed.status.Terminal() {
        ghost var past := world.past;
        observed, failure := ResolveOpenChild(intent, observed, parent, from);
        world.Evolved(past);
      }
      world.Evolved(old(world.past));
    }

    /** The part of `_submit_entry` after the entry wait. */
    method ResolveOpenChild(intent: Intent, submitted: Observed, parent: string, ghost from: nat)
      returns (observed: Observed, failure: Option<Outcome>)
      requires Core() && !uncertain && Faithful(submitted)
      requires from <= |world.journal|
      modifies world, `uncertain
      ensures Core() && Kept()
      ensures failure.None? ==>
                !uncertain && observed.id == submitted.id && observed.status.Terminal() && Faithful(observed)
      ensures failure.Some? ==>
                && FailedClosed(failure.value, intent, from)
                && EntryDoubted(intent.symbol, submitted.id, failure.value.emergency, from)
    {
      failure := None;
      observed := QueryStandard(intent.symbol, submitted.id, submitted);
      if observed.status.Terminal() { return; }
      observed, failure := CancelOpenChild(intent, observed, parent, from);
    }

    /** The cancellation of a child that the last read did not show as terminal. */
    method CancelOpenChild(intent: Intent, submitted: Observed, parent: string, ghost from: nat)
      returns (observed: Observed, failure: Option<Outcome>)
      requires Core() && !uncertain && Faithful(submitted)
      requires from <= |world.journal| && |world.journal| > 0
      requires var last := world.journal[|world.journal| - 1];
               Reports(last) ==> last.report.value.executed == submitted.executed
      modifies world, `uncertain
      ensures Core() && Kept()
      ensures failure.None? ==>
                !uncertain && observed.id == submitted.id && observed.status.Terminal() && Faithful(observed)
      ensures failure.Some? ==>
                && FailedClosed(failure.value, intent, from)
                && EntryDoubted(intent.symbol, submitted.id, failure.value.emergency, from)
    {
      observed, failure := submitted, None;
      ghost var asked, past := world.journal, world.past;
      OpenLatchIsCalm(from);
      var resolved := CancelAndResolve(intent.symbol, observed);
      if resolved.Some? {
        observed := resolved.value;
        return;
      }
      ghost var doubted := world.journal;
      assert Early(doubted, from, |doubted| - 1);
      var outcome, reading := RaiseFromPosition(intent, parent, observed.executed, from);
      failure := Some(outcome);
      DoubtStays(asked, doubted, past, intent.symbol, observed, reading, outcome.emergency, from);
    }

    /** What the entry orders from number `lo` on have opened or can still open. */
    ghost function Opened(lo: nat): real
      reads world
    {
      Exposure(world.entries, lo, |world.entries|, world.truth)
    }

    ghost function FilledFrom(lo: nat): real
      reads world
    {
      FilledTotal(world.entries, lo, |world.entries|, world.truth)
    }

    /** At most the feed was asked. */
    twostate predicate Checked()
      reads world
    {
      world.signals == old(world.signals) || exists ready :: world.signals == old(world.signals) + [FeedRead(ready)]
    }

    /** The entry check and, if it passes, one child with its effect on the exposure so far. */
    method RunRound(intent: Intent, working: Quote, offer: Entry, parent: string,
                    ghost lo: nat, ghost from: nat)
      returns (allowed: bool, observed: Observed, failure: Option<Outcome>)
      requires Core() && !uncertain && AllTerminal(world.entries, world.truth)
      requires offer.symbol == intent.symbol && offer.quantity > 0.0 && lo <= |world.entries|
      requires from <= |world.journal|
      modifies world, `uncertain
      ensures Core() && old(world.journal) <= world.journal && Checked()
      ensures Sent(old(world.entries), world.entries, offer) && old(world.past) <= world.past
      ensures world.entries != old(world.entries) ==>
                SizedAs(world.entries[|world.entries| - 1].quantity, offer.symbol, offer.quantity)
      ensures Opened(lo) <= old(Opened(lo)) + offer.quantity
      ensures failure.Some? ==>
                FailedClosed(failure.value, intent, from) && EntryDoubted(intent.symbol, offer.id, failure.value.emergency, from)
      ensures StaticOk() && world.Willing() ==> allowed
      ensures !allowed ==> failure.None? && world.entries == old(world.entries) && observed.executed == 0.0
      ensures failure.None? ==>
                && !uncertain && AllTerminal(world.entries, world.truth) && observed.executed >= 0.0
                && (var gain := if world.entries == old(world.entries) then 0.0 else observed.executed;
                    && Opened(lo) == old(Opened(lo)) + gain && FilledFrom(lo) == old(FilledFrom(lo)) + gain
                    && gain <= offer.quantity)
      ensures old(Fresh(offer)) ==>
                allowed && FillsAndExpires(offer.id, observed, failure, old(world.entries))
    {
      allowed := AssertEntryState(working);
      world.Shrank(old(world.past), lo);
      if allowed {
        observed, failure := RunAllowed(intent, offer, parent, lo, from);
      } else {
        observed, failure := Observed(offer.id, 0.0, Unknown), None;
      }
    }

    /** The child of a round whose entry check passed. */
    method RunAllowed(intent: Intent, offer: Entry, parent: string, ghost lo: nat, ghost from: nat)
      returns (observed: Observed, failure: Option<Outcome>)
      requires Core() && !uncertain && StaticOk() && AllTerminal(world.entries, world.truth)
      requires offer.symbol == intent.symbol && offer.quantity > 0.0 && lo <= |world.entries|
      requires from <= |world.journal|
      modifies world, `uncertain
      ensures Core() && old(world.journal) <= world.journal && world.signals == old(world.signals)
      ensures Sent(old(world.entries), world.entries, offer) && old(world.past) <= world.past
      ensures world.entries != old(world.entries) ==>
                SizedAs(world.entries[|world.entries| - 1].quantity, offer.symbol, offer.quantity)
      ensures Opened(lo) <= old(Opened(lo)) + offer.quantity
      ensures failure.Some? ==>
                FailedClosed(failure.value, intent, from) && EntryDoubted(intent.symbol, offer.id, failure.value.emergency, from)
      ensures failure.None? ==>
                && !uncertain && AllTerminal(world.entries, world.truth) && observed.executed >= 0.0
                && (var gain := if world.entries == old(world.entries) then 0.0 else observed.executed;
                    && Opened(lo) == old(Opened(lo)) + gain && FilledFrom(lo) == old(FilledFrom(lo)) + gain
                    && gain <= offer.quantity)
      ensures old(Fresh(offer)) ==> FillsAndExpires(offer.id, observed, failure, old(world.entries))
    {
      observed, failure := RunChild(intent, offer, parent, from);
      if world.entries == old(world.entries) {
        world.Shrank(old(world.past), lo);
      } else {
        world.Evolved(old(world.past));
        RoundExposure(old(world.entries), lo, world.entries[|world.entries| - 1], old(world.truth), world.truth);
      }
    }

    /** Flatten the position the venue shows, or what was observed filled if it shows none. */
    method RaiseFromPosition(intent: Intent, parent: string, executed: real, ghost from: nat)
      returns (outcome: Outcome, ghost reading: Option<real>)
      requires Core()
      requires from <= |world.journal|
      modifies world, `uncertain
      ensures Core() && Kept() && FailedClosed(outcome, intent, from)
      ensures old(world.journal) + [PositionRead(intent.symbol, reading)] <= world.journal
      ensures outcome.emergency == if reading.Some? && reading.value != 0.0 then reading.value else executed
    {
      var position := world.ReadPosition(intent.symbol);
      reading := position;
      var quantity := if position.Some? && position.value != 0.0 then position.value else executed;
      outcome := RaiseUnresolved(intent, parent, quantity, from);
    }

    /** The refresh between the two children. */
    method RefreshQuote(intent: Intent, quote: Quote, filled: bool, ghost lo: nat)
      returns (next: Refresh, ghost fetched: Option<Quote>, ghost passed: bool)
      requires Core() && AllTerminal(world.entries, world.truth)
      modifies world
      ensures Core() && Held() && AllTerminal(world.entries, world.truth)
      ensures Opened(lo) == old(Opened(lo)) && FilledFrom(lo) == old(FilledFrom(lo))
      ensures old(world.journal) + [QuoteRead(intent.symbol, fetched)] <= world.journal
      ensures next == Decide(quote, fetched, passed, filled, protectionBps)
      ensures var asked := old(world.signals) + [QuoteRead(intent.symbol, fetched)];
              if passed then
                world.signals == asked + [FeedRead(true)] && fetched.Some? && !uncertain && StaticOk()
              else
                world.signals == asked || world.signals == asked + [FeedRead(false)]
      ensures fetched.None? ==> world.signals == old(world.signals) + [QuoteRead(intent.symbol, fetched)]
      ensures fetched.Some? && StaticOk() && !uncertain && world.Willing() ==> passed
      ensures world.QuotesSteadily() ==> fetched == world.FirstQuote()
    {
      var read := world.FetchQuote(intent.symbol);
      fetched, passed := read, false;
      ghost var past := world.past;
      world.Shrank(old(world.past), lo);
      if read.None? {
        next := Abort(QuoteFailed);
        return;
      }
      var ok := AssertEntryState(read.value);
      passed := ok;
      world.Shrank(past, lo);
      if !ok {
        next := if filled then Settle else Abort(RecheckFailed);
      } else if quote.last == 0.0 {
        next := Abort(ZeroPrice);
      } else {
        next := if Near(quote, read.value, protectionBps) then Reprice(read.value) else Settle;
      }
    }

    /**
     * What an entry order of this submission may look like: it buys unless the intent says SELL; the first child goes out for
     * the quantity of the intent and at the touch of the submitted quote, its replacement at the touch of the refreshed one.
     */
    ghost predicate Priced(entry: Entry, intent: Intent, parent: string, quote: Quote, repriced: Option<Quote>)
      reads world
    {
      && entry.symbol == intent.symbol && (entry.side == Sell <==> intent.side == Some(Sell))
      && (|| (entry.id == parent && AtTouch(entry, quote) && SizedAs(entry.quantity, intent.symbol, intent.quantity))
          || (repriced.Some? && entry.id == ChildId(parent, "r") && AtTouch(entry, repriced.value)))
    }

    ghost predicate ChildDoubted(symbol: string, parent: string, emergency: real, from: nat)
      reads this, world
    {
      EntryDoubted(symbol, parent, emergency, from) || EntryDoubted(symbol, ChildId(parent, "r"), emergency, from)
    }

    /** What holds of a submission whose entry orders start at number `lo`, after each round. */
    ghost predicate Running(p: Progress, intent: Intent, quote: Quote, parent: string, lo: nat, from: nat, heard: nat)
      reads this, world
    {
      && Core() && from <= |world.journal| && heard <= |world.signals|
      && lo <= |world.entries| <= lo + p.attempts && p.attempts <= 2
      && Opened(lo) + (if p.Open() then p.remaining else 0.0) <= Max(intent.quantity, 0.0)
      && Shaped(intent, quote, parent, lo, p.repriced)
      && (p.failure.Some? && !p.failure.value.Raised? ==>
            && FailedClosed(p.failure.value, intent, from)
            && ChildDoubted(intent.symbol, parent, p.failure.value.emergency, from))
      && (p.Settled() ==>
            && !uncertain && AllTerminal(world.entries, world.truth)
            && FilledFrom(lo) <= p.total && p.total >= 0.0
            && (|world.entries| == lo + p.attempts ==> FilledFrom(lo) == p.total))
      && (p.Open() ==>
            && p.attempts < 2 && OnlyChecked(heard)
            && (p.attempts == 0 ==> p.working == quote && p.remaining == intent.quantity)
            && (p.attempts == 1 ==>
                  && p.remaining == Max(0.0, intent.quantity - p.total)
                  && p.repriced == Some(p.working) && Near(quote, p.working, protectionBps)))
      && Escape(world.signals, heard, quote) == UnguardedCause(p.failure)
      && (p.failure.Some? && p.failure.value.Raised? ==>
            || (p.failure.value.cause == NotAllowed && p.attempts == 0)
            || p.failure.value.cause in {QuoteFailed, ZeroPrice}
            || (p.failure.value.cause == RecheckFailed && p.total <= 0.0))
    }

    /** The last of the signals so far, if there is one, is an entry check. */
    ghost predicate OnlyChecked(heard: nat)
      reads world
    {
      heard <= |world.signals| && (heard < |world.signals| ==> world.signals[|world.signals| - 1].FeedRead?)
    }

    /** The refresh after a partly filled first child, when quotes never change and the entry check passes. */
    function StagedRefresh(quote: Quote): Refresh {
      Decide(quote, world.FirstQuote(), world.FirstQuote().Some?, true, protectionBps)
    }

    /** The exchange fills a part of the first child, and the refresh after it ends the loop. */
    ghost predicate Staged(intent: Intent, quote: Quote, parent: string)
      reads this, world
    {
      && Fresh(Offer(intent, parent, quote, 0, intent.quantity)) && world.FirstFill() + DUST < intent.quantity
      && world.QuotesSteadily() && !StagedRefresh(quote).Reprice?
    }

    /** Where the loop then stands. */
    function StagedEnd(intent: Intent, quote: Quote): Progress {
      var filled := world.FirstFill();
      Continue(Progress(quote, intent.quantity - filled, filled, 1, None, None, false), StagedRefresh(quote))
    }

    /**
     * The loop of `_submit_entry`: at most two children, the second only after the first is terminal
     * and only for what the first left open.
     */
    method RunEntries(intent: Intent, quote: Quote, parent: string, ghost from: nat, ghost heard: nat) returns (p: Progress)
      requires Core() && !uncertain && AllTerminal(world.entries, world.truth)
      requires from <= |world.journal| && OnlyChecked(heard) && |world.signals| <= heard + 1
      modifies world, `uncertain
      ensures Running(p, intent, quote, parent, |old(world.entries)|, from, heard)
      ensures Bounded(intent, quote, parent, |old(world.entries)|)
      ensures old(world.journal) <= world.journal && old(world.entries) <= world.entries
      ensures StaticOk() && world.Willing() ==> p.failure != Some(Raised(NotAllowed))
      ensures old(Staged(intent, quote, parent)) ==>
                p == StagedEnd(intent, quote) && FilledFrom(|old(world.entries)|) == world.FirstFill()
    {
      p := Progress(quote, intent.quantity, 0.0, 0, None, None, false);
      while p.attempts < 2 && p.remaining > DUST && p.Open()
        invariant Running(p, intent, quote, parent, |old(world.entries)|, from, heard)
        invariant old(world.journal) <= world.journal && old(world.entries) <= world.entries
        invariant old(Staged(intent, quote, parent)) ==>
                    if p.attempts == 0 && p.Open() then
                      p == Progress(quote, intent.quantity, 0.0, 0, None, None, false) && Staged(intent, quote, parent)
                    else p == StagedEnd(intent, quote) && |world.entries| == |old(world.entries)| + 1
        invariant StaticOk() && world.Willing() ==> p.failure != Some(Raised(NotAllowed))
        decreases 2 - p.attempts, p.Open()
      {
        p := NextAttempt(p, intent, quote, parent, |old(world.entries)|, from, heard);
      }
    }

    /** One pass of that loop; `stopped` records a `break`. */
    method NextAttempt(p: Progress, intent: Intent, quote: Quote, parent: string, ghost lo: nat, ghost from: nat,
                       ghost heard: nat)
      returns (next: Progress)
      requires Running(p, intent, quote, parent, lo, from, heard)
      requires p.Open() && p.attempts < 2 && p.remaining > DUST
      modifies world, `uncertain
      ensures Running(next, intent, quote, parent, lo, from, heard)
      ensures old(world.journal) <= world.journal && old(world.entries) <= world.entries
      ensures StaticOk() && world.Willing() ==> next.failure != Some(Raised(NotAllowed))
      ensures next.attempts == p.attempts + 1 || (next.attempts == p.attempts && !next.Open())
      ensures p == Progress(quote, intent.quantity, 0.0, 0, None, None, false) && old(Staged(intent, quote, parent)) ==>
                next == StagedEnd(intent, quote) && |world.entries| == lo + 1
    {
      var more, status;
      next, more, status := TakeRound(p, intent, quote, parent, lo, from, heard);
      if more { next := AfterChild(next, status, intent, quote, parent, lo, from, heard); }
    }

    /** The child of that pass, before its fills are counted. */
    method OfferRound(p: Progress, intent: Intent, quote: Quote, parent: string, ghost lo: nat, ghost from: nat,
                      ghost heard: nat)
      returns (allowed: bool, observed: Observed, failure: Option<Outcome>)
      requires Running(p, intent, quote, parent, lo, from, heard)
      requires p.Open() && p.attempts < 2 && p.remaining > DUST
      modifies world, `uncertain
      ensures Core() && old(world.journal) <= world.journal && old(world.entries) <= world.entries
      ensures |world.entries| <= |old(world.entries)| + 1 && Shaped(intent, quote, parent, lo, p.repriced)
      ensures OnlyChecked(heard) && Escape(world.signals, heard, quote).None?
      ensures p.attempts == 0 ==> forall k :: lo <= k < |world.entries| ==> Priced(world.entries[k], intent, parent, quote, None)
      ensures Opened(lo) <= old(Opened(lo)) + p.remaining
      ensures failure.Some? ==>
                FailedClosed(failure.value, intent, from) && ChildDoubted(intent.symbol, parent, failure.value.emergency, from)
      ensures StaticOk() && world.Willing() ==> allowed
      ensures !allowed ==> failure.None? && world.entries == old(world.entries)
      ensures failure.None? ==>
                && !uncertain && AllTerminal(world.entries, world.truth) && observed.executed >= 0.0
                && (var gain := if world.entries == old(world.entries) then 0.0 else observed.executed;
                    && Opened(lo) == old(Opened(lo)) + gain && FilledFrom(lo) == old(FilledFrom(lo)) + gain
                    && gain <= p.remaining)
      ensures p.attempts == 0 && old(Fresh(Offer(intent, parent, p.working, 0, p.remaining))) ==>
                allowed && FillsAndExpires(parent, observed, failure, old(world.entries))
    {
      var offer := Offer(intent, parent, p.working, p.attempts, p.remaining);
      ghost var signals := world.signals;
      allowed, observed, failure := RunRound(intent, p.working, offer, parent, lo, from);
      CheckForcesNothing(signals, world.signals, heard, quote);
      ShapeGrows(old(world.past), old(world.entries), p, intent, quote, parent, lo);
    }

    /** The child of that pass; `more` says that it ended and its fills are counted. */
    method TakeRound(p: Progress, intent: Intent, quote: Quote, parent: string, ghost lo: nat, ghost from: nat,
                     ghost heard: nat)
      returns (next: Progress, more: bool, status: OrderStatus)
      requires Running(p, intent, quote, parent, lo, from, heard)
      requires p.Open() && p.attempts < 2 && p.remaining > DUST
      modifies world, `uncertain
      ensures old(world.journal) <= world.journal && old(world.entries) <= world.entries
      ensures StaticOk() && world.Willing() ==> next.failure != Some(Raised(NotAllowed))
      ensures !more ==>
                && Running(next, intent, quote, parent, lo, from, heard) && !next.Open()
                && (next.attempts == p.attempts || next.attempts == p.attempts + 1)
      ensures more ==>
                && Running(next.(stopped := true), intent, quote, parent, lo, from, heard) && next.Open()
                && next.attempts == p.attempts + 1
                && (p.attempts == 0 && next.remaining > DUST ==> Opened(lo) + next.remaining <= Max(intent.quantity, 0.0))
                && (p.attempts == 0 ==>
                      && next.remaining == Max(0.0, intent.quantity - next.total)
                      && forall k :: lo <= k < |world.entries| ==> Priced(world.entries[k], intent, parent, quote, None))
      ensures p == Progress(quote, intent.quantity, 0.0, 0, None, None, false) && old(Staged(intent, quote, parent)) ==>
                && more && status == Expired && |world.entries| == lo + 1
                && next == Progress(quote, intent.quantity - world.FirstFill(), world.FirstFill(), 1, None, None, false)
    {
      var allowed, observed, failure := OfferRound(p, intent, quote, parent, lo, from, heard);
      status := observed.status;
      if !allowed {
        return p.(stopped := true, failure := if p.attempts == 0 then Some(Raised(NotAllowed)) else None), false, status;
      }
      next := p.(attempts := p.attempts + 1, failure := failure);
      if failure.Some? { return next, false, status; }
      next := next.(total := p.total + observed.executed, remaining := Max(0.0, p.remaining - observed.executed));
      more := true;
    }

    /** One more child, offered for what is left, keeps the shape; what was terminal before it still is. */
    lemma ShapeGrows(earlier: seq<map<string, Truth>>, before: seq<Entry>, p: Progress, intent: Intent, quote: Quote,
                     parent: string, lo: nat)
      requires world.Valid() && earlier != [] && earlier <= world.past && p.attempts < 2 && lo <= |before| <= lo + p.attempts
      requires forall k :: lo <= k < |before| ==> Priced(before[k], intent, parent, quote, p.repriced)
      requires Sent(before, world.entries, Offer(intent, parent, p.working, p.attempts, p.remaining))
      requires world.entries != before ==>
                 SizedAs(world.entries[|world.entries| - 1].quantity, intent.symbol, p.remaining)
      requires p.attempts == 0 ==> p.working == quote && p.remaining == intent.quantity
      requires p.attempts == 1 ==>
                 && p.repriced == Some(p.working) && Near(quote, p.working, protectionBps)
                 && p.remaining == intent.quantity - p.total
      requires AllTerminal(before, earlier[|earlier| - 1])
      requires |before| == lo + 1 ==> FilledTotal(before, lo, |before|, earlier[|earlier| - 1]) == p.total
      ensures Shaped(intent, quote, parent, lo, p.repriced)
      ensures p.attempts == 0 ==> forall k :: lo <= k < |world.entries| ==> Priced(world.entries[k], intent, parent, quote, None)
    {
      OfferIsAtTouch(intent, parent, p.working, p.attempts, p.remaining);
      if world.entries != before {
        assert world.entries[..|before|] == before;
        if p.attempts == 1 && |before| == lo + 1 { SecondReplaces(earlier, before, intent, p.total, lo); }
      }
    }

    lemma SecondReplaces(earlier: seq<map<string, Truth>>, before: seq<Entry>, intent: Intent, filled: real, lo: nat)
      requires world.Valid() && earlier != [] && earlier <= world.past
      requires |before| == lo + 1 && |world.entries| == lo + 2 && before <= world.entries
      requires AllTerminal(before, earlier[|earlier| - 1])
      requires FilledTotal(before, lo, lo + 1, earlier[|earlier| - 1]) == filled
      requires SizedAs(world.entries[lo + 1].quantity, intent.symbol, intent.quantity - filled)
      ensures Replaces(lo, intent)
    {
      world.Evolved(earlier);
      assert FilledTotal(before, lo, lo, earlier[|earlier| - 1]) == 0.0;
    }

    /** Whether a terminal child ends the loop. */
    method AfterChild(p: Progress, status: OrderStatus, intent: Intent, quote: Quote, parent: string,
                      ghost lo: nat, ghost from: nat, ghost heard: nat)
      returns (next: Progress)
      requires Running(p.(stopped := true), intent, quote, parent, lo, from, heard) && p.Open() && p.attempts >= 1
      requires p.attempts == 1 && p.remaining > DUST && status != Filled ==>
                 Opened(lo) + p.remaining <= Max(intent.quantity, 0.0)
      requires p.attempts == 1 ==>
                 && p.remaining == Max(0.0, intent.quantity - p.total)
                 && forall k :: lo <= k < |world.entries| ==> Priced(world.entries[k], intent, parent, quote, None)
      modifies world
      ensures Running(next, intent, quote, parent, lo, from, heard) && next.attempts == p.attempts
      ensures old(world.journal) <= world.journal && world.entries == old(world.entries)
      ensures world.QuotesSteadily() && world.Willing() && StaticOk() && p.total > 0.0 && p.attempts == 1
              && p.remaining > DUST && status != Filled ==>
                next == Continue(p, StagedRefresh(quote))
    {
      if status == Filled || p.remaining <= DUST || p.attempts == 2 {
        return p.(stopped := true);
      }
      next := AfterFirstChild(p, intent, quote, parent, lo, from, heard);
    }

    /** The quote refresh between the first and the second child. */
    method AfterFirstChild(p: Progress, intent: Intent, quote: Quote, parent: string, ghost lo: nat, ghost from: nat,
                           ghost heard: nat)
      returns (next: Progress)
      requires Running(p.(stopped := true), intent, quote, parent, lo, from, heard)
      requires p.Open() && p.attempts == 1 && p.remaining > DUST
      requires Opened(lo) + p.remaining <= Max(intent.quantity, 0.0)
      requires p.remaining == Max(0.0, intent.quantity - p.total)
      requires forall k :: lo <= k < |world.entries| ==> Priced(world.entries[k], intent, parent, quote, None)
      modifies world
      ensures Running(next, intent, quote, parent, lo, from, heard) && next.attempts == 1
      ensures old(world.journal) <= world.journal && world.entries == old(world.entries)
      ensures world.QuotesSteadily() && world.Willing() && StaticOk() && p.total > 0.0 ==>
                next == Continue(p, StagedRefresh(quote))
    {
      ghost var before := world.signals;
      var refresh, fetched, passed := RefreshQuote(intent, quote, p.total > 0.0, lo);
      RefreshEscapes(before, world.signals, heard, intent.symbol, fetched, passed, p.total > 0.0, quote, protectionBps);
      next := Continue(p, refresh);
    }

    function Continue(p: Progress, refresh: Refresh): Progress {
      match refresh
      case Settle => p.(stopped := true)
      case Abort(cause) => p.(failure := Some(Raised(cause)))
      case Reprice(refreshed) => p.(working := refreshed, repriced := Some(refreshed))
    }

    /** The order the loop would place in its next round. */
    function Offer(intent: Intent, parent: string, working: Quote, attempts: nat, remaining: real): Entry {
      var side := EntrySide(intent);
      Entry(if attempts == 0 then parent else ChildId(parent, "r"), intent.symbol, side, remaining,
            LimitPrice(working, side))
    }

    lemma OfferIsAtTouch(intent: Intent, parent: string, working: Quote, attempts: nat, remaining: real)
      ensures AtTouch(Offer(intent, parent, working, attempts, remaining), working)
      ensures Offer(intent, parent, working, attempts, remaining).side == Sell <==> intent.side == Some(Sell)
    {
    }

    function Active(symbol: string): Option<Stop>
      reads this
    {
      TrackedIn(tracked, symbol)
    }

    /** `stop` was the last thing sent and verified, for `order` with quantity and trigger as the filters round them. */
    ghost predicate Protects(stop: Stop, order: Stop)
      reads this, world
      requires world.Valid()
    {
      var size, trigger := world.Normalize(order.symbol, order.quantity, true), world.NormalizePrice(order.symbol, order.trigger);
      && size.Some? && trigger.Some?
      && JustVerified(world.journal, stop, order.(quantity := size.value, trigger := trigger.value))
      && (StaticOk() ==> SentLast(world.journal, order))
    }

    /** One authorized stop cancellation; its response is not used. */
    method RequestStopCancel(id: string)
      requires Core()
      modifies world
      ensures Core() && Kept() && world.sentStops == old(world.sentStops)
      ensures !StaticOk() ==> world.journal == old(world.journal)
      ensures StaticOk() ==> exists b :: world.journal == old(world.journal) + [ControlRead(b), StopCancel(id)]
    {
      var ok := Authorize(true);
      if ok {
        ghost var b :| world.journal == old(world.journal) + [ControlRead(b)];
        var _ := world.CancelStop(id);
        assert world.journal == old(world.journal) + [ControlRead(b), StopCancel(id)];
      }
    }

    /** `_cancel_protective`: true only after a fresh read shows the stop terminal. */
    method CancelProtective(stop: Stop) returns (ended: bool)
      requires Core()
      modifies world
      ensures Core() && Kept() && world.sentStops == old(world.sentStops)
      ensures |world.journal| > |old(world.journal)| && world.journal[|world.journal| - 1].StopRead?
      ensures world.EndsStops() ==> ended
      ensures ended <==> IsStopEnd(world.journal[|world.journal| - 1], stop.id)
      ensures ended ==> StopEnded(world.journal, |old(world.journal)|, stop.id)
      ensures StaticOk() ==> !StopsUntouched(world.journal, |old(world.journal)|)
      ensures StaticOk() ==> StopCancelled(world.journal, |old(world.journal)|, stop.id)
      ensures forall k :: |old(world.journal)| <= k < |world.journal| ==>
                world.journal[k].ControlRead? || world.journal[k] == StopCancel(stop.id)
                || (world.journal[k].StopRead? && world.journal[k].id == stop.id)
    {
      RequestStopCancel(stop.id);
      var answer := world.QueryStop(stop.id);
      assert StaticOk() ==> IsStopTry(world.journal, |old(world.journal)| + 1, stop.id);
      ended := answer.Some? && answer.value.status.Terminal();
    }

    /** `_place_protective`: one submission, one verification read, registration only if it passes. */
    method PlaceProtective(stop: Stop) returns (placed: Placed)
      requires Core()
      modifies world, `tracked
      ensures Core() && Held() && Normalized(stop, !placed.NormalizerRaised?)
      ensures placed.Protected? ==>
                && tracked == old(tracked)[stop.symbol := placed.stop] && placed.stop.id == stop.id
                && Protects(placed.stop, stop)
      ensures !placed.Protected? ==> tracked == old(tracked)
      ensures |world.journal| > |old(world.journal)| && world.journal[|old(world.journal)|].StopNormalized?
      ensures placed.NormalizerRaised? ==> |world.journal| == |old(world.journal)| + 1
      ensures placed.Unverified? ==> Unproven(world.journal[|world.journal| - 1], stop, world.rules)
      ensures StaticOk() && !placed.NormalizerRaised? ==> SentLast(world.journal, stop)
      ensures forall k :: |old(world.journal)| < k < |world.journal| ==>
                world.journal[k].ControlRead? || world.journal[k] == StopSent(stop)
                || (world.journal[k].StopRead? && world.journal[k].id == stop.id)
      ensures StopSize(world.rules, stop.symbol, stop.quantity, stop.trigger).None? ==> placed.NormalizerRaised?
    {
      var normal := world.NormalizeStop(stop.symbol, stop.quantity, stop.trigger);
      if normal.None? { return NormalizerRaised; }
      placed := SendAndVerify(stop, stop.(quantity := normal.value.0, trigger := normal.value.1));
    }

    /** The submission, and registration of what a read shows as an active guard of `expected`. */
    method SendAndVerify(stop: Stop, expected: Stop) returns (placed: Placed)
      requires Core() && expected.symbol == stop.symbol && expected.id == stop.id
      modifies world, `tracked
      ensures Core() && Kept() && !placed.NormalizerRaised? && |world.journal| > |old(world.journal)|
      ensures placed.Protected? ==>
                && tracked == old(tracked)[stop.symbol := placed.stop] && placed.stop.id == stop.id
                && JustVerified(world.journal, placed.stop, expected)
      ensures StaticOk() ==> SentLast(world.journal, stop)
      ensures placed.Unverified? ==>
                && tracked == old(tracked)
                && var last := world.journal[|world.journal| - 1];
                   && last.StopRead? && last.id == stop.id
                   && (last.answer.None? || !Guards(last.answer.value, expected))
      ensures forall k :: |old(world.journal)| <= k < |world.journal| ==>
                world.journal[k].ControlRead? || world.journal[k] == StopSent(stop)
                || (world.journal[k].StopRead? && world.journal[k].id == stop.id)
    {
      var answer := SendStop(stop);
      if answer.Some? { VerifiedIffGuards(answer.value, expected); }
      if answer.None? || VerificationErrors(answer.value, expected) != [] { return Unverified; }
      var state := RemoteState(answer.value, expected);
      assert JustVerified(world.journal, state, expected);
      Register(state);
      placed := Protected(state);
    }

    /** The submission and the single read that follows it, whatever the submission returned. */
    method SendStop(stop: Stop) returns (answer: Option<AlgoReport>)
      requires Core()
      modifies world
      ensures Core() && Kept()
      ensures |world.journal| > |old(world.journal)|
      ensures world.journal[|world.journal| - 1] == StopRead(stop.id, answer)
      ensures StaticOk() ==> SentLast(world.journal, stop)
      ensures forall k :: |old(world.journal)| <= k < |world.journal| ==>
                world.journal[k].ControlRead? || world.journal[k] == StopSent(stop)
                || world.journal[k] == StopRead(stop.id, answer)
    {
      var ok := Authorize(true);
      if ok {
        var _ := world.PlaceStop(stop);
      }
      answer := world.QueryStop(stop.id);
    }

    /** `register_protective_order`. */
    method Register(stop: Stop)
      requires Core()
      modifies `tracked
      ensures Core() && tracked == old(tracked)[stop.symbol := stop]
    {
      tracked := tracked[stop.symbol := stop];
    }

    /** The tracked stop of `symbol`, if any, is cancelled, seen terminal and forgotten. */
    method DropProtection(symbol: string, ghost from: nat) returns (ended: bool)
      requires Core()
      requires from <= |world.journal|
      modifies world, `tracked
      ensures Core() && Kept()
      ensures world.EndsStops() ==> ended
      ensures ended ==>
                && tracked == old(tracked) - {symbol}
                && (symbol in old(tracked) ==>
                      StopEnded(world.journal, from, old(tracked)[symbol].id))
      ensures !ended ==>
                && tracked == old(tracked) && symbol in old(tracked) && |world.journal| > |old(world.journal)|
                && StopInDoubt(world.journal[|world.journal| - 1], old(tracked)[symbol].id)
      ensures Calm(world.journal, |old(world.journal)|, |world.journal|)
    {
      ended := true;
      if symbol in tracked {
        ended := CancelProtective(tracked[symbol]);
        if ended { tracked := tracked - {symbol}; }
      } else {
        assert tracked - {symbol} == tracked;
      }
    }

    /** How a normally returning entry left the symbol: freshly verified, and the old stop seen ended. */
    ghost predicate Replaced(stop: Stop, order: Stop, before: map<string, Stop>, from: nat)
      reads this, world
      requires world.Valid()
    {
      && tracked == before[order.symbol := stop]
      && Protects(stop, order)
      && (order.symbol in before ==> StopEnded(world.journal, from, before[order.symbol].id))
    }

    /** Why a stop could not be put in the place of the tracked one: before any latch either was read and found in doubt. */
    ghost predicate SwapDoubted(tracking: map<string, Stop>, order: Stop, from: nat)
      reads world
      requires world.Valid()
    {
      exists k: nat :: Early(world.journal, from, k)
        && (Unproven(world.journal[k], order, world.rules)
            || (order.symbol in tracking && StopInDoubt(world.journal[k], tracking[order.symbol].id)))
    }

    lemma SwapDoubtedStays(before: seq<Call>, tracking: map<string, Stop>, order: Stop, from: nat, at: nat, k: nat)
      requires world.Valid() && before <= world.journal && from <= at && Calm(before, from, at) && Early(before, at, k)
      requires Unproven(before[k], order, world.rules)
               || (order.symbol in tracking && StopInDoubt(before[k], tracking[order.symbol].id))
      ensures SwapDoubted(tracking, order, from)
    {
      assert Early(before, from, k);
      EarlyStays(before, world.journal, from, k);
    }

    /** The stop `_install_complete_protection` places for a position of `quantity`. */
    function ProtectiveOrder(intent: Intent, parent: string, last: real, quantity: real): Stop {
      Stop(intent.symbol, ChildId(parent, "s"), StopSide(intent), TriggerOf(intent, last), quantity)
    }

    /**
     * The stop an entry has to get: on the side opposite to a BUY, at the stop price of the intent unless that is missing or
     * zero, and then at the last price.
     */
    ghost function EntryStop(intent: Intent, parent: string, last: real, quantity: real): Stop {
      Stop(intent.symbol, ChildId(parent, "s"), if intent.side == Some(Buy) then Sell else Buy,
           if intent.stopPrice in {None, Some(0.0)} then last else intent.stopPrice.value, quantity)
    }

    /** The filters were asked for that stop, at most once, and refused it exactly when that is the failure. */
    twostate predicate InstallSized(new basis: Option<real>, intent: Intent, parent: string, last: real,
                                    new failure: Option<Outcome>)
      reads world
    {
      if basis.Some? && basis.value > DUST then Sized(ProtectiveOrder(intent, parent, last, basis.value), failure)
      else failure != Some(Raised(NormalizerFailed)) && world.signals == old(world.signals)
    }

    /** What has to be flattened when the filled part cannot be protected: the position, or the fill when that is unknown. */
    ghost function Stake(basis: Option<real>, filled: real): real {
      if basis.Some? && basis.value > DUST then basis.value else filled
    }

    /** Why the filled part could not be protected: nothing to size the stop by, or no sure swap. */
    ghost predicate InstallDoubted(basis: Option<real>, intent: Intent, parent: string, last: real,
                                   tracking: map<string, Stop>, from: nat)
      reads world
      requires world.Valid()
    {
      || basis.None? || basis.value <= DUST
      || SwapDoubted(tracking, ProtectiveOrder(intent, parent, last, basis.value), from)
    }

    lemma SwapDoubtedEarlier(tracking: map<string, Stop>, order: Stop, from: nat, at: nat)
      requires world.Valid() && from <= at && Calm(world.journal, from, at) && SwapDoubted(tracking, order, at)
      ensures SwapDoubted(tracking, order, from)
    {
      var k: nat :| Early(world.journal, at, k)
        && (Unproven(world.journal[k], order, world.rules)
            || (order.symbol in tracking && StopInDoubt(world.journal[k], tracking[order.symbol].id)));
      assert Early(world.journal, from, k);
    }

    /** A first entry, its position unreadable, whose stop the filters refuse. */
    ghost predicate Unfit(intent: Intent, last: real, filled: real)
      requires world.Valid()
      reads this, world
    {
      && intent.action == Open && intent.symbol !in tracked && world.HidesPosition() && filled > DUST
      && StopSize(world.rules, intent.symbol, filled, TriggerOf(intent, last)).None?
    }

    /** `_install_complete_protection`. */
    method InstallProtection(intent: Intent, parent: string, last: real, filled: real, ghost from: nat)
      returns (stop: Option<Stop>, failure: Option<Outcome>, ghost reading: Option<real>)
      requires Core() && !uncertain && filled > 0.0
      requires from <= |world.journal|
      modifies world, `uncertain, `tracked
      ensures Core() && Held() && Calm(world.journal, |old(world.journal)|, |old(world.journal)| + 1)
      ensures old(world.journal) + [PositionRead(intent.symbol, reading)] <= world.journal
      ensures stop.Some? <==> failure.None?
      ensures InstallSized(EntryBasis(reading, intent.action, old(Active(intent.symbol)), filled), intent, parent, last,
                           failure)
      ensures old(Unfit(intent, last, filled)) ==> failure == Some(Raised(NormalizerFailed))
      ensures stop.Some? ==>
                var basis := EntryBasis(reading, intent.action, old(Active(intent.symbol)), filled);
                && !uncertain && basis.Some? && basis.value > DUST
                && Replaced(stop.value, EntryStop(intent, parent, last, basis.value), old(tracked), from)
      ensures failure.Some? ==>
                if failure == Some(Raised(NormalizerFailed)) then
                  !uncertain && tracked == old(tracked) - {intent.symbol}
                else
                  && FailedClosed(failure.value, intent, from)
                  && var basis := EntryBasis(reading, intent.action, old(Active(intent.symbol)), filled);
                     && failure.value.emergency == Stake(basis, filled)
                     && InstallDoubted(basis, intent, parent, last, old(tracked), |old(world.journal)|)
    {
      var active := Active(intent.symbol);
      var position := world.ReadPosition(intent.symbol);
      reading := position;
      var basis := EntryBasis(position, intent.action, active, filled);
      if basis.None? || basis.value <= DUST {
        var outcome := RaiseUnresolved(intent, parent, filled, from);
        return None, Some(outcome), reading;
      }
      var order := ProtectiveOrder(intent, parent, last, basis.value);
      assert order == EntryStop(intent, parent, last, basis.value);
      ghost var at := |world.journal|;
      stop, failure := SwapProtection(intent, parent, order, from);
      if failure.Some? && failure != Some(Raised(NormalizerFailed)) {
        SwapDoubtedEarlier(old(tracked), order, |old(world.journal)|, at);
      }
    }

    /** Cancel the old stop, place and verify the new one; fail closed if either is unresolved. */
    method SwapProtection(intent: Intent, parent: string, order: Stop, ghost from: nat)
      returns (stop: Option<Stop>, failure: Option<Outcome>)
      requires Core() && order.symbol == intent.symbol
      requires from <= |world.journal|
      modifies world, `uncertain, `tracked
      ensures Core() && Held() && Sized(order, failure)
      ensures stop.Some? <==> failure.None?
      ensures (order.symbol !in old(tracked) || world.EndsStops())
              && StopSize(world.rules, order.symbol, order.quantity, order.trigger).None? ==>
                failure == Some(Raised(NormalizerFailed))
      ensures stop.Some? ==>
                && uncertain == old(uncertain)
                && Replaced(stop.value, order, old(tracked), from)
      ensures failure.Some? ==>
                if failure == Some(Raised(NormalizerFailed)) then
                  uncertain == old(uncertain) && tracked == old(tracked) - {intent.symbol}
                else
                  && FailedClosed(failure.value, intent, from) && failure.value.emergency == order.quantity
                  && SwapDoubted(old(tracked), order, |old(world.journal)|)
    {
      ghost var at := |world.journal|;
      failure := DropOrRaise(intent, parent, order, from);
      if failure.Some? { return None, failure; }
      ghost var dropped := world.journal;
      ghost var k;
      stop, failure, k := PlaceOrRaise(intent, parent, order, from);
      if failure.Some? && failure != Some(Raised(NormalizerFailed)) {
        assert Early(world.journal, at, k);
      }
      if stop.Some? && order.symbol in old(tracked) {
        StopEndedStays(dropped, world.journal, from, old(tracked)[order.symbol].id);
      }
    }

    /** Cancel the old stop, or fail closed. */
    method DropOrRaise(intent: Intent, parent: string, order: Stop, ghost from: nat) returns (failure: Option<Outcome>)
      requires Core() && order.symbol == intent.symbol
      requires from <= |world.journal|
      modifies world, `uncertain, `tracked
      ensures Core() && Kept()
      ensures order.symbol !in old(tracked) || world.EndsStops() ==> failure.None?
      ensures failure.None? ==>
                && uncertain == old(uncertain) && tracked == old(tracked) - {order.symbol}
                && Calm(world.journal, |old(world.journal)|, |world.journal|)
                && (order.symbol in old(tracked) ==> StopEnded(world.journal, from, old(tracked)[order.symbol].id))
      ensures failure.Some? ==>
                && failure != Some(Raised(NormalizerFailed)) && FailedClosed(failure.value, intent, from)
                && failure.value.emergency == order.quantity
                && SwapDoubted(old(tracked), order, |old(world.journal)|)
    {
      failure := None;
      ghost var at := |world.journal|;
      var ended := DropProtection(order.symbol, from);
      if !ended {
        ghost var dropped := world.journal;
        var outcome := RaiseUnresolved(intent, parent, order.quantity, from);
        SwapDoubtedStays(dropped, old(tracked), order, at, at, |dropped| - 1);
        failure := Some(outcome);
      }
    }

    /** Place and verify one stop, or fail closed. */
    method PlaceOrRaise(intent: Intent, parent: string, order: Stop, ghost from: nat)
      returns (stop: Option<Stop>, failure: Option<Outcome>, ghost k: nat)
      requires Core() && order.symbol == intent.symbol
      requires from <= |world.journal|
      modifies world, `uncertain, `tracked
      ensures Core() && Held() && Normalized(order, failure != Some(Raised(NormalizerFailed)))
      ensures stop.Some? <==> failure.None?
      ensures StopSize(world.rules, order.symbol, order.quantity, order.trigger).None? ==>
                failure == Some(Raised(NormalizerFailed))
      ensures stop.None? ==> tracked == old(tracked)
      ensures stop.Some? ==> |world.journal| > |old(world.journal)|
      ensures stop.Some? ==>
                && uncertain == old(uncertain) && tracked == old(tracked)[order.symbol := stop.value]
                && Protects(stop.value, order)
      ensures failure.Some? ==>
                if failure == Some(Raised(NormalizerFailed)) then
                  uncertain == old(uncertain) && tracked == old(tracked)
                else
                  && FailedClosed(failure.value, intent, from) && failure.value.emergency == order.quantity
                  && Early(world.journal, |old(world.journal)|, k)
                  && Unproven(world.journal[k], order, world.rules)
    {
      k := 0;
      var placed := PlaceProtective(order);
      match placed
      case Protected(state) => return Some(state), None, 0;
      case NormalizerRaised => return None, Some(Raised(NormalizerFailed)), 0;
      case Unverified =>
        ghost var read := world.journal;
        k := |read| - 1;
        assert Early(read, |old(world.journal)|, k);
        var outcome := RaiseUnresolved(intent, parent, order.quantity, from);
        EarlyStays(read, world.journal, |old(world.journal)|, k);
        return None, Some(outcome), k;
    }

    /** The position was read, and the stop covers what that reading (or the fallback) says. */
    ghost predicate EntryGuarded(submission: Submission, intent: Intent, parent: string, last: real, before: map<string, Stop>,
                                 from: nat)
      reads this, world
      requires world.Valid()
    {
      && submission.stop.Some?
      && exists k :: from <= k < |world.journal| && BasisRead(k, intent, submission.filled, before).Some?
           && Replaced(submission.stop.value,
                       EntryStop(intent, parent, last, BasisRead(k, intent, submission.filled, before).value), before, from)
    }

    /** The basis that the reading at `k` gives, when `k` is a reading of the position. */
    ghost function BasisRead(k: nat, intent: Intent, filled: real, before: map<string, Stop>): (basis: Option<real>)
      reads world
      requires k < |world.journal|
      ensures basis.Some? ==> IsReading(world.journal[k], intent.symbol)
      ensures IsReading(world.journal[k], intent.symbol) ==>
                && (world.journal[k].net.Some? ==> basis == world.journal[k].net)
                && (world.journal[k].net.None? && intent.action == Open ==> basis == Some(filled))
                && (world.journal[k].net.None? && intent.action != Open && intent.symbol in before ==>
                      basis == Some(before[intent.symbol].quantity + filled))
                && (world.journal[k].net.None? && intent.action != Open && intent.symbol !in before ==> basis == None)
    {
      var call := world.journal[k];
      if call.PositionRead? && call.symbol == intent.symbol then
        EntryBasis(call.net, intent.action, if intent.symbol in before then Some(before[intent.symbol]) else None, filled)
      else None
    }

    /** The orders this submission sent: their number, their shape and all they can ever open. */
    ghost predicate Bounded(intent: Intent, quote: Quote, parent: string, lo: nat)
      reads this, world
    {
      && lo <= |world.entries| <= lo + 2
      && Opened(lo) <= Max(intent.quantity, 0.0)
      && exists repriced: Option<Quote> :: Shaped(intent, quote, parent, lo, repriced)
    }

    /** Every order of the submission, and the quote that a second one is allowed to follow. */
    ghost predicate Shaped(intent: Intent, quote: Quote, parent: string, lo: nat, repriced: Option<Quote>)
      reads this, world
      requires lo <= |world.entries|
    {
      && (forall k :: lo <= k < |world.entries| ==> Priced(world.entries[k], intent, parent, quote, repriced))
      && (|world.entries| == lo + 2 ==> repriced.Some? && Near(quote, repriced.value, protectionBps) && Replaces(lo, intent))
    }

    /** The second child asks for what the first one, now terminal, left open. */
    ghost predicate Replaces(lo: nat, intent: Intent)
      reads world
      requires |world.entries| == lo + 2
    {
      && world.entries[lo].id in world.truth
      && var first := world.truth[world.entries[lo].id];
         first.terminal && SizedAs(world.entries[lo + 1].quantity, intent.symbol, intent.quantity - first.filled)
    }

    /** The reading at `k` left the protection of what this submission filled in doubt. */
    ghost predicate ProtectionDoubtedAt(k: nat, filled: real, emergency: real, intent: Intent, quote: Quote, parent: string,
                                        before: map<string, Stop>, lo: nat, from: nat)
      reads this, world
      requires world.Valid() && lo <= |world.entries|
    {
      && Early(world.journal, from, k) && IsReading(world.journal[k], intent.symbol)
      && filled > 0.0 && FilledFrom(lo) <= filled
      && emergency == Stake(BasisRead(k, intent, filled, before), filled)
      && InstallDoubted(BasisRead(k, intent, filled, before), intent, parent, quote.last, before, k)
    }

    ghost predicate ProtectionDoubted(emergency: real, intent: Intent, quote: Quote, parent: string,
                                      before: map<string, Stop>, lo: nat, from: nat)
      reads this, world
      requires world.Valid() && lo <= |world.entries|
    {
      exists k: nat, filled :: ProtectionDoubtedAt(k, filled, emergency, intent, quote, parent, before, lo, from)
    }

    /** An entry fails closed only over an order in doubt or a protection in doubt. */
    ghost predicate EntryGrounds(outcome: Outcome, intent: Intent, quote: Quote, parent: string, before: map<string, Stop>,
                                 lo: nat, from: nat)
      reads this, world
      requires world.Valid() && lo <= |world.entries|
    {
      outcome.Unresolved? ==>
        || ChildDoubted(intent.symbol, parent, outcome.emergency, from)
        || ProtectionDoubted(outcome.emergency, intent, quote, parent, before, lo, from)
    }

    ghost predicate IsReading(call: Call, symbol: string) { call.PositionRead? && call.symbol == symbol }

    /** How an entry submission may end. */
    ghost predicate EntryEnd(outcome: Outcome, intent: Intent, quote: Quote, parent: string, before: map<string, Stop>,
                             lo: nat, from: nat, heard: nat)
      reads this, world
      requires world.Valid() && lo <= |world.entries|
    {
      && Escape(world.signals, heard, quote) == UnguardedCause(Some(outcome))
      && match outcome
         case Done(s) =>
           && !uncertain && FilledFrom(lo) <= s.filled
           && (|world.entries| == lo + s.attempts ==> FilledFrom(lo) == s.filled)
           && s.status in {Filled, PartiallyFilled, Canceled}
           && (s.status == Filled <==> s.filled >= intent.quantity - DUST)
           && (s.status == PartiallyFilled <==> 0.0 < s.filled < intent.quantity - DUST)
           && (s.filled > 0.0 ==> EntryGuarded(s, intent, parent, quote.last, before, from))
           && (s.filled <= 0.0 ==> s.stop == None && tracked == before)
         case Unresolved(_, _) => FailedClosed(outcome, intent, from)
         case AccountUnresolved => false
         case Raised(cause) =>
           && !uncertain && cause != ExitRejected
           && tracked == (if cause == NormalizerFailed then before - {intent.symbol} else before)
           && (cause == NotAllowed ==> |world.entries| == lo)
           && (cause == RecheckFailed ==> FilledFrom(lo) <= 0.0)
           && (cause == NormalizerFailed ==> StopRefused(intent, quote, before, from))
    }

    /** The last signal is the refused stop of this entry, sized by a reading of the position. */
    ghost predicate StopRefused(intent: Intent, quote: Quote, before: map<string, Stop>, from: nat)
      reads world
    {
      && |world.signals| > 0
      && var last := world.signals[|world.signals| - 1];
         && last.StopNormalized? && last.symbol == intent.symbol && last.trigger == TriggerOf(intent, quote.last)
         && last.quantity > DUST
         && exists k, filled :: from <= k < |world.journal| && BasisRead(k, intent, filled, before) == Some(last.quantity)
    }

    /** The exception such a submission ends with. */
    ghost predicate StagedOutcome(outcome: Outcome, intent: Intent, quote: Quote, unfit: bool) {
      match StagedRefresh(quote)
      case Abort(cause) => outcome == Raised(cause)
      case _ => unfit ==> outcome == Raised(NormalizerFailed)
    }

    /** `_submit_entry`. */
    method SubmitEntry(intent: Intent, quote: Quote, parent: string, ghost from: nat, ghost heard: nat)
      returns (outcome: Outcome)
      requires Core() && !uncertain && StaticOk() && AllTerminal(world.entries, world.truth)
      requires from <= |world.journal| && OnlyChecked(heard) && |world.signals| <= heard + 1
      modifies world, `uncertain, `tracked
      ensures Valid() && old(world.journal) <= world.journal && old(world.entries) <= world.entries
      ensures Bounded(intent, quote, parent, |old(world.entries)|)
      ensures EntryEnd(outcome, intent, quote, parent, old(tracked), |old(world.entries)|, from, heard)
      ensures EntryGrounds(outcome, intent, quote, parent, old(tracked), |old(world.entries)|, from)
      ensures world.Willing() ==> outcome != Raised(NotAllowed)
      ensures old(Staged(intent, quote, parent)) ==>
                && StagedOutcome(outcome, intent, quote, old(Unfit(intent, quote.last, world.FirstFill())))
                && FilledFrom(|old(world.entries)|) == world.FirstFill()
    {
      var p := RunEntries(intent, quote, parent, from, heard);
      if p.failure.Some? { return p.failure.value; }
      outcome := FinishEntry(p, intent, quote, parent, |old(world.entries)|, from, heard);
    }

    /** The rest of `_submit_entry`: protect what was filled. */
    method FinishEntry(p: Progress, intent: Intent, quote: Quote, parent: string, ghost lo: nat, ghost from: nat,
                       ghost heard: nat)
      returns (outcome: Outcome)
      requires Running(p, intent, quote, parent, lo, from, heard) && p.failure.None? && StaticOk()
      requires Bounded(intent, quote, parent, lo)
      modifies world, `uncertain, `tracked
      ensures Valid() && old(world.journal) <= world.journal && world.entries == old(world.entries)
      ensures Bounded(intent, quote, parent, lo)
      ensures EntryEnd(outcome, intent, quote, parent, old(tracked), lo, from, heard)
      ensures EntryGrounds(outcome, intent, quote, parent, old(tracked), lo, from) && outcome != Raised(NotAllowed)
      ensures p.total > 0.0 && old(Unfit(intent, quote.last, p.total)) ==> outcome == Raised(NormalizerFailed)
      ensures FilledFrom(lo) == old(FilledFrom(lo))
    {
      if p.total > 0.0 {
        outcome := FinishBounded(p, intent, quote, parent, lo, from, heard);
      } else {
        outcome := Done(Submission(EntryStatus(p.total, intent.quantity), p.total, None, p.attempts));
      }
    }

    /** The part of it after a fill: protection opens nothing, so the exposure of the submission stays what it was. */
    method FinishBounded(p: Progress, intent: Intent, quote: Quote, parent: string, ghost lo: nat, ghost from: nat,
                         ghost heard: nat)
      returns (outcome: Outcome)
      requires Core() && !uncertain && AllTerminal(world.entries, world.truth) && StaticOk() && p.total > 0.0
      requires from <= |world.journal| && heard <= |world.signals| && Escape(world.signals, heard, quote).None?
      requires lo <= |world.entries| && FilledFrom(lo) <= p.total
      requires |world.entries| == lo + p.attempts ==> FilledFrom(lo) == p.total
      requires Bounded(intent, quote, parent, lo)
      modifies world, `uncertain, `tracked
      ensures Valid() && old(world.journal) <= world.journal && world.entries == old(world.entries)
      ensures Bounded(intent, quote, parent, lo)
      ensures EntryEnd(outcome, intent, quote, parent, old(tracked), lo, from, heard)
      ensures EntryGrounds(outcome, intent, quote, parent, old(tracked), lo, from) && outcome != Raised(NotAllowed)
      ensures old(Unfit(intent, quote.last, p.total)) ==> outcome == Raised(NormalizerFailed)
      ensures FilledFrom(lo) == old(FilledFrom(lo))
    {
      ghost var repriced, first := WhatWasSent(intent, quote, parent, lo);
      outcome := FinishFilled(p, intent, quote, parent, lo, from, heard);
      BoundedAgain(old(world.past), first, intent, quote, parent, lo, repriced);
    }

    /** What it does there: protect what was filled. */
    method FinishFilled(p: Progress, intent: Intent, quote: Quote, parent: string, ghost lo: nat, ghost from: nat,
                        ghost heard: nat)
      returns (outcome: Outcome)
      requires Core() && !uncertain && AllTerminal(world.entries, world.truth) && StaticOk() && p.total > 0.0
      requires from <= |world.journal| && heard <= |world.signals| && Escape(world.signals, heard, quote).None?
      requires lo <= |world.entries| && FilledFrom(lo) <= p.total
      requires |world.entries| == lo + p.attempts ==> FilledFrom(lo) == p.total
      modifies world, `uncertain, `tracked
      ensures Core() && old(world.journal) <= world.journal && world.Passed()
      ensures EntryEnd(outcome, intent, quote, parent, old(tracked), lo, from, heard)
      ensures EntryGrounds(outcome, intent, quote, parent, old(tracked), lo, from) && outcome != Raised(NotAllowed)
      ensures old(Unfit(intent, quote.last, p.total)) ==> outcome == Raised(NormalizerFailed)
    {
      ghost var mid, signals := |world.journal|, world.signals;
      OpenLatchIsCalm(from);
      var stop, failure;
      ghost var reading;
      stop, failure, reading := InstallHeard(intent, quote, parent, p.total, from, heard);
      outcome := if failure.Some? then failure.value
                 else Done(Submission(EntryStatus(p.total, intent.quantity), p.total, stop, p.attempts));
      StillFilled(old(world.past), p.total, p.attempts, lo);
      FilledEnd(stop, failure, intent, quote, parent, p.total, p.attempts, reading, old(tracked), lo, from, mid, heard, signals);
    }

    /** The protection step together with what the signals say of it. */
    method InstallHeard(intent: Intent, quote: Quote, parent: string, filled: real, ghost from: nat, ghost heard: nat)
      returns (stop: Option<Stop>, failure: Option<Outcome>, ghost reading: Option<real>)
      requires Core() && !uncertain && filled > 0.0
      requires from <= |world.journal| && heard <= |world.signals| && Escape(world.signals, heard, quote).None?
      modifies world, `uncertain, `tracked
      ensures Core() && Held() && Calm(world.journal, |old(world.journal)|, |old(world.journal)| + 1)
      ensures old(world.journal) + [PositionRead(intent.symbol, reading)] <= world.journal
      ensures old(Unfit(intent, quote.last, filled)) ==> failure == Some(Raised(NormalizerFailed))
      ensures Escape(world.signals, heard, quote) ==
              (if failure == Some(Raised(NormalizerFailed)) then Some(NormalizerFailed) else None)
      ensures stop.Some? <==> failure.None?
      ensures stop.Some? ==>
                 && !uncertain && BasisRead(|old(world.journal)|, intent, filled, old(tracked)).Some?
                 && var basis := BasisRead(|old(world.journal)|, intent, filled, old(tracked));
                    Replaced(stop.value, EntryStop(intent, parent, quote.last, basis.value), old(tracked), from)
      ensures failure.Some? ==>
                 if failure == Some(Raised(NormalizerFailed)) then
                   && !uncertain && tracked == old(tracked) - {intent.symbol}
                   && var basis := BasisRead(|old(world.journal)|, intent, filled, old(tracked));
                      && basis.Some? && basis.value > DUST
                      && exists reachable ::
                           world.signals == old(world.signals) +
                             [StopNormalized(intent.symbol, basis.value, TriggerOf(intent, quote.last), reachable, false)]
                 else
                   && FailedClosed(failure.value, intent, from)
                   && var basis := BasisRead(|old(world.journal)|, intent, filled, old(tracked));
                      && failure.value.emergency == Stake(basis, filled)
                      && InstallDoubted(basis, intent, parent, quote.last, old(tracked), |old(world.journal)|)
    {
      ghost var signals := world.signals;
      stop, failure, reading := InstallProtection(intent, parent, quote.last, filled, from);
      FiltersEscape(signals, world.signals, heard, quote, failure == Some(Raised(NormalizerFailed)));
      assert world.journal[|old(world.journal)|] == PositionRead(intent.symbol, reading);
    }

    /** Fills of terminal orders stay what they were. */
    lemma StillFilled(earlier: seq<map<string, Truth>>, filled: real, attempts: nat, lo: nat)
      requires world.Valid() && earlier != [] && earlier <= world.past && lo <= |world.entries|
      requires var before := earlier[|earlier| - 1];
               && AllTerminal(world.entries, before) && AllValid(before)
               && FilledTotal(world.entries, lo, |world.entries|, before) <= filled
               && (|world.entries| == lo + attempts ==> FilledTotal(world.entries, lo, |world.entries|, before) == filled)
      ensures AllTerminal(world.entries, world.truth)
      ensures FilledFrom(lo) == FilledTotal(world.entries, lo, |world.entries|, earlier[|earlier| - 1]) <= filled
      ensures |world.entries| == lo + attempts ==> FilledFrom(lo) == filled
    {
      world.Shrank(earlier, lo);
    }

    lemma FilledEnd(stop: Option<Stop>, failure: Option<Outcome>, intent: Intent, quote: Quote, parent: string, filled: real,
                    attempts: nat, reading: Option<real>, before: map<string, Stop>, lo: nat, from: nat, mid: nat, heard: nat,
                    signals: seq<Call>)
      requires Core() && lo <= |world.entries| && Early(world.journal, from, mid)
      requires world.journal[mid] == PositionRead(intent.symbol, reading)
      requires filled > 0.0 && FilledFrom(lo) <= filled && (|world.entries| == lo + attempts ==> FilledFrom(lo) == filled)
      requires Escape(world.signals, heard, quote) ==
               (if failure == Some(Raised(NormalizerFailed)) then Some(NormalizerFailed) else None)
      requires stop.Some? <==> failure.None?
      requires stop.Some? ==>
                 && !uncertain && BasisRead(mid, intent, filled, before).Some?
                 && Replaced(stop.value, EntryStop(intent, parent, quote.last, BasisRead(mid, intent, filled, before).value),
                             before, from)
      requires failure.Some? ==>
                 if failure == Some(Raised(NormalizerFailed)) then
                   && !uncertain && tracked == before - {intent.symbol}
                   && var basis := BasisRead(mid, intent, filled, before);
                      && basis.Some? && basis.value > DUST
                      && exists reachable ::
                           world.signals == signals +
                             [StopNormalized(intent.symbol, basis.value, TriggerOf(intent, quote.last), reachable, false)]
                 else
                   && FailedClosed(failure.value, intent, from)
                   && failure.value.emergency == Stake(BasisRead(mid, intent, filled, before), filled)
                   && InstallDoubted(BasisRead(mid, intent, filled, before), intent, parent, quote.last, before, mid)
      ensures var outcome := if failure.Some? then failure.value
                             else Done(Submission(EntryStatus(filled, intent.quantity), filled, stop, attempts));
              && EntryEnd(outcome, intent, quote, parent, before, lo, from, heard)
              && EntryGrounds(outcome, intent, quote, parent, before, lo, from) && outcome != Raised(NotAllowed)
    {
      if failure.Some? {
        UnprotectedEnd(failure.value, intent, quote, parent, filled, reading, before, lo, from, mid, heard, signals);
      } else {
        ProtectedEnd(stop.value, intent, quote, parent, filled, attempts, reading, before, lo, from, mid, heard);
      }
    }

    lemma ProtectedEnd(stop: Stop, intent: Intent, quote: Quote, parent: string, filled: real, attempts: nat,
                       reading: Option<real>, before: map<string, Stop>, lo: nat, from: nat, mid: nat, heard: nat)
      requires Core() && !uncertain && lo <= |world.entries| && from <= mid < |world.journal|
      requires world.journal[mid] == PositionRead(intent.symbol, reading)
      requires filled > 0.0 && FilledFrom(lo) <= filled && (|world.entries| == lo + attempts ==> FilledFrom(lo) == filled)
      requires Escape(world.signals, heard, quote).None?
      requires BasisRead(mid, intent, filled, before).Some?
      requires Replaced(stop, EntryStop(intent, parent, quote.last, BasisRead(mid, intent, filled, before).value), before, from)
      ensures var outcome := Done(Submission(EntryStatus(filled, intent.quantity), filled, Some(stop), attempts));
              && EntryEnd(outcome, intent, quote, parent, before, lo, from, heard)
              && EntryGrounds(outcome, intent, quote, parent, before, lo, from)
    {
      GuardFromReading(stop, intent, quote, parent, filled, attempts, reading, before, from, mid);
    }

    lemma UnprotectedEnd(outcome: Outcome, intent: Intent, quote: Quote, parent: string, filled: real, reading: Option<real>,
                         before: map<string, Stop>, lo: nat, from: nat, mid: nat, heard: nat, signals: seq<Call>)
      requires Core() && lo <= |world.entries| && Early(world.journal, from, mid)
      requires world.journal[mid] == PositionRead(intent.symbol, reading)
      requires filled > 0.0 && FilledFrom(lo) <= filled
      requires Escape(world.signals, heard, quote) ==
               (if outcome == Raised(NormalizerFailed) then Some(NormalizerFailed) else None)
      requires if outcome == Raised(NormalizerFailed) then
                 && !uncertain && tracked == before - {intent.symbol}
                 && var basis := BasisRead(mid, intent, filled, before);
                    && basis.Some? && basis.value > DUST
                    && exists reachable ::
                         world.signals == signals +
                           [StopNormalized(intent.symbol, basis.value, TriggerOf(intent, quote.last), reachable, false)]
               else
                 && FailedClosed(outcome, intent, from)
                 && outcome.emergency == Stake(BasisRead(mid, intent, filled, before), filled)
                 && InstallDoubted(BasisRead(mid, intent, filled, before), intent, parent, quote.last, before, mid)
      ensures EntryEnd(outcome, intent, quote, parent, before, lo, from, heard)
      ensures EntryGrounds(outcome, intent, quote, parent, before, lo, from) && outcome != Raised(NotAllowed)
    {
      RefusalFromReading(outcome, intent, quote, parent, filled, reading, before, from, mid, signals);
      if outcome.Unresolved? {
        assert ProtectionDoubtedAt(mid, filled, outcome.emergency, intent, quote, parent, before, lo, from);
      }
    }

    lemma RefusalFromReading(failure: Outcome, intent: Intent, quote: Quote, parent: string, filled: real,
                             reading: Option<real>, before: map<string, Stop>, from: nat, mid: nat, signals: seq<Call>)
      requires world.Valid() && from <= mid < |world.journal|
      requires world.journal[mid] == PositionRead(intent.symbol, reading)
      requires failure == Raised(NormalizerFailed) ==>
                 var basis := BasisRead(mid, intent, filled, before);
                 && basis.Some? && basis.value > DUST
                 && exists reachable ::
                      world.signals == signals +
                        [StopNormalized(intent.symbol, basis.value, TriggerOf(intent, quote.last), reachable, false)]
      ensures failure == Raised(NormalizerFailed) ==> StopRefused(intent, quote, before, from)
    {
    }

    /** What the first child of a submission has filled. */
    ghost function FirstFilled(lo: nat): real
      reads world
    {
      if lo < |world.entries| && world.entries[lo].id in world.truth then world.truth[world.entries[lo].id].filled else 0.0
    }

    lemma WhatWasSent(intent: Intent, quote: Quote, parent: string, lo: nat) returns (repriced: Option<Quote>, first: real)
      requires Bounded(intent, quote, parent, lo)
      ensures first == FirstFilled(lo)
      ensures forall k :: lo <= k < |world.entries| ==> Priced(world.entries[k], intent, parent, quote, repriced)
      ensures |world.entries| == lo + 2 ==>
                 && repriced.Some? && Near(quote, repriced.value, protectionBps)
                 && SizedAs(world.entries[lo + 1].quantity, intent.symbol, intent.quantity - first)
    {
      repriced :| Shaped(intent, quote, parent, lo, repriced);
      first := FirstFilled(lo);
    }

    lemma BoundedAgain(earlier: seq<map<string, Truth>>, first: real, intent: Intent, quote: Quote, parent: string, lo: nat,
                       repriced: Option<Quote>)
      requires world.Valid() && earlier != [] && earlier <= world.past && lo <= |world.entries| <= lo + 2
      requires var before := earlier[|earlier| - 1];
               && AllTerminal(world.entries, before) && AllValid(before)
               && Exposure(world.entries, lo, |world.entries|, before) <= Max(intent.quantity, 0.0)
               && (lo < |world.entries| ==> first == before[world.entries[lo].id].filled)
      requires forall k :: lo <= k < |world.entries| ==> Priced(world.entries[k], intent, parent, quote, repriced)
      requires |world.entries| == lo + 2 ==>
                 && repriced.Some? && Near(quote, repriced.value, protectionBps)
                 && SizedAs(world.entries[lo + 1].quantity, intent.symbol, intent.quantity - first)
      ensures Bounded(intent, quote, parent, lo) && AllTerminal(world.entries, world.truth)
      ensures FilledFrom(lo) == FilledTotal(world.entries, lo, |world.entries|, earlier[|earlier| - 1])
    {
      world.Shrank(earlier, lo);
      world.Evolved(earlier);
      assert Shaped(intent, quote, parent, lo, repriced);
    }

    lemma GuardFromReading(stop: Stop, intent: Intent, quote: Quote, parent: string, filled: real, attempts: nat,
                           reading: Option<real>, before: map<string, Stop>, from: nat, mid: nat)
      requires world.Valid() && from <= mid < |world.journal|
      requires world.journal[mid] == PositionRead(intent.symbol, reading)
      requires BasisRead(mid, intent, filled, before).Some?
      requires Replaced(stop, EntryStop(intent, parent, quote.last, BasisRead(mid, intent, filled, before).value), before, from)
      ensures EntryGuarded(Submission(EntryStatus(filled, intent.quantity), filled, Some(stop), attempts), intent, parent,
                           quote.last, before, from)
    {
    }

    /** After an exit: the residual is re-protected at its new size, or nothing stays tracked. */
    ghost predicate ExitGuarded(stop: Option<Stop>, symbol: string, residual: real, before: map<string, Stop>, from: nat)
      reads this, world
      requires world.Valid()
    {
      if residual > DUST then
        symbol in before && stop.Some?
        && Replaced(stop.value, before[symbol].(id := stop.value.id, quantity := residual), before, from)
      else
        stop == None && tracked == before - {symbol}
        && (symbol in before ==> StopEnded(world.journal, from, before[symbol].id))
    }

    /** The residual that the reading at `k` gives, when `k` is a reading of the position. */
    ghost function ResidualRead(k: nat, intent: Intent, executed: real, before: map<string, Stop>): (residual: Option<real>)
      reads world
      requires k < |world.journal|
      ensures residual.Some? ==> IsReading(world.journal[k], intent.symbol)
      ensures IsReading(world.journal[k], intent.symbol) ==>
                var flat := intent.action == Close && executed + DUST >= intent.quantity;
                && (world.journal[k].net.Some? ==> residual == world.journal[k].net)
                && (world.journal[k].net.None? && flat ==> residual == Some(0.0))
                && (world.journal[k].net.None? && !flat && intent.symbol in before ==>
                      residual == Some(Max(0.0, before[intent.symbol].quantity - executed)))
                && (world.journal[k].net.None? && !flat && intent.symbol !in before ==> residual == None)
    {
      var call := world.journal[k];
      if call.PositionRead? && call.symbol == intent.symbol then
        ExitBasis(call.net, intent, if intent.symbol in before then Some(before[intent.symbol]) else None, executed)
      else None
    }

    /** Why the residual could not be left as it is: unknown, without a stop to resize, or no sure swap or cancellation. */
    ghost predicate ResizeDoubted(residual: Option<real>, symbol: string, tracking: map<string, Stop>, from: nat)
      reads this, world
      requires world.Valid()
    {
      || residual.None?
      || (symbol !in tracking && residual.value > DUST)
      || (symbol in tracking && SwapDoubted(tracking, Resize(symbol, tracking[symbol], residual.value), from))
    }

    /** The reading at `k` left the residual in doubt. */
    ghost predicate ResidualDoubtedAt(k: nat, executed: real, emergency: real, intent: Intent, tracking: map<string, Stop>,
                                      from: nat)
      reads this, world
      requires world.Valid()
    {
      && Early(world.journal, from, k) && IsReading(world.journal[k], intent.symbol) && executed >= 0.0
      && var residual := ResidualRead(k, intent, executed, tracking);
         && ResizeDoubted(residual, intent.symbol, tracking, k)
         && emergency == if residual.Some? then residual.value else 0.0
    }

    ghost predicate ResidualDoubted(emergency: real, intent: Intent, tracking: map<string, Stop>, from: nat)
      reads this, world
      requires world.Valid()
    {
      exists k: nat, executed :: ResidualDoubtedAt(k, executed, emergency, intent, tracking, from)
    }

    /** An exit fails closed only over its order or its residual in doubt. */
    ghost predicate ExitGrounds(outcome: Outcome, intent: Intent, id: string, before: map<string, Stop>, from: nat)
      reads this, world
      requires world.Valid()
    {
      outcome.Unresolved? ==>
        || (DoubtedOrder(intent.symbol, id, from) && outcome.emergency == 0.0)
        || ResidualDoubted(outcome.emergency, intent, before, from)
    }

    /** How a reduce-only submission may end. */
    ghost predicate ExitEnd(outcome: Outcome, intent: Intent, before: map<string, Stop>, latched: bool, from: nat, heard: nat)
      reads this, world
      requires world.Valid()
    {
      && (outcome == Raised(NormalizerFailed) <==> Refusal(world.signals, heard))
      && match outcome
         case Done(s) =>
           && uncertain == latched && s.status.Terminal() && s.filled >= 0.0
           && exists k :: from <= k < |world.journal| && ResidualRead(k, intent, s.filled, before).Some?
                && ExitGuarded(s.stop, intent.symbol, ResidualRead(k, intent, s.filled, before).value, before, from)
                && (world.journal[k].net.Some? ==> ExitGuarded(s.stop, intent.symbol, world.journal[k].net.value, before, from))
         case Unresolved(_, _) => FailedClosed(outcome, intent, from)
         case AccountUnresolved => false
         case Raised(cause) =>
           && uncertain == latched && cause in {NotAllowed, ExitRejected, NormalizerFailed}
           && tracked == (if cause == NormalizerFailed then before - {intent.symbol} else before)
           && (cause == NormalizerFailed ==> intent.symbol in before && ResizeRefused(intent.symbol, before[intent.symbol]))
    }

    /** The last signal is a refused stop with the side and trigger of the old one. */
    ghost predicate ResizeRefused(symbol: string, stop: Stop)
      reads world
    {
      && |world.signals| > 0
      && var last := world.signals[|world.signals| - 1];
         last.StopNormalized? && last.symbol == symbol && last.trigger == stop.trigger && last.quantity > DUST
    }

    /** The old stop, cut to the residual. */
    function Resize(symbol: string, active: Stop, residual: real): Stop {
      Stop(symbol, ReplacementId(digest, active.id, residual), active.side, active.trigger, residual)
    }

    /** The exchange cancels every stop, and the filters refuse the tracked one at its new size. */
    ghost predicate ResizeUnfit(symbol: string, residual: real)
      reads this, world
      requires world.Valid() && symbol in tracked
    {
      && world.EndsStops() && residual > DUST
      && StopSize(world.rules, symbol, residual, tracked[symbol].trigger).None?
    }

    /** The exchange fills a part of the exit and hides the position, and the stop cannot be resized. */
    ghost predicate ExitStaged(intent: Intent)
      reads this, world
      requires world.Valid()
    {
      && StaticOk() && world.truth == map[] && world.FillsAlways() && world.FirstFill() >= 0.0 && world.HidesPosition()
      && intent.symbol in tracked
      && var residual := ExitBasis(None, intent, Some(tracked[intent.symbol]), world.FirstFill());
         residual.Some? && ResizeUnfit(intent.symbol, residual.value)
    }

    /** The protection step of `_submit_exit`. */
    method ResizeProtection(intent: Intent, parent: string, residual: real, ghost from: nat)
      returns (stop: Option<Stop>, failure: Option<Outcome>)
      requires Core()
      requires from <= |world.journal|
      modifies world, `uncertain, `tracked
      ensures Core() && Held()
      ensures if residual > DUST && intent.symbol in old(tracked)
              then Sized(Resize(intent.symbol, old(tracked)[intent.symbol], residual), failure)
              else failure != Some(Raised(NormalizerFailed)) && world.signals == old(world.signals)
      ensures intent.symbol in old(tracked) && old(ResizeUnfit(intent.symbol, residual)) ==>
                failure == Some(Raised(NormalizerFailed))
      ensures failure.None? ==>
                && uncertain == old(uncertain)
                && ExitGuarded(stop, intent.symbol, residual, old(tracked), from)
      ensures failure.Some? ==>
                if failure == Some(Raised(NormalizerFailed)) then
                  uncertain == old(uncertain) && tracked == old(tracked) - {intent.symbol}
                else
                  && FailedClosed(failure.value, intent, from) && failure.value.emergency == residual
                  && ResizeDoubted(Some(residual), intent.symbol, old(tracked), |old(world.journal)|)
    {
      stop, failure := None, None;
      if residual > DUST && intent.symbol in tracked {
        var order := Resize(intent.symbol, tracked[intent.symbol], residual);
        stop, failure := SwapProtection(intent, parent, order, from);
        return;
      }
      ghost var at := |world.journal|;
      var ended := DropProtection(intent.symbol, from);
      if !ended || residual > DUST {
        ghost var dropped := world.journal;
        var outcome := RaiseUnresolved(intent, parent, residual, from);
        failure := Some(outcome);
        if !ended {
          SwapDoubtedStays(dropped, old(tracked), Resize(intent.symbol, old(tracked)[intent.symbol], residual), at, at,
                           |dropped| - 1);
        }
      }
    }

    /** `_submit_exit` up to the terminal status of the reduce-only order. */
    method PlaceExit(intent: Intent, id: string, ghost from: nat) returns (observed: Observed, failure: Option<Outcome>)
      requires Core() && StaticOk()
      requires from <= |world.journal| && Calm(world.journal, from, |world.journal|)
      modifies world, `uncertain
      ensures Core() && Kept() && observed.executed >= 0.0
      ensures failure.None? ==>
                && uncertain == old(uncertain) && observed.status.Terminal()
                && CloseTried(world.journal, from, intent.symbol, EntrySide(intent), intent.quantity)
                && Told(world.journal, from, id, Report(observed.status, observed.executed))
      ensures failure.Some? ==>
                if failure == Some(Raised(ExitRejected)) then uncertain == old(uncertain)
                else
                  && FailedClosed(failure.value, intent, from) && failure.value.emergency == 0.0
                  && DoubtedOrder(intent.symbol, id, from)
      ensures world.FillsAlways() && world.FirstFill() >= 0.0 && old(world.truth) == map[] ==>
                failure.None? && observed == Observed(id, world.FirstFill(), Filled)
      ensures failure.None? ==> Calm(world.journal, from, |world.journal|)
    {
      failure := None;
      ghost var mid := |world.journal|;
      var placed, answer := SendExit(intent, id);
      CloseTriedFromEarlier(world.journal, from, mid, intent.symbol, EntrySide(intent), intent.quantity);
      observed := answer;
      if !placed { return observed, Some(Raised(ExitRejected)); }
      if observed.status.Terminal() {
        ToldStays(world.journal, world.journal, mid, from, id, Report(observed.status, observed.executed));
      }
      if !observed.status.Terminal() {
        ghost var read := world.journal;
        assert Early(read, from, |read| - 1);
        var outcome := RaiseUnresolved(intent, id, 0.0, from);
        EarlyStays(read, world.journal, from, |read| - 1);
        failure := Some(outcome);
      }
    }

    /** The reduce-only order and, when its status is still open, one read. */
    method SendExit(intent: Intent, id: string) returns (placed: bool, observed: Observed)
      requires Core() && StaticOk()
      modifies world
      ensures Core() && Kept() && observed.executed >= 0.0
      ensures world.FillsAlways() && world.FirstFill() >= 0.0 && old(world.truth) == map[] ==>
                placed && observed == Observed(id, world.FirstFill(), Filled)
      ensures Calm(world.journal, |old(world.journal)|, |world.journal|)
      ensures placed && !observed.status.Terminal() ==>
                && |world.journal| > |old(world.journal)|
                && OrderInDoubt(world.journal[|world.journal| - 1], intent.symbol, id)
      ensures placed && observed.status.Terminal() ==>
                && |world.journal| > |old(world.journal)|
                && Told(world.journal, |old(world.journal)|, id, Report(observed.status, observed.executed))
      ensures CloseTried(world.journal, |old(world.journal)|, intent.symbol, EntrySide(intent), intent.quantity)
    {
      observed := Observed(id, 0.0, Unknown);
      var report := SendClose(intent.symbol, EntrySide(intent), intent.quantity, id);
      placed := report.Some?;
      if placed {
        observed := Observed(id, report.value.executed, report.value.status);
        assert IsAnswer(world.journal[|world.journal| - 1], id, Report(observed.status, observed.executed));
        if !observed.status.Terminal() {
          ghost var before := world.journal;
          observed := QueryStandard(intent.symbol, id, observed);
          assert observed.status.Terminal() ==>
              IsAnswer(world.journal[|world.journal| - 1], id, Report(observed.status, observed.executed));
          CloseTriedStays(before, world.journal, |old(world.journal)|, intent.symbol, EntrySide(intent), intent.quantity);
        }
      }
    }

    /** The residual after a terminal exit order, from the position or the tracked stop. */
    method ReadResidual(intent: Intent, executed: real) returns (basis: Option<real>)
      requires Core()
      modifies world`journal, world`truth, world`past, world`tick
      ensures Core() && Kept() && |world.journal| == |old(world.journal)| + 1
      ensures world.HidesPosition() ==> basis == ExitBasis(None, intent, Active(intent.symbol), executed)
      ensures IsReading(world.journal[|old(world.journal)|], intent.symbol)
      ensures ResidualRead(|old(world.journal)|, intent, executed, tracked) == basis
    {
      var position := world.ReadPosition(intent.symbol);
      basis := ExitBasis(position, intent, Active(intent.symbol), executed);
    }

    /** `_submit_exit` after the order is terminal: size the residual, then its protection. */
    method FinishExit(intent: Intent, id: string, observed: Observed, ghost from: nat) returns (outcome: Outcome)
      requires Core() && observed.status.Terminal() && observed.executed >= 0.0
      requires from <= |world.journal| && Calm(world.journal, from, |world.journal|)
      modifies world, `uncertain, `tracked
      ensures Core() && Held()
      ensures ExitEnd(outcome, intent, old(tracked), old(uncertain), from, |old(world.signals)|)
      ensures ExitGrounds(outcome, intent, id, old(tracked), from) && outcome != Raised(NotAllowed)
      ensures outcome.Done? ==> outcome.submission.status == observed.status && outcome.submission.filled == observed.executed
      ensures world.HidesPosition() && intent.symbol in old(tracked)
              && (var residual := ExitBasis(None, intent, old(Active(intent.symbol)), observed.executed);
                  residual.Some? && old(ResizeUnfit(intent.symbol, residual.value))) ==>
                outcome == Raised(NormalizerFailed)
    {
      ghost var at := |world.journal|;
      var basis := ReadResidual(intent, observed.executed);
      if basis.None? {
        outcome := RaiseUnresolved(intent, id, 0.0, from);
        assert ResidualDoubtedAt(at, observed.executed, 0.0, intent, old(tracked), from);
      } else {
        outcome := FinishResidual(intent, id, observed, basis.value, from, at);
      }
    }

    /** The rest of it, once the residual is known from the reading at `at`. */
    method FinishResidual(intent: Intent, id: string, observed: Observed, residual: real, ghost from: nat, ghost at: nat)
      returns (outcome: Outcome)
      requires Core() && observed.status.Terminal() && observed.executed >= 0.0
      requires Early(world.journal, from, at) && at + 1 == |world.journal| && IsReading(world.journal[at], intent.symbol)
      requires ResidualRead(at, intent, observed.executed, tracked) == Some(residual)
      modifies world, `uncertain, `tracked
      ensures Core() && Held()
      ensures ExitEnd(outcome, intent, old(tracked), old(uncertain), from, |old(world.signals)|)
      ensures ExitGrounds(outcome, intent, id, old(tracked), from) && outcome != Raised(NotAllowed)
      ensures outcome.Done? ==> outcome.submission.status == observed.status && outcome.submission.filled == observed.executed
      ensures intent.symbol in old(tracked) && old(ResizeUnfit(intent.symbol, residual)) ==> outcome == Raised(NormalizerFailed)
    {
      ghost var signals := world.signals;
      var stop, failure := ResizeProtection(intent, id, residual, from);
      if failure.Some? {
        outcome := failure.value;
        ResizeFailedEnd(outcome, intent, id, observed.executed, residual, old(tracked), old(uncertain), from, at, signals);
      } else {
        assert ResidualRead(at, intent, observed.executed, old(tracked)) == Some(residual);
        outcome := Done(Submission(observed.status, observed.executed, stop, 1));
      }
    }

    lemma ResizeFailedEnd(outcome: Outcome, intent: Intent, id: string, executed: real, residual: real,
                          before: map<string, Stop>, latched: bool, from: nat, at: nat, signals: seq<Call>)
      requires Core() && Early(world.journal, from, at) && IsReading(world.journal[at], intent.symbol) && executed >= 0.0
      requires ResidualRead(at, intent, executed, before) == Some(residual)
      requires if outcome == Raised(NormalizerFailed) then
                 && uncertain == latched && tracked == before - {intent.symbol} && intent.symbol in before && residual > DUST
                 && exists reachable ::
                      world.signals == signals +
                        [StopNormalized(intent.symbol, residual, before[intent.symbol].trigger, reachable, false)]
               else
                 && FailedClosed(outcome, intent, from) && outcome.emergency == residual
                 && ResizeDoubted(Some(residual), intent.symbol, before, at + 1)
                 && (world.signals == signals || (|world.signals| == |signals| + 1 && world.signals[|signals|].StopNormalized?
                                                  && world.signals[|signals|].accepted))
      ensures ExitEnd(outcome, intent, before, latched, from, |signals|)
      ensures ExitGrounds(outcome, intent, id, before, from) && outcome != Raised(NotAllowed)
    {
      if outcome.Unresolved? {
        ResizeDoubtedEarlier(Some(residual), intent.symbol, before, at, at + 1);
        assert ResidualDoubtedAt(at, executed, residual, intent, before, from);
      }
    }

    lemma ResizeDoubtedEarlier(residual: Option<real>, symbol: string, tracking: map<string, Stop>, from: nat, at: nat)
      requires world.Valid() && from <= at && Calm(world.journal, from, at) && ResizeDoubted(residual, symbol, tracking, at)
      ensures ResizeDoubted(residual, symbol, tracking, from)
    {
      if residual.Some? && symbol in tracking {
        SwapDoubtedEarlier(tracking, Resize(symbol, tracking[symbol], residual.value), from, at);
      }
    }

    /** `_submit_exit`. */
    method SubmitExit(intent: Intent, id: string, ghost from: nat) returns (outcome: Outcome)
      requires Core() && StaticOk()
      requires from <= |world.journal| && Calm(world.journal, from, |world.journal|)
      modifies world, `uncertain, `tracked
      ensures Core() && Held()
      ensures ExitEnd(outcome, intent, old(tracked), old(uncertain), from, |old(world.signals)|)
      ensures ExitGrounds(outcome, intent, id, old(tracked), from) && outcome != Raised(NotAllowed)
      ensures old(ExitStaged(intent)) ==> outcome == Raised(NormalizerFailed)
      ensures outcome.Done? ==>
                ExitSent(intent, id, outcome.submission, from)
    {
      var observed, failure := PlaceExit(intent, id, from);
      if failure.Some? { return failure.value; }
      ghost var placed := world.journal;
      outcome := FinishExit(intent, id, observed, from);
      CloseTriedStays(placed, world.journal, from, intent.symbol, EntrySide(intent), intent.quantity);
      ToldStays(placed, world.journal, from, from, id, Report(observed.status, observed.executed));
    }

    /** The reduce-only order went out for the intent, and status and fill are those of an answer to it. */
    ghost predicate ExitSent(intent: Intent, id: string, s: Submission, from: nat)
      reads world
    {
      && CloseTried(world.journal, from, intent.symbol, if intent.side == Some(Sell) then Sell else Buy, intent.quantity)
      && Told(world.journal, from, id, Report(s.status, s.filled))
    }

    /** Everything one submission may do, whichever way it ends. */
    ghost predicate SubmissionEnd(outcome: Outcome, intent: Intent, quote: Quote, parent: string,
                                  before: map<string, Stop>, latched: bool, lo: nat, from: nat, heard: nat)
      reads this, world
      requires world.Valid() && lo <= |world.entries|
    {
      if intent.reduceOnly then
        && |world.entries| == lo && ExitEnd(outcome, intent, before, latched, from, heard)
        && ExitGrounds(outcome, intent, parent, before, from)
        && (outcome.Done? ==>
              ExitSent(intent, parent, outcome.submission, from))
      else if latched then
        |world.entries| == lo && outcome == Raised(NotAllowed) && tracked == before
      else
        && Bounded(intent, quote, parent, lo) && EntryEnd(outcome, intent, quote, parent, before, lo, from, heard)
        && EntryGrounds(outcome, intent, quote, parent, before, lo, from)
    }

    /** `submit`. */
    method Submit(intent: Intent, quote: Quote, parent: string) returns (outcome: Outcome)
      requires Valid()
      modifies this, world
      ensures Valid() && old(world.journal) <= world.journal && old(world.entries) <= world.entries
      ensures old(uncertain) ==> uncertain
      ensures |world.entries| > |old(world.entries)| ==> modeConfigured && intent.symbol in configuredSymbols
      ensures SubmissionEnd(outcome, intent, quote, parent, old(tracked), old(uncertain),
                            |old(world.entries)|, |old(world.journal)|, |old(world.signals)|)
      ensures !intent.reduceOnly && old(Staged(intent, quote, parent)) ==>
                && StagedOutcome(outcome, intent, quote, old(Unfit(intent, quote.last, world.FirstFill())))
                && FilledFrom(|old(world.entries)|) == world.FirstFill()
      ensures intent.reduceOnly && old(ExitStaged(intent)) ==> outcome == Raised(NormalizerFailed)
      ensures StaticOk() && outcome == Raised(NotAllowed) ==> !intent.reduceOnly && (old(uncertain) || !world.Willing())
    {
      ghost var lo, from := |world.entries|, |world.journal|;
      var ok := Authorize(intent.reduceOnly);
      if !ok {
        EmptyIsBounded(intent, quote, parent);
        StillSettled(old(world.past));
        return Raised(NotAllowed);
      }
      if intent.reduceOnly {
        outcome := SubmitReducing(intent, quote, parent, lo, from, old(world.past));
      } else {
        outcome := SubmitOpening(intent, quote, parent, lo, from, |old(world.signals)|, old(world.past));
      }
    }

    /** The rest of `submit` for an order that only reduces. */
    method SubmitReducing(intent: Intent, quote: Quote, parent: string, ghost lo: nat, ghost from: nat,
                          ghost past: seq<map<string, Truth>>)
      returns (outcome: Outcome)
      requires Core() && StaticOk() && intent.reduceOnly && lo == |world.entries|
      requires from <= |world.journal| && Calm(world.journal, from, |world.journal|)
      requires past != [] && past <= world.past && (!uncertain ==> AllTerminal(world.entries, past[|past| - 1]))
      modifies this, world
      ensures Valid() && old(world.journal) <= world.journal && world.entries == old(world.entries)
      ensures old(uncertain) ==> uncertain
      ensures SubmissionEnd(outcome, intent, quote, parent, old(tracked), old(uncertain), lo, from, |old(world.signals)|)
      ensures old(ExitStaged(intent)) ==> outcome == Raised(NormalizerFailed)
      ensures outcome != Raised(NotAllowed)
    {
      outcome := SubmitExit(intent, parent, from);
      StillSettled(past);
    }

    /** The rest of `submit` for an order that opens exposure. */
    method SubmitOpening(intent: Intent, quote: Quote, parent: string, ghost lo: nat, ghost from: nat, ghost heard: nat,
                         ghost past: seq<map<string, Truth>>)
      returns (outcome: Outcome)
      requires Core() && !intent.reduceOnly && lo == |world.entries| && from <= |world.journal| && heard == |world.signals|
      requires past != [] && past <= world.past && (!uncertain ==> AllTerminal(world.entries, past[|past| - 1]))
      modifies this, world
      ensures Valid() && old(world.journal) <= world.journal && old(world.entries) <= world.entries
      ensures old(uncertain) ==> uncertain
      ensures |world.entries| > lo ==> modeConfigured && intent.symbol in configuredSymbols
      ensures SubmissionEnd(outcome, intent, quote, parent, old(tracked), old(uncertain), lo, from, heard)
      ensures old(Staged(intent, quote, parent)) ==>
                && StagedOutcome(outcome, intent, quote, old(Unfit(intent, quote.last, world.FirstFill())))
                && FilledFrom(lo) == world.FirstFill()
      ensures StaticOk() && outcome == Raised(NotAllowed) ==> old(uncertain) || !world.Willing()
    {
      if uncertain { return Raised(NotAllowed); }
      var ok := PrepareEntry(intent, quote);
      if !ok {
        EmptyIsBounded(intent, quote, parent);
        StillSettled(past);
        return Raised(NotAllowed);
      }
      world.StillTerminal(past);
      outcome := SubmitEntry(intent, quote, parent, from, heard);
    }

    /** What forces the exception, in terms of the last signal and the quote handed to `submit`. */
    ghost predicate Blocked(heard: nat, quote: Quote)
      reads world
      requires world.Valid()
    {
      && |world.signals| > heard
      && var last := world.signals[|world.signals| - 1];
         || (last.QuoteRead? && last.quote.None?)
         || (quote.last == 0.0 && Rechecked(world.signals, heard))
         || (last.StopNormalized? &&
               (!last.reachable || StopSize(world.rules, last.symbol, last.quantity, last.trigger).None?))
    }

    /** A verified stop covers the position, or the submission failed closed. */
    ghost predicate Covered(outcome: Outcome, intent: Intent, quote: Quote, parent: string, before: map<string, Stop>, from: nat)
      reads this, world
      requires world.Valid()
    {
      || (outcome.Done? && EntryGuarded(outcome.submission, intent, parent, quote.last, before, from))
      || FailedClosed(outcome, intent, from)
    }

    /**
     * An entry that was filled ends covered exactly when nothing outside the try blocks failed: the quote provider
     * answered, the quote handed to `submit` has a last price, and the filters accept the stop.
     */
    lemma FillIsCoveredIff(outcome: Outcome, intent: Intent, quote: Quote, parent: string, before: map<string, Stop>,
                           lo: nat, from: nat, heard: nat)
      requires world.Valid() && lo <= |world.entries| && EntryEnd(outcome, intent, quote, parent, before, lo, from, heard)
      requires FilledFrom(lo) > 0.0
      ensures Covered(outcome, intent, quote, parent, before, from) <==> !Blocked(heard, quote)
      ensures outcome.Raised? <==> Blocked(heard, quote)
    {
      world.Written().LawfulParts();
      if |world.signals| > heard { assert Filtered(world.signals[|world.signals| - 1], world.rules); }
    }

    /** The entry check and the account configuration before the first child. */
    method PrepareEntry(intent: Intent, quote: Quote) returns (ok: bool)
      requires Core() && !uncertain
      modifies world, `modeConfigured, `configuredSymbols
      ensures Core() && Held() && Checked() && world.sent == old(world.sent)
      ensures ok ==> StaticOk() && modeConfigured && intent.symbol in configuredSymbols
      ensures StaticOk() && world.Willing() ==> ok
    {
      ok := AssertEntryState(quote);
      if ok { ok := ConfigureSymbol(intent.symbol); }
    }

    /**
     * One symbol after restart reconciliation. The known stops were read back from `at` on. A flat symbol tracks nothing;
     * for an open position the newest state that fits it is tracked as it was read, and if none fits, a new stop of the
     * size the exchange filters allow. All other known stops of the symbol were seen terminal.
     */
    ghost predicate SymbolSettled(journal: seq<Call>, from: nat, at: nat, state: Option<Stop>, symbol: string,
                                  signed: real, records: seq<Stop>)
      requires forall s :: s in world.rules ==> world.rules[s].Valid()
    {
      && from <= at && ReadBack(journal, at, records)
      && var states := StatesAt(journal, at, records);
         var kept := LastFit(states, signed);
         && AllEnded(journal, from, records, kept)
         && (if Abs(signed) <= DUST then state == None
             else if kept.Some? then state == Some(states[kept.value])
             else records != [] && state.Some?
                  && Resized(journal, from, state.value, symbol, signed, records[|records| - 1].trigger))
    }

    /** The stop was verified for the position and the trigger of the newest known stop, as the exchange filters round them. */
    ghost predicate Resized(journal: seq<Call>, from: nat, stop: Stop, symbol: string, signed: real, last: real)
      requires forall s :: s in world.rules ==> world.rules[s].Valid()
    {
      var size, trigger := world.Normalize(symbol, Abs(signed), true), world.NormalizePrice(symbol, last);
      && size.Some? && trigger.Some?
      && VerifiedSince(journal, from, stop,
                       Stop(symbol, stop.id, if signed > 0.0 then Sell else Buy, trigger.value, size.value))
    }

    /** The gateway failed closed over this symbol: on top of all else its whole position was to be flattened. */
    ghost predicate SymbolFailed(outcome: Outcome, symbol: string, signed: real, from: nat)
      reads this, world
    {
      && FailedClosed(outcome, SignedExit(symbol, signed), from) && outcome.emergency == Abs(signed)
      && (signed != 0.0 ==> (outcome.side == Sell <==> signed > 0.0))
    }

    ghost predicate SomeFailed(outcome: Outcome, actual: map<string, real>, symbols: set<string>, from: nat)
      reads this, world
    {
      exists s :: s in symbols && SymbolFailed(outcome, s, if s in actual then actual[s] else 0.0, from)
    }

    /** Read every known stop of a symbol; anything but a verified active answer fails closed. */
    method ReadRecords(intent: Intent, records: seq<Stop>, emergency: real, ghost from: nat)
      returns (active: seq<Stop>, failure: Option<Outcome>)
      requires Core() && from <= |world.journal|
      modifies world, `uncertain
      ensures Core() && Kept() && StopsUntouched(world.journal, |old(world.journal)|)
      ensures failure.None? ==>
                && uncertain == old(uncertain) && |world.journal| == |old(world.journal)| + |records|
                && ReadBack(world.journal, |old(world.journal)|, records)
                && active == StatesAt(world.journal, |old(world.journal)|, records)
      ensures failure.Some? ==>
                && FailedClosed(failure.value, intent, from) && failure.value.emergency == emergency
                && BadRead(world.journal, |old(world.journal)|, records)
    {
      active, failure := [], None;
      ghost var at := |world.journal|;
      for i := 0 to |records|
        invariant Core() && Kept() && uncertain == old(uncertain) && failure.None?
        invariant |world.journal| == at + i && StopsUntouched(world.journal, at)
        invariant ReadBack(world.journal, at, records[..i]) && active == StatesAt(world.journal, at, records[..i])
      {
        ghost var before := world.journal;
        var state;
        state, failure := ReadRecord(intent, records[i], emergency, from);
        StatesStay(before, world.journal, at, records[..i]);
        if failure.Some? {
          assert BadRead(world.journal, at, records);
          return;
        }
        OneMoreRead(before, world.journal, at, records, i);
        active := active + [state];
      }
      assert records[..|records|] == records;
    }

    method ReadRecord(intent: Intent, record: Stop, emergency: real, ghost from: nat)
      returns (state: Stop, failure: Option<Outcome>)
      requires Core() && from <= |world.journal|
      modifies world, `uncertain
      ensures Core() && Kept() && StopsUntouched(world.journal, |old(world.journal)|)
      ensures |world.journal| > |old(world.journal)|
      ensures var read := world.journal[|old(world.journal)|];
              && read.StopRead? && read.id == record.id
              && (failure.None? <==> IsReadBack(read, record))
              && (failure.None? ==>
                    && uncertain == old(uncertain) && |world.journal| == |old(world.journal)| + 1
                    && state == RemoteState(read.answer.value, record))
      ensures failure.Some? ==> FailedClosed(failure.value, intent, from) && failure.value.emergency == emergency
    {
      state, failure := record, None;
      var answer := world.QueryStop(record.id);
      if answer.None? || VerificationErrors(answer.value, record) != [] {
        var outcome := RaiseUnresolved(intent, record.id, emergency, from);
        failure := Some(outcome);
        return;
      }
      state := RemoteState(answer.value, record);
    }

    /** The newest active stop that already fits the position. */
    method FindKeeper(active: seq<Stop>, signed: real) returns (kept: Option<nat>)
      ensures kept == LastFit(active, signed)
    {
      var i := |active|;
      while i > 0
        invariant 0 <= i <= |active|
        invariant LastFit(active, signed) == LastFit(active[..i], signed)
      {
        i := i - 1;
        assert active[..i + 1][..i] == active[..i];
        if Fits(active[i], signed) { return Some(i); }
      }
      kept := None;
    }

    /** Cancel every active stop but the keeper; an unresolved cancellation fails closed. */
    method CancelOthers(intent: Intent, active: seq<Stop>, kept: Option<nat>, emergency: real, ghost from: nat)
      returns (failure: Option<Outcome>)
      requires Core() && from <= |world.journal|
      modifies world, `uncertain
      ensures Core() && Kept()
      ensures failure.None? ==>
                && uncertain == old(uncertain) && AllEnded(world.journal, from, active, kept)
                && (StaticOk() ==>
                      (StopsUntouched(world.journal, |old(world.journal)|) <==> AllKept(|active|, kept)))
      ensures AllKept(|active|, kept) ==> failure.None? && world.journal == old(world.journal)
      ensures failure.Some? ==> FailedClosed(failure.value, intent, from) && failure.value.emergency == emergency
    {
      failure := None;
      for i := 0 to |active|
        invariant Core() && Kept() && uncertain == old(uncertain) && failure.None?
        invariant AllKept(|active|, kept) ==> world.journal == old(world.journal)
        invariant forall j :: 0 <= j < i && kept != Some(j) ==> StopEnded(world.journal, from, active[j].id)
        invariant StaticOk() ==> (StopsUntouched(world.journal, |old(world.journal)|) <==> AllKept(i, kept))
      {
        if kept != Some(i) {
          ghost var before := world.journal;
          failure := CancelOrRaise(intent, active[i], emergency, from);
          if failure.Some? { return; }
          EndedGrows(before, world.journal, from, active, kept, i);
        }
      }
    }

    method CancelOrRaise(intent: Intent, stop: Stop, emergency: real, ghost from: nat) returns (failure: Option<Outcome>)
      requires Core() && from <= |world.journal|
      modifies world, `uncertain
      ensures Core() && Kept()
      ensures failure.None? ==>
                && uncertain == old(uncertain) && StopEnded(world.journal, from, stop.id)
                && (StaticOk() ==> !StopsUntouched(world.journal, |old(world.journal)|))
      ensures failure.Some? ==> FailedClosed(failure.value, intent, from) && failure.value.emergency == emergency
    {
      failure := None;
      var ended := CancelProtective(stop);
      if !ended {
        var outcome := RaiseUnresolved(intent, stop.id, emergency, from);
        failure := Some(outcome);
      }
    }

    /** Close the books of one symbol: read its stops, pick the keeper, cancel the rest, re-protect if needed. */
    method ReconcileSymbol(symbol: string, signed: real, records: seq<Stop>, ghost from: nat, ghost heard: nat)
      returns (failure: Option<Outcome>)
      requires Core() && from <= |world.journal| && heard <= |world.signals| && !Refusal(world.signals, heard)
      requires AllOf(records, symbol)
      modifies world, `uncertain, `tracked
      ensures Core() && Held() && heard <= |world.signals|
      ensures tracked == if failure.None? then WithTracked(old(tracked), symbol, Active(symbol)) else old(tracked)
      ensures SymbolEnd(failure, from, |old(world.journal)|, heard, symbol, signed, records, old(uncertain))
    {
      ghost var at := |world.journal|;
      var active;
      active, failure := ReadRecords(SignedExit(symbol, signed), records, Abs(signed), from);
      if failure.None? {
        failure := ReconcileRead(symbol, signed, records, active, from, at, heard);
      }
    }

    /** The rest of that loop body, once every known stop was read back. */
    method ReconcileRead(symbol: string, signed: real, records: seq<Stop>, active: seq<Stop>,
                         ghost from: nat, ghost at: nat, ghost heard: nat)
      returns (failure: Option<Outcome>)
      requires Core() && from <= at && heard <= |world.signals| && !Refusal(world.signals, heard)
      requires |world.journal| == at + |records| && StopsUntouched(world.journal, at)
      requires ReadBack(world.journal, at, records) && active == StatesAt(world.journal, at, records)
      requires AllOf(records, symbol)
      modifies world, `uncertain, `tracked
      ensures Core() && Held() && heard <= |world.signals|
      ensures tracked == if failure.None? then WithTracked(old(tracked), symbol, Active(symbol)) else old(tracked)
      ensures SymbolEnd(failure, from, at, heard, symbol, signed, records, old(uncertain))
    {
      var keeper := FindKeeper(active, signed);
      ghost var cancelled;
      failure, cancelled := CancelThenSettle(symbol, signed, records, active, keeper, from, at, heard);
      QuietIffKept(active, signed);
      SymbolEnds(failure, from, at, heard, symbol, signed, records, old(uncertain), old(world.journal), cancelled, keeper);
    }

    /**
     * How the loop body may end. A normal end settles the symbol; no stop was placed or cancelled exactly when the answers
     * leave nothing to do, and then the end is normal.
     */
    ghost predicate SymbolEnd(failure: Option<Outcome>, from: nat, at: nat, heard: nat, symbol: string, signed: real,
                              records: seq<Stop>, latched: bool)
      reads this, world
      requires world.Valid()
    {
      && (failure == Some(Raised(NormalizerFailed)) <==> Refusal(world.signals, heard))
      && (failure.None? ==>
            && uncertain == latched
            && SymbolSettled(world.journal, from, at, Active(symbol), symbol, signed, records)
            && (StaticOk() && StopsUntouched(world.journal, at) ==> QuietAt(world.journal, at, records, signed)))
      && (failure.Some? ==>
            failure.value == Raised(NormalizerFailed) || SymbolFailed(failure.value, symbol, signed, from))
      && (failure.Some? || !StopsUntouched(world.journal, at) ==> Trouble(world.journal, at, records, signed))
    }

    /** That loop body after the keeper is known. */
    method CancelThenSettle(symbol: string, signed: real, records: seq<Stop>, active: seq<Stop>, kept: Option<nat>,
                            ghost from: nat, ghost at: nat, ghost heard: nat)
      returns (failure: Option<Outcome>, ghost cancelled: seq<Call>)
      requires Core() && from <= at && heard <= |world.signals| && !Refusal(world.signals, heard)
      requires |world.journal| == at + |records|
      requires ReadBack(world.journal, at, records) && active == StatesAt(world.journal, at, records)
      requires kept == LastFit(active, signed) && AllOf(records, symbol)
      modifies world, `uncertain, `tracked
      ensures Core() && Held() && heard <= |world.signals| && old(world.journal) <= cancelled <= world.journal
      ensures tracked == if failure.None? then WithTracked(old(tracked), symbol, Active(symbol)) else old(tracked)
      ensures failure == Some(Raised(NormalizerFailed)) <==> Refusal(world.signals, heard)
      ensures failure.None? ==>
                uncertain == old(uncertain) && SymbolSettled(world.journal, from, at, Active(symbol), symbol, signed, records)
      ensures failure.None? && StaticOk() ==> (StopsUntouched(cancelled, |old(world.journal)|) <==> AllKept(|records|, kept))
      ensures AllKept(|records|, kept) && (kept.Some? || Abs(signed) <= DUST) ==>
                failure.None? && world.journal == old(world.journal)
      ensures failure.Some? ==>
                failure.value == Raised(NormalizerFailed) || SymbolFailed(failure.value, symbol, signed, from)
    {
      failure := CancelRead(symbol, signed, records, active, kept, from, at);
      cancelled := world.journal;
      if failure.None? { failure := SettleSymbol(symbol, signed, records, active, kept, from, at, heard); }
    }

    /** The cancellations of that loop body; they leave what was read as it is. */
    method CancelRead(symbol: string, signed: real, records: seq<Stop>, active: seq<Stop>, kept: Option<nat>,
                      ghost from: nat, ghost at: nat)
      returns (failure: Option<Outcome>)
      requires Core() && from <= at && |world.journal| == at + |records|
      requires ReadBack(world.journal, at, records) && active == StatesAt(world.journal, at, records)
      modifies world, `uncertain
      ensures Core() && Kept()
      ensures failure.None? ==>
                && uncertain == old(uncertain) && AllEnded(world.journal, from, active, kept)
                && ReadBack(world.journal, at, records) && active == StatesAt(world.journal, at, records)
                && (StaticOk() ==>
                      (StopsUntouched(world.journal, |old(world.journal)|) <==> AllKept(|records|, kept)))
      ensures AllKept(|records|, kept) ==> failure.None? && world.journal == old(world.journal)
      ensures failure.Some? ==> SymbolFailed(failure.value, symbol, signed, from)
    {
      ghost var read := world.journal;
      failure := CancelOthers(SignedExit(symbol, signed), active, kept, Abs(signed), from);
      StatesStay(read, world.journal, at, records);
    }

    lemma SymbolEnds(failure: Option<Outcome>, from: nat, at: nat, heard: nat, symbol: string, signed: real,
                     records: seq<Stop>, latched: bool, read: seq<Call>, cancelled: seq<Call>, kept: Option<nat>)
      requires world.Valid() && read <= cancelled <= world.journal
      requires |read| == at + |records| && StopsUntouched(read, at) && ReadBack(read, at, records)
      requires kept == LastFit(StatesAt(read, at, records), signed)
      requires failure == Some(Raised(NormalizerFailed)) <==> Refusal(world.signals, heard)
      requires failure.None? ==>
                 && uncertain == latched
                 && SymbolSettled(world.journal, from, at, Active(symbol), symbol, signed, records)
                 && (StaticOk() ==> (StopsUntouched(cancelled, |read|) <==> AllKept(|records|, kept)))
      requires failure.Some? ==>
                 failure.value == Raised(NormalizerFailed) || SymbolFailed(failure.value, symbol, signed, from)
      requires Quiet(StatesAt(read, at, records), signed) ==> failure.None? && world.journal == read
      ensures SymbolEnd(failure, from, at, heard, symbol, signed, records, latched)
    {
      StatesStay(read, world.journal, at, records);
      QuietIffKept(StatesAt(read, at, records), signed);
      UntouchedSplit(read, world.journal, at);
      UntouchedSplit(cancelled, world.journal, |read|);
    }

    /** The tail of that loop body: forget, adopt, or place a new stop. */
    method SettleSymbol(symbol: string, signed: real, records: seq<Stop>, active: seq<Stop>, kept: Option<nat>,
                        ghost from: nat, ghost at: nat, ghost heard: nat)
      returns (failure: Option<Outcome>)
      requires Core() && from <= at && heard <= |world.signals| && !Refusal(world.signals, heard)
      requires ReadBack(world.journal, at, records) && active == StatesAt(world.journal, at, records)
      requires kept == LastFit(active, signed) && AllOf(records, symbol)
      requires AllEnded(world.journal, from, active, kept)
      modifies world, `uncertain, `tracked
      ensures Core() && Held() && heard <= |world.signals|
      ensures tracked == if failure.None? then WithTracked(old(tracked), symbol, Active(symbol)) else old(tracked)
      ensures failure == Some(Raised(NormalizerFailed)) <==> Refusal(world.signals, heard)
      ensures failure.None? ==>
                uncertain == old(uncertain) && SymbolSettled(world.journal, from, at, Active(symbol), symbol, signed, records)
      ensures kept.Some? || Abs(signed) <= DUST ==> failure.None? && world.journal == old(world.journal)
      ensures failure.Some? ==>
                failure.value == Raised(NormalizerFailed) || SymbolFailed(failure.value, symbol, signed, from)
    {
      failure := None;
      ghost var before := world.journal;
      ReadBackVerifies(world.journal, from, at, records);
      assert AllEnded(world.journal, from, records, kept);
      if Abs(signed) <= DUST {
        tracked := tracked - {symbol};
        LeavesSettled(from, at, None, symbol, signed, records, kept);
      } else if kept.Some? {
        Register(active[kept.value]);
        LeavesSettled(from, at, Some(active[kept.value]), symbol, signed, records, kept);
      } else {
        failure := PlaceResized(symbol, signed, records, from, heard);
        StatesStay(before, world.journal, at, records);
      }
    }

    lemma LeavesSettled(from: nat, at: nat, state: Option<Stop>, symbol: string, signed: real, records: seq<Stop>,
                        kept: Option<nat>)
      requires world.Valid() && from <= at && ReadBack(world.journal, at, records)
      requires var states := StatesAt(world.journal, at, records);
               && kept == LastFit(states, signed) && AllEnded(world.journal, from, records, kept)
               && if Abs(signed) <= DUST then state == None else kept.Some? && state == Some(states[kept.value])
      ensures SymbolSettled(world.journal, from, at, state, symbol, signed, records)
    {
    }

    /** The last resort of restart reconciliation: a new stop seeded from the newest known one. */
    method PlaceResized(symbol: string, signed: real, records: seq<Stop>, ghost from: nat, ghost heard: nat)
      returns (failure: Option<Outcome>)
      requires Core() && from <= |world.journal| && AllEnded(world.journal, from, records, None)
      requires heard <= |world.signals| && !Refusal(world.signals, heard)
      modifies world, `uncertain, `tracked
      ensures Core() && Held() && heard <= |world.signals|
      ensures failure == Some(Raised(NormalizerFailed)) <==> Refusal(world.signals, heard)
      ensures tracked == if failure.None? then WithTracked(old(tracked), symbol, Active(symbol)) else old(tracked)
      ensures failure.None? ==>
                && uncertain == old(uncertain) && records != [] && AllEnded(world.journal, from, records, None)
                && Active(symbol).Some?
                && Resized(world.journal, from, Active(symbol).value, symbol, signed, records[|records| - 1].trigger)
      ensures failure.Some? ==>
                failure.value == Raised(NormalizerFailed) || SymbolFailed(failure.value, symbol, signed, from)
    {
      var intent := SignedExit(symbol, signed);
      if records == [] || records[|records| - 1].trigger <= 0.0 {
        var outcome := RaiseUnresolved(intent, "reconcile-" + symbol, Abs(signed), from);
        return Some(outcome);
      }
      var seed := records[|records| - 1];
      var order := Stop(symbol, ReplacementId(digest, seed.id, Abs(signed)), ClosingSide(signed), seed.trigger, Abs(signed));
      ghost var before := world.journal;
      var stop;
      ghost var k;
      stop, failure, k := PlaceOrRaise(intent, seed.id, order, from);
      if stop.Some? { ResizedAfter(before, from, stop.value, symbol, signed, records, order); }
    }

    lemma ResizedAfter(before: seq<Call>, from: nat, stop: Stop, symbol: string, signed: real, records: seq<Stop>, order: Stop)
      requires Core() && before < world.journal && from <= |before| && AllEnded(before, from, records, None)
      requires order.symbol == symbol && order.side == ClosingSide(signed) && order.quantity == Abs(signed)
      requires Protects(stop, order)
      ensures AllEnded(world.journal, from, records, None)
      ensures Resized(world.journal, from, stop, symbol, signed, order.trigger)
    {
      EndedGrows(before, world.journal, from, records, None, |records|);
      var expected := order.(quantity := world.Normalize(symbol, Abs(signed), true).value,
                             trigger := world.NormalizePrice(symbol, order.trigger).value);
      var last := world.journal[|world.journal| - 1];
      VerifiedIffGuards(last.answer.value, expected);
      assert IsGuardRead(last, stop, expected);
      assert VerifiedSince(world.journal, from, stop, expected);
    }

    /** `_raise_global_algo_reconciliation_unavailable`: latch, kill, cancel entries, flatten everything. */
    method RaiseGlobal(actual: map<string, real>, ghost from: nat)
      requires Core() && from <= |world.journal|
      modifies world, `uncertain
      ensures Core() && Kept() && uncertain && Swept(world.journal, from, StaticOk())
      ensures Flattened(actual, actual.Keys, from)
    {
      Latch();
      ghost var killed := world.journal;
      var _, _ := CancelRemoteEntries(false);
      ghost var swept := world.journal;
      assert IsKill(swept, |killed| - 1);
      FlattenAll(actual, from);
      SweptStays(swept, world.journal, from, StaticOk());
    }

    ghost predicate Flattened(actual: map<string, real>, symbols: set<string>, from: nat)
      requires symbols <= actual.Keys
      reads world
    {
      StaticOk() ==> forall s :: s in symbols && actual[s] != 0.0 ==>
        CloseTried(world.journal, from, s, if actual[s] > 0.0 then Sell else Buy, Abs(actual[s]))
    }

    method FlattenAll(actual: map<string, real>, ghost from: nat)
      requires Core() && from <= |world.journal|
      modifies world
      ensures Core() && Kept() && Flattened(actual, actual.Keys, from)
    {
      var todo := actual.Keys;
      while todo != {}
        invariant Core() && Kept() && todo <= actual.Keys
        invariant Flattened(actual, actual.Keys - todo, from)
        decreases todo
      {
        var symbol :| symbol in todo;
        todo := todo - {symbol};
        if actual[symbol] != 0.0 {
          ghost var before := world.journal;
          var _ := EmergencyClose(symbol, ClosingSide(actual[symbol]), Abs(actual[symbol]), ChildId("reconcile-" + symbol, "x"));
          forall s | StaticOk() && s in actual.Keys - todo && actual[s] != 0.0
            ensures CloseTried(world.journal, from, s, ClosingSide(actual[s]), Abs(actual[s]))
          {
            if s == symbol {
              CloseTriedFromEarlier(world.journal, from, |before|, s, ClosingSide(actual[s]), Abs(actual[s]));
            } else {
              CloseTriedStays(before, world.journal, from, s, ClosingSide(actual[s]), Abs(actual[s]));
            }
          }
        }
      }
    }

    /** Cancel remote stops that use the bot's prefix but no audited id; returns whether there were any. */
    method CancelForeign(listing: seq<AlgoReport>, audited: set<string>) returns (any: bool)
      requires Core()
      modifies world
      ensures Core() && Kept()
      ensures StaticOk() ==> ForeignCancelled(world.journal, |old(world.journal)|, listing, audited, |listing|)
      ensures any <==> exists i :: 0 <= i < |listing| && Foreign(listing[i], audited)
      ensures !any ==> world.journal == old(world.journal)
    {
      any := false;
      for i := 0 to |listing|
        invariant Core() && Kept()
        invariant StaticOk() ==> ForeignCancelled(world.journal, |old(world.journal)|, listing, audited, i)
        invariant any <==> exists j :: 0 <= j < i && Foreign(listing[j], audited)
        invariant !any ==> world.journal == old(world.journal)
      {
        if Foreign(listing[i], audited) {
          any := true;
          var stop := Stop(listing[i].symbol, listing[i].id, Sell, listing[i].trigger, listing[i].quantity);
          ghost var before := world.journal;
          var _ := CancelProtective(stop);
          if StaticOk() { ForeignStays(before, world.journal, |old(world.journal)|, listing, audited, i); }
        }
      }
    }

    /** The per-symbol loop of `reconcile_protective_orders`; the order of the symbols is left open. */
    method ReconcileEach(actual: map<string, real>, known: seq<Stop>, symbols: set<string>, ghost from: nat,
                         ghost heard: nat)
      returns (failure: Option<Outcome>, ghost began: map<string, nat>)
      requires Core() && from <= |world.journal| && heard <= |world.signals| && !Refusal(world.signals, heard)
      requires StopsUntouched(world.journal, from)
      modifies world, `uncertain, `tracked
      ensures Core() && Held()
      ensures TrackedElsewhere(old(tracked), tracked, symbols)
      ensures EachEnd(failure, began, actual, known, symbols, from, heard, old(uncertain))
    {
      failure, began := None, map[];
      var todo := symbols;
      ghost var done: set<string> := {};
      while todo != {}
        invariant Core() && Held() && failure.None? && heard <= |world.signals|
        invariant done + todo == symbols && done !! todo
        invariant TrackedElsewhere(old(tracked), tracked, symbols)
        invariant EachEnd(failure, began, actual, known, done, from, heard, old(uncertain))
        decreases todo
      {
        var symbol :| symbol in todo;
        todo := todo - {symbol};
        ghost var tracking := tracked;
        failure, began := ReconcileNext(actual, known, symbol, done, began, from, heard, old(uncertain));
        ElsewhereStays(old(tracked), tracking, symbol, Active(symbol), symbols);
        done := done + {symbol};
        if failure.Some? {
          FailureWidens(failure, began, actual, known, done, symbols, from, heard, old(uncertain));
          return;
        }
      }
      assert done == symbols;
    }

    lemma FailureWidens(failure: Option<Outcome>, began: map<string, nat>, actual: map<string, real>, known: seq<Stop>,
                        symbols: set<string>, more: set<string>, from: nat, heard: nat, latched: bool)
      requires world.Valid() && failure.Some? && symbols <= more
      requires EachEnd(failure, began, actual, known, symbols, from, heard, latched)
      ensures EachEnd(failure, began, actual, known, more, from, heard, latched)
    {
      TroubledStays(world.journal, world.journal, from, actual, known, symbols, more);
    }

    /**
     * How the loop may end over `symbols`. A normal end settles each of them; no stop was placed or cancelled exactly when
     * all answers leave nothing to do, and then the end is normal.
     */
    ghost predicate EachEnd(failure: Option<Outcome>, began: map<string, nat>, actual: map<string, real>, known: seq<Stop>,
                            symbols: set<string>, from: nat, heard: nat, latched: bool)
      reads this, world
      requires world.Valid()
    {
      && (failure == Some(Raised(NormalizerFailed)) <==> Refusal(world.signals, heard))
      && (failure.None? ==>
            && uncertain == latched && AllSettled(world.journal, tracked, actual, known, symbols, began, from)
            && (StaticOk() && StopsUntouched(world.journal, from) ==>
                  AllQuiet(world.journal, actual, known, symbols, began)))
      && (failure.Some? ==>
            || failure.value == Raised(NormalizerFailed)
            || SomeFailed(failure.value, actual, symbols, from))
      && (failure.Some? || !StopsUntouched(world.journal, from) ==>
            Troubled(world.journal, from, actual, known, symbols))
    }

    /** One pass of that loop. */
    method ReconcileNext(actual: map<string, real>, known: seq<Stop>, symbol: string, ghost done: set<string>,
                         ghost began: map<string, nat>, ghost from: nat, ghost heard: nat, ghost latched: bool)
      returns (failure: Option<Outcome>, ghost begun: map<string, nat>)
      requires Core() && from <= |world.journal| && symbol !in done && heard <= |world.signals|
      requires EachEnd(None, began, actual, known, done, from, heard, latched)
      modifies world, `uncertain, `tracked
      ensures Core() && Held() && heard <= |world.signals|
      ensures tracked == if failure.None? then WithTracked(old(tracked), symbol, Active(symbol)) else old(tracked)
      ensures EachEnd(failure, begun, actual, known, done + {symbol}, from, heard, latched)
    {
      ghost var journal, tracking := world.journal, tracked;
      failure := ReconcileSymbol(symbol, Signed(actual, symbol), RecordsOf(known, symbol), from, heard);
      begun := began[symbol := |journal|];
      UntouchedSplit(journal, world.journal, from);
      TroubleGrows(journal, world.journal, from, actual, known, done, symbol, failure.Some?);
      if failure.None? {
        SettledStays(journal, tracking, world.journal, tracked, actual, known, done, began, symbol, from);
        QuietGrows(journal, world.journal, actual, known, done, began, symbol);
      }
    }

    lemma AllSettledStay(before: seq<Call>, after: seq<Call>, tracking: map<string, Stop>, actual: map<string, real>,
                         known: seq<Stop>, symbols: set<string>, began: map<string, nat>, from: nat)
      requires world.Valid() && before <= after
      requires AllSettled(before, tracking, actual, known, symbols, began, from)
      ensures AllSettled(after, tracking, actual, known, symbols, began, from)
    {
      forall s | s in symbols
        ensures SettledAt(after, tracking, actual, known, began, from, s)
      {
        OneSettledStays(before, tracking, after, tracking, actual, known, began, began, from, s);
      }
    }

    /** Each symbol is settled, `tracking` being the stops tracked. */
    ghost predicate AllSettled(journal: seq<Call>, tracking: map<string, Stop>, actual: map<string, real>, known: seq<Stop>,
                               symbols: set<string>, began: map<string, nat>, from: nat)
      requires forall s :: s in world.rules ==> world.rules[s].Valid()
    {
      forall s :: s in symbols ==> SettledAt(journal, tracking, actual, known, began, from, s)
    }

    ghost predicate SettledAt(journal: seq<Call>, tracking: map<string, Stop>, actual: map<string, real>, known: seq<Stop>,
                              began: map<string, nat>, from: nat, s: string)
      requires forall s :: s in world.rules ==> world.rules[s].Valid()
    {
      && s in began
      && SymbolSettled(journal, from, began[s], TrackedIn(tracking, s), s, if s in actual then actual[s] else 0.0,
                       RecordsOf(known, s))
    }

    lemma SettledStays(before: seq<Call>, tracking: map<string, Stop>, after: seq<Call>, later: map<string, Stop>,
                       actual: map<string, real>, known: seq<Stop>, symbols: set<string>, began: map<string, nat>,
                       symbol: string, from: nat)
      requires world.Valid() && before <= after && symbol !in symbols
      requires AllSettled(before, tracking, actual, known, symbols, began, from)
      requires later == WithTracked(tracking, symbol, TrackedIn(later, symbol))
      requires SymbolSettled(after, from, |before|, TrackedIn(later, symbol), symbol, Signed(actual, symbol),
                             RecordsOf(known, symbol))
      ensures AllSettled(after, later, actual, known, symbols + {symbol}, began[symbol := |before|], from)
    {
      var more := began[symbol := |before|];
      forall s | s in symbols + {symbol}
        ensures SettledAt(after, later, actual, known, more, from, s)
      {
        if s != symbol { OneSettledStays(before, tracking, after, later, actual, known, began, more, from, s); }
      }
    }

    lemma OneSettledStays(before: seq<Call>, tracking: map<string, Stop>, after: seq<Call>, later: map<string, Stop>,
                          actual: map<string, real>, known: seq<Stop>, began: map<string, nat>, more: map<string, nat>,
                          from: nat, s: string)
      requires world.Valid() && before <= after && SettledAt(before, tracking, actual, known, began, from, s)
      requires TrackedIn(later, s) == TrackedIn(tracking, s) && s in more && more[s] == began[s]
      ensures SettledAt(after, later, actual, known, more, from, s)
    {
      SymbolStays(before, after, from, began[s], TrackedIn(tracking, s), s, Signed(actual, s), RecordsOf(known, s));
    }

    lemma SymbolStays(before: seq<Call>, after: seq<Call>, from: nat, at: nat, state: Option<Stop>, symbol: string,
                      signed: real, records: seq<Stop>)
      requires world.Valid() && before <= after
      requires SymbolSettled(before, from, at, state, symbol, signed, records)
      ensures SymbolSettled(after, from, at, state, symbol, signed, records)
    {
      StatesStay(before, after, at, records);
      var kept := LastFit(StatesAt(before, at, records), signed);
      EndedGrows(before, after, from, records, kept, |records|);
      if Abs(signed) > DUST && kept.None? {
        var size, trigger := world.Normalize(symbol, Abs(signed), true),
                             world.NormalizePrice(symbol, records[|records| - 1].trigger);
        VerifiedStays(before, after, from, state.value,
                      Stop(symbol, state.value.id, if signed > 0.0 then Sell else Buy, trigger.value, size.value));
      }
    }

    /**
     * `reconcile_protective_orders`. A normal return settles every symbol. No stop was placed or cancelled exactly when
     * each symbol has at most one known stop, and that stop read back fits the position; then the return is normal.
     */
    method ReconcileProtective(actual: map<string, real>, known: seq<Stop>)
      returns (failure: Option<Outcome>, ghost began: map<string, nat>, ghost listing: Option<seq<AlgoReport>>)
      requires Valid()
      modifies world, `uncertain, `tracked
      ensures Valid() && Held() && old(world.journal) + [StopsListed(listing)] <= world.journal
      ensures failure.None? || (listing.Some? && AllAudited(listing.value, IdsOf(known))) ==>
                && listing.Some? && AllAudited(listing.value, IdsOf(known))
                && EachEnd(failure, began, actual, known, Symbols(actual, known), |old(world.journal)|, |old(world.signals)|,
                           old(uncertain))
      ensures TrackedElsewhere(old(tracked), tracked, Symbols(actual, known))
      ensures listing.None? || !AllAudited(listing.value, IdsOf(known)) ==>
                && (listing.Some? && StaticOk() ==>
                      ForeignCancelled(world.journal, |old(world.journal)|, listing.value, IdsOf(known), |listing.value|))
                && failure == Some(AccountUnresolved) && uncertain && Swept(world.journal, |old(world.journal)|, StaticOk())
                && Flattened(actual, actual.Keys, |old(world.journal)|)
    {
      ghost var from, heard := |world.journal|, |world.signals|;
      began := map[];
      failure, listing := ScreenRemote(actual, known);
      if failure.None? {
        failure, began := ReconcileScreened(actual, known, from, heard, old(world.past));
      }
    }

    /** The rest of it, once no foreign stop was listed. */
    method ReconcileScreened(actual: map<string, real>, known: seq<Stop>, ghost from: nat, ghost heard: nat,
                             ghost past: seq<map<string, Truth>>)
      returns (failure: Option<Outcome>, ghost began: map<string, nat>)
      requires Core() && from <= |world.journal| && heard <= |world.signals| && !Refusal(world.signals, heard)
      requires StopsUntouched(world.journal, from)
      requires past != [] && past <= world.past && (!uncertain ==> AllTerminal(world.entries, past[|past| - 1]))
      modifies world, `uncertain, `tracked
      ensures Valid() && Held() && TrackedElsewhere(old(tracked), tracked, Symbols(actual, known))
      ensures EachEnd(failure, began, actual, known, Symbols(actual, known), from, heard, old(uncertain))
    {
      failure, began := ReconcileEach(actual, known, Symbols(actual, known), from, heard);
      StillSettled(past);
    }

    /** The tracked stops as a list, in any order. */
    method TrackedStops() returns (known: seq<Stop>)
      requires Core()
      ensures Lists(known, tracked)
    {
      known := [];
      var todo := tracked.Keys;
      while todo != {}
        invariant todo <= tracked.Keys
        invariant forall r :: r in known ==> r.symbol in tracked
        invariant forall s :: RecordsOf(known, s) == if s in tracked && s !in todo then [tracked[s]] else []
        decreases todo
      {
        var symbol :| symbol in todo;
        forall s
          ensures RecordsOf(known + [tracked[symbol]], s) ==
                  if s in tracked && s !in todo - {symbol} then [tracked[s]] else []
        {
          RecordsAppend(known, tracked[symbol], s);
        }
        known, todo := known + [tracked[symbol]], todo - {symbol};
      }
    }

    /**
     * Two runs over the same positions, the second with the stops that the first left tracked. If these read back
     * unchanged and no foreign stop shows up, the second run returns normally without placing or cancelling anything
     * exactly when every one of them fits its position. A stop that the first run kept always fits; one that it placed fits
     * exactly when its quantity as the exchange reports it is within the dust of the position.
     */
    method ReconcileTwice(actual: map<string, real>, known: seq<Stop>)
      returns (first: Option<Outcome>, second: Option<Outcome>, ghost began: map<string, nat>,
               ghost listing: Option<seq<AlgoReport>>, ghost mid: nat, ghost between: map<string, Stop>)
      requires Valid()
      modifies world, `uncertain, `tracked
      ensures Valid() && Held() && mid <= |world.journal|
      ensures first.None? ==> world.journal[..mid] + [StopsListed(listing)] <= world.journal
      ensures first.None? ==>
                AllSettled(world.journal, between, actual, known, Symbols(actual, known), began, |old(world.journal)|)
      ensures first.None? && listing.Some? && AllAudited(listing.value, IdsOfTracked(between))
              && Unchanged(world.journal, mid, between) ==>
                && (AllSized(between, actual) ==> second.None? && StopsUntouched(world.journal, mid))
                && (StaticOk() && second.None? && StopsUntouched(world.journal, mid) ==> AllSized(between, actual))
    {
      ghost var from := |world.journal|;
      ghost var screened;
      first, began, screened := ReconcileProtective(actual, known);
      mid, between, second, listing := |world.journal|, tracked, None, None;
      if first.None? {
        second, listing := ReconcileAgain(actual, known, began, from);
      }
    }

    /** The second of the two runs. */
    method ReconcileAgain(actual: map<string, real>, ghost known: seq<Stop>, ghost began: map<string, nat>, ghost from: nat)
      returns (second: Option<Outcome>, ghost listing: Option<seq<AlgoReport>>)
      requires Valid()
      requires AllSettled(world.journal, tracked, actual, known, Symbols(actual, known), began, from)
      modifies world, `uncertain, `tracked
      ensures Valid() && Held() && old(world.journal) + [StopsListed(listing)] <= world.journal
      ensures AllSettled(world.journal, old(tracked), actual, known, Symbols(actual, known), began, from)
      ensures listing.Some? && AllAudited(listing.value, IdsOfTracked(old(tracked)))
              && Unchanged(world.journal, |old(world.journal)|, old(tracked)) ==>
                && (AllSized(old(tracked), actual) ==>
                      second.None? && StopsUntouched(world.journal, |old(world.journal)|))
                && (StaticOk() && second.None? && StopsUntouched(world.journal, |old(world.journal)|) ==>
                      AllSized(old(tracked), actual))
    {
      var stops := TrackedStops();
      ghost var again;
      second, again, listing := ReconcileProtective(actual, stops);
      AllSettledStay(old(world.journal), world.journal, old(tracked), actual, known, Symbols(actual, known), began, from);
      ListedIds(stops, old(tracked));
      if listing.Some? && AllAudited(listing.value, IdsOfTracked(old(tracked))) {
        SecondRun(old(tracked), actual, known, began, from, |old(world.journal)|, stops, again, |old(world.signals)|,
                  old(uncertain), second);
      }
    }

    lemma SecondRun(between: map<string, Stop>, actual: map<string, real>, known: seq<Stop>, began: map<string, nat>,
                    from: nat, mid: nat, stops: seq<Stop>, again: map<string, nat>, heard: nat, latched: bool,
                    second: Option<Outcome>)
      requires world.Valid() && Lists(stops, between)
      requires AllSettled(world.journal, between, actual, known, Symbols(actual, known), began, from)
      requires EachEnd(second, again, actual, stops, Symbols(actual, stops), mid, heard, latched)
      ensures Unchanged(world.journal, mid, between) && AllSized(between, actual) ==>
                second.None? && StopsUntouched(world.journal, mid)
      ensures Unchanged(world.journal, mid, between) && StaticOk() && second.None? && StopsUntouched(world.journal, mid) ==>
                AllSized(between, actual)
    {
      SizedMeansFitting(world.journal, between, actual, known, began, from);
      if Unchanged(world.journal, mid, between) {
        if AllFit(between, actual) {
          FittingStopsAreNoTrouble(world.journal, mid, actual, stops, between);
        } else if StaticOk() && second.None? && StopsUntouched(world.journal, mid) {
          QuietMeansFitting(world.journal, mid, actual, stops, between, again);
        }
      }
    }

    /** What the first run leaves tracked is of the closing side, so only its size decides whether it fits. */
    lemma SizedMeansFitting(journal: seq<Call>, tracking: map<string, Stop>, actual: map<string, real>, known: seq<Stop>,
                            began: map<string, nat>, from: nat)
      requires world.Valid() && AllSettled(journal, tracking, actual, known, Symbols(actual, known), began, from)
      ensures AllTracked(tracking, actual) && (AllFit(tracking, actual) <==> AllSized(tracking, actual))
    {
      OpenIsTracked(journal, tracking, actual, known, began, from);
      forall s | s in tracking
        ensures Fits(tracking[s], Signed(actual, s)) <==>
                Signed(actual, s) != 0.0 && Abs(tracking[s].quantity - Abs(Signed(actual, s))) <= DUST
      {
        if s in Symbols(actual, known) {
          SettledIsClosing(journal, from, began[s], tracking[s], s, Signed(actual, s), RecordsOf(known, s));
        }
      }
    }

    /** A tracked stop of a settled symbol is of the closing side. */
    lemma SettledIsClosing(journal: seq<Call>, from: nat, at: nat, stop: Stop, symbol: string, signed: real, records: seq<Stop>)
      requires world.Valid() && SymbolSettled(journal, from, at, Some(stop), symbol, signed, records)
      ensures stop.side == ClosingSide(signed)
    {
      if LastFit(StatesAt(journal, at, records), signed).None? {
        var size, trigger := world.Normalize(symbol, Abs(signed), true),
                             world.NormalizePrice(symbol, records[|records| - 1].trigger);
        var expected := Stop(symbol, stop.id, if signed > 0.0 then Sell else Buy, trigger.value, size.value);
        var k :| from <= k < |journal| && IsGuardRead(journal[k], stop, expected);
      }
    }

    lemma OpenIsTracked(journal: seq<Call>, tracking: map<string, Stop>, actual: map<string, real>, known: seq<Stop>,
                        began: map<string, nat>, from: nat)
      requires world.Valid() && AllSettled(journal, tracking, actual, known, Symbols(actual, known), began, from)
      ensures AllTracked(tracking, actual)
    {
      forall s | Abs(Signed(actual, s)) > DUST
        ensures s in tracking
      {
        assert s in Symbols(actual, known);
        assert SymbolSettled(journal, from, began[s], TrackedIn(tracking, s), s, Signed(actual, s), RecordsOf(known, s));
      }
    }

    /** No unaudited stop of the bot's namespace may exist; otherwise the whole account is flattened. */
    method ScreenRemote(actual: map<string, real>, known: seq<Stop>)
      returns (failure: Option<Outcome>, ghost listing: Option<seq<AlgoReport>>)
      requires Core()
      modifies world, `uncertain
      ensures Core() && Kept() && old(world.journal) + [StopsListed(listing)] <= world.journal
      ensures failure.None? ==>
                && uncertain == old(uncertain) && world.journal == old(world.journal) + [StopsListed(listing)]
                && listing.Some? && AllAudited(listing.value, IdsOf(known))
      ensures failure.Some? ==>
                && (listing.None? || !AllAudited(listing.value, IdsOf(known)))
                && (listing.Some? && StaticOk() ==>
                      ForeignCancelled(world.journal, |old(world.journal)|, listing.value, IdsOf(known), |listing.value|))
                && failure.value == AccountUnresolved && uncertain && Swept(world.journal, |old(world.journal)|, StaticOk())
                && Flattened(actual, actual.Keys, |old(world.journal)|)
    {
      ghost var from := |world.journal|;
      failure := None;
      var stops := world.ListStops();
      listing := stops;
      var any := stops.None?;
      if stops.Some? {
        any := CancelForeign(stops.value, IdsOf(known));
      }
      if any {
        ghost var screened := world.journal;
        RaiseGlobal(actual, from);
        if stops.Some? && StaticOk() {
          ForeignCarries(screened, world.journal, from + 1, from, stops.value, IdsOf(known), |stops.value|);
        }
        failure := Some(AccountUnresolved);
      }
    }

    /**
     * Any sequence of calls on one gateway. The invariant carries the safety of the whole journal;
     * here it is spelled out: the latch is never cleared, and nothing that opens exposure follows it.
     */
    method Run(calls: seq<Request>)
      requires Valid()
      modifies this, world
      ensures Valid() && old(world.journal) <= world.journal && old(world.entries) <= world.entries
      ensures old(uncertain) ==> uncertain && world.entries == old(world.entries)
      ensures Safe(world.journal, world.entries)
    {
      for i := 0 to |calls|
        invariant Valid() && old(world.journal) <= world.journal && old(world.entries) <= world.entries
        invariant old(uncertain) ==> uncertain && world.entries == old(world.entries)
      {
        match calls[i]
        case Submit(intent, quote, id) =>
          var _ := Submit(intent, quote, id);
        case CancelAll =>
          var _, _ := CancelAll();
        case ReconcileAccount(report) =>
          var _ := ReconcileAccount(report);
        case ReconcileProtective(actual, known) =>
          var _, _, _ := ReconcileProtective(actual, known);
        case RegisterStop(stop) =>
          Register(stop);
      }
      world.Written().LawfulParts();
    }

    lemma EmptyIsBounded(intent: Intent, quote: Quote, parent: string)
      ensures Bounded(intent, quote, parent, |world.entries|)
    {
      assert Shaped(intent, quote, parent, |world.entries|, None);
    }
  }

  /**
   * A stop guards a position of one; a reduction is filled by half and the position cannot be read. The stop is cancelled,
   * the filters refuse it for the half that is left, and the submission ends with an exception: the half has no stop, and
   * neither the latch nor a reduce-only order for it is set.
   */
  method HalfReduced() returns (gateway: ExecutionGateway, outcome: Outcome)
    ensures gateway.Valid() && outcome == Raised(NormalizerFailed)
    ensures gateway.tracked == map[] && !gateway.uncertain && gateway.world.entries == []
  {
    var rules := map["BTCUSDT" := Rules(None, None, None, 1.0, None, 1.0, 1.0, None, 1.0)];
    HalfIsRefused();
    var ended := AlgoReport("s", "BTCUSDT", Some(Sell), 1.0, 90.0, true, true, true, true, true, false, true, AlgoCanceled);
    var reply := Reply(map[], true, true, true, Some(Report(Filled, 0.5)), None, None, None, Some(ended), None);
    var world := new World(rules, (n: nat) => reply);
    gateway := new ExecutionGateway(world, true, false, false, 30.0, (id: string, quantity: real) => id);
    gateway.Register(Stop("BTCUSDT", "s", Sell, 90.0, 1.0));
    var intent := Intent(Reduce, "BTCUSDT", Some(Sell), 0.5, true, None);
    assert world.FillsAlways() && world.EndsStops() && world.HidesPosition() && world.FirstFill() == 0.5;
    assert ExitBasis(None, intent, Some(gateway.tracked["BTCUSDT"]), 0.5) == Some(0.5);
    assert gateway.ExitStaged(intent);
    outcome := gateway.Submit(intent, Quote(100.0, 101.0, 100.0), "p");
    assert gateway.tracked == map[];
  }

  /** Filters under which an order for one is accepted and a stop for the half that was filled is refused. */
  lemma HalfIsRefused()
    ensures var rules := map["BTCUSDT" := Rules(None, None, None, 1.0, None, 1.0, 1.0, None, 1.0)];
            && (forall s :: s in rules ==> rules[s].Valid())
            && rules["BTCUSDT"].NormalizeQuantity(1.0, false) == Some(1.0)
            && StopSize(rules, "BTCUSDT", 0.5, 90.0).None?
  {
    assert 1.0 / 1.0 == 1.0 && (1.0).Floor == 1 && 0.5 / 1.0 == 0.5 && (0.5).Floor == 0;
  }

  /**
   * One run for every answer of the quote provider: the exchange fills half of the first child and lets it expire. The
   * submission ends with an exception, the half is open, no stop is tracked and the latch is not set, when the provider
   * raises, when the submitted quote has no last price, or when the price ran away and the filters refuse the stop.
   */
  method HalfFilled(rules: map<string, Rules>, answer: Option<Quote>, quote: Quote, bps: real)
    returns (gateway: ExecutionGateway, outcome: Outcome)
    requires (forall s :: s in rules ==> rules[s].Valid()) && "BTCUSDT" in rules
    requires rules["BTCUSDT"].NormalizeQuantity(1.0, false) == Some(1.0)
    ensures gateway.Valid() && gateway.world.rules == rules
    ensures answer.None? ==> outcome == Raised(QuoteFailed)
    ensures answer.Some? && quote.last == 0.0 ==> outcome == Raised(ZeroPrice)
    ensures answer.Some? && quote.last != 0.0 && !Near(quote, answer.value, bps)
            && StopSize(gateway.world.rules, "BTCUSDT", 0.5, 90.0).None? ==>
              outcome == Raised(NormalizerFailed)
    ensures answer.None? || quote.last == 0.0 || !Near(quote, answer.value, bps) ==> gateway.FilledFrom(0) == 0.5
    ensures outcome.Raised? ==> gateway.tracked == map[] && !gateway.uncertain
  {
    var reply := Reply(map["p" := Truth(1.0, 0.5, true)], true, true, true, Some(Report(Expired, 0.5)), None, None, answer,
                       None, None);
    var world := new World(rules, (n: nat) => reply);
    gateway := new ExecutionGateway(world, true, false, false, bps, (id: string, quantity: real) => id);
    var intent := Intent(Open, "BTCUSDT", Some(Buy), 1.0, false, Some(90.0));
    assert gateway.Fresh(gateway.Offer(intent, "p", quote, 0, 1.0)) by {
      assert world.Willing() && world.FillsPart("p", 1.0);
      assert world.Normalize("BTCUSDT", 1.0, false) == Some(1.0);
    }
    assert world.QuotesSteadily() && world.HidesPosition();
    ghost var staged := gateway.Staged(intent, quote, "p");
    outcome := gateway.Submit(intent, quote, "p");
    assert staged <==> answer.None? || quote.last == 0.0 || !Near(quote, answer.value, bps);
  }
}
