/**
 * `resolve_funding_attribution`: who owns a funding payment, decided by replaying the audited fills of
 * one venue and symbol in order of time.
 */
module FundingReplay {
  import opened Trading
  import opened AuditRules
  import opened LedgerTables
  import opened Ledger

  /** An audited fill joined to its order. */
  datatype Leg = Leg(
    trace: string, order: string, side: Side, reduceOnly: bool, quantity: real, realizedPnl: Option<real>,
    filledAt: int)
  {
    function Signed(): real { if side == Buy then quantity else -quantity }
  }

  /** Quantities below `floor`, or below `share` of everything traded so far, count as nothing. */
  datatype Slack = Slack(floor: real, share: real) {
    predicate Valid() { floor >= 0.0 && share >= 0.0 }

    function At(total: real): real { Max(floor, total * share) }
  }

  const LEDGER_SLACK := Slack(0.000000000001, 0.0000000001)

  const EXACT := Slack(0.0, 0.0)

  datatype State = Running(net: real, total: real, snaps: nat) | Rejected(reason: string)

  const START := Running(0.0, 0.0, 0)

  predicate Opposite(a: real, b: real) { (a > 0.0 && b < 0.0) || (a < 0.0 && b > 0.0) }

  /** The position went beyond zero, by more than the tolerance allows. */
  predicate Crosses(net: real, next: real, tolerance: real) { net * next < -tolerance }

  /** Why a fill cannot follow a position, if it cannot. */
  function Objection(net: real, signed: real, reduceOnly: bool, tolerance: real): Option<string> {
    var next := net + signed;
    if reduceOnly then
      if Abs(net) <= tolerance || !Opposite(net, signed) || Abs(next) > Abs(net) + tolerance || Crosses(net, next, tolerance)
      then Some("INVALID_REDUCE_ONLY_POSITION_TRANSITION") else None
    else if Abs(net) > tolerance && Opposite(net, signed)
    then Some("NON_REDUCE_ORDER_CHANGED_POSITION_DIRECTION") else None
  }

  /** The tolerance that applies to a fill. */
  function ToleranceAt(state: State, leg: Leg, slack: Slack): real {
    if state.Running? then slack.At(state.total + leg.quantity) else 0.0
  }

  function Advance(state: State, leg: Leg, tolerance: real): State {
    if state.Rejected? then state
    else if leg.realizedPnl.None? then Rejected("MISSING_REALIZED_PNL")
    else if leg.quantity <= 0.0 then Rejected("INVALID_AUDITED_FILL_SHAPE")
    else
      var objection := Objection(state.net, leg.Signed(), leg.reduceOnly, tolerance);
      if objection.Some? then Rejected(objection.value)
      else Settle(state.net + leg.Signed(), state.total + leg.quantity, state.snaps, tolerance)
  }

  /** A position within the tolerance of zero is taken to be zero; `snaps` counts how often that moved it. */
  function Settle(next: real, total: real, snaps: nat, tolerance: real): State {
    if Abs(next) > tolerance then Running(next, total, snaps)
    else Running(0.0, total, if next == 0.0 then snaps else snaps + 1)
  }

  function Replay(legs: seq<Leg>, slack: Slack): State {
    if legs == [] then START
    else
      var before, last := Replay(legs[..|legs| - 1], slack), legs[|legs| - 1];
      Advance(before, last, ToleranceAt(before, last, slack))
  }

  /** What really happened to the position. */
  function Sum(legs: seq<Leg>): real {
    if legs == [] then 0.0 else Sum(legs[..|legs| - 1]) + legs[|legs| - 1].Signed()
  }

  datatype Attribution = Attributed(trace: string, order: string) | Unattributed(reason: string)

  /** All fills at the time of the last one belong to one order of one trace. */
  predicate OneOwner(legs: seq<Leg>)
    requires legs != []
  {
    var last := legs[|legs| - 1];
    forall k :: 0 <= k < |legs| && legs[k].filledAt == last.filledAt ==>
      legs[k].trace == last.trace && legs[k].order == last.order
  }

  function Attribute(legs: seq<Leg>, slack: Slack): Attribution {
    if legs == [] then Unattributed("NO_AUDITED_FILL_AT_TRANSACTION_TIME")
    else
      var state := Replay(legs, slack);
      if state.Rejected? then Unattributed(state.reason)
      else if state.net == 0.0 then Unattributed("NO_OPEN_POSITION_AT_TRANSACTION_TIME")
      else if !OneOwner(legs) then Unattributed("AMBIGUOUS_LATEST_AUDITED_OWNER")
      else Attributed(legs[|legs| - 1].trace, legs[|legs| - 1].order)
  }

  lemma ReplayStep(legs: seq<Leg>, k: nat, slack: Slack)
    requires k < |legs|
    ensures var before := Replay(legs[..k], slack);
            Replay(legs[..k + 1], slack) == Advance(before, legs[k], ToleranceAt(before, legs[k], slack))
    ensures Sum(legs[..k + 1]) == Sum(legs[..k]) + legs[k].Signed()
  {
    assert legs[..k + 1][..k] == legs[..k];
  }

  /** Once a prefix is rejected, every longer history is rejected for the same reason. */
  lemma {:induction false} RejectionPersists(legs: seq<Leg>, more: seq<Leg>, slack: Slack)
    requires Replay(legs, slack).Rejected?
    ensures Replay(legs + more, slack) == Replay(legs, slack)
    decreases |more|
  {
    if more == [] {
      assert legs + more == legs;
    } else {
      RejectionPersists(legs, more[..|more| - 1], slack);
      assert (legs + more)[..|legs + more| - 1] == legs + more[..|more| - 1];
    }
  }

  lemma RunningPrefix(legs: seq<Leg>, k: nat, slack: Slack)
    requires k <= |legs| && Replay(legs, slack).Running?
    ensures Replay(legs[..k], slack).Running?
  {
    if Replay(legs[..k], slack).Rejected? {
      RejectionPersists(legs[..k], legs[k..], slack);
      assert legs[..k] + legs[k..] == legs;
    }
  }

  lemma OppositeSigns(a: real, b: real)
    ensures a * b < 0.0 <==> Opposite(a, b)
  {
  }

  /** One turn of the source's loop; `snaps` only counts. */
  method StepFill(net: real, total: real, leg: Leg, tolerance: real, ghost snaps: nat)
    returns (next: real, no: Option<string>)
    ensures no.Some? ==> Advance(Running(net, total, snaps), leg, tolerance) == Rejected(no.value)
    ensures no.None? ==>
              var after := Advance(Running(net, total, snaps), leg, tolerance);
              after.Running? && after.net == next && after.total == total + leg.quantity
  {
    next := net;
    if leg.realizedPnl.None? { return next, Some("MISSING_REALIZED_PNL"); }
    if leg.quantity <= 0.0 { return next, Some("INVALID_AUDITED_FILL_SHAPE"); }
    var signed := if leg.side == Buy then leg.quantity else -leg.quantity;
    no := Objects(net, signed, leg.reduceOnly, tolerance);
    if no.None? {
      next := net + signed;
      if Abs(next) <= tolerance { next := 0.0; }
    }
  }

  /** The two transition rules, written with products as in the source. */
  method Objects(net: real, signed: real, reduceOnly: bool, tolerance: real) returns (no: Option<string>)
    ensures no == Objection(net, signed, reduceOnly, tolerance)
  {
    var next := net + signed;
    OppositeSigns(net, signed);
    if reduceOnly {
      if Abs(net) <= tolerance || net * signed >= 0.0 || Abs(next) > Abs(net) + tolerance || net * next < -tolerance {
        return Some("INVALID_REDUCE_ONLY_POSITION_TRANSITION");
      }
    } else if Abs(net) > tolerance && net * signed < 0.0 {
      return Some("NON_REDUCE_ORDER_CHANGED_POSITION_DIRECTION");
    }
    no := None;
  }

  lemma StepOf(legs: seq<Leg>, k: nat, slack: Slack, state: State, after: State)
    requires k < |legs| && state == Replay(legs[..k], slack)
    requires after == Advance(state, legs[k], ToleranceAt(state, legs[k], slack))
    ensures Replay(legs[..k + 1], slack) == after
    ensures after.Rejected? ==> Replay(legs, slack) == after
  {
    ReplayStep(legs, k, slack);
    if after.Rejected? {
      RejectionPersists(legs[..k + 1], legs[k + 1..], slack);
      assert legs[..k + 1] + legs[k + 1..] == legs;
    }
  }

  /** The fold of the source: running net and total quantity, leaving at the first objection. */
  method ReplayFills(legs: seq<Leg>, slack: Slack) returns (net: real, rejection: Option<string>)
    ensures rejection == if Replay(legs, slack).Rejected? then Some(Replay(legs, slack).reason) else None
    ensures rejection.None? ==> net == Replay(legs, slack).net
  {
    net := 0.0;
    var total := 0.0;
    ghost var state := START;
    for k := 0 to |legs|
      invariant state == Replay(legs[..k], slack) && state.Running? && net == state.net && total == state.total
    {
      rejection := None;
      var sum := total + legs[k].quantity;
      var tolerance := slack.At(sum);
      ghost var after := Advance(state, legs[k], tolerance);
      net, rejection := StepFill(net, total, legs[k], tolerance, state.snaps);
      StepOf(legs, k, slack, state, after);
      if rejection.Some? { return; }
      state, total := after, sum;
    }
    assert legs[..|legs|] == legs;
    rejection := None;
  }

  /** A fill that the replay let pass at position `net` under tolerance `t`. */
  ghost predicate Fits(net: real, leg: Leg, t: real) {
    var signed := leg.Signed();
    var next := net + signed;
    && leg.quantity > 0.0 && leg.realizedPnl.Some?
    && (leg.reduceOnly ==>
         Abs(net) > t && net * signed < 0.0 && Abs(next) <= Abs(net) + t && net * next >= -t)
    && (!leg.reduceOnly && Abs(net) > t ==> net * signed >= 0.0)
  }

  /** An attributed payment has a history in which every single fill fits the position it met. */
  lemma EveryFillFits(legs: seq<Leg>, slack: Slack, k: nat)
    requires k < |legs| && Replay(legs, slack).Running?
    ensures Replay(legs[..k], slack).Running?
    ensures var before := Replay(legs[..k], slack);
            Fits(before.net, legs[k], slack.At(before.total + legs[k].quantity))
  {
    RunningPrefix(legs, k, slack);
    RunningPrefix(legs, k + 1, slack);
    ReplayStep(legs, k, slack);
    AdvanceIffFits(Replay(legs[..k], slack), legs[k], ToleranceAt(Replay(legs[..k], slack), legs[k], slack));
  }

  /** The same in terms of signs. */
  lemma FitsBySigns(net: real, leg: Leg, t: real)
    ensures Fits(net, leg, t) <==>
              && leg.quantity > 0.0 && leg.realizedPnl.Some?
              && (leg.reduceOnly ==>
                   && Abs(net) > t && Opposite(net, leg.Signed()) && Abs(net + leg.Signed()) <= Abs(net) + t
                   && !Crosses(net, net + leg.Signed(), t))
              && (!leg.reduceOnly && Abs(net) > t ==> !Opposite(net, leg.Signed()))
  {
    OppositeSigns(net, leg.Signed());
  }

  lemma ToleranceGrows(total: real, quantity: real, slack: Slack)
    requires slack.Valid() && quantity > 0.0
    ensures 0.0 <= slack.At(total) <= slack.At(total + quantity)
  {
    Scale(total, total + quantity, slack.share);
  }

  /** One tolerance for each snap. */
  function Allowance(snaps: nat, tolerance: real): real {
    if snaps == 0 then 0.0 else Allowance(snaps - 1, tolerance) + tolerance
  }

  lemma {:induction false} AllowanceIsProduct(snaps: nat, tolerance: real)
    ensures Allowance(snaps, tolerance) == snaps as real * tolerance
  {
    if snaps > 0 {
      AllowanceIsProduct(snaps - 1, tolerance);
      OneMore((snaps - 1) as real, tolerance);
    }
  }

  lemma {:induction false} AllowanceGrows(snaps: nat, t: real, u: real)
    requires t <= u
    ensures Allowance(snaps, t) <= Allowance(snaps, u)
  {
    if snaps > 0 { AllowanceGrows(snaps - 1, t, u); }
  }

  /** One step moves the gap between the running and the true position only on a snap, by at most the tolerance. */
  lemma GapStep(before: State, after: State, leg: Leg, tolerance: real, sum: real)
    requires before.Running? && after == Advance(before, leg, tolerance) && after.Running?
    ensures leg.quantity > 0.0 && after.total == before.total + leg.quantity
    ensures after.snaps == before.snaps ==> after.net - (sum + leg.Signed()) == before.net - sum
    ensures after.snaps != before.snaps ==>
              after.snaps == before.snaps + 1 && Abs(after.net - (sum + leg.Signed())) <= Abs(before.net - sum) + tolerance
  {
  }

  /** The running position differs from the true one by at most the final tolerance for each snap to zero. */
  lemma {:induction false} NetIsNearSum(legs: seq<Leg>, slack: Slack)
    requires slack.Valid() && Replay(legs, slack).Running?
    ensures var end := Replay(legs, slack);
            Abs(end.net - Sum(legs)) <= Allowance(end.snaps, slack.At(end.total))
  {
    if legs != [] {
      var last := |legs| - 1;
      assert legs[..last + 1] == legs;
      RunningPrefix(legs, last, slack);
      ReplayStep(legs, last, slack);
      NetIsNearSum(legs[..last], slack);
      var before, after, leg := Replay(legs[..last], slack), Replay(legs, slack), legs[last];
      GapStep(before, after, leg, slack.At(before.total + leg.quantity), Sum(legs[..last]));
      ToleranceGrows(before.total, leg.quantity, slack);
      AllowanceGrows(before.snaps, slack.At(before.total), slack.At(after.total));
    }
  }

  // Without tolerance

  /** A fill that respects the true position: exits shrink it without crossing zero, entries never oppose it. */
  predicate Respects(position: real, leg: Leg) {
    && leg.quantity > 0.0 && leg.realizedPnl.Some?
    && (leg.reduceOnly ==> Opposite(position, leg.Signed()) && leg.quantity <= Abs(position))
    && (!leg.reduceOnly ==> !Opposite(position, leg.Signed()))
  }

  lemma ExactFits(position: real, leg: Leg)
    ensures Fits(position, leg, 0.0) <==> Respects(position, leg)
  {
    FitsBySigns(position, leg, 0.0);
    OppositeSigns(position, position + leg.Signed());
  }

  lemma AdvanceIffFits(state: State, leg: Leg, tolerance: real)
    requires state.Running?
    ensures Advance(state, leg, tolerance).Running? <==> Fits(state.net, leg, tolerance)
  {
    FitsBySigns(state.net, leg, tolerance);
  }

  lemma ExactStep(before: State, leg: Leg)
    requires before.Running?
    ensures Advance(before, leg, 0.0).Running? <==> Respects(before.net, leg)
    ensures Advance(before, leg, 0.0).Running? ==> Advance(before, leg, 0.0).net == before.net + leg.Signed()
  {
    AdvanceIffFits(before, leg, 0.0);
    ExactFits(before.net, leg);
  }

  /** Every fill respects the sum of the fills before it. */
  ghost predicate AllRespect(legs: seq<Leg>) {
    forall k :: 0 <= k < |legs| ==> RespectsAt(legs, k)
  }

  ghost predicate RespectsAt(legs: seq<Leg>, k: nat)
    requires k < |legs|
  {
    Respects(Sum(legs[..k]), legs[k])
  }

  lemma AllRespectStep(legs: seq<Leg>)
    requires legs != []
    ensures var last := |legs| - 1;
            AllRespect(legs) <==> AllRespect(legs[..last]) && Respects(Sum(legs[..last]), legs[last])
  {
    var last := |legs| - 1;
    forall k | 0 <= k < last
      ensures RespectsAt(legs, k) <==> RespectsAt(legs[..last], k)
    {
      assert legs[..last][..k] == legs[..k];
    }
    assert RespectsAt(legs, last) <==> Respects(Sum(legs[..last]), legs[last]);
  }

  /** With no tolerance the replay accepts exactly the histories that respect the true position, and computes it. */
  lemma {:induction false} ExactReplay(legs: seq<Leg>)
    ensures Replay(legs, EXACT).Running? <==> AllRespect(legs)
    ensures Replay(legs, EXACT).Running? ==> Replay(legs, EXACT).net == Sum(legs)
  {
    if legs != [] {
      var last := |legs| - 1;
      assert legs[..last + 1] == legs;
      ExactReplay(legs[..last]);
      ReplayStep(legs, last, EXACT);
      AllRespectStep(legs);
      if Replay(legs[..last], EXACT).Running? { ExactStep(Replay(legs[..last], EXACT), legs[last]); }
    }
  }

  // The query

  function LegOf(t: Tables, f: Fill): Leg
    requires f.order in t.orders
  {
    Leg(f.trace, f.order, t.orders[f.order].side, t.orders[f.order].reduceOnly, f.quantity, f.realizedPnl, f.filledAt)
  }

  function LegsOf(t: Tables, rows: seq<Fill>): seq<Leg>
    requires forall f :: f in rows ==> f.order in t.orders
  {
    seq(|rows|, k requires 0 <= k < |rows| => LegOf(t, rows[k]))
  }

  /** The rows that the query returns, in its order. */
  ghost predicate QueryResult(t: Tables, venue: string, symbol: string, at: int, rows: seq<Fill>) {
    && (forall f :: f in rows <==>
          && f in t.fills && f.filledAt <= at
          && f.order in t.orders && t.orders[f.order].venue == venue && t.orders[f.order].symbol == symbol)
    && (forall i, k :: 0 <= i < k < |rows| ==> rows[i].filledAt <= rows[k].filledAt)
  }

  /** What the fills of the orders on one side add up to. */
  ghost function Traded(t: Tables, rows: seq<Fill>, side: Side): real
    requires forall f :: f in rows ==> f.order in t.orders
  {
    if rows == [] then 0.0
    else
      var last := rows[|rows| - 1];
      Traded(t, rows[..|rows| - 1], side) + (if t.orders[last.order].side == side then last.quantity else 0.0)
  }

  /** The true position is what was bought less what was sold. */
  lemma {:induction false} SumIsBoughtLessSold(t: Tables, rows: seq<Fill>)
    requires forall f :: f in rows ==> f.order in t.orders
    ensures Sum(LegsOf(t, rows)) == Traded(t, rows, Buy) - Traded(t, rows, Sell)
  {
    if rows != [] {
      SumIsBoughtLessSold(t, rows[..|rows| - 1]);
      assert LegsOf(t, rows)[..|rows| - 1] == LegsOf(t, rows[..|rows| - 1]);
    }
  }

  /** The tolerance of the ledger is the floor up to a total of a hundredth, then a ten-billionth of the total. */
  lemma LedgerTolerance(total: real)
    ensures LEDGER_SLACK.Valid()
    ensures total <= 0.01 ==> LEDGER_SLACK.At(total) == DUST
    ensures total >= 0.01 ==> LEDGER_SLACK.At(total) * 10000000000.0 == total
  {
  }

  /**
   * In an attributed history every fill has a realized profit and a positive quantity, the first one is no reduction, and
   * the position is what was bought less what was sold, up to one tolerance for each snap to zero.
   */
  lemma AttributedRows(t: Tables, rows: seq<Fill>)
    requires rows != [] && forall f :: f in rows ==> f.order in t.orders
    requires Attribute(LegsOf(t, rows), LEDGER_SLACK).Attributed?
    ensures forall f :: f in rows ==> f.realizedPnl.Some? && f.quantity > 0.0
    ensures !t.orders[rows[0].order].reduceOnly
    ensures var end := Replay(LegsOf(t, rows), LEDGER_SLACK);
            && end.net != 0.0
            && Abs(end.net - (Traded(t, rows, Buy) - Traded(t, rows, Sell))) <= Allowance(end.snaps, LEDGER_SLACK.At(end.total))
  {
    var legs := LegsOf(t, rows);
    forall k | 0 <= k < |rows|
      ensures rows[k].realizedPnl.Some? && rows[k].quantity > 0.0 && (k == 0 ==> !t.orders[rows[k].order].reduceOnly)
    {
      AcceptedRow(t, rows, k);
    }
    NetIsNearSum(legs, LEDGER_SLACK);
    SumIsBoughtLessSold(t, rows);
  }

  lemma AcceptedRow(t: Tables, rows: seq<Fill>, k: nat)
    requires k < |rows| && forall f :: f in rows ==> f.order in t.orders
    requires Replay(LegsOf(t, rows), LEDGER_SLACK).Running?
    ensures rows[k].realizedPnl.Some? && rows[k].quantity > 0.0 && (k == 0 ==> !t.orders[rows[k].order].reduceOnly)
  {
    var legs := LegsOf(t, rows);
    EveryFillFits(legs, LEDGER_SLACK, k);
    assert legs[k] == LegOf(t, rows[k]);
    if k == 0 { assert legs[..0] == []; }
  }

  /** Every selected fill at the time of the last one belongs to the owner found. */
  lemma OwnerOfLatest(t: Tables, rows: seq<Fill>, f: Fill, slack: Slack)
    requires rows != [] && f in rows && f.filledAt == rows[|rows| - 1].filledAt
    requires forall row :: row in rows ==> row.order in t.orders
    requires Attribute(LegsOf(t, rows), slack).Attributed?
    ensures Attribute(LegsOf(t, rows), slack) == Attributed(f.trace, f.order)
  {
    var k :| 0 <= k < |rows| && rows[k] == f;
    assert LegsOf(t, rows)[k] == LegOf(t, f);
  }

  method Resolve(repo: AuditRepository, venue: string, symbol: string, at: int, rows: seq<Fill>)
    returns (r: Attribution)
    requires repo.Valid() && QueryResult(repo.tables, venue, symbol, at, rows)
    ensures venue == "" || symbol == "" ==> r == Unattributed("MISSING_VENUE_OR_SYMBOL")
    ensures venue != "" && symbol != "" ==>
              if forall i :: 0 <= i < |rows| ==> rows[i].order in SoundOrders(repo.tables, repo.hash) then
                r == Attribute(LegsOf(repo.tables, rows), LEDGER_SLACK)
              else r == Unattributed("INVALID_AUDIT_TRACE")
  {
    if venue == "" || symbol == "" { return Unattributed("MISSING_VENUE_OR_SYMBOL"); }
    if rows == [] { return Unattributed("NO_AUDITED_FILL_AT_TRANSACTION_TIME"); }
    assert forall i :: 0 <= i < |rows| ==> rows[i] in rows;
    var sound := AllSound(repo, rows, SoundOrders(repo.tables, repo.hash));
    if !sound { return Unattributed("INVALID_AUDIT_TRACE"); }
    r := AttributeFills(LegsOf(repo.tables, rows), LEDGER_SLACK);
  }

  method AttributeFills(legs: seq<Leg>, slack: Slack) returns (r: Attribution)
    requires legs != []
    ensures r == Attribute(legs, slack)
  {
    var net, rejection := ReplayFills(legs, slack);
    if rejection.Some? { return Unattributed(rejection.value); }
    if net == 0.0 { return Unattributed("NO_OPEN_POSITION_AT_TRANSACTION_TIME"); }
    if !OneOwner(legs) { return Unattributed("AMBIGUOUS_LATEST_AUDITED_OWNER"); }
    r := Attributed(legs[|legs| - 1].trace, legs[|legs| - 1].order);
  }

  /** The orders whose recorded trace is sound. */
  ghost function SoundOrders(t: Tables, hash: string -> string): set<string> {
    set order | order in t.orders && TraceSound(t, order, hash)
  }

  /** `validate_order_trace` for the order of each fill, up to the first that fails. */
  method AllSound(repo: AuditRepository, rows: seq<Fill>, ghost good: set<string>) returns (sound: bool)
    requires repo.Valid() && forall i :: 0 <= i < |rows| ==> rows[i].order in repo.tables.orders
    requires good == SoundOrders(repo.tables, repo.hash)
    ensures sound <==> forall i :: 0 <= i < |rows| ==> rows[i].order in good
  {
    for k := 0 to |rows|
      invariant forall i :: 0 <= i < k ==> rows[i].order in good
    {
      sound := IsSound(repo, rows[k], good);
      if !sound { return; }
    }
    sound := true;
  }

  method IsSound(repo: AuditRepository, f: Fill, ghost good: set<string>) returns (sound: bool)
    requires repo.Valid() && f.order in repo.tables.orders && good == SoundOrders(repo.tables, repo.hash)
    ensures sound <==> f.order in good
  {
    WellFormedIsKeyed(repo.tables, repo.hash);
    var missing := repo.ValidateOrderTrace(f.order);
    sound := missing.value == [];
  }
}
