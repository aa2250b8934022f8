/**
 * The tables of the audit ledger as values: what makes them well formed, what it means for one state
 * to be a later one, and when the recorded trace of an order is sound.
 */
module LedgerTables {
  import opened Trading
  import opened AuditRules

  datatype OrderEvent = OrderEvent(
    id: string, trace: string, order: string, sequence: int, kind: string, status: string,
    sourceEvent: Option<string>, executed: real, observedAt: int)

  datatype Fill = Fill(
    id: string, trace: string, order: string, externalId: Option<string>, price: real, quantity: real,
    fee: real, realizedPnl: Option<real>, filledAt: int, createdAt: int)

  datatype Link = Link(id: string, trace: string, candidate: string, record: string)

  datatype Accounting = Accounting(
    id: string, trace: Option<string>, order: Option<string>, venue: string, income: string,
    symbol: Option<string>, kind: string, asset: string, amount: real, time: int, tradeId: Option<string>)

  datatype Tables = Tables(
    candidates: map<string, Candidate>, decisions: map<string, Decision>, risks: map<string, Risk>,
    orders: map<string, Order>, theses: seq<Thesis>, events: seq<OrderEvent>, evidence: seq<Evidence>,
    links: seq<Link>, fills: seq<Fill>, accounting: seq<Accounting>)

  // Selections

  /** The rows of a table that satisfy a condition, in insertion order. */
  function Where<T(!new)>(rows: seq<T>, keep: T -> bool): (r: seq<T>)
    ensures forall e :: e in r <==> e in rows && keep(e)
  {
    if rows == [] then []
    else
      var last := rows[|rows| - 1];
      var before := Where(rows[..|rows| - 1], keep);
      assert rows == rows[..|rows| - 1] + [last];
      if keep(last) then before + [last] else before
  }

  lemma WhereAppended<T(!new)>(rows: seq<T>, row: T, keep: T -> bool)
    ensures Where(rows + [row], keep) == if keep(row) then Where(rows, keep) + [row] else Where(rows, keep)
  {
    assert (rows + [row])[..|rows|] == rows;
  }

  /** Conditions that agree on the rows select the same rows. */
  lemma {:induction false} WhereAgrees<T(!new)>(rows: seq<T>, keep: T -> bool, other: T -> bool)
    requires forall k :: 0 <= k < |rows| ==> keep(rows[k]) == other(rows[k])
    ensures Where(rows, keep) == Where(rows, other)
  {
    if rows != [] { WhereAgrees(rows[..|rows| - 1], keep, other); }
  }

  function EventsOf(events: seq<OrderEvent>, order: string): (r: seq<OrderEvent>)
    ensures forall e :: e in r <==> e in events && e.order == order
  {
    Where(events, (e: OrderEvent) => e.order == order)
  }

  function Versions(evidence: seq<Evidence>, id: string): (r: seq<Evidence>)
    ensures forall e :: e in r <==> e in evidence && e.evidenceId == id
  {
    Where(evidence, (e: Evidence) => e.evidenceId == id)
  }

  function ThesesAt(theses: seq<Thesis>, position: string): (r: seq<Thesis>)
    ensures forall e :: e in r <==> e in theses && e.position == position
  {
    Where(theses, (e: Thesis) => e.position == position)
  }

  function ThesesFor(theses: seq<Thesis>, decision: string): (r: seq<Thesis>)
    ensures forall e :: e in r <==> e in theses && e.decision == decision
  {
    Where(theses, (e: Thesis) => e.decision == decision)
  }

  function RecordsLinked(links: seq<Link>, candidate: string): (r: seq<string>)
    ensures forall record :: record in r <==>
              exists k :: 0 <= k < |links| && links[k].candidate == candidate && links[k].record == record
  {
    if links == [] then []
    else
      var last := links[|links| - 1];
      var before := RecordsLinked(links[..|links| - 1], candidate);
      if last.candidate == candidate then before + [last.record] else before
  }

  function Lookup(evidence: seq<Evidence>, record: string): (r: Option<Evidence>)
    ensures r.Some? ==> r.value in evidence && r.value.record == record
    ensures r.None? <==> forall e :: e in evidence ==> e.record != record
  {
    if evidence == [] then None
    else
      var last := evidence[|evidence| - 1];
      assert evidence == evidence[..|evidence| - 1] + [last];
      if last.record == record then Some(last) else Lookup(evidence[..|evidence| - 1], record)
  }

  function Gather(evidence: seq<Evidence>, records: seq<string>): (r: seq<Evidence>)
    ensures forall e :: e in r ==> e in evidence && e.record in records
    ensures forall record :: record in records && Lookup(evidence, record).Some? ==> Lookup(evidence, record).value in r
  {
    if records == [] then []
    else
      var last := records[|records| - 1];
      var before := Gather(evidence, records[..|records| - 1]);
      assert records == records[..|records| - 1] + [last];
      var found := Lookup(evidence, last);
      if found.Some? then before + [found.value] else before
  }

  /** The evidence rows joined to a candidate through its links. */
  function Linked(links: seq<Link>, evidence: seq<Evidence>, candidate: string): seq<Evidence> {
    Gather(evidence, RecordsLinked(links, candidate))
  }

  // Well-formed tables

  /** One order's events: numbered from one without gaps, no source event twice. */
  ghost predicate EventChain(rows: seq<OrderEvent>) {
    && (forall k :: 0 <= k < |rows| ==> rows[k].sequence == k + 1)
    && (forall i, k :: 0 <= i < k < |rows| && rows[i].sourceEvent.Some? ==> rows[i].sourceEvent != rows[k].sourceEvent)
  }

  /** One evidence id: versions from one without gaps, each naming its predecessor, one source, one first sight. */
  ghost predicate VersionChain(rows: seq<Evidence>) {
    && (forall k :: 0 <= k < |rows| ==> rows[k].version == k + 1)
    && (rows != [] ==> rows[0].prior.None?)
    && (forall k :: 1 <= k < |rows| ==> rows[k].prior == Some(rows[k - 1].record))
    && (forall k :: 0 <= k < |rows| ==>
         && rows[k].source == rows[0].source && rows[k].sourceId == rows[0].sourceId
         && rows[k].firstObservedAt == rows[0].firstObservedAt)
  }

  /** One position: thesis versions from one without gaps, linked backwards, adds never undone and at most one. */
  ghost predicate ThesisChain(rows: seq<Thesis>) {
    && (forall k :: 0 <= k < |rows| ==> rows[k].version == k + 1)
    && (rows != [] ==> rows[0].prior.None?)
    && (forall k :: 1 <= k < |rows| ==> rows[k].prior == Some(rows[k - 1].id))
    && (forall k :: 0 <= k < |rows| ==> 0 <= rows[k].addCount <= 1 && rows[k].supporting != [])
    && (forall i, k :: 0 <= i <= k < |rows| ==> rows[i].addCount <= rows[k].addCount)
  }

  ghost predicate CandidatesOk(candidates: map<string, Candidate>) {
    forall id :: id in candidates ==>
      && candidates[id].id == id && candidates[id].maxQuantity > 0.0 && candidates[id].maxRiskFraction > 0.0
  }

  ghost predicate DecisionsOk(candidates: map<string, Candidate>, decisions: map<string, Decision>) {
    forall id :: id in decisions ==> DecisionOk(candidates, id, decisions[id])
  }

  ghost predicate DecisionOk(candidates: map<string, Candidate>, id: string, d: Decision) {
    && d.id == id && d.candidate in candidates && candidates[d.candidate].trace == d.trace
    && 0.0 <= d.multiplier <= 1.0 && 0.0 <= d.confidence <= 1.0
  }

  ghost predicate RisksOk(candidates: map<string, Candidate>, decisions: map<string, Decision>, risks: map<string, Risk>) {
    forall id :: id in risks ==> RiskOk(candidates, decisions, id, risks[id])
  }

  ghost predicate RiskOk(candidates: map<string, Candidate>, decisions: map<string, Decision>, id: string, r: Risk) {
    && r.id == id && r.approved >= 0.0
    && r.candidate in candidates && candidates[r.candidate].trace == r.trace
    && r.decision in decisions && decisions[r.decision].trace == r.trace
    && decisions[r.decision].candidate == r.candidate
  }

  ghost predicate OrderOk(t: Tables, id: string, o: Order) {
    && o.id == id && o.quantity > 0.0
    && o.candidate in t.candidates && t.candidates[o.candidate].trace == o.trace
    && o.decision in t.decisions && t.decisions[o.decision].trace == o.trace
    && o.risk in t.risks && t.risks[o.risk].trace == o.trace
  }

  ghost predicate OrdersOk(t: Tables) {
    && (forall id :: id in t.orders ==> OrderOk(t, id, t.orders[id]))
    && (forall a, b :: a in t.orders && b in t.orders && t.orders[a].clientId == t.orders[b].clientId ==> a == b)
  }

  ghost predicate ThesesOk(decisions: map<string, Decision>, theses: seq<Thesis>) {
    && (forall k :: 0 <= k < |theses| ==>
         theses[k].decision in decisions && decisions[theses[k].decision].trace == theses[k].trace)
    && (forall position :: ThesisChain(ThesesAt(theses, position)))
  }

  ghost predicate EventsOk(orders: map<string, Order>, events: seq<OrderEvent>) {
    && (forall k :: 0 <= k < |events| ==>
         events[k].order in orders && orders[events[k].order].trace == events[k].trace)
    && (forall o :: o in orders ==> EventsOf(events, o) != [])
    && (forall o :: EventChain(EventsOf(events, o)))
  }

  ghost predicate EvidenceOk(evidence: seq<Evidence>, hash: string -> string) {
    && (forall k :: 0 <= k < |evidence| ==> evidence[k].contentHash == hash(evidence[k].payload))
    && (forall i, k :: 0 <= i < k < |evidence| ==> evidence[i].record != evidence[k].record)
    && (forall id :: VersionChain(Versions(evidence, id)))
  }

  ghost predicate LinkOk(candidates: map<string, Candidate>, evidence: seq<Evidence>, l: Link) {
    && l.candidate in candidates && candidates[l.candidate].trace == l.trace
    && Lookup(evidence, l.record).Some?
    && Lookup(evidence, l.record).value.evidenceId in candidates[l.candidate].evidenceIds
    && Lookup(evidence, l.record).value.deletedAt.None?
  }

  ghost predicate SameLink(a: Link, b: Link) { a.candidate == b.candidate && a.record == b.record }

  ghost predicate LinksOk(candidates: map<string, Candidate>, evidence: seq<Evidence>, links: seq<Link>) {
    && (forall k :: 0 <= k < |links| ==> LinkOk(candidates, evidence, links[k]))
    && (forall i, k :: 0 <= i < k < |links| ==> !SameLink(links[i], links[k]))
  }

  ghost predicate FillsOk(orders: map<string, Order>, fills: seq<Fill>) {
    && (forall k :: 0 <= k < |fills| ==> FillOk(orders, fills[k]))
    && (forall i, k :: 0 <= i < k < |fills| ==> !SameFill(fills[i], fills[k]))
  }

  ghost predicate FillOk(orders: map<string, Order>, f: Fill) {
    && f.order in orders && orders[f.order].trace == f.trace
    && f.price > 0.0 && f.quantity > 0.0 && f.fee >= 0.0
  }

  /** Two rows for one trade of an order. */
  predicate SameFill(a: Fill, b: Fill) {
    a.externalId.Some? && a.order == b.order && a.externalId == b.externalId
  }

  ghost predicate AccountingOk(orders: map<string, Order>, accounting: seq<Accounting>) {
    && (forall k :: 0 <= k < |accounting| ==> CashFlowOk(orders, accounting[k]))
    && (forall i, k :: 0 <= i < k < |accounting| ==> !SameIncome(accounting[i], accounting[k]))
  }

  ghost predicate CashFlowOk(orders: map<string, Order>, a: Accounting) {
    a.order.Some? ==> a.order.value in orders && a.trace == Some(orders[a.order.value].trace)
  }

  ghost predicate SameIncome(a: Accounting, b: Accounting) { a.venue == b.venue && a.income == b.income }

  /** Orders, candidates and decisions are filed under their own ids, as primary keys are. */
  ghost predicate Keyed(t: Tables) {
    && (forall id :: id in t.orders ==> t.orders[id].id == id)
    && (forall id :: id in t.candidates ==> t.candidates[id].id == id)
    && (forall id :: id in t.decisions ==> t.decisions[id].id == id)
  }

  datatype Part =
    | CandidateRows | DecisionRows | RiskRows | OrderRows | ThesisRows | EventRows | EvidenceRows | LinkRows | FillRows
    | CashRows

  ghost predicate PartOk(part: Part, t: Tables, hash: string -> string) {
    match part
    case CandidateRows => CandidatesOk(t.candidates)
    case DecisionRows => DecisionsOk(t.candidates, t.decisions)
    case RiskRows => RisksOk(t.candidates, t.decisions, t.risks)
    case OrderRows => OrdersOk(t)
    case ThesisRows => ThesesOk(t.decisions, t.theses)
    case EventRows => EventsOk(t.orders, t.events)
    case EvidenceRows => EvidenceOk(t.evidence, hash)
    case LinkRows => LinksOk(t.candidates, t.evidence, t.links)
    case FillRows => FillsOk(t.orders, t.fills)
    case CashRows => AccountingOk(t.orders, t.accounting)
  }

  ghost predicate WellFormed(t: Tables, hash: string -> string) {
    forall part :: PartOk(part, t, hash)
  }

  lemma WellFormedIsKeyed(t: Tables, hash: string -> string)
    requires WellFormed(t, hash)
    ensures Keyed(t)
  {
    assert PartOk(CandidateRows, t, hash) && PartOk(DecisionRows, t, hash) && PartOk(OrderRows, t, hash);
    assert forall id :: id in t.decisions ==> DecisionOk(t.candidates, id, t.decisions[id]);
    assert forall id :: id in t.orders ==> OrderOk(t, id, t.orders[id]);
  }

  // What a growing table does to the tables that refer to it

  lemma OrdersSurvive(t: Tables, u: Tables)
    requires OrdersOk(t) && u.orders == t.orders
    requires Grows(t.candidates, u.candidates) && Grows(t.decisions, u.decisions) && Grows(t.risks, u.risks)
    ensures OrdersOk(u)
  {
    forall id | id in u.orders
      ensures OrderOk(u, id, u.orders[id])
    {
      assert OrderOk(t, id, t.orders[id]);
    }
  }

  lemma DecisionsSurvive(candidates: map<string, Candidate>, later: map<string, Candidate>, decisions: map<string, Decision>)
    requires DecisionsOk(candidates, decisions) && Grows(candidates, later)
    ensures DecisionsOk(later, decisions)
  {
    assert forall id :: id in decisions ==> DecisionOk(candidates, id, decisions[id]);
  }

  lemma RisksSurvive(t: Tables, u: Tables)
    requires RisksOk(t.candidates, t.decisions, t.risks)
    requires Grows(t.candidates, u.candidates) && Grows(t.decisions, u.decisions)
    ensures RisksOk(u.candidates, u.decisions, t.risks)
  {
    assert forall id :: id in t.risks ==> RiskOk(t.candidates, t.decisions, id, t.risks[id]);
  }

  lemma ThesesSurvive(decisions: map<string, Decision>, later: map<string, Decision>, theses: seq<Thesis>)
    requires ThesesOk(decisions, theses) && Grows(decisions, later)
    ensures ThesesOk(later, theses)
  {
  }

  lemma LinksSurviveCandidates(
      candidates: map<string, Candidate>, later: map<string, Candidate>, evidence: seq<Evidence>, links: seq<Link>)
    requires LinksOk(candidates, evidence, links) && Grows(candidates, later)
    ensures LinksOk(later, evidence, links)
  {
    forall k | 0 <= k < |links|
      ensures LinkOk(later, evidence, links[k])
    {
      assert LinkOk(candidates, evidence, links[k]);
    }
  }

  // Later states

  ghost predicate Grows<K, V>(m: map<K, V>, n: map<K, V>) {
    forall k :: k in m ==> k in n && n[k] == m[k]
  }

  /** Rows are only ever appended. */
  ghost predicate Extends(t: Tables, u: Tables) {
    && Grows(t.candidates, u.candidates) && Grows(t.decisions, u.decisions)
    && Grows(t.risks, u.risks) && Grows(t.orders, u.orders)
    && t.theses <= u.theses && t.events <= u.events && t.evidence <= u.evidence
    && t.links <= u.links && t.fills <= u.fills && t.accounting <= u.accounting
  }

  lemma ExtendsTransitively(t: Tables, u: Tables, v: Tables)
    requires Extends(t, u) && Extends(u, v)
    ensures Extends(t, v)
  {
  }

  // The trace of an order

  /** The rows that `get_trace` returns for the order's trace and that belong to the order. */
  function TracedEvents(events: seq<OrderEvent>, trace: string, order: string): seq<OrderEvent> {
    Where(events, (e: OrderEvent) => e.trace == trace && e.order == order)
  }

  function TracedTheses(theses: seq<Thesis>, trace: string, decision: string): seq<Thesis> {
    Where(theses, (e: Thesis) => e.trace == trace && e.decision == decision)
  }

  function Sequences(events: seq<OrderEvent>): (r: seq<int>)
    ensures |r| == |events| && forall k :: 0 <= k < |r| ==> r[k] == events[k].sequence
  {
    seq(|events|, k requires 0 <= k < |events| => events[k].sequence)
  }

  function OneTo(n: nat): (r: seq<int>)
    ensures |r| == n && forall k :: 0 <= k < n ==> r[k] == k + 1
  {
    seq(n, k => k + 1)
  }

  /** `sorted(sequences) == range(1, n + 1)`. */
  predicate Gapless(events: seq<OrderEvent>) { multiset(Sequences(events)) == multiset(OneTo(|events|)) }

  ghost predicate HasLineage(t: Tables, o: Order) {
    && o.candidate in t.candidates && t.candidates[o.candidate].trace == o.trace
    && o.decision in t.decisions && t.decisions[o.decision].trace == o.trace
    && o.risk in t.risks && t.risks[o.risk].trace == o.trace
  }

  function PapersOf(t: Tables, o: Order): Papers
    requires o.candidate in t.candidates && o.decision in t.decisions && o.risk in t.risks
  {
    Papers(o, t.candidates[o.candidate], t.decisions[o.decision], t.risks[o.risk])
  }

  /** Both checkers are silent. */
  ghost predicate CheckersPass(papers: Papers, theses: seq<Thesis>, linked: seq<Evidence>, hash: string -> string) {
    Sound(papers, theses) && EvidenceSound(papers.candidate, linked, hash)
  }

  /** What `validate_order_trace` checks. */
  ghost predicate TraceSound(t: Tables, order: string, hash: string -> string) {
    && order in t.orders
    && HasLineage(t, t.orders[order])
    && var o := t.orders[order];
       var events := TracedEvents(t.events, o.trace, order);
       && CheckersPass(PapersOf(t, o), TracedTheses(t.theses, o.trace, o.decision),
                       Linked(t.links, t.evidence, o.candidate), hash)
       && events != [] && Gapless(events)
  }

  // Which codes the validator reports

  ghost predicate CandidateKnown(t: Tables, o: Order) {
    o.candidate in t.candidates && t.candidates[o.candidate].trace == o.trace
  }

  ghost predicate DecisionKnown(t: Tables, o: Order) {
    o.decision in t.decisions && t.decisions[o.decision].trace == o.trace
  }

  ghost predicate RiskKnown(t: Tables, o: Order) { o.risk in t.risks && t.risks[o.risk].trace == o.trace }

  /** A row the order refers to is missing, empty, or of another candidate or decision. */
  ghost predicate LineageReports(t: Tables, o: Order, code: Code) {
    || (code == MissingCandidate && !CandidateKnown(t, o))
    || (code == MissingSourceEvidence && CandidateKnown(t, o) && t.candidates[o.candidate].evidenceIds == [])
    || (code == MissingDecision && !DecisionKnown(t, o))
    || (code == DecisionCandidateMismatch && DecisionKnown(t, o) && t.decisions[o.decision].candidate != o.candidate)
    || (code == MissingRisk && !RiskKnown(t, o))
    || (code == RiskLineageMismatch && RiskKnown(t, o)
        && (t.risks[o.risk].candidate != o.candidate || t.risks[o.risk].decision != o.decision))
  }

  /** One of the two checkers objects; without the rows they need, only the thesis is asked for. */
  ghost predicate ContentReports(t: Tables, o: Order, hash: string -> string, code: Code) {
    var theses := TracedTheses(t.theses, o.trace, o.decision);
    if HasLineage(t, o) then
      || Violates(code, PapersOf(t, o), theses)
      || EvidenceViolates(code, t.candidates[o.candidate], Linked(t.links, t.evidence, o.candidate), hash)
    else code == MissingPositionThesis && theses == []
  }

  ghost predicate HistoryReports(t: Tables, o: Order, code: Code) {
    var events := TracedEvents(t.events, o.trace, o.id);
    (code == MissingEventHistory && events == []) || (code == EventSequenceGap && events != [] && !Gapless(events))
  }

  ghost predicate TraceReports(t: Tables, o: Order, hash: string -> string, code: Code) {
    LineageReports(t, o, code) || ContentReports(t, o, hash, code) || HistoryReports(t, o, code)
  }

  ghost predicate NothingReported(t: Tables, o: Order, hash: string -> string) {
    forall code :: !TraceReports(t, o, hash, code)
  }

  /** A trace is sound exactly when nothing is to be reported. */
  lemma SoundIffNothingReported(t: Tables, order: string, hash: string -> string)
    requires Keyed(t) && order in t.orders
    ensures TraceSound(t, order, hash) <==> NothingReported(t, t.orders[order], hash)
  {
    var o := t.orders[order];
    if TraceSound(t, order, hash) {
      SoundReportsNothing(t, o, hash);
    } else if NothingReported(t, o, hash) {
      SilenceIsSound(t, o, hash);
      assert false;
    }
  }

  lemma SoundReportsNothing(t: Tables, o: Order, hash: string -> string)
    requires Keyed(t) && o.id in t.orders && t.orders[o.id] == o && TraceSound(t, o.id, hash)
    ensures NothingReported(t, o, hash)
  {
    var papers := PapersOf(t, o);
    SoundByPart(papers, TracedTheses(t.theses, o.trace, o.decision));
    assert !papers.Violates(MissingSourceEvidence) && !papers.Violates(DecisionCandidateMismatch);
    assert !papers.Violates(RiskLineageMismatch);
    forall code
      ensures !TraceReports(t, o, hash, code)
    {
      assert !LineageReports(t, o, code) && !ContentReports(t, o, hash, code);
    }
  }

  lemma SilenceIsSound(t: Tables, o: Order, hash: string -> string)
    requires o.id in t.orders && t.orders[o.id] == o && NothingReported(t, o, hash)
    ensures TraceSound(t, o.id, hash)
  {
    assert !TraceReports(t, o, hash, MissingCandidate) && !TraceReports(t, o, hash, MissingDecision);
    assert !TraceReports(t, o, hash, MissingRisk) && HasLineage(t, o);
    assert !TraceReports(t, o, hash, MissingEventHistory) && !TraceReports(t, o, hash, EventSequenceGap);
    assert Sound(PapersOf(t, o), TracedTheses(t.theses, o.trace, o.decision)) by {
      forall code
        ensures !Violates(code, PapersOf(t, o), TracedTheses(t.theses, o.trace, o.decision))
      {
        assert !TraceReports(t, o, hash, code);
      }
    }
    forall code
      ensures !EvidenceViolates(code, t.candidates[o.candidate], Linked(t.links, t.evidence, o.candidate), hash)
    {
      assert !TraceReports(t, o, hash, code);
    }
  }

  // The validator's selections agree with those made when an order is recorded

  lemma TracedEventsAreAll(events: seq<OrderEvent>, trace: string, order: string)
    requires forall k :: 0 <= k < |events| && events[k].order == order ==> events[k].trace == trace
    ensures TracedEvents(events, trace, order) == EventsOf(events, order)
  {
    WhereAgrees(events, (e: OrderEvent) => e.trace == trace && e.order == order, (e: OrderEvent) => e.order == order);
  }

  lemma TracedThesesAreAll(theses: seq<Thesis>, trace: string, decision: string)
    requires forall k :: 0 <= k < |theses| && theses[k].decision == decision ==> theses[k].trace == trace
    ensures TracedTheses(theses, trace, decision) == ThesesFor(theses, decision)
  {
    WhereAgrees(theses, (e: Thesis) => e.trace == trace && e.decision == decision, (e: Thesis) => e.decision == decision);
  }

  lemma EventChainIsGapless(rows: seq<OrderEvent>)
    requires EventChain(rows)
    ensures Gapless(rows)
  {
    assert Sequences(rows) == OneTo(|rows|);
  }

  /** In well-formed tables an order's history is always complete, so only the two checkers matter. */
  lemma SoundIffCheckersPass(t: Tables, order: string, hash: string -> string)
    requires WellFormed(t, hash) && order in t.orders
    ensures HasLineage(t, t.orders[order])
    ensures var o := t.orders[order];
            TraceSound(t, order, hash) <==>
            CheckersPass(PapersOf(t, o), ThesesFor(t.theses, o.decision), Linked(t.links, t.evidence, o.candidate), hash)
  {
    var o := t.orders[order];
    assert PartOk(OrderRows, t, hash) && PartOk(ThesisRows, t, hash) && PartOk(EventRows, t, hash);
    assert OrderOk(t, order, o);
    TracedEventsAreAll(t.events, o.trace, order);
    TracedThesesAreAll(t.theses, o.trace, o.decision);
    EventChainIsGapless(EventsOf(t.events, order));
  }

  // An accepted order stays sound

  lemma {:induction false} LookupIsStable(evidence: seq<Evidence>, later: seq<Evidence>, record: string)
    requires evidence <= later
    requires forall i, k :: 0 <= i < k < |later| ==> later[i].record != later[k].record
    requires Lookup(evidence, record).Some?
    ensures Lookup(later, record) == Lookup(evidence, record)
  {
    var a, b := Lookup(evidence, record).value, Lookup(later, record);
    var i :| 0 <= i < |evidence| && evidence[i] == a;
    assert later[i] == a;
    var k :| 0 <= k < |later| && later[k] == b.value;
  }

  lemma {:induction false} GatherIsStable(evidence: seq<Evidence>, later: seq<Evidence>, records: seq<string>)
    requires evidence <= later
    requires forall i, k :: 0 <= i < k < |later| ==> later[i].record != later[k].record
    requires forall record :: record in records ==> Lookup(evidence, record).Some?
    ensures Gather(later, records) == Gather(evidence, records)
  {
    if records != [] {
      LookupIsStable(evidence, later, records[|records| - 1]);
      GatherIsStable(evidence, later, records[..|records| - 1]);
    }
  }

  lemma LinkedIsStable(t: Tables, u: Tables, hash: string -> string, candidate: string)
    requires WellFormed(t, hash) && WellFormed(u, hash) && t.evidence <= u.evidence
    requires RecordsLinked(u.links, candidate) == RecordsLinked(t.links, candidate)
    ensures Linked(u.links, u.evidence, candidate) == Linked(t.links, t.evidence, candidate)
  {
    assert PartOk(LinkRows, t, hash) && PartOk(EvidenceRows, u, hash);
    forall record | record in RecordsLinked(t.links, candidate)
      ensures Lookup(t.evidence, record).Some?
    {
      var k :| 0 <= k < |t.links| && t.links[k].candidate == candidate && t.links[k].record == record;
      assert LinkOk(t.candidates, t.evidence, t.links[k]);
    }
    GatherIsStable(t.evidence, u.evidence, RecordsLinked(t.links, candidate));
  }

  /** More theses never make an order unsound. */
  lemma MoreThesesKeepSound(papers: Papers, theses: seq<Thesis>, later: seq<Thesis>)
    requires Sound(papers, theses) && forall e :: e in theses ==> e in later
    ensures Sound(papers, later)
  {
    SoundByPart(papers, theses);
    var k :| 0 <= k < |theses| && theses[k].supporting != [];
    assert theses[k] in later;
    SoundByPart(papers, later);
  }

  /** Whatever is appended later, as long as its candidate is not linked again, a sound order stays sound. */
  lemma SoundOrderStaysSound(t: Tables, u: Tables, order: string, hash: string -> string)
    requires WellFormed(t, hash) && WellFormed(u, hash) && Extends(t, u) && TraceSound(t, order, hash)
    requires RecordsLinked(u.links, t.orders[order].candidate) == RecordsLinked(t.links, t.orders[order].candidate)
    ensures TraceSound(u, order, hash)
  {
    var o := t.orders[order];
    SoundIffCheckersPass(t, order, hash);
    SoundIffCheckersPass(u, order, hash);
    LinkedIsStable(t, u, hash, o.candidate);
    PapersStay(t, u, o);
    MoreTheses(t.theses, u.theses, o.decision);
    MoreThesesKeepSound(PapersOf(t, o), ThesesFor(t.theses, o.decision), ThesesFor(u.theses, o.decision));
  }

  lemma MoreTheses(theses: seq<Thesis>, later: seq<Thesis>, decision: string)
    requires theses <= later
    ensures forall e :: e in ThesesFor(theses, decision) ==> e in ThesesFor(later, decision)
  {
  }

  lemma PapersStay(t: Tables, u: Tables, o: Order)
    requires Extends(t, u) && HasLineage(t, o)
    ensures HasLineage(u, o) && PapersOf(u, o) == PapersOf(t, o)
  {
  }

  /** First sight is the same for every version of an evidence id. */
  lemma OneFirstSight(evidence: seq<Evidence>, hash: string -> string, a: Evidence, b: Evidence)
    requires EvidenceOk(evidence, hash) && a in evidence && b in evidence && a.evidenceId == b.evidenceId
    ensures a.firstObservedAt == b.firstObservedAt && a.source == b.source && a.sourceId == b.sourceId
  {
    var rows := Versions(evidence, a.evidenceId);
    assert a in rows && b in rows && VersionChain(rows);
  }

  /** One more row keeps the linked rows sound exactly when that row describes the candidate's past. */
  lemma OneMoreRow(t: Tables, c: Candidate, rows: seq<Evidence>, e: Evidence, hash: string -> string)
    requires EvidenceOk(t.evidence, hash) && EvidenceSound(c, rows, hash) && e in t.evidence
    requires forall row :: row in rows ==> row in t.evidence
    requires e.evidenceId in c.evidenceIds && e.deletedAt.None?
    ensures EvidenceSound(c, rows + [e], hash) <==> e.occurredAt <= c.createdAt
  {
    var after := rows + [e];
    EvidenceSoundByRow(c, rows, hash);
    EvidenceSoundByRow(c, after, hash);
    var k :| 0 <= k < |rows| && rows[k].evidenceId == e.evidenceId;
    assert rows[k] in rows && e in after;
    OneFirstSight(t.evidence, hash, rows[k], e);
    forall id | id in c.evidenceIds
      ensures exists i :: 0 <= i < |after| && after[i].evidenceId == id
    {
      var i :| 0 <= i < |rows| && rows[i].evidenceId == id;
      assert after[i] == rows[i];
    }
  }

  /** An accepted candidate whose evidence is linked again in a version that describes a later moment. */
  lemma LaterVersionBreaksTrace()
    ensures var hash := (text: string) => text;
            var c := Candidate("c", "t", "v1", "BTCUSDT", Long, 1.0, 0.01, map["atr_1h" := 1.0], ["news"], 130, 10);
            var first := Evidence("r1", "news", 1, None, "rss", "7", 5, 5, "old text", "old text", None);
            var second := Evidence("r2", "news", 2, Some("r1"), "rss", "7", 5, 11, "new text", "new text", None);
            && VersionChain([first, second])
            && EvidenceSound(c, [first], hash) && !EvidenceSound(c, [first, second], hash)
  {
    var hash := (text: string) => text;
    var c := Candidate("c", "t", "v1", "BTCUSDT", Long, 1.0, 0.01, map["atr_1h" := 1.0], ["news"], 130, 10);
    var first := Evidence("r1", "news", 1, None, "rss", "7", 5, 5, "old text", "old text", None);
    var second := Evidence("r2", "news", 2, Some("r1"), "rss", "7", 5, 11, "new text", "new text", None);
    EvidenceSoundByRow(c, [first], hash);
    EvidenceSoundByRow(c, [first, second], hash);
    assert [first][0].evidenceId == "news";
    assert second in [first, second] && !RowSound(c, second, hash);
  }

  /**
   * Linking one more version to the candidate of a sound order keeps the order sound exactly when that
   * version describes something that had happened when the candidate was created.
   */
  lemma RelinkKeepsSoundIff(t: Tables, u: Tables, order: string, link: Link, e: Evidence, hash: string -> string)
    requires WellFormed(t, hash) && TraceSound(t, order, hash)
    requires link.candidate == t.orders[order].candidate && Lookup(t.evidence, link.record) == Some(e)
    requires u == t.(links := t.links + [link]) && WellFormed(u, hash)
    ensures HasLineage(t, t.orders[order])
    ensures TraceSound(u, order, hash) <==> e.occurredAt <= t.candidates[t.orders[order].candidate].createdAt
  {
    var o := t.orders[order];
    SoundIffCheckersPass(t, order, hash);
    SoundIffCheckersPass(u, order, hash);
    assert PartOk(LinkRows, u, hash) && PartOk(EvidenceRows, t, hash);
    assert u.links[|t.links|] == link && LinkOk(u.candidates, u.evidence, link);
    var rows := Linked(t.links, t.evidence, o.candidate);
    assert Linked(u.links, u.evidence, o.candidate) == rows + [e] by {
      assert u.links[..|u.links| - 1] == t.links;
      var records := RecordsLinked(t.links, o.candidate);
      assert (records + [link.record])[..|records|] == records;
    }
    OneMoreRow(t, t.candidates[o.candidate], rows, e, hash);
  }
}
