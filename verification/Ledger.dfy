/** `AuditRepository`: append-only tables, version chains, and the gate that every recorded order passes. */
module Ledger {
  import opened Trading
  import opened AuditRules
  import opened LedgerTables

  // The SQL aggregates

  /** `ORDER BY version DESC LIMIT 1`. */
  function Newest<T(!new)>(rows: seq<T>, version: T -> int): (r: Option<T>)
    ensures r.None? <==> rows == []
    ensures r.Some? ==> r.value in rows && forall e :: e in rows ==> version(e) <= version(r.value)
  {
    if rows == [] then None
    else
      var last := rows[|rows| - 1];
      assert rows == rows[..|rows| - 1] + [last];
      var before := Newest(rows[..|rows| - 1], version);
      if before.Some? && version(before.value) > version(last) then before else Some(last)
  }

  lemma NewestIsLast<T(!new)>(rows: seq<T>, version: T -> int)
    requires rows != [] && forall k :: 0 <= k < |rows| ==> version(rows[k]) == k + 1
    ensures Newest(rows, version) == Some(rows[|rows| - 1])
  {
    assert rows[|rows| - 1] in rows;
  }

  function NewestVersion(rows: seq<Evidence>): (r: Option<Evidence>)
    ensures r.None? <==> rows == []
    ensures r.Some? ==> r.value in rows
    ensures VersionChain(rows) && rows != [] ==> r == Some(rows[|rows| - 1])
  {
    assert VersionChain(rows) && rows != [] ==> Newest(rows, (e: Evidence) => e.version) == Some(rows[|rows| - 1]) by {
      if VersionChain(rows) && rows != [] { NewestIsLast(rows, (e: Evidence) => e.version); }
    }
    Newest(rows, (e: Evidence) => e.version)
  }

  function NewestThesis(rows: seq<Thesis>): (r: Option<Thesis>)
    ensures r.None? <==> rows == []
    ensures r.Some? ==> r.value in rows
    ensures ThesisChain(rows) && rows != [] ==> r == Some(rows[|rows| - 1])
  {
    assert ThesisChain(rows) && rows != [] ==> Newest(rows, (e: Thesis) => e.version) == Some(rows[|rows| - 1]) by {
      if ThesisChain(rows) && rows != [] { NewestIsLast(rows, (e: Thesis) => e.version); }
    }
    Newest(rows, (e: Thesis) => e.version)
  }

  /** `MAX(event_sequence)`, or zero without rows. */
  function MaxSequence(rows: seq<OrderEvent>): (r: int)
    ensures EventChain(rows) ==> r == |rows|
  {
    var newest := Newest(rows, (e: OrderEvent) => e.sequence);
    assert EventChain(rows) && rows != [] ==> newest == Some(rows[|rows| - 1]) by {
      if EventChain(rows) && rows != [] { NewestIsLast(rows, (e: OrderEvent) => e.sequence); }
    }
    if newest.None? then 0 else newest.value.sequence
  }

  // One more row keeps each table well formed

  lemma EventAppended(events: seq<OrderEvent>, e: OrderEvent, order: string)
    ensures EventsOf(events + [e], order) ==
            if e.order == order then EventsOf(events, order) + [e] else EventsOf(events, order)
  {
    WhereAppended(events, e, (x: OrderEvent) => x.order == order);
  }

  predicate SourceEventKnown(rows: seq<OrderEvent>, source: Option<string>) {
    source.Some? && exists k :: 0 <= k < |rows| && rows[k].sourceEvent == source
  }

  ghost predicate SourceEventStored(rows: seq<OrderEvent>, source: Option<string>) {
    source.Some? && source in set e | e in rows :: e.sourceEvent
  }

  lemma EventChainGrows(rows: seq<OrderEvent>, e: OrderEvent)
    requires EventChain(rows) && e.sequence == |rows| + 1 && !SourceEventKnown(rows, e.sourceEvent)
    ensures EventChain(rows + [e])
  {
  }

  lemma EventsGrow(orders: map<string, Order>, events: seq<OrderEvent>, e: OrderEvent)
    requires EventsOk(orders, events) && e.order in orders && orders[e.order].trace == e.trace
    requires e.sequence == |EventsOf(events, e.order)| + 1
    requires !SourceEventKnown(EventsOf(events, e.order), e.sourceEvent)
    ensures EventsOk(orders, events + [e])
  {
    forall order
      ensures EventChain(EventsOf(events + [e], order)) && (order in orders ==> EventsOf(events + [e], order) != [])
    {
      EventAppended(events, e, order);
      assert EventChain(EventsOf(events, order));
      if e.order == order { EventChainGrows(EventsOf(events, order), e); }
    }
  }

  lemma NoneInEmpty(rows: seq<OrderEvent>)
    ensures rows == [] || exists e :: e in rows
  {
    if rows != [] { assert rows[0] in rows; }
  }

  lemma NoEventsYet(orders: map<string, Order>, events: seq<OrderEvent>, id: string)
    requires EventsOk(orders, events) && id !in orders
    ensures EventsOf(events, id) == []
  {
    assert forall e :: e in events ==> e.order in orders;
    NoneInEmpty(EventsOf(events, id));
  }

  /** A new order arrives together with its first event. */
  lemma FirstEvent(orders: map<string, Order>, events: seq<OrderEvent>, o: Order, e: OrderEvent)
    requires EventsOk(orders, events) && o.id !in orders
    requires e.order == o.id && e.trace == o.trace && e.sequence == 1
    ensures EventsOk(orders[o.id := o], events + [e])
  {
    NoEventsYet(orders, events, o.id);
    var all := events + [e];
    forall order
      ensures EventChain(EventsOf(all, order)) && (order in orders[o.id := o] ==> EventsOf(all, order) != [])
    {
      EventAppended(events, e, order);
      assert EventChain(EventsOf(events, order));
      if e.order == order { EventChainGrows([], e); assert [] + [e] == [e]; }
    }
  }

  lemma VersionAppended(evidence: seq<Evidence>, e: Evidence, id: string)
    ensures Versions(evidence + [e], id) ==
            if e.evidenceId == id then Versions(evidence, id) + [e] else Versions(evidence, id)
  {
    WhereAppended(evidence, e, (x: Evidence) => x.evidenceId == id);
  }

  lemma AppendedIsNewest(evidence: seq<Evidence>, e: Evidence)
    requires VersionChain(Versions(evidence, e.evidenceId)) && Continues(Versions(evidence, e.evidenceId), e)
    ensures NewestVersion(Versions(evidence + [e], e.evidenceId)) == Some(e)
  {
    VersionAppended(evidence, e, e.evidenceId);
    var rows := Versions(evidence, e.evidenceId);
    VersionChainGrows(rows, e);
  }

  /** `e` continues the version chain of its evidence id. */
  ghost predicate Continues(rows: seq<Evidence>, e: Evidence) {
    && e.version == |rows| + 1
    && e.prior == (if rows == [] then None else Some(rows[|rows| - 1].record))
    && (rows != [] ==>
         && e.source == rows[0].source && e.sourceId == rows[0].sourceId
         && e.firstObservedAt == rows[0].firstObservedAt)
  }

  lemma VersionChainGrows(rows: seq<Evidence>, e: Evidence)
    requires VersionChain(rows) && Continues(rows, e)
    ensures VersionChain(rows + [e])
  {
    var all := rows + [e];
    assert all[|rows|] == e && (rows != [] ==> all[0] == rows[0]);
    assert forall k :: 0 <= k < |rows| ==> all[k] == rows[k];
  }

  lemma EvidenceGrows(evidence: seq<Evidence>, e: Evidence, hash: string -> string)
    requires EvidenceOk(evidence, hash) && Lookup(evidence, e.record).None?
    requires Continues(Versions(evidence, e.evidenceId), e) && e.contentHash == hash(e.payload)
    ensures EvidenceOk(evidence + [e], hash)
  {
    forall id
      ensures VersionChain(Versions(evidence + [e], id))
    {
      VersionAppended(evidence, e, id);
      assert VersionChain(Versions(evidence, id));
      if e.evidenceId == id { VersionChainGrows(Versions(evidence, id), e); }
    }
    assert forall k :: 0 <= k < |evidence| ==> evidence[k] in evidence;
  }

  lemma LinksSurvive(candidates: map<string, Candidate>, evidence: seq<Evidence>, links: seq<Link>, e: Evidence)
    requires LinksOk(candidates, evidence, links) && Lookup(evidence, e.record).None?
    ensures LinksOk(candidates, evidence + [e], links)
  {
    forall k | 0 <= k < |links|
      ensures LinkOk(candidates, evidence + [e], links[k])
    {
      assert LinkOk(candidates, evidence, links[k]);
      assert (evidence + [e])[..|evidence|] == evidence;
    }
  }

  lemma RecordsAreUnique(evidence: seq<Evidence>, a: Evidence, b: Evidence, hash: string -> string)
    requires EvidenceOk(evidence, hash) && a in evidence && b in evidence && a.record == b.record
    ensures a == b
  {
  }

  lemma LinkAppended(links: seq<Link>, l: Link)
    ensures forall c :: RecordsLinked(links + [l], c) ==
              if l.candidate == c then RecordsLinked(links, c) + [l.record] else RecordsLinked(links, c)
  {
    assert (links + [l])[..|links|] == links;
  }

  /** Links were added for one candidate only, and every listed record is linked to it. */
  ghost predicate LinksProgress(before: seq<Link>, links: seq<Link>, candidate: string, records: seq<string>) {
    && before <= links
    && OthersKept(before, links, candidate)
    && AllLinked(links, candidate, records)
  }

  ghost predicate OthersKept(before: seq<Link>, links: seq<Link>, candidate: string) {
    forall other :: other != candidate ==> RecordsLinked(links, other) == RecordsLinked(before, other)
  }

  ghost predicate AllLinked(links: seq<Link>, candidate: string, records: seq<string>) {
    forall record :: record in records ==> record in RecordsLinked(links, candidate)
  }

  lemma LinkStep(before: seq<Link>, links: seq<Link>, added: seq<Link>, candidate: string, records: seq<string>, record: string)
    requires LinksProgress(before, links, candidate, records)
    requires |added| <= 1 && forall l :: l in added ==> l.candidate == candidate && l.record == record
    requires added == [] ==> record in RecordsLinked(links, candidate)
    ensures LinksProgress(before, links + added, candidate, records + [record])
  {
    if added == [] {
      assert links + added == links;
    } else {
      assert added == [added[0]] && added[0] in added;
      LinkAppended(links, added[0]);
    }
  }

  lemma LinkStepAt(before: seq<Link>, links: seq<Link>, added: seq<Link>, candidate: string, records: seq<string>, k: nat)
    requires k < |records| && LinksProgress(before, links, candidate, records[..k])
    requires |added| <= 1 && forall l :: l in added ==> l.candidate == candidate && l.record == records[k]
    requires added == [] ==> records[k] in RecordsLinked(links, candidate)
    ensures LinksProgress(before, links + added, candidate, records[..k + 1])
  {
    var done, more := records[..k], records[..k + 1];
    assert more == done + [records[k]];
    LinkStep(before, links, added, candidate, done, records[k]);
  }

  lemma LinksGrow(candidates: map<string, Candidate>, evidence: seq<Evidence>, links: seq<Link>, l: Link)
    requires LinksOk(candidates, evidence, links) && LinkOk(candidates, evidence, l)
    requires l.record !in RecordsLinked(links, l.candidate)
    ensures LinksOk(candidates, evidence, links + [l])
  {
  }

  lemma ThesisAppended(theses: seq<Thesis>, thesis: Thesis, position: string)
    ensures ThesesAt(theses + [thesis], position) ==
            if thesis.position == position then ThesesAt(theses, position) + [thesis] else ThesesAt(theses, position)
  {
    WhereAppended(theses, thesis, (x: Thesis) => x.position == position);
  }

  ghost predicate ContinuesThesis(rows: seq<Thesis>, thesis: Thesis) {
    && thesis.version == |rows| + 1
    && thesis.prior == (if rows == [] then None else Some(rows[|rows| - 1].id))
    && 0 <= thesis.addCount <= 1 && thesis.supporting != []
    && (rows != [] ==> rows[|rows| - 1].addCount <= thesis.addCount)
  }

  lemma ThesisChainGrows(rows: seq<Thesis>, thesis: Thesis)
    requires ThesisChain(rows) && ContinuesThesis(rows, thesis)
    ensures ThesisChain(rows + [thesis])
  {
  }

  lemma ThesesGrow(decisions: map<string, Decision>, theses: seq<Thesis>, thesis: Thesis)
    requires ThesesOk(decisions, theses) && ContinuesThesis(ThesesAt(theses, thesis.position), thesis)
    requires thesis.decision in decisions && decisions[thesis.decision].trace == thesis.trace
    ensures ThesesOk(decisions, theses + [thesis])
  {
    forall position
      ensures ThesisChain(ThesesAt(theses + [thesis], position))
    {
      ThesisAppended(theses, thesis, position);
      assert ThesisChain(ThesesAt(theses, position));
      if thesis.position == position { ThesisChainGrows(ThesesAt(theses, position), thesis); }
    }
  }

  /** The index of the fill already stored under the same external id, or the number of fills. */
  function FindFill(fills: seq<Fill>, f: Fill): (k: nat)
    ensures k <= |fills| && (k < |fills| ==> SameFill(f, fills[k]))
    ensures forall i :: 0 <= i < k ==> !SameFill(f, fills[i])
  {
    if fills == [] then 0
    else
      var before := FindFill(fills[..|fills| - 1], f);
      if before < |fills| - 1 then before
      else if SameFill(f, fills[|fills| - 1]) then |fills| - 1 else |fills|
  }

  /** The index of the accounting event with the same venue and income id, or the number of events. */
  function FindAccounting(rows: seq<Accounting>, venue: string, income: string): (k: nat)
    ensures k <= |rows| && (k < |rows| ==> rows[k].venue == venue && rows[k].income == income)
    ensures forall i :: 0 <= i < k ==> !(rows[i].venue == venue && rows[i].income == income)
  {
    if rows == [] then 0
    else
      var before := FindAccounting(rows[..|rows| - 1], venue, income);
      if before < |rows| - 1 then before
      else if rows[|rows| - 1].venue == venue && rows[|rows| - 1].income == income then |rows| - 1 else |rows|
  }

  /** The fields of a cash flow that a replay must repeat. */
  ghost predicate SameCashFlow(a: Accounting, b: Accounting) {
    && a.symbol == b.symbol && a.kind == b.kind && a.asset == b.asset
    && a.amount == b.amount && a.time == b.time && a.tradeId == b.tradeId
  }

  /** An empty id is as good as none. */
  predicate Given(id: Option<string>) { id.Some? && id.value != "" }

  /** When `append_venue_order` accepts. */
  ghost predicate Recordable(t: Tables, o: Order, eventId: string, hash: string -> string) {
    && Placeable(t, o)
    && CheckersPass(PapersOf(t, o), ThesesFor(t.theses, o.decision), Linked(t.links, t.evidence, o.candidate), hash)
    && (forall k :: 0 <= k < |t.events| ==> t.events[k].id != eventId)
  }

  /** The references exist in the same trace, and the row breaks no table constraint. */
  ghost predicate Placeable(t: Tables, o: Order) {
    && HasLineage(t, o) && o.id !in t.orders && o.quantity > 0.0
    && (forall id :: id in t.orders ==> t.orders[id].clientId != o.clientId)
  }

  function FirstEventOf(o: Order, eventId: string): OrderEvent {
    OrderEvent(eventId, o.trace, o.id, 1, "ORDER_RECORDED", o.status, None, 0.0, o.observedAt)
  }

  // When the append methods accept

  ghost predicate EventAccepted(t: Tables, e: OrderEvent) {
    && e.kind != "" && e.status != ""
    && e.order in t.orders && t.orders[e.order].trace == e.trace
    && if SourceEventStored(EventsOf(t.events, e.order), e.sourceEvent) then e.sourceEvent != Some("")
       else e.executed >= 0.0 && forall k :: 0 <= k < |t.events| ==> t.events[k].id != e.id
  }

  ghost predicate FillAccepted(t: Tables, f: Fill) {
    && f.order in t.orders && t.orders[f.order].trace == f.trace
    && if FindFill(t.fills, f) < |t.fills| then f.externalId != Some("")
       else
         && f.price > 0.0 && f.quantity > 0.0 && f.fee >= 0.0
         && forall k :: 0 <= k < |t.fills| ==> t.fills[k].id != f.id
  }

  ghost predicate AllLinkable(evidence: seq<Evidence>, c: Candidate, records: seq<string>) {
    forall k :: 0 <= k < |records| ==> Linkable(evidence, c, records[k])
  }

  lemma LinkableNext(evidence: seq<Evidence>, c: Candidate, records: seq<string>, k: nat)
    requires k < |records|
    ensures AllLinkable(evidence, c, records[..k + 1]) <==>
            AllLinkable(evidence, c, records[..k]) && Linkable(evidence, c, records[k])
    ensures AllLinkable(evidence, c, records) ==> Linkable(evidence, c, records[k])
  {
    assert records[..k + 1][k] == records[k];
    assert forall i :: 0 <= i < k ==> records[..k + 1][i] == records[..k][i];
  }

  ghost predicate LinksAccepted(t: Tables, trace: string, candidate: string, records: seq<string>) {
    && candidate in t.candidates && t.candidates[candidate].trace == trace
    && AllLinkable(t.evidence, t.candidates[candidate], records)
  }

  ghost predicate ThesisAccepted(t: Tables, d: Thesis) {
    && 0 <= d.addCount <= 1 && d.entryReason != "" && d.horizon != "" && d.supporting != [] && d.invalidation != []
    && d.decision in t.decisions && t.decisions[d.decision].trace == d.trace
    && (forall k :: 0 <= k < |t.theses| ==> t.theses[k].id != d.id)
    && var rows := ThesesAt(t.theses, d.position);
       rows != [] ==> rows[|rows| - 1].addCount <= d.addCount
  }

  ghost predicate EvidenceAccepted(t: Tables, id: string, record: string, source: string, sourceId: string) {
    && source != "" && sourceId != "" && Lookup(t.evidence, record).None?
    && var rows := Versions(t.evidence, id);
       rows != [] ==> rows[0].source == source && rows[0].sourceId == sourceId
  }

  /** A record that may be linked: declared, not deleted, and the newest of its evidence id. */
  ghost predicate Linkable(evidence: seq<Evidence>, c: Candidate, record: string) {
    && Lookup(evidence, record).Some?
    && var e := Lookup(evidence, record).value;
       && e.deletedAt.None? && e.evidenceId in c.evidenceIds
       && e.version == |Versions(evidence, e.evidenceId)|
  }

  ghost predicate CashKnown(t: Tables, a: Accounting) { FindAccounting(t.accounting, a.venue, a.income) < |t.accounting| }

  ghost predicate CashAccepted(t: Tables, a: Accounting) {
    && a.venue != "" && a.income != "" && a.kind != "" && a.asset != ""
    && if CashKnown(t, a) then SameCashFlow(t.accounting[FindAccounting(t.accounting, a.venue, a.income)], a)
       else
         && (a.order.Some? ==>
              && a.order.value in t.orders
              && (a.trace.Some? ==> a.trace.value == t.orders[a.order.value].trace))
         && forall k :: 0 <= k < |t.accounting| ==> t.accounting[k].id != a.id
  }

  /** A cash flow takes the trace of its order. */
  ghost function Traced(t: Tables, a: Accounting): Accounting {
    if a.order.Some? && a.order.value in t.orders then a.(trace := Some(t.orders[a.order.value].trace)) else a
  }

  // One lemma per table: the appended state is well formed

  lemma CandidateRecorded(t: Tables, c: Candidate, hash: string -> string)
    requires WellFormed(t, hash) && c.id !in t.candidates && c.maxQuantity > 0.0 && c.maxRiskFraction > 0.0
    ensures WellFormed(t.(candidates := t.candidates[c.id := c]), hash)
  {
    var u := t.(candidates := t.candidates[c.id := c]);
    forall part
      ensures PartOk(part, u, hash)
    {
      assert PartOk(part, t, hash);
      match part
      case DecisionRows => DecisionsSurvive(t.candidates, u.candidates, t.decisions);
      case RiskRows => RisksSurvive(t, u);
      case OrderRows => OrdersSurvive(t, u);
      case LinkRows => LinksSurviveCandidates(t.candidates, u.candidates, t.evidence, t.links);
      case _ =>
    }
  }

  lemma DecisionRecorded(t: Tables, d: Decision, hash: string -> string)
    requires WellFormed(t, hash) && d.id !in t.decisions && DecisionOk(t.candidates, d.id, d)
    ensures WellFormed(t.(decisions := t.decisions[d.id := d]), hash)
  {
    var u := t.(decisions := t.decisions[d.id := d]);
    forall part
      ensures PartOk(part, u, hash)
    {
      assert PartOk(part, t, hash);
      match part
      case RiskRows => RisksSurvive(t, u);
      case OrderRows => OrdersSurvive(t, u);
      case ThesisRows => ThesesSurvive(t.decisions, u.decisions, t.theses);
      case _ =>
    }
  }

  lemma RiskRecorded(t: Tables, r: Risk, hash: string -> string)
    requires WellFormed(t, hash) && r.id !in t.risks && RiskOk(t.candidates, t.decisions, r.id, r)
    ensures WellFormed(t.(risks := t.risks[r.id := r]), hash)
  {
    var u := t.(risks := t.risks[r.id := r]);
    forall part
      ensures PartOk(part, u, hash)
    {
      assert PartOk(part, t, hash);
      match part
      case OrderRows => OrdersSurvive(t, u);
      case _ =>
    }
  }

  lemma EvidenceRecorded(t: Tables, e: Evidence, hash: string -> string)
    requires WellFormed(t, hash) && Lookup(t.evidence, e.record).None?
    requires Continues(Versions(t.evidence, e.evidenceId), e) && e.contentHash == hash(e.payload)
    ensures WellFormed(t.(evidence := t.evidence + [e]), hash)
  {
    var u := t.(evidence := t.evidence + [e]);
    forall part
      ensures PartOk(part, u, hash)
    {
      assert PartOk(part, t, hash);
      match part
      case EvidenceRows => EvidenceGrows(t.evidence, e, hash);
      case LinkRows => LinksSurvive(t.candidates, t.evidence, t.links, e);
      case OrderRows => OrdersSurvive(t, u);
      case _ =>
    }
  }

  lemma ThesisRecorded(t: Tables, thesis: Thesis, hash: string -> string)
    requires WellFormed(t, hash) && ContinuesThesis(ThesesAt(t.theses, thesis.position), thesis)
    requires thesis.decision in t.decisions && t.decisions[thesis.decision].trace == thesis.trace
    ensures WellFormed(t.(theses := t.theses + [thesis]), hash)
  {
    var u := t.(theses := t.theses + [thesis]);
    forall part
      ensures PartOk(part, u, hash)
    {
      assert PartOk(part, t, hash);
      match part
      case ThesisRows => ThesesGrow(t.decisions, t.theses, thesis);
      case OrderRows => OrdersSurvive(t, u);
      case _ =>
    }
  }

  lemma LinksRecorded(t: Tables, links: seq<Link>, hash: string -> string)
    requires WellFormed(t, hash) && LinksOk(t.candidates, t.evidence, links)
    ensures WellFormed(t.(links := links), hash)
  {
    var u := t.(links := links);
    forall part
      ensures PartOk(part, u, hash)
    {
      assert PartOk(part, t, hash);
      match part
      case OrderRows => OrdersSurvive(t, u);
      case _ =>
    }
  }

  lemma EventRecorded(t: Tables, e: OrderEvent, hash: string -> string)
    requires WellFormed(t, hash) && e.order in t.orders && t.orders[e.order].trace == e.trace
    requires e.sequence == |EventsOf(t.events, e.order)| + 1
    requires !SourceEventKnown(EventsOf(t.events, e.order), e.sourceEvent)
    ensures WellFormed(t.(events := t.events + [e]), hash)
  {
    var u := t.(events := t.events + [e]);
    forall part
      ensures PartOk(part, u, hash)
    {
      assert PartOk(part, t, hash);
      match part
      case EventRows => EventsGrow(t.orders, t.events, e);
      case OrderRows => OrdersSurvive(t, u);
      case _ =>
    }
  }

  lemma FillsGrow(orders: map<string, Order>, fills: seq<Fill>, f: Fill)
    requires FillsOk(orders, fills) && FillOk(orders, f) && FindFill(fills, f) == |fills|
    ensures FillsOk(orders, fills + [f])
  {
  }

  lemma FillRecorded(t: Tables, f: Fill, hash: string -> string)
    requires WellFormed(t, hash) && FillOk(t.orders, f) && FindFill(t.fills, f) == |t.fills|
    ensures WellFormed(t.(fills := t.fills + [f]), hash)
  {
    var u := t.(fills := t.fills + [f]);
    forall part
      ensures PartOk(part, u, hash)
    {
      assert PartOk(part, t, hash);
      match part
      case FillRows => FillsGrow(t.orders, t.fills, f);
      case OrderRows => OrdersSurvive(t, u);
      case _ =>
    }
  }

  lemma CashGrows(orders: map<string, Order>, rows: seq<Accounting>, a: Accounting)
    requires AccountingOk(orders, rows) && CashFlowOk(orders, a) && FindAccounting(rows, a.venue, a.income) == |rows|
    ensures AccountingOk(orders, rows + [a])
  {
  }

  lemma CashFlowRecorded(t: Tables, a: Accounting, hash: string -> string)
    requires WellFormed(t, hash) && CashFlowOk(t.orders, a) && FindAccounting(t.accounting, a.venue, a.income) == |t.accounting|
    ensures WellFormed(t.(accounting := t.accounting + [a]), hash)
  {
    var u := t.(accounting := t.accounting + [a]);
    forall part
      ensures PartOk(part, u, hash)
    {
      assert PartOk(part, t, hash);
      match part
      case CashRows => CashGrows(t.orders, t.accounting, a);
      case OrderRows => OrdersSurvive(t, u);
      case _ =>
    }
  }

  lemma FillsSurvive(orders: map<string, Order>, later: map<string, Order>, fills: seq<Fill>)
    requires FillsOk(orders, fills) && Grows(orders, later)
    ensures FillsOk(later, fills)
  {
    assert forall k :: 0 <= k < |fills| ==> FillOk(orders, fills[k]);
  }

  lemma CashSurvives(orders: map<string, Order>, later: map<string, Order>, rows: seq<Accounting>)
    requires AccountingOk(orders, rows) && Grows(orders, later)
    ensures AccountingOk(later, rows)
  {
    assert forall k :: 0 <= k < |rows| ==> CashFlowOk(orders, rows[k]);
  }

  lemma OrdersGrow(t: Tables, u: Tables, o: Order)
    requires OrdersOk(t) && Placeable(t, o)
    requires u.candidates == t.candidates && u.decisions == t.decisions && u.risks == t.risks
    requires u.orders == t.orders[o.id := o]
    ensures OrdersOk(u)
  {
    forall id | id in u.orders
      ensures OrderOk(u, id, u.orders[id])
    {
      assert id in t.orders ==> OrderOk(t, id, t.orders[id]);
    }
  }

  /** The state after an order and its first event. */
  function WithOrder(t: Tables, o: Order, e: OrderEvent): Tables {
    t.(orders := t.orders[o.id := o], events := t.events + [e])
  }

  lemma OrderRecorded(t: Tables, o: Order, e: OrderEvent, hash: string -> string)
    requires WellFormed(t, hash) && Placeable(t, o)
    requires e.order == o.id && e.trace == o.trace && e.sequence == 1
    ensures WellFormed(WithOrder(t, o, e), hash)
  {
    var u := WithOrder(t, o, e);
    forall part
      ensures PartOk(part, u, hash)
    {
      assert PartOk(part, t, hash);
      match part
      case EventRows => FirstEvent(t.orders, t.events, o, e);
      case OrderRows => OrdersGrow(t, u, o);
      case FillRows => FillsSurvive(t.orders, u.orders, t.fills);
      case CashRows => CashSurvives(t.orders, u.orders, t.accounting);
      case _ =>
    }
  }

  lemma OrderExtends(t: Tables, o: Order, e: OrderEvent)
    requires o.id !in t.orders
    ensures Extends(t, WithOrder(t, o, e))
  {
  }

  /** The gate lets nothing through that the validator would object to. */
  lemma RecordedOrderIsSound(t: Tables, o: Order, e: OrderEvent, hash: string -> string)
    requires WellFormed(t, hash) && Recordable(t, o, e.id, hash)
    requires e.order == o.id && e.trace == o.trace && e.sequence == 1
    ensures TraceSound(WithOrder(t, o, e), o.id, hash)
  {
    OrderRecorded(t, o, e, hash);
    SoundIffCheckersPass(WithOrder(t, o, e), o.id, hash);
  }

  // Runs

  datatype Append =
    | Candidate(c: AuditRules.Candidate, records: seq<string>)
    | Links(trace: string, candidate: string, records: seq<string>)
    | Decision(d: AuditRules.Decision)
    | Risk(risk: AuditRules.Risk)
    | Thesis(thesis: AuditRules.Thesis)
    | Order(o: AuditRules.Order, eventId: string)
    | Event(e: OrderEvent)
    | Fill(f: LedgerTables.Fill)
    | Cash(a: Accounting)
    | Version(record: string, id: Option<string>, source: string, sourceId: string, occurredAt: int, payload: string,
              first: Option<int>, deletedAt: Option<int>, contentHash: Option<string>, createdAt: int)
    | Ensure(record: string, stableId: string, source: string, sourceId: string, occurredAt: int, payload: string,
             first: Option<int>, createdAt: int)

  ghost predicate Relinks(calls: seq<Append>, candidate: string) {
    exists k :: 0 <= k < |calls| && calls[k].Links? && calls[k].candidate == candidate
  }

  /** Only a `Links` call changes which records an existing candidate is linked to. */
  ghost predicate LinksKept(t: Tables, u: Tables, call: Append) {
    forall c :: c in t.candidates && !(call.Links? && call.candidate == c) ==>
      RecordsLinked(u.links, c) == RecordsLinked(t.links, c)
  }

  ghost predicate Unlinked(t: Tables, order: string, calls: seq<Append>, hash: string -> string) {
    TraceSound(t, order, hash) && !Relinks(calls, t.orders[order].candidate)
  }

  lemma UnlinkedSoFar(t: Tables, order: string, calls: seq<Append>, k: nat, hash: string -> string)
    requires k < |calls| && Unlinked(t, order, calls[..k + 1], hash)
    ensures Unlinked(t, order, calls[..k], hash)
    ensures !(calls[k].Links? && calls[k].candidate == t.orders[order].candidate)
    ensures t.orders[order].candidate in t.candidates
  {
    var shorter, longer := calls[..k], calls[..k + 1];
    assert longer[k] == calls[k];
    assert forall i :: 0 <= i < |shorter| ==> longer[i] == shorter[i];
  }

  /** A random identifier that is not in use. */
  method NewId(taken: set<string>) returns (id: string)
    ensures id !in taken
  {
    var left := taken;
    id := "id";
    while left != {}
      invariant left <= taken && forall t :: t in taken - left ==> |t| < |id|
      decreases left
    {
      var t :| t in left;
      if |id| <= |t| { id := t + "+"; }
      left := left - {t};
    }
  }

  class AuditRepository {
    const hash: string -> string
    var tables: Tables

    ghost predicate Valid()
      reads this
    {
      WellFormed(tables, hash)
    }

    constructor (hash: string -> string)
      ensures Valid() && this.hash == hash
      ensures tables == Tables(map[], map[], map[], map[], [], [], [], [], [], [])
    {
      this.hash := hash;
      tables := Tables(map[], map[], map[], map[], [], [], [], [], [], []);
    }

    method AppendCandidate(c: Candidate, records: seq<string>) returns (r: Result<string>)
      requires Valid()
      modifies this
      ensures Valid() && Extends(old(tables), tables)
      ensures tables == old(tables) ||
              (c.id !in old(tables).candidates &&
               tables == old(tables).(candidates := old(tables).candidates[c.id := c], links := tables.links))
      ensures tables != old(tables) ==> forall other :: other != c.id ==>
                RecordsLinked(tables.links, other) == RecordsLinked(old(tables).links, other)
      ensures r.Ok? <==>
                && c.id !in old(tables).candidates && c.maxQuantity > 0.0 && c.maxRiskFraction > 0.0
                && AllLinkable(old(tables).evidence, c, records)
      ensures r.Ok? ==> r.value == c.id && c.id in tables.candidates && tables.candidates[c.id] == c
      ensures r.Ok? ==> forall record :: record in records ==> record in RecordsLinked(tables.links, c.id)
    {
      r := InsertCandidate(c);
      if r.Err? || records == [] { return; }
      var linked := LinkEvidence(c.trace, c.id, records);
      if linked.Err? { r := Err(linked.reason); }
    }

    /** The candidate row alone. It stays even when linking its evidence fails afterwards. */
    method InsertCandidate(c: Candidate) returns (r: Result<string>)
      requires Valid()
      modifies this
      ensures Valid() && Extends(old(tables), tables)
      ensures r.Err? ==> tables == old(tables)
      ensures r.Ok? <==> c.id !in old(tables).candidates && c.maxQuantity > 0.0 && c.maxRiskFraction > 0.0
      ensures r.Ok? ==>
                && r.value == c.id
                && tables == old(tables).(candidates := old(tables).candidates[c.id := c])
    {
      if c.id in tables.candidates || c.maxQuantity <= 0.0 || c.maxRiskFraction <= 0.0 {
        return Err("candidate violates a table constraint");
      }
      CandidateRecorded(tables, c, hash);
      tables := tables.(candidates := tables.candidates[c.id := c]);
      r := Ok(c.id);
    }

    /** One record of `link_candidate_evidence`: the link to add, if any, to those not yet committed. */
    method LinkOne(c: Candidate, record: string, links: seq<Link>) returns (r: Result<seq<Link>>)
      requires EvidenceOk(tables.evidence, hash)
      requires c.id in tables.candidates && tables.candidates[c.id] == c
      requires LinksOk(tables.candidates, tables.evidence, links)
      ensures r.Ok? ==>
                && |r.value| <= 1 && (forall l :: l in r.value ==> l.candidate == c.id && l.record == record)
                && LinksOk(tables.candidates, tables.evidence, links + r.value)
                && (r.value == [] ==> record in RecordsLinked(links, c.id))
      ensures r.Ok? <==> Linkable(tables.evidence, c, record)
    {
      var found := Lookup(tables.evidence, record);
      if found.None? { return Err("unknown evidence record"); }
      var e := found.value;
      if e.evidenceId !in c.evidenceIds { return Err("evidence was not declared by the candidate"); }
      if e.deletedAt.Some? { return Err("a candidate cannot link a deleted evidence version"); }
      var newest := NewestVersion(Versions(tables.evidence, e.evidenceId));
      if newest.None? || newest.value.record != record { return Err("not the latest observed version"); }
      assert VersionChain(Versions(tables.evidence, e.evidenceId));
      RecordsAreUnique(tables.evidence, e, newest.value, hash);
      if record in RecordsLinked(links, c.id) {
        assert links + [] == links;
        return Ok([]);
      }
      var linkId: string := *;
      var l := Link(linkId, c.trace, c.id, record);
      LinksGrow(tables.candidates, tables.evidence, links, l);
      r := Ok([l]);
    }

    /** The loop of `link_candidate_evidence`; nothing is committed before it ends. */
    method LinkAll(c: Candidate, records: seq<string>) returns (r: Result<seq<Link>>)
      requires EvidenceOk(tables.evidence, hash)
      requires c.id in tables.candidates && tables.candidates[c.id] == c
      requires LinksOk(tables.candidates, tables.evidence, tables.links)
      ensures r.Ok? ==>
                && LinksOk(tables.candidates, tables.evidence, r.value)
                && LinksProgress(tables.links, r.value, c.id, records)
      ensures r.Ok? <==> AllLinkable(tables.evidence, c, records)
    {
      var links := tables.links;
      for k := 0 to |records|
        invariant LinksOk(tables.candidates, tables.evidence, links)
        invariant LinksProgress(tables.links, links, c.id, records[..k])
        invariant AllLinkable(tables.evidence, c, records[..k])
      {
        var next := LinkNext(c, records, k, links);
        if next.Err? { return next; }
        links := next.value;
      }
      assert records[..|records|] == records;
      r := Ok(links);
    }

    /** One pass of that loop. */
    method LinkNext(c: Candidate, records: seq<string>, k: nat, links: seq<Link>) returns (r: Result<seq<Link>>)
      requires EvidenceOk(tables.evidence, hash) && k < |records|
      requires c.id in tables.candidates && tables.candidates[c.id] == c
      requires LinksOk(tables.candidates, tables.evidence, links) && LinksProgress(tables.links, links, c.id, records[..k])
      requires AllLinkable(tables.evidence, c, records[..k])
      ensures r.Ok? ==>
                && LinksOk(tables.candidates, tables.evidence, r.value)
                && LinksProgress(tables.links, r.value, c.id, records[..k + 1])
      ensures r.Ok? <==> AllLinkable(tables.evidence, c, records[..k + 1])
      ensures r.Err? ==> !AllLinkable(tables.evidence, c, records)
    {
      LinkableNext(tables.evidence, c, records, k);
      var step := LinkOne(c, records[k], links);
      if step.Err? { return Err(step.reason); }
      LinkStepAt(tables.links, links, step.value, c.id, records, k);
      r := Ok(links + step.value);
    }

    /** Every named record ends up linked, each being the newest version, declared and not deleted. */
    method LinkEvidence(trace: string, candidate: string, records: seq<string>) returns (r: Result<()>)
      requires Valid()
      modifies this
      ensures Valid()
      ensures r.Err? ==> tables == old(tables)
      ensures tables == old(tables).(links := tables.links) && old(tables).links <= tables.links
      ensures forall other :: other != candidate ==>
                RecordsLinked(tables.links, other) == RecordsLinked(old(tables).links, other)
      ensures r.Ok? ==> forall record :: record in records ==> record in RecordsLinked(tables.links, candidate)
      ensures r.Ok? <==> records == [] || LinksAccepted(old(tables), trace, candidate, records)
    {
      if records == [] { return Ok(()); }
      if candidate !in tables.candidates || tables.candidates[candidate].trace != trace {
        return Err("referenced candidate does not exist or belongs to a different trace");
      }
      assert PartOk(CandidateRows, tables, hash) && PartOk(EvidenceRows, tables, hash) && PartOk(LinkRows, tables, hash);
      assert tables.candidates[candidate].id == candidate;
      var linked := LinkAll(tables.candidates[candidate], records);
      if linked.Err? { return Err(linked.reason); }
      LinksRecorded(tables, linked.value, hash);
      tables := tables.(links := linked.value);
      r := Ok(());
    }

    method AppendDecision(d: Decision) returns (r: Result<string>)
      requires Valid()
      modifies this
      ensures Valid() && Extends(old(tables), tables)
      ensures r.Ok? <==> d.id !in old(tables).decisions && DecisionOk(old(tables).candidates, d.id, d)
      ensures tables == if r.Ok? then old(tables).(decisions := old(tables).decisions[d.id := d]) else old(tables)
    {
      if d.candidate !in tables.candidates || tables.candidates[d.candidate].trace != d.trace {
        return Err("referenced candidate does not exist or belongs to a different trace");
      }
      if d.id in tables.decisions || !(0.0 <= d.multiplier <= 1.0) || !(0.0 <= d.confidence <= 1.0) {
        return Err("decision violates a table constraint");
      }
      DecisionRecorded(tables, d, hash);
      tables := tables.(decisions := tables.decisions[d.id := d]);
      r := Ok(d.id);
    }

    method AppendRisk(risk: Risk) returns (r: Result<string>)
      requires Valid()
      modifies this
      ensures Valid() && Extends(old(tables), tables)
      ensures r.Ok? <==>
                risk.id !in old(tables).risks && RiskOk(old(tables).candidates, old(tables).decisions, risk.id, risk)
      ensures tables == if r.Ok? then old(tables).(risks := old(tables).risks[risk.id := risk]) else old(tables)
    {
      if risk.candidate !in tables.candidates || tables.candidates[risk.candidate].trace != risk.trace
        || risk.decision !in tables.decisions || tables.decisions[risk.decision].trace != risk.trace
        || tables.decisions[risk.decision].candidate != risk.candidate
      {
        return Err("referenced record does not exist or belongs to a different trace or candidate");
      }
      if risk.id in tables.risks || risk.approved < 0.0 { return Err("risk row violates a table constraint"); }
      assert RiskOk(tables.candidates, tables.decisions, risk.id, risk);
      RiskRecorded(tables, risk, hash);
      tables := tables.(risks := tables.risks[risk.id := risk]);
      r := Ok(risk.id);
    }

    /** `draft` carries everything but the version and the link to the previous thesis. */
    method AppendThesis(draft: Thesis) returns (r: Result<Thesis>)
      requires Valid()
      modifies this
      ensures Valid() && Extends(old(tables), tables)
      ensures r.Err? ==> tables == old(tables)
      ensures r.Ok? <==> ThesisAccepted(old(tables), draft)
      ensures r.Ok? ==>
                && r.value == draft.(version := r.value.version, prior := r.value.prior)
                && ContinuesThesis(ThesesAt(old(tables).theses, draft.position), r.value)
                && tables == old(tables).(theses := old(tables).theses + [r.value])
    {
      if draft.addCount < 0 || draft.addCount > 1 { return Err("add_count must be 0 or 1"); }
      if draft.entryReason == "" || draft.horizon == "" { return Err("entry reason and horizon must be non-empty"); }
      if draft.supporting == [] { return Err("thesis must include supporting evidence"); }
      if draft.invalidation == [] { return Err("thesis must include invalidation conditions"); }
      if draft.decision !in tables.decisions || tables.decisions[draft.decision].trace != draft.trace {
        return Err("referenced decision does not exist or belongs to a different trace");
      }
      if exists k :: 0 <= k < |tables.theses| && tables.theses[k].id == draft.id { return Err("duplicate key"); }
      r := StoreThesis(draft);
    }

    /** The draft goes in as the next thesis of its position. */
    method StoreThesis(draft: Thesis) returns (r: Result<Thesis>)
      requires Valid() && 0 <= draft.addCount <= 1 && draft.supporting != []
      requires draft.decision in tables.decisions && tables.decisions[draft.decision].trace == draft.trace
      modifies this
      ensures Valid() && Extends(old(tables), tables)
      ensures r.Err? ==> tables == old(tables)
      ensures var rows := ThesesAt(old(tables).theses, draft.position);
              r.Ok? <==> rows == [] || rows[|rows| - 1].addCount <= draft.addCount
      ensures r.Ok? ==>
                && r.value == draft.(version := r.value.version, prior := r.value.prior)
                && ContinuesThesis(ThesesAt(old(tables).theses, draft.position), r.value)
                && tables == old(tables).(theses := old(tables).theses + [r.value])
    {
      assert PartOk(ThesisRows, tables, hash);
      r := NextThesis(ThesesAt(tables.theses, draft.position), draft.(version := 1, prior := None));
      if r.Ok? {
        ThesisRecorded(tables, r.value, hash);
        tables := tables.(theses := tables.theses + [r.value]);
      }
    }

    /** The draft as the next thesis of a chain; its add count must not fall. */
    method NextThesis(rows: seq<Thesis>, draft: Thesis) returns (r: Result<Thesis>)
      requires ThesisChain(rows) && draft.version == 1 && draft.prior.None?
      requires 0 <= draft.addCount <= 1 && draft.supporting != []
      ensures r.Ok? <==> rows == [] || rows[|rows| - 1].addCount <= draft.addCount
      ensures r.Ok? ==>
                && ContinuesThesis(rows, r.value)
                && r.value == draft.(version := r.value.version, prior := r.value.prior)
    {
      var newest := NewestThesis(rows);
      if newest.None? { return Ok(draft); }
      if draft.addCount < newest.value.addCount { return Err("add_count cannot decrease"); }
      r := Ok(draft.(version := newest.value.version + 1, prior := Some(newest.value.id)));
    }

    /** The gate: an order is recorded exactly when both checkers are silent, and its trace is then sound. */
    method AppendOrder(o: Order, eventId: string) returns (r: Result<string>)
      requires Valid()
      modifies this
      ensures Valid() && Extends(old(tables), tables)
      ensures r.Ok? <==> Recordable(old(tables), o, eventId, hash)
      ensures r.Err? ==> tables == old(tables)
      ensures r.Ok? ==>
                && tables == WithOrder(old(tables), o,
                     OrderEvent(eventId, o.trace, o.id, 1, "ORDER_RECORDED", o.status, None, 0.0, o.observedAt))
                && TraceSound(tables, o.id, hash)
    {
      var known := LineageKnown(o);
      if !known {
        return Err("referenced record does not exist or belongs to a different trace");
      }
      var silent := PassesCheckers(o);
      if !silent { return Err("order audit invariants failed"); }
      var clash := ClientIdTaken(o.clientId);
      if o.id in tables.orders || o.quantity <= 0.0 || clash
        || exists k :: 0 <= k < |tables.events| && tables.events[k].id == eventId
      {
        return Err("order violates a table constraint");
      }
      OrderRecorded(tables, o, FirstEventOf(o, eventId), hash);
      OrderExtends(tables, o, FirstEventOf(o, eventId));
      RecordedOrderIsSound(tables, o, FirstEventOf(o, eventId), hash);
      tables := WithOrder(tables, o, FirstEventOf(o, eventId));
      r := Ok(o.id);
    }

    /** The three `_assert_trace` calls. */
    method LineageKnown(o: Order) returns (known: bool)
      ensures known <==> HasLineage(tables, o)
    {
      known :=
        && o.candidate in tables.candidates && tables.candidates[o.candidate].trace == o.trace
        && o.decision in tables.decisions && tables.decisions[o.decision].trace == o.trace
        && o.risk in tables.risks && tables.risks[o.risk].trace == o.trace;
    }

    method PassesCheckers(o: Order) returns (silent: bool)
      requires HasLineage(tables, o)
      ensures silent <==>
                CheckersPass(PapersOf(tables, o), ThesesFor(tables.theses, o.decision),
                             Linked(tables.links, tables.evidence, o.candidate), hash)
    {
      var papers := PapersOf(tables, o);
      var semantic := SemanticErrors(papers, ThesesFor(tables.theses, o.decision));
      var raw := RawEvidenceErrors(papers.candidate, Linked(tables.links, tables.evidence, o.candidate), hash);
      SilentMeansNone(semantic);
      SilentMeansNone(raw);
      silent := semantic + raw == [];
    }

    method ClientIdTaken(clientId: string) returns (taken: bool)
      ensures taken <==> exists id :: id in tables.orders && tables.orders[id].clientId == clientId
    {
      taken := clientId in set id | id in tables.orders :: tables.orders[id].clientId;
    }

    /** `draft` carries everything but the sequence number. A known source event changes nothing. */
    method AppendOrderEvent(draft: OrderEvent) returns (r: Result<string>)
      requires Valid()
      modifies this
      ensures Valid() && Extends(old(tables), tables)
      ensures r.Err? ==> tables == old(tables)
      ensures r.Ok? <==> EventAccepted(old(tables), draft)
      ensures r.Ok? ==>
                if SourceEventStored(EventsOf(old(tables).events, draft.order), draft.sourceEvent) then
                  && tables == old(tables)
                  && exists e :: e in tables.events && e.order == draft.order
                       && e.sourceEvent == draft.sourceEvent && e.id == r.value
                else
                  && r.value == draft.id
                  && tables == old(tables).(events := old(tables).events +
                       [draft.(sequence := |EventsOf(old(tables).events, draft.order)| + 1)])
    {
      if draft.kind == "" || draft.status == "" { return Err("event type and status must be non-empty"); }
      if draft.order !in tables.orders || tables.orders[draft.order].trace != draft.trace {
        return Err("referenced order does not exist or belongs to a different trace");
      }
      var rows := EventsOf(tables.events, draft.order);
      if SourceEventKnown(rows, draft.sourceEvent) {
        if !Given(draft.sourceEvent) { return Err("duplicate source event"); }
        var k :| 0 <= k < |rows| && rows[k].sourceEvent == draft.sourceEvent;
        assert rows[k] in rows;
        return Ok(rows[k].id);
      }
      if draft.executed < 0.0 || exists k :: 0 <= k < |tables.events| && tables.events[k].id == draft.id {
        return Err("event violates a table constraint");
      }
      StoreEvent(draft, rows);
      r := Ok(draft.id);
    }

    /** The event goes in under the next number. */
    method StoreEvent(draft: OrderEvent, rows: seq<OrderEvent>)
      requires Valid() && rows == EventsOf(tables.events, draft.order) && !SourceEventKnown(rows, draft.sourceEvent)
      requires draft.order in tables.orders && tables.orders[draft.order].trace == draft.trace
      modifies this
      ensures Valid() && Extends(old(tables), tables)
      ensures tables == old(tables).(events := old(tables).events + [draft.(sequence := |rows| + 1)])
    {
      assert PartOk(EventRows, tables, hash);
      assert EventChain(rows);
      var e := draft.(sequence := MaxSequence(rows) + 1);
      EventRecorded(tables, e, hash);
      tables := tables.(events := tables.events + [e]);
    }

    /** A fill with a known external id changes nothing. */
    method AppendFill(f: Fill) returns (r: Result<string>)
      requires Valid()
      modifies this
      ensures Valid() && Extends(old(tables), tables)
      ensures r.Err? ==> tables == old(tables)
      ensures r.Ok? ==> tables == if FindFill(old(tables).fills, f) < |old(tables).fills| then old(tables)
                                  else old(tables).(fills := old(tables).fills + [f])
      ensures r.Ok? <==> FillAccepted(old(tables), f)
    {
      if f.order !in tables.orders || tables.orders[f.order].trace != f.trace {
        return Err("referenced order does not exist or belongs to a different trace");
      }
      var k := FindFill(tables.fills, f);
      if k < |tables.fills| {
        if !Given(f.externalId) { return Err("duplicate external fill id"); }
        return Ok(tables.fills[k].id);
      }
      if f.price <= 0.0 || f.quantity <= 0.0 || f.fee < 0.0
        || exists i :: 0 <= i < |tables.fills| && tables.fills[i].id == f.id
      {
        return Err("fill violates a table constraint");
      }
      FillRecorded(tables, f, hash);
      tables := tables.(fills := tables.fills + [f]);
      r := Ok(f.id);
    }

    /** A cash flow is recorded once; a replay that differs in an immutable field is refused. */
    method AppendAccounting(a: Accounting) returns (r: Result<string>)
      requires Valid()
      modifies this
      ensures Valid() && Extends(old(tables), tables)
      ensures r.Err? ==> tables == old(tables)
      ensures r.Ok? <==> CashAccepted(old(tables), a)
      ensures r.Ok? ==> tables == if CashKnown(old(tables), a) then old(tables)
                                  else old(tables).(accounting := old(tables).accounting + [Traced(old(tables), a)])
    {
      if a.venue == "" || a.income == "" || a.kind == "" || a.asset == "" { return Err("fields must be non-empty"); }
      var k := FindAccounting(tables.accounting, a.venue, a.income);
      if k < |tables.accounting| {
        var known := tables.accounting[k];
        if known.symbol != a.symbol || known.kind != a.kind || known.asset != a.asset || known.amount != a.amount
          || known.time != a.time || known.tradeId != a.tradeId
        {
          return Err("conflicting accounting replay");
        }
        return Ok(tables.accounting[k].id);
      }
      var row := a;
      if a.order.Some? {
        if a.order.value !in tables.orders { return Err("referenced order does not exist"); }
        var trace := tables.orders[a.order.value].trace;
        if a.trace.None? { row := a.(trace := Some(trace)); }
        else if a.trace.value != trace { return Err("referenced order belongs to a different trace"); }
      }
      if exists i :: 0 <= i < |tables.accounting| && tables.accounting[i].id == a.id { return Err("duplicate key"); }
      CashFlowRecorded(tables, row, hash);
      tables := tables.(accounting := tables.accounting + [row]);
      r := Ok(row.id);
    }

    /** An edit or a deletion of a source becomes the next version of the same evidence id. */
    method AppendEvidence(record: string, evidenceId: Option<string>, source: string, sourceId: string, occurredAt: int,
                          payload: string, firstObservedAt: Option<int>, deletedAt: Option<int>,
                          contentHash: Option<string>, createdAt: int) returns (r: Result<Evidence>)
      requires Valid()
      modifies this
      ensures Valid() && Extends(old(tables), tables)
      ensures r.Err? ==> tables == old(tables)
      ensures r.Ok? <==>
                && EvidenceAccepted(old(tables),
                                    if evidenceId in {None, Some("")} then source + ":" + sourceId else evidenceId.value,
                                    record, source, sourceId)
                && (contentHash.Some? ==> contentHash.value == hash(payload))
      ensures r.Ok? ==>
                && tables == old(tables).(evidence := old(tables).evidence + [r.value])
                && r.value.evidenceId == (if evidenceId in {None, Some("")} then source + ":" + sourceId else evidenceId.value)
                && Continues(Versions(old(tables).evidence, r.value.evidenceId), r.value)
                && r.value.source == source && r.value.sourceId == sourceId && r.value.record == record
                && r.value.occurredAt == occurredAt && r.value.payload == payload
                && r.value.contentHash == hash(payload) && r.value.deletedAt == deletedAt
                && (Versions(old(tables).evidence, r.value.evidenceId) == [] ==>
                     r.value.firstObservedAt == if firstObservedAt.Some? then firstObservedAt.value else createdAt)
    {
      if source == "" || sourceId == "" { return Err("source and source_id must be non-empty"); }
      var id := if Given(evidenceId) then evidenceId.value else source + ":" + sourceId;
      if contentHash.Some? && contentHash.value != hash(payload) { return Err("content_hash does not match"); }
      if Lookup(tables.evidence, record).Some? { return Err("duplicate key"); }
      assert PartOk(EvidenceRows, tables, hash);
      var draft := Evidence(record, id, 1, None, source, sourceId,
                            if firstObservedAt.Some? then firstObservedAt.value else createdAt, occurredAt, payload,
                            hash(payload), deletedAt);
      r := NextVersion(Versions(tables.evidence, id), draft);
      if r.Err? { return; }
      EvidenceRecorded(tables, r.value, hash);
      tables := tables.(evidence := tables.evidence + [r.value]);
    }

    /** The draft as the next version of a chain: numbered, linked backwards, with the first sight of the chain. */
    method NextVersion(rows: seq<Evidence>, draft: Evidence) returns (r: Result<Evidence>)
      requires VersionChain(rows) && draft.version == 1 && draft.prior.None?
      ensures r.Ok? ==>
                && Continues(rows, r.value)
                && r.value == draft.(version := r.value.version, prior := r.value.prior,
                                     firstObservedAt := r.value.firstObservedAt)
                && (rows == [] ==> r.value == draft)
      ensures r.Err? <==> rows != [] && (rows[0].source != draft.source || rows[0].sourceId != draft.sourceId)
    {
      var newest := NewestVersion(rows);
      if newest.None? { return Ok(draft); }
      var prior := newest.value;
      if prior.source != draft.source || prior.sourceId != draft.sourceId {
        return Err("source and source_id cannot change across versions");
      }
      r := Ok(draft.(version := prior.version + 1, prior := Some(prior.record), firstObservedAt := prior.firstObservedAt));
    }

    /** The newest version of an evidence id is present, not deleted, and has this content. */
    ghost predicate Current(evidenceId: string, payload: string)
      reads this
    {
      var newest := NewestVersion(Versions(tables.evidence, evidenceId));
      newest.Some? && newest.value.deletedAt.None? && newest.value.contentHash == hash(payload)
    }

    /** Appends only when the content changed, so that repeating a call appends nothing. */
    method EnsureEvidence(record: string, evidenceId: string, source: string, sourceId: string, occurredAt: int,
                          payload: string, firstObservedAt: Option<int>, createdAt: int) returns (r: Result<Evidence>)
      requires Valid()
      modifies this
      ensures Valid() && Extends(old(tables), tables)
      ensures r.Err? ==> tables == old(tables)
      ensures r.Ok? ==> Current(evidenceId, payload) && r.value in tables.evidence && r.value.evidenceId == evidenceId
      ensures r.Ok? ==> r.value.source == source && r.value.sourceId == sourceId
      ensures old(Current(evidenceId, payload)) ==> tables == old(tables)
      ensures r.Ok? && !old(Current(evidenceId, payload)) ==>
                tables == old(tables).(evidence := old(tables).evidence + [r.value])
    {
      if source == "" || sourceId == "" || evidenceId == "" { return Err("identifiers must be non-empty"); }
      var latest := NewestVersion(Versions(tables.evidence, evidenceId));
      if latest.Some? {
        if latest.value.source != source || latest.value.sourceId != sourceId {
          return Err("source and source_id cannot change across versions");
        }
        if latest.value.deletedAt.None? && latest.value.contentHash == hash(payload) { return Ok(latest.value); }
      }
      ghost var before := tables;
      r := AppendEvidence(record, Some(evidenceId), source, sourceId, occurredAt, payload, firstObservedAt, None,
                          Some(hash(payload)), createdAt);
      if r.Ok? {
        assert PartOk(EvidenceRows, before, hash);
        AppendedIsNewest(before.evidence, r.value);
      }
    }

    /** One call of any append. */
    method Step(call: Append)
      requires Valid()
      modifies this
      ensures Valid() && Extends(old(tables), tables)
      ensures LinksKept(old(tables), tables, call)
    {
      match call
      case Candidate(c, records) => var _ := AppendCandidate(c, records);
      case Links(trace, candidate, records) => var _ := LinkEvidence(trace, candidate, records);
      case Decision(d) => var _ := AppendDecision(d);
      case Risk(risk) => var _ := AppendRisk(risk);
      case Thesis(thesis) => var _ := AppendThesis(thesis);
      case Order(o, eventId) => var _ := AppendOrder(o, eventId);
      case Event(e) => var _ := AppendOrderEvent(e);
      case Fill(f) => var _ := AppendFill(f);
      case Cash(a) => var _ := AppendAccounting(a);
      case Version(record, id, source, sourceId, occurredAt, payload, first, deletedAt, contentHash, createdAt) =>
        var _ := AppendEvidence(record, id, source, sourceId, occurredAt, payload, first, deletedAt, contentHash, createdAt);
      case Ensure(record, id, source, sourceId, occurredAt, payload, first, createdAt) =>
        var _ := EnsureEvidence(record, id, source, sourceId, occurredAt, payload, first, createdAt);
    }

    /** A whole life of the ledger: sound orders stay sound unless their own candidate is linked again. */
    method Run(calls: seq<Append>)
      requires Valid()
      modifies this
      ensures Valid() && Extends(old(tables), tables)
      ensures forall order ::
                TraceSound(old(tables), order, hash) && !Relinks(calls, old(tables).orders[order].candidate) ==>
                TraceSound(tables, order, hash)
    {
      for k := 0 to |calls|
        invariant Valid() && Extends(old(tables), tables)
        invariant forall order :: Unlinked(old(tables), order, calls[..k], hash) ==> TraceSound(tables, order, hash)
      {
        ghost var before := tables;
        Step(calls[k]);
        ExtendsTransitively(old(tables), before, tables);
        forall order | Unlinked(old(tables), order, calls[..k + 1], hash)
          ensures TraceSound(tables, order, hash)
        {
          UnlinkedSoFar(old(tables), order, calls, k, hash);
          SoundOrderStaysSound(before, tables, order, hash);
        }
      }
      assert calls[..|calls|] == calls;
    }

    /** Ensuring the same content twice appends at most one version. */
    method EnsureTwice(first: string, second: string, evidenceId: string, source: string, sourceId: string, occurredAt: int,
                       payload: string, createdAt: int) returns (r: Result<Evidence>, s: Result<Evidence>)
      requires Valid()
      modifies this
      ensures Valid() && Extends(old(tables), tables)
      ensures |tables.evidence| <= |old(tables).evidence| + 1
      ensures r.Ok? ==> tables == old(tables) || tables == old(tables).(evidence := old(tables).evidence + [r.value])
    {
      r := EnsureEvidence(first, evidenceId, source, sourceId, occurredAt, payload, None, createdAt);
      s := EnsureEvidence(second, evidenceId, source, sourceId, occurredAt, payload, None, createdAt);
    }

    /** The validator reports exactly these codes, so it is silent exactly on sound traces. It trusts no table. */
    method ValidateOrderTrace(order: string) returns (r: Result<seq<Code>>)
      requires Keyed(tables)
      ensures r.Ok? <==> order in tables.orders
      ensures r.Ok? ==> forall code :: code in r.value <==> TraceReports(tables, tables.orders[order], hash, code)
      ensures r.Ok? ==> (r.value == [] <==> TraceSound(tables, order, hash))
    {
      if order !in tables.orders { return Err("unknown venue order"); }
      var o := tables.orders[order];
      var missing := LineageErrorsOf(o);
      var content := ContentErrorsOf(o);
      missing := missing + content;
      var events := TracedEvents(tables.events, o.trace, order);
      if events == [] { missing := missing + [MissingEventHistory]; }
      else if !Gapless(events) { missing := missing + [EventSequenceGap]; }
      SilentMeansNone(missing);
      assert forall code :: code in missing <==> TraceReports(tables, o, hash, code);
      SoundIffNothingReported(tables, order, hash);
      r := Ok(missing);
    }

    /** The checks on the order's references before the semantic ones. */
    method LineageErrorsOf(o: Order) returns (missing: seq<Code>)
      ensures forall code :: code in missing <==> LineageReports(tables, o, code)
    {
      missing := [];
      if !(o.candidate in tables.candidates && tables.candidates[o.candidate].trace == o.trace) {
        missing := [MissingCandidate];
      } else if tables.candidates[o.candidate].evidenceIds == [] {
        missing := [MissingSourceEvidence];
      }
      if !(o.decision in tables.decisions && tables.decisions[o.decision].trace == o.trace) {
        missing := missing + [MissingDecision];
      } else if tables.decisions[o.decision].candidate != o.candidate {
        missing := missing + [DecisionCandidateMismatch];
      }
      if !(o.risk in tables.risks && tables.risks[o.risk].trace == o.trace) {
        missing := missing + [MissingRisk];
      } else if tables.risks[o.risk].candidate != o.candidate || tables.risks[o.risk].decision != o.decision {
        missing := missing + [RiskLineageMismatch];
      }
    }

    /** Both checkers, when everything they need is there. */
    method ContentErrorsOf(o: Order) returns (missing: seq<Code>)
      ensures forall code :: code in missing <==> ContentReports(tables, o, hash, code)
    {
      var theses := TracedTheses(tables.theses, o.trace, o.decision);
      var known := LineageKnown(o);
      if !known { return if theses == [] then [MissingPositionThesis] else []; }
      var papers := PapersOf(tables, o);
      var semantic := SemanticErrors(papers, theses);
      var raw := RawEvidenceErrors(papers.candidate, Linked(tables.links, tables.evidence, o.candidate), hash);
      missing := semantic + raw;
    }
  }

  lemma SilentMeansNone(errors: seq<Code>)
    ensures errors == [] <==> forall code :: code !in errors
  {
    if errors != [] { assert errors[0] in errors; }
  }
}
