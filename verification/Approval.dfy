/**
 * `ApprovalTradingService`: the path from a candidate to the order gateway. The decision provider, the
 * risk engine, the account source and the gateway may answer anything.
 */
module Approval {
  import opened Trading
  import opened AuditRules
  import opened LedgerTables
  import opened Ledger
  import opened Theses

  /** One item of supplied evidence; `record` names a version that is already in the ledger. */
  datatype Item = Item(
    id: string, record: Option<string>, claimedHash: Option<string>, source: string, sourceId: string,
    occurredAt: Option<int>, firstObservedAt: Option<int>, payload: string, deletedAt: Option<int>)

  /** A result that the service returns and remembers; an exception is an `Err` instead. */
  datatype Outcome =
    | Refused(reason: string)
    | Unresolved(order: string)
    | Executed(order: string, status: string)

  /** One call of `gateway.submit`, with the ledger as it was at that moment. */
  datatype Submission = Submission(order: Order, intent: Intent, at: Tables)

  /** The outcome recorded with the risk row. */
  function VerdictOf(approved: bool, intent: Intent, requested: real): Verdict {
    if !approved then Refuse
    else if IsExit(intent.action) then Exit
    else if intent.quantity + DUST < requested then Resize
    else Allow
  }

  /** The order row carries what the gateway is asked to do; a missing side is recorded as a buy. */
  ghost predicate Carries(o: Order, intent: Intent) {
    && o.symbol == intent.symbol && o.quantity == intent.quantity && o.reduceOnly == intent.reduceOnly
    && o.side == if intent.side.Some? then intent.side.value else Buy
  }

  ghost predicate HasEvent(events: seq<OrderEvent>, order: string, status: string) {
    exists k :: 0 <= k < |events| && events[k].order == order && events[k].status == status
  }

  ghost predicate Lodged(t: Tables, o: Order) { o.id in t.orders && t.orders[o.id] == o && HasLineage(t, o) }

  /** The order is recorded with a sound trace, its risk row is the verdict on the intent, and it is announced. */
  ghost predicate Prepared(s: Submission, hash: string -> string) {
    && WellFormed(s.at, hash) && Lodged(s.at, s.order)
    && TraceSound(s.at, s.order.id, hash)
    && Carries(s.order, s.intent)
    && Judged(PapersOf(s.at, s.order), s.intent)
    && HasEvent(s.at.events, s.order.id, "SUBMITTING")
  }

  /** Refused, or an exit, or an entry cut below what the decision asks for, or an entry as asked for. */
  ghost predicate IsVerdict(verdict: Verdict, approved: bool, intent: Intent, c: Candidate, d: Decision) {
    && (verdict == Refuse <==> !approved)
    && (verdict == Exit <==> approved && intent.action in {Reduce, Close})
    && (verdict == Resize <==>
          approved && intent.action !in {Reduce, Close} && intent.quantity < c.maxQuantity * d.multiplier - DUST)
  }

  /** The risk row is the verdict on the intent. */
  ghost predicate Judged(papers: Papers, intent: Intent) {
    && papers.risk.approved == intent.quantity
    && IsVerdict(papers.risk.verdict, true, intent, papers.candidate, papers.decision)
  }

  lemma Shrinks(c: Candidate, d: Decision)
    requires c.maxQuantity > 0.0 && 0.0 <= d.multiplier <= 1.0
    ensures Requested(c, d) <= c.maxQuantity
  {
  }

  /** What the model and the risk engine together can ever obtain from the gateway. */
  ghost predicate Bounded(papers: Papers, intent: Intent) {
    var o, c, d, r := papers.order, papers.candidate, papers.decision, papers.risk;
    // the rows belong together, and the candidate is still valid
    && d.candidate == r.candidate == c.id && r.decision == d.id
    && o.symbol == intent.symbol == c.symbol && o.observedAt <= c.validUntil
    // only evidence of the candidate is cited
    && d.evidenceIds != [] && (forall id :: id in d.evidenceIds ==> id in c.evidenceIds)
    // the direction and the kind of order are forced
    && d.action in {Open, Add, Reduce, Close}
    && (intent.action in {Reduce, Close} <==> intent.reduceOnly) && (intent.reduceOnly <==> d.action in {Reduce, Close})
    && (o.side == Buy <==> (c.direction == Long && d.action in {Open, Add})
                           || (c.direction == Short && d.action in {Reduce, Close}))
    && (intent.side == Some(o.side) || (intent.side.None? && o.side == Buy))
    // the model can shrink the order, never enlarge it
    && 0.0 < intent.quantity <= c.maxQuantity + DUST && r.approved == intent.quantity
    && (d.action in {Open, Add} ==>
         && intent.quantity <= c.maxQuantity * d.multiplier + DUST && c.maxQuantity * d.multiplier <= c.maxQuantity
         && d.confidence >= if d.action == Open then 0.7 else 0.8)
  }

  lemma SoundPapersAreBounded(papers: Papers, intent: Intent)
    requires papers.Sound() && Carries(papers.order, intent) && Judged(papers, intent)
    requires papers.candidate.maxQuantity > 0.0 && 0.0 <= papers.decision.multiplier <= 1.0
    ensures Bounded(papers, intent)
  {
    papers.SoundLineage();
    papers.SoundAction();
    papers.SoundContent();
    SoundVerdict(papers);
    Shrinks(papers.candidate, papers.decision);
  }

  /** Every submission is bounded, and a thesis with evidence stands behind it. */
  lemma SubmissionIsBounded(s: Submission, hash: string -> string)
    requires Prepared(s, hash)
    ensures Bounded(PapersOf(s.at, s.order), s.intent)
    ensures HasSupport(ThesesFor(s.at.theses, s.order.decision))
  {
    SoundTraceMeansSoundPapers(s.at, s.order, hash);
    LimitsAreSane(s.at, s.order, hash);
    SoundPapersAreBounded(PapersOf(s.at, s.order), s.intent);
  }

  lemma SoundTraceMeansSoundPapers(t: Tables, o: Order, hash: string -> string)
    requires WellFormed(t, hash) && Lodged(t, o) && TraceSound(t, o.id, hash)
    ensures PapersOf(t, o).Sound() && HasSupport(ThesesFor(t.theses, o.decision))
  {
    SoundIffCheckersPass(t, o.id, hash);
    SoundByPart(PapersOf(t, o), ThesesFor(t.theses, o.decision));
  }

  lemma LimitsAreSane(t: Tables, o: Order, hash: string -> string)
    requires WellFormed(t, hash) && HasLineage(t, o)
    ensures PapersOf(t, o).candidate.maxQuantity > 0.0 && 0.0 <= PapersOf(t, o).decision.multiplier <= 1.0
  {
    assert PartOk(CandidateRows, t, hash) && PartOk(DecisionRows, t, hash);
    assert DecisionOk(t.candidates, o.decision, t.decisions[o.decision]);
  }

  lemma SoundVerdict(papers: Papers)
    requires papers.Sound()
    ensures papers.Entry() ==> papers.risk.verdict == Allow || papers.risk.verdict == Resize
    ensures papers.Exits() ==> papers.risk.verdict == Exit
  {
    assert !papers.Violates(EntryVerdictInvalid) && !papers.Violates(ExitVerdictInvalid);
  }

  /** At most one submission was added, for this candidate. */
  ghost predicate SubmittedAtMostOne(before: seq<Submission>, after: seq<Submission>, candidate: string) {
    || after == before
    || (|after| == |before| + 1 && before <= after && after[|before|].order.candidate == candidate)
  }

  /** No candidate reaches the gateway twice. */
  ghost predicate OncePerCandidate(submitted: seq<Submission>) {
    forall i, k :: 0 <= i < k < |submitted| ==> submitted[i].order.candidate != submitted[k].order.candidate
  }

  lemma SubmitOnce(submitted: seq<Submission>, s: Submission, before: Tables, hash: string -> string)
    requires AllPrepared(submitted, before, hash) && OncePerCandidate(submitted)
    requires s.order.candidate !in before.candidates
    ensures OncePerCandidate(submitted + [s])
  {
    AllLodged(submitted, before, hash);
  }

  lemma AllLodged(submitted: seq<Submission>, t: Tables, hash: string -> string)
    requires AllPrepared(submitted, t, hash)
    ensures forall k :: 0 <= k < |submitted| ==> submitted[k].order.candidate in t.candidates
  {
    forall k | 0 <= k < |submitted|
      ensures submitted[k].order.candidate in t.candidates
    {
      CandidateLodged(submitted[k], t, hash);
    }
  }

  lemma CandidateLodged(s: Submission, t: Tables, hash: string -> string)
    requires Prepared(s, hash) && Extends(s.at, t)
    ensures s.order.candidate in t.candidates
  {
    assert Lodged(s.at, s.order);
  }

  lemma AllPreparedPlus(submitted: seq<Submission>, s: Submission, t: Tables, hash: string -> string)
    requires AllPrepared(submitted, t, hash) && Prepared(s, hash) && Extends(s.at, t)
    ensures AllPrepared(submitted + [s], t, hash)
  {
    var all := submitted + [s];
    forall k | 0 <= k < |all|
      ensures Prepared(all[k], hash) && Extends(all[k].at, t)
    {
      assert k < |submitted| ==> all[k] == submitted[k];
    }
  }

  ghost predicate AllPrepared(submitted: seq<Submission>, t: Tables, hash: string -> string) {
    forall k :: 0 <= k < |submitted| ==> Prepared(submitted[k], hash) && Extends(submitted[k].at, t)
  }

  lemma AllPreparedLater(submitted: seq<Submission>, t: Tables, u: Tables, hash: string -> string)
    requires AllPrepared(submitted, t, hash) && Extends(t, u)
    ensures AllPrepared(submitted, u, hash)
  {
    forall k | 0 <= k < |submitted|
      ensures Extends(submitted[k].at, u)
    {
      ExtendsTransitively(submitted[k].at, t, u);
    }
  }

  /** Order events do not touch what makes a trace sound. */
  lemma EventsKeepSound(t: Tables, u: Tables, o: Order, hash: string -> string)
    requires WellFormed(t, hash) && WellFormed(u, hash) && Extends(t, u) && u == t.(events := u.events)
    requires Lodged(t, o) && TraceSound(t, o.id, hash)
    ensures Lodged(u, o) && TraceSound(u, o.id, hash)
  {
    SoundOrderStaysSound(t, u, o.id, hash);
  }

  datatype Review = Review(candidate: Candidate, modelIds: seq<string>, items: seq<Item>, now: int)

  /**
   * A call on the service. The trading cycle hands over the held thesis, restored from the ledger if need be; a caller of
   * the HTTP interface brings its own. The deterministic exits go around the decision provider.
   */
  datatype Request =
    | Cycle(review: Review, restorable: bool, live: bool, pnl: Option<real>)
    | Supplied(review: Review, position: Option<Held>)
    | EmergencyClose(candidate: Candidate, items: seq<Item>, fallback: Held, now: int)
    | StopClose(candidate: Candidate, items: seq<Item>, fallback: Held, now: int, restorable: bool, pnl: Option<real>)

  function SentDecisions(turns: seq<Turn>): seq<string> {
    if turns == [] then []
    else
      var before, last := SentDecisions(turns[..|turns| - 1]), turns[|turns| - 1];
      if last.Reviewed? && last.sent then before + [last.d.id] else before
  }

  function DecisionsOf(submitted: seq<Submission>): seq<string> {
    if submitted == [] then []
    else DecisionsOf(submitted[..|submitted| - 1]) + [submitted[|submitted| - 1].order.decision]
  }

  datatype Account = Shapes | Records | Behindhand | Holdings | Calls

  ghost predicate AccountsFor(account: Account, turns: seq<Turn>, theses: map<string, Held>, submitted: seq<Submission>,
                              t: Tables)
  {
    match account
    case Shapes => AllWellFormed(turns)
    case Records => NeverFalls(turns)
    case Behindhand => Behind(turns, t)
    case Holdings => AllHeld(turns, theses)
    case Calls => SentDecisions(turns) == DecisionsOf(submitted)
  }

  ghost predicate AllHeld(turns: seq<Turn>, theses: map<string, Held>) {
    forall s :: HeldIn(theses, s) == HeldFrom(turns, s)
  }

  /** The turns account for the held theses, for every call of the gateway and for the recorded add counts. */
  ghost predicate Accounted(turns: seq<Turn>, theses: map<string, Held>, submitted: seq<Submission>, t: Tables) {
    forall account :: AccountsFor(account, turns, theses, submitted, t)
  }

  lemma AccountParts(turns: seq<Turn>, theses: map<string, Held>, submitted: seq<Submission>, t: Tables)
    requires Accounted(turns, theses, submitted, t)
    ensures AllWellFormed(turns) && NeverFalls(turns) && Behind(turns, t) && AllHeld(turns, theses)
    ensures SentDecisions(turns) == DecisionsOf(submitted)
  {
    assert AccountsFor(Shapes, turns, theses, submitted, t) && AccountsFor(Records, turns, theses, submitted, t);
    assert AccountsFor(Behindhand, turns, theses, submitted, t) && AccountsFor(Holdings, turns, theses, submitted, t);
    assert AccountsFor(Calls, turns, theses, submitted, t);
  }

  lemma HeldAccounted(turns: seq<Turn>, theses: map<string, Held>, submitted: seq<Submission>, t: Tables, symbol: string)
    requires Accounted(turns, theses, submitted, t)
    ensures HeldIn(theses, symbol) == HeldFrom(turns, symbol)
  {
    AccountParts(turns, theses, submitted, t);
  }

  /** Nothing but the ledger grew. */
  lemma AccountedLater(turns: seq<Turn>, theses: map<string, Held>, submitted: seq<Submission>, t: Tables, u: Tables,
                       hash: string -> string)
    requires Accounted(turns, theses, submitted, t) && Extends(t, u) && WellFormed(u, hash)
    ensures Accounted(turns, theses, submitted, u)
  {
    AccountParts(turns, theses, submitted, t);
    BehindLater(turns, t, u, hash);
  }

  /** One more call of the gateway exactly if the turn says so. */
  ghost predicate SentAs(turn: Turn, before: seq<Submission>, after: seq<Submission>) {
    if turn.Reviewed? && turn.sent then
      |after| == |before| + 1 && before <= after && after[|before|].order.decision == turn.d.id
    else after == before
  }

  lemma TurnAccounted(turns: seq<Turn>, theses: map<string, Held>, before: seq<Submission>, t: Tables, turn: Turn,
                      after: seq<Submission>, u: Tables, hash: string -> string)
    requires Accounted(turns, theses, before, t) && Extends(t, u) && WellFormed(u, hash)
    requires turn.WellFormed() && Marks(turn, t, u) && SentAs(turn, before, after)
    ensures Accounted(turns + [turn], Stored(theses, turn), after, u)
  {
    AccountParts(turns, theses, before, t);
    forall account
      ensures AccountsFor(account, turns + [turn], Stored(theses, turn), after, u)
    {
      match account
      case Shapes =>
      case Records => RecordsGrow(turns, turn, t);
      case Behindhand =>
        BehindLater(turns, t, u, hash);
        BehindGrows(turns, turn, u);
      case Holdings => HeldAfterTurn(turns, theses, turn);
      case Calls => CallsGrow(turns, turn, before, after);
    }
  }

  lemma RecordsGrow(turns: seq<Turn>, turn: Turn, t: Tables)
    requires NeverFalls(turns) && Behind(turns, t)
    requires turn.Records() ==> RecordedAdds(t.theses, turn.symbol) <= turn.next.value.addCount
    ensures NeverFalls(turns + [turn])
  {
    var more := turns + [turn];
    forall i, k | 0 <= i < k < |more| && more[i].Records() && more[k].Records() && more[i].symbol == more[k].symbol
      ensures more[i].next.value.addCount <= more[k].next.value.addCount
    {
      assert more[i] == turns[i] && (k < |turns| ==> more[k] == turns[k]);
    }
  }

  lemma BehindGrows(turns: seq<Turn>, turn: Turn, t: Tables)
    requires Behind(turns, t)
    requires turn.Records() ==> turn.next.value.addCount <= RecordedAdds(t.theses, turn.symbol)
    ensures Behind(turns + [turn], t)
  {
  }

  lemma CallsGrow(turns: seq<Turn>, turn: Turn, before: seq<Submission>, after: seq<Submission>)
    requires SentDecisions(turns) == DecisionsOf(before) && SentAs(turn, before, after)
    ensures SentDecisions(turns + [turn]) == DecisionsOf(after)
  {
    assert (turns + [turn])[..|turns|] == turns;
    if after != before { assert after[..|before|] == before; }
  }

  lemma HeldAfterTurn(turns: seq<Turn>, theses: map<string, Held>, turn: Turn)
    requires AllHeld(turns, theses)
    ensures AllHeld(turns + [turn], Stored(theses, turn))
  {
    assert (turns + [turn])[..|turns|] == turns && HeldIn(theses, turn.symbol) == HeldFrom(turns, turn.symbol);
    forall s
      ensures HeldIn(Stored(theses, turn), s) == HeldFrom(turns + [turn], s)
    {
      assert HeldIn(theses, s) == HeldFrom(turns, s);
    }
  }

  lemma FollowedGrows(turns: seq<Turn>, turn: Turn)
    requires Followed(turns) && turn.Follows(HeldFrom(turns, turn.symbol))
    ensures Followed(turns + [turn])
  {
    var more := turns + [turn];
    assert more[..|turns|] == turns;
    forall k | 0 <= k < |turns|
      ensures more[k].Follows(HeldFrom(more[..k], more[k].symbol))
    {
      assert more[k] == turns[k] && more[..k] == turns[..k];
    }
  }

  /** Whoever hands over what is held keeps the turns followed. */
  lemma StillFollowed(before: seq<Turn>, after: seq<Turn>, symbol: string, given: Option<Held>, held: Option<Held>)
    requires ReviewedOnce(before, after, symbol, given) && held == HeldFrom(before, symbol)
    requires held.Some? ==> given.Some? && given.value.addCount == held.value.addCount
    ensures before <= after && (Followed(before) ==> Followed(after))
  {
    if after != before && Followed(before) { FollowedGrows(before, after[|before|]); }
  }

  lemma StoredNothing(theses: map<string, Held>, turn: Turn)
    requires turn.Reviewed? && turn.next.None?
    ensures Stored(theses, turn) == theses
  {
    assert turn.symbol !in theses ==> theses - {turn.symbol} == theses;
  }

  lemma BookedByAppend(before: seq<Fill>, after: seq<Fill>, f: Fill)
    requires after == if FindFill(before, f) < |before| then before else before + [f]
    ensures Booked(after, f)
  {
    if FindFill(before, f) < |before| {
      assert SameFill(f, after[FindFill(before, f)]);
    } else {
      assert after[|before|] == f;
    }
  }

  lemma RestoredAccounted(turns: seq<Turn>, theses: map<string, Held>, submitted: seq<Submission>, t: Tables, turn: Turn,
                          hash: string -> string)
    requires Accounted(turns, theses, submitted, t) && WellFormed(t, hash)
    requires turn.WellFormed() && turn.Restored? && turn.symbol !in theses
    ensures Accounted(turns + [turn], theses[turn.symbol := turn.held], submitted, t)
    ensures Followed(turns) ==> Followed(turns + [turn])
  {
    TurnAccounted(turns, theses, submitted, t, turn, submitted, t, hash);
    HeldAccounted(turns, theses, submitted, t, turn.symbol);
    if Followed(turns) { FollowedGrows(turns, turn); }
  }

  lemma AllCounted(turns: seq<Turn>, theses: map<string, Held>, submitted: seq<Submission>, t: Tables)
    requires Accounted(turns, theses, submitted, t) && Followed(turns)
    ensures forall s :: s in theses ==> HeldFrom(turns, s) == Some(theses[s]) && exists from :: CountedSince(turns, s, from)
  {
    AccountParts(turns, theses, submitted, t);
    forall s | s in theses
      ensures HeldFrom(turns, s) == Some(theses[s]) && exists from :: CountedSince(turns, s, from)
    {
      assert HeldIn(theses, s) == HeldFrom(turns, s);
      AddsAreCounted(turns, s);
    }
  }

  lemma TurnConcluded(turns: seq<Turn>, theses: map<string, Held>, before: seq<Submission>, base: Tables, t: Tables, turn: Turn,
                      after: seq<Submission>, u: Tables, hash: string -> string)
    requires Accounted(turns, theses, before, base) && Extends(base, t) && Extends(t, u)
    requires WellFormed(t, hash) && WellFormed(u, hash)
    requires turn.WellFormed() && Marks(turn, t, u) && SentAs(turn, before, after)
    ensures Accounted(turns + [turn], Stored(theses, turn), after, u)
  {
    ExtendsTransitively(base, t, u);
    MarksWithin(turn, base, t, u, u, hash);
    TurnAccounted(turns, theses, before, base, turn, after, u, hash);
  }

  /** At most one review was added, of `symbol`, and it was handed `given`. */
  ghost predicate ReviewedOnce(before: seq<Turn>, after: seq<Turn>, symbol: string, given: Option<Held>) {
    || after == before
    || (exists turn: Turn :: after == before + [turn] && turn.Reviewed? && turn.symbol == symbol && turn.given == given)
  }

  ghost predicate EachBounded(submitted: seq<Submission>) {
    forall k :: 0 <= k < |submitted| ==>
      Lodged(submitted[k].at, submitted[k].order) && Bounded(PapersOf(submitted[k].at, submitted[k].order), submitted[k].intent)
  }

  lemma PreparedMeansBounded(submitted: seq<Submission>, t: Tables, hash: string -> string)
    requires AllPrepared(submitted, t, hash)
    ensures EachBounded(submitted)
  {
    forall k | 0 <= k < |submitted|
      ensures Lodged(submitted[k].at, submitted[k].order)
      ensures Bounded(PapersOf(submitted[k].at, submitted[k].order), submitted[k].intent)
    {
      SubmissionIsBounded(submitted[k], hash);
    }
  }

  /** What the gateway answers: a submission, or an exception that may carry a partial one. */
  datatype Answer = Answer(failed: bool, status: string, notes: seq<OrderEvent>, fills: seq<GatewayFill>) {
    /** Only authoritative fills count: they are booked and they make a thesis held. */
    ghost predicate Fills() { exists fill :: fill in fills && fill.authoritative }

    predicate Filled() { exists k :: 0 <= k < |fills| && fills[k].authoritative }
  }

  /** Order responses only show cumulative quantities; such a fill is not authoritative. */
  datatype GatewayFill = GatewayFill(fill: Fill, authoritative: bool)

  function FillOf(o: Order, f: GatewayFill): Fill { f.fill.(order := o.id, trace := o.trace) }

  ghost predicate Booked(fills: seq<Fill>, f: Fill) {
    exists k :: 0 <= k < |fills| && (fills[k] == f || SameFill(f, fills[k]))
  }

  /** Each of the first `count` authoritative fills is booked, and what is new in the table is one of them. */
  ghost predicate BookedExactly(before: seq<Fill>, after: seq<Fill>, o: Order, fills: seq<GatewayFill>, count: nat)
    requires count <= |fills|
  {
    && before <= after
    && (forall j :: 0 <= j < count && fills[j].authoritative ==> Booked(after, FillOf(o, fills[j])))
    && (forall k :: |before| <= k < |after| ==> Reported(o, fills, count, after[k]))
  }

  ghost predicate Reported(o: Order, fills: seq<GatewayFill>, count: nat, f: Fill)
    requires count <= |fills|
  {
    exists j :: 0 <= j < count && fills[j].authoritative && f == FillOf(o, fills[j])
  }

  lemma BookedNext(before: seq<Fill>, middle: seq<Fill>, after: seq<Fill>, o: Order, fills: seq<GatewayFill>, j: nat)
    requires j < |fills| && BookedExactly(before, middle, o, fills, j)
    requires if fills[j].authoritative then
               Booked(after, FillOf(o, fills[j])) && (after == middle || after == middle + [FillOf(o, fills[j])])
             else after == middle
    ensures BookedExactly(before, after, o, fills, j + 1)
  {
    forall i | 0 <= i < j && fills[i].authoritative
      ensures Booked(after, FillOf(o, fills[i]))
    {
      var k :| 0 <= k < |middle| && (middle[k] == FillOf(o, fills[i]) || SameFill(FillOf(o, fills[i]), middle[k]));
      assert after[k] == middle[k];
    }
    forall k | |before| <= k < |after|
      ensures Reported(o, fills, j + 1, after[k])
    {
      if k < |middle| {
        assert Reported(o, fills, j, middle[k]) && after[k] == middle[k];
      } else {
        assert after[k] == FillOf(o, fills[j]);
      }
    }
  }

  /** The record is of this evidence id. */
  ghost predicate IsRecordOf(evidence: seq<Evidence>, record: string, id: string) {
    Lookup(evidence, record).Some? && Lookup(evidence, record).value.evidenceId == id
  }

  /** One of the records is of this evidence id. */
  ghost predicate Evidenced(evidence: seq<Evidence>, records: seq<string>, id: string) {
    exists record :: record in records && IsRecordOf(evidence, record, id)
  }

  ghost predicate AllEvidenced(evidence: seq<Evidence>, records: seq<string>, items: seq<Item>, count: nat)
    requires count <= |items|
  {
    forall k :: 0 <= k < count && items[k].id != "" ==> Evidenced(evidence, records, items[k].id)
  }

  lemma EvidencedStays(t: Tables, u: Tables, hash: string -> string, records: seq<string>, more: seq<string>, id: string)
    requires Extends(t, u) && WellFormed(u, hash) && Evidenced(t.evidence, records, id)
    requires forall record :: record in records ==> record in more
    ensures Evidenced(u.evidence, more, id)
  {
    assert PartOk(EvidenceRows, u, hash);
    var record :| record in records && IsRecordOf(t.evidence, record, id);
    LookupIsStable(t.evidence, u.evidence, record);
    assert IsRecordOf(u.evidence, record, id);
  }

  lemma AllEvidencedNext(t: Tables, u: Tables, hash: string -> string, records: seq<string>, more: seq<string>,
                         items: seq<Item>, k: nat)
    requires Extends(t, u) && WellFormed(u, hash) && k < |items| && AllEvidenced(t.evidence, records, items, k)
    requires forall record :: record in records ==> record in more
    requires items[k].id != "" ==> Evidenced(u.evidence, more, items[k].id)
    ensures AllEvidenced(u.evidence, more, items, k + 1)
  {
    forall i | 0 <= i < k && items[i].id != ""
      ensures Evidenced(u.evidence, more, items[i].id)
    {
      EvidencedStays(t, u, hash, records, more, items[i].id);
    }
  }

  /**
   * An item that names a record: that is the newest version of its evidence id, not deleted and seen in time, and a hash that
   * the item claims is the one its payload declares, or else the one on record.
   */
  ghost predicate Supports(evidence: seq<Evidence>, sourceHash: string -> Option<string>, c: Candidate, item: Item)
    requires item.record.Some?
  {
    && var newest := NewestVersion(Versions(evidence, item.id));
       && newest.Some? && newest.value.record == item.record.value && newest.value.deletedAt.None?
       && newest.value.firstObservedAt <= c.createdAt
       && (item.claimedHash !in {None, Some("")} ==>
             item.claimedHash == if sourceHash(newest.value.payload) in {None, Some("")} then Some(newest.value.contentHash)
                                 else sourceHash(newest.value.payload))
  }

  /** The row that a new item becomes. */
  ghost predicate IsRowOf(before: seq<Evidence>, c: Candidate, item: Item, e: Evidence) {
    && e.evidenceId == item.id && e.source == item.source && e.sourceId == item.sourceId
    && e.payload == item.payload && e.deletedAt == item.deletedAt
    && (item.occurredAt.Some? ==> e.occurredAt == item.occurredAt.value)
    && (item.occurredAt.None? && item.firstObservedAt.Some? ==> e.occurredAt == item.firstObservedAt.value)
    && (item.occurredAt.None? && item.firstObservedAt.None? ==> e.occurredAt == c.createdAt)
    && (Versions(before, item.id) == [] && item.firstObservedAt.Some? ==> e.firstObservedAt == item.firstObservedAt.value)
    && (Versions(before, item.id) == [] && item.firstObservedAt.None? ==> e.firstObservedAt == c.createdAt)
  }

  class ApprovalService {
    const repo: AuditRepository
    const venue: string
    const featurePayload: map<string, real> -> string
    const sourceHash: string -> Option<string>
    const clientOrderId: (string, Action) -> string
    var results: map<string, Outcome>
    var theses: map<string, Held>
    var killed: bool
    ghost var submitted: seq<Submission>
    ghost var turns: seq<Turn>

    /** The ledger is well formed, and every submission so far was prepared in an earlier state of it. */
    ghost predicate Sound()
      reads this, repo
    {
      repo.Valid() && AllPrepared(submitted, repo.tables, repo.hash) && OncePerCandidate(submitted)
    }

    /** Between two calls the turns also account for what is held, sent and recorded. */
    ghost predicate Valid()
      reads this, repo
    {
      Sound() && Accounted(turns, theses, submitted, repo.tables)
    }

    constructor (repo: AuditRepository, venue: string, featurePayload: map<string, real> -> string,
                 sourceHash: string -> Option<string>, clientOrderId: (string, Action) -> string)
      requires repo.Valid()
      ensures Valid() && this.repo == repo && submitted == [] && turns == [] && results == map[] && !killed
    {
      this.repo, this.venue := repo, venue;
      this.featurePayload, this.sourceHash, this.clientOrderId := featurePayload, sourceHash, clientOrderId;
      results, theses, killed, submitted, turns := map[], map[], false, [], [];
    }

    /** The ledger grew and stayed well formed. */
    twostate predicate Grew()
      reads repo
    {
      repo.Valid() && Extends(old(repo.tables), repo.tables)
    }

    // The candidate and its evidence

    /** An item that is already in the ledger must be its newest version, not deleted, and seen in time. */
    method CheckExisting(c: Candidate, item: Item) returns (problem: Option<string>)
      requires item.record.Some?
      ensures problem.None? <==> Supports(repo.tables.evidence, sourceHash, c, item)
    {
      var latest := NewestVersion(Versions(repo.tables.evidence, item.id));
      if latest.None? || latest.value.record != item.record.value { return Some("not the latest audited version"); }
      if latest.value.deletedAt.Some? { return Some("deleted evidence cannot support a candidate"); }
      if latest.value.firstObservedAt > c.createdAt { return Some("observed after candidate creation"); }
      var declared := sourceHash(latest.value.payload);
      var expected := if Given(declared) then declared.value else latest.value.contentHash;
      if Given(item.claimedHash) && item.claimedHash.value != expected { return Some("content hash does not match"); }
      problem := None;
    }

    /** One item becomes a record to link: an existing version, or a new one. */
    method RecordItem(c: Candidate, item: Item) returns (r: Result<string>, ghost row: Option<Evidence>)
      requires repo.Valid() && item.id != ""
      modifies repo
      ensures Grew()
      ensures r.Ok? ==> IsRecordOf(repo.tables.evidence, r.value, item.id)
      ensures item.record !in {None, Some("")} ==>
                && repo.tables == old(repo.tables) && (r.Ok? <==> Supports(repo.tables.evidence, sourceHash, c, item))
                && (r.Ok? ==> r.value == item.record.value)
      ensures item.record in {None, Some("")} && r.Ok? ==>
                && row.Some? && row.value.record == r.value && IsRowOf(old(repo.tables).evidence, c, item, row.value)
                && repo.tables == old(repo.tables).(evidence := old(repo.tables).evidence + [row.value])
    {
      row := None;
      if Given(item.record) {
        var problem := CheckExisting(c, item);
        if problem.Some? { return Err(problem.value), None; }
        NewestIsRecord(item.id);
        return Ok(item.record.value), None;
      }
      assert item.record.Some? ==> item.record == Some("");
      r, row := RecordNew(c, item);
    }

    /** An item that names no record becomes the next version of its evidence id. */
    method RecordNew(c: Candidate, item: Item) returns (r: Result<string>, ghost row: Option<Evidence>)
      requires repo.Valid() && item.id != ""
      modifies repo
      ensures Grew()
      ensures r.Ok? ==>
                && row.Some? && row.value.record == r.value && IsRowOf(old(repo.tables).evidence, c, item, row.value)
                && repo.tables == old(repo.tables).(evidence := old(repo.tables).evidence + [row.value])
                && IsRecordOf(repo.tables.evidence, r.value, item.id)
    {
      var record: string := *;
      var now: int := *;
      var first := if item.firstObservedAt.Some? then item.firstObservedAt.value else c.createdAt;
      var occurred := if item.occurredAt.Some? then item.occurredAt.value
                      else if item.firstObservedAt.Some? then item.firstObservedAt.value else c.createdAt;
      var e := repo.AppendEvidence(record, Some(item.id), item.source, item.sourceId, occurred, item.payload, Some(first),
                                   item.deletedAt, None, now);
      row := if e.Ok? then Some(e.value) else None;
      r := if e.Ok? then Ok(record) else Err(e.reason);
    }

    lemma NewestIsRecord(id: string)
      requires repo.Valid() && NewestVersion(Versions(repo.tables.evidence, id)).Some?
      ensures IsRecordOf(repo.tables.evidence, NewestVersion(Versions(repo.tables.evidence, id)).value.record, id)
    {
      assert PartOk(EvidenceRows, repo.tables, repo.hash);
      var newest := NewestVersion(Versions(repo.tables.evidence, id)).value;
      RecordsAreUnique(repo.tables.evidence, newest, Lookup(repo.tables.evidence, newest.record).value, repo.hash);
    }

    /** Every item with an id becomes a record of that id. */
    method RecordItems(c: Candidate, items: seq<Item>) returns (r: Result<seq<string>>)
      requires repo.Valid()
      modifies repo
      ensures Grew()
      ensures r.Ok? ==> AllEvidenced(repo.tables.evidence, r.value, items, |items|)
      ensures (forall k :: 0 <= k < |items| ==> items[k].id == "") ==> r == Ok([]) && repo.tables == old(repo.tables)
    {
      var records: seq<string> := [];
      for k := 0 to |items|
        invariant Grew() && AllEvidenced(repo.tables.evidence, records, items, k)
        invariant (forall i :: 0 <= i < |items| ==> items[i].id == "") ==> records == [] && repo.tables == old(repo.tables)
      {
        if items[k].id == "" { continue; }
        ghost var before := repo.tables;
        var one, _ := RecordItem(c, items[k]);
        ExtendsTransitively(old(repo.tables), before, repo.tables);
        if one.Err? { return Err(one.reason); }
        assert Evidenced(repo.tables.evidence, records + [one.value], items[k].id);
        AllEvidencedNext(before, repo.tables, repo.hash, records, records + [one.value], items, k);
        records := records + [one.value];
      }
      r := Ok(records);
    }

    /** The feature snapshot is evidence too, under the candidate's own id. */
    method RecordFeatures(c: Candidate) returns (r: Result<string>, ghost row: Option<Evidence>)
      requires repo.Valid()
      modifies repo
      ensures Grew()
      ensures r.Ok? && c.id != "" ==> IsRecordOf(repo.tables.evidence, r.value, c.id)
      ensures r.Ok? ==>
                && row.Some? && row.value.record == r.value
                && row.value.source == "strategy_feature_snapshot" && row.value.sourceId == c.id
                && row.value.payload == featurePayload(c.features) && row.value.occurredAt == c.createdAt
                && repo.tables == old(repo.tables).(evidence := old(repo.tables).evidence + [row.value])
    {
      var record: string := *;
      var now: int := *;
      var e := repo.AppendEvidence(record, Some(c.id), "strategy_feature_snapshot", c.id, c.createdAt,
                                   featurePayload(c.features), Some(c.createdAt), None, None, now);
      row := if e.Ok? then Some(e.value) else None;
      r := if e.Ok? then Ok(record) else Err(e.reason);
    }

    /** `_audit_candidate`: what it returns is the candidate as recorded, with the evidence ids it declares. */
    method AuditCandidate(c: Candidate, items: seq<Item>) returns (r: Result<Candidate>)
      requires repo.Valid()
      modifies repo
      ensures Grew()
      ensures r.Ok? ==> r.value == c.(evidenceIds := r.value.evidenceIds)
      ensures r.Ok? ==> r.value.evidenceIds == if ItemIds(items) == [] then [] else [c.id] + ItemIds(items)
      ensures r.Ok? ==> c.id in repo.tables.candidates && repo.tables.candidates[c.id] == r.value
      ensures r.Ok? ==> c.id !in old(repo.tables).candidates
      ensures r.Ok? ==>
                forall id :: id in r.value.evidenceIds && id != "" ==>
                  Evidenced(repo.tables.evidence, RecordsLinked(repo.tables.links, c.id), id)
    {
      var ids := ItemIds(items);
      var declared := c.(evidenceIds := if ids == [] then [] else [c.id] + ids);
      var records := RecordAll(c, items);
      if records.Err? { return Err(records.reason); }
      ghost var before := repo.tables;
      var stored := repo.AppendCandidate(declared, records.value);
      ExtendsTransitively(old(repo.tables), before, repo.tables);
      if stored.Ok? {
        forall id | id in declared.evidenceIds && id != ""
          ensures Evidenced(repo.tables.evidence, RecordsLinked(repo.tables.links, c.id), id)
        {
          EvidencedStays(before, repo.tables, repo.hash, records.value, RecordsLinked(repo.tables.links, c.id), id);
        }
      }
      r := if stored.Ok? then Ok(declared) else Err(stored.reason);
    }

    /** What is to be linked: the feature snapshot and every item, or nothing when no item has an id. */
    method RecordAll(c: Candidate, items: seq<Item>) returns (r: Result<seq<string>>)
      requires repo.Valid()
      modifies repo
      ensures Grew()
      ensures ItemIds(items) == [] ==> r == Ok([]) && repo.tables == old(repo.tables)
      ensures r.Ok? && ItemIds(items) != [] ==>
                forall id :: id in [c.id] + ItemIds(items) && id != "" ==> Evidenced(repo.tables.evidence, r.value, id)
    {
      NoIds(items);
      var first: seq<string> := [];
      if ItemIds(items) != [] {
        var features, _ := RecordFeatures(c);
        if features.Err? { return Err(features.reason); }
        first := [features.value];
        assert c.id != "" ==> Evidenced(repo.tables.evidence, first, c.id);
      }
      ghost var before := repo.tables;
      var rest := RecordItems(c, items);
      ExtendsTransitively(old(repo.tables), before, repo.tables);
      if rest.Err? { return rest; }
      r := Ok(first + rest.value);
      assert ItemIds(items) == [] ==> first + rest.value == [];
      forall id | ItemIds(items) != [] && id in [c.id] + ItemIds(items) && id != ""
        ensures Evidenced(repo.tables.evidence, r.value, id)
      {
        if id in ItemIds(items) {
          var k :| 0 <= k < |items| && items[k].id == id;
          EvidencedStays(repo.tables, repo.tables, repo.hash, rest.value, r.value, items[k].id);
        } else {
          EvidencedStays(before, repo.tables, repo.hash, first, r.value, c.id);
        }
      }
    }

    // The decision, its verdict and its thesis

    /** The risk row, accepted exactly when its decision belongs to its candidate and trace. */
    method RecordRisk(c: Candidate, d: Decision, intent: Intent, approved: bool) returns (r: Result<Risk>, ghost row: Risk)
      requires repo.Valid()
      modifies repo
      ensures Grew()
      ensures row.trace == c.trace && row.candidate == c.id && row.decision == d.id && row.approved == intent.quantity
      ensures IsVerdict(row.verdict, approved, intent, c, d)
      ensures r.Ok? <==>
                row.id !in old(repo.tables).risks
                && RiskOk(old(repo.tables).candidates, old(repo.tables).decisions, row.id, row)
      ensures r.Ok? ==> r.value == row && repo.tables == old(repo.tables).(risks := old(repo.tables).risks[row.id := row])
    {
      var id: string := *;
      var risk := Risk.Risk(id, c.trace, c.id, d.id, VerdictOf(approved, intent, Requested(c, d)), intent.quantity);
      row := risk;
      var stored := repo.AppendRisk(risk);
      r := if stored.Ok? then Ok(risk) else Err(stored.reason);
    }

    /** `_audit_thesis`. */
    method RecordThesis(c: Candidate, d: Decision, held: Held) returns (r: Result<()>)
      requires repo.Valid()
      modifies repo
      ensures Grew()
      ensures r.Ok? <==> ThesisAccepted(old(repo.tables), RowOf(c, d, held))
      ensures r.Ok? ==>
                RecordedAdds(old(repo.tables).theses, c.symbol) <= held.addCount == RecordedAdds(repo.tables.theses, c.symbol)
    {
      ghost var before := repo.tables;
      var stored := repo.AppendThesis(RowOf(c, d, held));
      if stored.Ok? { RowRecorded(before.theses, stored.value, c.symbol); }
      r := if stored.Ok? then Ok(()) else Err(stored.reason);
    }

    /** The successor thesis is recorded before the order; an entry's is not held before a fill. */
    method Propose(c: Candidate, d: Decision, position: Option<Held>, approved: bool)
      returns (r: Result<Option<Held>>, ghost next: Option<Held>)
      requires repo.Valid()
      modifies this`theses, repo
      ensures Grew()
      ensures var turn := Reviewed(c.symbol, position, d, approved, next, false, false, false);
              turn.WellFormed() && theses == Stored(old(theses), turn) && Marks(turn, old(repo.tables), repo.tables)
      ensures r.Ok? && approved ==> next == r.value
    {
      var id: string := *;
      next := None;
      r := Successor(position, d, approved, id);
      StoredNothing(theses, Reviewed(c.symbol, position, d, approved, None, false, false, false));
      if r.Err? || r.value.None? || !(approved || position.Some?) { return; }
      var recorded := RecordThesis(c, d, r.value.value);
      if recorded.Err? { return Err(recorded.reason), None; }
      next := r.value;
      if !IsEntry(d.action) { theses := theses[c.symbol := r.value.value]; }
    }

    // The order

    /** Recording an order is enough: the validator that runs next has nothing left to object to. */
    method RecordOrder(c: Candidate, d: Decision, risk: Risk, intent: Intent, now: int)
      returns (r: Result<Order>, ghost row: Order, ghost event: string)
      requires repo.Valid()
      modifies repo
      ensures Grew()
      ensures r.Ok? ==>
                && Lodged(repo.tables, r.value) && TraceSound(repo.tables, r.value.id, repo.hash)
                && r.value == row && Carries(row, intent)
      ensures row.trace == c.trace && row.candidate == c.id && row.decision == d.id && row.risk == risk.id
      ensures row.venue == venue && row.clientId == clientOrderId(c.trace, d.action) && row.observedAt == now
      ensures r.Ok? <==> Recordable(old(repo.tables), row, event, repo.hash)
    {
      var id: string := *;
      var eventId: string := *;
      var o := Order.Order(id, c.trace, c.id, d.id, risk.id, venue, clientOrderId(c.trace, d.action), intent.symbol,
                           if intent.side.Some? then intent.side.value else Buy, intent.quantity, intent.reduceOnly,
                           "PREPARED", now);
      row, event := o, eventId;
      var stored := repo.AppendOrder(o, eventId);
      if stored.Err? { return Err(stored.reason), row, event; }
      WellFormedIsKeyed(repo.tables, repo.hash);
      var missing := repo.ValidateOrderTrace(o.id);
      if missing.value != [] { assert false; }
      r := Ok(o);
    }

    /** Order events for an order leave everything but the event table alone. */
    method AppendNotes(o: Order, notes: seq<OrderEvent>) returns (r: Result<()>)
      requires repo.Valid()
      modifies repo
      ensures Grew() && repo.tables == old(repo.tables).(events := repo.tables.events)
    {
      for k := 0 to |notes|
        invariant Grew() && repo.tables == old(repo.tables).(events := repo.tables.events)
      {
        ghost var before := repo.tables;
        var one := repo.AppendOrderEvent(notes[k].(order := o.id, trace := o.trace));
        ExtendsTransitively(old(repo.tables), before, repo.tables);
        if one.Err? { return Err(one.reason); }
      }
      r := Ok(());
    }

    method AppendStatus(o: Order, status: string) returns (r: Result<()>, ghost e: OrderEvent)
      requires repo.Valid()
      modifies repo
      ensures Grew() && repo.tables == old(repo.tables).(events := repo.tables.events)
      ensures r.Ok? ==> HasEvent(repo.tables.events, o.id, status)
      ensures e.trace == o.trace && e.order == o.id && e.kind == e.status == status && e.sourceEvent.None?
      ensures r.Ok? <==> EventAccepted(old(repo.tables), e)
    {
      var id: string := *;
      var now: int := *;
      e := OrderEvent(id, o.trace, o.id, 0, status, status, None, 0.0, now);
      var one := repo.AppendOrderEvent(OrderEvent(id, o.trace, o.id, 0, status, status, None, 0.0, now));
      if one.Err? { return Err(one.reason), e; }
      assert repo.tables.events[|old(repo.tables).events|].status == status;
      r := Ok(());
    }

    /** Every deterministic child id, then SUBMITTING, is in the ledger before the first network call. */
    method Announce(o: Order, planned: seq<OrderEvent>) returns (r: Result<()>)
      requires repo.Valid() && Lodged(repo.tables, o) && TraceSound(repo.tables, o.id, repo.hash)
      modifies repo
      ensures Grew() && repo.tables == old(repo.tables).(events := repo.tables.events)
      ensures r.Ok? ==>
                && HasEvent(repo.tables.events, o.id, "SUBMITTING")
                && Lodged(repo.tables, o) && TraceSound(repo.tables, o.id, repo.hash)
    {
      r := AppendNotes(o, planned);
      if r.Err? { return; }
      ghost var before := repo.tables;
      ghost var e;
      r, e := AppendStatus(o, "SUBMITTING");
      ExtendsTransitively(old(repo.tables), before, repo.tables);
      EventsKeepSound(old(repo.tables), repo.tables, o, repo.hash);
    }

    /** `_audit_gateway_fills`: what is not authoritative is skipped. */
    method AppendFills(o: Order, fills: seq<GatewayFill>) returns (r: Result<()>)
      requires repo.Valid()
      modifies repo
      ensures Grew()
      ensures repo.tables == old(repo.tables).(fills := repo.tables.fills)
      ensures r.Ok? ==> BookedExactly(old(repo.tables).fills, repo.tables.fills, o, fills, |fills|)
    {
      for k := 0 to |fills|
        invariant Grew() && BookedExactly(old(repo.tables).fills, repo.tables.fills, o, fills, k)
        invariant repo.tables == old(repo.tables).(fills := repo.tables.fills)
      {
        ghost var before := repo.tables;
        if fills[k].authoritative {
          var one := repo.AppendFill(FillOf(o, fills[k]));
          ExtendsTransitively(old(repo.tables), before, repo.tables);
          if one.Err? { return Err(one.reason); }
          BookedByAppend(before.fills, repo.tables.fills, FillOf(o, fills[k]));
        }
        BookedNext(old(repo.tables).fills, before.fills, repo.tables.fills, o, fills, k);
      }
      r := Ok(());
    }

    /** What the gateway observed: its events, a status, its fills. */
    method RecordAnswer(o: Order, answer: Answer) returns (r: Result<()>)
      requires repo.Valid()
      modifies repo
      ensures Grew()
      ensures r.Ok? ==> BookedExactly(old(repo.tables).fills, repo.tables.fills, o, answer.fills, |answer.fills|)
      ensures r.Ok? && !answer.failed ==> HasEvent(repo.tables.events, o.id, answer.status)
    {
      r := AppendNotes(o, answer.notes);
      if r.Err? { return; }
      ghost var noted := repo.tables;
      if !answer.failed {
        ghost var e;
        r, e := AppendStatus(o, answer.status);
        ExtendsTransitively(old(repo.tables), noted, repo.tables);
        if r.Err? { return; }
      }
      ghost var before := repo.tables;
      r := AppendFills(o, answer.fills);
      ExtendsTransitively(old(repo.tables), before, repo.tables);
    }

    /** The gateway failed: nothing is retried, the order is marked unresolved and the kill switch engaged. */
    method SettleFailure(o: Order, answer: Answer) returns (r: Result<Outcome>)
      requires repo.Valid()
      modifies this`killed, repo
      ensures Grew() && (old(killed) ==> killed)
      ensures r.Ok? ==> killed && r.value == Unresolved(o.id) && HasEvent(repo.tables.events, o.id, "SUBMISSION_UNRESOLVED")
      ensures r.Ok? ==> BookedExactly(old(repo.tables).fills, repo.tables.fills, o, answer.fills, |answer.fills|)
    {
      var recorded := RecordAnswer(o, answer);
      if recorded.Err? { return Err(recorded.reason); }
      ghost var before := repo.tables;
      var marked, _ := AppendStatus(o, "SUBMISSION_UNRESOLVED");
      ExtendsTransitively(old(repo.tables), before, repo.tables);
      if marked.Err? { return Err(marked.reason); }
      killed := true;
      r := Ok(Unresolved(o.id));
    }

    /** The gateway accepted: an audit failure from here on locks trading. Only an authoritative fill changes what is held. */
    method SettleSuccess(o: Order, symbol: string, d: Decision, successor: Held, answer: Answer)
      returns (r: Result<Outcome>, ghost flat: bool)
      requires repo.Valid() && !answer.failed
      modifies this`killed, this`theses, repo
      ensures Grew() && (old(killed) ==> killed)
      ensures r.Err? ==> killed
      ensures r.Ok? ==>
                && r.value == Executed(o.id, answer.status) && HasEvent(repo.tables.events, o.id, answer.status)
                && BookedExactly(old(repo.tables).fills, repo.tables.fills, o, answer.fills, |answer.fills|)
      ensures theses == Activated(old(theses), symbol, d, successor, r.Ok? && answer.Fills(), flat)
    {
      flat := false;
      var recorded := RecordAnswer(o, answer);
      var snapshotFailed: bool := *;
      if recorded.Err? || snapshotFailed {
        killed := true;
        return Err("post-execution audit failed; trading is locked"), false;
      }
      if answer.Filled() {
        var remaining: real := *;
        flat := remaining <= DUST;
        theses := if d.action == Close && remaining <= DUST then theses - {symbol} else theses[symbol := successor];
      }
      r := Ok(Executed(o.id, answer.status));
    }

    // The whole path

    /**
     * How the service answers the gateway. A failure is unresolved, marked as such and locks trading; a result is passed on,
     * marked with its status, unless the audit fails, which locks trading too. Either way exactly the authoritative fills are
     * booked, and only with one of them, after a result, does what is held change.
     */
    twostate predicate Settled(o: Order, answer: Answer, new r: Result<Outcome>, filled: bool)
      reads this, repo
    {
      && (filled <==> !answer.failed && r.Ok? && answer.Fills())
      && (r.Ok? ==> BookedExactly(old(repo.tables).fills, repo.tables.fills, o, answer.fills, |answer.fills|))
      && (r.Ok? && answer.failed ==>
            killed && r.value == Unresolved(o.id) && HasEvent(repo.tables.events, o.id, "SUBMISSION_UNRESOLVED"))
      && (r.Ok? && !answer.failed ==>
            r.value == Executed(o.id, answer.status) && HasEvent(repo.tables.events, o.id, answer.status))
      && (r.Err? && !answer.failed ==> killed)
    }

    /** What follows the gateway's answer. */
    method Settle(o: Order, symbol: string, d: Decision, successor: Held)
      returns (r: Result<Outcome>, ghost filled: bool, ghost flat: bool, ghost given: Answer)
      requires repo.Valid()
      modifies this`killed, this`theses, repo
      ensures Grew() && (old(killed) ==> killed)
      ensures Settled(o, given, r, filled)
      ensures theses == Activated(old(theses), symbol, d, successor, filled, flat)
    {
      var answer: Answer := *;
      given := answer;
      if answer.failed {
        r := SettleFailure(o, answer);
        filled, flat := false, false;
      } else {
        r, flat := SettleSuccess(o, symbol, d, successor, answer);
        filled := r.Ok? && answer.Fills();
      }
    }

    /** Calls the gateway, whatever it answers, for an order that is ready; no earlier submission was for its candidate. */
    method Submit(o: Order, symbol: string, d: Decision, intent: Intent, successor: Held)
      returns (r: Result<Outcome>, ghost filled: bool, ghost flat: bool, ghost given: Answer)
      requires repo.Valid() && AllPrepared(submitted, repo.tables, repo.hash)
      requires OncePerCandidate(submitted + [Submission(o, intent, repo.tables)])
      requires Prepared(Submission(o, intent, repo.tables), repo.hash)
      modifies this`submitted, this`killed, this`theses, repo
      ensures Sound() && Grew() && (old(killed) ==> killed)
      ensures submitted == old(submitted) + [Submission(o, intent, old(repo.tables))]
      ensures theses == Activated(old(theses), symbol, d, successor, filled, flat)
      ensures Settled(o, given, r, filled)
    {
      ghost var s := Submission(o, intent, repo.tables);
      AllPreparedPlus(submitted, s, repo.tables, repo.hash);
      submitted := submitted + [s];
      r, filled, flat, given := Settle(o, symbol, d, successor);
      AllPreparedLater(submitted, s.at, repo.tables, repo.hash);
    }

    /** The steps between the risk row and the gateway. */
    method PrepareOrder(c: Candidate, d: Decision, risk: Risk, intent: Intent, now: int) returns (r: Result<Order>)
      requires repo.Valid() && c.id in repo.tables.candidates && repo.tables.candidates[c.id] == c
      requires d.id in repo.tables.decisions && repo.tables.decisions[d.id] == d
      requires risk.id in repo.tables.risks && repo.tables.risks[risk.id] == risk
      requires risk.approved == intent.quantity && IsVerdict(risk.verdict, true, intent, c, d)
      modifies repo
      ensures Grew()
      ensures r.Ok? ==>
                && r.value.candidate == c.id && r.value.decision == d.id
                && Prepared(Submission(r.value, intent, repo.tables), repo.hash)
    {
      ghost var row, event;
      r, row, event := RecordOrder(c, d, risk, intent, now);
      if r.Err? { return; }
      var planned: seq<OrderEvent> := *;
      ghost var before := repo.tables;
      var announced := Announce(r.value, planned);
      ExtendsTransitively(old(repo.tables), before, repo.tables);
      if announced.Err? { return Err(announced.reason); }
    }

    /** The turn is what one review did to the theses, the gateway and the ledger. */
    twostate predicate Took(new turn: Turn)
      reads this, repo
    {
      && turn.Reviewed? && turn.WellFormed() && theses == Stored(old(theses), turn)
      && Marks(turn, old(repo.tables), repo.tables) && SentAs(turn, old(submitted), submitted)
    }

    /** `_process_decision`. The intent is whatever the risk engine makes of the decision. */
    method ProcessDecision(c: Candidate, d: Decision, position: Option<Held>, now: int, ghost base: Tables)
      returns (r: Result<Outcome>, ghost turn: Turn)
      requires repo.Valid() && AllPrepared(submitted, base, repo.hash) && OncePerCandidate(submitted)
      requires Extends(base, repo.tables) && c.id !in base.candidates
      requires c.id in repo.tables.candidates && repo.tables.candidates[c.id] == c
      modifies this`submitted, this`killed, this`theses, repo
      ensures Sound() && Grew() && (old(killed) ==> killed)
      ensures SubmittedAtMostOne(old(submitted), submitted, c.id)
      ensures Took(turn) && turn.symbol == c.symbol && turn.given == position && turn.d == d
      ensures r.Ok? && !r.value.Refused? ==> submitted != old(submitted)
      ensures r.Ok? && r.value.Unresolved? ==> killed
    {
      var judged;
      judged, turn := Judge(c, d, position);
      ExtendsTransitively(base, old(repo.tables), repo.tables);
      AllPreparedLater(submitted, base, repo.tables, repo.hash);
      if judged.Err? { return Err(judged.reason), turn; }
      if judged.value.None? { return Ok(Refused("not approved")), turn; }
      ghost var before, proposed := repo.tables, turn;
      r, turn := Execute(c, d, judged.value.value, now, base, turn);
      ActivatedIsStored(old(theses), proposed, turn);
      MarksWithin(turn, old(repo.tables), old(repo.tables), before, repo.tables, repo.hash);
      ExtendsTransitively(old(repo.tables), before, repo.tables);
    }

    /** The approved part: prepare the order and send it. */
    method Execute(c: Candidate, d: Decision, judged: (Risk, Intent, Held), now: int, ghost base: Tables, ghost proposed: Turn)
      returns (r: Result<Outcome>, ghost turn: Turn)
      requires repo.Valid() && AllPrepared(submitted, base, repo.hash) && OncePerCandidate(submitted)
      requires Extends(base, repo.tables) && c.id !in base.candidates
      requires c.id in repo.tables.candidates && repo.tables.candidates[c.id] == c
      requires d.id in repo.tables.decisions && repo.tables.decisions[d.id] == d
      requires Ruled(repo.tables, c, d, judged.0, judged.1)
      requires proposed.Reviewed? && proposed.WellFormed() && proposed.approved && !proposed.sent
      requires proposed.symbol == c.symbol && proposed.d == d && proposed.next == Some(judged.2)
      modifies this`submitted, this`killed, this`theses, repo
      ensures Sound() && Grew() && (old(killed) ==> killed)
      ensures SubmittedAtMostOne(old(submitted), submitted, c.id)
      ensures turn.Reviewed? && turn == proposed.(sent := turn.sent, filled := turn.filled, flat := turn.flat)
      ensures turn.WellFormed() && SentAs(turn, old(submitted), submitted)
      ensures theses == Activated(old(theses), c.symbol, d, judged.2, turn.filled, turn.flat)
      ensures r.Ok? ==> !r.value.Refused? && submitted != old(submitted)
      ensures r.Ok? && r.value.Unresolved? ==> killed
    {
      turn := proposed;
      var order := PrepareOrder(c, d, judged.0, judged.1, now);
      ExtendsTransitively(base, old(repo.tables), repo.tables);
      AllPreparedLater(submitted, base, repo.tables, repo.hash);
      if order.Err? { return Err(order.reason), turn; }
      ghost var prepared := repo.tables;
      SubmitOnce(submitted, Submission(order.value, judged.1, prepared), base, repo.hash);
      ghost var filled, flat, given;
      r, filled, flat, given := Submit(order.value, c.symbol, d, judged.1, judged.2);
      turn := proposed.(sent := true, filled := filled, flat := flat);
      ExtendsTransitively(old(repo.tables), prepared, repo.tables);
    }

    /** The risk row is recorded and names the quantity of the intent. */
    ghost predicate Ruled(t: Tables, c: Candidate, d: Decision, risk: Risk, intent: Intent) {
      && risk.id in t.risks && t.risks[risk.id] == risk
      && risk.approved == intent.quantity && IsVerdict(risk.verdict, true, intent, c, d)
    }

    /** Decision row, account snapshot, risk row and thesis. `None` is a refusal; otherwise the order may be prepared. */
    method Judge(c: Candidate, d: Decision, position: Option<Held>)
      returns (r: Result<Option<(Risk, Intent, Held)>>, ghost turn: Turn)
      requires repo.Valid() && c.id in repo.tables.candidates && repo.tables.candidates[c.id] == c
      modifies this`theses, repo
      ensures Grew()
      ensures turn.Reviewed? && turn == Reviewed(c.symbol, position, d, turn.approved, turn.next, false, false, false)
      ensures turn.WellFormed() && theses == Stored(old(theses), turn) && Marks(turn, old(repo.tables), repo.tables)
      ensures r.Ok? && r.value.Some? ==>
                && d.id in repo.tables.decisions && repo.tables.decisions[d.id] == d
                && Ruled(repo.tables, c, d, r.value.value.0, r.value.value.1)
                && turn.approved && turn.next == Some(r.value.value.2)
    {
      var approved: bool := *;
      turn := Reviewed(c.symbol, position, d, approved, None, false, false, false);
      StoredNothing(theses, turn);
      var ruled := Rule(c, d, approved);
      if ruled.Err? { return Err(ruled.reason), turn; }
      if ruled.value.None? { return Ok(None), turn; }
      var (risk, intent) := ruled.value.value;
      ghost var before := repo.tables;
      var successor;
      ghost var next;
      successor, next := Propose(c, d, position, approved);
      turn := turn.(next := next);
      ExtendsTransitively(old(repo.tables), before, repo.tables);
      MarksWithin(turn, old(repo.tables), before, repo.tables, repo.tables, repo.hash);
      if successor.Err? { return Err(successor.reason), turn; }
      if !approved || successor.value.None? { return Ok(None), turn; }
      r := Ok(Some((risk, intent, successor.value.value)));
    }

    /** The decision row and the risk row; `None` when there is no account snapshot. */
    method Rule(c: Candidate, d: Decision, approved: bool) returns (r: Result<Option<(Risk, Intent)>>)
      requires repo.Valid() && c.id in repo.tables.candidates && repo.tables.candidates[c.id] == c
      modifies repo
      ensures Grew()
      ensures r.Ok? && r.value.Some? ==>
                && d.id in repo.tables.decisions && repo.tables.decisions[d.id] == d
                && (approved ==> Ruled(repo.tables, c, d, r.value.value.0, r.value.value.1))
                && (!approved ==> r.value.value.0.verdict == Refuse)
      ensures r.Ok? ==>
                exists id :: id in repo.tables.risks && id !in old(repo.tables).risks && repo.tables.risks[id].decision == d.id
                  && (r.value.None? ==> repo.tables.risks[id].verdict == Refuse && repo.tables.risks[id].approved == 0.0)
                  && (r.value.Some? ==> repo.tables.risks[id] == r.value.value.0)
    {
      var recorded := repo.AppendDecision(d);
      if recorded.Err? { return Err(recorded.reason); }
      ghost var decided := repo.tables;
      var accountFailed: bool := *;
      var intent: Intent := *;
      if accountFailed { intent := Intent(d.action, c.symbol, None, 0.0, false, None); }
      var risk, row := RecordRisk(c, d, intent, approved && !accountFailed);
      ExtendsTransitively(old(repo.tables), decided, repo.tables);
      if risk.Err? { return Err(risk.reason); }
      r := Ok(if accountFailed then None else Some((risk.value, intent)));
    }

    /** The decision: the provider's, unless there is no evidence or an entry comes without thesis or invalidation. */
    method Decide(c: Candidate, position: Option<Held>) returns (d: Decision)
      ensures d.candidate == c.id && d.trace == c.trace
      ensures c.evidenceIds == [] ==> d.action == Reject
      ensures IsEntry(d.action) ==> d.thesis != "" && d.invalidation != []
    {
      d := *;
      d := d.(candidate := c.id, trace := c.trace);
      if c.evidenceIds == [] || (IsEntry(d.action) && (d.thesis == "" || d.invalidation == [])) {
        d := Decision.Decision(d.id, c.trace, c.id, Reject, None, 0.0, 0.0, [],
                               if position.Some? then position.value.entryReason else "", []);
      }
    }

    /** `_restore_thesis`, for a position that is live. */
    method RestoreThesis(symbol: string)
      requires Valid() && symbol !in theses
      modifies this`theses, this`turns
      ensures Valid() && (Followed(old(turns)) ==> Followed(turns)) && old(turns) <= turns
      ensures var rows := ThesesAt(repo.tables.theses, PositionOf(symbol));
              if rows != [] then
                && symbol in theses && theses == old(theses)[symbol := theses[symbol]] && theses[symbol].addCount == 1
                && theses[symbol].id == rows[|rows| - 1].id && theses[symbol].version == rows[|rows| - 1].version
              else theses == old(theses) && turns == old(turns)
    {
      assert PartOk(ThesisRows, repo.tables, repo.hash);
      var newest := NewestThesis(ThesesAt(repo.tables.theses, PositionOf(symbol)));
      if newest.Some? {
        var row := newest.value;
        var held := Held(row.id, row.version, 1, row.entryReason, row.horizon, row.supporting, row.invalidation, row.pnlR);
        ghost var turn := Restored(symbol, held);
        RestoredAccounted(turns, theses, submitted, repo.tables, turn, repo.hash);
        theses, turns := theses[symbol := held], turns + [turn];
      }
    }

    /** `current_thesis`: the held thesis, or the newest recorded one with its add used up. */
    method CurrentThesis(symbol: string, restorable: bool, pnl: Option<real>) returns (position: Option<Held>)
      requires Valid()
      modifies this`theses, this`turns
      ensures Valid() && (Followed(old(turns)) ==> Followed(turns)) && old(turns) <= turns
      ensures position.Some? <==> HeldIn(theses, symbol).Some?
      ensures position.Some? ==> position.value == theses[symbol].(pnlR := position.value.pnlR)
      ensures symbol in old(theses) ==> theses == old(theses) && turns == old(turns)
      ensures symbol !in old(theses) ==>
                var rows := ThesesAt(repo.tables.theses, PositionOf(symbol));
                if restorable && rows != [] then
                  && symbol in theses && theses == old(theses)[symbol := theses[symbol]] && theses[symbol].addCount == 1
                  && theses[symbol].id == rows[|rows| - 1].id && theses[symbol].version == rows[|rows| - 1].version
                else theses == old(theses) && turns == old(turns)
    {
      if symbol !in theses && restorable { RestoreThesis(symbol); }
      position := HeldIn(theses, symbol);
      if position.Some? && pnl.Some? { position := Some(position.value.(pnlR := pnl.value)); }
    }

    /** The end of every path: the decision is processed, its turn noted and its result remembered. */
    method Conclude(c: Candidate, d: Decision, position: Option<Held>, now: int, ghost base: Tables)
      returns (r: Result<Outcome>)
      requires Sound() && AllPrepared(submitted, base, repo.hash) && Accounted(turns, theses, submitted, base)
      requires Extends(base, repo.tables) && c.id !in base.candidates
      requires c.id in repo.tables.candidates && repo.tables.candidates[c.id] == c
      modifies this, repo
      ensures Valid() && Grew() && (old(killed) ==> killed)
      ensures SubmittedAtMostOne(old(submitted), submitted, c.id)
      ensures ReviewedOnce(old(turns), turns, c.symbol, position)
      ensures |turns| == |old(turns)| + 1 && turns[|old(turns)|].Reviewed? && turns[|old(turns)|].d == d
      ensures results == if r.Ok? then old(results)[c.id := r.value] else old(results)
      ensures r.Ok? && !r.value.Refused? ==> submitted != old(submitted)
      ensures r.Ok? && r.value.Unresolved? ==> killed
    {
      ghost var before := repo.tables;
      ghost var turn;
      r, turn := ProcessDecision(c, d, position, now, base);
      TurnConcluded(turns, old(theses), old(submitted), base, before, turn, submitted, repo.tables, repo.hash);
      turns := turns + [turn];
      if r.Ok? { results := results[c.id := r.value]; }
    }

    /** The ledger may grow before a path fails. */
    lemma StillValid(base: Tables)
      requires repo.Valid() && AllPrepared(submitted, base, repo.hash) && OncePerCandidate(submitted)
      requires Accounted(turns, theses, submitted, base) && Extends(base, repo.tables)
      ensures Valid()
    {
      AllPreparedLater(submitted, base, repo.tables, repo.hash);
      AccountedLater(turns, theses, submitted, base, repo.tables, repo.hash);
    }

    /** `review_candidate`: a remembered result is returned as it is; otherwise the candidate goes down the path once. */
    method ReviewCandidate(candidate: Candidate, modelIds: seq<string>, items: seq<Item>, position: Option<Held>, now: int)
      returns (r: Result<Outcome>)
      requires Valid()
      modifies this, repo
      ensures Valid() && Grew() && (old(killed) ==> killed)
      ensures SubmittedAtMostOne(old(submitted), submitted, candidate.id)
      ensures ReviewedOnce(old(turns), turns, candidate.symbol, position)
      ensures candidate.id in old(results) ==>
                && r == Ok(old(results)[candidate.id]) && results == old(results) && turns == old(turns)
                && repo.tables == old(repo.tables) && submitted == old(submitted) && theses == old(theses)
      ensures candidate.id !in old(results) && !SameIds(modelIds, items) ==>
                r.Err? && turns == old(turns) && repo.tables == old(repo.tables) && submitted == old(submitted)
      ensures candidate.id !in old(results) && r.Ok? ==>
                turns != old(turns) && candidate.id !in old(repo.tables).candidates
      ensures r.Ok? ==> results == old(results)[candidate.id := r.value]
      ensures r.Err? ==> results == old(results)
      ensures r.Ok? && candidate.id !in old(results) && !r.value.Refused? ==> submitted != old(submitted)
      ensures r.Ok? && candidate.id !in old(results) && r.value.Unresolved? ==> killed
    {
      if candidate.id in results { return Ok(results[candidate.id]); }
      if (set id | id in modelIds) != (set id | id in ItemIds(items)) { return Err("raw/model evidence ids must match"); }
      SameIdsMatch(modelIds, items);
      var trace: string := *;
      ghost var base := repo.tables;
      var audited := AuditCandidate(candidate.(trace := trace), items);
      StillValid(base);
      if audited.Err? { return Err(audited.reason); }
      var d := Decide(audited.value, position);
      ghost var before := repo.tables;
      r := Conclude(audited.value, d, position, now, base);
      ExtendsTransitively(base, before, repo.tables);
    }

    /** What the trading cycle hands over; a live position without a thesis counts as one whose add is used up. */
    method ThesisInHand(symbol: string, restorable: bool, live: bool, pnl: Option<real>) returns (position: Option<Held>)
      requires Valid()
      modifies this`theses, this`turns
      ensures Valid() && (Followed(old(turns)) ==> Followed(turns)) && old(turns) <= turns
      ensures var held := HeldIn(theses, symbol);
              && held == HeldFrom(turns, symbol)
              && (if held.Some? then position.Some? && position.value == held.value.(pnlR := position.value.pnlR)
                  else position.Some? == live && (live ==> position.value.addCount == 1))
    {
      position := CurrentThesis(symbol, restorable, pnl);
      HeldAccounted(turns, theses, submitted, repo.tables, symbol);
      if position.None? && live {
        var id: string := *;
        position := Some(Held(id, 1, 1, "Recovered position; add disabled until thesis reconciliation", "15", [], [], 0.0));
      }
    }

    /** One pass of the trading cycle. */
    method ReviewHeld(review: Review, restorable: bool, live: bool, pnl: Option<real>)
      returns (r: Result<Outcome>, ghost given: Option<Held>, ghost known: seq<Turn>)
      requires Valid()
      modifies this, repo
      ensures Valid() && Grew() && (old(killed) ==> killed) && old(turns) <= turns
      ensures SubmittedAtMostOne(old(submitted), submitted, review.candidate.id)
      ensures Followed(old(turns)) ==> Followed(turns)
      ensures old(turns) <= known && ReviewedOnce(known, turns, review.candidate.symbol, given)
      ensures given.Some? <==> live || HeldFrom(known, review.candidate.symbol).Some?
    {
      var position := ThesisInHand(review.candidate.symbol, restorable, live, pnl);
      ghost var held := HeldIn(theses, review.candidate.symbol);
      given, known := position, turns;
      r := ReviewCandidate(review.candidate, review.modelIds, review.items, position, review.now);
      StillFollowed(known, turns, review.candidate.symbol, position, held);
    }

    /** A review that closes the position of the candidate, with the held thesis if there is one. */
    twostate predicate Forced(turn: Turn, candidate: Candidate, items: seq<Item>, fallback: Held)
      reads this, repo
    {
      && turn.Reviewed? && turn.symbol == candidate.symbol && turn.d.action == Close
      && turn.d.candidate == candidate.id && turn.d.direction == Some(candidate.direction)
      && turn.d.evidenceIds == ItemIds(items) && turn.d.multiplier == 0.0 && turn.d.confidence == 1.0
      && turn.given == Some(if candidate.symbol in old(theses) then old(theses)[candidate.symbol] else fallback)
      && candidate.id in repo.tables.candidates && repo.tables.candidates[candidate.id].trace == turn.d.trace
    }

    /** `emergency_close_all` for one position: the held thesis, or a fresh one, is closed without the decision provider. */
    method ForceClose(candidate: Candidate, items: seq<Item>, fallback: Held, now: int) returns (r: Result<Outcome>)
      requires Valid()
      modifies this, repo
      ensures Valid() && Grew() && (old(killed) ==> killed) && old(turns) <= turns
      ensures SubmittedAtMostOne(old(submitted), submitted, candidate.id)
      ensures Followed(old(turns)) ==> Followed(turns)
      ensures turns == old(turns) || (|turns| == |old(turns)| + 1 && Forced(turns[|old(turns)|], candidate, items, fallback))
      ensures r.Ok? ==> turns != old(turns)
    {
      var trace: string := *;
      var id: string := *;
      ghost var base := repo.tables;
      var audited := AuditCandidate(candidate.(trace := trace), items);
      StillValid(base);
      if audited.Err? { return Err(audited.reason); }
      var position := if candidate.symbol in theses then theses[candidate.symbol] else fallback;
      var d := Decision.Decision(id, trace, candidate.id, Close, Some(candidate.direction), 0.0, 1.0, ItemIds(items),
                                 "deterministic exit", ["deterministic exit"]);
      ghost var before, held := repo.tables, HeldIn(theses, candidate.symbol);
      HeldAccounted(turns, theses, submitted, repo.tables, candidate.symbol);
      r := Conclude(audited.value, d, Some(position), now, base);
      ExtendsTransitively(base, before, repo.tables);
      StillFollowed(old(turns), turns, candidate.symbol, Some(position), held);
    }

    /** `protective_stop_close`: the same, after the thesis was restored if need be. */
    method CloseAtStop(candidate: Candidate, items: seq<Item>, fallback: Held, now: int, restorable: bool, pnl: Option<real>)
      returns (r: Result<Outcome>)
      requires Valid()
      modifies this, repo
      ensures Valid() && Grew() && (old(killed) ==> killed) && old(turns) <= turns
      ensures SubmittedAtMostOne(old(submitted), submitted, candidate.id)
      ensures Followed(old(turns)) ==> Followed(turns)
    {
      var _ := CurrentThesis(candidate.symbol, restorable, pnl);
      r := ForceClose(candidate, items, fallback, now);
    }

    /**
     * Any sequence of calls: every call of the gateway was bounded, and no candidate reached it twice. The recorded add
     * counts of a symbol never fall. As long as no caller hands in a thesis that differs from the held one, the held add
     * count is the number of filled adds on top of what the thesis began with, and at most one.
     */
    method Run(requests: seq<Request>)
      requires Valid()
      modifies this, repo
      ensures Valid() && Grew() && old(submitted) <= submitted && old(turns) <= turns && (old(killed) ==> killed)
      ensures EachBounded(submitted) && OncePerCandidate(submitted)
      ensures SentDecisions(turns) == DecisionsOf(submitted)
      ensures NeverFalls(turns) && AllWellFormed(turns)
      ensures Followed(old(turns)) && (forall k :: 0 <= k < |requests| ==> !requests[k].Supplied?) ==> Followed(turns)
      ensures Followed(turns) ==> forall s :: s in theses ==>
                HeldFrom(turns, s) == Some(theses[s]) && exists from :: CountedSince(turns, s, from)
    {
      for k := 0 to |requests|
        invariant Valid() && Grew() && old(submitted) <= submitted && old(turns) <= turns && (old(killed) ==> killed)
        invariant Followed(old(turns)) && (forall i :: 0 <= i < k ==> !requests[i].Supplied?) ==> Followed(turns)
      {
        ghost var before := repo.tables;
        Serve(requests[k]);
        ExtendsTransitively(old(repo.tables), before, repo.tables);
      }
      PreparedMeansBounded(submitted, repo.tables, repo.hash);
      AccountParts(turns, theses, submitted, repo.tables);
      if Followed(turns) { AllCounted(turns, theses, submitted, repo.tables); }
    }

    method Serve(request: Request)
      requires Valid()
      modifies this, repo
      ensures Valid() && Grew() && old(submitted) <= submitted && old(turns) <= turns && (old(killed) ==> killed)
      ensures Followed(old(turns)) && !request.Supplied? ==> Followed(turns)
    {
      match request
      case Cycle(review, restorable, live, pnl) =>
        var _, _, _ := ReviewHeld(review, restorable, live, pnl);
      case Supplied(review, position) =>
        var _ := ReviewCandidate(review.candidate, review.modelIds, review.items, position, review.now);
      case EmergencyClose(candidate, items, fallback, now) =>
        var _ := ForceClose(candidate, items, fallback, now);
      case StopClose(candidate, items, fallback, now, restorable, pnl) =>
        var _ := CloseAtStop(candidate, items, fallback, now, restorable, pnl);
    }
  }

  /** The distinct ids of the items, in order; an item without an id counts for nothing. */
  function ItemIds(items: seq<Item>): (r: seq<string>)
    ensures forall id :: id in r <==> id != "" && exists k :: 0 <= k < |items| && items[k].id == id
  {
    if items == [] then []
    else
      var before, id := ItemIds(items[..|items| - 1]), items[|items| - 1].id;
      if id == "" || id in before then before else before + [id]
  }

  /** The model was shown exactly the supplied evidence. */
  ghost predicate SameIds(modelIds: seq<string>, items: seq<Item>) {
    && (forall id :: id in modelIds ==> id != "" && exists k :: 0 <= k < |items| && items[k].id == id)
    && (forall k :: 0 <= k < |items| && items[k].id != "" ==> items[k].id in modelIds)
  }

  lemma SameIdsMatch(modelIds: seq<string>, items: seq<Item>)
    requires (set id | id in modelIds) == (set id | id in ItemIds(items))
    ensures SameIds(modelIds, items)
  {
    var shown, supplied := set id | id in modelIds, set id | id in ItemIds(items);
    assert shown == supplied;
    forall id | id in modelIds
      ensures id in ItemIds(items)
    {
      assert id in shown;
    }
    forall k | 0 <= k < |items| && items[k].id != ""
      ensures items[k].id in modelIds
    {
      assert items[k].id in supplied;
    }
  }

  lemma NoIds(items: seq<Item>)
    ensures ItemIds(items) == [] <==> forall k :: 0 <= k < |items| ==> items[k].id == ""
  {
    if ItemIds(items) != [] { assert ItemIds(items)[0] in ItemIds(items); }
    forall k | 0 <= k < |items| && items[k].id != ""
      ensures ItemIds(items) != []
    {
      assert items[k].id in ItemIds(items);
    }
  }
}
