/**
 * Rows of the audit ledger, and the two checkers that decide whether an order may be recorded:
 * `_order_semantic_errors` and `_raw_evidence_errors`.
 */
module AuditRules {
  import opened Trading

  datatype Direction = Long | Short {
    function EntrySide(): Side { if Long? then Buy else Sell }

    function ExitSide(): Side { EntrySide().Opposite() }
  }

  datatype Verdict = Allow | Resize | Refuse | Exit

  datatype Candidate = Candidate(
    id: string, trace: string, strategyVersion: string, symbol: string, direction: Direction,
    maxQuantity: real, maxRiskFraction: real, features: map<string, real>, evidenceIds: seq<string>,
    validUntil: int, createdAt: int)

  datatype Decision = Decision(
    id: string, trace: string, candidate: string, action: Action, direction: Option<Direction>,
    multiplier: real, confidence: real, evidenceIds: seq<string>, thesis: string,
    invalidation: seq<string>)

  datatype Risk = Risk(
    id: string, trace: string, candidate: string, decision: string, verdict: Verdict, approved: real)

  datatype Thesis = Thesis(
    id: string, trace: string, position: string, version: int, prior: Option<string>,
    decision: string, entryReason: string, horizon: string, supporting: seq<string>,
    invalidation: seq<string>, addCount: int, pnlR: real)

  datatype Order = Order(
    id: string, trace: string, candidate: string, decision: string, risk: string, venue: string,
    clientId: string, symbol: string, side: Side, quantity: real, reduceOnly: bool, status: string,
    observedAt: int)

  datatype Evidence = Evidence(
    record: string, evidenceId: string, version: int, prior: Option<string>, source: string,
    sourceId: string, firstObservedAt: int, occurredAt: int, payload: string, contentHash: string,
    deletedAt: Option<int>)

  datatype Code =
    | OrderSymbolMismatch | DecisionCandidateMismatch | DecisionDirectionMismatch
    | RiskLineageMismatch | OrderExceedsCandidateQuantity | OrderExceedsRiskQuantity
    | RiskDidNotApproveOrder | EntryMarkedReduceOnly | EntrySideMismatch | EntryVerdictInvalid
    | ConfidenceTooLow | MultiplierNotPositive | OrderExceedsDecisionSize | ExitNotReduceOnly
    | ExitSideMismatch | ExitVerdictInvalid | ActionNotExecutable | MissingStrategyVersion
    | MissingFeatureSnapshot | MissingSourceEvidence | MissingDecisionEvidence
    | UnknownDecisionEvidence | MissingDecisionThesis | MissingInvalidationConditions
    | MissingPositionThesis | MissingThesisEvidence | CandidateExpired
    | MissingRawEvidence | RawEvidenceLinkMismatch | DeletedEvidenceLinked | EvidenceHashMismatch
    | FutureEvidenceLinked | EvidenceObservedAfterCandidate
    | MissingOrder | MissingCandidate | MissingDecision | MissingRisk | MissingEventHistory
    | EventSequenceGap

  predicate IsEntry(action: Action) { action == Open || action == Add }

  predicate IsExit(action: Action) { action == Reduce || action == Close }

  function MinimumConfidence(action: Action): real { if action == Open then 0.7 else 0.8 }

  /** The quantity that the decision asks for. */
  function Requested(c: Candidate, d: Decision): real { c.maxQuantity * d.multiplier }

  predicate Subset(part: seq<string>, whole: seq<string>) { forall k :: 0 <= k < |part| ==> part[k] in whole }

  /** The order as it would be stored, with the rows it refers to. */
  datatype Papers = Papers(order: Order, candidate: Candidate, decision: Decision, risk: Risk) {
    ghost predicate Entry() { decision.action in {Open, Add} }

    ghost predicate Exits() { decision.action in {Reduce, Close} }

    /** A long position is opened by buying and closed by selling, a short one the other way round. */
    ghost predicate BuysAsForced() {
      order.side == Buy <==> (if candidate.direction == Long then Entry() else Exits())
    }

    ghost function AskedFor(): real { candidate.maxQuantity * decision.multiplier }

    /** Where the order, the decision and the risk row disagree with the candidate. */
    ghost predicate LineageRule(code: Code) {
      || (code == OrderSymbolMismatch && order.symbol != candidate.symbol)
      || (code == DecisionCandidateMismatch && decision.candidate != candidate.id)
      || (code == DecisionDirectionMismatch
          && decision.direction.Some? && decision.direction.value != candidate.direction)
      || (code == RiskLineageMismatch && (risk.candidate != candidate.id || risk.decision != decision.id))
      || (code == OrderExceedsCandidateQuantity && order.quantity > candidate.maxQuantity + DUST)
      || (code == OrderExceedsRiskQuantity && order.quantity > risk.approved + DUST)
      || (code == RiskDidNotApproveOrder && (risk.verdict == Refuse || risk.approved <= 0.0))
    }

    ghost predicate EntryRule(code: Code) {
      || (code == EntryMarkedReduceOnly && order.reduceOnly)
      || (code == EntrySideMismatch && !BuysAsForced())
      || (code == EntryVerdictInvalid && risk.verdict != Allow && risk.verdict != Resize)
      || (code == ConfidenceTooLow && decision.confidence < if decision.action == Open then 0.7 else 0.8)
      || (code == MultiplierNotPositive && decision.multiplier <= 0.0)
      || (code == OrderExceedsDecisionSize && order.quantity > AskedFor() + DUST)
    }

    ghost predicate ExitRule(code: Code) {
      || (code == ExitNotReduceOnly && !order.reduceOnly)
      || (code == ExitSideMismatch && !BuysAsForced())
      || (code == ExitVerdictInvalid && risk.verdict != Exit)
    }

    /** What the action demands of the order. */
    ghost predicate ActionRule(code: Code) {
      if Entry() then EntryRule(code)
      else if Exits() then ExitRule(code)
      else code == ActionNotExecutable
    }

    /** What the candidate and the decision must contain. */
    ghost predicate ContentRule(code: Code) {
      || (code == MissingStrategyVersion && candidate.strategyVersion == "")
      || (code == MissingFeatureSnapshot && candidate.features == map[])
      || (code == MissingSourceEvidence && candidate.evidenceIds == [])
      || (code == MissingDecisionEvidence && decision.evidenceIds == [])
      || (code == UnknownDecisionEvidence
          && exists id :: id in decision.evidenceIds && id !in candidate.evidenceIds)
      || (code == MissingDecisionThesis && decision.thesis == "")
      || (code == MissingInvalidationConditions && decision.invalidation == [])
      || (code == CandidateExpired && order.observedAt > candidate.validUntil)
    }

    ghost predicate Violates(code: Code) { LineageRule(code) || ActionRule(code) || ContentRule(code) }

    ghost predicate Sound() { forall code :: !Violates(code) }

    lemma SoundLineage()
      requires Sound()
      ensures order.symbol == candidate.symbol
      ensures risk.candidate == decision.candidate == candidate.id && risk.decision == decision.id
      ensures order.quantity <= Min(candidate.maxQuantity, risk.approved) + DUST && risk.approved > 0.0
    {
      assert !Violates(OrderSymbolMismatch) && !Violates(DecisionCandidateMismatch) && !Violates(RiskLineageMismatch);
      assert !Violates(OrderExceedsCandidateQuantity) && !Violates(OrderExceedsRiskQuantity);
      assert !Violates(RiskDidNotApproveOrder);
    }

    lemma SoundAction()
      requires Sound()
      ensures Entry() != Exits() && order.reduceOnly == Exits()
      ensures order.side == Buy <==> (candidate.direction == Long && decision.action in {Open, Add})
                                     || (candidate.direction == Short && decision.action in {Reduce, Close})
      ensures Entry() ==>
                && order.quantity <= candidate.maxQuantity * decision.multiplier + DUST
                && decision.confidence >= if decision.action == Open then 0.7 else 0.8
    {
      assert !Violates(ActionNotExecutable) && !Violates(EntryMarkedReduceOnly) && !Violates(ExitNotReduceOnly);
      assert !Violates(EntrySideMismatch) && !Violates(ExitSideMismatch);
      assert !Violates(OrderExceedsDecisionSize) && !Violates(ConfidenceTooLow);
    }

    lemma SoundContent()
      requires Sound()
      ensures order.observedAt <= candidate.validUntil
      ensures decision.evidenceIds != [] && forall id :: id in decision.evidenceIds ==> id in candidate.evidenceIds
    {
      assert !Violates(CandidateExpired) && !Violates(UnknownDecisionEvidence) && !Violates(MissingDecisionEvidence);
    }
  }

  ghost predicate ThesisRule(code: Code, theses: seq<Thesis>) {
    || (code == MissingPositionThesis && theses == [])
    || (code == MissingThesisEvidence && theses != [] && !HasSupport(theses))
  }

  /** When the semantic check reports a code. */
  ghost predicate Violates(code: Code, papers: Papers, theses: seq<Thesis>) {
    papers.Violates(code) || ThesisRule(code, theses)
  }

  ghost predicate Sound(papers: Papers, theses: seq<Thesis>) {
    forall code :: !Violates(code, papers, theses)
  }

  lemma SoundByPart(papers: Papers, theses: seq<Thesis>)
    ensures Sound(papers, theses) <==> papers.Sound() && HasSupport(theses)
  {
    if Sound(papers, theses) {
      assert forall code :: papers.Violates(code) ==> Violates(code, papers, theses);
      assert !Violates(MissingPositionThesis, papers, theses) && !Violates(MissingThesisEvidence, papers, theses);
    }
  }

  ghost predicate HasSupport(theses: seq<Thesis>) {
    exists k :: 0 <= k < |theses| && theses[k].supporting != []
  }

  /** `add`: every code is reported once. */
  method Report(errors: seq<Code>, code: Code, when: bool) returns (r: seq<Code>)
    ensures forall c :: c in r <==> c in errors || (when && c == code)
  {
    r := if when && code !in errors then errors + [code] else errors;
  }

  method LineageErrors(papers: Papers) returns (errors: seq<Code>)
    ensures forall code :: code in errors <==> papers.LineageRule(code)
  {
    errors := Report([], OrderSymbolMismatch, papers.order.symbol != papers.candidate.symbol);
    errors := Report(errors, DecisionCandidateMismatch, papers.decision.candidate != papers.candidate.id);
    errors := Report(errors, DecisionDirectionMismatch,
                     papers.decision.direction.Some? && papers.decision.direction.value != papers.candidate.direction);
    errors := Report(errors, RiskLineageMismatch,
                     papers.risk.candidate != papers.candidate.id || papers.risk.decision != papers.decision.id);
    errors := Report(errors, OrderExceedsCandidateQuantity, papers.order.quantity > papers.candidate.maxQuantity + DUST);
    errors := Report(errors, OrderExceedsRiskQuantity, papers.order.quantity > papers.risk.approved + DUST);
    errors := Report(errors, RiskDidNotApproveOrder, papers.risk.verdict == Refuse || papers.risk.approved <= 0.0);
  }

  method ActionErrors(papers: Papers) returns (errors: seq<Code>)
    ensures forall code :: code in errors <==> papers.ActionRule(code)
  {
    if IsEntry(papers.decision.action) {
      errors := EntryErrors(papers);
    } else if IsExit(papers.decision.action) {
      errors := Report([], ExitNotReduceOnly, !papers.order.reduceOnly);
      errors := Report(errors, ExitSideMismatch, papers.order.side != papers.candidate.direction.ExitSide());
      errors := Report(errors, ExitVerdictInvalid, papers.risk.verdict != Exit);
    } else {
      errors := [ActionNotExecutable];
    }
  }

  method EntryErrors(papers: Papers) returns (errors: seq<Code>)
    requires papers.Entry()
    ensures forall code :: code in errors <==> papers.EntryRule(code)
  {
    errors := Report([], EntryMarkedReduceOnly, papers.order.reduceOnly);
    errors := Report(errors, EntrySideMismatch, papers.order.side != papers.candidate.direction.EntrySide());
    errors := Report(errors, EntryVerdictInvalid, papers.risk.verdict != Allow && papers.risk.verdict != Resize);
    errors := Report(errors, ConfidenceTooLow, papers.decision.confidence < MinimumConfidence(papers.decision.action));
    errors := Report(errors, MultiplierNotPositive, papers.decision.multiplier <= 0.0);
    var requested := Requested(papers.candidate, papers.decision);
    errors := Report(errors, OrderExceedsDecisionSize, papers.order.quantity > requested + DUST);
  }

  method AnySupport(theses: seq<Thesis>) returns (found: bool)
    ensures found <==> HasSupport(theses)
  {
    found := false;
    for k := 0 to |theses|
      invariant found <==> exists i :: 0 <= i < k && theses[i].supporting != []
    {
      found := found || theses[k].supporting != [];
    }
  }

  method ContentErrors(papers: Papers) returns (errors: seq<Code>)
    ensures forall code :: code in errors <==> papers.ContentRule(code)
  {
    errors := Report([], MissingStrategyVersion, papers.candidate.strategyVersion == "");
    errors := Report(errors, MissingFeatureSnapshot, papers.candidate.features == map[]);
    errors := Report(errors, MissingSourceEvidence, papers.candidate.evidenceIds == []);
    errors := Report(errors, MissingDecisionEvidence, papers.decision.evidenceIds == []);
    errors := Report(errors, UnknownDecisionEvidence,
                     papers.decision.evidenceIds != [] && !Subset(papers.decision.evidenceIds, papers.candidate.evidenceIds));
    errors := Report(errors, MissingDecisionThesis, papers.decision.thesis == "");
    errors := Report(errors, MissingInvalidationConditions, papers.decision.invalidation == []);
    errors := Report(errors, CandidateExpired, papers.order.observedAt > papers.candidate.validUntil);
  }

  method ThesisErrors(theses: seq<Thesis>) returns (errors: seq<Code>)
    ensures forall code :: code in errors <==> ThesisRule(code, theses)
  {
    var supported := AnySupport(theses);
    errors := Report([], MissingPositionThesis, theses == []);
    errors := Report(errors, MissingThesisEvidence, theses != [] && !supported);
  }

  /** `_order_semantic_errors` reports exactly the violated rules. */
  method SemanticErrors(papers: Papers, theses: seq<Thesis>) returns (errors: seq<Code>)
    ensures forall code :: code in errors <==> Violates(code, papers, theses)
  {
    var lineage := LineageErrors(papers);
    var action := ActionErrors(papers);
    var content := ContentErrors(papers);
    var thesis := ThesisErrors(theses);
    errors := lineage + action + content + thesis;
  }

  // Evidence

  /** When the evidence check reports a code for the rows linked to a candidate. */
  ghost predicate EvidenceViolates(code: Code, candidate: Candidate, rows: seq<Evidence>, hash: string -> string) {
    || (code == MissingRawEvidence && rows == [])
    || (code == RawEvidenceLinkMismatch && !LinksMatch(candidate, rows))
    || RowViolates(code, candidate, rows, hash)
  }

  ghost predicate RowViolates(code: Code, candidate: Candidate, rows: seq<Evidence>, hash: string -> string) {
    exists e :: e in rows && RowRule(code, candidate, e, hash)
  }

  ghost predicate RowRule(code: Code, candidate: Candidate, e: Evidence, hash: string -> string) {
    || (code == DeletedEvidenceLinked && e.deletedAt.Some?)
    || (code == EvidenceHashMismatch && hash(e.payload) != e.contentHash)
    || (code == FutureEvidenceLinked && e.occurredAt > candidate.createdAt)
    || (code == EvidenceObservedAfterCandidate && e.firstObservedAt > candidate.createdAt)
  }

  /** The linked rows carry exactly the declared evidence ids. */
  ghost predicate LinksMatch(candidate: Candidate, rows: seq<Evidence>) {
    && (forall id :: id in candidate.evidenceIds ==> exists k :: 0 <= k < |rows| && rows[k].evidenceId == id)
    && (forall k :: 0 <= k < |rows| ==> rows[k].evidenceId in candidate.evidenceIds)
  }

  ghost predicate EvidenceSound(candidate: Candidate, rows: seq<Evidence>, hash: string -> string) {
    forall code :: !EvidenceViolates(code, candidate, rows, hash)
  }

  ghost predicate RowSound(candidate: Candidate, row: Evidence, hash: string -> string) {
    && row.evidenceId in candidate.evidenceIds
    && row.deletedAt.None?
    && hash(row.payload) == row.contentHash
    && row.occurredAt <= candidate.createdAt
    && row.firstObservedAt <= candidate.createdAt
  }

  /** Soundness row by row: every linked row is sound, and every declared id is linked. */
  lemma EvidenceSoundByRow(candidate: Candidate, rows: seq<Evidence>, hash: string -> string)
    ensures EvidenceSound(candidate, rows, hash) <==>
              && rows != []
              && (forall e :: e in rows ==> RowSound(candidate, e, hash))
              && (forall id :: id in candidate.evidenceIds ==> exists k :: 0 <= k < |rows| && rows[k].evidenceId == id)
  {
    if EvidenceSound(candidate, rows, hash) {
      assert !EvidenceViolates(MissingRawEvidence, candidate, rows, hash);
      assert !EvidenceViolates(RawEvidenceLinkMismatch, candidate, rows, hash);
      forall e | e in rows
        ensures RowSound(candidate, e, hash)
      {
        assert !EvidenceViolates(DeletedEvidenceLinked, candidate, rows, hash);
        assert !EvidenceViolates(EvidenceHashMismatch, candidate, rows, hash);
        assert !EvidenceViolates(FutureEvidenceLinked, candidate, rows, hash);
        assert !EvidenceViolates(EvidenceObservedAfterCandidate, candidate, rows, hash);
        assert !RowRule(DeletedEvidenceLinked, candidate, e, hash) && !RowRule(EvidenceHashMismatch, candidate, e, hash);
        assert !RowRule(FutureEvidenceLinked, candidate, e, hash);
        assert !RowRule(EvidenceObservedAfterCandidate, candidate, e, hash);
      }
    } else if rows != [] && LinksMatch(candidate, rows) {
      var code :| EvidenceViolates(code, candidate, rows, hash);
      var e :| e in rows && RowRule(code, candidate, e, hash);
      assert !RowSound(candidate, e, hash);
    } else if forall e :: e in rows ==> RowSound(candidate, e, hash) {
      assert forall k :: 0 <= k < |rows| ==> RowSound(candidate, rows[k], hash);
    }
  }

  method MatchLinks(candidate: Candidate, rows: seq<Evidence>) returns (same: bool)
    ensures same <==> LinksMatch(candidate, rows)
  {
    var declared := set id | id in candidate.evidenceIds;
    var linked: set<string> := {};
    for k := 0 to |rows|
      invariant forall id :: id in linked <==> exists i :: 0 <= i < k && rows[i].evidenceId == id
    {
      linked := linked + {rows[k].evidenceId};
    }
    same := declared == linked;
    assert forall k :: 0 <= k < |rows| ==> rows[k].evidenceId in linked;
    assert forall id :: id in candidate.evidenceIds <==> id in declared;
    if LinksMatch(candidate, rows) {
      assert forall id :: id in linked <==> id in declared;
    }
  }

  /** The loop of `_raw_evidence_errors` over the linked rows. */
  method RowErrors(candidate: Candidate, rows: seq<Evidence>, hash: string -> string) returns (errors: seq<Code>)
    ensures forall code :: code in errors <==> RowViolates(code, candidate, rows, hash)
  {
    errors := [];
    for k := 0 to |rows|
      invariant forall code :: code in errors <==> RowViolates(code, candidate, rows[..k], hash)
    {
      assert rows[..k + 1] == rows[..k] + [rows[k]];
      errors := AddRowErrors(errors, candidate, rows[k], hash);
    }
    assert rows[..|rows|] == rows;
  }

  method AddRowErrors(errors: seq<Code>, candidate: Candidate, row: Evidence, hash: string -> string)
    returns (r: seq<Code>)
    ensures forall code :: code in r <==> code in errors || RowRule(code, candidate, row, hash)
  {
    r := Report(errors, DeletedEvidenceLinked, row.deletedAt.Some?);
    r := Report(r, EvidenceHashMismatch, hash(row.payload) != row.contentHash);
    r := Report(r, FutureEvidenceLinked, row.occurredAt > candidate.createdAt);
    r := Report(r, EvidenceObservedAfterCandidate, row.firstObservedAt > candidate.createdAt);
  }

  /** `_raw_evidence_errors` reports exactly the violated rules. */
  method RawEvidenceErrors(candidate: Candidate, rows: seq<Evidence>, hash: string -> string) returns (errors: seq<Code>)
    ensures forall code :: code in errors <==> EvidenceViolates(code, candidate, rows, hash)
  {
    var same := MatchLinks(candidate, rows);
    errors := Report([], MissingRawEvidence, rows == []);
    errors := Report(errors, RawEvidenceLinkMismatch, !same);
    var more := RowErrors(candidate, rows, hash);
    errors := errors + more;
  }
}
