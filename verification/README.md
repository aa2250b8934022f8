# Verified model of the crypto event trader and the company monitor kernels

The project models the parts of the repository that may lose money or history when they are wrong, and proves
what they promise. `dafny verify dfyconfig.toml` checks everything.

| file | what it models |
|---|---|
| `Trading.dfy`, `SymbolRules.dfy` | shared vocabulary; the exchange filters that round quantities and prices |
| `Venue.dfy` | the exchange, the shared control switch and the quote provider as one `World` that answers by an arbitrary script, with the truth about every entry order and a journal of every call |
| `GatewayRules.dfy`, `Gateway.dfy` | `BinanceFuturesExecutionGateway`: entries, exits, protective stops, kill-switch cancellation, restart reconciliation |
| `RestClient.dfy` | the rate-limit embargo and the once-only submission of the REST client |
| `RestReconcile.dfy` | the comparison of a REST snapshot with a local projection |
| `AuditRules.dfy`, `LedgerTables.dfy`, `Ledger.dfy` | the audit ledger: rows, the two order checkers, what makes the tables well formed, the append methods, the trace validator |
| `FundingReplay.dfy` | funding attribution by replaying audited fills |
| `FillMerge.dfy` | private-stream trades and REST user trades merged into one set of fills |
| `Theses.dfy` | the theses that the approval coordinator holds, and what the ledger has recorded of them |
| `Approval.dfy` | the approval coordinator between an arbitrary decision provider, an arbitrary risk engine and an arbitrary gateway |
| `Chunking.dfy`, `MarketStats.dfy`, `SourceMerge.dfy` | greedy document chunking; drawdown, percentile and forecast ranges; keyed merging of documents and event rows |

How it is modelled:

- **The exchange is an adversary.** What it answers is a script, any function of the number of answers given so far; every
  contract holds for every script. A reply may be lost, be an error, or lie about a non-terminal state, and orders may fill
  between any two calls. What the exchange may not do is stated in `Venue.Evolves` and `Venue.Honest`: an order
  never fills beyond its quantity, a terminal order never changes, and a terminal report carries the final quantity.
- **Exceptions are values.** `Gateway.Outcome` separates a normal return, the auditable `Unresolved` failure and any other
  exception (`Raised`). Elsewhere an exception is an `Err` of a `Result`.
- **The control switch, the clock, identifiers drawn at random, the account source, the model and the risk engine** are
  nondeterministic values. The clock of the REST client never runs backwards.
- **Numbers are reals**, so rounding of binary floats is not modelled. Where the source uses a tolerance the model uses the
  same one; in the funding replay it is a parameter, and the exact case is proved separately.
- **The ledger is its tables.** Each append is one transaction: it commits a whole row set or nothing. Primary keys, UNIQUE
  and CHECK constraints of `src/crypto_event_trader/migrations.py` are errors of the append.

## Findings

Each is a property that does not hold of the code as it is; the member named states exactly when it does.

- An intent without a side is entered as BUY, but its stop and its emergency order are BUY as well
  (`GatewayRules.ProtectionClosesIffSideGiven`, input in `GatewayRules.UnsidedEntryIsNotClosed`). The ledger records a missing
  side as BUY too (`Approval.Carries`). The risk engine always names a side, so only a direct call of the gateway gets there.
- A filled entry is left without a stop and without the latch exactly when something outside the try blocks of `submit`
  fails: the quote provider raises between the two children, or the quote handed to `submit` has a last price of zero and the
  repeated entry check passes (the division is by that quote, not by the refreshed one), or the filters refuse the stop or
  cannot be read (`Gateway.ExecutionGateway.FillIsCoveredIff`; one run for every answer of the quote provider in
  `Gateway.HalfFilled`, with filters that refuse in `Gateway.HalfIsRefused`). The risk engine refuses a quote without a last
  price, so that case needs a direct call. An exit, and a restart reconciliation, leave by the exception of the filters exactly
  when these refuse the replacement; the old stop is then already cancelled and the symbol is tracked no more
  (`Gateway.ExecutionGateway.ExitEnd`, one run in `Gateway.HalfReduced`).
- A second run of `reconcile_protective_orders` over the same positions places and cancels nothing exactly when every stop that
  the first run left is within 1e-12 of its position (`Gateway.ExecutionGateway.ReconcileTwice`). A stop that was kept always is. One
  that was placed need not be: verification accepts a relative 1e-9 (`GatewayRules.VerifiedStopMayNotFit`), and a position off
  the lot grid never gets a stop that fits (`GatewayRules.StopCanFitIff`, input in `GatewayRules.OffGridPositionNeverFits`). Its stop is
  then cancelled and replaced by every run.
- A parent id of 36 characters that ends in its own child suffix produces a child with the id of the parent
  (`GatewayRules.ChildIdCollision`). The ids of the coordinator are too short for that (`GatewayRules.CoordinatorIdHasNoCollision`).
- Linking a later version of the evidence of an accepted candidate turns a valid trace invalid exactly when that version
  describes a moment after the creation of the candidate (`LedgerTables.RelinkKeepsSoundIff`, input in
  `LedgerTables.LaterVersionBreaksTrace`).
- A commission reported by both sources is refused as a conflicting replay, after its fill was booked, exactly when the times differ
  (`FillMerge.CommissionConflictsIffTimesDiffer`); what any recorded cash flow does to a later commission is in the contract of
  `FillMerge.ApprovalRuntime.AppendCommission`.
- A Retry-After of zero counts as none: the embargo is 300 or 60 seconds, longer than the server demands
  (`RestClient.Client.Imposes`, in the contract of `RestClient.Client.Throttle`).
- A submission that the exchange accepts is reported as an error, without a lookup, exactly when the body of the response is not a
  JSON object (`RestClient.Resolves`, in the contract of `RestClient.Client.Place`).
- An attempt uses up a new client id exactly if it passes the production lock and the id pattern, even when it then fails before it
  leaves, under an embargo or without credentials: every later attempt under that id is a lookup. An attempt refused by one of the
  two checks changes nothing (`RestClient.Client.Place`, `RestClient.Client.PlaceTwice`).
- An approved add that is not filled is not counted, so a second add can be submitted (`Theses.UnfilledAddIsNotCounted`). The held
  add count is the number of filled adds as long as every review is handed a thesis with the add count of the held one
  (`Theses.CountKeptIff`); a caller of the HTTP interface that hands in another one can have two adds filled
  (`Theses.SuppliedThesisHidesAnAdd`).
- The ledger can block exits. It accepts a thesis exactly when the newest recorded add count of the symbol is at most its own
  (`Theses.RecordedIffNotBehind`), and it never forgets an add. After an approved add that was not filled, the held thesis is behind:
  every review except another approved add is refused before the gateway, a close included (`Theses.UnfilledAddLocksPosition`, history
  in `Theses.TwoAddsAndALockedExit`). The same holds for the fresh thesis of `emergency_close_all` and for a new position in a symbol
  that once had an add (`Theses.RecordedAddLocks`).
- The probabilities of a forecast are rounded one by one. They sum to one exactly when as many of them are rounded up as their
  fractions of the last digit make together; otherwise they sum to 0.9999 or to 1.0001, each under its own exact condition
  (`MarketStats.ShownOddsSumToOneIff`, inputs for both in `MarketStats.ShownOddsMayMissOne`).

## Model

| member | source | states |
|---|---|---|
| SymbolRules.RoundDownBounds | src/crypto_event_trader/binance.py:221-237 | rounding to a step never rises and loses less than one step |
| SymbolRules.RoundDownIsGreatest | src/crypto_event_trader/binance.py:221-237 | of all whole multiples of the step not above the value, rounding picks the greatest |
| SymbolRules.NormalizeQuantityIsStable | src/crypto_event_trader/binance.py:221-237 | an accepted quantity is on the grid, less than a step below the request, and accepted unchanged a second time |
| SymbolRules.QuantityAcceptedIff | src/crypto_event_trader/binance.py:221-237 | a quantity is accepted as a value exactly when it is positive and the value is its floor on the grid, and within the limits, of the filter for its kind of order |
| SymbolRules.PriceAcceptedIff | src/crypto_event_trader/binance.py:204-219 | a price is accepted as a value exactly when it is positive and the value is its floor on the tick grid, if there is one, and within the limits |
| Venue.ExposureShrinks | src/crypto_event_trader/binance_execution_gateway.py:343-421 | whatever the exchange does, the exposure of orders already sent never grows, and is fixed once all are terminal |
| Venue.ExposureCoversFills | src/crypto_event_trader/binance_execution_gateway.py:343-421 | exposure bounds what was really filled, with equality once every order is terminal |
| Venue.LateFillsStayWithin | src/crypto_event_trader/binance_execution_gateway.py:523-586 | fills that arrive after the gateway returned stay within the exposure it left |
| Venue.StatusesAreSorted | src/crypto_event_trader/binance_execution_gateway.py:64-68 | an order may still fill exactly when it is new, partly filled or unknown; a stop is active, ended or unknown, and which is ended |
| GatewayRules.ChildIdCollision | src/crypto_event_trader/binance_execution_gateway.py:1618-1620 | a child id equals its parent's exactly for a parent of 36 characters that ends in the suffix |
| GatewayRules.CoordinatorIdHasNoCollision | src/crypto_event_trader/approval.py:1364-1367 | an id of the coordinator has at most 35 characters and never equals a child of it |
| GatewayRules.ReplacementIdIsWhole | src/crypto_event_trader/binance_execution_gateway.py:1622-1624 | nothing of the id of a replacement stop is cut off, and it is never an id of fewer than 28 characters again |
| GatewayRules.NearIff | src/crypto_event_trader/binance_execution_gateway.py:418-420 | for a positive price the refreshed one is near exactly when it is within the allowed ten-thousandths on either side |
| GatewayRules.ProtectionClosesIffSideGiven | src/crypto_event_trader/binance_execution_gateway.py:713-770 | stop and emergency order close the position exactly when the intent names a side |
| GatewayRules.UnsidedEntryIsNotClosed | src/crypto_event_trader/binance_execution_gateway.py:713-770 | an input on which entry, stop and emergency order are all BUY |
| GatewayRules.VerifiedStopMayNotFit | src/crypto_event_trader/binance_execution_gateway.py:1056-1100 | a stop that verification accepts and restart reconciliation replaces |
| GatewayRules.StopCanFitIff | src/crypto_event_trader/binance_execution_gateway.py:1056-1160 | some verified stop of the rounded size fits the position exactly when rounding took away no more than both tolerances together |
| GatewayRules.OffGridPositionNeverFits | src/crypto_event_trader/binance_execution_gateway.py:1056-1160 | a position between two lot steps that no verified stop ever fits |
| GatewayRules.RoundExposure | src/crypto_event_trader/binance_execution_gateway.py:343-421 | one child adds at most its own quantity to the exposure of the submission |
| Gateway.ExecutionGateway.Authorize | src/crypto_event_trader/binance_execution_gateway.py:266-297 | an opening order needs an open latch and a control that was just read as enabled; a reduce-only one does not |
| Gateway.ExecutionGateway.ConfigureSymbol | src/crypto_event_trader/binance_execution_gateway.py:299-321 | success means one-way mode, isolated margin and leverage were set, each once per gateway or symbol and each straight after an enabled control read |
| Gateway.ExecutionGateway.PlaceEntryChild | src/crypto_event_trader/binance_execution_gateway.py:468-521 | at most one entry order goes out, of the rounded quantity on offer and while no other can fill; an unknown placement is resolved by queries or fails closed with the position read as the quantity to flatten |
| Gateway.ExecutionGateway.CancelAndResolve | src/crypto_event_trader/binance_execution_gateway.py:523-586 | a result is a terminal report that is faithful to the exchange even if fills raced the cancel |
| Gateway.ExecutionGateway.RunEntries | src/crypto_event_trader/binance_execution_gateway.py:343-421 | the entry loop sends at most two children, one live at a time, and its totals equal what was filled; it raises a plain exception exactly when its last call forces one |
| Gateway.ExecutionGateway.SubmitEntry | src/crypto_event_trader/binance_execution_gateway.py:343-466 | on every exit at most two orders and exposure at most the intended quantity; a BUY is sent at the ask and a SELL at the bid, the first child of the submitted quote and for the rounded quantity of the intent, its replacement of the refreshed quote, which is near, and for what the first one left open; a normal return with fills is guarded by a stop that was sent and verified for the position, against the entry and at the stop price of the intent or else the last price; a plain exception with fills exactly when the quote read, the submitted price or the filters force it; it fails closed only over an order read as not terminal or a protection in doubt, with the position read, or else what is known to be filled, as the quantity to flatten |
| Gateway.ExecutionGateway.FillIsCoveredIff | src/crypto_event_trader/binance_execution_gateway.py:343-466 | an entry that was filled ends with a verified stop or fails closed exactly when the provider answered, the submitted quote has a last price, and the filters accept the stop |
| Gateway.HalfFilled | src/crypto_event_trader/binance_execution_gateway.py:408-421 | for every answer of the quote provider, a run that leaves half a position open with no stop and no latch when that answer, the price or the filters fail |
| Gateway.HalfIsRefused | src/crypto_event_trader/binance_execution_gateway.py:772-791 | filters under which the entry is accepted and the stop for its filled half is refused |
| Gateway.HalfReduced | src/crypto_event_trader/binance_execution_gateway.py:588-711 | a run in which a reduction leaves half a position open, its stop cancelled and none in its place |
| Gateway.ExecutionGateway.SubmitExit | src/crypto_event_trader/binance_execution_gateway.py:588-711 | after a normal exit status and fill are those of an answer to the order; the residual, which is the position whenever it can be read, is covered by a verified stop of its size with the side and trigger of the old one, or no stop is tracked and the old one was seen terminal; a plain exception after the order exactly when the filters refuse the new stop; it fails closed only over its order or its residual in doubt, with that residual as the quantity to flatten |
| Gateway.ExecutionGateway.Submit | src/crypto_event_trader/binance_execution_gateway.py:122-137 | the complete list of ends of one submission: a plain exception outside the try blocks exactly when the last signal forces it, a fail-closed end only over an order, a position or a stop that was read and left in doubt before the latch, a refusal only of an opening order when the latch is set or some check fails; an entry is only sent for a configured symbol |
| Gateway.ExecutionGateway.InstallProtection | src/crypto_event_trader/binance_execution_gateway.py:713-770 | one tracked stop for the normalized position and trigger, the previous one seen terminal; it fails closed only if the position could not be sized by its reading, the previous stop was not seen terminal, or the new one was not read back as placed, with the position, or the fill if that is unknown, as the quantity to flatten; the normalizer exception exactly when the filters refused this stop |
| Gateway.ExecutionGateway.PlaceProtective | src/crypto_event_trader/binance_execution_gateway.py:772-873 | a stop counts as placed only after it was sent, read back and verified with quantity and trigger as the filters round them, and is given up before being sent exactly when the filters refuse it |
| Gateway.ExecutionGateway.CancelProtective | src/crypto_event_trader/binance_execution_gateway.py:939-985 | success means the stop was seen terminal by a read of its own id, straight after its cancellation was requested |
| Gateway.ExecutionGateway.RaiseUnresolved | src/crypto_event_trader/binance_execution_gateway.py:1204-1253 | every fail-closed exit sets the latch and the kill switch, then lists the open orders and tries to cancel each listed entry and reads each after it, then reads every tracked stop; a positive emergency quantity is tried to be closed reduce-only on the side that closes, and nothing is closed otherwise |
| Gateway.ExecutionGateway.CancelRemoteEntries | src/crypto_event_trader/binance_execution_gateway.py:1340-1446 | each listed entry order is tried to be cancelled, no more than once, and read straight after; success means that each was seen terminal; nothing reduce-only is touched |
| Gateway.ExecutionGateway.CancelAll | src/crypto_event_trader/binance_execution_gateway.py:139-156 | success means the barrier held and a second listing shows no entry order; otherwise the latch is set |
| Gateway.ExecutionGateway.ReconcileAccount | src/crypto_event_trader/binance_execution_gateway.py:251-264 | an inconsistent snapshot latches and engages the kill switch; a consistent or an unavailable one leaves the latch as it is |
| Gateway.ExecutionGateway.ReconcileSymbol | src/crypto_event_trader/binance_execution_gateway.py:1040-1160 | one symbol ends with no tracked stop if flat, otherwise with the newest stop that was read back as fitting, or, exactly if none fits, with a new stop verified for the rounded position and the rounded trigger of the newest known one; all other known stops are seen terminal; a fail-closed end flattens the whole position |
| Gateway.ExecutionGateway.ReconcileProtective | src/crypto_event_trader/binance_execution_gateway.py:987-1160 | every symbol is settled and no foreign stop was listed, or the gateway failed closed over one symbol; no stop is placed or cancelled exactly when each symbol has at most one known stop and that stop, as read back, fits the position |
| Gateway.ExecutionGateway.ReconcileTwice | src/crypto_event_trader/binance_execution_gateway.py:987-1160 | a second run with the stops of the first, unchanged answers and no foreign stop places and cancels nothing exactly when each of them is within 1e-12 of its position |
| Gateway.ExecutionGateway.ScreenRemote | src/crypto_event_trader/binance_execution_gateway.py:987-1040 | a stop in the bot's namespace without an audited owner is tried to be cancelled, and the whole account is flattened |
| Gateway.ExecutionGateway.Run | src/crypto_event_trader/binance_execution_gateway.py:122-156 | over every sequence of calls the latch is never cleared and every opening order precedes it, follows an enabled control read and is alone |
| RestClient.Client.Exchange | src/crypto_event_trader/binance.py:1132-1220 | nothing is sent under an embargo, including the time synchronization nested in a signed request; otherwise the request leaves once and its response decides the reply; a 418 or 429 leaves the embargo at least at the time of the request plus what it demands, or 300 or 60 seconds if it demands nothing |
| RestClient.Client.Throttle | src/crypto_event_trader/binance.py:1203-1212 | a 429 or 418 moves the embargo at least to its time plus what the server demands, or plus the fallback exactly if it demands nothing, and never back |
| RestClient.Client.Place | src/crypto_event_trader/binance.py:1055-1090 | a new id is used up exactly if the attempt is admissible, and a refused attempt changes nothing; the order is returned exactly for a decodable object; a lookup follows only an outcome in doubt, and each such outcome that does not throttle; any other outcome is an error at once, an accepted order in an unreadable body included |
| RestClient.Client.PlaceTwice | src/crypto_event_trader/binance.py:1055-1123 | of two attempts under one new id, the second with permission, the second submits nothing if the first was admissible, and otherwise goes out, given credentials and no embargo, exactly for a valid id |
| RestClient.Client.Run | src/crypto_event_trader/binance.py:1055-1220 | in every run each client id is submitted at most once, no request precedes the end of an earlier embargo, and after a 418 or 429 no request leaves before the wait that this response demands is over |
| RestClient.ValidIffInRanges | src/crypto_event_trader/binance.py:1115-1120 | an id is valid exactly when it has 1 to 36 characters, each from four stretches of ASCII |
| RestReconcile.Reconcile | src/crypto_event_trader/binance.py:349-387 | exactly the due issues are reported, each once |
| RestReconcile.SilentIffAgrees | src/crypto_event_trader/binance.py:349-387 | with both expectations there is no issue exactly when the open ids are equal and every net position is the expected one, missing counting as zero |
| RestReconcile.OneIssuePerName | src/crypto_event_trader/binance.py:349-387 | an id and a symbol are blamed by at most one issue each |
| AuditRules.Papers.SoundLineage | src/crypto_event_trader/audit.py:195-212 | silence means matching symbol and lineage, and quantity within the candidate's and the risk row's |
| AuditRules.Papers.SoundAction | src/crypto_event_trader/audit.py:213-241 | silence means a BUY exactly for the entry of a long or the exit of a short, reduce-only exactly for exits, and for entries a quantity within the candidate's times the multiplier and a confidence of at least 0.7 to open and 0.8 to add |
| AuditRules.Papers.SoundContent | src/crypto_event_trader/audit.py:242-266 | silence means an unexpired candidate and a decision that cites only the candidate's evidence |
| AuditRules.RawEvidenceErrors | src/crypto_event_trader/audit.py:269-303 | a code is reported exactly when its rule is violated by the linked rows |
| AuditRules.EvidenceSoundByRow | src/crypto_event_trader/audit.py:269-303 | silence means every linked row is declared, live, unaltered and earlier than the candidate, and every declared id is linked |
| LedgerTables.SoundIffCheckersPass | src/crypto_event_trader/audit.py:3363-3443 | in well-formed tables the validator's extra checks never fail, so a trace is sound exactly when the two checkers are silent |
| LedgerTables.SoundOrderStaysSound | src/crypto_event_trader/audit.py:3363-3443 | a sound order stays sound in every later state in which its candidate was not linked again |
| LedgerTables.RelinkKeepsSoundIff | src/crypto_event_trader/audit.py:654-741 | linking one more version keeps the order sound exactly when it occurred no later than the candidate was created |
| LedgerTables.LaterVersionBreaksTrace | src/crypto_event_trader/audit.py:269-303 | a candidate whose evidence is sound with the first version and not with the second |
| LedgerTables.OneFirstSight | src/crypto_event_trader/audit.py:569-580 | all versions of an evidence id share source and first observation |
| Ledger.AuditRepository.AppendEvidence | src/crypto_event_trader/audit.py:528-603 | accepted exactly for a new record of the same source and a matching hash; the row continues the version chain of its id: next number, link to the predecessor, same first sight |
| Ledger.AuditRepository.NextVersion | src/crypto_event_trader/audit.py:569-580 | the draft becomes the next version of its chain, or is refused exactly when the source changed |
| Ledger.AuditRepository.EnsureEvidence | src/crypto_event_trader/audit.py:605-652 | afterwards the content is current, and a row is appended exactly when it was not current before |
| Ledger.AuditRepository.EnsureTwice | src/crypto_event_trader/audit.py:605-652 | ensuring the same content twice appends at most one row |
| Ledger.AuditRepository.LinkEvidence | src/crypto_event_trader/audit.py:654-741 | all of the records are linked or none; accepted exactly when every record is linkable; other candidates are untouched |
| Ledger.AuditRepository.LinkOne | src/crypto_event_trader/audit.py:690-741 | accepted exactly for the newest version of a declared, undeleted evidence id, and linked once |
| Ledger.AuditRepository.AppendCandidate | src/crypto_event_trader/audit.py:743-786 | accepted exactly for a new candidate whose records are all linkable; its row stays when only the linking fails |
| Ledger.AuditRepository.AppendDecision | src/crypto_event_trader/audit.py:788-850 | accepted exactly for a new id with a candidate of the same trace and values within their ranges |
| Ledger.AuditRepository.AppendThesis | src/crypto_event_trader/audit.py:852-935 | accepted exactly for a complete thesis of a known decision whose add count is 0 or 1 and does not fall; the row continues the chain of its position |
| Ledger.AuditRepository.NextThesis | src/crypto_event_trader/audit.py:891-915 | the draft becomes the next thesis of its chain, or is refused exactly when the add count would fall |
| Ledger.AuditRepository.AppendRisk | src/crypto_event_trader/audit.py:937-993 | accepted exactly for a new id whose decision belongs to its candidate and trace |
| Ledger.AuditRepository.AppendOrder | src/crypto_event_trader/audit.py:995-1132 | an order is recorded, with its first event, exactly when both checkers are silent and no constraint is broken, and its trace is sound at once |
| Ledger.AuditRepository.AppendOrderEvent | src/crypto_event_trader/audit.py:1134-1224 | events of an order are numbered 1, 2, 3, ...; a known source event changes nothing; the exact condition of acceptance |
| Ledger.AuditRepository.AppendFill | src/crypto_event_trader/audit.py:1226-1297 | a fill with a known external id changes nothing; the exact condition of acceptance |
| Ledger.AuditRepository.AppendAccounting | src/crypto_event_trader/audit.py:1299-1453 | a cash flow is recorded once; a replay is accepted exactly when all immutable fields agree |
| Ledger.AuditRepository.ValidateOrderTrace | src/crypto_event_trader/audit.py:3363-3443 | the validator, which trusts no table, reports exactly the codes of the rules that the recorded trace breaks, and is silent exactly on sound traces |
| LedgerTables.SoundIffNothingReported | src/crypto_event_trader/audit.py:3381-3425 | a trace is sound exactly when the validator has nothing to report |
| Ledger.AuditRepository.Run | src/crypto_event_trader/audit.py:528-1453 | over every sequence of appends the tables stay well formed, rows are only added, and orders stay sound unless their candidate is linked again |
| Ledger.RecordedOrderIsSound | src/crypto_event_trader/audit.py:1036-1131 | the gate lets nothing through that the validator would object to |
| FundingReplay.Resolve | src/crypto_event_trader/audit.py:2685-2782 | exactly one answer: the missing argument, or the unsound trace of some selected fill, or what the replay of the selected fills attributes |
| FundingReplay.ReplayFills | src/crypto_event_trader/audit.py:2732-2766 | the loop over net and total quantity computes the replay, with the first objection as the reason |
| FundingReplay.EveryFillFits | src/crypto_event_trader/audit.py:2747-2766 | in an accepted history entries agree in sign with the position, and exits oppose it, do not outgrow it and do not cross it beyond the tolerance |
| FundingReplay.RejectionPersists | src/crypto_event_trader/audit.py:2733-2766 | a rejected prefix keeps every longer history rejected for the same reason |
| FundingReplay.NetIsNearSum | src/crypto_event_trader/audit.py:2745-2766 | the running position differs from the true signed sum by at most the final tolerance for each snap to zero |
| FundingReplay.SumIsBoughtLessSold | src/crypto_event_trader/audit.py:2748-2749 | the true signed sum is what the orders on the buying side filled less what those on the selling side did |
| FundingReplay.AttributedRows | src/crypto_event_trader/audit.py:2733-2768 | in an attributed history every fill has a realized profit and a positive quantity, the first is no reduction, and the position is not zero and near what was bought less what was sold |
| FundingReplay.LedgerTolerance | src/crypto_event_trader/audit.py:2750 | the tolerance is 1e-12 up to a total of a hundredth, then a ten-billionth of the total |
| FundingReplay.AllowanceIsProduct | src/crypto_event_trader/audit.py:2745-2766 | the allowance of that bound is the number of snaps times the tolerance |
| FundingReplay.ExactReplay | src/crypto_event_trader/audit.py:2733-2766 | with no tolerance the replay accepts exactly the histories whose every fill respects the sum before it, never crossing zero, and computes that sum |
| FundingReplay.OwnerOfLatest | src/crypto_event_trader/audit.py:2767-2782 | an attribution names the one owner of all fills at the latest time |
| FillMerge.ApprovalRuntime.OnTradeEvent | src/crypto_event_trader/binance_runtime.py:54-151 | a trade is booked once or not at all, with its commission when nothing fails; every failure engages the kill switch |
| FillMerge.ApprovalRuntime.OnRestReport | src/crypto_event_trader/binance_runtime.py:694-807 | rows that do not account for the executed quantity book nothing and engage the kill switch; otherwise all are booked in turn with their commissions |
| FillMerge.ApprovalRuntime.ValidateRows | src/crypto_event_trader/binance_runtime.py:706-772 | valid exactly when there are rows, each of the order with positive price and quantity, a marker and a time, and they add up to the executed quantity up to the dust or a billionth |
| FillMerge.ApprovalRuntime.AppendCommission | src/crypto_event_trader/binance_runtime.py:348-363 | a commission is accepted exactly when nothing recorded under its income id contradicts it |
| FillMerge.ApprovalRuntime.Run | src/crypto_event_trader/binance_runtime.py:54-807 | any mixture of both sources adds only reported trades, each once; without a failure all of them are in the ledger with the commission of each, and no step fails when the observations are acceptable and each trade has one time |
| FillMerge.AddedAreTheNew | src/crypto_event_trader/binance_runtime.py:694-807 | a complete run books exactly the trades seen that were not known before |
| FillMerge.ExplainedFits | src/crypto_event_trader/audit.py:1339-1369 | when all cash flows agree with each other and with the ledger, no replay of one of them conflicts |
| FillMerge.SameTradesSameTotals | src/crypto_event_trader/binance_runtime.py:694-807 | complete runs over the same trades, in any order and multiplicity, end in the same totals |
| FillMerge.RealizedIgnoresOrder | src/crypto_event_trader/audit.py:2831-2839 | the realized total depends only on the set of bookings |
| FillMerge.RealizedTotal | src/crypto_event_trader/audit.py:2831-2839 | the total is exact, or refused exactly when a selected fill has no realized profit; what exact means is FillMovesTotal |
| FillMerge.FillMovesTotal | src/crypto_event_trader/audit.py:2812-2840 | one more fill moves the total by its own profit, gain or loss, exactly if its order is of the venue and it is not later than the time asked for, and a single fill totals its own profit |
| FillMerge.RunsAgree | src/crypto_event_trader/binance_runtime.py:310-363 | two runtimes that see the same trades, in any order and multiplicity, complete and report the same realized total, or both none |
| FillMerge.CommissionConflictsIffTimesDiffer | src/crypto_event_trader/audit.py:1339-1369 | the two sources agree on a commission exactly when they agree on its time; its income id names symbol and trade, its amount is the commission with the sign turned |
| FillMerge.MarkersNameFills | src/crypto_event_trader/binance_runtime.py:326-336 | within a symbol, fill ids are equal exactly when the trade ids are |
| Approval.SubmissionIsBounded | src/crypto_event_trader/approval.py:694-825 | whatever model and risk engine say, a submitted order is unexpired, cites only candidate evidence, is a BUY exactly for the entry of a long or the exit of a short, and is no larger than candidate, risk row and decision allow |
| Approval.SoundPapersAreBounded | src/crypto_event_trader/audit.py:183-266 | the same, from the recorded rows alone |
| Theses.AddsAreCounted | src/crypto_event_trader/approval.py:715-736 | when every review is handed the held thesis, the held add count is the number of adds filled since the thesis began, on top of what it began with, and at most one |
| Theses.CountKeptIff | src/crypto_event_trader/approval.py:1045-1084 | a review keeps that count exactly when the thesis it is handed has as many adds as the held one |
| Theses.SuccessorSpeaksForDecision | src/crypto_event_trader/approval.py:1018-1084 | the successor of a held thesis takes over what the decision states, keeps what it leaves out and always has conditions of invalidation, and the recorded row says the same |
| Theses.SuppliedThesisHidesAnAdd | src/crypto_event_trader/api.py:363-370 | a history in which a supplied thesis without the filled add gets a second add filled |
| Theses.UnfilledAddIsNotCounted | src/crypto_event_trader/approval.py:715-736 | after an add was sent, another one has a successor exactly when the first was not filled |
| Theses.RecordedIffNotBehind | src/crypto_event_trader/audit.py:891-915 | a complete successor is recorded exactly when the newest recorded add count of the symbol is at most its own |
| Theses.RecordedAddsNeverFall | src/crypto_event_trader/audit.py:891-915 | however the ledger grows, the recorded add count of a symbol never falls |
| Theses.RecordedAddLocks | src/crypto_event_trader/approval.py:725-732 | once an add is recorded, a review that is handed a thesis without an add, or none, reaches the gateway only with another approved add |
| Theses.UnfilledAddLocksPosition | src/crypto_event_trader/approval.py:725-732 | after an approved add that was not filled neither a reduction nor a close is sent until an add is filled |
| Theses.TwoAddsAndALockedExit | src/crypto_event_trader/approval.py:725-906 | a history with an unfilled add, a refused close and a second add |
| Approval.ApprovalService.AuditCandidate | src/crypto_event_trader/approval.py:926-1016 | the recorded candidate declares its own id and the supplied evidence ids, was not known before, and for each declared id a record of that id is linked |
| Approval.ApprovalService.RecordItem | src/crypto_event_trader/approval.py:947-1001 | an item that names a record is taken exactly if that is the newest version, not deleted, seen in time and of the claimed hash; any other becomes the next version of its id with its own source, payload and times |
| Approval.ApprovalService.RecordOrder | src/crypto_event_trader/approval.py:757-795 | the order is recorded exactly when the gate lets it through, and then passes the validator, so the incomplete-trace branch is never taken |
| Approval.ApprovalService.Announce | src/crypto_event_trader/approval.py:797-819 | the SUBMITTING event precedes the gateway call and leaves the trace sound |
| Approval.ApprovalService.Judge | src/crypto_event_trader/approval.py:638-736 | decision and risk row are recorded before an order may be prepared, with the verdict on the very intent (refused, exit, cut or as asked for); only the successor of another action than an entry is held at once |
| Approval.ApprovalService.SettleFailure | src/crypto_event_trader/approval.py:819-849 | a failed submission is marked unresolved, engages the kill switch and is not retried |
| Approval.ApprovalService.SettleSuccess | src/crypto_event_trader/approval.py:851-924 | an audit failure after execution engages the kill switch; exactly the authoritative fills are booked, and only with one of them the successor is held, or the thesis ended by a full close |
| Approval.ApprovalService.CurrentThesis | src/crypto_event_trader/approval.py:595-614 | the held thesis, or the newest recorded one of a live position with its add used up |
| Approval.ApprovalService.Submit | src/crypto_event_trader/approval.py:819-924 | one gateway call, for a prepared order of a candidate that was never submitted before; a failure is unresolved and locks trading, a result is marked with its status, exactly the authoritative fills are booked, and an audit failure after it locks trading |
| Approval.ApprovalService.ReviewCandidate | src/crypto_event_trader/approval.py:285-350 | a remembered result changes nothing, and neither does a review whose model was not shown exactly the supplied evidence; otherwise at most one submission, for this candidate, which was never submitted before, and at most one change of the held theses |
| Approval.ApprovalService.ForceClose | src/crypto_event_trader/approval.py:352-474 | the deterministic exit of one position: a close in the direction of the candidate, citing its evidence, with the held thesis or a fresh one, and at most one submission |
| Approval.ApprovalService.Run | src/crypto_event_trader/approval.py:285-586 | over every sequence of reviews and deterministic exits each gateway call is bounded, no candidate is submitted twice, recorded add counts never fall, and, unless a caller supplies its own thesis, the held add count is the number of filled adds and at most one |
| Chunking.PackSegments | src/company_event_monitor/deepseek.py:399-424 | greedy packing is lossless, within budget, and no partition within budget has fewer chunks |
| Chunking.GreedyIsOptimal | src/company_event_monitor/deepseek.py:399-424 | groups that could not have taken their next segment are as few as possible |
| Chunking.DocumentChunks | src/company_event_monitor/deepseek.py:391-424 | both branches are lossless |
| Chunking.WeightIsTextAndOverhead | src/company_event_monitor/deepseek.py:403-420 | what the budget counts is the text of the chunk and thirty-nine more for each segment, and one |
| Chunking.JoinedIsConcatenated | src/company_event_monitor/deepseek.py:408-420 | the text of a chunk is that of its segments in order, with a line break between any two |
| MarketStats.MaxDrawdown | src/company_event_monitor/market.py:403-410 | the single pass finds the least return over all pairs of a day and a later one |
| MarketStats.PercentileIsMonotone | src/company_event_monitor/market.py:621-631 | the percentile never falls when the quantile rises |
| MarketStats.PercentileIsWithin | src/company_event_monitor/market.py:621-631 | the percentile lies between two of the values |
| MarketStats.PercentileAtRank | src/company_event_monitor/market.py:621-631 | at the quantile of a rank the percentile is the sorted value of that rank |
| MarketStats.PercentileExtremes | src/company_event_monitor/market.py:621-631 | quantile 0 is the least of the values and quantile 1 the greatest |
| MarketStats.ForwardReturnsFromTheEnd | src/company_event_monitor/market.py:479-484 | the history holds, counted from the end, the return over twenty days for each of the last five hundred closes that has one |
| MarketStats.ForecastIsOrdered | src/company_event_monitor/market.py:472-540 | the return range and the price range are shown in order, rounding included |
| MarketStats.ForecastShowsQuantiles | src/company_event_monitor/market.py:502-536 | each shown return is its quantile of the history moved by a fortieth of the event signal, to half a ten-thousandth, and each shown price the last close grown by that, to half a cent |
| MarketStats.CalibrationIsLinear | src/company_event_monitor/market.py:487-500 | turning and shrinking the market signal is multiplying it by twice the hit rate less one, or by a quarter without enough samples |
| MarketStats.ScoreNeedsNoClamp | src/company_event_monitor/market.py:501 | for signals between -1 and 1 the score is their weighted sum, never clamped |
| MarketStats.UpGrowsWithScore | src/company_event_monitor/market.py:506-509 | a higher score never makes a rise less likely, although the neutral share depends on it too |
| MarketStats.ForecastRisesWithEvents | src/company_event_monitor/market.py:472-540 | better events, all else equal, never lower the shown score, returns, prices or odds of a rise, and never raise the odds of a fall |
| MarketStats.ForecastFollowsMarket | src/company_event_monitor/market.py:487-509 | a stronger market signal leaves the ranges alone and moves score and odds up, or down exactly when enough samples show it was more often wrong than right |
| MarketStats.OddsAreADistribution | src/company_event_monitor/market.py:506-509 | the exact probabilities sum to one and none is below seven percent |
| MarketStats.ShownOddsAreBounded | src/company_event_monitor/market.py:506-529 | each shown probability is at least seven percent, and the neutral one between twenty and thirty-eight |
| MarketStats.ShownOddsSumToOneIff | src/company_event_monitor/market.py:506-529 | the shown probabilities sum to 1, 0.9999 or 1.0001, each exactly under a condition on how many are rounded up |
| MarketStats.ShownOddsMayMissOne | src/company_event_monitor/market.py:506-529 | scores for which they sum to 1.0001 and to 0.9999 |
| MarketStats.ConfidenceIsCapped | src/company_event_monitor/market.py:518-522 | the confidence is between a quarter and four fifths, so the cap of 0.85 is never reached; its exact dependence on history, reliability and the distance of the signals |
| SourceMerge.MergeItems | src/company_event_monitor/querying.py:1011-1022 | the dictionary loop computes the merge |
| SourceMerge.MergeIsIncremental | src/company_event_monitor/querying.py:438-441 | merging what was merged before with more documents equals merging everything |
| SourceMerge.MergeIffDescribed | src/company_event_monitor/querying.py:1011-1022 | the merge is the one list of keys in first-seen order, each represented by its first item of maximal priority |
| SourceMerge.FirstSeenIsOrdered | src/company_event_monitor/querying.py:1011-1022 | keys appear in the order in which they are first seen |
| SourceMerge.RepeatsDoNotMatter | src/company_event_monitor/querying.py:636-639 | removing repeated downloads of equal documents does not change the merge |
| SourceMerge.LatestDownloadWins | src/company_event_monitor/querying.py:636-639 | of the downloads with one source and id the last is kept |
| SourceMerge.BetterSourceWins | src/company_event_monitor/querying.py:1011-1022 | a document of a stock exchange takes the place of any other, one of Cninfo that of a third party, and no other replacement happens |
| SourceMerge.FetchAndRetry | src/company_event_monitor/querying.py:435-441 | fetching, merging and merging again with the failed documents equals one merge of everything |
| SourceMerge.DeduplicateIffDescribed | src/company_event_monitor/querying.py:1025-1048 | the result is the one list of the first best rows of each event, in descending order of value and date, ties in first-seen order |
| SourceMerge.GraverChangeWins | src/company_event_monitor/querying.py:1025-1043 | between rows of one event the graver change wins in the order repeat, update, new, reversal, escalation, conflict, unknown kinds below all; equal kinds compare by value |
| SourceMerge.RankingIsUnique | src/company_event_monitor/querying.py:1044-1048 | descending order and the order of ties leave one arrangement |

## Left out

- HTTP, WebSocket, signing, JSON text, SQL dialects, locking and threads: calls are atomic, and the control switch may change between them.
- The contents of `order_events`, raw responses and average prices, which the gateway collects for the audit; the journal of the model takes their place.
- `planned_order_events`, `_legacy_cancel_remote_entry_orders` after its early return, the paper gateway and the dashboard, command line and reports.
- The fallback of `_open_ordinary_orders` for clients that cannot list all symbols at once.
- Trimming, upper-casing and the parsing of timestamps: texts are given in canonical form and times are integers. Stored ISO texts with and without
  microseconds do not sort like the times they denote; the queries of the model compare times.
- Ledger.AuditRepository.ValidateOrderTrace: `require_outcome` is not modelled; which codes are reported is exact, the order of the list is not stated.
- AuditRules.SemanticErrors: which codes are reported is exact, the order of the list is not stated.
- RestReconcile.Reconcile: the alphabetical order of the issues is not stated.
- The ledger tables for account snapshots, strategy specifications, backtests, shadow results, promotions, fee conversions, counterfactual outcomes and
  accounting attributions; with them the funding half of `authoritative_accounting_totals`.
- FillMerge.ApprovalRuntime.OnTradeEvent: the reconciliation that a stream failure triggers is not nested; it is another observation of the run. Trades with a negative id are named by their marker text.
- The algo-order half of `handle_stream_event` and the fold of `reconcile` that rebuilds child and protective states from event payloads.
- Approval.ApprovalService.ForceClose: one position of `emergency_close_all`; its trigger, the cancellation before it and the loop over positions are not modelled, and of `protective_stop_close` the check that the stop was crossed is not. Account snapshots written after execution are a possible failure only.
- Theses.UnfilledAddIsNotCounted: the risk engine, which asks an add for a profit of one initial risk, may answer anything in the model.
- `validate_decision` and the rules of the hard risk engine: both may answer anything in the model.
- MarketStats.ForecastIsOrdered: the regime text is not modelled and the backtest may have any result; rounding is to the nearest decimal of the exact value, half to even.
- Title normalization and keyword scores are arbitrary functions; company summaries and model calls are not modelled.
- Binary floating point: not-a-number, infinities and rounding errors do not exist in the model, and neither do the checks for them.
