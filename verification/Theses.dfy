/**
 * What `ApprovalTradingService` holds of its positions: one thesis per symbol. Every review appends a successor to the
 * ledger, but an entry's successor is held only once a fill exists, so what is held and what is recorded can part.
 */
module Theses {
  import opened Trading
  import opened AuditRules
  import opened LedgerTables
  import opened Ledger

  /** The thesis the service holds for a symbol. */
  datatype Held = Held(
    id: string, version: int, addCount: nat, entryReason: string, horizon: string, supporting: seq<string>,
    invalidation: seq<string>, pnlR: real)

  const KEEP_PROTECTED := ["position_requires_continuing_deterministic_risk_protection"]

  function FirstOf(a: seq<string>, b: seq<string>, c: seq<string>): seq<string> {
    if a != [] then a else if b != [] then b else c
  }

  /** `_successor_thesis`; the contract class refuses a second add. */
  function Successor(current: Option<Held>, d: Decision, approved: bool, id: string): Result<Option<Held>> {
    if current.Some? then
      var held := current.value;
      var adds := if d.action == Add && approved then held.addCount + 1 else held.addCount;
      if adds > 1 then Err("add_count must be 0 or 1")
      else Ok(Some(Held(id, held.version + 1, adds, if d.thesis != "" then d.thesis else held.entryReason, held.horizon,
                        FirstOf(d.evidenceIds, held.supporting, []),
                        FirstOf(d.invalidation, held.invalidation, KEEP_PROTECTED), held.pnlR)))
    else if d.action != Open || !approved then Ok(None)
    else if d.thesis == "" then Err("entry reason must be non-empty")
    else Ok(Some(Held(id, 1, 0, d.thesis, "240", d.evidenceIds, d.invalidation, 0.0)))
  }

  /**
   * The successor of a held thesis takes over what the decision states and keeps what it leaves out; it always has
   * conditions of invalidation, and the row recorded for it says the same.
   */
  lemma SuccessorSpeaksForDecision(held: Held, c: Candidate, d: Decision, approved: bool, id: string)
    requires held.addCount <= 1 && !(held.addCount == 1 && d.action == Add && approved)
    ensures Successor(Some(held), d, approved, id).Ok? && Successor(Some(held), d, approved, id).value.Some?
    ensures var next := Successor(Some(held), d, approved, id).value.value;
            && next.id == id && next.version == held.version + 1 && next.horizon == held.horizon && next.pnlR == held.pnlR
            && (next.entryReason == held.entryReason || next.entryReason == d.thesis != "")
            && (d.thesis != "" ==> next.entryReason == d.thesis)
            && (d.evidenceIds != [] ==> next.supporting == d.evidenceIds)
            && (d.evidenceIds == [] ==> next.supporting == held.supporting)
            && (d.invalidation != [] ==> next.invalidation == d.invalidation)
            && (d.invalidation == [] && held.invalidation != [] ==> next.invalidation == held.invalidation)
            && (d.invalidation == [] && held.invalidation == [] ==> next.invalidation == KEEP_PROTECTED)
            && next.invalidation == RowOf(c, d, next).invalidation
  {
  }

  /**
   * What one review meant for the thesis of its symbol: `given` is the thesis it was handed, `next` the successor it wrote
   * to the ledger, if it wrote one. A restored thesis is the newest recorded one, with its add used up.
   */
  datatype Turn =
    | Reviewed(symbol: string, given: Option<Held>, d: Decision, approved: bool, next: Option<Held>, sent: bool,
               filled: bool, flat: bool)
    | Restored(symbol: string, held: Held)
  {
    predicate WellFormed() {
      match this
      case Reviewed(_, _, _, _, _, _, _, _) =>
        && (next.Some? ==> Successor(given, d, approved, next.value.id) == Ok(next))
        && (sent ==> approved && next.Some?) && (filled ==> sent)
      case Restored(_, _) => held.addCount == 1
    }

    /** A successor is held at once, an entry's only with a fill; a filled close of the whole position ends the thesis. */
    function After(before: Option<Held>): Option<Held> {
      if Restored? then Some(held)
      else if next.None? || (IsEntry(d.action) && !filled) then before
      else if filled && d.action == Close && flat then None
      else next
    }

    predicate Records() { Reviewed? && next.Some? }

    predicate FillsAdd() { Reviewed? && d.action == Add && filled }

    /** The adds that a thesis begun here counts from the start. */
    function Base(): int {
      if Restored? then 1 else if given.Some? then given.value.addCount else 0
    }

    /** The review was handed the thesis that is held, if one is; nothing is restored over a held thesis. */
    predicate Follows(before: Option<Held>) {
      before.Some? ==> Reviewed? && given.Some? && given.value.addCount == before.value.addCount
    }
  }

  function HeldFrom(turns: seq<Turn>, symbol: string): Option<Held> {
    if turns == [] then None
    else
      var before, last := HeldFrom(turns[..|turns| - 1], symbol), turns[|turns| - 1];
      if last.symbol == symbol then last.After(before) else before
  }

  function HeldIn(theses: map<string, Held>, symbol: string): Option<Held> {
    if symbol in theses then Some(theses[symbol]) else None
  }

  /** The theses held after one more turn. */
  function Stored(theses: map<string, Held>, turn: Turn): map<string, Held> {
    var after := turn.After(HeldIn(theses, turn.symbol));
    if after.Some? then theses[turn.symbol := after.value] else theses - {turn.symbol}
  }

  /** The theses held once the gateway answered for an approved successor. */
  function Activated(theses: map<string, Held>, symbol: string, d: Decision, successor: Held, filled: bool, flat: bool)
    : map<string, Held>
  {
    if !filled then theses
    else if d.action == Close && flat then theses - {symbol}
    else theses[symbol := successor]
  }

  /** Holding a successor when it is proposed and again when it is filled comes to what its turn says. */
  lemma ActivatedIsStored(theses: map<string, Held>, proposed: Turn, turn: Turn)
    requires proposed.Reviewed? && proposed.next.Some? && !proposed.filled
    requires turn.Reviewed? && turn == proposed.(sent := turn.sent, filled := turn.filled, flat := turn.flat)
    ensures Activated(Stored(theses, proposed), turn.symbol, turn.d, turn.next.value, turn.filled, turn.flat)
            == Stored(theses, turn)
  {
    assert turn.symbol !in theses ==> theses - {turn.symbol} == theses;
  }

  ghost predicate AllWellFormed(turns: seq<Turn>) {
    forall k :: 0 <= k < |turns| ==> turns[k].WellFormed()
  }

  ghost predicate Followed(turns: seq<Turn>) {
    forall k :: 0 <= k < |turns| ==> turns[k].Follows(HeldFrom(turns[..k], turns[k].symbol))
  }

  function FilledAdds(turns: seq<Turn>, symbol: string, from: nat): nat {
    if |turns| <= from then 0
    else
      var last := turns[|turns| - 1];
      FilledAdds(turns[..|turns| - 1], symbol, from) + if last.symbol == symbol && last.FillsAdd() then 1 else 0
  }

  /** The thesis held now is held without a break since turn `from`. */
  ghost predicate HeldSince(turns: seq<Turn>, symbol: string, from: nat) {
    && from < |turns| && turns[from].symbol == symbol && HeldAt(turns, from, symbol).None?
    && forall k :: from < k <= |turns| ==> HeldAt(turns, k, symbol).Some?
  }

  function HeldAt(turns: seq<Turn>, k: nat, symbol: string): Option<Held>
    requires k <= |turns|
  {
    HeldFrom(turns[..k], symbol)
  }

  /** The held add count is the number of filled adds, on top of what the thesis began with, and at most one. */
  ghost predicate CountedSince(turns: seq<Turn>, symbol: string, from: nat) {
    && HeldSince(turns, symbol, from) && HeldFrom(turns, symbol).Some?
    && HeldFrom(turns, symbol).value.addCount == turns[from].Base() + FilledAdds(turns, symbol, from) <= 1
  }

  lemma HeldSinceGrows(turns: seq<Turn>, turn: Turn, symbol: string, from: nat)
    requires HeldFrom(turns + [turn], symbol).Some?
    requires if from == |turns| then turn.symbol == symbol && HeldFrom(turns, symbol).None? else HeldSince(turns, symbol, from)
    ensures HeldSince(turns + [turn], symbol, from)
  {
    var more := turns + [turn];
    HeldBefore(turns, turn, from, symbol);
    assert more[..|more|] == more && turns[..|turns|] == turns;
    forall k | from < k <= |more|
      ensures HeldAt(more, k, symbol).Some?
    {
      if k <= |turns| { HeldBefore(turns, turn, k, symbol); }
    }
  }

  lemma HeldBefore(turns: seq<Turn>, turn: Turn, k: nat, symbol: string)
    requires k <= |turns|
    ensures HeldAt(turns + [turn], k, symbol) == HeldAt(turns, k, symbol)
  {
    assert (turns + [turn])[..k] == turns[..k];
  }

  lemma FilledAddsOfPrefix(turns: seq<Turn>, turn: Turn, symbol: string, from: nat)
    ensures from <= |turns| ==>
              FilledAdds(turns + [turn], symbol, from) ==
              FilledAdds(turns, symbol, from) + if turn.symbol == symbol && turn.FillsAdd() then 1 else 0
  {
    assert (turns + [turn])[..|turns|] == turns;
  }

  /** Whoever is handed the held thesis each time finds in it the number of filled adds; an unfilled add is not counted. */
  lemma {:induction false} AddsAreCounted(turns: seq<Turn>, symbol: string)
    requires AllWellFormed(turns) && Followed(turns) && HeldFrom(turns, symbol).Some?
    ensures exists from :: CountedSince(turns, symbol, from)
  {
    var before, last := turns[..|turns| - 1], turns[|turns| - 1];
    assert turns == before + [last];
    FollowedPrefix(before, last);
    if HeldFrom(before, symbol).Some? {
      AddsAreCounted(before, symbol);
      var from :| CountedSince(before, symbol, from);
      OneMoreTurn(before, last, symbol, from);
    } else {
      OneMoreTurn(before, last, symbol, |before|);
    }
  }

  lemma FollowedPrefix(turns: seq<Turn>, turn: Turn)
    requires AllWellFormed(turns + [turn]) && Followed(turns + [turn])
    ensures AllWellFormed(turns) && Followed(turns) && turn.WellFormed() && turn.Follows(HeldFrom(turns, turn.symbol))
  {
    var more := turns + [turn];
    assert more[..|turns|] == turns && more[|turns|] == turn;
    forall k | 0 <= k < |turns|
      ensures turns[k] == more[k] && turns[..k] == more[..k]
    {
    }
  }

  lemma OneMoreTurn(turns: seq<Turn>, turn: Turn, symbol: string, from: nat)
    requires turn.WellFormed() && turn.Follows(HeldFrom(turns, turn.symbol)) && HeldFrom(turns + [turn], symbol).Some?
    requires if HeldFrom(turns, symbol).Some? then CountedSince(turns, symbol, from) else from == |turns|
    ensures CountedSince(turns + [turn], symbol, from)
  {
    assert (turns + [turn])[..|turns|] == turns;
    HeldSinceGrows(turns, turn, symbol, from);
    FilledAddsOfPrefix(turns, turn, symbol, from);
  }

  /** A review keeps that count exactly when the thesis it is handed has as many adds as the held one. */
  lemma CountKeptIff(held: Held, turn: Turn)
    requires turn.WellFormed() && turn.Records() && (IsEntry(turn.d.action) ==> turn.filled)
    ensures turn.next.value.addCount == held.addCount + (if turn.FillsAdd() then 1 else 0) <==> turn.Base() == held.addCount
  {
  }

  /** A caller that hands in a thesis without the add already filled gets a second one filled. */
  lemma SuppliedThesisHidesAnAdd()
    ensures var d := Decision.Decision("d", "t", "c", Open, None, 1.0, 1.0, ["e"], "thesis", ["stop"]);
            var entered := Held("h1", 1, 0, "thesis", "240", ["e"], ["stop"], 0.0);
            var added := entered.(id := "h2", version := 2, addCount := 1);
            var turns := [
              Reviewed("BTCUSDT", None, d, true, Some(entered), true, true, false),
              Reviewed("BTCUSDT", Some(entered), d.(action := Add), true, Some(added), true, true, false),
              Reviewed("BTCUSDT", Some(entered), d.(action := Add), true, Some(added.(id := "h3")), true, true, false)];
            && AllWellFormed(turns) && NeverFalls(turns) && !Followed(turns)
            && HeldFrom(turns, "BTCUSDT") == Some(added.(id := "h3")) && FilledAdds(turns, "BTCUSDT", 0) == 2
  {
    var d := Decision.Decision("d", "t", "c", Open, None, 1.0, 1.0, ["e"], "thesis", ["stop"]);
    var entered := Held("h1", 1, 0, "thesis", "240", ["e"], ["stop"], 0.0);
    var added := entered.(id := "h2", version := 2, addCount := 1);
    var first := Reviewed("BTCUSDT", None, d, true, Some(entered), true, true, false);
    var second := Reviewed("BTCUSDT", Some(entered), d.(action := Add), true, Some(added), true, true, false);
    var third := Reviewed("BTCUSDT", Some(entered), d.(action := Add), true, Some(added.(id := "h3")), true, true, false);
    var turns := [first, second, third];
    assert turns[..0] == [] && turns[..1] == [first] && turns[..2] == [first, second];
    assert HeldFrom([first], "BTCUSDT") == Some(entered) && FilledAdds([first], "BTCUSDT", 0) == 0 by {
      assert [first][..0] == [];
    }
    assert HeldFrom([first, second], "BTCUSDT") == Some(added) && FilledAdds([first, second], "BTCUSDT", 0) == 1 by {
      assert [first, second][..1] == [first];
    }
    assert turns[2] == third && !third.Follows(HeldFrom(turns[..2], "BTCUSDT"));
  }

  // What is recorded

  function PositionOf(symbol: string): string { symbol + ":BOTH" }

  /** The newest recorded add count of a symbol. */
  function RecordedAdds(theses: seq<Thesis>, symbol: string): int {
    var rows := ThesesAt(theses, PositionOf(symbol));
    if rows == [] then 0 else rows[|rows| - 1].addCount
  }

  /** The row `_audit_thesis` appends. */
  function RowOf(c: Candidate, d: Decision, held: Held): Thesis {
    Thesis.Thesis(held.id, c.trace, PositionOf(c.symbol), 0, None, d.id, held.entryReason, held.horizon, held.supporting,
                  FirstOf(held.invalidation, d.invalidation, KEEP_PROTECTED), held.addCount, held.pnlR)
  }

  /** What the ledger asks of a row besides its add count. */
  ghost predicate Presentable(t: Tables, c: Candidate, d: Decision, held: Held) {
    && held.entryReason != "" && held.horizon != "" && held.supporting != []
    && d.id in t.decisions && t.decisions[d.id].trace == c.trace
    && forall k :: 0 <= k < |t.theses| ==> t.theses[k].id != held.id
  }

  /** A successor is recorded exactly when the newest recorded add count is at most its own. */
  lemma RecordedIffNotBehind(t: Tables, c: Candidate, d: Decision, current: Option<Held>, approved: bool, id: string)
    requires Successor(current, d, approved, id).Ok? && Successor(current, d, approved, id).value.Some?
    requires Presentable(t, c, d, Successor(current, d, approved, id).value.value)
    ensures var next := Successor(current, d, approved, id).value.value;
            ThesisAccepted(t, RowOf(c, d, next)) <==> RecordedAdds(t.theses, c.symbol) <= next.addCount
  {
  }

  lemma {:induction false} WhereOfPrefix<T(!new)>(rows: seq<T>, later: seq<T>, keep: T -> bool)
    requires rows <= later
    ensures Where(rows, keep) <= Where(later, keep)
  {
    if |rows| < |later| {
      WhereOfPrefix(rows, later[..|later| - 1], keep);
    } else {
      assert rows == later;
    }
  }

  /** However the ledger grows, the recorded add count never falls. */
  lemma RecordedAddsNeverFall(t: Tables, u: Tables, hash: string -> string, symbol: string)
    requires Extends(t, u) && WellFormed(u, hash)
    ensures RecordedAdds(t.theses, symbol) <= RecordedAdds(u.theses, symbol)
  {
    assert PartOk(ThesisRows, u, hash);
    WhereOfPrefix(t.theses, u.theses, (e: Thesis) => e.position == PositionOf(symbol));
    var rows, later := ThesesAt(t.theses, PositionOf(symbol)), ThesesAt(u.theses, PositionOf(symbol));
    assert ThesisChain(later);
    if rows != [] { assert rows[|rows| - 1] == later[|rows| - 1]; }
  }

  lemma RowRecorded(theses: seq<Thesis>, thesis: Thesis, symbol: string)
    requires thesis.position == PositionOf(symbol)
    ensures RecordedAdds(theses + [thesis], symbol) == thesis.addCount
  {
    ThesisAppended(theses, thesis, PositionOf(symbol));
  }

  /** The turn's row is among those that `after` has beyond `before`. */
  ghost predicate Marks(turn: Turn, before: Tables, after: Tables) {
    turn.Records() ==>
      RecordedAdds(before.theses, turn.symbol) <= turn.next.value.addCount <= RecordedAdds(after.theses, turn.symbol)
  }

  /** No recorded successor is ahead of the ledger. */
  ghost predicate Behind(turns: seq<Turn>, t: Tables) {
    forall k :: 0 <= k < |turns| && turns[k].Records() ==>
      turns[k].next.value.addCount <= RecordedAdds(t.theses, turns[k].symbol)
  }

  lemma BehindLater(turns: seq<Turn>, t: Tables, u: Tables, hash: string -> string)
    requires Behind(turns, t) && Extends(t, u) && WellFormed(u, hash)
    ensures Behind(turns, u)
  {
    forall k | 0 <= k < |turns| && turns[k].Records()
      ensures turns[k].next.value.addCount <= RecordedAdds(u.theses, turns[k].symbol)
    {
      RecordedAddsNeverFall(t, u, hash, turns[k].symbol);
    }
  }

  lemma MarksWithin(turn: Turn, t: Tables, before: Tables, after: Tables, u: Tables, hash: string -> string)
    requires Marks(turn, before, after) && Extends(t, before) && Extends(after, u)
    requires WellFormed(before, hash) && WellFormed(u, hash)
    ensures Marks(turn, t, u)
  {
    RecordedAddsNeverFall(t, before, hash, turn.symbol);
    RecordedAddsNeverFall(after, u, hash, turn.symbol);
  }

  /** The recorded add counts of a symbol never fall from one review to a later one. */
  ghost predicate NeverFalls(turns: seq<Turn>) {
    forall i, k :: 0 <= i < k < |turns| && turns[i].Records() && turns[k].Records() && turns[i].symbol == turns[k].symbol ==>
      turns[i].next.value.addCount <= turns[k].next.value.addCount
  }

  /**
   * Once an approved add is recorded, filled or not, a review that is handed a thesis without an add, or none, is refused
   * by the ledger and reaches the gateway only with another approved add: neither an exit nor a new position goes through.
   */
  lemma RecordedAddLocks(turns: seq<Turn>, i: nat, k: nat)
    requires AllWellFormed(turns) && NeverFalls(turns) && i < k < |turns|
    requires turns[i].Records() && turns[i].next.value.addCount == 1
    requires turns[k].Reviewed? && turns[k].symbol == turns[i].symbol
    requires turns[k].given.Some? ==> turns[k].given.value.addCount == 0
    ensures turns[k].next.Some? || turns[k].sent ==> turns[k].d.action == Add && turns[k].approved
  {
    assert turns[k].WellFormed();
  }

  /** So after an approved add that was not filled, the held thesis is behind the ledger until another add is filled. */
  lemma UnfilledAddLocksPosition(turns: seq<Turn>, i: nat, k: nat)
    requires AllWellFormed(turns) && NeverFalls(turns) && Followed(turns) && i < k < |turns|
    requires turns[i].Records() && turns[i].d.action == Add && turns[i].approved && !turns[i].filled
    requires turns[k].Reviewed? && turns[k].symbol == turns[i].symbol
    requires var held := HeldFrom(turns[..k], turns[k].symbol); held.Some? && held.value.addCount == 0
    ensures turns[k].next.Some? || turns[k].sent ==> turns[k].d.action == Add && turns[k].approved
    ensures turns[i].given.Some? && turns[i].given.value.addCount == 0
  {
    assert turns[i].WellFormed() && turns[k].Follows(HeldFrom(turns[..k], turns[k].symbol));
    RecordedAddLocks(turns, i, k);
  }

  /** Two adds reach the gateway when the first is not filled: it leaves the held thesis, and so the allowance, as it was. */
  lemma UnfilledAddIsNotCounted(turns: seq<Turn>, add: Turn, again: Decision, id: string)
    requires add.WellFormed() && add.Reviewed? && add.d.action == Add && add.sent && again.action == Add
    requires add.given.Some? && HeldFrom(turns, add.symbol) == add.given
    ensures HeldFrom(turns + [add], add.symbol).Some?
    ensures Successor(HeldFrom(turns + [add], add.symbol), again, true, id).Ok? <==> !add.filled
  {
    assert (turns + [add])[..|turns|] == turns;
  }

  /**
   * One such history: a position is opened, an add expires unfilled, a close is refused by the ledger, a second add goes out
   * and is filled. Without the unfilled add the close would have been recorded.
   */
  lemma TwoAddsAndALockedExit()
    ensures var d := Decision.Decision("d", "t", "c", Open, None, 1.0, 1.0, ["e"], "thesis", ["stop"]);
            var entered := Held("h1", 1, 0, "thesis", "240", ["e"], ["stop"], 0.0);
            var added := entered.(id := "h2", version := 2, addCount := 1);
            var turns := [
              Reviewed("BTCUSDT", None, d, true, Some(entered), true, true, false),
              Reviewed("BTCUSDT", Some(entered), d.(action := Add), true, Some(added), true, false, false),
              Reviewed("BTCUSDT", Some(entered), d.(action := Close), true, None, false, false, false),
              Reviewed("BTCUSDT", Some(entered), d.(action := Add), true, Some(added.(id := "h3")), true, true, false)];
            && AllWellFormed(turns) && NeverFalls(turns) && Followed(turns)
            && HeldFrom(turns[..3], "BTCUSDT") == Some(entered) && HeldFrom(turns, "BTCUSDT") == Some(added.(id := "h3"))
            && Successor(Some(entered), d.(action := Close), true, "h4") == Ok(Some(entered.(id := "h4", version := 2)))
  {
    var d := Decision.Decision("d", "t", "c", Open, None, 1.0, 1.0, ["e"], "thesis", ["stop"]);
    var entered := Held("h1", 1, 0, "thesis", "240", ["e"], ["stop"], 0.0);
    var added := entered.(id := "h2", version := 2, addCount := 1);
    var first := Reviewed("BTCUSDT", None, d, true, Some(entered), true, true, false);
    var second := Reviewed("BTCUSDT", Some(entered), d.(action := Add), true, Some(added), true, false, false);
    var third := Reviewed("BTCUSDT", Some(entered), d.(action := Close), true, None, false, false, false);
    var fourth := Reviewed("BTCUSDT", Some(entered), d.(action := Add), true, Some(added.(id := "h3")), true, true, false);
    var turns := [first, second, third, fourth];
    assert turns[..0] == [] && turns[..1] == [first] && turns[..2] == [first, second] && turns[..3] == [first, second, third];
    assert HeldFrom([first], "BTCUSDT") == Some(entered) by { assert [first][..0] == []; }
    assert HeldFrom([first, second], "BTCUSDT") == Some(entered) by { assert [first, second][..1] == [first]; }
    assert HeldFrom([first, second, third], "BTCUSDT") == Some(entered) by {
      assert [first, second, third][..2] == [first, second];
    }
  }
}
