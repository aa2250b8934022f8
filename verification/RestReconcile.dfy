/** `reconcile_rest_snapshot`: the remote orders and positions against a local projection. */
module RestReconcile {
  import opened Trading

  datatype Position = Position(symbol: string, quantity: real)

  datatype Snapshot = Snapshot(openIds: seq<string>, positions: seq<Position>)

  datatype Issue =
    | MissingOrder(id: string)
    | UnexpectedOrder(id: string)
    | PositionMismatch(symbol: string, expected: real, actual: real)

  /** The net position of a symbol: long and short legs add up, and no leg means zero. */
  function Net(positions: seq<Position>, symbol: string): real {
    if positions == [] then 0.0
    else
      var last := positions[|positions| - 1];
      Net(positions[..|positions| - 1], symbol) + if last.symbol == symbol then last.quantity else 0.0
  }

  function Wanted(expected: map<string, real>, symbol: string): real {
    if symbol in expected then expected[symbol] else 0.0
  }

  /** The issues that ought to be reported. */
  ghost predicate Reported(snapshot: Snapshot, ids: Option<set<string>>, expected: Option<map<string, real>>, issue: Issue) {
    match issue
    case MissingOrder(id) => ids.Some? && id in ids.value && id !in snapshot.openIds
    case UnexpectedOrder(id) => ids.Some? && id in snapshot.openIds && id !in ids.value
    case PositionMismatch(symbol, want, have) =>
      && expected.Some?
      && want == Wanted(expected.value, symbol)
      && have == Net(snapshot.positions, symbol)
      && want != have
  }

  ghost predicate NoRepeats(issues: seq<Issue>) {
    forall i, k :: 0 <= i < k < |issues| ==> issues[i] != issues[k]
  }

  lemma NoRepeatsAcross(first: seq<Issue>, second: seq<Issue>)
    requires NoRepeats(first) && NoRepeats(second)
    requires forall issue :: issue in first ==> issue !in second
    ensures NoRepeats(first + second)
  {
    var all := first + second;
    forall i, k | 0 <= i < k < |all|
      ensures all[i] != all[k]
    {
      if i < |first| <= k {
        assert all[i] in first && all[k] in second;
      }
    }
  }

  /** The lists are walked in an order of the symbols; the order itself plays no part. */
  method Listed(symbols: set<string>) returns (list: seq<string>)
    ensures forall s :: s in list <==> s in symbols
    ensures forall i, k :: 0 <= i < k < |list| ==> list[i] != list[k]
  {
    list := [];
    var left := symbols;
    while left != {}
      invariant left <= symbols
      invariant forall s :: s in list <==> s in symbols - left
      invariant forall i, k :: 0 <= i < k < |list| ==> list[i] != list[k]
      decreases left
    {
      var s :| s in left;
      assert forall t :: t in list + [s] <==> t in list || t == s;
      list, left := list + [s], left - {s};
    }
  }

  method NetPositions(positions: seq<Position>) returns (net: map<string, real>)
    ensures forall s :: s in net <==> exists k :: 0 <= k < |positions| && positions[k].symbol == s
    ensures forall s :: Wanted(net, s) == Net(positions, s)
  {
    net := map[];
    for k := 0 to |positions|
      invariant forall s :: s in net <==> exists i :: 0 <= i < k && positions[i].symbol == s
      invariant forall s :: Wanted(net, s) == Net(positions[..k], s)
    {
      assert positions[..k + 1][..k] == positions[..k];
      var p := positions[k];
      net := net[p.symbol := Wanted(net, p.symbol) + p.quantity];
    }
    assert positions[..|positions|] == positions;
  }

  /** Appends one kind of issue for each listed name that passes the test; `made` gives the issue. */
  method ReportOrders(list: seq<string>, other: seq<string>, make: string -> Issue) returns (issues: seq<Issue>)
    requires forall i, k :: 0 <= i < k < |list| ==> list[i] != list[k]
    requires forall a, b :: make(a) == make(b) ==> a == b
    ensures forall issue :: issue in issues <==> exists id :: id in list && id !in other && issue == make(id)
    ensures NoRepeats(issues)
  {
    issues := [];
    for n := 0 to |list|
      invariant forall issue :: issue in issues <==> exists i :: 0 <= i < n && list[i] !in other && issue == make(list[i])
      invariant NoRepeats(issues)
    {
      if list[n] !in other {
        assert make(list[n]) !in issues;
        issues := issues + [make(list[n])];
      }
    }
  }

  method ReportPositions(list: seq<string>, expected: map<string, real>, actual: map<string, real>)
    returns (issues: seq<Issue>)
    requires forall i, k :: 0 <= i < k < |list| ==> list[i] != list[k]
    ensures forall issue :: issue in issues <==>
              && issue.PositionMismatch? && issue.symbol in list
              && issue.expected == Wanted(expected, issue.symbol)
              && issue.actual == Wanted(actual, issue.symbol)
              && issue.expected != issue.actual
    ensures NoRepeats(issues)
  {
    issues := [];
    for n := 0 to |list|
      invariant forall issue :: issue in issues <==>
                  && issue.PositionMismatch? && issue.symbol in list[..n]
                  && issue.expected == Wanted(expected, issue.symbol)
                  && issue.actual == Wanted(actual, issue.symbol)
                  && issue.expected != issue.actual
      invariant NoRepeats(issues)
    {
      assert list[..n + 1] == list[..n] + [list[n]];
      var want, have := Wanted(expected, list[n]), Wanted(actual, list[n]);
      if want != have {
        issues := issues + [PositionMismatch(list[n], want, have)];
      }
    }
    assert list[..|list|] == list;
  }

  method ReconcileOrders(snapshot: Snapshot, ids: set<string>) returns (issues: seq<Issue>)
    ensures forall issue :: issue in issues <==> !issue.PositionMismatch? && Reported(snapshot, Some(ids), None, issue)
    ensures NoRepeats(issues)
  {
    var actual := set id | id in snapshot.openIds;
    var wanted := Listed(ids);
    var present := Listed(actual);
    var missing := ReportOrders(wanted, present, (id: string) => MissingOrder(id));
    var unexpected := ReportOrders(present, wanted, (id: string) => UnexpectedOrder(id));
    issues := missing + unexpected;
    NoRepeatsAcross(missing, unexpected);
  }

  /** Both halves are optional, as in the source: an absent expectation is not compared. */
  method Reconcile(snapshot: Snapshot, ids: Option<set<string>>, expected: Option<map<string, real>>)
    returns (issues: seq<Issue>)
    ensures forall issue :: issue in issues <==> Reported(snapshot, ids, expected, issue)
    ensures NoRepeats(issues)
  {
    issues := [];
    if ids.Some? {
      issues := ReconcileOrders(snapshot, ids.value);
    }
    if expected.Some? {
      var actual := NetPositions(snapshot.positions);
      var symbols := Listed(expected.value.Keys + actual.Keys);
      var mismatches := ReportPositions(symbols, expected.value, actual);
      NoRepeatsAcross(issues, mismatches);
      issues := issues + mismatches;
    }
  }

  /** The snapshot agrees with the projection. */
  ghost predicate Agrees(snapshot: Snapshot, ids: set<string>, expected: map<string, real>) {
    && (forall id :: id in snapshot.openIds <==> id in ids)
    && (forall s :: Net(snapshot.positions, s) == Wanted(expected, s))
  }

  /** With both expectations, the report is empty exactly when the snapshot agrees. */
  lemma SilentIffAgrees(snapshot: Snapshot, ids: set<string>, expected: map<string, real>)
    ensures (forall issue :: !Reported(snapshot, Some(ids), Some(expected), issue)) <==> Agrees(snapshot, ids, expected)
  {
    if forall issue :: !Reported(snapshot, Some(ids), Some(expected), issue) {
      forall id
        ensures id in snapshot.openIds <==> id in ids
      {
        assert !Reported(snapshot, Some(ids), Some(expected), MissingOrder(id));
        assert !Reported(snapshot, Some(ids), Some(expected), UnexpectedOrder(id));
      }
      forall s
        ensures Net(snapshot.positions, s) == Wanted(expected, s)
      {
        assert !Reported(snapshot, Some(ids), Some(expected),
                         PositionMismatch(s, Wanted(expected, s), Net(snapshot.positions, s)));
      }
    }
  }

  /** Each id and each symbol is blamed by at most one issue. */
  lemma OneIssuePerName(snapshot: Snapshot, ids: Option<set<string>>, expected: Option<map<string, real>>, a: Issue, b: Issue)
    requires Reported(snapshot, ids, expected, a) && Reported(snapshot, ids, expected, b)
    requires a.PositionMismatch? == b.PositionMismatch?
    requires if a.PositionMismatch? then a.symbol == b.symbol else a.id == b.id
    ensures a == b
  {
  }
}
