/** Vocabulary shared by the execution gateway, the ledger and the coordinator. */
module Trading {
  datatype Option<+T> = None | Some(value: T)

  datatype Result<+T> = Ok(value: T) | Err(reason: string)

  datatype Side = Buy | Sell {
    function Opposite(): Side {
      if this == Buy then Sell else Buy
    }
  }

  datatype Action = Open | Add | Hold | Reduce | Close | Reject

  /** `ExecutionIntent`. A missing side is possible: the risk engine's result type allows it. */
  datatype Intent = Intent(
    action: Action, symbol: string, side: Option<Side>, quantity: real, reduceOnly: bool,
    stopPrice: Option<real>)

  /** Quantities at or below this are treated as zero by the gateway and the ledger checks. */
  const DUST: real := 0.000000000001

  function Max(a: real, b: real): real { if a < b then b else a }

  function Min(a: real, b: real): real { if a < b then a else b }

  function Abs(a: real): real { if a < 0.0 then -a else a }

  // Two steps of nonlinear arithmetic

  lemma Scale(a: real, b: real, factor: real)
    requires a <= b && factor >= 0.0
    ensures a * factor <= b * factor
  {
  }

  lemma OneMore(n: real, t: real)
    ensures (n + 1.0) * t == n * t + t
  {
  }
}
