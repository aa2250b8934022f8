/** Exchange filters of one symbol: rounding to the tick and to the lot step. */
module SymbolRules {
  import opened Trading

  datatype Rules = Rules(
    minPrice: Option<real>, maxPrice: Option<real>, tick: Option<real>,
    minQuantity: real, maxQuantity: Option<real>, step: real,
    marketMinQuantity: real, marketMaxQuantity: Option<real>, marketStep: real)
  {
    /** What `from_exchange_symbol` enforces before it builds a rule set. */
    predicate Valid() {
      && step > 0.0 && marketStep > 0.0
      && (tick.Some? ==> tick.value > 0.0)
    }

    function StepFor(market: bool): real { if market then marketStep else step }

    function MinimumFor(market: bool): real { if market then marketMinQuantity else minQuantity }

    function MaximumFor(market: bool): Option<real> { if market then marketMaxQuantity else maxQuantity }

    /** None stands for the BinanceApiError the normalizer raises. */
    function NormalizeQuantity(quantity: real, market: bool): Option<real>
      requires Valid()
    {
      if quantity <= 0.0 then None
      else
        var value := RoundDown(quantity, StepFor(market));
        if value < MinimumFor(market) then None
        else if MaximumFor(market).Some? && value > MaximumFor(market).value then None
        else Some(value)
    }

    function NormalizePrice(price: real): Option<real>
      requires Valid()
    {
      if price <= 0.0 then None
      else
        var value := if tick.Some? then RoundDown(price, tick.value) else price;
        if minPrice.Some? && value < minPrice.value then None
        else if maxPrice.Some? && value > maxPrice.value then None
        else Some(value)
    }
  }

  function RoundDown(value: real, step: real): real
    requires step > 0.0
  {
    (value / step).Floor as real * step
  }

  predicate OnGrid(value: real, step: real)
    requires step > 0.0
  {
    (value / step).Floor as real * step == value
  }

  /** Rounding down never rises, loses less than one step, and leaves a whole number of steps. */
  lemma RoundDownBounds(value: real, step: real)
    requires step > 0.0
    ensures RoundDown(value, step) <= value < RoundDown(value, step) + step
  {
    Quotient(value, step);
    Between(value, step, value / step, (value / step).Floor as real);
  }

  lemma Between(value: real, step: real, ratio: real, whole: real)
    requires step > 0.0 && ratio * step == value && whole <= ratio < whole + 1.0
    ensures whole * step <= value < whole * step + step
  {
    AboveWhole(value, step, ratio, whole);
    BelowNext(value, step, ratio, whole, whole + 1.0 - ratio);
  }

  lemma AboveWhole(value: real, step: real, ratio: real, whole: real)
    requires step > 0.0 && ratio * step == value && ratio >= whole
    ensures whole * step <= value
  {
  }

  lemma BelowNext(value: real, step: real, ratio: real, whole: real, gap: real)
    requires step > 0.0 && ratio * step == value && gap == whole + 1.0 - ratio && gap > 0.0
    ensures value < whole * step + step
  {
    Positive(gap, step);
    Expand(ratio, whole, step, gap);
    assert gap * step > 0.0;
  }

  lemma Positive(a: real, b: real)
    requires a > 0.0 && b > 0.0
    ensures a * b > 0.0
  {
  }

  lemma Expand(ratio: real, whole: real, step: real, gap: real)
    requires gap == whole + 1.0 - ratio
    ensures ratio * step == whole * step + step - gap * step
  {
  }

  lemma Quotient(value: real, step: real)
    requires step > 0.0
    ensures value / step * step == value
  {
  }

  /** A whole multiple of the step is the same multiple after rounding. */
  lemma MultipleIsOnGrid(whole: int, step: real)
    requires step > 0.0
    ensures RoundDown(whole as real * step, step) == whole as real * step
  {
    assert whole as real * step / step == whole as real;
  }

  /** Of all whole multiples of the step not above the value, rounding picks the greatest. */
  lemma RoundDownIsGreatest(value: real, step: real, other: int)
    requires step > 0.0 && other as real * step <= value
    ensures other as real * step <= RoundDown(value, step)
  {
    var whole := (value / step).Floor;
    if other > whole {
      assert other as real >= whole as real + 1.0;
      Scale(whole as real + 1.0, other as real, step);
      RoundDownBounds(value, step);
      OneMore(whole as real, step);
      assert false;
    } else {
      Scale(other as real, whole as real, step);
    }
  }

  /**
   * A quantity accepted once is accepted unchanged the second time. The gateway relies on this:
   * it normalizes the quantity it expects, hands the raw quantity to the client, and the client
   * normalizes again.
   */
  lemma NormalizeQuantityIsStable(rules: Rules, quantity: real, market: bool)
    requires rules.Valid()
    requires rules.NormalizeQuantity(quantity, market).Some?
    ensures var value := rules.NormalizeQuantity(quantity, market).value;
            && value <= quantity < value + rules.StepFor(market)
            && OnGrid(value, rules.StepFor(market))
            && (value > 0.0 ==> rules.NormalizeQuantity(value, market) == Some(value))
  {
    var step := rules.StepFor(market);
    RoundDownBounds(quantity, step);
    var whole := (quantity / step).Floor;
    var value := RoundDown(quantity, step);
    assert value == whole as real * step;
    MultipleIsOnGrid(whole, step);
    assert RoundDown(value, step) == value;
  }

  /** `value` is the greatest whole number of steps not above `raw`. */
  ghost predicate IsFloor(value: real, raw: real, step: real) {
    value <= raw < value + step && exists count: int :: Steps(count, step) == value
  }

  ghost function Steps(count: int, step: real): real { count as real * step }

  lemma FloorIffRoundDown(value: real, raw: real, step: real)
    requires step > 0.0
    ensures IsFloor(value, raw, step) <==> value == RoundDown(raw, step)
  {
    var whole := (raw / step).Floor;
    RoundDownBounds(raw, step);
    assert Steps(whole, step) == RoundDown(raw, step);
    if IsFloor(value, raw, step) {
      var count: int :| Steps(count, step) == value;
      RoundDownIsGreatest(raw, step, count);
      NoStepBetween(count, whole, step, raw);
    }
  }

  lemma NoStepBetween(count: int, whole: int, step: real, raw: real)
    requires step > 0.0 && Steps(whole, step) <= raw < Steps(count, step) + step
    ensures Steps(whole, step) <= Steps(count, step)
  {
    NextStep(count, step);
    if whole > count {
      StepsGrow(count + 1, whole, step);
      assert false;
    } else {
      StepsGrow(whole, count, step);
    }
  }

  lemma StepsGrow(fewer: int, more: int, step: real)
    requires fewer <= more && step > 0.0
    ensures Steps(fewer, step) <= Steps(more, step)
  {
    Scale(fewer as real, more as real, step);
  }

  lemma NextStep(count: int, step: real)
    ensures Steps(count + 1, step) == Steps(count, step) + step
  {
    assert (count + 1) as real == count as real + 1.0;
    OneMore(count as real, step);
  }

  ghost predicate Within(value: real, least: Option<real>, most: Option<real>) {
    (least.Some? ==> least.value <= value) && (most.Some? ==> value <= most.value)
  }

  /** A quantity is accepted as `value` exactly when that is its floor on the lot grid and within the limits of its filter. */
  lemma QuantityAcceptedIff(rules: Rules, quantity: real, market: bool, value: real)
    requires rules.Valid()
    ensures rules.NormalizeQuantity(quantity, market) == Some(value) <==>
              && quantity > 0.0
              && if market then
                   && IsFloor(value, quantity, rules.marketStep)
                   && Within(value, Some(rules.marketMinQuantity), rules.marketMaxQuantity)
                 else
                   IsFloor(value, quantity, rules.step) && Within(value, Some(rules.minQuantity), rules.maxQuantity)
  {
    FloorIffRoundDown(value, quantity, if market then rules.marketStep else rules.step);
  }

  /** A price is accepted as `value` exactly when that is its floor on the tick grid, if there is one, and within the limits. */
  lemma PriceAcceptedIff(rules: Rules, price: real, value: real)
    requires rules.Valid()
    ensures rules.NormalizePrice(price) == Some(value) <==>
              && price > 0.0 && Within(value, rules.minPrice, rules.maxPrice)
              && if rules.tick.Some? then IsFloor(value, price, rules.tick.value) else value == price
  {
    if rules.tick.Some? { FloorIffRoundDown(value, price, rules.tick.value); }
  }
}
