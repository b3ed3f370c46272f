/**
 * OtStock's `pricing`: a stock position revalued under a price scenario. It clears its
 * three buffers, computes the NPV by the scenario rule, and writes it as the Basel 2 delta
 * (calType 2) or the Basel 3 sensitivity (calType 3). Every calType is accepted; only 2 and
 * 3 write anything after the clearing. Floating-point `pow` is the oracle `pow`.
 */
module OtStock {
  import opened ResultBuffer

  /**
   * The scenario rule: scenCalcu 1 scales the amount by the price ratio raised to beta,
   * scenCalcu 2 by the plain price ratio, any other value keeps the amount.
   */
  function StockNpv(pow: (real, real) -> real, amount: real, price: real, basePrice: real, beta: real, scenCalcu: int): (npv: real)
    requires scenCalcu == 1 || scenCalcu == 2 ==> basePrice != 0.0
    ensures scenCalcu == 2 ==> npv * basePrice == amount * price
    ensures scenCalcu != 1 && scenCalcu != 2 ==> npv == amount
  {
    if scenCalcu == 1 then amount * pow(price / basePrice, beta)
    else if scenCalcu == 2 then amount * (price / basePrice)
    else amount
  }

  /** With beta 1 the beta scenario is the plain price-ratio scenario, for any pow with x^1 = x. */
  lemma BetaOneIsPriceRatio(pow: (real, real) -> real, amount: real, price: real, basePrice: real)
    requires basePrice != 0.0 && forall x :: pow(x, 1.0) == x
    ensures StockNpv(pow, amount, price, basePrice, 1.0, 1) == StockNpv(pow, amount, price, basePrice, 1.0, 2)
  {
    assert pow(price / basePrice, 1.0) == price / basePrice;
  }

  /** At the base price no scenario moves the position, for any pow with 1^b = 1. */
  lemma BasePriceKeepsAmount(pow: (real, real) -> real, amount: real, basePrice: real, beta: real, scenCalcu: int)
    requires basePrice != 0.0 && forall b :: pow(1.0, b) == 1.0
    ensures StockNpv(pow, amount, basePrice, basePrice, beta, scenCalcu) == amount
  {
    assert basePrice / basePrice == 1.0;
    assert pow(basePrice / basePrice, beta) == 1.0;
  }

  /** The Basel 2 record of calType 2: the NPV as delta, and zero gamma, vega, theta, rho and PV01. */
  function StockBasel2(npv: real): (r: seq<real>)
    ensures |r| == 6 && r[0] == npv && forall i :: 1 <= i < 6 ==> r[i] == 0.0
  {
    [npv, 0.0, 0.0, 0.0, 0.0, 0.0]
  }

  /**
   * `pricing`. The arithmetic cannot throw, so the -999 of the catch block is never
   * returned: the result is the NPV for every calType. The cash-flow buffer is only cleared.
   */
  method Pricing(pow: (real, real) -> real, amount: real, price: real, basePrice: real, beta: real,
                 calType: int, scenCalcu: int,
                 resultBasel2: array<real>, resultBasel3: array<real>, resultCashflow: array<real>)
    returns (npvOrError: real)
    requires resultBasel2 != resultBasel3 && resultBasel2 != resultCashflow && resultBasel3 != resultCashflow
    requires resultBasel2.Length >= 6 && resultBasel3.Length >= 1 && resultCashflow.Length >= 1
    requires scenCalcu == 1 || scenCalcu == 2 ==> basePrice != 0.0
    modifies resultBasel2, resultBasel3, resultCashflow
    ensures npvOrError == StockNpv(pow, amount, price, basePrice, beta, scenCalcu)
    ensures resultBasel2[..] == Overwrite(Cleared(old(resultBasel2[..]), 6),
      if calType == 2 then StockBasel2(npvOrError) else [])
    ensures resultBasel3[..] == Overwrite(Cleared(old(resultBasel3[..]), 1), if calType == 3 then [npvOrError] else [])
    ensures resultCashflow[..] == Cleared(old(resultCashflow[..]), 1)
  {
    InitResult(resultBasel2, 6);
    InitResult(resultBasel3, 1);
    InitResult(resultCashflow, 1);
    var npv;
    if scenCalcu == 1 {
      npv := amount * pow(price / basePrice, beta);
    } else if scenCalcu == 2 {
      npv := amount * (price / basePrice);
    } else {
      npv := amount;
    }
    if calType == 2 {
      WriteValues(resultBasel2, [npv, 0.0, 0.0, 0.0, 0.0, 0.0]);
    }
    if calType == 3 {
      resultBasel3[0] := npv;
    }
    npvOrError := npv;
  }
}
