/**
 * The trade decision of the trading service: validate the analysis, cancel
 * an unfilled latest order, then turn the signal, balances and prices into
 * at most one order. The broker's answers (latest order, balance, market
 * price, last buy price) are inputs and the broker calls made are the
 * result, in order.
 */
module Trading {
  import opened Wrappers
  import Signals

  datatype Side = BuySide | SellSide

  /** A broker call that changes something at the exchange. */
  datatype BrokerAction =
    | CancelOrder(orderId: string, orderType: string)
    | CreateOrder(side: Side, price: real, amount: real)

  /**
   * The fields of the analysis `executeTrade` reads; `None` where the field
   * is missing (or, for the score, not a number).
   */
  datatype AnalysisFields = AnalysisFields(signal: Option<string>, sentiment: Option<string>, scoreSignal: Option<real>)

  /** The latest order id (`""` when the exchange reports none) with its status and type. */
  datatype LatestOrder = LatestOrder(orderId: string, status: string, orderType: string)

  datatype Balance = Balance(idr: real, btc: real)

  /** The validation guard: a known signal, a known sentiment, and a numeric score in [1, 100]. */
  predicate ValidAnalysis(analysis: Option<AnalysisFields>)
    ensures analysis.None? ==> !ValidAnalysis(analysis)
    ensures ValidAnalysis(analysis) ==>
      && analysis.Some? && analysis.value.signal.Some? && analysis.value.scoreSignal.Some?
      && analysis.value.signal.value in {Signals.SignalText(Signals.Buy), Signals.SignalText(Signals.Sell), Signals.SignalText(Signals.Hold)}
      && 1.0 <= analysis.value.scoreSignal.value <= 100.0
  {
    && analysis.Some?
    && analysis.value.signal.Some? && analysis.value.signal.value in ["BUY", "SELL", "HOLD"]
    && analysis.value.sentiment.Some? && analysis.value.sentiment.value in ["positif", "negative"]
    && analysis.value.scoreSignal.Some?
    && 1.0 <= analysis.value.scoreSignal.value <= 100.0
  }

  /** 0 without BTC, otherwise the percentage change from the last buy price to the current price. */
  function ProfitLossPercentage(balance: Balance, currentPrice: real, buyPrice: real): (pl: real)
    requires balance.btc > 0.0 ==> buyPrice != 0.0
    ensures balance.btc <= 0.0 ==> pl == 0.0
    ensures balance.btc > 0.0 ==> pl * buyPrice == (currentPrice - buyPrice) * 100.0
  {
    if balance.btc > 0.0 then ((currentPrice - buyPrice) / buyPrice) * 100.0 else 0.0
  }

  /** For a positive buy price: the loss exceeds 3% exactly when the price fell below 97% of it. */
  lemma LossThresholdInPrices(balance: Balance, currentPrice: real, buyPrice: real)
    requires balance.btc > 0.0 && buyPrice > 0.0
    ensures ProfitLossPercentage(balance, currentPrice, buyPrice) < -3.0 <==> currentPrice < 0.97 * buyPrice
    ensures ProfitLossPercentage(balance, currentPrice, buyPrice) > 2.0 <==> currentPrice > 1.02 * buyPrice
  {
    var pl := ProfitLossPercentage(balance, currentPrice, buyPrice);
    var target := (currentPrice - buyPrice) * 100.0;
    assert pl * buyPrice == target;
    CompareQuotient(pl, buyPrice, -3.0);
    CompareQuotient(pl, buyPrice, 2.0);
    assert pl < -3.0 <==> target < -3.0 * buyPrice;
    assert pl > 2.0 <==> target > 2.0 * buyPrice;
    assert target < -3.0 * buyPrice <==> currentPrice < 0.97 * buyPrice;
    assert target > 2.0 * buyPrice <==> currentPrice > 1.02 * buyPrice;
  }

  /** For b > 0: p < t exactly when p * b < t * b, and likewise for >. */
  lemma CompareQuotient(p: real, b: real, t: real)
    requires b > 0.0
    ensures p < t <==> p * b < t * b
    ensures p > t <==> p * b > t * b
  {
    if p < t {
      assert (t - p) * b > 0.0;
    } else if p > t {
      assert (p - t) * b > 0.0;
    }
  }

  /** The cancellation: only a latest order that exists and is not filled. */
  function CancelStep(latest: LatestOrder): (actions: seq<BrokerAction>)
    ensures |actions| <= 1
    ensures |actions| == 1 <==> latest.orderId != "" && latest.status != "filled"
    ensures |actions| == 1 ==> actions[0] == CancelOrder(latest.orderId, latest.orderType)
  {
    if latest.orderId != "" && latest.status != "filled" then [CancelOrder(latest.orderId, latest.orderType)] else []
  }

  /** The buy / sell / hold branch: the order it places, if any. */
  function Decide(signal: string, balance: Balance, currentPrice: real, buyPrice: real): (orders: seq<BrokerAction>)
    requires currentPrice != 0.0
    requires balance.btc > 0.0 ==> buyPrice != 0.0
    ensures |orders| <= 1 && forall a :: a in orders ==> a.CreateOrder? && a.price == currentPrice
    ensures signal != "BUY" && signal != "SELL" ==> orders == []
  {
    if signal == "BUY" then
      if balance.idr > 0.0 then
        var amount := balance.idr / currentPrice;
        if amount > 0.0 then [CreateOrder(BuySide, currentPrice, amount)] else []
      else []
    else if signal == "SELL" then
      var pl := ProfitLossPercentage(balance, currentPrice, buyPrice);
      if balance.btc > 0.0 && pl < -3.0 then [CreateOrder(SellSide, currentPrice, balance.btc)]
      else if balance.btc > 0.0 && pl > 2.0 then [CreateOrder(SellSide, currentPrice, balance.btc)]
      else []
    else []
  }

  /**
   * `executeTrade`: nothing at all for an invalid analysis; otherwise the
   * cancellation of an unfilled latest order, then the decided order.
   */
  function ExecuteTrade(analysis: Option<AnalysisFields>, latest: LatestOrder, balance: Balance,
                        currentPrice: real, buyPrice: real): (actions: seq<BrokerAction>)
    requires currentPrice != 0.0
    requires balance.btc > 0.0 ==> buyPrice != 0.0
    ensures !ValidAnalysis(analysis) ==> actions == []
    ensures |actions| <= 2
    ensures forall i :: 0 <= i < |actions| && actions[i].CancelOrder? ==> i == 0
    ensures forall i, j :: 0 <= i < j < |actions| ==> actions[i].CancelOrder? && actions[j].CreateOrder?
  {
    if !ValidAnalysis(analysis) then []
    else CancelStep(latest) + Decide(analysis.value.signal.value, balance, currentPrice, buyPrice)
  }

  /** The broker calls `executeTrade` makes after validation, in order; any of them may throw. */
  datatype BrokerCall =
    | LatestOrderQuery  // getLatestOrderId
    | OrderQuery        // getOrder, only when there is a latest order
    | CancelCall        // cancelOrder, only when that order is not filled
    | BalanceQuery      // getBalance
    | PriceQuery        // getPriceBTCIndodax
    | BuyPriceQuery     // getBuyPrice, only when there is BTC
    | CreateCall        // createOrder, only when the decision places an order

  /**
   * `executeTrade` when the broker call `failing` throws (`None`: no call
   * throws). The catch block swallows the error, so the calls that changed
   * something are exactly those completed before the failing one; a call
   * that is never reached cannot fail.
   */
  function ExecuteTradeUntil(analysis: Option<AnalysisFields>, latest: LatestOrder, balance: Balance,
                             currentPrice: real, buyPrice: real, failing: Option<BrokerCall>): (actions: seq<BrokerAction>)
    requires currentPrice != 0.0
    requires balance.btc > 0.0 ==> buyPrice != 0.0
    ensures actions <= ExecuteTrade(analysis, latest, balance, currentPrice, buyPrice)
    ensures failing.None? ==> actions == ExecuteTrade(analysis, latest, balance, currentPrice, buyPrice)
    ensures failing == Some(LatestOrderQuery) ==> actions == []
  {
    if !ValidAnalysis(analysis) then []
    else
      var cancel := CancelStep(latest);
      var decided := Decide(analysis.value.signal.value, balance, currentPrice, buyPrice);
      match failing
      case None => cancel + decided
      case Some(LatestOrderQuery) => []
      case Some(OrderQuery) => if latest.orderId != "" then [] else cancel + decided
      case Some(CancelCall) => if cancel != [] then [] else cancel + decided
      case Some(BalanceQuery) => cancel
      case Some(PriceQuery) => cancel
      case Some(BuyPriceQuery) => if balance.btc > 0.0 then cancel else cancel + decided
      case Some(CreateCall) => cancel
  }

  /** The orders among the actions. */
  function Orders(actions: seq<BrokerAction>): (orders: seq<BrokerAction>)
    ensures |orders| <= |actions|
    ensures forall a :: a in orders <==> a in actions && a.CreateOrder?
  {
    if actions == [] then []
    else Orders(actions[..|actions| - 1]) + (if actions[|actions| - 1].CreateOrder? then [actions[|actions| - 1]] else [])
  }

  lemma OrdersAppend(a: seq<BrokerAction>, b: seq<BrokerAction>)
    ensures Orders(a + b) == Orders(a) + Orders(b)
    decreases |b|
  {
    if b == [] {
      assert a + b == a;
    } else {
      assert (a + b)[..|a + b| - 1] == a + b[..|b| - 1];
      OrdersAppend(a, b[..|b| - 1]);
    }
  }

  /** The orders a valid analysis leads to are those of the decision alone; the cancellation adds none. */
  lemma {:induction false} OrdersOfValidTrade(analysis: Option<AnalysisFields>, latest: LatestOrder, balance: Balance,
                                              currentPrice: real, buyPrice: real)
    requires currentPrice != 0.0
    requires balance.btc > 0.0 ==> buyPrice != 0.0
    requires ValidAnalysis(analysis)
    ensures Orders(ExecuteTrade(analysis, latest, balance, currentPrice, buyPrice))
         == Decide(analysis.value.signal.value, balance, currentPrice, buyPrice)
  {
    var c := CancelStep(latest);
    var d := Decide(analysis.value.signal.value, balance, currentPrice, buyPrice);
    OrdersAppend(c, d);
    if c != [] {
      assert c[..0] == [];
      assert Orders(c) == [];
    }
    if d != [] {
      assert d[..0] == [];
      assert Orders(d) == d;
    }
  }

  /** Every call places at most one order, whatever the inputs. */
  lemma AtMostOneOrder(analysis: Option<AnalysisFields>, latest: LatestOrder, balance: Balance,
                       currentPrice: real, buyPrice: real)
    requires currentPrice != 0.0
    requires balance.btc > 0.0 ==> buyPrice != 0.0
    ensures |Orders(ExecuteTrade(analysis, latest, balance, currentPrice, buyPrice))| <= 1
  {
    if ValidAnalysis(analysis) {
      OrdersOfValidTrade(analysis, latest, balance, currentPrice, buyPrice);
    }
  }

  /**
   * A broker failure only cuts the run short: still at most one order, and
   * a cancellation only as the first call.
   */
  lemma {:induction false} FailureKeepsOrderRules(analysis: Option<AnalysisFields>, latest: LatestOrder, balance: Balance,
                                                  currentPrice: real, buyPrice: real, failing: Option<BrokerCall>)
    requires currentPrice != 0.0
    requires balance.btc > 0.0 ==> buyPrice != 0.0
    ensures var actions := ExecuteTradeUntil(analysis, latest, balance, currentPrice, buyPrice, failing);
      && |Orders(actions)| <= 1
      && (forall i :: 0 <= i < |actions| && actions[i].CancelOrder? ==> i == 0)
  {
    var actions := ExecuteTradeUntil(analysis, latest, balance, currentPrice, buyPrice, failing);
    var full := ExecuteTrade(analysis, latest, balance, currentPrice, buyPrice);
    assert full == actions + full[|actions|..];
    OrdersAppend(actions, full[|actions|..]);
    AtMostOneOrder(analysis, latest, balance, currentPrice, buyPrice);
  }

  /** A failure after the cancellation (here reading the balance) leaves the cancellation as the only call made. */
  lemma CancelSurvivesLaterFailure(analysis: Option<AnalysisFields>, latest: LatestOrder, balance: Balance,
                                   currentPrice: real, buyPrice: real)
    requires currentPrice != 0.0
    requires balance.btc > 0.0 ==> buyPrice != 0.0
    requires ValidAnalysis(analysis) && latest.orderId != "" && latest.status != "filled"
    ensures ExecuteTradeUntil(analysis, latest, balance, currentPrice, buyPrice, Some(BalanceQuery))
         == [CancelOrder(latest.orderId, latest.orderType)]
  {
  }

  /** A positive quotient of a positive dividend has a positive divisor, and conversely. */
  lemma QuotientPositive(a: real, b: real)
    requires a > 0.0 && b != 0.0
    ensures a / b > 0.0 <==> b > 0.0
  {
    assert a / b * b == a;
  }

  /**
   * On BUY, an order is placed exactly when there is IDR and the price is
   * positive, and it spends the whole IDR balance at the current price.
   */
  lemma BuyOrderExactly(balance: Balance, currentPrice: real, buyPrice: real)
    requires currentPrice != 0.0
    requires balance.btc > 0.0 ==> buyPrice != 0.0
    ensures var orders := Decide("BUY", balance, currentPrice, buyPrice);
      && (orders != [] <==> balance.idr > 0.0 && currentPrice > 0.0)
      && (orders != [] ==> orders == [CreateOrder(BuySide, currentPrice, balance.idr / currentPrice)]
                           && orders[0].amount * currentPrice == balance.idr)
  {
    if balance.idr > 0.0 {
      QuotientPositive(balance.idr, currentPrice);
    }
  }

  /**
   * On SELL with a positive last buy price, the whole BTC balance is sold
   * exactly when there is BTC and the price has left the band from 97% to
   * 102% of the buy price.
   */
  lemma SellOrderExactly(balance: Balance, currentPrice: real, buyPrice: real)
    requires currentPrice != 0.0 && buyPrice > 0.0
    ensures var orders := Decide("SELL", balance, currentPrice, buyPrice);
      && (orders != [] <==>
            balance.btc > 0.0 && (currentPrice < 0.97 * buyPrice || currentPrice > 1.02 * buyPrice))
      && (orders != [] ==> orders == [CreateOrder(SellSide, currentPrice, balance.btc)])
  {
    if balance.btc > 0.0 {
      LossThresholdInPrices(balance, currentPrice, buyPrice);
    }
  }

  /** HOLD, or a valid analysis with any signal other than BUY and SELL, places no order. */
  lemma HoldNeverOrders(analysis: Option<AnalysisFields>, latest: LatestOrder, balance: Balance,
                        currentPrice: real, buyPrice: real)
    requires currentPrice != 0.0
    requires balance.btc > 0.0 ==> buyPrice != 0.0
    requires ValidAnalysis(analysis) && analysis.value.signal.value == "HOLD"
    ensures Orders(ExecuteTrade(analysis, latest, balance, currentPrice, buyPrice)) == []
    ensures ExecuteTrade(analysis, latest, balance, currentPrice, buyPrice) == CancelStep(latest)
  {
    OrdersOfValidTrade(analysis, latest, balance, currentPrice, buyPrice);
  }

  /**
   * After a valid analysis, the latest order is cancelled exactly when it
   * exists and is not filled, and the cancellation comes before any order.
   */
  lemma CancelOnlyUnfilled(analysis: Option<AnalysisFields>, latest: LatestOrder, balance: Balance,
                           currentPrice: real, buyPrice: real)
    requires currentPrice != 0.0
    requires balance.btc > 0.0 ==> buyPrice != 0.0
    requires ValidAnalysis(analysis)
    ensures var actions := ExecuteTrade(analysis, latest, balance, currentPrice, buyPrice);
      (CancelOrder(latest.orderId, latest.orderType) in actions <==> latest.orderId != "" && latest.status != "filled")
  {
  }
}
