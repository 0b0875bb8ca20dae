/** The exchange office between US dollars and Congolese francs (exchange.rules.ts). */
module Exchange {

  datatype Currency = CDF | USD

  datatype Computed = Computed(toCents: int, gainCdfCents: int)

  /** BigInt division and remainder truncate towards zero. */
  function TruncDiv(a: int, b: int): int
    requires b > 0
  {
    if a >= 0 then a / b else -((-a) / b)
  }

  function TruncMod(a: int, b: int): int
    requires b > 0
  {
    a - b * TruncDiv(a, b)
  }

  /** floorDiv, as corrected by hand from the truncating division. */
  function FloorDiv(a: int, b: int): int
    requires b > 0
  {
    var q := TruncDiv(a, b);
    if TruncMod(a, b) != 0 && a < 0 then q - 1 else q
  }

  lemma FloorDivIsFloor(a: int, b: int)
    requires b > 0
    ensures b * FloorDiv(a, b) <= a < b * FloorDiv(a, b) + b
  {
    if a >= 0 {
      assert a == b * (a / b) + a % b;
    } else {
      assert -a == b * ((-a) / b) + (-a) % b;
      assert b * (-((-a) / b)) == -(b * ((-a) / b));
      assert b * (-((-a) / b) - 1) == -(b * ((-a) / b)) - b;
    }
  }

  lemma Scale(x: int, y: int, z: int)
    requires x >= 0 && y <= z
    ensures x * y <= x * z
  {
  }

  /** A rate in hundredths: CDF for one USD, two decimals. */
  function Rate100(rate: real): int {
    (rate * 100.0 + 0.5).Floor
  }

  /** The two prices of a dollar, in hundredths of CDF. */
  datatype Rates = Rates(buy: int, sell: int) {
    predicate Valid() {
      0 < buy && 0 < sell
    }
  }

  /** computeExchange: whole francs rounded down at the buying rate, cents rounded down at the selling rate. */
  function ComputeExchange(from: Currency, f: int, r: Rates, market: int): Computed
    requires r.Valid()
  {
    if from == USD then
      var to := FloorDiv(f * r.buy, 10000) * 100;
      Computed(to, FloorDiv(f * market - to * 100, 100))
    else
      var to := FloorDiv(f * 100, r.sell);
      Computed(to, FloorDiv(f * 100 - to * market, 100))
  }

  // ------------------------------------------------------------------ sequences of exchanges

  datatype Wallet = Wallet(cdf: int, usd: int)

  datatype Order = Order(from: Currency, cents: nat)

  function Apply(w: Wallet, o: Order, r: Rates, market: int): Wallet
    requires r.Valid()
  {
    var c := ComputeExchange(o.from, o.cents, r, market);
    if o.from == USD then Wallet(w.cdf + c.toCents, w.usd - o.cents) else Wallet(w.cdf - o.cents, w.usd + c.toCents)
  }

  function Run(w: Wallet, os: seq<Order>, r: Rates, market: int): Wallet
    requires r.Valid()
  {
    if os == [] then w else Apply(Run(w, os[..|os| - 1], r, market), os[|os| - 1], r, market)
  }

  /** Sum of the recorded gains, in CDF cents. */
  function Gain(os: seq<Order>, r: Rates, market: int): int
    requires r.Valid()
  {
    if os == [] then 0
    else Gain(os[..|os| - 1], r, market)
         + ComputeExchange(os[|os| - 1].from, os[|os| - 1].cents, r, market).gainCdfCents
  }

  /** Value of a wallet at the rate m, in hundredths of a CDF cent. */
  function Value(w: Wallet, m: int): int {
    100 * w.cdf + w.usd * m
  }

  /** What one exchange costs the client at the rate m, in hundredths of a CDF cent. */
  function Loss(o: Order, r: Rates, m: int): int
    requires r.Valid()
  {
    var to := ComputeExchange(o.from, o.cents, r, m).toCents;
    if o.from == USD then o.cents * m - to * 100 else o.cents * 100 - to * m
  }

  lemma LossIsValueDrop(w: Wallet, o: Order, r: Rates, m: int)
    requires r.Valid()
    ensures Value(w, m) - Value(Apply(w, o, r, m), m) == Loss(o, r, m)
  {
    var to := ComputeExchange(o.from, o.cents, r, m).toCents;
    Distribute(w.usd, o.cents, m);
    Distribute(w.usd, to, m);
  }

  lemma Distribute(x: int, y: int, z: int)
    ensures (x + y) * z == x * z + y * z
    ensures (x - y) * z == x * z - y * z
  {
  }

  /** At any rate between the two prices, no exchange is worth more than it costs. */
  lemma NoLossMaking(o: Order, r: Rates, m: int)
    requires r.Valid() && r.buy <= m <= r.sell
    ensures Loss(o, r, m) >= 0
  {
    if o.from == USD {
      FloorDivIsFloor(o.cents * r.buy, 10000);
      Scale(o.cents, r.buy, m);
    } else {
      var to := FloorDiv(o.cents * 100, r.sell);
      FloorDivIsFloor(o.cents * 100, r.sell);
      if to < 0 {
        Scale(r.sell, to, -1);
      }
      Scale(to, m, r.sell);
      assert to * r.sell == r.sell * to;
    }
  }

  /** The value of a wallet never increases, at every rate between the buying and the selling price. */
  lemma {:induction false} ValueNeverIncreases(w: Wallet, os: seq<Order>, r: Rates, market: int, m: int)
    requires r.Valid() && r.buy <= m <= r.sell
    ensures Value(Run(w, os, r, market), m) <= Value(w, m)
  {
    if os != [] {
      var o := os[|os| - 1];
      var before := Run(w, os[..|os| - 1], r, market);
      ValueNeverIncreases(w, os[..|os| - 1], r, market, m);
      LossIsValueDrop(before, o, r, m);
      NoLossMaking(o, r, m);
    }
  }

  /** At least as much of both currencies, and strictly more of one. */
  predicate Richer(w: Wallet, w': Wallet) {
    w'.cdf >= w.cdf && w'.usd >= w.usd && w' != w
  }

  ghost predicate Arbitrage(r: Rates)
    requires r.Valid()
  {
    exists w, os, market :: Richer(w, Run(w, os, r, market))
  }

  /** Every order is for a positive amount that the wallet holds when it is given. */
  predicate Payable(w: Wallet, os: seq<Order>, r: Rates, market: int)
    requires r.Valid()
  {
    os == [] ||
    var before, o := Run(w, os[..|os| - 1], r, market), os[|os| - 1];
    Payable(w, os[..|os| - 1], r, market) && o.cents > 0 && (if o.from == USD then o.cents <= before.usd else o.cents <= before.cdf)
  }

  ghost predicate PayableArbitrage(r: Rates)
    requires r.Valid()
  {
    exists w, os, market :: Payable(w, os, r, market) && Richer(w, Run(w, os, r, market))
  }

  /** With buy > sell, a client who sells the dollars they hold and buys dollars back ends up with more of them. */
  lemma RoundTripProfit(r: Rates, market: int)
    requires r.Valid() && r.buy > r.sell
    ensures var w, os := Wallet(0, 10000 * r.sell), [Order(USD, 10000 * r.sell), Order(CDF, r.buy * r.sell * 100)];
            Payable(w, os, r, market) && Richer(w, Run(w, os, r, market))
  {
    var o1, o2, w0 := Order(USD, 10000 * r.sell), Order(CDF, r.buy * r.sell * 100), Wallet(0, 10000 * r.sell);
    assert r.buy * r.sell == r.sell * r.buy;
    assert o1.cents * r.buy == 10000 * (r.buy * r.sell);
    ExactFloor(10000, r.buy * r.sell);
    var w1 := Apply(w0, o1, r, market);
    assert w1 == Wallet(r.buy * r.sell * 100, 0);
    assert o2.cents * 100 == r.sell * (r.buy * 10000);
    ExactFloor(r.sell, r.buy * 10000);
    Scale(r.sell, 1, r.buy);
    var w2 := Apply(w1, o2, r, market);
    assert w2 == Wallet(0, 10000 * r.buy);
    assert [o1, o2][..1] == [o1] && [o1][..0] == [];
    assert Run(w0, [o1], r, market) == w1 && Payable(w0, [o1], r, market);
    assert Run(w0, [o1, o2], r, market) == w2;
  }

  lemma ExactFloor(b: int, q: int)
    requires b > 0
    ensures FloorDiv(b * q, b) == q
  {
    var d := FloorDiv(b * q, b);
    FloorDivIsFloor(b * q, b);
    assert b * (d + 1) == b * d + b && b * (q + 1) == b * q + b;
    if d < q {
      Scale(b, d + 1, q);
    } else if d > q {
      Scale(b, q + 1, d);
    }
  }

  lemma RicherIsWorthMore(w: Wallet, w': Wallet, m: int)
    requires m > 0
    ensures Richer(w, w') ==> Value(w', m) > Value(w, m)
  {
    Distribute(w'.usd, w.usd, m);
    if w'.usd > w.usd {
      Scale(m, 1, w'.usd - w.usd);
      assert m * (w'.usd - w.usd) == (w'.usd - w.usd) * m;
    }
  }

  /**
   No sequence of exchanges enriches a wallet, even overdrawn, exactly when the buying price is at most the selling
   price; otherwise a wallet that can pay every order is enriched.
   */
  lemma NoArbitrageIff(r: Rates)
    requires r.Valid()
    ensures !Arbitrage(r) <==> r.buy <= r.sell
    ensures !PayableArbitrage(r) <==> r.buy <= r.sell
  {
    if r.buy <= r.sell {
      forall w, os, market
        ensures !Richer(w, Run(w, os, r, market))
      {
        var w' := Run(w, os, r, market);
        ValueNeverIncreases(w, os, r, market, r.buy);
        RicherIsWorthMore(w, w', r.buy);
      }
    } else {
      RoundTripProfit(r, 0);
    }
  }

  /**
   Over n exchanges at a fixed market rate between the two prices, every recorded gain is non-negative and
   the gains account for what the wallet lost, to within 99 hundredths of a cent per exchange.
   */
  lemma {:induction false} GainAccounting(w: Wallet, os: seq<Order>, r: Rates, market: int)
    requires r.Valid() && r.buy <= market <= r.sell
    ensures forall i :: 0 <= i < |os| ==> ComputeExchange(os[i].from, os[i].cents, r, market).gainCdfCents >= 0
    ensures var lost := Value(w, market) - Value(Run(w, os, r, market), market);
            100 * Gain(os, r, market) <= lost <= 100 * Gain(os, r, market) + 99 * |os|
  {
    if os != [] {
      var debut, o := os[..|os| - 1], os[|os| - 1];
      GainAccounting(w, debut, r, market);
      LossIsValueDrop(Run(w, debut, r, market), o, r, market);
      NoLossMaking(o, r, market);
      FloorDivIsFloor(Loss(o, r, market), 100);
      forall i | 0 <= i < |os|
        ensures ComputeExchange(os[i].from, os[i].cents, r, market).gainCdfCents >= 0
      {
        if i < |os| - 1 {
          assert os[i] == debut[i];
        }
      }
    }
  }

  /** The guard of setRates (buy <= sell on the rates as typed) reaches the rates in hundredths. */
  lemma GuardReachesHundredths(buy: real, sell: real)
    requires 0.005 <= buy <= sell
    ensures var r := Rates(Rate100(buy), Rate100(sell)); r.Valid() && !Arbitrage(r)
  {
    NoArbitrageIff(Rates(Rate100(buy), Rate100(sell)));
  }

  // ------------------------------------------------------------------ amounts

  /**
   Dollars give whole francs, less than one franc below their value at the buying price; francs give cents of a dollar,
   less than one cent below their value at the selling price.
   */
  lemma AmountsRoundedDown(from: Currency, f: int, r: Rates, market: int)
    requires r.Valid()
    ensures var to := ComputeExchange(from, f, r, market).toCents;
            match from
            case USD => to % 100 == 0 && 100 * to <= f * r.buy < 100 * to + 10000
            case CDF => to * r.sell <= f * 100 < (to + 1) * r.sell
  {
    hide FloorDiv;
    FloorDivIsFloor(f * r.buy, 10000);
    FloorDivIsFloor(f * 100, r.sell);
    var to := FloorDiv(f * 100, r.sell);
    assert to * r.sell == r.sell * to && (to + 1) * r.sell == r.sell * to + r.sell;
  }

  /** A typed rate is taken to the nearest hundredth, halves up. */
  lemma RateToNearestHundredth(rate: real)
    ensures Rate100(rate) as real - 0.5 <= 100.0 * rate < Rate100(rate) as real + 0.5
  {
  }
}
