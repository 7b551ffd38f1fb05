/** The pure market mechanics of `GameState`: the capped system log, the
    sentiment nudge, the crowding fee for shorts, the hourly price step and
    its OHLCV bar, the liquidation sweep and end-of-round settlement. */
module Market {
  import opened Account

  // ---- the system log ----

  /** What a system-log line records; the timestamp and wording are left out. */
  datatype SysLog =
    | RoundOpened(players: nat)
    | PlayerLiquidated(name: string)
    | HourClosed(hour: nat, price: real)
    | RoundSettled
    | News(text: string)

  /** `log` keeps at most this many lines. */
  const LogCap: nat := 200

  /** `log`: append, then drop the oldest line once there are more than 200. */
  function Logged(logs: seq<SysLog>, e: SysLog): (r: seq<SysLog>)
    ensures |r| > 0 && r[|r| - 1] == e
    ensures |r| == |logs| + 1 || |r| == |logs|
    ensures |logs| < LogCap <==> |r| == |logs| + 1
    ensures |logs| <= LogCap ==> |r| <= LogCap
    ensures r[..|r| - 1] == logs[|logs| + 1 - |r|..]
  {
    var l := logs + [e];
    if |l| > LogCap then l[1..] else l
  }

  // ---- calculate_impact ----

  /** A move that brings momentum toward zero or across it. */
  predicate DeRisking(current: real, impact: real)
  {
    Abs(current + impact) < Abs(current) || (current + impact) * current < 0.0
  }

  /** `calculate_impact`: the part of `impact` that is applied to `current`. */
  function Impact(current: real, impact: real, limit: real): (r: real)
    ensures DeRisking(current, impact) ==> r == impact
    ensures !DeRisking(current, impact) && Abs(current) >= limit ==> r == 0.0
    ensures limit > 0.0 ==> Abs(r) <= Abs(impact) && r * impact >= 0.0
    ensures limit > 0.0 && !DeRisking(current, impact) && Abs(current) < limit ==>
      r == impact * ((limit - Abs(current)) / limit)
  {
    if DeRisking(current, impact) then impact
    else
      var dist := limit - Abs(current);
      if dist > 0.0 then
        assert 0.0 < dist / limit <= 1.0;
        ScaledDown(impact, dist / limit);
        impact * (dist / limit)
      else 0.0
  }

  lemma ScaledDown(x: real, f: real)
    requires 0.0 <= f <= 1.0
    ensures Abs(x * f) <= Abs(x) && (x * f) * x >= 0.0
  {
    if x >= 0.0 {
      assert x * f <= x * 1.0;
      assert x * f >= 0.0;
    } else {
      assert x * f >= x * 1.0;
      assert x * f <= 0.0;
      var y := -x;
      assert (x * f) * x == f * (y * y);
      MulNonneg(y, y);
      MulNonneg(f, y * y);
    }
  }

  lemma MulNonneg(a: real, b: real)
    requires a >= 0.0 && b >= 0.0
    ensures a * b >= 0.0
  {
  }

  /** Applying the attenuated impact never carries momentum beyond the
      volatility limit when both it and the requested nudge start within it. */
  lemma ImpactStaysWithinLimit(current: real, impact: real, limit: real)
    requires limit > 0.0 && Abs(current) <= limit && Abs(impact) <= limit
    ensures Abs(current + Impact(current, impact, limit)) <= limit
  {
    var r := Impact(current, impact, limit);
    if DeRisking(current, impact) {
      if (current + impact) * current < 0.0 {
        if current > 0.0 {
          assert current + impact < 0.0;
        } else {
          assert current < 0.0 && current + impact > 0.0;
        }
      }
    } else if Abs(current) < limit {
      var dist := limit - Abs(current);
      var f := dist / limit;
      assert r == impact * f;
      assert f * limit == dist;
      assert limit * f == dist;
      MulNonneg(f, limit - Abs(impact));
      assert Abs(impact) * f <= dist;
      if current >= 0.0 && impact >= 0.0 {
        MulNonneg(impact, f);
        assert current + r <= limit;
      } else if current <= 0.0 && impact <= 0.0 {
        MulNonneg(-impact, f);
        assert current + r >= -limit;
      }
    }
  }

  lemma AbsScaled(x: real, f: real)
    requires f >= 0.0
    ensures Abs(x * f) == Abs(x) * f
  {
    if x < 0.0 {
      assert x * f == -((-x) * f);
      MulNonneg(-x, f);
    } else {
      MulNonneg(x, f);
    }
  }

  lemma FractionShrinks(limit: real, x1: real, x2: real)
    requires limit > 0.0 && 0.0 <= x1 <= x2 < limit
    ensures 0.0 < (limit - x2) / limit <= (limit - x1) / limit
  {
    var f1, f2 := (limit - x1) / limit, (limit - x2) / limit;
    assert f1 * limit == limit - x1 && f2 * limit == limit - x2;
    assert (f1 - f2) * limit == x2 - x1;
  }

  lemma ScaleOrder(x: real, f1: real, f2: real)
    requires 0.0 <= f2 <= f1
    ensures Abs(x * f2) <= Abs(x * f1)
  {
    AbsScaled(x, f1);
    AbsScaled(x, f2);
    MulNonneg(Abs(x), f1 - f2);
    assert Abs(x) * f1 - Abs(x) * f2 == Abs(x) * (f1 - f2);
  }

  /** Diminishing returns: the same request applied to momentum further from
      zero is attenuated at least as much, unless it de-risks. */
  lemma ImpactDiminishes(c1: real, c2: real, impact: real, limit: real)
    requires limit > 0.0 && Abs(c1) <= Abs(c2)
    requires !DeRisking(c1, impact) && !DeRisking(c2, impact)
    ensures Abs(Impact(c2, impact, limit)) <= Abs(Impact(c1, impact, limit))
  {
    if Abs(c2) < limit {
      var f1, f2 := (limit - Abs(c1)) / limit, (limit - Abs(c2)) / limit;
      FractionShrinks(limit, Abs(c1), Abs(c2));
      ScaleOrder(impact, f1, f2);
    }
  }

  // ---- calculate_short_fee ----

  /** Denominator of the crowding ratio. */
  const CrowdingScale: real := 100000.0

  /** Sum of |stock| over the short accounts. */
  function TotalShort(ps: seq<Player>): (t: nat)
    ensures t == 0 <==> forall i :: 0 <= i < |ps| ==> ps[i].stock >= 0
  {
    if ps == [] then 0
    else
      var rest := TotalShort(ps[1..]);
      assert forall i :: 1 <= i < |ps| ==> ps[i] == ps[1..][i - 1];
      (if ps[0].stock < 0 then AbsInt(ps[0].stock) else 0) + rest
  }

  function Crowding(ps: seq<Player>): (c: real)
    ensures 0.0 <= c <= 1.0
    ensures c == 1.0 <==> TotalShort(ps) as real >= CrowdingScale
    ensures c == 0.0 <==> forall i :: 0 <= i < |ps| ==> ps[i].stock >= 0
  {
    Min(1.0, TotalShort(ps) as real / CrowdingScale)
  }

  /** The fee rate on a sale that ends short: 5% plus up to 45% for crowding. */
  function ShortFee(ps: seq<Player>): (f: real)
    ensures 0.05 <= f <= 0.50
    ensures f == 0.05 <==> forall i :: 0 <= i < |ps| ==> ps[i].stock >= 0
    ensures f == 0.50 <==> TotalShort(ps) as real >= CrowdingScale
  {
    0.05 + 0.45 * Crowding(ps)
  }

  // ---- the hourly price step and its bar ----

  /** The random draws of one `next_hour`: the noise, and where in its range
      each wick falls (a wick is `frac` times half the bar's volatility). */
  datatype Draw = Draw(noise: real, highFrac: real, lowFrac: real)
  {
    predicate Valid()
    {
      -0.01 <= noise <= 0.01 && 0.0 <= highFrac <= 1.0 && 0.0 <= lowFrac <= 1.0
    }
  }

  datatype Bar = Bar(hour: nat, open: real, high: real, low: real, close: real, volume: nat)

  function Clamp(x: real, lo: real, hi: real): real { Max(lo, Min(hi, x)) }

  /** The hour's relative price change: trend plus momentum plus noise, clamped to +-50%. */
  function PriceChange(trend: real, momentum: real, noise: real): (c: real)
    ensures -0.5 <= c <= 0.5
    ensures -0.5 <= trend + momentum + noise <= 0.5 ==> c == trend + momentum + noise
    ensures trend + momentum + noise > 0.5 ==> c == 0.5
    ensures trend + momentum + noise < -0.5 ==> c == -0.5
  {
    Clamp(trend + momentum + noise, -0.5, 0.5)
  }

  /** A clamped change keeps the new price within half and one and a half times the old one. */
  lemma ChangeBoundsPrice(price: real, change: real)
    requires price > 0.0 && -0.5 <= change <= 0.5
    ensures 0.5 * price <= price * (1.0 + change) <= 1.5 * price
  {
    assert price * (1.0 + change) == price + price * change;
    assert -0.5 * price <= price * change <= 0.5 * price;
  }

  /** The close after a clamped change `next_hour` applies to the price. */
  function MovedPrice(price: real, change: real): (r: real)
    requires price > 0.0 && -0.5 <= change <= 0.5
    ensures 0.5 * price <= r <= 1.5 * price
  {
    ChangeBoundsPrice(price, change);
    price * (1.0 + change)
  }

  function Volatility(open: real, close: real): real
  {
    Abs(open - close) + open * 0.01
  }

  function MakeBar(hour: nat, open: real, close: real, volume: nat, d: Draw): (b: Bar)
    ensures b.hour == hour && b.open == open && b.close == close && b.volume == volume
    ensures d.Valid() && open >= 0.0 ==>
      && Max(open, close) <= b.high <= Max(open, close) + 0.5 * Volatility(open, close)
      && Min(open, close) - 0.5 * Volatility(open, close) <= b.low <= Min(open, close)
  {
    var v := Volatility(open, close);
    WickBounds(d.highFrac, v);
    WickBounds(d.lowFrac, v);
    Bar(hour, open, Max(open, close) + d.highFrac * (v * 0.5),
        Min(open, close) - d.lowFrac * (v * 0.5), close, volume)
  }

  lemma WickBounds(frac: real, v: real)
    ensures 0.0 <= frac <= 1.0 && v >= 0.0 ==> 0.0 <= frac * (v * 0.5) <= 0.5 * v
  {
    if 0.0 <= frac <= 1.0 && v >= 0.0 {
      assert frac * (v * 0.5) <= 1.0 * (v * 0.5);
    }
  }

  /** A bar whose close is within +-50% of its open has a positive low. */
  lemma BarLowPositive(hour: nat, open: real, close: real, volume: nat, d: Draw)
    requires d.Valid() && open > 0.0 && 0.5 * open <= close <= 1.5 * open
    ensures MakeBar(hour, open, close, volume, d).low > 0.0
  {
    var b := MakeBar(hour, open, close, volume, d);
    var v := Volatility(open, close);
    assert b.low >= Min(open, close) - 0.5 * v;
  }

  /** The shape every recorded bar keeps: wicks bracket open and close, and
      the close is a positive price. */
  predicate Brackets(b: Bar)
  {
    b.high >= Max(b.open, b.close) && b.low <= Min(b.open, b.close) && b.close > 0.0
  }

  // ---- the liquidation sweep ----

  /** Below this risk ratio a short account that is not liquidated gets a warning. */
  const WarningMargin: real := 1.3

  /** `liquidate_player` on the account: buy back the whole short at `price`. */
  function Liquidate(p: Player, price: real): (r: Player)
    ensures r.email == p.email && r.name == p.name && r.role == p.role && r.debt == p.debt
    ensures r.stock == 0 && r.lastEvent == Liquidated
    ensures r.cash == p.cash - AbsInt(p.stock) as real * price
    ensures p.stock <= 0 ==> NetWorth(r, price) == NetWorth(p, price)
  {
    var qty := AbsInt(p.stock);
    var cost := qty as real * price;
    p.(stock := 0, cash := p.cash - cost, lastEvent := Liquidated,
       notes := p.notes + [ForcedBuyBack(qty, cost)])
  }

  /** One account after the sweep of `next_hour`. */
  function SweptPlayer(p: Player, price: real): (r: Player)
    ensures r.email == p.email && r.name == p.name && r.role == p.role && r.debt == p.debt
    ensures r.lastEvent == Liquidated <==> Liquidatable(p, price)
    ensures Liquidatable(p, price) ==>
      r.stock == 0 && r.cash == p.cash - AbsInt(p.stock) as real * price
    ensures !Liquidatable(p, price) ==> r.stock == p.stock && r.cash == p.cash
    ensures p.stock >= 0 ==> r == p.(lastEvent := NoEvent)
  {
    var q := p.(lastEvent := NoEvent);
    if Liquidatable(p, price) then Liquidate(q, price)
    else if p.stock < 0 && Risk(p, price) < WarningMargin then
      q.(notes := q.notes + [MarginWarning(Risk(p, price))])
    else q
  }

  function Sweep(ps: seq<Player>, price: real): (r: seq<Player>)
  {
    seq(|ps|, i requires 0 <= i < |ps| => SweptPlayer(ps[i], price))
  }

  function Last(ps: seq<Player>): Player requires ps != [] { ps[|ps| - 1] }
  function Front(ps: seq<Player>): seq<Player> requires ps != [] { ps[..|ps| - 1] }

  /** How many of `ps` the sweep liquidates. */
  function LiquidationCount(ps: seq<Player>, price: real): (n: nat)
    ensures n <= |ps|
    ensures n == 0 <==> forall i :: 0 <= i < |ps| ==> !Liquidatable(ps[i], price)
  {
    if ps == [] then 0
    else
      var n := LiquidationCount(Front(ps), price);
      assert forall i :: 0 <= i < |ps| - 1 ==> ps[i] == Front(ps)[i];
      n + (if Liquidatable(Last(ps), price) then 1 else 0)
  }

  /** The momentum the sweep adds: 5% per liquidation, in roster order. */
  function SweepMomentum(ps: seq<Player>, price: real): real
  {
    if ps == [] then 0.0
    else SweepMomentum(Front(ps), price) + (if Liquidatable(Last(ps), price) then 0.05 else 0.0)
  }

  lemma {:induction false} SweepMomentumCounts(ps: seq<Player>, price: real)
    ensures SweepMomentum(ps, price) == 0.05 * LiquidationCount(ps, price) as real
  {
    if ps != [] {
      SweepMomentumCounts(Front(ps), price);
    }
  }

  /** How many shares the sweep buys back. */
  function LiquidatedQty(ps: seq<Player>, price: real): nat
  {
    if ps == [] then 0
    else LiquidatedQty(Front(ps), price) + (if Liquidatable(Last(ps), price) then AbsInt(Last(ps).stock) else 0)
  }

  /** The system log after the sweep has logged each liquidation in roster order. */
  function SweepLogs(logs: seq<SysLog>, ps: seq<Player>, price: real): (r: seq<SysLog>)
    ensures |logs| <= LogCap ==> |r| <= LogCap
    ensures |r| >= |logs|
  {
    if ps == [] then logs
    else
      var l := SweepLogs(logs, Front(ps), price);
      if Liquidatable(Last(ps), price) then Logged(l, PlayerLiquidated(Last(ps).name)) else l
  }

  /** Extending the swept prefix by one account adds that account's share to each tally. */
  lemma SweepPrefixStep(ps: seq<Player>, logs: seq<SysLog>, price: real, i: nat)
    requires i < |ps|
    ensures var liq := Liquidatable(ps[i], price);
      && SweepMomentum(ps[..i + 1], price) == SweepMomentum(ps[..i], price) + (if liq then 0.05 else 0.0)
      && LiquidatedQty(ps[..i + 1], price)
         == LiquidatedQty(ps[..i], price) + (if liq then AbsInt(ps[i].stock) else 0)
      && SweepLogs(logs, ps[..i + 1], price)
         == (if liq then Logged(SweepLogs(logs, ps[..i], price), PlayerLiquidated(ps[i].name))
             else SweepLogs(logs, ps[..i], price))
  {
    var seen := ps[..i + 1];
    assert Front(seen) == ps[..i] && Last(seen) == ps[i];
  }

  /** Long and flat accounts only lose their event flag in the sweep. */
  lemma SweepSparesLongs(ps: seq<Player>, price: real, i: nat)
    requires i < |ps| && ps[i].stock >= 0
    ensures Sweep(ps, price)[i] == ps[i].(lastEvent := NoEvent)
  {
  }

  /** The shares bought back are the short positions the sweep closes. */
  lemma {:induction false} LiquidatedQtyBound(ps: seq<Player>, price: real)
    ensures LiquidatedQty(ps, price) <= TotalShort(ps)
    ensures LiquidatedQty(ps, price) == 0 <==> LiquidationCount(ps, price) == 0
  {
    if ps != [] {
      LiquidatedQtyBound(Front(ps), price);
      TotalShortSnoc(Front(ps), Last(ps));
      assert Front(ps) + [Last(ps)] == ps;
    }
  }

  lemma {:induction false} TotalShortSnoc(ps: seq<Player>, p: Player)
    ensures TotalShort(ps + [p]) == TotalShort(ps) + (if p.stock < 0 then AbsInt(p.stock) else 0)
  {
    if ps == [] {
      assert [p][1..] == [];
    } else {
      assert (ps + [p])[1..] == ps[1..] + [p];
      TotalShortSnoc(ps[1..], p);
    }
  }

  // ---- end_game ----

  /** Management fee taken from every account at settlement. */
  const SettlementFeeRate: real := 0.10

  /** `end_game` on one account: the position is closed into cash at `price`
      and 10% of the resulting value is taken as the management fee. */
  function Settled(p: Player, price: real): (r: Player)
    ensures r.email == p.email && r.name == p.name && r.role == p.role && r.debt == p.debt
    ensures r.stock == 0 && r.cash == 0.9 * NetWorth(p, price)
  {
    var val := NetWorth(p, price);
    var fee := val * SettlementFeeRate;
    p.(cash := val - fee, stock := 0, notes := p.notes + [SettlementFee(fee)])
  }

  /** The loop of `end_game` over every account. */
  function SettleAll(ps: seq<Player>, price: real): (r: seq<Player>)
    ensures |r| == |ps|
    ensures forall i :: 0 <= i < |ps| ==> r[i].email == ps[i].email && r[i].stock == 0
  {
    seq(|ps|, i requires 0 <= i < |ps| => Settled(ps[i], price))
  }

  /** Settlement closes every position into cash worth 90% of the net worth at
      the final price, keeps the debt figure and the identity. */
  lemma SettlementPaysNinetyPercent(ps: seq<Player>, price: real, i: nat)
    requires i < |ps|
    ensures var r := SettleAll(ps, price)[i];
      && r.stock == 0
      && r.cash == 0.9 * (ps[i].cash + ps[i].stock as real * price - ps[i].debt)
      && r.debt == ps[i].debt
      && r.email == ps[i].email && r.name == ps[i].name && r.role == ps[i].role
  {
  }
}
