/** A player's account: balances, position and the pure queries on them
    (net worth, margin detail, status label), plus the per-account effect
    of each trade action. */
module Account {

  datatype Option<T> = None | Some(value: T)

  /** Cash every new account starts with. */
  const StartingCash: real := 100000.0
  /** Share of the short notional frozen as collateral (sale proceeds plus 50%). */
  const FrozenFactor: real := 1.5
  /** The sweep liquidates a short account whose risk ratio is below this. */
  const MaintenanceMargin: real := 1.10
  /** Flat fee on buys and on sales that do not end short. */
  const TradeFee: real := 0.05
  /** Price of one intel purchase. */
  const IntelCost: real := 5000.0
  /** Risk ratio reported when the short notional is zero. */
  const NoRisk: real := 999.0

  datatype Role = Retail | MarketMaker

  /** The transient flag `last_event`: nothing, or "LIQUIDATED". */
  datatype Event = NoEvent | Liquidated

  /** Entries of a player's personal log; the text of each is formatting only. */
  datatype Note =
    | Bought(qty: nat)
    | Sold(qty: nat, short: bool)
    | ForcedBuyBack(qty: nat, cost: real)
    | MarginWarning(risk: real)
    | SettlementFee(fee: real)
    | IntelBought(up: bool, impact: real)

  datatype Player = Player(
    email: string,
    name: string,
    role: Role,
    cash: real,
    stock: int,
    debt: real,
    notes: seq<Note>,
    lastEvent: Event)

  function Abs(x: real): real { if x < 0.0 then -x else x }
  function AbsInt(x: int): nat { if x < 0 then -x else x }
  function Max(a: real, b: real): real { if a < b then b else a }
  function Min(a: real, b: real): real { if a < b then a else b }

  /** A fresh account, as `Player.__init__` builds it. */
  function NewPlayer(email: string, name: string): (p: Player)
    ensures p.email == email && p.name == name && p.role == Retail
    ensures p.cash == StartingCash && p.stock == 0 && p.debt == 0.0
    ensures p.notes == [] && p.lastEvent == NoEvent
  {
    Player(email, name, Retail, StartingCash, 0, 0.0, [], NoEvent)
  }

  /** `get_net_worth`: cash plus the stock valued at `price`, less the debt.
      A long position adds to the cash, a short one takes from it. */
  function NetWorth(p: Player, price: real): (w: real)
    ensures p.stock == 0 ==> w == p.cash - p.debt
    ensures price >= 0.0 && p.stock > 0 ==> w >= p.cash - p.debt
    ensures price >= 0.0 && p.stock < 0 ==> w <= p.cash - p.debt
  {
    p.cash + p.stock as real * price - p.debt
  }

  /** Marking to market: a move of the price from `a` to `b` changes the net
      worth by the position times the move. */
  lemma NetWorthMarkToMarket(p: Player, a: real, b: real)
    ensures NetWorth(p, b) - NetWorth(p, a) == p.stock as real * (b - a)
  {
    var s := p.stock as real;
    assert s * (b - a) == s * b - s * a;
  }

  /** The four results of `get_margin_info`. */
  datatype Margin = Margin(shortValue: real, frozen: real, available: real, risk: real)

  function MarginInfo(p: Player, price: real): (m: Margin)
    ensures p.stock >= 0 ==> m == Margin(0.0, 0.0, p.cash, 0.0)
    ensures p.stock < 0 ==>
      && m.shortValue == AbsInt(p.stock) as real * Abs(price)
      && m.frozen == FrozenFactor * m.shortValue
      && m.available >= 0.0 && m.available >= p.cash - m.frozen
      && (m.available == 0.0 || m.available == p.cash - m.frozen)
      && (m.shortValue > 0.0 ==> m.risk * m.shortValue == p.cash - m.shortValue)
      && (m.shortValue == 0.0 ==> m.risk == NoRisk)
  {
    if p.stock >= 0 then Margin(0.0, 0.0, p.cash, 0.0)
    else
      var shortValue := Abs(p.stock as real * price);
      assert shortValue == AbsInt(p.stock) as real * Abs(price) by {
        AbsProduct(p.stock, price);
      }
      var frozen := shortValue * FrozenFactor;
      var equity := p.cash - shortValue;
      var risk := if shortValue > 0.0 then equity / shortValue else NoRisk;
      Margin(shortValue, frozen, Max(0.0, p.cash - frozen), risk)
  }

  lemma AbsProduct(n: int, x: real)
    ensures Abs(n as real * x) == AbsInt(n) as real * Abs(x)
  {
    if n < 0 {
      assert n as real * x == -((-n) as real * x);
    }
  }

  function Available(p: Player, price: real): real { MarginInfo(p, price).available }
  function Risk(p: Player, price: real): real { MarginInfo(p, price).risk }

  /** The labels `get_account_status` returns. */
  datatype Status = JustLiquidated | Normal | NearLiquidation | MarginCall | Frozen | ShortHolding

  function AccountStatus(p: Player, price: real): (s: Status)
    ensures s == JustLiquidated <==> p.lastEvent == Liquidated
    ensures s == Normal <==> p.lastEvent != Liquidated && p.stock >= 0
    ensures s in {NearLiquidation, MarginCall, Frozen, ShortHolding} <==>
      p.lastEvent != Liquidated && p.stock < 0
    ensures s == NearLiquidation ==> Risk(p, price) < 1.15
    ensures s == MarginCall ==> 1.15 <= Risk(p, price) < 1.35
    ensures s == Frozen ==> Risk(p, price) >= 1.35 && Available(p, price) < 5000.0
    ensures s == ShortHolding ==> Risk(p, price) >= 1.35 && Available(p, price) >= 5000.0
  {
    if p.lastEvent == Liquidated then JustLiquidated
    else if p.stock >= 0 then Normal
    else
      var m := MarginInfo(p, price);
      if m.risk < 1.15 then NearLiquidation
      else if m.risk < 1.35 then MarginCall
      else if m.available < 5000.0 then Frozen
      else ShortHolding
  }

  /** The text of each label, without its leading emoji. */
  function Label(s: Status): string
  {
    match s
    case JustLiquidated => "刚刚爆仓"
    case Normal => "正常"
    case NearLiquidation => "濒临强平"
    case MarginCall => "保证金告急"
    case Frozen => "资产冻结"
    case ShortHolding => "做空持仓中"
  }

  predicate StartsWith(s: string, t: string)
  {
    |t| <= |s| && forall k :: 0 <= k < |t| ==> s[k] == t[k]
  }

  /** Python's `t in s` on strings. */
  predicate Contains(s: string, t: string)
    decreases |s|
  {
    StartsWith(s, t) || (|t| < |s| && Contains(s[1..], t))
  }

  /** A text without the first character of `t` does not contain `t`. */
  lemma {:induction false} LacksFirst(s: string, t: string)
    requires t != [] && t[0] !in s
    ensures !Contains(s, t)
    decreases |s|
  {
    if s != [] {
      assert s[0] in s;
      if |t| < |s| {
        assert forall c :: c in s[1..] ==> c in s;
        LacksFirst(s[1..], t);
      }
    }
  }

  lemma LacksGateWords(s: string)
    requires '锁' !in s && '冻' !in s && '爆' !in s
    ensures !Contains(s, "锁定") && !Contains(s, "冻结") && !Contains(s, "爆仓")
  {
    LacksFirst(s, "锁定");
    LacksFirst(s, "冻结");
    LacksFirst(s, "爆仓");
  }

  /** The intel gate: the two labels that hold 锁定, 冻结 or 爆仓. */
  predicate IntelBlocked(s: Status) { s == JustLiquidated || s == Frozen }

  /** The gate is the substring test on the labels: a status is blocked exactly
      when its label contains 锁定, 冻结 or 爆仓. */
  lemma IntelBlockedByLabel(s: Status)
    ensures IntelBlocked(s) <==>
      Contains(Label(s), "锁定") || Contains(Label(s), "冻结") || Contains(Label(s), "爆仓")
  {
    var l := Label(s);
    match s
    case JustLiquidated => {
      assert l[1..][1..] == "爆仓" && StartsWith(l[1..][1..], "爆仓");
      assert Contains(l[1..], "爆仓");
    }
    case Frozen => {
      assert l[1..][1..] == "冻结" && StartsWith(l[1..][1..], "冻结");
      assert Contains(l[1..], "冻结");
    }
    case _ => LacksGateWords(l);
  }

  /** The account holds the collateral the margin rule asks for at `price`. */
  predicate Covered(p: Player, price: real)
  {
    p.cash >= 0.0 && p.cash >= MarginInfo(p, price).frozen
  }

  predicate Liquidatable(p: Player, price: real)
  {
    p.stock < 0 && Risk(p, price) < MaintenanceMargin
  }

  /** The sweep's trigger, stated on cash: a short account is liquidated
      exactly when its cash is under 2.1 times its short notional. */
  lemma LiquidationThreshold(p: Player, price: real)
    requires price > 0.0
    ensures Liquidatable(p, price) <==>
      p.stock < 0 && p.cash < 2.1 * (AbsInt(p.stock) as real * price)
  {
    if p.stock < 0 {
      var m := MarginInfo(p, price);
      var sv := AbsInt(p.stock) as real * price;
      assert sv > 0.0;
      assert m.shortValue == sv;
      RatioBelow(m.risk, p.cash, sv);
    }
  }

  /** The risk ratio r = (c - s) / s is below 1.10 exactly when c < 2.1 s. */
  lemma RatioBelow(r: real, c: real, s: real)
    requires s > 0.0 && r * s == c - s
    ensures r < MaintenanceMargin <==> c < 2.1 * s
  {
    assert r * s - MaintenanceMargin * s == (r - MaintenanceMargin) * s;
    if r < MaintenanceMargin {
      assert (MaintenanceMargin - r) * s > 0.0;
    } else {
      assert (r - MaintenanceMargin) * s >= 0.0;
    }
  }

  /** An account the sweep will liquidate already shows "濒临强平", unless it has just been liquidated. */
  lemma LiquidatableIsNearLiquidation(p: Player, price: real)
    requires Liquidatable(p, price) && p.lastEvent == NoEvent
    ensures AccountStatus(p, price) == NearLiquidation
  {
  }

  /** A fresh account is flat at any price: its net worth and its available
      cash are the starting cash, its label is normal and nothing can liquidate it. */
  lemma NewPlayerIsFlat(email: string, name: string, price: real)
    ensures var p := NewPlayer(email, name);
      && NetWorth(p, price) == StartingCash && Available(p, price) == StartingCash
      && AccountStatus(p, price) == Normal && !Liquidatable(p, price)
  {
  }

  // ---- buy_stock on one account ----

  function BuyCost(qty: int, price: real): real { qty as real * price * (1.0 + TradeFee) }

  predicate BuyAccepted(p: Player, qty: int, price: real)
  {
    qty > 0 && Available(p, price) >= BuyCost(qty, price)
  }

  /** The account after an accepted buy: only cash, stock and notes change. */
  function AfterBuy(p: Player, qty: nat, price: real): (r: Player)
    ensures r.email == p.email && r.name == p.name && r.role == p.role
    ensures r.debt == p.debt && r.lastEvent == p.lastEvent
    ensures r.stock == p.stock + qty && r.cash == p.cash - BuyCost(qty, price)
  {
    p.(cash := p.cash - BuyCost(qty, price), stock := p.stock + qty, notes := p.notes + [Bought(qty)])
  }

  // ---- sell_stock on one account ----

  predicate EndsShort(p: Player, qty: int) { p.stock - qty < 0 }

  function Proceeds(qty: int, price: real, rate: real): real { qty as real * price * (1.0 - rate) }

  /** A sale is refused only when it ends short and the cash after it would not
      cover 150% of the new short notional. */
  predicate SellAccepted(p: Player, qty: int, price: real, rate: real)
  {
    qty > 0 &&
    (EndsShort(p, qty) ==>
       p.cash + Proceeds(qty, price, rate) >= Abs((p.stock - qty) as real * price) * FrozenFactor)
  }

  /** The account after an accepted sale: only cash, stock and notes change. */
  function AfterSell(p: Player, qty: nat, price: real, rate: real): (r: Player)
    ensures r.email == p.email && r.name == p.name && r.role == p.role
    ensures r.debt == p.debt && r.lastEvent == p.lastEvent
    ensures r.stock == p.stock - qty && r.cash == p.cash + Proceeds(qty, price, rate)
  {
    p.(cash := p.cash + Proceeds(qty, price, rate), stock := p.stock - qty,
       notes := p.notes + [Sold(qty, EndsShort(p, qty))])
  }

  // ---- purchase_intel on one account ----

  predicate IntelAccepted(p: Player, price: real)
  {
    !IntelBlocked(AccountStatus(p, price)) && Available(p, price) >= IntelCost
  }

  /** The momentum nudge an intel purchase asks for, before attenuation. */
  function BaseImpact(role: Role, up: bool): (r: real)
    ensures up <==> r > 0.0
    ensures Abs(r) == (if role == MarketMaker then 0.15 else 0.05)
  {
    (if role == MarketMaker then 0.15 else 0.05) * (if up then 1.0 else -1.0)
  }

  /** The buyer after an accepted intel purchase: only cash and notes change. */
  function AfterIntel(p: Player, up: bool, actual: real): (r: Player)
    ensures r.email == p.email && r.name == p.name && r.role == p.role
    ensures r.debt == p.debt && r.lastEvent == p.lastEvent && r.stock == p.stock
  {
    p.(cash := p.cash - IntelCost, notes := p.notes + [IntelBought(up, actual)])
  }

  // ---- properties of the trade rules ----

  /** What each trade costs in net worth at the trade's price: the 5% fee of a
      buy, the fee rate of a sale, and the 5000 of an intel purchase. */
  lemma TradeCosts(p: Player, qty: nat, price: real, rate: real, up: bool, actual: real)
    ensures NetWorth(AfterBuy(p, qty, price), price) == NetWorth(p, price) - TradeFee * (qty as real * price)
    ensures NetWorth(AfterSell(p, qty, price, rate), price) == NetWorth(p, price) - rate * (qty as real * price)
    ensures NetWorth(AfterIntel(p, up, actual), price) == NetWorth(p, price) - IntelCost
  {
    var n := qty as real * price;
    assert BuyCost(qty, price) == n + TradeFee * n;
    assert Proceeds(qty, price, rate) == n - rate * n;
    assert (p.stock + qty) as real * price == p.stock as real * price + n;
    assert (p.stock - qty) as real * price == p.stock as real * price - n;
  }

  /** Short notional shrinks when a short position is partly bought back. */
  lemma ShortValueShrinks(s: int, q: nat, price: real)
    requires s < 0 && s + q < 0 && price > 0.0
    ensures AbsInt(s + q) as real * price <= AbsInt(s) as real * price
  {
    assert AbsInt(s + q) <= AbsInt(s);
  }

  /** Every accepted buy leaves the account covered at the trade's price. */
  lemma AcceptedBuyCovers(p: Player, qty: int, price: real)
    requires price > 0.0 && BuyAccepted(p, qty, price)
    ensures Covered(AfterBuy(p, qty, price), price)
  {
    var r := AfterBuy(p, qty, price);
    var cost := BuyCost(qty, price);
    assert cost > 0.0 by {
      assert qty as real * price > 0.0;
    }
    if p.stock < 0 {
      var sv := AbsInt(p.stock) as real * price;
      assert Available(p, price) == p.cash - FrozenFactor * sv;
      assert r.cash >= FrozenFactor * sv;
      if r.stock < 0 {
        ShortValueShrinks(p.stock, qty, price);
      }
    }
  }

  /** Every accepted sale leaves a covered account covered, and an accepted
      short sale leaves any account covered. */
  lemma AcceptedSellCovers(p: Player, qty: int, price: real, rate: real)
    requires price > 0.0 && rate <= 1.0 && SellAccepted(p, qty, price, rate)
    requires Covered(p, price) || EndsShort(p, qty)
    ensures Covered(AfterSell(p, qty, price, rate), price)
  {
    var r := AfterSell(p, qty, price, rate);
    assert Proceeds(qty, price, rate) >= 0.0 by {
      assert qty as real * price >= 0.0;
    }
    if EndsShort(p, qty) {
      AbsProduct(p.stock - qty, price);
      assert MarginInfo(r, price).frozen == FrozenFactor * Abs((p.stock - qty) as real * price);
    } else {
      assert p.stock >= 0;
    }
  }

  /** Every accepted intel purchase leaves the account covered. */
  lemma AcceptedIntelCovers(p: Player, up: bool, actual: real, price: real)
    requires price > 0.0 && IntelAccepted(p, price)
    ensures Covered(AfterIntel(p, up, actual), price)
  {
    if p.stock < 0 {
      var sv := AbsInt(p.stock) as real * price;
      assert sv > 0.0;
      assert Available(p, price) == p.cash - FrozenFactor * sv;
    }
  }

  /** Buying and at once selling the same quantity at an unchanged price gives
      the position back and costs the 5% buy fee plus the sale's fee rate on
      the notional. The sale ends short exactly when the account was short, so
      a long or flat account pays 5% on the sale, and a short one the crowding fee. */
  lemma BuySellRoundTrip(p: Player, qty: int, price: real, rate: real)
    requires qty > 0
    ensures EndsShort(AfterBuy(p, qty, price), qty) <==> p.stock < 0
    ensures AfterSell(AfterBuy(p, qty, price), qty, price, rate).stock == p.stock
    ensures NetWorth(AfterSell(AfterBuy(p, qty, price), qty, price, rate), price)
         == NetWorth(p, price) - (TradeFee + rate) * (qty as real * price)
  {
    var n := qty as real * price;
    assert BuyCost(qty, price) == n + TradeFee * n;
    assert Proceeds(qty, price, rate) == n - rate * n;
  }

  /** The round trip of a long or flat account costs exactly two flat fees. */
  lemma LongRoundTrip(p: Player, qty: int, price: real)
    requires p.stock >= 0 && qty > 0
    ensures !EndsShort(AfterBuy(p, qty, price), qty)
    ensures NetWorth(AfterSell(AfterBuy(p, qty, price), qty, price, TradeFee), price)
         == NetWorth(p, price) - 2.0 * TradeFee * (qty as real * price)
  {
    BuySellRoundTrip(p, qty, price, TradeFee);
  }

  /** The margin rule lets a flat account open a short that the next sweep
      liquidates at an unchanged price: every accepted sale of this kind is
      liquidatable exactly when the cash before it is under (1.1 + fee) times the notional. */
  lemma ShortOpeningWindow(p: Player, qty: int, price: real, rate: real)
    requires p.stock == 0 && qty > 0 && price > 0.0
    ensures var n := qty as real * price;
      SellAccepted(p, qty, price, rate) <==> p.cash >= (0.5 + rate) * n
    ensures var n := qty as real * price;
      Liquidatable(AfterSell(p, qty, price, rate), price) <==> p.cash < (1.1 + rate) * n
  {
    var n := qty as real * price;
    var r := AfterSell(p, qty, price, rate);
    assert n > 0.0;
    assert Proceeds(qty, price, rate) == n - rate * n;
    AbsProduct(-qty, price);
    assert Abs((p.stock - qty) as real * price) == n;
    assert r.cash == p.cash + n - rate * n;
    LiquidationThreshold(r, price);
    assert AbsInt(r.stock) as real * price == n;
  }

  /** A thin short: 1000 shares short at 100 with 140000 cash is liquidatable. */
  lemma ThinShortScenario()
    ensures var p := NewPlayer("a", "A").(cash := 140000.0, stock := -1000);
      && MarginInfo(p, 100.0) == Margin(100000.0, 150000.0, 0.0, 0.4)
      && Liquidatable(p, 100.0)
  {
    var p := NewPlayer("a", "A").(cash := 140000.0, stock := -1000);
    var m := MarginInfo(p, 100.0);
    assert m.shortValue == 100000.0;
    assert m.risk * 100000.0 == 40000.0;
  }

  /** The flag of the last sweep does not block trading: an account liquidated
      an hour ago can open a short it cannot hold, and is still labelled as
      just liquidated rather than near liquidation. */
  lemma FlaggedShortScenario()
    ensures var p := NewPlayer("a", "A").(cash := 6000.0, lastEvent := Liquidated);
      && SellAccepted(p, 100, 100.0, TradeFee)
      && Liquidatable(AfterSell(p, 100, 100.0, TradeFee), 100.0)
      && AccountStatus(AfterSell(p, 100, 100.0, TradeFee), 100.0) == JustLiquidated
  {
    var p := NewPlayer("a", "A").(cash := 6000.0, lastEvent := Liquidated);
    var r := AfterSell(p, 100, 100.0, TradeFee);
    assert Proceeds(100, 100.0, TradeFee) == 9500.0;
    assert r.cash == 15500.0 && r.stock == -100;
    LiquidationThreshold(r, 100.0);
  }

  // ---- the roster ----

  predicate UniqueEmails(ps: seq<Player>)
  {
    forall i, j :: 0 <= i < j < |ps| ==> ps[i].email != ps[j].email
  }

  function Emails(ps: seq<Player>): set<string>
  {
    set i | 0 <= i < |ps| :: ps[i].email
  }

  /** The dictionary lookup `players[email]`. */
  function FindPlayer(ps: seq<Player>, email: string): (r: Option<nat>)
    ensures r.Some? ==> r.value < |ps| && ps[r.value].email == email
    ensures r.Some? ==> forall j :: 0 <= j < r.value ==> ps[j].email != email
    ensures r.None? <==> email !in Emails(ps)
  {
    if ps == [] then None
    else if ps[0].email == email then Some(0)
    else match FindPlayer(ps[1..], email)
      case None =>
        assert Emails(ps) == {ps[0].email} + Emails(ps[1..]) by {
          EmailsCons(ps);
        }
        None
      case Some(k) =>
        assert ps[k + 1] == ps[1..][k];
        Some(k + 1)
  }

  lemma EmailsCons(ps: seq<Player>)
    requires ps != []
    ensures Emails(ps) == {ps[0].email} + Emails(ps[1..])
  {
    forall e | e in Emails(ps) ensures e in {ps[0].email} + Emails(ps[1..]) {
      var i :| 0 <= i < |ps| && ps[i].email == e;
      if i > 0 {
        assert ps[1..][i - 1] == ps[i];
      }
    }
    forall e | e in Emails(ps[1..]) ensures e in Emails(ps) {
      var i :| 0 <= i < |ps[1..]| && ps[1..][i].email == e;
      assert ps[i + 1] == ps[1..][i];
    }
  }

  /** Updating an account in place, under its own email, keeps the roster. */
  lemma ReplaceKeepsRoster(ps: seq<Player>, i: nat, q: Player)
    requires i < |ps| && q.email == ps[i].email
    ensures Emails(ps[i := q]) == Emails(ps)
    ensures UniqueEmails(ps) ==> UniqueEmails(ps[i := q])
  {
    var r := ps[i := q];
    assert forall j :: 0 <= j < |ps| ==> r[j].email == ps[j].email;
    forall e | e in Emails(ps) ensures e in Emails(r) {
      var j :| 0 <= j < |ps| && ps[j].email == e;
      assert r[j].email == e;
    }
  }
}
