/** The shared game object, `GameState`: its lifecycle (reset, register,
    start, next round), the market clock (`next_hour` with its liquidation
    sweep and settlement) and the player actions (buy, sell, intel, chat). */
module Game {
  import opened Account
  import opened Market

  datatype Phase = Registration | Trading | Settlement

  /** Chat and bulletin lines; the tag 【内幕】 or 【投资者】 is `insider`. */
  datatype Message = Chat(insider: bool, name: string, text: string) | Bulletin(text: string)

  /** The status strings the operations return. A missing email, which raises
      `KeyError` in the source before anything is written, is `UnknownPlayer`. */
  datatype Reply =
    | AlreadyRegistered | Registered
    | NotEnoughPlayers | GameStarted
    | InvalidQuantity | UnknownPlayer
    | InsufficientFunds | BuyDone
    | InsufficientMargin | SellDone
    | IntelRefused(status: Status) | IntelUnaffordable | IntelPublished
    | MessageSent

  const OpeningPrice: real := 100.0
  const VolatilityLimit: real := 0.30
  /** The clock hour at which the round is settled. */
  const Hours: nat := 12

  /** How many market makers `start_game` samples: `max(1, int(n * 0.1))`. */
  function MarketMakerQuota(n: nat): (k: nat)
    ensures k >= 1 && (n >= 1 ==> k <= n)
    ensures n < 20 ==> k == 1
    ensures n >= 20 ==> k == n / 10
  {
    if n / 10 < 1 then 1 else n / 10
  }

  function WithRole(p: Player, sample: set<string>): Player
  {
    p.(role := if p.email in sample then MarketMaker else Retail)
  }

  function AssignRoles(ps: seq<Player>, sample: set<string>): seq<Player>
  {
    seq(|ps|, i requires 0 <= i < |ps| => WithRole(ps[i], sample))
  }

  /** After role assignment the market makers are exactly the sampled players,
      and a non-empty sample of the roster yields at least one. */
  lemma RolesFollowSample(ps: seq<Player>, sample: set<string>)
    requires sample != {} && sample <= Emails(ps)
    ensures var r := AssignRoles(ps, sample);
      && |r| == |ps|
      && (forall i :: 0 <= i < |r| ==>
            r[i].email == ps[i].email && (r[i].role == MarketMaker <==> ps[i].email in sample))
      && (exists i :: 0 <= i < |r| && r[i].role == MarketMaker)
  {
    var e :| e in sample;
    var i :| 0 <= i < |ps| && ps[i].email == e;
    assert AssignRoles(ps, sample)[i].role == MarketMaker;
  }

  /** `prepare_next_round`: a fresh account under each registered identity. */
  function FreshAccounts(ps: seq<Player>): (r: seq<Player>)
    ensures |r| == |ps|
    ensures forall i :: 0 <= i < |ps| ==> r[i] == NewPlayer(ps[i].email, ps[i].name)
  {
    seq(|ps|, i requires 0 <= i < |ps| => NewPlayer(ps[i].email, ps[i].name))
  }

  /** A new round keeps the roster: same emails in the same order, same names. */
  lemma FreshAccountsKeepRoster(ps: seq<Player>)
    requires UniqueEmails(ps)
    ensures Emails(FreshAccounts(ps)) == Emails(ps)
    ensures UniqueEmails(FreshAccounts(ps))
    ensures forall i :: 0 <= i < |ps| ==>
      FreshAccounts(ps)[i].name == ps[i].name && FreshAccounts(ps)[i].cash == StartingCash
  {
    var r := FreshAccounts(ps);
    assert forall i :: 0 <= i < |ps| ==> r[i].email == ps[i].email;
    forall e | e in Emails(ps) ensures e in Emails(r) {
      var i :| 0 <= i < |ps| && ps[i].email == e;
      assert r[i].email == e;
    }
  }

  /** Bars carry consecutive hours, open where the previous bar closed (the
      first at the opening price), and bracket open and close; every bar after
      the first has a positive low. */
  predicate Chart(bars: seq<Bar>)
  {
    forall i :: 0 <= i < |bars| ==>
      && bars[i].hour == i
      && bars[i].open == (if i == 0 then OpeningPrice else bars[i - 1].close)
      && Brackets(bars[i])
      && (i > 0 ==> bars[i].low > 0.0)
  }

  /** Appending a bar for the next hour that opens at the last close keeps the chart. */
  lemma ChartGrows(bars: seq<Bar>, bar: Bar)
    requires Chart(bars)
    requires bar.hour == |bars| && Brackets(bar)
    requires bar.open == (if bars == [] then OpeningPrice else bars[|bars| - 1].close)
    requires bars != [] ==> bar.low > 0.0
    ensures Chart(bars + [bar])
  {
  }

  class GameState {
    var isRunning: bool
    var phase: Phase
    var clock: nat
    var systemLogs: seq<SysLog>
    /** The `players` dictionary, in insertion order. */
    var players: seq<Player>
    var messages: seq<Message>
    var basePrice: real
    var price: real
    var trend: real
    var momentum: real
    var volatilityLimit: real
    /** Closing prices, starting with the opening price of the first round. */
    var history: seq<real>
    var shortPressure: real
    var bars: seq<Bar>
    var currentOpen: real
    var currentVolume: nat

    /** The invariant every operation keeps. */
    ghost predicate Valid()
      reads this
    {
      PricesValid() && ClockValid() && UniqueEmails(players)
    }

    /** The price state: a positive price that ends the closing history, the
        fixed constants, and the drift and crowding ranges. */
    ghost predicate PricesValid()
      reads this`price, this`history, this`basePrice, this`volatilityLimit, this`trend,
            this`shortPressure
    {
      && price > 0.0
      && basePrice == OpeningPrice && volatilityLimit == VolatilityLimit
      && -0.02 <= trend <= 0.02
      && 0.0 <= shortPressure <= 1.0
      && |history| >= 1 && history[|history| - 1] == price
      && (forall i :: 0 <= i < |history| ==> history[i] > 0.0)
    }

    /** The phase the clock implies, and the chart. */
    ghost predicate ClockValid()
      reads this`isRunning, this`phase, this`clock, this`bars, this`currentOpen, this`price
    {
      && ChartValid()
      && (phase == Settlement <==> clock == Hours)
      && (!isRunning <==> phase == Registration)
      && (!isRunning ==> clock == 0)
    }

    /** One bar per elapsed hour, the next bar opening where the last one closed. */
    ghost predicate ChartValid()
      reads this`clock, this`bars, this`currentOpen, this`price
    {
      && clock <= Hours && |bars| == clock
      && Chart(bars)
      && currentOpen == (if bars == [] then OpeningPrice else price)
      && (bars != [] ==> bars[|bars| - 1].close == price)
    }

    /** The state `reset` leaves, apart from the roster. */
    ghost predicate Initial()
      reads this
    {
      && !isRunning && phase == Registration && clock == 0
      && systemLogs == [] && messages == []
      && basePrice == OpeningPrice && price == OpeningPrice
      && trend == 0.0 && momentum == 0.0 && volatilityLimit == VolatilityLimit
      && history == [OpeningPrice] && shortPressure == 0.0
      && bars == [] && currentOpen == OpeningPrice && currentVolume == 0
    }

    /** `next_hour` does something only while the game runs and the clock is before 12. */
    predicate Ticking()
      reads this
    {
      isRunning && clock < Hours
    }

    constructor ()
      ensures Valid() && Initial() && players == []
    {
      new;
      Reset();
    }

    method Reset()
      modifies this
      ensures Valid() && Initial() && players == []
    {
      ResetSession();
      ResetMarket();
      ResetChart();
    }

    /** The lifecycle, the roster and the two logs, as `reset` leaves them. */
    method ResetSession()
      modifies this`isRunning, this`phase, this`clock, this`systemLogs, this`players, this`messages
      ensures !isRunning && phase == Registration && clock == 0
      ensures systemLogs == [] && players == [] && messages == []
    {
      isRunning := false;
      phase := Registration;
      clock := 0;
      systemLogs := [];
      players := [];
      messages := [];
    }

    /** The price state, as `reset` leaves it. */
    method ResetMarket()
      modifies this`basePrice, this`price, this`trend, this`momentum, this`volatilityLimit,
               this`history, this`shortPressure
      ensures basePrice == OpeningPrice && price == OpeningPrice && history == [OpeningPrice]
      ensures trend == 0.0 && momentum == 0.0 && volatilityLimit == VolatilityLimit
      ensures shortPressure == 0.0
    {
      basePrice := OpeningPrice;
      price := OpeningPrice;
      trend := 0.0;
      momentum := 0.0;
      volatilityLimit := VolatilityLimit;
      history := [OpeningPrice];
      shortPressure := 0.0;
    }

    /** The candlestick state, as `reset` and `start_game` leave it. */
    method ResetChart()
      modifies this`bars, this`currentOpen, this`currentVolume
      ensures bars == [] && currentOpen == OpeningPrice && currentVolume == 0
    {
      bars := [];
      currentOpen := OpeningPrice;
      currentVolume := 0;
    }

    method Log(e: SysLog)
      modifies this`systemLogs
      ensures systemLogs == Logged(old(systemLogs), e)
    {
      systemLogs := systemLogs + [e];
      if |systemLogs| > LogCap {
        systemLogs := systemLogs[1..];
      }
    }

    method Register(email: string, name: string) returns (ok: bool, reply: Reply)
      requires Valid()
      modifies this`players
      ensures Valid()
      ensures ok <==> email !in old(Emails(players))
      ensures ok ==> reply == Registered && players == old(players) + [NewPlayer(email, name)]
      ensures !ok ==> reply == AlreadyRegistered && players == old(players)
    {
      if FindPlayer(players, email).Some? {
        return false, AlreadyRegistered;
      }
      // A late registrant keeps the retail role `NewPlayer` gives.
      players := players + [NewPlayer(email, name)];
      ok, reply := true, Registered;
    }

    method StartGame(drift: real, sample: set<string>) returns (reply: Reply)
      requires Valid()
      requires -0.02 <= drift <= 0.02
      requires |players| >= 1 ==> sample <= Emails(players) && |sample| == MarketMakerQuota(|players|)
      modifies this`isRunning, this`phase, this`clock, this`trend, this`bars, this`currentOpen,
               this`currentVolume, this`players, this`systemLogs
      ensures Valid()
      ensures |old(players)| == 0 ==> reply == NotEnoughPlayers && unchanged(this)
      ensures |old(players)| >= 1 ==> reply == GameStarted && isRunning && phase == Trading && clock == 0
      ensures |old(players)| >= 1 ==>
        trend == drift && bars == [] && currentOpen == OpeningPrice && currentVolume == 0
      ensures |old(players)| >= 1 ==> players == AssignRoles(old(players), sample)
      ensures |old(players)| >= 1 ==> systemLogs == Logged(old(systemLogs), RoundOpened(|old(players)|))
    {
      if |players| < 1 {
        return NotEnoughPlayers;
      }
      OpenRound(drift);
      AssignSampledRoles(sample);
      Log(RoundOpened(|players|));
      reply := GameStarted;
    }

    /** The clock and chart part of `start_game`: trading from hour 0 under `drift`. */
    method OpenRound(drift: real)
      requires PricesValid() && -0.02 <= drift <= 0.02
      modifies this`isRunning, this`phase, this`clock, this`trend, this`bars, this`currentOpen,
               this`currentVolume
      ensures PricesValid() && ClockValid()
      ensures isRunning && phase == Trading && clock == 0 && trend == drift
      ensures bars == [] && currentOpen == OpeningPrice && currentVolume == 0
    {
      isRunning, phase, clock, trend := true, Trading, 0, drift;
      ResetChart();
    }

    /** The role loop of `start_game`: the sampled emails become market makers. */
    method AssignSampledRoles(sample: set<string>)
      modifies this`players
      ensures players == AssignRoles(old(players), sample)
      ensures UniqueEmails(old(players)) ==> UniqueEmails(players)
    {
      var i := 0;
      while i < |players|
        invariant 0 <= i <= |players| == |old(players)|
        invariant forall j :: 0 <= j < i ==> players[j] == WithRole(old(players)[j], sample)
        invariant forall j :: i <= j < |players| ==> players[j] == old(players)[j]
      {
        players := players[i := WithRole(players[i], sample)];
        i := i + 1;
      }
      assert forall j :: 0 <= j < |players| ==> players[j].email == old(players)[j].email;
    }

    /** `liquidate_player` for the account at index `i`. */
    method LiquidatePlayer(i: nat)
      requires i < |players|
      modifies this`players, this`momentum, this`currentVolume, this`systemLogs
      ensures players == old(players)[i := Liquidate(old(players)[i], price)]
      ensures momentum == old(momentum) + 0.05
      ensures currentVolume == old(currentVolume) + AbsInt(old(players)[i].stock)
      ensures systemLogs == Logged(old(systemLogs), PlayerLiquidated(old(players)[i].name))
    {
      var p := players[i];
      players := players[i := Liquidate(p, price)];
      Log(PlayerLiquidated(p.name));
      momentum := momentum + 0.05;
      currentVolume := currentVolume + AbsInt(p.stock);
    }

    /** One turn of the sweep at the end of `next_hour`, on the account at `i`. */
    method SweepAccount(i: nat)
      requires i < |players|
      modifies this`players, this`momentum, this`currentVolume, this`systemLogs
      ensures players == old(players)[i := SweptPlayer(old(players)[i], price)]
      ensures var p := old(players)[i];
        if Liquidatable(p, price) then
          && momentum == old(momentum) + 0.05
          && currentVolume == old(currentVolume) + AbsInt(p.stock)
          && systemLogs == Logged(old(systemLogs), PlayerLiquidated(p.name))
        else
          momentum == old(momentum) && currentVolume == old(currentVolume) && systemLogs == old(systemLogs)
    {
      var p := players[i];
      players := players[i := p.(lastEvent := NoEvent)];
      if p.stock < 0 {
        var m := MarginInfo(p, price);
        if m.risk < MaintenanceMargin {
          LiquidatePlayer(i);
        } else if m.risk < WarningMargin {
          players := players[i := players[i].(notes := players[i].notes + [MarginWarning(m.risk)])];
        }
      }
    }

    /** The loop over all players at the end of `next_hour`. */
    method LiquidationSweep()
      modifies this`players, this`momentum, this`currentVolume, this`systemLogs
      ensures players == Sweep(old(players), price)
      ensures momentum == old(momentum) + 0.05 * LiquidationCount(old(players), price) as real
      ensures currentVolume == old(currentVolume) + LiquidatedQty(old(players), price)
      ensures systemLogs == SweepLogs(old(systemLogs), old(players), price)
      ensures UniqueEmails(old(players)) ==> UniqueEmails(players)
    {
      var i := 0;
      while i < |players|
        invariant 0 <= i <= |players| == |old(players)|
        invariant forall j :: 0 <= j < i ==> players[j] == SweptPlayer(old(players)[j], price)
        invariant forall j :: i <= j < |players| ==> players[j] == old(players)[j]
        invariant momentum == old(momentum) + SweepMomentum(old(players)[..i], price)
        invariant currentVolume == old(currentVolume) + LiquidatedQty(old(players)[..i], price)
        invariant systemLogs == SweepLogs(old(systemLogs), old(players)[..i], price)
      {
        SweepPrefixStep(old(players), old(systemLogs), price, i);
        SweepAccount(i);
        i := i + 1;
      }
      assert old(players)[..i] == old(players);
      SweepMomentumCounts(old(players), price);
      assert forall j :: 0 <= j < |players| ==> players[j].email == old(players)[j].email;
    }

    /** `end_game`: settle every account and close the round. */
    method EndGame()
      modifies this`phase, this`players, this`systemLogs
      ensures phase == Settlement
      ensures players == SettleAll(old(players), price)
      ensures systemLogs == Logged(old(systemLogs), RoundSettled)
      ensures UniqueEmails(old(players)) ==> UniqueEmails(players)
    {
      phase := Settlement;
      var i := 0;
      while i < |players|
        modifies this`players
        invariant 0 <= i <= |players| == |old(players)|
        invariant forall j :: 0 <= j < i ==> players[j] == Settled(old(players)[j], price)
        invariant forall j :: i <= j < |players| ==> players[j] == old(players)[j]
      {
        players := players[i := Settled(players[i], price)];
        i := i + 1;
      }
      assert forall j :: 0 <= j < |players| ==> players[j].email == old(players)[j].email;
      Log(RoundSettled);
    }

    /** Steps 1 to 3 of `next_hour`: the price move and the bar it records. */
    method CloseBar(d: Draw)
      requires Valid() && Ticking() && d.Valid()
      modifies this`price, this`bars, this`clock, this`history, this`currentOpen,
               this`currentVolume, this`momentum
      ensures price == MovedPrice(old(price), PriceChange(trend, old(momentum), d.noise))
      ensures bars == old(bars) + [MakeBar(old(clock), old(currentOpen), price, old(currentVolume), d)]
      ensures clock == old(clock) + 1 && history == old(history) + [price]
      ensures currentOpen == price && currentVolume == 0 && momentum == 0.0
      ensures PricesValid() && ChartValid()
    {
      var close := MovedPrice(price, PriceChange(trend, momentum, d.noise));
      var bar := MakeBar(clock, currentOpen, close, currentVolume, d);
      if bars != [] {
        assert currentOpen == price;
        BarLowPositive(clock, price, close, currentVolume, d);
      }
      ChartGrows(bars, bar);
      RecordBar(close, bar);
    }

    /** Step 3 of `next_hour`: record the bar, advance the clock and open the next hour at `close`. */
    method RecordBar(close: real, bar: Bar)
      modifies this`price, this`bars, this`clock, this`history, this`currentOpen,
               this`currentVolume, this`momentum
      ensures price == close && bars == old(bars) + [bar] && clock == old(clock) + 1
      ensures history == old(history) + [close]
      ensures currentOpen == close && currentVolume == 0 && momentum == 0.0
    {
      price, bars, clock := close, bars + [bar], clock + 1;
      history := history + [close];
      currentOpen, currentVolume, momentum := close, 0, 0.0;
    }

    /** `next_hour` up to its closing log line: the bar, the sweep, the log. */
    method CloseHour(d: Draw)
      requires Valid() && Ticking() && d.Valid()
      modifies this`price, this`bars, this`clock, this`history, this`currentOpen,
               this`currentVolume, this`momentum, this`players, this`systemLogs
      ensures PricesValid() && ChartValid() && UniqueEmails(players)
      ensures clock == old(clock) + 1
      ensures price == MovedPrice(old(price), PriceChange(trend, old(momentum), d.noise))
      ensures bars == old(bars) + [MakeBar(old(clock), old(currentOpen), price, old(currentVolume), d)]
      ensures history == old(history) + [price]
      ensures momentum == 0.05 * LiquidationCount(old(players), price) as real
      ensures currentVolume == LiquidatedQty(old(players), price)
      ensures players == Sweep(old(players), price)
      ensures systemLogs == Logged(SweepLogs(old(systemLogs), old(players), price), HourClosed(clock, price))
    {
      CloseBar(d);
      LiquidationSweep();
      Log(HourClosed(clock, price));
    }

    method NextHour(d: Draw)
      requires Valid() && d.Valid()
      modifies this`price, this`bars, this`clock, this`history, this`currentOpen,
               this`currentVolume, this`momentum, this`players, this`systemLogs, this`phase
      ensures Valid()
      ensures !old(Ticking()) ==> unchanged(this)
      ensures old(Ticking()) ==> clock == old(clock) + 1
      ensures old(Ticking()) ==> price == MovedPrice(old(price), PriceChange(trend, old(momentum), d.noise))
      ensures old(Ticking()) ==>
        bars == old(bars) + [MakeBar(old(clock), old(currentOpen), price, old(currentVolume), d)]
      ensures old(Ticking()) ==> history == old(history) + [price] && currentOpen == price
      ensures old(Ticking()) ==> momentum == 0.05 * LiquidationCount(old(players), price) as real
      ensures old(Ticking()) ==> currentVolume == LiquidatedQty(old(players), price)
      ensures old(Ticking()) && clock < Hours ==>
        && players == Sweep(old(players), price) && phase == old(phase)
        && systemLogs == Logged(SweepLogs(old(systemLogs), old(players), price), HourClosed(clock, price))
      ensures old(Ticking()) && clock == Hours ==>
        && players == SettleAll(Sweep(old(players), price), price) && phase == Settlement
        && systemLogs == Logged(Logged(SweepLogs(old(systemLogs), old(players), price),
                                       HourClosed(clock, price)), RoundSettled)
    {
      if !isRunning || clock >= Hours {
        return;
      }
      CloseHour(d);
      if clock >= Hours {
        EndGame();
      }
    }

    method PrepareNextRound()
      requires Valid()
      modifies this
      ensures Valid() && Initial()
      ensures players == FreshAccounts(old(players))
    {
      var saved := FreshAccounts(players);
      FreshAccountsKeepRoster(players);
      Reset();
      players := saved;
    }

    method BuyStock(email: string, qty: int) returns (reply: Reply)
      requires Valid()
      modifies this`players, this`currentVolume
      ensures Valid()
      ensures qty <= 0 ==>
        reply == InvalidQuantity && players == old(players) && currentVolume == old(currentVolume)
      ensures qty > 0 && email !in old(Emails(players)) ==>
        reply == UnknownPlayer && players == old(players) && currentVolume == old(currentVolume)
      ensures qty > 0 && email in old(Emails(players)) ==>
        var i := FindPlayer(old(players), email).value;
        var p := old(players)[i];
        if BuyAccepted(p, qty, price) then
          && reply == BuyDone
          && players == old(players)[i := AfterBuy(p, qty, price)]
          && currentVolume == old(currentVolume) + qty
        else
          reply == InsufficientFunds && players == old(players) && currentVolume == old(currentVolume)
    {
      if qty <= 0 {
        return InvalidQuantity;
      }
      var found := FindPlayer(players, email);
      if found.None? {
        return UnknownPlayer;
      }
      var i := found.value;
      var p := players[i];
      var cost := BuyCost(qty, price);
      if MarginInfo(p, price).available < cost {
        return InsufficientFunds;
      }
      ReplaceKeepsRoster(players, i, AfterBuy(p, qty, price));
      Fill(i, AfterBuy(p, qty, price), qty);
      reply := BuyDone;
    }

    /** `calculate_short_fee`: the fee rate, caching the crowding ratio. */
    method CalculateShortFee() returns (rate: real)
      requires Valid()
      modifies this`shortPressure
      ensures Valid()
      ensures rate == ShortFee(players) && shortPressure == Crowding(players)
    {
      shortPressure := Crowding(players);
      rate := 0.05 + 0.45 * shortPressure;
    }

    method SellStock(email: string, qty: int) returns (reply: Reply)
      requires Valid()
      modifies this`players, this`currentVolume, this`shortPressure
      ensures Valid()
      ensures qty <= 0 ==>
        reply == InvalidQuantity && unchanged(this)
      ensures qty > 0 && email !in old(Emails(players)) ==>
        reply == UnknownPlayer && unchanged(this)
      ensures qty > 0 && email in old(Emails(players)) ==>
        var i := FindPlayer(old(players), email).value;
        var p := old(players)[i];
        var rate := if EndsShort(p, qty) then ShortFee(old(players)) else TradeFee;
        && shortPressure == (if EndsShort(p, qty) then Crowding(old(players)) else old(shortPressure))
        && if SellAccepted(p, qty, price, rate) then
             && reply == SellDone
             && players == old(players)[i := AfterSell(p, qty, price, rate)]
             && currentVolume == old(currentVolume) + qty
           else
             reply == InsufficientMargin && players == old(players) && currentVolume == old(currentVolume)
    {
      if qty <= 0 {
        return InvalidQuantity;
      }
      var found := FindPlayer(players, email);
      if found.None? {
        return UnknownPlayer;
      }
      var i := found.value;
      var p := players[i];
      var rate := TradeFee;
      if EndsShort(p, qty) {
        rate := CalculateShortFee();
      }
      if !SellAccepted(p, qty, price, rate) {
        return InsufficientMargin;
      }
      ReplaceKeepsRoster(players, i, AfterSell(p, qty, price, rate));
      Fill(i, AfterSell(p, qty, price, rate), qty);
      reply := SellDone;
    }

    /** The bookkeeping of an accepted trade: the account at `i` becomes `q`
        and the hour's volume grows by the shares traded. */
    method Fill(i: nat, q: Player, qty: nat)
      requires i < |players|
      modifies this`players, this`currentVolume
      ensures players == old(players)[i := q] && currentVolume == old(currentVolume) + qty
    {
      players := players[i := q];
      currentVolume := currentVolume + qty;
    }

    /** `purchase_intel`; `headline` is the formatted text of the news
        generator, which is not part of this model. */
    method PurchaseIntel(email: string, up: bool, headline: string) returns (reply: Reply)
      requires Valid()
      modifies this`players, this`momentum, this`systemLogs, this`messages
      ensures Valid()
      ensures email !in old(Emails(players)) ==> reply == UnknownPlayer && unchanged(this)
      ensures email in old(Emails(players)) ==>
        var i := FindPlayer(old(players), email).value;
        var p := old(players)[i];
        var s := AccountStatus(p, price);
        if IntelBlocked(s) then
          reply == IntelRefused(s) && unchanged(this)
        else if Available(p, price) < IntelCost then
          reply == IntelUnaffordable && unchanged(this)
        else
          var actual := Impact(old(momentum), BaseImpact(p.role, up), volatilityLimit);
          && reply == IntelPublished
          && momentum == old(momentum) + actual
          && players == old(players)[i := AfterIntel(p, up, actual)]
          && systemLogs == old(systemLogs) + [News(headline)]
          && messages == old(messages) + [Bulletin(headline)]
    {
      var found := FindPlayer(players, email);
      if found.None? {
        return UnknownPlayer;
      }
      var i := found.value;
      var p := players[i];
      var status := AccountStatus(p, price);
      if IntelBlocked(status) {
        return IntelRefused(status);
      }
      if MarginInfo(p, price).available < IntelCost {
        return IntelUnaffordable;
      }
      var actual := Impact(momentum, BaseImpact(p.role, up), volatilityLimit);
      ReplaceKeepsRoster(players, i, AfterIntel(p, up, actual));
      Publish(i, up, actual, headline);
      reply := IntelPublished;
    }

    /** The effects of an accepted `purchase_intel`: the momentum push, the
        charge on the buyer and the bulletin, which goes to the system log
        directly, past the cap of `log`. */
    method Publish(i: nat, up: bool, actual: real, headline: string)
      requires i < |players|
      modifies this`players, this`momentum, this`systemLogs, this`messages
      ensures momentum == old(momentum) + actual
      ensures players == old(players)[i := AfterIntel(old(players)[i], up, actual)]
      ensures systemLogs == old(systemLogs) + [News(headline)]
      ensures messages == old(messages) + [Bulletin(headline)]
    {
      momentum := momentum + actual;
      systemLogs := systemLogs + [News(headline)];
      messages := messages + [Bulletin(headline)];
      players := players[i := AfterIntel(players[i], up, actual)];
    }

    method PostMessage(email: string, content: string) returns (reply: Reply)
      requires Valid()
      modifies this`messages
      ensures Valid()
      ensures email !in old(Emails(players)) ==> reply == UnknownPlayer && messages == old(messages)
      ensures email in old(Emails(players)) ==>
        var p := players[FindPlayer(players, email).value];
        reply == MessageSent && messages == old(messages) + [Chat(p.role == MarketMaker, p.name, content)]
    {
      var found := FindPlayer(players, email);
      if found.None? {
        return UnknownPlayer;
      }
      var p := players[found.value];
      messages := messages + [Chat(p.role == MarketMaker, p.name, content)];
      reply := MessageSent;
    }
  }
}
