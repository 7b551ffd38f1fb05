/** The admin controls of the backend, acting on the one shared `GameState`,
    and the final leaderboard of the dashboard. */
module Admin {
  import opened Account
  import opened Market
  import opened Game

  /** The account `admin_start` registers when nobody has joined. */
  const BotEmail: string := "bot1@ai.com"
  const BotName: string := "Bot A"

  /** The status strings of the admin controls other than `admin_start`. */
  datatype Notice = NotRunning | SkippedTo(hour: nat) | FastForwarded | Restarted

  // ---- the leaderboard ----

  /** Richest first, by cash. */
  predicate RankedByCash(ps: seq<Player>)
  {
    forall i, j :: 0 <= i < j < |ps| ==> ps[i].cash >= ps[j].cash
  }

  /** Places `p` ahead of the first ranked account holding no more cash than it. */
  function Insert(p: Player, ranked: seq<Player>): (r: seq<Player>)
    ensures |r| == |ranked| + 1
    ensures multiset(r) == multiset(ranked) + multiset{p}
    ensures r[0] == p || (ranked != [] && r[0] == ranked[0])
  {
    if ranked == [] || ranked[0].cash <= p.cash then [p] + ranked
    else
      assert ranked == [ranked[0]] + ranked[1..];
      [ranked[0]] + Insert(p, ranked[1..])
  }

  lemma RankedTail(ps: seq<Player>)
    requires ps != [] && RankedByCash(ps)
    ensures RankedByCash(ps[1..])
  {
    var tail := ps[1..];
    forall i, j | 0 <= i < j < |tail| ensures tail[i].cash >= tail[j].cash {
      assert tail[i] == ps[i + 1] && tail[j] == ps[j + 1];
    }
  }

  /** Insertion into a ranked list keeps it ranked. */
  lemma {:induction false} InsertKeepsRanked(p: Player, ranked: seq<Player>)
    requires RankedByCash(ranked)
    ensures RankedByCash(Insert(p, ranked))
  {
    var r := Insert(p, ranked);
    if ranked != [] && ranked[0].cash > p.cash {
      var tail := ranked[1..];
      RankedTail(ranked);
      InsertKeepsRanked(p, tail);
      var rest := Insert(p, tail);
      assert r == [ranked[0]] + rest;
      assert ranked[0].cash >= rest[0].cash by {
        if tail != [] {
          assert tail[0] == ranked[1];
        }
      }
      forall i, j | 0 <= i < j < |r| ensures r[i].cash >= r[j].cash {
        assert r[j] == rest[j - 1];
        if i == 0 {
          if j > 1 {
            assert rest[0].cash >= rest[j - 1].cash;
          }
        } else {
          assert r[i] == rest[i - 1];
        }
      }
    }
  }

  /** `sorted(players.values(), key=cash, reverse=True)`: a descending sort
      that keeps registration order among equal cash, built by insertion. */
  function Leaderboard(ps: seq<Player>): (r: seq<Player>)
    ensures multiset(r) == multiset(ps)
    ensures RankedByCash(r)
  {
    if ps == [] then []
    else
      assert ps == [ps[0]] + ps[1..];
      InsertKeepsRanked(ps[0], Leaderboard(ps[1..]));
      Insert(ps[0], Leaderboard(ps[1..]))
  }

  /** The accounts holding exactly `c` cash, in list order. */
  function WithCash(ps: seq<Player>, c: real): seq<Player>
  {
    if ps == [] then []
    else (if ps[0].cash == c then [ps[0]] else []) + WithCash(ps[1..], c)
  }

  lemma WithCashCons(x: Player, s: seq<Player>, c: real)
    ensures WithCash([x] + s, c) == (if x.cash == c then [x] else []) + WithCash(s, c)
  {
    assert ([x] + s)[0] == x && ([x] + s)[1..] == s;
  }

  /** Insertion places `p` ahead of every account holding the same cash. */
  lemma {:induction false} InsertKeepsTies(p: Player, ranked: seq<Player>, c: real)
    ensures WithCash(Insert(p, ranked), c) == (if p.cash == c then [p] else []) + WithCash(ranked, c)
  {
    if ranked == [] || ranked[0].cash <= p.cash {
      WithCashCons(p, ranked, c);
    } else {
      var head, tail := ranked[0], ranked[1..];
      assert ranked == [head] + tail;
      InsertKeepsTies(p, tail, c);
      WithCashCons(head, Insert(p, tail), c);
      WithCashCons(head, tail, c);
      var mine: seq<Player> := if p.cash == c then [p] else [];
      var theirs: seq<Player> := if head.cash == c then [head] else [];
      assert mine == [] || theirs == [];
      if mine == [] {
        assert mine + (theirs + WithCash(tail, c)) == theirs + WithCash(tail, c);
      } else {
        assert theirs + (mine + WithCash(tail, c)) == mine + WithCash(tail, c);
      }
    }
  }

  /** The sort is stable: among accounts with equal cash the leaderboard keeps
      the order of the roster. */
  lemma {:induction false} LeaderboardStable(ps: seq<Player>, c: real)
    ensures WithCash(Leaderboard(ps), c) == WithCash(ps, c)
  {
    if ps != [] {
      LeaderboardStable(ps[1..], c);
      InsertKeepsTies(ps[0], Leaderboard(ps[1..]), c);
    }
  }

  /** The table is shown only once the round is settled. */
  function Standings(phase: Phase, ps: seq<Player>): (r: Option<seq<Player>>)
    ensures r.Some? <==> phase == Settlement
    ensures r.Some? ==> multiset(r.value) == multiset(ps) && RankedByCash(r.value)
    ensures r.Some? ==> forall c :: WithCash(r.value, c) == WithCash(ps, c)
  {
    if phase == Settlement then
      assert forall c :: WithCash(Leaderboard(ps), c) == WithCash(ps, c) by {
        forall c { LeaderboardStable(ps, c); }
      }
      Some(Leaderboard(ps))
    else None
  }

  /** An account that out-earns every ranked one lands on top. */
  lemma InsertRichest(p: Player, ranked: seq<Player>)
    requires ranked == [] || ranked[0].cash <= p.cash
    ensures Insert(p, ranked) == [p] + ranked
  {
  }

  /** A roster already ranked by cash is left in its order: the sort only
      moves accounts that are out of order. */
  lemma {:induction false} LeaderboardKeepsRanked(ps: seq<Player>)
    requires RankedByCash(ps)
    ensures Leaderboard(ps) == ps
  {
    if ps != [] {
      var tail := ps[1..];
      RankedTail(ps);
      LeaderboardKeepsRanked(tail);
      if tail != [] {
        assert tail[0] == ps[1];
      }
      InsertRichest(ps[0], tail);
      assert [ps[0]] + tail == ps;
    }
  }

  /** Ranking the leaderboard again changes nothing. */
  lemma LeaderboardIdempotent(ps: seq<Player>)
    ensures Leaderboard(Leaderboard(ps)) == Leaderboard(ps)
  {
    LeaderboardKeepsRanked(Leaderboard(ps));
  }

  /** The first row holds at least as much cash as any account in the roster. */
  lemma LeaderboardTop(ps: seq<Player>, k: nat)
    requires k < |ps|
    ensures Leaderboard(ps) != [] && Leaderboard(ps)[0].cash >= ps[k].cash
  {
    var r := Leaderboard(ps);
    assert ps[k] in multiset(r) by {
      assert ps[k] in multiset(ps);
    }
    assert ps[k] in r;
    var j :| 0 <= j < |r| && r[j] == ps[k];
    if j > 0 {
      assert r[0].cash >= r[j].cash;
    }
  }

  // ---- the admin controls ----

  function Bot(): Player { NewPlayer(BotEmail, BotName) }

  /** The roster of the bot alone, and the only market-maker draw over it. */
  lemma BotRoster()
    ensures Emails([Bot()]) == {BotEmail}
    ensures AssignRoles([Bot()], {BotEmail}) == [Bot().(role := MarketMaker)]
  {
    assert [Bot()][0].email == BotEmail;
  }

  /** `admin_start`: with nobody registered the bot account joins first, then
      the round starts. `sample` is the market-maker draw over the roster
      `start_game` sees. */
  method AdminStart(g: GameState, drift: real, sample: set<string>) returns (reply: Reply)
    requires g.Valid() && -0.02 <= drift <= 0.02
    requires |g.players| == 0 ==> sample == {BotEmail}
    requires |g.players| >= 1 ==>
      sample <= Emails(g.players) && |sample| == MarketMakerQuota(|g.players|)
    modifies g`isRunning, g`phase, g`clock, g`trend, g`bars, g`currentOpen,
             g`currentVolume, g`players, g`systemLogs
    ensures g.Valid()
    ensures reply == GameStarted && g.isRunning && g.phase == Trading && g.clock == 0 && g.trend == drift
    ensures g.bars == [] && g.currentOpen == OpeningPrice && g.currentVolume == 0
    ensures g.systemLogs == Logged(old(g.systemLogs), RoundOpened(|g.players|))
    ensures |old(g.players)| == 0 ==> g.players == [Bot().(role := MarketMaker)]
    ensures |old(g.players)| >= 1 ==> g.players == AssignRoles(old(g.players), sample)
  {
    if |g.players| < 1 {
      var ok, r := g.Register(BotEmail, BotName);
      assert g.players == [Bot()];
      BotRoster();
    }
    reply := g.StartGame(drift, sample);
  }

  /** `admin_skip_time`: one `next_hour` on a running game. */
  method AdminSkipTime(g: GameState, d: Draw) returns (notice: Notice)
    requires g.Valid() && d.Valid()
    modifies g`price, g`bars, g`clock, g`history, g`currentOpen, g`currentVolume,
             g`momentum, g`players, g`systemLogs, g`phase
    ensures g.Valid()
    ensures !old(g.isRunning) ==> notice == NotRunning && unchanged(g)
    ensures old(g.isRunning) ==> notice == SkippedTo(g.clock)
    ensures old(g.isRunning) && old(g.clock) >= Hours ==> unchanged(g)
    ensures old(g.isRunning) && old(g.clock) < Hours ==>
      && g.clock == old(g.clock) + 1
      && g.price == MovedPrice(old(g.price), PriceChange(old(g.trend), old(g.momentum), d.noise))
      && g.bars == old(g.bars) + [MakeBar(old(g.clock), old(g.currentOpen), g.price, old(g.currentVolume), d)]
      && g.history == old(g.history) + [g.price] && g.currentOpen == g.price
      && g.momentum == 0.05 * LiquidationCount(old(g.players), g.price) as real
      && g.currentVolume == LiquidatedQty(old(g.players), g.price)
    ensures old(g.isRunning) && old(g.clock) < Hours && g.clock < Hours ==>
      && g.players == Sweep(old(g.players), g.price) && g.phase == Trading
      && g.systemLogs == Logged(SweepLogs(old(g.systemLogs), old(g.players), g.price), HourClosed(g.clock, g.price))
    ensures old(g.isRunning) && old(g.clock) < Hours && g.clock == Hours ==>
      && g.players == SettleAll(Sweep(old(g.players), g.price), g.price) && g.phase == Settlement
      && g.systemLogs == Logged(Logged(SweepLogs(old(g.systemLogs), old(g.players), g.price),
                                       HourClosed(g.clock, g.price)), RoundSettled)
  {
    if !g.isRunning {
      return NotRunning;
    }
    g.NextHour(d);
    notice := SkippedTo(g.clock);
  }

  /** `admin_skip_to_end`: up to 20 calls of `next_hour` while the clock is
      before hour 12; `draws[k]` is the randomness of the `k`-th call. The
      bound is never the one that stops the loop, since each call advances
      the clock. */
  method AdminSkipToEnd(g: GameState, draws: seq<Draw>) returns (notice: Notice, ghost calls: nat)
    requires g.Valid() && |draws| >= Hours
    requires forall k :: 0 <= k < |draws| ==> draws[k].Valid()
    modifies g`price, g`bars, g`clock, g`history, g`currentOpen, g`currentVolume,
             g`momentum, g`players, g`systemLogs, g`phase
    ensures g.Valid()
    ensures !old(g.isRunning) ==> notice == NotRunning && unchanged(g)
    ensures old(g.isRunning) ==>
      && notice == FastForwarded
      && g.clock == Hours && g.phase == Settlement
      && calls == Hours - old(g.clock)
    ensures |g.players| == |old(g.players)|
    ensures old(g.isRunning) && old(g.clock) < Hours ==>
      forall i :: 0 <= i < |g.players| ==> g.players[i].stock == 0
  {
    calls := 0;
    if !g.isRunning {
      return NotRunning, 0;
    }
    var count := 0;
    while g.clock < Hours && count < 20
      invariant g.Valid() && g.isRunning
      invariant g.clock == old(g.clock) + count && count <= Hours
      invariant |g.players| == |old(g.players)|
      invariant count > 0 && g.clock == Hours ==>
        forall i :: 0 <= i < |g.players| ==> g.players[i].stock == 0
      decreases Hours - g.clock
    {
      g.NextHour(draws[count]);
      count := count + 1;
    }
    calls := count;
    notice := FastForwarded;
  }

  /** `admin_restart_game`: a new round with the same roster on fresh accounts. */
  method AdminRestart(g: GameState) returns (notice: Notice)
    requires g.Valid()
    modifies g
    ensures notice == Restarted
    ensures g.Valid() && g.Initial()
    ensures g.players == FreshAccounts(old(g.players))
  {
    g.PrepareNextRound();
    notice := Restarted;
  }
}
