/**
 * The new-token / big-move watcher of pumpfun-advanced.js. Each tick fetches the newest
 * coins; a coin whose mint has not been seen since the watcher started is announced once
 * as new, and a coin already seen gets a price sample, raising a "big move" alert when the
 * jump over the window reaches the threshold, after which its series is cleared.
 *
 * Network results are inputs: the feed payload, the Birdeye price of each coin (`None` for
 * `null`) and the clock reading at which it was recorded. Telegram messages are returned
 * as events, in the order they are sent.
 */
module PumpfunAdvanced {
  import opened Wrappers
  import opened PriceWindow

  /** The feed keeps at most this many coins (`slice(0, 20)`). */
  const FEED_LIMIT: nat := 20

  /** A coin of the feed; an absent or empty field is "". */
  datatype Coin = Coin(mint: string, mintAddress: string, address: string, tokenMint: string)

  /** The response of the pump.fun feed request. */
  datatype Payload =
    | ArrayBody(items: seq<Coin>)                  // the body is an array
    | ObjectBody(coins: Option<seq<Coin>>)         // an object, with or without a `coins` array
    | OtherBody                                    // anything else
    | RequestFailed                                // the request threw

  /** What the watcher sends to the chat. */
  datatype Event =
    | WatcherActive
    | NewToken(mint: string, price: Option<real>)
    | BigMove(mint: string, jumpPct: real)

  /** One coin of a tick with the price fetched for it and the clock at that moment. */
  datatype Fetched = Fetched(coin: Coin, price: Option<real>, now: int)

  /** The price and clock observed for one coin of a tick. */
  datatype Quote = Quote(price: Option<real>, now: int)

  /** The state one tick reads and updates: the mints seen since start, and the price cache. */
  datatype WatchState = WatchState(seen: set<string>, cache: PriceCache)

  datatype Outcome = Outcome(state: WatchState, events: seq<Event>)

  /** `fetchNewestCoins`: the first twenty coins of an array body or of its `coins` array, else none. */
  function NewestCoins(payload: Payload): (r: seq<Coin>)
    ensures |r| <= FEED_LIMIT
    ensures payload.ArrayBody? ==>
      r <= payload.items && |r| == (if |payload.items| <= FEED_LIMIT then |payload.items| else FEED_LIMIT)
    ensures payload.ObjectBody? && payload.coins.Some? ==>
      r <= payload.coins.value &&
      |r| == (if |payload.coins.value| <= FEED_LIMIT then |payload.coins.value| else FEED_LIMIT)
    ensures payload.OtherBody? || payload.RequestFailed? || payload == ObjectBody(None) ==> r == []
  {
    match payload
    case ArrayBody(items) => if |items| <= FEED_LIMIT then items else items[..FEED_LIMIT]
    case ObjectBody(Some(coins)) => if |coins| <= FEED_LIMIT then coins else coins[..FEED_LIMIT]
    case _ => []
  }

  /** The mint of a coin: the first non-empty of `mint`, `mintAddress`, `address`, `tokenMint`. */
  function MintOf(c: Coin): (r: Option<string>)
    ensures r == None <==> c.mint == "" && c.mintAddress == "" && c.address == "" && c.tokenMint == ""
    ensures r.Some? ==> r.value != ""
    ensures c.mint != "" ==> r == Some(c.mint)
    ensures c.mint == "" && c.mintAddress != "" ==> r == Some(c.mintAddress)
    ensures c.mint == "" && c.mintAddress == "" && c.address != "" ==> r == Some(c.address)
    ensures c.mint == "" && c.mintAddress == "" && c.address == "" && c.tokenMint != "" ==> r == Some(c.tokenMint)
  {
    if c.mint != "" then Some(c.mint)
    else if c.mintAddress != "" then Some(c.mintAddress)
    else if c.address != "" then Some(c.address)
    else if c.tokenMint != "" then Some(c.tokenMint)
    else None
  }

  /** The price as shown in a new-token message: only when truthy. */
  function Shown(price: Option<real>): Option<real>
  {
    if IsTruthy(price) then price else None
  }

  /** The jump of mint `m` once the price of `f` is recorded. */
  function JumpAfter(s: WatchState, f: Fetched, m: string): real
  {
    JumpPct(SeriesOf(Recorded(s.cache, m, f.price, f.now), m))
  }

  /**
   * The decision for one coin of the feed (the body of the `for (const c of newest)` loop).
   * At most one event; a coin without a mint changes nothing; otherwise its mint joins the
   * seen set, and a big move is raised only for a mint seen before, with a truthy price and
   * a jump at or above the threshold, and leaves that mint without a series.
   */
  function Step(s: WatchState, f: Fetched): (r: Outcome)
    ensures |r.events| <= 1
    ensures MintOf(f.coin).None? ==> r == Outcome(s, [])
    ensures MintOf(f.coin).Some? ==> r.state.seen == s.seen + {MintOf(f.coin).value}
    ensures r.events != [] ==> !r.events[0].WatcherActive? && MintOf(f.coin) == Some(r.events[0].mint)
    ensures r.events != [] && r.events[0].NewToken? ==> r.events[0].mint !in s.seen
    ensures r.events != [] && r.events[0].BigMove? ==>
      r.events[0].mint in s.seen && IsTruthy(f.price) && r.events[0].jumpPct >= MCAP_JUMP_PCT &&
      r.events[0].mint !in r.state.cache
  {
    match MintOf(f.coin)
    case None => Outcome(s, [])
    case Some(m) =>
      if m !in s.seen then
        Outcome(WatchState(s.seen + {m}, Recorded(s.cache, m, f.price, f.now)), [NewToken(m, Shown(f.price))])
      else if !IsTruthy(f.price) then
        Outcome(s, [])
      else
        var cache := Recorded(s.cache, m, f.price, f.now);
        var jump := JumpAfter(s, f, m);
        if jump >= MCAP_JUMP_PCT then Outcome(WatchState(s.seen, cache - {m}), [BigMove(m, jump)])
        else Outcome(WatchState(s.seen, cache), [])
  }

  /** The coins of a sequence of feed items, in order, processed one after another: at most one event per coin. */
  function Run(s: WatchState, fs: seq<Fetched>): (r: Outcome)
    ensures |r.events| <= |fs|
    decreases |fs|
  {
    if fs == [] then Outcome(s, [])
    else
      var o := Step(s, fs[0]);
      var rest := Run(o.state, fs[1..]);
      Outcome(rest.state, o.events + rest.events)
  }

  /** Pairs each coin of a tick with the quote observed for it. */
  function Observe(coins: seq<Coin>, quotes: seq<Quote>): (r: seq<Fetched>)
    requires |quotes| == |coins|
    ensures |r| == |coins|
    ensures forall i :: 0 <= i < |r| ==> r[i] == Fetched(coins[i], quotes[i].price, quotes[i].now)
  {
    seq(|coins|, i requires 0 <= i < |coins| => Fetched(coins[i], quotes[i].price, quotes[i].now))
  }

  /** The mints carried by a sequence of feed items. */
  function Mints(fs: seq<Fetched>): set<string>
    decreases |fs|
  {
    if fs == [] then {}
    else (if MintOf(fs[0].coin).Some? then {MintOf(fs[0].coin).value} else {}) + Mints(fs[1..])
  }

  /** How many new-token announcements name mint `m`. */
  function NewTokenCount(m: string, events: seq<Event>): nat
    decreases |events|
  {
    if events == [] then 0
    else (if events[0].NewToken? && events[0].mint == m then 1 else 0) + NewTokenCount(m, events[1..])
  }

  lemma {:induction false} NewTokenCountAppend(m: string, a: seq<Event>, b: seq<Event>)
    ensures NewTokenCount(m, a + b) == NewTokenCount(m, a) + NewTokenCount(m, b)
  {
    if a == [] {
      assert a + b == b;
    } else {
      assert (a + b)[1..] == a[1..] + b;
      NewTokenCountAppend(m, a[1..], b);
    }
  }

  /** Every key of the cache is a non-empty mint with at least one sample. */
  ghost predicate CacheWellFormed(cache: PriceCache)
  {
    forall m :: m in cache ==> m != "" && |cache[m]| >= 1
  }

  /** One coin: skipped with no effect when it has no mint. */
  lemma StepSkipsMintless(s: WatchState, f: Fetched)
    requires MintOf(f.coin) == None
    ensures Step(s, f) == Outcome(s, [])
  {
  }

  /** One coin with mint `m`: afterwards `m` is in the seen set, and nothing else joins it. */
  lemma StepSeen(s: WatchState, f: Fetched, m: string)
    requires MintOf(f.coin) == Some(m)
    ensures Step(s, f).state.seen == s.seen + {m}
  {
  }

  /** One coin with mint `m`: announced as new exactly when `m` was not yet seen. */
  lemma StepNewToken(s: WatchState, f: Fetched, m: string)
    requires MintOf(f.coin) == Some(m)
    ensures m !in s.seen ==> Step(s, f).events == [NewToken(m, Shown(f.price))]
    ensures m in s.seen ==> forall e :: e in Step(s, f).events ==> !e.NewToken?
  {
    if m in s.seen {
      var o := Step(s, f);
      assert o.events == [] || o.events == [BigMove(m, JumpAfter(s, f, m))];
    }
  }

  /**
   * One coin with mint `m`: a big-move alert, carrying the jump, exactly when `m` was seen,
   * the price is truthy and the jump reaches the threshold; the alerted mint then has no series.
   */
  lemma StepBigMove(s: WatchState, f: Fetched, m: string)
    requires MintOf(f.coin) == Some(m)
    ensures Step(s, f).events == [BigMove(m, JumpAfter(s, f, m))] <==>
      m in s.seen && IsTruthy(f.price) && JumpAfter(s, f, m) >= MCAP_JUMP_PCT
    ensures Step(s, f).events == [BigMove(m, JumpAfter(s, f, m))] ==> m !in Step(s, f).state.cache
    ensures m in s.seen ==>
      Step(s, f).events ==
        (if IsTruthy(f.price) && JumpAfter(s, f, m) >= MCAP_JUMP_PCT then [BigMove(m, JumpAfter(s, f, m))] else [])
  {
  }

  /** One coin with mint `m` leaves the series of every other mint as it was. */
  lemma StepFrame(s: WatchState, f: Fetched, m: string, k: string)
    requires MintOf(f.coin) == Some(m) && k != m
    ensures SeriesOf(Step(s, f).state.cache, k) == SeriesOf(s.cache, k)
  {
    var c := Recorded(s.cache, m, f.price, f.now);
    assert SeriesOf(c, k) == SeriesOf(s.cache, k);
    assert SeriesOf(c - {m}, k) == SeriesOf(s.cache, k);
  }

  /**
   * One coin with mint `m`: its price is recorded on every path (for a new mint and for a
   * seen one); after a big move the mint's series is then deleted.
   */
  lemma StepRecords(s: WatchState, f: Fetched, m: string)
    requires MintOf(f.coin) == Some(m)
    ensures var r := Step(s, f);
      r.state.cache ==
        if r.events != [] && r.events[0].BigMove? then Recorded(s.cache, m, f.price, f.now) - {m}
        else Recorded(s.cache, m, f.price, f.now)
  {
    var c := Recorded(s.cache, m, f.price, f.now);
    if m !in s.seen {
      assert Step(s, f).state.cache == c;
    } else if !IsTruthy(f.price) {
      assert c == s.cache;
    } else if JumpAfter(s, f, m) >= MCAP_JUMP_PCT {
      assert Step(s, f) == Outcome(WatchState(s.seen, c - {m}), [BigMove(m, JumpAfter(s, f, m))]);
    } else {
      assert Step(s, f) == Outcome(WatchState(s.seen, c), []);
    }
  }

  /**
   * Reset after firing: a seen mint without a series (as after an alert) gets a single
   * sample on its next truthy price, a jump of zero, and raises nothing.
   */
  lemma NoRefireAfterReset(s: WatchState, f: Fetched, m: string)
    requires MintOf(f.coin) == Some(m) && m in s.seen && m !in s.cache
    ensures Step(s, f).events == []
    ensures IsTruthy(f.price) ==> Step(s, f).state.cache[m] == [Sample(f.now, f.price.value)]
  {
    if IsTruthy(f.price) {
      var c := Recorded(s.cache, m, f.price, f.now);
      assert SeriesOf(s.cache, m) == [];
      assert |c[m]| == 1;
    }
  }

  /** Recording a price keeps the cache well formed. */
  lemma RecordedKeepsCacheWellFormed(cache: PriceCache, mint: string, price: Option<real>, now: int)
    requires CacheWellFormed(cache)
    ensures CacheWellFormed(Recorded(cache, mint, price, now))
  {
    var r := Recorded(cache, mint, price, now);
    forall k | k in r
      ensures k != "" && |r[k]| >= 1
    {
      if k != mint {
        assert k in cache;
      }
    }
  }

  /** Every step keeps the cache well formed. */
  lemma StepKeepsCacheWellFormed(s: WatchState, f: Fetched)
    requires CacheWellFormed(s.cache)
    ensures CacheWellFormed(Step(s, f).state.cache)
  {
    if MintOf(f.coin).Some? {
      var m := MintOf(f.coin).value;
      RecordedKeepsCacheWellFormed(s.cache, m, f.price, f.now);
    }
  }

  /** A whole sequence of feed items keeps the cache well formed. */
  lemma {:induction false} RunKeepsCacheWellFormed(s: WatchState, fs: seq<Fetched>)
    requires CacheWellFormed(s.cache)
    ensures CacheWellFormed(Run(s, fs).state.cache)
    decreases |fs|
  {
    if fs != [] {
      StepKeepsCacheWellFormed(s, fs[0]);
      RunKeepsCacheWellFormed(Step(s, fs[0]).state, fs[1..]);
    }
  }

  /** The first `i + 1` items are the first `i` followed by item `i`. */
  lemma PrefixSnoc(fs: seq<Fetched>, i: nat)
    requires i < |fs|
    ensures fs[..i + 1] == fs[..i] + [fs[i]]
  {
  }

  /** Processing feed items only adds their mints to the seen set. */
  lemma {:induction false} RunSeen(s: WatchState, fs: seq<Fetched>)
    ensures Run(s, fs).state.seen == s.seen + Mints(fs)
    decreases |fs|
  {
    if fs != [] {
      var o := Step(s, fs[0]);
      if MintOf(fs[0].coin).Some? {
        StepSeen(s, fs[0], MintOf(fs[0].coin).value);
      }
      RunSeen(o.state, fs[1..]);
    }
  }

  /** Feed items processed in two batches give the same result as one batch. */
  lemma {:induction false} RunAppend(s: WatchState, a: seq<Fetched>, b: seq<Fetched>)
    ensures Run(s, a + b).state == Run(Run(s, a).state, b).state
    ensures Run(s, a + b).events == Run(s, a).events + Run(Run(s, a).state, b).events
    decreases |a|
  {
    if a == [] {
      assert a + b == b;
    } else {
      assert (a + b)[0] == a[0];
      assert (a + b)[1..] == a[1..] + b;
      var o := Step(s, a[0]);
      RunAppend(o.state, a[1..], b);
      var ra := Run(o.state, a[1..]);
      var rb := Run(ra.state, b);
      assert o.events + (ra.events + rb.events) == (o.events + ra.events) + rb.events;
    }
  }

  /** A mint already seen is never announced as new again. */
  lemma {:induction false} NoNewTokenForSeen(s: WatchState, fs: seq<Fetched>, m: string)
    requires m in s.seen
    ensures NewTokenCount(m, Run(s, fs).events) == 0
    decreases |fs|
  {
    if fs != [] {
      var o := Step(s, fs[0]);
      if MintOf(fs[0].coin).Some? {
        StepNewToken(s, fs[0], MintOf(fs[0].coin).value);
      }
      assert NewTokenCount(m, o.events) == 0;
      NoNewTokenForSeen(o.state, fs[1..], m);
      NewTokenCountAppend(m, o.events, Run(o.state, fs[1..]).events);
    }
  }

  /** A mint not yet seen is announced exactly once if the feed carries it, and never otherwise. */
  lemma {:induction false} NewTokenExactlyOnce(s: WatchState, fs: seq<Fetched>, m: string)
    requires m !in s.seen
    ensures NewTokenCount(m, Run(s, fs).events) == (if m in Mints(fs) then 1 else 0)
    decreases |fs|
  {
    if fs != [] {
      var o := Step(s, fs[0]);
      var rest := Run(o.state, fs[1..]);
      NewTokenCountAppend(m, o.events, rest.events);
      match MintOf(fs[0].coin)
      case None =>
        NewTokenExactlyOnce(o.state, fs[1..], m);
      case Some(k) =>
        StepSeen(s, fs[0], k);
        StepNewToken(s, fs[0], k);
        if k == m {
          NoNewTokenForSeen(o.state, fs[1..], m);
        } else {
          NewTokenExactlyOnce(o.state, fs[1..], m);
        }
    }
  }

  /** When every mint of the feed is already seen, no new-token announcement is made. */
  lemma {:induction false} NoNewTokenWhenAllSeen(s: WatchState, fs: seq<Fetched>)
    requires Mints(fs) <= s.seen
    ensures forall e :: e in Run(s, fs).events ==> !e.NewToken?
    decreases |fs|
  {
    if fs != [] {
      var o := Step(s, fs[0]);
      if MintOf(fs[0].coin).Some? {
        StepNewToken(s, fs[0], MintOf(fs[0].coin).value);
      }
      assert forall e :: e in o.events ==> !e.NewToken?;
      NoNewTokenWhenAllSeen(o.state, fs[1..]);
    }
  }

  /**
   * Every big move of a run comes from a coin of the run carrying that mint with a truthy
   * price, at a point where the mint had already been seen (before the run, or from an
   * earlier coin of it), and reaches the threshold.
   */
  lemma {:induction false} RunBigMoveOrigin(s: WatchState, fs: seq<Fetched>, e: Event)
    requires e in Run(s, fs).events && e.BigMove?
    ensures e.jumpPct >= MCAP_JUMP_PCT
    ensures exists j ::
      0 <= j < |fs| && MintOf(fs[j].coin) == Some(e.mint) && IsTruthy(fs[j].price) && e.mint in s.seen + Mints(fs[..j])
    decreases |fs|
  {
    var o := Step(s, fs[0]);
    var rest := Run(o.state, fs[1..]);
    if e in o.events {
      assert e == o.events[0];
      assert fs[..0] == [];
      assert 0 <= 0 < |fs| && MintOf(fs[0].coin) == Some(e.mint) && IsTruthy(fs[0].price) && e.mint in s.seen + Mints(fs[..0]);
    } else {
      RunBigMoveOrigin(o.state, fs[1..], e);
      var j :| 0 <= j < |fs| - 1 && MintOf(fs[1..][j].coin) == Some(e.mint) && IsTruthy(fs[1..][j].price) &&
        e.mint in o.state.seen + Mints(fs[1..][..j]);
      MintsCons(fs, j);
      assert fs[j + 1] == fs[1..][j];
      assert 0 <= j + 1 < |fs| && MintOf(fs[j + 1].coin) == Some(e.mint) && IsTruthy(fs[j + 1].price) && e.mint in s.seen + Mints(fs[..j + 1]);
    }
  }

  /** The mints of the first `j + 1` items: those of the first item and of the `j` after it. */
  lemma MintsCons(fs: seq<Fetched>, j: nat)
    requires j < |fs|
    ensures Mints(fs[..j + 1]) == (if MintOf(fs[0].coin).Some? then {MintOf(fs[0].coin).value} else {}) + Mints(fs[1..][..j])
  {
    assert fs[..j + 1][0] == fs[0];
    assert fs[..j + 1][1..] == fs[1..][..j];
  }

  /** Fetching the same coins on the next tick announces none of them as new a second time. */
  lemma RefetchAnnouncesNothingNew(s: WatchState, first: seq<Fetched>, again: seq<Fetched>)
    requires Mints(again) <= Mints(first)
    ensures forall e :: e in Run(Run(s, first).state, again).events ==> !e.NewToken?
  {
    RunSeen(s, first);
    NoNewTokenWhenAllSeen(Run(s, first).state, again);
  }

  /**
   * With threshold 25%: a mint first seen at price 1.00, then quoted 1.30 a minute later,
   * raises one big move of 30%; a quote of 1.31 a minute after that raises nothing.
   */
  lemma BigMoveFiresOnce(m: string)
    requires m != ""
    ensures var coin := Coin(m, "", "", "");
      var s0 := WatchState({}, map[]);
      var o1 := Step(s0, Fetched(coin, Some(1.00), 0));
      var o2 := Step(o1.state, Fetched(coin, Some(1.30), 60000));
      var o3 := Step(o2.state, Fetched(coin, Some(1.31), 120000));
      o1.events == [NewToken(m, Some(1.00))] && o2.events == [BigMove(m, 30.0)] && o3.events == []
  {
    var coin := Coin(m, "", "", "");
    assert MintOf(coin) == Some(m);
    var f1 := Fetched(coin, Some(1.00), 0);
    var f2 := Fetched(coin, Some(1.30), 60000);
    var c1 := Recorded(map[], m, Some(1.00), 0);
    assert c1[m] == [Sample(0, 1.00)];
    var o1 := Step(WatchState({}, map[]), f1);
    assert o1 == Outcome(WatchState({m}, c1), [NewToken(m, Some(1.00))]);
    var c2 := Recorded(c1, m, Some(1.30), 60000);
    assert Recent([Sample(0, 1.00)], Cutoff(60000)) == [Sample(0, 1.00)];
    assert c2[m] == [Sample(0, 1.00), Sample(60000, 1.30)];
    assert JumpPct(c2[m]) == (1.30 - 1.00) / 1.00 * 100.0 == 30.0;
    var o2 := Step(o1.state, f2);
    assert o2 == Outcome(WatchState({m}, c2 - {m}), [BigMove(m, 30.0)]);
    NoRefireAfterReset(o2.state, Fetched(coin, Some(1.31), 120000), m);
  }

  /**
   * The watcher's mutable state: the module-level `running` flag and price cache, and the
   * `seen` set that each start of the watcher creates afresh.
   */
  class PumpfunWatcher {
    var running: bool
    var seen: set<string>
    var cache: PriceCache

    function State(): WatchState
      reads this
    {
      WatchState(seen, cache)
    }

    /**
     * The cache holds only entries `recordPrice` can create: a non-empty mint with a non-empty
     * series. A sanity invariant that every method keeps; no other contract depends on it.
     */
    ghost predicate Valid()
      reads this
    {
      CacheWellFormed(cache)
    }

    /** Module load: not running, nothing seen, an empty cache. */
    constructor ()
      ensures Valid() && !running && seen == {} && cache == map[]
    {
      running := false;
      seen := {};
      cache := map[];
    }

    /** `startPumpfunWatcher`: a no-op while running; otherwise sets the flag, announces itself and starts with an empty seen set. */
    method Start() returns (events: seq<Event>)
      requires Valid()
      modifies this`running, this`seen
      ensures Valid() && running && cache == old(cache)
      ensures old(running) ==> events == [] && seen == old(seen)
      ensures !old(running) ==> events == [WatcherActive] && seen == {}
    {
      if running {
        events := [];
        return;
      }
      running := true;
      events := [WatcherActive];
      seen := {};
    }

    /** `stopPumpfunWatcher`: clears the flag; the seen set and cache stay as they are. */
    method Stop()
      modifies this`running
      ensures !running
    {
      running := false;
    }

    /** `recordPrice`: prunes the mint's series to the window and appends the sample. */
    method RecordPrice(mint: string, price: Option<real>, now: int)
      requires Valid()
      modifies this`cache
      ensures Valid()
      ensures cache == Recorded(old(cache), mint, price, now)
    {
      RecordedKeepsCacheWellFormed(cache, mint, price, now);
      if !IsTruthy(price) || mint == "" {
        return;
      }
      var series := SeriesOf(cache, mint);
      var cutoff := Cutoff(now);
      var cleaned: seq<Sample> := [];
      var i := 0;
      while i < |series|
        invariant 0 <= i <= |series|
        invariant cleaned == Recent(series[..i], cutoff)
        invariant cache == old(cache)
      {
        RecentAppend(series[..i], [series[i]], cutoff);
        assert series[..i + 1] == series[..i] + [series[i]];
        if series[i].t >= cutoff {
          cleaned := cleaned + [series[i]];
        }
        i := i + 1;
      }
      assert series[..i] == series;
      cleaned := cleaned + [Sample(now, price.value)];
      cache := cache[mint := cleaned];
    }

    /** One coin of the feed, as `Step` decides it. */
    method ProcessItem(f: Fetched) returns (events: seq<Event>)
      requires Valid()
      modifies this`seen, this`cache
      ensures Valid()
      ensures Outcome(State(), events) == Step(old(State()), f)
    {
      StepKeepsCacheWellFormed(State(), f);
      var mintOpt := MintOf(f.coin);
      if mintOpt.None? {
        events := [];
        return;
      }
      var mint := mintOpt.value;
      if mint !in seen {
        seen := seen + {mint};
        RecordPrice(mint, f.price, f.now);
        events := [NewToken(mint, Shown(f.price))];
      } else if IsTruthy(f.price) {
        RecordPrice(mint, f.price, f.now);
        var jump := JumpPct(SeriesOf(cache, mint));
        if jump >= MCAP_JUMP_PCT {
          events := [BigMove(mint, jump)];
          cache := cache - {mint};
        } else {
          events := [];
        }
      } else {
        events := [];
      }
    }

    /**
     * One pass of the `while (running)` loop: the newest coins of the payload, each with
     * the quote observed for it, processed in order. Nothing happens once stopped.
     */
    method Tick(payload: Payload, quotes: seq<Quote>) returns (events: seq<Event>)
      requires Valid()
      requires |quotes| == |NewestCoins(payload)|
      modifies this`seen, this`cache
      ensures Valid() && running == old(running)
      ensures !running ==> events == [] && seen == old(seen) && cache == old(cache)
      ensures running ==> Outcome(State(), events) == Run(old(State()), Observe(NewestCoins(payload), quotes))
    {
      events := [];
      if running {
        events := ProcessAll(Observe(NewestCoins(payload), quotes));
      }
    }

    /** The `for (const c of newest)` loop: each item in turn, as `Run` describes. */
    method ProcessAll(items: seq<Fetched>) returns (events: seq<Event>)
      requires Valid()
      modifies this`seen, this`cache
      ensures Valid()
      ensures Outcome(State(), events) == Run(old(State()), items)
    {
      events := [];
      var i := 0;
      while i < |items|
        invariant 0 <= i <= |items|
        invariant Valid()
        invariant Outcome(State(), events) == Run(old(State()), items[..i])
      {
        ghost var before := State();
        var more := ProcessItem(items[i]);
        RunAppend(old(State()), items[..i], [items[i]]);
        PrefixSnoc(items, i);
        assert Run(before, [items[i]]) == Outcome(State(), more + []);
        assert more + [] == more;
        events := events + more;
        i := i + 1;
      }
      assert items[..i] == items;
    }
  }
}
