/**
 * The price history kept per mint by the Pump.fun watcher (pumpfun-advanced.js):
 * a sliding window of `{t, p}` samples, the `recordPrice` update that prunes and
 * appends, and the `computeJumpPct` percentage between the oldest and newest sample.
 * Times are milliseconds; prices are modelled as reals.
 */
module PriceWindow {
  import opened Wrappers

  /** `WINDOW_MIN` and `MCAP_JUMP_PCT` at their default values (watch-config.js). */
  const WINDOW_MIN: int := 5
  const MCAP_JUMP_PCT: real := 25.0

  /** The window length in milliseconds, `WINDOW_MIN * 60 * 1000`. */
  const WINDOW_MS: int := WINDOW_MIN * 60 * 1000

  /** One price sample: time in milliseconds and the USD price. */
  datatype Sample = Sample(t: int, p: real)

  /** The price cache: mint address to its sample series. */
  type PriceCache = map<string, seq<Sample>>

  /** JavaScript truthiness of a price: present and non-zero. */
  predicate IsTruthy(price: Option<real>)
  {
    price.Some? && price.value != 0.0
  }

  /** Oldest timestamp a sample may carry to stay in the window at time `now`. */
  function Cutoff(now: int): int
  {
    now - WINDOW_MS
  }

  /** `priceCache.get(mint) || []`. */
  function SeriesOf(cache: PriceCache, mint: string): seq<Sample>
  {
    if mint in cache then cache[mint] else []
  }

  /** `series.filter(p => p.t >= cutoff)`: the samples still inside the window, in order. */
  function Recent(series: seq<Sample>, cutoff: int): (r: seq<Sample>)
    ensures |r| <= |series|
    ensures forall i :: 0 <= i < |r| ==> r[i].t >= cutoff
  {
    if series == [] then []
    else (if series[0].t >= cutoff then [series[0]] else []) + Recent(series[1..], cutoff)
  }

  /** A sample survives pruning exactly when it was in the series and is not older than the cutoff. */
  lemma {:induction false} RecentKeeps(series: seq<Sample>, cutoff: int, x: Sample)
    ensures x in Recent(series, cutoff) <==> x in series && x.t >= cutoff
  {
    if series != [] {
      RecentKeeps(series[1..], cutoff, x);
      assert series == [series[0]] + series[1..];
    }
  }

  /** Pruning distributes over concatenation, so retained samples keep their relative order. */
  lemma {:induction false} RecentAppend(a: seq<Sample>, b: seq<Sample>, cutoff: int)
    ensures Recent(a + b, cutoff) == Recent(a, cutoff) + Recent(b, cutoff)
  {
    if a == [] {
      assert a + b == b;
    } else {
      assert (a + b)[0] == a[0];
      assert (a + b)[1..] == a[1..] + b;
      RecentAppend(a[1..], b, cutoff);
    }
  }

  /** A series lying wholly inside the window loses nothing to pruning. */
  lemma {:induction false} RecentAllInWindow(series: seq<Sample>, cutoff: int)
    requires forall i :: 0 <= i < |series| ==> series[i].t >= cutoff
    ensures Recent(series, cutoff) == series
  {
    if series != [] {
      RecentAllInWindow(series[1..], cutoff);
    }
  }

  /**
   * `recordPrice(mint, price)` at time `now`, on the cache as a value: a falsy price or
   * mint leaves the cache alone; otherwise the mint's series is pruned to the window and
   * the new sample appended, and no other mint's entry changes.
   */
  function Recorded(cache: PriceCache, mint: string, price: Option<real>, now: int): (r: PriceCache)
    ensures !IsTruthy(price) || mint == "" ==> r == cache
    ensures IsTruthy(price) && mint != "" ==>
      && mint in r
      && r == cache[mint := r[mint]]
      && |r[mint]| >= 1
      && r[mint][|r[mint]| - 1] == Sample(now, price.value)
      && r[mint][..|r[mint]| - 1] == Recent(SeriesOf(cache, mint), Cutoff(now))
      && (forall i :: 0 <= i < |r[mint]| ==> r[mint][i].t >= now - WINDOW_MIN * 60 * 1000)
  {
    if !IsTruthy(price) || mint == "" then cache
    else
      var cleaned := Recent(SeriesOf(cache, mint), Cutoff(now)) + [Sample(now, price.value)];
      assert cleaned[..|cleaned| - 1] == Recent(SeriesOf(cache, mint), Cutoff(now));
      cache[mint := cleaned]
  }

  /** The series recorded for a truthy price: the old series pruned to the window, then the new sample. */
  lemma RecordedSeries(cache: PriceCache, mint: string, price: Option<real>, now: int)
    requires IsTruthy(price) && mint != ""
    ensures Recorded(cache, mint, price, now)[mint] == Recent(SeriesOf(cache, mint), Cutoff(now)) + [Sample(now, price.value)]
  {
  }

  /**
   * `computeJumpPct`: the percentage change from the oldest to the newest sample; zero
   * for fewer than two samples or when either end price is zero.
   */
  function JumpPct(series: seq<Sample>): (r: real)
    ensures |series| < 2 ==> r == 0.0
    ensures |series| >= 2 && (series[0].p == 0.0 || series[|series| - 1].p == 0.0) ==> r == 0.0
  {
    if |series| < 2 then 0.0
    else
      var first := series[0].p;
      var last := series[|series| - 1].p;
      if first == 0.0 || last == 0.0 then 0.0
      else (last - first) / first * 100.0
  }

  /** With both end prices non-zero, the jump is the percentage change: `jump * first == (last - first) * 100`. */
  lemma JumpPctIsPercentChange(series: seq<Sample>)
    requires |series| >= 2 && series[0].p != 0.0 && series[|series| - 1].p != 0.0
    ensures JumpPct(series) * series[0].p == (series[|series| - 1].p - series[0].p) * 100.0
  {
    var first, last := series[0].p, series[|series| - 1].p;
    assert (last - first) / first * first == last - first;
  }

  /**
   * When the alert threshold is reached (the comparison is inclusive): for a positive
   * opening price exactly when the newest price is at least `1 + MCAP_JUMP_PCT / 100`
   * times the oldest; for a negative one exactly when it is at most that multiple; for a
   * zero opening price never.
   */
  lemma JumpReachesThreshold(series: seq<Sample>)
    requires |series| >= 2
    ensures var first, last := series[0].p, series[|series| - 1].p;
      JumpPct(series) >= MCAP_JUMP_PCT <==>
        (first > 0.0 && last * 4.0 >= first * 5.0) || (first < 0.0 && last * 4.0 <= first * 5.0)
  {
    var first, last := series[0].p, series[|series| - 1].p;
    if first != 0.0 && last != 0.0 {
      var r := JumpPct(series);
      JumpPctIsPercentChange(series);
      assert (r - MCAP_JUMP_PCT) * first == (last * 4.0 - first * 5.0) * 25.0;
      if first > 0.0 {
        assert (r - MCAP_JUMP_PCT) * first >= 0.0 <==> r >= MCAP_JUMP_PCT;
      } else {
        assert (r - MCAP_JUMP_PCT) * first <= 0.0 <==> r >= MCAP_JUMP_PCT;
      }
    }
  }

  /**
   * The sign of the jump: positive exactly when the price rose from a positive opening
   * price, or fell (grew in magnitude) from a negative one; so with positive prices only
   * upward moves can raise an alert.
   */
  lemma JumpUpwardOnly(series: seq<Sample>)
    requires |series| >= 2
    ensures var first, last := series[0].p, series[|series| - 1].p;
      JumpPct(series) > 0.0 <==> last != 0.0 && ((first > 0.0 && last > first) || (first < 0.0 && last < first))
  {
    var first, last := series[0].p, series[|series| - 1].p;
    if first != 0.0 && last != 0.0 {
      var r := JumpPct(series);
      JumpPctIsPercentChange(series);
      if first > 0.0 {
        assert r * first > 0.0 <==> r > 0.0;
      } else {
        assert r * first < 0.0 <==> r > 0.0;
      }
    }
  }

  /**
   * Samples at minutes 0, 5 and 8; the minute-10 sample is recorded with a five-minute
   * window: the minute-0 sample is dropped, the one exactly at the cutoff is kept.
   */
  lemma WindowPruningExample()
    ensures Recorded(map["m" := [Sample(0, 1.0), Sample(300000, 2.0), Sample(480000, 3.0)]], "m", Some(4.0), 600000)["m"]
      == [Sample(300000, 2.0), Sample(480000, 3.0), Sample(600000, 4.0)]
  {
    var series := [Sample(0, 1.0), Sample(300000, 2.0), Sample(480000, 3.0)];
    var cutoff := Cutoff(600000);
    assert cutoff == 300000;
    RecentAllInWindow(series[1..], cutoff);
    assert Recent(series, cutoff) == series[1..];
    assert SeriesOf(map["m" := series], "m") == series;
    RecordedSeries(map["m" := series], "m", Some(4.0), 600000);
  }
}
