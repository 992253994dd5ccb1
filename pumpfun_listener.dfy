/**
 * The simple Pump.fun listener of pumpfun-listener.js: every poll fetches the first
 * trending token and announces it unless its mint equals the last one announced.
 *
 * The first element of each response is an input (`None` when the request fails or the
 * response has no truthy first element). A token's `mint` is `None` when the property is
 * missing (`undefined`), and `lastSeen` holds either such a value or a string.
 */
module PumpfunListener {
  import opened Wrappers

  datatype TokenData = TokenData(mint: Option<string>)

  /** What the listener sends to the chat. */
  datatype Message = WatcherActive | NewTokenNotice(token: TokenData)

  /** `lastSeen` before the first poll: the empty string. */
  const INITIAL_LAST_SEEN: Option<string> := Some("")

  datatype PollResult = PollResult(lastSeen: Option<string>, notice: Option<Message>)

  /**
   * One poll: a notice exactly when a first token exists and its mint differs from
   * `lastSeen`, which then becomes that mint; otherwise `lastSeen` is unchanged.
   */
  function Poll(lastSeen: Option<string>, first: Option<TokenData>): (r: PollResult)
    ensures r.notice.Some? <==> first.Some? && first.value.mint != lastSeen
    ensures r.notice.Some? ==> r.notice.value == NewTokenNotice(first.value) && r.lastSeen == first.value.mint
    ensures r.notice.None? ==> r.lastSeen == lastSeen
  {
    if first.Some? && first.value.mint != lastSeen then
      PollResult(first.value.mint, Some(NewTokenNotice(first.value)))
    else
      PollResult(lastSeen, None)
  }

  /** The notices sent over a sequence of polls, starting from `lastSeen`. */
  function Notices(lastSeen: Option<string>, polls: seq<Option<TokenData>>): (r: seq<Message>)
    ensures |r| <= |polls|
    ensures forall i :: 0 <= i < |r| ==> r[i].NewTokenNotice?
    decreases |polls|
  {
    if polls == [] then []
    else
      var step := Poll(lastSeen, polls[0]);
      (if step.notice.Some? then [step.notice.value] else []) + Notices(step.lastSeen, polls[1..])
  }

  /** The polls that returned a token, in order. */
  function Present(polls: seq<Option<TokenData>>): (r: seq<Option<TokenData>>)
    ensures forall i :: 0 <= i < |r| ==> r[i].Some?
    decreases |polls|
  {
    if polls == [] then []
    else (if polls[0].Some? then [polls[0]] else []) + Present(polls[1..])
  }

  /** `watchPumpFun`: the startup message, then the dedup loop over the given polls. */
  method WatchPumpFun(polls: seq<Option<TokenData>>) returns (sent: seq<Message>)
    ensures sent == [WatcherActive] + Notices(INITIAL_LAST_SEEN, polls)
  {
    sent := [WatcherActive];
    var lastSeen := INITIAL_LAST_SEEN;
    var i := 0;
    while i < |polls|
      invariant 0 <= i <= |polls|
      invariant sent + Notices(lastSeen, polls[i..]) == [WatcherActive] + Notices(INITIAL_LAST_SEEN, polls)
    {
      assert polls[i..][0] == polls[i];
      assert polls[i..][1..] == polls[i + 1..];
      var tokenData := polls[i];
      if tokenData.Some? && tokenData.value.mint != lastSeen {
        lastSeen := tokenData.value.mint;
        sent := sent + [NewTokenNotice(tokenData.value)];
      }
      i := i + 1;
    }
  }

  /** Failed or empty polls send nothing and leave `lastSeen` alone: only the returned tokens matter. */
  lemma {:induction false} FailedPollsIgnored(lastSeen: Option<string>, polls: seq<Option<TokenData>>)
    ensures Notices(lastSeen, polls) == Notices(lastSeen, Present(polls))
    decreases |polls|
  {
    if polls != [] {
      var step := Poll(lastSeen, polls[0]);
      FailedPollsIgnored(step.lastSeen, polls[1..]);
      if polls[0].Some? {
        var p := Present(polls);
        assert p[0] == polls[0] && p[1..] == Present(polls[1..]);
        assert Notices(lastSeen, p) ==
          (if step.notice.Some? then [step.notice.value] else []) + Notices(step.lastSeen, p[1..]);
      } else {
        assert Present(polls) == Present(polls[1..]);
        assert Notices(lastSeen, polls) == Notices(lastSeen, polls[1..]);
      }
    }
  }

  /**
   * No two consecutive notices name the same mint, and the first notice's mint differs
   * from the `lastSeen` the polls started from.
   */
  lemma {:induction false} NoticesNeverRepeatConsecutively(lastSeen: Option<string>, polls: seq<Option<TokenData>>)
    ensures var n := Notices(lastSeen, polls);
      (|n| > 0 ==> n[0].token.mint != lastSeen) &&
      forall i :: 0 <= i < |n| - 1 ==> n[i].token.mint != n[i + 1].token.mint
    decreases |polls|
  {
    if polls != [] {
      var step := Poll(lastSeen, polls[0]);
      NoticesNeverRepeatConsecutively(step.lastSeen, polls[1..]);
      var rest := Notices(step.lastSeen, polls[1..]);
      var n := Notices(lastSeen, polls);
      if step.notice.Some? {
        assert n == [step.notice.value] + rest;
        forall i | 0 <= i < |n| - 1
          ensures n[i].token.mint != n[i + 1].token.mint
        {
          if i > 0 {
            assert n[i] == rest[i - 1] && n[i + 1] == rest[i];
          }
        }
      }
    }
  }

  /** The same token returned by consecutive polls is announced once (or never, if already last seen). */
  lemma {:induction false} RepeatedTokenAnnouncedOnce(lastSeen: Option<string>, t: TokenData, k: nat)
    requires k >= 1
    ensures Notices(lastSeen, seq(k, _ => Some(t))) == if t.mint != lastSeen then [NewTokenNotice(t)] else []
    decreases k
  {
    var polls := seq(k, _ => Some(t));
    assert polls[1..] == seq(k - 1, _ => Some(t));
    if k > 1 {
      RepeatedTokenAnnouncedOnce(t.mint, t, k - 1);
      RepeatedTokenAnnouncedOnce(lastSeen, t, 1);
    }
  }

  /** Only the latest mint is remembered: A, B, A announces three times. */
  lemma OnlyLatestRemembered(a: TokenData, b: TokenData)
    requires a.mint != b.mint && a.mint != INITIAL_LAST_SEEN
    ensures Notices(INITIAL_LAST_SEEN, [Some(a), Some(b), Some(a)]) ==
      [NewTokenNotice(a), NewTokenNotice(b), NewTokenNotice(a)]
  {
    var polls := [Some(a), Some(b), Some(a)];
    assert polls[1..] == [Some(b), Some(a)];
    assert polls[1..][1..] == [Some(a)];
    assert Notices(b.mint, [Some(a)]) == [NewTokenNotice(a)];
    assert Notices(a.mint, [Some(b), Some(a)]) == [NewTokenNotice(b), NewTokenNotice(a)];
  }

  /**
   * Since `lastSeen` starts as "", the first token returned after startup whose mint is
   * not "" is announced, whatever failed polls or tokens with mint "" came before it.
   */
  lemma {:induction false} FirstTokenAnnounced(ignored: seq<Option<TokenData>>, t: TokenData, rest: seq<Option<TokenData>>)
    requires forall i :: 0 <= i < |ignored| ==> ignored[i].None? || ignored[i].value.mint == INITIAL_LAST_SEEN
    requires t.mint != INITIAL_LAST_SEEN
    ensures var polls := ignored + [Some(t)] + rest;
      |Notices(INITIAL_LAST_SEEN, polls)| >= 1 && Notices(INITIAL_LAST_SEEN, polls)[0] == NewTokenNotice(t)
    decreases |ignored|
  {
    var polls := ignored + [Some(t)] + rest;
    if ignored == [] {
      assert polls == [Some(t)] + rest;
      assert polls[1..] == rest;
    } else {
      FirstTokenAnnounced(ignored[1..], t, rest);
      assert polls[0] == ignored[0];
      assert polls[1..] == ignored[1..] + [Some(t)] + rest;
    }
  }
}
