/**
 * The round page: it loads one round with its statistics, recomputes the
 * phase and the countdown on every timer tick (reloading the round for its
 * results in the last second of play), gates taps on the ACTIVE phase and a
 * one-tap-in-flight latch, and logs out unconditionally.
 */
module RoundDetail {
  import opened Wrappers
  import opened Types
  import opened Session
  import opened RoundPhase

  class RoundDetailPage {
    var round: Option<Round>
    var topStats: seq<TopStat>
    var myStats: Option<MyStats>
    var score: int
    var taps: int
    var timeRemaining: int
    var isLoading: bool
    var error: string
    var isTapping: bool
    /** The route the page last navigated to, if any. */
    var navigatedTo: Option<string>
    const store: AuthStore

    /** The countdown shown to the player is never negative. */
    ghost predicate Valid()
      reads this
    {
      timeRemaining >= 0
    }

    constructor (store: AuthStore)
      ensures Valid() && this.store == store
      ensures round == None && topStats == [] && myStats == None
      ensures score == 0 && taps == 0 && timeRemaining == 0
      ensures isLoading && error == "" && !isTapping && navigatedTo == None
    {
      this.store := store;
      round, topStats, myStats := None, [], None;
      score, taps, timeRemaining := 0, 0, 0;
      isLoading, error, isTapping, navigatedTo := true, "", false, None;
    }

    /** `getRoundStatus()` at time `now`. */
    function Status(now: int): Option<Phase>
      reads this
    {
      StatusOf(round, now)
    }

    /** The mount effect: without a token go to the login route, otherwise start loading the round. */
    method Mount() returns (requested: bool)
      modifies this`navigatedTo, this`isLoading
      ensures requested <==> store.IsAuthenticated()
      ensures !requested ==> navigatedTo == Some("/") && isLoading == old(isLoading)
      ensures requested ==> isLoading && navigatedTo == old(navigatedTo)
    {
      requested := store.IsAuthenticated();
      if !requested {
        navigatedTo := Some("/");
      } else {
        StartLoadRound();
      }
    }

    /** `loadRound` up to the awaited request. */
    method StartLoadRound()
      modifies this`isLoading
      ensures isLoading
    {
      isLoading := true;
    }

    /**
     * `loadRound` after the awaited request: the response replaces the round
     * and both statistics, and the player's own stats (when present) become
     * the score and tap count; a failure only sets the error. Loading ends.
     */
    method CompleteLoadRound(outcome: Outcome<RoundDetailResponse>)
      requires Valid()
      modifies this
      ensures Valid() && !isLoading
      ensures outcome.Ok? ==>
        var data := outcome.value;
        && round == Some(data.round)
        && topStats == data.topStats.GetOr([])
        && myStats == data.myStats
        && (data.myStats.Some? ==> score == data.myStats.value.score && taps == data.myStats.value.taps)
        && (data.myStats.None? ==> score == old(score) && taps == old(taps))
        && error == old(error)
      ensures outcome.Err? ==>
        && round == old(round) && topStats == old(topStats) && myStats == old(myStats)
        && score == old(score) && taps == old(taps)
        && error == "Failed to load round"
      ensures timeRemaining == old(timeRemaining) && isTapping == old(isTapping)
      ensures navigatedTo == old(navigatedTo)
    {
      match outcome {
        case Ok(data) =>
          round := Some(data.round);
          topStats := data.topStats.GetOr([]);
          myStats := data.myStats;
          if data.myStats.Some? {
            score := data.myStats.value.score;
            taps := data.myStats.value.taps;
          }
        case Err(_) =>
          error := "Failed to load round";
      }
      isLoading := false;
    }

    /**
     * One firing of the timer (`updateTimer`) at time `now`. With a round
     * loaded, the countdown becomes the whole seconds to the start (COOLDOWN)
     * or to the end (ACTIVE) and is kept in FINISHED; in ACTIVE with nothing
     * left and no leaderboard the round is reloaded for its results.
     */
    method Tick(now: int) returns (reload: bool)
      requires Valid()
      modifies this`timeRemaining, this`isLoading
      ensures Valid()
      ensures round.Some? ==>
        var r := round.value;
        timeRemaining == Countdown(PhaseAt(now, r.startTime, r.endTime), now, r.startTime, r.endTime, old(timeRemaining))
      ensures round.None? ==> timeRemaining == old(timeRemaining)
      ensures reload <==>
        round.Some? && StatsReloadDue(PhaseAt(now, round.value.startTime, round.value.endTime), timeRemaining, topStats == [])
      ensures isLoading == (old(isLoading) || reload)
    {
      reload := false;
      if round.None? {
        return;
      }
      var startTime, endTime := round.value.startTime, round.value.endTime;
      var currentStatus := PhaseAt(now, startTime, endTime);
      if currentStatus == Cooldown {
        var remaining := SecondsUntil(startTime, now);
        timeRemaining := remaining;
      } else if currentStatus == Active {
        var remaining := SecondsUntil(endTime, now);
        timeRemaining := remaining;
        if remaining == 0 && |topStats| == 0 {
          reload := true;
          StartLoadRound();
        }
      }
    }

    /**
     * `handleTapGoose` up to the awaited request: a tap is sent only with a
     * round loaded, in the ACTIVE phase and with no tap in flight, and then
     * raises the latch; otherwise nothing changes.
     */
    method StartTap(now: int) returns (sent: bool)
      modifies this`isTapping
      ensures sent <==> Status(now) == Some(Active) && !old(isTapping)
      ensures sent ==> isTapping
      ensures !sent ==> isTapping == old(isTapping)
    {
      if round.None? || Status(now) != Some(Active) || isTapping {
        return false;
      }
      isTapping := true;
      sent := true;
    }

    /**
     * `handleTapGoose` after the awaited request: the server's totals become
     * the score and tap count; a failure changes neither. The latch drops.
     */
    method CompleteTap(outcome: Outcome<TapResult>)
      requires isTapping
      modifies this`score, this`taps, this`isTapping
      ensures !isTapping
      ensures outcome.Ok? ==> score == outcome.value.score && taps == outcome.value.taps
      ensures outcome.Err? ==> score == old(score) && taps == old(taps)
    {
      if outcome.Ok? {
        score := outcome.value.score;
        taps := outcome.value.taps;
      }
      isTapping := false;
    }

    /** `handleLogout`: whatever the logout call does, clear the session and go to the login route. */
    method Logout(outcome: Outcome<()>)
      requires store.Valid()
      modifies this`navigatedTo, store
      ensures store.Valid() && store.Current() == Initial
      ensures navigatedTo == Some("/")
    {
      store.ClearAuth();
      navigatedTo := Some("/");
    }

    /** Which screen is rendered: loading, then error or missing round, then the phase views. */
    predicate ShowsLoadingScreen()
      reads this
    {
      isLoading
    }

    predicate ShowsErrorScreen()
      reads this
    {
      !isLoading && (error != "" || round.None?)
    }

    /** The phase view shown at time `now` on the main screen. */
    predicate ShowsPhaseView(now: int, view: PhaseView)
      reads this
    {
      && !isLoading && error == "" && round.Some?
      && var p := PhaseAt(now, round.value.startTime, round.value.endTime);
      match view
      case CooldownView => ShowsCooldown(p)
      case ActiveView => ShowsActive(p, timeRemaining)
      case ResultsLoadingView => ShowsResultsLoading(p, timeRemaining, topStats == [])
      case ResultsView => ShowsResults(p, timeRemaining, topStats == [])
    }

    /**
     * The phase view on screen at time `now`: none on the loading or the
     * error screen, otherwise exactly one of the four.
     */
    function ShownView(now: int): (v: Option<PhaseView>)
      reads this
      ensures v.None? <==> ShowsLoadingScreen() || ShowsErrorScreen()
      ensures forall w :: ShowsPhaseView(now, w) <==> v == Some(w)
    {
      if isLoading || error != "" || round.None? then None
      else
        var p := PhaseAt(now, round.value.startTime, round.value.endTime);
        ExactlyOneView(p, timeRemaining, topStats == []);
        if ShowsCooldown(p) then Some(CooldownView)
        else if ShowsActive(p, timeRemaining) then Some(ActiveView)
        else if topStats == [] then Some(ResultsLoadingView)
        else Some(ResultsView)
    }
  }

  datatype PhaseView = CooldownView | ActiveView | ResultsLoadingView | ResultsView

  /** Number of timer firings in `ticks` that fall in the last, partial second of play. */
  function TicksInLastSecond(ticks: seq<int>, start: int, end: int): nat {
    if ticks == [] then 0
    else
      var t := ticks[|ticks| - 1];
      TicksInLastSecond(ticks[..|ticks| - 1], start, end)
        + (if InLastSecond(t, start, end) then 1 else 0)
  }

  /** A timer firing at `t` falls in the last, partial second of play of a round from `start` to `end`. */
  predicate InLastSecond(t: int, start: int, end: int) {
    start <= t && end - 1000 < t < end
  }

  /**
   * The page opens round `r` (with no leaderboard yet) and the timer fires at
   * each time in `ticks`, with no reload answered meanwhile: firing `i`
   * requests a reload exactly when it falls in the last, partial second of
   * play, so the reloads number the firings in that window, and the
   * countdown never goes negative.
   */
  method RunTimer(token: string, r: Round, ticks: seq<int>) returns (reloaded: seq<bool>, reloads: nat, remaining: int)
    requires token != ""
    ensures |reloaded| == |ticks|
    ensures forall i :: 0 <= i < |ticks| ==> (reloaded[i] <==> InLastSecond(ticks[i], r.startTime, r.endTime))
    ensures reloads == TicksInLastSecond(ticks, r.startTime, r.endTime)
    ensures remaining >= 0
  {
    var store := new AuthStore();
    store.SetAuth(token, "player", false);
    var page := new RoundDetailPage(store);
    var requested := page.Mount();
    page.CompleteLoadRound(Ok(RoundDetailResponse(r, None, None)));
    reloaded, reloads := [], 0;
    var i := 0;
    while i < |ticks|
      invariant fresh(page)
      invariant 0 <= i <= |ticks|
      invariant page.Valid() && page.round == Some(r) && page.topStats == []
      invariant |reloaded| == i
      invariant forall k :: 0 <= k < i ==> (reloaded[k] <==> InLastSecond(ticks[k], r.startTime, r.endTime))
      invariant reloads == TicksInLastSecond(ticks[..i], r.startTime, r.endTime)
    {
      var reload := page.Tick(ticks[i]);
      ReloadWindow(ticks[i], r.startTime, r.endTime, 0, true);
      assert ticks[..i + 1][..i] == ticks[..i];
      reloaded := reloaded + [reload];
      if reload {
        reloads := reloads + 1;
      }
      i := i + 1;
    }
    assert ticks[..|ticks|] == ticks;
    remaining := page.timeRemaining;
  }

  /**
   * Two quick taps at the same instant on a freshly loaded round, the first
   * answered with `result`: only an ACTIVE round sends the first, the second
   * is never sent while the first is in flight, and the score shown is the
   * server's when a tap went out and the initial zero otherwise.
   */
  method TapTwice(token: string, r: Round, now: int, result: TapResult)
    returns (firstSent: bool, secondSent: bool, shownScore: int)
    requires token != ""
    ensures firstSent <==> PhaseAt(now, r.startTime, r.endTime) == Active
    ensures !secondSent
    ensures shownScore == if firstSent then result.score else 0
  {
    var store := new AuthStore();
    store.SetAuth(token, "player", false);
    var page := new RoundDetailPage(store);
    var requested := page.Mount();
    page.CompleteLoadRound(Ok(RoundDetailResponse(r, None, None)));
    firstSent := page.StartTap(now);
    secondSent := page.StartTap(now);
    if firstSent {
      page.CompleteTap(Ok(result));
    }
    shownScore := page.score;
  }
}
