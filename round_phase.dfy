/**
 * The round status engine of the round page: the phase of a round derived
 * afresh from the clock, the whole-second countdown a timer tick computes,
 * the condition under which a tick reloads the round for its statistics, and
 * the choice of phase view. All times are milliseconds.
 */
module RoundPhase {
  import opened Wrappers
  import opened Types

  datatype Phase = Cooldown | Active | Finished

  /** The phase of a round with the given start and end at time `now`. */
  function PhaseAt(now: int, start: int, end: int): (p: Phase)
    ensures p == Cooldown <==> now < start
    ensures p == Active <==> start <= now < end
    ensures p == Finished <==> start <= now && end <= now
  {
    if now < start then Cooldown
    else if now >= start && now < end then Active
    else Finished
  }

  /** `getRoundStatus()`: no phase (the empty status) while no round is loaded. */
  function StatusOf(round: Option<Round>, now: int): (s: Option<Phase>)
    ensures s.None? <==> round.None?
    ensures s.Some? ==> s.value == PhaseAt(now, round.value.startTime, round.value.endTime)
  {
    match round
    case None => None
    case Some(r) => Some(PhaseAt(now, r.startTime, r.endTime))
  }

  function Rank(p: Phase): nat {
    match p
    case Cooldown => 0
    case Active => 1
    case Finished => 2
  }

  /** As the clock advances the phase only moves forward: COOLDOWN, ACTIVE, FINISHED. */
  lemma PhaseNeverGoesBack(t1: int, t2: int, start: int, end: int)
    requires t1 <= t2
    ensures Rank(PhaseAt(t1, start, end)) <= Rank(PhaseAt(t2, start, end))
  {
  }

  /** `Math.max(0, Math.floor((target - now) / 1000))`: whole seconds left until `target`. */
  function SecondsUntil(target: int, now: int): (r: nat)
    ensures now >= target ==> r == 0
    ensures now < target ==> r * 1000 <= target - now < r * 1000 + 1000
  {
    var whole := (target - now) / 1000;
    if whole < 0 then 0 else whole
  }

  /**
   * The countdown a tick leaves in `timeRemaining`: seconds to the start in
   * COOLDOWN, seconds to the end in ACTIVE, and the previous value in FINISHED.
   */
  function Countdown(p: Phase, now: int, start: int, end: int, previous: int): (r: int)
    ensures p == Finished ==> r == previous
    ensures p == Cooldown ==> r >= 0 && (start <= now ==> r == 0)
    ensures p == Cooldown && now < start ==> r * 1000 <= start - now < r * 1000 + 1000
    ensures p == Active ==> r >= 0 && (end <= now ==> r == 0)
    ensures p == Active && now < end ==> r * 1000 <= end - now < r * 1000 + 1000
  {
    match p
    case Cooldown => SecondsUntil(start, now)
    case Active => SecondsUntil(end, now)
    case Finished => previous
  }

  /** From a non-negative countdown, a tick in any phase leaves a non-negative one (FINISHED keeps the previous value). */
  lemma CountdownNonNegative(now: int, start: int, end: int, previous: int)
    requires previous >= 0
    ensures Countdown(PhaseAt(now, start, end), now, start, end, previous) >= 0
  {
  }

  /**
   * The tick's stats trigger as written: only in ACTIVE with nothing left
   * to count down and no leaderboard yet. FINISHED never triggers it.
   */
  predicate StatsReloadDue(p: Phase, remaining: int, topStatsEmpty: bool) {
    p == Active && remaining == 0 && topStatsEmpty
  }

  /**
   * A tick at `now` reloads exactly in the last, partial second of the
   * active window: at most 999 ms before the end, not before the start,
   * and only while no leaderboard is held (so it re-fires on every such tick).
   */
  lemma {:induction false} ReloadWindow(now: int, start: int, end: int, previous: int, topStatsEmpty: bool)
    ensures
      var p := PhaseAt(now, start, end);
      StatsReloadDue(p, Countdown(p, now, start, end, previous), topStatsEmpty)
      <==> topStatsEmpty && start <= now && end - 1000 < now < end
  {
    // While active, SecondsUntil's floor bounds give 0 exactly when end - now < 1000.
  }

  /** The phase views of the round page (which block of the page is shown). */
  predicate ShowsCooldown(p: Phase) {
    p == Cooldown
  }

  predicate ShowsActive(p: Phase, timeRemaining: int) {
    p == Active && timeRemaining > 0
  }

  predicate RoundOver(p: Phase, timeRemaining: int) {
    (p == Active && timeRemaining <= 0) || p == Finished
  }

  predicate ShowsResultsLoading(p: Phase, timeRemaining: int, topStatsEmpty: bool) {
    RoundOver(p, timeRemaining) && topStatsEmpty
  }

  predicate ShowsResults(p: Phase, timeRemaining: int, topStatsEmpty: bool) {
    RoundOver(p, timeRemaining) && !topStatsEmpty
  }

  /** With a round loaded, exactly one of the four phase views is shown. */
  lemma ExactlyOneView(p: Phase, timeRemaining: int, topStatsEmpty: bool)
    ensures ShowsCooldown(p) || ShowsActive(p, timeRemaining)
         || ShowsResultsLoading(p, timeRemaining, topStatsEmpty) || ShowsResults(p, timeRemaining, topStatsEmpty)
    ensures ShowsCooldown(p) ==> !ShowsActive(p, timeRemaining) && !RoundOver(p, timeRemaining)
    ensures ShowsActive(p, timeRemaining) ==> !RoundOver(p, timeRemaining)
    ensures !(ShowsResultsLoading(p, timeRemaining, topStatsEmpty) && ShowsResults(p, timeRemaining, topStatsEmpty))
  {
  }

  /** `getStatusTitle()`: the heading for each phase, empty without a round. */
  function StatusTitle(s: Option<Phase>): (title: string)
    ensures title == "" <==> s.None?
    ensures s == Some(Cooldown) <==> title == "Запланирован"
    ensures s == Some(Active) <==> title == "Активен"
    ensures s == Some(Finished) <==> title == "Раунд завершен"
  {
    match s
    case None => ""
    case Some(Cooldown) => "Запланирован"
    case Some(Active) => "Активен"
    case Some(Finished) => "Раунд завершен"
  }

  // ---- Finding: a tick that lands in FINISHED never fetches the results ----

  /**
   * A page opened exactly at the start of a two-second round, ticking every
   * 1000 ms, passes from "1 second left" straight to FINISHED: no tick fires
   * the stats reload, yet the last one leaves the "loading results" view up.
   */
  lemma ReloadSkippedAtWholeSeconds()
    ensures forall k :: 0 <= k <= 2 ==>
      var now := 1000 * k;
      var p := PhaseAt(now, 0, 2000);
      !StatsReloadDue(p, Countdown(p, now, 0, 2000, 1), true)
    ensures PhaseAt(2000, 0, 2000) == Finished
    ensures ShowsResultsLoading(PhaseAt(2000, 0, 2000), Countdown(Finished, 2000, 0, 2000, 1), true)
  {
    forall k | 0 <= k <= 2
      ensures var now := 1000 * k;
              var p := PhaseAt(now, 0, 2000);
              !StatsReloadDue(p, Countdown(p, now, 0, 2000, 1), true)
    {
      ReloadWindow(1000 * k, 0, 2000, 1, true);
    }
  }

  /**
   * The intended trigger: reload whenever the round is over and no
   * leaderboard is held, so the results view is never left waiting.
   */
  predicate StatsReloadIntended(p: Phase, remaining: int, topStatsEmpty: bool) {
    topStatsEmpty && ((p == Active && remaining <= 0) || p == Finished)
  }

  /**
   * With the intended trigger, every tick at or after the end of the round
   * reloads while no leaderboard is held, so a failed fetch is retried until
   * the stats arrive. By definition the intended trigger is the condition of
   * the "loading results" view, so that view always has a fetch behind it.
   */
  lemma IntendedReloadAfterEnd(now: int, start: int, end: int, previous: int, topStatsEmpty: bool)
    requires start <= end <= now
    ensures
      var p := PhaseAt(now, start, end);
      StatsReloadIntended(p, Countdown(p, now, start, end, previous), topStatsEmpty) <==> topStatsEmpty
  {
  }
}
