# Goose game client — a Dafny model

A model of the browser client of a timed "tap the goose" round game. A
player logs in, browses a cursor-paginated list of rounds and, on a round's
page, taps the goose while the round is active. The model covers:

- **the round status engine** (`RoundPhase`): a round's phase (COOLDOWN,
  ACTIVE, FINISHED) as a pure function of the clock and the round's
  timestamps, the whole-second countdown a timer tick computes, the
  condition for reloading the round to get its results, and the choice of
  phase view;
- **the countdown text** (`TimeFormat`): `formatTime` as minutes, a colon and
  two-digit seconds, with the decimal rendering of numbers spelled out;
- **the session store** (`Session`): token, username and admin flag, with
  `setAuth`, `clearAuth`, `isAuthenticated` and the persisted copy;
- **the three pages** as classes whose fields are the pages' state:
  `Auth.AuthPage` (login), `RoundsList.RoundsListPage` (first load, load
  more, create, logout) and `RoundDetail.RoundDetailPage` (load, tick, tap,
  logout);
- **the HTTP client** (`Api`) only as far as its logic reaches the pages:
  the URL of a rounds request and the error a refused login rejects with.

Timestamps are integer milliseconds. `Math.floor(x / 1000)` with its
positive divisor is Dafny's `/`. Every awaited call is split into a `Start…`
method (what the handler does before the `await`) and a `Complete…` method
that receives the call's `Outcome`: `Ok(value)` or `Err(thrown)`, where the
thrown value is an `Error` with its message or any other value. Each firing
of the one-second interval is a call `Tick(now)`. The scenario methods
(`SubmitOnce`, `BrowseAllPages`, `ListAfterLogin`, `RunTimer`, `TapTwice`,
`ReloadRoundTrip`)
are clients that drive fresh objects through these steps.

The model follows the code as written, also where the code's own
evidence points to a different intent:

- The code reloads statistics only in ACTIVE with zero seconds left
  (src/pages/RoundDetailPage.tsx:49). It never reloads in FINISHED,
  although the "loading results" view is shown there too
  (src/pages/RoundDetailPage.tsx:228). While the leaderboard is empty it
  re-fires on every such tick, not once. See the findings.
- The countdown is floored to whole seconds (src/pages/RoundDetailPage.tsx:42,46).
- The admin flag is read from `isAdmin` in the login body
  (src/pages/AuthPage.tsx:22), although the declared login response
  carries `role` (src/services/api.ts:8-12). See the findings.

## Model

| member | source | states |
|---|---|---|
| `Api.RoundsUrl` | src/services/api.ts:33-36 | the rounds URL carries the cursor in its query exactly when the cursor is truthy (present and non-empty), and the raw text after `?cursor=` is exactly that cursor |
| `Api.LoginFailure` | src/services/api.ts:24-28 | a refused login rejects with an Error whose message is the response text when there is one and "Invalid credentials" for an empty body; never an empty message |
| `TimeFormat.Decimal` | src/pages/RoundDetailPage.tsx:118-120 | a non-negative integer renders as a digit string that reads back as the number, has no leading zero, and has at most two digits below 100 |
| `TimeFormat.LeadingZero` | src/pages/RoundDetailPage.tsx:120 | a leading "0" does not change the number a digit string denotes (what zero padding relies on) |
| `TimeFormat.PadStart2` | src/pages/RoundDetailPage.tsx:120 | `padStart(2, "0")` yields at least two characters, ends with the input, pads only with "0", and keeps the numeric value |
| `TimeFormat.FormatTime` | src/pages/RoundDetailPage.tsx:117-121 | `formatTime(s)` is `mins:dd` with digits on both sides, exactly two after the colon, `dd < 60`, no leading zero in `mins`, and `mins*60 + dd == s` |
| `TimeFormat.FormatTimeInjective` | src/pages/RoundDetailPage.tsx:117-121 | two countdown values that render alike are equal |
| `RoundPhase.PhaseAt` | src/pages/RoundDetailPage.tsx:130-132 | COOLDOWN iff `now < start`, ACTIVE iff `start <= now < end`, FINISHED iff `now >= start` and `now >= end`; exactly one holds |
| `RoundPhase.StatusOf` | src/pages/RoundDetailPage.tsx:123-133 | the status is empty exactly when no round is loaded, otherwise the round's phase at `now` |
| `RoundPhase.PhaseNeverGoesBack` | src/pages/RoundDetailPage.tsx:126-132 | as the clock advances the phase only moves from COOLDOWN to ACTIVE to FINISHED |
| `RoundPhase.SecondsUntil` | src/pages/RoundDetailPage.tsx:42-46 | the countdown is 0 once the target has passed, otherwise the floor of the remaining milliseconds in whole seconds (`r*1000 <= target-now < r*1000+1000`) |
| `RoundPhase.Countdown` | src/pages/RoundDetailPage.tsx:40-48 | in COOLDOWN the new countdown is the whole seconds left to the start, in ACTIVE those left to the end (floored, and 0 once passed); in FINISHED the previous value is kept |
| `RoundPhase.CountdownNonNegative` | src/pages/RoundDetailPage.tsx:40-48 | from a non-negative countdown, a tick never leaves a negative one |
| `RoundPhase.ReloadWindow` | src/pages/RoundDetailPage.tsx:44-51 | a tick reloads the round exactly when no leaderboard is held and `start <= now` and `end - 1000 < now < end`; never in COOLDOWN or FINISHED, and on every such tick |
| `RoundPhase.ExactlyOneView` | src/pages/RoundDetailPage.tsx:205-237 | with a round shown, exactly one of the cooldown, active, results-loading and results views is rendered |
| `RoundPhase.StatusTitle` | src/pages/RoundDetailPage.tsx:135-141 | each phase has its own title and no round has the empty title, in both directions |
| `RoundPhase.ReloadSkippedAtWholeSeconds` | src/pages/RoundDetailPage.tsx:44-51 | as written: ticks at 0, 1000 and 2000 ms of a round from 0 to 2000 ms never reload, yet the last tick leaves the "loading results" view up |
| `RoundPhase.IntendedReloadAfterEnd` | src/pages/RoundDetailPage.tsx:228-234 | corrected trigger (by definition the condition of the "loading results" view): every tick at or after the end reloads exactly while no leaderboard is held |
| `Session.AuthenticatedAfterWrites` | src/store/useAuthStore.ts:19-22 | after `setAuth(t, _, _)` the store is authenticated iff `t != ""`; the initial (cleared) state is not authenticated |
| `Session.AuthStore.constructor` | src/store/useAuthStore.ts:16-18 | a fresh store holds `(null, null, false)` and its persisted copy agrees |
| `Session.AuthStore.Rehydrate` | src/store/useAuthStore.ts:13-27 | a store started from storage holds the stored session, or the initial one when nothing is stored |
| `Session.AuthStore.SetAuth` | src/store/useAuthStore.ts:19-20 | overwrites all three fields with exactly the arguments, unvalidated, and persists them |
| `Session.AuthStore.ClearAuth` | src/store/useAuthStore.ts:21 | resets to `(null, null, false)` (so it is idempotent), persists it, and leaves the store unauthenticated |
| `Session.ReloadRoundTrip` | src/store/useAuthStore.ts:13-27 | a session written by `setAuth` is seen unchanged after a reload; after `clearAuth` a reload sees the initial state |
| `Auth.LoginErrorText` | src/pages/AuthPage.tsx:25-26 | a rejected login shows the Error's message, or "Ошибка входа" for a thrown non-Error |
| `Auth.RefusedLoginIsExplained` | src/pages/AuthPage.tsx:25-26 | a login the server refuses always shows a non-empty message: the response text when there is one, "Invalid credentials" for an empty body |
| `Auth.LoginSession` | src/pages/AuthPage.tsx:22 | as written: the stored session has the body's token and username, and the admin flag is set only by an `isAdmin: true` field |
| `Auth.AdminRoleLost` | src/pages/AuthPage.tsx:22 | as written: a body with `role: ADMIN` and no `isAdmin` field is stored as a non-admin |
| `Auth.LoginSessionIntended` | src/services/api.ts:8-12 | corrected: the stored admin flag is true exactly for `role: ADMIN` |
| `Auth.IntendedSessionAgrees` | src/pages/AuthPage.tsx:22 | the corrected session differs from the written one only in the admin flag, and not at all when the body's `isAdmin` matches its role |
| `Auth.AuthPage.constructor` | src/pages/AuthPage.tsx:9-10 | the page starts with no error and not loading |
| `Auth.AuthPage.StartSubmit` | src/pages/AuthPage.tsx:14-17 | a submit is sent exactly when both `required` fields (lines 67, 84) are non-empty and the button is not disabled by a login in flight (line 92); a sent submit clears the error and raises the loading flag, an unsent one changes nothing |
| `Auth.AuthPage.CompleteSubmit` | src/pages/AuthPage.tsx:19-29 | on success the store gets the body's session and the page goes to "/rounds"; on failure the error is shown and store and route are untouched; loading ends either way |
| `Auth.SubmitOnce` | src/pages/AuthPage.tsx:14-29 | one login on a fresh page: with an empty field nothing is sent and the store, route and error stay as they were; otherwise success stores the session, lands on "/rounds" with no error, and failure shows the error, keeps the store empty and stays |
| `RoundsList.StatusBadge` | src/pages/RoundsListPage.tsx:85-94 | the list label is "Запланирован" iff `now < start`, "Активен" iff `start <= now < end`, "Cooldown" otherwise, which includes finished rounds |
| `RoundsList.FinishedRoundLabelledCooldown` | src/pages/RoundsListPage.tsx:93 | as written: a finished round is labelled "Cooldown" |
| `RoundsList.StatusLabelIntended` | src/pages/RoundDetailPage.tsx:135-141 | corrected: the list label is the round page's title for the phase, "Раунд завершен" exactly for finished rounds |
| `RoundsList.IntendedLabelDiffersOnlyWhenFinished` | src/pages/RoundsListPage.tsx:90-93 | the corrected label equals the written one iff the round has not finished |
| `RoundsList.AllRoundsSnoc` | src/pages/RoundsListPage.tsx:52 | the accumulated list of n+1 pages is that of n pages followed by the new page's rounds |
| `RoundsList.RoundsListPage.constructor` | src/pages/RoundsListPage.tsx:8-13 | the page starts empty, loading, with no cursor and no more pages |
| `RoundsList.RoundsListPage.Mount` | src/pages/RoundsListPage.tsx:18-25 | without a token the page goes to "/", otherwise it starts the first load |
| `RoundsList.RoundsListPage.StartLoad` | src/pages/RoundsListPage.tsx:29 | the first load raises the loading flag |
| `RoundsList.RoundsListPage.CompleteLoad` | src/pages/RoundsListPage.tsx:30-41 | a page replaces the list (empty when `data` is missing), the cursor and the more-flag (false when missing); a failure only sets "Failed to load rounds"; loading ends |
| `RoundsList.RoundsListPage.StartLoadMore` | src/pages/RoundsListPage.tsx:44-49 | a load-more is sent iff the cursor is truthy and none is in flight, then raises the latch and requests the page at that cursor; otherwise nothing changes |
| `RoundsList.RoundsListPage.CompleteLoadMore` | src/pages/RoundsListPage.tsx:49-60 | a page is appended after the old list, which is kept as a prefix in order, and moves cursor and more-flag; a failure keeps all three and sets "Failed to load more rounds"; the latch drops either way |
| `RoundsList.RoundsListPage.CreateRound` | src/pages/RoundsListPage.tsx:63-71 | success navigates to `/rounds/{id}`; failure sets "Failed to create round" and does not navigate |
| `RoundsList.RoundsListPage.Logout` | src/pages/RoundsListPage.tsx:73-83 | whatever the logout call does, the session is cleared and the page goes to "/" |
| `RoundsList.BrowseAllPages` | src/pages/RoundsListPage.tsx:27-61 | pressing "load more" while the button is rendered (past the loading screen, more pages, non-empty list) and the cursor is truthy accumulates the rounds of every fetched page in order, stops at the first page after which no further page is offered, and ends with the last page's more-flag |
| `RoundsList.ListAfterLogin` | src/pages/RoundsListPage.tsx:108-147 | after a successful login, the mount (lines 18-25) and the list's first load, the create-round button is shown exactly when the login body carried a non-empty token and said `isAdmin: true`; a body with only `role: ADMIN` gets none, an empty token leaves the page redirected to "/" on its loading screen, and a non-empty one stays on the list past the loading screen |
| `RoundDetail.RoundDetailPage.constructor` | src/pages/RoundDetailPage.tsx:9-17 | the page starts with no round, empty stats, zero score, taps and countdown, loading, no error, no tap in flight |
| `RoundDetail.RoundDetailPage.Mount` | src/pages/RoundDetailPage.tsx:22-29 | without a token the page goes to "/", otherwise it starts loading the round |
| `RoundDetail.RoundDetailPage.StartLoadRound` | src/pages/RoundDetailPage.tsx:63 | loading the round raises the loading flag |
| `RoundDetail.RoundDetailPage.CompleteLoadRound` | src/pages/RoundDetailPage.tsx:64-83 | success replaces the round, the leaderboard (empty when missing) and own stats (null when missing), and overwrites score and taps only when own stats are present; failure sets "Failed to load round"; loading ends |
| `RoundDetail.RoundDetailPage.Tick` | src/pages/RoundDetailPage.tsx:34-53 | with a round loaded, the countdown becomes the tick's countdown for the current phase and stays non-negative; a reload starts exactly when the as-written trigger holds |
| `RoundDetail.RoundDetailPage.StartTap` | src/pages/RoundDetailPage.tsx:90-94 | a tap is sent iff a round is loaded, its phase is ACTIVE and no tap is in flight, and then raises the latch; otherwise nothing changes |
| `RoundDetail.RoundDetailPage.CompleteTap` | src/pages/RoundDetailPage.tsx:95-103 | success sets score and taps to exactly the server's values, failure keeps both, and the latch drops either way |
| `RoundDetail.RoundDetailPage.Logout` | src/pages/RoundDetailPage.tsx:105-115 | whatever the logout call does, the session is cleared and the page goes to "/" |
| `RoundDetail.RunTimer` | src/pages/RoundDetailPage.tsx:31-59 | over any sequence of timer firings with the stats not yet answered, firing `i` requests a reload exactly when it falls in the last partial second of play (`start <= t` and `end-1000 < t < end`); the reloads number those firings, and the countdown stays non-negative |
| `RoundDetail.RoundDetailPage.ShownView` | src/pages/RoundDetailPage.tsx:143-237 | no phase view on the loading or the error screen; otherwise the view on screen is exactly the one whose condition holds, so a loaded page shows exactly one |
| `RoundDetail.TapTwice` | src/pages/RoundDetailPage.tsx:90-103 | two quick taps: the first is sent only in ACTIVE, the second never while the first is in flight, and the shown score is the server's or stays 0 |

## Findings

| source | as written | input that shows it | evidently intended | confidence | as-written member | corrected member |
|---|---|---|---|---|---|---|
| src/pages/RoundDetailPage.tsx:44-51 | the stats reload fires only on a tick in ACTIVE with 0 seconds left | a round from 0 to 2000 ms, timer firing at 0, 1000 and 2000 ms: no reload, and the page then shows "loading results" with nothing fetching them | reload on every tick while the round is over and no leaderboard is held, the same condition as the "loading results" view (line 228) | medium, not executed | `RoundPhase.ReloadSkippedAtWholeSeconds` | `RoundPhase.IntendedReloadAfterEnd` |
| src/pages/AuthPage.tsx:22 | the admin flag is read from `response.isAdmin`, a field the login response type does not declare (it declares `role`, src/services/api.ts:11) | login body `{token: "t", username: "admin", role: "ADMIN"}`: the store gets a non-admin, so the create-round button stays hidden | the admin flag is `role == "ADMIN"` | medium, not executed | `Auth.AdminRoleLost` | `Auth.LoginSessionIntended` |
| src/pages/RoundsListPage.tsx:93 | a finished round is labelled "Cooldown" | a round from 0 to 5000 ms viewed at 10000 ms | label it as finished, as the round page titles it ("Раунд завершен", src/pages/RoundDetailPage.tsx:140); the round page uses "Cooldown" for a round not yet started (line 207) | low, not executed | `RoundsList.FinishedRoundLabelledCooldown` | `RoundsList.StatusLabelIntended` |

The page classes keep the code as written, so that they remain a model of
this client. The corrected members are proved beside them.

## Left out

- Network I/O (`fetch`, headers, JSON bodies) is not modelled. Each call is an `Outcome` chosen by the caller. Only the rounds URL and the login failure text are modelled.
- The error texts of the other API calls are left out. The pages replace them with their own fixed strings. The tap failure text (src/services/api.ts:98) is only logged.
- React scheduling is not modelled: effect re-runs, `setInterval`/`clearInterval` lifetime, and results arriving after unmount.
- Each state update takes effect at once. In the client the latches are read from a render's closure: `handleTap` reads `isTapping` (src/pages/RoundDetailPage.tsx:91), `loadMoreRounds` reads `isLoadingMore` (src/pages/RoundsListPage.tsx:45), and the submit button's `disabled={isLoading}` (src/pages/AuthPage.tsx:92) is only updated on re-render. Two clicks before a re-render could both pass a latch; for "load more" both requests would then append the same page twice through the functional update at src/pages/RoundsListPage.tsx:52. The model does not capture that race.
- `Api.RoundsUrl`: the client puts the cursor into the query without percent-encoding, so a server's query parser reads back the cursor only when it has no `&`, `#`, `+` or `%`. `Api.CursorOf` is the raw text after `?cursor=`, not a query parser.
- `RoundDetail.RoundDetailPage.StartTap`: models the handler's guard only. The goose that calls the handler is rendered only on the main screen (src/pages/RoundDetailPage.tsx:143-157, 184-195), so the model can send a tap while a reload's loading screen is up, which the page cannot.
- `updateTimer` and `getRoundStatus` each sample the clock. The model uses one `now` per tick.
- Date parsing is not modelled. `startTime` and `endTime` are taken as parsed millisecond timestamps; invalid dates (NaN) are left out.
- `formatDateTime` (`toLocaleString`) is left out as library formatting.
- `TimeFormat.Decimal`: does not model JavaScript's exponent notation for numbers of 1e21 and above. A countdown never reaches that.
- zustand's `persist` middleware is modelled as an assumption: a `persisted` field that every write keeps equal to the state. The localStorage round trip itself is left out.
- An undefined `isAdmin` stays undefined in the real store. The model stores `false`, since every reader treats the flag as a truth value.
- Presentation is left out: JSX, CSS classes, console logging, and the "Назад" button. So are the winner and total-score lines of the results view and the login form's labels and placeholders. The fields' values reach the model only through the `required` check in `StartSubmit`; the values sent to the API are not modelled.
- `src/App.tsx` (route table) and `vite.config.ts` (dev-server proxy) are configuration and are not part of this model.
