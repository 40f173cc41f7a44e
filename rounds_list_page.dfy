/**
 * The rounds list page: the first page of rounds replaces the list, each
 * "load more" appends the next cursor page, an admin can create a round,
 * and logout always ends signed out on the login route.
 */
module RoundsList {
  import opened Wrappers
  import opened Types
  import opened Session
  import RoundPhase
  import Api
  import Auth

  /** The status badge of one round in the list. */
  datatype Badge = Badge(text: string, color: string)

  /** `getStatus(round)` at time `now`, as written: a finished round reads "Cooldown". */
  function StatusBadge(now: int, start: int, end: int): (b: Badge)
    ensures b.text == "Запланирован" <==> now < start
    ensures b.text == "Активен" <==> start <= now < end
    ensures b.text == "Cooldown" <==> start <= now && end <= now
  {
    if now < start then Badge("Запланирован", "text-blue-600")
    else if now >= start && now < end then Badge("Активен", "text-green-600")
    else Badge("Cooldown", "text-gray-600")
  }

  /**
   * A round that ended is labelled "Cooldown" in the list, the word the round
   * page uses as the heading of a round that has not started yet.
   */
  lemma FinishedRoundLabelledCooldown()
    ensures RoundPhase.PhaseAt(10_000, 0, 5_000) == RoundPhase.Finished
    ensures StatusBadge(10_000, 0, 5_000).text == "Cooldown"
  {
  }

  /** The intended label: the round page's title for the round's phase. */
  function StatusLabelIntended(now: int, start: int, end: int): (text: string)
    ensures text == RoundPhase.StatusTitle(Some(RoundPhase.PhaseAt(now, start, end)))
    ensures text == "Раунд завершен" <==> start <= now && end <= now
  {
    if now < start then "Запланирован"
    else if now < end then "Активен"
    else "Раунд завершен"
  }

  /** The intended label differs from the written one exactly on finished rounds. */
  lemma IntendedLabelDiffersOnlyWhenFinished(now: int, start: int, end: int)
    ensures StatusLabelIntended(now, start, end) == StatusBadge(now, start, end).text
        <==> RoundPhase.PhaseAt(now, start, end) != RoundPhase.Finished
  {
  }

  /** `response.data || []`: the rounds of a page, empty when missing. */
  function PageRounds(r: RoundsResponse): seq<Round> {
    r.data.GetOr([])
  }

  /** All rounds of a sequence of pages, in page order. */
  function AllRounds(pages: seq<RoundsResponse>): seq<Round> {
    if pages == [] then [] else AllRounds(pages[..|pages| - 1]) + PageRounds(pages[|pages| - 1])
  }

  /** Fetching one more page adds its rounds at the end. */
  lemma AllRoundsSnoc(pages: seq<RoundsResponse>, n: nat)
    requires n < |pages|
    ensures AllRounds(pages[..n + 1]) == AllRounds(pages[..n]) + PageRounds(pages[n])
  {
    assert pages[..n + 1][..n] == pages[..n];
  }

  class RoundsListPage {
    var rounds: seq<Round>
    var isLoading: bool
    var isLoadingMore: bool
    var error: string
    var nextCursor: Option<string>
    var hasMore: bool
    /** The route the page last navigated to, if any. */
    var navigatedTo: Option<string>
    const store: AuthStore

    constructor (store: AuthStore)
      ensures this.store == store
      ensures rounds == [] && isLoading && !isLoadingMore && error == ""
      ensures nextCursor == None && !hasMore && navigatedTo == None
    {
      this.store := store;
      rounds, isLoading, isLoadingMore, error := [], true, false, "";
      nextCursor, hasMore, navigatedTo := None, false, None;
    }

    /** The mount effect: without a token go to the login route, otherwise start the first load. */
    method Mount() returns (requested: bool)
      modifies this
      ensures requested <==> store.IsAuthenticated()
      ensures !requested ==> navigatedTo == Some("/") && isLoading == old(isLoading)
      ensures requested ==> isLoading && navigatedTo == old(navigatedTo)
      ensures rounds == old(rounds) && isLoadingMore == old(isLoadingMore) && error == old(error)
      ensures nextCursor == old(nextCursor) && hasMore == old(hasMore)
    {
      requested := store.IsAuthenticated();
      if !requested {
        navigatedTo := Some("/");
      } else {
        StartLoad();
      }
    }

    /** `loadRounds` up to the awaited request. */
    method StartLoad()
      modifies this`isLoading
      ensures isLoading
    {
      isLoading := true;
    }

    /**
     * `loadRounds` after the awaited request: a page replaces the list, the
     * cursor and the more-flag; a failure only sets the error. Loading ends.
     */
    method CompleteLoad(outcome: Outcome<RoundsResponse>)
      modifies this
      ensures !isLoading
      ensures outcome.Ok? ==>
        && rounds == PageRounds(outcome.value)
        && nextCursor == outcome.value.pagination.nextCursor
        && hasMore == outcome.value.pagination.hasMore.GetOr(false)
        && error == old(error)
      ensures outcome.Err? ==>
        && rounds == old(rounds) && nextCursor == old(nextCursor) && hasMore == old(hasMore)
        && error == "Failed to load rounds"
      ensures isLoadingMore == old(isLoadingMore) && navigatedTo == old(navigatedTo)
    {
      match outcome {
        case Ok(response) =>
          rounds := PageRounds(response);
          nextCursor := response.pagination.nextCursor;
          hasMore := response.pagination.hasMore.GetOr(false);
        case Err(_) =>
          error := "Failed to load rounds";
      }
      isLoading := false;
    }

    /** The guard of `loadMoreRounds`: a truthy cursor and no load-more in flight. */
    predicate LoadMoreAllowed()
      reads this
    {
      Api.Truthy(nextCursor) && !isLoadingMore
    }

    /**
     * `loadMoreRounds` up to the awaited request: when allowed, raise the
     * in-flight latch and request the page at the current cursor; otherwise
     * do nothing and send nothing.
     */
    method StartLoadMore() returns (url: Option<string>)
      modifies this`isLoadingMore
      ensures url.Some? <==> old(LoadMoreAllowed())
      ensures url.Some? ==> isLoadingMore && Api.CursorOf(url.value) == nextCursor
      ensures url.None? ==> isLoadingMore == old(isLoadingMore)
    {
      if !LoadMoreAllowed() {
        url := None;
        return;
      }
      isLoadingMore := true;
      url := Some(Api.RoundsUrl(nextCursor));
    }

    /**
     * `loadMoreRounds` after the awaited request: a page is appended after
     * the rounds already shown and moves the cursor; a failure leaves list,
     * cursor and more-flag alone and sets the error. The latch drops.
     */
    method CompleteLoadMore(outcome: Outcome<RoundsResponse>)
      requires isLoadingMore
      modifies this
      ensures !isLoadingMore
      ensures outcome.Ok? ==>
        && rounds == old(rounds) + PageRounds(outcome.value)
        && nextCursor == outcome.value.pagination.nextCursor
        && hasMore == outcome.value.pagination.hasMore.GetOr(false)
        && error == old(error)
      ensures outcome.Err? ==>
        && rounds == old(rounds) && nextCursor == old(nextCursor) && hasMore == old(hasMore)
        && error == "Failed to load more rounds"
      ensures isLoading == old(isLoading) && navigatedTo == old(navigatedTo)
    {
      match outcome {
        case Ok(response) =>
          rounds := rounds + PageRounds(response);
          nextCursor := response.pagination.nextCursor;
          hasMore := response.pagination.hasMore.GetOr(false);
        case Err(_) =>
          error := "Failed to load more rounds";
      }
      isLoadingMore := false;
    }

    /** The create button is rendered for admins only, and not on the loading screen. */
    predicate ShowsCreateButton()
      reads this, store
    {
      !isLoading && store.isAdmin
    }

    /**
     * The load-more button is rendered, past the loading screen, when more
     * pages exist and the list is not empty.
     */
    predicate ShowsLoadMore()
      reads this
    {
      !isLoading && hasMore && rounds != []
    }

    /** `handleCreateRound`: open the new round's page, or show the failure and stay. */
    method CreateRound(outcome: Outcome<Round>)
      modifies this`error, this`navigatedTo
      ensures outcome.Ok? ==> navigatedTo == Some("/rounds/" + outcome.value.id) && error == old(error)
      ensures outcome.Err? ==> navigatedTo == old(navigatedTo) && error == "Failed to create round"
    {
      match outcome {
        case Ok(round) =>
          navigatedTo := Some("/rounds/" + round.id);
        case Err(_) =>
          error := "Failed to create round";
      }
    }

    /** `handleLogout`: whatever the logout call does, clear the session and go to the login route. */
    method Logout(outcome: Outcome<()>)
      requires store.Valid()
      modifies this`navigatedTo, store
      ensures store.Valid() && store.Current() == Initial
      ensures navigatedTo == Some("/")
    {
      store.ClearAuth();
      navigatedTo := Some("/");
    }
  }

  /**
   * After the first `i + 1` pages the list renders the load-more button
   * (more pages exist and the list is not empty) and pressing it sends a
   * request (the cursor is truthy).
   */
  predicate MoreOffered(pages: seq<RoundsResponse>, i: nat)
    requires i < |pages|
  {
    && pages[i].pagination.hasMore.GetOr(false)
    && AllRounds(pages[..i + 1]) != []
    && Api.Truthy(pages[i].pagination.nextCursor)
  }

  /**
   * A signed-in user opens the list and presses "load more" as long as the
   * button is rendered and pressing it sends a request: the list holds the
   * rounds of every page fetched, in order; it stops at the first page after
   * which no further page is offered (or at the last page available); and
   * the more-flag is that of the last page fetched.
   */
  method BrowseAllPages(token: string, pages: seq<RoundsResponse>) returns (items: seq<Round>, loaded: nat, hasMore: bool)
    requires token != "" && |pages| >= 1
    ensures 1 <= loaded <= |pages|
    ensures items == AllRounds(pages[..loaded])
    ensures hasMore == pages[loaded - 1].pagination.hasMore.GetOr(false)
    ensures forall i :: 0 <= i < loaded - 1 ==> MoreOffered(pages, i)
    ensures loaded < |pages| ==> !MoreOffered(pages, loaded - 1)
  {
    var store := new AuthStore();
    store.SetAuth(token, "user", false);
    var page := new RoundsListPage(store);
    var requested := page.Mount();
    page.CompleteLoad(Ok(pages[0]));
    loaded := 1;
    AllRoundsSnoc(pages, 0);
    while loaded < |pages| && page.ShowsLoadMore() && page.LoadMoreAllowed()
      invariant fresh(page)
      invariant 1 <= loaded <= |pages|
      invariant page.rounds == AllRounds(pages[..loaded])
      invariant page.nextCursor == pages[loaded - 1].pagination.nextCursor
      invariant page.hasMore == pages[loaded - 1].pagination.hasMore.GetOr(false)
      invariant !page.isLoading && !page.isLoadingMore
      invariant forall i :: 0 <= i < loaded - 1 ==> MoreOffered(pages, i)
      decreases |pages| - loaded
    {
      assert MoreOffered(pages, loaded - 1);
      var url := page.StartLoadMore();
      page.CompleteLoadMore(Ok(pages[loaded]));
      AllRoundsSnoc(pages, loaded);
      loaded := loaded + 1;
    }
    items, hasMore := page.rounds, page.hasMore;
  }

  /**
   * The list page opened right after a successful login, once its first
   * load has answered, shows the create-round button exactly when the login
   * body carried a token and said `isAdmin: true`; a body carrying only
   * `role: ADMIN` gets no button. Without a token the page redirects to
   * the login route and stays on its loading screen; with one it stays on
   * the list and leaves the loading screen.
   */
  method ListAfterLogin(body: LoginBody, first: Outcome<RoundsResponse>)
    returns (createShown: bool, route: Option<string>, loading: bool)
    ensures createShown <==> body.token != "" && body.isAdmin == Some(true)
    ensures body.token == "" ==> route == Some("/") && loading
    ensures body.token != "" ==> route == None && !loading
  {
    var store := new AuthStore();
    var login := new Auth.AuthPage(store);
    var sent := login.StartSubmit("user", "password");
    login.CompleteSubmit(Ok(body));
    var page := new RoundsListPage(store);
    var requested := page.Mount();
    if requested {
      page.CompleteLoad(first);
    }
    createShown, route, loading := page.ShowsCreateButton(), page.navigatedTo, page.isLoading;
  }
}
