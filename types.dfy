/** The records the client receives from the round/auth backend. */
module Types {
  import opened Wrappers

  /**
   * A game round. The ISO date strings of the wire format are taken as
   * already-parsed millisecond timestamps.
   */
  datatype Round = Round(
    id: string,
    startTime: int,
    endTime: int,
    createdAt: Option<string>,
    totalScore: Option<int>)

  /** Pagination block of a rounds page; `hasMore` may be missing from the body. */
  datatype Pagination = Pagination(limit: int, nextCursor: Option<string>, hasMore: Option<bool>)

  /** One page of rounds; `data` may be missing from the body. */
  datatype RoundsResponse = RoundsResponse(data: Option<seq<Round>>, pagination: Pagination)

  /** A leaderboard entry (the nested `user.username` is kept as `username`). */
  datatype TopStat = TopStat(taps: int, score: int, username: string)

  /** The current user's own statistics in a round. */
  datatype MyStats = MyStats(taps: int, score: int)

  /** Body of `GET /rounds/:id`; the stats parts may be missing. */
  datatype RoundDetailResponse = RoundDetailResponse(
    round: Round,
    topStats: Option<seq<TopStat>>,
    myStats: Option<MyStats>)

  /** Body of `POST /rounds/:id/tap`: the server's authoritative totals. */
  datatype TapResult = TapResult(taps: int, score: int)

  datatype Role = Admin | Survivor

  /**
   * Body of `POST /auth/login`. The declared response type carries `role`;
   * the login page reads an `isAdmin` field, so both are kept and each may be absent.
   */
  datatype LoginBody = LoginBody(
    token: string,
    username: string,
    role: Option<Role>,
    isAdmin: Option<bool>)
}
