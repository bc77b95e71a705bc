/**
 * The records exchanged with the backend: polls, options, votes, likes,
 * the `/polls` filters and the paginated response envelope.
 * Timestamps are opaque strings; nested `creator`, `category` and `tags`
 * objects are not carried (no operation of the model reads or writes them).
 */
module PollTypes {
  import opened Optional

  datatype PollOption = PollOption(
    optionId: string,
    pollId: string,
    optionText: string,
    voteCount: int,
    displayOrder: int,
    createdAt: string)

  datatype Vote = Vote(
    voteId: string,
    pollId: string,
    optionId: string,
    sessionId: string,
    votedAt: string)

  datatype Like = Like(
    likeId: string,
    pollId: string,
    sessionId: string,
    likedAt: string)

  datatype Poll = Poll(
    pollId: string,
    title: string,
    description: Option<string>,
    createdBy: string,
    categoryId: Option<string>,
    allowMultipleVotes: bool,
    expiresAt: Option<string>,
    isActive: bool,
    totalVotes: int,
    totalLikes: int,
    createdAt: string,
    updatedAt: string,
    options: Option<seq<PollOption>>,
    sessionVote: Option<Vote>,
    sessionLiked: Option<bool>)

  /** The `sortBy` values the feed may ask for. */
  datatype SortBy = Newest | Oldest | Trending | MostVoted | MostLiked {
    /** The wire spelling of the sort order. */
    function Name(): string {
      match this
      case Newest => "newest"
      case Oldest => "oldest"
      case Trending => "trending"
      case MostVoted => "most_voted"
      case MostLiked => "most_liked"
    }
  }

  /** Filters of the `/polls` listing; every field is optional. */
  datatype PollFilters = PollFilters(
    categoryId: Option<string>,
    tagId: Option<string>,
    search: Option<string>,
    sortBy: Option<SortBy>,
    page: Option<int>,
    limit: Option<int>)

  datatype Pagination = Pagination(page: int, limit: int, total: int, totalPages: int)

  /** A page of a listing: its items and the pagination metadata. */
  datatype Page<T> = Page(data: seq<T>, pagination: Pagination)

  /** The response envelope `{success, data?, error?, code?, pagination?}`. */
  datatype ApiResponse<T> = ApiResponse(
    success: bool,
    data: Option<T>,
    error: Option<string>,
    code: Option<string>,
    pagination: Option<Pagination>)

  /** The body of `POST /polls` as the create-poll form sends it. */
  datatype CreatePollRequest = CreatePollRequest(
    title: string,
    description: Option<string>,
    options: seq<string>)
}
