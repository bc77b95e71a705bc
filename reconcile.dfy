/**
 * Event reconciliation: how a pushed poll event rewrites the cached poll
 * detail entry (`usePollSocket`) and every cached `/polls` collection page
 * (`usePollsSocket`). Vote counters move by one locally; option counts and
 * like totals are overwritten from the pushed payload.
 */
module Reconcile {
  import opened Optional
  import opened PollTypes
  import opened QueryCache

  /** The server-to-client poll events, with their payloads. */
  datatype PollEvent =
    | PollUpdated(pollId: string, poll: Poll)
    | VoteAdded(pollId: string, vote: Vote, updatedCounts: map<string, int>)
    | VoteChanged(pollId: string, vote: Vote, updatedCounts: map<string, int>)
    | VoteRemoved(pollId: string, sessionId: string, updatedCounts: map<string, int>)
    | LikeAdded(pollId: string, like: Like, totalLikes: int)
    | LikeRemoved(pollId: string, sessionId: string, totalLikes: int)
    | PollDeleted(pollId: string)
  {
    /** The vote events, which carry a per-option count map. */
    predicate IsVoteEvent() {
      VoteAdded? || VoteChanged? || VoteRemoved?
    }

    /** The like events, which carry an authoritative like total. */
    predicate IsLikeEvent() {
      LikeAdded? || LikeRemoved?
    }
  }

  // ---------------------------------------------------------------------
  // Option counts

  /** `updatedCounts[optionId] ?? 0`: the pushed count, or 0 when the map has none. */
  function CountFor(counts: map<string, int>, optionId: string): int {
    if optionId in counts then counts[optionId] else 0
  }

  /** `options.map(o => ({...o, voteCount: updatedCounts[o.optionId] ?? 0}))`. */
  function Recount(options: seq<PollOption>, counts: map<string, int>): (r: seq<PollOption>)
    ensures |r| == |options|
    ensures forall i | 0 <= i < |options| ::
      r[i] == options[i].(voteCount := CountFor(counts, options[i].optionId))
  {
    if options == [] then []
    else [options[0].(voteCount := CountFor(counts, options[0].optionId))] + Recount(options[1..], counts)
  }

  /** `options?.map(...) || []`: a poll without an options list ends up with an empty one. */
  function RecountOptional(options: Option<seq<PollOption>>, counts: map<string, int>): (r: seq<PollOption>)
    ensures options.None? ==> r == []
    ensures options.Some? ==> |r| == |options.value|
    ensures options.Some? ==> forall i | 0 <= i < |r| ::
      r[i] == options.value[i].(voteCount := CountFor(counts, options.value[i].optionId))
  {
    if options.Some? then Recount(options.value, counts) else []
  }

  /** The options of a poll, an absent list read as empty. */
  function OptionsOf(p: Poll): seq<PollOption> {
    p.options.GetOr([])
  }

  /** Everything but the counters and the two session-relative fields is equal. */
  predicate SameIdentity(p: Poll, q: Poll) {
    p.pollId == q.pollId && p.title == q.title && p.description == q.description
    && p.createdBy == q.createdBy && p.categoryId == q.categoryId
    && p.allowMultipleVotes == q.allowMultipleVotes && p.expiresAt == q.expiresAt
    && p.isActive == q.isActive && p.createdAt == q.createdAt && p.updatedAt == q.updatedAt
  }

  /** `q`'s options are `p`'s, in the same order, with the counts taken from `counts`. */
  predicate OptionsRecounted(p: Poll, q: Poll, counts: map<string, int>) {
    q.options.Some?
    && |q.options.value| == |OptionsOf(p)|
    && forall i | 0 <= i < |q.options.value| ::
      q.options.value[i] == OptionsOf(p)[i].(voteCount := CountFor(counts, OptionsOf(p)[i].optionId))
  }

  // ---------------------------------------------------------------------
  // The detail entry (usePollSocket)

  /**
   * The updater a vote or like event applies to the cached detail record.
   * `poll_updated` and `poll_deleted` act on the entry as a whole, see `DetailsAfter`.
   */
  function DetailUpdate(p: Poll, e: PollEvent): (r: Poll)
    requires e.IsVoteEvent() || e.IsLikeEvent()
    ensures SameIdentity(p, r)
    ensures e.VoteAdded? ==>
      r.totalVotes == p.totalVotes + 1 && r.sessionVote == Some(e.vote)
      && OptionsRecounted(p, r, e.updatedCounts) && r.totalLikes == p.totalLikes && r.sessionLiked == p.sessionLiked
    ensures e.VoteChanged? ==>
      r.totalVotes == p.totalVotes && r.sessionVote == Some(e.vote)
      && OptionsRecounted(p, r, e.updatedCounts) && r.totalLikes == p.totalLikes && r.sessionLiked == p.sessionLiked
    ensures e.VoteRemoved? ==>
      r.totalVotes == (if p.totalVotes >= 1 then p.totalVotes - 1 else 0) && r.totalVotes >= 0
      && r.sessionVote == None
      && OptionsRecounted(p, r, e.updatedCounts) && r.totalLikes == p.totalLikes && r.sessionLiked == p.sessionLiked
    ensures e.IsLikeEvent() ==>
      r == p.(totalLikes := e.totalLikes, sessionLiked := Some(e.LikeAdded?))
  {
    match e
    case VoteAdded(_, vote, counts) =>
      p.(totalVotes := p.totalVotes + 1, options := Some(RecountOptional(p.options, counts)), sessionVote := Some(vote))
    case VoteChanged(_, vote, counts) =>
      p.(options := Some(RecountOptional(p.options, counts)), sessionVote := Some(vote))
    case VoteRemoved(_, _, counts) =>
      p.(totalVotes := if 0 > p.totalVotes - 1 then 0 else p.totalVotes - 1,
         options := Some(RecountOptional(p.options, counts)), sessionVote := None)
    case LikeAdded(_, _, total) =>
      p.(totalLikes := total, sessionLiked := Some(true))
    case LikeRemoved(_, _, total) =>
      p.(totalLikes := total, sessionLiked := Some(false))
  }

  /**
   * The detail entries after the handlers of `usePollSocket(hookPollId)`
   * have seen `e`: only the hook's own poll is touched; an uncached poll is
   * left alone except by `poll_updated`, which writes the pushed record
   * whether or not one was cached.
   */
  function DetailsAfter(m: map<string, Cached<Poll>>, hookPollId: string, e: PollEvent, now: int)
    : (r: map<string, Cached<Poll>>)
    ensures e.pollId != hookPollId ==> r == m
    ensures forall id | id != hookPollId :: (id in r <==> id in m) && (id in m ==> r[id] == m[id])
    ensures hookPollId !in m && !e.PollUpdated? ==> r == m
    ensures e.pollId == hookPollId && e.PollUpdated? ==> hookPollId in r && r[hookPollId] == Cached(e.poll, now, false)
    ensures e.pollId == hookPollId && e.PollDeleted? ==> hookPollId !in r
    ensures e.pollId == hookPollId && hookPollId in m && (e.IsVoteEvent() || e.IsLikeEvent()) ==>
      hookPollId in r && r[hookPollId] == Cached(DetailUpdate(m[hookPollId].data, e), now, false)
  {
    if e.pollId != hookPollId then m
    else match e
      case PollUpdated(_, poll) => m[hookPollId := Cached(poll, now, false)]
      case PollDeleted(_) => m - {hookPollId}
      case _ =>
        if hookPollId in m then m[hookPollId := Cached(DetailUpdate(m[hookPollId].data, e), now, false)]
        else m
  }

  /**
   * The handlers `usePollSocket(hookPollId)` registers, applied to one
   * event. Leaving the page on `poll_deleted` is not modelled.
   */
  method HandleDetailEvent(client: QueryClient, hookPollId: string, e: PollEvent, now: int)
    modifies client
    ensures client.state == old(client.state).(details := DetailsAfter(old(client.state.details), hookPollId, e, now))
  {
    if e.pollId != hookPollId {
      return;
    }
    match e {
      case PollUpdated(_, poll) =>
        client.SetPollData(hookPollId, poll, now);
      case PollDeleted(_) =>
        client.RemovePoll(hookPollId);
      case _ =>
        if hookPollId in client.state.details {
          var oldData := client.state.details[hookPollId].data;
          client.SetPollData(hookPollId, DetailUpdate(oldData, e), now);
        }
    }
  }

  // ---------------------------------------------------------------------
  // Collection pages (usePollsSocket)

  /**
   * What a collection page does to a poll summary whose id matches the
   * event: the vote counters as on the detail entry, but `sessionVote` and
   * `sessionLiked` are never written.
   */
  function SummaryUpdate(p: Poll, e: PollEvent): (r: Poll)
    requires !e.PollDeleted?
    ensures e.PollUpdated? ==> r == e.poll
    ensures !e.PollUpdated? ==> SameIdentity(p, r) && r.sessionVote == p.sessionVote && r.sessionLiked == p.sessionLiked
    ensures e.VoteAdded? ==> r.totalVotes == p.totalVotes + 1 && OptionsRecounted(p, r, e.updatedCounts) && r.totalLikes == p.totalLikes
    ensures e.VoteChanged? ==> r.totalVotes == p.totalVotes && OptionsRecounted(p, r, e.updatedCounts) && r.totalLikes == p.totalLikes
    ensures e.VoteRemoved? ==>
      r.totalVotes == (if p.totalVotes >= 1 then p.totalVotes - 1 else 0)
      && OptionsRecounted(p, r, e.updatedCounts) && r.totalLikes == p.totalLikes
    ensures e.IsLikeEvent() ==> r == p.(totalLikes := e.totalLikes)
  {
    match e
    case PollUpdated(_, poll) => poll
    case VoteAdded(_, _, counts) =>
      p.(totalVotes := p.totalVotes + 1, options := Some(RecountOptional(p.options, counts)))
    case VoteChanged(_, _, counts) =>
      p.(options := Some(RecountOptional(p.options, counts)))
    case VoteRemoved(_, _, counts) =>
      p.(totalVotes := if 0 > p.totalVotes - 1 then 0 else p.totalVotes - 1,
         options := Some(RecountOptional(p.options, counts)))
    case LikeAdded(_, _, total) => p.(totalLikes := total)
    case LikeRemoved(_, _, total) => p.(totalLikes := total)
  }

  /** `data.map(poll => poll.pollId === e.pollId ? update(poll) : poll)`. */
  function UpdateMatching(polls: seq<Poll>, e: PollEvent): (r: seq<Poll>)
    requires !e.PollDeleted?
    ensures |r| == |polls|
    ensures forall i | 0 <= i < |polls| ::
      r[i] == if polls[i].pollId == e.pollId then SummaryUpdate(polls[i], e) else polls[i]
  {
    if polls == [] then []
    else
      var head := if polls[0].pollId == e.pollId then SummaryUpdate(polls[0], e) else polls[0];
      [head] + UpdateMatching(polls[1..], e)
  }

  /** The page after the event: same length and order, only matching polls rewritten, pagination kept. */
  function PageUpdate(page: Page<Poll>, e: PollEvent): (r: Page<Poll>)
    requires !e.PollDeleted?
    ensures r.pagination == page.pagination
    ensures |r.data| == |page.data|
    ensures forall i | 0 <= i < |page.data| && page.data[i].pollId != e.pollId :: r.data[i] == page.data[i]
    ensures forall i | 0 <= i < |page.data| && page.data[i].pollId == e.pollId :: r.data[i] == SummaryUpdate(page.data[i], e)
  {
    page.(data := UpdateMatching(page.data, e))
  }

  /** Every cached collection entry rewritten by `PageUpdate` and stamped `now`. */
  function CollectionsAfter(m: map<PollFilters, Cached<Page<Poll>>>, e: PollEvent, now: int)
    : (r: map<PollFilters, Cached<Page<Poll>>>)
    requires !e.PollDeleted?
    ensures r.Keys == m.Keys
    ensures forall f | f in m :: r[f] == Cached(PageUpdate(m[f].data, e), now, false)
  {
    map f | f in m :: Cached(PageUpdate(m[f].data, e), now, false)
  }

  /** `updatePollsQuery`: visits every cached `['polls', …]` entry and writes back the updated page. */
  method UpdatePollsQuery(client: QueryClient, e: PollEvent, now: int)
    requires !e.PollDeleted?
    modifies client
    ensures client.state == old(client.state).(collections := CollectionsAfter(old(client.state.collections), e, now))
  {
    ghost var before := client.state;
    var todo := client.state.collections.Keys;
    while todo != {}
      invariant todo <= before.collections.Keys
      invariant client.state == before.(collections := client.state.collections)
      invariant client.state.collections.Keys == before.collections.Keys
      invariant forall f | f in before.collections ::
        client.state.collections[f]
          == if f in todo then before.collections[f] else Cached(PageUpdate(before.collections[f].data, e), now, false)
      decreases todo
    {
      var f :| f in todo;
      var oldData := client.state.collections[f].data;
      client.SetCollectionData(f, PageUpdate(oldData, e), now);
      todo := todo - {f};
    }
    assert client.state.collections == CollectionsAfter(before.collections, e, now);
  }

  /** The handlers `usePollsSocket` registers; `poll_deleted` has none there. */
  method HandleCollectionsEvent(client: QueryClient, e: PollEvent, now: int)
    modifies client
    ensures e.PollDeleted? ==> client.state == old(client.state)
    ensures !e.PollDeleted? ==>
      client.state == old(client.state).(collections := CollectionsAfter(old(client.state.collections), e, now))
  {
    if !e.PollDeleted? {
      UpdatePollsQuery(client, e, now);
    }
  }
}
