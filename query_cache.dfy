/**
 * The shared query cache the hooks read and write, reduced to what the
 * client does with it: typed entries per query-key family, written with
 * `setQueryData`, dropped with `removeQueries` and flagged with
 * `invalidateQueries`. Refetching, observers and garbage collection are
 * not part of this model.
 */
module QueryCache {
  import opened PollTypes

  /** A cached query result: its data, when it was last written, and whether it was invalidated since. */
  datatype Cached<T> = Cached(data: T, updatedAt: int, invalidated: bool)

  /**
   * The cache, one map per query-key family:
   * `['poll', id]`, `['polls', filters]`, `['session-polls', page, limit]`
   * and `['session-votes', page, limit]`. A query whose data is still
   * undefined has no entry.
   */
  datatype CacheState = CacheState(
    details: map<string, Cached<Poll>>,
    collections: map<PollFilters, Cached<Page<Poll>>>,
    sessionPolls: map<(int, int), Cached<Page<Poll>>>,
    sessionVotes: map<(int, int), Cached<Page<Vote>>>)

  const EmptyCache := CacheState(map[], map[], map[], map[])

  /** A key prefix as passed to `invalidateQueries`: `['poll', id]`, `['polls']`, `['session-polls']`, `['session-votes']`. */
  datatype KeyPrefix = PollPrefix(pollId: string) | PollsPrefix | SessionPollsPrefix | SessionVotesPrefix

  /** Every entry of `m` flagged as invalidated, data untouched. */
  function MarkAll<K, T>(m: map<K, Cached<T>>): (r: map<K, Cached<T>>)
    ensures r.Keys == m.Keys
    ensures forall k | k in m :: r[k].data == m[k].data && r[k].updatedAt == m[k].updatedAt && r[k].invalidated
  {
    map k | k in m :: m[k].(invalidated := true)
  }

  /** `invalidateQueries({queryKey: prefix})`: flags exactly the entries the prefix matches. */
  function Invalidate(s: CacheState, prefix: KeyPrefix): (r: CacheState)
    ensures r.details.Keys == s.details.Keys && r.collections.Keys == s.collections.Keys
    ensures r.sessionPolls.Keys == s.sessionPolls.Keys && r.sessionVotes.Keys == s.sessionVotes.Keys
    ensures forall id | id in s.details ::
      r.details[id].data == s.details[id].data
      && r.details[id].invalidated == (s.details[id].invalidated || prefix == PollPrefix(id))
    ensures prefix != PollsPrefix ==> r.collections == s.collections
    ensures prefix != SessionPollsPrefix ==> r.sessionPolls == s.sessionPolls
    ensures prefix != SessionVotesPrefix ==> r.sessionVotes == s.sessionVotes
    ensures prefix == PollsPrefix ==> r.collections == MarkAll(s.collections)
    ensures prefix == SessionPollsPrefix ==> r.sessionPolls == MarkAll(s.sessionPolls)
    ensures prefix == SessionVotesPrefix ==> r.sessionVotes == MarkAll(s.sessionVotes)
  {
    match prefix
    case PollPrefix(id) =>
      if id in s.details then s.(details := s.details[id := s.details[id].(invalidated := true)]) else s
    case PollsPrefix => s.(collections := MarkAll(s.collections))
    case SessionPollsPrefix => s.(sessionPolls := MarkAll(s.sessionPolls))
    case SessionVotesPrefix => s.(sessionVotes := MarkAll(s.sessionVotes))
  }

  /** The query client: one mutable cache shared by every hook. */
  class QueryClient {
    var state: CacheState

    constructor ()
      ensures state == EmptyCache
    {
      state := EmptyCache;
    }

    /** `setQueryData(['poll', id], p)`. */
    method SetPollData(id: string, p: Poll, now: int)
      modifies this
      ensures state == old(state).(details := old(state).details[id := Cached(p, now, false)])
    {
      state := state.(details := state.details[id := Cached(p, now, false)]);
    }

    /** `setQueryData(['polls', filters], page, {updatedAt: now})`. */
    method SetCollectionData(filters: PollFilters, page: Page<Poll>, now: int)
      modifies this
      ensures state == old(state).(collections := old(state).collections[filters := Cached(page, now, false)])
    {
      state := state.(collections := state.collections[filters := Cached(page, now, false)]);
    }

    /** `removeQueries({queryKey: ['poll', id]})`. */
    method RemovePoll(id: string)
      modifies this
      ensures state == old(state).(details := old(state).details - {id})
    {
      state := state.(details := state.details - {id});
    }

    /** `invalidateQueries({queryKey: prefix})`. */
    method InvalidateQueries(prefix: KeyPrefix)
      modifies this
      ensures state == Invalidate(old(state), prefix)
    {
      state := Invalidate(state, prefix);
    }
  }
}
