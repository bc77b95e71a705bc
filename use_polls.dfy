/**
 * The data hooks: the `/polls` query string, the defaults applied to list
 * responses, the session-history URLs, and the cache entries each
 * mutation writes, removes or invalidates on success.
 */
module UsePolls {
  import opened Optional
  import opened PollTypes
  import opened JsStrings
  import opened UrlEncoding
  import opened QueryCache

  /** The filters `usePolls` may turn into query parameters, in the order it appends them. */
  datatype Field = CategoryIdField | TagIdField | SearchField | SortByField | PageField | LimitField {
    /** The parameter name. */
    function Name(): string {
      match this
      case CategoryIdField => "categoryId"
      case TagIdField => "tagId"
      case SearchField => "search"
      case SortByField => "sortBy"
      case PageField => "page"
      case LimitField => "limit"
    }

    /** The position in the append order. */
    function Rank(): nat {
      match this
      case CategoryIdField => 0
      case TagIdField => 1
      case SearchField => 2
      case SortByField => 3
      case PageField => 4
      case LimitField => 5
    }
  }

  /** A string filter contributes when it is set and non-empty. */
  function TruthyString(v: Option<string>): (r: Option<string>)
    ensures r.Some? <==> v.Some? && v.value != ""
    ensures r.Some? ==> r == v
  {
    if v.Some? && v.value != "" then v else None
  }

  /** A numeric filter contributes its decimal spelling when it is set and not 0. */
  function TruthyNumber(v: Option<int>): (r: Option<string>)
    ensures r.Some? <==> v.Some? && v.value != 0
    ensures r.Some? ==> r.value == IntToString(v.value)
  {
    if v.Some? && v.value != 0 then Some(IntToString(v.value)) else None
  }

  /** The value a filter gives its parameter, when that filter is truthy. */
  function FieldValue(f: PollFilters, fld: Field): Option<string> {
    match fld
    case CategoryIdField => TruthyString(f.categoryId)
    case TagIdField => TruthyString(f.tagId)
    case SearchField => TruthyString(f.search)
    case SortByField => if f.sortBy.Some? then Some(f.sortBy.value.Name()) else None
    case PageField => TruthyNumber(f.page)
    case LimitField => TruthyNumber(f.limit)
  }

  /** A parameter together with the filter it comes from. */
  datatype FieldEntry = FieldEntry(field: Field, value: string)

  /** The entry for `fld` when its filter is truthy, else nothing. */
  function Entry(f: PollFilters, fld: Field): (r: seq<FieldEntry>)
    ensures |r| <= 1
    ensures |r| == 1 <==> FieldValue(f, fld).Some?
    ensures |r| == 1 ==> r[0] == FieldEntry(fld, FieldValue(f, fld).value)
  {
    if FieldValue(f, fld).Some? then [FieldEntry(fld, FieldValue(f, fld).value)] else []
  }

  /** The field appended in position `k`. */
  function FieldOfRank(k: nat): (fld: Field)
    requires k < 6
    ensures fld.Rank() == k
  {
    [CategoryIdField, TagIdField, SearchField, SortByField, PageField, LimitField][k]
  }

  /** The entries for the fields from position `k` on, one per truthy filter, in append order. */
  function EntriesFrom(f: PollFilters, k: nat): (r: seq<FieldEntry>)
    ensures forall i | 0 <= i < |r| :: r[i].field.Rank() >= k && FieldValue(f, r[i].field) == Some(r[i].value)
    ensures forall i, j | 0 <= i < j < |r| :: r[i].field.Rank() < r[j].field.Rank()
    decreases 6 - k
  {
    if k >= 6 then [] else Entry(f, FieldOfRank(k)) + EntriesFrom(f, k + 1)
  }

  /** Every truthy filter from position `k` on has its entry. */
  lemma {:induction false} EntriesFromComplete(f: PollFilters, k: nat, fld: Field)
    requires fld.Rank() >= k && FieldValue(f, fld).Some?
    ensures FieldEntry(fld, FieldValue(f, fld).value) in EntriesFrom(f, k)
    decreases 6 - k
  {
    if fld.Rank() > k {
      EntriesFromComplete(f, k + 1, fld);
    }
  }

  /** The entries `usePolls` appends, one per truthy filter, in a fixed order. */
  function QueryEntries(f: PollFilters): seq<FieldEntry> {
    EntriesFrom(f, 0)
  }

  /** The entries appended for the fields before position `k`. */
  function EntriesTo(f: PollFilters, k: nat): seq<FieldEntry>
    requires k <= 6
  {
    if k == 0 then [] else EntriesTo(f, k - 1) + Entry(f, FieldOfRank(k - 1))
  }

  /** The appends made so far followed by the ones still to come are all of them. */
  lemma {:induction false} EntriesSplit(f: PollFilters, k: nat)
    requires k <= 6
    ensures EntriesTo(f, k) + EntriesFrom(f, k) == QueryEntries(f)
    decreases k
  {
    if k > 0 {
      EntriesSplit(f, k - 1);
      var before, e, after := EntriesTo(f, k - 1), Entry(f, FieldOfRank(k - 1)), EntriesFrom(f, k);
      assert EntriesFrom(f, k - 1) == e + after;
      assert EntriesTo(f, k) == before + e;
      ConcatAssoc(before, e, after);
    }
  }

  lemma ConcatAssoc<T>(a: seq<T>, b: seq<T>, c: seq<T>)
    ensures (a + b) + c == a + (b + c)
  {
  }

  /** The pairs for a list of entries. */
  function ToParams(es: seq<FieldEntry>): (r: seq<Param>)
    ensures |r| == |es|
    ensures forall i | 0 <= i < |r| :: r[i] == Param(es[i].field.Name(), es[i].value)
  {
    seq(|es|, i requires 0 <= i < |es| => Param(es[i].field.Name(), es[i].value))
  }

  /** Appending field `k`'s entry to the trace appends its pair to the parameters. */
  lemma AppendStep(f: PollFilters, k: nat)
    requires k < 6
    ensures ToParams(EntriesTo(f, k + 1)) == ToParams(EntriesTo(f, k)) + ToParams(Entry(f, FieldOfRank(k)))
  {
    var a, b := EntriesTo(f, k), Entry(f, FieldOfRank(k));
    assert ToParams(a + b) == ToParams(a) + ToParams(b);
  }

  /** The parameters as `URLSearchParams` holds them. */
  function QueryParams(f: PollFilters): seq<Param> {
    ToParams(QueryEntries(f))
  }

  /** The request path for the given filters: `/polls`, with `?` and the query only when there is one. */
  function PollsUrl(f: PollFilters): string {
    var q := Serialize(QueryParams(f));
    if q != "" then "/polls?" + q else "/polls"
  }

  /** `new URLSearchParams()`: an ordered list of pairs that `append` extends. */
  class SearchParams {
    var entries: seq<Param>

    constructor ()
      ensures entries == []
    {
      entries := [];
    }

    method Append(name: string, value: string)
      modifies this
      ensures entries == old(entries) + [Param(name, value)]
    {
      entries := entries + [Param(name, value)];
    }

    function ToString(): (r: string)
      reads this
      ensures r == "" <==> entries == []
    {
      Serialize(entries)
    }
  }

  /** One guarded `append`: the filter's parameter is added when the filter is truthy. */
  method AppendFilter(params: SearchParams, f: PollFilters, fld: Field)
    modifies params
    ensures params.entries == old(params.entries) + ToParams(Entry(f, fld))
  {
    match fld
    case CategoryIdField =>
      if f.categoryId.Some? && f.categoryId.value != "" { params.Append("categoryId", f.categoryId.value); }
    case TagIdField =>
      if f.tagId.Some? && f.tagId.value != "" { params.Append("tagId", f.tagId.value); }
    case SearchField =>
      if f.search.Some? && f.search.value != "" { params.Append("search", f.search.value); }
    case SortByField =>
      if f.sortBy.Some? { params.Append("sortBy", f.sortBy.value.Name()); }
    case PageField =>
      if f.page.Some? && f.page.value != 0 { params.Append("page", IntToString(f.page.value)); }
    case LimitField =>
      if f.limit.Some? && f.limit.value != 0 { params.Append("limit", IntToString(f.limit.value)); }
  }

  /** The `queryFn` of `usePolls` up to the request: append each truthy filter in turn, then build the path. */
  method BuildPollsUrl(f: PollFilters) returns (url: string)
    ensures url == PollsUrl(f)
  {
    var params := new SearchParams();
    ghost var k: nat := 0;
    AppendFilter(params, f, CategoryIdField);
    AppendStep(f, k);
    k := k + 1;
    AppendFilter(params, f, TagIdField);
    AppendStep(f, k);
    k := k + 1;
    AppendFilter(params, f, SearchField);
    AppendStep(f, k);
    k := k + 1;
    AppendFilter(params, f, SortByField);
    AppendStep(f, k);
    k := k + 1;
    AppendFilter(params, f, PageField);
    AppendStep(f, k);
    k := k + 1;
    AppendFilter(params, f, LimitField);
    AppendStep(f, k);
    k := k + 1;
    EntriesSplit(f, k);
    assert params.entries == QueryParams(f);
    var q := params.ToString();
    url := if q != "" then "/polls?" + q else "/polls";
  }

  /**
   * The path is bare `/polls` exactly when no filter is truthy; otherwise
   * its query parses back to the truthy filters, in append order.
   */
  lemma PollsUrlShape(f: PollFilters)
    ensures PollsUrl(f) == "/polls" <==> forall fld: Field :: FieldValue(f, fld).None?
    ensures PollsUrl(f) != "/polls" ==>
      exists q :: PollsUrl(f) == "/polls?" + q && Parse(q) == AsBytes(QueryParams(f))
  {
    var es := QueryEntries(f);
    var q := Serialize(QueryParams(f));
    if q != "" {
      ParseSerialize(QueryParams(f));
      assert |PollsUrl(f)| > |"/polls"|;
      assert FieldValue(f, es[0].field).Some?;
    } else {
      assert es == [];
      forall fld: Field
        ensures FieldValue(f, fld).None?
      {
        if FieldValue(f, fld).Some? {
          EntriesFromComplete(f, 0, fld);
        }
      }
    }
  }

  /** Zero values and explicit zeros leave a filter out. */
  lemma ZeroPageAndLimitOmitted(f: PollFilters)
    requires f.page == Some(0) && f.limit == Some(0)
    ensures forall i | 0 <= i < |QueryEntries(f)| :: QueryEntries(f)[i].field != PageField && QueryEntries(f)[i].field != LimitField
  {
  }

  /** The pagination `usePolls` reports when the response has none. */
  const DefaultPagination := Pagination(1, 20, 0, 0)

  /** The result `usePolls` caches: the response's list and pagination, each defaulted when missing. */
  function ListResult(resp: ApiResponse<seq<Poll>>): (r: Page<Poll>)
    ensures resp.data.Some? ==> r.data == resp.data.value
    ensures resp.data.None? ==> r.data == []
    ensures resp.pagination.Some? ==> r.pagination == resp.pagination.value
    ensures resp.pagination.None? ==> r.pagination == DefaultPagination
  {
    Page(resp.data.GetOr([]), resp.pagination.GetOr(DefaultPagination))
  }

  /** The result the session-history hooks cache: the response's page, or an empty one. */
  function SessionResult<T>(resp: ApiResponse<Page<T>>): (r: Page<T>)
    ensures resp.data.Some? ==> r == resp.data.value
    ensures resp.data.None? ==> r.data == [] && r.pagination == DefaultPagination
  {
    resp.data.GetOr(Page([], DefaultPagination))
  }

  /** `useSessionPolls`/`useSessionVotes` arguments, defaulted to page 1 and 20 per page. */
  function SessionKey(page: Option<int>, limit: Option<int>): (int, int) {
    (page.GetOr(1), limit.GetOr(20))
  }

  /** `${path}?page=${page}&limit=${limit}` with the defaulted arguments. */
  function SessionListUrl(path: string, page: Option<int>, limit: Option<int>): string {
    var (p, l) := SessionKey(page, limit);
    path + "?" + "page" + "=" + IntToString(p) + "&" + "limit" + "=" + IntToString(l)
  }

  lemma IntToStringUnreserved(n: int)
    ensures forall i | 0 <= i < |IntToString(n)| :: IsUnreserved(IntToString(n)[i])
  {
  }

  /**
   * A session-history URL always carries both `page` and `limit`, as the
   * only two parameters, holding the defaulted arguments: its query is
   * what `URLSearchParams` would serialize for them, so `ParseSerialize`
   * reads both back.
   */
  lemma SessionListUrlCarriesBoth(path: string, page: Option<int>, limit: Option<int>)
    ensures var (p, l) := SessionKey(page, limit);
      var ps := [Param("page", IntToString(p)), Param("limit", IntToString(l))];
      SessionListUrl(path, page, limit) == path + "?" + Serialize(ps)
  {
    var (p, l) := SessionKey(page, limit);
    IntToStringUnreserved(p);
    IntToStringUnreserved(l);
    NamesUnreserved();
    QueryOfTwo(path, "page", IntToString(p), "limit", IntToString(l));
  }

  /** A URL whose query spells out two plain pairs is the path plus their serialisation. */
  lemma QueryOfTwo(path: string, n1: string, a: string, n2: string, b: string)
    requires forall i | 0 <= i < |n1| :: IsUnreserved(n1[i])
    requires forall i | 0 <= i < |a| :: IsUnreserved(a[i])
    requires forall i | 0 <= i < |n2| :: IsUnreserved(n2[i])
    requires forall i | 0 <= i < |b| :: IsUnreserved(b[i])
    ensures path + "?" + n1 + "=" + a + "&" + n2 + "=" + b == path + "?" + Serialize([Param(n1, a), Param(n2, b)])
  {
    SerializeTwo(n1, a, n2, b);
    Regroup(path, "?", n1, "=", a, "&", n2, b);
  }

  lemma Regroup(p: string, q: string, n1: string, e: string, a: string, amp: string, n2: string, b: string)
    ensures p + q + n1 + e + a + amp + n2 + e + b == p + q + (n1 + e + a + amp + (n2 + e + b))
  {
  }

  lemma NamesUnreserved()
    ensures forall i | 0 <= i < |"page"| :: IsUnreserved("page"[i])
    ensures forall i | 0 <= i < |"limit"| :: IsUnreserved("limit"[i])
  {
  }

  /** Two pairs whose names and values need no escaping serialize as written. */
  lemma SerializeTwo(n1: string, v1: string, n2: string, v2: string)
    requires forall i | 0 <= i < |n1| :: IsUnreserved(n1[i])
    requires forall i | 0 <= i < |v1| :: IsUnreserved(v1[i])
    requires forall i | 0 <= i < |n2| :: IsUnreserved(n2[i])
    requires forall i | 0 <= i < |v2| :: IsUnreserved(v2[i])
    ensures Serialize([Param(n1, v1), Param(n2, v2)]) == n1 + "=" + v1 + "&" + (n2 + "=" + v2)
  {
    var ps := [Param(n1, v1), Param(n2, v2)];
    assert ps[1..] == [Param(n2, v2)];
  }

  /** A successful mutation, with what `onSuccess` receives. */
  datatype Mutation =
    | CreatePoll(created: Option<Poll>)
    | UpdatePoll(updated: Option<Poll>)
    | DeletePoll(pollId: string)
    | VoteOnPoll(pollId: string)
    | RemoveVote(pollId: string)
    | LikePoll(pollId: string)
    | UnlikePoll(pollId: string)
  {
    predicate WritesPoll() { CreatePoll? || UpdatePoll? }
    predicate TouchesVotes() { VoteOnPoll? || RemoveVote? }
    predicate TouchesLikes() { LikePoll? || UnlikePoll? }
  }

  /** The cache after `onSuccess` of `m`, performed in the order the hook performs its calls. */
  function AfterSuccess(s: CacheState, m: Mutation, now: int): (r: CacheState)
    // every mutation invalidates the `['polls', …]` lists
    ensures r.collections == MarkAll(s.collections)
    ensures r.sessionPolls == (if m.WritesPoll() || m.DeletePoll? then MarkAll(s.sessionPolls) else s.sessionPolls)
    ensures r.sessionVotes == (if m.TouchesVotes() then MarkAll(s.sessionVotes) else s.sessionVotes)
    ensures m.WritesPoll() ==>
      var d := if m.CreatePoll? then m.created else m.updated;
      r.details == if d.Some? then s.details[d.value.pollId := Cached(d.value, now, false)] else s.details
    ensures m.DeletePoll? ==> r.details == s.details - {m.pollId}
    ensures m.TouchesVotes() || m.TouchesLikes() ==>
      r.details.Keys == s.details.Keys
      && forall id | id in s.details ::
        r.details[id].data == s.details[id].data
        && r.details[id].invalidated == (s.details[id].invalidated || id == m.pollId)
  {
    match m
    case CreatePoll(d) =>
      var s1 := Invalidate(Invalidate(s, PollsPrefix), SessionPollsPrefix);
      if d.Some? then s1.(details := s1.details[d.value.pollId := Cached(d.value, now, false)]) else s1
    case UpdatePoll(d) =>
      var s1 := if d.Some? then s.(details := s.details[d.value.pollId := Cached(d.value, now, false)]) else s;
      Invalidate(Invalidate(s1, PollsPrefix), SessionPollsPrefix)
    case DeletePoll(id) =>
      Invalidate(Invalidate(s.(details := s.details - {id}), PollsPrefix), SessionPollsPrefix)
    case VoteOnPoll(id) =>
      Invalidate(Invalidate(Invalidate(s, PollPrefix(id)), PollsPrefix), SessionVotesPrefix)
    case RemoveVote(id) =>
      Invalidate(Invalidate(Invalidate(s, PollPrefix(id)), PollsPrefix), SessionVotesPrefix)
    case LikePoll(id) =>
      Invalidate(Invalidate(s, PollPrefix(id)), PollsPrefix)
    case UnlikePoll(id) =>
      Invalidate(Invalidate(s, PollPrefix(id)), PollsPrefix)
  }

  /** The `onSuccess` callbacks, as calls on the shared query client. */
  method OnMutationSuccess(client: QueryClient, m: Mutation, now: int)
    modifies client
    ensures client.state == AfterSuccess(old(client.state), m, now)
  {
    match m
    case CreatePoll(d) =>
      client.InvalidateQueries(PollsPrefix);
      client.InvalidateQueries(SessionPollsPrefix);
      if d.Some? { client.SetPollData(d.value.pollId, d.value, now); }
    case UpdatePoll(d) =>
      if d.Some? { client.SetPollData(d.value.pollId, d.value, now); }
      client.InvalidateQueries(PollsPrefix);
      client.InvalidateQueries(SessionPollsPrefix);
    case DeletePoll(id) =>
      client.RemovePoll(id);
      client.InvalidateQueries(PollsPrefix);
      client.InvalidateQueries(SessionPollsPrefix);
    case VoteOnPoll(id) =>
      client.InvalidateQueries(PollPrefix(id));
      client.InvalidateQueries(PollsPrefix);
      client.InvalidateQueries(SessionVotesPrefix);
    case RemoveVote(id) =>
      client.InvalidateQueries(PollPrefix(id));
      client.InvalidateQueries(PollsPrefix);
      client.InvalidateQueries(SessionVotesPrefix);
    case LikePoll(id) =>
      client.InvalidateQueries(PollPrefix(id));
      client.InvalidateQueries(PollsPrefix);
    case UnlikePoll(id) =>
      client.InvalidateQueries(PollPrefix(id));
      client.InvalidateQueries(PollsPrefix);
  }

  /**
   * Create writes the poll after invalidating and update writes it before;
   * the resulting cache is the same, and the written entry stays valid.
   */
  lemma CreateAndUpdateAgree(s: CacheState, p: Poll, now: int)
    ensures AfterSuccess(s, CreatePoll(Some(p)), now) == AfterSuccess(s, UpdatePoll(Some(p)), now)
    ensures var r := AfterSuccess(s, CreatePoll(Some(p)), now);
      p.pollId in r.details && !r.details[p.pollId].invalidated && r.details[p.pollId].data == p
  {
  }
}
