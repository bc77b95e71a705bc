/**
 * The home feed: which mutation a click on an option or on the like
 * button issues, which option is shown as selected, when "Load more"
 * shows, and the effect that subscribes to every poll on the page.
 */
module HomeFeed {
  import opened Optional
  import opened PollTypes
  import opened SocketService
  import opened SocketProvider
  import Reconcile

  /** `pollsData?.data || []`: the polls on the page, or none before the first response. */
  function FeedPolls(data: Option<Page<Poll>>): (r: seq<Poll>)
    ensures data.None? ==> r == []
    ensures data.Some? ==> r == data.value.data
  {
    if data.Some? then data.value.data else []
  }

  /** The index of the first poll with id `pollId`, as `polls.find` visits them. */
  function FindIndex(polls: seq<Poll>, pollId: string): (r: Option<nat>)
    ensures r.Some? ==> r.value < |polls| && polls[r.value].pollId == pollId
    ensures r.Some? ==> forall j | 0 <= j < r.value :: polls[j].pollId != pollId
    ensures r.None? ==> forall j | 0 <= j < |polls| :: polls[j].pollId != pollId
  {
    if polls == [] then None
    else if polls[0].pollId == pollId then Some(0)
    else
      var rest := FindIndex(polls[1..], pollId);
      if rest.Some? then Some(rest.value + 1) else None
  }

  /** `polls.find(p => p.pollId === pollId)`. */
  function FindPoll(polls: seq<Poll>, pollId: string): Option<Poll> {
    var i := FindIndex(polls, pollId);
    if i.Some? then Some(polls[i.value]) else None
  }

  /** The vote mutations a click on an option can issue. */
  datatype VoteIntent = CastVote(pollId: string, optionId: string) | WithdrawVote(pollId: string)

  /** `handleVote`: clicking the option the session already voted for withdraws the vote; anything else casts one. */
  function VoteChoice(polls: seq<Poll>, pollId: string, optionId: string): (r: VoteIntent)
    ensures r.WithdrawVote? <==>
      FindPoll(polls, pollId).Some? && FindPoll(polls, pollId).value.sessionVote.Some?
      && FindPoll(polls, pollId).value.sessionVote.value.optionId == optionId
    ensures r.WithdrawVote? ==> r == WithdrawVote(pollId)
    ensures r.CastVote? ==> r == CastVote(pollId, optionId)
  {
    var poll := FindPoll(polls, pollId);
    if poll.Some? && poll.value.sessionVote.Some? && poll.value.sessionVote.value.optionId == optionId then
      WithdrawVote(pollId)
    else
      CastVote(pollId, optionId)
  }

  /** The like mutations a click on the like button can issue. */
  datatype LikeIntent = LikeIt(pollId: string) | UnlikeIt(pollId: string)

  /** `handleLike`: unlike exactly when the session's like flag is `true`. */
  function LikeChoice(polls: seq<Poll>, pollId: string): (r: LikeIntent)
    ensures r.UnlikeIt? <==> FindPoll(polls, pollId).Some? && FindPoll(polls, pollId).value.sessionLiked == Some(true)
    ensures r.pollId == pollId
  {
    var poll := FindPoll(polls, pollId);
    if poll.Some? && poll.value.sessionLiked == Some(true) then UnlikeIt(pollId) else LikeIt(pollId)
  }

  /** An option is highlighted when it is the one the session voted for. */
  predicate IsSelected(poll: Poll, option: PollOption) {
    poll.sessionVote.Some? && poll.sessionVote.value.optionId == option.optionId
  }

  /** For the first poll with its id, a click withdraws exactly when the clicked option is highlighted. */
  lemma WithdrawIffSelected(polls: seq<Poll>, i: nat, option: PollOption)
    requires i < |polls| && forall j | 0 <= j < i :: polls[j].pollId != polls[i].pollId
    ensures VoteChoice(polls, polls[i].pollId, option.optionId).WithdrawVote? <==> IsSelected(polls[i], option)
  {
    var r := FindIndex(polls, polls[i].pollId);
    assert r.Some? && r.value == i;
  }

  /** At most one option of a poll with distinct option ids is highlighted. */
  lemma AtMostOneSelected(poll: Poll, a: PollOption, b: PollOption)
    requires IsSelected(poll, a) && IsSelected(poll, b)
    ensures a.optionId == b.optionId
  {
  }

  /**
   * The feed reads the `['polls', filters]` page, which takes socket like
   * events through the collection updater: only `totalLikes` changes, so the
   * session's like flag, and with it the next click's mutation, is the same
   * as before the event until a refetch brings a new page.
   */
  lemma {:induction false} LikeChoiceIgnoresLikeEvents(page: Page<Poll>, e: Reconcile.PollEvent, pollId: string)
    requires e.IsLikeEvent()
    ensures LikeChoice(FeedPolls(Some(Reconcile.PageUpdate(page, e))), pollId) == LikeChoice(FeedPolls(Some(page)), pollId)
  {
    var before := page.data;
    var after := Reconcile.PageUpdate(page, e).data;
    assert forall j | 0 <= j < |before| :: after[j].pollId == before[j].pollId && after[j].sessionLiked == before[j].sessionLiked;
    FindIndexSameIds(before, after, pollId);
  }

  /** Two lists with the same ids position by position find the same index. */
  lemma {:induction false} FindIndexSameIds(a: seq<Poll>, b: seq<Poll>, pollId: string)
    requires |a| == |b| && forall j | 0 <= j < |a| :: a[j].pollId == b[j].pollId
    ensures FindIndex(a, pollId) == FindIndex(b, pollId)
  {
    if a != [] && a[0].pollId != pollId {
      FindIndexSameIds(a[1..], b[1..], pollId);
    }
  }

  /** "Load more" shows while the current page is before the last one. */
  function ShowLoadMore(pagination: Option<Pagination>): (b: bool)
    ensures b <==> pagination.Some? && pagination.value.page < pagination.value.totalPages
  {
    pagination.Some? && pagination.value.page < pagination.value.totalPages
  }

  /** The ids of the polls on the page, in order. */
  function PollIds(polls: seq<Poll>): (r: seq<string>)
    ensures |r| == |polls|
    ensures forall i | 0 <= i < |polls| :: r[i] == polls[i].pollId
  {
    seq(|polls|, i requires 0 <= i < |polls| => polls[i].pollId)
  }

  /** `Array.from(new Set(ids))`: each id once, in order of first occurrence. */
  function Dedup(ids: seq<string>): (r: seq<string>)
    ensures NoDuplicates(r)
    ensures forall x :: x in r <==> x in ids
  {
    if ids == [] then [] else Add(Dedup(ids[..|ids| - 1]), ids[|ids| - 1])
  }

  /** An id list that is already duplicate-free comes back unchanged. */
  lemma {:induction false} DedupKeepsDistinct(ids: seq<string>)
    requires NoDuplicates(ids)
    ensures Dedup(ids) == ids
  {
    if ids != [] {
      var init := ids[..|ids| - 1];
      DedupKeepsDistinct(init);
      assert ids[|ids| - 1] !in init;
      assert init + [ids[|ids| - 1]] == ids;
    }
  }

  /** Deduplicating more ids only extends the list: earlier first occurrences keep their places. */
  lemma {:induction false} DedupExtends(ids: seq<string>, more: seq<string>)
    ensures |Dedup(ids)| <= |Dedup(ids + more)| && Dedup(ids + more)[..|Dedup(ids)|] == Dedup(ids)
    decreases |more|
  {
    if more != [] {
      var init := more[..|more| - 1];
      DedupExtends(ids, init);
      assert (ids + more)[..|ids + more| - 1] == ids + init;
    } else {
      assert ids + more == ids;
    }
  }

  /**
   * The subscription effect: when connected and the page is not empty,
   * `joinPoll` is called once for each distinct poll id, in order; the
   * ids it was called with are returned.
   */
  method JoinDisplayedPolls(provider: SocketProvider, polls: seq<Poll>) returns (joined: seq<string>)
    requires provider.Valid()
    modifies provider, provider.service
    ensures provider.Valid()
    ensures joined == if old(provider.isConnected) && |polls| > 0 then Dedup(PollIds(polls)) else []
    ensures provider.connectedPolls == old(provider.connectedPolls) + set id | id in joined
    ensures provider.isConnected == old(provider.isConnected)
    ensures provider.service.joinedPolls == old(provider.service.joinedPolls)
    ensures forall id | id in joined :: id in provider.service.pendingPolls || id in provider.service.joinedPolls
  {
    joined := [];
    if provider.isConnected && |polls| > 0 {
      var uniquePollIds := Dedup(PollIds(polls));
      var i := 0;
      while i < |uniquePollIds|
        invariant 0 <= i <= |uniquePollIds|
        invariant provider.Valid()
        invariant joined == uniquePollIds[..i]
        invariant provider.connectedPolls == old(provider.connectedPolls) + set id | id in joined
        invariant provider.isConnected == old(provider.isConnected)
        invariant provider.service.joinedPolls == old(provider.service.joinedPolls)
        invariant forall id | id in joined :: id in provider.service.pendingPolls || id in provider.service.joinedPolls
      {
        var pollId := uniquePollIds[i];
        ghost var pendingBefore := provider.service.pendingPolls;
        provider.JoinPoll(pollId);
        assert forall id | id in pendingBefore :: id in provider.service.pendingPolls;
        SetOfAppend(joined, pollId);
        joined := joined + [pollId];
        i := i + 1;
      }
      assert uniquePollIds[..i] == uniquePollIds;
    }
  }

  lemma SetOfAppend(s: seq<string>, x: string)
    ensures (set id | id in s + [x]) == (set id | id in s) + {x}
  {
  }

  /** The set of ids on a page. */
  function IdSet(polls: seq<Poll>): set<string> {
    set p | p in polls :: p.pollId
  }

  /** The ids the effect subscribes to when it runs. */
  function JoinTarget(polls: seq<Poll>, connected: bool): set<string> {
    if connected && |polls| > 0 then IdSet(polls) else {}
  }

  /** While connected, every poll on the page is subscribed. */
  predicate AllDisplayedJoined(joined: set<string>, polls: seq<Poll>, connected: bool) {
    connected ==> IdSet(polls) <= joined
  }

  /** The effect's dependencies as written: `[polls.length, isConnected, joinPoll]`, `joinPoll` being stable. */
  datatype LengthDeps = LengthDeps(count: nat, connected: bool)

  /** One render with the dependencies as written: the effect runs only when the length or the flag changed. */
  function RenderByLength(prev: Option<LengthDeps>, joined: set<string>, polls: seq<Poll>, connected: bool): (r: set<string>)
    ensures joined <= r
    ensures prev == Some(LengthDeps(|polls|, connected)) ==> r == joined
  {
    if prev == Some(LengthDeps(|polls|, connected)) then joined else joined + JoinTarget(polls, connected)
  }

  /**
   * A refetch that returns as many polls as before, one of them new, does
   * not re-run the effect: the new poll is shown but never subscribed.
   */
  lemma RenderByLengthMissesNewPoll(old1: Poll, new1: Poll)
    requires old1.pollId != new1.pollId
    ensures var joined := RenderByLength(None, {}, [old1], true);
      AllDisplayedJoined(joined, [old1], true)
      && var after := RenderByLength(Some(LengthDeps(1, true)), joined, [new1], true);
      !AllDisplayedJoined(after, [new1], true)
  {
    var joined := RenderByLength(None, {}, [old1], true);
    assert IdSet([old1]) == {old1.pollId};
    assert IdSet([new1]) == {new1.pollId};
  }

  /** The dependencies the effect needs: the ids on the page and the flag. */
  datatype IdDeps = IdDeps(ids: seq<string>, connected: bool)

  /** One render with the effect keyed on the ids: it runs whenever the ids or the flag changed. */
  function RenderByIds(prev: Option<IdDeps>, joined: set<string>, polls: seq<Poll>, connected: bool): (r: set<string>)
    ensures joined <= r
  {
    if prev == Some(IdDeps(PollIds(polls), connected)) then joined else joined + JoinTarget(polls, connected)
  }

  lemma SameIdsSameSet(a: seq<Poll>, b: seq<Poll>)
    requires PollIds(a) == PollIds(b)
    ensures IdSet(a) == IdSet(b)
  {
    forall id | id in IdSet(a) ensures id in IdSet(b) {
      var p :| p in a && p.pollId == id;
      var i :| 0 <= i < |a| && a[i] == p;
      assert PollIds(b)[i] == id;
    }
    forall id | id in IdSet(b) ensures id in IdSet(a) {
      var p :| p in b && p.pollId == id;
      var i :| 0 <= i < |b| && b[i] == p;
      assert PollIds(a)[i] == id;
    }
  }

  /**
   * Keyed on the ids, every render leaves all polls on the page subscribed
   * while connected, given the previous render did.
   */
  lemma RenderByIdsKeepsAllJoined(prevPolls: Option<seq<Poll>>, prevConnected: bool, joined: set<string>,
                                   polls: seq<Poll>, connected: bool)
    requires prevPolls.Some? ==> AllDisplayedJoined(joined, prevPolls.value, prevConnected)
    ensures var prev := if prevPolls.Some? then Some(IdDeps(PollIds(prevPolls.value), prevConnected)) else None;
      AllDisplayedJoined(RenderByIds(prev, joined, polls, connected), polls, connected)
  {
    if prevPolls.Some? && PollIds(prevPolls.value) == PollIds(polls) && prevConnected == connected {
      SameIdsSameSet(prevPolls.value, polls);
    } else if connected && |polls| == 0 {
      assert IdSet(polls) == {};
    }
  }

  /** The feed page: the listing page number and the dependencies its effect last ran with. */
  class Feed {
    var page: int
    var lastDeps: Option<IdDeps>

    /** The filters the feed asks `usePolls` for. */
    function Filters(): (f: PollFilters)
      reads this
      ensures f.sortBy == Some(Newest) && f.page == Some(page) && f.limit == Some(20)
      ensures f.categoryId.None? && f.tagId.None? && f.search.None?
    {
      PollFilters(None, None, None, Some(Newest), Some(page), Some(20))
    }

    constructor ()
      ensures page == 1 && lastDeps.None?
    {
      page := 1;
      lastDeps := None;
    }

    /** `handleLoadMore`: the next page. */
    method HandleLoadMore()
      modifies this
      ensures page == old(page) + 1 && lastDeps == old(lastDeps)
    {
      page := page + 1;
    }

    /**
     * A render with the page's data: the subscription effect runs when the
     * ids or the connection flag changed since it last ran, and afterwards
     * every poll on the page is subscribed while connected.
     */
    method Render(provider: SocketProvider, data: Option<Page<Poll>>)
      requires provider.Valid()
      requires lastDeps.Some? && lastDeps.value.connected ==> (set id | id in lastDeps.value.ids) <= provider.connectedPolls
      modifies this, provider, provider.service
      ensures provider.Valid() && page == old(page)
      ensures lastDeps == Some(IdDeps(PollIds(FeedPolls(data)), provider.isConnected))
      ensures provider.isConnected == old(provider.isConnected)
      ensures old(provider.connectedPolls) <= provider.connectedPolls
      ensures AllDisplayedJoined(provider.connectedPolls, FeedPolls(data), provider.isConnected)
    {
      var polls := FeedPolls(data);
      var deps := IdDeps(PollIds(polls), provider.isConnected);
      if lastDeps != Some(deps) {
        var joined := JoinDisplayedPolls(provider, polls);
        if provider.isConnected && |polls| > 0 {
          forall id | id in IdSet(polls) ensures id in provider.connectedPolls {
            assert id in PollIds(polls);
          }
        }
        lastDeps := Some(deps);
      } else if provider.isConnected {
        forall id | id in IdSet(polls) ensures id in provider.connectedPolls {
          var p :| p in polls && p.pollId == id;
          var i :| 0 <= i < |polls| && polls[i] == p;
          assert PollIds(polls)[i] == id;
        }
      }
    }
  }
}
