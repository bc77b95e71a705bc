/**
 * Properties of the reconciliation rules: when the vote tally
 * `sum(option.voteCount) == totalVotes` survives an event (the code does not
 * enforce it, so the pushed count map's total is a hypothesis), which events
 * are idempotent, and two worked scenarios.
 */
module ReconcileProperties {
  import opened Optional
  import opened PollTypes
  import opened QueryCache
  import opened Reconcile

  /** The sum of the options' vote counts. */
  function VoteSum(options: seq<PollOption>): int {
    if options == [] then 0 else options[0].voteCount + VoteSum(options[1..])
  }

  /** The total of the pushed counts over the given options (missing entries count 0). */
  function PushedSum(options: seq<PollOption>, counts: map<string, int>): int {
    if options == [] then 0 else CountFor(counts, options[0].optionId) + PushedSum(options[1..], counts)
  }

  /** The tally invariant: the option counts add up to `totalVotes`. */
  predicate Tallied(p: Poll) {
    VoteSum(OptionsOf(p)) == p.totalVotes
  }

  /** After recounting, the options add up to the pushed total. */
  lemma {:induction false} RecountSum(options: seq<PollOption>, counts: map<string, int>)
    ensures VoteSum(Recount(options, counts)) == PushedSum(options, counts)
  {
    if options != [] {
      RecountSum(options[1..], counts);
      assert Recount(options, counts)[1..] == Recount(options[1..], counts);
    }
  }

  /** Recounting twice with the same map is recounting once. */
  lemma RecountIdempotent(options: seq<PollOption>, counts: map<string, int>)
    ensures Recount(Recount(options, counts), counts) == Recount(options, counts)
  {
  }

  /**
   * The tally holds after a vote event on the detail entry whenever the
   * pushed map's total moved as the event says (one more vote, as many, one
   * fewer); the cached counts before the event do not matter.
   */
  lemma VoteEventsKeepTally(p: Poll, e: PollEvent)
    requires e.IsVoteEvent()
    requires e.VoteAdded? ==> PushedSum(OptionsOf(p), e.updatedCounts) == p.totalVotes + 1
    requires e.VoteChanged? ==> PushedSum(OptionsOf(p), e.updatedCounts) == p.totalVotes
    requires e.VoteRemoved? ==> p.totalVotes >= 1 && PushedSum(OptionsOf(p), e.updatedCounts) == p.totalVotes - 1
    ensures Tallied(DetailUpdate(p, e))
  {
    RecountSum(OptionsOf(p), e.updatedCounts);
    assert OptionsOf(DetailUpdate(p, e)) == Recount(OptionsOf(p), e.updatedCounts);
  }

  /** The same for a poll summary in a collection page. */
  lemma SummaryVoteEventsKeepTally(p: Poll, e: PollEvent)
    requires e.IsVoteEvent()
    requires e.VoteAdded? ==> PushedSum(OptionsOf(p), e.updatedCounts) == p.totalVotes + 1
    requires e.VoteChanged? ==> PushedSum(OptionsOf(p), e.updatedCounts) == p.totalVotes
    requires e.VoteRemoved? ==> p.totalVotes >= 1 && PushedSum(OptionsOf(p), e.updatedCounts) == p.totalVotes - 1
    ensures Tallied(SummaryUpdate(p, e))
  {
    RecountSum(OptionsOf(p), e.updatedCounts);
    assert OptionsOf(SummaryUpdate(p, e)) == Recount(OptionsOf(p), e.updatedCounts);
  }

  /**
   * `vote_added` is not idempotent: delivering the same event twice counts
   * the vote twice in `totalVotes` while the overwritten option counts do
   * not move, so a tally that held after one delivery is broken by the second.
   */
  lemma VoteAddedReplayBreaksTally(p: Poll, e: PollEvent)
    requires e.VoteAdded?
    requires PushedSum(OptionsOf(p), e.updatedCounts) == p.totalVotes + 1
    ensures Tallied(DetailUpdate(p, e))
    ensures !Tallied(DetailUpdate(DetailUpdate(p, e), e))
  {
    VoteEventsKeepTally(p, e);
    var once := DetailUpdate(p, e);
    RecountIdempotent(OptionsOf(p), e.updatedCounts);
    assert OptionsOf(DetailUpdate(once, e)) == OptionsOf(once);
  }

  /**
   * The events that overwrite rather than accumulate (`vote_changed`,
   * `like_added`, `like_removed`) give the same record when delivered twice.
   */
  lemma OverwritingEventsIdempotent(p: Poll, e: PollEvent)
    requires e.VoteChanged? || e.IsLikeEvent()
    ensures DetailUpdate(DetailUpdate(p, e), e) == DetailUpdate(p, e)
    ensures SummaryUpdate(SummaryUpdate(p, e), e) == SummaryUpdate(p, e)
  {
    if e.VoteChanged? {
      RecountIdempotent(OptionsOf(p), e.updatedCounts);
    }
  }

  /**
   * `like_added` followed by `like_removed`, each with the authoritative
   * total, leaves the session's like cleared and the total at the value the
   * second event carries: the value before the like when the server reports it.
   */
  lemma LikeThenUnlike(p: Poll, like: Like, sessionId: string, liked: int)
    ensures var q := DetailUpdate(DetailUpdate(p, LikeAdded(p.pollId, like, liked)),
                                  LikeRemoved(p.pollId, sessionId, p.totalLikes));
      q == p.(sessionLiked := Some(false))
  {
  }

  /** A page none of whose polls the event names is left as it was. */
  lemma {:induction false} UnmatchedPageUnchanged(page: Page<Poll>, e: PollEvent)
    requires !e.PollDeleted?
    requires forall i | 0 <= i < |page.data| :: page.data[i].pollId != e.pollId
    ensures PageUpdate(page, e) == page
  {
    assert PageUpdate(page, e).data == page.data;
  }

  // ---------------------------------------------------------------------
  // Worked scenarios

  function Opt(id: string, count: int): PollOption {
    PollOption(id, "P1", id, count, 0, "t0")
  }

  function SamplePoll(id: string, options: seq<PollOption>, totalVotes: int, totalLikes: int): Poll {
    Poll(id, "Question", None, "S0", None, false, None, true, totalVotes, totalLikes, "t0", "t0",
         Some(options), None, None)
  }

  /**
   * Poll P1 with options A (3 votes) and B (2 votes), 5 votes in all; a
   * `vote_added` by session S1 for B with counts {A: 3, B: 3} leaves A at 3,
   * B at 3, 6 votes in all and the session's vote on B, and the tally holds.
   */
  lemma VoteAddedScenario(details: map<string, Cached<Poll>>, now: int)
    requires details == map["P1" := Cached(SamplePoll("P1", [Opt("A", 3), Opt("B", 2)], 5, 0), 0, false)]
    ensures var r := DetailsAfter(details, "P1",
                        VoteAdded("P1", Vote("V1", "P1", "B", "S1", "t1"), map["A" := 3, "B" := 3]), now);
      "P1" in r
      && r["P1"].data.options == Some([Opt("A", 3), Opt("B", 3)])
      && r["P1"].data.totalVotes == 6
      && r["P1"].data.sessionVote.Some? && r["P1"].data.sessionVote.value.optionId == "B"
      && Tallied(r["P1"].data)
  {
    var e := VoteAdded("P1", Vote("V1", "P1", "B", "S1", "t1"), map["A" := 3, "B" := 3]);
    var p := details["P1"].data;
    assert PushedSum(OptionsOf(p), e.updatedCounts) == 6;
    VoteEventsKeepTally(p, e);
    assert Recount([Opt("A", 3), Opt("B", 2)], e.updatedCounts) == [Opt("A", 3), Opt("B", 3)];
  }

  /**
   * Two cached listings (newest first, and most liked) both hold poll P2;
   * `like_added` with total 10 sets P2's total to 10 in both and leaves
   * every other poll of both pages as it was.
   */
  lemma LikeAddedAcrossPagesScenario(
    m: map<PollFilters, Cached<Page<Poll>>>, newest: PollFilters, mostLiked: PollFilters,
    like: Like, now: int, f: PollFilters, i: int)
    requires newest == PollFilters(None, None, None, Some(Newest), Some(1), Some(20))
    requires mostLiked == PollFilters(None, None, None, Some(MostLiked), Some(2), Some(20))
    requires m.Keys == {newest, mostLiked}
    requires exists j | 0 <= j < |m[newest].data.data| :: m[newest].data.data[j].pollId == "P2"
    requires exists j | 0 <= j < |m[mostLiked].data.data| :: m[mostLiked].data.data[j].pollId == "P2"
    requires f in m && 0 <= i < |m[f].data.data|
    ensures var r := CollectionsAfter(m, LikeAdded("P2", like, 10), now);
      && r.Keys == m.Keys
      && |r[f].data.data| == |m[f].data.data|
      && (m[f].data.data[i].pollId == "P2" ==> r[f].data.data[i] == m[f].data.data[i].(totalLikes := 10))
      && (m[f].data.data[i].pollId != "P2" ==> r[f].data.data[i] == m[f].data.data[i])
  {
  }
}
