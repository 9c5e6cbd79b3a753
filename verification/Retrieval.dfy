/** The online retrieval flow: per-channel collection, fusion, reranking, selection, and a finite fallback loop. */
module Retrieval {
  import opened Prelude
  import opened Ranking
  import Fusion
  import Cleaning

  // ---------------------------------------------------------------------------
  // Queries, profile and the outside
  // ---------------------------------------------------------------------------

  /** The filters are opaque here: nothing in the flow may look into them or change them. */
  datatype Query = Query(
    tenantId: string, text: string, knowledgeBaseIds: seq<string>, topK: nat, topN: nat, filters: seq<string>,
    filterExpression: Option<string>, inferredFilter: Option<string>, indexVersionIds: seq<string>)

  datatype Profile = Profile(
    rrfK: nat, candidateTopK: nat, rerankCandidateCount: nat, finalTopK: nat, fusionThreshold: real,
        thresholdFloor: real,
    maxFallbackAttempts: nat, candidateMultiplier: nat, perDocumentLimit: nat)
  {
    predicate Valid() {
      && rrfK >= 1 && 1 <= candidateTopK <= 10000 && rerankCandidateCount >= 1 && finalTopK >= 1
      && 0.0 <= thresholdFloor <= fusionThreshold && maxFallbackAttempts <= 4 && 1 <= candidateMultiplier <= 10
      && perDocumentLimit >= 1 && finalTopK <= rerankCandidateCount <= candidateTopK
    }
  }

  datatype Mode = Hybrid | ExpandedHybrid | SoftFilterRemoved | FullTextOnly | VectorOnly

  datatype Attempt = Attempt(number: nat, mode: Mode, query: Query, threshold: real, inferredFilterRemoved: bool)

  datatype Channel = FullText | Vector

  /** A call that reached the search port. */
  datatype SearchCall = SearchCall(channel: Channel, query: Query)

  datatype RerankReply = Reranked(candidates: seq<Candidate>) | RerankTimeout | RerankError

  /**
   * What the ports answer: the search port per attempt, query variant and call, the reranker per attempt and query. An
   * `Err` stands for any exception.
   */
  datatype Outside = Outside(
    search: (nat, nat, SearchCall) -> Result<seq<Candidate>>,
    rerank: (nat, Query) -> RerankReply)

  // ---------------------------------------------------------------------------
  // Fallback attempts
  // ---------------------------------------------------------------------------

  /** Everything that limits what a caller may see, and where. */
  predicate SameScope(a: Query, b: Query) {
    && a.tenantId == b.tenantId && a.knowledgeBaseIds == b.knowledgeBaseIds && a.filters == b.filters
    && a.filterExpression == b.filterExpression && a.indexVersionIds == b.indexVersionIds
  }

  predicate AttemptsOk(query: Query, threshold: real, floor: real, attempts: seq<Attempt>) {
    && (forall i :: 0 <= i < |attempts| ==>
          && SameScope(attempts[i].query, query) && attempts[i].query.topN == query.topN
          && attempts[i].query.text == query.text
          && floor <= attempts[i].threshold <= threshold
          && attempts[i].query.inferredFilter in {query.inferredFilter, None})
    && (forall i, j :: 0 <= i < j < |attempts| ==> attempts[j].threshold <= attempts[i].threshold)
  }

  /** The fallback at position `i` of the fixed table. */
  function FallbackAt(query: Query, normal: real, floor: real, multiplier: nat, i: nat): Attempt
    requires i < 4
  {
    Attempt(i + 1, [ExpandedHybrid, SoftFilterRemoved, FullTextOnly, VectorOnly][i],
            query.(topK := MinNat(10000, query.topK * multiplier), inferredFilter := if i > 0 then None
                   else query.inferredFilter),
            if i > 0 then floor else MaxReal(floor, (normal + floor) / 2.0), i > 0)
  }

  /** `fallback_attempts`. */
  method FallbackAttempts(query: Query, normal: real, floor: real, multiplier: nat, maximum: nat)
    returns (r: seq<Attempt>)
    ensures |r| == MinNat(maximum, 4)
    ensures forall i :: 0 <= i < |r| ==> r[i] == FallbackAt(query, normal, floor, multiplier, i)
  {
    var expanded := MinNat(10000, query.topK * multiplier);
    var lowered := MaxReal(floor, (normal + floor) / 2.0);
    var definitions := [(ExpandedHybrid, lowered, false), (SoftFilterRemoved, floor, true),
                        (FullTextOnly, floor, true), (VectorOnly, floor, true)];
    r := [];
    for i := 0 to MinNat(maximum, 4)
      invariant |r| == i
      invariant forall j :: 0 <= j < i ==> r[j] == FallbackAt(query, normal, floor, multiplier, j)
    {
      var (mode, threshold, remove) := definitions[i];
      r := r + [Attempt(i + 1, mode, query.(topK := expanded,
                                            inferredFilter := if remove then None else query.inferredFilter),
                        threshold, remove)];
    }
  }

  /** The attempts of one retrieval: the normal one, then the fallbacks. */
  ghost predicate Planned(query: Query, profile: Profile, attempts: seq<Attempt>) {
    && |attempts| == 1 + MinNat(profile.maxFallbackAttempts, 4)
    && attempts[0] == Attempt(0, Hybrid, query, profile.fusionThreshold, false)
    && forall i :: 1 <= i < |attempts| ==>
         attempts[i] == FallbackAt(query, profile.fusionThreshold, profile.thresholdFloor, profile.candidateMultiplier,
                                   i - 1)
  }

  /** No attempt touches the scope, the inferred filter is only ever dropped, and thresholds never rise. */
  lemma AttemptsKeepScope(query: Query, profile: Profile, attempts: seq<Attempt>)
    requires profile.Valid() && Planned(query, profile, attempts)
    ensures AttemptsOk(query, profile.fusionThreshold, profile.thresholdFloor, attempts)
    ensures forall i :: 0 <= i < |attempts| ==> attempts[i].number == i
  {
  }

  // ---------------------------------------------------------------------------
  // One channel
  // ---------------------------------------------------------------------------

  function ChannelScore(c: Candidate, channel: Channel): real {
    if channel == FullText then c.score.fullTextScore.GetOr(0.0) else c.score.vectorScore.GetOr(0.0)
  }

  /** The attempt's query with the text of a variant. */
  function CallFor(attempt: Attempt, channel: Channel, text: string): SearchCall {
    SearchCall(channel, attempt.query.(text := text))
  }

  /** Everything the channel replied to the first `n` variants, in order. */
  function Replies(outside: Outside, attempt: Attempt, channel: Channel, variants: seq<string>, n: nat)
    : Result<seq<Candidate>>
    requires n <= |variants|
  {
    if n == 0 then Ok([])
    else
      match Replies(outside, attempt, channel, variants, n - 1)
      case Err(code) => Err(code)
      case Ok(before) =>
        match outside.search(attempt.number, n - 1, CallFor(attempt, channel, variants[n - 1]))
        case Err(code) => Err(code)
        case Ok(more) => Ok(before + more)
  }

  function AllReplies(outside: Outside, attempt: Attempt, channel: Channel, variants: seq<string>)
    : Result<seq<Candidate>>
  {
    Replies(outside, attempt, channel, variants, |variants|)
  }

  /** The searches made for the first `n` variants: one each, up to the first that raises. */
  function Calls(outside: Outside, attempt: Attempt, channel: Channel, variants: seq<string>, n: nat): seq<SearchCall>
    requires n <= |variants|
  {
    if n == 0 then []
    else
      Calls(outside, attempt, channel, variants, n - 1)
      + (if Replies(outside, attempt, channel, variants, n - 1).Ok?
         then [CallFor(attempt, channel, variants[n - 1])] else [])
  }

  /** Every search is for the attempt's own query with the text of a variant; without a failure there is one each. */
  lemma {:induction false} CallsAre(outside: Outside, attempt: Attempt, channel: Channel, variants: seq<string>, n: nat)
    requires n <= |variants|
    ensures var calls := Calls(outside, attempt, channel, variants, n);
            && |calls| <= n
            && (forall i :: 0 <= i < |calls| ==> calls[i] == CallFor(attempt, channel, variants[i]))
            && (Replies(outside, attempt, channel, variants, n).Ok? ==> |calls| == n)
  {
    if n > 0 {
      CallsAre(outside, attempt, channel, variants, n - 1);
      if Replies(outside, attempt, channel, variants, n - 1).Err? {
        RepliesStayFailed(outside, attempt, channel, variants, n - 1, n);
      }
    }
  }

  /** Reply `p` scores best of its chunk, and better than every earlier one of that chunk. */
  predicate BestAt(replies: seq<Candidate>, channel: Channel, p: nat)
    requires p < |replies|
  {
    forall q :: 0 <= q < |replies| && replies[q].chunkId == replies[p].chunkId ==>
      && ChannelScore(replies[q], channel) <= ChannelScore(replies[p], channel)
      && (q < p ==> ChannelScore(replies[q], channel) < ChannelScore(replies[p], channel))
  }

  /** The first among the best candidates of its chunk. */
  ghost predicate IsBest(replies: seq<Candidate>, channel: Channel, c: Candidate) {
    exists p {:trigger BestAt(replies, channel, p)} ::
      0 <= p < |replies| && replies[p] == c && BestAt(replies, channel, p)
  }

  /** The best candidate of every chunk; the earlier one wins a tie. */
  ghost predicate BestOfEach(replies: seq<Candidate>, channel: Channel, merged: map<string, Candidate>) {
    && (forall id :: id in merged ==> merged[id].chunkId == id && IsBest(replies, channel, merged[id]))
    && (forall c :: c in replies ==> c.chunkId in merged)
  }

  /** A best candidate stays it when one of another chunk, or none better, is appended. */
  lemma BestStays(replies: seq<Candidate>, channel: Channel, best: Candidate, c: Candidate)
    requires IsBest(replies, channel, best)
    requires c.chunkId == best.chunkId ==> ChannelScore(c, channel) <= ChannelScore(best, channel)
    ensures IsBest(replies + [c], channel, best)
  {
    var p :| 0 <= p < |replies| && replies[p] == best && BestAt(replies, channel, p);
    assert BestAt(replies + [c], channel, p);
  }

  /** A better one takes over, and so does the first of its chunk. */
  lemma BestTakesOver(replies: seq<Candidate>, channel: Channel, best: Option<Candidate>, c: Candidate)
    requires best.None? ==> forall q :: 0 <= q < |replies| ==> replies[q].chunkId != c.chunkId
    requires best.Some? ==> IsBest(replies, channel, best.value) && best.value.chunkId == c.chunkId
                            && ChannelScore(c, channel) > ChannelScore(best.value, channel)
    ensures IsBest(replies + [c], channel, c)
  {
    if best.Some? {
      var p :| 0 <= p < |replies| && replies[p] == best.value && BestAt(replies, channel, p);
    }
    assert BestAt(replies + [c], channel, |replies|);
  }

  lemma MergeOne(replies: seq<Candidate>, channel: Channel, merged: map<string, Candidate>, c: Candidate)
    requires BestOfEach(replies, channel, merged)
    ensures var better := c.chunkId !in merged || ChannelScore(c, channel) > ChannelScore(merged[c.chunkId], channel);
            BestOfEach(replies + [c], channel, if better then merged[c.chunkId := c] else merged)
  {
    var better := c.chunkId !in merged || ChannelScore(c, channel) > ChannelScore(merged[c.chunkId], channel);
    if better {
      forall q | 0 <= q < |replies| && c.chunkId !in merged ensures replies[q].chunkId != c.chunkId {
        assert replies[q] in replies;
      }
      BestTakesOver(replies, channel, if c.chunkId in merged then Some(merged[c.chunkId]) else None, c);
    }
    forall id | id in merged && !(better && id == c.chunkId) ensures IsBest(replies + [c], channel, merged[id]) {
      BestStays(replies, channel, merged[id], c);
    }
  }

  /** One reply merged into the dictionary. */
  method MergeReply(before: seq<Candidate>, merged: map<string, Candidate>, reply: seq<Candidate>, channel: Channel)
    returns (after: map<string, Candidate>)
    requires BestOfEach(before, channel, merged)
    ensures BestOfEach(before + reply, channel, after)
  {
    after := merged;
    assert before + reply[..0] == before;
    for i := 0 to |reply|
      invariant BestOfEach(before + reply[..i], channel, after)
    {
      var c := reply[i];
      MergeOne(before + reply[..i], channel, after, c);
      assert before + reply[..i + 1] == before + reply[..i] + [c];
      if c.chunkId !in after || ChannelScore(c, channel) > ChannelScore(after[c.chunkId], channel) {
        after := after[c.chunkId := c];
      }
    }
    assert reply[..|reply|] == reply;
  }

  function InChannel(c: Candidate, channel: Channel): Ranked {
    Ranked(c, ChannelScore(c, channel))
  }

  /** By descending score in the channel, then by id. */
  predicate Precedes(a: Candidate, b: Candidate, channel: Channel) {
    Before(InChannel(a, channel), InChannel(b, channel))
  }

  /** A channel's answer: the best candidate of each chunk, by descending score, then id, cut at `top_k`. */
  ghost predicate Collected(replies: seq<Candidate>, channel: Channel, topK: nat, r: seq<Candidate>) {
    && |r| <= topK
    && (forall i :: 0 <= i < |r| ==> IsBest(replies, channel, r[i]))
    && (forall i, j :: 0 <= i < j < |r| ==> Precedes(r[i], r[j], channel))
    && (forall c :: IsBest(replies, channel, c) && c !in r ==>
          |r| == topK && forall i :: 0 <= i < |r| ==> Precedes(r[i], c, channel))
  }

  predicate Lists(r: seq<Candidate>, id: string) {
    exists i :: 0 <= i < |r| && r[i].chunkId == id
  }

  /** There is one best candidate of a chunk. */
  lemma BestIsUnique(replies: seq<Candidate>, channel: Channel, a: Candidate, b: Candidate)
    requires IsBest(replies, channel, a) && IsBest(replies, channel, b) && a.chunkId == b.chunkId
    ensures a == b
  {
    var p :| 0 <= p < |replies| && replies[p] == a && BestAt(replies, channel, p);
    var q :| 0 <= q < |replies| && replies[q] == b && BestAt(replies, channel, q);
  }

  /** An answer repeats no chunk, and scores never rise along it. */
  lemma CollectedInOrder(replies: seq<Candidate>, channel: Channel, topK: nat, r: seq<Candidate>)
    requires Collected(replies, channel, topK, r)
    ensures UniqueIds(r)
    ensures forall i, j :: 0 <= i < j < |r| ==> ChannelScore(r[i], channel) >= ChannelScore(r[j], channel)
  {
    forall i, j | 0 <= i < j < |r|
      ensures r[i].chunkId != r[j].chunkId && ChannelScore(r[i], channel) >= ChannelScore(r[j], channel)
    {
      assert Precedes(r[i], r[j], channel);
      BeforeIsAsymmetric(InChannel(r[i], channel), InChannel(r[j], channel));
      if r[i].chunkId == r[j].chunkId { BestIsUnique(replies, channel, r[i], r[j]); }
    }
  }

  lemma {:induction false} EveryChunkHasABest(replies: seq<Candidate>, channel: Channel, c: Candidate)
    returns (best: Candidate)
    requires c in replies
    ensures IsBest(replies, channel, best) && best.chunkId == c.chunkId
    ensures ChannelScore(c, channel) <= ChannelScore(best, channel)
  {
    var front, last := replies[..|replies| - 1], replies[|replies| - 1];
    assert replies == front + [last];
    if c in front || (c == last && exists q :: 0 <= q < |front| && front[q].chunkId == c.chunkId) {
      var q :| 0 <= q < |front| && front[q].chunkId == c.chunkId && (c in front ==> front[q] == c);
      best := EveryChunkHasABest(front, channel, front[q]);
      if last.chunkId == c.chunkId && ChannelScore(last, channel) > ChannelScore(best, channel) {
        BestTakesOver(front, channel, Some(best), last);
        best := last;
      } else {
        BestStays(front, channel, best, last);
      }
    } else {
      BestTakesOver(front, channel, None, last);
      best := last;
    }
  }

  /** A chunk that was replied and is missing from the answer was cut, and scores no better than anything kept. */
  lemma DroppedScoresWorse(replies: seq<Candidate>, channel: Channel, topK: nat, r: seq<Candidate>, c: Candidate)
    requires Collected(replies, channel, topK, r) && c in replies && !Lists(r, c.chunkId)
    ensures |r| == topK
    ensures forall i :: 0 <= i < |r| ==> ChannelScore(c, channel) <= ChannelScore(r[i], channel)
  {
    var best := EveryChunkHasABest(replies, channel, c);
    forall i | 0 <= i < |r| ensures r[i] != best {}
    forall i | 0 <= i < |r| ensures ChannelScore(c, channel) <= ChannelScore(r[i], channel) {
      assert Precedes(r[i], best, channel);
    }
  }

  /** Replies and cut-off determine the answer. */
  lemma CollectedIsUnique(replies: seq<Candidate>, channel: Channel, topK: nat, a: seq<Candidate>, b: seq<Candidate>)
    requires Collected(replies, channel, topK, a) && Collected(replies, channel, topK, b)
    ensures a == b
  {
    var n := MinNat(|a|, |b|);
    SameUpTo(replies, channel, topK, a, b, n);
    CollectedInOrder(replies, channel, topK, a);
    CollectedInOrder(replies, channel, topK, b);
    if |a| < |b| { LongerMeansFull(replies, channel, topK, a, b); }
    if |b| < |a| { LongerMeansFull(replies, channel, topK, b, a); }
  }

  /** An answer that another one goes beyond is full. */
  lemma LongerMeansFull(replies: seq<Candidate>, channel: Channel, topK: nat, a: seq<Candidate>, b: seq<Candidate>)
    requires Collected(replies, channel, topK, a) && |a| < |b| && a == b[..|a|] && UniqueIds(b)
    requires forall i :: 0 <= i < |b| ==> IsBest(replies, channel, b[i])
    ensures |a| == topK
  {
    assert forall i :: 0 <= i < |a| ==> a[i] == b[i];
    assert b[|a|] !in a;
  }

  lemma {:induction false} SameUpTo(replies: seq<Candidate>, channel: Channel, topK: nat, a: seq<Candidate>,
                                    b: seq<Candidate>, n: nat)
    requires Collected(replies, channel, topK, a) && Collected(replies, channel, topK, b) && n <= |a| && n <= |b|
    ensures a[..n] == b[..n]
  {
    if n > 0 {
      SameUpTo(replies, channel, topK, a, b, n - 1);
      NotLater(replies, channel, topK, a, b, n - 1);
      NotLater(replies, channel, topK, b, a, n - 1);
      if a[n - 1] != b[n - 1] {
        BeforeIsAsymmetric(InChannel(a[n - 1], channel), InChannel(b[n - 1], channel));
      }
    }
  }

  /** Where two answers agree so far, what follows in one does not precede what follows in the other. */
  lemma NotLater(replies: seq<Candidate>, channel: Channel, topK: nat, a: seq<Candidate>, b: seq<Candidate>, k: nat)
    requires Collected(replies, channel, topK, a) && Collected(replies, channel, topK, b)
    requires k < |a| && k < |b| && a[..k] == b[..k]
    ensures a[k] == b[k] || Precedes(b[k], a[k], channel)
  {
    CollectedInOrder(replies, channel, topK, a);
    assert forall j :: 0 <= j < k ==> a[..k][j] == b[..k][j];
    assert forall j :: 0 <= j < k ==> b[j] != a[k];
  }

  function RankedItems(merged: map<string, Candidate>, channel: Channel): set<Ranked> {
    set id | id in merged :: InChannel(merged[id], channel)
  }

  ghost predicate SortedBest(merged: map<string, Candidate>, channel: Channel, ordered: seq<Ranked>) {
    && (forall i :: 0 <= i < |ordered| ==>
          && ordered[i].candidate.chunkId in merged && ordered[i].candidate == merged[ordered[i].candidate.chunkId]
          && ordered[i] == InChannel(ordered[i].candidate, channel))
    && (forall i, j :: 0 <= i < j < |ordered| ==> Before(ordered[i], ordered[j]))
    && (forall id :: id in merged ==> exists i :: 0 <= i < |ordered| && ordered[i].candidate.chunkId == id)
  }

  method SortMerged(merged: map<string, Candidate>, channel: Channel) returns (ordered: seq<Ranked>)
    requires forall id :: id in merged ==> merged[id].chunkId == id
    ensures SortedBest(merged, channel, ordered)
  {
    var items := RankedItems(merged, channel);
    ordered := SortRanked(items);
    forall i | 0 <= i < |ordered|
      ensures ordered[i].candidate.chunkId in merged && ordered[i].candidate == merged[ordered[i].candidate.chunkId]
              && ordered[i] == InChannel(ordered[i].candidate, channel)
    {
      assert ordered[i] in items;
    }
    forall id | id in merged ensures exists i :: 0 <= i < |ordered| && ordered[i].candidate.chunkId == id {
      var best := InChannel(merged[id], channel);
      assert best in items && best in ordered;
      var i :| 0 <= i < |ordered| && ordered[i] == best;
    }
  }

  function FirstOf(ordered: seq<Ranked>, n: nat): seq<Candidate>
    requires n <= |ordered|
  {
    seq(n, i requires 0 <= i < n && n <= |ordered| => ordered[i].candidate)
  }

  lemma CutIsCollected(replies: seq<Candidate>, merged: map<string, Candidate>, channel: Channel, topK: nat,
                       ordered: seq<Ranked>)
    requires BestOfEach(replies, channel, merged) && SortedBest(merged, channel, ordered)
    ensures Collected(replies, channel, topK, FirstOf(ordered, MinNat(topK, |ordered|)))
  {
    var n := MinNat(topK, |ordered|);
    var r := FirstOf(ordered, n);
    forall i, j | 0 <= i < j < n ensures Precedes(r[i], r[j], channel) { assert Before(ordered[i], ordered[j]); }
    forall j | 0 <= j < n ensures ordered[j].candidate in r { assert r[j] in r; }
    forall c | IsBest(replies, channel, c) && c !in r
      ensures n == topK && forall i :: 0 <= i < n ==> Precedes(r[i], c, channel)
    {
      var j := PlaceOf(replies, merged, channel, ordered, c);
      forall i | 0 <= i < n ensures Precedes(r[i], c, channel) { assert Before(ordered[i], ordered[j]); }
    }
  }

  /** Where a best candidate stands in the sorted dictionary. */
  lemma PlaceOf(replies: seq<Candidate>, merged: map<string, Candidate>, channel: Channel, ordered: seq<Ranked>,
                c: Candidate) returns (j: nat)
    requires BestOfEach(replies, channel, merged) && SortedBest(merged, channel, ordered)
    requires IsBest(replies, channel, c)
    ensures j < |ordered| && ordered[j] == InChannel(c, channel)
  {
    var p :| 0 <= p < |replies| && replies[p] == c && BestAt(replies, channel, p);
    assert c in replies;
    BestIsUnique(replies, channel, c, merged[c.chunkId]);
    j :| 0 <= j < |ordered| && ordered[j].candidate.chunkId == c.chunkId;
  }

  /** `_collect_channel`: every variant is searched with the attempt's query, its text replaced. */
  method CollectChannel(outside: Outside, attempt: Attempt, channel: Channel, variants: seq<string>)
    returns (r: Result<seq<Candidate>>, calls: seq<SearchCall>)
    ensures r.Ok? <==> AllReplies(outside, attempt, channel, variants).Ok?
    ensures r.Ok? ==>
              Collected(AllReplies(outside, attempt, channel, variants).value, channel, attempt.query.topK, r.value)
    ensures calls == Calls(outside, attempt, channel, variants, |variants|)
  {
    var merged: map<string, Candidate> := map[];
    calls := [];
    for i := 0 to |variants|
      invariant Replies(outside, attempt, channel, variants, i).Ok?
      invariant BestOfEach(Replies(outside, attempt, channel, variants, i).value, channel, merged)
      invariant calls == Calls(outside, attempt, channel, variants, i)
    {
      var call := CallFor(attempt, channel, variants[i]);
      calls := calls + [call];
      var reply := outside.search(attempt.number, i, call);
      if reply.Err? {
        RepliesStayFailed(outside, attempt, channel, variants, i + 1, |variants|);
        return Err(reply.code), calls;
      }
      merged := MergeReply(Replies(outside, attempt, channel, variants, i).value, merged, reply.value, channel);
    }
    var ordered := SortMerged(merged, channel);
    CutIsCollected(AllReplies(outside, attempt, channel, variants).value, merged, channel, attempt.query.topK, ordered);
    r := Ok(FirstOf(ordered, MinNat(attempt.query.topK, |ordered|)));
  }

  lemma {:induction false} RepliesStayFailed(outside: Outside, attempt: Attempt, channel: Channel,
                                             variants: seq<string>,
                                             m: nat, n: nat)
    requires m <= n <= |variants| && Replies(outside, attempt, channel, variants, m).Err?
    ensures Replies(outside, attempt, channel, variants, n).Err?
    ensures Calls(outside, attempt, channel, variants, n) == Calls(outside, attempt, channel, variants, m)
  {
    if m < n { RepliesStayFailed(outside, attempt, channel, variants, m, n - 1); }
  }

  // ---------------------------------------------------------------------------
  // Reranking
  // ---------------------------------------------------------------------------

  datatype RerankOutcome = RerankOutcome(candidates: seq<Candidate>, applied: bool)

  function Renumbered(c: Candidate, rank: nat): Candidate {
    c.(score := c.score.(rerankRank := Some(rank),
                         finalScore := if c.score.rerankScore.Some? then c.score.rerankScore.value
                             else c.score.finalScore))
  }

  /** `rerank_with_fallback`: a reranker that raises, or does not return the same chunks, is ignored. */
  function Rerank(candidates: seq<Candidate>, reply: RerankReply): (r: RerankOutcome)
    ensures |r.candidates| == |candidates|
    ensures IdsOf(r.candidates) == IdsOf(candidates)
    ensures !r.applied ==> r.candidates == candidates
    ensures r.applied ==> reply.Reranked? && |reply.candidates| == |r.candidates|
                          && forall i :: 0 <= i < |r.candidates| ==>
                               r.candidates[i] == Renumbered(reply.candidates[i], i + 1)
  {
    if candidates == [] then RerankOutcome([], false)
    else
      match reply
      case Reranked(answer) =>
        if IdsOf(candidates) != IdsOf(answer) || |answer| != |candidates| then RerankOutcome(candidates, false)
        else
          var renumbered := seq(|answer|, i requires 0 <= i < |answer| => Renumbered(answer[i], i + 1));
          assert forall i :: 0 <= i < |answer| ==> renumbered[i].chunkId == answer[i].chunkId;
          assert IdsOf(renumbered) == IdsOf(answer);
          RerankOutcome(renumbered, true)
      case _ => RerankOutcome(candidates, false)
  }

  /** An accepted reranking is a permutation: no chunk is lost, added or repeated. */
  lemma RerankingPermutes(candidates: seq<Candidate>, reply: RerankReply)
    requires UniqueIds(candidates)
    ensures UniqueIds(Rerank(candidates, reply).candidates)
  {
    var r := Rerank(candidates, reply).candidates;
    ManyIds(candidates);
    if !UniqueIds(r) {
      FewerIds(r);
    }
  }

  lemma {:induction false} ManyIds(s: seq<Candidate>)
    requires UniqueIds(s)
    ensures |IdsOf(s)| == |s|
  {
    if s != [] {
      FrontIsUnique(s);
      ManyIds(s[..|s| - 1]);
      NewId(s);
      FrontAndLast(s);
    }
  }

  lemma FrontIsUnique(s: seq<Candidate>)
    requires UniqueIds(s) && s != []
    ensures UniqueIds(s[..|s| - 1])
  {
  }

  lemma FrontAndLast(s: seq<Candidate>)
    requires s != []
    ensures IdsOf(s) == IdsOf(s[..|s| - 1]) + {s[|s| - 1].chunkId}
  {
    IdsAppend(s[..|s| - 1], s[|s| - 1]);
    assert s == s[..|s| - 1] + [s[|s| - 1]];
  }

  lemma NewId(s: seq<Candidate>)
    requires UniqueIds(s) && s != []
    ensures s[|s| - 1].chunkId !in IdsOf(s[..|s| - 1])
  {
    var front := s[..|s| - 1];
    forall i | 0 <= i < |front| ensures front[i].chunkId != s[|s| - 1].chunkId { assert front[i] == s[i]; }
  }

  lemma IdsAppend(s: seq<Candidate>, c: Candidate)
    ensures IdsOf(s + [c]) == IdsOf(s) + {c.chunkId}
  {
    var t := s + [c];
    forall id ensures id in IdsOf(t) <==> id in IdsOf(s) || id == c.chunkId {
      if id in IdsOf(s) {
        var i :| 0 <= i < |s| && s[i].chunkId == id;
        assert t[i].chunkId == id;
      }
      if id == c.chunkId { assert t[|s|].chunkId == id; }
    }
  }

  lemma {:induction false} IdsAtMost(s: seq<Candidate>)
    ensures |IdsOf(s)| <= |s|
  {
    if s != [] {
      var front, last := s[..|s| - 1], s[|s| - 1];
      IdsAtMost(front);
      IdsAppend(front, last);
      assert s == front + [last];
    }
  }

  lemma {:induction false} FewerIds(s: seq<Candidate>)
    requires !UniqueIds(s)
    ensures |IdsOf(s)| < |s|
  {
    var front, last := s[..|s| - 1], s[|s| - 1];
    IdsAppend(front, last);
    assert s == front + [last];
    if UniqueIds(front) {
      var i :| 0 <= i < |front| && front[i].chunkId == last.chunkId;
      assert last.chunkId in IdsOf(front);
      assert IdsOf(s) == IdsOf(front);
      IdsAtMost(front);
    } else {
      FewerIds(front);
    }
  }
}
