/** One attempt, and the whole retrieval with its fallbacks and its trace. */
module RetrievalRuns {
  import opened Prelude
  import opened Ranking
  import opened Retrieval
  import Fusion
  import Cleaning

  /** `errors` lists the channels whose search raised. */
  datatype AttemptOutcome = AttemptOutcome(
    selected: seq<Candidate>,
    fused: seq<Candidate>,
    reranked: seq<Candidate>,
    clean: Cleaning.CleanResult,
    textCount: nat,
    vectorCount: nat,
    errors: seq<Channel>,
    rerankerApplied: bool)

  function ChannelsOf(mode: Mode): set<Channel> {
    match mode
    case FullTextOnly => {FullText}
    case VectorOnly => {Vector}
    case _ => {FullText, Vector}
  }

  predicate ChannelFails(outside: Outside, attempt: Attempt, variants: seq<string>, channel: Channel) {
    channel in ChannelsOf(attempt.mode) && AllReplies(outside, attempt, channel, variants).Err?
  }

  /** A channel that was asked and answered replied with chunk `id`. */
  predicate Replied(outside: Outside, attempt: Attempt, variants: seq<string>, channel: Channel, id: string) {
    && channel in ChannelsOf(attempt.mode) && AllReplies(outside, attempt, channel, variants).Ok?
    && Lists(AllReplies(outside, attempt, channel, variants).value, id)
  }

  predicate FromReplies(outside: Outside, attempt: Attempt, variants: seq<string>, c: Candidate) {
    Replied(outside, attempt, variants, FullText, c.chunkId) || Replied(outside, attempt, variants, Vector, c.chunkId)
  }

  /** What a channel contributes to an attempt: its best candidates, or nothing if it was not asked or failed. */
  ghost predicate ChannelAnswer(outside: Outside, attempt: Attempt, variants: seq<string>, channel: Channel,
                                r: seq<Candidate>) {
    if channel in ChannelsOf(attempt.mode) && AllReplies(outside, attempt, channel, variants).Ok?
    then Collected(AllReplies(outside, attempt, channel, variants).value, channel, attempt.query.topK, r)
    else r == []
  }

  ghost predicate Selected(profile: Profile, attempt: Attempt, window: seq<Candidate>, clean: Cleaning.CleanResult) {
    && |clean.candidates| == MinNat(attempt.query.topN,
         Cleaning.Capacity(window, attempt.threshold, profile.perDocumentLimit, |window|, Cleaning.DocumentsOf(window)))
    && exists scanned {:trigger Cleaning.CleanedFrom(window, attempt.threshold, profile.perDocumentLimit, scanned,
                                                     clean)} ::
         0 <= scanned <= |window|
         && Cleaning.CleanedFrom(window, attempt.threshold, profile.perDocumentLimit, scanned, clean)
  }

  /**
   * The stages of an attempt: the channels are fused, the best of the fusion reranked, and a maximal selection kept.
   */
  ghost predicate Staged(profile: Profile, outside: Outside, attempt: Attempt, text: seq<Candidate>,
                         vector: seq<Candidate>,
                         o: AttemptOutcome)
  {
    && profile.rrfK >= 1 && Fusion.FusionOf(text, vector, profile.rrfK, o.fused)
    && o.reranked == Rerank(o.fused[..MinNat(|o.fused|, profile.rerankCandidateCount)],
                            outside.rerank(attempt.number, attempt.query)).candidates
    && Selected(profile, attempt, o.reranked, o.clean)
    && o.textCount == |text| && o.vectorCount == |vector|
  }

  ghost predicate Pipelined(profile: Profile, outside: Outside, attempt: Attempt, variants: seq<string>,
                            o: AttemptOutcome) {
    exists text, vector {:trigger Staged(profile, outside, attempt, text, vector, o)} ::
      && ChannelAnswer(outside, attempt, variants, FullText, text)
      && ChannelAnswer(outside, attempt, variants, Vector, vector)
      && Staged(profile, outside, attempt, text, vector, o)
  }

  ghost predicate AttemptOk(profile: Profile, outside: Outside, attempt: Attempt, variants: seq<string>,
                            o: AttemptOutcome) {
    && (forall channel :: channel in o.errors <==> ChannelFails(outside, attempt, variants, channel))
    && o.selected == o.clean.candidates && |o.selected| <= attempt.query.topN
    && (forall i :: 0 <= i < |o.selected| ==>
          FromReplies(outside, attempt, variants, o.selected[i]) && o.selected[i].score.finalScore >= attempt.threshold
          && o.selected[i].score.finalRank == Some(i + 1))
    && UniqueIds(o.selected)
  }

  /** A fused item stems from a channel that answered. */
  lemma FusedFromReplies(outside: Outside, attempt: Attempt, variants: seq<string>, k: nat, text: seq<Candidate>,
                         vector: seq<Candidate>,
                         fused: seq<Candidate>)
    requires k >= 1 && Fusion.FusionOf(text, vector, k, fused)
    requires forall c :: c in text ==> Replied(outside, attempt, variants, FullText, c.chunkId)
    requires forall c :: c in vector ==> Replied(outside, attempt, variants, Vector, c.chunkId)
    ensures forall i :: 0 <= i < |fused| ==> FromReplies(outside, attempt, variants, fused[i])
  {
    forall i | 0 <= i < |fused| ensures FromReplies(outside, attempt, variants, fused[i]) {
      var id := fused[i].chunkId;
      assert Fusion.Occurs(text, |text|, id) || Fusion.Occurs(vector, |vector|, id);
      if Fusion.Occurs(text, |text|, id) {
        var j :| 0 <= j < |text| && text[j].chunkId == id;
        assert text[j] in text;
      } else {
        var j :| 0 <= j < |vector| && vector[j].chunkId == id;
        assert vector[j] in vector;
      }
    }
  }

  lemma CollectedReplied(outside: Outside, attempt: Attempt, variants: seq<string>, channel: Channel, r: seq<Candidate>)
    requires channel in ChannelsOf(attempt.mode) && AllReplies(outside, attempt, channel, variants).Ok?
    requires Collected(AllReplies(outside, attempt, channel, variants).value, channel, attempt.query.topK, r)
    ensures forall c :: c in r ==> Replied(outside, attempt, variants, channel, c.chunkId)
  {
    var replies := AllReplies(outside, attempt, channel, variants).value;
    forall c | c in r ensures Lists(replies, c.chunkId) {
      var i :| 0 <= i < |r| && r[i] == c;
      assert r[i] in replies;
      var j :| 0 <= j < |replies| && replies[j] == c;
    }
  }

  /** Selection keeps only chunks of the window it was given. */
  lemma SelectedFromWindow(window: seq<Candidate>, threshold: real, limit: nat, scanned: nat, r: Cleaning.CleanResult)
    requires scanned <= |window| && Cleaning.CleanedFrom(window, threshold, limit, scanned, r)
    ensures forall i :: 0 <= i < |r.candidates| ==>
              && r.candidates[i].chunkId in IdsOf(window) && r.candidates[i].score.finalScore >= threshold
              && r.candidates[i].score.finalRank == Some(i + 1)
    ensures UniqueIds(r.candidates)
  {
    var taken := Cleaning.TakenPositions(window, threshold, limit, scanned);
    Cleaning.TakenAre(window, threshold, limit, scanned);
    forall i | 0 <= i < |taken| ensures taken[i] in taken {}
    forall i, j | 0 <= i < j < |taken| ensures r.candidates[i].chunkId != r.candidates[j].chunkId {
      assert taken[i] < taken[j] && Cleaning.FirstOccurrence(window, taken[j]);
    }
  }

  lemma WindowFromReplies(outside: Outside, attempt: Attempt, variants: seq<string>, fused: seq<Candidate>, n: nat,
                          id: string)
    requires n <= |fused| && forall i :: 0 <= i < |fused| ==> FromReplies(outside, attempt, variants, fused[i])
    requires id in IdsOf(fused[..n])
    ensures Replied(outside, attempt, variants, FullText, id) || Replied(outside, attempt, variants, Vector, id)
  {
    var i :| 0 <= i < n && fused[..n][i].chunkId == id;
    assert FromReplies(outside, attempt, variants, fused[i]);
  }

  const NOTHING: Cleaning.CleanResult := Cleaning.CleanResult([], [])

  /** Fuse, rerank the best, select. */
  method RankAndSelect(profile: Profile, outside: Outside, attempt: Attempt, text: seq<Candidate>,
                       vector: seq<Candidate>,
                       ghost variants: seq<string>, errors: seq<Channel>) returns (o: AttemptOutcome)
    requires profile.Valid() && attempt.query.topN >= 1
    requires ChannelAnswer(outside, attempt, variants, FullText, text)
             && ChannelAnswer(outside, attempt, variants, Vector, vector)
    requires forall c :: c in text ==> Replied(outside, attempt, variants, FullText, c.chunkId)
    requires forall c :: c in vector ==> Replied(outside, attempt, variants, Vector, c.chunkId)
    requires forall channel :: channel in errors <==> ChannelFails(outside, attempt, variants, channel)
    ensures AttemptOk(profile, outside, attempt, variants, o) && o.errors == errors
    ensures Pipelined(profile, outside, attempt, variants, o)
  {
    var fused := Fusion.Fuse(text, vector, profile.rrfK);
    FusedFromReplies(outside, attempt, variants, profile.rrfK, text, vector, fused);
    var n := MinNat(|fused|, profile.rerankCandidateCount);
    var rerank := Rerank(fused[..n], outside.rerank(attempt.number, attempt.query));
    var clean, scanned := Cleaning.CleanCandidates(rerank.candidates, attempt.threshold, profile.perDocumentLimit,
                                                   attempt.query.topN);
    SelectedFromWindow(rerank.candidates, attempt.threshold, profile.perDocumentLimit, scanned, clean);
    forall i | 0 <= i < |clean.candidates| ensures FromReplies(outside, attempt, variants, clean.candidates[i]) {
      WindowFromReplies(outside, attempt, variants, fused, n, clean.candidates[i].chunkId);
    }
    o := AttemptOutcome(clean.candidates, fused, rerank.candidates, clean, |text|, |vector|, errors, rerank.applied);
    assert Selected(profile, attempt, o.reranked, o.clean);
    assert Staged(profile, outside, attempt, text, vector, o);
  }

  lemma NothingIsStaged(profile: Profile, outside: Outside, attempt: Attempt, o: AttemptOutcome)
    requires profile.Valid() && o.fused == [] && o.reranked == [] && o.clean == NOTHING
             && o.textCount == 0 == o.vectorCount
    ensures Staged(profile, outside, attempt, [], [], o)
  {
    var none: seq<Candidate> := [];
    assert Cleaning.DocumentsOf(none) == {};
    assert Cleaning.CleanedFrom(none, attempt.threshold, profile.perDocumentLimit, 0, NOTHING);
    assert o.fused[..0] == none;
  }

  /** The searches of an attempt, channel by channel. */
  function AttemptCalls(outside: Outside, attempt: Attempt, variants: seq<string>): seq<SearchCall> {
    (if attempt.mode == VectorOnly then [] else Calls(outside, attempt, FullText, variants, |variants|))
    + (if attempt.mode == FullTextOnly then [] else Calls(outside, attempt, Vector, variants, |variants|))
  }

  /** `_run_attempt`. */
  method RunAttempt(profile: Profile, outside: Outside, attempt: Attempt, variants: seq<string>)
    returns (o: AttemptOutcome, calls: seq<SearchCall>)
    requires profile.Valid() && attempt.query.topN >= 1
    ensures AttemptOk(profile, outside, attempt, variants, o) && Pipelined(profile, outside, attempt, variants, o)
    ensures calls == AttemptCalls(outside, attempt, variants)
  {
    var text, vector, errors: seq<Channel> := [], [], [];
    calls := [];
    if attempt.mode != VectorOnly {
      var r, made := CollectChannel(outside, attempt, FullText, variants);
      calls := calls + made;
      if r.Ok? {
        text := r.value;
        CollectedReplied(outside, attempt, variants, FullText, text);
      } else {
        errors := errors + [FullText];
      }
    }
    if attempt.mode != FullTextOnly {
      var r, made := CollectChannel(outside, attempt, Vector, variants);
      calls := calls + made;
      if r.Ok? {
        vector := r.value;
        CollectedReplied(outside, attempt, variants, Vector, vector);
      } else {
        errors := errors + [Vector];
      }
    }
    var expected := if attempt.mode == FullTextOnly || attempt.mode == VectorOnly then 1 else 2;
    if |errors| == expected {
      o := AttemptOutcome([], [], [], NOTHING, 0, 0, errors, false);
      NothingIsStaged(profile, outside, attempt, o);
      return;
    }
    o := RankAndSelect(profile, outside, attempt, text, vector, variants, errors);
  }

  // ---------------------------------------------------------------------------
  // The run
  // ---------------------------------------------------------------------------

  datatype Stage =
    | Authorization | Preprocess | RewriteStage | TranslateStage | ExpandStage | FullTextStage | VectorStage
    | FusionStage | RerankStage | SelectStage | FallbackStage

  datatype Event = Event(sequence: nat, stage: Stage, candidateCount: nat)

  datatype VariantKind = Canonical | Rewrite | Translation | Keyword

  datatype Variant = Variant(text: string, kind: VariantKind)

  datatype Status = Success | DependencyFailed | NoEvidence

  datatype FallbackStep = FallbackStep(attempt: nat, mode: Mode, topK: nat, threshold: real, resultCount: nat)

  datatype Retrieved = Retrieved(
    status: Status, selected: seq<Candidate>, outcomes: seq<AttemptOutcome>, events: seq<Event>,
        fallbacks: seq<FallbackStep>)

  predicate Numbered(events: seq<Event>) {
    forall i :: 0 <= i < |events| ==> events[i].sequence == i
  }

  function CountKind(variants: seq<Variant>, kind: VariantKind): nat {
    if variants == [] then 0 else (if variants[0].kind == kind then 1 else 0) + CountKind(variants[1..], kind)
  }

  /** The events before the first attempt. */
  method OpeningEvents(variants: seq<Variant>, failures: bool) returns (events: seq<Event>)
    ensures Numbered(events) && |events| >= 2 && events[0].stage == Authorization
  {
    events := [Event(0, Authorization, 0), Event(1, Preprocess, |variants|)];
    if failures { events := events + [Event(|events|, RewriteStage, |variants|)]; }
    var stages := [(Rewrite, RewriteStage), (Translation, TranslateStage), (Keyword, ExpandStage)];
    for i := 0 to 3
      invariant Numbered(events) && |events| >= 2 && events[0].stage == Authorization
    {
      var (kind, stage) := stages[i];
      var n := CountKind(variants, kind);
      if n > 0 { events := events + [Event(|events|, stage, n)]; }
    }
  }

  /** `_attempt_events`: five events, numbered after those already there. */
  function AttemptEvents(base: nat, o: AttemptOutcome): seq<Event> {
    [Event(base, FullTextStage, o.textCount), Event(base + 1, VectorStage, o.vectorCount),
     Event(base + 2, FusionStage, |o.fused|), Event(base + 3, RerankStage, |o.clean.candidates|),
     Event(base + 4, if o.selected != [] then SelectStage else FallbackStage, |o.selected|)]
  }

  function Effective(query: Query, canonical: string, profile: Profile): Query {
    query.(text := canonical, topK := MinNat(query.topK, profile.candidateTopK),
           topN := MinNat(query.topN, profile.finalTopK))
  }

  ghost predicate Quiet(o: AttemptOutcome) {
    o.selected == [] && o.errors == []
  }

  ghost predicate StagedAt(profile: Profile, outside: Outside, variants: seq<string>, attempts: seq<Attempt>,
                           outcomes: seq<AttemptOutcome>, i: nat)
  {
    i < |attempts| && i < |outcomes| && Pipelined(profile, outside, attempts[i], variants, outcomes[i])
  }

  /** Every attempt went through all its stages. */
  ghost predicate AllStaged(profile: Profile, outside: Outside, variants: seq<string>, attempts: seq<Attempt>,
                            outcomes: seq<AttemptOutcome>)
  {
    forall i {:trigger StagedAt(profile, outside, variants, attempts, outcomes, i)} :: 0 <= i < |outcomes| ==>
      StagedAt(profile, outside, variants, attempts, outcomes, i)
  }

  ghost predicate Ran(profile: Profile, outside: Outside, variants: seq<string>, attempts: seq<Attempt>,
                      outcomes: seq<AttemptOutcome>) {
    && |outcomes| <= |attempts|
    && forall i :: 0 <= i < |outcomes| ==> AttemptOk(profile, outside, attempts[i], variants, outcomes[i])
  }

  predicate Steps(attempts: seq<Attempt>, outcomes: seq<AttemptOutcome>, fallbacks: seq<FallbackStep>) {
    && |outcomes| <= |attempts| && |fallbacks| == (if outcomes == [] then 0 else |outcomes| - 1)
    && forall i :: 0 <= i < |fallbacks| ==>
         fallbacks[i] == FallbackStep(i + 1, attempts[i + 1].mode, attempts[i + 1].query.topK,
                                      attempts[i + 1].threshold,
                                      |outcomes[i + 1].selected|)
  }

  /** How a run ended, told by its attempts. */
  ghost predicate RunOk(query: Query, profile: Profile, outside: Outside, variants: seq<string>,
                        attempts: seq<Attempt>, r: Retrieved) {
    && |r.outcomes| >= 1 && Ran(profile, outside, variants, attempts, r.outcomes)
    && (forall i :: 0 <= i < |r.outcomes| - 1 ==> Quiet(r.outcomes[i]))
    && var last := r.outcomes[|r.outcomes| - 1];
       && r.selected == last.selected && |r.selected| <= MinNat(query.topN, profile.finalTopK)
       && match r.status
          case Success => last.selected != []
          case DependencyFailed => last.selected == [] && last.errors != []
          case NoEvidence => Quiet(last) && |r.outcomes| == |attempts|
  }

  /** The opening events and then those of every attempt. */
  function AllEvents(opening: seq<Event>, outcomes: seq<AttemptOutcome>): (events: seq<Event>)
    ensures |events| == |opening| + 5 * |outcomes| && opening <= events
    decreases |outcomes|
  {
    if outcomes == [] then opening
    else
      var before := AllEvents(opening, outcomes[..|outcomes| - 1]);
      before + AttemptEvents(|before|, outcomes[|outcomes| - 1])
  }

  predicate TraceOk(attempts: seq<Attempt>, r: Retrieved) {
    && Steps(attempts, r.outcomes, r.fallbacks)
    && Numbered(r.events) && |r.events| >= 2 + 5 * |r.outcomes|
    && r.events == AllEvents(r.events[..|r.events| - 5 * |r.outcomes|], r.outcomes)
  }

  lemma EventsStayNumbered(events: seq<Event>, o: AttemptOutcome)
    requires Numbered(events)
    ensures Numbered(events + AttemptEvents(|events|, o))
  {
  }

  predicate InScope(calls: seq<SearchCall>, query: Query) {
    forall i :: 0 <= i < |calls| ==> SameScope(calls[i].query, query)
  }

  /** The searches of the first `n` attempts. */
  function RunCalls(outside: Outside, attempts: seq<Attempt>, variants: seq<string>, n: nat): seq<SearchCall>
    requires n <= |attempts|
  {
    if n == 0 then []
    else RunCalls(outside, attempts, variants, n - 1) + AttemptCalls(outside, attempts[n - 1], variants)
  }

  /** Every search of every attempt stays in the scope of the query. */
  lemma {:induction false} RunCallsKeepScope(query: Query, outside: Outside, attempts: seq<Attempt>,
                                             variants: seq<string>,
                                             n: nat)
    requires n <= |attempts| && forall i :: 0 <= i < |attempts| ==> SameScope(attempts[i].query, query)
    ensures InScope(RunCalls(outside, attempts, variants, n), query)
  {
    if n > 0 {
      RunCallsKeepScope(query, outside, attempts, variants, n - 1);
      CallsAre(outside, attempts[n - 1], FullText, variants, |variants|);
      CallsAre(outside, attempts[n - 1], Vector, variants, |variants|);
    }
  }

  lemma RanMore(profile: Profile, outside: Outside, variants: seq<string>, attempts: seq<Attempt>,
                outcomes: seq<AttemptOutcome>,
                o: AttemptOutcome)
    requires Ran(profile, outside, variants, attempts, outcomes) && |outcomes| < |attempts|
    requires AttemptOk(profile, outside, attempts[|outcomes|], variants, o)
    ensures Ran(profile, outside, variants, attempts, outcomes + [o])
  {
    forall i | 0 <= i < |outcomes| + 1 ensures AttemptOk(profile, outside, attempts[i], variants, (outcomes + [o])[i]) {
      if i < |outcomes| { assert AttemptOk(profile, outside, attempts[i], variants, outcomes[i]); }
    }
  }

  lemma StagedMore(profile: Profile, outside: Outside, variants: seq<string>, attempts: seq<Attempt>,
                   outcomes: seq<AttemptOutcome>,
                   o: AttemptOutcome)
    requires AllStaged(profile, outside, variants, attempts, outcomes) && |outcomes| < |attempts|
    requires Pipelined(profile, outside, attempts[|outcomes|], variants, o)
    ensures AllStaged(profile, outside, variants, attempts, outcomes + [o])
  {
    forall i | 0 <= i < |outcomes| + 1 ensures StagedAt(profile, outside, variants, attempts, outcomes + [o], i) {
      if i < |outcomes| { assert StagedAt(profile, outside, variants, attempts, outcomes, i); }
    }
  }

  function StepFor(attempt: Attempt, o: AttemptOutcome): FallbackStep {
    FallbackStep(attempt.number, attempt.mode, attempt.query.topK, attempt.threshold, |o.selected|)
  }

  lemma StepsMore(attempts: seq<Attempt>, outcomes: seq<AttemptOutcome>, fallbacks: seq<FallbackStep>,
                  o: AttemptOutcome)
    requires Steps(attempts, outcomes, fallbacks) && |outcomes| < |attempts|
    requires attempts[|outcomes|].number == |outcomes|
    ensures Steps(attempts, outcomes + [o],
                  if outcomes == [] then fallbacks else fallbacks + [StepFor(attempts[|outcomes|], o)])
  {
  }

  lemma EventsMore(opening: seq<Event>, outcomes: seq<AttemptOutcome>, o: AttemptOutcome)
    ensures var before := AllEvents(opening, outcomes);
            AllEvents(opening, outcomes + [o]) == before + AttemptEvents(|before|, o)
  {
    assert (outcomes + [o])[..|outcomes|] == outcomes;
  }

  /** What the loop has made of the first `|outcomes|` attempts. */
  ghost predicate Progress(profile: Profile, outside: Outside, variants: seq<string>, attempts: seq<Attempt>,
                           opening: seq<Event>,
                           outcomes: seq<AttemptOutcome>, events: seq<Event>, fallbacks: seq<FallbackStep>)
  {
    && Ran(profile, outside, variants, attempts, outcomes) && AllStaged(profile, outside, variants, attempts, outcomes)
    && Steps(attempts, outcomes, fallbacks) && Numbered(events) && events == AllEvents(opening, outcomes)
  }

  lemma ProgressMore(profile: Profile, outside: Outside, variants: seq<string>, attempts: seq<Attempt>,
                     opening: seq<Event>,
                     outcomes: seq<AttemptOutcome>, events: seq<Event>, fallbacks: seq<FallbackStep>, o: AttemptOutcome)
    requires Progress(profile, outside, variants, attempts, opening, outcomes, events, fallbacks)
    requires |outcomes| < |attempts| && attempts[|outcomes|].number == |outcomes|
    requires AttemptOk(profile, outside, attempts[|outcomes|], variants, o)
    requires Pipelined(profile, outside, attempts[|outcomes|], variants, o)
    ensures Progress(profile, outside, variants, attempts, opening, outcomes + [o],
                     events + AttemptEvents(|events|, o),
                     if outcomes == [] then fallbacks else fallbacks + [StepFor(attempts[|outcomes|], o)])
  {
    RanMore(profile, outside, variants, attempts, outcomes, o);
    StagedMore(profile, outside, variants, attempts, outcomes, o);
    StepsMore(attempts, outcomes, fallbacks, o);
    EventsMore(opening, outcomes, o);
    EventsStayNumbered(events, o);
  }

  lemma Ended(query: Query, profile: Profile, outside: Outside, variants: seq<string>, attempts: seq<Attempt>,
              opening: seq<Event>,
              r: Retrieved)
    requires Progress(profile, outside, variants, attempts, opening, r.outcomes, r.events, r.fallbacks)
    requires |opening| >= 2 && |r.outcomes| >= 1
    requires forall i :: 0 <= i < |r.outcomes| - 1 ==> Quiet(r.outcomes[i])
    requires r.selected == r.outcomes[|r.outcomes| - 1].selected
             && |r.selected| <= MinNat(query.topN, profile.finalTopK)
    requires var last := r.outcomes[|r.outcomes| - 1];
             r.status == (if last.selected != [] then Success else if last.errors != [] then DependencyFailed
                          else NoEvidence)
    requires r.status == NoEvidence ==> |r.outcomes| == |attempts|
    ensures RunOk(query, profile, outside, variants, attempts, r) && TraceOk(attempts, r)
    ensures AllStaged(profile, outside, variants, attempts, r.outcomes)
  {
    assert r.events[..|r.events| - 5 * |r.outcomes|] == opening;
  }

  predicate Scheduled(query: Query, profile: Profile, attempts: seq<Attempt>) {
    && profile.Valid() && query.topN >= 1
    && forall i :: 0 <= i < |attempts| ==>
         && attempts[i].number == i && SameScope(attempts[i].query, query)
         && attempts[i].query.topN == MinNat(query.topN, profile.finalTopK)
  }

  /** One turn of the loop: run the next attempt and append its events and, for a fallback, its step. */
  method RunTurn(query: Query, profile: Profile, outside: Outside, variants: seq<string>, attempts: seq<Attempt>,
                 ghost opening: seq<Event>, ghost outcomes: seq<AttemptOutcome>, n: nat, events: seq<Event>,
                 fallbacks: seq<FallbackStep>)
    returns (outcome: AttemptOutcome, events': seq<Event>, fallbacks': seq<FallbackStep>, calls: seq<SearchCall>)
    requires Scheduled(query, profile, attempts) && n == |outcomes| < |attempts|
    requires Progress(profile, outside, variants, attempts, opening, outcomes, events, fallbacks)
    ensures Progress(profile, outside, variants, attempts, opening, outcomes + [outcome], events', fallbacks')
    ensures |outcome.selected| <= MinNat(query.topN, profile.finalTopK)
    ensures calls == AttemptCalls(outside, attempts[n], variants)
  {
    var attempt := attempts[n];
    outcome, calls := RunAttempt(profile, outside, attempt, variants);
    events' := events + AttemptEvents(|events|, outcome);
    fallbacks' := if attempt.number > 0 then fallbacks + [StepFor(attempt, outcome)] else fallbacks;
    ProgressMore(profile, outside, variants, attempts, opening, outcomes, events, fallbacks, outcome);
  }

  /** The loop over the attempts. */
  method RunAttempts(query: Query, profile: Profile, outside: Outside, variants: seq<string>, attempts: seq<Attempt>,
                     opening: seq<Event>) returns (r: Retrieved, calls: seq<SearchCall>)
    requires Scheduled(query, profile, attempts) && attempts != [] && Numbered(opening) && |opening| >= 2
    ensures RunOk(query, profile, outside, variants, attempts, r) && TraceOk(attempts, r)
    ensures AllStaged(profile, outside, variants, attempts, r.outcomes)
    ensures calls == RunCalls(outside, attempts, variants, |r.outcomes|)
  {
    var events := opening;
    var outcomes: seq<AttemptOutcome>, fallbacks: seq<FallbackStep> := [], [];
    calls := [];
    for n := 0 to |attempts|
      invariant |outcomes| == n
      invariant Progress(profile, outside, variants, attempts, opening, outcomes, events, fallbacks)
      invariant forall i :: 0 <= i < n ==> Quiet(outcomes[i])
      invariant calls == RunCalls(outside, attempts, variants, n)
    {
      var outcome, made;
      outcome, events, fallbacks, made :=
        RunTurn(query, profile, outside, variants, attempts, opening, outcomes, n, events, fallbacks);
      calls, outcomes := calls + made, outcomes + [outcome];
      if outcome.selected != [] {
        r := Retrieved(Success, outcome.selected, outcomes, events, fallbacks);
        Ended(query, profile, outside, variants, attempts, opening, r);
        return;
      }
      if outcome.errors != [] {
        r := Retrieved(DependencyFailed, [], outcomes, events, fallbacks);
        Ended(query, profile, outside, variants, attempts, opening, r);
        return;
      }
    }
    r := Retrieved(NoEvidence, [], outcomes, events, fallbacks);
    Ended(query, profile, outside, variants, attempts, opening, r);
  }

  function TextsOf(variants: seq<Variant>): seq<string> {
    seq(|variants|, i requires 0 <= i < |variants| => variants[i].text)
  }

  /**
   * `retrieve`. A tenant mismatch raises before anything is searched; the failure of a channel raises after the
   * attempt it spoiled, which the status `DependencyFailed` stands for.
   */
  method Retrieve(contextTenant: string, query: Query, canonical: string, profile: Profile, outside: Outside,
                  variants: seq<Variant>, failures: bool)
    returns (r: Result<Retrieved>, calls: seq<SearchCall>, ghost attempts: seq<Attempt>)
    requires profile.Valid() && 1 <= query.topN <= query.topK <= 10000
    ensures r.Ok? <==> contextTenant == query.tenantId
    ensures r.Err? ==> calls == []
    ensures Planned(Effective(query, canonical, profile), profile, attempts)
    ensures r.Ok? ==> RunOk(query, profile, outside, TextsOf(variants), attempts, r.value) && TraceOk(attempts, r.value)
    ensures r.Ok? ==> AllStaged(profile, outside, TextsOf(variants), attempts, r.value.outcomes)
    ensures r.Ok? ==> calls == RunCalls(outside, attempts, TextsOf(variants), |r.value.outcomes|)
    ensures InScope(calls, query)
  {
    var effective := Effective(query, canonical, profile);
    var more := FallbackAttempts(effective, profile.fusionThreshold, profile.thresholdFloor,
                                 profile.candidateMultiplier,
                                 profile.maxFallbackAttempts);
    var all := [Attempt(0, Hybrid, effective, profile.fusionThreshold, false)] + more;
    attempts := all;
    if contextTenant != query.tenantId { return Err("tenant_mismatch"), [], attempts; }
    AttemptsKeepScope(effective, profile, all);
    var texts := TextsOf(variants);
    var events := OpeningEvents(variants, failures);
    var run;
    run, calls := RunAttempts(query, profile, outside, texts, all, events);
    RunCallsKeepScope(query, outside, all, texts, |run.outcomes|);
    r := Ok(run);
  }

  /** NO_EVIDENCE means that every attempt ran, no channel it asked failed, and nothing was selected. */
  lemma NoEvidenceIsHonest(query: Query, profile: Profile, outside: Outside, variants: seq<string>,
                           attempts: seq<Attempt>, r: Retrieved)
    requires RunOk(query, profile, outside, variants, attempts, r) && r.status == NoEvidence
    ensures |r.outcomes| == |attempts|
    ensures forall i, channel :: 0 <= i < |attempts| ==> !ChannelFails(outside, attempts[i], variants, channel)
    ensures forall i :: 0 <= i < |attempts| ==> r.outcomes[i].selected == []
  {
    forall i, channel | 0 <= i < |attempts| ensures !ChannelFails(outside, attempts[i], variants, channel) {
      assert Quiet(r.outcomes[i]);
      assert channel !in r.outcomes[i].errors;
    }
  }
}
