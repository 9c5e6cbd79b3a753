/** Reciprocal-rank fusion of the two search channels. */
module Fusion {
  import opened Prelude
  import opened Ranking

  datatype Entry = Entry(
    candidate: Candidate,
    rrf: real,
    fullTextRank: Option<nat>,
    fullTextScore: Option<real>,
    vectorRank: Option<nat>,
    vectorScore: Option<real>)

  // ---------------------------------------------------------------------------
  // The mathematical score
  // ---------------------------------------------------------------------------

  /** What the first `n` ranks of a channel add to the score of chunk `id`: the sum of 1 / (k + rank). */
  function Contribution(channel: seq<Candidate>, n: nat, id: string, k: nat): (r: real)
    requires n <= |channel| && k >= 1
    ensures r >= 0.0
  {
    if n == 0 then 0.0
    else Contribution(channel, n - 1, id, k) + (if channel[n - 1].chunkId == id then 1.0 / (k + n) as real else 0.0)
  }

  function FusedScore(fullText: seq<Candidate>, vector: seq<Candidate>, id: string, k: nat): real
    requires k >= 1
  {
    Contribution(fullText, |fullText|, id, k) + Contribution(vector, |vector|, id, k)
  }

  predicate Occurs(channel: seq<Candidate>, n: nat, id: string)
    requires n <= |channel|
  {
    exists i :: 0 <= i < n && channel[i].chunkId == id
  }

  lemma {:induction false} NoOccurrenceNoContribution(channel: seq<Candidate>, n: nat, id: string, k: nat)
    requires n <= |channel| && k >= 1 && !Occurs(channel, n, id)
    ensures Contribution(channel, n, id, k) == 0.0
  {
    if n > 0 { NoOccurrenceNoContribution(channel, n - 1, id, k); }
  }

  /** In a channel without repeated chunks, a chunk contributes exactly the reciprocal of its one rank. */
  lemma {:induction false} ContributionIsReciprocal(channel: seq<Candidate>, n: nat, i: nat, k: nat)
    requires i < n <= |channel| && k >= 1 && UniqueIds(channel)
    ensures Contribution(channel, n, channel[i].chunkId, k) == 1.0 / (k + i + 1) as real
  {
    if i < n - 1 {
      ContributionIsReciprocal(channel, n - 1, i, k);
    } else {
      NoOccurrenceNoContribution(channel, n - 1, channel[i].chunkId, k);
    }
  }

  lemma ReciprocalFalls(a: nat, b: nat)
    requires 1 <= a <= b
    ensures 1.0 / b as real <= 1.0 / a as real && 1.0 / b as real > 0.0
    ensures a < b ==> 1.0 / b as real < 1.0 / a as real
  {
  }

  // ---------------------------------------------------------------------------
  // The dictionary
  // ---------------------------------------------------------------------------

  function AddRank(entry: Entry, c: Candidate, rank: nat, k: nat, isText: bool): Entry
    requires k >= 1
  {
    var more := entry.(rrf := entry.rrf + 1.0 / (k + rank) as real);
    if isText then more.(fullTextRank := Some(rank), fullTextScore := c.score.fullTextScore)
    else more.(vectorRank := Some(rank), vectorScore := c.score.vectorScore)
  }

  function NewEntry(c: Candidate): Entry {
    Entry(c, 0.0, None, None, None, None)
  }

  /** The dictionary after the first `n` ranks of a channel. */
  function Gather(entries: map<string, Entry>, channel: seq<Candidate>, n: nat, k: nat,
                  isText: bool): map<string, Entry>
    requires n <= |channel| && k >= 1
  {
    if n == 0 then entries
    else
      var before := Gather(entries, channel, n - 1, k, isText);
      var c := channel[n - 1];
      before[c.chunkId := AddRank(if c.chunkId in before then before[c.chunkId] else NewEntry(c), c, n, k, isText)]
  }

  /** The first candidate of a chunk in a channel. */
  function FirstIn(channel: seq<Candidate>, n: nat, id: string): (r: Option<Candidate>)
    requires n <= |channel|
    ensures r.Some? <==> Occurs(channel, n, id)
    ensures r.Some? ==> r.value.chunkId == id && r.value in channel
  {
    if n == 0 then None
    else if Occurs(channel, n - 1, id) then FirstIn(channel, n - 1, id)
    else if channel[n - 1].chunkId == id then Some(channel[n - 1])
    else None
  }

  lemma OccursNext(channel: seq<Candidate>, n: nat, id: string)
    requires n < |channel|
    ensures Occurs(channel, n + 1, id) <==> Occurs(channel, n, id) || channel[n].chunkId == id
  {
    if channel[n].chunkId == id { assert Occurs(channel, n + 1, id); }
  }

  /** The dictionary holds a chunk once it occurred, and its score is what the channel contributed so far. */
  lemma {:induction false} GatherAdds(entries: map<string, Entry>, channel: seq<Candidate>, n: nat, k: nat,
                                      isText: bool,
                                      id: string)
    requires n <= |channel| && k >= 1 && (id in entries ==> entries[id].candidate.chunkId == id)
    ensures var after := Gather(entries, channel, n, k, isText);
            && (id in after <==> id in entries || Occurs(channel, n, id))
            && (id in after ==>
                  && after[id].candidate.chunkId == id
                  && (if id in entries then after[id].candidate == entries[id].candidate
                      else Some(after[id].candidate) == FirstIn(channel, n, id))
                  && after[id].rrf == (if id in entries then entries[id].rrf else 0.0)
                       + Contribution(channel, n, id, k))
  {
    if n > 0 {
      GatherAdds(entries, channel, n - 1, k, isText, id);
      OccursNext(channel, n - 1, id);
      if !Occurs(channel, n - 1, id) { NoOccurrenceNoContribution(channel, n - 1, id, k); }
    }
  }

  /** The provenance of a chunk in the first `n` ranks of a channel: its rank and raw score there, if it has one. */
  predicate Provenance(channel: seq<Candidate>, n: nat, id: string, rank: Option<nat>, score: Option<real>,
                       isText: bool)
    requires n <= |channel|
  {
    match rank
    case None => score.None? && !Occurs(channel, n, id)
    case Some(r) =>
      && 1 <= r <= n && channel[r - 1].chunkId == id
      && score == (if isText then channel[r - 1].score.fullTextScore else channel[r - 1].score.vectorScore)
  }

  function OwnRank(entry: Entry, isText: bool): (Option<nat>, Option<real>) {
    if isText then (entry.fullTextRank, entry.fullTextScore) else (entry.vectorRank, entry.vectorScore)
  }

  /** Gathering a channel records its own ranks and scores and leaves the other channel's alone. */
  lemma {:induction false} GatherRecords(entries: map<string, Entry>, channel: seq<Candidate>, n: nat, k: nat,
                                         isText: bool,
                                         id: string)
    requires n <= |channel| && k >= 1 && (id in entries ==> OwnRank(entries[id], isText) == (None, None))
    ensures var after := Gather(entries, channel, n, k, isText);
            id in after ==>
              && Provenance(channel, n, id, OwnRank(after[id], isText).0, OwnRank(after[id], isText).1, isText)
              && OwnRank(after[id], !isText) == (if id in entries then OwnRank(entries[id], !isText) else (None, None))
  {
    if n > 0 {
      GatherRecords(entries, channel, n - 1, k, isText, id);
      OccursNext(channel, n - 1, id);
      GatherHolds(entries, channel, n - 1, k, isText, id);
    }
  }

  lemma {:induction false} GatherHolds(entries: map<string, Entry>, channel: seq<Candidate>, n: nat, k: nat,
                                       isText: bool,
                                       id: string)
    requires n <= |channel| && k >= 1
    ensures id in Gather(entries, channel, n, k, isText) <==> id in entries || Occurs(channel, n, id)
  {
    if n > 0 {
      GatherHolds(entries, channel, n - 1, k, isText, id);
      OccursNext(channel, n - 1, id);
    }
  }

  /** One pass of the source's outer loop, over the ranks of one channel. */
  method AddChannel(entries: map<string, Entry>, channel: seq<Candidate>, k: nat, isText: bool)
    returns (after: map<string, Entry>)
    requires k >= 1
    ensures after == Gather(entries, channel, |channel|, k, isText)
  {
    after := entries;
    for i := 0 to |channel|
      invariant after == Gather(entries, channel, i, k, isText)
    {
      var c, rank := channel[i], i + 1;
      if c.chunkId !in after { after := after[c.chunkId := NewEntry(c)]; }
      var entry := after[c.chunkId];
      entry := entry.(rrf := entry.rrf + 1.0 / (k + rank) as real);
      if isText {
        entry := entry.(fullTextRank := Some(rank), fullTextScore := c.score.fullTextScore);
      } else {
        entry := entry.(vectorRank := Some(rank), vectorScore := c.score.vectorScore);
      }
      after := after[c.chunkId := entry];
    }
  }

  // ---------------------------------------------------------------------------
  // The fused ranking
  // ---------------------------------------------------------------------------

  function Stamped(entry: Entry, rank: nat): Candidate {
    entry.candidate.(score := entry.candidate.score.(
      finalScore := entry.rrf, fusionScore := Some(entry.rrf), fusionRank := Some(rank),
      fullTextRank := entry.fullTextRank, fullTextScore := entry.fullTextScore,
      vectorRank := entry.vectorRank, vectorScore := entry.vectorScore))
  }

  function RankedEntry(entry: Entry): Ranked { Ranked(entry.candidate, entry.rrf) }

  /** Score and identifier of two fused candidates decide their order. */
  predicate Precedes(a: Candidate, b: Candidate) {
    Before(Ranked(a, a.score.finalScore), Ranked(b, b.score.finalScore))
  }

  /** What a fused ranking is, without the dictionary. */
  ghost predicate FusionOf(fullText: seq<Candidate>, vector: seq<Candidate>, k: nat, r: seq<Candidate>)
    requires k >= 1
  {
    && UniqueIds(r)
    && (forall id :: (exists i :: 0 <= i < |r| && r[i].chunkId == id) <==>
                     Occurs(fullText, |fullText|, id) || Occurs(vector, |vector|, id))
    && (forall i :: 0 <= i < |r| ==> FusedAt(fullText, vector, k, r[i], i))
    && (forall i, j :: 0 <= i < j < |r| ==> Precedes(r[i], r[j]))
  }

  /** The candidate a fused item is made from: the first of its chunk, full text before vector. */
  function FirstAcross(fullText: seq<Candidate>, vector: seq<Candidate>, id: string): Option<Candidate> {
    if Occurs(fullText, |fullText|, id) then FirstIn(fullText, |fullText|, id) else FirstIn(vector, |vector|, id)
  }

  predicate FusedAt(fullText: seq<Candidate>, vector: seq<Candidate>, k: nat, c: Candidate, i: nat)
    requires k >= 1
  {
    && c.score.finalScore == FusedScore(fullText, vector, c.chunkId, k)
    && FirstAcross(fullText, vector, c.chunkId).Some?
    && c == FirstAcross(fullText, vector, c.chunkId).value.(score := c.score)
    && c.score.fusionScore == Some(c.score.finalScore) && c.score.fusionRank == Some(i + 1)
    && Provenance(fullText, |fullText|, c.chunkId, c.score.fullTextRank, c.score.fullTextScore, true)
    && Provenance(vector, |vector|, c.chunkId, c.score.vectorRank, c.score.vectorScore, false)
  }

  function Entries(fullText: seq<Candidate>, vector: seq<Candidate>, k: nat): map<string, Entry>
    requires k >= 1
  {
    Gather(Gather(map[], fullText, |fullText|, k, true), vector, |vector|, k, false)
  }

  ghost predicate EntryOk(fullText: seq<Candidate>, vector: seq<Candidate>, k: nat, id: string, entry: Entry)
    requires k >= 1
  {
    && Some(entry.candidate) == FirstAcross(fullText, vector, id) && entry.rrf == FusedScore(fullText, vector, id, k)
    && Provenance(fullText, |fullText|, id, entry.fullTextRank, entry.fullTextScore, true)
    && Provenance(vector, |vector|, id, entry.vectorRank, entry.vectorScore, false)
  }

  lemma EntryIs(fullText: seq<Candidate>, vector: seq<Candidate>, k: nat, id: string)
    requires k >= 1
    ensures var entries := Entries(fullText, vector, k);
            && (id in entries <==> Occurs(fullText, |fullText|, id) || Occurs(vector, |vector|, id))
            && (id in entries ==> EntryOk(fullText, vector, k, id, entries[id]))
  {
    var text := Gather(map[], fullText, |fullText|, k, true);
    GatherAdds(map[], fullText, |fullText|, k, true, id);
    GatherAdds(text, vector, |vector|, k, false, id);
    GatherRecords(map[], fullText, |fullText|, k, true, id);
    GatherRecords(text, vector, |vector|, k, false, id);
    if id !in text { NoOccurrenceNoContribution(fullText, |fullText|, id, k); }
  }

  lemma EntriesAre(fullText: seq<Candidate>, vector: seq<Candidate>, k: nat)
    requires k >= 1
    ensures var entries := Entries(fullText, vector, k);
            && (forall id :: id in entries <==> Occurs(fullText, |fullText|, id) || Occurs(vector, |vector|, id))
            && (forall id {:trigger EntryOk(fullText, vector, k, id, entries[id])} ::
                  id in entries ==> EntryOk(fullText, vector, k, id, entries[id]))
  {
    var entries := Entries(fullText, vector, k);
    forall id ensures id in entries <==> Occurs(fullText, |fullText|, id) || Occurs(vector, |vector|, id) {
      EntryIs(fullText, vector, k, id);
    }
    forall id | id in entries
      ensures EntryOk(fullText, vector, k, id, entries[id]) { EntryIs(fullText, vector, k, id); }
  }

  function ItemsOf(entries: map<string, Entry>): set<Ranked> {
    set id | id in entries :: RankedEntry(entries[id])
  }

  predicate Keyed(entries: map<string, Entry>) {
    forall id :: id in entries ==> entries[id].candidate.chunkId == id
  }

  ghost predicate SortedEntries(entries: map<string, Entry>, ordered: seq<Ranked>) {
    && InOrder(ordered)
    && (forall x :: x in ordered ==> x.candidate.chunkId in entries && x == RankedEntry(entries[x.candidate.chunkId]))
    && (forall id :: id in entries ==> RankedEntry(entries[id]) in ordered)
    && (forall i, j :: 0 <= i < j < |ordered| ==> ordered[i].candidate.chunkId != ordered[j].candidate.chunkId)
  }

  method SortEntries(entries: map<string, Entry>) returns (ordered: seq<Ranked>)
    requires Keyed(entries)
    ensures SortedEntries(entries, ordered)
  {
    var items := ItemsOf(entries);
    ordered := SortRanked(items);
    OrderedIdsDiffer(ordered, items);
    forall id | id in entries ensures RankedEntry(entries[id]) in items {}
  }

  lemma EntriesAreKeyed(fullText: seq<Candidate>, vector: seq<Candidate>, k: nat)
    requires k >= 1
    ensures Keyed(Entries(fullText, vector, k))
  {
    var entries := Entries(fullText, vector, k);
    forall id | id in entries ensures entries[id].candidate.chunkId == id { EntryIs(fullText, vector, k, id); }
  }

  /** `reciprocal_rank_fusion`. */
  method Fuse(fullText: seq<Candidate>, vector: seq<Candidate>, k: nat) returns (r: seq<Candidate>)
    requires k >= 1
    ensures FusionOf(fullText, vector, k, r)
  {
    var text := AddChannel(map[], fullText, k, true);
    var entries := AddChannel(text, vector, k, false);
    EntriesAreKeyed(fullText, vector, k);
    var ordered := SortEntries(entries);
    r := Stamp(entries, ordered);
    StampedIsFusion(fullText, vector, k, entries, ordered, r);
  }

  /** The loop that numbers the sorted entries. */
  method Stamp(entries: map<string, Entry>, ordered: seq<Ranked>) returns (r: seq<Candidate>)
    requires forall x :: x in ordered ==> x.candidate.chunkId in entries
    ensures |r| == |ordered|
    ensures forall i :: 0 <= i < |r| ==> ordered[i].candidate.chunkId in entries
                                         && r[i] == Stamped(entries[ordered[i].candidate.chunkId], i + 1)
  {
    r := [];
    for i := 0 to |ordered|
      invariant |r| == i
      invariant forall j :: 0 <= j < i ==> ordered[j].candidate.chunkId in entries
                                           && r[j] == Stamped(entries[ordered[j].candidate.chunkId], j + 1)
    {
      r := r + [Stamped(entries[ordered[i].candidate.chunkId], i + 1)];
    }
  }

  lemma StampedIsFusion(fullText: seq<Candidate>, vector: seq<Candidate>, k: nat, entries: map<string, Entry>,
                        ordered: seq<Ranked>, r: seq<Candidate>)
    requires k >= 1 && entries == Entries(fullText, vector, k) && SortedEntries(entries, ordered)
    requires |r| == |ordered|
    requires forall i :: 0 <= i < |r| ==> ordered[i].candidate.chunkId in entries
                                          && r[i] == Stamped(entries[ordered[i].candidate.chunkId], i + 1)
    ensures FusionOf(fullText, vector, k, r)
  {
    EntriesAre(fullText, vector, k);
    forall i | 0 <= i < |r|
      ensures ordered[i] == RankedEntry(entries[ordered[i].candidate.chunkId])
              && r[i].chunkId == ordered[i].candidate.chunkId && FusedAt(fullText, vector, k, r[i], i)
    {
      assert ordered[i] in ordered;
      var id := ordered[i].candidate.chunkId;
      assert EntryOk(fullText, vector, k, id, entries[id]);
    }
    forall id ensures (exists i :: 0 <= i < |r| && r[i].chunkId == id) <==> id in entries {
      if id in entries {
        assert EntryOk(fullText, vector, k, id, entries[id]);
        var x := RankedEntry(entries[id]);
        assert x in ordered;
        var i :| 0 <= i < |ordered| && ordered[i] == x;
        assert r[i].chunkId == id;
      }
    }
    forall i, j | 0 <= i < j < |r| ensures Precedes(r[i], r[j]) && r[i].chunkId != r[j].chunkId {
      assert Before(ordered[i], ordered[j]);
    }
  }

  // ---------------------------------------------------------------------------
  // Laws
  // ---------------------------------------------------------------------------

  function RankedAt(r: seq<Candidate>): seq<Ranked> {
    seq(|r|, i requires 0 <= i < |r| => Ranked(Slot(r[i].chunkId), r[i].score.finalScore))
  }

  /** A placeholder that carries nothing but an identifier. */
  function Slot(id: string): Candidate {
    Candidate("", "", "", "", id, "", Score(0.0, None, None, None, None, None, None, None, None, None))
  }

  /** Fusing the channels in the other order gives the same chunks, in the same order, with the same scores. */
  lemma SwappingChannelsChangesNothing(a: seq<Candidate>, b: seq<Candidate>, k: nat, r: seq<Candidate>,
                                       r': seq<Candidate>)
    requires k >= 1 && FusionOf(a, b, k, r) && FusionOf(b, a, k, r')
    ensures |r| == |r'|
    ensures forall i :: 0 <= i < |r| ==>
                r[i].chunkId == r'[i].chunkId && r[i].score.finalScore == r'[i].score.finalScore
  {
    forall x ensures x in RankedAt(r) <==> x in RankedAt(r') {
      ListedById(a, b, k, r, x);
      ListedById(b, a, k, r', x);
    }
    InOrderOfIds(a, b, k, r);
    InOrderOfIds(b, a, k, r');
    OrderIsUnique(RankedAt(r), RankedAt(r'));
    assert |RankedAt(r)| == |r| && |RankedAt(r')| == |r'|;
    forall i | 0 <= i < |r| ensures r[i].chunkId == r'[i].chunkId && r[i].score.finalScore == r'[i].score.finalScore {
      assert RankedAt(r)[i] == RankedAt(r')[i];
    }
  }

  lemma ListedById(a: seq<Candidate>, b: seq<Candidate>, k: nat, r: seq<Candidate>, x: Ranked)
    requires k >= 1 && FusionOf(a, b, k, r)
    ensures x in RankedAt(r) <==>
            && (Occurs(a, |a|, x.candidate.chunkId) || Occurs(b, |b|, x.candidate.chunkId))
            && x == Ranked(Slot(x.candidate.chunkId), FusedScore(a, b, x.candidate.chunkId, k))
  {
    var id := x.candidate.chunkId;
    if x in RankedAt(r) {
      var i :| 0 <= i < |r| && RankedAt(r)[i] == x;
      assert FusedAt(a, b, k, r[i], i) && r[i].chunkId == id;
    }
    if Occurs(a, |a|, id) || Occurs(b, |b|, id) {
      var i :| 0 <= i < |r| && r[i].chunkId == id;
      assert FusedAt(a, b, k, r[i], i);
      assert RankedAt(r)[i] in RankedAt(r);
    }
  }

  lemma InOrderOfIds(a: seq<Candidate>, b: seq<Candidate>, k: nat, r: seq<Candidate>)
    requires k >= 1 && FusionOf(a, b, k, r)
    ensures InOrder(RankedAt(r))
  {
    forall i, j | 0 <= i < j < |r| ensures Before(RankedAt(r)[i], RankedAt(r)[j]) {
      assert Precedes(r[i], r[j]);
    }
  }

  /** Rank of a chunk in a channel, counting from 1; a chunk that is absent ranks behind everything. */
  predicate NoWorse(channel: seq<Candidate>, x: string, y: string) {
    forall j :: 0 <= j < |channel| && channel[j].chunkId == y ==> exists i :: 0 <= i <= j && channel[i].chunkId == x
  }

  predicate Better(channel: seq<Candidate>, x: string, y: string) {
    && Occurs(channel, |channel|, x)
    && forall j :: 0 <= j < |channel| && channel[j].chunkId == y ==> exists i :: 0 <= i < j && channel[i].chunkId == x
  }

  lemma NoWorseContributes(channel: seq<Candidate>, x: string, y: string, k: nat)
    requires k >= 1 && UniqueIds(channel) && NoWorse(channel, x, y)
    ensures Contribution(channel, |channel|, x, k) >= Contribution(channel, |channel|, y, k)
  {
    if Occurs(channel, |channel|, y) {
      var j :| 0 <= j < |channel| && channel[j].chunkId == y;
      var i :| 0 <= i <= j && channel[i].chunkId == x;
      ContributionIsReciprocal(channel, |channel|, i, k);
      ContributionIsReciprocal(channel, |channel|, j, k);
      ReciprocalFalls(k + i + 1, k + j + 1);
    } else {
      NoOccurrenceNoContribution(channel, |channel|, y, k);
    }
  }

  lemma BetterContributes(channel: seq<Candidate>, x: string, y: string, k: nat)
    requires k >= 1 && UniqueIds(channel) && Better(channel, x, y)
    ensures Contribution(channel, |channel|, x, k) > Contribution(channel, |channel|, y, k)
  {
    if Occurs(channel, |channel|, y) {
      var j :| 0 <= j < |channel| && channel[j].chunkId == y;
      var i :| 0 <= i < j && channel[i].chunkId == x;
      ContributionIsReciprocal(channel, |channel|, i, k);
      ContributionIsReciprocal(channel, |channel|, j, k);
      ReciprocalFalls(k + i + 1, k + j + 1);
    } else {
      NoOccurrenceNoContribution(channel, |channel|, y, k);
      var i :| 0 <= i < |channel| && channel[i].chunkId == x;
      ContributionIsReciprocal(channel, |channel|, i, k);
      ReciprocalFalls(k + i + 1, k + i + 1);
    }
  }

  /** A chunk ranked no worse than another in both channels, and better in one, comes first. */
  lemma DominantComesFirst(fullText: seq<Candidate>, vector: seq<Candidate>, k: nat, r: seq<Candidate>, i: nat, j: nat)
    requires k >= 1 && UniqueIds(fullText) && UniqueIds(vector) && FusionOf(fullText, vector, k, r)
    requires i < |r| && j < |r|
    requires var x, y := r[i].chunkId, r[j].chunkId;
             && NoWorse(fullText, x, y) && NoWorse(vector, x, y)
             && (Better(fullText, x, y) || Better(vector, x, y))
    ensures i < j
  {
    var x, y := r[i].chunkId, r[j].chunkId;
    NoWorseContributes(fullText, x, y, k);
    NoWorseContributes(vector, x, y, k);
    if Better(fullText, x, y) { BetterContributes(fullText, x, y, k); } else { BetterContributes(vector, x, y, k); }
    assert FusedAt(fullText, vector, k, r[i], i) && FusedAt(fullText, vector, k, r[j], j);
    assert !Precedes(r[j], r[i]) && i != j;
  }
}
