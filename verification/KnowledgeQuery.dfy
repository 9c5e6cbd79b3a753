/** The authority check of a query: the search projection proposes, the document rows decide. */
module KnowledgeQuery {
  import opened Prelude
  import opened Documents
  import opened LifecycleRows
  import opened LifecycleProtocol
  import opened LifecycleFencing
  import opened LifecycleSafety
  import opened LifecycleGuarantees

  datatype Candidate = Candidate(knowledgeBaseId: string, documentId: string, documentVersionId: string,
                                 chunkId: string)

  predicate Authoritative(documents: map<string, Document>, c: Candidate) {
    && c.documentId in documents
    && documents[c.documentId].status == Active
    && documents[c.documentId].currentVersionId == Some(c.documentVersionId)
    && documents[c.documentId].knowledgeBaseId == c.knowledgeBaseId
  }

  function Visible(documents: map<string, Document>, candidates: seq<Candidate>): seq<Candidate> {
    if candidates == [] then []
    else (if Authoritative(documents, candidates[0]) then [candidates[0]] else []) + Visible(documents, candidates[1..])
  }

  lemma {:induction false} VisibleAppends(documents: map<string, Document>, a: seq<Candidate>, c: Candidate)
    ensures Visible(documents, a + [c]) ==
            Visible(documents, a) + (if Authoritative(documents, c) then [c] else [])
  {
    if a == [] {
      assert (a + [c])[1..] == [];
    } else {
      assert (a + [c])[1..] == a[1..] + [c];
      VisibleAppends(documents, a[1..], c);
    }
  }

  /**
   * The loop of `retrieve` over the candidates of the projection, reading all documents in one transaction.
   * `readable` are the documents the caller may read; the permission check raises on the first other one.
   */
  method CheckAuthority(documents: map<string, Document>, readable: set<string>, candidates: seq<Candidate>)
    returns (r: Result<seq<Candidate>>)
    ensures r.Ok? <==> forall c :: c in candidates && Authoritative(documents, c) ==> c.documentId in readable
    ensures r.Ok? ==> r.value == Visible(documents, candidates)
  {
    var authoritative: seq<Candidate> := [];
    for i := 0 to |candidates|
      invariant authoritative == Visible(documents, candidates[..i])
      invariant forall j :: 0 <= j < i && Authoritative(documents, candidates[j]) ==>
                    candidates[j].documentId in readable
    {
      var c := candidates[i];
      assert candidates[..i + 1] == candidates[..i] + [c];
      VisibleAppends(documents, candidates[..i], c);
      if !Authoritative(documents, c) { continue; }
      if c.documentId !in readable { return Err("permission_denied"); }
      authoritative := authoritative + [c];
    }
    assert candidates[..|candidates|] == candidates;
    r := Ok(authoritative);
  }

  /** The positions, in order, of the first `n` candidates that the rows confirm. */
  function Positions(documents: map<string, Document>, candidates: seq<Candidate>, n: nat): (positions: seq<nat>)
    requires n <= |candidates|
    ensures forall j, k :: 0 <= j < k < |positions| ==> positions[j] < positions[k]
    ensures forall k :: 0 <= k < |positions| ==> positions[k] < n && Authoritative(documents, candidates[positions[k]])
    ensures forall i :: 0 <= i < n && Authoritative(documents, candidates[i]) ==> i in positions
  {
    if n == 0 then []
    else
      var front := Positions(documents, candidates, n - 1);
      if Authoritative(documents, candidates[n - 1]) then front + [n - 1] else front
  }

  /** `Visible` is the subsequence at exactly the positions whose candidate the rows confirm. */
  lemma {:induction false} VisibleExactly(documents: map<string, Document>, candidates: seq<Candidate>, n: nat)
    requires n <= |candidates|
    ensures |Visible(documents, candidates[..n])| == |Positions(documents, candidates, n)|
    ensures forall k :: 0 <= k < |Positions(documents, candidates, n)| ==>
              Visible(documents, candidates[..n])[k] == candidates[Positions(documents, candidates, n)[k]]
  {
    if n > 0 {
      VisibleExactly(documents, candidates, n - 1);
      assert candidates[..n] == candidates[..n - 1] + [candidates[n - 1]];
      VisibleAppends(documents, candidates[..n - 1], candidates[n - 1]);
    }
  }

  // ---------------------------------------------------------------------------
  // What the authority check sees of the lifecycle
  // ---------------------------------------------------------------------------

  /**
   * A deletion or replacement hides the old version at once and for good: whatever the projection returns,
   * the version is visible again only if a later commit made it current again.
   */
  lemma HiddenUntilRecommitted(w: World, s: Step, steps: seq<Step>, c: Candidate)
    requires Fenced(w) && c.documentId in w.rows.documents
    requires w.rows.documents[c.documentId].currentVersionId == Some(c.documentVersionId)
    requires Perform(w, s).rows.documents[c.documentId].currentVersionId != Some(c.documentVersionId)
    ensures !Authoritative(Perform(w, s).rows.documents, c)
    ensures Authoritative(Execute(Perform(w, s), steps).rows.documents, c) ==>
              && c.documentId in Perform(w, s).log && c.documentId in Execute(Perform(w, s), steps).log
              && exists i :: |Perform(w, s).log[c.documentId]| <= i < |Execute(Perform(w, s), steps).log[c.documentId]|
                   && Execute(Perform(w, s), steps).log[c.documentId][i].after.currentVersionId
                        == Some(c.documentVersionId)
  {
    var w1 := Perform(w, s);
    StepFenced(w, s);
    StepAdvances(w, s);
    GrowsItself(w1);
    RunGrows(w1, w1, steps);
    ShownAgainOnlyByCommit(w1, Execute(w1, steps), c);
  }

  lemma ShownAgainOnlyByCommit(w1: World, w2: World, c: Candidate)
    requires Fenced(w1) && Grows(w1, w2) && c.documentId in w1.rows.documents
    requires w1.rows.documents[c.documentId].currentVersionId != Some(c.documentVersionId)
    ensures c.documentId in w1.log && c.documentId in w2.log
    ensures Authoritative(w2.rows.documents, c) ==>
              exists i :: |w1.log[c.documentId]| <= i < |w2.log[c.documentId]|
                && w2.log[c.documentId][i].after.currentVersionId == Some(c.documentVersionId)
  {
    var d := c.documentId;
    assert LogOk(w1, d) && LogOk(w2, d) && LogExtends(w1, w2, d);
    var n := |w2.log[d]|;
    assert n == |w1.log[d]| ==> w2.log[d] == w1.log[d];
    if Authoritative(w2.rows.documents, c) {
      assert w2.log[d][n - 1].after.currentVersionId == Some(c.documentVersionId);
    }
  }

  /** Whatever a query shows is the READY, once published, current version of an ACTIVE document. */
  lemma VisibleIsLive(w0: World, steps: seq<Step>, candidates: seq<Candidate>, c: Candidate)
    requires Init(w0) && NeverMisleads(w0, steps)
    requires c in Visible(Execute(w0, steps).rows.documents, candidates)
    ensures var w := Execute(w0, steps);
            && c in candidates && c.documentId in w.rows.documents && c.documentVersionId in w.rows.versions
            && w.rows.documents[c.documentId].status == Active
            && w.rows.versions[c.documentVersionId].status == Ready
            && w.rows.versions[c.documentVersionId].documentId == c.documentId
            && w.rows.versions[c.documentVersionId].knowledgeBaseId == c.knowledgeBaseId
  {
    var w := Execute(w0, steps);
    VisibleExactly(w.rows.documents, candidates, |candidates|);
    assert candidates[..|candidates|] == candidates;
    var k :| 0 <= k < |Visible(w.rows.documents, candidates)| && Visible(w.rows.documents, candidates)[k] == c;
    assert Authoritative(w.rows.documents, c) && c in candidates;
    SafetyInEveryRun(w0, steps, c.documentId);
    InitFenced(w0);
    RunFenced(w0, steps);
    assert DocumentOk(w, c.documentId);
  }
}
