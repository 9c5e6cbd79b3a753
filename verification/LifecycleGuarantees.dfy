/** What the lifecycle promises about whole runs, drawn from the two invariants. */
module LifecycleGuarantees {
  import opened Prelude
  import opened Documents
  import opened LifecycleRows
  import opened LifecycleProtocol
  import opened LifecycleFencing
  import opened LifecycleSafety
  import opened LifecycleOrder

  // ---------------------------------------------------------------------------
  // One step changes a document by one logged commit, or not at all
  // ---------------------------------------------------------------------------

  /** A changed document took the fencing token of exactly the operation its new log entry names. */
  lemma ChangeIsOneCommit(w: World, w': World, d: string)
    requires Fenced(w) && Fenced(w') && Advances(w, w')
    requires d in w.rows.documents && w'.rows.documents[d] != w.rows.documents[d]
    ensures d in w.log && d in w'.log && |w'.log[d]| == |w.log[d]| + 1
    ensures var c := w'.log[d][|w.log[d]|];
            && c.before == w.rows.documents[d] && c.after == w'.rows.documents[d]
            && c.operationId in w'.rows.operations
            && Effect(w'.rows.operations[c.operationId], w.rows.documents[d], w'.rows.documents[d])
  {
    assert LogOk(w, d) && LogOk(w', d) && OneCommit(w, w', d);
    assert EntryOk(w', d, |w.log[d]|);
  }

  lemma ChangeTakesFencingToken(w: World, s: Step, d: string)
    requires Fenced(w) && d in w.rows.documents
    ensures d in Perform(w, s).rows.documents
    ensures Perform(w, s).rows.documents[d] != w.rows.documents[d] ==>
              && d in w.log && d in Perform(w, s).log && |Perform(w, s).log[d]| == |w.log[d]| + 1
              && var w' := Perform(w, s);
                 var c := w'.log[d][|w.log[d]|];
                 && c.before == w.rows.documents[d] && c.after == w'.rows.documents[d]
                 && c.operationId in w'.rows.operations
                 && Effect(w'.rows.operations[c.operationId], w.rows.documents[d], w'.rows.documents[d])
  {
    StepFenced(w, s);
    StepAdvances(w, s);
    var w' := Perform(w, s);
    if w'.rows.documents[d] != w.rows.documents[d] { ChangeIsOneCommit(w, w', d); }
  }

  /** What two worlds of one run have in common. */
  ghost predicate Grows(w: World, w': World) {
    && Fenced(w') && w.views <= w'.views && w.clock <= w'.clock && w'.genesis == w.genesis
    && w'.retention == w.retention && w'.historyRetention == w.historyRetention
    && w.rows.documents.Keys <= w'.rows.documents.Keys && w.rows.operations.Keys <= w'.rows.operations.Keys
    && (forall o :: o in w.rows.operations ==> SameOperation(w'.rows.operations[o], w.rows.operations[o]))
    && forall d {:trigger LogExtends(w, w', d)} :: d in w.rows.documents ==> LogExtends(w, w', d)
  }

  ghost predicate LogExtends(w: World, w': World, d: string) {
    d in w.log && d in w'.log && w.log[d] <= w'.log[d]
  }

  lemma GrowsSteps(w: World, x: World, y: World)
    requires Grows(w, x) && Fenced(y) && Advances(x, y)
    ensures Grows(w, y)
  {
    forall d | d in w.rows.documents ensures LogExtends(w, y, d) {
      assert LogExtends(w, x, d) && OneCommit(x, y, d);
    }
  }

  lemma GrowsItself(w: World)
    requires Fenced(w)
    ensures Grows(w, w)
  {
    forall d | d in w.rows.documents ensures LogExtends(w, w, d) { assert LogOk(w, d); }
  }

  lemma FollowsGrows(w: World, w': World)
    requires Fenced(w) && Follows(w, w')
    ensures Grows(w, w')
  {
    var worlds := iset x | Grows(w, x);
    GrowsItself(w);
    forall x, s | x in worlds ensures Perform(x, s) in worlds {
      StepFenced(x, s);
      StepAdvances(x, s);
      GrowsSteps(w, x, Perform(x, s));
    }
    assert Closed(worlds) && w in worlds;
  }

  lemma {:induction false} RunGrows(w: World, w': World, steps: seq<Step>)
    requires Grows(w, w')
    ensures Grows(w, Execute(w', steps))
    decreases |steps|
  {
    if steps != [] {
      StepFenced(w', steps[0]);
      StepAdvances(w', steps[0]);
      GrowsSteps(w, w', Perform(w', steps[0]));
      RunGrows(w, Perform(w', steps[0]), steps[1..]);
    }
  }

  // ---------------------------------------------------------------------------
  // Fencing, for every run from every initial world
  // ---------------------------------------------------------------------------

  /** The revision counts the commits, and the i-th of them took token `genesis revision + i + 1`. */
  lemma RevisionCountsCommits(w0: World, steps: seq<Step>, d: string)
    requires Init(w0) && d in Execute(w0, steps).rows.documents
    ensures var w := Execute(w0, steps);
            && d in w.log && d in w.genesis
            && w.rows.documents[d].revision == w.genesis[d].revision + |w.log[d]|
            && forall i :: 0 <= i < |w.log[d]| ==>
                 && w.log[d][i].operationId in w.rows.operations
                 && w.rows.operations[w.log[d][i].operationId].documentId == d
                 && w.rows.operations[w.log[d][i].operationId].fencingToken == w.genesis[d].revision + i + 1
                 && w.rows.operations[w.log[d][i].operationId].expectedRevision == w.genesis[d].revision + i
  {
    InitFenced(w0);
    RunFenced(w0, steps);
    var w := Execute(w0, steps);
    assert LogOk(w, d);
    forall i | 0 <= i < |w.log[d]|
      ensures w.log[d][i].operationId in w.rows.operations
              && w.rows.operations[w.log[d][i].operationId].documentId == d
              && w.rows.operations[w.log[d][i].operationId].fencingToken == w.genesis[d].revision + i + 1
              && w.rows.operations[w.log[d][i].operationId].expectedRevision == w.genesis[d].revision + i
    {
      assert EntryOk(w, d, i) && OperationOk(w, w.log[d][i].operationId);
    }
  }

  /** No operation takes effect twice, and no two operations registered against one revision both do. */
  lemma AtMostOneEffect(w0: World, steps: seq<Step>, d: string, e: string, i: nat, j: nat)
    requires Init(w0)
    requires var w := Execute(w0, steps); d in w.rows.documents && e in w.rows.documents && d in w.log && e in w.log
    requires i < |Execute(w0, steps).log[d]| && j < |Execute(w0, steps).log[e]|
    ensures var w := Execute(w0, steps);
            var x, y := w.log[d][i].operationId, w.log[e][j].operationId;
            && (x == y ==> d == e && i == j)
            && x in w.rows.operations && y in w.rows.operations
            && (d == e && w.rows.operations[x].expectedRevision == w.rows.operations[y].expectedRevision ==> x == y)
            && (d == e && i < j ==> w.rows.operations[x].fencingToken < w.rows.operations[y].fencingToken)
  {
    RevisionCountsCommits(w0, steps, d);
    RevisionCountsCommits(w0, steps, e);
  }

  /** Re-invoking a publication whose operation already took effect changes nothing, whatever was read when. */
  lemma ReplayHasNoEffect(w: World, read: Snapshot, index: string, chunks: nat, now: int, i: nat)
    requires Fenced(w) && read.PublishRead? && read in w.views
    requires read.document.id in w.rows.documents && read.document.id in w.log && i < |w.log[read.document.id]|
    requires w.log[read.document.id][i].operationId == read.operation.id
    ensures Perform(w, PublishStep(read, index, chunks, now)) == w
  {
    var d := read.document.id;
    assert ReadOk(w, read) && LogOk(w, d) && EntryOk(w, d, i);
    if AfterPublish(w, read, index, chunks, now) != w {
      var p := PublishShape(w, read, index, chunks, now);
      assert false;
    }
  }

  /** DELETED is absorbing: the row, revision included, never changes again. */
  lemma {:induction false} DeletedIsFinal(w: World, steps: seq<Step>, d: string)
    requires Fenced(w) && d in w.rows.documents && w.rows.documents[d].status == DocumentStatus.Deleted
    ensures d in Execute(w, steps).rows.documents && Execute(w, steps).rows.documents[d] == w.rows.documents[d]
    decreases |steps|
  {
    if steps != [] {
      ChangeTakesFencingToken(w, steps[0], d);
      StepFenced(w, steps[0]);
      DeletedIsFinal(Perform(w, steps[0]), steps[1..], d);
    }
  }

  /**
   * No cleanup, whichever deletion it stems from, deletes a document before the `purge_after` its row has at
   * that moment: a document becomes DELETED only out of DELETE_PENDING, and only once that time has come.
   */
  lemma PurgeWaitsForRetention(w0: World, steps: seq<Step>, d: string, i: nat)
    requires Init(w0) && d in Execute(w0, steps).rows.documents
    ensures d in Execute(w0, steps).log
    ensures i < |Execute(w0, steps).log[d]| ==>
              var c := Execute(w0, steps).log[d][i];
              c.after.status == DocumentStatus.Deleted ==>
                && c.before.status == DeletePending && c.before.purgeAfter.Some?
                && c.before.purgeAfter.value <= c.after.updatedAt
  {
    InitFenced(w0);
    RunFenced(w0, steps);
    var w := Execute(w0, steps);
    assert LogOk(w, d);
    if i < |w.log[d]| { assert EntryOk(w, d, i); }
  }

  // ---------------------------------------------------------------------------
  // Safety, in every run until a restore misleads
  // ---------------------------------------------------------------------------

  /** Which statuses the versions of document `d` that were ever current may have. */
  ghost predicate ShowsOnlyLiveContent(w: World, d: string)
    requires d in w.rows.documents
  {
    var document := w.rows.documents[d];
    && (document.status == Active ==>
          && document.currentVersionId.Some? && document.currentVersionId.value in w.rows.versions
          && document.currentVersionId.value in w.published
          && w.rows.versions[document.currentVersionId.value].documentId == d)
    && (document.status == DeletePending ==> Held(w, d).Some? && Held(w, d).value in w.published)
    && forall v :: v in w.published && v in w.rows.versions && w.rows.versions[v].documentId == d ==>
         w.rows.versions[v].status ==
           match document.status
           case Active => if document.currentVersionId == Some(v) then Ready else Superseded
           case DeletePending => if Held(w, d) == Some(v) then Ready else Superseded
           case Deleted => VersionStatus.Deleted
  }

  lemma SafeShowsOnlyLiveContent(w: World, d: string)
    requires Safe(w) && d in w.rows.documents
    ensures ShowsOnlyLiveContent(w, d)
  {
    assert DocumentOk(w, d);
    if w.rows.documents[d].status == DeletePending { HeldIsReady(w, d); }
    forall v | v in w.published && v in w.rows.versions && w.rows.versions[v].documentId == d
      ensures VersionSafe(w, v) {}
  }

  ghost predicate AllLive(w: World) {
    forall d :: d in w.rows.documents ==> ShowsOnlyLiveContent(w, d)
  }

  /** Every document shows only live content after each step of the run, and before the first. */
  ghost predicate LiveThroughout(w: World, steps: seq<Step>)
    decreases |steps|
  {
    AllLive(w) && (steps == [] || LiveThroughout(Perform(w, steps[0]), steps[1..]))
  }

  lemma SafeIsLive(w: World)
    requires Safe(w)
    ensures AllLive(w)
  {
    forall d | d in w.rows.documents ensures ShowsOnlyLiveContent(w, d) { SafeShowsOnlyLiveContent(w, d); }
  }

  /** A misleading restore makes a SUPERSEDED version current, and leaves the one that was deleted READY beside it. */
  lemma MisleadingBreaksLiveness(w: World, s: Step)
    requires Safe(w) && Misleads(w, s)
    ensures s.read.document.id in Perform(w, s).rows.documents
    ensures !ShowsOnlyLiveContent(Perform(w, s), s.read.document.id)
  {
    var d, w' := s.read.document.id, Perform(w, s);
    var p := RestoreShape(w, s.read, s.operationId, s.key, s.fingerprint, s.chunks, s.now);
    assert ReadOk(w, s.read) && ReadSafe(w, s.read);
    HeldIsReady(w, d);
    var held := Held(w, d).value;
    assert held != p.ready.id && w'.rows.versions[held] == w.rows.versions[held];
    assert held in w'.published && w'.rows.documents[d].currentVersionId == Some(p.ready.id);
  }

  /**
   * The exact condition, for every run, DELETE operations rewritten or not: documents show only live content throughout
   * if and only if no restore takes effect whose target was SUPERSEDED when it was read.
   */
  lemma LiveExactlyUntilMisled(w0: World, steps: seq<Step>)
    requires Init(w0)
    ensures LiveThroughout(w0, steps) <==> NeverMisleads(w0, steps)
  {
    InitSafe(w0);
    LiveExactlyUntilMisledFrom(w0, steps);
  }

  lemma {:induction false} LiveExactlyUntilMisledFrom(w: World, steps: seq<Step>)
    requires Safe(w)
    ensures LiveThroughout(w, steps) <==> NeverMisleads(w, steps)
    decreases |steps|
  {
    SafeIsLive(w);
    if steps != [] {
      var w' := Perform(w, steps[0]);
      if Misleads(w, steps[0]) {
        MisleadingBreaksLiveness(w, steps[0]);
        assert !AllLive(w');
      } else {
        StepSafe(w, steps[0]);
        LiveExactlyUntilMisledFrom(w', steps[1..]);
      }
    }
  }

  /** No run misleads in which no DELETE operation row is rewritten, as cancelling it does. */
  lemma UntouchedDeletionsNeverMislead(w0: World, steps: seq<Step>)
    requires Init(w0) && NeverTouchesDeletions(w0, steps)
    ensures NeverMisleads(w0, steps)
  {
    InitSafe(w0);
    InitOrdered(w0);
    RunOrdered(w0, steps);
  }

  lemma SafetyInEveryRun(w0: World, steps: seq<Step>, d: string)
    requires Init(w0) && NeverMisleads(w0, steps) && d in Execute(w0, steps).rows.documents
    ensures ShowsOnlyLiveContent(Execute(w0, steps), d)
  {
    InitSafe(w0);
    RunSafe(w0, steps);
    SafeShowsOnlyLiveContent(Execute(w0, steps), d);
  }

  /** Retiring the previous version never raises once the publisher's own guards have passed. */
  lemma RetiringNeverRaises(w: World, read: Snapshot, readyId: string, now: int)
    requires Safe(w) && read.PublishRead? && Timed(w, read, now)
    requires read.document.status == Active && read.document.revision == read.operation.expectedRevision
    ensures RetiredPrevious(read.previous, readyId, now, w.historyRetention).Ok?
    ensures read.previous.Some? && read.document.currentVersionId == Some(read.previous.value.id)
  {
    assert ReadSafe(w, read) && ReadOk(w, read);
  }

  // ---------------------------------------------------------------------------
  // Deletion and restoration
  // ---------------------------------------------------------------------------

  /**
   * A restore that takes effect brings back exactly the version that the pending deletion hid if and only if its
   * target was READY when it was read, and only then do all documents still show only live content.
   */
  lemma RestoreIsRightExactlyWhenTargetIsReady(w: World, s: Step)
    requires Safe(w) && s.RestoreStep? && s.read.RestoreRead? && Perform(w, s) != w
    ensures s.read.target.Some? && s.read.document.id in Perform(w, s).rows.documents
    ensures var restored := Perform(w, s).rows.documents[s.read.document.id];
            && restored.status == Active && restored.currentVersionId == Some(s.read.target.value.id)
            && (restored.currentVersionId == Held(w, s.read.document.id) <==> s.read.target.value.status == Ready)
    ensures AllLive(Perform(w, s)) <==> s.read.target.value.status == Ready
  {
    var p := RestoreShape(w, s.read, s.operationId, s.key, s.fingerprint, s.chunks, s.now);
    assert ReadOk(w, s.read) && ReadSafe(w, s.read);
    if Misleads(w, s) {
      MisleadingBreaksLiveness(w, s);
    } else {
      StepSafe(w, s);
      SafeIsLive(Perform(w, s));
    }
  }

  /**
   * While no DELETE operation was rewritten, a restore brings back what the last deletion hid and cancels its
   * cleanup.
   */
  lemma RestoreBringsBack(w: World, read: Snapshot, id: string, key: string, fingerprint: string, chunks: nat, now: int)
    requires Safe(w) && Ordered(w) && read.RestoreRead?
    ensures var w' := AfterRestore(w, read, id, key, fingerprint, chunks, now);
            var d := read.document.id;
            w' != w ==>
              && d in w.rows.documents && d in w'.rows.documents
              && w.rows.documents[d].status == DeletePending && w'.rows.documents[d].status == Active
              && Held(w, d).Some? && w'.rows.documents[d].currentVersionId == Held(w, d)
              && LastOperation(w, d).Some?
              && var o := LastOperation(w, d).value;
                 o in w.rows.outbox && w.rows.outbox[o].status.Pending? ==>
                   o in w'.rows.outbox && w'.rows.outbox[o].status == EventStatus.Cancelled
  {
    if AfterRestore(w, read, id, key, fingerprint, chunks, now) != w {
      var p := RestoreShape(w, read, id, key, fingerprint, chunks, now);
      assert ReadOk(w, read) && ReadInOrder(w, read);
    }
  }

  /**
   * In every run without a misleading restore, a document leaves DELETE_PENDING for ACTIVE only by a restoration, which
   * undoes the deletion committed just before it.
   */
  lemma EveryRestoreUndoesItsDeletion(w0: World, steps: seq<Step>, d: string, i: nat)
    requires Init(w0) && NeverMisleads(w0, steps) && d in Execute(w0, steps).rows.documents
    ensures d in Execute(w0, steps).log
    ensures var w := Execute(w0, steps);
            i < |w.log[d]| && w.log[d][i].before.status == DeletePending && w.log[d][i].after.status == Active ==>
              && i > 0 && w.log[d][i - 1].operationId in w.rows.operations
              && w.rows.operations[w.log[d][i - 1].operationId].kind == Delete
              && w.log[d][i].after.currentVersionId == w.log[d][i - 1].before.currentVersionId
  {
    InitSafe(w0);
    RunSafe(w0, steps);
    var w := Execute(w0, steps);
    assert LogOk(w, d) && RestorationsOk(w, d);
    if i < |w.log[d]| { assert EntryOk(w, d, i) && RestoresAsBefore(w, d, i); }
  }
}
