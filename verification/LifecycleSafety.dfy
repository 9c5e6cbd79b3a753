/**
 * The status invariant: which content a document can show. Every step keeps it but one: a restore that takes
 * effect although its target was SUPERSEDED when it was read.
 */
module LifecycleSafety {
  import opened Prelude
  import opened Documents
  import opened LifecycleRows
  import opened LifecycleProtocol
  import opened LifecycleFencing

  /** The version that was current when a DELETE_PENDING document was deleted. */
  function Held(w: World, d: string): Option<string> {
    var h := History(w, d);
    if h == [] then None else h[|h| - 1].before.currentVersionId
  }

  /** The operation that changed the document last. */
  function LastOperation(w: World, d: string): Option<string> {
    var h := History(w, d);
    if h == [] then None else Some(h[|h| - 1].operationId)
  }

  /** The one version of a document that has to be READY, if any. */
  function Live(w: World, d: string): Option<string>
    requires d in w.rows.documents
  {
    match w.rows.documents[d].status
    case Active => w.rows.documents[d].currentVersionId
    case DeletePending => Held(w, d)
    case Deleted => None
  }

  ghost predicate VersionSafe(w: World, v: string)
    requires v in w.rows.versions && w.rows.versions[v].documentId in w.rows.documents
  {
    var version := w.rows.versions[v];
    var d := version.documentId;
    && (v !in w.published ==> version.status != Superseded)
    && (v in w.published ==>
          version.status == (if w.rows.documents[d].status == DocumentStatus.Deleted then VersionStatus.Deleted
                             else if Live(w, d) == Some(v) then Ready else Superseded))
  }

  predicate StillAt(w: World, document: Document) {
    document.id in w.rows.documents && w.rows.documents[document.id].revision == document.revision
  }

  ghost predicate ReadSafe(w: World, read: Snapshot) {
    match read
    case PublishRead(at, op, document, version, previous) =>
      document.status == Active && document.revision == op.expectedRevision ==>
        previous.Some? && Some(previous.value.id) == document.currentVersionId && previous.value.status == Ready
    case RollbackRead(_, _, _) => true
    case RestoreRead(at, document, deletion, target) =>
      document.status == DeletePending && StillAt(w, document) ==>
        deletion.Some? && target.Some?
        && target.value.status == (if Some(target.value.id) == Held(w, document.id) then Ready else Superseded)
    case PurgeRead(at, document, versions) =>
      StillAt(w, document) ==>
        forall v :: v in w.published && v in w.rows.versions && w.rows.versions[v].documentId == document.id ==>
            v in versions
  }

  /** Commit `i` of document `d`, if a restoration, undid commit `i - 1`, a deletion. */
  ghost predicate RestoresAsBefore(w: World, d: string, i: nat)
    requires d in w.log && i < |w.log[d]|
  {
    var entry := w.log[d][i];
    entry.operationId in w.rows.operations && w.rows.operations[entry.operationId].kind == Restore ==>
      && i > 0 && w.log[d][i - 1].operationId in w.rows.operations
      && w.rows.operations[w.log[d][i - 1].operationId].kind == Delete
      && entry.before.status == DeletePending && entry.after.status == Active
      && entry.after.currentVersionId == w.log[d][i - 1].before.currentVersionId
  }

  ghost predicate RestorationsOk(w: World, d: string)
    requires d in w.rows.documents
  {
    d in w.log && forall i {:trigger RestoresAsBefore(w, d, i)} :: 0 <= i < |w.log[d]| ==> RestoresAsBefore(w, d, i)
  }

  ghost predicate Safe(w: World) {
    && Fenced(w)
    && (forall d {:trigger RestorationsOk(w, d)} :: d in w.rows.documents ==> RestorationsOk(w, d))
    && w.published <= w.rows.versions.Keys
    && (forall v {:trigger VersionSafe(w, v)} ::
          v in w.rows.versions && w.rows.versions[v].documentId in w.rows.documents ==>
          VersionSafe(w, v))
    && (forall r {:trigger ReadSafe(w, r)} :: r in w.views ==> ReadSafe(w, r))
  }

  lemma InitSafe(w: World)
    requires Init(w)
    ensures Safe(w)
  {
    InitFenced(w);
    forall d | d in w.rows.documents ensures RestorationsOk(w, d) { assert LogOk(w, d); }
    forall v | v in w.rows.versions ensures w.rows.versions[v].documentId in w.rows.documents && VersionSafe(w, v) {
      assert InitialVersion(w, v) && InitialDocument(w, w.rows.versions[v].documentId);
    }
  }

  /** A DELETE_PENDING document was last changed by a DELETE operation, whose previous version is held. */
  lemma PendingHasDeletion(w: World, d: string) returns (o: string)
    requires Fenced(w) && d in w.rows.documents && w.rows.documents[d].status == DeletePending
    ensures IsDeletionOf(w.rows, o, d)
    ensures w.rows.operations[o].fencingToken == w.rows.documents[d].revision
    ensures w.rows.operations[o].previousVersionId == Held(w, d)
    ensures Held(w, d).Some?
    ensures d in w.log && |w.log[d]| > 0 && w.log[d][|w.log[d]| - 1].operationId == o
  {
    assert LogOk(w, d);
    assert EntryOk(w, d, |w.log[d]| - 1);
    o := w.log[d][|w.log[d]| - 1].operationId;
  }

  // ---------------------------------------------------------------------------
  // Steps that change no document
  // ---------------------------------------------------------------------------

  ghost predicate SameAuthority(w: World, w': World) {
    && w'.rows.documents == w.rows.documents && w'.log == w.log && w'.published == w.published
  }

  lemma QuietSafe(w: World, w': World)
    requires Safe(w) && Fenced(w') && Evolves(w, w') && SameAuthority(w, w')
    requires forall v :: v in w'.rows.versions ==>
               if v in w.rows.versions then w'.rows.versions[v].status == w.rows.versions[v].status || v !in w.published
               else v !in w.published
    requires forall v :: v in w'.rows.versions && v !in w.published ==> w'.rows.versions[v].status != Superseded
    requires forall r :: r in w'.views ==> r in w.views || ReadSafe(w', r)
    ensures Safe(w')
  {
    forall v | v in w'.rows.versions && w'.rows.versions[v].documentId in w'.rows.documents ensures VersionSafe(w', v) {
      if v in w.rows.versions { assert VersionSafe(w, v); }
    }
    forall r | r in w'.views ensures ReadSafe(w', r) {
      if r in w.views { assert ReadSafe(w, r); }
    }
    forall d | d in w'.rows.documents ensures RestorationsOk(w', d) {
      assert LogOk(w, d);
      RestorationsStay(w, w', d, |w.log[d]|);
    }
  }

  /** The first `n` commits of a document are judged as before. */
  lemma RestorationsStay(w: World, w': World, d: string, n: nat)
    requires Safe(w) && Evolves(w, w') && d in w.rows.documents && d in w.log && d in w'.log
    requires n == |w.log[d]| && n <= |w'.log[d]| && w'.log[d][..n] == w.log[d]
    ensures forall i {:trigger RestoresAsBefore(w', d, i)} :: 0 <= i < n ==> RestoresAsBefore(w', d, i)
  {
    assert LogOk(w, d) && RestorationsOk(w, d);
    forall i | 0 <= i < n ensures RestoresAsBefore(w', d, i) {
      assert RestoresAsBefore(w, d, i) && EntryOk(w, d, i);
      assert w'.log[d][i] == w.log[d][i];
      if i > 0 { assert w'.log[d][i - 1] == w.log[d][i - 1]; }
    }
  }

  lemma StatusOfUnpublished(w: World)
    requires Safe(w)
    ensures forall v :: v in w.rows.versions && v !in w.published ==> w.rows.versions[v].status != Superseded
  {
    forall v | v in w.rows.versions && v !in w.published ensures w.rows.versions[v].status != Superseded {
      assert VersionOk(w, v) && VersionSafe(w, v);
    }
  }

  lemma PublishReadSafe(w: World, operationId: string)
    requires Safe(w) && TakePublishRead(w, operationId).Some?
    ensures ReadSafe(w, TakePublishRead(w, operationId).value)
  {
    var op := w.rows.operations[operationId];
    assert OperationOk(w, operationId) && DocumentOk(w, op.documentId);
    var document := w.rows.documents[op.documentId];
    if document.status == Active && document.revision == op.expectedRevision {
      var current := document.currentVersionId.value;
      assert VersionOk(w, current) && VersionSafe(w, current);
    }
  }

  /** Whichever deletion a restore goes by, its target is READY exactly when the pending deletion hid it. */
  lemma RestoreReadSafe(w: World, d: string, choice: Option<string>)
    requires Safe(w) && IsLatestDeletion(w.rows, d, choice) && TakeRestoreRead(w, d, choice).Some?
    ensures ReadSafe(w, TakeRestoreRead(w, d, choice).value)
  {
    if w.rows.documents[d].status == DeletePending {
      var last := PendingHasDeletion(w, d);
      assert DocumentOk(w, d) && OperationOk(w, choice.value);
      var target := w.rows.operations[choice.value].previousVersionId.value;
      assert VersionOk(w, target) && VersionSafe(w, target);
    }
  }

  lemma HeldIsReady(w: World, d: string)
    requires Safe(w) && d in w.rows.documents && w.rows.documents[d].status == DeletePending
    ensures Held(w, d).Some? && Held(w, d).value in w.rows.versions && Held(w, d).value in w.published
    ensures w.rows.versions[Held(w, d).value].status == Ready && w.rows.versions[Held(w, d).value].documentId == d
  {
    var o := PendingHasDeletion(w, d);
    assert OperationOk(w, o);
    assert LogOk(w, d) && EntryOk(w, d, |w.log[d]| - 1);
    var v := Held(w, d).value;
    assert VersionOk(w, v) && VersionSafe(w, v);
  }

  // ---------------------------------------------------------------------------
  // Steps that commit a document change
  // ---------------------------------------------------------------------------

  /** Versions of other documents, and the way they are judged, do not depend on a commit of document `d`. */
  lemma OtherVersionSafe(w: World, w': World, d: string, v: string)
    requires Safe(w) && v in w.rows.versions && w.rows.versions[v].documentId in w.rows.documents
    requires w.rows.versions[v].documentId != d
    requires v in w'.rows.versions && w'.rows.versions[v] == w.rows.versions[v]
             && (v in w'.published <==> v in w.published)
    requires w'.rows.documents.Keys == w.rows.documents.Keys && d in w.rows.documents
    requires w'.rows.documents == w.rows.documents[d := w'.rows.documents[d]]
    requires d in w'.log && w'.log == w.log[d := w'.log[d]]
    ensures VersionSafe(w', v)
  {
    assert VersionSafe(w, v);
  }

  /** One more commit of document `d`, and other documents keep their rows, versions and logs. */
  ghost predicate ChangesOnly(w: World, w': World, d: string) {
    && d in w.rows.documents && d in w'.rows.documents
    && w'.rows.documents == w.rows.documents[d := w'.rows.documents[d]]
    && w'.rows.documents[d].revision == w.rows.documents[d].revision + 1
    && d in w.log && d in w'.log && w'.log == w.log[d := w'.log[d]]
    && |w'.log[d]| == |w.log[d]| + 1 && w'.log[d][..|w.log[d]|] == w.log[d]
    && w'.published <= w'.rows.versions.Keys
    && (forall v :: v in w'.rows.versions ==> v in w.rows.versions)
    && (forall v :: v in w.rows.versions && w.rows.versions[v].documentId != d ==>
          && v in w'.rows.versions && w'.rows.versions[v] == w.rows.versions[v]
          && (v in w'.published <==> v in w.published))
  }

  lemma CommitSafe(w: World, w': World, d: string)
    requires Safe(w) && Fenced(w') && Evolves(w, w') && w'.views == w.views && ChangesOnly(w, w', d)
    requires RestoresAsBefore(w', d, |w.log[d]|)
    requires forall v :: v in w.rows.versions && w.rows.versions[v].documentId == d ==> VersionSafe(w', v)
    ensures Safe(w')
  {
    forall v | v in w'.rows.versions && w'.rows.versions[v].documentId in w'.rows.documents ensures VersionSafe(w', v) {
      if w.rows.versions[v].documentId != d { OtherVersionSafe(w, w', d, v); }
    }
    forall r | r in w'.views ensures ReadSafe(w', r) {
      assert ReadSafe(w, r) && ReadOk(w, r);
      ReadSafeStays(w, w', d, r);
    }
    forall e | e in w'.rows.documents ensures RestorationsOk(w', e) {
      assert LogOk(w, e);
      RestorationsStay(w, w', e, |w.log[e]|);
    }
  }

  lemma ReadSafeStays(w: World, w': World, d: string, r: Snapshot)
    requires ReadSafe(w, r) && ReadOk(w, r) && Evolves(w, w') && d in w.rows.documents && Fenced(w) && Fenced(w')
    requires w'.rows.documents == w.rows.documents[d := w'.rows.documents[d]]
    requires w'.rows.documents[d].revision == w.rows.documents[d].revision + 1
    requires d in w'.log && w'.log == w.log[d := w'.log[d]]
    requires forall v :: v in w'.rows.versions ==> v in w.rows.versions
    requires forall v :: v in w.rows.versions && w.rows.versions[v].documentId != d ==>
                 (v in w'.published <==> v in w.published)
    ensures ReadSafe(w', r)
  {
    if r.document.id == d {
      assert !StillAt(w', r.document);
    } else {
      OtherReadStays(w, w', d, r);
    }
  }

  /** Reads of other documents do not depend on a commit of document `d`. */
  lemma OtherReadStays(w: World, w': World, d: string, r: Snapshot)
    requires ReadSafe(w, r) && Evolves(w, w') && d in w.rows.documents && r.document.id != d
    requires w'.rows.documents == w.rows.documents[d := w'.rows.documents[d]]
    requires d in w'.log && w'.log == w.log[d := w'.log[d]]
    requires forall v :: v in w'.rows.versions ==> v in w.rows.versions
    requires forall v :: v in w.rows.versions && w.rows.versions[v].documentId != d ==>
                 (v in w'.published <==> v in w.published)
    ensures ReadSafe(w', r)
  {
    if r.PurgeRead? && StillAt(w', r.document) {
      assert StillAt(w, r.document);
      PurgeReadStays(w, w', d, r);
    }
  }

  lemma PurgeReadStays(w: World, w': World, d: string, r: Snapshot)
    requires r.PurgeRead? && r.document.id != d && ReadSafe(w, r) && Evolves(w, w') && StillAt(w, r.document)
    requires forall v :: v in w'.rows.versions ==> v in w.rows.versions
    requires forall v :: v in w.rows.versions && w.rows.versions[v].documentId != d ==>
                 (v in w'.published <==> v in w.published)
    ensures ReadSafe(w', r)
  {
    forall v | v in w'.published && v in w'.rows.versions && w'.rows.versions[v].documentId == r.document.id
      ensures v in r.versions
    {
      assert SameContent(w.rows.versions[v], w'.rows.versions[v]);
    }
  }

  lemma PublishSafe(w: World, read: Snapshot, p: Publication, now: int, w': World)
    requires Safe(w) && read.PublishRead? && PublishCommitted(w, read, p, now, w') && Publishes(read.operation.kind)
    ensures Safe(w')
  {
    var d := read.document.id;
    assert ReadOk(w, read) && DocumentOk(w, d) && LogOk(w, d);
    PublishEvolves(w, read, p, now, w');
    PublishCommit(w, read, p, now, w');
    PublishChangesOnly(w, read, p, now, w');
    forall v | v in w.rows.versions && w.rows.versions[v].documentId == d ensures VersionSafe(w', v) {
      PublishedVersionSafe(w, read, p, now, w', v);
    }
    CommitSafe(w, w', d);
  }

  /** The row a publication computed from is the present one, and so is the version it retires. */
  lemma PublishesOverCurrent(w: World, read: Snapshot, p: Publication, now: int, w': World)
    requires Safe(w) && read.PublishRead? && PublishCommitted(w, read, p, now, w')
    ensures read.document.id in w.rows.documents && w.rows.documents[read.document.id] == read.document
    ensures read.previous.Some? && Some(read.previous.value.id) == read.document.currentVersionId
    ensures read.previous.value.id in w.rows.versions
            && w.rows.versions[read.previous.value.id].documentId == read.document.id
  {
    assert ReadOk(w, read) && ReadSafe(w, read) && DocumentOk(w, read.document.id);
  }

  lemma PublishChangesOnly(w: World, read: Snapshot, p: Publication, now: int, w': World)
    requires Safe(w) && read.PublishRead? && PublishCommitted(w, read, p, now, w')
    ensures ChangesOnly(w, w', read.document.id)
  {
    PublishesOverCurrent(w, read, p, now, w');
    assert ReadOk(w, read) && LogOk(w, read.document.id);
  }

  lemma PublishedVersionSafe(w: World, read: Snapshot, p: Publication, now: int, w': World, v: string)
    requires Safe(w) && read.PublishRead? && PublishCommitted(w, read, p, now, w')
    requires v in w.rows.versions && w.rows.versions[v].documentId == read.document.id
    ensures v in w'.rows.versions && w'.rows.versions[v].documentId in w'.rows.documents && VersionSafe(w', v)
  {
    PublishesOverCurrent(w, read, p, now, w');
    var d := read.document.id;
    assert ReadOk(w, read) && DocumentOk(w, d) && LogOk(w, d) && VersionOk(w, v) && VersionSafe(w, v);
  }

  lemma RestoreSafe(w: World, read: Snapshot, id: string, p: Restoration, now: int, w': World)
    requires Safe(w) && read.RestoreRead? && RestoreCommitted(w, read, id, p, now, w')
    requires read.target.value.status != Superseded
    ensures Safe(w')
  {
    var d := read.document.id;
    RestoreCommit(w, read, id, p, now, w');
    RestoreChangesOnly(w, read, id, p, now, w');
    forall v | v in w.rows.versions && w.rows.versions[v].documentId == d ensures VersionSafe(w', v) {
      RestoredVersionSafe(w, read, id, p, now, w', v);
    }
    CommitSafe(w, w', d);
  }

  lemma RestoreChangesOnly(w: World, read: Snapshot, id: string, p: Restoration, now: int, w': World)
    requires Safe(w) && read.RestoreRead? && RestoreCommitted(w, read, id, p, now, w')
    requires read.target.value.status != Superseded
    ensures ChangesOnly(w, w', read.document.id)
    ensures RestoresAsBefore(w', read.document.id, |w.log[read.document.id]|)
  {
    var d := read.document.id;
    assert ReadOk(w, read) && DocumentOk(w, d) && LogOk(w, d);
    RestoresTheHeld(w, read, id, p, now, w');
    var o := PendingHasDeletion(w, d);
  }

  /** What a restore that read a READY target brings back is the version the pending deletion hid. */
  lemma RestoresTheHeld(w: World, read: Snapshot, id: string, p: Restoration, now: int, w': World)
    requires Safe(w) && read.RestoreRead? && RestoreCommitted(w, read, id, p, now, w')
    requires read.target.value.status != Superseded
    ensures read.document.id in w.rows.documents && Some(p.ready.id) == Held(w, read.document.id)
  {
    assert ReadOk(w, read) && ReadSafe(w, read);
  }

  lemma RestoredVersionSafe(w: World, read: Snapshot, id: string, p: Restoration, now: int, w': World, v: string)
    requires Safe(w) && read.RestoreRead? && RestoreCommitted(w, read, id, p, now, w')
    requires read.target.value.status != Superseded
    requires v in w.rows.versions && w.rows.versions[v].documentId == read.document.id
    ensures v in w'.rows.versions && w'.rows.versions[v].documentId in w'.rows.documents && VersionSafe(w', v)
  {
    RestoresTheHeld(w, read, id, p, now, w');
    assert ReadOk(w, read) && VersionOk(w, v) && VersionSafe(w, v);
  }

  lemma PurgeSafe(w: World, read: Snapshot, id: string, p: Purging, now: int, w': World)
    requires Safe(w) && read.PurgeRead? && PurgeCommitted(w, read, id, p, now, w')
    ensures Safe(w')
  {
    var d := read.document.id;
    assert ReadOk(w, read) && LogOk(w, d);
    PurgeCommit(w, read, id, p, now, w');
    PurgeChangesOnly(w, read, id, p, now, w');
    forall v | v in w.rows.versions && w.rows.versions[v].documentId == d ensures VersionSafe(w', v) {
      PurgedVersionSafe(w, read, id, p, now, w', v);
    }
    CommitSafe(w, w', d);
  }

  lemma PurgeChangesOnly(w: World, read: Snapshot, id: string, p: Purging, now: int, w': World)
    requires Safe(w) && read.PurgeRead? && PurgeCommitted(w, read, id, p, now, w')
    ensures ChangesOnly(w, w', read.document.id)
  {
    assert ReadOk(w, read) && DocumentOk(w, read.document.id) && LogOk(w, read.document.id);
    forall v | v in w.rows.versions && w.rows.versions[v].documentId != read.document.id
      ensures w'.rows.versions[v] == w.rows.versions[v] {
      assert v !in read.versions;
    }
  }

  lemma PurgedVersionSafe(w: World, read: Snapshot, id: string, p: Purging, now: int, w': World, v: string)
    requires Safe(w) && read.PurgeRead? && PurgeCommitted(w, read, id, p, now, w')
    requires v in w.rows.versions && w.rows.versions[v].documentId == read.document.id
    ensures v in w'.rows.versions && w'.rows.versions[v].documentId in w'.rows.documents && VersionSafe(w', v)
  {
    assert ReadOk(w, read) && ReadSafe(w, read) && DocumentOk(w, read.document.id);
    assert VersionOk(w, v) && VersionSafe(w, v);
    assert v in read.versions ==> w'.rows.versions[v] == DeletedCopy(read.versions[v], now);
  }

  lemma DeleteSafe(w: World, d: string, id: string, op: Operation, now: int, w': World)
    requires Safe(w) && DeleteCommitted(w, d, id, op, now, w')
    ensures Safe(w')
  {
    DeleteCommit(w, d, id, op, now, w');
    assert DocumentOk(w, d) && LogOk(w, d);
    forall v | v in w.rows.versions && w.rows.versions[v].documentId == d ensures VersionSafe(w', v) {
      assert VersionOk(w, v) && VersionSafe(w, v);
    }
    CommitSafe(w, w', d);
  }

  // ---------------------------------------------------------------------------
  // All steps and all runs
  // ---------------------------------------------------------------------------

  /** A restore that takes effect although its target was SUPERSEDED when it was read. */
  ghost predicate Misleads(w: World, s: Step) {
    && s.RestoreStep? && s.read.RestoreRead? && s.read.target.Some? && s.read.target.value.status == Superseded
    && Perform(w, s) != w
  }

  ghost predicate NeverMisleads(w: World, steps: seq<Step>)
    decreases |steps|
  {
    steps == [] || (!Misleads(w, steps[0]) && NeverMisleads(Perform(w, steps[0]), steps[1..]))
  }

  lemma RegisterSafe(w: World, s: Step)
    requires Safe(w) && s.RegisterStep? && Fenced(AfterRegister(w, s))
    ensures Safe(AfterRegister(w, s))
  {
    StatusOfUnpublished(w);
    QuietSafe(w, AfterRegister(w, s));
  }

  lemma RollbackSafe(w: World, s: Step)
    requires Safe(w) && s.RollbackStep? && s.read.RollbackRead? && Fenced(AfterRollback(w, s))
    ensures Safe(AfterRollback(w, s))
  {
    StatusOfUnpublished(w);
    QuietSafe(w, AfterRollback(w, s));
  }

  lemma TickSafe(w: World, now: int)
    requires Safe(w) && w.clock < now && Fenced(w.(clock := now))
    ensures Safe(w.(clock := now))
  {
    StatusOfUnpublished(w);
    QuietSafe(w, w.(clock := now));
  }

  lemma IngestSafe(w: World, v: string, status: VersionStatus, now: int)
    requires Safe(w) && Fenced(AfterIngest(w, v, status, now))
    ensures Safe(AfterIngest(w, v, status, now))
  {
    StatusOfUnpublished(w);
    QuietSafe(w, AfterIngest(w, v, status, now));
  }

  lemma OperationWriteSafe(w: World, o: string, status: OperationStatus, now: int)
    requires Safe(w) && Fenced(AfterOperationWrite(w, o, status, now))
    ensures Safe(AfterOperationWrite(w, o, status, now))
  {
    StatusOfUnpublished(w);
    QuietSafe(w, AfterOperationWrite(w, o, status, now));
  }

  lemma EventWriteSafe(w: World, o: string, status: EventStatus, attempts: nat, availableAt: int)
    requires Safe(w) && Fenced(AfterEventWrite(w, o, status, attempts, availableAt))
    ensures Safe(AfterEventWrite(w, o, status, attempts, availableAt))
  {
    StatusOfUnpublished(w);
    QuietSafe(w, AfterEventWrite(w, o, status, attempts, availableAt));
  }

  lemma ReadStepSafe(w: World, read: Option<Snapshot>)
    requires Safe(w) && Fenced(Recalled(w, read)) && (read.Some? ==> ReadSafe(w, read.value))
    ensures Safe(Recalled(w, read))
  {
    StatusOfUnpublished(w);
    QuietSafe(w, Recalled(w, read));
  }

  lemma PublishStepSafe(w: World, read: Snapshot, index: string, chunks: nat, now: int)
    requires Safe(w) && read.PublishRead?
    ensures Safe(AfterPublish(w, read, index, chunks, now))
  {
    if AfterPublish(w, read, index, chunks, now) != w {
      var p := PublishShape(w, read, index, chunks, now);
      assert ReadOk(w, read) && OperationOk(w, read.operation.id);
      PublishSafe(w, read, p, now, AfterPublish(w, read, index, chunks, now));
    }
  }

  lemma DeleteStepSafe(w: World, d: string, id: string, key: string, fingerprint: string, now: int)
    requires Safe(w)
    ensures Safe(AfterDelete(w, d, id, key, fingerprint, now))
  {
    if AfterDelete(w, d, id, key, fingerprint, now) != w {
      var op := DeleteShape(w, d, id, key, fingerprint, now);
      DeleteSafe(w, d, id, op, now, AfterDelete(w, d, id, key, fingerprint, now));
    }
  }

  lemma RestoreStepSafe(w: World, read: Snapshot, id: string, key: string, fingerprint: string, chunks: nat, now: int)
    requires Safe(w) && read.RestoreRead?
    requires !Misleads(w, RestoreStep(read, id, key, fingerprint, chunks, now))
    ensures Safe(AfterRestore(w, read, id, key, fingerprint, chunks, now))
  {
    if AfterRestore(w, read, id, key, fingerprint, chunks, now) != w {
      var p := RestoreShape(w, read, id, key, fingerprint, chunks, now);
      RestoreSafe(w, read, id, p, now, AfterRestore(w, read, id, key, fingerprint, chunks, now));
    }
  }

  lemma PurgeStepSafe(w: World, read: Snapshot, id: string, key: string, last: string, now: int)
    requires Safe(w) && read.PurgeRead?
    ensures Safe(AfterPurge(w, read, id, key, last, now))
  {
    if AfterPurge(w, read, id, key, last, now) != w {
      var p := PurgeShape(w, read, id, key, last, now);
      PurgeSafe(w, read, id, p, now, AfterPurge(w, read, id, key, last, now));
    }
  }

  lemma PurgeReadSafe(w: World, d: string)
    requires Fenced(w) && TakePurgeRead(w, d).Some?
    ensures ReadSafe(w, TakePurgeRead(w, d).value)
  {
    assert DocumentOk(w, d);
  }

  lemma CommittingSafe(w: World, s: Step)
    requires Safe(w) && Commits(s) && !Misleads(w, s)
    ensures Safe(Perform(w, s))
  {
    match s
    case PublishStep(read, index, chunks, now) => if read.PublishRead? { PublishStepSafe(w, read, index, chunks, now); }
    case DeleteStep(d, id, key, fp, now) => DeleteStepSafe(w, d, id, key, fp, now);
    case RestoreStep(read, id, key, fp, chunks, now) =>
      if read.RestoreRead? { RestoreStepSafe(w, read, id, key, fp, chunks, now); }
    case PurgeStep(read, id, key, last, now) => if read.PurgeRead? { PurgeStepSafe(w, read, id, key, last, now); }
  }

  lemma ReadingSafe(w: World, s: Step)
    requires Safe(w) && Reads(s) && Fenced(Perform(w, s))
    ensures Safe(Perform(w, s))
  {
    match s
    case ReadPublish(id) =>
      if TakePublishRead(w, id).Some? { PublishReadSafe(w, id); }
      ReadStepSafe(w, TakePublishRead(w, id));
    case ReadRollback(d, v) => ReadStepSafe(w, TakeRollbackRead(w, d, v));
    case ReadRestore(d, choice) =>
      if IsLatestDeletion(w.rows, d, choice) {
        if TakeRestoreRead(w, d, choice).Some? { RestoreReadSafe(w, d, choice); }
        ReadStepSafe(w, TakeRestoreRead(w, d, choice));
      }
    case ReadPurge(d) =>
      if TakePurgeRead(w, d).Some? { PurgeReadSafe(w, d); }
      ReadStepSafe(w, TakePurgeRead(w, d));
  }

  lemma WritingSafe(w: World, s: Step)
    requires Safe(w) && !Commits(s) && !Reads(s) && Fenced(Perform(w, s))
    ensures Safe(Perform(w, s))
  {
    match s
    case RegisterStep(_, _, _, _, _, _, _) => RegisterSafe(w, s);
    case RollbackStep(read, _, _, _, _) => if read.RollbackRead? { RollbackSafe(w, s); }
    case Tick(now) => if w.clock < now { TickSafe(w, now); }
    case IngestStep(v, status, now) => IngestSafe(w, v, status, now);
    case WriteOperation(id, status, now) => OperationWriteSafe(w, id, status, now);
    case WriteEvent(id, status, attempts, availableAt) => EventWriteSafe(w, id, status, attempts, availableAt);
  }

  lemma StepSafe(w: World, s: Step)
    requires Safe(w) && !Misleads(w, s)
    ensures Safe(Perform(w, s))
  {
    if Commits(s) {
      CommittingSafe(w, s);
    } else {
      StepFenced(w, s);
      if Reads(s) { ReadingSafe(w, s); } else { WritingSafe(w, s); }
    }
  }

  lemma {:induction false} RunSafe(w: World, steps: seq<Step>)
    requires Safe(w) && NeverMisleads(w, steps)
    ensures Safe(Execute(w, steps))
    decreases |steps|
  {
    if steps != [] {
      StepSafe(w, steps[0]);
      RunSafe(Perform(w, steps[0]), steps[1..]);
    }
  }
}
