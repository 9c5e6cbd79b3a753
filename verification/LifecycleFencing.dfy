/**
 * The invariant behind fencing: rows stay well formed, every document change is one logged commit that
 * moves the revision from an operation's expected revision to its fencing token, and nothing a service
 * has read can pass for current once the revision moved on. It holds in every run, cancellations included.
 */
module LifecycleFencing {
  import opened Prelude
  import opened Documents
  import opened LifecycleRows
  import opened LifecycleProtocol

  // ---------------------------------------------------------------------------
  // The invariant
  // ---------------------------------------------------------------------------

  ghost predicate DocumentOk(w: World, d: string)
    requires d in w.rows.documents
  {
    var document := w.rows.documents[d];
    && document.id == d && document.WellFormed() && document.updatedAt <= w.clock
    && (document.status == Active ==> document.purgeAfter.None? && document.currentVersionId.Some?)
    && (document.status == DeletePending ==> document.purgeAfter.Some?)
    && (document.currentVersionId.Some? ==> VersionBelongs(w, document.currentVersionId.value, document))
  }

  ghost predicate VersionBelongs(w: World, v: string, document: Document) {
    && v in w.rows.versions && v in w.published
    && w.rows.versions[v].documentId == document.id
    && w.rows.versions[v].knowledgeBaseId == document.knowledgeBaseId
  }

  ghost predicate VersionOk(w: World, v: string)
    requires v in w.rows.versions
  {
    var version := w.rows.versions[v];
    && version.id == v && version.updatedAt <= w.clock && version.documentId in w.rows.documents
    && version.knowledgeBaseId == w.rows.documents[version.documentId].knowledgeBaseId
  }

  predicate Publishes(kind: Kind) { kind == Update || kind == Reparse || kind == Rollback }

  ghost predicate OperationOk(w: World, o: string)
    requires o in w.rows.operations
  {
    var op := w.rows.operations[o];
    && op.id == o && op.documentId in w.rows.documents && op.fencingToken == op.expectedRevision + 1
    && var document := w.rows.documents[op.documentId];
    && op.expectedRevision <= document.revision
    && (!Publishes(op.kind) ==> op.expectedRevision < document.revision)
    && (Publishes(op.kind) ==>
          && op.versionId in w.rows.versions && w.rows.versions[op.versionId].documentId == op.documentId
          && (op.expectedRevision == document.revision ==> op.previousVersionId == document.currentVersionId))
    && (op.kind == Delete ==> op.previousVersionId.Some? && op.previousVersionId.value in w.published)
    && (op.previousVersionId.Some? ==>
          && op.previousVersionId.value in w.rows.versions
          && w.rows.versions[op.previousVersionId.value].documentId == op.documentId)
  }

  /** What committing an operation of each kind did to the document. */
  ghost predicate Effect(op: Operation, before: Document, after: Document) {
    && after.id == before.id && after.knowledgeBaseId == before.knowledgeBaseId
    && before.revision == op.expectedRevision && after.revision == op.fencingToken
    && match op.kind
       case Delete =>
         && before.status == Active && after.status == DeletePending
         && op.previousVersionId == before.currentVersionId == Some(op.versionId)
         && after.purgeAfter == op.purgeAfter && op.purgeAfter.Some?
       case Restore => before.status == DeletePending && after.status == Active
                       && after.currentVersionId == Some(op.versionId)
       case Purge => before.status == DeletePending && after.status == DocumentStatus.Deleted
                     && before.purgeAfter.Some? && before.purgeAfter.value <= after.updatedAt
       case _ =>
         && before.status == Active && after.status == Active
         && op.previousVersionId == before.currentVersionId && after.currentVersionId == Some(op.versionId)
  }

  ghost predicate CommitOk(w: World, c: Commit) {
    && c.operationId in w.rows.operations
    && w.rows.operations[c.operationId].documentId == c.before.id
    && (c.before.currentVersionId.Some? ==> c.before.currentVersionId.value in w.published)
    && Effect(w.rows.operations[c.operationId], c.before, c.after)
  }

  function RowBefore(w: World, d: string, i: nat): Document
    requires d in w.genesis && d in w.log && i <= |w.log[d]|
  {
    if i == 0 then w.genesis[d] else w.log[d][i - 1].after
  }

  ghost predicate LogOk(w: World, d: string)
    requires d in w.rows.documents
  {
    && d in w.log && d in w.genesis
    && w.genesis[d].id == d && w.genesis[d].status == Active
    && w.rows.documents[d] == RowBefore(w, d, |w.log[d]|)
    && w.rows.documents[d].revision == w.genesis[d].revision + |w.log[d]|
    && forall i :: 0 <= i < |w.log[d]| ==> EntryOk(w, d, i)
  }

  ghost predicate EntryOk(w: World, d: string, i: nat)
    requires d in w.genesis && d in w.log && i < |w.log[d]|
  {
    && w.log[d][i].before == RowBefore(w, d, i)
    && w.log[d][i].before.id == d
    && w.log[d][i].before.revision == w.genesis[d].revision + i
    && CommitOk(w, w.log[d][i])
  }

  /** Two states of one operation row: everything but status and timestamp is fixed at registration. */
  predicate SameOperation(a: Operation, b: Operation) {
    a == b.(status := a.status, updatedAt := a.updatedAt)
  }

  ghost predicate SameVersion(w: World, v: Version) {
    && v.id in w.rows.versions && v.updatedAt <= w.clock
    && w.rows.versions[v.id].documentId == v.documentId
    && w.rows.versions[v.id].knowledgeBaseId == v.knowledgeBaseId
  }

  /** A document read earlier is a past state of its row, and the present one only at the same revision. */
  ghost predicate PastDocument(w: World, at: int, document: Document) {
    && at <= w.clock && document.updatedAt <= at
    && document.id in w.rows.documents
    && w.rows.documents[document.id].knowledgeBaseId == document.knowledgeBaseId
    && (document.currentVersionId.Some? ==>
          && document.currentVersionId.value in w.rows.versions
          && w.rows.versions[document.currentVersionId.value].documentId == document.id)
    && document.revision <= w.rows.documents[document.id].revision
    && (document.revision == w.rows.documents[document.id].revision ==> document == w.rows.documents[document.id])
  }

  ghost predicate ReadOk(w: World, read: Snapshot) {
    && PastDocument(w, read.at, read.document)
    && match read
       case PublishRead(at, op, document, version, previous) =>
         && op.id in w.rows.operations && SameOperation(op, w.rows.operations[op.id])
         && op.documentId == document.id && version.id == op.versionId
         && SameVersion(w, version) && version.updatedAt <= at
         && (previous.Some? ==> op.previousVersionId == Some(previous.value.id)
                                && SameVersion(w, previous.value) && previous.value.updatedAt <= at)
       case RollbackRead(at, document, historical) => SameVersion(w, historical)
       case RestoreRead(at, document, deletion, target) =>
         && (target.Some? ==> deletion.Some? && deletion.value.previousVersionId == Some(target.value.id)
                              && SameVersion(w, target.value) && target.value.updatedAt <= at)
         && (deletion.Some? ==> deletion.value.kind == Delete && deletion.value.documentId == document.id
                                && deletion.value.id in w.rows.operations
                                && SameOperation(deletion.value, w.rows.operations[deletion.value.id]))
       case PurgeRead(at, document, versions) =>
         forall v :: v in versions ==> versions[v].id == v && SameVersion(w, versions[v]) && versions[v].updatedAt <= at
                                       && versions[v].documentId == document.id
  }

  ghost predicate Fenced(w: World) {
    && (forall d {:trigger DocumentOk(w, d)} :: d in w.rows.documents ==> DocumentOk(w, d))
    && (forall d {:trigger LogOk(w, d)} :: d in w.rows.documents ==> LogOk(w, d))
    && (forall v {:trigger VersionOk(w, v)} :: v in w.rows.versions ==> VersionOk(w, v))
    && (forall o {:trigger OperationOk(w, o)} :: o in w.rows.operations ==> OperationOk(w, o))
    && (forall r {:trigger ReadOk(w, r)} :: r in w.views ==> ReadOk(w, r))
  }

  // ---------------------------------------------------------------------------
  // What every step has in common
  // ---------------------------------------------------------------------------

  /** Rows are never removed, identities never change, and a changed document has a higher revision. */
  ghost predicate Evolves(w: World, w': World) {
    && w.clock <= w'.clock && w'.retention == w.retention && w'.genesis == w.genesis
    && w.published <= w'.published
    && w'.rows.documents.Keys == w.rows.documents.Keys
    && (forall d :: d in w.rows.documents ==> DocumentEvolves(w.rows.documents[d], w'.rows.documents[d]))
    && (forall v :: v in w.rows.versions ==> v in w'.rows.versions)
    && (forall v :: v in w.rows.versions ==> SameContent(w.rows.versions[v], w'.rows.versions[v]))
    && (forall o :: o in w.rows.operations ==> o in w'.rows.operations)
    && (forall o :: o in w.rows.operations ==> SameOperation(w'.rows.operations[o], w.rows.operations[o]))
  }

  predicate SameContent(a: Version, b: Version) {
    a.id == b.id && a.documentId == b.documentId && a.knowledgeBaseId == b.knowledgeBaseId
  }

  predicate DocumentEvolves(a: Document, b: Document) {
    a == b || (a.id == b.id && a.knowledgeBaseId == b.knowledgeBaseId && b.revision == a.revision + 1)
  }

  lemma ReadsStay(w: World, w': World)
    requires Evolves(w, w')
    ensures forall r :: ReadOk(w, r) ==> ReadOk(w', r)
  {
    forall r | ReadOk(w, r) ensures ReadOk(w', r) {
      assert DocumentEvolves(w.rows.documents[r.document.id], w'.rows.documents[r.document.id]);
    }
  }

  lemma OperationStays(w: World, w': World, o: string)
    requires Evolves(w, w') && o in w.rows.operations && OperationOk(w, o)
    ensures OperationOk(w', o)
  {
    var d := w.rows.operations[o].documentId;
    assert DocumentEvolves(w.rows.documents[d], w'.rows.documents[d]);
  }

  lemma EntryStays(w: World, w': World, d: string, i: nat)
    requires Evolves(w, w') && d in w.genesis && d in w.log && d in w'.log
    requires |w.log[d]| <= |w'.log[d]| && w'.log[d][..|w.log[d]|] == w.log[d]
    requires i < |w.log[d]| && EntryOk(w, d, i)
    ensures EntryOk(w', d, i)
  {
    assert w'.log[d][i] == w.log[d][i];
    if i > 0 {
      assert w'.log[d][i - 1] == w.log[d][i - 1];
    }
  }

  lemma LogStays(w: World, w': World, d: string)
    requires Evolves(w, w') && d in w.rows.documents && LogOk(w, d)
    requires d in w'.log && w'.log[d] == w.log[d] && w'.rows.documents[d] == w.rows.documents[d]
    ensures LogOk(w', d)
  {
    forall i | 0 <= i < |w'.log[d]| ensures EntryOk(w', d, i) {
      EntryStays(w, w', d, i);
    }
  }

  lemma LogGrows(w: World, w': World, d: string, c: Commit)
    requires Evolves(w, w') && d in w.rows.documents && LogOk(w, d) && w.rows.documents[d].id == d
    requires d in w'.log && w'.log[d] == w.log[d] + [c]
    requires c.before == w.rows.documents[d] && c.after == w'.rows.documents[d]
    requires CommitOk(w', c) && c.after.revision == c.before.revision + 1
    ensures LogOk(w', d)
  {
    forall i | 0 <= i < |w'.log[d]| ensures EntryOk(w', d, i) {
      if i < |w.log[d]| {
        EntryStays(w, w', d, i);
      } else if i > 0 {
        assert w'.log[d][i - 1] == w.log[d][i - 1];
      }
    }
  }

  /** Steps that leave documents, log and published set alone and add no operation. */
  lemma QuietStep(w: World, w': World)
    requires Fenced(w) && Evolves(w, w')
    requires w'.rows.documents == w.rows.documents && w'.log == w.log && w'.published == w.published
    requires w'.rows.operations.Keys == w.rows.operations.Keys
    requires forall v :: v in w'.rows.versions ==> VersionOk(w', v)
    requires forall r :: r in w'.views ==> r in w.views || ReadOk(w', r)
    ensures Fenced(w')
  {
    ReadsStay(w, w');
    forall d | d in w'.rows.documents ensures DocumentOk(w', d) && LogOk(w', d) {
      assert DocumentOk(w, d);
      LogStays(w, w', d);
    }
    forall o | o in w'.rows.operations ensures OperationOk(w', o) { OperationStays(w, w', o); }
  }

  /** Steps that commit one change of document `d`. */
  lemma CommitStep(w: World, w': World, d: string, operationId: string)
    requires Fenced(w) && Evolves(w, w') && d in w.rows.documents && d in w.log && w'.views == w.views
    requires w'.log == w.log[d := w.log[d] + [Commit(operationId, w.rows.documents[d], w'.rows.documents[d])]]
    requires w'.rows.documents == w.rows.documents[d := w'.rows.documents[d]]
    requires w'.rows.documents[d].revision == w.rows.documents[d].revision + 1
    requires DocumentOk(w', d)
    requires w'.rows.operations.Keys == w.rows.operations.Keys + {operationId}
    requires OperationOk(w', operationId)
             && CommitOk(w', Commit(operationId, w.rows.documents[d], w'.rows.documents[d]))
    requires forall v :: v in w'.rows.versions ==> VersionOk(w', v)
    ensures Fenced(w')
  {
    ReadsStay(w, w');
    LogGrows(w, w', d, Commit(operationId, w.rows.documents[d], w'.rows.documents[d]));
    forall e | e in w'.rows.documents ensures DocumentOk(w', e) && LogOk(w', e) {
      if e != d {
        assert DocumentOk(w, e);
        LogStays(w, w', e);
      }
    }
    forall o | o in w'.rows.operations ensures OperationOk(w', o) {
      if o in w.rows.operations { OperationStays(w, w', o); }
    }
  }

  // ---------------------------------------------------------------------------
  // Every step keeps it
  // ---------------------------------------------------------------------------

  lemma InitFenced(w: World)
    requires Init(w)
    ensures Fenced(w)
  {
    forall d | d in w.rows.documents ensures DocumentOk(w, d) && LogOk(w, d) {
      assert InitialDocument(w, d);
    }
    forall v | v in w.rows.versions ensures VersionOk(w, v) { assert InitialVersion(w, v); }
  }

  lemma ReadStepFenced(w: World, read: Option<Snapshot>)
    requires Fenced(w) && (read.Some? ==> ReadOk(w, read.value))
    ensures Fenced(Recalled(w, read))
  {
    var w' := Recalled(w, read);
    forall v | v in w'.rows.versions ensures VersionOk(w', v) { assert VersionOk(w, v); }
    ReadsStay(w, w');
    QuietStep(w, w');
  }

  lemma PublishReadOk(w: World, operationId: string)
    requires Fenced(w)
    ensures TakePublishRead(w, operationId).Some? ==> ReadOk(w, TakePublishRead(w, operationId).value)
  {
    if TakePublishRead(w, operationId).Some? {
      var op := w.rows.operations[operationId];
      assert OperationOk(w, operationId) && DocumentOk(w, op.documentId) && VersionOk(w, op.versionId);
      if op.previousVersionId.Some? { assert VersionOk(w, op.previousVersionId.value); }
    }
  }

  lemma OtherReadsOk(w: World, d: string, v: string, choice: Option<string>)
    requires Fenced(w)
    ensures TakeRollbackRead(w, d, v).Some? ==> ReadOk(w, TakeRollbackRead(w, d, v).value)
    ensures IsLatestDeletion(w.rows, d, choice) && TakeRestoreRead(w, d, choice).Some? ==>
              ReadOk(w, TakeRestoreRead(w, d, choice).value)
    ensures TakePurgeRead(w, d).Some? ==> ReadOk(w, TakePurgeRead(w, d).value)
  {
    if d in w.rows.documents {
      assert DocumentOk(w, d);
      if v in w.rows.versions { assert VersionOk(w, v); }
      if IsLatestDeletion(w.rows, d, choice) && choice.Some? {
        assert OperationOk(w, choice.value);
        var previous := w.rows.operations[choice.value].previousVersionId.value;
        assert VersionOk(w, previous);
      }
      forall x | x in VersionsOf(w.rows, d) ensures VersionOk(w, x) {}
    }
  }

  lemma RegisterFenced(w: World, s: Step)
    requires Fenced(w) && s.RegisterStep?
    ensures Fenced(AfterRegister(w, s))
  {
    var w' := AfterRegister(w, s);
    if w' != w {
      var document := w.rows.documents[s.documentId];
      assert DocumentOk(w, s.documentId);
      forall v | v in w'.rows.versions ensures VersionOk(w', v) {
        if v in w.rows.versions { assert VersionOk(w, v); }
      }
      assert w'.rows.versions[s.versionId].documentId == s.documentId;
      NewOperationsFenced(w, w');
    }
  }

  /** Steps that only add operations, versions and events. */
  lemma NewOperationsFenced(w: World, w': World)
    requires Fenced(w) && Evolves(w, w')
    requires w'.rows.documents == w.rows.documents && w'.log == w.log && w'.published == w.published
    requires w'.views == w.views
    requires forall v :: v in w'.rows.versions ==> VersionOk(w', v)
    requires forall o :: o in w'.rows.operations ==> o in w.rows.operations || OperationOk(w', o)
    ensures Fenced(w')
  {
    ReadsStay(w, w');
    forall d | d in w'.rows.documents ensures DocumentOk(w', d) && LogOk(w', d) {
      assert DocumentOk(w, d);
      LogStays(w, w', d);
    }
    forall o | o in w'.rows.operations ensures OperationOk(w', o) {
      if o in w.rows.operations { OperationStays(w, w', o); }
    }
  }

  lemma RollbackFenced(w: World, s: Step)
    requires Fenced(w) && s.RollbackStep? && s.read.RollbackRead?
    ensures Fenced(AfterRollback(w, s))
  {
    var w' := AfterRollback(w, s);
    if w' != w {
      assert ReadOk(w, s.read);
      var document := s.read.document;
      assert w'.rows.operations[s.operationId] ==
             NewOperation(s.operationId, document, s.read.historical.id, Rollback, s.key, s.fingerprint, s.now);
      forall v | v in w'.rows.versions ensures VersionOk(w', v) { assert VersionOk(w, v); }
      NewOperationsFenced(w, w');
    }
  }

  lemma SameVersionsOk(w: World, w': World)
    requires Fenced(w) && w.clock <= w'.clock && w'.rows.documents.Keys == w.rows.documents.Keys
    requires forall d :: d in w.rows.documents ==>
                 w'.rows.documents[d].knowledgeBaseId == w.rows.documents[d].knowledgeBaseId
    requires w'.rows.versions.Keys == w.rows.versions.Keys
    requires forall v :: v in w.rows.versions ==>
               || w'.rows.versions[v] == w.rows.versions[v]
               || (SameContent(w.rows.versions[v], w'.rows.versions[v]) && w'.rows.versions[v].updatedAt <= w'.clock)
    ensures forall v :: v in w'.rows.versions ==> VersionOk(w', v)
  {
    forall v | v in w'.rows.versions ensures VersionOk(w', v) { assert VersionOk(w, v); }
  }

  lemma IngestFenced(w: World, v: string, status: VersionStatus, now: int)
    requires Fenced(w)
    ensures Fenced(AfterIngest(w, v, status, now))
  {
    IngestEvolves(w, v, status, now);
    QuietStep(w, AfterIngest(w, v, status, now));
  }

  lemma IngestEvolves(w: World, v: string, status: VersionStatus, now: int)
    requires Fenced(w)
    ensures Evolves(w, AfterIngest(w, v, status, now))
    ensures forall x :: x in AfterIngest(w, v, status, now).rows.versions ==>
                VersionOk(AfterIngest(w, v, status, now), x)
  {
    SameVersionsOk(w, AfterIngest(w, v, status, now));
  }

  lemma OperationWriteFenced(w: World, o: string, status: OperationStatus, now: int)
    requires Fenced(w)
    ensures Fenced(AfterOperationWrite(w, o, status, now))
  {
    var w' := AfterOperationWrite(w, o, status, now);
    SameVersionsOk(w, w');
    QuietStep(w, w');
  }

  lemma EventWriteFenced(w: World, o: string, status: EventStatus, attempts: nat, availableAt: int)
    requires Fenced(w)
    ensures Fenced(AfterEventWrite(w, o, status, attempts, availableAt))
  {
    var w' := AfterEventWrite(w, o, status, attempts, availableAt);
    SameVersionsOk(w, w');
    QuietStep(w, w');
  }

  // The four commits. Each first says what its transaction left in the tables.

  function WithVersion(versions: map<string, Version>, v: Option<Version>): map<string, Version> {
    if v.Some? then versions[v.value.id := v.value] else versions
  }

  /** A committed publication: its checks passed, and this is what the transaction wrote. */
  ghost predicate PublishCommitted(w: World, read: Snapshot, p: Publication, now: int, w': World)
    requires read.PublishRead?
  {
    && Timed(w, read, now) && read.operation.status != Succeeded
    && read.document.status == Active && read.document.revision == read.operation.expectedRevision
    && read.version.documentId == read.document.id && read.version.knowledgeBaseId == read.document.knowledgeBaseId
    && SameContent(read.version, p.ready) && p.ready.status == Ready && p.ready.updatedAt <= now
    && p.active == read.document.(currentVersionId := Some(read.version.id),
                                  revision := read.document.revision + 1, updatedAt := now)
    && p.operation == read.operation.(status := Succeeded, updatedAt := now)
    && (p.retired.Some? <==> read.previous.Some? && read.previous.value.id != read.version.id)
    && (p.retired.Some? ==> SameContent(read.previous.value, p.retired.value)
                            && p.retired.value.status == Superseded && p.retired.value.updatedAt <= now
                            && p.retired.value.id in w.rows.versions)
    && p.active.id in w.rows.documents && w.rows.documents[p.active.id].revision == read.document.revision
    && p.ready.id in w.rows.versions && p.operation.id in w.rows.operations
    && w' == w.(rows := w'.rows, log := w'.log, published := w.published + {p.ready.id})
    && w'.rows == w.rows.(
         versions := WithVersion(w.rows.versions[p.ready.id := p.ready], p.retired),
         documents := w.rows.documents[p.active.id := p.active],
         operations := w.rows.operations[p.operation.id := p.operation])
    && w'.log == w.log[p.active.id := History(w, p.active.id)
         + [Commit(p.operation.id, w.rows.documents[p.active.id], p.active)]]
  }

  lemma PublishShape(w: World, read: Snapshot, index: string, chunks: nat, now: int) returns (p: Publication)
    requires Fenced(w) && read.PublishRead? && AfterPublish(w, read, index, chunks, now) != w
    ensures PlanPublication(read, now, index, chunks, w.historyRetention) == Ok(p)
    ensures PublishCommitted(w, read, p, now, AfterPublish(w, read, index, chunks, now))
  {
    assert ReadOk(w, read);
    p := PlanPublication(read, now, index, chunks, w.historyRetention).value;
  }

  lemma PublishEvolves(w: World, read: Snapshot, p: Publication, now: int, w': World)
    requires Fenced(w) && read.PublishRead? && PublishCommitted(w, read, p, now, w')
    ensures Evolves(w, w')
    ensures w'.rows.versions.Keys == w.rows.versions.Keys
    ensures forall v :: v in w'.rows.versions ==> VersionOk(w', v)
  {
    assert ReadOk(w, read) && DocumentOk(w, read.document.id);
    forall v | v in w.rows.versions
      ensures SameContent(w.rows.versions[v], w'.rows.versions[v]) && w'.rows.versions[v].updatedAt <= w.clock
    {
      assert VersionOk(w, v);
      assert w'.rows.versions[v] == w.rows.versions[v] || w'.rows.versions[v] == p.ready
             || (p.retired.Some? && w'.rows.versions[v] == p.retired.value);
    }
    SameVersionsOk(w, w');
  }

  lemma PublishCommit(w: World, read: Snapshot, p: Publication, now: int, w': World)
    requires Fenced(w) && read.PublishRead? && PublishCommitted(w, read, p, now, w')
    ensures Fenced(w')
  {
    var d := read.document.id;
    assert ReadOk(w, read) && DocumentOk(w, d) && OperationOk(w, read.operation.id) && LogOk(w, d);
    PublishEvolves(w, read, p, now, w');
    var c := Commit(p.operation.id, w.rows.documents[d], p.active);
    assert p.active.id == d && w'.rows.documents[d] == p.active;
    assert CommitOk(w', c) && OperationOk(w', p.operation.id) && DocumentOk(w', d);
    CommitStep(w, w', d, p.operation.id);
  }

  lemma PublishFenced(w: World, read: Snapshot, index: string, chunks: nat, now: int)
    requires Fenced(w) && read.PublishRead?
    ensures Fenced(AfterPublish(w, read, index, chunks, now))
  {
    if AfterPublish(w, read, index, chunks, now) != w {
      var p := PublishShape(w, read, index, chunks, now);
      PublishCommit(w, read, p, now, AfterPublish(w, read, index, chunks, now));
    }
  }

  ghost predicate DeleteCommitted(w: World, d: string, id: string, op: Operation, now: int, w': World) {
    && w.clock < now && d in w.rows.documents && d in w.log && id !in w.rows.operations
    && w.rows.documents[d].status == Active && w.rows.documents[d].currentVersionId.Some?
    && op == Operation(id, d, w.rows.documents[d].currentVersionId.value, Delete, op.idempotencyKey, op.fingerprint,
                       OperationStatus.Pending, w.rows.documents[d].revision, w.rows.documents[d].revision + 1,
                       w.rows.documents[d].currentVersionId, Some(now + w.retention), now)
    && w' == w.(rows := w'.rows, log := w'.log, clock := now)
    && w'.rows == w.rows.(
         documents := w.rows.documents[d := Tombstone(w.rows.documents[d], now, w.retention)],
         operations := w.rows.operations[id := op],
         outbox := w'.rows.outbox)
    && w'.log == w.log[d := w.log[d]
         + [Commit(id, w.rows.documents[d], Tombstone(w.rows.documents[d], now, w.retention))]]
  }

  lemma DeleteShape(w: World, d: string, id: string, key: string, fingerprint: string, now: int) returns (op: Operation)
    requires Fenced(w) && AfterDelete(w, d, id, key, fingerprint, now) != w
    ensures DeleteCommitted(w, d, id, op, now, AfterDelete(w, d, id, key, fingerprint, now))
  {
    assert DocumentOk(w, d) && LogOk(w, d);
    assert w.published + {} == w.published;
    op := AfterDelete(w, d, id, key, fingerprint, now).rows.operations[id];
  }

  lemma DeleteCommit(w: World, d: string, id: string, op: Operation, now: int, w': World)
    requires Fenced(w) && DeleteCommitted(w, d, id, op, now, w')
    ensures Evolves(w, w') && Fenced(w')
  {
    assert DocumentOk(w, d) && LogOk(w, d);
    forall v | v in w'.rows.versions ensures VersionOk(w', v) { assert VersionOk(w, v); }
    CommitStep(w, w', d, id);
  }

  lemma DeleteFenced(w: World, d: string, id: string, key: string, fingerprint: string, now: int)
    requires Fenced(w)
    ensures Fenced(AfterDelete(w, d, id, key, fingerprint, now))
  {
    if AfterDelete(w, d, id, key, fingerprint, now) != w {
      var op := DeleteShape(w, d, id, key, fingerprint, now);
      DeleteCommit(w, d, id, op, now, AfterDelete(w, d, id, key, fingerprint, now));
    }
  }

  ghost predicate RestoreCommitted(w: World, read: Snapshot, id: string, p: Restoration, now: int, w': World)
    requires read.RestoreRead?
  {
    && Timed(w, read, now)
    && read.document.status == DeletePending && read.document.purgeAfter.Some?
    && now < read.document.purgeAfter.value && read.target.Some?
    && SameContent(read.target.value, p.ready) && p.ready.status == Ready && p.ready.updatedAt <= now
    && read.target.value.documentId == read.document.id
    && read.target.value.knowledgeBaseId == read.document.knowledgeBaseId
    && p.restored == read.document.(status := Active, deletedAt := None, purgeAfter := None, updatedAt := now,
                        currentVersionId := Some(p.ready.id), revision := read.document.revision + 1)
    && p.operation == Operation(id, read.document.id, p.ready.id, Restore, p.operation.idempotencyKey,
                        p.operation.fingerprint, Succeeded, read.document.revision, read.document.revision + 1,
                        None, None, now)
    && p.restored.id in w.rows.documents && w.rows.documents[p.restored.id].revision == read.document.revision
    && p.ready.id in w.rows.versions && id !in w.rows.operations
    && w' == w.(rows := w'.rows, log := w'.log, published := w.published + {p.ready.id})
    && w'.rows == w.rows.(
         versions := w.rows.versions[p.ready.id := p.ready],
         documents := w.rows.documents[p.restored.id := p.restored],
         operations := w.rows.operations[id := p.operation],
         outbox := CancelCleanup(w.rows, read.deletion).outbox)
    && w'.log == w.log[p.restored.id := History(w, p.restored.id)
         + [Commit(id, w.rows.documents[p.restored.id], p.restored)]]
  }

  lemma RestoreShape(w: World, read: Snapshot, id: string, key: string, fingerprint: string, chunks: nat, now: int)
    returns (p: Restoration)
    requires Fenced(w) && read.RestoreRead? && AfterRestore(w, read, id, key, fingerprint, chunks, now) != w
    ensures PlanRestoration(read, id, key, fingerprint, now, chunks) == Ok(p)
    ensures RestoreCommitted(w, read, id, p, now, AfterRestore(w, read, id, key, fingerprint, chunks, now))
  {
    assert ReadOk(w, read);
    p := PlanRestoration(read, id, key, fingerprint, now, chunks).value;
  }

  lemma RestoreEvolves(w: World, read: Snapshot, id: string, p: Restoration, now: int, w': World)
    requires Fenced(w) && read.RestoreRead? && RestoreCommitted(w, read, id, p, now, w')
    ensures Evolves(w, w')
    ensures forall v :: v in w'.rows.versions ==> VersionOk(w', v)
  {
    assert ReadOk(w, read) && DocumentOk(w, read.document.id);
    forall v | v in w.rows.versions
      ensures SameContent(w.rows.versions[v], w'.rows.versions[v]) && w'.rows.versions[v].updatedAt <= w.clock
    {
      assert VersionOk(w, v);
    }
    SameVersionsOk(w, w');
  }

  lemma RestoreCommit(w: World, read: Snapshot, id: string, p: Restoration, now: int, w': World)
    requires Fenced(w) && read.RestoreRead? && RestoreCommitted(w, read, id, p, now, w')
    ensures Evolves(w, w') && Fenced(w')
  {
    var d := read.document.id;
    assert ReadOk(w, read) && DocumentOk(w, d) && LogOk(w, d);
    RestoreEvolves(w, read, id, p, now, w');
    CommitStep(w, w', d, id);
  }

  lemma RestoreFenced(w: World, read: Snapshot, id: string, key: string, fingerprint: string, chunks: nat, now: int)
    requires Fenced(w) && read.RestoreRead?
    ensures Fenced(AfterRestore(w, read, id, key, fingerprint, chunks, now))
  {
    if AfterRestore(w, read, id, key, fingerprint, chunks, now) != w {
      var p := RestoreShape(w, read, id, key, fingerprint, chunks, now);
      RestoreCommit(w, read, id, p, now, AfterRestore(w, read, id, key, fingerprint, chunks, now));
    }
  }

  /** A DELETED document carries the PURGE operation that deleted it, so it is never purged again. */
  lemma DeletedHasPurge(w: World, d: string)
    requires Fenced(w) && d in w.rows.documents && w.rows.documents[d].status == DocumentStatus.Deleted
    ensures d in w.log && |w.log[d]| > 0
    ensures var c := w.log[d][|w.log[d]| - 1];
            c.operationId in w.rows.operations && w.rows.operations[c.operationId].kind == Purge
            && w.rows.operations[c.operationId].documentId == d
  {
    assert LogOk(w, d);
    assert EntryOk(w, d, |w.log[d]| - 1);
  }

  ghost predicate PurgeCommitted(w: World, read: Snapshot, id: string, p: Purging, now: int, w': World)
    requires read.PurgeRead?
  {
    && Timed(w, read, now) && !AlreadyPurged(w, read)
    && read.document.purgeAfter.Some? && read.document.purgeAfter.value <= now
    && p.versions == (map v | v in read.versions :: DeletedCopy(read.versions[v], now))
    && p.purged == read.document.(status := DocumentStatus.Deleted, revision := read.document.revision + 1,
                                  updatedAt := now)
    && p.operation == Operation(id, read.document.id, p.operation.versionId, Purge, p.operation.idempotencyKey, "",
                        Succeeded, read.document.revision, read.document.revision + 1, None, None, now)
    && p.purged.id in w.rows.documents && w.rows.documents[p.purged.id].revision == read.document.revision
    && p.versions.Keys <= w.rows.versions.Keys && id !in w.rows.operations
    && w' == w.(rows := w'.rows, log := w'.log)
    && w'.rows == w.rows.(
         versions := w.rows.versions + p.versions,
         documents := w.rows.documents[p.purged.id := p.purged],
         operations := w.rows.operations[id := p.operation])
    && w'.log == w.log[p.purged.id := History(w, p.purged.id)
         + [Commit(id, w.rows.documents[p.purged.id], p.purged)]]
  }

  lemma PurgeShape(w: World, read: Snapshot, id: string, key: string, last: string, now: int) returns (p: Purging)
    requires read.PurgeRead? && AfterPurge(w, read, id, key, last, now) != w
    ensures PlanPurge(read, id, key, last, now) == Ok(p)
    ensures PurgeCommitted(w, read, id, p, now, AfterPurge(w, read, id, key, last, now))
  {
    p := PlanPurge(read, id, key, last, now).value;
    assert w.published + {} == w.published;
  }

  lemma PurgeEvolves(w: World, read: Snapshot, id: string, p: Purging, now: int, w': World)
    requires Fenced(w) && read.PurgeRead? && PurgeCommitted(w, read, id, p, now, w')
    ensures Evolves(w, w')
    ensures forall v :: v in w'.rows.versions ==> VersionOk(w', v)
  {
    assert ReadOk(w, read) && DocumentOk(w, read.document.id);
    forall v | v in w.rows.versions
      ensures SameContent(w.rows.versions[v], w'.rows.versions[v]) && w'.rows.versions[v].updatedAt <= w.clock
    {
      assert VersionOk(w, v);
      assert v in read.versions ==> w'.rows.versions[v] == DeletedCopy(read.versions[v], now);
    }
    SameVersionsOk(w, w');
  }

  lemma PurgeCommit(w: World, read: Snapshot, id: string, p: Purging, now: int, w': World)
    requires Fenced(w) && read.PurgeRead? && PurgeCommitted(w, read, id, p, now, w')
    ensures Evolves(w, w') && Fenced(w')
  {
    var d := read.document.id;
    assert ReadOk(w, read) && DocumentOk(w, d) && LogOk(w, d);
    if w.rows.documents[d].status == DocumentStatus.Deleted {
      DeletedHasPurge(w, d);
      assert false;
    }
    PurgeEvolves(w, read, id, p, now, w');
    CommitStep(w, w', d, id);
  }

  lemma PurgeFenced(w: World, read: Snapshot, id: string, key: string, last: string, now: int)
    requires Fenced(w) && read.PurgeRead?
    ensures Fenced(AfterPurge(w, read, id, key, last, now))
  {
    if AfterPurge(w, read, id, key, last, now) != w {
      var p := PurgeShape(w, read, id, key, last, now);
      PurgeCommit(w, read, id, p, now, AfterPurge(w, read, id, key, last, now));
    }
  }

  predicate Commits(s: Step) {
    s.PublishStep? || s.DeleteStep? || s.RestoreStep? || s.PurgeStep?
  }

  lemma CommittingFenced(w: World, s: Step)
    requires Fenced(w) && Commits(s)
    ensures Fenced(Perform(w, s))
  {
    match s
    case PublishStep(read, index, chunks, now) => if read.PublishRead? { PublishFenced(w, read, index, chunks, now); }
    case DeleteStep(d, id, key, fp, now) => DeleteFenced(w, d, id, key, fp, now);
    case RestoreStep(read, id, key, fp, chunks, now) =>
      if read.RestoreRead? { RestoreFenced(w, read, id, key, fp, chunks, now); }
    case PurgeStep(read, id, key, last, now) => if read.PurgeRead? { PurgeFenced(w, read, id, key, last, now); }
  }

  predicate Reads(s: Step) {
    s.ReadPublish? || s.ReadRollback? || s.ReadRestore? || s.ReadPurge?
  }

  lemma ReadingFenced(w: World, s: Step)
    requires Fenced(w) && Reads(s)
    ensures Fenced(Perform(w, s))
  {
    match s
    case ReadPublish(id) => PublishReadOk(w, id); ReadStepFenced(w, TakePublishRead(w, id));
    case ReadRollback(d, v) => OtherReadsOk(w, d, v, None); ReadStepFenced(w, TakeRollbackRead(w, d, v));
    case ReadRestore(d, choice) =>
      if IsLatestDeletion(w.rows, d, choice) {
        OtherReadsOk(w, d, "", choice);
        ReadStepFenced(w, TakeRestoreRead(w, d, choice));
      }
    case ReadPurge(d) => OtherReadsOk(w, d, "", None); ReadStepFenced(w, TakePurgeRead(w, d));
  }

  lemma WritingFenced(w: World, s: Step)
    requires Fenced(w) && !Commits(s) && !Reads(s)
    ensures Fenced(Perform(w, s))
  {
    match s
    case Tick(now) => if w.clock < now { TickFenced(w, now); }
    case RegisterStep(_, _, _, _, _, _, _) => RegisterFenced(w, s);
    case IngestStep(v, status, now) => IngestFenced(w, v, status, now);
    case RollbackStep(read, _, _, _, _) => if read.RollbackRead? { RollbackFenced(w, s); }
    case WriteOperation(id, status, now) => OperationWriteFenced(w, id, status, now);
    case WriteEvent(id, status, attempts, availableAt) => EventWriteFenced(w, id, status, attempts, availableAt);
  }

  lemma TickFenced(w: World, now: int)
    requires Fenced(w) && w.clock < now
    ensures Fenced(w.(clock := now))
  {
    var w' := w.(clock := now);
    forall v | v in w'.rows.versions ensures VersionOk(w', v) { assert VersionOk(w, v); }
    QuietStep(w, w');
  }

  lemma StepFenced(w: World, s: Step)
    requires Fenced(w)
    ensures Fenced(Perform(w, s))
  {
    if Commits(s) {
      CommittingFenced(w, s);
    } else if Reads(s) {
      ReadingFenced(w, s);
    } else {
      WritingFenced(w, s);
    }
  }

  // ---------------------------------------------------------------------------
  // Every step evolves the rows, and changes a document by one logged commit or not at all
  // ---------------------------------------------------------------------------

  ghost predicate OneCommit(w: World, w': World, d: string)
    requires d in w.rows.documents && d in w.log
  {
    && d in w'.rows.documents && d in w'.log
    && if w'.log[d] == w.log[d] then w'.rows.documents[d] == w.rows.documents[d]
       else |w'.log[d]| == |w.log[d]| + 1 && w.log[d] <= w'.log[d]
            && w'.log[d][|w.log[d]|].before == w.rows.documents[d]
            && w'.log[d][|w.log[d]|].after == w'.rows.documents[d]
  }

  ghost predicate Advances(w: World, w': World) {
    && Evolves(w, w') && w.views <= w'.views && w'.historyRetention == w.historyRetention
    && forall d {:trigger OneCommit(w, w', d)} :: d in w.rows.documents && d in w.log ==> OneCommit(w, w', d)
  }

  lemma RegisterAdvances(w: World, s: Step)
    requires s.RegisterStep?
    ensures Advances(w, AfterRegister(w, s))
  {
  }

  lemma RollbackAdvances(w: World, s: Step)
    requires s.RollbackStep? && s.read.RollbackRead?
    ensures Advances(w, AfterRollback(w, s))
  {
  }

  lemma IngestAdvances(w: World, v: string, status: VersionStatus, now: int)
    ensures Advances(w, AfterIngest(w, v, status, now))
  {
  }

  lemma OperationWriteAdvances(w: World, o: string, status: OperationStatus, now: int)
    ensures Advances(w, AfterOperationWrite(w, o, status, now))
  {
  }

  lemma EventWriteAdvances(w: World, o: string, status: EventStatus, attempts: nat, availableAt: int)
    ensures Advances(w, AfterEventWrite(w, o, status, attempts, availableAt))
  {
  }

  lemma RecalledAdvances(w: World, read: Option<Snapshot>)
    ensures Advances(w, Recalled(w, read))
  {
  }

  lemma PublishAdvances(w: World, read: Snapshot, index: string, chunks: nat, now: int)
    requires Fenced(w) && read.PublishRead?
    ensures Advances(w, AfterPublish(w, read, index, chunks, now))
  {
    if AfterPublish(w, read, index, chunks, now) != w {
      var p := PublishShape(w, read, index, chunks, now);
      PublishEvolves(w, read, p, now, AfterPublish(w, read, index, chunks, now));
    }
  }

  lemma DeleteAdvances(w: World, d: string, id: string, key: string, fingerprint: string, now: int)
    requires Fenced(w)
    ensures Advances(w, AfterDelete(w, d, id, key, fingerprint, now))
  {
    if AfterDelete(w, d, id, key, fingerprint, now) != w {
      var op := DeleteShape(w, d, id, key, fingerprint, now);
      DeleteCommit(w, d, id, op, now, AfterDelete(w, d, id, key, fingerprint, now));
    }
  }

  lemma RestoreAdvances(w: World, read: Snapshot, id: string, key: string, fingerprint: string, chunks: nat, now: int)
    requires Fenced(w) && read.RestoreRead?
    ensures Advances(w, AfterRestore(w, read, id, key, fingerprint, chunks, now))
  {
    if AfterRestore(w, read, id, key, fingerprint, chunks, now) != w {
      var p := RestoreShape(w, read, id, key, fingerprint, chunks, now);
      RestoreCommit(w, read, id, p, now, AfterRestore(w, read, id, key, fingerprint, chunks, now));
    }
  }

  lemma PurgeAdvances(w: World, read: Snapshot, id: string, key: string, last: string, now: int)
    requires Fenced(w) && read.PurgeRead?
    ensures Advances(w, AfterPurge(w, read, id, key, last, now))
  {
    if AfterPurge(w, read, id, key, last, now) != w {
      var p := PurgeShape(w, read, id, key, last, now);
      PurgeCommit(w, read, id, p, now, AfterPurge(w, read, id, key, last, now));
    }
  }

  lemma CommittingAdvances(w: World, s: Step)
    requires Fenced(w) && Commits(s)
    ensures Advances(w, Perform(w, s))
  {
    match s
    case PublishStep(read, index, chunks, now) => if read.PublishRead? { PublishAdvances(w, read, index, chunks, now); }
    case DeleteStep(d, id, key, fp, now) => DeleteAdvances(w, d, id, key, fp, now);
    case RestoreStep(read, id, key, fp, chunks, now) =>
      if read.RestoreRead? { RestoreAdvances(w, read, id, key, fp, chunks, now); }
    case PurgeStep(read, id, key, last, now) => if read.PurgeRead? { PurgeAdvances(w, read, id, key, last, now); }
  }

  lemma ReadingAdvances(w: World, s: Step)
    requires Reads(s)
    ensures Advances(w, Perform(w, s))
  {
    match s
    case ReadPublish(id) => RecalledAdvances(w, TakePublishRead(w, id));
    case ReadRollback(d, v) => RecalledAdvances(w, TakeRollbackRead(w, d, v));
    case ReadRestore(d, choice) =>
      RecalledAdvances(w, if IsLatestDeletion(w.rows, d, choice) then TakeRestoreRead(w, d, choice) else None);
    case ReadPurge(d) => RecalledAdvances(w, TakePurgeRead(w, d));
  }

  lemma WritingAdvances(w: World, s: Step)
    requires !Commits(s) && !Reads(s)
    ensures Advances(w, Perform(w, s))
  {
    match s
    case Tick(now) =>
    case RegisterStep(_, _, _, _, _, _, _) => RegisterAdvances(w, s);
    case IngestStep(v, status, now) => IngestAdvances(w, v, status, now);
    case RollbackStep(read, _, _, _, _) => if read.RollbackRead? { RollbackAdvances(w, s); }
    case WriteOperation(id, status, now) => OperationWriteAdvances(w, id, status, now);
    case WriteEvent(id, status, attempts, availableAt) => EventWriteAdvances(w, id, status, attempts, availableAt);
  }

  lemma StepAdvances(w: World, s: Step)
    requires Fenced(w)
    ensures Advances(w, Perform(w, s))
  {
    if Commits(s) {
      CommittingAdvances(w, s);
    } else if Reads(s) {
      ReadingAdvances(w, s);
    } else {
      WritingAdvances(w, s);
    }
  }

  lemma {:induction false} RunFenced(w: World, steps: seq<Step>)
    requires Fenced(w)
    ensures Fenced(Execute(w, steps))
    decreases |steps|
  {
    if steps != [] {
      StepFenced(w, steps[0]);
      RunFenced(Perform(w, steps[0]), steps[1..]);
    }
  }
}
