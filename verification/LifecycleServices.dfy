/**
 * The lifecycle services as the source runs them: each reads in one transaction, works outside any
 * transaction while other services and the worker interleave, and writes in a second transaction that the
 * compare-and-set may reject. Every method is proved to move the database only along protocol steps.
 */
module LifecycleServices {
  import opened Prelude
  import opened Documents
  import opened LifecycleRows
  import opened LifecycleProtocol
  import opened LifecycleFencing
  import opened LifecycleGuarantees
  import opened LifecycleEffects
  import opened LifecycleSubmissions

  // ---------------------------------------------------------------------------
  // What survives any amount of interleaving
  // ---------------------------------------------------------------------------

  lemma EffectStays(w: World, w': World, d: string, o: string)
    requires Grows(w, w') && d in w.rows.documents && TookEffect(w, d, o)
    ensures TookEffect(w', d, o)
  {
    assert LogExtends(w, w', d);
    var i :| 0 <= i < |w.log[d]| && w.log[d][i].operationId == o;
    assert w'.log[d][i] == w.log[d][i];
  }

  // ---------------------------------------------------------------------------
  // The database and its transactions
  // ---------------------------------------------------------------------------

  class Database {
    const retention: nat
    const historyRetention: nat
    var rows: Rows
    var clock: int
    ghost var world: World

    ghost predicate Valid()
      reads this
    {
      && world.rows == rows && world.clock == clock && Fenced(world) && Settled(world) && Submitted(world)
      && world.retention == retention && world.historyRetention == historyRetention
    }

    /** Other services, the worker and the dispatcher take any number of steps. */
    method Interleave()
      requires Valid()
      modifies this
      ensures Valid() && Follows(old(world), world)
    {
    }

    method Now() returns (now: int)
      requires Valid()
      modifies this
      ensures Valid() && Follows(old(world), world) && old(clock) < now == clock
    {
      var elapsed: int :| 0 <= elapsed;
      clock := clock + 1 + elapsed;
      now := clock;
      StepFenced(world, Tick(now));
      StepSettled(world, Tick(now));
      StepSubmitted(world, Tick(now));
      world := Perform(world, Tick(now));
    }

    /** Account for a read that a service will act on later. */
    ghost method Witness(s: Step)
      requires Valid() && Perform(world, s).rows == rows && Perform(world, s).clock == clock
      modifies this`world
      ensures Valid() && world == Perform(old(world), s)
    {
      StepFenced(world, s);
      StepSettled(world, s);
      StepSubmitted(world, s);
      StepAdvances(world, s);
      world := Perform(world, s);
    }
  }

  /** One `async with self._uow()` block: staged rows that become visible only by `Commit`. */
  class UnitOfWork {
    const database: Database
    var staged: Rows

    constructor (database: Database)
      ensures this.database == database && staged == database.rows
    {
      this.database := database;
      staged := database.rows;
    }

    method StageVersion(version: Version) returns (r: Result<()>)
      modifies this`staged
      ensures r.Ok? == SaveVersion(old(staged), version).Ok?
      ensures staged == if r.Ok? then SaveVersion(old(staged), version).value else old(staged)
    {
      if version.id !in staged.versions { return Err("knowledge_resource"); }
      staged := staged.(versions := staged.versions[version.id := version]);
      r := Ok(());
    }

    method StageDocument(document: Document, expected: nat) returns (r: Result<()>)
      modifies this`staged
      ensures r.Ok? == SaveIfRevision(old(staged), document, expected).Ok?
      ensures staged == if r.Ok? then SaveIfRevision(old(staged), document, expected).value else old(staged)
    {
      if document.id !in staged.documents || staged.documents[document.id].revision != expected {
        return Err("document_revision_conflict");
      }
      staged := staged.(documents := staged.documents[document.id := document]);
      r := Ok(());
    }

    method StageOperation(operation: Operation) returns (r: Result<()>)
      modifies this`staged
      ensures r.Ok? == SaveOperation(old(staged), operation).Ok?
      ensures staged == if r.Ok? then SaveOperation(old(staged), operation).value else old(staged)
    {
      if operation.id !in staged.operations { return Err("knowledge_resource"); }
      staged := staged.(operations := staged.operations[operation.id := operation]);
      r := Ok(());
    }

    method InsertEvent(event: Event) returns (r: Result<()>)
      modifies this`staged
      ensures r.Ok? <==> event.operationId !in old(staged).outbox
      ensures staged == if r.Ok? then old(staged).(outbox := old(staged).outbox[event.operationId := event])
              else old(staged)
    {
      if event.operationId in staged.outbox { return Err("knowledge_resource_exists"); }
      staged := staged.(outbox := staged.outbox[event.operationId := event]);
      r := Ok(());
    }

    method InsertVersion(version: Version) returns (r: Result<()>)
      modifies this`staged
      ensures r.Ok? <==> version.id !in old(staged).versions
      ensures staged == if r.Ok? then old(staged).(versions := old(staged).versions[version.id := version])
              else old(staged)
    {
      if version.id in staged.versions { return Err("knowledge_resource_exists"); }
      staged := staged.(versions := staged.versions[version.id := version]);
      r := Ok(());
    }

    method InsertOperation(operation: Operation) returns (r: Result<()>)
      modifies this`staged
      ensures r.Ok? == AddOperation(old(staged), operation).Ok?
      ensures staged == if r.Ok? then AddOperation(old(staged), operation).value else old(staged)
    {
      if operation.id in staged.operations { return Err("knowledge_resource_exists"); }
      var existing := FindByKey(staged, operation.idempotencyKey);
      if existing.Some? { return Err("knowledge_resource_exists"); }
      staged := staged.(operations := staged.operations[operation.id := operation]);
      r := Ok(());
    }

    /** The staged rows are what step `s` of the protocol writes, and `now` is the clock it leaves. */
    method Commit(ghost s: Step, now: int)
      requires database.Valid()
      requires Perform(database.world, s).rows == staged && Perform(database.world, s).clock == now
      modifies database
      ensures database.Valid() && database.world == Perform(old(database.world), s)
    {
      StepFenced(database.world, s);
      StepSettled(database.world, s);
      StepSubmitted(database.world, s);
      StepAdvances(database.world, s);
      database.rows, database.clock := staged, now;
      database.world := Perform(database.world, s);
    }
  }

  method FindByKey(rows: Rows, key: string) returns (r: Option<Operation>)
    ensures r.None? <==> !KeyTaken(rows, key)
    ensures r.Some? ==> exists id :: id in rows.operations && rows.operations[id] == r.value
    ensures r.Some? ==> r.value.idempotencyKey == key
  {
    var todo := rows.operations.Keys;
    while todo != {}
      invariant todo <= rows.operations.Keys
      invariant forall id :: id in rows.operations && id !in todo ==> rows.operations[id].idempotencyKey != key
    {
      var id :| id in todo;
      if rows.operations[id].idempotencyKey == key { return Some(rows.operations[id]); }
      todo := todo - {id};
    }
    r := None;
  }

  /** The last DELETE operation of a document in `updated_at` order. */
  method FindLatestDeletion(rows: Rows, documentId: string) returns (r: Option<string>)
    ensures IsLatestDeletion(rows, documentId, r)
  {
    r := None;
    var todo := rows.operations.Keys;
    while todo != {}
      invariant todo <= rows.operations.Keys
      invariant r.Some? ==> IsDeletionOf(rows, r.value, documentId)
      invariant forall id :: IsDeletionOf(rows, id, documentId) && id !in todo ==>
                  r.Some? && rows.operations[id].updatedAt <= rows.operations[r.value].updatedAt
    {
      var id :| id in todo;
      if IsDeletionOf(rows, id, documentId)
         && (r.None? || rows.operations[r.value].updatedAt <= rows.operations[id].updatedAt) {
        r := Some(id);
      }
      todo := todo - {id};
    }
  }

  // ---------------------------------------------------------------------------
  // Publication
  // ---------------------------------------------------------------------------

  /** What `complete_ingestion` computes between its transactions. */
  method ComputePublication(read: Snapshot, now: int, indexVersionId: string, chunks: nat, retention: nat)
    returns (r: Result<Publication>)
    requires read.PublishRead? && read.document.status == Active
    requires read.document.revision == read.operation.expectedRevision
    ensures r == PlanPublication(read, now, indexVersionId, chunks, retention)
  {
    if chunks < 1 { return Err("lifecycle_candidate_empty"); }
    var candidate :- ReadyCandidate(read.version, now);
    var ready := candidate.(indexVersionId := Some(indexVersionId), activatedAt := Some(now));
    var active :- ActivateVersion(read.document, ready, now, Some(read.operation.expectedRevision));
    var retired :- RetiredPrevious(read.previous, ready.id, now, retention);
    r := Ok(Publication(ready, retired, active, read.operation.(status := Succeeded, updatedAt := now)));
  }

  /** The publishing transaction. A lost compare-and-set leaves the database untouched. */
  method StorePublication(database: Database, p: Publication, expected: nat, ghost s: Step) returns (r: Result<()>)
    requires database.Valid() && s.PublishStep? && s.read.PublishRead? && Timed(database.world, s.read, s.now)
    requires s.read.operation.status != Succeeded && s.read.document.revision == expected
    requires PlanPublication(s.read, s.now, s.indexVersionId, s.chunks, database.historyRetention) == Ok(p)
    modifies database
    ensures database.Valid()
    ensures r.Ok? == CommitPublication(old(database.rows), p, expected).Ok?
    ensures if r.Ok? then database.world == Perform(old(database.world), s)
                          && p.active.id in database.rows.documents
                          && TookEffect(database.world, p.active.id, p.operation.id)
            else database.world == old(database.world)
  {
    var unit := new UnitOfWork(database);
    var _ :- unit.StageVersion(p.ready);
    if p.retired.Some? { var _ :- unit.StageVersion(p.retired.value); }
    var _ :- unit.StageDocument(p.active, expected);
    var _ :- unit.StageOperation(p.operation);
    ghost var w := database.world;
    assert Perform(w, s) == Committed(w, unit.staged, p.active.id, p.operation.id, Some(p.ready.id));
    unit.Commit(s, database.clock);
    assert database.world.log[p.active.id][|History(w, p.active.id)|].operationId == p.operation.id;
    r := Ok(());
  }

  /** The projection retires a version while others keep going; what took effect stays so. */
  method Retire(database: Database, ghost documentId: string, ghost operationId: string)
    requires database.Valid() && documentId in database.rows.documents
    requires TookEffect(database.world, documentId, operationId)
    modifies database
    ensures database.Valid() && Follows(old(database.world), database.world)
    ensures TookEffect(database.world, documentId, operationId)
  {
    ghost var w := database.world;
    database.Interleave();
    FollowsGrows(w, database.world);
    EffectStays(w, database.world, documentId, operationId);
  }

  /** `complete_ingestion`. */
  method CompleteIngestion(database: Database, operationId: string, indexVersionId: string)
    returns (r: Result<Operation>)
    requires database.Valid()
    modifies database
    ensures database.Valid() && Follows(old(database.world), database.world)
    ensures r.Ok? ==> r.value.status == Succeeded && r.value.id == operationId
    ensures r.Ok? ==>
              && operationId in old(database.rows).operations
              && r.value.documentId == old(database.rows).operations[operationId].documentId
              && TookEffect(database.world, r.value.documentId, operationId)
  {
    ghost var start := database.world;
    var rows, at := database.rows, database.clock;
    if operationId !in rows.operations { return Err("lifecycle_operation"); }
    var operation := rows.operations[operationId];
    if operation.documentId !in rows.documents || operation.versionId !in rows.versions { return Err("document"); }
    var document, version := rows.documents[operation.documentId], rows.versions[operation.versionId];
    var read := PublishRead(at, operation, document, version, Lookup(rows.versions, operation.previousVersionId));
    database.Witness(ReadPublish(operationId));
    assert OperationOk(start, operationId) && DocumentOk(start, operation.documentId);
    assert SucceededOk(start, operationId);
    if operation.status == Succeeded { return Ok(operation); }
    if document.status != Active { return Err("document_deleted"); }
    if document.revision != operation.expectedRevision { return Err("document_revision_conflict"); }
    r := Publish(database, read, indexVersionId);
  }

  /** The part of `complete_ingestion` after its first transaction. */
  method Publish(database: Database, read: Snapshot, indexVersionId: string) returns (r: Result<Operation>)
    requires database.Valid() && read.PublishRead? && read in database.world.views && read.at <= database.clock
    requires read.operation.status != Succeeded && read.document.status == Active
    requires read.document.revision == read.operation.expectedRevision
    modifies database
    ensures database.Valid() && Follows(old(database.world), database.world)
    ensures r.Ok? ==> r.value == read.operation.(status := Succeeded, updatedAt := r.value.updatedAt)
    ensures r.Ok? ==> TookEffect(database.world, read.document.id, read.operation.id)
  {
    var now, chunks := Work(database, read);
    var p :- ComputePublication(read, now, indexVersionId, chunks, database.historyRetention);
    var _ :- StorePublication(database, p, read.document.revision, PublishStep(read, indexVersionId, chunks, now));
    Retire(database, read.document.id, read.operation.id);
    r := Ok(p.operation);
  }

  /**
   * Between the transactions: the clock is read, the search projection validates (`chunks` is its answer) and
   * promotes, and everybody else keeps going.
   */
  method Work(database: Database, ghost read: Snapshot) returns (now: int, chunks: nat)
    requires database.Valid() && read in database.world.views && read.at <= database.clock
    modifies database
    ensures database.Valid() && Follows(old(database.world), database.world)
    ensures Timed(database.world, read, now)
  {
    ghost var w := database.world;
    database.Interleave();
    FollowsGrows(w, database.world);
    now := database.Now();
    FollowsGrows(w, database.world);
    w := database.world;
    database.Interleave();
    FollowsGrows(w, database.world);
    chunks :| 0 <= chunks;
  }

  /** `rollback`: the operation is computed from the first read, stored without a check, and then published. */
  method RollbackTo(database: Database, documentId: string, targetVersionId: string, operationId: string, key: string,
                    fingerprint: string) returns (r: Result<Operation>)
    requires database.Valid()
    modifies database
    ensures database.Valid() && Follows(old(database.world), database.world)
    ensures KeyTaken(old(database.rows), key) ==> database.world == old(database.world)
    ensures r.Ok? && KeyTaken(old(database.rows), key) ==>
              && r.value.idempotencyKey == key && r.value.kind == Rollback && r.value.documentId == documentId
              && r.value.versionId == targetVersionId && r.value.fingerprint == fingerprint
    ensures r.Ok? && !KeyTaken(old(database.rows), key) ==>
              && r.value.status == Succeeded && r.value.id == operationId
              && r.value.documentId == documentId && TookEffect(database.world, documentId, operationId)
              && targetVersionId in old(database.rows).versions
              && old(database.rows).versions[targetVersionId].status == Superseded
              && old(database.rows).versions[targetVersionId].documentId == documentId
  {
    var rows, at := database.rows, database.clock;
    var duplicate := FindByKey(rows, key);
    if documentId !in rows.documents || targetVersionId !in rows.versions { return Err("document_version"); }
    var document, historical := rows.documents[documentId], rows.versions[targetVersionId];
    if duplicate.Some? {
      if duplicate.value.versionId != targetVersionId { return Err("lifecycle_idempotency_conflict"); }
      r := MatchDuplicate(duplicate.value, Rollback, documentId, fingerprint);
      return;
    }
    ghost var w := database.world;
    assert DocumentOk(w, documentId) && VersionOk(w, targetVersionId);
    if historical.documentId != document.id || historical.status != Superseded {
      return Err("rollback_target_invalid");
    }
    var read := RollbackRead(at, document, historical);
    database.Witness(ReadRollback(documentId, targetVersionId));
    FollowsStep(w, w, ReadRollback(documentId, targetVersionId));
    r := RollbackFromRead(database, read, operationId, key, fingerprint);
  }

  /** The part of `rollback` after its first transaction. */
  method RollbackFromRead(database: Database, read: Snapshot, operationId: string, key: string, fingerprint: string)
    returns (r: Result<Operation>)
    requires database.Valid() && read.RollbackRead? && read in database.world.views && read.at <= database.clock
    requires read.historical.documentId == read.document.id && read.historical.status == Superseded
    modifies database
    ensures database.Valid() && Follows(old(database.world), database.world)
    ensures r.Ok? ==>
              && r.value.status == Succeeded && r.value.id == operationId
              && r.value.documentId == read.document.id && TookEffect(database.world, read.document.id, operationId)
  {
    var now, _ := Work(database, read);
    ghost var w := database.world;
    var unit := new UnitOfWork(database);
    var operation := NewOperation(operationId, read.document, read.historical.id, Rollback, key, fingerprint, now);
    var _ :- unit.InsertOperation(operation);
    unit.Commit(RollbackStep(read, operationId, key, fingerprint, now), database.clock);
    FollowsStep(w, w, RollbackStep(read, operationId, key, fingerprint, now));
    w := database.world;
    database.Interleave();
    FollowsGrows(w, database.world);
    r := CompleteIngestion(database, operationId, read.historical.indexVersionId.GetOr("idx_" + read.historical.id));
  }

  /** A clock value later than every earlier one, to be committed with the transaction that read it. */
  method LaterThan(clock: int) returns (now: int)
    ensures clock < now
  {
    var elapsed: int :| 0 <= elapsed;
    now := clock + 1 + elapsed;
  }

  /** `_require_matching_duplicate`: a key may be reused only for the same command. */
  method MatchDuplicate(duplicate: Operation, kind: Kind, documentId: string, fingerprint: string)
    returns (r: Result<Operation>)
    ensures r == if duplicate.kind == kind && duplicate.documentId == documentId && duplicate.fingerprint == fingerprint
                 then Ok(duplicate) else Err("lifecycle_idempotency_conflict")
  {
    if duplicate.kind != kind || duplicate.documentId != documentId || duplicate.fingerprint != fingerprint {
      return Err("lifecycle_idempotency_conflict");
    }
    r := Ok(duplicate);
  }

  // ---------------------------------------------------------------------------
  // Registration
  // ---------------------------------------------------------------------------

  /** `_register`; `versionId` and `operationId` are fresh identifiers. */
  method Register(database: Database, kind: Kind, documentId: string, versionId: string, operationId: string,
                  key: string,
                  fingerprint: string) returns (r: Result<Operation>)
    requires database.Valid() && (kind == Update || kind == Reparse)
    modifies database
    ensures database.Valid() && Follows(old(database.world), database.world)
    ensures database.rows.documents == old(database.rows).documents
    ensures r.Err? ==> database.rows == old(database.rows)
    ensures r.Ok? ==>
              && documentId in old(database.rows).documents
              && old(database.rows).documents[documentId].currentVersionId.Some?
              && r.value.id == operationId && r.value.kind == kind && r.value.idempotencyKey == key
              && r.value.documentId == documentId && r.value.versionId == versionId
              && r.value.fingerprint == fingerprint && r.value.status == OperationStatus.Pending
              && r.value.expectedRevision == old(database.rows).documents[documentId].revision
              && r.value.previousVersionId == old(database.rows).documents[documentId].currentVersionId
              && database.rows.operations == old(database.rows).operations[operationId := r.value]
              && versionId !in old(database.rows).versions
              && database.rows.versions == old(database.rows).versions[versionId :=
                   NewVersion(versionId, old(database.rows).documents[documentId], database.clock)]
  {
    var rows := database.rows;
    var now := LaterThan(database.clock);
    if documentId !in rows.documents { return Err("document"); }
    var document := rows.documents[documentId];
    if document.currentVersionId.None? { return Err("document_has_no_active_version"); }
    ghost var w := database.world;
    assert DocumentOk(w, documentId);
    var version := NewVersion(versionId, document, now);
    var operation := NewOperation(operationId, document, versionId, kind, key, fingerprint, now);
    var event := Event(operationId, documentId, IngestionRequested, EventStatus.Pending, 0, now);
    var unit := new UnitOfWork(database);
    var _ :- unit.InsertVersion(version);
    var _ :- unit.InsertOperation(operation);
    var _ :- unit.InsertEvent(event);
    ghost var s := RegisterStep(kind, documentId, versionId, operationId, key, fingerprint, now);
    assert !KeyTaken(rows, key);
    assert RegisterCandidate(rows, kind, documentId, versionId, operationId, key, fingerprint, now) == Ok(unit.staged);
    unit.Commit(s, now);
    FollowsStep(w, w, s);
    r := Ok(operation);
  }

  /** The stored operation that a command repeats, if `key` has one. */
  predicate Repeats(rows: Rows, o: Operation, kind: Kind, documentId: string, key: string, fingerprint: string) {
    && o.id in rows.operations && rows.operations[o.id] == o && o.idempotencyKey == key
    && o.kind == kind && o.documentId == documentId && o.fingerprint == fingerprint
  }

  /**
   * `_existing`: with a used key the command is answered from the stored rows or refused. Neither document nor event
   * of a stored candidate can be missing.
   */
  method Existing(database: Database, kind: Kind, documentId: string, key: string, fingerprint: string)
    returns (r: Option<Result<Operation>>)
    requires database.Valid() && Candidates(kind)
    ensures r.None? <==> !KeyTaken(database.rows, key)
    ensures r.Some? && r.value.Ok? ==> Repeats(database.rows, r.value.value, kind, documentId, key, fingerprint)
    ensures r.Some? && r.value.Err? ==>
              forall o :: !Repeats(database.rows, o, kind, documentId, key, fingerprint)
  {
    var rows := database.rows;
    var operation := FindByKey(rows, key);
    if operation.None? { return None; }
    var id :| id in rows.operations && rows.operations[id] == operation.value;
    assert OperationOk(database.world, id);
    var matched := MatchDuplicate(operation.value, kind, documentId, fingerprint);
    if matched.Err? { return Some(matched); }
    if operation.value.documentId !in rows.documents { return Some(Err("document")); }
    if operation.value.id !in rows.outbox { return Some(Err("lifecycle_outbox_missing")); }
    r := Some(matched);
  }

  /**
   * `update` and `reparse`: a repeated command gets the operation of the first one and changes nothing; a new one is
   * registered after storing the content, while others keep going.
   */
  method Submit(database: Database, kind: Kind, documentId: string, versionId: string, operationId: string,
                key: string, fingerprint: string) returns (r: Result<Operation>)
    requires database.Valid() && Candidates(kind)
    modifies database
    ensures database.Valid() && Follows(old(database.world), database.world)
    ensures KeyTaken(old(database.rows), key) ==> database.world == old(database.world)
    ensures r.Ok? ==> Repeats(database.rows, r.value, kind, documentId, key, fingerprint)
    ensures r.Ok? ==> r.value.id in database.rows.outbox
    ensures r.Err? && KeyTaken(old(database.rows), key) ==>
              forall o :: !Repeats(database.rows, o, kind, documentId, key, fingerprint)
    ensures r.Ok? && !KeyTaken(old(database.rows), key) ==>
              r.value.id == operationId && r.value.versionId == versionId && versionId in database.rows.versions
              && r.value.status == OperationStatus.Pending
  {
    var existing := Existing(database, kind, documentId, key, fingerprint);
    if existing.Some? { return existing.value; }
    database.Interleave();
    var rows := database.rows;
    if documentId !in rows.documents { return Err("document"); }
    if kind == Reparse {
      var document := rows.documents[documentId];
      if document.currentVersionId.None? { return Err("document"); }
      if document.currentVersionId.value !in rows.versions { return Err("document_version"); }
    }
    database.Interleave();                           // the content of an update is stored
    r := Register(database, kind, documentId, versionId, operationId, key, fingerprint);
  }

  // ---------------------------------------------------------------------------
  // Deletion
  // ---------------------------------------------------------------------------

  method RequestDelete(database: Database, documentId: string, operationId: string, key: string, fingerprint: string)
    returns (r: Result<Operation>)
    requires database.Valid()
    modifies database
    ensures database.Valid() && Follows(old(database.world), database.world)
    ensures KeyTaken(old(database.rows), key) ==> database.world == old(database.world)
    ensures r.Ok? && KeyTaken(old(database.rows), key) ==>
              && r.value.idempotencyKey == key && r.value.kind == Delete && r.value.documentId == documentId
              && r.value.fingerprint == fingerprint
    ensures r.Ok? && !KeyTaken(old(database.rows), key) ==>
              && documentId in old(database.rows).documents
              && r.value.previousVersionId == old(database.rows).documents[documentId].currentVersionId
              && r.value.id == operationId && TookEffect(database.world, documentId, operationId)
  {
    var rows := database.rows;
    var duplicate := FindByKey(rows, key);
    if documentId !in rows.documents { return Err("document"); }
    var document := rows.documents[documentId];
    if duplicate.Some? {
      r := MatchDuplicate(duplicate.value, Delete, documentId, fingerprint);
      return;
    }
    if document.status != Active || document.currentVersionId.None? { return Err("document_deleted"); }
    ghost var w := database.world;
    assert DocumentOk(w, documentId) && LogOk(w, documentId);
    var now := LaterThan(database.clock);
    var operation := NewOperation(operationId, document, document.currentVersionId.value, Delete, key, fingerprint, now)
                       .(purgeAfter := Some(now + database.retention));
    var event := Event(operationId, documentId, CleanupRequested, EventStatus.Pending, 0, now + database.retention);
    var unit := new UnitOfWork(database);
    var swapped := unit.StageDocument(Tombstone(document, now, database.retention), document.revision);
    if swapped.Err? { return Err("document_revision_conflict"); }
    var _ :- unit.InsertOperation(operation);
    var _ :- unit.InsertEvent(event);
    ghost var s := DeleteStep(documentId, operationId, key, fingerprint, now);
    assert CommitDeletion(rows, documentId, operationId, key, fingerprint, now, database.retention) == Ok(unit.staged);
    unit.Commit(s, now);
    FollowsStep(w, w, s);
    assert database.world.log[documentId][|w.log[documentId]|].operationId == operationId;
    Retire(database, documentId, operationId);
    r := Ok(operation);
  }

  // ---------------------------------------------------------------------------
  // Restoration
  // ---------------------------------------------------------------------------

  method StoreRestoration(database: Database, p: Restoration, deletion: Option<Operation>, expected: nat, ghost s: Step)
    returns (r: Result<()>)
    requires database.Valid() && s.RestoreStep? && s.read.RestoreRead? && Timed(database.world, s.read, s.now)
    requires s.read.document.revision == expected && s.read.deletion == deletion
    requires PlanRestoration(s.read, s.operationId, s.key, s.fingerprint, s.now, s.chunks) == Ok(p)
    modifies database
    ensures database.Valid()
    ensures r.Ok? == CommitRestoration(old(database.rows), p, deletion, expected).Ok?
    ensures if r.Ok? then database.world == Perform(old(database.world), s)
                          && TookEffect(database.world, p.restored.id, p.operation.id)
            else database.world == old(database.world)
  {
    var unit := new UnitOfWork(database);
    var _ :- unit.StageVersion(p.ready);
    var _ :- unit.StageDocument(p.restored, expected);
    var _ :- unit.InsertOperation(p.operation);
    unit.staged := CancelCleanup(unit.staged, deletion);
    ghost var w := database.world;
    assert Perform(w, s) == Committed(w, unit.staged, p.restored.id, p.operation.id, Some(p.ready.id));
    unit.Commit(s, database.clock);
    assert database.world.log[p.restored.id][|History(w, p.restored.id)|].operationId == p.operation.id;
    r := Ok(());
  }

  /** `restore`. The clock is read before the search projection is asked. */
  method RestoreDocument(database: Database, documentId: string, operationId: string, key: string, fingerprint: string)
    returns (r: Result<Operation>)
    requires database.Valid()
    modifies database
    ensures database.Valid() && Follows(old(database.world), database.world)
    ensures KeyTaken(old(database.rows), key) ==> database.world == old(database.world)
    ensures r.Ok? && KeyTaken(old(database.rows), key) ==>
              && r.value.idempotencyKey == key && r.value.kind == Restore && r.value.documentId == documentId
              && r.value.fingerprint == fingerprint
    ensures r.Ok? && !KeyTaken(old(database.rows), key) ==>
              && documentId in old(database.rows).documents
              && old(database.rows).documents[documentId].status == DeletePending
              && TookEffect(database.world, documentId, operationId)
  {
    var rows, at := database.rows, database.clock;
    var duplicate := FindByKey(rows, key);
    if documentId !in rows.documents { return Err("document"); }
    var document := rows.documents[documentId];
    if duplicate.Some? {
      r := MatchDuplicate(duplicate.value, Restore, documentId, fingerprint);
      return;
    }
    var choice := FindLatestDeletion(rows, documentId);
    var deletion := Lookup(rows.operations, choice);
    var target := if deletion.Some? then Lookup(rows.versions, deletion.value.previousVersionId) else None;
    var read := RestoreRead(at, document, deletion, target);
    ghost var w := database.world;
    assert DocumentOk(w, documentId);
    database.Witness(ReadRestore(documentId, choice));
    FollowsStep(w, w, ReadRestore(documentId, choice));
    r := RestoreFromRead(database, read, operationId, key, fingerprint);
  }

  /** The part of `restore` after its first transaction. */
  method RestoreFromRead(database: Database, read: Snapshot, operationId: string, key: string, fingerprint: string)
    returns (r: Result<Operation>)
    requires database.Valid() && read.RestoreRead? && read in database.world.views && read.at <= database.clock
    modifies database
    ensures database.Valid() && Follows(old(database.world), database.world)
    ensures r.Ok? ==> read.document.status == DeletePending && TookEffect(database.world, read.document.id, operationId)
  {
    var now, chunks := Work(database, read);
    var p :- PlanRestoration(read, operationId, key, fingerprint, now, chunks);
    ghost var s := RestoreStep(read, operationId, key, fingerprint, chunks, now);
    var _ :- StoreRestoration(database, p, read.deletion, read.document.revision, s);
    r := Ok(p.operation);
  }

  // ---------------------------------------------------------------------------
  // Purge
  // ---------------------------------------------------------------------------

  /** Save every deleted copy, one row at a time. */
  method StageVersions(unit: UnitOfWork, versions: map<string, Version>) returns (r: Result<()>)
    requires forall id :: id in versions ==> versions[id].id == id
    modifies unit`staged
    ensures r.Ok? <==> versions.Keys <= old(unit.staged).versions.Keys
    ensures r.Ok? ==> unit.staged == old(unit.staged).(versions := old(unit.staged).versions + versions)
  {
    var todo := versions.Keys;
    ghost var before := unit.staged;
    while todo != {}
      invariant todo <= versions.Keys && versions.Keys - todo <= before.versions.Keys
      invariant unit.staged
                == before.(versions := before.versions + (map id | id in versions.Keys - todo :: versions[id]))
    {
      var id :| id in todo;
      if id !in unit.staged.versions { return Err("knowledge_resource"); }
      unit.staged := unit.staged.(versions := unit.staged.versions[id := versions[id]]);
      todo := todo - {id};
      assert unit.staged.versions == before.versions + (map x | x in versions.Keys - todo :: versions[x]);
    }
    assert (map id | id in versions.Keys - todo :: versions[id]) == versions;
    r := Ok(());
  }

  method StorePurge(database: Database, p: Purging, expected: nat, ghost s: Step) returns (r: Result<()>)
    requires database.Valid() && s.PurgeStep? && s.read.PurgeRead? && Timed(database.world, s.read, s.now)
    requires s.read.document.revision == expected && !AlreadyPurged(database.world, s.read)
    requires PlanPurge(s.read, s.operationId, s.key, s.lastVersionId, s.now) == Ok(p)
    requires forall id :: id in p.versions ==> p.versions[id].id == id
    modifies database
    ensures database.Valid()
    ensures r.Ok? == CommitPurge(old(database.rows), p, expected).Ok?
    ensures if r.Ok? then database.world == Perform(old(database.world), s)
                          && TookEffect(database.world, p.purged.id, p.operation.id)
            else database.world == old(database.world)
  {
    var unit := new UnitOfWork(database);
    var _ :- StageVersions(unit, p.versions);
    var _ :- unit.StageDocument(p.purged, expected);
    var _ :- unit.InsertOperation(p.operation);
    ghost var w := database.world;
    assert Perform(w, s) == Committed(w, unit.staged, p.purged.id, p.operation.id, None);
    unit.Commit(s, database.clock);
    assert database.world.log[p.purged.id][|History(w, p.purged.id)|].operationId == p.operation.id;
    r := Ok(());
  }

  /** The last PURGE operation of the document, if it has one. */
  method FindPurge(rows: Rows, documentId: string) returns (r: Option<Operation>)
    ensures r.Some? ==> r.value.kind == Purge && r.value.documentId == documentId
    ensures r.None? <==> !exists id :: id in rows.operations && rows.operations[id].kind == Purge
                                       && rows.operations[id].documentId == documentId
    ensures r.Some? ==>
              && (exists id :: id in rows.operations && rows.operations[id] == r.value)
              && forall id :: id in rows.operations && rows.operations[id].kind == Purge
                              && rows.operations[id].documentId == documentId ==>
                   rows.operations[id].updatedAt <= r.value.updatedAt
  {
    var todo := rows.operations.Keys;
    r := None;
    while todo != {}
      invariant todo <= rows.operations.Keys
      invariant r.Some? ==> r.value.kind == Purge && r.value.documentId == documentId
                            && (exists id :: id in rows.operations && rows.operations[id] == r.value)
                            && forall id :: id in rows.operations && id !in todo && rows.operations[id].kind == Purge
                                            && rows.operations[id].documentId == documentId ==>
                                 rows.operations[id].updatedAt <= r.value.updatedAt
      invariant r.None? ==> forall id | id in rows.operations && rows.operations[id].kind == Purge
                                        && rows.operations[id].documentId == documentId :: id in todo
    {
      var id :| id in todo;
      if rows.operations[id].kind == Purge && rows.operations[id].documentId == documentId
         && (r.None? || r.value.updatedAt <= rows.operations[id].updatedAt) {
        r := Some(rows.operations[id]);
      }
      todo := todo - {id};
    }
  }

  /** `_purge`; deleting index rows and source objects happens outside any transaction and is not modelled. */
  method PurgeDocument(database: Database, documentId: string, operationId: string, key: string, lastVersionId: string)
    returns (r: Result<Operation>)
    requires database.Valid()
    modifies database
    ensures database.Valid() && Follows(old(database.world), database.world)
    ensures r.Ok? ==> r.value.kind == Purge && r.value.documentId == documentId
    ensures r.Ok? && documentId in old(database.rows).documents
            && old(database.rows).documents[documentId].status != DocumentStatus.Deleted ==>
              TookEffect(database.world, documentId, operationId)
  {
    var rows, at := database.rows, database.clock;
    if documentId !in rows.documents { return Err("document"); }
    var document := rows.documents[documentId];
    var versions := VersionsOf(rows, documentId);
    var read := PurgeRead(at, document, versions);
    ghost var w := database.world;
    assert DocumentOk(w, documentId);
    forall v | v in versions ensures versions[v].id == v { assert VersionOk(w, v); }
    database.Witness(ReadPurge(documentId));
    FollowsStep(w, w, ReadPurge(documentId));
    var now, _ := Work(database, read);
    FollowsGrows(w, database.world);
    if document.status == DocumentStatus.Deleted {
      var prior := FindPurge(database.rows, documentId);
      if prior.Some? { return Ok(prior.value); }
    }
    var p :- PlanPurge(read, operationId, key, lastVersionId, now);
    var _ :- StorePurge(database, p, document.revision, PurgeStep(read, operationId, key, lastVersionId, now));
    r := Ok(p.operation);
  }
}
