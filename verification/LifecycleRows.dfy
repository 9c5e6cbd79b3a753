/** The authority rows and the transactions the lifecycle services commit on them. */
module LifecycleRows {
  import opened Prelude
  import opened Documents

  datatype Kind = Update | Reparse | Rollback | Delete | Restore | Purge

  datatype OperationStatus =
    | Pending | Running | WaitingRetry | CancelRequested | Cancelled | Succeeded | Failed | DeadLetter

  datatype Operation = Operation(
    id: string,
    documentId: string,
    versionId: string,
    kind: Kind,
    idempotencyKey: string,
    fingerprint: string,
    status: OperationStatus,
    expectedRevision: nat,
    fencingToken: nat,
    previousVersionId: Option<string>,
    purgeAfter: Option<int>,
    updatedAt: int)

  datatype EventType = IngestionRequested | CleanupRequested

  datatype EventStatus = Pending | Published | Cancelled | DeadLetter

  datatype Event = Event(
    operationId: string,
    documentId: string,
    eventType: EventType,
    status: EventStatus,
    attempts: nat,
    availableAt: int)

  /** One tenant's rows. An outbox event is keyed by the operation that raised it. */
  datatype Rows = Rows(
    documents: map<string, Document>,
    versions: map<string, Version>,
    operations: map<string, Operation>,
    outbox: map<string, Event>)

  // ---------------------------------------------------------------------------
  // What a service read before it left its first transaction
  // ---------------------------------------------------------------------------

  datatype Snapshot =
    | PublishRead(at: int, operation: Operation, document: Document, version: Version, previous: Option<Version>)
    | RollbackRead(at: int, document: Document, historical: Version)
    | RestoreRead(at: int, document: Document, deletion: Option<Operation>, target: Option<Version>)
    | PurgeRead(at: int, document: Document, versions: map<string, Version>)

  // ---------------------------------------------------------------------------
  // Repository primitives
  // ---------------------------------------------------------------------------

  predicate KeyTaken(rows: Rows, key: string) {
    exists id :: id in rows.operations && rows.operations[id].idempotencyKey == key
  }

  /** `add` on the operation table: the primary key and the idempotency key are both unique. */
  function AddOperation(rows: Rows, operation: Operation): Result<Rows> {
    if operation.id in rows.operations || KeyTaken(rows, operation.idempotencyKey) then Err("knowledge_resource_exists")
    else Ok(rows.(operations := rows.operations[operation.id := operation]))
  }

  function SaveVersion(rows: Rows, version: Version): Result<Rows> {
    if version.id !in rows.versions then Err("knowledge_resource")
    else Ok(rows.(versions := rows.versions[version.id := version]))
  }

  function SaveOperation(rows: Rows, operation: Operation): Result<Rows> {
    if operation.id !in rows.operations then Err("knowledge_resource")
    else Ok(rows.(operations := rows.operations[operation.id := operation]))
  }

  /** The compare-and-set on the document revision: the only lock there is. */
  function SaveIfRevision(rows: Rows, document: Document, expected: nat): (r: Result<Rows>)
    ensures r.Ok? ==> document.id in rows.documents && r.value.documents.Keys == rows.documents.Keys
  {
    if document.id !in rows.documents || rows.documents[document.id].revision != expected then
      Err("document_revision_conflict")
    else Ok(rows.(documents := rows.documents[document.id := document]))
  }

  function VersionsOf(rows: Rows, documentId: string): (r: map<string, Version>) {
    map id | id in rows.versions && rows.versions[id].documentId == documentId :: rows.versions[id]
  }

  // ---------------------------------------------------------------------------
  // Publication (publish.py)
  // ---------------------------------------------------------------------------

  /** What `complete_ingestion` computes between its two transactions. */
  datatype Publication = Publication(
    ready: Version, retired: Option<Version>, active: Document, operation: Operation)

  function ReadyCandidate(version: Version, now: int): Result<Version> {
    if version.status == Ready then Ok(version) else TransitionVersion(version, Ready, now)
  }

  function RetiredPrevious(previous: Option<Version>, readyId: string, now: int, retention: nat)
    : Result<Option<Version>>
  {
    if previous.Some? && previous.value.id != readyId then
      match TransitionVersion(previous.value, Superseded, now)
      case Err(code) => Err(code)
      case Ok(v) => Ok(Some(v.(retiredAt := Some(now), purgeAfter := Some(now + retention))))
    else Ok(None)
  }

  /** `chunks` is what the search projection answered when asked to validate the candidate. */
  function PlanPublication(read: Snapshot, now: int, indexVersionId: string, chunks: nat, retention: nat)
    : Result<Publication>
    requires read.PublishRead?
  {
    var op := read.operation;
    if read.document.status != Active then Err("document_deleted")
    else if read.document.revision != op.expectedRevision then Err("document_revision_conflict")
    else if chunks < 1 then Err("lifecycle_candidate_empty")
    else
      match ReadyCandidate(read.version, now)
      case Err(code) => Err(code)
      case Ok(candidate) =>
        var ready := candidate.(indexVersionId := Some(indexVersionId), activatedAt := Some(now));
        match ActivateVersion(read.document, ready, now, Some(op.expectedRevision))
        case Err(code) => Err(code)
        case Ok(active) =>
          match RetiredPrevious(read.previous, ready.id, now, retention)
          case Err(code) => Err(code)
          case Ok(retired) =>
            Ok(Publication(ready, retired, active, op.(status := Succeeded, updatedAt := now)))
  }

  function CommitPublication(rows: Rows, p: Publication, expected: nat): (r: Result<Rows>)
    ensures r.Ok? ==> p.active.id in rows.documents && r.value.documents.Keys == rows.documents.Keys
  {
    match SaveVersion(rows, p.ready)
    case Err(code) => Err(code)
    case Ok(r1) =>
      match (if p.retired.Some? then SaveVersion(r1, p.retired.value) else Ok(r1))
      case Err(code) => Err(code)
      case Ok(r2) =>
        match SaveIfRevision(r2, p.active, expected)
        case Err(code) => Err(code)
        case Ok(r3) => SaveOperation(r3, p.operation)
  }

  // ---------------------------------------------------------------------------
  // Registration and rollback commands (update.py, publish.py)
  // ---------------------------------------------------------------------------

  function NewVersion(id: string, document: Document, now: int): Version {
    Version(id, document.knowledgeBaseId, document.id, Registered, 0, None, None, None, None, now)
  }

  function NewOperation(id: string, document: Document, versionId: string, kind: Kind, key: string,
                        fingerprint: string, now: int): Operation
  {
    Operation(id, document.id, versionId, kind, key, fingerprint, OperationStatus.Pending, document.revision,
              document.revision + 1, document.currentVersionId, None, now)
  }

  /** The single transaction of `_register`: candidate version, operation and outbox event. */
  function RegisterCandidate(rows: Rows, kind: Kind, documentId: string, versionId: string, operationId: string,
                             key: string, fingerprint: string, now: int): Result<Rows>
  {
    if documentId !in rows.documents then Err("document")
    else
      var document := rows.documents[documentId];
      if document.currentVersionId.None? then Err("document_has_no_active_version")
      else if versionId in rows.versions || operationId in rows.outbox then Err("knowledge_resource_exists")
      else
        match AddOperation(rows, NewOperation(operationId, document, versionId, kind, key, fingerprint, now))
        case Err(code) => Err(code)
        case Ok(r) =>
          Ok(r.(versions := r.versions[versionId := NewVersion(versionId, document, now)],
                outbox := r.outbox[operationId := Event(operationId, documentId, IngestionRequested,
                                                        EventStatus.Pending, 0, now)]))
  }

  /** Registering a rollback writes the operation computed from the earlier read, unchecked. */
  function RegisterRollback(rows: Rows, read: Snapshot, operationId: string, key: string, fingerprint: string, now: int)
    : Result<Rows>
    requires read.RollbackRead?
  {
    if read.historical.documentId != read.document.id || read.historical.status != Superseded then
      Err("rollback_target_invalid")
    else
      AddOperation(rows, NewOperation(operationId, read.document, read.historical.id, Rollback, key, fingerprint, now))
  }

  // ---------------------------------------------------------------------------
  // Deletion, restoration and purge (delete.py)
  // ---------------------------------------------------------------------------

  function Tombstone(document: Document, now: int, retention: nat): Document {
    document.(status := DeletePending, currentVersionId := None, revision := document.revision + 1,
              deletedAt := Some(now), purgeAfter := Some(now + retention), updatedAt := now)
  }

  /** The single transaction of `request_delete`. */
  function CommitDeletion(rows: Rows, documentId: string, operationId: string, key: string, fingerprint: string,
                          now: int, retention: nat): (r: Result<Rows>)
    ensures r.Ok? ==> documentId in rows.documents && r.value.documents.Keys >= rows.documents.Keys
  {
    if documentId !in rows.documents then Err("document")
    else
      var document := rows.documents[documentId];
      if document.status != Active || document.currentVersionId.None? then Err("document_deleted")
      else if operationId in rows.outbox then Err("knowledge_resource_exists")
      else
        var op := NewOperation(operationId, document, document.currentVersionId.value, Delete, key, fingerprint, now)
                    .(purgeAfter := Some(now + retention));
        match SaveIfRevision(rows, Tombstone(document, now, retention), document.revision)
        case Err(code) => Err(code)
        case Ok(r1) =>
          match AddOperation(r1, op)
          case Err(code) => Err(code)
          case Ok(r2) =>
            Ok(r2.(outbox := r2.outbox[operationId := Event(operationId, documentId, CleanupRequested,
                                                            EventStatus.Pending, 0, now + retention)]))
  }

  /** `restore` takes the last DELETE operation in `updated_at` order. */
  ghost predicate IsLatestDeletion(rows: Rows, documentId: string, choice: Option<string>) {
    match choice
    case None => forall id :: id in rows.operations ==> !IsDeletionOf(rows, id, documentId)
    case Some(c) =>
      IsDeletionOf(rows, c, documentId)
      && forall id :: IsDeletionOf(rows, id, documentId) ==>
           rows.operations[id].updatedAt <= rows.operations[c].updatedAt
  }

  predicate IsDeletionOf(rows: Rows, operationId: string, documentId: string) {
    && operationId in rows.operations
    && rows.operations[operationId].documentId == documentId
    && rows.operations[operationId].kind == Delete
  }

  datatype Restoration = Restoration(ready: Version, restored: Document, operation: Operation)

  function PlanRestoration(read: Snapshot, operationId: string, key: string, fingerprint: string, now: int, chunks: nat)
    : Result<Restoration>
    requires read.RestoreRead?
  {
    var document := read.document;
    if document.status != DeletePending || document.purgeAfter.None? || now >= document.purgeAfter.value
       || read.target.None? || read.target.value.status == VersionStatus.Deleted then
      Err("document_restore_expired")
    else if chunks < 1 then Err("rollback_target_invalid")
    else
      var target := read.target.value;
      match (if target.status == Superseded then TransitionVersion(target, Ready, now) else Ok(target))
      case Err(code) => Err(code)
      case Ok(ready) =>
        var base := document.(status := Active, deletedAt := None, purgeAfter := None, updatedAt := now);
        match ActivateVersion(base, ready, now, Some(document.revision))
        case Err(code) => Err(code)
        case Ok(restored) =>
          Ok(Restoration(ready, restored,
                         Operation(operationId, document.id, ready.id, Restore, key, fingerprint, Succeeded,
                                   document.revision, document.revision + 1, None, None, now)))
  }

  function CancelCleanup(rows: Rows, deletion: Option<Operation>): Rows {
    if deletion.Some? && deletion.value.id in rows.outbox && rows.outbox[deletion.value.id].status.Pending? then
      rows.(outbox := rows.outbox[deletion.value.id :=
                                  rows.outbox[deletion.value.id].(status := EventStatus.Cancelled)])
    else rows
  }

  function CommitRestoration(rows: Rows, p: Restoration, deletion: Option<Operation>, expected: nat)
    : (r: Result<Rows>)
    ensures r.Ok? ==> p.restored.id in rows.documents && r.value.documents.Keys == rows.documents.Keys
  {
    match SaveVersion(rows, p.ready)
    case Err(code) => Err(code)
    case Ok(r1) =>
      match SaveIfRevision(r1, p.restored, expected)
      case Err(code) => Err(code)
      case Ok(r2) =>
        match AddOperation(r2, p.operation)
        case Err(code) => Err(code)
        case Ok(r3) => Ok(CancelCleanup(r3, deletion))
  }

  function DeletedCopy(version: Version, now: int): Version {
    if version.status == VersionStatus.Deleted then version
    else version.(status := VersionStatus.Deleted, revision := version.revision + 1, updatedAt := now)
  }

  datatype Purging = Purging(versions: map<string, Version>, purged: Document, operation: Operation)

  /** What `_purge` writes; the key of the operation is derived from document id and revision. */
  function PlanPurge(read: Snapshot, operationId: string, key: string, lastVersionId: string, now: int): Result<Purging>
    requires read.PurgeRead?
  {
    var document := read.document;
    if document.purgeAfter.None? || now < document.purgeAfter.value then Err("document_retention_active")
    else if exists id :: id in read.versions && now < read.versions[id].updatedAt
                         && read.versions[id].status != VersionStatus.Deleted then
      Err("document_version_timestamp_regression")
    else
      Ok(Purging(map id | id in read.versions :: DeletedCopy(read.versions[id], now),
                 document.(status := DocumentStatus.Deleted, revision := document.revision + 1, updatedAt := now),
                 Operation(operationId, document.id, lastVersionId, Purge, key, "", Succeeded,
                           document.revision, document.revision + 1, None, None, now)))
  }

  function CommitPurge(rows: Rows, p: Purging, expected: nat): (r: Result<Rows>)
    ensures r.Ok? ==> p.purged.id in rows.documents && r.value.documents.Keys == rows.documents.Keys
  {
    if !(p.versions.Keys <= rows.versions.Keys) then Err("knowledge_resource")
    else
      match SaveIfRevision(rows.(versions := rows.versions + p.versions), p.purged, expected)
      case Err(code) => Err(code)
      case Ok(r) => AddOperation(r, p.operation)
  }
}
