/** Logical documents, immutable content versions and their lifecycle edges. */
module Documents {
  import opened Prelude

  datatype DocumentStatus = Active | DeletePending | Deleted

  datatype VersionStatus = Registered | Ingesting | Ready | Failed | Superseded | Deleted

  /** Timestamps are integers; `createdAt` never changes and is left out. */
  datatype Document = Document(
    id: string,
    knowledgeBaseId: string,
    status: DocumentStatus,
    currentVersionId: Option<string>,
    revision: nat,
    deletedAt: Option<int>,
    purgeAfter: Option<int>,
    updatedAt: int)
  {
    /** What loading a stored row validates; a row that fails this cannot be read back. */
    predicate WellFormed() {
      && (!status.Active? ==> currentVersionId.None? && deletedAt.Some?)
      && (status.Active? ==> deletedAt.None?)
      && (purgeAfter.Some? ==> deletedAt.Some?)
    }
  }

  datatype Version = Version(
    id: string,
    knowledgeBaseId: string,
    documentId: string,
    status: VersionStatus,
    revision: nat,
    indexVersionId: Option<string>,
    activatedAt: Option<int>,
    retiredAt: Option<int>,
    purgeAfter: Option<int>,
    updatedAt: int)

  function Successors(status: VersionStatus): set<VersionStatus> {
    match status
    case Registered => {Ingesting, VersionStatus.Deleted}
    case Ingesting => {Ready, Failed, VersionStatus.Deleted}
    case Ready => {Superseded, VersionStatus.Deleted}
    case Failed => {Ingesting, VersionStatus.Deleted}
    case Superseded => {Ready, VersionStatus.Deleted}
    case Deleted => {}
  }

  function TransitionVersion(version: Version, target: VersionStatus, changedAt: int): Result<Version> {
    if changedAt < version.updatedAt then Err("document_version_timestamp_regression")
    else if target == version.status then Ok(version)
    else if target !in Successors(version.status) then Err("document_version_transition_invalid")
    else Ok(version.(status := target, revision := version.revision + 1, updatedAt := changedAt))
  }

  function ActivateVersion(document: Document, version: Version, changedAt: int, expectedRevision: Option<nat>)
    : Result<Document>
  {
    if changedAt < document.updatedAt then Err("document_timestamp_regression")
    else if (document.knowledgeBaseId, document.id) != (version.knowledgeBaseId, version.documentId) then
      Err("document_version_scope_mismatch")
    else if version.status != Ready then Err("document_version_not_ready")
    else if document.status != Active then Err("document_deleted")
    else if expectedRevision.Some? && document.revision != expectedRevision.value then
      Err("document_revision_conflict")
    else
      Ok(document.(currentVersionId := Some(version.id), revision := document.revision + 1, updatedAt := changedAt))
  }
}
