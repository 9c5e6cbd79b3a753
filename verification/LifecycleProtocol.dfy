/**
 * The document lifecycle as a step machine. Every transaction block of the services is one step;
 * whatever a service read in an earlier block stays available for ever in `views`, so that any number
 * of operations may be in flight on any documents, each acting as late and as often as it likes.
 */
module LifecycleProtocol {
  import opened Prelude
  import opened Documents
  import opened LifecycleRows

  /** A committed change of one document row, with the row before and after it. */
  datatype Commit = Commit(operationId: string, before: Document, after: Document)

  /**
   * `rows` is the database; `retention` and `historyRetention` are the two retention settings. `clock`, `views`
   * and the histories are not stored anywhere: `log` lists, per document, the committed changes, `genesis` is
   * its row after the first activation, and `published` holds every version that was ever current.
   */
  datatype World = World(
    rows: Rows,
    clock: int,
    retention: nat,
    historyRetention: nat,
    views: set<Snapshot>,
    genesis: map<string, Document>,
    log: map<string, seq<Commit>>,
    published: set<string>)

  datatype Step =
    | Tick(now: int)
    | RegisterStep(kind: Kind, documentId: string, versionId: string, operationId: string, key: string,
                   fingerprint: string, now: int)
    | IngestStep(versionId: string, status: VersionStatus, now: int)
    | ReadPublish(operationId: string)
    | PublishStep(read: Snapshot, indexVersionId: string, chunks: nat, now: int)
    | ReadRollback(documentId: string, versionId: string)
    | RollbackStep(read: Snapshot, operationId: string, key: string, fingerprint: string, now: int)
    | DeleteStep(documentId: string, operationId: string, key: string, fingerprint: string, now: int)
    | ReadRestore(documentId: string, choice: Option<string>)
    | RestoreStep(read: Snapshot, operationId: string, key: string, fingerprint: string, chunks: nat, now: int)
    | ReadPurge(documentId: string)
    | PurgeStep(read: Snapshot, operationId: string, key: string, lastVersionId: string, now: int)
    | WriteOperation(operationId: string, operationStatus: OperationStatus, now: int)
    | WriteEvent(operationId: string, eventStatus: EventStatus, attempts: nat, availableAt: int)

  /** Documents whose first activation is done, with no operation registered yet. */
  ghost predicate Init(w: World) {
    && w.rows.operations == map[] && w.rows.outbox == map[] && w.views == {}
    && w.genesis == w.rows.documents && w.published <= w.rows.versions.Keys
    && w.log == (map d | d in w.rows.documents :: [])
    && (forall d :: d in w.rows.documents ==> InitialDocument(w, d))
    && (forall v :: v in w.rows.versions ==> InitialVersion(w, v))
  }

  ghost predicate InitialDocument(w: World, d: string)
    requires d in w.rows.documents
  {
    var document := w.rows.documents[d];
    && document.id == d && document.WellFormed() && document.status == Active && document.purgeAfter.None?
    && document.updatedAt <= w.clock
    && document.currentVersionId.Some? && document.currentVersionId.value in w.rows.versions
    && var v := w.rows.versions[document.currentVersionId.value];
    && v.documentId == d && v.status == Ready && v.id in w.published
  }

  ghost predicate InitialVersion(w: World, v: string)
    requires v in w.rows.versions
  {
    var version := w.rows.versions[v];
    && version.id == v && version.updatedAt <= w.clock
    && version.documentId in w.rows.documents
    && version.knowledgeBaseId == w.rows.documents[version.documentId].knowledgeBaseId
    && version.status != Superseded
    && (v in w.published ==> w.rows.documents[version.documentId].currentVersionId == Some(v))
  }

  // ---------------------------------------------------------------------------
  // Reads
  // ---------------------------------------------------------------------------

  function Lookup<T>(m: map<string, T>, key: Option<string>): Option<T> {
    if key.Some? && key.value in m then Some(m[key.value]) else None
  }

  function Remember(w: World, read: Snapshot): World {
    w.(views := w.views + {read})
  }

  /** `_load` of the publisher. */
  function TakePublishRead(w: World, operationId: string): Option<Snapshot> {
    if operationId !in w.rows.operations then None
    else
      var op := w.rows.operations[operationId];
      if op.documentId !in w.rows.documents || op.versionId !in w.rows.versions then None
      else Some(PublishRead(w.clock, op, w.rows.documents[op.documentId], w.rows.versions[op.versionId],
                            Lookup(w.rows.versions, op.previousVersionId)))
  }

  function TakeRollbackRead(w: World, documentId: string, versionId: string): Option<Snapshot> {
    if documentId !in w.rows.documents || versionId !in w.rows.versions then None
    else Some(RollbackRead(w.clock, w.rows.documents[documentId], w.rows.versions[versionId]))
  }

  function TakeRestoreRead(w: World, documentId: string, choice: Option<string>): Option<Snapshot> {
    if documentId !in w.rows.documents then None
    else
      var deletion := Lookup(w.rows.operations, choice);
      var target := if deletion.Some? then Lookup(w.rows.versions, deletion.value.previousVersionId) else None;
      Some(RestoreRead(w.clock, w.rows.documents[documentId], deletion, target))
  }

  function TakePurgeRead(w: World, documentId: string): Option<Snapshot> {
    if documentId !in w.rows.documents then None
    else Some(PurgeRead(w.clock, w.rows.documents[documentId], VersionsOf(w.rows, documentId)))
  }

  // ---------------------------------------------------------------------------
  // Writes
  // ---------------------------------------------------------------------------

  /** The clock was read after the rows and before this transaction. */
  predicate Timed(w: World, read: Snapshot, now: int) {
    read in w.views && read.at < now <= w.clock
  }

  function History(w: World, d: string): seq<Commit> {
    if d in w.log then w.log[d] else []
  }

  /** Install committed rows in which document `d` was changed by operation `operationId`. */
  function Committed(w: World, rows: Rows, d: string, operationId: string, versionId: Option<string>): World
    requires d in rows.documents && d in w.rows.documents
  {
    w.(rows := rows,
       log := w.log[d := History(w, d) + [Commit(operationId, w.rows.documents[d], rows.documents[d])]],
       published := w.published + (if versionId.Some? then {versionId.value} else {}))
  }

  function AfterPublish(w: World, read: Snapshot, indexVersionId: string, chunks: nat, now: int): World
    requires read.PublishRead?
  {
    if !Timed(w, read, now) || read.operation.status == Succeeded then w
    else
      match PlanPublication(read, now, indexVersionId, chunks, w.historyRetention)
      case Err(_) => w
      case Ok(p) =>
        match CommitPublication(w.rows, p, read.document.revision)
        case Err(_) => w
        case Ok(rows) =>
          Committed(w, rows, p.active.id, p.operation.id, Some(p.ready.id))
  }

  function AfterDelete(w: World, documentId: string, operationId: string, key: string, fingerprint: string,
                       now: int): World {
    if now <= w.clock then w
    else
      match CommitDeletion(w.rows, documentId, operationId, key, fingerprint, now, w.retention)
      case Err(_) => w
      case Ok(rows) =>
        Committed(w, rows, documentId, operationId, None).(clock := now)
  }

  function AfterRestore(w: World, read: Snapshot, operationId: string, key: string, fingerprint: string, chunks: nat,
                     now: int): World
    requires read.RestoreRead?
  {
    if !Timed(w, read, now) then w
    else
      match PlanRestoration(read, operationId, key, fingerprint, now, chunks)
      case Err(_) => w
      case Ok(p) =>
        match CommitRestoration(w.rows, p, read.deletion, read.document.revision)
        case Err(_) => w
        case Ok(rows) =>
          Committed(w, rows, p.restored.id, operationId, Some(p.ready.id))
  }

  /** A document already DELETED whose PURGE operation exists is reported, not purged again. */
  predicate AlreadyPurged(w: World, read: Snapshot) {
    && read.document.status == DocumentStatus.Deleted
    && exists id :: id in w.rows.operations && w.rows.operations[id].kind == Purge
                    && w.rows.operations[id].documentId == read.document.id
  }

  function AfterPurge(w: World, read: Snapshot, operationId: string, key: string, lastVersionId: string,
                      now: int): World
    requires read.PurgeRead?
  {
    if !Timed(w, read, now) || AlreadyPurged(w, read) then w
    else
      match PlanPurge(read, operationId, key, lastVersionId, now)
      case Err(_) => w
      case Ok(p) =>
        match CommitPurge(w.rows, p, read.document.revision)
        case Err(_) => w
        case Ok(rows) =>
          Committed(w, rows, p.purged.id, operationId, None)
  }

  function AfterRegister(w: World, s: Step): World
    requires s.RegisterStep?
  {
    if s.now <= w.clock || !(s.kind == Update || s.kind == Reparse) then w
    else
      match RegisterCandidate(w.rows, s.kind, s.documentId, s.versionId, s.operationId, s.key, s.fingerprint, s.now)
      case Err(_) => w
      case Ok(rows) => w.(rows := rows, clock := s.now)
  }

  function AfterRollback(w: World, s: Step): World
    requires s.RollbackStep? && s.read.RollbackRead?
  {
    if !Timed(w, s.read, s.now) then w
    else
      match RegisterRollback(w.rows, s.read, s.operationId, s.key, s.fingerprint, s.now)
      case Err(_) => w
      case Ok(rows) => w.(rows := rows)
  }

  /** The worker moves a candidate that was never current to any processing state. */
  function AfterIngest(w: World, versionId: string, status: VersionStatus, now: int): World {
    if versionId in w.rows.versions && versionId !in w.published && w.clock < now
       && status in {VersionStatus.Ingesting, Ready, VersionStatus.Failed} then
      var v := w.rows.versions[versionId];
      w.(rows := w.rows.(versions := w.rows.versions[versionId :=
                   v.(status := status, revision := v.revision + 1, updatedAt := now)]),
         clock := now)
    else w
  }

  /** Operation `o` changed document `d` at some point of the history. */
  predicate TookEffect(w: World, d: string, o: string) {
    d in w.log && exists i :: 0 <= i < |w.log[d]| && w.log[d][i].operationId == o
  }

  /**
   * Progress, failure and cancellation rewrite status and timestamp of an operation row, from any earlier read. None of
   * them makes an operation SUCCEEDED; progress may write back that it is.
   */
  function AfterOperationWrite(w: World, operationId: string, status: OperationStatus, now: int): World {
    if operationId in w.rows.operations && w.clock < now
       && (status == Succeeded ==> TookEffect(w, w.rows.operations[operationId].documentId, operationId)) then
      var op := w.rows.operations[operationId];
      w.(rows := w.rows.(operations := w.rows.operations[operationId := op.(status := status, updatedAt := now)]),
         clock := now)
    else w
  }

  /** The outbox dispatcher writes back whole event rows, also over a cancellation it did not see. */
  function AfterEventWrite(w: World, operationId: string, status: EventStatus, attempts: nat, availableAt: int): World {
    if operationId in w.rows.outbox then
      var e := w.rows.outbox[operationId].(status := status, attempts := attempts, availableAt := availableAt);
      w.(rows := w.rows.(outbox := w.rows.outbox[operationId := e]))
    else w
  }

  function Recalled(w: World, read: Option<Snapshot>): World {
    if read.Some? then Remember(w, read.value) else w
  }

  /** One step. A step that raises, or whose compare-and-set fails, leaves the world as it is. */
  ghost function Perform(w: World, s: Step): World {
    match s
    case Tick(now) => if w.clock < now then w.(clock := now) else w
    case RegisterStep(_, _, _, _, _, _, _) => AfterRegister(w, s)
    case IngestStep(v, status, now) => AfterIngest(w, v, status, now)
    case ReadPublish(id) => Recalled(w, TakePublishRead(w, id))
    case PublishStep(read, index, chunks, now) =>
      if read.PublishRead? then AfterPublish(w, read, index, chunks, now) else w
    case ReadRollback(d, v) => Recalled(w, TakeRollbackRead(w, d, v))
    case RollbackStep(read, _, _, _, _) => if read.RollbackRead? then AfterRollback(w, s) else w
    case DeleteStep(d, id, key, fp, now) => AfterDelete(w, d, id, key, fp, now)
    case ReadRestore(d, choice) =>
      if IsLatestDeletion(w.rows, d, choice) then Recalled(w, TakeRestoreRead(w, d, choice)) else w
    case RestoreStep(read, id, key, fp, chunks, now) =>
      if read.RestoreRead? then AfterRestore(w, read, id, key, fp, chunks, now) else w
    case ReadPurge(d) => Recalled(w, TakePurgeRead(w, d))
    case PurgeStep(read, id, key, last, now) =>
      if read.PurgeRead? then AfterPurge(w, read, id, key, last, now) else w
    case WriteOperation(id, status, now) => AfterOperationWrite(w, id, status, now)
    case WriteEvent(id, status, attempts, availableAt) => AfterEventWrite(w, id, status, attempts, availableAt)
  }

  ghost function Execute(w: World, steps: seq<Step>): World
    decreases |steps|
  {
    if steps == [] then w else Execute(Perform(w, steps[0]), steps[1..])
  }

  /** A step that rewrites the row of a DELETE operation, as cancelling it does. */
  predicate TouchesDeletion(w: World, s: Step) {
    s.WriteOperation? && s.operationId in w.rows.operations && w.rows.operations[s.operationId].kind == Delete
  }

  ghost predicate NeverTouchesDeletions(w: World, steps: seq<Step>)
    decreases |steps|
  {
    steps == [] || (!TouchesDeletion(w, steps[0]) && NeverTouchesDeletions(Perform(w, steps[0]), steps[1..]))
  }

  /** A set of worlds that no step leaves. */
  ghost predicate Closed(worlds: iset<World>) {
    forall w, s {:trigger Perform(w, s)} :: w in worlds ==> Perform(w, s) in worlds
  }

  /** `w'` is reached from `w`: it lies in every closed set of worlds that `w` lies in. */
  ghost predicate Follows(w: World, w': World) {
    forall worlds: iset<World> :: Closed(worlds) && w in worlds ==> w' in worlds
  }

  lemma FollowsStep(w: World, w': World, s: Step)
    requires Follows(w, w')
    ensures Follows(w, Perform(w', s))
  {
  }

  lemma {:induction false} ExecuteAppends(w: World, steps: seq<Step>, s: Step)
    ensures Execute(w, steps + [s]) == Perform(Execute(w, steps), s)
    decreases |steps|
  {
    if steps == [] {
      assert (steps + [s])[1..] == [];
    } else {
      assert (steps + [s])[1..] == steps[1..] + [s];
      ExecuteAppends(Perform(w, steps[0]), steps[1..], s);
    }
  }

  ghost predicate ExecutesTo(w: World, steps: seq<Step>, w': World) {
    w' == Execute(w, steps)
  }

  ghost predicate ReachedFrom(w: World, w': World) {
    exists steps :: ExecutesTo(w, steps, w')
  }

  lemma OneStepFurther(w: World, w': World, s: Step)
    requires ReachedFrom(w, w')
    ensures ReachedFrom(w, Perform(w', s))
  {
    var steps :| ExecutesTo(w, steps, w');
    ExecuteAppends(w, steps, s);
    assert ExecutesTo(w, steps + [s], Perform(w', s));
  }

  /** Following is executing: nothing but finite sequences of steps leads from one world to another. */
  lemma FollowsIsExecution(w: World, w': World)
    ensures Follows(w, w') <==> ReachedFrom(w, w')
  {
    if Follows(w, w') {
      var worlds := iset x | ReachedFrom(w, x);
      assert ExecutesTo(w, [], w);
      forall x, s | x in worlds ensures Perform(x, s) in worlds { OneStepFurther(w, x, s); }
      assert Closed(worlds) && w in worlds;
      assert w' in worlds;
    }
    if ReachedFrom(w, w') {
      var steps :| ExecutesTo(w, steps, w');
      ExecutionFollows(w, w, steps);
    }
  }

  lemma {:induction false} ExecutionFollows(w: World, w': World, steps: seq<Step>)
    requires Follows(w, w')
    ensures Follows(w, Execute(w', steps))
    decreases |steps|
  {
    if steps != [] {
      FollowsStep(w, w', steps[0]);
      ExecutionFollows(w, Perform(w', steps[0]), steps[1..]);
    }
  }
}
