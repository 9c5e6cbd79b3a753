/**
 * Cancelling a DELETE operation moves its `updated_at`, which is what `restore` sorts by. This module has a
 * run in which that makes `restore` bring back the wrong version.
 */
module LifecycleCancellation {
  import opened Prelude
  import opened Documents
  import opened LifecycleRows
  import opened LifecycleProtocol
  import opened LifecycleFencing
  import opened LifecycleSafety
  import opened LifecycleGuarantees

  // ---------------------------------------------------------------------------
  // The run
  // ---------------------------------------------------------------------------

  const OPENING: Document := Document("d", "kb", Active, Some("v1"), 1, None, None, 0)
  const FIRST: Version := Version("v1", "kb", "d", Ready, 2, None, None, None, None, 0)

  const START: World := World(
    Rows(map["d" := OPENING], map["v1" := FIRST], map[], map[]),
    0, 100, 100, {}, map["d" := OPENING], map["d" := []], {"v1"})

  lemma StartIsInitial()
    ensures Init(START)
  {
    assert InitialDocument(START, "d") && InitialVersion(START, "v1");
  }

  ghost predicate Reachable(w: World) {
    exists w0 :: Init(w0) && ReachedFrom(w0, w)
  }

  /** Delete document "d" at time `now`. */
  lemma RunDelete(worlds: iset<World>, w: World, id: string, key: string, now: int) returns (w': World)
    requires Closed(worlds) && w in worlds && w.clock < now && w.retention == 100
    requires "d" in w.rows.documents && w.rows.documents["d"].status == Active
    requires w.rows.documents["d"].id == "d" && w.rows.documents["d"].currentVersionId.Some?
    requires id !in w.rows.operations && id !in w.rows.outbox && !KeyTaken(w.rows, key)
    ensures w' in worlds && w'.clock == now && w'.retention == 100
    ensures w'.rows.documents == w.rows.documents["d" := Tombstone(w.rows.documents["d"], now, 100)]
    ensures w'.rows.versions == w.rows.versions
    ensures w'.rows.outbox.Keys == w.rows.outbox.Keys + {id} && w'.published == w.published
    ensures w'.rows.operations == w.rows.operations[id :=
              NewOperation(id, w.rows.documents["d"], w.rows.documents["d"].currentVersionId.value, Delete, key, "",
                           now)
                .(purgeAfter := Some(now + 100))]
  {
    w' := Perform(w, DeleteStep("d", id, key, "", now));
  }

  /** Read something, let time pass, and use it. */
  lemma RunRead(worlds: iset<World>, w: World, s: Step, read: Snapshot, now: int) returns (w': World)
    requires Closed(worlds) && w in worlds && w.clock < now && Perform(w, s) == Remember(w, read)
    ensures w' in worlds && w' == Remember(w, read).(clock := now)
  {
    w' := Perform(Perform(w, s), Tick(now));
  }

  ghost predicate Restorable(w: World, v: string, now: int) {
    && "d" in w.rows.documents && w.rows.documents["d"].status == DeletePending
    && w.rows.documents["d"].id == "d" && w.rows.documents["d"].knowledgeBaseId == "kb"
    && w.rows.documents["d"].purgeAfter.Some? && now < w.rows.documents["d"].purgeAfter.value
    && v in w.rows.versions && w.rows.versions[v].id == v && w.rows.versions[v].documentId == "d"
    && w.rows.versions[v].knowledgeBaseId == "kb" && w.rows.versions[v].updatedAt <= now
    && w.rows.versions[v].status in {Ready, Superseded}
  }

  lemma RestorationOf(read: Snapshot, document: Document, target: Version, id: string, key: string, now: int)
    returns (p: Restoration)
    requires read.RestoreRead? && read.document == document && read.target == Some(target)
    requires document.status == DeletePending && document.id == "d" && document.knowledgeBaseId == "kb"
    requires document.purgeAfter.Some? && now < document.purgeAfter.value
    requires target.documentId == "d" && target.knowledgeBaseId == "kb" && target.updatedAt <= now
    requires target.status in {Ready, Superseded}
    ensures PlanRestoration(read, id, key, "", now, 1) == Ok(p)
    ensures SameContent(p.ready, target) && p.ready.status == Ready && p.ready.updatedAt <= now
    ensures p.restored == Document("d", "kb", Active, Some(target.id), document.revision + 1, None, None, now)
    ensures p.operation == Operation(id, "d", target.id, Restore, key, "", Succeeded, document.revision,
                                     document.revision + 1, None, None, now)
  {
    p := PlanRestoration(read, id, key, "", now, 1).value;
  }

  lemma CommitOf(rows: Rows, p: Restoration, deletion: Option<Operation>, expected: nat) returns (rows': Rows)
    requires p.ready.id in rows.versions && p.restored.id in rows.documents
    requires rows.documents[p.restored.id].revision == expected
    requires p.operation.id !in rows.operations && !KeyTaken(rows, p.operation.idempotencyKey)
    ensures CommitRestoration(rows, p, deletion, expected) == Ok(rows')
    ensures rows'.documents == rows.documents[p.restored.id := p.restored]
    ensures rows'.versions == rows.versions[p.ready.id := p.ready]
    ensures rows'.operations == rows.operations[p.operation.id := p.operation]
    ensures rows'.outbox.Keys == rows.outbox.Keys
  {
    rows' := CommitRestoration(rows, p, deletion, expected).value;
  }

  lemma RestoreFrom(worlds: iset<World>, w: World, read: Snapshot, v: string, id: string, key: string, now: int)
    returns (w': World)
    requires Closed(worlds) && w in worlds && w.clock == now && read in w.views && read.RestoreRead? && read.at < now
    requires Restorable(w, v, now) && read.document == w.rows.documents["d"] && read.target == Some(w.rows.versions[v])
    requires id !in w.rows.operations && !KeyTaken(w.rows, key)
    ensures w' in worlds && w'.clock == now && w'.retention == w.retention && w'.published == w.published + {v}
    ensures w'.rows.documents == w.rows.documents["d" :=
              Document("d", "kb", Active, Some(v), w.rows.documents["d"].revision + 1, None, None, now)]
    ensures w'.rows.versions.Keys == w.rows.versions.Keys
    ensures forall x :: x in w.rows.versions && x != v ==> w'.rows.versions[x] == w.rows.versions[x]
    ensures SameContent(w.rows.versions[v], w'.rows.versions[v]) && w'.rows.versions[v].status == Ready
    ensures w'.rows.versions[v].updatedAt <= now && w'.rows.outbox.Keys == w.rows.outbox.Keys
    ensures w'.rows.operations == w.rows.operations[id :=
              Operation(id, "d", v, Restore, key, "", Succeeded, w.rows.documents["d"].revision,
                        w.rows.documents["d"].revision + 1, None, None, now)]
  {
    var s := RestoreStep(read, id, key, "", 1, now);
    var p := RestorationOf(read, w.rows.documents["d"], w.rows.versions[v], id, key, now);
    var rows := CommitOf(w.rows, p, read.deletion, read.document.revision);
    w' := Perform(w, s);
    assert w' == Committed(w, rows, "d", id, Some(v));
  }

  /** Restore document "d" at time `now` from the deletion `op`. */
  lemma RunRestore(worlds: iset<World>, w: World, op: string, v: string, id: string, key: string, now: int)
    returns (w': World)
    requires Closed(worlds) && w in worlds && w.clock < now && Restorable(w, v, now)
             && w.rows.documents["d"].updatedAt <= now
    requires IsLatestDeletion(w.rows, "d", Some(op)) && w.rows.operations[op].previousVersionId == Some(v)
    requires id !in w.rows.operations && !KeyTaken(w.rows, key)
    ensures w' in worlds && w'.clock == now && w'.retention == w.retention && w'.published == w.published + {v}
    ensures w'.rows.documents == w.rows.documents["d" :=
              Document("d", "kb", Active, Some(v), w.rows.documents["d"].revision + 1, None, None, now)]
    ensures w'.rows.versions.Keys == w.rows.versions.Keys
    ensures forall x :: x in w.rows.versions && x != v ==> w'.rows.versions[x] == w.rows.versions[x]
    ensures SameContent(w.rows.versions[v], w'.rows.versions[v]) && w'.rows.versions[v].status == Ready
    ensures w'.rows.versions[v].updatedAt <= now && w'.rows.outbox.Keys == w.rows.outbox.Keys
    ensures w'.rows.operations == w.rows.operations[id :=
              Operation(id, "d", v, Restore, key, "", Succeeded, w.rows.documents["d"].revision,
                        w.rows.documents["d"].revision + 1, None, None, now)]
  {
    var read := TakeRestoreRead(w, "d", Some(op)).value;
    var w1 := RunRead(worlds, w, ReadRestore("d", Some(op)), read, now);
    w' := RestoreFrom(worlds, w1, read, v, id, key, now);
  }

  ghost predicate Updatable(w: World) {
    && w.retention == 100
    && w.rows.documents.Keys == {"d"} && w.rows.documents["d"].id == "d"
    && w.rows.documents["d"].knowledgeBaseId == "kb"
    && w.rows.documents["d"].status == Active && w.rows.documents["d"].currentVersionId == Some("v1")
    && w.rows.documents["d"].updatedAt <= w.clock
    && "v1" in w.rows.versions && w.rows.versions["v1"].status == Ready && w.rows.versions["v1"].updatedAt <= w.clock
    && w.rows.versions["v1"].id == "v1" && "v2" !in w.published
  }

  /** Register candidate "v2" and ingest it. */
  lemma RunRegister(worlds: iset<World>, w: World, now: int) returns (w': World)
    requires Closed(worlds) && w in worlds && Updatable(w) && w.clock < now && w.rows.versions.Keys == {"v1"}
    requires "update" !in w.rows.operations && "update" !in w.rows.outbox && !KeyTaken(w.rows, "key-3")
    ensures w' in worlds && Updatable(w') && w'.clock == now + 1 && w'.published == w.published
    ensures w'.rows.documents == w.rows.documents
    ensures w'.rows.versions == w.rows.versions["v2" :=
              NewVersion("v2", w.rows.documents["d"], now).(status := Ready, revision := 1, updatedAt := now + 1)]
    ensures w'.rows.operations == w.rows.operations["update" :=
              NewOperation("update", w.rows.documents["d"], "v2", Update, "key-3", "", now)]
    ensures w'.rows.outbox.Keys == w.rows.outbox.Keys + {"update"}
  {
    var s1 := RegisterStep(Update, "d", "v2", "update", "key-3", "", now);
    var w1 := Perform(w, s1);
    var s2 := IngestStep("v2", Ready, now + 1);
    w' := Perform(w1, s2);
  }

  lemma PublishFrom(worlds: iset<World>, w: World, read: Snapshot, now: int) returns (w': World)
    requires Closed(worlds) && w in worlds && Updatable(w) && w.clock == now && read in w.views && read.PublishRead?
             && read.at < now
    requires "v2" in w.rows.versions && "update" in w.rows.operations
    requires var v := w.rows.versions["v2"];
             v.id == "v2" && v.documentId == "d" && v.knowledgeBaseId == "kb" && v.status == Ready
    requires var op := w.rows.operations["update"];
             op.id == "update" && op.status == OperationStatus.Pending
             && op.expectedRevision == w.rows.documents["d"].revision
    requires read == PublishRead(read.at, w.rows.operations["update"], w.rows.documents["d"], w.rows.versions["v2"],
                                 Some(w.rows.versions["v1"]))
    ensures w' in worlds && w'.clock == now && w'.retention == 100 && w'.published == w.published + {"v2"}
    ensures w'.rows.documents == w.rows.documents["d" := w.rows.documents["d"].(currentVersionId := Some("v2"),
              revision := w.rows.documents["d"].revision + 1, updatedAt := now)]
    ensures w'.rows.versions.Keys == w.rows.versions.Keys
    ensures SameContent(w'.rows.versions["v1"], w.rows.versions["v1"]) && w'.rows.versions["v1"].status == Superseded
    ensures w'.rows.versions["v1"].updatedAt <= now
    ensures SameContent(w'.rows.versions["v2"], w.rows.versions["v2"]) && w'.rows.versions["v2"].status == Ready
    ensures w'.rows.operations == w.rows.operations["update" :=
              w.rows.operations["update"].(status := Succeeded, updatedAt := now)]
    ensures w'.rows.outbox == w.rows.outbox
  {
    var s := PublishStep(read, "index", 1, now);
    var p := PlanPublication(read, now, "index", 1, w.historyRetention).value;
    assert CommitPublication(w.rows, p, read.document.revision).Ok?;
    w' := Perform(w, s);
  }

  ghost predicate Misled(w: World) {
    && "d" in w.rows.documents && "v2" in w.rows.versions && "v2" in w.published
    && w.rows.documents["d"].status == Active && w.rows.documents["d"].currentVersionId == Some("v1")
    && w.rows.versions["v2"].documentId == "d" && w.rows.versions["v2"].status == Ready
  }

  ghost predicate Undeleted(w: World) {
    && Updatable(w) && w.clock == 2 && w.rows.versions.Keys == {"v1"} && w.rows.outbox.Keys == {"delete-1"}
    && w.rows.operations.Keys == {"delete-1", "restore-1"}
    && w.rows.operations["delete-1"].idempotencyKey == "key-1"
    && w.rows.operations["restore-1"].idempotencyKey == "key-2"
    && w.rows.operations["delete-1"].kind == Delete && w.rows.operations["restore-1"].kind == Restore
    && w.rows.operations["delete-1"].documentId == "d"
    && w.rows.operations["delete-1"].previousVersionId == Some("v1")
    && w.rows.versions["v1"].documentId == "d" && w.rows.versions["v1"].knowledgeBaseId == "kb"
  }

  lemma RunDeleteAndRestore(worlds: iset<World>) returns (w: World)
    requires Closed(worlds) && START in worlds
    ensures w in worlds && Undeleted(w)
  {
    var w1 := RunDelete(worlds, START, "delete-1", "key-1", 1);
    w := RunRestore(worlds, w1, "delete-1", "v1", "restore-1", "key-2", 2);
  }

  /** Version "v2" was published over "v1" after the first deletion was undone. */
  ghost predicate Replaced(w: World) {
    && w.clock == 5 && w.retention == 100 && w.rows.documents.Keys == {"d"}
    && w.rows.documents["d"].id == "d" && w.rows.documents["d"].knowledgeBaseId == "kb"
    && w.rows.documents["d"].status == Active && w.rows.documents["d"].currentVersionId == Some("v2")
    && w.rows.documents["d"].updatedAt <= 5
    && w.rows.versions.Keys == {"v1", "v2"} && "v2" in w.published
    && w.rows.versions["v2"].status == Ready && w.rows.versions["v2"].documentId == "d"
    && w.rows.versions["v1"].status == Superseded && w.rows.versions["v1"].documentId == "d"
    && w.rows.versions["v1"].knowledgeBaseId == "kb" && w.rows.versions["v1"].id == "v1"
    && w.rows.versions["v1"].updatedAt <= 5
    && w.rows.operations.Keys == {"delete-1", "restore-1", "update"} && w.rows.outbox.Keys == {"delete-1", "update"}
    && w.rows.operations["delete-1"].idempotencyKey == "key-1"
    && w.rows.operations["restore-1"].idempotencyKey == "key-2"
    && w.rows.operations["update"].idempotencyKey == "key-3"
    && w.rows.operations["delete-1"].kind == Delete && w.rows.operations["delete-1"].documentId == "d"
    && w.rows.operations["delete-1"].previousVersionId == Some("v1")
    && w.rows.operations["restore-1"].kind == Restore && w.rows.operations["update"].kind == Update
  }

  lemma RunReplace(worlds: iset<World>) returns (w: World)
    requires Closed(worlds) && START in worlds
    ensures w in worlds && Replaced(w)
  {
    var w2 := RunDeleteAndRestore(worlds);
    var w3 := RunRegister(worlds, w2, 3);
    var read := TakePublishRead(w3, "update").value;
    var w4 := RunRead(worlds, w3, ReadPublish("update"), read, 5);
    w := PublishFrom(worlds, w4, read, 5);
  }

  lemma RunMisleads(worlds: iset<World>) returns (w: World)
    requires Closed(worlds) && START in worlds
    ensures w in worlds && Misled(w)
  {
    var w5 := RunReplace(worlds);
    var w6 := RunDelete(worlds, w5, "delete-2", "key-4", 6);
    var w7 := Perform(w6, WriteOperation("delete-1", CancelRequested, 7));
    w := RunRestore(worlds, w7, "delete-1", "v1", "restore-2", "key-5", 8);
  }

  /**
   * Delete (v1), restore, publish v2, delete (v2), cancel the first deletion, restore: the document comes back
   * with v1 although its latest deletion hid v2, and v2 stays READY beside the current version.
   */
  lemma CancelledDeletionMisleadsRestore() returns (w: World)
    ensures Reachable(w) && Misled(w) && !ShowsOnlyLiveContent(w, "d")
  {
    var worlds := iset x | Reachable(x);
    StartIsInitial();
    assert ExecutesTo(START, [], START) && ReachedFrom(START, START);
    forall x, s | x in worlds ensures Perform(x, s) in worlds {
      var w0 :| Init(w0) && ReachedFrom(w0, x);
      OneStepFurther(w0, x, s);
    }
    w := RunMisleads(worlds);
  }
}
