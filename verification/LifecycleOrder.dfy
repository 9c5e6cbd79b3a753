/**
 * While no DELETE operation row is rewritten, the last deletion in time order is the one that took effect last, so
 * a restore goes by the right one.
 */
module LifecycleOrder {
  import opened Prelude
  import opened Documents
  import opened LifecycleRows
  import opened LifecycleProtocol
  import opened LifecycleFencing
  import opened LifecycleSafety

  predicate IsDelete(w: World, o: string) {
    o in w.rows.operations && w.rows.operations[o].kind == Delete
  }

  /** DELETE operations of one document are stamped in the order they took effect. */
  ghost predicate DeletionsOrdered(w: World, a: string, b: string)
    requires IsDelete(w, a) && IsDelete(w, b)
  {
    var x, y := w.rows.operations[a], w.rows.operations[b];
    && x.updatedAt <= w.clock
    && (x.documentId == y.documentId ==>
          && (x.fencingToken < y.fencingToken ==> x.updatedAt < y.updatedAt)
          && (x.fencingToken == y.fencingToken ==> a == b))
  }

  /** A restore that can still commit read the deletion that is pending, and the version it hid. */
  ghost predicate ReadInOrder(w: World, read: Snapshot) {
    read.RestoreRead? && read.document.status == DeletePending && StillAt(w, read.document) ==>
      && read.deletion.Some? && Some(read.deletion.value.id) == LastOperation(w, read.document.id)
      && read.target.Some? && Some(read.target.value.id) == Held(w, read.document.id)
  }

  ghost predicate Ordered(w: World) {
    && (forall a, b {:trigger DeletionsOrdered(w, a, b)} :: IsDelete(w, a) && IsDelete(w, b) ==>
        DeletionsOrdered(w, a, b))
    && (forall r {:trigger ReadInOrder(w, r)} :: r in w.views ==> ReadInOrder(w, r))
  }

  lemma InitOrdered(w: World)
    requires Init(w)
    ensures Ordered(w)
  {
  }

  // ---------------------------------------------------------------------------
  // Only a deletion adds or changes a DELETE operation
  // ---------------------------------------------------------------------------

  ghost predicate SameDeletions(w: World, w': World) {
    forall o :: IsDelete(w', o) ==> IsDelete(w, o) && w'.rows.operations[o] == w.rows.operations[o]
  }

  lemma PublishKeepsDeletions(w: World, read: Snapshot, index: string, chunks: nat, now: int)
    requires Fenced(w) && read.PublishRead?
    ensures SameDeletions(w, AfterPublish(w, read, index, chunks, now))
  {
    if AfterPublish(w, read, index, chunks, now) != w {
      var p := PublishShape(w, read, index, chunks, now);
      assert ReadOk(w, read) && OperationOk(w, p.operation.id);
    }
  }

  lemma CommittingKeepsDeletions(w: World, s: Step)
    requires Fenced(w) && Commits(s) && !s.DeleteStep?
    ensures SameDeletions(w, Perform(w, s))
  {
    match s
    case PublishStep(read, index, chunks, now) =>
      if read.PublishRead? { PublishKeepsDeletions(w, read, index, chunks, now); }
    case RestoreStep(read, id, key, fp, chunks, now) =>
      if read.RestoreRead? && Perform(w, s) != w { var p := RestoreShape(w, read, id, key, fp, chunks, now); }
    case PurgeStep(read, id, key, last, now) =>
      if read.PurgeRead? && Perform(w, s) != w { var p := PurgeShape(w, read, id, key, last, now); }
  }

  lemma StepKeepsDeletions(w: World, s: Step)
    requires Fenced(w) && !s.DeleteStep? && !TouchesDeletion(w, s)
    ensures SameDeletions(w, Perform(w, s))
  {
    if Commits(s) { CommittingKeepsDeletions(w, s); }
  }

  lemma OrderStays(w: World, w': World)
    requires Ordered(w) && w.clock <= w'.clock && SameDeletions(w, w')
    ensures forall a, b :: IsDelete(w', a) && IsDelete(w', b) ==> DeletionsOrdered(w', a, b)
  {
    forall a, b | IsDelete(w', a) && IsDelete(w', b) ensures DeletionsOrdered(w', a, b) {
      assert DeletionsOrdered(w, a, b);
    }
  }

  lemma DeletionComesLast(w: World, d: string, id: string, key: string, fingerprint: string, now: int)
    requires Fenced(w) && Ordered(w)
    ensures var w' := AfterDelete(w, d, id, key, fingerprint, now);
            forall a, b :: IsDelete(w', a) && IsDelete(w', b) ==> DeletionsOrdered(w', a, b)
  {
    var w' := AfterDelete(w, d, id, key, fingerprint, now);
    if w' != w {
      var op := DeleteShape(w, d, id, key, fingerprint, now);
      forall a, b | IsDelete(w', a) && IsDelete(w', b) ensures DeletionsOrdered(w', a, b) {
        if IsDelete(w, a) { assert OperationOk(w, a) && DeletionsOrdered(w, a, a); }
        if IsDelete(w, b) { assert OperationOk(w, b); }
        if IsDelete(w, a) && IsDelete(w, b) { assert DeletionsOrdered(w, a, b); }
      }
    }
  }

  // ---------------------------------------------------------------------------
  // Reads
  // ---------------------------------------------------------------------------

  lemma ReadsStayInOrder(w: World, w': World)
    requires Fenced(w) && Fenced(w') && Ordered(w) && Advances(w, w')
    ensures forall r :: r in w.views ==> ReadInOrder(w', r)
  {
    forall r | r in w.views ensures ReadInOrder(w', r) {
      assert ReadInOrder(w, r) && ReadOk(w, r);
      var d := r.document.id;
      assert LogOk(w, d) && LogOk(w', d) && OneCommit(w, w', d);
    }
  }

  lemma NewReadInOrder(w: World, d: string, choice: Option<string>)
    requires Fenced(w) && Ordered(w) && IsLatestDeletion(w.rows, d, choice) && TakeRestoreRead(w, d, choice).Some?
    ensures ReadInOrder(w, TakeRestoreRead(w, d, choice).value)
  {
    if w.rows.documents[d].status == DeletePending {
      var last := PendingHasDeletion(w, d);
      assert DocumentOk(w, d) && OperationOk(w, choice.value) && OperationOk(w, last);
      assert DeletionsOrdered(w, choice.value, last) && choice.value == last;
      assert VersionOk(w, Held(w, d).value);
    }
  }

  lemma ReadStepInOrder(w: World, s: Step)
    requires Fenced(w) && Ordered(w) && Reads(s)
    ensures forall r :: r in Perform(w, s).views ==> r in w.views || ReadInOrder(w, r)
  {
    match s
    case ReadRestore(d, choice) =>
      if IsLatestDeletion(w.rows, d, choice) && TakeRestoreRead(w, d, choice).Some? { NewReadInOrder(w, d, choice); }
    case _ =>
  }

  lemma NewReadsInOrder(w: World, s: Step)
    requires Fenced(w) && Ordered(w)
    ensures forall r :: r in Perform(w, s).views ==> r in w.views || (Reads(s) && ReadInOrder(w, r))
  {
    if Reads(s) { ReadStepInOrder(w, s); }
  }

  lemma ReadingMovesNothing(w: World, s: Step)
    requires Reads(s)
    ensures Perform(w, s).rows == w.rows && Perform(w, s).log == w.log
  {
  }

  // ---------------------------------------------------------------------------
  // Every step and every run
  // ---------------------------------------------------------------------------

  lemma StepKeepsReadsInOrder(w: World, s: Step)
    requires Fenced(w) && Ordered(w)
    ensures forall r :: r in Perform(w, s).views ==> ReadInOrder(Perform(w, s), r)
  {
    var w' := Perform(w, s);
    StepFenced(w, s);
    StepAdvances(w, s);
    ReadsStayInOrder(w, w');
    NewReadsInOrder(w, s);
    forall r | r in w'.views && r !in w.views ensures ReadInOrder(w', r) {
      assert ReadInOrder(w, r);
      ReadingMovesNothing(w, s);
    }
  }

  lemma StepOrdered(w: World, s: Step)
    requires Fenced(w) && Ordered(w) && !TouchesDeletion(w, s)
    ensures Ordered(Perform(w, s))
  {
    StepKeepsReadsInOrder(w, s);
    if s.DeleteStep? {
      DeletionComesLast(w, s.documentId, s.operationId, s.key, s.fingerprint, s.now);
    } else {
      StepKeepsDeletions(w, s);
      StepAdvances(w, s);
      OrderStays(w, Perform(w, s));
    }
  }

  /** In order, a restore that takes effect read the version the pending deletion hid, which is READY. */
  lemma OrderNeverMisleads(w: World, s: Step)
    requires Safe(w) && Ordered(w)
    ensures !Misleads(w, s)
  {
    if s.RestoreStep? && s.read.RestoreRead? && Perform(w, s) != w {
      var p := RestoreShape(w, s.read, s.operationId, s.key, s.fingerprint, s.chunks, s.now);
      assert ReadSafe(w, s.read) && ReadInOrder(w, s.read);
    }
  }

  lemma {:induction false} RunOrdered(w: World, steps: seq<Step>)
    requires Safe(w) && Ordered(w) && NeverTouchesDeletions(w, steps)
    ensures NeverMisleads(w, steps) && Safe(Execute(w, steps)) && Ordered(Execute(w, steps))
    decreases |steps|
  {
    if steps != [] {
      OrderNeverMisleads(w, steps[0]);
      StepSafe(w, steps[0]);
      StepOrdered(w, steps[0]);
      RunOrdered(Perform(w, steps[0]), steps[1..]);
    }
  }
}
