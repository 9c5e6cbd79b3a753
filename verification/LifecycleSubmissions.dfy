/** Idempotency keys: each names one operation for ever, and a registered candidate has its event. */
module LifecycleSubmissions {
  import opened Prelude
  import opened Documents
  import opened LifecycleRows
  import opened LifecycleProtocol
  import opened LifecycleFencing
  import opened LifecycleGuarantees

  predicate Candidates(kind: Kind) { kind == Update || kind == Reparse }

  /** No two operations share a key. */
  ghost predicate KeysUnique(rows: Rows) {
    forall a, b | a in rows.operations && b in rows.operations
                  && rows.operations[a].idempotencyKey == rows.operations[b].idempotencyKey :: a == b
  }

  /** Every UPDATE or REPARSE operation has an outbox event. */
  ghost predicate Announced(rows: Rows) {
    forall o :: o in rows.operations && Candidates(rows.operations[o].kind) ==> o in rows.outbox
  }

  ghost predicate Submitted(w: World) { KeysUnique(w.rows) && Announced(w.rows) }

  /** At most one operation is new, its key was free, and a new candidate comes with its event. */
  ghost predicate AddsOne(rows: Rows, rows': Rows) {
    && rows.outbox.Keys <= rows'.outbox.Keys
    && (rows'.operations.Keys == rows.operations.Keys
        || exists o :: o in rows'.operations && AddsThis(rows, rows', o))
  }

  ghost predicate AddsThis(rows: Rows, rows': Rows, o: string)
    requires o in rows'.operations
  {
    && o !in rows.operations && rows'.operations.Keys == rows.operations.Keys + {o}
    && !KeyTaken(rows, rows'.operations[o].idempotencyKey)
    && (Candidates(rows'.operations[o].kind) ==> o in rows'.outbox)
  }

  lemma RegisterAddsOne(w: World, s: Step)
    requires s.RegisterStep?
    ensures AddsOne(w.rows, AfterRegister(w, s).rows)
  {
    var w' := AfterRegister(w, s);
    if w' != w { assert AddsThis(w.rows, w'.rows, s.operationId); }
  }

  lemma RollbackAddsOne(w: World, s: Step)
    requires s.RollbackStep? && s.read.RollbackRead?
    ensures AddsOne(w.rows, AfterRollback(w, s).rows)
  {
    var w' := AfterRollback(w, s);
    if w' != w { assert AddsThis(w.rows, w'.rows, s.operationId); }
  }

  lemma PublishAddsOne(w: World, read: Snapshot, index: string, chunks: nat, now: int)
    requires read.PublishRead?
    ensures AddsOne(w.rows, AfterPublish(w, read, index, chunks, now).rows)
  {
  }

  lemma DeleteAddsOne(w: World, d: string, id: string, key: string, fingerprint: string, now: int)
    ensures AddsOne(w.rows, AfterDelete(w, d, id, key, fingerprint, now).rows)
  {
    var w' := AfterDelete(w, d, id, key, fingerprint, now);
    if w' != w { assert AddsThis(w.rows, w'.rows, id); }
  }

  lemma RestoreAddsOne(w: World, read: Snapshot, id: string, key: string, fingerprint: string, chunks: nat, now: int)
    requires read.RestoreRead?
    ensures AddsOne(w.rows, AfterRestore(w, read, id, key, fingerprint, chunks, now).rows)
  {
    var w' := AfterRestore(w, read, id, key, fingerprint, chunks, now);
    if w' != w { assert AddsThis(w.rows, w'.rows, id); }
  }

  lemma PurgeAddsOne(w: World, read: Snapshot, id: string, key: string, last: string, now: int)
    requires read.PurgeRead?
    ensures AddsOne(w.rows, AfterPurge(w, read, id, key, last, now).rows)
  {
    var w' := AfterPurge(w, read, id, key, last, now);
    if w' != w { assert AddsThis(w.rows, w'.rows, id); }
  }

  lemma StepAddsOne(w: World, s: Step)
    ensures AddsOne(w.rows, Perform(w, s).rows)
  {
    match s
    case RegisterStep(_, _, _, _, _, _, _) => RegisterAddsOne(w, s);
    case PublishStep(read, index, chunks, now) =>
      if read.PublishRead? { PublishAddsOne(w, read, index, chunks, now); }
    case RollbackStep(read, _, _, _, _) => if read.RollbackRead? { RollbackAddsOne(w, s); }
    case DeleteStep(d, id, key, fp, now) => DeleteAddsOne(w, d, id, key, fp, now);
    case RestoreStep(read, id, key, fp, chunks, now) =>
      if read.RestoreRead? { RestoreAddsOne(w, read, id, key, fp, chunks, now); }
    case PurgeStep(read, id, key, last, now) => if read.PurgeRead? { PurgeAddsOne(w, read, id, key, last, now); }
    case _ =>
  }

  lemma AddingKeepsKeys(w: World, w': World)
    requires Submitted(w) && AddsOne(w.rows, w'.rows) && Evolves(w, w')
    ensures Submitted(w')
  {
    forall a, b | a in w'.rows.operations && b in w'.rows.operations
                  && w'.rows.operations[a].idempotencyKey == w'.rows.operations[b].idempotencyKey
      ensures a == b
    {
      if a in w.rows.operations && b in w.rows.operations {
        assert w.rows.operations[a].idempotencyKey == w.rows.operations[b].idempotencyKey;
      }
    }
  }

  lemma StepSubmitted(w: World, s: Step)
    requires Fenced(w) && Submitted(w)
    ensures Submitted(Perform(w, s))
  {
    StepAddsOne(w, s);
    StepAdvances(w, s);
    AddingKeepsKeys(w, Perform(w, s));
  }

  lemma {:induction false} RunSubmitted(w: World, steps: seq<Step>)
    requires Fenced(w) && Submitted(w)
    ensures Submitted(Execute(w, steps))
    decreases |steps|
  {
    if steps != [] {
      StepFenced(w, steps[0]);
      StepSubmitted(w, steps[0]);
      RunSubmitted(Perform(w, steps[0]), steps[1..]);
    }
  }

  lemma InitSubmitted(w: World)
    requires Init(w)
    ensures Submitted(w)
  {
  }

  /** An idempotency key never names two operations, not even at different times. */
  lemma OneOperationPerKey(w0: World, steps: seq<Step>, more: seq<Step>, a: string, b: string)
    requires Init(w0)
    requires var w := Execute(w0, steps);
             var w' := Execute(w, more);
             a in w.rows.operations && b in w'.rows.operations
             && w.rows.operations[a].idempotencyKey == w'.rows.operations[b].idempotencyKey
    ensures var w := Execute(w0, steps);
            var w' := Execute(w, more);
            a == b && SameOperation(w'.rows.operations[b], w.rows.operations[a])
  {
    InitFenced(w0);
    InitSubmitted(w0);
    RunFenced(w0, steps);
    RunSubmitted(w0, steps);
    var w := Execute(w0, steps);
    RunSubmitted(w, more);
    GrowsItself(w);
    RunGrows(w, w, more);
    assert w.rows.operations[a].idempotencyKey == Execute(w, more).rows.operations[a].idempotencyKey;
  }

  /** After every run, nothing is registered without its outbox event. */
  lemma CandidatesAreAnnounced(w0: World, steps: seq<Step>, o: string)
    requires Init(w0) && o in Execute(w0, steps).rows.operations
    requires Candidates(Execute(w0, steps).rows.operations[o].kind)
    ensures o in Execute(w0, steps).rows.outbox
  {
    InitFenced(w0);
    InitSubmitted(w0);
    RunSubmitted(w0, steps);
  }
}
