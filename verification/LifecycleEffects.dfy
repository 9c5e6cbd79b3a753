/** An operation is SUCCEEDED only if it took effect. */
module LifecycleEffects {
  import opened Prelude
  import opened Documents
  import opened LifecycleRows
  import opened LifecycleProtocol
  import opened LifecycleFencing

  ghost predicate SucceededOk(w: World, o: string)
    requires o in w.rows.operations
  {
    w.rows.operations[o].status == Succeeded ==> TookEffect(w, w.rows.operations[o].documentId, o)
  }

  ghost predicate Settled(w: World) {
    forall o {:trigger SucceededOk(w, o)} :: o in w.rows.operations ==> SucceededOk(w, o)
  }

  lemma InitSettled(w: World)
    requires Init(w)
    ensures Settled(w)
  {
  }

  lemma EffectPersists(w: World, w': World, d: string, o: string)
    requires Fenced(w) && Advances(w, w') && d in w.rows.documents && TookEffect(w, d, o)
    ensures TookEffect(w', d, o)
  {
    assert LogOk(w, d) && OneCommit(w, w', d);
    var i :| 0 <= i < |w.log[d]| && w.log[d][i].operationId == o;
    assert w'.log[d][i] == w.log[d][i];
  }

  /** An operation that a commit made SUCCEEDED is the last one in the log of its document. */
  lemma CommittedTookEffect(w: World, w': World, d: string, c: Commit)
    requires d in w'.log && w'.log[d] == History(w, d) + [c]
    ensures TookEffect(w', d, c.operationId)
  {
    assert w'.log[d][|History(w, d)|] == c;
  }

  /** Which operation, if any, a step makes SUCCEEDED. */
  ghost predicate NewlySucceeded(w: World, w': World, o: string) {
    && o in w'.rows.operations && w'.rows.operations[o].status == Succeeded
    && !(o in w.rows.operations && w.rows.operations[o].status == Succeeded)
  }

  lemma CommittingTakesEffect(w: World, s: Step, o: string)
    requires Fenced(w) && Commits(s) && NewlySucceeded(w, Perform(w, s), o)
    ensures TookEffect(Perform(w, s), Perform(w, s).rows.operations[o].documentId, o)
  {
    var w' := Perform(w, s);
    match s
    case PublishStep(read, index, chunks, now) =>
      var p := PublishShape(w, read, index, chunks, now);
      assert ReadOk(w, read);
      CommittedTookEffect(w, w', read.document.id, Commit(p.operation.id, w.rows.documents[p.active.id], p.active));
    case DeleteStep(d, id, key, fp, now) =>
      var op := DeleteShape(w, d, id, key, fp, now);
    case RestoreStep(read, id, key, fp, chunks, now) =>
      var p := RestoreShape(w, read, id, key, fp, chunks, now);
      CommittedTookEffect(w, w', read.document.id, Commit(id, w.rows.documents[p.restored.id], p.restored));
    case PurgeStep(read, id, key, last, now) =>
      var p := PurgeShape(w, read, id, key, last, now);
      CommittedTookEffect(w, w', read.document.id, Commit(id, w.rows.documents[p.purged.id], p.purged));
  }

  lemma WritingTakesEffect(w: World, s: Step, o: string)
    requires !Commits(s) && NewlySucceeded(w, Perform(w, s), o)
    ensures o in w.rows.operations && TookEffect(w, w.rows.operations[o].documentId, o)
  {
  }

  lemma StaysSettled(w: World, w': World, o: string)
    requires Fenced(w) && Advances(w, w') && o in w.rows.operations
    requires TookEffect(w, w.rows.operations[o].documentId, o)
    ensures SucceededOk(w', o)
  {
    assert OperationOk(w, o);
    EffectPersists(w, w', w.rows.operations[o].documentId, o);
  }

  lemma StepSettled(w: World, s: Step)
    requires Fenced(w) && Settled(w)
    ensures Settled(Perform(w, s))
  {
    var w' := Perform(w, s);
    StepAdvances(w, s);
    forall o | o in w'.rows.operations && w'.rows.operations[o].status == Succeeded ensures SucceededOk(w', o) {
      if !NewlySucceeded(w, w', o) {
        assert SucceededOk(w, o);
        StaysSettled(w, w', o);
      } else if Commits(s) {
        CommittingTakesEffect(w, s, o);
      } else {
        WritingTakesEffect(w, s, o);
        StaysSettled(w, w', o);
      }
    }
  }

  lemma {:induction false} RunSettled(w: World, steps: seq<Step>)
    requires Fenced(w) && Settled(w)
    ensures Settled(Execute(w, steps))
    decreases |steps|
  {
    if steps != [] {
      StepFenced(w, steps[0]);
      StepSettled(w, steps[0]);
      RunSettled(Perform(w, steps[0]), steps[1..]);
    }
  }

  /** After every run, a SUCCEEDED operation has changed its document. */
  lemma SucceededTookEffect(w0: World, steps: seq<Step>, o: string)
    requires Init(w0) && o in Execute(w0, steps).rows.operations
    requires Execute(w0, steps).rows.operations[o].status == Succeeded
    ensures TookEffect(Execute(w0, steps), Execute(w0, steps).rows.operations[o].documentId, o)
  {
    InitFenced(w0);
    InitSettled(w0);
    RunSettled(w0, steps);
    assert SucceededOk(Execute(w0, steps), o);
  }
}
