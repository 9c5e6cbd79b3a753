/**
 * Index rebuilds that end in switching a read alias. Each run of `build_and_publish` works on its own physical
 * index; all of them, on one alias, take their calls to the search engine in any order.
 */
module AliasPublication {
  import opened Prelude

  /** How far the rebuild of one physical index has come. */
  datatype Phase =
    | Staged                                   // created
    | Written                                  // records written
    | Passed                                   // validated: healthy, and the expected number of chunks
    | Matched(expected: Option<string>)        // the alias was seen where the caller expects it
    | Switched                                 // the alias action took effect
    | Failing                                  // an exception is on its way to the cleanup handler
    | Cleared                                  // the handler saw the alias elsewhere
    | Doomed                                   // and so did the engine adapter, just before deleting
    | Finished

  /**
   * `names` are the indexes the alias points to; `initial` those it pointed to before any of these rebuilds. What
   * passed validation, what was ever switched to and what was deleted is history.
   */
  datatype World = World(
    names: set<string>,
    indexes: set<string>,
    initial: set<string>,
    phases: map<string, Phase>,
    validated: set<string>,
    published: set<string>,
    deleted: set<string>)

  datatype Step =
    | Create(index: string)
    | Write(index: string)
    | Validate(index: string, healthy: bool, count: nat, expectedCount: nat)
    | Match(index: string, expected: Option<string>)
    | Switch(index: string)
    | Fail(index: string)
    | Resolve(index: string)
    | Recheck(index: string)
    | Delete(index: string)
    | Finish(index: string)

  ghost predicate Init(w: World) {
    && w.phases == map[] && w.validated == {} && w.published == {} && w.deleted == {} && w.names == w.initial
    && w.initial <= w.indexes
  }

  /** The indexes behind an answer of `resolve_alias`; it raises when the alias points to several. */
  function Named(answer: Option<string>): set<string> {
    if answer.Some? then {answer.value} else {}
  }

  predicate Ambiguous(names: set<string>) {
    |names| > 1
  }

  predicate At(w: World, index: string, phase: Phase) {
    index in w.phases && w.phases[index] == phase
  }

  function Moved(w: World, index: string, phase: Phase): World {
    w.(phases := w.phases[index := phase])
  }

  predicate ElsewhereOrNowhere(names: set<string>, index: string) {
    !Ambiguous(names) && names != {index}
  }

  /** Removing the old index and adding the new one is one action, refused if the old one is not there any more. */
  function AfterSwitch(w: World, index: string): World {
    if index in w.phases && w.phases[index].Matched?
       && (w.phases[index].expected.Some? ==> w.phases[index].expected.value in w.names) then
      Moved(w, index, Switched).(names := w.names - Named(w.phases[index].expected) + {index},
                                 published := w.published + {index})
    else w
  }

  predicate MayFail(phase: Phase) {
    phase.Staged? || phase.Written? || phase.Passed? || phase.Matched? || phase.Switched?
  }

  function Perform(w: World, s: Step): World {
    match s
    case Create(i) =>
      if i !in w.phases && i !in w.initial && i !in w.names && i !in w.deleted then
        Moved(w, i, Staged).(indexes := w.indexes + {i})
      else w
    case Write(i) => if At(w, i, Staged) then Moved(w, i, Written) else w
    case Validate(i, healthy, count, expectedCount) =>
      if At(w, i, Written) then
        if healthy && count == expectedCount then Moved(w, i, Passed).(validated := w.validated + {i})
        else Moved(w, i, Failing)
      else w
    case Match(i, expected) =>
      if At(w, i, Passed) && w.names == Named(expected) then Moved(w, i, Matched(expected)) else w
    case Switch(i) => AfterSwitch(w, i)
    case Fail(i) => if i in w.phases && MayFail(w.phases[i]) then Moved(w, i, Failing) else w
    case Resolve(i) => if At(w, i, Failing) && ElsewhereOrNowhere(w.names, i) then Moved(w, i, Cleared) else w
    case Recheck(i) => if At(w, i, Cleared) && ElsewhereOrNowhere(w.names, i) then Moved(w, i, Doomed) else w
    case Delete(i) =>
      if At(w, i, Doomed) then Moved(w, i, Finished).(indexes := w.indexes - {i}, deleted := w.deleted + {i}) else w
    case Finish(i) => if i in w.phases then Moved(w, i, Finished) else w
  }

  function Execute(w: World, steps: seq<Step>): World
    decreases |steps|
  {
    if steps == [] then w else Perform(Execute(w, steps[..|steps| - 1]), steps[|steps| - 1])
  }

  /** A set of worlds that no step leaves. */
  ghost predicate Closed(worlds: iset<World>) {
    forall w, s {:trigger Perform(w, s)} :: w in worlds ==> Perform(w, s) in worlds
  }

  /** `w'` is reached from `w` by some run: it lies in every closed set that `w` lies in. */
  ghost predicate Follows(w: World, w': World) {
    forall worlds: iset<World> :: Closed(worlds) && w in worlds ==> w' in worlds
  }

  lemma FollowsStep(w: World, w': World, s: Step)
    requires Follows(w, w')
    ensures Follows(w, Perform(w', s))
  {
  }

  lemma {:induction false} ExecutionFollows(w: World, steps: seq<Step>)
    ensures Follows(w, Execute(w, steps))
    decreases |steps|
  {
    if steps != [] {
      ExecutionFollows(w, steps[..|steps| - 1]);
      FollowsStep(w, Execute(w, steps[..|steps| - 1]), steps[|steps| - 1]);
    }
  }

  ghost predicate ExecutesTo(w: World, steps: seq<Step>, w': World) {
    w' == Execute(w, steps)
  }

  ghost predicate ReachedFrom(w: World, w': World) {
    exists steps :: ExecutesTo(w, steps, w')
  }

  /** Following is executing. */
  lemma FollowsIsExecution(w: World, w': World)
    ensures Follows(w, w') <==> ReachedFrom(w, w')
  {
    if Follows(w, w') {
      var worlds := iset x | ReachedFrom(w, x);
      assert ExecutesTo(w, [], w);
      forall x, s | x in worlds ensures Perform(x, s) in worlds {
        var steps :| ExecutesTo(w, steps, x);
        assert (steps + [s])[..|steps|] == steps;
        assert ExecutesTo(w, steps + [s], Perform(x, s));
      }
      assert Closed(worlds) && w in worlds;
    }
    if ReachedFrom(w, w') {
      var steps :| ExecutesTo(w, steps, w');
      ExecutionFollows(w, steps);
    }
  }

  // ---------------------------------------------------------------------------
  // The invariant
  // ---------------------------------------------------------------------------

  ghost predicate RebuildOk(w: World, i: string)
    requires i in w.phases
  {
    && i !in w.initial
    && (w.phases[i].Passed? || w.phases[i].Matched? || w.phases[i].Switched? ==> i in w.validated)
    && (i in w.names ==> w.phases[i].Switched? || w.phases[i].Failing? || w.phases[i].Finished?)
    && (w.phases[i] != Finished ==> i !in w.deleted)
  }

  ghost predicate Safe(w: World) {
    && (forall i :: i in w.names ==> i in w.initial || (i in w.phases && i in w.validated))
    && (forall i :: i in w.names ==> i in w.indexes && i !in w.deleted)
    && (forall i {:trigger RebuildOk(w, i)} :: i in w.phases ==> RebuildOk(w, i))
    && (forall i :: i in w.deleted ==> i in w.phases && i !in w.initial)
    && w.initial <= w.indexes && w.published <= w.validated
    && (forall i :: i in w.phases && i !in w.deleted ==> i in w.indexes)
  }

  lemma InitSafe(w: World)
    requires Init(w)
    ensures Safe(w)
  {
  }

  lemma OneName(names: set<string>)
    ensures !Ambiguous(names) && names != {} ==> exists x :: names == {x}
    ensures forall x :: x in names && !Ambiguous(names) ==> names == {x}
  {
    forall x | x in names && !Ambiguous(names) ensures names == {x} {
      assert |names - {x}| == |names| - 1;
      assert names - {x} == {};
    }
  }

  lemma StepSafe(w: World, s: Step)
    requires Safe(w)
    ensures Safe(Perform(w, s))
  {
    var w' := Perform(w, s);
    OneName(w.names);
    assert s.index in w.phases ==> RebuildOk(w, s.index);
    forall i | i in w'.phases ensures RebuildOk(w', i) {
      if i in w.phases { assert RebuildOk(w, i); }
    }
  }

  lemma {:induction false} RunSafe(w: World, steps: seq<Step>)
    requires Init(w)
    ensures Safe(Execute(w, steps)) && Execute(w, steps).initial == w.initial
    decreases |steps|
  {
    if steps == [] {
      InitSafe(w);
    } else {
      RunSafe(w, steps[..|steps| - 1]);
      StepSafe(Execute(w, steps[..|steps| - 1]), steps[|steps| - 1]);
    }
  }

  lemma ReachableIsSafe(w: World, w': World)
    requires Init(w) && Follows(w, w')
    ensures Safe(w')
  {
    var worlds := iset x | Safe(x);
    InitSafe(w);
    forall x, s | x in worlds ensures Perform(x, s) in worlds { StepSafe(x, s); }
    assert Closed(worlds) && w in worlds;
  }

  // ---------------------------------------------------------------------------
  // What every interleaving guarantees
  // ---------------------------------------------------------------------------

  /** The alias only ever names what it named before, or a generation that validated with the expected chunk count. */
  lemma AliasNamesOnlyValidated(w: World, steps: seq<Step>, i: string)
    requires Init(w) && i in Execute(w, steps).names
    ensures i in w.initial || i in Execute(w, steps).validated
    ensures i in Execute(w, steps).indexes
  {
    RunSafe(w, steps);
  }

  /** No rebuild ever deletes an index the alias names, now or later. */
  lemma NamedIsNeverDeleted(w: World, steps: seq<Step>, s: Step, i: string)
    requires Init(w)
    requires i !in Execute(w, steps).deleted && i in Perform(Execute(w, steps), s).deleted
    ensures i !in Execute(w, steps).names && i !in Perform(Execute(w, steps), s).names
    ensures forall more :: i !in Execute(Perform(Execute(w, steps), s), more).names
  {
    RunSafe(w, steps);
    var w' := Perform(Execute(w, steps), s);
    StepSafe(Execute(w, steps), s);
    assert RebuildOk(Execute(w, steps), i);
    forall more ensures i !in Execute(w', more).names { DeletedStaysGone(w', more, i); }
  }

  lemma {:induction false} DeletedStaysGone(w: World, steps: seq<Step>, i: string)
    requires Safe(w) && i in w.deleted
    ensures Safe(Execute(w, steps)) && i in Execute(w, steps).deleted && i !in Execute(w, steps).names
    decreases |steps|
  {
    if steps != [] {
      DeletedStaysGone(w, steps[..|steps| - 1], i);
      StepSafe(Execute(w, steps[..|steps| - 1]), steps[|steps| - 1]);
    }
  }

  // ---------------------------------------------------------------------------
  // Rolling the alias back
  // ---------------------------------------------------------------------------

  /** `rollback_alias` also switches, to any index that still validates as healthy. */
  function AfterRollback(w: World, target: string, expected: string): World {
    if target in w.indexes && w.names == {expected} then w.(names := {target}) else w
  }

  /** However the rebuilds go on, each index the alias names is an original or validated one, and still exists. */
  ghost predicate Harmless(w: World) {
    forall more, i :: i in Execute(w, more).names ==> Presentable(Execute(w, more), i)
  }

  predicate Presentable(w: World, i: string) {
    i !in w.deleted && (i in w.initial || i in w.validated)
  }

  /** What a rollback may leave and rebuilds keep; `Safe` says more about how far a named rebuild has come. */
  ghost predicate Sound(w: World) {
    && (forall i :: i in w.names ==> Presentable(w, i) && !At(w, i, Doomed))
    && (forall i :: i in w.deleted ==> At(w, i, Finished))
    && (forall i :: i in w.phases && (w.phases[i].Passed? || w.phases[i].Matched?) ==> i in w.validated)
  }

  lemma SafeIsSound(w: World)
    requires Safe(w)
    ensures Sound(w)
  {
    forall i | i in w.phases
      ensures (i in w.names ==> !At(w, i, Doomed)) && (i in w.deleted ==> At(w, i, Finished))
      ensures w.phases[i].Passed? || w.phases[i].Matched? ==> i in w.validated
    {
      assert RebuildOk(w, i);
    }
  }

  /** A step moves one rebuild only, and the alias only to an index whose rebuild had found it as expected. */
  lemma OnlyOneMoves(w: World, s: Step, x: string)
    ensures var w' := Perform(w, s);
            && w'.initial == w.initial && w.validated <= w'.validated && w.deleted <= w'.deleted
            && (x != s.index ==> (x in w'.phases <==> x in w.phases) && (x in w.phases ==> w'.phases[x] == w.phases[x]))
            && (x in w'.deleted && x !in w.deleted ==> At(w, x, Doomed) && At(w', x, Finished))
            && (x in w'.names && x !in w.names ==> x in w.phases && w.phases[x].Matched? && At(w', x, Switched))
  {
  }

  lemma NamedStaysPresentable(w: World, s: Step, x: string)
    requires Sound(w) && x in Perform(w, s).names
    ensures Presentable(Perform(w, s), x) && !At(Perform(w, s), x, Doomed)
  {
    OnlyOneMoves(w, s, x);
    OneName(w.names);
  }

  lemma SoundStep(w: World, s: Step)
    requires Sound(w)
    ensures Sound(Perform(w, s))
  {
    var w' := Perform(w, s);
    forall i | i in w'.names ensures Presentable(w', i) && !At(w', i, Doomed) { NamedStaysPresentable(w, s, i); }
    forall i ensures i in w'.deleted ==> At(w', i, Finished) {
      OnlyOneMoves(w, s, i);
    }
    forall i | i in w'.phases && (w'.phases[i].Passed? || w'.phases[i].Matched?) ensures i in w'.validated {
      OnlyOneMoves(w, s, i);
    }
  }

  lemma {:induction false} SoundStays(w: World, more: seq<Step>)
    requires Sound(w)
    ensures Sound(Execute(w, more))
    decreases |more|
  {
    if more != [] {
      SoundStays(w, more[..|more| - 1]);
      SoundStep(Execute(w, more[..|more| - 1]), more[|more| - 1]);
    }
  }

  lemma SoundIsHarmless(w: World)
    requires Sound(w)
    ensures Harmless(w)
  {
    forall more, i | i in Execute(w, more).names ensures Presentable(Execute(w, more), i) { SoundStays(w, more); }
  }

  /**
   * A rollback that takes effect does no harm if and only if its target is an original or validated generation, is not
   * deleted, and no cleanup has made up its mind to delete it.
   */
  lemma RollbackIsSafeExactly(w: World, target: string, expected: string)
    requires Sound(w) && target in w.indexes && w.names == {expected}
    ensures Harmless(AfterRollback(w, target, expected)) <==>
            (target in w.initial || target in w.validated) && target !in w.deleted && !At(w, target, Doomed)
    ensures Harmless(AfterRollback(w, target, expected)) <==> Sound(AfterRollback(w, target, expected))
  {
    var w' := AfterRollback(w, target, expected);
    if Presentable(w, target) && !At(w, target, Doomed) {
      SoundIsHarmless(w');
    } else if !Presentable(w, target) {
      assert target in Execute(w', []).names && !Presentable(Execute(w', []), target);
    } else {
      var deletion := [Delete(target)];
      assert Execute(w', deletion[..0]) == w';
      var gone := Execute(w', deletion);
      assert gone == Perform(w', Delete(target));
      assert target in gone.names && !Presentable(gone, target);
    }
  }

  /** A run in which rebuilds and rollbacks alternate at will. */
  datatype Move = Rebuilding(step: Step) | RollingBack(target: string, expected: string)

  function AfterMove(w: World, m: Move): World {
    match m
    case Rebuilding(step) => Perform(w, step)
    case RollingBack(target, expected) => AfterRollback(w, target, expected)
  }

  /** A rollback that takes effect is aimed at an original or validated generation that nothing deletes. */
  predicate WellAimed(w: World, m: Move) {
    m.RollingBack? && m.target in w.indexes && w.names == {m.expected} ==>
      Presentable(w, m.target) && !At(w, m.target, Doomed)
  }

  predicate AlwaysWellAimed(w: World, moves: seq<Move>)
    decreases |moves|
  {
    moves == [] || (WellAimed(w, moves[0]) && AlwaysWellAimed(AfterMove(w, moves[0]), moves[1..]))
  }

  /** At no point of the run could the rebuilds alone bring the alias to a deleted or never validated index. */
  ghost predicate HarmlessThroughout(w: World, moves: seq<Move>)
    decreases |moves|
  {
    Harmless(w) && (moves == [] || HarmlessThroughout(AfterMove(w, moves[0]), moves[1..]))
  }

  /** From the start, any number of rollbacks among the rebuilds do no harm if and only if each is well aimed. */
  lemma RollbacksAreHarmlessExactly(w: World, moves: seq<Move>)
    requires Init(w)
    ensures HarmlessThroughout(w, moves) <==> AlwaysWellAimed(w, moves)
  {
    InitSafe(w);
    SafeIsSound(w);
    HarmlessExactlyFrom(w, moves);
  }

  lemma {:induction false} HarmlessExactlyFrom(w: World, moves: seq<Move>)
    requires Sound(w)
    ensures HarmlessThroughout(w, moves) <==> AlwaysWellAimed(w, moves)
    decreases |moves|
  {
    SoundIsHarmless(w);
    if moves != [] {
      var w' := AfterMove(w, moves[0]);
      MoveIsHarmlessExactly(w, moves[0]);
      if WellAimed(w, moves[0]) { HarmlessExactlyFrom(w', moves[1..]); } else { assert !Harmless(w'); }
    }
  }

  lemma MoveIsHarmlessExactly(w: World, m: Move)
    requires Sound(w)
    ensures WellAimed(w, m) <==> Sound(AfterMove(w, m))
    ensures WellAimed(w, m) <==> Harmless(AfterMove(w, m))
  {
    match m
    case Rebuilding(step) =>
      SoundStep(w, step);
      SoundIsHarmless(Perform(w, step));
    case RollingBack(target, expected) =>
      if target in w.indexes && w.names == {expected} {
        RollbackIsSafeExactly(w, target, expected);
      } else {
        SoundIsHarmless(w);
      }
  }

  const BEFORE: World := World({"old"}, {"old"}, {"old"}, map[], {}, {}, {})

  const DOOMED: World := World({"old"}, {"old", "new"}, {"old"}, map["new" := Doomed], {"new"}, {}, {})

  const PASSED: World := World({"old"}, {"old", "new"}, {"old"}, map["new" := Passed], {"new"}, {}, {})

  lemma BuiltAndValidated()
    ensures Init(BEFORE) && Follows(BEFORE, PASSED)
  {
    var w1 := World({"old"}, {"old", "new"}, {"old"}, map["new" := Staged], {}, {}, {});
    var w2 := World({"old"}, {"old", "new"}, {"old"}, map["new" := Written], {}, {}, {});
    assert w1 == Perform(BEFORE, Create("new"));
    FollowsStep(BEFORE, BEFORE, Create("new"));
    assert w2 == Perform(w1, Write("new"));
    FollowsStep(BEFORE, w1, Write("new"));
    assert PASSED == Perform(w2, Validate("new", true, 1, 1));
    FollowsStep(BEFORE, w2, Validate("new", true, 1, 1));
  }

  lemma AbandonedRebuild()
    ensures Init(BEFORE) && Follows(BEFORE, DOOMED)
  {
    BuiltAndValidated();
    var w4 := World({"old"}, {"old", "new"}, {"old"}, map["new" := Failing], {"new"}, {}, {});
    var w5 := World({"old"}, {"old", "new"}, {"old"}, map["new" := Cleared], {"new"}, {}, {});
    assert w4 == Perform(PASSED, Fail("new"));
    FollowsStep(BEFORE, PASSED, Fail("new"));
    assert w5 == Perform(w4, Resolve("new"));
    FollowsStep(BEFORE, w4, Resolve("new"));
    assert DOOMED == Perform(w5, Recheck("new"));
    FollowsStep(BEFORE, w5, Recheck("new"));
  }

  /**
   * A cleanup has checked twice that the alias is elsewhere; a rollback to the very index it is about to delete comes
   * in between, and the alias is left naming a deleted index.
   */
  lemma RollbackRacesWithCleanup()
    ensures Init(BEFORE) && Follows(BEFORE, DOOMED)
    ensures var w := Perform(AfterRollback(DOOMED, "new", "old"), Delete("new"));
            w.names == {"new"} && "new" in w.deleted
  {
    AbandonedRebuild();
    assert At(AfterRollback(DOOMED, "new", "old"), "new", Doomed);
  }

  // ---------------------------------------------------------------------------
  // The service
  // ---------------------------------------------------------------------------

  /** What the engine answers when asked to validate. */
  datatype Validation = Validation(healthy: bool, chunkCount: nat)

  /** Which calls raise; the switch may raise before or after it took effect. */
  datatype Faults = Faults(write: bool, validate: bool, beforeSwitch: bool, afterSwitch: bool, resolve: bool)

  class SearchEngine {
    var names: set<string>
    var indexes: set<string>
    ghost var start: World
    ghost var world: World

    ghost predicate Valid()
      reads this
    {
      Init(start) && Follows(start, world) && names == world.names && indexes == world.indexes
    }

    /** Other rebuilds take any number of steps; they work on other indexes, so none of them adds `mine`. */
    method Interleave(ghost mine: string)
      requires Valid()
      modifies this
      ensures Valid() && start == old(start) && Follows(old(world), world)
      ensures mine in world.phases <==> mine in old(world.phases)
      ensures mine in world.phases ==> world.phases[mine] == old(world.phases)[mine]
      ensures mine in names ==> mine in old(names)
      ensures (mine in world.validated <==> mine in old(world.validated))
              && (mine in world.published <==> mine in old(world.published))
              && (mine in world.deleted <==> mine in old(world.deleted))
    {
    }

    ghost method Note(s: Step)
      requires Valid() && Perform(world, s).names == names && Perform(world, s).indexes == indexes
      modifies this`world
      ensures Valid() && start == old(start) && world == Perform(old(world), s) && Follows(old(world), world)
    {
      FollowsStep(start, world, s);
      FollowsStep(world, world, s);
      world := Perform(world, s);
    }

    method CreateIndex(index: string)
      requires Valid()
      requires index !in world.phases && index !in world.initial && index !in world.names && index !in world.deleted
      modifies this
      ensures Valid() && start == old(start) && Follows(old(world), world) && names == old(names)
      ensures world == Perform(old(world), Create(index))
    {
      indexes := indexes + {index};
      FollowsStep(start, world, Create(index));
      FollowsStep(world, world, Create(index));
      world := Perform(world, Create(index));
    }

    method UpdateAlias(index: string, expected: Option<string>) returns (done: bool)
      requires Valid() && At(world, index, Matched(expected))
      modifies this
      ensures Valid() && start == old(start) && Follows(old(world), world) && indexes == old(indexes)
      ensures world.validated == old(world.validated) && world.deleted == old(world.deleted)
      ensures done ==> At(world, index, Switched) && index in world.published && index in names
      ensures !done ==> world == old(world)
    {
      done := expected.None? || expected.value in names;
      if done {
        names := names - Named(expected) + {index};
      }
      FollowsStep(start, world, Switch(index));
      FollowsStep(world, world, Switch(index));
      world := Perform(world, Switch(index));
    }

    method DeleteIndex(index: string)
      requires Valid() && At(world, index, Doomed)
      modifies this
      ensures Valid() && start == old(start) && Follows(old(world), world) && names == old(names)
      ensures world == Perform(old(world), Delete(index))
    {
      indexes := indexes - {index};
      FollowsStep(start, world, Delete(index));
      FollowsStep(world, world, Delete(index));
      world := Perform(world, Delete(index));
    }
  }

  /**
   * `switch_alias`: look, compare, act, look again. It raises if the alias is not where it should be, before or after
   * the action, or if a call fails.
   */
  method SwitchAlias(engine: SearchEngine, index: string, expected: Option<string>, faults: Faults)
    returns (r: Result<Option<string>>)
    requires engine.Valid() && At(engine.world, index, Passed)
    modifies engine
    ensures engine.Valid() && engine.start == old(engine.start) && Follows(old(engine.world), engine.world)
    ensures index in engine.world.phases && MayFail(engine.world.phases[index])
    ensures engine.world.validated * {index} == old(engine.world.validated) * {index}
    ensures index in engine.world.deleted <==> index in old(engine.world.deleted)
    ensures r.Ok? ==> r.value == expected && At(engine.world, index, Switched) && index in engine.world.published
    ensures index in engine.names ==> index in old(engine.names) || index in engine.world.published
  {
    engine.Interleave(index);
    if Ambiguous(engine.names) { return Err("index_alias_ambiguous"); }
    if engine.names != Named(expected) || faults.beforeSwitch { return Err("index_alias_conflict"); }
    engine.Note(Match(index, expected));
    engine.Interleave(index);
    var done := engine.UpdateAlias(index, expected);
    if !done || faults.afterSwitch { return Err("unavailable"); }
    engine.Interleave(index);
    if engine.names != {index} { return Err("index_alias_result_unknown"); }
    r := Ok(expected);
  }

  /** `delete_generation` of the adapter, which looks at the alias once more. */
  method DeleteGeneration(engine: SearchEngine, index: string)
    requires engine.Valid() && At(engine.world, index, Cleared)
    modifies engine
    ensures engine.Valid() && engine.start == old(engine.start) && Follows(old(engine.world), engine.world)
    ensures index in engine.world.deleted ==>
              index in old(engine.world.deleted) || (index !in engine.names && index !in engine.indexes)
    ensures index in engine.world.published <==> index in old(engine.world.published)
    ensures index in engine.names ==> index in old(engine.names)
  {
    if Ambiguous(engine.names) || engine.names == {index} { return; }
    engine.Note(Recheck(index));
    engine.Interleave(index);
    engine.DeleteIndex(index);
    ReachableIsSafe(engine.start, engine.world);
  }

  /** The cleanup handler: resolve, and delete unless the alias names this index. */
  method CleanUp(engine: SearchEngine, index: string, faults: Faults)
    requires engine.Valid() && index in engine.world.phases && MayFail(engine.world.phases[index])
    modifies engine
    ensures engine.Valid() && engine.start == old(engine.start) && Follows(old(engine.world), engine.world)
    ensures index in engine.world.deleted ==> index !in engine.names && index !in engine.indexes
    ensures index in engine.world.published <==> index in old(engine.world.published)
    ensures index in engine.names ==> index in old(engine.names)
  {
    assert index !in engine.world.deleted by {
      ReachableIsSafe(engine.start, engine.world);
      assert RebuildOk(engine.world, index);
    }
    engine.Note(Fail(index));
    engine.Interleave(index);
    if faults.resolve || Ambiguous(engine.names) || engine.names == {index} { return; }
    engine.Note(Resolve(index));
    engine.Interleave(index);
    DeleteGeneration(engine, index);
  }

  /** What `build_and_publish` tries between creating the index and cleaning up. */
  method Attempt(engine: SearchEngine, index: string, expectedChunks: nat, expectedCurrent: Option<string>,
                 report: Validation, faults: Faults) returns (r: Result<Validation>)
    requires engine.Valid() && At(engine.world, index, Staged) && index !in engine.names
    requires index !in engine.world.published && index !in engine.world.deleted
    modifies engine
    ensures engine.Valid() && engine.start == old(engine.start) && Follows(old(engine.world), engine.world)
    ensures index in engine.world.phases && MayFail(engine.world.phases[index]) && index !in engine.world.deleted
    ensures index in engine.names ==> index in engine.world.published
    ensures index in engine.world.published ==> report.healthy && report.chunkCount == expectedChunks
    ensures r.Ok? ==> r.value == report && index in engine.world.published
  {
    engine.Interleave(index);
    if faults.write { return Err("unavailable"); }
    engine.Note(Write(index));
    engine.Interleave(index);
    if faults.validate { return Err("unavailable"); }
    if !report.healthy || report.chunkCount != expectedChunks { return Err("index_generation_invalid"); }
    engine.Note(Validate(index, report.healthy, report.chunkCount, expectedChunks));
    var switched := SwitchAlias(engine, index, expectedCurrent, faults);
    if switched.Err? {
      engine.Interleave(index);
      if faults.resolve || engine.names != {index} { return Err(switched.code); }
    }
    r := Ok(report);
  }

  /** `build_and_publish`. Success means that the index validated and that the alias was switched to it. */
  method BuildAndPublish(engine: SearchEngine, index: string, expectedChunks: nat, expectedCurrent: Option<string>,
                         report: Validation, faults: Faults) returns (r: Result<Validation>)
    requires engine.Valid()
    requires index !in engine.world.phases && index !in engine.world.initial && index !in engine.world.names
    requires index !in engine.world.deleted && index !in engine.world.published
    modifies engine
    ensures engine.Valid() && engine.start == old(engine.start) && Follows(old(engine.world), engine.world)
    ensures r.Ok? ==> r.value == report && report.healthy && report.chunkCount == expectedChunks
                      && index in engine.world.published && index !in engine.world.deleted
    ensures index in engine.names ==> report.healthy && report.chunkCount == expectedChunks
    ensures index in engine.world.deleted ==> r.Err? && index !in engine.names
  {
    engine.CreateIndex(index);
    r := Attempt(engine, index, expectedChunks, expectedCurrent, report, faults);
    if r.Err? { CleanUp(engine, index, faults); }
  }
}
