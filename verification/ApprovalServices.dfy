/**
 * The approval service as the source runs it, with other processes acting between any two of its calls to the
 * repository. Every method is proved to move the table only along protocol steps.
 */
module ApprovalServices {
  import opened Prelude
  import opened Approvals

  // ---------------------------------------------------------------------------
  // What survives any amount of interleaving
  // ---------------------------------------------------------------------------

  predicate Terminal(status: Status) {
    status in {Rejected, Expired, Cancelled, Succeeded, Failed}
  }

  ghost predicate RowAdvances(w: World, w': World, key: Key) {
    && key in w.rows && key in w'.rows && SameRequest(w.rows[key], w'.rows[key])
    && w.rows[key].revision <= w'.rows[key].revision
    && (Terminal(w.rows[key].status) ==> w'.rows[key] == w.rows[key])
  }

  ghost predicate Advances(w: World, w': World) {
    && w.views <= w'.views && w.starts <= w'.starts
    && forall k {:trigger RowAdvances(w, w', k)} :: k in w.rows ==> RowAdvances(w, w', k)
  }

  lemma StepAdvances(w: World, s: Step)
    requires Consistent(w)
    ensures Advances(w, Perform(w, s))
  {
    if (s.ExpireStep? || s.DecideStep? || s.ClaimStep?) && s.read in w.views {
      assert ViewOk(w, s.read);
    }
    if s.CloseStep? && s.executing in w.running { assert HeldOk(w, s.executing); }
    forall k | k in w.rows ensures RowAdvances(w, Perform(w, s), k) { assert RowOk(w, k); }
  }

  lemma AdvancesCompose(u: World, v: World, w: World)
    requires Advances(u, v) && Advances(v, w)
    ensures Advances(u, w)
  {
    forall k | k in u.rows ensures RowAdvances(u, w, k) {
      assert RowAdvances(u, v, k) && RowAdvances(v, w, k);
    }
  }

  lemma {:induction false} RunAdvances(steps: seq<Step>, steps': seq<Step>)
    requires steps <= steps'
    ensures Advances(Execute(steps), Execute(steps'))
    decreases |steps'|
  {
    if |steps| < |steps'| {
      var front := steps'[..|steps'| - 1];
      RunAdvances(steps, front);
      RunConsistent(front);
      StepAdvances(Execute(front), steps'[|steps'| - 1]);
      AdvancesCompose(Execute(steps), Execute(front), Execute(steps'));
    } else {
      assert steps == steps';
    }
  }

  predicate Started(w: World, key: Key) {
    exists i :: 0 <= i < |w.starts| && w.starts[i].key == key
  }

  // ---------------------------------------------------------------------------
  // The table
  // ---------------------------------------------------------------------------

  class Repository {
    var rows: map<Key, Approval>
    ghost var trace: seq<Step>
    ghost var world: World

    ghost predicate Valid()
      reads this
    {
      world == Execute(trace) && rows == world.rows
    }

    constructor ()
      ensures Valid() && rows == map[] && trace == []
    {
      rows, trace, world := map[], [], EMPTY;
    }

    /**
     * Other processes take any number of steps. None of them was told that it holds the claim `mine`, so none
     * of them starts or closes it.
     */
    method Interleave(ghost mine: Option<Approval>)
      requires Valid()
      modifies this
      ensures Valid() && old(trace) <= trace
      ensures mine.Some? && mine.value in old(world.claimed) ==> mine.value in world.claimed
      ensures mine.Some? && mine.value in old(world.running) ==> mine.value in world.running
    {
    }

    method Get(key: Key) returns (r: Option<Approval>)
      requires Valid()
      modifies this`trace, this`world
      ensures Valid() && rows == old(rows)
      ensures key !in rows ==> r.None? && trace == old(trace)
      ensures key in rows ==> r == Some(rows[key]) && rows[key] in world.views && rows[key].key == key
      ensures key in rows ==> trace == old(trace) + [ReadStep(key)]
    {
      if key !in rows { return None; }
      RunConsistent(trace);
      assert RowOk(world, key);
      Record(ReadStep(key));
      r := Some(rows[key]);
    }

    ghost method Record(s: Step)
      requires Valid() && Perform(world, s).rows == rows
      modifies this`trace, this`world
      ensures Valid() && trace == old(trace) + [s] && world == Perform(old(world), s)
    {
      assert (trace + [s])[..|trace|] == trace;
      trace := trace + [s];
      world := Perform(world, s);
    }

    /** `compare_and_set`, on behalf of protocol step `s`. */
    method CompareAndSet(expected: nat, item: Approval, ghost s: Step) returns (swapped: bool)
      requires Valid()
      requires Perform(world, s).rows == if Swappable(rows, item.key, expected) then rows[item.key := item] else rows
      modifies this
      ensures Valid() && trace == old(trace) + [s] && world == Perform(old(world), s)
      ensures swapped == Swappable(old(rows), item.key, expected)
      ensures rows == if swapped then old(rows)[item.key := item] else old(rows)
    {
      swapped := Swappable(rows, item.key, expected);
      if swapped { rows := rows[item.key := item]; }
      assert (trace + [s])[..|trace|] == trace;
      trace := trace + [s];
      world := Perform(world, s);
    }

    method FindByKey(tenantId: string, idempotencyKey: string) returns (r: Option<Approval>)
      requires Valid()
      ensures r.None? <==> !KeyInUse(rows, tenantId, idempotencyKey)
      ensures r.Some? ==> exists k :: k in rows && rows[k] == r.value && k.tenantId == tenantId
      ensures r.Some? ==> r.value.idempotencyKey == idempotencyKey
    {
      var todo := rows.Keys;
      while todo != {}
        invariant todo <= rows.Keys
        invariant forall k :: k in rows && k !in todo ==>
                      !(k.tenantId == tenantId && rows[k].idempotencyKey == idempotencyKey)
      {
        var k :| k in todo;
        if k.tenantId == tenantId && rows[k].idempotencyKey == idempotencyKey { return Some(rows[k]); }
        todo := todo - {k};
      }
      r := None;
    }
  }

  // ---------------------------------------------------------------------------
  // The service
  // ---------------------------------------------------------------------------

  /** `request`: the same call of the same run is asked for only once; a lost race raises. */
  method Request(repository: Repository, tenantId: string, approvalId: string, runId: string, call: Call,
                 userId: string,
                 requiredRoles: set<string>, idempotencyKey: string, now: int, ttl: nat) returns (r: Result<Approval>)
    requires repository.Valid()
    modifies repository
    ensures repository.Valid() && old(repository.trace) <= repository.trace
    ensures r.Ok? ==> r.value.idempotencyKey == idempotencyKey
    ensures r.Ok? && !KeyInUse(old(repository.rows), tenantId, idempotencyKey) ==>
              && r.value.key == Key(tenantId, approvalId) && r.value.key !in old(repository.rows)
              && r.value.key in repository.rows && repository.rows[r.value.key] == r.value
              && IsNew(r.value) && r.value.call == call && r.value.requiredRoles == requiredRoles
              && r.value.expiresAt == now + ttl
  {
    var existing := repository.FindByKey(tenantId, idempotencyKey);
    if existing.Some? { return Ok(existing.value); }
    var key := Key(tenantId, approvalId);
    ghost var before := repository.trace;
    repository.Interleave(None);
    RunAdvances(before, repository.trace);
    var item := Approval(key, runId, call, userId, requiredRoles, now + ttl, idempotencyKey, ApprovalRequired,
                         None, None, None, 0);
    var clash := repository.FindByKey(tenantId, idempotencyKey);
    if key in repository.rows || clash.Some? { return Err("integrity_error"); }
    forall k | k in old(repository.rows) ensures k in repository.rows {
      assert RowAdvances(Execute(before), repository.world, k);
    }
    ghost var s := RequestStep(item);
    repository.rows := repository.rows[key := item];
    repository.world := Perform(repository.world, s);
    assert (repository.trace + [s])[..|repository.trace|] == repository.trace;
    repository.trace := repository.trace + [s];
    r := Ok(item);
  }

  /** `_expire_if_needed`: the answer is the local copy, whether or not it was stored. */
  method ExpireIfNeeded(repository: Repository, item: Approval, now: int) returns (r: Approval)
    requires repository.Valid() && item in repository.world.views
    modifies repository
    ensures repository.Valid() && old(repository.trace) <= repository.trace
    ensures r == Reported(item, now)
    ensures DueToExpire(item, now) ==> repository.world == Perform(old(repository.world), ExpireStep(item, now))
    ensures !DueToExpire(item, now) ==> repository.world == old(repository.world)
  {
    if item.status != ApprovalRequired || now < item.expiresAt { return item; }
    var expired := item.(status := Expired, revision := item.revision + 1);
    var _ := repository.CompareAndSet(item.revision, expired, ExpireStep(item, now));
    r := expired;
  }

  /** `get_current`. */
  method GetCurrent(repository: Repository, key: Key, now: int) returns (r: Result<Approval>)
    requires repository.Valid()
    modifies repository
    ensures repository.Valid() && old(repository.trace) <= repository.trace
    ensures r.Ok? <==> key in old(repository.rows)
    ensures r.Ok? ==> r.value == Reported(old(repository.rows)[key], now)
  {
    var item := repository.Get(key);
    if item.None? { return Err("approval_not_found"); }
    ghost var w := repository.world;
    ghost var before := repository.trace;
    repository.Interleave(None);
    RunAdvances(before, repository.trace);
    var current := ExpireIfNeeded(repository, item.value, now);
    r := Ok(current);
  }

  /** The row a permitted ruling produces. */
  method Rule(item: Approval, actor: Actor, decision: Decision, at: int) returns (r: Result<Approval>)
    ensures r.Ok? <==> MayDecide(actor, item, decision)
    ensures r.Ok? ==> r.value == DecidedCopy(item, actor, decision, at)
  {
    var status: Status;
    if decision == Cancel {
      if actor.actorId != item.userId && actor.roles * item.requiredRoles == {} { return Err("approval_forbidden"); }
      status := Cancelled;
    } else {
      if item.requiredRoles == {} || actor.roles * item.requiredRoles == {} { return Err("approval_forbidden"); }
      status := if decision == Approve then Approved else Rejected;
    }
    r := Ok(item.(status := status, decidedBy := Some(actor.actorId), decidedAt := Some(at),
                  revision := item.revision + 1));
  }

  /** The row someone else stored is there to be read, and it is decided. */
  lemma OvertakenRow(w: World, item: Approval, w': World)
    requires Consistent(w) && Consistent(w') && Advances(w, w') && ViewOk(w, item) && item.status == ApprovalRequired
    requires w.rows[item.key].revision != item.revision
    ensures item.key in w'.rows && SameRequest(item, w'.rows[item.key]) && w'.rows[item.key].status != ApprovalRequired
    ensures w'.rows[item.key] in Past(w', item.key)
  {
    assert RowAdvances(w, w', item.key);
    assert RowOk(w', item.key) && PastOk(w', item.key);
  }

  /** The part of `decide` after its checks: the answer is the row as it is stored, whoever won. */
  method StoreDecision(repository: Repository, item: Approval, actor: Actor, decision: Decision, now: int, at: int)
    returns (r: Approval, ghost won: bool)
    requires repository.Valid() && item in repository.world.views && item.status == ApprovalRequired
    requires now < item.expiresAt && actor.tenantId == item.key.tenantId && MayDecide(actor, item, decision)
    modifies repository
    ensures repository.Valid()
    ensures old(repository.trace) + [DecideStep(item, actor, decision, now, at)] <= repository.trace
    ensures item.key in repository.rows && r == repository.rows[item.key] && SameRequest(item, r)
    ensures r.status != ApprovalRequired && r in Past(repository.world, item.key)
    ensures won <==> Swappable(old(repository.rows), item.key, item.revision)
    ensures won ==>
              && r == DecidedCopy(item, actor, decision, at) && item.key in repository.world.rulings
              && repository.world.rulings[item.key] == Ruling(actor, decision, now)
  {
    RunConsistent(repository.trace);
    assert ViewOk(repository.world, item);
    var updated := DecidedCopy(item, actor, decision, at);
    var swapped := repository.CompareAndSet(item.revision, updated, DecideStep(item, actor, decision, now, at));
    won := swapped;
    RunConsistent(repository.trace);
    assert PastOk(repository.world, item.key);
    if swapped { return updated, won; }
    ghost var lost := repository.trace;
    repository.Interleave(None);
    RunAdvances(lost, repository.trace);
    RunConsistent(repository.trace);
    OvertakenRow(Execute(lost), item, repository.world);
    r := repository.rows[item.key];
  }

  /**
   * `decide`. Whoever wins the compare-and-set, the answer is the row as it is stored, except for the expired copy.
   * `now` is the clock when expiry is checked, `at` when the decision is stamped; `won` says whether this decision is
   * the one that was stored.
   */
  method Decide(repository: Repository, key: Key, actor: Actor, decision: Decision, now: int, at: int)
    returns (r: Result<Approval>, ghost won: bool)
    requires repository.Valid() && actor.tenantId == key.tenantId
    modifies repository
    ensures repository.Valid() && old(repository.trace) <= repository.trace
    ensures r.Ok? ==> key in old(repository.rows)
    ensures r.Ok? && old(repository.rows)[key].status != ApprovalRequired ==> r.value == old(repository.rows)[key]
    ensures key in old(repository.rows) && old(repository.rows)[key].status == ApprovalRequired
            && now < old(repository.rows)[key].expiresAt ==>
              (r.Ok? <==> MayDecide(actor, old(repository.rows)[key], decision))
    ensures r.Ok? && old(repository.rows)[key].status == ApprovalRequired
            && now < old(repository.rows)[key].expiresAt ==>
              && DecideStep(old(repository.rows)[key], actor, decision, now, at) in repository.trace
              && key in repository.rows && r.value == repository.rows[key] && r.value.status != ApprovalRequired
              && r.value in Past(repository.world, key) && SameRequest(old(repository.rows)[key], r.value)
    ensures won ==>
              && r.Ok? && r.value == DecidedCopy(old(repository.rows)[key], actor, decision, at)
              && key in repository.world.rulings && repository.world.rulings[key] == Ruling(actor, decision, now)
  {
    won := false;
    var read := repository.Get(key);
    if read.None? { return Err("approval_not_found"), won; }
    var item := read.value;
    ghost var before := repository.trace;
    repository.Interleave(None);
    RunAdvances(before, repository.trace);
    if DueToExpire(item, now) {
      var expired := ExpireIfNeeded(repository, item, now);
      return Ok(expired), won;
    }
    if item.status != ApprovalRequired { return Ok(item), won; }
    var ruled := Rule(item, actor, decision, at);
    if ruled.Err? { return Err("approval_forbidden"), won; }
    var stored;
    ghost var seen := repository.trace;
    stored, won := StoreDecision(repository, item, actor, decision, now, at);
    assert repository.trace[|seen|] == DecideStep(item, actor, decision, now, at);
    r := Ok(stored);
  }

  /**
   * `resume`. `denied` is what the tool policy answers now, `outcome` what the tool call returns if it is made:
   * a summary, or an error if it raises. `executed` says whether this call started it.
   */
  method Resume(repository: Repository, key: Key, call: Call, now: int, denied: bool, outcome: Result<Summary>)
    returns (r: Result<Summary>, executed: bool)
    requires repository.Valid()
    modifies repository
    ensures repository.Valid() && old(repository.trace) <= repository.trace
    ensures r.Ok? ==> key in repository.rows && repository.rows[key].status == Succeeded
                      && repository.rows[key].result == Some(r.value) && repository.rows[key].call == call
    ensures executed ==> Started(repository.world, key) && !Started(old(repository.world), key)
                         && key in repository.rows && repository.rows[key].call == call && r == outcome
    ensures key in old(repository.rows) && old(repository.rows)[key].status == Succeeded
            && old(repository.rows)[key].call == call ==>
              !executed && r.Ok? && old(repository.rows)[key].result == Some(r.value)
    ensures key in old(repository.rows) && old(repository.rows)[key].status !in {Approved, Succeeded} ==>
              !executed && r.Err?
  {
    executed := false;
    var read := repository.Get(key);
    if read.None? { return Err("approval_not_found"), false; }
    ghost var t0 := repository.trace;
    ghost var w0 := repository.world;
    RunConsistent(t0);
    assert RowOk(w0, key);
    repository.Interleave(None);
    RunAdvances(t0, repository.trace);
    assert RowAdvances(w0, repository.world, key);
    ghost var t1 := repository.trace;
    var item := ExpireIfNeeded(repository, read.value, now);
    RunAdvances(t1, repository.trace);
    assert RowAdvances(Execute(t1), repository.world, key);
    if item.call != call { return Err("approval_call_changed"), false; }
    if item.status == Succeeded && item.result.Some? { return Ok(item.result.value), false; }
    if item.status != Approved { return Err("approval_not_executable"), false; }
    if denied { return Err("approval_policy_changed"), false; }
    r, executed := ClaimAndExecute(repository, item, outcome);
    NotStartedBefore(w0, key);
  }

  /** The call of an APPROVED row has not started yet. */
  lemma NotStartedBefore(w: World, key: Key)
    requires Consistent(w) && key in w.rows
    ensures w.rows[key].status == Approved ==> !Started(w, key)
  {
    forall i | 0 <= i < |w.starts| ensures w.starts[i].key == key ==> w.rows[key].status != Approved {
      assert StartOk(w, i);
    }
  }

  /** The second half of `resume`: claim, execute once, close. The closing compare-and-set cannot fail. */
  method ClaimAndExecute(repository: Repository, item: Approval, outcome: Result<Summary>)
    returns (r: Result<Summary>, executed: bool)
    requires repository.Valid() && item in repository.world.views && item.status == Approved
    modifies repository
    ensures repository.Valid() && old(repository.trace) <= repository.trace
    ensures item.key in repository.rows && repository.rows[item.key].call == item.call
    ensures r.Ok? ==> repository.rows[item.key].status == Succeeded && repository.rows[item.key].result == Some(r.value)
    ensures executed ==> Started(repository.world, item.key) && r == outcome
  {
    ghost var t0 := repository.trace;
    repository.Interleave(None);
    RunAdvances(t0, repository.trace);
    RunConsistent(repository.trace);
    assert ViewOk(repository.world, item);
    var executing := item.(status := Executing, revision := item.revision + 1);
    var claimed := repository.CompareAndSet(item.revision, executing, ClaimStep(item, item.call));
    if !claimed {
      ghost var t1 := repository.trace;
      repository.Interleave(None);
      RunAdvances(t1, repository.trace);
      assert RowAdvances(Execute(t1), repository.world, item.key);
      var current := repository.rows[item.key];
      if current.status == Succeeded && current.result.Some? { return Ok(current.result.value), false; }
      return Err("approval_execution_conflict"), false;
    }
    r := ExecuteClaimed(repository, executing, outcome);
    executed := true;
  }

  /** What a claimant does with the row it claimed. */
  method ExecuteClaimed(repository: Repository, executing: Approval, outcome: Result<Summary>)
    returns (r: Result<Summary>)
    requires repository.Valid() && executing in repository.world.claimed
    modifies repository
    ensures repository.Valid() && old(repository.trace) <= repository.trace
    ensures Started(repository.world, executing.key) && r == outcome
    ensures executing.key in repository.rows
    ensures repository.rows[executing.key] == ClosedCopy(executing, if r.Ok? then Some(r.value) else None)
  {
    repository.Record(StartStep(executing));
    assert Started(repository.world, executing.key) by {
      assert repository.world.starts[|repository.world.starts| - 1].key == executing.key;
    }
    ghost var started := repository.trace;
    repository.Interleave(Some(executing));          // the tool call
    RunAdvances(started, repository.trace);
    StillStarted(Execute(started), repository.world, executing.key);
    ClosingNeverFails(repository.trace, executing);
    var result := if outcome.Ok? then Some(outcome.value) else None;
    var stored := repository.CompareAndSet(executing.revision, ClosedCopy(executing, result),
                                           CloseStep(executing, result));
    assert stored;
    r := outcome;
  }

  lemma StillStarted(w: World, w': World, key: Key)
    requires w.starts <= w'.starts && Started(w, key)
    ensures Started(w', key)
  {
    var i :| 0 <= i < |w.starts| && w.starts[i].key == key;
    assert w'.starts[i] == w.starts[i];
  }
}
