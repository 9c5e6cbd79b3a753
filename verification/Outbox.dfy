/** The outbox dispatcher and its retry policy. Times and delays are reals, in seconds. */
module Outbox {
  import opened Prelude

  // ---------------------------------------------------------------------------
  // Failure classification and retry policy
  // ---------------------------------------------------------------------------

  datatype FailureClass = Transient | Concurrency | Permanent | Unknown

  /**
   * What an action may raise: authorization and not-found errors, conflicts with a code, timeouts and lost
   * connections, errors that carry an HTTP status and maybe a retry-after value, and anything else.
   */
  datatype Error =
    | Denied
    | Conflict(code: string)
    | Unreachable
    | Http(status: int, retryAfter: Option<real>)
    | Other

  datatype Decision = Decision(classification: FailureClass, retryable: bool, retryAfter: Option<real>)

  const CONCURRENCY_CODES: set<string> :=
    {"document_revision_conflict", "lifecycle_fencing_conflict", "index_alias_conflict", "operation_lease_lost"}

  /** `classify_failure`. */
  function Classify(error: Error): (d: Decision)
    ensures d.retryable <==> d.classification in {Transient, Concurrency}
    ensures d.classification == Concurrency <==> error.Conflict? && error.code in CONCURRENCY_CODES
    ensures d.retryAfter.Some? ==> error.Http? && d.retryAfter.value >= 0.0
  {
    match error
    case Denied => Decision(Permanent, false, None)
    case Conflict(code) =>
      if code in CONCURRENCY_CODES then Decision(Concurrency, true, None) else Decision(Permanent, false, None)
    case Unreachable => Decision(Transient, true, None)
    case Http(status, after) =>
      var retryable := status in {408, 409, 425, 429} || status >= 500;
      Decision(if retryable then Transient else Permanent, retryable,
               if after.Some? then Some(MaxReal(0.0, after.value)) else None)
    case Other => Decision(Unknown, false, None)
  }

  datatype Policy = Policy(maxAttempts: int, concurrencyAttempts: int, baseSeconds: real, maxSeconds: real)

  /** `may_retry`, for an event that has now been attempted `attempt` times. */
  predicate MayRetry(d: Decision, attempt: int, policy: Policy) {
    d.retryable && attempt < (if d.classification == Concurrency then policy.concurrencyAttempts
                              else policy.maxAttempts)
  }

  /** `x * 2 ** n`. */
  function Doubled(x: real, n: nat): (r: real)
    ensures x >= 0.0 ==> r >= x
    ensures x < 0.0 ==> r < 0.0
  {
    if n == 0 then x else 2.0 * Doubled(x, n - 1)
  }

  /** The backoff before jitter. */
  function Ceiling(policy: Policy, attempt: int): real {
    MinReal(policy.maxSeconds, Doubled(policy.baseSeconds, if attempt > 1 then attempt - 1 else 0))
  }

  function Jittered(ceiling: real, random: real): (r: real)
    ensures ceiling >= 0.0 && 0.0 <= random < 1.0 ==> 0.0 <= r <= ceiling
    ensures random == 0.5 ==> r == ceiling / 2.0
  {
    Shrinks(ceiling, random);
    ceiling * random
  }

  /** `delay_seconds`; `random` is drawn from [0, 1). */
  function Delay(policy: Policy, attempt: int, retryAfter: Option<real>, random: real): real {
    if retryAfter.Some? then MinReal(MaxReal(0.0, retryAfter.value), policy.maxSeconds)
    else Jittered(Ceiling(policy, attempt), random)
  }

  predicate InBounds(policy: Policy, delay: real) {
    0.0 <= delay <= policy.maxSeconds
  }

  ghost predicate AlwaysInBounds(policy: Policy) {
    forall attempt: int, after: Option<real>, random: real {:trigger Delay(policy, attempt, after, random)} ::
      0.0 <= random < 1.0 ==> InBounds(policy, Delay(policy, attempt, after, random))
  }

  lemma DelayIsBounded(policy: Policy, attempt: int, after: Option<real>, random: real)
    requires policy.maxSeconds >= 0.0 && policy.baseSeconds >= 0.0 && 0.0 <= random < 1.0
    ensures InBounds(policy, Delay(policy, attempt, after, random))
  {
    CeilingIsBounded(policy, attempt);
  }

  /** A negative maximum shows after a retry-after of zero, a negative base in the first jittered delay. */
  lemma NegativeDurationsShow(policy: Policy)
    requires policy.maxSeconds < 0.0 || policy.baseSeconds < 0.0
    ensures !InBounds(policy, Delay(policy, 1, Some(0.0), 0.5)) || !InBounds(policy, Delay(policy, 1, None, 0.5))
  {
    if policy.maxSeconds >= 0.0 {
      assert Ceiling(policy, 1) == policy.baseSeconds;
    }
  }

  /** Every delay lies in [0, max_seconds] exactly for the policies whose two durations are not negative. */
  lemma DelaysAreBoundedExactly(policy: Policy)
    ensures AlwaysInBounds(policy) <==> policy.maxSeconds >= 0.0 && policy.baseSeconds >= 0.0
  {
    if policy.maxSeconds >= 0.0 && policy.baseSeconds >= 0.0 {
      forall attempt: int, after: Option<real>, random: real | 0.0 <= random < 1.0
        ensures InBounds(policy, Delay(policy, attempt, after, random))
      {
        DelayIsBounded(policy, attempt, after, random);
      }
    } else {
      NegativeDurationsShow(policy);
    }
  }

  lemma CeilingIsBounded(policy: Policy, attempt: int)
    requires policy.maxSeconds >= 0.0 && policy.baseSeconds >= 0.0
    ensures 0.0 <= Ceiling(policy, attempt) <= policy.maxSeconds
  {
  }

  lemma Shrinks(x: real, r: real)
    ensures x >= 0.0 && 0.0 <= r < 1.0 ==> 0.0 <= x * r <= x
  {
    if x >= 0.0 && 0.0 <= r < 1.0 {
      ProductNonNegative(x, r);
      ProductNonNegative(x, 1.0 - r);
      assert x * (1.0 - r) == x - x * r;
    }
  }

  // ---------------------------------------------------------------------------
  // Events
  // ---------------------------------------------------------------------------

  datatype Status = Pending | Published | Cancelled | DeadLetter

  datatype Event = Event(id: string, status: Status, attempts: nat, availableAt: real)

  /** How the action of one event went in one pass: when it ended, what it raised, and the jitter drawn if needed. */
  datatype Outcome = Outcome(error: Option<Error>, now: real, random: real)

  /** What the dispatcher saves for an event. */
  function Settled(policy: Policy, event: Event, o: Outcome): Event {
    var attempt := event.attempts + 1;
    match o.error
    case None => event.(status := Published, attempts := attempt)
    case Some(error) =>
      var d := Classify(error);
      if MayRetry(d, attempt, policy) then
        event.(attempts := attempt, availableAt := o.now + Delay(policy, attempt, d.retryAfter, o.random))
      else event.(status := DeadLetter, attempts := attempt)
  }

  predicate Due(event: Event, now: real) {
    event.status == Pending && event.availableAt <= now
  }

  /** `tried` counts the attempts of each event, `returned` holds the events whose last action returned normally. */
  datatype World = World(rows: map<string, Event>, tried: map<string, nat>, returned: set<string>)

  function Tried(w: World, id: string): nat {
    if id in w.tried then w.tried[id] else 0
  }

  /** One pass: the listed events, and how each went. */
  datatype Pass = Pass(listed: seq<Event>, outcomes: map<string, Outcome>)

  /** What `list_due` may have listed. */
  predicate Listing(w: World, listed: seq<Event>) {
    && (forall i :: 0 <= i < |listed| ==>
          listed[i].id in w.rows && w.rows[listed[i].id] == listed[i] && listed[i].status == Pending)
    && (forall i, j :: 0 <= i < j < |listed| ==> listed[i].id != listed[j].id)
  }

  predicate Ran(w: World, pass: Pass) {
    Listing(w, pass.listed) && forall i :: 0 <= i < |pass.listed| ==> pass.listed[i].id in pass.outcomes
  }

  /** The first `n` listed events are settled, one after the other. */
  function AfterPass(policy: Policy, w: World, pass: Pass, n: nat): World
    requires n <= |pass.listed| && forall i :: 0 <= i < |pass.listed| ==> pass.listed[i].id in pass.outcomes
  {
    if n == 0 then w
    else
      var before := AfterPass(policy, w, pass, n - 1);
      var event := pass.listed[n - 1];
      var o := pass.outcomes[event.id];
      World(before.rows[event.id := Settled(policy, event, o)],
            before.tried[event.id := Tried(before, event.id) + 1],
            if o.error.None? then before.returned + {event.id} else before.returned - {event.id})
  }

  ghost predicate Lists(pass: Pass, n: nat, id: string)
    requires n <= |pass.listed|
  {
    exists i :: 0 <= i < n && pass.listed[i].id == id
  }

  /** A pass saves each listed event exactly once, with one more attempt, whatever happened to the others. */
  lemma {:induction false} PassSettlesEach(policy: Policy, w: World, pass: Pass, n: nat, id: string)
    requires Ran(w, pass) && n <= |pass.listed|
    ensures var w' := AfterPass(policy, w, pass, n);
            if Lists(pass, n, id) then
              && id in w.rows && id in w'.rows && w.rows[id].status == Pending
              && w'.rows[id] == Settled(policy, w.rows[id], pass.outcomes[id])
              && Tried(w', id) == Tried(w, id) + 1
              && (id in w'.returned <==> pass.outcomes[id].error.None?)
            else
              && (id in w'.rows <==> id in w.rows) && (id in w.rows ==> w'.rows[id] == w.rows[id])
              && Tried(w', id) == Tried(w, id) && (id in w'.returned <==> id in w.returned)
  {
    if n > 0 {
      PassSettlesEach(policy, w, pass, n - 1, id);
      if pass.listed[n - 1].id == id { assert Lists(pass, n, id); }
      if Lists(pass, n - 1, id) {
        var i :| 0 <= i < n - 1 && pass.listed[i].id == id;
        assert pass.listed[i].id != pass.listed[n - 1].id;
      }
    }
  }

  // ---------------------------------------------------------------------------
  // Any sequence of passes, registrations and cancellations
  // ---------------------------------------------------------------------------

  /** The larger of the two attempt limits; an event is attempted once even when both are below one. */
  function Limit(policy: Policy): int {
    var larger := if policy.maxAttempts < policy.concurrencyAttempts then policy.concurrencyAttempts
        else policy.maxAttempts;
    if larger < 1 then 1 else larger
  }

  ghost predicate EventOk(policy: Policy, w: World, id: string)
    requires id in w.rows
  {
    && w.rows[id].attempts == Tried(w, id) <= Limit(policy)
    && (w.rows[id].status == Pending ==> w.rows[id].attempts < Limit(policy))
    && (w.rows[id].status == Published ==> id in w.returned)
  }

  ghost predicate Bounded(policy: Policy, w: World) {
    && (forall id {:trigger EventOk(policy, w, id)} :: id in w.rows ==> EventOk(policy, w, id))
    && (forall id :: id !in w.rows ==> Tried(w, id) == 0)
  }

  /** What happens to the rows between and in the passes of the one dispatcher. */
  datatype Turn = Dispatching(pass: Pass) | Registering(id: string, availableAt: real) | Cancelling(id: string)

  function AfterTurn(policy: Policy, w: World, turn: Turn): World {
    match turn
    case Dispatching(pass) => if Ran(w, pass) then AfterPass(policy, w, pass, |pass.listed|) else w
    case Registering(id, availableAt) =>
      if id in w.rows then w else w.(rows := w.rows[id := Event(id, Pending, 0, availableAt)])
    case Cancelling(id) =>
      if id in w.rows && w.rows[id].status == Pending then w.(rows := w.rows[id := w.rows[id].(status := Cancelled)])
          else w
  }

  const EMPTY := World(map[], map[], {})

  function RunTurns(policy: Policy, turns: seq<Turn>): World
    decreases |turns|
  {
    if turns == [] then EMPTY
    else AfterTurn(policy, RunTurns(policy, turns[..|turns| - 1]), turns[|turns| - 1])
  }

  /**
   * Over any sequence of passes, with events registered and cancelled in between, an event is attempted at most
   * `max(max_attempts, concurrency_attempts)` times (once if both are below one), its row counts its attempts, and it
   * is PUBLISHED only if its last action returned normally.
   */
  lemma {:induction false} AttemptsAreBounded(policy: Policy, turns: seq<Turn>)
    ensures Bounded(policy, RunTurns(policy, turns))
    decreases |turns|
  {
    if turns != [] {
      AttemptsAreBounded(policy, turns[..|turns| - 1]);
      TurnKeepsBounds(policy, RunTurns(policy, turns[..|turns| - 1]), turns[|turns| - 1]);
    }
  }

  lemma TurnKeepsBounds(policy: Policy, w: World, turn: Turn)
    requires Bounded(policy, w)
    ensures Bounded(policy, AfterTurn(policy, w, turn))
  {
    var w' := AfterTurn(policy, w, turn);
    match turn
    case Dispatching(pass) => if Ran(w, pass) { PassKeepsBounds(policy, w, pass); }
    case Registering(_, _) =>
      forall id | id in w'.rows ensures EventOk(policy, w', id) { assert id in w.rows ==> EventOk(policy, w, id); }
    case Cancelling(_) =>
      forall id | id in w'.rows ensures EventOk(policy, w', id) { assert EventOk(policy, w, id); }
  }

  lemma PassKeepsBounds(policy: Policy, w: World, pass: Pass)
    requires Bounded(policy, w) && Ran(w, pass)
    ensures Bounded(policy, AfterPass(policy, w, pass, |pass.listed|))
  {
    var w' := AfterPass(policy, w, pass, |pass.listed|);
    forall id | id in w'.rows ensures EventOk(policy, w', id) {
      PassSettlesEach(policy, w, pass, |pass.listed|, id);
      assert EventOk(policy, w, id);
    }
    forall id | id !in w'.rows ensures Tried(w', id) == 0 {
      PassSettlesEach(policy, w, pass, |pass.listed|, id);
    }
  }

  /** PUBLISHED, CANCELLED and DEAD_LETTER are final: no pass attempts such an event again. */
  lemma SettledStays(policy: Policy, w: World, pass: Pass, id: string)
    requires Ran(w, pass) && id in w.rows && w.rows[id].status != Pending
    ensures var w' := AfterPass(policy, w, pass, |pass.listed|);
            id in w'.rows && w'.rows[id] == w.rows[id] && Tried(w', id) == Tried(w, id)
  {
    PassSettlesEach(policy, w, pass, |pass.listed|, id);
  }

  /** How many of the first `n` listed events were published. */
  function CountPublished(pass: Pass, n: nat): nat
    requires n <= |pass.listed| && forall i :: 0 <= i < |pass.listed| ==> pass.listed[i].id in pass.outcomes
  {
    if n == 0 then 0
    else CountPublished(pass, n - 1) + (if pass.outcomes[pass.listed[n - 1].id].error.None? then 1 else 0)
  }

  // ---------------------------------------------------------------------------
  // The dispatcher
  // ---------------------------------------------------------------------------

  /** What the event asks for, as far as the dispatcher can tell. */
  datatype Request = Ingestion(wellFormed: bool) | Cleanup(documentId: string) | Unsupported

  predicate Holds(listed: seq<Event>, id: string) {
    exists i :: 0 <= i < |listed| && listed[i].id == id
  }

  /** `listed` are the events outside `todo` taken so far, longest available first. */
  ghost predicate Taken(rows: map<string, Event>, listed: seq<Event>, todo: set<string>, now: real) {
    && todo <= rows.Keys
    && (forall i :: 0 <= i < |listed| ==>
        listed[i].id in rows && rows[listed[i].id] == listed[i] && Due(listed[i], now))
    && (forall i, j :: 0 <= i < j < |listed| ==>
        listed[i].id != listed[j].id && listed[i].availableAt <= listed[j].availableAt)
    && (forall id :: id in rows ==> (id in todo <==> !Holds(listed, id)))
    && (forall i, id :: 0 <= i < |listed| && id in todo && Due(rows[id], now) ==>
        listed[i].availableAt <= rows[id].availableAt)
  }

  lemma TakeNext(rows: map<string, Event>, listed: seq<Event>, todo: set<string>, now: real, next: string)
    requires Taken(rows, listed, todo, now) && next in todo && rows[next].id == next && Due(rows[next], now)
    requires forall id :: id in todo && Due(rows[id], now) ==> rows[next].availableAt <= rows[id].availableAt
    ensures Taken(rows, listed + [rows[next]], todo - {next}, now)
  {
    var more := listed + [rows[next]];
    forall id | id in rows ensures id in todo - {next} <==> !Holds(more, id) {
      assert Holds(more, id) <==> Holds(listed, id) || id == next by {
        if Holds(listed, id) {
          var i :| 0 <= i < |listed| && listed[i].id == id;
          assert more[i].id == id;
        }
        if id == next { assert more[|listed|].id == id; }
      }
    }
    forall i | 0 <= i < |listed| ensures listed[i].id != next && listed[i].availableAt <= rows[next].availableAt {
      assert Holds(listed, listed[i].id);
    }
  }

  class Dispatcher {
    const policy: Policy
    const hasPurger: bool
    var rows: map<string, Event>
    ghost var world: World

    ghost predicate Valid()
      reads this
    {
      world.rows == rows && forall id :: id in rows ==> rows[id].id == id
    }

    /** The due event that has been available longest, among `todo`. */
    method NextDue(todo: set<string>, now: real) returns (next: Option<string>)
      requires Valid() && todo <= rows.Keys
      ensures next.None? <==> forall id :: id in todo ==> !Due(rows[id], now)
      ensures next.Some? ==> next.value in todo && Due(rows[next.value], now)
                             && forall id :: id in todo && Due(rows[id], now) ==>
                                  rows[next.value].availableAt <= rows[id].availableAt
    {
      next := None;
      var left := todo;
      while left != {}
        invariant left <= todo
        invariant next.None? ==> forall id :: id in todo - left ==> !Due(rows[id], now)
        invariant next.Some? ==> next.value in todo && Due(rows[next.value], now)
                                 && forall id :: id in todo - left && Due(rows[id], now) ==>
                                      rows[next.value].availableAt <= rows[id].availableAt
      {
        var id :| id in left;
        left := left - {id};
        if Due(rows[id], now) && (next.None? || rows[id].availableAt < rows[next.value].availableAt) {
          next := Some(id);
        }
      }
    }

    /** `list_due`: at most `limit` due events, longest available first; fewer only if there are no more. */
    method ListDue(now: real, limit: nat) returns (listed: seq<Event>)
      requires Valid()
      ensures Listing(world, listed) && |listed| <= limit
      ensures forall i :: 0 <= i < |listed| ==> Due(listed[i], now)
      ensures forall i, j :: 0 <= i < j < |listed| ==> listed[i].availableAt <= listed[j].availableAt
      ensures |listed| < limit ==> forall id :: id in rows && Due(rows[id], now) ==> Holds(listed, id)
    {
      listed := [];
      var todo := rows.Keys;
      while |listed| < limit
        invariant Taken(rows, listed, todo, now) && |listed| <= limit
        decreases |todo|
      {
        var next := NextDue(todo, now);
        if next.None? { break; }
        TakeNext(rows, listed, todo, now, next.value);
        todo := todo - {next.value};
        listed := listed + [rows[next.value]];
      }
    }

    /** What to save for an event that was just attempted. */
    method Settle(event: Event, o: Outcome) returns (updated: Event)
      ensures updated == Settled(policy, event, o)
      ensures updated.id == event.id && updated.attempts == event.attempts + 1
      ensures event.status == Pending ==>
                && (updated.status == Published <==> o.error.None?)
                && (updated.status == Pending ==> updated.attempts < Limit(policy))
                && updated.status != Cancelled
    {
      if o.error.None? { return event.(status := Published, attempts := event.attempts + 1); }
      var decision := Classify(o.error.value);
      var attempt := event.attempts + 1;
      if MayRetry(decision, attempt, policy) {
        var delay := Delay(policy, attempt, decision.retryAfter, o.random);
        return event.(attempts := attempt, availableAt := o.now + delay);
      }
      updated := event.(status := DeadLetter, attempts := attempt);
    }

    /**
     * `dispatch_due`. `requests` tells what each event asks for; `outcomes` how the publication or purge it leads to
     * would go. A malformed or unsupported event raises by itself.
     */
    method DispatchDue(now: real, limit: nat, requests: map<string, Request>, outcomes: map<string, Outcome>)
      returns (published: nat, ghost pass: Pass)
      requires Valid() && (forall id :: id in rows ==> id in requests && id in outcomes)
      modifies this`rows, this`world
      ensures Valid() && Ran(old(world), pass)
      ensures world == AfterPass(policy, old(world), pass, |pass.listed|)
      ensures |pass.listed| <= limit && forall i :: 0 <= i < |pass.listed| ==> Due(pass.listed[i], now)
      ensures published == CountPublished(pass, |pass.listed|)
    {
      var listed := ListDue(now, limit);
      ghost var w := world;
      var effective := map id | id in rows :: Effective(requests[id], outcomes[id]);
      pass := Pass(listed, effective);
      published := 0;
      for n := 0 to |listed|
        invariant Valid() && world == AfterPass(policy, w, pass, n) && published == CountPublished(pass, n)
      {
        var event := listed[n];
        var o := effective[event.id];
        var updated := Settle(event, o);
        if o.error.None? { published := published + 1; }
        rows := rows[event.id := updated];
        world := AfterPass(policy, w, pass, n + 1);
      }
    }

    /** The action of an event: what the port answers, unless the dispatcher raises before asking it. */
    function Effective(request: Request, o: Outcome): Outcome {
      match request
      case Ingestion(wellFormed) => if wellFormed then o else o.(error := Some(Other))
      case Cleanup(documentId) => if hasPurger && documentId != "" then o else o.(error := Some(Other))
      case Unsupported => o.(error := Some(Other))
    }
  }
}
