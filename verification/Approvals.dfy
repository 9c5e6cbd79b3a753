/**
 * Human approval of tool calls as a step machine. Any number of processes request, decide, read and resume
 * approvals; each acts on a row it read at any earlier time, and the compare-and-set on `revision` decides.
 */
module Approvals {
  import opened Prelude

  datatype Status = ApprovalRequired | Approved | Rejected | Expired | Cancelled | Executing | Succeeded | Failed

  /** What identifies one exact tool call; the digest stands for the arguments. */
  datatype Call = Call(toolCallId: string, toolName: string, toolVersion: string, argumentDigest: string)

  datatype Summary = Summary(call: Call, status: string, outputDigest: Option<string>)

  datatype Key = Key(tenantId: string, approvalId: string)

  datatype Approval = Approval(
    key: Key,
    runId: string,
    call: Call,
    userId: string,
    requiredRoles: set<string>,
    expiresAt: int,
    idempotencyKey: string,
    status: Status,
    decidedBy: Option<string>,
    decidedAt: Option<int>,
    result: Option<Summary>,
    revision: nat)

  datatype Actor = Actor(tenantId: string, actorId: string, roles: set<string>)

  datatype Decision = Approve | Reject | Cancel

  // ---------------------------------------------------------------------------
  // What the service computes from a row
  // ---------------------------------------------------------------------------

  predicate DueToExpire(item: Approval, now: int) {
    item.status == ApprovalRequired && item.expiresAt <= now
  }

  function ExpiredCopy(item: Approval): Approval {
    item.(status := Expired, revision := item.revision + 1)
  }

  predicate HoldsRequiredRole(actor: Actor, item: Approval) {
    actor.roles * item.requiredRoles != {}
  }

  predicate MayDecide(actor: Actor, item: Approval, decision: Decision) {
    if decision.Cancel? then actor.actorId == item.userId || HoldsRequiredRole(actor, item)
    else HoldsRequiredRole(actor, item)
  }

  function DecidedCopy(item: Approval, actor: Actor, decision: Decision, at: int): Approval {
    var status := match decision case Approve => Approved case Reject => Rejected case Cancel => Cancelled;
    item.(status := status, decidedBy := Some(actor.actorId), decidedAt := Some(at), revision := item.revision + 1)
  }

  function ExecutingCopy(item: Approval): Approval {
    item.(status := Executing, revision := item.revision + 1)
  }

  /** How the claimant closes the row: with the summary the tool call returned, or as failed if it raised. */
  function ClosedCopy(executing: Approval, result: Option<Summary>): Approval {
    executing.(status := if result.Some? then Succeeded else Failed, result := result,
               revision := executing.revision + 1)
  }

  // ---------------------------------------------------------------------------
  // The step machine
  // ---------------------------------------------------------------------------

  datatype Ruling = Ruling(actor: Actor, decision: Decision, checkedAt: int)

  datatype Start = Start(key: Key, call: Call)

  /**
   * `rows` is the table. The rest is history: every row ever read, the rows claimants hold between claiming,
   * starting and closing, the tool executions started, who ruled on which row, and each row's past.
   */
  datatype World = World(
    rows: map<Key, Approval>,
    views: set<Approval>,
    claimed: set<Approval>,
    running: set<Approval>,
    starts: seq<Start>,
    rulings: map<Key, Ruling>,
    history: map<Key, seq<Approval>>)

  datatype Step =
    | RequestStep(item: Approval)
    | ReadStep(key: Key)
    | ExpireStep(read: Approval, now: int)
    | DecideStep(read: Approval, actor: Actor, decision: Decision, now: int, at: int)
    | ClaimStep(read: Approval, call: Call)
    | StartStep(executing: Approval)
    | CloseStep(executing: Approval, result: Option<Summary>)

  const EMPTY: World := World(map[], {}, {}, {}, [], map[], map[])

  predicate KeyInUse(rows: map<Key, Approval>, tenantId: string, idempotencyKey: string) {
    exists k :: k in rows && k.tenantId == tenantId && rows[k].idempotencyKey == idempotencyKey
  }

  /** `compare_and_set`: the row is replaced if and only if it still has the expected revision. */
  predicate Swappable(rows: map<Key, Approval>, key: Key, expected: nat) {
    key in rows && rows[key].revision == expected
  }

  function Past(w: World, key: Key): seq<Approval> {
    if key in w.history then w.history[key] else []
  }

  function Stored(w: World, item: Approval): World {
    w.(rows := w.rows[item.key := item], history := w.history[item.key := Past(w, item.key) + [item]])
  }

  function Swap(w: World, expected: nat, item: Approval): World {
    if Swappable(w.rows, item.key, expected) then Stored(w, item) else w
  }

  predicate IsNew(item: Approval) {
    item.status == ApprovalRequired && item.revision == 0 && item.decidedBy.None? && item.decidedAt.None?
    && item.result.None?
  }

  function AfterRequest(w: World, item: Approval): World {
    if !IsNew(item) || item.key in w.rows || KeyInUse(w.rows, item.key.tenantId, item.idempotencyKey) then w
    else Stored(w, item)
  }

  function AfterDecide(w: World, read: Approval, actor: Actor, decision: Decision, now: int, at: int): World {
    if read in w.views && read.status == ApprovalRequired && now < read.expiresAt
       && actor.tenantId == read.key.tenantId && MayDecide(actor, read, decision)
       && Swappable(w.rows, read.key, read.revision) then
      Stored(w, DecidedCopy(read, actor, decision, at)).(rulings := w.rulings[read.key := Ruling(actor, decision, now)])
    else w
  }

  function AfterClaim(w: World, read: Approval, call: Call): World {
    if read in w.views && read.call == call && read.status == Approved
        && Swappable(w.rows, read.key, read.revision) then
      Stored(w, ExecutingCopy(read)).(claimed := w.claimed + {ExecutingCopy(read)})
    else w
  }

  function AfterStart(w: World, executing: Approval): World {
    if executing in w.claimed then
      w.(claimed := w.claimed - {executing}, running := w.running + {executing},
         starts := w.starts + [Start(executing.key, executing.call)])
    else w
  }

  function AfterClose(w: World, executing: Approval, result: Option<Summary>): World {
    if executing in w.running then
      Swap(w, executing.revision, ClosedCopy(executing, result)).(running := w.running - {executing})
    else w
  }

  /** One step; a step whose guard or compare-and-set fails leaves the table as it is. */
  function Perform(w: World, s: Step): World {
    match s
    case RequestStep(item) => AfterRequest(w, item)
    case ReadStep(key) => if key in w.rows then w.(views := w.views + {w.rows[key]}) else w
    case ExpireStep(read, now) =>
      if read in w.views && DueToExpire(read, now) then Swap(w, read.revision, ExpiredCopy(read)) else w
    case DecideStep(read, actor, decision, now, at) => AfterDecide(w, read, actor, decision, now, at)
    case ClaimStep(read, call) => AfterClaim(w, read, call)
    case StartStep(executing) => AfterStart(w, executing)
    case CloseStep(executing, result) => AfterClose(w, executing, result)
  }

  function Execute(steps: seq<Step>): World
    decreases |steps|
  {
    if steps == [] then EMPTY else Perform(Execute(steps[..|steps| - 1]), steps[|steps| - 1])
  }

  // ---------------------------------------------------------------------------
  // The invariant
  // ---------------------------------------------------------------------------

  /** The only status changes a stored row goes through. */
  predicate Edge(a: Status, b: Status) {
    match a
    case ApprovalRequired => b in {Approved, Rejected, Cancelled, Expired}
    case Approved => b == Executing
    case Executing => b in {Succeeded, Failed}
    case _ => false
  }

  function RevisionOf(status: Status): nat {
    match status
    case ApprovalRequired => 0
    case Executing => 2
    case Succeeded => 3
    case Failed => 3
    case _ => 1
  }

  /** What requesting fixes for good. */
  predicate SameRequest(a: Approval, b: Approval) {
    b == a.(status := b.status, decidedBy := b.decidedBy, decidedAt := b.decidedAt, result := b.result,
            revision := b.revision)
  }

  predicate Sanctioned(status: Status) {
    status in {Approved, Executing, Succeeded, Failed}
  }

  predicate WellFormed(item: Approval) {
    && item.revision == RevisionOf(item.status)
    && (item.result.Some? <==> item.status == Succeeded)
    && (item.status in {ApprovalRequired, Expired} ==> item.decidedBy.None? && item.decidedAt.None?)
  }

  ghost predicate RowOk(w: World, key: Key)
    requires key in w.rows
  {
    var row := w.rows[key];
    && row.key == key && WellFormed(row)
    && (Sanctioned(row.status) ==>
          && key in w.rulings && w.rulings[key].decision == Approve && w.rulings[key].checkedAt < row.expiresAt
          && w.rulings[key].actor.tenantId == key.tenantId && HoldsRequiredRole(w.rulings[key].actor, row)
          && row.decidedBy == Some(w.rulings[key].actor.actorId))
  }

  ghost predicate PastOk(w: World, key: Key)
    requires key in w.rows
  {
    var past := Past(w, key);
    && |past| == w.rows[key].revision + 1 && past[|past| - 1] == w.rows[key]
    && past[0].status == ApprovalRequired
    && (forall i :: 0 <= i < |past| ==> past[i].revision == i && SameRequest(past[0], past[i]))
    && (forall i :: 0 < i < |past| ==> Edge(past[i - 1].status, past[i].status))
  }

  /** A row read earlier is a past state of it, and the present one only at the same revision. */
  ghost predicate ViewOk(w: World, read: Approval) {
    && WellFormed(read) && read.key in w.rows && SameRequest(read, w.rows[read.key])
    && read.revision <= w.rows[read.key].revision
    && (read.revision == w.rows[read.key].revision ==> read == w.rows[read.key])
  }

  ghost predicate HeldOk(w: World, executing: Approval) {
    executing.key in w.rows && w.rows[executing.key] == executing && executing.status == Executing
  }

  ghost predicate StartOk(w: World, i: nat)
    requires i < |w.starts|
  {
    var start := w.starts[i];
    && start.key in w.rows && w.rows[start.key].status in {Executing, Succeeded, Failed}
    && w.rows[start.key].call == start.call
    && (forall e :: e in w.claimed ==> e.key != start.key)
    && (forall j :: 0 <= j < |w.starts| && j != i ==> w.starts[j].key != start.key)
  }

  ghost predicate Consistent(w: World) {
    && (forall k {:trigger RowOk(w, k)} :: k in w.rows ==> RowOk(w, k))
    && (forall k {:trigger PastOk(w, k)} :: k in w.rows ==> PastOk(w, k))
    && (forall k {:trigger k in w.history} :: k in w.history ==> k in w.rows)
    && (forall r {:trigger ViewOk(w, r)} :: r in w.views ==> ViewOk(w, r))
    && (forall e {:trigger HeldOk(w, e)} :: e in w.claimed || e in w.running ==> HeldOk(w, e))
    && w.claimed !! w.running
    && (forall i {:trigger StartOk(w, i)} :: 0 <= i < |w.starts| ==> StartOk(w, i))
  }

  lemma PastGrows(w: World, w': World, item: Approval)
    requires item.key in w.rows && PastOk(w, item.key) && RowOk(w, item.key)
    requires SameRequest(w.rows[item.key], item) && item.revision == w.rows[item.key].revision + 1
    requires Edge(w.rows[item.key].status, item.status)
    requires w'.rows == w.rows[item.key := item] && w'.history == w.history[item.key := Past(w, item.key) + [item]]
    ensures PastOk(w', item.key)
  {
    var past := Past(w, item.key);
    assert Past(w', item.key) == past + [item];
    assert SameRequest(past[0], past[|past| - 1]);
  }

  /** Every row but the replaced one is judged as before. */
  lemma OtherRowsKeep(w: World, w': World, item: Approval)
    requires Consistent(w) && item.key in w.rows
    requires w'.rows == w.rows[item.key := item] && w'.history == w.history[item.key := Past(w, item.key) + [item]]
    requires forall k :: k != item.key && k in w.rulings ==> k in w'.rulings && w'.rulings[k] == w.rulings[k]
    ensures forall k :: k in w'.rows && k != item.key ==> RowOk(w', k) && PastOk(w', k)
  {
    forall k | k in w'.rows && k != item.key ensures RowOk(w', k) && PastOk(w', k) {
      assert RowOk(w, k) && PastOk(w, k) && Past(w', k) == Past(w, k);
    }
  }

  /** Replacing a row by its successor in the status order. */
  lemma StoredKeeps(w: World, w': World, item: Approval)
    requires Consistent(w) && item.key in w.rows
    requires SameRequest(w.rows[item.key], item) && item.revision == w.rows[item.key].revision + 1
    requires Edge(w.rows[item.key].status, item.status)
    requires w'.rows == w.rows[item.key := item] && w'.history == w.history[item.key := Past(w, item.key) + [item]]
    requires w'.views == w.views && w'.starts == w.starts
    requires forall k :: k != item.key && k in w.rulings ==> k in w'.rulings && w'.rulings[k] == w.rulings[k]
    requires RowOk(w', item.key)
    requires forall e :: e in w'.claimed ==> e == item || (e in w.claimed && e.key != item.key)
    requires forall e :: e in w'.running ==> e in w.running && e.key != item.key
    requires item in w'.claimed ==> item.status == Executing
    ensures Consistent(w')
  {
    var k0 := item.key;
    assert RowOk(w, k0) && PastOk(w, k0);
    PastGrows(w, w', item);
    OtherRowsKeep(w, w', item);
    forall r | r in w'.views ensures ViewOk(w', r) { assert ViewOk(w, r); }
    forall e | e in w'.claimed || e in w'.running ensures HeldOk(w', e) { assert e != item ==> HeldOk(w, e); }
    forall i | 0 <= i < |w'.starts| ensures StartOk(w', i) {
      assert StartOk(w, i);
    }
  }

  lemma RequestKeeps(w: World, item: Approval)
    requires Consistent(w)
    ensures Consistent(AfterRequest(w, item))
  {
    var w' := AfterRequest(w, item);
    if w' != w {
      forall k | k in w'.rows ensures RowOk(w', k) && PastOk(w', k) {
        if k != item.key { assert RowOk(w, k) && PastOk(w, k) && Past(w', k) == Past(w, k); }
      }
      forall r | r in w'.views ensures ViewOk(w', r) { assert ViewOk(w, r); }
      forall e | e in w'.claimed || e in w'.running ensures HeldOk(w', e) { assert HeldOk(w, e); }
      forall i | 0 <= i < |w'.starts| ensures StartOk(w', i) { assert StartOk(w, i); }
    }
  }

  lemma ReadKeeps(w: World, key: Key)
    requires Consistent(w)
    ensures Consistent(Perform(w, ReadStep(key)))
  {
    var w' := Perform(w, ReadStep(key));
    forall k | k in w'.rows ensures RowOk(w', k) && PastOk(w', k) {
      assert RowOk(w, k) && PastOk(w, k) && Past(w', k) == Past(w, k);
    }
    forall r | r in w'.views ensures ViewOk(w', r) {
      if r in w.views { assert ViewOk(w, r); } else { assert RowOk(w, key); }
    }
    forall e | e in w'.claimed || e in w'.running ensures HeldOk(w', e) { assert HeldOk(w, e); }
    forall i | 0 <= i < |w'.starts| ensures StartOk(w', i) { assert StartOk(w, i); }
  }

  /** A row that was not executing is held by no claimant. */
  lemma NotHeld(w: World, key: Key)
    requires Consistent(w) && key in w.rows && w.rows[key].status != Executing
    ensures forall e :: e in w.claimed || e in w.running ==> e.key != key
  {
    forall e | e in w.claimed || e in w.running ensures e.key != key { assert HeldOk(w, e); }
  }

  lemma SwapKeeps(w: World, s: Step)
    requires Consistent(w) && (s.ExpireStep? || s.DecideStep? || s.ClaimStep?)
    ensures Consistent(Perform(w, s))
  {
    if Perform(w, s) != w {
      assert ViewOk(w, s.read) && RowOk(w, s.read.key);
      NotHeld(w, s.read.key);
      var item := if s.ExpireStep? then ExpiredCopy(s.read)
                  else if s.DecideStep? then DecidedCopy(s.read, s.actor, s.decision, s.at)
                  else ExecutingCopy(s.read);
      StoredKeeps(w, Perform(w, s), item);
    }
  }

  lemma StartKeeps(w: World, executing: Approval)
    requires Consistent(w)
    ensures Consistent(AfterStart(w, executing))
  {
    var w' := AfterStart(w, executing);
    if w' != w {
      assert HeldOk(w, executing);
      forall k | k in w'.rows ensures RowOk(w', k) && PastOk(w', k) {
        assert RowOk(w, k) && PastOk(w, k) && Past(w', k) == Past(w, k);
      }
      forall r | r in w'.views ensures ViewOk(w', r) { assert ViewOk(w, r); }
      forall e | e in w'.claimed || e in w'.running ensures HeldOk(w', e) { assert HeldOk(w, e); }
      StartsStayUnique(w, executing, w');
    }
  }

  lemma StartsStayUnique(w: World, executing: Approval, w': World)
    requires Consistent(w) && executing in w.claimed && w' == AfterStart(w, executing)
    ensures forall i {:trigger StartOk(w', i)} :: 0 <= i < |w'.starts| ==> StartOk(w', i)
  {
    var n := |w.starts|;
    assert HeldOk(w, executing);
    forall i | 0 <= i < n ensures w'.starts[i] == w.starts[i] && w.starts[i].key != executing.key {
      assert StartOk(w, i);
    }
    forall e | e in w'.claimed ensures e.key != executing.key { assert HeldOk(w, e); }
    forall i | 0 <= i < n ensures StartOk(w', i) { assert StartOk(w, i); }
    assert StartOk(w', n);
  }

  lemma CloseKeeps(w: World, executing: Approval, result: Option<Summary>)
    requires Consistent(w)
    ensures Consistent(AfterClose(w, executing, result))
  {
    if executing in w.running {
      assert HeldOk(w, executing) && RowOk(w, executing.key);
      forall e | (e in w.claimed || e in w.running) && e != executing ensures e.key != executing.key {
        assert HeldOk(w, e);
      }
      StoredKeeps(w, AfterClose(w, executing, result), ClosedCopy(executing, result));
    }
  }

  lemma StepConsistent(w: World, s: Step)
    requires Consistent(w)
    ensures Consistent(Perform(w, s))
  {
    match s
    case RequestStep(item) => RequestKeeps(w, item);
    case ReadStep(key) => ReadKeeps(w, key);
    case ExpireStep(read, now) => SwapKeeps(w, s);
    case DecideStep(read, actor, decision, now, at) => SwapKeeps(w, s);
    case ClaimStep(read, call) => SwapKeeps(w, s);
    case StartStep(executing) => StartKeeps(w, executing);
    case CloseStep(executing, result) => CloseKeeps(w, executing, result);
  }

  lemma {:induction false} RunConsistent(steps: seq<Step>)
    ensures Consistent(Execute(steps))
    decreases |steps|
  {
    if steps != [] {
      RunConsistent(steps[..|steps| - 1]);
      StepConsistent(Execute(steps[..|steps| - 1]), steps[|steps| - 1]);
    }
  }

  // ---------------------------------------------------------------------------
  // What every run guarantees
  // ---------------------------------------------------------------------------

  /** A tool call starts at most once per approval, and only the exact call that a role holder approved in time. */
  lemma StartedOnceAndOnlyIfApproved(steps: seq<Step>, i: nat)
    requires i < |Execute(steps).starts|
    ensures var w := Execute(steps);
            var start := w.starts[i];
            && (forall j :: 0 <= j < |w.starts| && w.starts[j].key == start.key ==> j == i)
            && start.key in w.rows && w.rows[start.key].call == start.call
            && start.key in w.rulings && w.rulings[start.key].decision == Approve
            && w.rulings[start.key].actor.tenantId == start.key.tenantId
            && w.rulings[start.key].actor.roles * w.rows[start.key].requiredRoles != {}
            && w.rows[start.key].decidedBy == Some(w.rulings[start.key].actor.actorId)
            && w.rulings[start.key].checkedAt < w.rows[start.key].expiresAt
  {
    RunConsistent(steps);
    var w := Execute(steps);
    assert StartOk(w, i) && RowOk(w, w.starts[i].key);
  }

  /** The stored row's whole past is a path of the status graph, one revision at a time, of at most four states. */
  lemma StoredRowFollowsThePath(steps: seq<Step>, key: Key)
    requires key in Execute(steps).rows
    ensures var w := Execute(steps);
            var past := Past(w, key);
            && 1 <= |past| <= 4 && past[|past| - 1] == w.rows[key] && w.rows[key].revision == |past| - 1
            && past[0].status == ApprovalRequired
            && forall i :: 0 < i < |past| ==>
                 Edge(past[i - 1].status, past[i].status) && past[i].revision == past[i - 1].revision + 1
                 && SameRequest(past[0], past[i])
  {
    RunConsistent(steps);
    assert RowOk(Execute(steps), key) && PastOk(Execute(steps), key);
  }

  /** Nobody can take the row away from a claimant: the compare-and-set that closes it always succeeds. */
  lemma ClosingNeverFails(steps: seq<Step>, executing: Approval)
    requires executing in Execute(steps).claimed || executing in Execute(steps).running
    ensures Swappable(Execute(steps).rows, executing.key, executing.revision)
    ensures Execute(steps).rows[executing.key] == executing
  {
    RunConsistent(steps);
    assert HeldOk(Execute(steps), executing);
  }

  /** At most one claimant holds an approval at a time. */
  lemma OneClaimant(steps: seq<Step>, a: Approval, b: Approval)
    requires a in Execute(steps).claimed + Execute(steps).running
             && b in Execute(steps).claimed + Execute(steps).running
    requires a.key == b.key
    ensures a == b
  {
    RunConsistent(steps);
    assert HeldOk(Execute(steps), a) && HeldOk(Execute(steps), b);
  }

  // ---------------------------------------------------------------------------
  // What a caller is told about expiry
  // ---------------------------------------------------------------------------

  /** `_expire_if_needed` answers with its own copy, whether or not its compare-and-set took effect. */
  function Reported(read: Approval, now: int): Approval {
    if DueToExpire(read, now) then ExpiredCopy(read) else read
  }

  /** The report of an expiry is the stored row if and only if nobody ruled on the request in between. */
  lemma ExpiryIsStoredExactlyWhenUncontested(steps: seq<Step>, read: Approval, now: int)
    requires read in Execute(steps).views && DueToExpire(read, now)
    ensures read.key in Execute(steps).rows && read.key in Perform(Execute(steps), ExpireStep(read, now)).rows
    ensures Perform(Execute(steps), ExpireStep(read, now)).rows[read.key] == Reported(read, now)
            <==> Execute(steps).rows[read.key].status in {ApprovalRequired, Expired}
  {
    RunConsistent(steps);
    var w := Execute(steps);
    assert ViewOk(w, read) && RowOk(w, read.key);
  }

  /**
   * A process reads a request, an approver rules on it in time, and the first process, asking after the deadline,
   * reports EXPIRED although the stored row is APPROVED.
   */
  lemma ExpiredReportOfApprovedRow() returns (steps: seq<Step>, read: Approval, now: int)
    ensures read in Execute(steps).views && DueToExpire(read, now) && read.key in Execute(steps).rows
    ensures Perform(Execute(steps), ExpireStep(read, now)) == Execute(steps)
    ensures Reported(read, now).status == Expired && Execute(steps).rows[read.key].status == Approved
  {
    var key := Key("tenant", "approval");
    read := Approval(key, "run", Call("call", "tool", "1", "digest"), "user", {"approver"}, 30, "key",
                     ApprovalRequired, None, None, None, 0);
    var actor := Actor("tenant", "alice", {"approver"});
    now := 31;
    var s0, s1, s2 := RequestStep(read), ReadStep(key), DecideStep(read, actor, Approve, 29, 29);
    var w1, w2 := Perform(EMPTY, s0), Perform(Perform(EMPTY, s0), s1);
    assert w1.rows == map[key := read] && read in w2.views;
    assert "approver" in actor.roles * read.requiredRoles;
    steps := [s0, s1, s2];
    assert [s0][..0] == [] && [s0, s1][..1] == [s0] && steps[..2] == [s0, s1];
    assert Execute([]) == EMPTY && Execute([s0]) == w1 && Execute([s0, s1]) == w2;
    assert Execute(steps) == Perform(w2, s2);
    assert Swappable(w2.rows, key, 0);
  }
}
