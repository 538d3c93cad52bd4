/** The in-memory state store: runs, node checkpoints, approvals and the attempt ledger. */
module Store {
  import opened Values
  import opened Dags
  import opened States

  type RunId = string
  type Time = int

  datatype RunStatus =
    | Queued | RunningRun | WaitingRun | PausedRun | DoneRunStatus | FailedRunStatus | CancelledRun

  datatype RunRow = RunRow(tenant: string, status: RunStatus)

  /** The statuses that occupy a tenant's quota. */
  predicate ActiveStatus(s: RunStatus) {
    s.Queued? || s.RunningRun? || s.WaitingRun? || s.PausedRun?
  }

  function ActiveRuns(runs: map<RunId, RunRow>, tenant: string): set<RunId> {
    set r | r in runs && runs[r].tenant == tenant && ActiveStatus(runs[r].status)
  }

  lemma ActiveMeans(runs: map<RunId, RunRow>, tenant: string)
    ensures ActiveRuns(runs, tenant) ==
            set r | r in runs && runs[r].tenant == tenant
                    && (runs[r].status == RunningRun || runs[r].status == Queued
                        || runs[r].status == WaitingRun || runs[r].status == PausedRun)
  {
  }

  datatype ApprovalStatus = WaitingApprovalRow | Approved | RejectedRow | TimedOut

  datatype ApprovalRow = ApprovalRow(status: ApprovalStatus, deadline: Option<Time>, approver: string, comment: string)

  function RowStatus(v: Verdict): ApprovalStatus {
    match v
    case Approve(_, _) => Approved
    case Deny(_, _) => RejectedRow
    case TimeOut => TimedOut
  }

  datatype TimeGuard = NoGuard | Unexpired | Expired

  /** Which side of the deadline a change of status is allowed on. */
  function ApprovalTimeGuard(from: ApprovalStatus, to: ApprovalStatus): TimeGuard {
    if from != WaitingApprovalRow || to == WaitingApprovalRow then NoGuard
    else if to == TimedOut then Expired
    else Unexpired
  }

  predicate GuardHolds(guard: TimeGuard, deadline: Option<Time>, now: Time) {
    match guard
    case NoGuard => true
    case Expired => deadline.Some? && deadline.value <= now
    case Unexpired => deadline.None? || now < deadline.value
  }

  /** Whether the compare-and-set on an approval goes through. */
  predicate CasSucceeds(row: Option<ApprovalRow>, from: ApprovalStatus, to: ApprovalStatus, now: Time) {
    && row.Some? && row.value.status == from
    && GuardHolds(ApprovalTimeGuard(from, to), row.value.deadline, now)
  }

  /** The row after its status moved; who and why are written only when given. */
  function Advanced(row: ApprovalRow, to: ApprovalStatus, approver: Option<string>,
      comment: Option<string>): ApprovalRow
  {
    ApprovalRow(to, row.deadline,
      if approver.Some? then approver.value else row.approver,
      if comment.Some? then comment.value else row.comment)
  }

  type Key = (RunId, NodeId)

  function Find<K, V>(m: map<K, V>, k: K): Option<V> {
    if k in m then Some(m[k]) else None
  }

  datatype Attempt = Attempt(
    run: RunId, node: NodeId, number: int, succeeded: bool, output: Value, key: Option<string>)

  predicate Matches(a: Attempt, run: RunId, node: NodeId, key: string) {
    a.run == run && a.node == node && a.key == Some(key) && a.succeeded
  }

  /** The oldest matching success in the ledger. */
  function FirstSuccess(ledger: seq<Attempt>, run: RunId, node: NodeId, key: string): Option<Attempt> {
    if ledger == [] then None
    else if Matches(ledger[0], run, node, key) then Some(ledger[0])
    else FirstSuccess(ledger[1..], run, node, key)
  }

  function RowsIn(nodes: map<RunId, States>, run: RunId): States {
    if run in nodes then nodes[run] else map[]
  }

  class MemoryStore {
    var runs: map<RunId, RunRow>
    var nodes: map<RunId, States>
    var approvals: map<Key, ApprovalRow>
    var attempts: seq<Attempt>

    constructor ()
      ensures runs == map[] && nodes == map[] && approvals == map[] && attempts == []
    {
      runs, nodes, approvals, attempts := map[], map[], map[], [];
    }

    // ---- runs ----

    method CreateRun(id: RunId, tenant: string)
      modifies this`runs
      ensures runs == old(runs)[id := RunRow(tenant, RunningRun)]
    {
      runs := runs[id := RunRow(tenant, RunningRun)];
    }

    method CasUpdateRunStatus(id: RunId, from: RunStatus, to: RunStatus) returns (ok: bool)
      modifies this`runs
      ensures ok <==> id in old(runs) && old(runs)[id].status == from
      ensures runs == if ok then old(runs)[id := old(runs)[id].(status := to)] else old(runs)
    {
      if id !in runs || runs[id].status != from {
        return false;
      }
      runs := runs[id := runs[id].(status := to)];
      return true;
    }

    method UpdateRun(id: RunId, status: RunStatus)
      requires id in runs
      modifies this`runs
      ensures runs == old(runs)[id := old(runs)[id].(status := status)]
    {
      runs := runs[id := runs[id].(status := status)];
    }

    method CountActiveRuns(tenant: string) returns (count: nat)
      ensures count == |ActiveRuns(runs, tenant)|
      ensures count == |set r | r in runs && runs[r].tenant == tenant
                                && (runs[r].status == RunningRun || runs[r].status == Queued
                                    || runs[r].status == WaitingRun || runs[r].status == PausedRun)|
    {
      var left := runs.Keys;
      ghost var counted: set<RunId> := {};
      count := 0;
      while left != {}
        invariant left <= runs.Keys
        invariant counted == set r | r in ActiveRuns(runs, tenant) && r !in left
        invariant count == |counted|
      {
        var r :| r in left;
        left := left - {r};
        if runs[r].tenant == tenant && ActiveStatus(runs[r].status) {
          assert r !in counted;
          counted := counted + {r};
          count := count + 1;
        }
      }
      assert counted == ActiveRuns(runs, tenant);
      ActiveMeans(runs, tenant);
    }

    // ---- nodes ----

    function Rows(run: RunId): States
      reads this`nodes
    {
      RowsIn(nodes, run)
    }

    method PutNode(run: RunId, node: NodeId, checkpoint: NodeState)
      modifies this`nodes
      ensures Rows(run) == old(Rows(run))[node := checkpoint]
      ensures forall r | r != run :: Rows(r) == old(Rows(r))
    {
      nodes := nodes[run := Rows(run)[node := checkpoint]];
    }

    /** Sets the status; the output only when one is given. */
    method UpdateNodeStatus(run: RunId, node: NodeId, status: Status, output: Option<Value>)
      modifies this`nodes
      ensures Rows(run).Keys == old(Rows(run)).Keys + {node}
      ensures Rows(run)[node].status == status
      ensures output.Some? ==> Rows(run)[node].output == output.value
      ensures output.None? && node in old(Rows(run)) ==> Rows(run)[node].output == old(Rows(run))[node].output
      ensures forall n | n in old(Rows(run)) && n != node :: Rows(run)[n] == old(Rows(run))[n]
      ensures forall r | r != run :: Rows(r) == old(Rows(r))
    {
      var row := if node in Rows(run) then Rows(run)[node] else FRESH;
      row := row.(status := status);
      if output.Some? {
        row := row.(output := output.value);
      }
      nodes := nodes[run := Rows(run)[node := row]];
    }

    // ---- approvals ----

    method CreateApproval(run: RunId, node: NodeId, deadline: Option<Time>)
      modifies this`approvals
      ensures approvals == old(approvals)[(run, node) := ApprovalRow(WaitingApprovalRow, deadline, "", "")]
    {
      approvals := approvals[(run, node) := ApprovalRow(WaitingApprovalRow, deadline, "", "")];
    }

    method CasUpdateApproval(
      key: Key, from: ApprovalStatus, to: ApprovalStatus,
      approver: Option<string>, comment: Option<string>, now: Time)
      returns (ok: bool)
      modifies this`approvals
      ensures ok <==> CasSucceeds(Find(old(approvals), key), from, to, now)
      ensures ok <==>
                && key in old(approvals) && old(approvals)[key].status == from
                && (from == WaitingApprovalRow && to == TimedOut ==>
                      old(approvals)[key].deadline.Some? && old(approvals)[key].deadline.value <= now)
                && (from == WaitingApprovalRow && (to == Approved || to == RejectedRow) ==>
                      old(approvals)[key].deadline.Some? ==> now < old(approvals)[key].deadline.value)
      ensures ok ==> approvals == old(approvals)[key := Advanced(old(approvals)[key], to, approver, comment)]
      ensures ok ==>
                && approvals[key].status == to && approvals[key].deadline == old(approvals)[key].deadline
                && approvals[key].approver == (if approver.Some? then approver.value else old(approvals)[key].approver)
                && approvals[key].comment == (if comment.Some? then comment.value else old(approvals)[key].comment)
      ensures !ok ==> approvals == old(approvals)
    {
      if key !in approvals || approvals[key].status != from {
        return false;
      }
      var row := approvals[key];
      var guard := ApprovalTimeGuard(from, to);
      if guard == Expired {
        if row.deadline.None? || row.deadline.value > now {
          return false;
        }
      } else if guard == Unexpired {
        if row.deadline.Some? && row.deadline.value <= now {
          return false;
        }
      }
      row := row.(status := to);
      if approver.Some? {
        row := row.(approver := approver.value);
      }
      if comment.Some? {
        row := row.(comment := comment.value);
      }
      approvals := approvals[key := row];
      return true;
    }

    // ---- attempts ----

    method RecordAttempt(a: Attempt)
      modifies this`attempts
      ensures attempts == old(attempts) + [a]
    {
      attempts := attempts + [a];
    }

    method GetSucceededAttempt(run: RunId, node: NodeId, key: string) returns (r: Option<Attempt>)
      ensures r == FirstSuccess(attempts, run, node, key)
    {
      for i := 0 to |attempts|
        invariant FirstSuccess(attempts, run, node, key) == FirstSuccess(attempts[i..], run, node, key)
      {
        if Matches(attempts[i], run, node, key) {
          return Some(attempts[i]);
        }
        assert attempts[i..][1..] == attempts[i + 1..];
      }
      return None;
    }
  }
}
