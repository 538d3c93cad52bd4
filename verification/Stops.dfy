/** What stopping a run leaves of its node rows, on a worker and in the service. */
module Stops {
  import opened Values
  import opened Dags
  import opened States
  import opened Runs
  import opened RunSafety
  import opened RunTheorems

  const CANCELLED := NodeState(Cancelled, Null)

  /** A worker cancels what a checkpoint restore does not give back as terminal. */
  function WorkerStopped(d: Dag, rows: States): States {
    rows + map n | n in d.nodes && !Terminal(Restored(d, rows)[n].status) :: CANCELLED
  }

  /** The open nodes among the first `k`, cancelled one after the other. */
  function CancelScan(order: seq<NodeId>, states: States, rows: States, k: nat): States
    requires k <= |order|
  {
    if k == 0 then rows
    else
      var p, n := CancelScan(order, states, rows, k - 1), order[k - 1];
      if n in states && !Terminal(states[n].status) then p[n := CANCELLED] else p
  }

  lemma {:induction false} CancelScanAt(order: seq<NodeId>, states: States, rows: States, k: nat, n: NodeId)
    requires k <= |order|
    ensures var t := CancelScan(order, states, rows, k);
            if n in order[..k] && n in states && !Terminal(states[n].status) then n in t && t[n] == CANCELLED
            else (n in t <==> n in rows) && (n in t ==> t[n] == rows[n])
  {
    if k > 0 {
      assert order[..k] == order[..k - 1] + [order[k - 1]];
      CancelScanAt(order, states, rows, k - 1, n);
    }
  }

  lemma CancelScanStops(d: Dag, rows: States)
    requires (set n | n in d.order) == d.nodes.Keys
    ensures CancelScan(d.order, Restored(d, rows), rows, |d.order|) == WorkerStopped(d, rows)
  {
    hide CancelScan;
    assert d.order[..|d.order|] == d.order;
    forall n
      ensures n in CancelScan(d.order, Restored(d, rows), rows, |d.order|) <==> n in WorkerStopped(d, rows)
      ensures n in WorkerStopped(d, rows) ==>
                CancelScan(d.order, Restored(d, rows), rows, |d.order|)[n] == WorkerStopped(d, rows)[n]
    {
      CancelScanAt(d.order, Restored(d, rows), rows, |d.order|, n);
      assert n in d.order <==> n in (set m | m in d.order);
    }
  }

  /** The service cancels what its executor does not remember as terminal or failed. */
  function ServiceStopped(mem: States, rows: States): States {
    rows + map n | n in mem && !Terminal(mem[n].status) && mem[n].status != Failed :: CANCELLED
  }

  function RowOf(rows: States, n: NodeId): Option<NodeState> {
    if n in rows then Some(rows[n]) else None
  }

  /** The worker goes by the row, the service by what its executor remembers; when they leave the same row. */
  lemma StopsAgreeIff(d: Dag, mem: States, rows: States, n: NodeId)
    requires n in d.nodes && n in mem
    ensures RowOf(WorkerStopped(d, rows), n) == RowOf(ServiceStopped(mem, rows), n) <==>
            if Terminal(mem[n].status) || mem[n].status == Failed
            then n in rows && (Terminal(rows[n].status) || rows[n] == CANCELLED)
            else !(n in rows && Terminal(rows[n].status))
    ensures n in rows && Terminal(rows[n].status) ==> RowOf(WorkerStopped(d, rows), n) == Some(rows[n])
  {
  }

  /** A row that is written says what memory says, approvals judged elsewhere apart. */
  lemma WrittenRow(d: Dag, s: Engine, n: NodeId)
    requires Reachable(d, s) && s.stage != Down && n in d.nodes && n !in s.dirty
    ensures n in s.mem
    ensures Terminal(s.mem[n].status) || s.mem[n].status == Failed ==> n in s.rows && s.rows[n] == s.mem[n]
    ensures !Terminal(s.mem[n].status) && s.mem[n].status != Failed ==>
              (n in s.rows && Terminal(s.rows[n].status) <==> JudgedElsewhere(s, n))
    ensures JudgedElsewhere(s, n) ==> s.mem[n].status == Waiting
  {
    NodeIsSafe(d, s, n);
    hide Reachable, Honest;
  }

  lemma NodeIsSafe(d: Dag, s: Engine, n: NodeId)
    requires Reachable(d, s) && n in d.nodes
    ensures n in s.mem && NodeSafe(d.nodes[n], s.stage, ViewOf(s, n))
  {
    ReachableIsSafe(d, s);
    hide NodeSafe;
  }

  /**
   In every state that a run can be in, for each node whose row is written: the two ways of stopping
   leave the same row, nodes without a row included, exactly unless the node has failed, which a worker
   overwrites, or is an approval judged elsewhere, which the service overwrites.
   */
  lemma StopsDifferOnFailuresOnly(d: Dag, s: Engine, n: NodeId)
    requires Reachable(d, s) && s.stage != Down && n in d.nodes && n !in s.dirty
    ensures n in s.mem
    ensures RowOf(WorkerStopped(d, s.rows), n) == RowOf(ServiceStopped(s.mem, s.rows), n) <==>
            s.mem[n].status != Failed && !JudgedElsewhere(s, n)
  {
    WrittenRow(d, s, n);
    hide Reachable, WorkerStopped, ServiceStopped, RowOf, JudgedElsewhere;
    StopsAgreeIff(d, s.mem, s.rows, n);
  }
}
