/** The sweeper's scan: it times out exactly the waiting approvals that are past their deadline. */
module Sweeper {
  import opened Values
  import opened States
  import opened Store

  predicate Overdue(row: ApprovalRow, now: Time) {
    row.status == WaitingApprovalRow && row.deadline.Some? && row.deadline.value <= now
  }

  /** What one approval row looks like after a scan at `now`. */
  function Swept(row: ApprovalRow, now: Time): ApprovalRow {
    if Overdue(row, now) then row.(status := TimedOut, comment := SWEEP_COMMENT) else row
  }

  const SWEEP_COMMENT := "审批超时自动拒绝"

  /** The nodes of the given approvals took the time-out outcome, and no other node row changed. */
  ghost predicate NodesTimedOut(before: map<RunId, States>, after: map<RunId, States>, closed: set<Key>) {
    && (forall r, n {:trigger n in RowsIn(after, r)} | (r, n) in closed ::
          n in RowsIn(after, r) && RowsIn(after, r)[n] == Outcome(TimeOut, Null))
    && (forall r, n {:trigger n in RowsIn(after, r)} | (r, n) !in closed ::
          && (n in RowsIn(after, r) <==> n in RowsIn(before, r))
          && (n in RowsIn(after, r) ==> RowsIn(after, r)[n] == RowsIn(before, r)[n]))
  }

  lemma OneMoreTimedOut(before: map<RunId, States>, middle: map<RunId, States>, after: map<RunId, States>,
                        closed: set<Key>, key: Key)
    requires NodesTimedOut(before, middle, closed)
    requires RowsIn(after, key.0) == RowsIn(middle, key.0)[key.1 := Outcome(TimeOut, Null)]
    requires forall r | r != key.0 :: RowsIn(after, r) == RowsIn(middle, r)
    ensures NodesTimedOut(before, after, closed + {key})
  {
    forall r, n
      ensures (r, n) in closed + {key} ==> n in RowsIn(after, r) && RowsIn(after, r)[n] == Outcome(TimeOut, Null)
      ensures (r, n) !in closed + {key} ==>
                && (n in RowsIn(after, r) <==> n in RowsIn(before, r))
                && (n in RowsIn(after, r) ==> RowsIn(after, r)[n] == RowsIn(before, r)[n])
    {
      assert n in RowsIn(middle, r) || n !in RowsIn(middle, r);
    }
  }

  /** Which approvals a scan has dealt with: all but the pending ones, and `closed` are those it has closed. */
  ghost predicate Scanned(before: Table, after: Table, pending: set<Key>, closed: set<Key>, now: Time) {
    && after.Keys == before.Keys && pending <= before.Keys
    && (forall k | k in before :: after[k] == if k in pending then before[k] else Swept(before[k], now))
    && closed == set k | k in before && k !in pending && Overdue(before[k], now)
  }

  type Table = map<Key, ApprovalRow>

  lemma NothingScanned(t: Table, now: Time)
    ensures Scanned(t, t, (set k | k in t && t[k].status == WaitingApprovalRow), {}, now)
  {
  }

  lemma ScannedOn(before: Table, after: Table, pending: set<Key>, closed: set<Key>, now: Time, key: Key)
    requires Scanned(before, after, pending, closed, now) && key in pending
    ensures key in before && after[key] == before[key] && key !in closed
    ensures !Overdue(before[key], now) ==> Scanned(before, after, pending - {key}, closed, now)
    ensures Overdue(before[key], now) ==>
              Scanned(before, after[key := Swept(before[key], now)], pending - {key}, closed + {key}, now)
  {
  }

  lemma AllScanned(before: Table, after: Table, closed: set<Key>, now: Time)
    requires Scanned(before, after, {}, closed, now)
    ensures after == map k | k in before :: Swept(before[k], now)
    ensures closed == set k | k in before && Overdue(before[k], now)
  {
  }

  /** As many resumes for each run as approvals of it were closed. */
  ghost predicate OneResumeEach(published: seq<RunId>, closed: set<Key>) {
    forall r :: multiset(published)[r] == |set k | k in closed && k.0 == r|
  }

  lemma OneMoreResume(published: seq<RunId>, closed: set<Key>, key: Key)
    requires OneResumeEach(published, closed) && key !in closed
    ensures OneResumeEach(published + [key.0], closed + {key})
  {
    assert multiset(published + [key.0]) == multiset(published) + multiset{key.0};
    forall r
      ensures multiset(published + [key.0])[r] == |set k | k in closed + {key} && k.0 == r|
    {
      var was, next := set k | k in closed && k.0 == r, set k | k in closed + {key} && k.0 == r;
      assert next == if key.0 == r then was + {key} else was;
    }
  }

  class ApprovalSweeper {
    const store: MemoryStore
    /** The runs for which a resume has been published, in order. */
    var published: seq<RunId>

    constructor (store: MemoryStore)
      ensures this.store == store && published == []
    {
      this.store := store;
      published := [];
    }

    /** Close one overdue approval, reject its node, and have its run resumed. */
    method TimeOutOne(key: Key, now: Time)
      requires key in store.approvals && Overdue(store.approvals[key], now)
      modifies this`published, store`approvals, store`nodes
      ensures store.approvals == old(store.approvals)[key := Swept(old(store.approvals)[key], now)]
      ensures RowsIn(store.nodes, key.0) == RowsIn(old(store.nodes), key.0)[key.1 := Outcome(TimeOut, Null)]
      ensures forall r | r != key.0 :: RowsIn(store.nodes, r) == RowsIn(old(store.nodes), r)
      ensures published == old(published) + [key.0]
    {
      var updated := store.CasUpdateApproval(key, WaitingApprovalRow, TimedOut, None, Some(SWEEP_COMMENT), now);
      assert updated;
      store.UpdateNodeStatus(key.0, key.1, RejectedCanceled, Some(Outcome(TimeOut, Null).output));
      assert forall r | r != key.0 :: store.Rows(r) == RowsIn(old(store.nodes), r);
      assert store.Rows(key.0) == RowsIn(old(store.nodes), key.0)[key.1 := Outcome(TimeOut, Null)];
      published := published + [key.0];
    }

    /**
     One scan that nobody interferes with. Every overdue approval is closed, its node takes the
     time-out outcome, and its run is told to resume; nothing else changes.
     */
    method Scan(now: Time) returns (timedOut: set<Key>)
      modifies this`published, store`approvals, store`nodes
      ensures timedOut == set k | k in old(store.approvals) && Overdue(old(store.approvals)[k], now)
      ensures store.approvals == map k | k in old(store.approvals) :: Swept(old(store.approvals)[k], now)
      ensures timedOut == set k | && k in old(store.approvals)
                                  && old(store.approvals)[k].status == WaitingApprovalRow
                                  && old(store.approvals)[k].deadline.Some?
                                  && old(store.approvals)[k].deadline.value <= now
      ensures forall k | k in timedOut ::
                k in store.approvals && store.approvals[k] ==
                old(store.approvals)[k].(status := TimedOut, comment := "审批超时自动拒绝")
      ensures NodesTimedOut(old(store.nodes), store.nodes, timedOut)
      ensures old(published) <= published && OneResumeEach(published[|old(published)|..], timedOut)
    {
      ghost var table, nodes, start := store.approvals, store.nodes, published;
      var pending := set k | k in store.approvals && store.approvals[k].status == WaitingApprovalRow;
      timedOut := {};
      NothingTimedOut(nodes);
      NothingScanned(table, now);
      hide NodesTimedOut, Scanned, OneResumeEach, Swept;
      while pending != {}
        invariant Scanned(table, store.approvals, pending, timedOut, now)
        invariant NodesTimedOut(nodes, store.nodes, timedOut)
        invariant start <= published && OneResumeEach(published[|start|..], timedOut)
      {
        var key :| key in pending;
        ScannedOn(table, store.approvals, pending, timedOut, now, key);
        var row := store.approvals[key];
        pending := pending - {key};
        if row.deadline.None? || row.deadline.value > now {
          continue;
        }
        ghost var middle, before := store.nodes, published;
        OneMoreResume(before[|start|..], timedOut, key);
        TimeOutOne(key, now);
        OneMoreTimedOut(nodes, middle, store.nodes, timedOut, key);
        assert published[|start|..] == before[|start|..] + [key.0];
        timedOut := timedOut + {key};
      }
      AllScanned(table, store.approvals, timedOut, now);
    }
  }

  lemma NothingTimedOut(nodes: map<RunId, States>)
    ensures NodesTimedOut(nodes, nodes, {})
  {
  }
}
