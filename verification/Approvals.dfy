/**
 The life of one approval, raced over by any number of approvers and sweepers while the
 clock moves and processes die: opened once, judged once, on the right side of its deadline.
 */
module Approvals {
  import opened Values
  import opened States
  import opened Store

  /** The executor's part: it writes the node row, then creates the approval row. */
  datatype Opener = NoExecutor | Fresh | Persisted(deadline: Time) | Settled

  /** An approver or a sweeper on its way from its first look to its last write. */
  datatype Actor = Acting(verdict: Verdict) | Won(verdict: Verdict) | Finished | Lost

  /** `opens` and `moves` count what has happened; `movedAt` is when the row left WAITING. */
  datatype State = State(
    clock: Time,
    opener: Opener,
    node: Status,
    row: Option<ApprovalRow>,
    actors: map<nat, Actor>,
    stranded: bool,
    opens: nat,
    moves: nat,
    movedAt: Time)

  datatype Step =
    | Tick(now: Time)
    | PersistNode(timeout: int)       // the executor decides, and writes the node row
    | CreateRow                       // then it creates the approval row
    | ExecutorDies
    | ExecutorRestarts
    | Approach(i: nat, verdict: Verdict)
    | Cas(i: nat)
    | WriteNode(i: nat)
    | ActorDies(i: nat)

  function Init(now: Time): State {
    State(now, Fresh, Pending, None, map[], false, 0, 0, now)
  }

  function NodeStatus(v: Verdict): Status {
    Outcome(v, Null).status
  }

  /** An approver looks for a waiting node; a sweeper lists waiting rows that are past their deadline. */
  predicate Enabled(s: State, e: Step) {
    match e
    case Tick(now) => s.clock <= now
    case PersistNode(_) => s.opener == Fresh && s.node == Pending
    case CreateRow => s.opener.Persisted?
    case ExecutorDies => true
    case ExecutorRestarts => s.opener == NoExecutor
    case Approach(i, v) =>
      && i !in s.actors
      && (if v.TimeOut?
          then s.row.Some? && s.row.value.status == WaitingApprovalRow
               && s.row.value.deadline.Some? && s.row.value.deadline.value <= s.clock
          else s.node == Waiting)
    case Cas(i) => i in s.actors && s.actors[i].Acting?
    case WriteNode(i) => i in s.actors && s.actors[i].Won?
    case ActorDies(i) => i in s.actors
  }

  function Apply(s: State, e: Step): State
    requires Enabled(s, e)
  {
    match e
    case Tick(now) => s.(clock := now)
    case PersistNode(timeout) => s.(node := Waiting, opener := Persisted(s.clock + timeout))
    case CreateRow =>
      s.(row := Some(ApprovalRow(WaitingApprovalRow, Some(s.opener.deadline), "", "")),
         opener := Settled, opens := s.opens + 1)
    case ExecutorDies => s.(opener := NoExecutor)
    case ExecutorRestarts => s.(opener := if s.node == Pending then Fresh else Settled)
    case Approach(i, v) => s.(actors := s.actors[i := Acting(v)])
    case Cas(i) =>
      var v := s.actors[i].verdict;
      if CasSucceeds(s.row, WaitingApprovalRow, RowStatus(v), s.clock)
      then s.(row := Some(s.row.value.(status := RowStatus(v))), actors := s.actors[i := Won(v)],
              moves := s.moves + 1, movedAt := s.clock)
      else s.(actors := s.actors[i := Lost])
    case WriteNode(i) => s.(node := NodeStatus(s.actors[i].verdict), actors := s.actors[i := Finished])
    case ActorDies(i) => s.(actors := s.actors - {i}, stranded := s.stranded || s.actors[i].Won?)
  }

  // ---------------------------------------------------------------------------
  // The invariant
  // ---------------------------------------------------------------------------

  predicate Judged(s: State) {
    s.row.Some? && s.row.value.status != WaitingApprovalRow
  }

  /** The row left WAITING on the side of its deadline that its new status demands. */
  predicate OnTime(row: ApprovalRow, at: Time) {
    match row.status
    case WaitingApprovalRow => true
    case TimedOut => row.deadline.Some? && row.deadline.value <= at
    case _ => row.deadline.Some? ==> at < row.deadline.value
  }

  ghost predicate Inv(s: State) {
    && s.opens == (if s.row.Some? then 1 else 0)
    && s.moves == (if Judged(s) then 1 else 0)
    && (s.row.Some? ==> OnTime(s.row.value, s.movedAt))
    && s.movedAt <= s.clock
    // before the approval row exists, the node is pending or just being opened
    && (s.row.None? ==> s.node == Pending || s.node == Waiting)
    && (s.opener.Persisted? ==> s.row.None? && s.node == Waiting)
    && (s.opener == Fresh ==> s.row.None? && s.node == Pending)
    && (s.node == Pending ==> s.row.None?)
    // a winner is alone, and its verdict is the one on record
    && (forall i | i in s.actors && s.actors[i].Won? ::
          Judged(s) && s.row.value.status == RowStatus(s.actors[i].verdict) && s.node == Waiting)
    && (forall i, j | i in s.actors && j in s.actors && s.actors[i].Won? && s.actors[j].Won? :: i == j)
    // who judged has written, is about to write, or died on the way
    && (s.node == Pending || s.node == Waiting || (Judged(s) && NodeMatches(s)))
    && (Judged(s) && s.node == Waiting ==> s.stranded || exists i :: i in s.actors && s.actors[i].Won?)
    && (s.stranded ==> Judged(s))
    && (s.stranded ==> s.node == Waiting && forall i | i in s.actors :: !s.actors[i].Won?)
  }

  predicate NodeMatches(s: State) {
    match s.row
    case None => false
    case Some(row) =>
      match row.status
      case WaitingApprovalRow => s.node == Waiting
      case Approved => s.node == Done
      case RejectedRow => s.node == Rejected
      case TimedOut => s.node == RejectedCanceled
  }

  lemma InvStep(s: State, e: Step)
    requires Inv(s) && Enabled(s, e)
    ensures Inv(Apply(s, e))
  {
    var t := Apply(s, e);
    match e
    case Cas(i) =>
      if t.actors[i].Won? {
        assert s.row.value.status == WaitingApprovalRow;
        assert t.actors[i].Won? && i in t.actors;
      } else {
        WinnersKept(s, t, i);
      }
    case WriteNode(i) => assert !s.stranded;
    case ActorDies(i) =>
      if !s.actors[i].Won? {
        WinnersKept(s, t, i);
      }
    case Approach(i, v) => WinnersKept(s, t, i);
    case _ =>
  }

  lemma WinnersKept(s: State, t: State, i: nat)
    requires forall j | j != i :: (j in s.actors <==> j in t.actors) && (j in s.actors ==> s.actors[j] == t.actors[j])
    requires i in s.actors ==> !s.actors[i].Won?
    ensures (exists j :: j in s.actors && s.actors[j].Won?) ==> (exists j :: j in t.actors && t.actors[j].Won?)
  {
    if j :| j in s.actors && s.actors[j].Won? {
      assert j in t.actors && t.actors[j].Won?;
    }
  }

  // ---------------------------------------------------------------------------
  // Every interleaving
  // ---------------------------------------------------------------------------

  ghost predicate Next(s: State, t: State) {
    exists e :: Enabled(s, e) && t == Apply(s, e)
  }

  /** A behaviour: any interleaving of the executor, approvers, sweepers, crashes and the clock. */
  ghost predicate Behaviour(b: seq<State>) {
    && |b| >= 1
    && (exists now :: b[0] == Init(now))
    && forall i, j | 0 <= i < j < |b| && j == i + 1 :: Next(b[i], b[j])
  }

  lemma {:induction false} InvHolds(b: seq<State>, i: nat)
    requires Behaviour(b) && i < |b|
    ensures Inv(b[i])
  {
    hide Inv, Enabled, Apply;
    if i == 0 {
      InitInv(b[0]);
    } else {
      InvHolds(b, i - 1);
      assert Next(b[i - 1], b[i]);
      var e :| Enabled(b[i - 1], e) && b[i] == Apply(b[i - 1], e);
      InvStep(b[i - 1], e);
    }
  }

  lemma InitInv(s: State)
    requires exists now :: s == Init(now)
    ensures Inv(s)
  {
  }

  /** Opened at most once, and judged at most once, on the right side of the deadline. */
  lemma OpenedOnceJudgedOnceOnTime(b: seq<State>, i: nat)
    requires Behaviour(b) && i < |b|
    ensures b[i].opens <= 1 && b[i].moves <= 1
    ensures b[i].row.Some? && b[i].row.value.status == TimedOut ==>
              b[i].row.value.deadline.Some? && b[i].row.value.deadline.value <= b[i].movedAt <= b[i].clock
    ensures b[i].row.Some? && (b[i].row.value.status == Approved || b[i].row.value.status == RejectedRow) ==>
              b[i].row.value.deadline.Some? ==> b[i].movedAt < b[i].row.value.deadline.value
  {
    InvHolds(b, i);
  }

  /** At most one actor wins the race, whoever takes part in it. */
  lemma OneWinner(b: seq<State>, i: nat, x: nat, y: nat)
    requires Behaviour(b) && i < |b|
    requires x in b[i].actors && y in b[i].actors && b[i].actors[x].Won? && b[i].actors[y].Won?
    ensures x == y
  {
    InvHolds(b, i);
  }

  /** The node has been written as waiting, its approval row has not, and whoever was to write it is gone. */
  predicate Unopened(s: State) {
    s.row.None? && s.node == Waiting && !s.opener.Persisted?
  }

  /** Some process is between its two writes, or has died there. */
  ghost predicate HalfWritten(s: State) {
    s.opener.Persisted? || Unopened(s) || s.stranded || exists x :: x in s.actors && s.actors[x].Won?
  }

  /** What the stored node should say, approval row or none. */
  predicate NodeAgrees(s: State) {
    if s.row.None? then s.node == Pending else NodeMatches(s)
  }

  lemma AgreesIff(s: State)
    requires Inv(s)
    ensures NodeAgrees(s) <==> !HalfWritten(s)
  {
  }

  /**
   The stored node says what the approval row says, exactly unless somebody is between two writes or has died
   there.
   */
  lemma NodeMatchesApproval(b: seq<State>, i: nat)
    requires Behaviour(b) && i < |b|
    ensures NodeAgrees(b[i]) <==> !HalfWritten(b[i])
  {
    InvHolds(b, i);
    AgreesIff(b[i]);
  }

  lemma VerdictStaysStep(s: State, e: Step)
    requires Inv(s) && Enabled(s, e) && Judged(s)
    ensures Apply(s, e).row == s.row && Apply(s, e).movedAt == s.movedAt
  {
  }

  /** A verdict is final. */
  lemma {:induction false} VerdictIsFinal(b: seq<State>, i: nat, j: nat)
    requires Behaviour(b) && i <= j < |b| && Judged(b[i])
    ensures b[j].row == b[i].row && b[j].movedAt == b[i].movedAt
    decreases j - i
  {
    hide Inv, Enabled, Apply;
    if i < j {
      VerdictIsFinal(b, i, j - 1);
      InvHolds(b, j - 1);
      assert Next(b[j - 1], b[j]);
      var e :| Enabled(b[j - 1], e) && b[j] == Apply(b[j - 1], e);
      VerdictStaysStep(b[j - 1], e);
    }
  }

  /** At every moment exactly one of approving and timing out can go through on an open row with a deadline. */
  lemma DeadlineDecides(row: ApprovalRow, now: Time, v: Verdict)
    requires row.status == WaitingApprovalRow && row.deadline.Some? && !v.TimeOut?
    ensures CasSucceeds(Some(row), WaitingApprovalRow, RowStatus(v), now)
            <==> !CasSucceeds(Some(row), WaitingApprovalRow, TimedOut, now)
  {
  }

  // ---------------------------------------------------------------------------
  // Deaths between two writes
  // ---------------------------------------------------------------------------

  /** A node is left waiting without an approval row exactly by the death of the executor between its two writes. */
  lemma UnopenedIff(s: State, e: Step)
    requires Inv(s) && Enabled(s, e)
    ensures Unopened(Apply(s, e)) <==> Unopened(s) || (e.ExecutorDies? && s.opener.Persisted?)
  {
  }

  /** An approval is judged without its node following exactly by the death of the winner between its two writes. */
  lemma StrandedIff(s: State, e: Step)
    requires Inv(s) && Enabled(s, e)
    ensures Apply(s, e).stranded <==> s.stranded || (e.ActorDies? && s.actors[e.i].Won?)
    ensures s.stranded ==> Apply(s, e).node == Waiting && Judged(Apply(s, e))
  {
  }

  /** Then the node waits for ever, restarts included, for an approval that nobody can ever judge. */
  lemma {:induction false} UnopenedForEver(b: seq<State>, i: nat, j: nat)
    requires Behaviour(b) && i <= j < |b| && Unopened(b[i])
    ensures Unopened(b[j]) && forall x | x in b[j].actors :: !b[j].actors[x].Won?
    decreases j - i
  {
    hide Enabled, Apply;
    InvHolds(b, j);
    if i < j {
      UnopenedForEver(b, i, j - 1);
      InvHolds(b, j - 1);
      assert Next(b[j - 1], b[j]);
      var e :| Enabled(b[j - 1], e) && b[j] == Apply(b[j - 1], e);
      UnopenedIff(b[j - 1], e);
    }
  }

  /** Likewise for an approval that has been judged: its node waits for ever. */
  lemma {:induction false} StrandedForEver(b: seq<State>, i: nat, j: nat)
    requires Behaviour(b) && i <= j < |b| && b[i].stranded
    ensures b[j].stranded && b[j].node == Waiting && Judged(b[j])
    decreases j - i
  {
    hide Enabled, Apply;
    InvHolds(b, i);
    if i < j {
      StrandedForEver(b, i, j - 1);
      InvHolds(b, j - 1);
      assert Next(b[j - 1], b[j]);
      var e :| Enabled(b[j - 1], e) && b[j] == Apply(b[j - 1], e);
      StrandedIff(b[j - 1], e);
    }
  }

  lemma BehaviourOn(b: seq<State>, e: Step)
    requires Behaviour(b) && Enabled(b[|b| - 1], e)
    ensures Behaviour(b + [Apply(b[|b| - 1], e)])
  {
    hide Enabled, Apply;
    var c := b + [Apply(b[|b| - 1], e)];
    assert c[0] == b[0];
    forall i, j | 0 <= i < j < |c| && j == i + 1
      ensures Next(c[i], c[j])
    {
      if j < |b| {
        assert Next(b[i], b[j]);
      }
    }
  }

  /** Both happen: at every time and with every time-out a node is left without its approval row. */
  lemma UnopenedHappens(now: Time, timeout: int) returns (b: seq<State>)
    ensures Behaviour(b) && Unopened(b[|b| - 1])
  {
    b := [Init(now)];
    BehaviourOn(b, PersistNode(timeout));
    b := b + [Apply(b[|b| - 1], PersistNode(timeout))];
    BehaviourOn(b, ExecutorDies);
    b := b + [Apply(b[|b| - 1], ExecutorDies)];
  }

  /** And every verdict can be stranded, by an approver that dies as well as by a sweeper. */
  lemma StrandedHappens(now: Time, timeout: int, v: Verdict) returns (b: seq<State>)
    requires timeout > 0 || v.TimeOut?
    ensures Behaviour(b) && b[|b| - 1].stranded
    ensures b[|b| - 1].row.Some? && b[|b| - 1].row.value.status == RowStatus(v)
  {
    b := [Init(now)];
    BehaviourOn(b, PersistNode(timeout));
    b := b + [Apply(b[|b| - 1], PersistNode(timeout))];
    BehaviourOn(b, CreateRow);
    b := b + [Apply(b[|b| - 1], CreateRow)];
    if v.TimeOut? && timeout > 0 {
      BehaviourOn(b, Tick(now + timeout));
      b := b + [Apply(b[|b| - 1], Tick(now + timeout))];
    }
    b := IsStranded(b, v);
  }

  /** An actor judges the open approval, and dies before it has written the node. */
  lemma IsStranded(b: seq<State>, v: Verdict) returns (c: seq<State>)
    requires Behaviour(b)
    requires var s := b[|b| - 1];
             0 !in s.actors && s.node == Waiting && CasSucceeds(s.row, WaitingApprovalRow, RowStatus(v), s.clock)
    ensures Behaviour(c) && c[|c| - 1].stranded
    ensures c[|c| - 1].row.Some? && c[|c| - 1].row.value.status == RowStatus(v)
  {
    c := b;
    BehaviourOn(c, Approach(0, v));
    c := c + [Apply(c[|c| - 1], Approach(0, v))];
    BehaviourOn(c, Cas(0));
    c := c + [Apply(c[|c| - 1], Cas(0))];
    BehaviourOn(c, ActorDies(0));
    c := c + [Apply(c[|c| - 1], ActorDies(0))];
  }
}
