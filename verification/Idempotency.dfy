/** Side effects at most once: the attempt ledger, the retry loop, and replays of whole calls. */
module Idempotency {
  import opened Values
  import opened Dags
  import opened Store
  import opened Texts

  /** What identifies a side effect: run, node and operation key. */
  type Operation = (RunId, NodeId, string)

  datatype ActionResult = Success(output: Value) | Failure

  /** The outside world; it remembers the operations that were tried, and those that went through. */
  class World {
    var tried: seq<Operation>
    var performed: seq<Operation>

    constructor ()
      ensures tried == performed == []
    {
      tried, performed := [], [];
    }

    /** One attempt, which the world answers as it will. */
    method Act(op: Operation, answer: ActionResult) returns (r: ActionResult)
      modifies this
      ensures r == answer && tried == old(tried) + [op]
      ensures performed == if answer.Success? then old(performed) + [op] else old(performed)
    {
      r := answer;
      tried := tried + [op];
      if r.Success? {
        performed := performed + [op];
      }
    }
  }

  datatype OnError = Continue | Abort

  /** `NoAttempt` is the failed assertion of a call that was allowed no attempt at all. */
  datatype CallResult = Returned(output: Value) | NegativeEvidence | RaisedError | NoAttempt

  /** An empty key is no key. */
  predicate Keyed(key: Option<string>) {
    key.Some? && key.value != ""
  }

  const SIDE_EFFECT_AGENTS := {"committer", "infra-remediator", "ticket-done", "merger", "deployer"}

  /** Something is there: not null, not blank, not an empty container. */
  predicate Usable(v: Value) {
    match v
    case Null => false
    case Str(s) => Trim(s) != ""
    case List(items) => items != []
    case Obj(fields) => fields != map[]
    case _ => true
  }

  /** The key of a node's operation: the declared one if it resolves to something, else the default of its run
      and node if it declares one or its agent has side effects. `text` is how a value reads. */
  function OperationKey(run: RunId, node: NodeId, agent: string, declared: bool, resolved: Value,
      text: Value -> string): Option<string>
  {
    if declared && Usable(resolved) then Some(text(resolved))
    else if declared || agent in SIDE_EFFECT_AGENTS then Some(run + ":" + node)
    else None
  }

  /**
   Exactly the nodes that declare a key and those with side effects are keyed, a key that resolves to nothing
   included.
   */
  lemma KeyedIff(run: RunId, node: NodeId, agent: string, declared: bool, resolved: Value, text: Value -> string)
    requires forall v | Usable(v) :: text(v) != ""
    ensures Keyed(OperationKey(run, node, agent, declared, resolved, text)) <==> declared || agent in SIDE_EFFECT_AGENTS
  {
    assert |run + ":" + node| > 0;
  }

  /** A text with a character that is no blank, a list or an object with something in it, or anything else but null. */
  predicate Something(v: Value) {
    match v
    case Null => false
    case Str(s) => exists c | c in s :: !IsSpace(c)
    case List(items) => |items| > 0
    case Obj(fields) => exists k :: k in fields
    case _ => true
  }

  lemma {:induction false} TrimsToNothing(s: string)
    ensures Trim(s) == "" <==> forall c | c in s :: IsSpace(c)
  {
    TrimsLeft(s);
    TrimsRight(TrimLeft(s));
  }

  lemma {:induction false} TrimsLeft(s: string)
    ensures (forall c | c in s :: IsSpace(c)) <==> (forall c | c in TrimLeft(s) :: IsSpace(c))
    ensures TrimLeft(s) != [] ==> !IsSpace(TrimLeft(s)[0])
  {
    if s != [] && IsSpace(s[0]) {
      TrimsLeft(s[1..]);
      assert s == [s[0]] + s[1..];
    }
  }

  lemma {:induction false} TrimsRight(s: string)
    ensures (forall c | c in s :: IsSpace(c)) <==> (forall c | c in TrimRight(s) :: IsSpace(c))
    ensures TrimRight(s) != [] ==> !IsSpace(TrimRight(s)[|TrimRight(s)| - 1])
  {
    if s != [] && IsSpace(s[|s| - 1]) {
      TrimsRight(s[..|s| - 1]);
      assert s == s[..|s| - 1] + [s[|s| - 1]];
    }
  }

  /**
   Which key: the declared one, whatever run and node it is in, if it resolves to something; else the run's
   and the node's names, if a key is declared or the agent acts on the outside; else none.
   */
  lemma KeyIs(run: RunId, node: NodeId, agent: string, declared: bool, resolved: Value, text: Value -> string)
    ensures OperationKey(run, node, agent, declared, resolved, text) ==
            if declared && Something(resolved) then Some(text(resolved))
            else if declared || agent == "committer" || agent == "infra-remediator" || agent == "ticket-done"
                    || agent == "merger" || agent == "deployer"
            then Some(run + ":" + node)
            else None
  {
    if resolved.Str? {
      TrimsToNothing(resolved.s);
    }
    if resolved.Obj? && resolved.fields != map[] {
      var k :| k in resolved.fields.Keys;
    }
  }

  function OperationOf(run: RunId, node: NodeId, key: Option<string>): Operation {
    (run, node, if key.Some? then key.value else "")
  }

  predicate Records(a: Attempt, run: RunId, node: NodeId, key: Option<string>, number: int) {
    a.run == run && a.node == node && a.key == key && a.number == number
  }

  /** The attempts one call adds: numbered in order, all failed but possibly the last. */
  predicate Batch(batch: seq<Attempt>, run: RunId, node: NodeId, key: Option<string>, first: int) {
    && (forall i | 0 <= i < |batch| :: Records(batch[i], run, node, key, first + i))
    && (forall i | 0 <= i < |batch| - 1 :: !batch[i].succeeded)
  }

  predicate EndsInSuccess(batch: seq<Attempt>) {
    batch != [] && batch[|batch| - 1].succeeded
  }

  function Exhausted(onError: OnError, maxAttempts: int): CallResult {
    if maxAttempts <= 0 then NoAttempt else if onError == Continue then NegativeEvidence else RaisedError
  }

  /**
   One call. A recorded success is returned again without acting; otherwise the action is
   tried until it succeeds or the attempts run out, and every try is recorded. `answers` is what the world
   would answer to each attempt of the call.
   */
  method Execute(
    store: MemoryStore, world: World, run: RunId, node: NodeId, key: Option<string>,
    first: int, maxAttempts: int, onError: OnError, answers: nat -> ActionResult)
    returns (r: CallResult, ghost batch: seq<Attempt>)
    modifies store`attempts, world
    ensures store.attempts == old(store.attempts) + batch
    ensures Batch(batch, run, node, key, first)
    ensures forall i | 0 <= i < |batch| ::
              batch[i].succeeded == answers(i).Success?
                && (answers(i).Success? ==> batch[i].output == answers(i).output)
    ensures world.tried == old(world.tried) + seq(|batch|, _ => OperationOf(run, node, key))
    ensures key.Some? && key.value != "" && FirstSuccess(old(store.attempts), run, node, key.value).Some? ==>
              && r == Returned(FirstSuccess(old(store.attempts), run, node, key.value).value.output)
              && batch == [] && world.performed == old(world.performed)
    ensures !(key.Some? && key.value != "" && FirstSuccess(old(store.attempts), run, node, key.value).Some?) ==>
              if EndsInSuccess(batch)
              then r == Returned(batch[|batch| - 1].output) && |batch| <= maxAttempts
                   && world.performed == old(world.performed) + [OperationOf(run, node, key)]
              else |batch| == (if maxAttempts > 0 then maxAttempts else 0)
                   && world.performed == old(world.performed)
                   && (maxAttempts <= 0 ==> r == NoAttempt)
                   && (maxAttempts > 0 && onError == Continue ==> r == NegativeEvidence)
                   && (maxAttempts > 0 && onError == Abort ==> r == RaisedError)
  {
    batch := [];
    if Keyed(key) {
      var existing := store.GetSucceededAttempt(run, node, key.value);
      if existing.Some? {
        return Returned(existing.value.output), batch;
      }
    }
    var i := 0;
    while i < maxAttempts
      invariant 0 <= i && (i <= maxAttempts || i == 0) && |batch| == i
      invariant store.attempts == old(store.attempts) + batch
      invariant forall k | 0 <= k < |batch| :: Records(batch[k], run, node, key, first + k) && !batch[k].succeeded
      invariant world.performed == old(world.performed)
      invariant world.tried == old(world.tried) + seq(|batch|, _ => OperationOf(run, node, key))
      invariant forall k | 0 <= k < |batch| :: !answers(k).Success?
    {
      var result := world.Act(OperationOf(run, node, key), answers(i));
      var a := Attempt(run, node, first + i, result.Success?, if result.Success? then result.output else Null, key);
      store.RecordAttempt(a);
      batch := batch + [a];
      if result.Success? {
        return Returned(result.output), batch;
      }
      i := i + 1;
    }
    r := Exhausted(onError, maxAttempts);
  }

  // ---------------------------------------------------------------------------
  // Replays
  // ---------------------------------------------------------------------------

  function Successes(ledger: seq<Attempt>, op: Operation): nat {
    if ledger == [] then 0
    else Successes(ledger[..|ledger| - 1], op)
         + if Matches(ledger[|ledger| - 1], op.0, op.1, op.2) then 1 else 0
  }

  function Times(performed: seq<Operation>, op: Operation): nat {
    multiset(performed)[op]
  }

  lemma {:induction false} SuccessesConcat(a: seq<Attempt>, b: seq<Attempt>, op: Operation)
    ensures Successes(a + b, op) == Successes(a, op) + Successes(b, op)
  {
    if b == [] {
      assert a + b == a;
    } else {
      assert (a + b)[..|a + b| - 1] == a + b[..|b| - 1];
      SuccessesConcat(a, b[..|b| - 1], op);
    }
  }

  lemma {:induction false} NoSuccessNoFirst(ledger: seq<Attempt>, op: Operation)
    ensures Successes(ledger, op) == 0 <==> FirstSuccess(ledger, op.0, op.1, op.2).None?
  {
    if ledger != [] {
      SuccessesConcat([ledger[0]], ledger[1..], op);
      assert [ledger[0]] + ledger[1..] == ledger;
      assert Successes([ledger[0]], op) == if Matches(ledger[0], op.0, op.1, op.2) then 1 else 0 by {
        assert [ledger[0]][..0] == [];
      }
      NoSuccessNoFirst(ledger[1..], op);
    }
  }

  lemma {:induction false} FirstSuccessStays(a: seq<Attempt>, b: seq<Attempt>, op: Operation)
    requires FirstSuccess(a, op.0, op.1, op.2).Some?
    ensures FirstSuccess(a + b, op.0, op.1, op.2) == FirstSuccess(a, op.0, op.1, op.2)
  {
    assert (a + b)[0] == a[0] && (a + b)[1..] == a[1..] + b;
    if !Matches(a[0], op.0, op.1, op.2) {
      FirstSuccessStays(a[1..], b, op);
    }
  }

  lemma {:induction false} FirstSuccessAppears(a: seq<Attempt>, b: seq<Attempt>, op: Operation)
    requires FirstSuccess(a, op.0, op.1, op.2).None?
    ensures FirstSuccess(a + b, op.0, op.1, op.2) == FirstSuccess(b, op.0, op.1, op.2)
  {
    if a == [] {
      assert a + b == b;
    } else {
      assert (a + b)[0] == a[0] && (a + b)[1..] == a[1..] + b;
      FirstSuccessAppears(a[1..], b, op);
    }
  }

  /** What a call's batch contributes: at most one success, and of its own operation only. */
  lemma {:induction false} BatchSuccesses(batch: seq<Attempt>, run: RunId, node: NodeId, key: Option<string>,
      first: int, op: Operation)
    requires Batch(batch, run, node, key, first)
    ensures Successes(batch, op) ==
              if EndsInSuccess(batch) && key.Some? && op == (run, node, key.value) then 1 else 0
    ensures EndsInSuccess(batch) && key.Some? && op == (run, node, key.value) ==>
              FirstSuccess(batch, op.0, op.1, op.2) == Some(batch[|batch| - 1])
  {
    if batch != [] {
      var init, last := batch[..|batch| - 1], batch[|batch| - 1];
      assert Records(last, run, node, key, first + |init|);
      NoMatches(init, op);
      NoSuccessNoFirst(init, op);
      assert init + [last] == batch;
      FirstSuccessAppears(init, [last], op);
    }
  }

  lemma {:induction false} NoMatches(ledger: seq<Attempt>, op: Operation)
    requires forall i | 0 <= i < |ledger| :: !ledger[i].succeeded
    ensures Successes(ledger, op) == 0
  {
    if ledger != [] {
      NoMatches(ledger[..|ledger| - 1], op);
    }
  }

  /** Ledger and world agree: a keyed operation has gone through as often as the ledger says, and at most once. */
  ghost predicate Accounted(ledger: seq<Attempt>, performed: seq<Operation>) {
    forall op: Operation | op.2 != "" ::
      Times(performed, op) == Successes(ledger, op) && Successes(ledger, op) <= 1
  }

  datatype Request = Request(
    run: RunId, node: NodeId, key: Option<string>, maxAttempts: int, onError: OnError, answers: nat -> ActionResult)

  /** The output on record for a request, if any. */
  function OnRecord(ledger: seq<Attempt>, q: Request): Option<Value> {
    if !Keyed(q.key) then None
    else match FirstSuccess(ledger, q.run, q.node, q.key.value)
      case Some(a) => Some(a.output)
      case None => None
  }

  lemma CallKeepsAccounts(
    ledger: seq<Attempt>, performed: seq<Operation>, q: Request, batch: seq<Attempt>, performed': seq<Operation>)
    requires Accounted(ledger, performed) && Batch(batch, q.run, q.node, q.key, 0)
    requires OnRecord(ledger, q).Some? ==> batch == [] && performed' == performed
    requires OnRecord(ledger, q).None? ==>
               performed' == if EndsInSuccess(batch) then performed + [OperationOf(q.run, q.node, q.key)] else performed
    ensures Accounted(ledger + batch, performed')
  {
    forall op: Operation | op.2 != ""
      ensures Times(performed', op) == Successes(ledger + batch, op) && Successes(ledger + batch, op) <= 1
    {
      SuccessesConcat(ledger, batch, op);
      BatchSuccesses(batch, q.run, q.node, q.key, 0, op);
      NoSuccessNoFirst(ledger, op);
    }
  }

  lemma RecordStays(ledger: seq<Attempt>, batch: seq<Attempt>, q: Request)
    requires OnRecord(ledger, q).Some?
    ensures OnRecord(ledger + batch, q) == OnRecord(ledger, q)
  {
    FirstSuccessStays(ledger, batch, (q.run, q.node, q.key.value));
  }

  lemma RecordAppears(ledger: seq<Attempt>, batch: seq<Attempt>, q: Request)
    requires Keyed(q.key) && OnRecord(ledger, q).None? && Batch(batch, q.run, q.node, q.key, 0) && EndsInSuccess(batch)
    ensures OnRecord(ledger + batch, q) == Some(batch[|batch| - 1].output)
  {
    var op := (q.run, q.node, q.key.value);
    BatchSuccesses(batch, q.run, q.node, q.key, 0, op);
    FirstSuccessAppears(ledger, batch, op);
  }

  /** Two requests for one and the same keyed operation. */
  predicate SameOperation(p: Request, q: Request) {
    Keyed(p.key) && p.run == q.run && p.node == q.node && p.key == q.key
  }

  /**
   Any sequence of calls, from retries, resumes and other runs, performs each keyed operation
   at most once, and once a call for it has returned an output every later call returns the same.
   */
  method Replay(store: MemoryStore, world: World, requests: seq<Request>) returns (results: seq<CallResult>)
    requires Accounted(store.attempts, world.performed)
    modifies store`attempts, world
    ensures Accounted(store.attempts, world.performed)
    ensures |results| == |requests|
    ensures forall i, j | 0 <= i < j < |results| && SameOperation(requests[i], requests[j]) && results[i].Returned? ::
              results[j] == results[i]
  {
    results := [];
    for i := 0 to |requests|
      invariant |results| == i
      invariant Accounted(store.attempts, world.performed)
      invariant forall k | 0 <= k < i && Keyed(requests[k].key) && results[k].Returned? ::
                  OnRecord(store.attempts, requests[k]) == Some(results[k].output)
      invariant forall k, j | 0 <= k < j < i && SameOperation(requests[k], requests[j]) && results[k].Returned? ::
                  results[j] == results[k]
    {
      var q := requests[i];
      ghost var ledger, performed := store.attempts, world.performed;
      var r, batch := Execute(store, world, q.run, q.node, q.key, 0, q.maxAttempts, q.onError, q.answers);
      CallKeepsAccounts(ledger, performed, q, batch, world.performed);
      forall k | 0 <= k < i && Keyed(requests[k].key) && results[k].Returned?
        ensures OnRecord(store.attempts, requests[k]) == Some(results[k].output)
        ensures SameOperation(requests[k], q) ==> r == results[k]
      {
        RecordStays(ledger, batch, requests[k]);
        assert SameOperation(requests[k], q) ==> OnRecord(ledger, q) == OnRecord(ledger, requests[k]);
      }
      if Keyed(q.key) && r.Returned? {
        if OnRecord(ledger, q).Some? {
          RecordStays(ledger, batch, q);
        } else {
          RecordAppears(ledger, batch, q);
        }
      }
      results := results + [r];
    }
  }

  lemma TwiceCounted(performed: seq<Operation>, i: nat, j: nat)
    requires i < j < |performed| && performed[i] == performed[j]
    ensures Times(performed, performed[i]) >= 2
  {
    var front, back := performed[..i + 1], performed[i + 1..];
    assert performed == front + back;
    assert front[i] in multiset(front) && back[j - i - 1] in multiset(back);
  }

  /** With every account in order, no keyed operation has been performed twice. */
  lemma AtMostOnce(ledger: seq<Attempt>, performed: seq<Operation>, i: nat, j: nat)
    requires Accounted(ledger, performed) && i < j < |performed| && performed[i].2 != ""
    ensures performed[i] != performed[j]
  {
    if performed[i] == performed[j] {
      TwiceCounted(performed, i, j);
    }
  }
}
