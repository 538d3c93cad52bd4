/**
 Calls for a tenant's configuration that overlap with each other and with writes to its tables: what
 each of them answers.
 */
module ConfigCalls {
  import opened Values
  import opened ConfigSync

  // ---------------------------------------------------------------------------
  // Whole runs: other processes write, and any number of calls of one worker overlap
  // ---------------------------------------------------------------------------

  /** What a table has been from the start on; the last one is the present. */
  datatype History = History(agents: seq<Table>, servers: seq<Table>)

  /** The rows that a read has returned, and the table they are of. */
  datatype Read = Read(rows: seq<Row>, table: Table)

  /**
   A call past the interval: the resolver it found, what it has read so far, and whether it has cached what
   it built.
   */
  datatype Call = Call(
    key: string, now: real, cached: Option<Table>, agents: Option<Read>, servers: Option<Read>, built: bool)

  /** All tenants' tables, the newest stamp given out, the worker's cache with the tables it was built
      from, and the calls under way. */
  datatype World = World(
    past: map<string, History>, clock: nat, cache: Cache, snaps: map<string, Tables>, calls: map<nat, Call>)

  datatype Step =
    | WriteAgents(key: string, w: Write)
    | WriteServers(key: string, w: Write)
    | Ask(id: nat, key: string, now: real)
    | ReadAgents(id: nat, rows: seq<Row>)
    | ReadServers(id: nat, rows: seq<Row>)
    | Build(id: nat)    // reuse what is cached and return it, or rebuild, cache the result and await
    | Return(id: nat)   // after the await: return what is cached by now

  function Present(h: seq<Table>): Table
    requires h != []
  {
    h[|h| - 1]
  }

  ghost predicate HasPast(s: World, key: string) {
    key in s.past && s.past[key].agents != [] && s.past[key].servers != []
  }

  predicate HasRead(c: Call) {
    c.agents.Some? && c.servers.Some?
  }

  /** What a call has read. Between the two reads the tables may change. */
  function TablesRead(c: Call): Tables
    requires HasRead(c)
  {
    Tables(c.agents.value.table, c.servers.value.table)
  }

  /** Writes are stamped by a strictly increasing clock. */
  ghost predicate Enabled(s: World, interval: real, e: Step) {
    match e
    case WriteAgents(key, w) => HasPast(s, key) && (w.Delete? || s.clock < w.at)
    case WriteServers(key, w) => HasPast(s, key) && (w.Delete? || s.clock < w.at)
    case Ask(id, key, now) => HasPast(s, key) && id !in s.calls && !WithinInterval(s.cache, key, now, interval)
    case ReadAgents(id, rows) =>
      && id in s.calls && s.calls[id].agents.None? && HasPast(s, s.calls[id].key)
      && Lists(rows, Present(s.past[s.calls[id].key].agents))
    case ReadServers(id, rows) =>
      && id in s.calls && s.calls[id].agents.Some? && s.calls[id].servers.None? && HasPast(s, s.calls[id].key)
      && Lists(rows, Present(s.past[s.calls[id].key].servers))
    case Build(id) => id in s.calls && HasRead(s.calls[id]) && !s.calls[id].built
    case Return(id) => id in s.calls && HasRead(s.calls[id]) && s.calls[id].built
  }

  function Tick(clock: nat, w: Write): nat {
    if w.Delete? then clock else w.at
  }

  function Finished(cache: Cache, c: Call): Answer
    requires HasRead(c)
  {
    Finish(cache, c.key, c.now, c.cached, c.agents.value.rows, c.servers.value.rows)
  }

  ghost function Apply(s: World, interval: real, e: Step): World
    requires Enabled(s, interval, e)
  {
    match e
    case WriteAgents(key, w) =>
      var h := s.past[key];
      s.(past := s.past[key := h.(agents := h.agents + [After(Present(h.agents), w)])], clock := Tick(s.clock, w))
    case WriteServers(key, w) =>
      var h := s.past[key];
      s.(past := s.past[key := h.(servers := h.servers + [After(Present(h.servers), w)])], clock := Tick(s.clock, w))
    case Ask(id, key, now) =>
      s.(calls := s.calls[id := Call(key, now, Cached(s.cache, key), None, None, false)])
    case ReadAgents(id, rows) =>
      var c := s.calls[id];
      s.(calls := s.calls[id := c.(agents := Some(Read(rows, Present(s.past[c.key].agents))))])
    case ReadServers(id, rows) =>
      var c := s.calls[id];
      s.(calls := s.calls[id := c.(servers := Some(Read(rows, Present(s.past[c.key].servers))))])
    case Build(id) =>
      var c := s.calls[id];
      var done := Finished(s.cache, c);
      s.(cache := done.cache, snaps := s.snaps[c.key := TablesRead(c)],
         calls := if done.rebuilt then s.calls[id := c.(built := true)] else s.calls - {id})
    case Return(id) => s.(calls := s.calls - {id})
  }

  /** What a step gives the caller, if it ends a call. */
  function AnswerAt(s: World, e: Step): Option<Table>
    requires (e.Build? || e.Return?) && e.id in s.calls && HasRead(s.calls[e.id])
  {
    var c := s.calls[e.id];
    if e.Return? then Cached(s.cache, c.key)
    else if Finished(s.cache, c).rebuilt then None
    else c.cached
  }

  // ---------------------------------------------------------------------------
  // What every run keeps
  // ---------------------------------------------------------------------------

  /** Each table of a history follows those before it. */
  ghost predicate Chain(h: seq<Table>, clock: nat) {
    && h != []
    && (forall i | 0 <= i < |h| :: UpTo(h[i], clock))
    && forall i, j | 0 <= i <= j < |h| :: Follows(h[i], h[j])
  }

  ghost predicate Chains(h: History, clock: nat) {
    Chain(h.agents, clock) && Chain(h.servers, clock)
  }

  predicate Were(h: History, t: Tables) {
    t.agents in h.agents && t.servers in h.servers
  }

  ghost predicate ReadFits(r: Read, h: seq<Table>) {
    Lists(r.rows, r.table) && r.table in h
  }

  ghost predicate CallFits(s: World, c: Call) {
    && c.key in s.past
    && (c.agents.Some? ==> ReadFits(c.agents.value, s.past[c.key].agents))
    && (c.servers.Some? ==> ReadFits(c.servers.value, s.past[c.key].servers))
    && (c.built ==> HasRead(c) && c.key in s.snaps)
  }

  ghost predicate Inv(s: World) {
    && BuiltFrom(s.cache, s.snaps)
    && (forall k | k in s.past :: Chains(s.past[k], s.clock))
    && (forall k | k in s.snaps :: k in s.past && Were(s.past[k], s.snaps[k]))
    && (forall id | id in s.calls :: CallFits(s, s.calls[id]))
  }

  lemma MembersAreComparable(h: seq<Table>, clock: nat, a: Table, b: Table)
    requires Chain(h, clock) && a in h && b in h
    ensures Comparable(a, b)
  {
    hide Follows;
    var i :| 0 <= i < |h| && h[i] == a;
    var j :| 0 <= j < |h| && h[j] == b;
    assert if i <= j then Follows(h[i], h[j]) else Follows(h[j], h[i]);
  }

  lemma ChainGrows(h: seq<Table>, clock: nat, w: Write)
    requires Chain(h, clock) && (w.Delete? || clock < w.at)
    ensures Chain(h + [After(Present(h), w)], Tick(clock, w))
  {
    var t := After(Present(h), w);
    hide Follows;
    assert UpTo(t, Tick(clock, w)) by { assert UpTo(Present(h), clock); }
    hide After;
    FollowsItself(t, Tick(clock, w));
    forall i | 0 <= i < |h| ensures Follows(h[i], t) {
      FollowsOn(h[i], Present(h), w, clock);
    }
  }

  lemma ChainTicks(h: seq<Table>, clock: nat, w: Write)
    requires Chain(h, clock) && (w.Delete? || clock < w.at)
    ensures Chain(h, Tick(clock, w))
  {
    hide Follows;
  }

  lemma WriteKeepsInv(s: World, interval: real, e: Step)
    requires Inv(s) && Enabled(s, interval, e) && (e.WriteAgents? || e.WriteServers?)
    ensures Inv(Apply(s, interval, e))
  {
    hide BuiltFrom, Chain, After, Tick, Lists;
    var t := Apply(s, interval, e);
    forall k | k in s.past ensures Chains(t.past[k], t.clock) {
      ChainTicks(s.past[k].agents, s.clock, e.w);
      ChainTicks(s.past[k].servers, s.clock, e.w);
      if k == e.key {
        if e.WriteAgents? {
          ChainGrows(s.past[k].agents, s.clock, e.w);
        } else {
          ChainGrows(s.past[k].servers, s.clock, e.w);
        }
      }
    }
    forall id | id in t.calls ensures CallFits(t, t.calls[id]) {
      assert CallFits(s, s.calls[id]);
    }
  }

  lemma CallKeepsInv(s: World, interval: real, e: Step)
    requires Inv(s) && Enabled(s, interval, e) && (e.Ask? || e.ReadAgents? || e.ReadServers?)
    ensures Inv(Apply(s, interval, e))
  {
    hide BuiltFrom, Chain, Lists, WithinInterval;
    var t := Apply(s, interval, e);
    forall id | id in t.calls ensures CallFits(t, t.calls[id]) {
      if id in s.calls {
        assert CallFits(s, s.calls[id]);
      }
    }
  }

  /** What a call does to the cache, and whether it reuses what it found, in any state that a run can be in. */
  lemma WhatACallDoes(s: World, c: Call)
    requires Inv(s) && CallFits(s, c) && HasRead(c)
    ensures Finished(s.cache, c).rebuilt <==> c.cached.None? || c.key !in s.snaps || s.snaps[c.key] != TablesRead(c)
    ensures BuiltFrom(Finished(s.cache, c).cache, s.snaps[c.key := TablesRead(c)])
  {
    hide BuiltFrom, Chain, Lists, Comparable, Finish;
    var h := s.past[c.key];
    assert Chains(h, s.clock);
    if c.key in s.snaps {
      assert Were(h, s.snaps[c.key]);
      MembersAreComparable(h.agents, s.clock, s.snaps[c.key].agents, TablesRead(c).agents);
      MembersAreComparable(h.servers, s.clock, s.snaps[c.key].servers, TablesRead(c).servers);
    }
    AnswerIsStaleIff(s.cache, s.snaps, c.key, c.now, c.cached, c.agents.value.rows, c.servers.value.rows,
      TablesRead(c));
  }

  /** The calls under way are those of before; some of them may have cached what they built. */
  lemma CallsStillFit(s: World, t: World)
    requires t.past == s.past && s.snaps.Keys <= t.snaps.Keys && forall id | id in s.calls :: CallFits(s, s.calls[id])
    requires forall id | id in t.calls ::
               && id in s.calls
               && (t.calls[id] == s.calls[id] ||
                   (t.calls[id] == s.calls[id].(built := true) && HasRead(s.calls[id]) && s.calls[id].key in t.snaps))
    ensures forall id | id in t.calls :: CallFits(t, t.calls[id])
  {
    hide ReadFits;
    forall id | id in t.calls ensures CallFits(t, t.calls[id]) {
      assert CallFits(s, s.calls[id]);
    }
  }

  lemma BuildWrites(s: World, interval: real, e: Step)
    requires Enabled(s, interval, e) && e.Build?
    ensures var t := Apply(s, interval, e);
            var c := s.calls[e.id];
            && t.past == s.past && t.clock == s.clock
            && t.cache == Finished(s.cache, c).cache && t.snaps == s.snaps[c.key := TablesRead(c)]
            && forall id | id in t.calls ::
                 && id in s.calls
                 && (t.calls[id] == s.calls[id] || (id == e.id && t.calls[id] == c.(built := true)))
  {
    hide Finished, TablesRead;
  }

  lemma InvAfterBuild(s: World, t: World, key: string, read: Tables)
    requires Inv(s) && t.past == s.past && t.clock == s.clock
    requires key in s.past && Were(s.past[key], read) && t.snaps == s.snaps[key := read] && BuiltFrom(t.cache, t.snaps)
    requires forall id | id in t.calls :: CallFits(t, t.calls[id])
    ensures Inv(t)
  {
    hide BuiltFrom, Chains, Were, CallFits;
  }

  lemma BuildKeepsInv(s: World, interval: real, e: Step)
    requires Inv(s) && Enabled(s, interval, e) && e.Build?
    ensures Inv(Apply(s, interval, e))
  {
    var c, t := s.calls[e.id], Apply(s, interval, e);
    assert HasRead(c) && CallFits(s, c);
    WhatACallDoes(s, c);
    BuildWrites(s, interval, e);
    assert forall id | id in s.calls :: CallFits(s, s.calls[id]);
    assert Were(s.past[c.key], TablesRead(c));
    hide Inv, Apply, Enabled, BuiltFrom, Chains, Lists, Finished, Were, ReadFits, CallFits, TablesRead;
    CallsStillFit(s, t);
    InvAfterBuild(s, t, c.key, TablesRead(c));
  }

  lemma ReturnKeepsInv(s: World, interval: real, e: Step)
    requires Inv(s) && Enabled(s, interval, e) && e.Return?
    ensures Inv(Apply(s, interval, e))
  {
    hide BuiltFrom, Chains, Were, CallFits;
    CallsStillFit(s, Apply(s, interval, e));
  }

  lemma StepKeepsInv(s: World, interval: real, e: Step)
    requires Inv(s) && Enabled(s, interval, e)
    ensures Inv(Apply(s, interval, e))
  {
    hide Inv, Enabled, Apply;
    match e
    case WriteAgents(_, _) => WriteKeepsInv(s, interval, e);
    case WriteServers(_, _) => WriteKeepsInv(s, interval, e);
    case Build(_) => BuildKeepsInv(s, interval, e);
    case Return(_) => ReturnKeepsInv(s, interval, e);
    case _ => CallKeepsInv(s, interval, e);
  }

  ghost predicate Valid(s: World, interval: real, steps: seq<Step>)
    decreases |steps|
  {
    steps == [] || (Enabled(s, interval, steps[0]) && Valid(Apply(s, interval, steps[0]), interval, steps[1..]))
  }

  ghost function Exec(s: World, interval: real, steps: seq<Step>): World
    requires Valid(s, interval, steps)
    decreases |steps|
  {
    if steps == [] then s else Exec(Apply(s, interval, steps[0]), interval, steps[1..])
  }

  lemma {:induction false} InvRun(s: World, interval: real, steps: seq<Step>)
    requires Inv(s) && Valid(s, interval, steps)
    ensures Inv(Exec(s, interval, steps))
    decreases |steps|
  {
    hide Inv, Enabled, Apply;
    if steps != [] {
      StepKeepsInv(s, interval, steps[0]);
      InvRun(Apply(s, interval, steps[0]), interval, steps[1..]);
    }
  }

  // ---------------------------------------------------------------------------
  // The theorems
  // ---------------------------------------------------------------------------

  /** A worker that starts with a cold cache. */
  ghost predicate ColdStart(s: World) {
    && s.cache == COLD && s.snaps == map[] && s.calls == map[]
    && forall k | k in s.past :: Chains(s.past[k], s.clock)
  }

  lemma ColdStartIsFine(s: World)
    requires ColdStart(s)
    ensures Inv(s)
  {
  }

  lemma Entries(s: World, id: nat, key: string)
    requires Inv(s) && id in s.calls
    ensures CallFits(s, s.calls[id]) && EntryBuiltFrom(s.cache, s.snaps, key)
  {
  }

  lemma Reused(s: World, c: Call)
    requires HasRead(c)
    ensures !Finished(s.cache, c).rebuilt ==> c.cached.Some?
  {
  }

  lemma AnswerIs(s: World, interval: real, e: Step)
    requires Inv(s) && (e.Build? || e.Return?) && Enabled(s, interval, e)
    ensures var c := s.calls[e.id];
            if e.Build? then
              AnswerAt(s, e) ==
              if c.key in s.snaps && s.snaps[c.key] == TablesRead(c) then c.cached else None
            else c.key in s.snaps && AnswerAt(s, e) == Some(s.snaps[c.key].agents)
  {
    var c := s.calls[e.id];
    Entries(s, e.id, c.key);
    WhatACallDoes(s, c);
    Reused(s, c);
    hide Inv, Lists, ReadFits, Finished, Marks, Signs;
  }

  /**
   Over any writes by a strictly increasing clock and any calls, overlapping or not. A call that reuses
   what it found answers with something else than the agent table that it read exactly if it found a
   resolver for another one; and it reuses it exactly if the cache has since been built from just the
   two tables that it read. A call that rebuilds does so exactly if, by the time it returns, the cache
   has been built from another agent table, older or newer.
   */
  lemma OvertakenAnswerIff(start: World, interval: real, steps: seq<Step>, e: Step)
    requires ColdStart(start) && Valid(start, interval, steps)
    requires (e.Build? || e.Return?) && Enabled(Exec(start, interval, steps), interval, e)
    ensures var s := Exec(start, interval, steps);
            var c := s.calls[e.id];
            && (AnswerAt(s, e).None? <==>
                  e.Build? && (c.cached.None? || c.key !in s.snaps || s.snaps[c.key] != TablesRead(c)))
            && (AnswerAt(s, e).Some? && AnswerAt(s, e).value != TablesRead(c).agents <==>
                  if e.Build? then
                    && c.cached.Some? && c.cached.value != TablesRead(c).agents
                    && c.key in s.snaps && s.snaps[c.key] == TablesRead(c)
                  else c.key in s.snaps && s.snaps[c.key].agents != TablesRead(c).agents)
  {
    ColdStartIsFine(start);
    InvRun(start, interval, steps);
    hide Inv, Finished, Apply, Exec, Enabled, AnswerAt;
    AnswerIs(Exec(start, interval, steps), interval, e);
  }

  // ---------------------------------------------------------------------------
  // What happens between a call's rebuilding and its return
  // ---------------------------------------------------------------------------

  /** The agent table that a call for `key` has built a resolver from last in these steps, or else `t`. */
  ghost function LastBuilt(s: World, interval: real, steps: seq<Step>, key: string, t: Table): Table
    requires Valid(s, interval, steps)
    decreases |steps|
  {
    if steps == [] then t
    else
      var e := steps[0];
      var next := if e.Build? && s.calls[e.id].key == key then TablesRead(s.calls[e.id]).agents else t;
      LastBuilt(Apply(s, interval, e), interval, steps[1..], key, next)
  }

  lemma BuiltStep(s: World, interval: real, e: Step, key: string)
    requires Enabled(s, interval, e) && key in s.snaps
    ensures key in Apply(s, interval, e).snaps
    ensures Apply(s, interval, e).snaps[key].agents ==
            if e.Build? && s.calls[e.id].key == key then TablesRead(s.calls[e.id]).agents else s.snaps[key].agents
  {
    hide WithinInterval, Lists, Finished;
  }

  lemma {:induction false} BuiltRun(s: World, interval: real, steps: seq<Step>, key: string)
    requires Valid(s, interval, steps) && key in s.snaps
    ensures key in Exec(s, interval, steps).snaps
    ensures Exec(s, interval, steps).snaps[key].agents == LastBuilt(s, interval, steps, key, s.snaps[key].agents)
    decreases |steps|
  {
    hide Enabled, Apply;
    if steps != [] {
      BuiltStep(s, interval, steps[0], key);
      BuiltRun(Apply(s, interval, steps[0]), interval, steps[1..], key);
    }
  }

  lemma StaysBuiltStep(s: World, interval: real, e: Step, id: nat)
    requires Enabled(s, interval, e) && id in s.calls && HasRead(s.calls[id]) && s.calls[id].built && e != Return(id)
    ensures id in Apply(s, interval, e).calls && Apply(s, interval, e).calls[id] == s.calls[id]
  {
    hide WithinInterval, Lists, Finished;
  }

  lemma {:induction false} StaysBuilt(s: World, interval: real, steps: seq<Step>, id: nat)
    requires Valid(s, interval, steps) && Return(id) !in steps
    requires id in s.calls && HasRead(s.calls[id]) && s.calls[id].built
    ensures id in Exec(s, interval, steps).calls && Exec(s, interval, steps).calls[id] == s.calls[id]
    decreases |steps|
  {
    hide Enabled, Apply;
    if steps != [] {
      StaysBuiltStep(s, interval, steps[0], id);
      StaysBuilt(Apply(s, interval, steps[0]), interval, steps[1..], id);
    }
  }

  /**
   A call that rebuilds and then awaits returns the agent table that a call for its tenant has read and
   built from last, its own only if no other has built since.
   */
  lemma ReturnsTheLastBuilt(start: World, interval: real, before: seq<Step>, e: Step, steps: seq<Step>)
    requires ColdStart(start) && Valid(start, interval, before)
    requires e.Build? && Enabled(Exec(start, interval, before), interval, e)
    requires var s := Apply(Exec(start, interval, before), interval, e);
             && Valid(s, interval, steps) && Return(e.id) !in steps
             && Enabled(Exec(s, interval, steps), interval, Return(e.id))
             && AnswerAt(Exec(start, interval, before), e).None?
    ensures var s0 := Exec(start, interval, before);
            var c := s0.calls[e.id];
            var s1 := Apply(s0, interval, e);
            AnswerAt(Exec(s1, interval, steps), Return(e.id)) ==
            Some(LastBuilt(s1, interval, steps, c.key, TablesRead(c).agents))
  {
    var s0 := Exec(start, interval, before);
    var s1 := Apply(s0, interval, e);
    ColdStartIsFine(start);
    InvRun(start, interval, before);
    BuildKeepsInv(s0, interval, e);
    InvRun(s1, interval, steps);
    var c := s0.calls[e.id];
    assert c.key in s1.snaps && s1.snaps[c.key] == TablesRead(c);
    BuiltRun(s1, interval, steps, c.key);
    StaysBuilt(s1, interval, steps, e.id);
    hide Finish, Lists, Chain, Enabled, Apply, Exec, LastBuilt;
    var s := Exec(s1, interval, steps);
    assert EntryBuiltFrom(s.cache, s.snaps, c.key);
  }

  // ---------------------------------------------------------------------------
  // Undisturbed calls
  // ---------------------------------------------------------------------------

  /** The step ends call `id`, or is another call for its tenant that reaches the cache. */
  ghost predicate Disturbs(s: World, e: Step, id: nat, key: string)
    requires (e.Build? || e.Return?) ==> e.id in s.calls && HasRead(s.calls[e.id])
  {
    || ((e.Build? || e.Return?) && e.id == id && AnswerAt(s, e).Some?)
    || (e.Build? && e.id != id && s.calls[e.id].key == key)
  }

  ghost predicate NobodyDisturbs(s: World, interval: real, steps: seq<Step>, id: nat, key: string)
    requires Valid(s, interval, steps)
    decreases |steps|
  {
    steps == [] ||
    (!Disturbs(s, steps[0], id, key) &&
     NobodyDisturbs(Apply(s, interval, steps[0]), interval, steps[1..], id, key))
  }

  /** What the call found is what is cached, or it has built what is cached. */
  ghost predicate Undisturbed(s: World, id: nat, key: string) {
    && id in s.calls && s.calls[id].key == key
    && if s.calls[id].built then HasRead(s.calls[id]) && key in s.snaps && s.snaps[key] == TablesRead(s.calls[id])
       else s.calls[id].cached == Cached(s.cache, key)
  }

  lemma UndisturbedStep(s: World, interval: real, e: Step, id: nat, key: string)
    requires Inv(s) && Undisturbed(s, id, key) && Enabled(s, interval, e) && !Disturbs(s, e, id, key)
    ensures Undisturbed(Apply(s, interval, e), id, key)
  {
    hide WithinInterval, Lists, Inv;
    if e.Return? && e.id == id {
      assert CallFits(s, s.calls[id]) && EntryBuiltFrom(s.cache, s.snaps, key) by { Entries(s, id, key); }
    }
    if e.Build? && e.id == id {
      Reused(s, s.calls[id]);
    }
  }

  lemma {:induction false} UndisturbedRun(s: World, interval: real, steps: seq<Step>, id: nat, key: string)
    requires Inv(s) && Undisturbed(s, id, key)
    requires Valid(s, interval, steps) && NobodyDisturbs(s, interval, steps, id, key)
    ensures Inv(Exec(s, interval, steps)) && Undisturbed(Exec(s, interval, steps), id, key)
    decreases |steps|
  {
    hide Inv, Enabled, Apply, Undisturbed, Disturbs;
    if steps != [] {
      StepKeepsInv(s, interval, steps[0]);
      UndisturbedStep(s, interval, steps[0], id, key);
      UndisturbedRun(Apply(s, interval, steps[0]), interval, steps[1..], id, key);
    }
  }

  /**
   A call that no other call for its tenant reaches the cache beside, from its start until it returns,
   answers with the agent table that it read, whatever is written meanwhile and whatever the calls for
   other tenants do.
   */
  lemma EveryCheckAnswersFresh(
    start: World, interval: real, before: seq<Step>, ask: Step, steps: seq<Step>, e: Step)
    requires ColdStart(start) && Valid(start, interval, before)
    requires ask.Ask? && Enabled(Exec(start, interval, before), interval, ask)
    requires var s := Apply(Exec(start, interval, before), interval, ask);
             && Valid(s, interval, steps) && NobodyDisturbs(s, interval, steps, ask.id, ask.key)
             && (e.Build? || e.Return?) && e.id == ask.id && Enabled(Exec(s, interval, steps), interval, e)
    ensures var s := Exec(Apply(Exec(start, interval, before), interval, ask), interval, steps);
            AnswerAt(s, e).Some? ==> AnswerAt(s, e).value == TablesRead(s.calls[e.id]).agents
  {
    var s0 := Exec(start, interval, before);
    var s1 := Apply(s0, interval, ask);
    ColdStartIsFine(start);
    InvRun(start, interval, before);
    CallKeepsInv(s0, interval, ask);
    UndisturbedRun(s1, interval, steps, ask.id, ask.key);
    hide Finish, Lists, Chain, Apply, Exec, WithinInterval;
    var s := Exec(s1, interval, steps);
    var c := s.calls[e.id];
    Entries(s, e.id, ask.key);
    WhatACallDoes(s, c);
  }

  // ---------------------------------------------------------------------------
  // An older answer
  // ---------------------------------------------------------------------------

  ghost predicate Leads(s: World, interval: real, t: World) {
    exists steps :: Valid(s, interval, steps) && Exec(s, interval, steps) == t
  }

  lemma LeadsFurther(s: World, interval: real, t: World, e: Step)
    requires Leads(s, interval, t) && Enabled(t, interval, e)
    ensures Leads(s, interval, Apply(t, interval, e))
  {
    hide Enabled, Apply;
    var steps :| Valid(s, interval, steps) && Exec(s, interval, steps) == t;
    OneMoreStep(s, interval, steps, e);
  }

  lemma {:induction false} OneMoreStep(s: World, interval: real, steps: seq<Step>, e: Step)
    requires Valid(s, interval, steps) && Enabled(Exec(s, interval, steps), interval, e)
    ensures Valid(s, interval, steps + [e])
    ensures Exec(s, interval, steps + [e]) == Apply(Exec(s, interval, steps), interval, e)
    decreases |steps|
  {
    hide Enabled, Apply;
    if steps == [] {
      assert ([] + [e])[0] == e && ([] + [e])[1..] == [];
    } else {
      assert (steps + [e])[0] == steps[0] && (steps + [e])[1..] == steps[1..] + [e];
      OneMoreStep(Apply(s, interval, steps[0]), interval, steps[1..], e);
    }
  }

  function Cold(key: string, t: Tables, clock: nat): World {
    World(map[key := History([t.agents], [t.servers])], clock, COLD, map[], map[])
  }

  lemma ColdIsColdStart(key: string, t: Tables, clock: nat)
    requires UpTo(t.agents, clock) && UpTo(t.servers, clock)
    ensures ColdStart(Cold(key, t, clock))
  {
    FollowsItself(t.agents, clock);
    FollowsItself(t.servers, clock);
  }

  function JustAsked(key: string, now: real): Call {
    Call(key, now, None, None, None, false)
  }

  lemma BothAsk(interval: real, key: string, t: Tables, clock: nat, now: real)
    ensures Leads(Cold(key, t, clock), interval,
                  Cold(key, t, clock).(calls := map[0 := JustAsked(key, now), 1 := JustAsked(key, now)]))
  {
    var s := Cold(key, t, clock);
    assert Valid(s, interval, []) && Exec(s, interval, []) == s;
    hide Leads;
    LeadsFurther(s, interval, s, Ask(0, key, now));
    var s1 := s.(calls := map[0 := JustAsked(key, now)]);
    LeadsFurther(s, interval, s1, Ask(1, key, now));
    assert s1.calls[1 := JustAsked(key, now)] == map[0 := JustAsked(key, now), 1 := JustAsked(key, now)];
  }

  /** A call reads both tables, undisturbed. */
  lemma ReadsBoth(start: World, interval: real, s: World, id: nat, key: string, now: real, agents: seq<Row>,
      servers: seq<Row>)
    requires Leads(start, interval, s) && HasPast(s, key) && id in s.calls && s.calls[id] == JustAsked(key, now)
    requires Lists(agents, Present(s.past[key].agents)) && Lists(servers, Present(s.past[key].servers))
    ensures var h := s.past[key];
            Leads(start, interval, s.(calls := s.calls[id :=
              HasReadBoth(key, now, agents, Present(h.agents), servers, Present(h.servers))]))
  {
    hide Leads, Lists;
    LeadsFurther(start, interval, s, ReadAgents(id, agents));
    var s1 := Apply(s, interval, ReadAgents(id, agents));
    LeadsFurther(start, interval, s1, ReadServers(id, servers));
    var c := HasReadBoth(key, now, agents, Present(s.past[key].agents), servers, Present(s.past[key].servers));
    assert s1.calls[id := c] == s.calls[id := c];
  }

  /** A call that found no resolver builds one and caches it. */
  lemma Builds(start: World, interval: real, s: World, id: nat)
    requires Leads(start, interval, s) && Enabled(s, interval, Build(id)) && s.calls[id].cached.None?
    ensures var c := s.calls[id];
            Leads(start, interval,
                  s.(cache := Finished(s.cache, c).cache, snaps := s.snaps[c.key := TablesRead(c)],
                     calls := s.calls[id := c.(built := true)]))
    ensures Cached(Finished(s.cache, s.calls[id]).cache, s.calls[id].key) == Some(Index(s.calls[id].agents.value.rows))
  {
    hide Leads, Index;
    LeadsFurther(start, interval, s, Build(id));
  }

  /**
   The await between caching and returning lets an older table out, for all tables and every write. Two
   calls find no resolver. The first reads the tables; then one is written, and the second reads the
   new one, builds, caches and awaits; then the first caches what it has built from the old one; and the
   second returns that, a table older than the one that it has read itself.
   */
  lemma OlderAnswerAfterCaching(
    interval: real, key: string, t: Tables, clock: nat, now: real, w: Write,
    before: seq<Row>, after: seq<Row>, servers: seq<Row>) returns (s: World)
    requires UpTo(t.agents, clock) && UpTo(t.servers, clock) && (w.Delete? || clock < w.at)
    requires Lists(before, t.agents) && Lists(after, After(t.agents, w)) && Lists(servers, t.servers)
    ensures ColdStart(Cold(key, t, clock)) && Leads(Cold(key, t, clock), interval, s)
    ensures Enabled(s, interval, Return(1)) && AnswerAt(s, Return(1)) == Some(t.agents)
    ensures TablesRead(s.calls[1]).agents == After(t.agents, w)
  {
    ColdIsColdStart(key, t, clock);
    FirstReads(interval, key, t, clock, now, before, servers);
    hide ColdStart, Leads, Lists, After, UpTo;
    var start, first := Cold(key, t, clock), HasReadBoth(key, now, before, t.agents, servers, t.servers);
    s := SecondOvertakes(
      start, interval, start.(calls := map[0 := first, 1 := JustAsked(key, now)]), key, t, now, w, before, after,
        servers);
  }

  lemma SecondOvertakes(
    start: World, interval: real, s: World, key: string, t: Tables, now: real, w: Write,
    before: seq<Row>, after: seq<Row>, servers: seq<Row>) returns (u: World)
    requires Leads(start, interval, s) && key in s.past && s.past[key] == History([t.agents], [t.servers])
    requires w.Delete? || s.clock < w.at
    requires Lists(before, t.agents) && Lists(after, After(t.agents, w)) && Lists(servers, t.servers)
    requires var first := HasReadBoth(key, now, before, t.agents, servers, t.servers);
             s.calls == map[0 := first, 1 := JustAsked(key, now)]
    ensures Leads(start, interval, u) && Enabled(u, interval, Return(1)) && AnswerAt(u, Return(1)) == Some(t.agents)
    ensures TablesRead(u.calls[1]).agents == After(t.agents, w)
  {
    IndexOfListing(before, t.agents);
    hide Leads, Lists, Index, After, HasPast, Enabled, AnswerAt, Cached;
    var first := HasReadBoth(key, now, before, t.agents, servers, t.servers);
    var second := HasReadBoth(key, now, after, After(t.agents, w), servers, t.servers);
    var s1 := TableIsWritten(start, interval, s, key, t, w);
    var s2 := SecondReads(start, interval, s1, key, now, first, second);
    u := BothBuild(start, interval, s2, first, second);
    ReturnsWhatIsCached(u, interval, second, t.agents);
  }

  lemma ReturnsWhatIsCached(s: World, interval: real, c: Call, t: Table)
    requires 1 in s.calls && s.calls[1] == c.(built := true) && HasRead(c) && Cached(s.cache, c.key) == Some(t)
    ensures Enabled(s, interval, Return(1)) && AnswerAt(s, Return(1)) == Some(t)
    ensures HasRead(s.calls[1]) && TablesRead(s.calls[1]) == TablesRead(c)
  {
    hide Finished, WithinInterval;
  }

  lemma FirstReads(
    interval: real, key: string, t: Tables, clock: nat, now: real, before: seq<Row>, servers: seq<Row>)
    requires Lists(before, t.agents) && Lists(servers, t.servers)
    ensures var first := HasReadBoth(key, now, before, t.agents, servers, t.servers);
            Leads(Cold(key, t, clock), interval,
                  Cold(key, t, clock).(calls := map[0 := first, 1 := JustAsked(key, now)]))
  {
    BothAsk(interval, key, t, clock, now);
    hide Leads, Lists;
    var start, first := Cold(key, t, clock), HasReadBoth(key, now, before, t.agents, servers, t.servers);
    var s := start.(calls := map[0 := JustAsked(key, now), 1 := JustAsked(key, now)]);
    ReadsBoth(start, interval, s, 0, key, now, before, servers);
    assert s.calls[0 := first] == map[0 := first, 1 := JustAsked(key, now)];
  }

  lemma SecondReads(
    start: World, interval: real, s: World, key: string, now: real, first: Call, second: Call) returns (t: World)
    requires Leads(start, interval, s) && HasPast(s, key) && s.calls == map[0 := first, 1 := JustAsked(key, now)]
    requires HasRead(second) && second == Call(key, now, None, second.agents, second.servers, false)
    requires second.agents.value.table == Present(s.past[key].agents)
             && Lists(second.agents.value.rows, second.agents.value.table)
    requires second.servers.value.table == Present(s.past[key].servers)
             && Lists(second.servers.value.rows, second.servers.value.table)
    ensures Leads(start, interval, t) && t.calls == map[0 := first, 1 := second]
  {
    hide Leads, Lists;
    ReadsBoth(start, interval, s, 1, key, now, second.agents.value.rows, second.servers.value.rows);
    t := s.(calls := s.calls[1 := second]);
  }

  function HasReadBoth(
    key: string, now: real, agents: seq<Row>, a: Table, servers: seq<Row>, b: Table): Call
  {
    Call(key, now, None, Some(Read(agents, a)), Some(Read(servers, b)), false)
  }

  lemma TableIsWritten(start: World, interval: real, s: World, key: string, t: Tables, w: Write) returns (u: World)
    requires Leads(start, interval, s) && key in s.past && s.past[key] == History([t.agents], [t.servers])
    requires w.Delete? || s.clock < w.at
    ensures Leads(start, interval, u) && HasPast(u, key) && u.calls == s.calls && u.cache == s.cache
    ensures Present(u.past[key].agents) == After(t.agents, w) && Present(u.past[key].servers) == t.servers
  {
    hide Leads, After, Tick;
    LeadsFurther(start, interval, s, WriteAgents(key, w));
    u := Apply(s, interval, WriteAgents(key, w));
  }

  /** The second call builds and awaits; then the first does. */
  lemma BothBuild(start: World, interval: real, s: World, first: Call, second: Call) returns (t: World)
    requires Leads(start, interval, s) && s.calls == map[0 := first, 1 := second] && first.key == second.key
    requires first.cached.None? && second.cached.None? && !first.built && !second.built
    requires HasRead(first) && HasRead(second)
    ensures Leads(start, interval, t) && 1 in t.calls && t.calls[1] == second.(built := true)
    ensures Cached(t.cache, second.key) == Some(Index(first.agents.value.rows))
  {
    hide Leads, Finished, Index;
    Builds(start, interval, s, 1);
    var u := s.(cache := Finished(s.cache, second).cache, snaps := s.snaps[second.key := TablesRead(second)],
                calls := s.calls[1 := second.(built := true)]);
    Builds(start, interval, u, 0);
    t := u.(cache := Finished(u.cache, first).cache, snaps := u.snaps[first.key := TablesRead(first)],
            calls := u.calls[0 := first.(built := true)]);
  }
}
