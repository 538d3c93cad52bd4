/**
 The worker's cache of agent configuration: a fingerprint of two tables, the row count and
 the newest `updated_at` of each, decides whether the cached resolver is rebuilt.
 */
module ConfigSync {
  import opened Values
  import opened Sets

  /** A configuration row; `stamp` is its `updated_at`, zero standing for the empty text. */
  datatype Row = Row(key: string, content: string, stamp: nat)

  type Table = map<string, Row>

  datatype Signature = Signature(count: nat, newest: nat)

  datatype Fingerprint = Fingerprint(agents: Signature, servers: Signature)

  /** A tenant's agent table and server table. */
  datatype Tables = Tables(agents: Table, servers: Table)

  // ---------------------------------------------------------------------------
  // Writes to a table
  // ---------------------------------------------------------------------------

  datatype Write =
    | Insert(key: string, content: string, at: nat)
    | Update(key: string, content: string, at: nat)
    | Delete(key: string)

  /** An insertion that meets the key and an update or deletion that misses it change nothing. */
  function After(t: Table, w: Write): Table {
    match w
    case Insert(key, content, at) => if key in t then t else t[key := Row(key, content, at)]
    case Update(key, content, at) => if key in t then t[key := Row(key, content, at)] else t
    case Delete(key) => t - {key}
  }

  function AfterAll(t: Table, ws: seq<Write>): Table
    decreases |ws|
  {
    if ws == [] then t else After(AfterAll(t, ws[..|ws| - 1]), ws[|ws| - 1])
  }

  /** Every stamp in the table is at most `clock`. */
  predicate UpTo(t: Table, clock: nat) {
    forall k | k in t :: t[k].stamp <= clock
  }

  predicate StampedPast(ws: seq<Write>, clock: nat) {
    forall i | 0 <= i < |ws| :: !ws[i].Delete? ==> clock < ws[i].at
  }

  /** `b` is what some writes, all stamped later than anything in `a`, made of `a`. */
  ghost predicate Follows(a: Table, b: Table) {
    exists clock: nat, ws :: UpTo(a, clock) && StampedPast(ws, clock) && b == AfterAll(a, ws)
  }

  // ---------------------------------------------------------------------------
  // Fingerprints
  // ---------------------------------------------------------------------------

  function Newest(rows: seq<Row>): nat {
    if rows == [] then 0
    else if rows[0].stamp >= Newest(rows[1..]) then rows[0].stamp else Newest(rows[1..])
  }

  function Sign(rows: seq<Row>): Signature {
    Signature(|rows|, Newest(rows))
  }

  /** `rows` is the table, every row once, in some order. */
  ghost predicate Lists(rows: seq<Row>, t: Table) {
    && (forall i | 0 <= i < |rows| :: rows[i].key in t && t[rows[i].key] == rows[i])
    && (forall i, j | 0 <= i < j < |rows| :: rows[i].key != rows[j].key)
    && (forall k | k in t :: t[k] in rows && t[k].key == k)
  }

  /** The resolver's own dictionary: rows by name, a later row replacing an earlier one. */
  function Index(rows: seq<Row>): Table {
    if rows == [] then map[]
    else Index(rows[..|rows| - 1])[rows[|rows| - 1].key := rows[|rows| - 1]]
  }

  /** What a signature says about a table, however the table was listed. */
  ghost predicate Signs(s: Signature, t: Table) {
    && s.count == |t|
    && UpTo(t, s.newest)
    && (s.newest == 0 || exists k :: k in t && t[k].stamp == s.newest)
  }

  lemma {:induction false} NewestIsTheMaximum(rows: seq<Row>)
    ensures forall i | 0 <= i < |rows| :: rows[i].stamp <= Newest(rows)
    ensures Newest(rows) == 0 || exists i :: 0 <= i < |rows| && rows[i].stamp == Newest(rows)
  {
    if rows != [] {
      NewestIsTheMaximum(rows[1..]);
      forall i | 0 <= i < |rows|
        ensures rows[i].stamp <= Newest(rows)
      {
        if i > 0 {
          assert rows[1..][i - 1] == rows[i];
        }
      }
      if rows[0].stamp < Newest(rows[1..]) {
        var i :| 0 <= i < |rows[1..]| && rows[1..][i].stamp == Newest(rows[1..]);
        assert rows[i + 1].stamp == Newest(rows);
      }
    }
  }

  lemma ListingFront(rows: seq<Row>, t: Table)
    requires Lists(rows, t) && rows != []
    ensures var key := rows[|rows| - 1].key; key in t && Lists(rows[..|rows| - 1], t - {key})
  {
    var last, front := rows[|rows| - 1], rows[..|rows| - 1];
    var rest := t - {last.key};
    forall k | k in rest
      ensures rest[k] in front && rest[k].key == k
    {
      assert t[k] in rows;
      var i :| 0 <= i < |rows| && rows[i] == t[k];
      assert front[i] == t[k];
    }
  }

  /** The dictionary built from a listing is the table. */
  lemma {:induction false} IndexOfListing(rows: seq<Row>, t: Table)
    requires Lists(rows, t)
    ensures Index(rows) == t && |rows| == |t|
  {
    if rows == [] {
      assert t == map[];
    } else {
      var last := rows[|rows| - 1];
      assert last.key in t && t[last.key] == last;
      ListingFront(rows, t);
      hide Lists;
      IndexOfListing(rows[..|rows| - 1], t - {last.key});
      assert t == (t - {last.key})[last.key := last];
    }
  }

  lemma ListingSigns(rows: seq<Row>, t: Table)
    requires Lists(rows, t)
    ensures Signs(Sign(rows), t)
  {
    NewestIsTheMaximum(rows);
    IndexOfListing(rows, t);
    forall k | k in t
      ensures t[k].stamp <= Newest(rows)
    {
      var i :| 0 <= i < |rows| && rows[i] == t[k];
    }
    if Newest(rows) != 0 {
      var i :| 0 <= i < |rows| && rows[i].stamp == Newest(rows);
      assert t[rows[i].key].stamp == Newest(rows);
    }
  }

  /** What later writes leave of the rows that carry an old stamp was there before. */
  lemma {:induction false} OldRowsAreKept(t: Table, ws: seq<Write>, clock: nat, k: string)
    requires StampedPast(ws, clock) && k in AfterAll(t, ws) && AfterAll(t, ws)[k].stamp <= clock
    ensures k in t && t[k] == AfterAll(t, ws)[k]
    decreases |ws|
  {
    if ws != [] {
      assert !ws[|ws| - 1].Delete? ==> clock < ws[|ws| - 1].at;
      OldRowsAreKept(t, ws[..|ws| - 1], clock, k);
    }
  }

  lemma SameSizeSubtable(a: Table, b: Table)
    requires |a| == |b| && forall k | k in b :: k in a && a[k] == b[k]
    ensures a == b
  {
    SameSizeSubset(b.Keys, a.Keys);
  }

  /** Soundness and precision: after later writes the fingerprint is the same exactly if the table is. */
  lemma FingerprintIsFaithful(a: Table, b: Table, s: Signature, t: Signature)
    requires Follows(a, b) && Signs(s, a) && Signs(t, b)
    ensures s == t <==> a == b
  {
    var clock: nat, ws :| UpTo(a, clock) && StampedPast(ws, clock) && b == AfterAll(a, ws);
    if s == t {
      assert s.newest <= clock;
      forall k | k in b
        ensures k in a && a[k] == b[k]
      {
        OldRowsAreKept(a, ws, clock, k);
      }
      SameSizeSubtable(a, b);
    }
    if a == b {
      SameTableSameSignature(a, s, t);
    }
  }

  lemma SameTableSameSignature(t: Table, r: Signature, s: Signature)
    requires Signs(r, t) && Signs(s, t)
    ensures r == s
  {
    if r.newest != 0 {
      var k :| k in t && t[k].stamp == r.newest;
    }
    if s.newest != 0 {
      var k :| k in t && t[k].stamp == s.newest;
    }
  }

  /** The clock must move: an update with the stamp of the newest row goes unnoticed. */
  lemma SameStampIsMissed(key: string, before: string, after: string, at: nat)
    requires before != after
    ensures var a: Table := map[key := Row(key, before, at)];
            var b := After(a, Update(key, after, at));
            && a != b && Lists([Row(key, before, at)], a) && Lists([Row(key, after, at)], b)
            && Sign([Row(key, before, at)]) == Sign([Row(key, after, at)])
  {
    var a: Table := map[key := Row(key, before, at)];
    var b := After(a, Update(key, after, at));
    assert a[key].content != b[key].content && b == map[key := Row(key, after, at)];
    NewestIsTheMaximum([Row(key, before, at)]);
    NewestIsTheMaximum([Row(key, after, at)]);
    assert [Row(key, before, at)][0] in [Row(key, before, at)] && [Row(key, after, at)][0] in [Row(key, after, at)];
  }

  lemma FollowsItself(t: Table, clock: nat)
    requires UpTo(t, clock)
    ensures Follows(t, t)
  {
    assert StampedPast([], clock) && AfterAll(t, []) == t;
  }

  lemma OneMoreWrite(t: Table, ws: seq<Write>, w: Write)
    ensures AfterAll(t, ws + [w]) == After(AfterAll(t, ws), w)
  {
    assert (ws + [w])[..|ws + [w]| - 1] == ws;
  }

  /** One more write keeps the relation, if it is stamped past everything that was ever in the first table. */
  lemma FollowsOn(a: Table, b: Table, w: Write, clock: nat)
    requires Follows(a, b) && UpTo(a, clock) && (w.Delete? || clock < w.at)
    ensures Follows(a, After(b, w))
  {
    var c: nat, ws :| UpTo(a, c) && StampedPast(ws, c) && b == AfterAll(a, ws);
    OneMoreWrite(a, ws, w);
    hide AfterAll, After;
    var low := if c < clock then c else clock;
    assert UpTo(a, low) && StampedPast(ws + [w], low);
  }

  // ---------------------------------------------------------------------------
  // The cache
  // ---------------------------------------------------------------------------

  function CacheKey(tenant: Option<string>): string {
    match tenant
    case None => "local"
    case Some(t) => if t == "" then "local" else t
  }

  /** No name and the empty one stand for the local tenant; apart from that different tenants have different keys. */
  lemma KeysAreSeparate(a: string, b: string)
    requires a != "" && b != ""
    ensures CacheKey(Some(a)) == CacheKey(Some(b)) <==> a == b
    ensures CacheKey(None) == CacheKey(Some("")) == CacheKey(Some("local"))
    ensures CacheKey(None) == CacheKey(Some(a)) <==> a == "local"
  {
  }

  /** Per tenant: the resolver, the fingerprint it was built under, and when the tables were last read. */
  datatype Cache = Cache(
    resolvers: map<string, Table>,
    fingerprints: map<string, Fingerprint>,
    checkedAt: map<string, real>)

  const COLD := Cache(map[], map[], map[])

  predicate WithinInterval(c: Cache, key: string, now: real, interval: real) {
    key in c.resolvers && now - (if key in c.checkedAt then c.checkedAt[key] else 0.0) < interval
  }

  datatype Answer = Answer(cache: Cache, resolver: Table, rebuilt: bool)

  function Cached(c: Cache, key: string): Option<Table> {
    if key in c.resolvers then Some(c.resolvers[key]) else None
  }

  /**
   The part of a call after the two reads; `cached` is what the call found before them. A call that
   rebuilds caches its resolver and returns what is cached: its own, if nobody comes in between.
   */
  function Finish(c: Cache, key: string, now: real, cached: Option<Table>, agents: seq<Row>,
      servers: seq<Row>): Answer
  {
    var mark := Fingerprint(Sign(agents), Sign(servers));
    var d := c.(checkedAt := c.checkedAt[key := now]);
    if cached.Some? && key in c.fingerprints && c.fingerprints[key] == mark then
      Answer(d, cached.value, false)
    else
      Answer(d.(resolvers := c.resolvers[key := Index(agents)], fingerprints := c.fingerprints[key := mark]),
             Index(agents), true)
  }

  ghost predicate Marks(f: Fingerprint, t: Tables) {
    Signs(f.agents, t.agents) && Signs(f.servers, t.servers)
  }

  ghost predicate EntryBuiltFrom(c: Cache, snaps: map<string, Tables>, k: string) {
    && (k in c.resolvers <==> k in snaps)
    && (k in c.fingerprints <==> k in snaps)
    && (k in snaps ==> c.resolvers[k] == snaps[k].agents && Marks(c.fingerprints[k], snaps[k]))
  }

  /** `snaps` are the tables that the cached resolvers were built from. */
  ghost predicate BuiltFrom(c: Cache, snaps: map<string, Tables>) {
    forall k :: EntryBuiltFrom(c, snaps, k)
  }

  ghost predicate BothFollow(a: Tables, b: Tables) {
    Follows(a.agents, b.agents) && Follows(a.servers, b.servers)
  }

  ghost predicate ListsBoth(agents: seq<Row>, servers: seq<Row>, t: Tables) {
    Lists(agents, t.agents) && Lists(servers, t.servers)
  }

  /** One of the two tables is an earlier state of the other. */
  ghost predicate Comparable(a: Table, b: Table) {
    Follows(a, b) || Follows(b, a)
  }

  ghost predicate BothComparable(a: Tables, b: Tables) {
    Comparable(a.agents, b.agents) && Comparable(a.servers, b.servers)
  }

  lemma SignaturesAreFaithful(a: Table, b: Table, s: Signature, t: Signature)
    requires Comparable(a, b) && Signs(s, a) && Signs(t, b)
    ensures s == t <==> a == b
  {
    hide Signs, Follows;
    if Follows(a, b) {
      FingerprintIsFaithful(a, b, s, t);
    } else {
      FingerprintIsFaithful(b, a, t, s);
    }
  }

  lemma MarksAreFaithful(f: Fingerprint, g: Fingerprint, a: Tables, b: Tables)
    requires BothComparable(a, b) && Marks(f, a) && Marks(g, b)
    ensures f == g <==> a == b
  {
    SignaturesAreFaithful(a.agents, b.agents, f.agents, g.agents);
    SignaturesAreFaithful(a.servers, b.servers, f.servers, g.servers);
  }

  lemma ListingsMark(agents: seq<Row>, servers: seq<Row>, tables: Tables)
    requires ListsBoth(agents, servers, tables)
    ensures Index(agents) == tables.agents && Marks(Fingerprint(Sign(agents), Sign(servers)), tables)
  {
    ListingSigns(agents, tables.agents);
    ListingSigns(servers, tables.servers);
    IndexOfListing(agents, tables.agents);
  }

  /**
   The end of a call that found `cached` before its reads, whatever has happened to the cache since: it
   answers with something else than the agent table it read exactly if it found an older one and the
   cache has since been built from just the tables that it read. In every case the cache then is.
   */
  lemma AnswerIsStaleIff(c: Cache, snaps: map<string, Tables>, key: string, now: real, cached: Option<Table>,
                         agents: seq<Row>, servers: seq<Row>, tables: Tables)
    requires BuiltFrom(c, snaps) && ListsBoth(agents, servers, tables)
    requires key in snaps ==> BothComparable(snaps[key], tables)
    ensures var a := Finish(c, key, now, cached, agents, servers);
            && (a.resolver != tables.agents <==>
                  cached.Some? && cached.value != tables.agents && key in snaps && snaps[key] == tables)
            && (a.rebuilt <==> cached.None? || key !in snaps || snaps[key] != tables)
            && BuiltFrom(a.cache, snaps[key := tables])
  {
    hide Sign, Index, ListsBoth, BothComparable, Marks;
    ListingsMark(agents, servers, tables);
    assert EntryBuiltFrom(c, snaps, key);
    if key in snaps {
      MarksAreFaithful(c.fingerprints[key], Fingerprint(Sign(agents), Sign(servers)), snaps[key], tables);
    }
    var d := Finish(c, key, now, cached, agents, servers).cache;
    forall k {:trigger EntryBuiltFrom(d, snaps[key := tables], k)}
      ensures EntryBuiltFrom(d, snaps[key := tables], k)
    {
      assert EntryBuiltFrom(c, snaps, k);
    }
  }

  /** A call that is not overtaken by another one for its tenant answers with the table it read, and
      rebuilds exactly if one of the two tables changed since the resolver was built. */
  lemma FinishIsFresh(c: Cache, snaps: map<string, Tables>, key: string, now: real,
                      agents: seq<Row>, servers: seq<Row>, tables: Tables)
    requires BuiltFrom(c, snaps) && ListsBoth(agents, servers, tables)
    requires key in snaps ==> BothComparable(snaps[key], tables)
    ensures var a := Finish(c, key, now, Cached(c, key), agents, servers);
            && a.resolver == tables.agents
            && (a.rebuilt <==> key !in snaps || snaps[key] != tables)
            && BuiltFrom(a.cache, snaps[key := tables])
  {
    hide Finish, ListsBoth, BothComparable, Marks;
    AnswerIsStaleIff(c, snaps, key, now, Cached(c, key), agents, servers, tables);
    assert EntryBuiltFrom(c, snaps, key);
  }

  /** Two overlapping calls that both start from a cache built before a change: the first to finish
      rebuilds, the second answers with the configuration from before the change. */
  lemma OverlapAnswersStale(c: Cache, snaps: map<string, Tables>, key: string, t1: real, t2: real,
                            agents: seq<Row>, servers: seq<Row>, tables: Tables)
    requires BuiltFrom(c, snaps) && ListsBoth(agents, servers, tables)
    requires key in snaps && BothFollow(snaps[key], tables) && snaps[key].agents != tables.agents
    ensures var first := Finish(c, key, t1, Cached(c, key), agents, servers);
            var second := Finish(first.cache, key, t2, Cached(c, key), agents, servers);
            && first.resolver == tables.agents
            && second.resolver == snaps[key].agents
            && Cached(second.cache, key) == Some(tables.agents)
  {
    var first := Finish(c, key, t1, Cached(c, key), agents, servers);
    FinishIsFresh(c, snaps, key, t1, agents, servers, tables);
    assert EntryBuiltFrom(c, snaps, key) && EntryBuiltFrom(first.cache, snaps[key := tables], key);
    hide Sign, Index, Lists, Follows, Marks, BuiltFrom;
  }

  // ---------------------------------------------------------------------------
  // The class
  // ---------------------------------------------------------------------------

  class TenantConfigSync {
    const interval: real
    var resolvers: map<string, Table>
    var fingerprints: map<string, Fingerprint>
    var checkedAt: map<string, real>
    ghost var snaps: map<string, Tables>

    ghost function State(): Cache
      reads this
    {
      Cache(resolvers, fingerprints, checkedAt)
    }

    ghost predicate Valid()
      reads this
    {
      BuiltFrom(State(), snaps)
    }

    constructor (interval: real)
      ensures Valid() && State() == COLD && snaps == map[]
      ensures this.interval >= 0.0 && (interval >= 0.0 ==> this.interval == interval)
    {
      this.interval := if interval < 0.0 then 0.0 else interval;
      resolvers, fingerprints, checkedAt, snaps := map[], map[], map[], map[];
    }

    /** One undisturbed call. `agents` and `servers` are the rows that the two reads return, in any
        order; they are not looked at within the interval. */
    method Resolver(tenant: Option<string>, now: real, agents: seq<Row>, servers: seq<Row>, ghost tables: Tables)
      returns (resolver: Table, rebuilt: bool)
      requires Valid() && ListsBoth(agents, servers, tables)
      requires CacheKey(tenant) in snaps ==> BothFollow(snaps[CacheKey(tenant)], tables)
      modifies this
      ensures Valid()
      ensures old(WithinInterval(State(), CacheKey(tenant), now, interval)) ==>
                && CacheKey(tenant) in snaps && resolver == snaps[CacheKey(tenant)].agents && !rebuilt
                && State() == old(State()) && snaps == old(snaps)
      ensures !old(WithinInterval(State(), CacheKey(tenant), now, interval)) ==>
                && resolver == tables.agents
                && (rebuilt <==> CacheKey(tenant) !in old(snaps) || old(snaps)[CacheKey(tenant)] != tables)
                && snaps == old(snaps)[CacheKey(tenant) := tables]
                && checkedAt == old(checkedAt)[CacheKey(tenant) := now]
    {
      var key := CacheKey(tenant);
      if key in resolvers && now - (if key in checkedAt then checkedAt[key] else 0.0) < interval {
        assert EntryBuiltFrom(State(), snaps, key);
        return resolvers[key], false;
      }
      FinishIsFresh(State(), snaps, key, now, agents, servers, tables);
      var mark := Fingerprint(Sign(agents), Sign(servers));
      ghost var done := Finish(State(), key, now, Cached(State(), key), agents, servers);
      hide *;
      checkedAt := checkedAt[key := now];
      snaps := snaps[key := tables];
      if key in resolvers && key in fingerprints && mark == fingerprints[key] {
        resolver, rebuilt := resolvers[key], false;
      } else {
        resolver, rebuilt := Index(agents), true;
        resolvers := resolvers[key := resolver];
        fingerprints := fingerprints[key := mark];
      }
      assert State() == done.cache && resolver == done.resolver && rebuilt == done.rebuilt;
    }
  }
}
