/**
 One ticket per source: any number of callers of `create_once`, interleaved statement by
 statement, over the unique index and the per-day number sequence.
 */
module Tickets {
  import opened Values
  import opened Texts

  type Pid = nat

  /** A ticket number before it is spelt out: the day and the position on that day. */
  datatype Number = Number(date: string, seqNo: nat)

  datatype Row = Row(tenant: string, source: string, id: string, number: Number)

  datatype Caller =
    | Looking(tenant: string, source: string)
    | Numbering(tenant: string, source: string)
    | Inserting(tenant: string, source: string, number: Number)
    | ReadingBack(tenant: string, source: string, id: string)
    | Returned(tenant: string, source: string, id: string, created: bool)
    | LostRow(tenant: string, source: string)     // the error for a row that cannot be read back
    | Dead(tenant: string, source: string)

  /** `ids` are the identifiers drawn so far, `drawn` the numbers. */
  datatype State = State(
    rows: seq<Row>,
    counters: map<string, nat>,
    callers: map<Pid, Caller>,
    ids: set<string>,
    drawn: seq<Number>)

  datatype Step =
    | Arrive(p: Pid, tenant: string, source: string)
    | Lookup(p: Pid)
    | Draw(p: Pid, date: string)
    | Insert(p: Pid, id: string)
    | ReadBack(p: Pid)
    | Die(p: Pid)

  const EMPTY := State([], map[], map[], {}, [])

  /** The row with the given source, as a query returns it. */
  function FindRow(rows: seq<Row>, tenant: string, source: string): (r: Option<Row>)
    ensures r.Some? ==> r.value in rows && r.value.tenant == tenant && r.value.source == source
    ensures r.None? ==> forall i | 0 <= i < |rows| :: !(rows[i].tenant == tenant && rows[i].source == source)
  {
    if rows == [] then None
    else if rows[0].tenant == tenant && rows[0].source == source then Some(rows[0])
    else FindRow(rows[1..], tenant, source)
  }

  predicate Enabled(s: State, e: Step) {
    match e
    case Arrive(p, _, _) => p !in s.callers
    case Lookup(p) => p in s.callers && s.callers[p].Looking?
    case Draw(p, _) => p in s.callers && s.callers[p].Numbering?
    case Insert(p, id) => p in s.callers && s.callers[p].Inserting? && id !in s.ids
    case ReadBack(p) => p in s.callers && s.callers[p].ReadingBack?
    case Die(p) => p in s.callers && !s.callers[p].Returned?
  }

  function Next(counters: map<string, nat>, date: string): nat {
    if date in counters then counters[date] + 1 else 1
  }

  function Become(s: State, p: Pid, c: Caller): State {
    s.(callers := s.callers[p := c])
  }

  function Apply(s: State, e: Step): State
    requires Enabled(s, e)
  {
    match e
    case Arrive(p, tenant, source) => Become(s, p, Looking(tenant, source))
    case Lookup(p) =>
      var c := s.callers[p];
      (match FindRow(s.rows, c.tenant, c.source)
       case Some(row) => Become(s, p, Returned(c.tenant, c.source, row.id, false))
       case None => Become(s, p, Numbering(c.tenant, c.source)))
    case Draw(p, date) =>
      var c, n := s.callers[p], Number(date, Next(s.counters, date));
      Become(s.(counters := s.counters[date := n.seqNo], drawn := s.drawn + [n]), p, Inserting(c.tenant, c.source, n))
    case Insert(p, id) =>
      var c := s.callers[p];
      var t := Become(s.(ids := s.ids + {id}), p, ReadingBack(c.tenant, c.source, id));
      // on conflict do nothing
      if FindRow(s.rows, c.tenant, c.source).Some? then t
      else t.(rows := s.rows + [Row(c.tenant, c.source, id, c.number)])
    case ReadBack(p) =>
      var c := s.callers[p];
      (match FindRow(s.rows, c.tenant, c.source)
       case Some(row) => Become(s, p, Returned(c.tenant, c.source, row.id, row.id == c.id))
       case None => Become(s, p, LostRow(c.tenant, c.source)))
    case Die(p) => Become(s, p, Dead(s.callers[p].tenant, s.callers[p].source))
  }

  // ---------------------------------------------------------------------------
  // The invariant
  // ---------------------------------------------------------------------------

  predicate SameSource(a: Row, b: Row) {
    a.tenant == b.tenant && a.source == b.source
  }

  ghost predicate UniqueRows(s: State) {
    && (forall i, j | 0 <= i < j < |s.rows| :: !SameSource(s.rows[i], s.rows[j]) && s.rows[i].id != s.rows[j].id)
    && (forall i | 0 <= i < |s.rows| :: s.rows[i].id in s.ids)
  }

  /** What a caller that is past its insertion has seen is the one row of its source. */
  ghost predicate CallerSees(s: State, c: Caller) {
    match c
    case ReadingBack(tenant, source, id) => FindRow(s.rows, tenant, source).Some? && id in s.ids
    case Returned(tenant, source, id, created) =>
      FindRow(s.rows, tenant, source).Some? && FindRow(s.rows, tenant, source).value.id == id
    case LostRow(_, _) => false
    case _ => true
  }

  /** The identifier under which a caller inserted, or found that it had inserted, its row. */
  predicate Owns(c: Caller, id: string) {
    (c.ReadingBack? && c.id == id) || (c.Returned? && c.created && c.id == id)
  }

  ghost predicate Owners(s: State) {
    && (forall p, q, id | p in s.callers && q in s.callers && Owns(s.callers[p], id) && Owns(s.callers[q], id) ::
      p == q)
    && (forall p, id | p in s.callers && Owns(s.callers[p], id) :: id in s.ids)
  }

  /** Every number was drawn once, and none is ahead of its day's counter. */
  ghost predicate NumbersDistinct(s: State) {
    && (forall i, j | 0 <= i < j < |s.drawn| :: s.drawn[i] != s.drawn[j])
    && (forall i | 0 <= i < |s.drawn| ::
      s.drawn[i].date in s.counters && s.drawn[i].seqNo <= s.counters[s.drawn[i].date])
  }

  ghost predicate Inv(s: State) {
    UniqueRows(s) && (forall p | p in s.callers :: CallerSees(s, s.callers[p])) && Owners(s) && NumbersDistinct(s)
  }

  lemma {:induction false} FindRowAppend(rows: seq<Row>, row: Row, tenant: string, source: string)
    ensures FindRow(rows + [row], tenant, source) ==
              if FindRow(rows, tenant, source).Some? then FindRow(rows, tenant, source)
              else if row.tenant == tenant && row.source == source then Some(row) else None
  {
    if rows == [] {
      assert ([] + [row])[1..] == [];
    } else {
      assert (rows + [row])[0] == rows[0] && (rows + [row])[1..] == rows[1..] + [row];
      FindRowAppend(rows[1..], row, tenant, source);
    }
  }

  /** Rows are only added, and a source keeps the row it has. */
  lemma RowsAfter(s: State, e: Step, tenant: string, source: string)
    requires Enabled(s, e)
    ensures FindRow(s.rows, tenant, source).Some? ==>
              FindRow(Apply(s, e).rows, tenant, source) == FindRow(s.rows, tenant, source)
  {
    if e.Insert? {
      var c := s.callers[e.p];
      FindRowAppend(s.rows, Row(c.tenant, c.source, e.id, c.number), tenant, source);
    }
  }

  lemma CallerAfter(s: State, e: Step, p: Pid)
    requires Enabled(s, e) && p in Apply(s, e).callers
    requires forall q | q in s.callers :: CallerSees(s, s.callers[q])
    ensures CallerSees(Apply(s, e), Apply(s, e).callers[p])
  {
    var t := Apply(s, e);
    var c := t.callers[p];
    if p in s.callers {
      assert CallerSees(s, s.callers[p]);
      RowsAfter(s, e, s.callers[p].tenant, s.callers[p].source);
    }
    if e.Insert? && e.p == p {
      var b := s.callers[p];
      FindRowAppend(s.rows, Row(b.tenant, b.source, e.id, b.number), b.tenant, b.source);
    }
  }

  lemma UniqueRowsStep(s: State, e: Step)
    requires UniqueRows(s) && Enabled(s, e)
    ensures UniqueRows(Apply(s, e))
  {
  }

  lemma OwnersStep(s: State, e: Step)
    requires Owners(s) && Enabled(s, e)
    ensures Owners(Apply(s, e))
  {
    hide FindRow;
  }

  lemma NumbersStep(s: State, e: Step)
    requires NumbersDistinct(s) && Enabled(s, e)
    ensures NumbersDistinct(Apply(s, e))
  {
    hide FindRow;
  }

  lemma InvStep(s: State, e: Step)
    requires Inv(s) && Enabled(s, e)
    ensures Inv(Apply(s, e))
  {
    hide Apply, Enabled, UniqueRows, Owners, NumbersDistinct, CallerSees;
    UniqueRowsStep(s, e);
    OwnersStep(s, e);
    NumbersStep(s, e);
    forall p | p in Apply(s, e).callers
      ensures CallerSees(Apply(s, e), Apply(s, e).callers[p])
    {
      CallerAfter(s, e, p);
    }
  }

  // ---------------------------------------------------------------------------
  // Every interleaving
  // ---------------------------------------------------------------------------

  ghost predicate Valid(s: State, steps: seq<Step>)
    decreases |steps|
  {
    steps == [] || (Enabled(s, steps[0]) && Valid(Apply(s, steps[0]), steps[1..]))
  }

  ghost function Exec(s: State, steps: seq<Step>): State
    requires Valid(s, steps)
    decreases |steps|
  {
    if steps == [] then s else Exec(Apply(s, steps[0]), steps[1..])
  }

  lemma {:induction false} InvRun(s: State, steps: seq<Step>)
    requires Inv(s) && Valid(s, steps)
    ensures Inv(Exec(s, steps))
    decreases |steps|
  {
    hide Inv, Enabled, Apply;
    if steps != [] {
      InvStep(s, steps[0]);
      InvRun(Apply(s, steps[0]), steps[1..]);
    }
  }

  /** All callers for one source come back with one and the same ticket, and at most one of them made it. */
  lemma OneTicketPerSource(steps: seq<Step>, p: Pid, q: Pid)
    requires Valid(EMPTY, steps)
    requires var s := Exec(EMPTY, steps);
             && p in s.callers && q in s.callers && s.callers[p].Returned? && s.callers[q].Returned?
             && s.callers[p].tenant == s.callers[q].tenant && s.callers[p].source == s.callers[q].source
    ensures var s := Exec(EMPTY, steps);
            && s.callers[p].id == s.callers[q].id
            && (s.callers[p].created && s.callers[q].created ==> p == q)
  {
    InvRun(EMPTY, steps);
    var s := Exec(EMPTY, steps);
    assert CallerSees(s, s.callers[p]) && CallerSees(s, s.callers[q]);
    if s.callers[p].created && s.callers[q].created {
      assert Owns(s.callers[p], s.callers[p].id) && Owns(s.callers[q], s.callers[p].id);
    }
  }

  /**
   The table never holds two rows for one source, no caller fails to read its row back, and no number is
   drawn twice.
   */
  lemma TableStaysUnique(steps: seq<Step>, i: nat, j: nat, p: Pid)
    requires Valid(EMPTY, steps)
    ensures var s := Exec(EMPTY, steps);
            && (i < j < |s.rows| ==> !SameSource(s.rows[i], s.rows[j]))
            && (i < j < |s.drawn| ==> s.drawn[i] != s.drawn[j])
            && (p in s.callers ==> !s.callers[p].LostRow?)
  {
    InvRun(EMPTY, steps);
    var s := Exec(EMPTY, steps);
    if p in s.callers {
      assert CallerSees(s, s.callers[p]);
    }
  }

  /** How many numbers have been drawn for the day. */
  function DrawnOn(drawn: seq<Number>, date: string): nat {
    if drawn == [] then 0
    else DrawnOn(drawn[..|drawn| - 1], date) + if drawn[|drawn| - 1].date == date then 1 else 0
  }

  ghost predicate Consecutive(s: State) {
    && (forall date: string :: DrawnOn(s.drawn, date) == if date in s.counters then s.counters[date] else 0)
    && (forall i | 0 <= i < |s.drawn| :: s.drawn[i].seqNo == DrawnOn(s.drawn[..i], s.drawn[i].date) + 1)
  }

  lemma DrawingIs(s: State, e: Step)
    requires Enabled(s, e)
    ensures e.Draw? ==>
              var n := Next(s.counters, e.date);
              && Apply(s, e).drawn == s.drawn + [Number(e.date, n)]
              && Apply(s, e).counters == s.counters[e.date := n]
    ensures !e.Draw? ==> Apply(s, e).drawn == s.drawn && Apply(s, e).counters == s.counters
  {
    hide FindRow;
  }

  lemma DrawnOneMore(drawn: seq<Number>, n: Number, date: string)
    ensures DrawnOn(drawn + [n], date) == DrawnOn(drawn, date) + if n.date == date then 1 else 0
  {
    assert (drawn + [n])[..|drawn + [n]| - 1] == drawn;
  }

  lemma ConsecutiveStep(s: State, e: Step)
    requires Consecutive(s) && Enabled(s, e)
    ensures Consecutive(Apply(s, e))
  {
    var t := Apply(s, e);
    DrawingIs(s, e);
    hide Apply, Enabled, DrawnOn;
    if e.Draw? {
      forall date: string
        ensures DrawnOn(t.drawn, date) == if date in t.counters then t.counters[date] else 0
      {
        DrawnOneMore(s.drawn, Number(e.date, Next(s.counters, e.date)), date);
      }
      forall i | 0 <= i < |t.drawn|
        ensures t.drawn[i].seqNo == DrawnOn(t.drawn[..i], t.drawn[i].date) + 1
      {
        assert t.drawn[..i] == s.drawn[..i];
        if i == |s.drawn| {
          assert s.drawn[..i] == s.drawn;
        }
      }
    }
  }

  lemma {:induction false} ConsecutiveRun(s: State, steps: seq<Step>)
    requires Consecutive(s) && Valid(s, steps)
    ensures Consecutive(Exec(s, steps))
    decreases |steps|
  {
    hide Consecutive, Apply, Enabled;
    if steps != [] {
      ConsecutiveStep(s, steps[0]);
      ConsecutiveRun(Apply(s, steps[0]), steps[1..]);
    }
  }

  /** The numbers of a day are handed out one by one, from one on, none left out, whoever draws them. */
  lemma NumbersAreConsecutive(steps: seq<Step>, i: nat)
    requires Valid(EMPTY, steps) && i < |Exec(EMPTY, steps).drawn|
    ensures var drawn := Exec(EMPTY, steps).drawn;
            drawn[i].seqNo == DrawnOn(drawn[..i], drawn[i].date) + 1
  {
    ConsecutiveRun(EMPTY, steps);
  }

  predicate Makes(c: Caller, row: Row) {
    c.tenant == row.tenant && c.source == row.source && Owns(c, row.id)
  }

  ghost predicate HasMaker(s: State, row: Row) {
    exists p :: p in s.callers && Makes(s.callers[p], row)
  }

  /** Without deaths, every row has a living caller that made it. */
  ghost predicate Made(s: State) {
    forall i | 0 <= i < |s.rows| :: HasMaker(s, s.rows[i])
  }

  lemma {:induction false} RowIsFound(rows: seq<Row>, i: nat)
    requires i < |rows| && forall j, k | 0 <= j < k < |rows| :: !SameSource(rows[j], rows[k])
    ensures FindRow(rows, rows[i].tenant, rows[i].source) == Some(rows[i])
  {
    if i > 0 {
      assert !SameSource(rows[0], rows[i]);
      assert forall j, k | 0 <= j < k < |rows[1..]| :: !SameSource(rows[1..][j], rows[1..][k]) by {
        forall j, k | 0 <= j < k < |rows[1..]|
          ensures !SameSource(rows[1..][j], rows[1..][k])
        {
          assert !SameSource(rows[j + 1], rows[k + 1]);
        }
      }
      RowIsFound(rows[1..], i - 1);
    }
  }

  lemma MakerStays(s: State, e: Step, i: nat, p: Pid)
    requires Inv(s) && Enabled(s, e) && !e.Die? && i < |s.rows|
    requires p in s.callers && Makes(s.callers[p], s.rows[i])
    ensures p in Apply(s, e).callers && Makes(Apply(s, e).callers[p], s.rows[i])
  {
    RowIsFound(s.rows, i);
    hide Inv;
  }

  lemma MadeStep(s: State, e: Step)
    requires Inv(s) && Made(s) && Enabled(s, e) && !e.Die?
    ensures Made(Apply(s, e))
  {
    hide Inv, FindRow;
    var t := Apply(s, e);
    forall i | 0 <= i < |t.rows|
      ensures HasMaker(t, t.rows[i])
    {
      if i < |s.rows| {
        assert HasMaker(s, s.rows[i]);
        var p :| p in s.callers && Makes(s.callers[p], s.rows[i]);
        MakerStays(s, e, i, p);
        assert t.rows[i] == s.rows[i];
      } else {
        assert Makes(t.callers[e.p], t.rows[i]);
      }
    }
  }

  lemma {:induction false} MadeRun(s: State, steps: seq<Step>)
    requires Inv(s) && Made(s) && Valid(s, steps) && forall e | e in steps :: !e.Die?
    ensures Inv(Exec(s, steps)) && Made(Exec(s, steps))
    decreases |steps|
  {
    hide Inv, Made, Enabled, Apply;
    if steps != [] {
      assert !steps[0].Die?;
      InvStep(s, steps[0]);
      MadeStep(s, steps[0]);
      MadeRun(Apply(s, steps[0]), steps[1..]);
    }
  }

  /**
   Once all callers for a source have come back, none having died, exactly one of them says that it created
   the ticket.
   */
  lemma SomeoneCreatedIt(steps: seq<Step>, q: Pid) returns (p: Pid)
    requires Valid(EMPTY, steps) && forall e | e in steps :: !e.Die?
    requires q in Exec(EMPTY, steps).callers
    requires var s := Exec(EMPTY, steps);
             forall r | r in s.callers && s.callers[r].tenant == s.callers[q].tenant
                        && s.callers[r].source == s.callers[q].source :: s.callers[r].Returned?
    ensures var s := Exec(EMPTY, steps);
            && p in s.callers && s.callers[p].Returned? && s.callers[p].created
            && s.callers[p].tenant == s.callers[q].tenant && s.callers[p].source == s.callers[q].source
  {
    MadeRun(EMPTY, steps);
    var s := Exec(EMPTY, steps);
    var c := s.callers[q];
    assert CallerSees(s, c);
    var row := FindRow(s.rows, c.tenant, c.source).value;
    var i :| 0 <= i < |s.rows| && s.rows[i] == row;
    assert HasMaker(s, s.rows[i]);
    p :| p in s.callers && Makes(s.callers[p], s.rows[i]);
  }

  // ---------------------------------------------------------------------------
  // Numbers as text
  // ---------------------------------------------------------------------------

  function Zeros(n: nat): (r: string)
    ensures |r| == n && forall c | c in r :: c == '0'
  {
    if n == 0 then "" else "0" + Zeros(n - 1)
  }

  /** At least four digits, padded with zeros in front. */
  function Padded(n: nat): string {
    var t := NatText(n);
    if |t| < 4 then Zeros(4 - |t|) + t else t
  }

  function NumberText(n: Number): string {
    "INC-" + n.date + "-" + Padded(n.seqNo)
  }

  lemma {:induction false} ZerosInFront(k: nat, text: string, n: nat)
    requires ParseNat(text) == Some(n)
    ensures ParseNat(Zeros(k) + text) == Some(n)
    decreases k + |text|
  {
    var whole := Zeros(k) + text;
    if k == 0 {
      assert whole == text;
    } else {
      var front := text[..|text| - 1];
      assert whole[..|whole| - 1] == Zeros(k) + front;
      if front == [] {
        assert Zeros(k) + front == Zeros(k);
        ZerosAreZero(k);
        assert Zeros(k)[|Zeros(k)| - 1] in Zeros(k);
      } else if front[|front| - 1] == '_' {
        var inner := front[..|front| - 1];
        assert (Zeros(k) + front)[..|Zeros(k) + front| - 1] == Zeros(k) + inner;
        ZerosInFront(k, inner, ParseNat(inner).value);
      } else {
        ZerosInFront(k, front, ParseNat(front).value);
      }
    }
  }

  lemma {:induction false} ZerosAreZero(k: nat)
    requires k > 0
    ensures ParseNat(Zeros(k)) == Some(0)
  {
    var z := Zeros(k);
    assert z[|z| - 1] in z;
    if k > 1 {
      var y := Zeros(k - 1);
      assert z[..|z| - 1] == y by {
        assert forall i | 0 <= i < |z| :: z[i] in z;
        assert forall i | 0 <= i < |y| :: y[i] in y;
      }
      assert y[|y| - 1] in y;
      ZerosAreZero(k - 1);
    }
  }

  lemma PaddedParses(n: nat)
    ensures ParseNat(Padded(n)) == Some(n)
  {
    ParseNatText(n);
    var t := NatText(n);
    if |t| < 4 {
      ZerosInFront(4 - |t|, t, n);
    }
  }

  /** Different numbers are spelt differently; dates are eight characters long. */
  lemma NumberTextInjective(a: Number, b: Number)
    requires |a.date| == |b.date| == 8 && NumberText(a) == NumberText(b)
    ensures a == b
  {
    var s, t := NumberText(a), NumberText(b);
    assert s[4..12] == a.date && t[4..12] == b.date;
    assert s[13..] == Padded(a.seqNo) && t[13..] == Padded(b.seqNo);
    PaddedParses(a.seqNo);
    PaddedParses(b.seqNo);
  }
}
