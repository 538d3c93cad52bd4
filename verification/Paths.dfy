/**
 Paths into node outputs: the step parser of params with its round trip, the dotted lookup
 of conditions, and what resolving a node's params can read.
 */
module Paths {
  import opened Values
  import opened Texts
  import opened Dags
  import opened States

  datatype PathStep = Key(name: string) | Index(i: int)

  /** A bracket that does not close raises; a bracket without a number makes the whole path empty. */
  datatype Parsed = Steps(steps: seq<PathStep>) | Abandoned | Unclosed

  function Before(step: PathStep, rest: Parsed): Parsed {
    match rest
    case Steps(steps) => Steps([step] + steps)
    case Abandoned => Abandoned
    case Unclosed => Unclosed
  }

  function PathSteps(path: string): Parsed
    decreases |path|
  {
    if path == [] then Steps([])
    else if path[0] == '.' then PathSteps(path[1..])
    else if path[0] == '[' then
      var inner := UpTo(path[1..], "]");
      if |inner| + 1 >= |path| then Unclosed
      else
        match ParseInt(inner)
        case None => Abandoned
        case Some(i) => Before(Index(i), PathSteps(path[|inner| + 2..]))
    else
      var name := UpTo(path, ".[");
      Before(Key(name), PathSteps(path[|name|..]))
  }

  function After(done: seq<PathStep>, rest: Parsed): Parsed {
    match rest
    case Steps(steps) => Steps(done + steps)
    case Abandoned => Abandoned
    case Unclosed => Unclosed
  }

  /** Move an index on to the first stop character, or to the end. */
  method ScanTo(path: string, from: nat, stops: string) returns (j: nat)
    requires from <= |path|
    ensures from <= j <= |path| && path[from..j] == UpTo(path[from..], stops)
  {
    j := from;
    while j < |path| && path[j] !in stops
      invariant from <= j <= |path|
      invariant forall k | from <= k < j :: path[k] !in stops
    {
      j := j + 1;
    }
    assert path[from..] == path[from..j] + path[j..];
    UpToClean(path[from..j], path[j..], stops);
  }

  /** One more step parsed in front of the rest. */
  lemma AfterOneMore(done: seq<PathStep>, step: PathStep, rest: Parsed)
    ensures After(done, Before(step, rest)) == After(done + [step], rest)
  {
    if rest.Steps? {
      assert done + ([step] + rest.steps) == (done + [step]) + rest.steps;
    }
  }

  lemma DotParses(path: string, i: nat)
    requires i < |path| && path[i] == '.'
    ensures PathSteps(path[i..]) == PathSteps(path[i + 1..])
  {
    assert path[i..][1..] == path[i + 1..];
  }

  lemma BracketParses(path: string, i: nat, j: nat)
    requires i < j <= |path| && path[i] == '[' && path[i + 1..j] == UpTo(path[i + 1..], "]")
    ensures j == |path| ==> PathSteps(path[i..]) == Unclosed
    ensures j < |path| && ParseInt(path[i + 1..j]).None? ==> PathSteps(path[i..]) == Abandoned
    ensures j < |path| && ParseInt(path[i + 1..j]).Some? ==>
              PathSteps(path[i..]) == Before(Index(ParseInt(path[i + 1..j]).value), PathSteps(path[j + 1..]))
  {
    var rest := path[i..];
    assert rest[1..] == path[i + 1..] && |path[i + 1..j]| == j - i - 1;
    if j < |path| {
      assert rest[j - i + 1..] == path[j + 1..];
    }
  }

  lemma NameParses(path: string, i: nat, j: nat)
    requires i < |path| && i <= j <= |path| && path[i] !in ".[" && path[i..j] == UpTo(path[i..], ".[")
    ensures i < j && PathSteps(path[i..]) == Before(Key(path[i..j]), PathSteps(path[j..]))
  {
    var rest := path[i..];
    assert |path[i..j]| == j - i && rest[j - i..] == path[j..];
  }

  /** The parser as the source runs it, with an index into the path. */
  method ParsePath(path: string) returns (r: Parsed)
    ensures r == PathSteps(path)
  {
    hide PathSteps, ParseInt, After, Before;
    var steps := [];
    var i := 0;
    NothingParsedYet(path);
    while i < |path|
      invariant 0 <= i <= |path|
      invariant PathSteps(path) == After(steps, PathSteps(path[i..]))
    {
      if path[i] == '.' {
        DotParses(path, i);
        i := i + 1;
      } else if path[i] == '[' {
        var j := ScanTo(path, i + 1, "]");
        BracketParses(path, i, j);
        if j == |path| {
          StopsParsing(steps);
          return Unclosed;
        }
        var number := ParseInt(path[i + 1..j]);
        if number.None? {
          StopsParsing(steps);
          return Abandoned;
        }
        AfterOneMore(steps, Index(number.value), PathSteps(path[j + 1..]));
        steps := steps + [Index(number.value)];
        i := j + 1;
      } else {
        var j := ScanTo(path, i, ".[");
        NameParses(path, i, j);
        AfterOneMore(steps, Key(path[i..j]), PathSteps(path[j..]));
        steps := steps + [Key(path[i..j])];
        i := j;
      }
    }
    AllParsed(steps, path[i..]);
    r := Steps(steps);
  }

  lemma NothingParsedYet(path: string)
    ensures After([], PathSteps(path[0..])) == PathSteps(path)
  {
    assert path[0..] == path;
    if PathSteps(path).Steps? {
      assert [] + PathSteps(path).steps == PathSteps(path).steps;
    }
  }

  lemma StopsParsing(done: seq<PathStep>)
    ensures After(done, Unclosed) == Unclosed && After(done, Abandoned) == Abandoned
  {
  }

  lemma AllParsed(done: seq<PathStep>, rest: string)
    requires rest == []
    ensures After(done, PathSteps(rest)) == Steps(done)
  {
    assert done + [] == done;
  }

  // ---------------------------------------------------------------------------
  // The round trip
  // ---------------------------------------------------------------------------

  /** A name that a path can spell. */
  predicate Spellable(name: string) {
    name != [] && forall c | c in name :: c != '.' && c != '['
  }

  predicate AllSpellable(steps: seq<PathStep>) {
    forall k | 0 <= k < |steps| && steps[k].Key? :: Spellable(steps[k].name)
  }

  /** `a.b[0].c`: a dot before every name but the first step, indices in brackets. */
  function Render(steps: seq<PathStep>, first: bool): string {
    if steps == [] then []
    else
      (match steps[0]
       case Key(name) => (if first then "" else ".") + name
       case Index(i) => "[" + IntText(i) + "]")
      + Render(steps[1..], false)
  }

  lemma RenderedTailStops(steps: seq<PathStep>)
    ensures Render(steps, false) == [] || Render(steps, false)[0] in ".["
  {
  }

  /** Parsing inverts rendering, for all indices, negative ones included, and all spellable names. */
  lemma {:induction false} ParseInvertsRender(steps: seq<PathStep>, first: bool)
    requires AllSpellable(steps)
    ensures PathSteps(Render(steps, first)) == Steps(steps)
  {
    EmptyParses();
    hide PathSteps, IntText, Spellable;
    if steps != [] {
      var tail := Render(steps[1..], false);
      ParseInvertsRender(steps[1..], false);
      RenderedTailStops(steps[1..]);
      match steps[0]
      case Key(name) => KeyParses(name, tail, first);
      case Index(i) => IndexParses(i, tail);
    }
  }

  lemma EmptyParses()
    ensures PathSteps([]) == Steps([])
  {
  }

  lemma NameThenTail(name: string, tail: string)
    requires Spellable(name) && (tail == [] || tail[0] in ".[")
    ensures PathSteps(name + tail) == Before(Key(name), PathSteps(tail))
  {
    hide PathSteps;
    var body := name + tail;
    assert body[0] == name[0] && name[0] in name;
    UpToClean(name, tail, ".[");
    hide UpTo, Before, Spellable;
    assert body[0..] == body;
    assert body[..|name|] == name;
    assert body[|name|..] == tail;
    NameParses(body, 0, |name|);
  }

  lemma DotThenName(body: string)
    ensures PathSteps("." + body) == PathSteps(body)
  {
    assert ("." + body)[1..] == body;
  }

  lemma KeyParses(name: string, tail: string, first: bool)
    requires Spellable(name) && (tail == [] || tail[0] in ".[")
    ensures PathSteps((if first then "" else ".") + name + tail) == Before(Key(name), PathSteps(tail))
  {
    hide PathSteps, Spellable, Before;
    NameThenTail(name, tail);
    DotThenName(name + tail);
    assert (if first then "" else ".") + name + tail == (if first then "" else ".") + (name + tail);
    assert "" + (name + tail) == name + tail;
  }

  lemma IndexParses(i: int, tail: string)
    ensures PathSteps("[" + IntText(i) + "]" + tail) == Before(Index(i), PathSteps(tail))
  {
    hide PathSteps, ParseInt;
    var number := IntText(i);
    var path := "[" + number + "]" + tail;
    var j := |number| + 1;
    assert path[0..] == path && path[1..] == number + ("]" + tail) && path[1..j] == number && path[j + 1..] == tail;
    NoBracketInside(i);
    UpToClean(number, "]" + tail, "]");
    ParseIntText(i);
    BracketParses(path, 0, j);
  }

  lemma NoBracketInside(i: int)
    ensures forall c | c in IntText(i) :: c !in "]"
  {
  }

  // ---------------------------------------------------------------------------
  // Walking a value
  // ---------------------------------------------------------------------------

  function WalkStep(cur: Value, step: PathStep): Option<Value> {
    match (cur, step)
    case (Obj(fields), Key(name)) => if name in fields then Some(fields[name]) else None
    case (List(items), Index(i)) =>
      if 0 <= i < |items| then Some(items[i])
      else if -|items| <= i < 0 then Some(items[|items| + i])
      else None
    case _ => None
  }

  function WalkSteps(root: Value, steps: seq<PathStep>): Value {
    if steps == [] then root
    else match WalkStep(root, steps[0])
      case Some(v) => WalkSteps(v, steps[1..])
      case None => Null
  }

  /** None stands for the exception on an unclosed bracket. */
  function Walk(root: Value, path: string): Option<Value> {
    match PathSteps(path)
    case Steps(steps) => Some(WalkSteps(root, steps))
    case Abandoned => Some(root)
    case Unclosed => None
  }

  method WalkValue(root: Value, path: string) returns (r: Option<Value>)
    ensures r == Walk(root, path)
  {
    var parsed := ParsePath(path);
    if parsed.Unclosed? {
      return None;
    }
    var steps := if parsed.Steps? then parsed.steps else [];
    var cur := root;
    for k := 0 to |steps|
      invariant WalkSteps(root, steps) == WalkSteps(cur, steps[k..])
    {
      assert steps[k..][1..] == steps[k + 1..];
      var next := WalkStep(cur, steps[k]);
      if next.None? {
        return Some(Null);
      }
      cur := next.value;
    }
    r := Some(cur);
  }

  // ---------------------------------------------------------------------------
  // Params
  // ---------------------------------------------------------------------------

  const NODES := "$.nodes."
  const INPUTS := "$.inputs."
  const OUTPUT := "output"

  function OutputOf(st: States, n: NodeId): Value {
    if n in st then st[n].output else Null
  }

  /** `field` is what follows the node's name and its dot. */
  function ReadOutput(output: Value, field: string): Option<Value> {
    if output.Null? then Some(Null)
    else
      var rest := if OUTPUT <= field then field[|OUTPUT|..] else field;
      if rest == "" then Some(output) else Walk(output, rest)
  }

  function ResolveReference(text: string, st: States, inputs: Value): Option<Value> {
    if NODES <= text then
      var rest := text[|NODES|..];
      var node := UpTo(rest, ".");
      ReadOutput(OutputOf(st, node), if |node| < |rest| then rest[|node| + 1..] else "")
    else if INPUTS <= text then Walk(inputs, text[|INPUTS|..])
    else Some(Str(text))
  }

  /** Resolve the references inside a param, at any depth. */
  function Resolve(v: Value, st: States, inputs: Value): Option<Value> {
    match v
    case Str(s) => ResolveReference(s, st, inputs)
    case Obj(fields) =>
      if forall k | k in fields :: Resolve(fields[k], st, inputs).Some?
      then Some(Obj(map k | k in fields :: Resolve(fields[k], st, inputs).value)) else None
    case List(items) =>
      if forall i | 0 <= i < |items| :: Resolve(items[i], st, inputs).Some?
      then Some(List(seq(|items|, i requires 0 <= i < |items| => Resolve(items[i], st, inputs).value))) else None
    case _ => Some(v)
  }

  /** The nodes that the references inside a param name. */
  function ParamRefs(v: Value): set<NodeId> {
    match v
    case Str(s) => if NODES <= s then {UpTo(s[|NODES|..], ".")} else {}
    case Obj(fields) => set k, n | k in fields && n in ParamRefs(fields[k]) :: n
    case List(items) => set i, n | 0 <= i < |items| && n in ParamRefs(items[i]) :: n
    case _ => {}
  }

  lemma ReferenceReadsOnlyRefs(text: string, a: States, b: States, inputs: Value)
    requires forall n | n in ParamRefs(Str(text)) :: OutputOf(a, n) == OutputOf(b, n)
    ensures ResolveReference(text, a, inputs) == ResolveReference(text, b, inputs)
  {
    if NODES <= text {
      assert UpTo(text[|NODES|..], ".") in ParamRefs(Str(text));
    }
  }

  lemma RefsInside(v: Value)
    ensures v.Obj? ==> forall k | k in v.fields :: ParamRefs(v.fields[k]) <= ParamRefs(v)
    ensures v.List? ==> forall i | 0 <= i < |v.items| :: ParamRefs(v.items[i]) <= ParamRefs(v)
  {
  }

  /** Resolving a param reads the outputs of the nodes it names, and no others. */
  lemma {:induction false} ResolveReadsOnlyRefs(v: Value, a: States, b: States, inputs: Value)
    requires forall n | n in ParamRefs(v) :: OutputOf(a, n) == OutputOf(b, n)
    ensures Resolve(v, a, inputs) == Resolve(v, b, inputs)
  {
    RefsInside(v);
    hide ParamRefs, ResolveReference, OutputOf, UpTo;
    match v
    case Str(text) => ReferenceReadsOnlyRefs(text, a, b, inputs);
    case Obj(fields) =>
      forall k | k in fields
        ensures Resolve(fields[k], a, inputs) == Resolve(fields[k], b, inputs)
      {
        ResolveReadsOnlyRefs(fields[k], a, b, inputs);
      }
      FieldsResolveAlike(fields, a, b, inputs);
    case List(items) =>
      forall i | 0 <= i < |items|
        ensures Resolve(items[i], a, inputs) == Resolve(items[i], b, inputs)
      {
        ResolveReadsOnlyRefs(items[i], a, b, inputs);
      }
      ItemsResolveAlike(items, a, b, inputs);
    case _ =>
  }

  lemma FieldsResolveAlike(fields: map<string, Value>, a: States, b: States, inputs: Value)
    requires forall k | k in fields :: Resolve(fields[k], a, inputs) == Resolve(fields[k], b, inputs)
    ensures Resolve(Obj(fields), a, inputs) == Resolve(Obj(fields), b, inputs)
  {
    hide ResolveReference;
    if Resolve(Obj(fields), a, inputs).Some? {
      assert Resolve(Obj(fields), a, inputs).value.fields == Resolve(Obj(fields), b, inputs).value.fields;
    }
  }

  lemma ItemsResolveAlike(items: seq<Value>, a: States, b: States, inputs: Value)
    requires forall i | 0 <= i < |items| :: Resolve(items[i], a, inputs) == Resolve(items[i], b, inputs)
    ensures Resolve(List(items), a, inputs) == Resolve(List(items), b, inputs)
  {
    hide ResolveReference;
    if Resolve(List(items), a, inputs).Some? {
      assert Resolve(List(items), a, inputs).value.items == Resolve(List(items), b, inputs).value.items;
    }
  }

  /** The static check on params: every reference names an ancestor or the node itself. */
  method CheckParamsRefs(d: Dag) returns (ok: bool)
    requires Coherent(d)
    ensures ok <==> forall n, m | n in d.nodes && m in ParamRefs(d.nodes[n].params) :: m == n || Above(d.edges, m, n)
  {
    for i := 0 to |d.order|
      invariant forall n, m | n in d.order[..i] && n in d.nodes && m in ParamRefs(d.nodes[n].params) ::
                  m == n || Above(d.edges, m, n)
    {
      var nid := d.order[i];
      assert nid in (set n | n in d.order);
      var allowed := TransitiveUpstreams(d, nid);
      if !(ParamRefs(d.nodes[nid].params) <= allowed + {nid}) {
        return false;
      }
    }
    assert d.order[..|d.order|] == d.order;
    assert forall n | n in d.nodes :: n in d.order by {
      assert forall n | n in d.nodes :: n in (set n | n in d.order);
    }
    return true;
  }

  /** The params of an accepted graph cannot see what happens beside or below their node. */
  lemma AcceptedParamsReadAncestors(d: Dag, n: NodeId, a: States, b: States, inputs: Value)
    requires n in d.nodes
    requires forall m | m in ParamRefs(d.nodes[n].params) :: m == n || Above(d.edges, m, n)
    requires forall m | m == n || Above(d.edges, m, n) :: OutputOf(a, m) == OutputOf(b, m)
    ensures Resolve(d.nodes[n].params, a, inputs) == Resolve(d.nodes[n].params, b, inputs)
  {
    ResolveReadsOnlyRefs(d.nodes[n].params, a, b, inputs);
  }

  // ---------------------------------------------------------------------------
  // Conditions read the same
  // ---------------------------------------------------------------------------

  /** The parts between dots, empty ones left out. */
  function Parts(text: string): seq<string>
    decreases |text|
  {
    if text == [] then []
    else if text[0] == '.' then Parts(text[1..])
    else
      var part := UpTo(text, ".");
      [part] + Parts(text[|part|..])
  }

  /** The left side of a condition, looked up in the node states; `status` is how a status reads. */
  function GetPath(data: Value, path: string): Value {
    Lookup(data, Parts(Trim(path)))
  }

  function NodesValue(st: States, status: Status -> string): Value {
    Obj(map n | n in st :: Obj(map["status" := Str(status(st[n].status)), OUTPUT := st[n].output]))
  }

  method GetPathValue(data: Value, path: string) returns (r: Value)
    ensures r == GetPath(data, path)
  {
    var parts := Parts(Trim(path));
    r := data;
    for k := 0 to |parts|
      invariant Lookup(data, parts) == Lookup(r, parts[k..])
    {
      assert parts[k..][1..] == parts[k + 1..];
      if r.Obj? && parts[k] in r.fields {
        r := r.fields[parts[k]];
      } else {
        return Null;
      }
    }
  }

  function KeysOf(parts: seq<string>): seq<PathStep> {
    seq(|parts|, k requires 0 <= k < |parts| => Key(parts[k]))
  }

  lemma {:induction false} StepsAreParts(path: string)
    requires '[' !in path
    ensures PathSteps(path) == Steps(KeysOf(Parts(path)))
    decreases |path|
  {
    if path != [] {
      assert path[0] in path;
      if path[0] == '.' {
        StepsAreParts(path[1..]);
      } else {
        var name := UpTo(path, ".[");
        SameStop(path);
        StepsAreParts(path[|name|..]);
        assert KeysOf(Parts(path)) == [Key(name)] + KeysOf(Parts(path[|name|..]));
      }
    }
  }

  lemma {:induction false} SameStop(path: string)
    requires '[' !in path
    ensures UpTo(path, ".[") == UpTo(path, ".")
  {
    if path != [] {
      assert path[0] in path;
      SameStop(path[1..]);
    }
  }

  lemma {:induction false} WalkingKeysIsLookup(v: Value, parts: seq<string>)
    ensures WalkSteps(v, KeysOf(parts)) == Lookup(v, parts)
  {
    if parts != [] {
      assert KeysOf(parts)[1..] == KeysOf(parts[1..]);
      if v.Obj? && parts[0] in v.fields {
        WalkingKeysIsLookup(v.fields[parts[0]], parts[1..]);
      }
    }
  }

  lemma PartsCons(name: string, back: string)
    requires name != [] && '.' !in name && (back == [] || back[0] == '.')
    ensures Parts(name + back) == [name] + Parts(back)
  {
    var whole := name + back;
    assert whole[0] == name[0] && name[0] in name;
    UpToClean(name, back, ".");
    assert whole[|name|..] == back;
  }

  lemma PartsSkipDot(text: string)
    ensures Parts("." + text) == Parts(text)
  {
    assert ("." + text)[1..] == text;
  }

  /** The parts of `name.output.tail`. */
  lemma PartsOfReference(name: string, tail: string)
    requires name != [] && '.' !in name
    ensures Parts(name + "." + OUTPUT + "." + tail) == [name, OUTPUT] + Parts(tail)
  {
    hide Parts;
    var rest := OUTPUT + ("." + tail);
    assert name + "." + OUTPUT + "." + tail == name + ("." + rest);
    PartsCons(name, "." + rest);
    PartsSkipDot(rest);
    PartsCons(OUTPUT, "." + tail);
    PartsSkipDot(tail);
    assert [name] + ([OUTPUT] + Parts(tail)) == [name, OUTPUT] + Parts(tail);
  }

  lemma ConditionReads(name: string, tail: string, st: States, status: Status -> string)
    requires name != [] && '.' !in name
    requires var path := name + "." + OUTPUT + "." + tail; Trim(path) == path
    ensures GetPath(NodesValue(st, status), name + "." + OUTPUT + "." + tail) == Lookup(OutputOf(st, name), Parts(tail))
  {
    hide Parts, Trim;
    PartsOfReference(name, tail);
    var data, parts := NodesValue(st, status), [name, OUTPUT] + Parts(tail);
    assert parts[1..] == [OUTPUT] + Parts(tail) && parts[1..][1..] == Parts(tail);
    LookupInNull(Parts(tail));
    if name in st {
      var row := data.fields[name];
      assert Lookup(data, parts) == Lookup(row, parts[1..]);
      assert Lookup(row, parts[1..]) == Lookup(row.fields[OUTPUT], parts[1..][1..]);
    }
  }

  lemma ParamReads(name: string, tail: string, st: States, inputs: Value)
    requires '.' !in name && '[' !in tail
    ensures Resolve(Str(NODES + (name + "." + OUTPUT + "." + tail)), st, inputs)
            == Some(Lookup(OutputOf(st, name), Parts(tail)))
  {
    var path, field := name + "." + OUTPUT + "." + tail, OUTPUT + "." + tail;
    var text := NODES + path;
    assert text[|NODES|..] == path && path == name + ("." + field);
    UpToClean(name, "." + field, ".");
    assert path[|name| + 1..] == field;
    OutputReads(OutputOf(st, name), tail);
  }

  lemma OutputReads(output: Value, tail: string)
    requires '[' !in tail
    ensures ReadOutput(output, OUTPUT + "." + tail) == Some(Lookup(output, Parts(tail)))
  {
    var field := OUTPUT + "." + tail;
    assert field[|OUTPUT|..] == "." + tail && ("." + tail)[1..] == tail;
    StepsAreParts(tail);
    WalkingKeysIsLookup(output, Parts(tail));
    LookupInNull(Parts(tail));
  }

  /**
   One reference, two readers: on an output path without indices, and without blanks at its
   ends, a param and a condition see the same value.
   */
  lemma ParamAndConditionAgree(name: string, tail: string, st: States, inputs: Value, status: Status -> string)
    requires name != [] && '.' !in name && '[' !in tail
    requires var path := name + "." + OUTPUT + "." + tail; Trim(path) == path
    ensures var path := name + "." + OUTPUT + "." + tail;
            Resolve(Str(NODES + path), st, inputs) == Some(GetPath(NodesValue(st, status), path))
  {
    hide *;
    ParamReads(name, tail, st, inputs);
    ConditionReads(name, tail, st, status);
  }

  /** And what a condition reads there is what the executor's edge condition looks up. */
  lemma EdgeConditionReads(c: Cond, tail: string, st: States, status: Status -> string)
    requires c.node != [] && '.' !in c.node && c.path == Parts(tail)
    requires var path := c.node + "." + OUTPUT + "." + tail; Trim(path) == path
    ensures Holds(c, st) <==>
            LooseEqual(GetPath(NodesValue(st, status), c.node + "." + OUTPUT + "." + tail), c.literal) != c.negated
  {
    hide Parts, Trim, GetPath;
    ConditionReads(c.node, tail, st, status);
  }
}
