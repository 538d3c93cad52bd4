/** What a reference inside a param stands for, told by the values themselves. */
module References {
  import opened Values
  import opened Texts
  import opened States
  import opened Paths

  /**
   Following the steps from the root leads to the value: a name leads into the object's field of that name,
   and an index to the list's item that many places from the front, or, negative, from the end.
   */
  ghost predicate Found(root: Value, steps: seq<PathStep>, v: Value) {
    if steps == [] then root == v
    else match steps[0]
      case Key(name) => root.Obj? && name in root.fields && Found(root.fields[name], steps[1..], v)
      case Index(i) =>
        root.List? && exists j :: 0 <= j < |root.items| && (i == j || i == j - |root.items|)
                                  && Found(root.items[j], steps[1..], v)
  }

  lemma {:induction false} FoundIsWalked(root: Value, steps: seq<PathStep>, v: Value)
    requires Found(root, steps, v)
    ensures WalkSteps(root, steps) == v
  {
    if steps != [] {
      match steps[0]
      case Key(name) => FoundIsWalked(root.fields[name], steps[1..], v);
      case Index(i) =>
        var j :| 0 <= j < |root.items| && (i == j || i == j - |root.items|) && Found(root.items[j], steps[1..], v);
        FoundIsWalked(root.items[j], steps[1..], v);
    }
  }

  lemma {:induction false} SomethingIsFound(root: Value, steps: seq<PathStep>)
    requires WalkSteps(root, steps) != Null
    ensures Found(root, steps, WalkSteps(root, steps))
  {
    if steps != [] {
      var next := WalkStep(root, steps[0]);
      if next.Some? {
        SomethingIsFound(next.value, steps[1..]);
        if steps[0].Index? {
          var i := steps[0].i;
          var j := if i >= 0 then i else i + |root.items|;
          assert root.items[j] == next.value && (i == j || i == j - |root.items|);
        }
      }
    }
  }

  /** `r` is what stands at the end of the steps, and null if nothing does. */
  ghost predicate Reads(root: Value, steps: seq<PathStep>, r: Option<Value>) {
    r.Some? && (Found(root, steps, r.value) || (r.value == Null && forall v :: !Found(root, steps, v)))
  }

  lemma WalkingReads(root: Value, steps: seq<PathStep>)
    ensures Reads(root, steps, Some(WalkSteps(root, steps)))
  {
    if WalkSteps(root, steps) != Null {
      SomethingIsFound(root, steps);
    }
    forall v | Found(root, steps, v)
      ensures v == WalkSteps(root, steps)
    {
      FoundIsWalked(root, steps, v);
    }
    hide Found, WalkSteps;
  }

  lemma AfterPrefix(prefix: string, rest: string)
    ensures prefix <= prefix + rest && (prefix + rest)[|prefix|..] == rest
  {
  }

  /** A reference to an input, at any depth and with any indices, stands for the value that is there. */
  lemma InputReferenceReads(steps: seq<PathStep>, st: States, inputs: Value)
    requires AllSpellable(steps)
    ensures Reads(inputs, steps, Resolve(Str("$.inputs." + Render(steps, true)), st, inputs))
  {
    hide Found, Reads, PathSteps, Render, WalkSteps, AllSpellable;
    AfterPrefix("$.inputs.", Render(steps, true));
    NoNodesPrefix(Render(steps, true));
    ParseInvertsRender(steps, true);
    WalkingReads(inputs, steps);
    assert ResolveReference("$.inputs." + Render(steps, true), st, inputs) == Walk(inputs, Render(steps, true));
  }

  lemma NoNodesPrefix(rest: string)
    ensures !(NODES <= "$.inputs." + rest)
  {
    assert NODES[2] == 'n' && ("$.inputs." + rest)[2] == 'i';
  }

  /** A reference to a node's output likewise stands for what is in that node's output. */
  lemma OutputReferenceReads(name: string, steps: seq<PathStep>, st: States, inputs: Value)
    requires AllSpellable(steps) && '.' !in name
    ensures Reads(if name in st then st[name].output else Null, steps,
                  Resolve(Str("$.nodes." + (name + "." + ("output" + Render(steps, false)))), st, inputs))
  {
    hide Found, Reads, PathSteps, Render, WalkSteps, AllSpellable, UpTo;
    var field := "output" + Render(steps, false);
    AfterPrefix("$.nodes.", name + "." + field);
    SplitName(name, field);
    assert ResolveReference("$.nodes." + (name + "." + field), st, inputs) == ReadOutput(OutputOf(st, name), field);
    FieldReads(OutputOf(st, name), steps);
  }

  lemma SplitName(name: string, field: string)
    requires '.' !in name
    ensures UpTo(name + "." + field, ".") == name && (name + "." + field)[|name| + 1..] == field
  {
    assert name + "." + field == name + ("." + field);
    UpToClean(name, "." + field, ".");
  }

  lemma FieldReads(output: Value, steps: seq<PathStep>)
    requires AllSpellable(steps)
    ensures Reads(output, steps, ReadOutput(output, "output" + Render(steps, false)))
  {
    AfterPrefix("output", Render(steps, false));
    ParseInvertsRender(steps, false);
    WalkingReads(output, steps);
    RenderedEmpty(steps);
    NothingInNull(steps);
    hide Found, Reads, PathSteps, Render, AllSpellable;
  }

  lemma RenderedEmpty(steps: seq<PathStep>)
    requires AllSpellable(steps)
    ensures Render(steps, false) == "" <==> steps == []
  {
  }

  lemma NothingInNull(steps: seq<PathStep>)
    ensures WalkSteps(Null, steps) == Null
  {
  }

  /** Any other text stands for itself. */
  lemma PlainTextStays(text: string, st: States, inputs: Value)
    requires !("$.nodes." <= text) && !("$.inputs." <= text)
    ensures Resolve(Str(text), st, inputs) == Some(Str(text))
  {
  }

  /** Resolving a param changes nothing but its leaves, each in its place, at any depth. */
  lemma {:induction false} ResolvesInPlace(v: Value, steps: seq<PathStep>, leaf: Value, st: States, inputs: Value)
    requires Resolve(v, st, inputs).Some? && Found(v, steps, leaf)
    ensures Resolve(leaf, st, inputs).Some?
    ensures Found(Resolve(v, st, inputs).value, steps, Resolve(leaf, st, inputs).value)
    decreases |steps|
  {
    hide ResolveReference;
    if steps != [] {
      match steps[0]
      case Key(name) => ResolvesInPlace(v.fields[name], steps[1..], leaf, st, inputs);
      case Index(i) =>
        var j :| 0 <= j < |v.items| && (i == j || i == j - |v.items|) && Found(v.items[j], steps[1..], leaf);
        ResolvesInPlace(v.items[j], steps[1..], leaf, st, inputs);
        assert Found(Resolve(v, st, inputs).value.items[j], steps[1..], Resolve(leaf, st, inputs).value);
    }
  }
}
