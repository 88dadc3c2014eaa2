/** Values the script-plugin applicator works with, and the events it leaves in the
    trace of one build: which build operations were started (with their labels),
    when the plugin factory was called, which plugin was applied to which target,
    and which operation failed. */
module PluginModel {

  /** An opaque failure raised by a collaborator (a compile error, an exception thrown
      by the script); only its identity matters, so that "propagated unchanged" can be
      stated. */
  datatype Error = Error(id: nat)

  datatype Option<T> = None | Some(value: T)

  datatype Result<T> = Ok(value: T) | Err(error: Error)

  /** Whether a step returned normally or threw. */
  datatype Outcome = Success | Failure(error: Error)

  /** A target object: an identity plus the string its `toString` yields. */
  datatype Obj = Obj(id: nat, text: string)

  /** The `target` argument: one object, or a collection whose iteration order is the
      order of `items` and whose own `toString` yields `text`. */
  datatype TargetArg = Single(x: Obj) | Many(items: seq<Obj>, text: string)

  /** The script being applied: an identity plus its display name. */
  datatype ScriptSource = ScriptSource(id: nat, displayName: string)

  /** The script handler, the two class-loader scopes and the top-level flag, all
      forwarded to the factory untouched. */
  datatype ScriptContext = ScriptContext(handler: nat, targetScope: nat, baseScope: nat, topLevel: bool)

  /** A script plugin built by the factory, known by its identity. */
  datatype Plugin = Plugin(id: nat)

  /** One entry of the trace. */
  datatype Event =
    | Op(title: string)                               // a build operation is started
    | Create(source: ScriptSource, context: ScriptContext) // the factory is called
    | Applied(plugin: Plugin, target: Obj)            // a plugin's apply is called
    | Fail(error: Error)                              // the running operation's body threw

  /** The targets in the order they are visited: a lone object is a one-element
      sequence, a collection is its own iteration order. */
  function Targets(arg: TargetArg): seq<Obj>
  {
    match arg
    case Single(x) => [x]
    case Many(items, _) => items
  }

  /** The string form of the whole `target` argument. */
  function ArgText(arg: TargetArg): string
  {
    match arg
    case Single(x) => x.text
    case Many(_, text) => text
  }

  /** "Apply <display name> to ", the prefix of every operation label. */
  function LabelPrefix(source: ScriptSource): string
  {
    "Apply " + source.displayName + " to "
  }

  /** The labels of the operations started, in order. */
  function OpLabels(es: seq<Event>): seq<string>
  {
    if es == [] then []
    else (if es[0].Op? then [es[0].title] else []) + OpLabels(es[1..])
  }

  /** The targets a plugin was applied to, in order. */
  function AppliedTargets(es: seq<Event>): seq<Obj>
  {
    if es == [] then []
    else (if es[0].Applied? then [es[0].target] else []) + AppliedTargets(es[1..])
  }

  /** How many times the factory was called. */
  function CreateCount(es: seq<Event>): nat
  {
    if es == [] then 0
    else (if es[0].Create? then 1 else 0) + CreateCount(es[1..])
  }

  /** How many operations failed. */
  function FailCount(es: seq<Event>): nat
  {
    if es == [] then 0
    else (if es[0].Fail? then 1 else 0) + FailCount(es[1..])
  }

  lemma {:induction false} OpLabelsAppend(a: seq<Event>, b: seq<Event>)
    ensures OpLabels(a + b) == OpLabels(a) + OpLabels(b)
  {
    if a == [] {
      assert a + b == b;
    } else {
      assert (a + b)[0] == a[0];
      assert (a + b)[1..] == a[1..] + b;
      OpLabelsAppend(a[1..], b);
    }
  }

  lemma {:induction false} AppliedTargetsAppend(a: seq<Event>, b: seq<Event>)
    ensures AppliedTargets(a + b) == AppliedTargets(a) + AppliedTargets(b)
  {
    if a == [] {
      assert a + b == b;
    } else {
      assert (a + b)[0] == a[0];
      assert (a + b)[1..] == a[1..] + b;
      AppliedTargetsAppend(a[1..], b);
    }
  }

  lemma {:induction false} CreateCountAppend(a: seq<Event>, b: seq<Event>)
    ensures CreateCount(a + b) == CreateCount(a) + CreateCount(b)
  {
    if a == [] {
      assert a + b == b;
    } else {
      assert (a + b)[0] == a[0];
      assert (a + b)[1..] == a[1..] + b;
      CreateCountAppend(a[1..], b);
    }
  }

  lemma {:induction false} FailCountAppend(a: seq<Event>, b: seq<Event>)
    ensures FailCount(a + b) == FailCount(a) + FailCount(b)
  {
    if a == [] {
      assert a + b == b;
    } else {
      assert (a + b)[0] == a[0];
      assert (a + b)[1..] == a[1..] + b;
      FailCountAppend(a[1..], b);
    }
  }

  /** Every projection of a trace splits at any point of the trace. */
  lemma ProjectionsAppend(a: seq<Event>, b: seq<Event>)
    ensures OpLabels(a + b) == OpLabels(a) + OpLabels(b)
    ensures AppliedTargets(a + b) == AppliedTargets(a) + AppliedTargets(b)
    ensures CreateCount(a + b) == CreateCount(a) + CreateCount(b)
    ensures FailCount(a + b) == FailCount(a) + FailCount(b)
  {
    OpLabelsAppend(a, b);
    AppliedTargetsAppend(a, b);
    CreateCountAppend(a, b);
    FailCountAppend(a, b);
  }

  /** The projections of a one-event trace. */
  lemma ProjectionsOfEvent(e: Event)
    ensures OpLabels([e]) == (if e.Op? then [e.title] else [])
    ensures AppliedTargets([e]) == (if e.Applied? then [e.target] else [])
    ensures CreateCount([e]) == (if e.Create? then 1 else 0)
    ensures FailCount([e]) == (if e.Fail? then 1 else 0)
  {
    assert [e][1..] == [];
  }

  /** The projections of a two-event trace. */
  lemma ProjectionsOfPair(a: Event, b: Event)
    ensures OpLabels([a, b]) == OpLabels([a]) + OpLabels([b])
    ensures AppliedTargets([a, b]) == AppliedTargets([a]) + AppliedTargets([b])
    ensures CreateCount([a, b]) == CreateCount([a]) + CreateCount([b])
    ensures FailCount([a, b]) == FailCount([a]) + FailCount([b])
  {
    assert [a, b] == [a] + [b];
    ProjectionsAppend([a], [b]);
  }
}
