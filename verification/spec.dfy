/** What one call of the applicator does, as a function of its inputs and of what the
    collaborators answer, and the properties that follow from it. */
module ApplySpec {
  import opened PluginModel

  /** The collaborators the applicator calls out to. `factory` is the script plugin
      factory (compiling the script is not modelled: it either yields a plugin or
      throws); `behaviour` says whether applying a plugin to a target returns or
      throws. */
  datatype Collaborators = Collaborators(
    factory: (ScriptSource, ScriptContext) -> Result<Plugin>,
    behaviour: (Plugin, Obj) -> Outcome)

  /** The trace one call leaves and how the call ends. */
  datatype Run = Run(events: seq<Event>, outcome: Outcome)

  /** The first two events of a non-empty call: the first operation is started,
      labelled with the first target, and the factory is called inside it. */
  function Opening(source: ScriptSource, ctx: ScriptContext, first: Obj): seq<Event>
  {
    [Op(LabelPrefix(source) + first.text), Create(source, ctx)]
  }

  /** The two events of a later operation that starts: its operation, then the apply. */
  function Step(p: Plugin, x: Obj, title: string): seq<Event>
  {
    [Op(title), Applied(p, x)]
  }

  lemma OpeningProjections(source: ScriptSource, ctx: ScriptContext, first: Obj)
    ensures OpLabels(Opening(source, ctx, first)) == [LabelPrefix(source) + first.text]
    ensures AppliedTargets(Opening(source, ctx, first)) == []
    ensures CreateCount(Opening(source, ctx, first)) == 1
    ensures FailCount(Opening(source, ctx, first)) == 0
  {
    ProjectionsOfPair(Op(LabelPrefix(source) + first.text), Create(source, ctx));
    ProjectionsOfEvent(Op(LabelPrefix(source) + first.text));
    ProjectionsOfEvent(Create(source, ctx));
  }

  lemma StepProjections(p: Plugin, x: Obj, title: string)
    ensures OpLabels(Step(p, x, title)) == [title]
    ensures AppliedTargets(Step(p, x, title)) == [x]
    ensures CreateCount(Step(p, x, title)) == 0
    ensures FailCount(Step(p, x, title)) == 0
  {
    ProjectionsOfPair(Op(title), Applied(p, x));
    ProjectionsOfEvent(Op(title));
    ProjectionsOfEvent(Applied(p, x));
  }

  /** The operations for the targets after the first one: each is started with
      `title`, applies `p` to its target, and the first one that throws ends the
      sequence. Recursion is on the last target, in the order the loop visits them. */
  function Later(co: Collaborators, p: Plugin, xs: seq<Obj>, title: string): Run
    decreases |xs|
  {
    if xs == [] then Run([], Success)
    else
      var done := Later(co, p, xs[..|xs| - 1], title);
      if done.outcome.Failure? then done
      else
        var step := Step(p, xs[|xs| - 1], title);
        match co.behaviour(p, xs[|xs| - 1])
        case Success => Run(done.events + step, Success)
        case Failure(e) => Run(done.events + step + [Fail(e)], Failure(e))
  }

  /** One call `apply(source, context..., target)`: nothing for an empty collection;
      otherwise the first operation, labelled with the first target, creates the
      plugin and applies it to that target, and every later operation, labelled with
      the whole argument, applies the same plugin to the next target. */
  function Invoke(co: Collaborators, source: ScriptSource, ctx: ScriptContext, arg: TargetArg): Run
  {
    var ts := Targets(arg);
    if ts == [] then Run([], Success)
    else
      match co.factory(source, ctx)
      case Err(e) => Run(Opening(source, ctx, ts[0]) + [Fail(e)], Failure(e))
      case Ok(p) =>
        var first := FirstOperation(source, ctx, ts[0], p);
        match co.behaviour(p, ts[0])
        case Failure(e) => Run(first + [Fail(e)], Failure(e))
        case Success =>
          var rest := Later(co, p, ts[1..], LabelPrefix(source) + ArgText(arg));
          Run(first + rest.events, rest.outcome)
  }

  // ---------------------------------------------------------------------------
  // The later operations

  /** The later operations never call the factory, only ever apply `p`, and are all
      labelled `title`. */
  lemma {:induction false} LaterFrame(co: Collaborators, p: Plugin, xs: seq<Obj>, title: string)
    ensures CreateCount(Later(co, p, xs, title).events) == 0
    ensures forall e :: e in Later(co, p, xs, title).events && e.Applied? ==> e.plugin == p
    ensures forall l :: l in OpLabels(Later(co, p, xs, title).events) ==> l == title
    decreases |xs|
  {
    if xs != [] {
      var done := Later(co, p, xs[..|xs| - 1], title);
      LaterFrame(co, p, xs[..|xs| - 1], title);
      if done.outcome.Success? {
        var step := Step(p, xs[|xs| - 1], title);
        StepProjections(p, xs[|xs| - 1], title);
        ProjectionsAppend(done.events, step);
        match co.behaviour(p, xs[|xs| - 1])
        case Success =>
        case Failure(e) =>
          ProjectionsAppend(done.events + step, [Fail(e)]);
          ProjectionsOfEvent(Fail(e));
      }
    }
  }

  /** The later operations visit a prefix of `xs` in order, one operation per target
      visited; on success that prefix is all of `xs`, on failure it is not empty. */
  lemma {:induction false} LaterVisitsPrefix(co: Collaborators, p: Plugin, xs: seq<Obj>, title: string)
    ensures var r := Later(co, p, xs, title);
            var k := |AppliedTargets(r.events)|;
            && k <= |xs|
            && AppliedTargets(r.events) == xs[..k]
            && |OpLabels(r.events)| == k
            && (r.outcome.Success? ==> k == |xs|)
            && (r.outcome.Failure? ==> 1 <= k)
    decreases |xs|
  {
    if xs != [] {
      var init := xs[..|xs| - 1];
      var x := xs[|xs| - 1];
      var done := Later(co, p, init, title);
      LaterVisitsPrefix(co, p, init, title);
      if done.outcome.Success? {
        var step := Step(p, x, title);
        StepProjections(p, x, title);
        OpLabelsAppend(done.events, step);
        AppliedTargetsAppend(done.events, step);
        assert xs[..|xs|] == init + [x];
        match co.behaviour(p, x)
        case Success =>
        case Failure(e) =>
          FailedProjections(done.events + step, e);
      } else {
        var k := |AppliedTargets(done.events)|;
        assert xs[..k] == init[..k];
      }
    }
  }

  /** Where each event of the later operations sits: the j-th target visited gets its
      operation at position 2j and its apply at 2j+1, and a failure, if there is one,
      is the single event after those pairs. */
  lemma {:induction false} LaterLayout(co: Collaborators, p: Plugin, xs: seq<Obj>, title: string)
    ensures var r := Later(co, p, xs, title);
            var k := |AppliedTargets(r.events)|;
            && k <= |xs|
            && |r.events| == 2 * k + (if r.outcome.Failure? then 1 else 0)
            && forall j :: 0 <= j < k ==>
                 r.events[2 * j] == Op(title) && r.events[2 * j + 1] == Applied(p, xs[j])
    decreases |xs|
  {
    if xs != [] {
      var init := xs[..|xs| - 1];
      var x := xs[|xs| - 1];
      var done := Later(co, p, init, title);
      LaterLayout(co, p, init, title);
      if done.outcome.Success? {
        LaterVisitsPrefix(co, p, init, title);
        assert init[..|init|] == init;
        var tail: seq<Event> := match co.behaviour(p, x)
                                case Success => []
                                case Failure(e) => [Fail(e)];
        assert Later(co, p, xs, title).events == done.events + Step(p, x, title) + tail;
        StepThenTail(done.events, tail, p, init, xs, title);
      } else {
        var kd := |AppliedTargets(done.events)|;
        forall j | 0 <= j < kd ensures xs[j] == init[j] { }
      }
    }
  }

  /** One later step, and possibly the failure that ends it, appended to the whole
      steps recorded for `ys`: the result holds whole steps for `xs`, which is `ys`
      followed by the step's target. */
  lemma StepThenTail(es: seq<Event>, tail: seq<Event>, p: Plugin, ys: seq<Obj>, xs: seq<Obj>, title: string)
    requires |xs| == |ys| + 1 && ys == xs[..|ys|]
    requires tail == [] || (|tail| == 1 && tail[0].Fail?)
    requires |es| == 2 * |ys| && AppliedTargets(es) == ys
    requires forall j :: 0 <= j < |ys| ==> es[2 * j] == Op(title) && es[2 * j + 1] == Applied(p, ys[j])
    ensures var out := es + Step(p, xs[|ys|], title) + tail;
            && AppliedTargets(out) == xs
            && |out| == 2 * |xs| + |tail|
            && forall j :: 0 <= j < |xs| ==>
                 out[2 * j] == Op(title) && out[2 * j + 1] == Applied(p, xs[j])
  {
    var step := Step(p, xs[|ys|], title);
    var out := es + step + tail;
    StepProjections(p, xs[|ys|], title);
    AppliedTargetsAppend(es, step);
    AppliedTargetsAppend(es + step, tail);
    if tail != [] {
      assert tail == [tail[0]];
      ProjectionsOfEvent(tail[0]);
    }
    assert xs == ys + [xs[|ys|]];
    forall j | 0 <= j < |xs|
      ensures out[2 * j] == Op(title) && out[2 * j + 1] == Applied(p, xs[j])
    {
      if j < |ys| {
        assert out[2 * j] == es[2 * j] && out[2 * j + 1] == es[2 * j + 1];
        assert xs[j] == ys[j];
      }
    }
  }

  /** Nothing fails in later operations that succeed; when they fail, exactly one
      failure is recorded and it is the last event, carrying the error returned. */
  lemma {:induction false} LaterFailsLast(co: Collaborators, p: Plugin, xs: seq<Obj>, title: string)
    ensures var r := Later(co, p, xs, title);
            && (r.outcome.Success? ==> FailCount(r.events) == 0)
            && (r.outcome.Failure? ==>
                  && FailCount(r.events) == 1
                  && r.events[|r.events| - 1] == Fail(r.outcome.error))
    decreases |xs|
  {
    if xs != [] {
      var done := Later(co, p, xs[..|xs| - 1], title);
      LaterFailsLast(co, p, xs[..|xs| - 1], title);
      if done.outcome.Success? {
        var step := Step(p, xs[|xs| - 1], title);
        StepProjections(p, xs[|xs| - 1], title);
        ProjectionsAppend(done.events, step);
        match co.behaviour(p, xs[|xs| - 1])
        case Success =>
        case Failure(e) =>
          ProjectionsAppend(done.events + step, [Fail(e)]);
          ProjectionsOfEvent(Fail(e));
      }
    }
  }

  /** The last target the later operations visited decides their outcome. */
  lemma {:induction false} LaterLastDecides(co: Collaborators, p: Plugin, xs: seq<Obj>, title: string)
    ensures var r := Later(co, p, xs, title);
            var k := |AppliedTargets(r.events)|;
            1 <= k <= |xs| ==> co.behaviour(p, xs[k - 1]) == r.outcome
    decreases |xs|
  {
    if xs != [] {
      var init := xs[..|xs| - 1];
      var x := xs[|xs| - 1];
      var done := Later(co, p, init, title);
      LaterVisitsPrefix(co, p, init, title);
      if done.outcome.Success? {
        StepProjections(p, x, title);
        AppliedTargetsAppend(done.events, Step(p, x, title));
        match co.behaviour(p, x)
        case Success =>
        case Failure(e) =>
          FailedProjections(done.events + Step(p, x, title), e);
      } else {
        LaterLastDecides(co, p, init, title);
        var kd := |AppliedTargets(done.events)|;
        assert xs[kd - 1] == init[kd - 1];
      }
    }
  }

  /** Every target the later operations visited before the last one was applied
      without error; on success the last one was too. */
  lemma {:induction false} LaterEarlierSucceeded(co: Collaborators, p: Plugin, xs: seq<Obj>, title: string)
    ensures var r := Later(co, p, xs, title);
            var k := |AppliedTargets(r.events)|;
            forall j :: 0 <= j < |xs| && (j < k - 1 || (j < k && r.outcome.Success?)) ==>
              co.behaviour(p, xs[j]) == Success
    decreases |xs|
  {
    if xs != [] {
      var init := xs[..|xs| - 1];
      var x := xs[|xs| - 1];
      var done := Later(co, p, init, title);
      LaterVisitsPrefix(co, p, init, title);
      LaterEarlierSucceeded(co, p, init, title);
      var kd := |AppliedTargets(done.events)|;
      if done.outcome.Success? {
        StepProjections(p, x, title);
        AppliedTargetsAppend(done.events, Step(p, x, title));
        match co.behaviour(p, x)
        case Success =>
        case Failure(e) =>
          FailedProjections(done.events + Step(p, x, title), e);
        forall j | 0 <= j < |init| ensures co.behaviour(p, xs[j]) == Success {
          assert xs[j] == init[j];
        }
      } else {
        forall j | 0 <= j < kd - 1 ensures co.behaviour(p, xs[j]) == Success {
          assert xs[j] == init[j];
        }
      }
    }
  }

  /** Once a later operation has failed, further targets change nothing: the trace
      and the outcome for the whole list are those of the prefix that failed. */
  lemma {:induction false} LaterStopsAtFailure(co: Collaborators, p: Plugin, xs: seq<Obj>, n: nat, title: string)
    requires n <= |xs|
    requires Later(co, p, xs[..n], title).outcome.Failure?
    ensures Later(co, p, xs, title) == Later(co, p, xs[..n], title)
    decreases |xs| - n
  {
    if n < |xs| {
      assert xs[..|xs| - 1][..n] == xs[..n];
      LaterStopsAtFailure(co, p, xs[..|xs| - 1], n, title);
    } else {
      assert xs[..n] == xs;
    }
  }

  /** A call whose first operation succeeded is that operation followed by the later
      ones. */
  lemma FirstStepSucceeded(co: Collaborators, source: ScriptSource, ctx: ScriptContext, arg: TargetArg, p: Plugin)
    requires Targets(arg) != [] && co.factory(source, ctx) == Ok(p)
    requires co.behaviour(p, Targets(arg)[0]) == Success
    ensures var rest := Later(co, p, Targets(arg)[1..], LabelPrefix(source) + ArgText(arg));
            Invoke(co, source, ctx, arg) == Run(FirstOperation(source, ctx, Targets(arg)[0], p) + rest.events, rest.outcome)
  {
  }

  // ---------------------------------------------------------------------------
  // Properties of one call

  /** A call does nothing at all, and returns normally, exactly when the target is an
      empty collection. */
  lemma EmptyTargetIsNoOp(co: Collaborators, source: ScriptSource, ctx: ScriptContext, arg: TargetArg)
    ensures Invoke(co, source, ctx, arg) == Run([], Success) <==> Targets(arg) == []
  {
    var ts := Targets(arg);
    if ts != [] {
      var r := Invoke(co, source, ctx, arg);
      assert r.events[0] == Op(LabelPrefix(source) + ts[0].text);
    }
  }

  /** A lone target gives one operation, labelled with the target itself, in which
      the factory is called once and, if it succeeds, the plugin is applied once to
      that target; the call ends as the factory or that apply ends. */
  lemma SingleTarget(co: Collaborators, source: ScriptSource, ctx: ScriptContext, x: Obj)
    ensures var r := Invoke(co, source, ctx, Single(x));
            var title := "Apply " + source.displayName + " to " + x.text;
            match co.factory(source, ctx)
            case Err(e) => r == Run([Op(title), Create(source, ctx), Fail(e)], Failure(e))
            case Ok(p) =>
              && r.outcome == co.behaviour(p, x)
              && r.events == [Op(title), Create(source, ctx), Applied(p, x)]
                             + (if r.outcome.Failure? then [Fail(r.outcome.error)] else [])
  {
    var title := "Apply " + source.displayName + " to " + x.text;
    assert LabelPrefix(source) + x.text == title;
    assert [x][1..] == [];
  }

  /** The factory is called at most once per call, with the caller's script and
      context forwarded unchanged, and only as the first thing done inside the first
      operation; it is called exactly when there is a target. */
  lemma {:induction false} CreatedOnceInFirstOperation(co: Collaborators, source: ScriptSource, ctx: ScriptContext, arg: TargetArg)
    ensures var r := Invoke(co, source, ctx, arg);
            && CreateCount(r.events) <= 1
            && (CreateCount(r.events) == 1 <==> Targets(arg) != [])
            && (Targets(arg) != [] ==>
                  && |r.events| >= 2
                  && r.events[0].Op?
                  && r.events[1] == Create(source, ctx)
                  && CreateCount(r.events[2..]) == 0)
  {
    var ts := Targets(arg);
    if ts != [] {
      var r := Invoke(co, source, ctx, arg);
      NoCreateAfterOpening(co, source, ctx, arg);
      OpeningProjections(source, ctx, ts[0]);
      CreateCountAppend(Opening(source, ctx, ts[0]), r.events[2..]);
    }
  }

  /** A call with a target opens with the first operation and the factory call, and
      nothing after those two events calls the factory. */
  lemma NoCreateAfterOpening(co: Collaborators, source: ScriptSource, ctx: ScriptContext, arg: TargetArg)
    requires Targets(arg) != []
    ensures var r := Invoke(co, source, ctx, arg);
            && |r.events| >= 2
            && r.events == Opening(source, ctx, Targets(arg)[0]) + r.events[2..]
            && CreateCount(r.events[2..]) == 0
  {
    var ts := Targets(arg);
    var r := Invoke(co, source, ctx, arg);
    var started := Opening(source, ctx, ts[0]);
    match co.factory(source, ctx)
    case Err(e) =>
      assert r.events[2..] == [Fail(e)];
      ProjectionsOfEvent(Fail(e));
    case Ok(p) =>
      ProjectionsOfEvent(Applied(p, ts[0]));
      match co.behaviour(p, ts[0])
      case Failure(e) =>
        ProjectionsOfEvent(Fail(e));
        CreateCountAppend([Applied(p, ts[0])], [Fail(e)]);
        assert r.events[2..] == [Applied(p, ts[0])] + [Fail(e)];
      case Success =>
        var rest := Later(co, p, ts[1..], LabelPrefix(source) + ArgText(arg));
        LaterFrame(co, p, ts[1..], LabelPrefix(source) + ArgText(arg));
        CreateCountAppend([Applied(p, ts[0])], rest.events);
        assert r.events[2..] == [Applied(p, ts[0])] + rest.events;
  }

  /** Every apply in a call uses the one plugin the factory built for that call. */
  lemma {:induction false} OnePluginInstance(co: Collaborators, source: ScriptSource, ctx: ScriptContext, arg: TargetArg)
    ensures forall e :: e in Invoke(co, source, ctx, arg).events && e.Applied? ==>
              co.factory(source, ctx) == Ok(e.plugin)
  {
    var ts := Targets(arg);
    if ts != [] && co.factory(source, ctx).Ok? && co.behaviour(co.factory(source, ctx).value, ts[0]).Success? {
      LaterFrame(co, co.factory(source, ctx).value, ts[1..], LabelPrefix(source) + ArgText(arg));
    }
  }

  /** The events of a first operation whose factory call succeeded. */
  function FirstOperation(source: ScriptSource, ctx: ScriptContext, first: Obj, p: Plugin): seq<Event>
  {
    Opening(source, ctx, first) + [Applied(p, first)]
  }

  lemma FirstOperationProjections(source: ScriptSource, ctx: ScriptContext, first: Obj, p: Plugin)
    ensures OpLabels(FirstOperation(source, ctx, first, p)) == [LabelPrefix(source) + first.text]
    ensures AppliedTargets(FirstOperation(source, ctx, first, p)) == [first]
    ensures FailCount(FirstOperation(source, ctx, first, p)) == 0
  {
    OpeningProjections(source, ctx, first);
    ProjectionsOfEvent(Applied(p, first));
    ProjectionsAppend(Opening(source, ctx, first), [Applied(p, first)]);
  }

  /** Where each apply sits in a call whose factory succeeded: the first target's apply
      comes right after the factory call inside the first operation, and the i-th
      target after it is applied right after an operation of its own, labelled with
      the whole argument, is started. A failure, if there is one, is the single event
      after those. */
  lemma {:induction false} EachApplyInItsOperation(co: Collaborators, source: ScriptSource, ctx: ScriptContext, arg: TargetArg, p: Plugin)
    requires Targets(arg) != [] && co.factory(source, ctx) == Ok(p)
    ensures var r := Invoke(co, source, ctx, arg);
            var ts := Targets(arg);
            var k := |AppliedTargets(r.events)|;
            && 1 <= k <= |ts|
            && |r.events| == 2 * k + 1 + (if r.outcome.Failure? then 1 else 0)
            && r.events[0] == Op(LabelPrefix(source) + ts[0].text)
            && r.events[1] == Create(source, ctx)
            && r.events[2] == Applied(p, ts[0])
            && forall i :: 1 <= i < k ==>
                 && r.events[2 * i + 1] == Op(LabelPrefix(source) + ArgText(arg))
                 && r.events[2 * i + 2] == Applied(p, ts[i])
  {
    var ts := Targets(arg);
    var r := Invoke(co, source, ctx, arg);
    var first := FirstOperation(source, ctx, ts[0], p);
    FirstOperationProjections(source, ctx, ts[0], p);
    match co.behaviour(p, ts[0])
    case Failure(e) =>
      FailedProjections(first, e);
    case Success =>
      var title := LabelPrefix(source) + ArgText(arg);
      var rest := Later(co, p, ts[1..], title);
      FirstStepSucceeded(co, source, ctx, arg, p);
      LaterLayout(co, p, ts[1..], title);
      AppliedTargetsAppend(first, rest.events);
      var k := |AppliedTargets(r.events)|;
      forall i | 1 <= i < k
        ensures r.events[2 * i + 1] == Op(title) && r.events[2 * i + 2] == Applied(p, ts[i])
      {
        assert r.events[2 * i + 1] == rest.events[2 * (i - 1)];
        assert r.events[2 * i + 2] == rest.events[2 * (i - 1) + 1];
        assert ts[i] == ts[1..][i - 1];
      }
  }

  /** On success every target was applied exactly once, in the order given, each in
      an operation of its own, and no operation failed: the trace is the first
      operation with its factory call and its apply, then one operation start and one
      apply per further target. */
  lemma {:induction false} AppliedOncePerTargetInOrder(co: Collaborators, source: ScriptSource, ctx: ScriptContext, arg: TargetArg)
    requires Invoke(co, source, ctx, arg).outcome.Success?
    ensures var r := Invoke(co, source, ctx, arg);
            var ts := Targets(arg);
            && AppliedTargets(r.events) == ts
            && |OpLabels(r.events)| == |ts|
            && FailCount(r.events) == 0
            && (ts != [] ==>
                  && co.factory(source, ctx).Ok?
                  && |r.events| == 2 * |ts| + 1
                  && r.events[0] == Op(LabelPrefix(source) + ts[0].text)
                  && r.events[1] == Create(source, ctx)
                  && (forall i :: 0 <= i < |ts| ==> r.events[2 * i + 2] == Applied(co.factory(source, ctx).value, ts[i]))
                  && (forall i :: 1 <= i < |ts| ==> r.events[2 * i + 1] == Op(LabelPrefix(source) + ArgText(arg))))
  {
    var ts := Targets(arg);
    if ts != [] {
      var p := co.factory(source, ctx).value;
      var r := Invoke(co, source, ctx, arg);
      FirstStepSucceeded(co, source, ctx, arg, p);
      FirstOperationProjections(source, ctx, ts[0], p);
      LaterAfterFirstSucceeds(co, p, FirstOperation(source, ctx, ts[0], p), ts[0], ts[1..], LabelPrefix(source) + ArgText(arg));
      assert ts == [ts[0]] + ts[1..];
      EachApplyInItsOperation(co, source, ctx, arg, p);
      assert |AppliedTargets(r.events)| == |ts|;
      forall i | 0 <= i < |ts| ensures r.events[2 * i + 2] == Applied(p, ts[i]) { }
    }
  }

  /** Later operations that succeed, after a first operation that applied `t0` once
      and did not fail: every target of `[t0] + xs` was applied once, in order, one
      operation each, and nothing failed. */
  lemma LaterAfterFirstSucceeds(co: Collaborators, p: Plugin, first: seq<Event>, t0: Obj, xs: seq<Obj>, title: string)
    requires |OpLabels(first)| == 1 && AppliedTargets(first) == [t0] && FailCount(first) == 0
    requires Later(co, p, xs, title).outcome.Success?
    ensures var es := first + Later(co, p, xs, title).events;
            && AppliedTargets(es) == [t0] + xs
            && |OpLabels(es)| == 1 + |xs|
            && FailCount(es) == 0
  {
    var rest := Later(co, p, xs, title);
    LaterVisitsPrefix(co, p, xs, title);
    LaterFailsLast(co, p, xs, title);
    OpLabelsAppend(first, rest.events);
    AppliedTargetsAppend(first, rest.events);
    FailCountAppend(first, rest.events);
    assert xs[..|xs|] == xs;
  }

  /** A failure stops the call: it is the factory's error or the error of the one
      target whose apply threw, it is the last event, no operation is started after
      the failing one, and every target before the failing one was applied without
      error and stays applied, each inside the operation started for it. */
  lemma {:induction false} FailFast(co: Collaborators, source: ScriptSource, ctx: ScriptContext, arg: TargetArg)
    requires Invoke(co, source, ctx, arg).outcome.Failure?
    ensures var r := Invoke(co, source, ctx, arg);
            var ts := Targets(arg);
            var k := |OpLabels(r.events)|;
            && 1 <= k <= |ts|
            && FailCount(r.events) == 1
            && r.events[|r.events| - 1] == Fail(r.outcome.error)
            && (co.factory(source, ctx).Err? ==>
                  && k == 1
                  && AppliedTargets(r.events) == []
                  && r.outcome.error == co.factory(source, ctx).error)
            && (co.factory(source, ctx).Ok? ==>
                  var p := co.factory(source, ctx).value;
                  && AppliedTargets(r.events) == ts[..k]
                  && co.behaviour(p, ts[k - 1]) == r.outcome
                  && (forall j :: 0 <= j < k - 1 ==> co.behaviour(p, ts[j]) == Success)
                  && |r.events| == 2 * k + 2
                  && r.events[2] == Applied(p, ts[0])
                  && (forall i :: 1 <= i < k ==>
                        && r.events[2 * i + 1] == Op(LabelPrefix(source) + ArgText(arg))
                        && r.events[2 * i + 2] == Applied(p, ts[i])))
  {
    var ts := Targets(arg);
    match co.factory(source, ctx)
    case Err(e) =>
      FailFastInFirst(co, source, ctx, arg);
    case Ok(p) =>
      EachApplyInItsOperation(co, source, ctx, arg, p);
      if co.behaviour(p, ts[0]).Failure? {
        FailFastInFirst(co, source, ctx, arg);
      } else {
        FailFastAfterFirst(co, source, ctx, arg, p);
      }
  }

  /** The failing case of FailFast where the first operation failed, in the factory
      or in the first apply: it is the only operation started. */
  lemma FailFastInFirst(co: Collaborators, source: ScriptSource, ctx: ScriptContext, arg: TargetArg)
    requires Targets(arg) != []
    requires co.factory(source, ctx).Err? || co.behaviour(co.factory(source, ctx).value, Targets(arg)[0]).Failure?
    ensures var r := Invoke(co, source, ctx, arg);
            var ts := Targets(arg);
            && |OpLabels(r.events)| == 1
            && FailCount(r.events) == 1
            && r.outcome.Failure?
            && r.events[|r.events| - 1] == Fail(r.outcome.error)
            && (co.factory(source, ctx).Err? ==>
                  && AppliedTargets(r.events) == []
                  && r.outcome.error == co.factory(source, ctx).error)
            && (co.factory(source, ctx).Ok? ==>
                  && AppliedTargets(r.events) == ts[..1]
                  && co.behaviour(co.factory(source, ctx).value, ts[0]) == r.outcome)
  {
    var ts := Targets(arg);
    match co.factory(source, ctx)
    case Err(e) =>
      var es := Opening(source, ctx, ts[0]) + [Fail(e)];
      assert Invoke(co, source, ctx, arg) == Run(es, Failure(e));
      FailedProjections(Opening(source, ctx, ts[0]), e);
      OpeningProjections(source, ctx, ts[0]);
    case Ok(p) =>
      var e := co.behaviour(p, ts[0]).error;
      var es := FirstOperation(source, ctx, ts[0], p) + [Fail(e)];
      assert Invoke(co, source, ctx, arg) == Run(es, Failure(e));
      FailedProjections(FirstOperation(source, ctx, ts[0], p), e);
      FirstOperationProjections(source, ctx, ts[0], p);
      assert ts[..1] == [ts[0]];
  }

  /** The projections of a failure recorded after some events. */
  lemma FailedProjections(es: seq<Event>, e: Error)
    ensures OpLabels(es + [Fail(e)]) == OpLabels(es)
    ensures AppliedTargets(es + [Fail(e)]) == AppliedTargets(es)
    ensures FailCount(es + [Fail(e)]) == FailCount(es) + 1
  {
    ProjectionsOfEvent(Fail(e));
    OpLabelsAppend(es, [Fail(e)]);
    AppliedTargetsAppend(es, [Fail(e)]);
    FailCountAppend(es, [Fail(e)]);
  }

  /** The failing case of FailFast where the first target was applied without error:
      the failure comes from one of the later operations. */
  lemma FailFastAfterFirst(co: Collaborators, source: ScriptSource, ctx: ScriptContext, arg: TargetArg, p: Plugin)
    requires Targets(arg) != [] && co.factory(source, ctx) == Ok(p)
    requires co.behaviour(p, Targets(arg)[0]) == Success
    requires Invoke(co, source, ctx, arg).outcome.Failure?
    ensures var r := Invoke(co, source, ctx, arg);
            var ts := Targets(arg);
            var k := |OpLabels(r.events)|;
            && 2 <= k <= |ts|
            && FailCount(r.events) == 1
            && r.events[|r.events| - 1] == Fail(r.outcome.error)
            && AppliedTargets(r.events) == ts[..k]
            && co.behaviour(p, ts[k - 1]) == r.outcome
            && forall j :: 0 <= j < k - 1 ==> co.behaviour(p, ts[j]) == Success
  {
    var ts := Targets(arg);
    var title := LabelPrefix(source) + ArgText(arg);
    FirstStepSucceeded(co, source, ctx, arg, p);
    FirstOperationProjections(source, ctx, ts[0], p);
    LaterAfterFirstFails(co, p, FirstOperation(source, ctx, ts[0], p), ts[0], ts[1..], title);
    assert ts == [ts[0]] + ts[1..];
  }

  /** Later operations that fail, after a first operation that applied `t0` once and
      did not fail: the failing one is the k-th operation overall, the targets
      applied are the first k of `[t0] + xs`, and only the k-th of them threw. */
  lemma LaterAfterFirstFails(co: Collaborators, p: Plugin, first: seq<Event>, t0: Obj, xs: seq<Obj>, title: string)
    requires |OpLabels(first)| == 1 && AppliedTargets(first) == [t0] && FailCount(first) == 0
    requires co.behaviour(p, t0) == Success
    requires Later(co, p, xs, title).outcome.Failure?
    ensures var rest := Later(co, p, xs, title);
            var es := first + rest.events;
            var k := |OpLabels(es)|;
            && 2 <= k <= |xs| + 1
            && FailCount(es) == 1
            && es[|es| - 1] == Fail(rest.outcome.error)
            && AppliedTargets(es) == ([t0] + xs)[..k]
            && co.behaviour(p, ([t0] + xs)[k - 1]) == rest.outcome
            && forall j :: 0 <= j < k - 1 ==> co.behaviour(p, ([t0] + xs)[j]) == Success
  {
    var rest := Later(co, p, xs, title);
    LaterVisitsPrefix(co, p, xs, title);
    LaterFailsLast(co, p, xs, title);
    LaterLastDecides(co, p, xs, title);
    LaterEarlierSucceeded(co, p, xs, title);
    OpLabelsAppend(first, rest.events);
    AppliedTargetsAppend(first, rest.events);
    FailCountAppend(first, rest.events);
    var all := [t0] + xs;
    var k := 1 + |AppliedTargets(rest.events)|;
    assert all[..k] == [t0] + xs[..k - 1];
    forall j | 0 <= j < k - 1 ensures co.behaviour(p, all[j]) == Success {
      if j > 0 { assert all[j] == xs[j - 1]; }
    }
  }

  /** A call returns normally exactly when there is nothing to do, or the factory
      succeeds and the plugin applies without error to every target. */
  lemma {:induction false} SucceedsIffEveryStepSucceeds(co: Collaborators, source: ScriptSource, ctx: ScriptContext, arg: TargetArg)
    ensures Invoke(co, source, ctx, arg).outcome.Success? <==>
            (|| Targets(arg) == []
             || (&& co.factory(source, ctx).Ok?
                 && forall t :: t in Targets(arg) ==> co.behaviour(co.factory(source, ctx).value, t) == Success))
  {
    var ts := Targets(arg);
    if ts != [] && co.factory(source, ctx).Ok? {
      var p := co.factory(source, ctx).value;
      if co.behaviour(p, ts[0]).Success? {
        FirstStepSucceeded(co, source, ctx, arg, p);
        LaterVisitsPrefix(co, p, ts[1..], LabelPrefix(source) + ArgText(arg));
        var r := Later(co, p, ts[1..], LabelPrefix(source) + ArgText(arg));
        if r.outcome.Success? {
          LaterEarlierSucceeded(co, p, ts[1..], LabelPrefix(source) + ArgText(arg));
          forall t | t in ts ensures co.behaviour(p, t) == Success {
            var j :| 0 <= j < |ts| && ts[j] == t;
            if j > 0 { assert ts[j] == ts[1..][j - 1]; }
          }
        } else {
          LaterLastDecides(co, p, ts[1..], LabelPrefix(source) + ArgText(arg));
          var k := |AppliedTargets(r.events)|;
          assert ts[1..][k - 1] in ts;
        }
      }
    }
  }

  /** The first operation is labelled "Apply <display name> to <first target>"; every
      later one is labelled "Apply <display name> to <whole target argument>". */
  lemma {:induction false} OperationLabels(co: Collaborators, source: ScriptSource, ctx: ScriptContext, arg: TargetArg)
    requires Targets(arg) != []
    ensures var labels := OpLabels(Invoke(co, source, ctx, arg).events);
            && |labels| >= 1
            && labels[0] == "Apply " + source.displayName + " to " + Targets(arg)[0].text
            && forall i :: 1 <= i < |labels| ==> labels[i] == "Apply " + source.displayName + " to " + ArgText(arg)
  {
    var ts := Targets(arg);
    var r := Invoke(co, source, ctx, arg);
    match co.factory(source, ctx)
    case Err(e) =>
      OpeningProjections(source, ctx, ts[0]);
      ProjectionsOfEvent(Fail(e));
      ProjectionsAppend(Opening(source, ctx, ts[0]), [Fail(e)]);
    case Ok(p) =>
      var first := FirstOperation(source, ctx, ts[0], p);
      FirstOperationProjections(source, ctx, ts[0], p);
      match co.behaviour(p, ts[0])
      case Failure(e) =>
        ProjectionsOfEvent(Fail(e));
        ProjectionsAppend(first, [Fail(e)]);
      case Success =>
        var rest := Later(co, p, ts[1..], LabelPrefix(source) + ArgText(arg));
        LaterFrame(co, p, ts[1..], LabelPrefix(source) + ArgText(arg));
        ProjectionsAppend(first, rest.events);
        forall i | 1 <= i < |OpLabels(r.events)|
          ensures OpLabels(r.events)[i] == LabelPrefix(source) + ArgText(arg)
        {
          assert OpLabels(r.events)[i] == OpLabels(rest.events)[i - 1];
          assert OpLabels(rest.events)[i - 1] in OpLabels(rest.events);
        }
  }

  /** The label of a later operation names the whole collection, not the element
      being applied: for a two-element collection whose first apply succeeds, the
      second label carries the collection's string, whatever `b`'s own string is. */
  lemma LaterLabelNamesWholeArgument(co: Collaborators, source: ScriptSource, ctx: ScriptContext, a: Obj, b: Obj, text: string)
    requires co.factory(source, ctx).Ok?
    requires co.behaviour(co.factory(source, ctx).value, a) == Success
    ensures OpLabels(Invoke(co, source, ctx, Many([a, b], text)).events)
            == ["Apply " + source.displayName + " to " + a.text, "Apply " + source.displayName + " to " + text]
  {
    var p := co.factory(source, ctx).value;
    var title := LabelPrefix(source) + text;
    var rest := Later(co, p, [b], title);
    assert [a, b][1..] == [b];
    assert [b][..0] == [];
    FirstOperationProjections(source, ctx, a, p);
    ProjectionsAppend(FirstOperation(source, ctx, a, p), rest.events);
    StepProjections(p, b, title);
    assert Invoke(co, source, ctx, Many([a, b], text)).events == FirstOperation(source, ctx, a, p) + rest.events;
    match co.behaviour(p, b)
    case Success =>
      assert Later(co, p, [b][..0], title) == Run([], Success);
      assert rest.events == [] + Step(p, b, title) == Step(p, b, title);
    case Failure(e) =>
      assert Later(co, p, [b][..0], title) == Run([], Success);
      assert rest.events == [] + Step(p, b, title) + [Fail(e)] == Step(p, b, title) + [Fail(e)];
      ProjectionsOfEvent(Fail(e));
      ProjectionsAppend(Step(p, b, title), [Fail(e)]);
  }
}
