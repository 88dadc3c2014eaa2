/** The script-plugin applicator itself: it turns the target argument into a list of
    targets, builds the plugin once inside the first build operation, and applies it
    to every further target inside an operation of its own, stopping at the first
    failure. */
module ScriptPluginApplicator {
  import opened PluginModel
  import opened ApplySpec

  class Applicator {
    /** The injected plugin factory and the behaviour of the plugins it builds. */
    const collaborators: Collaborators
    /** The one-element plugin holder shared by the operations of one call: empty
        until the first operation has built and applied the plugin. */
    var holder: Option<Plugin>
    /** Everything the build operation executor, the factory and the plugins have
        been asked to do so far, in order. */
    var log: seq<Event>

    constructor (co: Collaborators)
      ensures collaborators == co && holder == None && log == []
    {
      collaborators := co;
      holder := None;
      log := [];
    }

    /** The executor starts a build operation with the given display name. */
    method StartOperation(title: string)
      modifies this`log
      ensures log == old(log) + [Op(title)]
    {
      log := log + [Op(title)];
    }

    /** The executor records that the running operation's body threw `e`; the
        callers then return `e` themselves. */
    method FailOperation(e: Error)
      modifies this`log
      ensures log == old(log) + [Fail(e)]
    {
      log := log + [Fail(e)];
    }

    /** The factory is asked for a plugin for this script and context. */
    method CreatePlugin(source: ScriptSource, ctx: ScriptContext) returns (made: Result<Plugin>)
      modifies this`log
      ensures made == collaborators.factory(source, ctx)
      ensures log == old(log) + [Create(source, ctx)]
    {
      made := collaborators.factory(source, ctx);
      log := log + [Create(source, ctx)];
    }

    /** A plugin is applied to one target. */
    method ApplyPlugin(p: Plugin, target: Obj) returns (outcome: Outcome)
      modifies this`log
      ensures outcome == collaborators.behaviour(p, target)
      ensures log == old(log) + [Applied(p, target)]
    {
      outcome := collaborators.behaviour(p, target);
      log := log + [Applied(p, target)];
    }

    /** Applies the script to the target argument. The call appends to the log
        exactly the trace Invoke describes and ends as Invoke says; the holder ends
        up holding the plugin once the first operation has succeeded. */
    method Apply(source: ScriptSource, ctx: ScriptContext, target: TargetArg) returns (outcome: Outcome)
      modifies this`holder, this`log
      ensures log == old(log) + Invoke(collaborators, source, ctx, target).events
      ensures outcome == Invoke(collaborators, source, ctx, target).outcome
      ensures Targets(target) == [] ==> holder == old(holder)
      ensures Targets(target) != [] ==>
                holder == (match collaborators.factory(source, ctx)
                           case Ok(p) => if collaborators.behaviour(p, Targets(target)[0]).Success? then Some(p) else None
                           case Err(_) => None)
    {
      var targets := Targets(target);
      if targets == [] {
        return Success;
      }
      var firstTarget := targets[0];
      holder := None;
      var prefix := "Apply " + source.displayName + " to ";
      assert prefix == LabelPrefix(source);

      // The first operation: build the plugin, apply it, keep it.
      StartOperation(prefix + firstTarget.text);
      var made := CreatePlugin(source, ctx);
      if made.Err? {
        FailOperation(made.error);
        return Failure(made.error);
      }
      var applied := ApplyPlugin(made.value, firstTarget);
      if applied.Failure? {
        FailOperation(applied.error);
        return applied;
      }
      holder := Some(made.value);

      // One operation per remaining target, each labelled with the whole argument.
      FirstStepSucceeded(collaborators, source, ctx, target, made.value);
      outcome := ApplyToRemaining(targets[1..], prefix + ArgText(target));
    }

    /** The loop over the targets after the first: each gets an operation labelled
        `title`, inside which the held plugin is applied to it; the first failure is
        recorded and returned, and no later target is started. */
    method ApplyToRemaining(remaining: seq<Obj>, title: string) returns (outcome: Outcome)
      requires holder.Some?
      modifies this`log
      ensures log == old(log) + Later(collaborators, holder.value, remaining, title).events
      ensures outcome == Later(collaborators, holder.value, remaining, title).outcome
    {
      var i := 0;
      while i < |remaining|
        invariant 0 <= i <= |remaining|
        invariant Later(collaborators, holder.value, remaining[..i], title).outcome == Success
        invariant log == old(log) + Later(collaborators, holder.value, remaining[..i], title).events
      {
        var currentTarget := remaining[i];
        ghost var done := Later(collaborators, holder.value, remaining[..i], title);
        assert remaining[..i + 1][..i] == remaining[..i];
        assert remaining[..i + 1][i] == currentTarget;
        StartOperation(title);
        var o := ApplyPlugin(holder.value, currentTarget);
        if o.Failure? {
          FailOperation(o.error);
          assert log == old(log) + (done.events + Step(holder.value, currentTarget, title) + [Fail(o.error)]);
          LaterStopsAtFailure(collaborators, holder.value, remaining, i + 1, title);
          return o;
        }
        assert log == old(log) + (done.events + Step(holder.value, currentTarget, title));
        i := i + 1;
      }
      assert remaining[..i] == remaining;
      return Success;
    }
  }
}
