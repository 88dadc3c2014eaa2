# Script-plugin applicator, modelled in Dafny

This project models Gradle's `DefaultScriptPluginApplicator.apply`. That method applies one
script (a build script, an init script, a settings script) to a target object or to
every object of a target collection. It builds the script plugin once, through the
script plugin factory, inside the build operation of the first target. It then applies that
same plugin to each further target, each inside a build operation of its own. The first
exception ends the call.

The model is in three files:

- `model.dfy` (module `PluginModel`) holds the values the applicator handles. These are target
  objects with their string form, the target argument (`Single(x)` or `Many(items, text)`),
  the script source, the forwarded context, plugins and errors. It also holds the events of the
  trace and four projections of a trace: the operation labels, the targets applied to, the
  number of factory calls and the number of failures.
- `spec.dfy` (module `ApplySpec`) holds `Invoke`, a reference definition of one call as a
  function of its inputs and of the collaborators' answers. It returns the events the call
  records and how the call ends. The properties of the applicator are proved about it.
- `applicator.dfy` (module `ScriptPluginApplicator`) holds the class `Applicator`. Its
  field `holder` is the one-element plugin holder, a cell that is empty until the first
  operation fills it. Its field `log` is the trace. `Apply` and the loop over the remaining
  targets are proved to append exactly `Invoke`'s trace and to return `Invoke`'s outcome.

The collaborators are oracles held in a `Collaborators` value: the factory maps a script
and its context to a plugin or an error, and `behaviour` says whether applying a plugin to a
target returns or throws. The executor's `run` is modelled as: record `Op(label)`, run the
body in line, and if the body throws, record `Fail(e)` and rethrow `e` unchanged.

## Model

| member | source | states |
|---|---|---|
| `ScriptPluginApplicator.Applicator.constructor` | subprojects/core/src/main/java/org/gradle/api/internal/configuration/DefaultScriptPluginApplicator.java:40-43 | The applicator keeps the injected collaborators; it starts with an empty holder and an empty trace. |
| `ScriptPluginApplicator.Applicator.Apply` | subprojects/core/src/main/java/org/gradle/api/internal/configuration/DefaultScriptPluginApplicator.java:46-77 | One call appends to the trace exactly the events `Invoke` gives and ends with `Invoke`'s outcome. An empty collection leaves the holder untouched. Otherwise the holder ends up holding the factory's plugin exactly when the factory succeeded and the first apply returned normally. |
| `ScriptPluginApplicator.Applicator.ApplyToRemaining` | subprojects/core/src/main/java/org/gradle/api/internal/configuration/DefaultScriptPluginApplicator.java:68-76 | The while loop applies the held plugin to the remaining targets in order, each in an operation with the given label. The trace it adds and its outcome are those of `Later`, so it stops at the first failure. |
| `ScriptPluginApplicator.Applicator.StartOperation` | subprojects/core/src/main/java/org/gradle/api/internal/configuration/DefaultScriptPluginApplicator.java:60-70 | Starting a build operation records its label and nothing else. This covers both `run` calls: the first operation at line 60 and each later one at line 70. |
| `ScriptPluginApplicator.Applicator.FailOperation` | subprojects/core/src/main/java/org/gradle/api/internal/configuration/DefaultScriptPluginApplicator.java:60-75 | When the body of an operation throws, whether it is the first operation (line 60) or a later one (line 70), the executor records a failure carrying that same error. The method only records it. `Apply` and `ApplyToRemaining` then return that error to their caller. |
| `ScriptPluginApplicator.Applicator.CreatePlugin` | subprojects/core/src/main/java/org/gradle/api/internal/configuration/DefaultScriptPluginApplicator.java:63 | The factory call forwards the script and its context unchanged, returns the factory's answer and records one `Create` event. |
| `ScriptPluginApplicator.Applicator.ApplyPlugin` | subprojects/core/src/main/java/org/gradle/api/internal/configuration/DefaultScriptPluginApplicator.java:64 | Applying a plugin to a target records which plugin was applied to which target and returns how the apply ended. |
| `ApplySpec.EmptyTargetIsNoOp` | subprojects/core/src/main/java/org/gradle/api/internal/configuration/DefaultScriptPluginApplicator.java:48-55 | A call records no event at all and returns normally if and only if the normalised target list is empty. |
| `ApplySpec.SingleTarget` | subprojects/core/src/main/java/org/gradle/api/internal/configuration/DefaultScriptPluginApplicator.java:50-67 | A non-collection target is a one-element list. The call has one operation labelled with that target, one factory call and, if the factory succeeds, one apply on that target. The call ends as the factory or that apply ends. |
| `ApplySpec.CreatedOnceInFirstOperation` | subprojects/core/src/main/java/org/gradle/api/internal/configuration/DefaultScriptPluginApplicator.java:58-67 | The factory is called at most once per call, and exactly once when there is a target. The call happens right after the first operation starts, with the caller's script and context, and never again later in the trace. |
| `ApplySpec.OnePluginInstance` | subprojects/core/src/main/java/org/gradle/api/internal/configuration/DefaultScriptPluginApplicator.java:58-73 | Every apply recorded in a call uses the plugin that the call's factory invocation returned. |
| `ApplySpec.AppliedOncePerTargetInOrder` | subprojects/core/src/main/java/org/gradle/api/internal/configuration/DefaultScriptPluginApplicator.java:56-76 | On success, the targets applied to are exactly the target list, in its order. There is one operation per target and no failure. The whole trace is fixed position by position. Position 0 is the first operation, labelled with the first target, and position 1 is the factory call. The i-th target is applied at position 2i+2, and for i >= 1 its operation, labelled with the whole argument, starts at position 2i+1. |
| `ApplySpec.FailFast` | subprojects/core/src/main/java/org/gradle/api/internal/configuration/DefaultScriptPluginApplicator.java:60-76 | On failure, k operations were started, with 1 <= k <= the number of targets, and exactly one failure was recorded, as the last event. If the factory failed, k = 1, nothing was applied and the error is the factory's. Otherwise the first k targets were applied in order, the k-th apply threw the returned error, and the ones before it returned normally. The trace has 2k+2 events. The i-th target's apply is at position 2i+2, right after its own operation start at 2i+1 when i >= 1. |
| `ApplySpec.SucceedsIffEveryStepSucceeds` | subprojects/core/src/main/java/org/gradle/api/internal/configuration/DefaultScriptPluginApplicator.java:60-76 | A call returns normally if and only if the target list is empty, or the factory succeeds and the plugin applies without error to every target. |
| `ApplySpec.OperationLabels` | subprojects/core/src/main/java/org/gradle/api/internal/configuration/DefaultScriptPluginApplicator.java:59-70 | The first operation is labelled `"Apply " + displayName + " to " + <first target>`. Every later one is labelled `"Apply " + displayName + " to " + <whole target argument>`. |
| `ApplySpec.LaterLabelNamesWholeArgument` | subprojects/core/src/main/java/org/gradle/api/internal/configuration/DefaultScriptPluginApplicator.java:68-70 | For a two-element collection whose first apply succeeds, the labels are exactly the first element's label and then the collection's label, whatever the second element's own string is. |
| `ApplySpec.EachApplyInItsOperation` | subprojects/core/src/main/java/org/gradle/api/internal/configuration/DefaultScriptPluginApplicator.java:58-76 | When the factory succeeds, with k targets applied: the trace has 2k+1 events, plus one when the call fails. It opens with the first operation, labelled with the first target, then the factory call, then the apply on the first target. For 1 <= i < k, position 2i+1 starts an operation labelled with the whole argument and position 2i+2 applies the plugin to the i-th target. So each apply happens inside the operation started for its own target. |
| `ApplySpec.LaterLayout` | subprojects/core/src/main/java/org/gradle/api/internal/configuration/DefaultScriptPluginApplicator.java:68-76 | For the later operations, with k targets visited: the j-th target's operation starts at position 2j and its apply is at 2j+1. The trace has exactly 2k events, plus the one failure event when the loop fails. |
| `ApplySpec.LaterVisitsPrefix` | subprojects/core/src/main/java/org/gradle/api/internal/configuration/DefaultScriptPluginApplicator.java:68-76 | The later operations apply to a prefix of the remaining targets, in order, with one operation per target. The prefix is the whole list on success and is non-empty on failure. |
| `ApplySpec.LaterFailsLast` | subprojects/core/src/main/java/org/gradle/api/internal/configuration/DefaultScriptPluginApplicator.java:68-76 | The later operations record no failure on success. On failure they record exactly one, as the last event, carrying the returned error. |
| `ApplySpec.LaterLastDecides` | subprojects/core/src/main/java/org/gradle/api/internal/configuration/DefaultScriptPluginApplicator.java:68-76 | If the later operations visited k targets, with k >= 1, then the apply on the k-th target decides the loop's outcome. |
| `ApplySpec.LaterEarlierSucceeded` | subprojects/core/src/main/java/org/gradle/api/internal/configuration/DefaultScriptPluginApplicator.java:68-76 | Every remaining target visited before the last one visited was applied without error. On success, the last one was too. |
| `ApplySpec.LaterFrame` | subprojects/core/src/main/java/org/gradle/api/internal/configuration/DefaultScriptPluginApplicator.java:68-76 | The later operations never call the factory, apply only the held plugin, and all carry the same label. |
| `ApplySpec.LaterStopsAtFailure` | subprojects/core/src/main/java/org/gradle/api/internal/configuration/DefaultScriptPluginApplicator.java:68-76 | Once a later operation has failed, targets after it add nothing: the trace and outcome for the whole list equal those for the prefix that failed. |

## Left out

- Compiling the script and building the plugin inside the script plugin factory are not modelled. The factory is an oracle that returns a plugin identity or an error.
- The script handler, the two class-loader scopes and the top-level flag are opaque values. The model only forwards them to the factory and records them.
- The build operation executor's timing, threading, progress events and the `BuildOperationContext` passed to each body are left out. `run` records the label, runs the body in line and propagates the body's failure.
- What `ScriptPlugin.apply` does to a target is left out. The trace records only which plugin was applied to which target, and whether the apply threw.
- `ScriptPluginApplicator.Applicator.ApplyPlugin`: whether an apply throws is a function of the plugin and the target only. It cannot depend on earlier applies in the same call, so a collection that holds the same target twice gets the same answer both times.
- Java's runtime check `instanceof Collection` and the unchecked cast are replaced by the tagged union `TargetArg`. A `null` target is a `Single` object whose string form is `"null"`.
- `toString` and string concatenation of arbitrary objects are not modelled. Each object carries the string its `toString` yields, and a collection carries its own string. Labels are compared as strings built from those. Java builds the later label again on every iteration. The model builds it once per call, so it assumes the string forms do not change during a call.
- `ScriptPluginApplicator.Applicator.Apply`: the holder is a local list in Java, created fresh after the empty check. Here it is a field of the class, reset at the same point, so an empty-collection call leaves whatever an earlier call put there.
- The loop over the remaining targets is its own method, `ApplyToRemaining`. It reads the holder each time round, like `scriptPluginHolder.get(0)`. Everything else is in `Apply`.
- The factory is a function of the script and its context. Two calls with the same script and context get the same plugin identity. So `ApplySpec.OnePluginInstance` says every apply uses the plugin the factory returns for this script and context. It does not say whether that is a new instance for each call. Fresh instances across calls are not modelled.
- A collection that changes while it is being iterated, and concurrent calls, are not modelled.
