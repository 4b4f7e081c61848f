# Procaser in Dafny

A model of the `Procaser` class of the procaser library (src/Procaser.ts). A Procaser is a
small step/state engine. Callers queue requests: a step change (`next`), a state annotation
on a step (`signal`, `confirm`, `cancel`, `error`) or a termination (`exit`). A drain loop
pops the requests in FIFO order. It expands each request into the labels it emits (`BOOT`,
`start@X`, `end@X`, `state@X`, `EXIT`) and calls a callback once per label. The engine also
holds a property bag that every accepted request merges its patch into.

The project has two layers.

- A value layer describes the engine's state between two callback invocations as the
  `Drains.Engine` datatype:
  - `Steps.Expand` classifies a popped request.
  - `Drains.Invoke` is one callback invocation.
  - `Drains.Emit` is the `for` loop over one expansion.
  - `Drains.Drain` is the whole `_execSteps` loop, including the queue reset after exit.
- An imperative layer is the class `Procasers.Procaser`. It has the source's fields, and its
  methods change them in place with the source's loops. Each method is proved against the
  value layer, through `State()`. For example, `ExecSteps` ensures
  `State() == Drain(old(State()))`.

The callback is a scripted responder. The field `replies` lists, for each coming invocation,
the public calls the callback makes: `next`, `assignProps` or `saveCurrentStep`. These calls
go through the real `Next`, `AssignProps` and `SaveCurrentStep` methods while `inCallBack`
is set. So a `next` made by the callback only queues its request, as in the source. Each
label passed to the callback is appended to the field `trace`, and the bag passed with it,
as it was when the callback started, to the field `heard`.

Delays (`wait`) are kept as data on the entries. Within one drain, the drain awaits each
delayed entry before it goes on (src/Procaser.ts:112-121). So when no outside call arrives
during the wait, a delay does not change which labels are emitted or their order. An outside
call during the wait starts a second drain; see "Left out".

Module `Scenarios` restates five runs of tests/procaser.test.ts as proved histories:
"wait timer", "after exited", "first step", "props" and "step array". The "booted" run
is covered by `DrainLemmas.BootQuiet`. "popup response" calls `goTo` and is not restated.
Neither is "infinite loop", for the reason given under "Left out".

`exit()` (src/Procaser.ts:164-167) does not always terminate. It queues the termination
request and starts two drains. A step change to the current step stops a drain
(src/Procaser.ts:78-80, 99-101). So when two such duplicates lead the queue, both drains
stop at them, and the termination request stays queued. `DrainLemmas.ExitBehindDuplicates`
states this.

`MAX_STACK` (src/Procaser.ts:24, 60-63) never stops a callback that keeps requesting
zero-delay steps. Such a `next` only queues its request (src/Procaser.ts:155-157), so the
depth counter is 1 during every callback and 0 when the guard is evaluated. `DoCallBack` keeps
the depth at one more than on entry while the callback runs, and restores it afterwards.

## Model

| member | source | states |
|---|---|---|
| Steps.Label | src/Procaser.ts:111 | an emitted label is `state@name` (`---@name` without a state); it contains `@`, so it is never `BOOT` or `EXIT` |
| Steps.Labels | src/Procaser.ts:103-122 | the labels of a run of named entries: one per entry, in order, and none of them is `EXIT` |
| Steps.Expand | src/Procaser.ts:74-93 | an annotation keeps the current step; a step change makes its target current; nothing is emitted exactly for a step change to the current step; otherwise one or two entries, and a step change's last entry starts the target with the request's wait |
| Steps.ExpandAnnotation | src/Procaser.ts:74-76 | a state annotation expands to itself alone and leaves the current step unchanged |
| Steps.ExpandDuplicate | src/Procaser.ts:78-80 | a step change to the current step expands to nothing and leaves the current step unchanged |
| Steps.ExpandStepChange | src/Procaser.ts:81-93 | a step change from X to Y != X makes Y current and expands to `end@X` (wait -1, left out when X is BOOT) and then `start@Y` with the request's wait |
| Steps.ExpandExit | src/Procaser.ts:81-93 | the termination request unsets the current step and expands to `end@X` (unless BOOT), then an entry with no name |
| Props.Merge | src/Procaser.ts:130-132 | shallow last-write-wins merge: the keys are the union, patch keys take the patch value, every other key keeps its value |
| Props.MergeTwice | src/Procaser.ts:130-132 | merging two patches in turn equals merging their own merge |
| Props.Initial | src/Procaser.ts:35-37 | the bag is the given one, or empty when null is given |
| Drains.Enqueue | src/Procaser.ts:146-154 | once exited, nothing changes; otherwise the request goes to the back of the queue, the patch is merged, and nothing else changes |
| Drains.Apply | src/Procaser.ts:130-159 | one call of the callback: `next` is refused once exited and otherwise queues its step change and merges its patch; `assignProps` merges even when exited; `saveCurrentStep` (src/Procaser.ts:225-227) saves the label; the history, current step, label and exited flag never change |
| Drains.Popped | src/Procaser.ts:71-91 | exactly the front request leaves the queue; a step change makes its target current before anything is emitted; nothing else changes |
| Drains.Perform | src/Procaser.ts:53-58 | the calls a callback makes can only extend the queue, keep every key of the bag (no deletion), and either keep the saved step or save the current label; they never change the current step, the label, the exited flag or the history |
| Drains.Invoke | src/Procaser.ts:53-58 | one invocation appends exactly the current label to the history and the current bag to the bags heard, keeps the exited flag, current step and label, only extends the queue, and consumes one scripted reply |
| Drains.Emit | src/Procaser.ts:103-122 | emitting an expansion only extends the history and the queue; it never adds scripted replies, it consumes at least one when it emits anything while replies remain, and the queue is unchanged when no reply was consumed; which labels it emits is `DrainLemmas.EmitLabels` |
| Drains.Drain | src/Procaser.ts:96-128 | the drain only extends the history; an exited engine ends with an empty queue; draining an exited engine only empties its queue |
| Drains.Boot | src/Procaser.ts:31-51 | construction emits BOOT first |
| DrainLemmas.EmitLabels | src/Procaser.ts:103-122 | emitting entries that all name a step hears exactly their labels, in order, and neither exits nor changes the current step |
| DrainLemmas.EmitExitsOnce | src/Procaser.ts:103-109 | emitting one expansion exits if and only if EXIT is emitted; then EXIT is the last new label and the only EXIT, and EXIT is current; otherwise the current step is unchanged |
| DrainLemmas.DrainExitsOnce | src/Procaser.ts:96-128 | a drain from a live engine exits if and only if it emits EXIT; then EXIT is emitted exactly once, as the last label, the queue is empty and EXIT is current |
| DrainLemmas.DrainExitRequest | src/Procaser.ts:66-128 | draining the termination request from step X emits `end@X` (none for BOOT) then `EXIT`, whatever the callback does; the engine ends exited, with EXIT current and label and an empty queue; a quiet callback leaves the bag alone and hears it with each new label |
| DrainLemmas.DrainStopsAtDuplicate | src/Procaser.ts:78-101 | a step change to the current step is popped, emits nothing and stops the drain, and every later request stays queued |
| DrainLemmas.ExitBehindDuplicates | src/Procaser.ts:164-167 | with two step changes to the current step at the front of the queue, the two drains of `exit()` each stop at one of them; the engine does not exit, nothing is emitted, and the termination request stays queued |
| DrainLemmas.EmitKeepsKeys | src/Procaser.ts:103-122 | emitting an expansion never removes a key from the bag, whatever the callback does |
| DrainLemmas.DrainKeepsKeys | src/Procaser.ts:96-128 | a whole drain never removes a key from the bag, whatever the callback does: the bag has no deletion |
| DrainLemmas.DrainAnnotations | src/Procaser.ts:66-122 | with a quiet callback, draining queued annotations emits each one's label in queue order; the current step and the bag do not change, and the last label becomes the current label |
| DrainLemmas.DrainStepChanges | src/Procaser.ts:81-122 | with a quiet callback, draining a run of step changes, each to a step other than the one before, emits exactly `Transitions` (end of the step left, unless BOOT, then start of the step entered) and makes the last name current |
| DrainLemmas.TransitionsAlternate | src/Procaser.ts:81-93 | away from BOOT, the labels of a run of step changes alternate strictly between `end@` the step left and `start@` the step entered |
| DrainLemmas.StepChangeRound | src/Procaser.ts:81-122 | one drain round on a step change from X to Y != X, whatever the callback does: Y becomes current, then `end@X` (unless BOOT) and `start@Y` are heard in that order |
| DrainLemmas.BootQuiet | src/Procaser.ts:31-51 | with a quiet callback, construction emits only BOOT, leaves BOOT current and not exited, and keeps the given bag (an empty one for null) |
| Procasers.Procaser.constructor | src/Procaser.ts:31-45 | the new object is idle, and its state is `Boot` of the given bag (null becomes empty) and the callback |
| Procasers.Procaser.OnBoot | src/Procaser.ts:47-51 | BOOT becomes the current step and the label, the callback hears it, and the queue is drained |
| Procasers.Procaser.DoCallBack | src/Procaser.ts:53-64 | one invocation is `Invoke` of the old state; the depth counter is one higher during the callback and comes back to its old value |
| Procasers.Procaser.NextStepStates | src/Procaser.ts:66-94 | an empty queue yields nothing and changes nothing; otherwise the front request is removed (the queue loses exactly its first element), the current step is updated, and the result is the request's expansion |
| Procasers.Procaser.ExecSteps | src/Procaser.ts:96-128 | the loop takes the state to `Drain` of the old state |
| Procasers.Procaser.EmitSteps | src/Procaser.ts:103-122 | the loop over one expansion takes the state to `Emit` of the old state and the entries |
| Procasers.Procaser.AssignProps | src/Procaser.ts:130-132 | only the bag changes, and it becomes the merge of the old bag and the patch |
| Procasers.Procaser.Next | src/Procaser.ts:141-159 | accepted if and only if not exited; a refusal changes nothing and merges nothing; inside a callback it only queues; outside it queues and drains |
| Procasers.Procaser.Exit | src/Procaser.ts:164-167 | queues the termination request through `Next` and drains once more; from an idle, live engine with a current step and an empty queue the history gains `end@current` (none for BOOT) and then EXIT, and the engine is exited with an empty queue |
| Procasers.Procaser.Respond | src/Procaser.ts:169-186 | accepted if and only if not exited; a refusal changes nothing; otherwise the annotation is queued, the patch merged and the queue drained |
| Procasers.Procaser.Signal | src/Procaser.ts:194-196 | annotates the step that is current when the request is queued |
| Procasers.Procaser.Confirm | src/Procaser.ts:203-205 | queues `confirm` on the current step and drains, unless exited |
| Procasers.Procaser.Cancel | src/Procaser.ts:212-214 | queues `cancel` on the current step and drains, unless exited |
| Procasers.Procaser.Error | src/Procaser.ts:221-223 | queues `error` on the given step, which need not be current, and drains, unless exited |
| Procasers.Procaser.SaveCurrentStep | src/Procaser.ts:225-227 | the saved step becomes the current label, and nothing else changes |
| Scenarios.StepArrayHistory | tests/procaser.test.ts:300-336 | BOOT, `start@Prepare`, `end@Prepare`, `start@Work`, `end@Work`, EXIT, and the engine has exited |
| Scenarios.AfterExitedHistory | tests/procaser.test.ts:219-241 | terminating on BOOT gives BOOT, EXIT; the later `next('Regret', {rewind: true})` is refused and the bag stays empty |
| Scenarios.FirstStepHistory | tests/procaser.test.ts:243-266 | the last label is `start@Prepare`, Prepare is current, and the given bag is kept as it was |
| Scenarios.PropsHistory | tests/procaser.test.ts:268-298 | the run emits BOOT, Prepare, Write and EXIT in order; BOOT hears the given bag, `start@Prepare` hears it with `prepared: true` merged, and `start@Write` and every later label hear both patches merged in order, which is also the final bag |
| Scenarios.PropsBag | tests/procaser.test.ts:268-298 | after both patches, `prepared` is false, `content` is added, and the given keys keep their values |
| Scenarios.WaitTimerRun | tests/procaser.test.ts:8-96 | from the end of construction, the outside `confirm` leads through Success and Complete to EXIT, with the labels of the test in order |
| Scenarios.WaitTimer | tests/procaser.test.ts:8-96 | construction, then an outside `confirm`, give the nine labels of the test in order, with the delayed `start@Complete` in its place |

## Left out

- Timers and asynchronous suspension. `wait` is data only. `_execSteps` is `async`
  (src/Procaser.ts:96). While it awaits a delay (src/Procaser.ts:115-119), an outside `next`
  starts a second drain (src/Procaser.ts:155-157), whose labels come between the first
  drain's. For example, from step X, an outside `next('A', {}, 1000)` and then `next('B')`
  emit `end@X`, then `end@A` and `start@B`. The first drain then resumes. Its callback
  hears `this._stepString`, which the second drain has overwritten (src/Procaser.ts:111,
  120), so it hears `start@B` again and never `start@A`. This interleaving is not modelled.
- Callbacks that call `exit`, `signal`, `confirm`, `cancel` or `error` while they run. These
  start a nested drain inside the callback. The scripted callback makes only `next`,
  `assignProps` and `saveCurrentStep` calls.
  - The runs in `Scenarios` script a callback's `exit()` as `next(undefined)`, and only where
    the callback hears BOOT or `start@Y`, the last entry of its expansion. There the
    termination request is drained next, and the labels are the same as the source's.
  - An `exit()` made on `end@X`, while `start@Y` is still to come, is not captured. The
    source drains the termination request at once in a nested drain, emits `end@Y` and EXIT,
    and then its outer loop (src/Procaser.ts:103-122) still emits `start@Y` after EXIT.
- Procasers.Procaser.DoCallBack: the forced `exit()` when the depth passes `MAX_STACK` (10)
  is not modelled. Only the counter's bookkeeping is. With no nested drains the depth is
  never above 1, so the guard cannot fire.
- Callbacks whose calls depend on the bag or on outside state. The script fixes the calls of
  each invocation in advance. The "infinite loop" test is not restated for that reason.
- The `console.warn` logging and `defaultWarn`. They are logging only.
- Object identity of the bag. The constructor keeps the caller's object by reference; the
  model keeps the bag as a value map.
- `savedStep()` is modelled as the plain getter `SavedStep` and has no contract of its own.
- `goTo`, which the "popup response" test calls. It is not part of src/Procaser.ts.
