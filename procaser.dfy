/** The Procaser object: a queue of step and state requests drained in order, with a
    callback invoked once per emitted label. The callback is the scripted responder of
    `Drains`: on each invocation it records the label in `trace` and makes the calls of its
    next reply, through the same public methods a JavaScript callback would use. */
module Procasers {
  import opened Steps
  import opened Props
  import opened Drains
  import DrainLemmas

  class Procaser<V> {
    var stepString: Option<string>
    var currentStepName: Option<string>
    var savedStep: Option<string>
    var nextSteps: seq<StepState>
    var props: map<string, V>
    var exited: bool
    var inCallBack: bool
    var stackCt: int
    /** Every label passed to the callback, in order. */
    var trace: seq<string>
    /** The bag passed with each of those labels, as it was when the callback started. */
    var heard: seq<map<string, V>>
    /** What the callback does on its coming invocations. */
    var replies: seq<seq<Call<V>>>

    /** The object between two outside calls: no callback is running, and an exited
        engine holds no request. */
    ghost predicate Valid()
      reads this
    {
      !inCallBack && stackCt == 0 && (exited ==> nextSteps == [])
    }

    /** The abstract value of the object. */
    function State(): (r: Engine<V>)
      reads this
    {
      Engine(nextSteps, currentStepName, stepString, savedStep, props, exited, trace, heard, replies)
    }

    /** Builds the object, emits BOOT and drains what the callback queued. A null bag
        becomes an empty one. */
    constructor (given: Option<map<string, V>>, callback: seq<seq<Call<V>>>)
      ensures Valid()
      ensures State() == Boot(given, callback)
    {
      props := Initial(given);
      exited := false;
      savedStep := None;
      inCallBack := false;
      stackCt := 0;
      nextSteps := [];
      trace := [];
      heard := [];
      replies := callback;
      currentStepName := None;
      stepString := None;
      new;
      OnBoot();
    }

    method OnBoot()
      requires Valid() && nextSteps == [] && !exited
      modifies this
      ensures Valid()
      ensures State() == Drain(Invoke(old(State()).(current := Some(BOOT), stepString := Some(BOOT))))
    {
      currentStepName := Some(BOOT);
      stepString := Some(BOOT);
      DoCallBack();
      ExecSteps();
    }

    /** One callback invocation: the depth counter goes up for the duration of the call
        and comes back to where it was. */
    method DoCallBack()
      requires !inCallBack && stepString.Some?
      modifies this
      ensures State() == Invoke(old(State()))
      ensures !inCallBack && stackCt == old(stackCt)
      decreases 1
    {
      inCallBack := true;
      stackCt := stackCt + 1;
      trace := trace + [stepString.value];
      heard := heard + [props];
      if replies != [] {
        var calls := replies[0];
        replies := replies[1..];
        ghost var start := State();
        var i := 0;
        while i < |calls|
          invariant 0 <= i <= |calls|
          invariant inCallBack && stackCt == old(stackCt) + 1
          invariant Perform(State(), calls[i..]) == Perform(start, calls)
          decreases |calls| - i
        {
          assert calls[i..][0] == calls[i] && calls[i..][1..] == calls[i + 1..];
          match calls[i] {
            case CallNext(n, p, w) =>
              var _ := Next(n, p, w);
            case CallAssign(p) =>
              AssignProps(p);
            case CallSave =>
              SaveCurrentStep();
          }
          i := i + 1;
        }
      }
      stackCt := stackCt - 1;
      inCallBack := false;
    }

    /** Pops the front request and classifies it; `None` for an empty queue and for a
        step change to the current step. */
    method NextStepStates() returns (steps: Option<seq<StepState>>)
      modifies this
      ensures old(nextSteps) == [] ==> steps.None? && State() == old(State())
      ensures old(nextSteps) != [] ==>
        && steps == Expand(old(currentStepName), old(nextSteps)[0]).entries
        && State() == Popped(old(State()))
      ensures nextSteps == if old(nextSteps) == [] then [] else old(nextSteps)[1..]
      ensures inCallBack == old(inCallBack) && stackCt == old(stackCt)
    {
      if nextSteps == [] {
        return None;
      }
      var nextState := nextSteps[0];
      nextSteps := nextSteps[1..];
      var x := Expand(currentStepName, nextState);
      currentStepName := x.current;
      steps := x.entries;
    }

    /** The drain loop: pop, classify, emit, until the engine exits, the queue runs dry or
        a duplicate step change stops it; an exited engine then drops what is still queued. */
    method ExecSteps()
      requires !inCallBack
      modifies this
      ensures State() == Drain(old(State()))
      ensures !inCallBack && stackCt == old(stackCt)
      decreases 3
    {
      while !exited
        invariant !inCallBack && stackCt == old(stackCt)
        invariant Drain(State()) == Drain(old(State()))
        decreases |replies|, |nextSteps|
      {
        ghost var before := State();
        var steps := NextStepStates();
        if steps.None? || steps.value == [] {
          break;
        }
        ghost var popped := State();
        EmitSteps(steps.value);
        assert Drain(before) == Drain(Emit(popped, steps.value));
      }
      if exited {
        nextSteps := [];
      }
    }

    /** The entries of one expansion, one callback each, in order. An entry without a name
        terminates: the engine exits, the callback hears EXIT and the rest is skipped. Within
        one drain, and with no outside call arriving while it waits, a delay does not change
        what is emitted or in which order, so an entry with a delay is emitted like one
        without. */
    method EmitSteps(steps: seq<StepState>)
      requires !inCallBack
      modifies this
      ensures State() == Emit(old(State()), steps)
      ensures !inCallBack && stackCt == old(stackCt)
      decreases 2
    {
      var i := 0;
      while i < |steps|
        invariant 0 <= i <= |steps|
        invariant !inCallBack && stackCt == old(stackCt)
        invariant Emit(State(), steps[i..]) == Emit(old(State()), steps)
      {
        var step := steps[i];
        assert steps[i..][1..] == steps[i + 1..];
        if step.name.None? {
          exited := true;
          currentStepName := Some(EXIT);
          stepString := Some(EXIT);
          DoCallBack();
          return;
        }
        stepString := Some(Label(step));
        DoCallBack();
        i := i + 1;
      }
    }

    /** Shallow merge of a patch into the bag, whether or not the engine has exited. */
    method AssignProps(patch: map<string, V>)
      modifies this
      ensures State() == old(State()).(props := Merge(old(props), patch))
      ensures inCallBack == old(inCallBack) && stackCt == old(stackCt)
    {
      props := Merge(props, patch);
    }

    /** Queues a step change (no name: termination). Refused once exited, without merging
        the patch; otherwise the patch is merged and the queue is drained unless a callback
        is running, whose caller's drain may reach the request (a step change to the current step queued
        ahead of it stops that drain). */
    method Next(stepName: Option<string>, patch: map<string, V>, wait: int) returns (accepted: bool)
      modifies this
      ensures accepted == !old(exited)
      ensures inCallBack == old(inCallBack) && stackCt == old(stackCt)
      ensures !accepted ==> State() == old(State())
      ensures accepted && old(inCallBack) ==>
        State() == Enqueue(old(State()), StepState(stepName, None, wait), patch)
      ensures accepted && !old(inCallBack) ==>
        State() == Drain(Enqueue(old(State()), StepState(stepName, None, wait), patch))
      ensures old(Valid()) ==> Valid()
      decreases if inCallBack then 0 else 4
    {
      if exited {
        return false;
      }
      AssignProps(patch);
      nextSteps := nextSteps + [StepState(stepName, None, wait)];
      if !inCallBack {
        ExecSteps();
      }
      return true;
    }

    /** Terminates: queues the termination request through `next` and drains once more.
        From an idle engine with an empty queue this emits `end@current` (none for BOOT) and
        then EXIT; other queued requests go first, and duplicates can stop both drains. */
    method Exit()
      requires Valid()
      modifies this
      ensures Valid()
      ensures old(exited) ==> State() == old(State())
      ensures !old(exited) ==>
        State() == Drain(Drain(Enqueue(old(State()), EXIT_REQUEST, map[])))
      ensures !old(exited) && old(nextSteps) == [] && old(currentStepName).Some? ==>
        && exited && nextSteps == []
        && currentStepName == Some(EXIT) && stepString == Some(EXIT)
        && trace == old(trace) + EndOf(old(currentStepName).value) + [EXIT]
    {
      var _ := Next(None, map[], -1);
      ExecSteps();
      if !old(exited) && old(nextSteps) == [] && old(currentStepName).Some? {
        DrainLemmas.DrainExitRequest(Enqueue(old(State()), EXIT_REQUEST, map[]));
      }
    }

    /** Queues a state annotation on `stepName`. Refused once exited, without merging the
        patch; otherwise the queue is always drained. */
    method Respond(stepName: Option<string>, state: Option<string>, patch: map<string, V>, wait: int)
      returns (accepted: bool)
      requires Valid()
      modifies this
      ensures Valid()
      ensures accepted == !old(exited)
      ensures !accepted ==> State() == old(State())
      ensures accepted ==> State() == Drain(Enqueue(old(State()), StepState(stepName, state, wait), patch))
    {
      if exited {
        return false;
      }
      nextSteps := nextSteps + [StepState(stepName, state, wait)];
      AssignProps(patch);
      ExecSteps();
      return true;
    }

    /** Annotates the current step, as named when the request is queued. */
    method Signal(state: string, patch: map<string, V>, wait: int)
      requires Valid()
      modifies this
      ensures Valid()
      ensures old(exited) ==> State() == old(State())
      ensures !old(exited) ==>
        State() == Drain(Enqueue(old(State()), StepState(old(currentStepName), Some(state), wait), patch))
    {
      var _ := Respond(currentStepName, Some(state), patch, wait);
    }

    method Confirm(patch: map<string, V>, wait: int)
      requires Valid()
      modifies this
      ensures Valid()
      ensures old(exited) ==> State() == old(State())
      ensures !old(exited) ==>
        State() == Drain(Enqueue(old(State()), StepState(old(currentStepName), Some(CONFIRM), wait), patch))
    {
      var _ := Respond(currentStepName, Some(CONFIRM), patch, wait);
    }

    method Cancel(patch: map<string, V>, wait: int)
      requires Valid()
      modifies this
      ensures Valid()
      ensures old(exited) ==> State() == old(State())
      ensures !old(exited) ==>
        State() == Drain(Enqueue(old(State()), StepState(old(currentStepName), Some(CANCEL), wait), patch))
    {
      var _ := Respond(currentStepName, Some(CANCEL), patch, wait);
    }

    /** Annotates the given step, which need not be the current one. */
    method Error(stepName: string, patch: map<string, V>, wait: int)
      requires Valid()
      modifies this
      ensures Valid()
      ensures old(exited) ==> State() == old(State())
      ensures !old(exited) ==>
        State() == Drain(Enqueue(old(State()), StepState(Some(stepName), Some(ERROR), wait), patch))
    {
      var _ := Respond(Some(stepName), Some(ERROR), patch, wait);
    }

    /** Remembers the last label passed to the callback. */
    method SaveCurrentStep()
      modifies this
      ensures State() == old(State()).(savedStep := old(stepString))
      ensures inCallBack == old(inCallBack) && stackCt == old(stackCt)
    {
      savedStep := stepString;
    }

    function SavedStep(): (r: Option<string>)
      reads this
    {
      savedStep
    }
  }
}
