/** What a drain emits: EXIT at most once and last, the end/start pairs of step changes,
    annotations as queued, and the stop at a duplicate step change. */
module DrainLemmas {
  import opened Steps
  import opened Drains

  /** The labels end in one EXIT, and EXIT appears nowhere else. */
  predicate ExitsOnceLast(labels: seq<string>)
  {
    labels != [] && labels[|labels| - 1] == EXIT && EXIT !in labels[..|labels| - 1]
  }

  /** The callback does nothing but listen on every invocation that its script covers. */
  predicate Quiet<V>(e: Engine<V>)
  {
    forall k :: 0 <= k < |e.replies| ==> e.replies[k] == []
  }

  lemma ExitsOnceLastAfter(a: seq<string>, b: seq<string>)
    requires EXIT !in a && ExitsOnceLast(b)
    ensures ExitsOnceLast(a + b)
  {
    assert (a + b)[..|a + b| - 1] == a + b[..|b| - 1];
  }

  /** Concatenation regrouped: stated once so that the drain proofs below can instantiate it
      at the exact terms they need. */
  lemma AppendAssoc<T>(a: seq<T>, b: seq<T>, c: seq<T>)
    ensures (a + b) + c == a + (b + c)
  {
  }

  /** What a longer history adds past a shorter one, split at a history in between. */
  lemma SliceSplit<T>(a: seq<T>, b: seq<T>, c: seq<T>)
    requires a <= b <= c
    ensures c[|a|..] == b[|a|..] + c[|b|..]
  {
  }

  /** A quiet callback only records the label. */
  lemma InvokeQuiet<V>(e: Engine<V>)
    requires e.stepString.Some? && Quiet(e)
    ensures Invoke(e) == e.(trace := e.trace + [e.stepString.value], heard := e.heard + [e.props],
      replies := if e.replies == [] then [] else e.replies[1..])
    ensures Quiet(Invoke(e))
  {
  }

  /** A callback invocation whose reply is empty only records the label. */
  lemma InvokeSilent<V>(e: Engine<V>)
    requires e.stepString.Some? && e.replies != [] && e.replies[0] == []
    ensures Invoke(e) == e.(trace := e.trace + [e.stepString.value], heard := e.heard + [e.props], replies := e.replies[1..])
  {
  }

  /** A callback invocation whose reply is one `next` call records the label and, unless the
      engine has exited, queues the step change and merges its patch. */
  lemma InvokeNext<V>(e: Engine<V>, name: Option<string>, patch: map<string, V>, wait: int)
    requires e.stepString.Some? && e.replies != [] && e.replies[0] == [CallNext(name, patch, wait)]
    ensures Invoke(e) == Enqueue(e.(trace := e.trace + [e.stepString.value], heard := e.heard + [e.props],
      replies := e.replies[1..]), StepState(name, None, wait), patch)
  {
    var called := e.(trace := e.trace + [e.stepString.value], heard := e.heard + [e.props], replies := e.replies[1..]);
    assert Invoke(e) == Perform(called, [CallNext(name, patch, wait)]);
    assert Perform(called, [CallNext(name, patch, wait)]) == Perform(Apply(called, CallNext(name, patch, wait)), []);
  }

  /** Emitting a run of step-naming entries hears exactly their labels, in order, one
      invocation each; the engine neither exits nor changes its current step. */
  lemma {:induction false} EmitLabels<V>(e: Engine<V>, steps: seq<StepState>)
    requires Named(steps)
    ensures Emit(e, steps).trace == e.trace + Labels(steps)
    ensures Emit(e, steps).current == e.current && Emit(e, steps).exited == e.exited
    decreases |steps|
  {
    if steps != [] {
      var l := Label(steps[0]);
      var e1 := Invoke(e.(stepString := Some(l)));
      assert Emit(e, steps) == Emit(e1, steps[1..]);
      EmitLabels(e1, steps[1..]);
      assert Labels(steps) == [l] + Labels(steps[1..]);
      AppendAssoc(e.trace, [l], Labels(steps[1..]));
    }
  }

  /** Emitting one expansion: the engine exits exactly when EXIT is emitted, and then EXIT
      is the last label emitted and the only EXIT; otherwise the current step is untouched. */
  lemma {:induction false} EmitExitsOnce<V>(e: Engine<V>, steps: seq<StepState>)
    requires !e.exited
    ensures var r := Emit(e, steps);
      var added := r.trace[|e.trace|..];
      && (r.exited ==> ExitsOnceLast(added) && r.current == Some(EXIT) && r.stepString == Some(EXIT))
      && (!r.exited ==> EXIT !in added && r.current == e.current)
    decreases |steps|
  {
    if steps != [] && steps[0].name.Some? {
      var e1 := Invoke(e.(stepString := Some(Label(steps[0]))));
      EmitExitsOnce(e1, steps[1..]);
      var r := Emit(e1, steps[1..]);
      SliceSplit(e.trace, e1.trace, r.trace);
      assert e1.trace[|e.trace|..] == [Label(steps[0])];
      if r.exited {
        ExitsOnceLastAfter([Label(steps[0])], r.trace[|e1.trace|..]);
      }
    }
  }

  /** A whole drain: the engine exits exactly when EXIT is emitted, and then EXIT is the last
      label emitted and the only EXIT, the queue is empty, and EXIT is current. */
  lemma {:induction false} DrainExitsOnce<V>(e: Engine<V>)
    requires !e.exited
    ensures var r := Drain(e);
      var added := r.trace[|e.trace|..];
      && (r.exited ==> ExitsOnceLast(added) && r.queue == [] && r.current == Some(EXIT) && r.stepString == Some(EXIT))
      && (!r.exited ==> EXIT !in added)
    decreases |e.replies|, |e.queue|
  {
    if e.queue != [] {
      var x := Expand(e.current, e.queue[0]);
      if x.entries.Some? && x.entries.value != [] {
        var e1 := Emit(Popped(e), x.entries.value);
        assert Drain(e) == Drain(e1);
        EmitExitsOnce(Popped(e), x.entries.value);
        if !e1.exited {
          DrainExitsOnce(e1);
          var r := Drain(e1);
          SliceSplit(e.trace, e1.trace, r.trace);
          if r.exited {
            ExitsOnceLastAfter(e1.trace[|e.trace|..], r.trace[|e1.trace|..]);
          }
        }
      }
    }
  }

  /** Draining the termination request from step X: `end@X` (none for BOOT), then EXIT;
      the engine has exited with EXIT current and an empty queue, whatever the callback does.
      A quiet callback leaves the bag alone. */
  lemma DrainExitRequest<V>(e: Engine<V>)
    requires !e.exited && e.current.Some?
    requires e.queue != [] && e.queue[0].name.None? && e.queue[0].state.None?
    ensures var r := Drain(e);
      && r.exited && r.queue == []
      && r.current == Some(EXIT) && r.stepString == Some(EXIT)
      && r.trace == e.trace + EndOf(e.current.value) + [EXIT]
    ensures Quiet(e) ==> Drain(e).props == e.props
    ensures Quiet(e) ==> Drain(e).heard == e.heard + (if e.current.value == BOOT then [e.props] else [e.props, e.props])
  {
    var c := e.current.value;
    var p := Popped(e);
    var startStep := StepState(None, Some(START), e.queue[0].wait);
    if c == BOOT {
      assert Expand(e.current, e.queue[0]).entries.value == [startStep];
      var px := p.(exited := true, current := Some(EXIT), stepString := Some(EXIT));
      assert Emit(p, [startStep]) == Invoke(px);
      if Quiet(e) {
        InvokeQuiet(px);
      }
    } else {
      var endStep := StepState(Some(c), Some(END), -1);
      assert Expand(e.current, e.queue[0]).entries.value == [endStep, startStep];
      var pe := p.(stepString := Some(Label(endStep)));
      var p1 := Invoke(pe);
      assert [endStep, startStep][1..] == [startStep];
      assert Emit(p, [endStep, startStep]) == Emit(p1, [startStep]);
      var px := p1.(exited := true, current := Some(EXIT), stepString := Some(EXIT));
      assert Emit(p1, [startStep]) == Invoke(px);
      if Quiet(e) {
        InvokeQuiet(pe);
        InvokeQuiet(px);
      }
    }
  }

  /** A step change to the current step is popped and emits nothing; the drain stops there
      and every later request stays queued. */
  lemma DrainStopsAtDuplicate<V>(e: Engine<V>)
    requires !e.exited && e.queue != []
    requires e.queue[0].state.None? && e.queue[0].name == e.current
    ensures Drain(e) == e.(queue := e.queue[1..])
  {
  }

  /** `exit()` need not terminate: with two step changes to the current step at the front of
      the queue, each of its two drains stops at one of them, and the termination request
      stays queued behind. */
  lemma ExitBehindDuplicates<V>(e: Engine<V>, w1: int, w2: int)
    requires !e.exited && e.current.Some?
    requires e.queue == [StepState(e.current, None, w1), StepState(e.current, None, w2)]
    ensures var r := Drain(Drain(Enqueue(e, EXIT_REQUEST, map[])));
      && !r.exited && r.queue == [EXIT_REQUEST]
      && r.trace == e.trace && r.current == e.current
  {
    var q := Enqueue(e, EXIT_REQUEST, map[]);
    DrainStopsAtDuplicate(q);
    var d := q.(queue := q.queue[1..]);
    DrainStopsAtDuplicate(d);
    assert d.queue[1..] == [EXIT_REQUEST];
  }

  /** The bag has no deletion: emitting an expansion never removes a key, whatever the
      callback does. */
  lemma {:induction false} EmitKeepsKeys<V>(e: Engine<V>, steps: seq<StepState>)
    ensures e.props.Keys <= Emit(e, steps).props.Keys
    decreases |steps|
  {
    if steps != [] && steps[0].name.Some? {
      EmitKeepsKeys(Invoke(e.(stepString := Some(Label(steps[0])))), steps[1..]);
    }
  }

  /** A whole drain never removes a key from the bag, whatever the callback does. */
  lemma {:induction false} DrainKeepsKeys<V>(e: Engine<V>)
    ensures e.props.Keys <= Drain(e).props.Keys
    decreases |e.replies|, |e.queue|
  {
    if !e.exited && e.queue != [] {
      var x := Expand(e.current, e.queue[0]);
      if x.entries.Some? && x.entries.value != [] {
        EmitKeepsKeys(Popped(e), x.entries.value);
        DrainKeepsKeys(Emit(Popped(e), x.entries.value));
      }
    }
  }

  /** Every request of the queue is a state annotation on a named step. */
  predicate Annotations(q: seq<StepState>)
    decreases |q|
  {
    q == [] || (q[0].state.Some? && Named(q) && Annotations(q[1..]))
  }

  /** Draining annotations under a quiet callback emits each one's label, in queue order,
      and never changes the current step. */
  lemma {:induction false} DrainAnnotations<V>(e: Engine<V>)
    requires !e.exited && Quiet(e) && Annotations(e.queue)
    ensures !Drain(e).exited && Drain(e).queue == []
    ensures Drain(e).current == e.current && Drain(e).props == e.props
    ensures Drain(e).trace == e.trace + Labels(e.queue)
    ensures e.queue != [] ==> Drain(e).stepString == Some(Labels(e.queue)[|e.queue| - 1])
    decreases |e.queue|
  {
    if e.queue != [] {
      var e1 := AnnotationStep(e);
      DrainAnnotations(e1);
      var l := Label(e.queue[0]);
      var ls := Labels(e1.queue);
      assert Labels(e.queue) == [l] + ls;
      assert Drain(e1).trace == (e.trace + [l]) + ls;
      AppendAssoc(e.trace, [l], ls);
      if e1.queue == [] {
        assert Drain(e1) == e1;
        assert |e.queue| == 1;
      } else {
        assert Labels(e.queue)[|e.queue| - 1] == ls[|ls| - 1];
      }
    }
  }

  /** One round of the drain on a queued annotation under a quiet callback. */
  lemma AnnotationStep<V>(e: Engine<V>) returns (e1: Engine<V>)
    requires !e.exited && Quiet(e) && e.queue != [] && Annotations(e.queue)
    ensures Drain(e) == Drain(e1)
    ensures !e1.exited && Quiet(e1) && e1.queue == e.queue[1..] && Annotations(e1.queue)
    ensures e1.current == e.current && e1.props == e.props
    ensures e1.trace == e.trace + [Label(e.queue[0])] && e1.stepString == Some(Label(e.queue[0]))
  {
    var a := e.queue[0];
    var p := Popped(e);
    assert Expand(e.current, a) == Expansion(e.current, Some([a]));
    var pl := p.(stepString := Some(Label(a)));
    InvokeQuiet(pl);
    e1 := Invoke(pl);
    assert Emit(p, [a]) == Emit(e1, []) == e1;
  }

  /** The step names of a run of step changes: each differs from the one before it. */
  predicate Chain(prev: string, names: seq<string>)
    decreases |names|
  {
    names == [] || (names[0] != prev && Chain(names[0], names[1..]))
  }

  /** The queue holds step changes to `names`, in order. */
  predicate StepChanges(q: seq<StepState>, names: seq<string>)
    decreases |q|
  {
    |q| == |names| && (q == [] || (q[0].state.None? && q[0].name == Some(names[0]) && StepChanges(q[1..], names[1..])))
  }

  /** Reference labels of the step changes from `prev` through `names`: each change emits
      the end of the step it leaves (none for BOOT) and the start of the step it enters. */
  function Transitions(prev: string, names: seq<string>): (r: seq<string>)
    decreases |names|
  {
    if names == [] then [] else EndOf(prev) + [START + "@" + names[0]] + Transitions(names[0], names[1..])
  }

  function LastOf(prev: string, names: seq<string>): (r: string)
  {
    if names == [] then prev else names[|names| - 1]
  }

  /** Draining a run of step changes under a quiet callback emits exactly the reference
      labels and leaves the last name current. */
  lemma {:induction false} DrainStepChanges<V>(e: Engine<V>, names: seq<string>)
    requires !e.exited && Quiet(e) && e.current.Some?
    requires StepChanges(e.queue, names) && Chain(e.current.value, names)
    ensures !Drain(e).exited && Drain(e).queue == [] && Drain(e).props == e.props
    ensures Drain(e).current == Some(LastOf(e.current.value, names))
    ensures Drain(e).trace == e.trace + Transitions(e.current.value, names)
    decreases |e.queue|
  {
    if names != [] {
      var c := e.current.value;
      var y := names[0];
      var e1 := StepChangeStep(e, y);
      DrainStepChanges(e1, names[1..]);
      var h := EndOf(c) + [START + "@" + y];
      var t := Transitions(y, names[1..]);
      assert Transitions(c, names) == h + t;
      AppendAssoc(e.trace, EndOf(c), [START + "@" + y]);
      AppendAssoc(e.trace, h, t);
      if names[1..] != [] {
        assert LastOf(y, names[1..]) == LastOf(c, names);
      }
    }
  }

  /** One round of the drain on a queued step change under a quiet callback. */
  lemma StepChangeStep<V>(e: Engine<V>, y: string) returns (e1: Engine<V>)
    requires !e.exited && Quiet(e) && e.current.Some? && e.queue != []
    requires e.queue[0].state.None? && e.queue[0].name == Some(y) && y != e.current.value
    ensures Drain(e) == Drain(e1)
    ensures !e1.exited && Quiet(e1) && e1.queue == e.queue[1..] && e1.props == e.props
    ensures e1.current == Some(y)
    ensures e1.trace == e.trace + EndOf(e.current.value) + [START + "@" + y]
  {
    var c := e.current.value;
    var req := e.queue[0];
    var p := Popped(e);
    var startStep := StepState(Some(y), Some(START), req.wait);
    if c == BOOT {
      assert Expand(e.current, req).entries.value == [startStep];
      var ps := p.(stepString := Some(Label(startStep)));
      InvokeQuiet(ps);
      e1 := Invoke(ps);
      assert Emit(p, [startStep]) == Emit(e1, []);
    } else {
      var endStep := StepState(Some(c), Some(END), -1);
      assert Expand(e.current, req).entries.value == [endStep, startStep];
      var pe := p.(stepString := Some(Label(endStep)));
      InvokeQuiet(pe);
      var p1 := Invoke(pe);
      var ps := p1.(stepString := Some(Label(startStep)));
      InvokeQuiet(ps);
      e1 := Invoke(ps);
      assert [endStep, startStep][1..] == [startStep];
      assert Emit(p, [endStep, startStep]) == Emit(p1, [startStep]) == Emit(e1, []);
    }
  }

  /** One round of the drain on a queued step change from X to Y != X, whatever the callback
      does: Y is made current, then `end@X` (none for BOOT) and `start@Y` are emitted. */
  lemma StepChangeRound<V>(e: Engine<V>) returns (e1: Engine<V>)
    requires !e.exited && e.current.Some? && e.queue != []
    requires e.queue[0].state.None? && e.queue[0].name.Some? && e.queue[0].name != e.current
    ensures Drain(e) == Drain(e1)
    ensures var y := e.queue[0].name.value;
      var p := e.(queue := e.queue[1..], current := Some(y));
      var left := if e.current.value == BOOT then p else Invoke(p.(stepString := Some(END + "@" + e.current.value)));
      e1 == Invoke(left.(stepString := Some(START + "@" + y)))
  {
    var c := e.current.value;
    var req := e.queue[0];
    var p := Popped(e);
    var startStep := StepState(req.name, Some(START), req.wait);
    if c == BOOT {
      assert Expand(e.current, req).entries.value == [startStep];
      e1 := Invoke(p.(stepString := Some(Label(startStep))));
      assert Emit(p, [startStep]) == Emit(e1, []);
    } else {
      var endStep := StepState(Some(c), Some(END), -1);
      assert Expand(e.current, req).entries.value == [endStep, startStep];
      var p1 := Invoke(p.(stepString := Some(Label(endStep))));
      e1 := Invoke(p1.(stepString := Some(Label(startStep))));
      assert [endStep, startStep][1..] == [startStep];
      assert Emit(p, [endStep, startStep]) == Emit(p1, [startStep]) == Emit(e1, []);
    }
  }

  /** Away from BOOT, the reference labels alternate strictly: `end@` the step left, then
      `start@` the step entered. */
  lemma {:induction false} TransitionsAlternate(prev: string, names: seq<string>, i: nat)
    requires prev != BOOT && BOOT !in names && i < |names|
    ensures |Transitions(prev, names)| == 2 * |names|
    ensures Transitions(prev, names)[2 * i] == END + "@" + (if i == 0 then prev else names[i - 1])
    ensures Transitions(prev, names)[2 * i + 1] == START + "@" + names[i]
    decreases |names|
  {
    var rest := names[1..];
    var head := [END + "@" + prev] + [START + "@" + names[0]];
    assert Transitions(prev, names) == head + Transitions(names[0], rest);
    if rest == [] {
      assert Transitions(names[0], rest) == [];
    } else {
      assert BOOT !in rest by {
        forall k | 0 <= k < |rest| ensures rest[k] != BOOT {
          assert rest[k] == names[k + 1];
        }
      }
      TransitionsAlternate(names[0], rest, if i == 0 then 0 else i - 1);
    }
  }

  /** Construction under a quiet callback: BOOT is the only label, BOOT stays current, and
      the bag is the given one, or empty for null. */
  lemma BootQuiet<V>(given: Option<map<string, V>>, replies: seq<seq<Call<V>>>)
    requires forall k :: 0 <= k < |replies| ==> replies[k] == []
    ensures var r := Boot(given, replies);
      && r.trace == [BOOT] && r.current == Some(BOOT) && r.stepString == Some(BOOT)
      && r.queue == [] && !r.exited && r.savedStep == None
      && r.props == (if given.Some? then given.value else map[])
  {
    InvokeQuiet(Fresh(given, replies));
  }
}
