/** Requests, the entries a request expands into, and the labels the callback receives. */
module Steps {

  datatype Option<T> = None | Some(value: T)

  const BOOT: string := "BOOT"
  const EXIT: string := "EXIT"
  const START: string := "start"
  const END: string := "end"
  const CONFIRM: string := "confirm"
  const CANCEL: string := "cancel"
  const ERROR: string := "error"

  /** A queued request, and also an entry that a request expands into.
      No `name`: termination. No `state`: a step change. A negative `wait`: no delay. */
  datatype StepState = StepState(name: Option<string>, state: Option<string>, wait: int)

  /** The request that `exit` queues (through `next(undefined)`). */
  const EXIT_REQUEST: StepState := StepState(None, None, -1)

  /** What popping one request yields: the new current step name and the entries to emit,
      or no entries at all when a step change targets the current step. */
  datatype Expansion = Expansion(current: Option<string>, entries: Option<seq<StepState>>)

  /** Classification of a popped request against the current step name. An annotation keeps
      the current step and emits itself; a step change to the current step emits nothing; any
      other step change makes its target current and emits one or two entries, the last of
      which starts the target with the request's delay. */
  function Expand(current: Option<string>, req: StepState): (r: Expansion)
    ensures req.state.Some? ==> r.current == current
    ensures req.state.None? ==> r.current == req.name
    ensures r.entries.None? <==> req.state.None? && req.name == current
    ensures r.entries.Some? ==> 1 <= |r.entries.value| <= 2
    ensures r.entries.Some? && req.state.None? ==>
      r.entries.value[|r.entries.value| - 1] == StepState(req.name, Some(START), req.wait)
  {
    if req.state.Some? then
      Expansion(current, Some([req]))
    else if current == req.name then
      Expansion(current, None)
    else
      var endStep := StepState(current, Some(END), -1);
      var startStep := StepState(req.name, Some(START), req.wait);
      Expansion(req.name, Some((if endStep.name != Some(BOOT) then [endStep] else []) + [startStep]))
  }

  /** The label of an entry that names a step: `state@name`, with `---` for a missing state. */
  function Label(s: StepState): (r: string)
    requires s.name.Some?
    ensures '@' in r
    ensures r != BOOT && r != EXIT
  {
    var state := if s.state.Some? then s.state.value else "---";
    var r := state + "@" + s.name.value;
    assert r[|state|] == '@';
    assert '@' !in BOOT && '@' !in EXIT;
    r
  }

  /** Every entry names a step. */
  predicate Named(q: seq<StepState>)
    decreases |q|
  {
    q == [] || (q[0].name.Some? && Named(q[1..]))
  }

  /** The labels of a run of step-naming entries, in order. */
  function Labels(q: seq<StepState>): (r: seq<string>)
    requires Named(q)
    ensures |r| == |q|
    ensures EXIT !in r
    decreases |q|
  {
    if q == [] then [] else [Label(q[0])] + Labels(q[1..])
  }

  /** The labels a step change out of `prev` emits before `start@...`: none when leaving BOOT. */
  function EndOf(prev: string): (r: seq<string>)
  {
    if prev == BOOT then [] else [END + "@" + prev]
  }

  /** A state annotation is emitted as it was queued and leaves the current step alone. */
  lemma ExpandAnnotation(current: Option<string>, req: StepState)
    requires req.state.Some?
    ensures Expand(current, req) == Expansion(current, Some([req]))
  {
  }

  /** A step change to the current step emits nothing and leaves the current step alone. */
  lemma ExpandDuplicate(current: Option<string>, req: StepState)
    requires req.state.None? && req.name == current
    ensures Expand(current, req) == Expansion(current, None)
  {
  }

  /** A step change from X to Y != X emits `end@X` (without delay) unless X is BOOT, then
      `start@Y` with the request's delay, and Y is current before either is emitted. */
  lemma ExpandStepChange(x: string, y: string, wait: int)
    requires x != y
    ensures var e := Expand(Some(x), StepState(Some(y), None, wait));
      && e.current == Some(y)
      && e.entries.Some?
      && (x != BOOT ==> e.entries.value == [StepState(Some(x), Some(END), -1), StepState(Some(y), Some(START), wait)])
      && (x == BOOT ==> e.entries.value == [StepState(Some(y), Some(START), wait)])
      && Labels(e.entries.value) == EndOf(x) + [START + "@" + y]
  {
  }

  /** The termination request unsets the current step and ends in an entry without a name. */
  lemma ExpandExit(x: string)
    ensures var e := Expand(Some(x), EXIT_REQUEST);
      && e.current == None
      && e.entries.Some?
      && e.entries.value == (if x != BOOT then [StepState(Some(x), Some(END), -1)] else []) + [StepState(None, Some(START), -1)]
  {
  }
}
