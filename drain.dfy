/** The drain loop of a Procaser as a function on the engine's state: pop a request,
    expand it, invoke the callback once per entry, and go on until the queue runs dry,
    a duplicate step change stops the loop, or the termination request is reached. */
module Drains {
  import opened Steps
  import opened Props

  /** One public call the callback makes while it runs. */
  datatype Call<V> =
    | CallNext(name: Option<string>, patch: map<string, V>, wait: int)
    | CallAssign(patch: map<string, V>)
    | CallSave

  /** The state of a Procaser between two callback invocations. `trace` holds every label
      passed to the callback so far and `heard` the bag passed with each of them, as it was
      when the callback started; `replies[k]` is what the callback does on its k-th coming
      invocation (nothing once the script runs out). */
  datatype Engine<V> = Engine(
    queue: seq<StepState>,
    current: Option<string>,
    stepString: Option<string>,
    savedStep: Option<string>,
    props: map<string, V>,
    exited: bool,
    trace: seq<string>,
    heard: seq<map<string, V>>,
    replies: seq<seq<Call<V>>>)

  /** `next` without the drain it may start: refused once exited, otherwise the patch is
      merged and the request goes to the back of the queue. */
  function Enqueue<V>(e: Engine<V>, req: StepState, patch: map<string, V>): (r: Engine<V>)
    ensures e.exited ==> r == e
    ensures !e.exited ==> r.queue == e.queue + [req] && r.props == Merge(e.props, patch)
    ensures r.(queue := e.queue, props := e.props) == e
  {
    if e.exited then e else e.(props := Merge(e.props, patch), queue := e.queue + [req])
  }

  /** The effect of one call made by the callback: `next` queues its step change and merges
      its patch unless the engine has exited, `assignProps` merges its patch even then, and
      `saveCurrentStep` saves the label. Nothing else changes. */
  function Apply<V>(e: Engine<V>, c: Call<V>): (r: Engine<V>)
    ensures r.(queue := e.queue, props := e.props, savedStep := e.savedStep) == e
    ensures c.CallNext? ==> r.savedStep == e.savedStep && (e.exited ==> r == e)
    ensures c.CallNext? && !e.exited ==>
      r.queue == e.queue + [StepState(c.name, None, c.wait)] && r.props == Merge(e.props, c.patch)
    ensures c.CallAssign? ==> r.queue == e.queue && r.savedStep == e.savedStep && r.props == Merge(e.props, c.patch)
    ensures c.CallSave? ==> r.queue == e.queue && r.props == e.props && r.savedStep == e.stepString
  {
    match c
    case CallNext(n, p, w) => Enqueue(e, StepState(n, None, w), p)
    case CallAssign(p) => e.(props := Merge(e.props, p))
    case CallSave => e.(savedStep := e.stepString)
  }

  /** The calls of one callback invocation, in order. They may queue requests, merge
      properties and save the label, and touch nothing else. */
  function Perform<V>(e: Engine<V>, calls: seq<Call<V>>): (r: Engine<V>)
    ensures r.replies == e.replies && r.trace == e.trace && r.heard == e.heard && r.exited == e.exited
    ensures r.current == e.current && r.stepString == e.stepString
    ensures e.queue <= r.queue
    ensures e.props.Keys <= r.props.Keys
    ensures r.savedStep == e.savedStep || r.savedStep == e.stepString
    decreases |calls|
  {
    if calls == [] then e else Perform(Apply(e, calls[0]), calls[1..])
  }

  /** One callback invocation with the label `stepString`: the label is recorded, then the
      callback performs its next reply. */
  function Invoke<V>(e: Engine<V>): (r: Engine<V>)
    requires e.stepString.Some?
    ensures r.trace == e.trace + [e.stepString.value] && r.heard == e.heard + [e.props]
    ensures r.exited == e.exited && r.current == e.current && r.stepString == e.stepString
    ensures e.queue <= r.queue
    ensures r.replies == if e.replies == [] then [] else e.replies[1..]
    ensures e.replies == [] ==> r.queue == e.queue
    ensures e.props.Keys <= r.props.Keys
  {
    var called := e.(trace := e.trace + [e.stepString.value], heard := e.heard + [e.props]);
    if e.replies == [] then called else Perform(called.(replies := e.replies[1..]), e.replies[0])
  }

  /** The entries of one expansion, in order (the `for` loop of the drain). An entry
      without a name terminates: the engine exits, EXIT is emitted and the rest is skipped. */
  function Emit<V>(e: Engine<V>, steps: seq<StepState>): (r: Engine<V>)
    ensures e.trace <= r.trace
    ensures e.queue <= r.queue
    ensures |r.replies| <= |e.replies|
    ensures |r.replies| == |e.replies| ==> r.queue == e.queue
    ensures steps != [] && e.replies != [] ==> |r.replies| < |e.replies|
    decreases |steps|
  {
    if steps == [] then e
    else if steps[0].name.None? then
      Invoke(e.(exited := true, current := Some(EXIT), stepString := Some(EXIT)))
    else
      Emit(Invoke(e.(stepString := Some(Label(steps[0])))), steps[1..])
  }

  /** The state right after the front request has been popped and classified: exactly the
      front request leaves the queue, a step change makes its target current (even before
      anything is emitted), and nothing else changes. */
  function Popped<V>(e: Engine<V>): (r: Engine<V>)
    requires e.queue != []
    ensures r.queue == e.queue[1..] && |r.queue| == |e.queue| - 1
    ensures r.current == if e.queue[0].state.None? then e.queue[0].name else e.current
    ensures r.(queue := e.queue, current := e.current) == e
  {
    e.(queue := e.queue[1..], current := Expand(e.current, e.queue[0]).current)
  }

  /** The drain loop and the queue reset that follows it. */
  function Drain<V>(e: Engine<V>): (r: Engine<V>)
    ensures e.trace <= r.trace
    ensures r.exited ==> r.queue == []
    ensures e.exited ==> r == e.(queue := [])
    decreases |e.replies|, |e.queue|
  {
    if e.exited then e.(queue := [])
    else if e.queue == [] then e
    else
      var x := Expand(e.current, e.queue[0]);
      if x.entries.None? || x.entries.value == [] then Popped(e)
      else Drain(Emit(Popped(e), x.entries.value))
  }

  /** The engine right after construction: BOOT is current and nothing has been emitted. */
  function Fresh<V>(given: Option<map<string, V>>, replies: seq<seq<Call<V>>>): (r: Engine<V>)
  {
    Engine([], Some(BOOT), Some(BOOT), None, Initial(given), false, [], [], replies)
  }

  /** Construction: the callback hears BOOT, then whatever it queued is drained. */
  function Boot<V>(given: Option<map<string, V>>, replies: seq<seq<Call<V>>>): (r: Engine<V>)
    ensures |r.trace| > 0 && r.trace[0] == BOOT
  {
    Drain(Invoke(Fresh(given, replies)))
  }
}
