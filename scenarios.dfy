/** Label histories of concrete runs, with the callback written as a script. In every run
    below the callback calls `exit()` only on BOOT or on `start@Y`, the last entry of its
    expansion, and that call is scripted as `next(undefined)`. There both orders agree: the
    nested drain of `exit()` and the queued termination request each emit `end@Y` and EXIT
    right after the label being handled, as nothing of the expansion is left to emit. */
module Scenarios {
  import opened Steps
  import opened Props
  import opened Drains
  import opened Procasers

  /** A property value of the runs below. */
  datatype Value = Text(s: string) | Flag(b: bool)

  /** A step change from X != BOOT to Y != X at the front of the queue, in the labels the
      runs below spell out. */
  lemma Change(e: Engine<Value>, x: string, y: string, endLabel: string, startLabel: string)
    requires !e.exited && e.current == Some(x) && e.queue != []
    requires e.queue[0].state.None? && e.queue[0].name == Some(y)
    requires x != BOOT && x != y && endLabel == END + "@" + x && startLabel == START + "@" + y
    ensures Drain(e) == Drain(Invoke(Invoke(e.(queue := e.queue[1..], current := Some(y),
      stepString := Some(endLabel))).(stepString := Some(startLabel))))
  {
    var e1 := DrainLemmas.StepChangeRound(e);
  }

  /** The step change out of BOOT at the front of the queue. */
  lemma Leave(e: Engine<Value>, y: string, startLabel: string)
    requires !e.exited && e.current == Some(BOOT) && e.queue != []
    requires e.queue[0].state.None? && e.queue[0].name == Some(y)
    requires y != BOOT && startLabel == START + "@" + y
    ensures Drain(e) == Drain(Invoke(e.(queue := e.queue[1..], current := Some(y), stepString := Some(startLabel))))
  {
    var e1 := DrainLemmas.StepChangeRound(e);
  }

  /** A step change from X != BOOT to Y != X at the front of the queue, where the callback
      is silent on `end@X` and makes one `next` call on `start@Y`. */
  lemma ChangeThenNext(e: Engine<Value>, x: string, y: string, endLabel: string, startLabel: string,
                       name: Option<string>, patch: map<string, Value>, wait: int)
    requires !e.exited && e.current == Some(x) && e.queue != []
    requires e.queue[0].state.None? && e.queue[0].name == Some(y)
    requires x != BOOT && x != y && endLabel == END + "@" + x && startLabel == START + "@" + y
    requires |e.replies| >= 2 && e.replies[0] == [] && e.replies[1] == [CallNext(name, patch, wait)]
    ensures Drain(e) == Drain(e.(queue := e.queue[1..] + [StepState(name, None, wait)], current := Some(y),
      stepString := Some(startLabel), props := Merge(e.props, patch), trace := e.trace + [endLabel, startLabel],
      heard := e.heard + [e.props, e.props], replies := e.replies[2..]))
  {
    Change(e, x, y, endLabel, startLabel);
    var a := e.(queue := e.queue[1..], current := Some(y), stepString := Some(endLabel));
    DrainLemmas.InvokeSilent(a);
    var b := Invoke(a).(stepString := Some(startLabel));
    assert b.replies[0] == [CallNext(name, patch, wait)] && b.replies[1..] == e.replies[2..];
    DrainLemmas.InvokeNext(b, name, patch, wait);
    assert b.trace + [startLabel] == e.trace + [endLabel, startLabel];
    assert b.heard + [b.props] == e.heard + [e.props, e.props];
  }

  /** The step change out of BOOT to Y at the front of the queue, where the callback makes one
      `next` call on `start@Y`. */
  lemma LeaveThenNext(e: Engine<Value>, y: string, startLabel: string,
                      name: Option<string>, patch: map<string, Value>, wait: int)
    requires !e.exited && e.current == Some(BOOT) && e.queue != []
    requires e.queue[0].state.None? && e.queue[0].name == Some(y)
    requires y != BOOT && startLabel == START + "@" + y
    requires |e.replies| >= 1 && e.replies[0] == [CallNext(name, patch, wait)]
    ensures Drain(e) == Drain(e.(queue := e.queue[1..] + [StepState(name, None, wait)], current := Some(y),
      stepString := Some(startLabel), props := Merge(e.props, patch), trace := e.trace + [startLabel],
      heard := e.heard + [e.props], replies := e.replies[1..]))
  {
    Leave(e, y, startLabel);
    var b := e.(queue := e.queue[1..], current := Some(y), stepString := Some(startLabel));
    DrainLemmas.InvokeNext(b, name, patch, wait);
  }

  /** The labels that end the last steps of the runs below. */
  lemma EndLabels()
    ensures EndOf("Work") == ["end@Work"]
    ensures EndOf("Write") == ["end@Write"]
    ensures EndOf("Complete") == ["end@Complete"]
  {
    assert "Work"[0] != BOOT[0] && "Write"[0] != BOOT[0] && "Complete"[0] != BOOT[0];
    assert END + "@" + "Work" == "end@Work";
    assert END + "@" + "Write" == "end@Write";
    assert END + "@" + "Complete" == "end@Complete";
  }

  /** An engine of the runs below between two rounds: nothing saved and not exited. */
  function Stage(queue: seq<StepState>, current: string, stepString: string, props: map<string, Value>,
                 trace: seq<string>, heard: seq<map<string, Value>>, replies: seq<seq<Call<Value>>>): (r: Engine<Value>)
  {
    Engine(queue, Some(current), Some(stepString), None, props, false, trace, heard, replies)
  }

  const STEP_ARRAY_SCRIPT: seq<seq<Call<Value>>> := [
    [CallNext(Some("Prepare"), map[], -1)],   // BOOT
    [CallNext(Some("Work"), map[], -1)],      // start@Prepare
    [],                                       // end@Prepare
    [CallNext(None, map[], -1)]               // start@Work
  ]

  const EMPTY: map<string, Value> := map[]

  /** BOOT requests Prepare. */
  lemma StepArrayBoot()
    ensures Invoke(Fresh(None, STEP_ARRAY_SCRIPT))
      == Stage([StepState(Some("Prepare"), None, -1)], BOOT, BOOT, EMPTY, [BOOT], [EMPTY], STEP_ARRAY_SCRIPT[1..])
  {
  }

  /** Leaving BOOT for Prepare emits only `start@Prepare`, on which Work is requested. */
  lemma StepArrayPrepare(t: seq<string>, h: seq<map<string, Value>>)
    ensures Drain(Stage([StepState(Some("Prepare"), None, -1)], BOOT, BOOT, EMPTY, t, h, STEP_ARRAY_SCRIPT[1..]))
      == Drain(Stage([StepState(Some("Work"), None, -1)], "Prepare", "start@Prepare", EMPTY,
                     t + ["start@Prepare"], h + [EMPTY], STEP_ARRAY_SCRIPT[2..]))
  {
    var e := Stage([StepState(Some("Prepare"), None, -1)], BOOT, BOOT, EMPTY, t, h, STEP_ARRAY_SCRIPT[1..]);
    assert e.replies[0] == [CallNext(Some("Work"), EMPTY, -1)] && e.replies[1..] == STEP_ARRAY_SCRIPT[2..];
    LeaveThenNext(e, "Prepare", "start@Prepare", Some("Work"), EMPTY, -1) by {
      assert "Prepare"[0] != BOOT[0];
      assert START + "@" + "Prepare" == "start@Prepare";
    }
    assert Merge(EMPTY, EMPTY) == EMPTY;
  }

  /** Prepare to Work emits `end@Prepare` and `start@Work`, on which termination is requested. */
  lemma StepArrayWork(t: seq<string>, h: seq<map<string, Value>>)
    ensures Drain(Stage([StepState(Some("Work"), None, -1)], "Prepare", "start@Prepare", EMPTY, t, h, STEP_ARRAY_SCRIPT[2..]))
      == Drain(Stage([EXIT_REQUEST], "Work", "start@Work", EMPTY,
                     t + ["end@Prepare", "start@Work"], h + [EMPTY, EMPTY], []))
  {
    var e := Stage([StepState(Some("Work"), None, -1)], "Prepare", "start@Prepare", EMPTY, t, h, STEP_ARRAY_SCRIPT[2..]);
    assert e.replies[0] == [] && e.replies[1] == [CallNext(None, EMPTY, -1)] && e.replies[2..] == [];
    ChangeThenNext(e, "Prepare", "Work", "end@Prepare", "start@Work", None, EMPTY, -1) by {
      assert "Prepare"[0] != BOOT[0] && "Prepare"[0] != "Work"[0];
      assert END + "@" + "Prepare" == "end@Prepare";
      assert START + "@" + "Work" == "start@Work";
    }
    assert Merge(EMPTY, EMPTY) == EMPTY;
  }

  /** BOOT, then Prepare, Work and termination, each requested by the callback. */
  lemma StepArrayHistory()
    ensures Boot(None, STEP_ARRAY_SCRIPT).trace ==
      [BOOT, "start@Prepare", "end@Prepare", "start@Work", "end@Work", EXIT]
    ensures Boot(None, STEP_ARRAY_SCRIPT).exited
  {
    StepArrayBoot();
    StepArrayPrepare([BOOT], [EMPTY]);
    StepArrayWork([BOOT] + ["start@Prepare"], [EMPTY] + [EMPTY]);
    var t := [BOOT] + ["start@Prepare"] + ["end@Prepare", "start@Work"];
    var w := Stage([EXIT_REQUEST], "Work", "start@Work", EMPTY, t, [EMPTY] + [EMPTY] + [EMPTY, EMPTY], []);
    EndLabels();
    DrainLemmas.DrainExitRequest(w);
    assert Drain(w).trace == t + ["end@Work"] + [EXIT];
    StepArrayLabels();
  }

  /** The labels of the run above, round by round, are the six labels of the test. */
  lemma StepArrayLabels()
    ensures [BOOT] + ["start@Prepare"] + ["end@Prepare", "start@Work"] + ["end@Work"] + [EXIT]
      == [BOOT, "start@Prepare", "end@Prepare", "start@Work", "end@Work", EXIT]
  {
  }

  const AFTER_EXITED_SCRIPT: seq<seq<Call<Value>>> := [
    [CallNext(None, map[], -1)],                                  // BOOT
    [CallNext(Some("Regret"), map["rewind" := Flag(true)], -1)]   // EXIT
  ]

  /** Terminating from BOOT emits EXIT straight away; the step change that the callback
      requests on EXIT is refused and its patch is not merged. */
  lemma AfterExitedHistory()
    ensures Boot(Some(map[]), AFTER_EXITED_SCRIPT).trace == [BOOT, EXIT]
    ensures Boot(Some(map[]), AFTER_EXITED_SCRIPT).props == map[]
  {
    var e1 := Invoke(Fresh(Some(map[]), AFTER_EXITED_SCRIPT));
    assert e1.queue == [EXIT_REQUEST] && e1.trace == [BOOT] && e1.current == Some(BOOT);
    DrainLemmas.DrainExitRequest(e1);
  }

  const FIRST_STEP_SCRIPT: seq<seq<Call<Value>>> := [
    [CallNext(Some("Prepare"), map[], -1)]   // BOOT
  ]

  /** The callback last hears `start@Prepare`, and the bag is the one it was given. */
  lemma FirstStepHistory(given: map<string, Value>)
    ensures Boot(Some(given), FIRST_STEP_SCRIPT).trace == [BOOT, "start@Prepare"]
    ensures Boot(Some(given), FIRST_STEP_SCRIPT).props == given
    ensures Boot(Some(given), FIRST_STEP_SCRIPT).current == Some("Prepare")
  {
    var e1 := Invoke(Fresh(Some(given), FIRST_STEP_SCRIPT));
    assert e1.queue == [StepState(Some("Prepare"), None, -1)] && e1.replies == [];
    assert DrainLemmas.Quiet(e1) && Label(StepState(Some("Prepare"), Some(START), -1)) == "start@Prepare";
    DrainLemmas.DrainStepChanges(e1, ["Prepare"]);
  }

  const PROPS_SCRIPT: seq<seq<Call<Value>>> := [
    [CallNext(Some("Prepare"), map["prepared" := Flag(true)], -1)],                                // BOOT
    [CallNext(Some("Write"), map["content" := Text("no idea"), "prepared" := Flag(false)], -1)],   // start@Prepare
    [],                                                                                            // end@Prepare
    [CallNext(None, map[], -1)]                                                                    // start@Write
  ]

  const PREPARED_PATCH: map<string, Value> := map["prepared" := Flag(true)]
  const WRITE_PATCH: map<string, Value> := map["content" := Text("no idea"), "prepared" := Flag(false)]

  /** BOOT requests Prepare with `prepared: true`, and leaving BOOT emits `start@Prepare`, on
      which Write is requested with `prepared: false`. */
  lemma PropsPrepare(given: map<string, Value>)
    ensures var prepared := Merge(given, PREPARED_PATCH);
      Boot(Some(given), PROPS_SCRIPT) == Drain(Stage([StepState(Some("Write"), None, -1)], "Prepare", "start@Prepare",
        Merge(prepared, WRITE_PATCH), [BOOT] + ["start@Prepare"], [given] + [prepared], PROPS_SCRIPT[2..]))
  {
    var prepared := Merge(given, PREPARED_PATCH);
    assert PROPS_SCRIPT[0] == [CallNext(Some("Prepare"), PREPARED_PATCH, -1)];
    var e := Invoke(Fresh(Some(given), PROPS_SCRIPT));
    assert e == Stage([StepState(Some("Prepare"), None, -1)], BOOT, BOOT, prepared, [BOOT], [given], PROPS_SCRIPT[1..]);
    assert e.replies[0] == [CallNext(Some("Write"), WRITE_PATCH, -1)] && e.replies[1..] == PROPS_SCRIPT[2..];
    LeaveThenNext(e, "Prepare", "start@Prepare", Some("Write"), WRITE_PATCH, -1) by {
      assert "Prepare"[0] != BOOT[0];
      assert START + "@" + "Prepare" == "start@Prepare";
    }
  }

  /** Prepare to Write emits `end@Prepare` and `start@Write`, on which termination is requested. */
  lemma PropsWrite(written: map<string, Value>, t: seq<string>, h: seq<map<string, Value>>)
    ensures Drain(Stage([StepState(Some("Write"), None, -1)], "Prepare", "start@Prepare", written, t, h, PROPS_SCRIPT[2..]))
      == Drain(Stage([EXIT_REQUEST], "Write", "start@Write", written,
                     t + ["end@Prepare", "start@Write"], h + [written, written], []))
  {
    var e := Stage([StepState(Some("Write"), None, -1)], "Prepare", "start@Prepare", written, t, h, PROPS_SCRIPT[2..]);
    assert e.replies[0] == [] && e.replies[1] == [CallNext(None, map[], -1)] && e.replies[2..] == [];
    ChangeThenNext(e, "Prepare", "Write", "end@Prepare", "start@Write", None, map[], -1) by {
      assert "Prepare"[0] != BOOT[0] && "Prepare"[0] != "Write"[0];
      assert END + "@" + "Prepare" == "end@Prepare";
      assert START + "@" + "Write" == "start@Write";
    }
    assert Merge(written, map[]) == written;
  }

  /** The bag after both patches: the later value of `prepared` wins, `content` is added,
      and every other key of the given bag keeps its value. */
  lemma PropsBag(given: map<string, Value>)
    ensures var bag := Merge(Merge(given, PREPARED_PATCH), WRITE_PATCH);
      && bag.Keys == given.Keys + {"prepared", "content"}
      && bag["prepared"] == Flag(false) && bag["content"] == Text("no idea")
      && (forall k :: k in given && k != "prepared" && k != "content" ==> bag[k] == given[k])
  {
    assert WRITE_PATCH.Keys == {"content", "prepared"};
    assert PREPARED_PATCH.Keys == {"prepared"};
  }

  /** Each accepted request merges its patch, and the run ends in EXIT. BOOT hears the given
      bag, `start@Prepare` hears it with `prepared: true` added, and `start@Write` and every
      later label hear both patches merged in order. */
  lemma PropsHistory(given: map<string, Value>)
    ensures var r := Boot(Some(given), PROPS_SCRIPT);
      && r.trace == [BOOT, "start@Prepare", "end@Prepare", "start@Write", "end@Write", EXIT]
      && r.props == Merge(Merge(given, PREPARED_PATCH), WRITE_PATCH)
      && var bag := r.props;
         r.heard == [given, Merge(given, PREPARED_PATCH), bag, bag, bag, bag]
  {
    var prepared := Merge(given, PREPARED_PATCH);
    var written := Merge(prepared, WRITE_PATCH);
    PropsPrepare(given);
    PropsWrite(written, [BOOT] + ["start@Prepare"], [given] + [prepared]);
    var t := [BOOT] + ["start@Prepare"] + ["end@Prepare", "start@Write"];
    var h := [given] + [prepared] + [written, written];
    var w := Stage([EXIT_REQUEST], "Write", "start@Write", written, t, h, []);
    assert DrainLemmas.Quiet(w);
    EndLabels();
    DrainLemmas.DrainExitRequest(w);
    assert Drain(w).trace == t + ["end@Write"] + [EXIT];
    assert Drain(w).heard == h + [written, written];
    PropsLabels(given, prepared, written);
  }

  /** The labels and bags of the run above, round by round, as the test lists them. */
  lemma PropsLabels(given: map<string, Value>, prepared: map<string, Value>, written: map<string, Value>)
    ensures [BOOT] + ["start@Prepare"] + ["end@Prepare", "start@Write"] + ["end@Write"] + [EXIT]
      == [BOOT, "start@Prepare", "end@Prepare", "start@Write", "end@Write", EXIT]
    ensures [given] + [prepared] + [written, written] + [written, written]
      == [given, prepared, written, written, written, written]
  {
  }

  const WAIT_TIMER_SCRIPT: seq<seq<Call<Value>>> := [
    [CallNext(Some("Request"), map[], -1)],     // BOOT
    [],                                         // start@Request: the request is sent
    [CallNext(Some("Success"), map[], -1)],     // confirm@Request
    [],                                         // end@Request
    [CallNext(Some("Complete"), map[], 1000)],  // start@Success
    [],                                         // end@Success
    [CallNext(None, map[], -1)]                 // start@Complete
  ]

  /** Construction ends on `start@Request`, with Request current and nothing queued. */
  lemma WaitTimerBoot()
    ensures Boot(None, WAIT_TIMER_SCRIPT)
      == Stage([], "Request", "start@Request", EMPTY, [BOOT] + ["start@Request"], [EMPTY] + [EMPTY], WAIT_TIMER_SCRIPT[2..])
  {
    var e := Invoke(Fresh(None, WAIT_TIMER_SCRIPT));
    assert e == Stage([StepState(Some("Request"), None, -1)], BOOT, BOOT, EMPTY, [BOOT], [EMPTY], WAIT_TIMER_SCRIPT[1..]);
    Leave(e, "Request", "start@Request") by {
      assert "Request"[0] != BOOT[0];
      assert START + "@" + "Request" == "start@Request";
    }
    var b := e.(queue := [], current := Some("Request"), stepString := Some("start@Request"));
    assert b.replies[0] == [] && b.replies[1..] == WAIT_TIMER_SCRIPT[2..];
    DrainLemmas.InvokeSilent(b);
  }

  /** The outside confirmation is emitted as `confirm@Request`, on which Success is requested. */
  lemma WaitTimerConfirm(t: seq<string>, h: seq<map<string, Value>>)
    ensures Drain(Enqueue(Stage([], "Request", "start@Request", EMPTY, t, h, WAIT_TIMER_SCRIPT[2..]),
                          StepState(Some("Request"), Some(CONFIRM), -1), EMPTY))
      == Drain(Stage([StepState(Some("Success"), None, -1)], "Request", "confirm@Request", EMPTY,
                     t + ["confirm@Request"], h + [EMPTY], WAIT_TIMER_SCRIPT[3..]))
  {
    var confirm := StepState(Some("Request"), Some(CONFIRM), -1);
    var e := Enqueue(Stage([], "Request", "start@Request", EMPTY, t, h, WAIT_TIMER_SCRIPT[2..]), confirm, EMPTY);
    assert Merge(EMPTY, EMPTY) == EMPTY;
    assert e == Stage([confirm], "Request", "start@Request", EMPTY, t, h, WAIT_TIMER_SCRIPT[2..]);
    assert Expand(e.current, confirm).entries == Some([confirm]);
    assert Label(confirm) == "confirm@Request";
    var p := Popped(e).(stepString := Some("confirm@Request"));
    assert p.replies[0] == [CallNext(Some("Success"), EMPTY, -1)] && p.replies[1..] == WAIT_TIMER_SCRIPT[3..];
    DrainLemmas.InvokeNext(p, Some("Success"), EMPTY, -1);
    assert Emit(Popped(e), [confirm]) == Emit(Invoke(p), []);
  }

  /** Request to Success emits `end@Request` and `start@Success`, on which Complete is
      requested with a delay. */
  lemma WaitTimerSuccess(t: seq<string>, h: seq<map<string, Value>>)
    ensures Drain(Stage([StepState(Some("Success"), None, -1)], "Request", "confirm@Request", EMPTY, t, h, WAIT_TIMER_SCRIPT[3..]))
      == Drain(Stage([StepState(Some("Complete"), None, 1000)], "Success", "start@Success", EMPTY,
                     t + ["end@Request", "start@Success"], h + [EMPTY, EMPTY], WAIT_TIMER_SCRIPT[5..]))
  {
    var e := Stage([StepState(Some("Success"), None, -1)], "Request", "confirm@Request", EMPTY, t, h, WAIT_TIMER_SCRIPT[3..]);
    assert e.replies[0] == [] && e.replies[1] == [CallNext(Some("Complete"), EMPTY, 1000)];
    assert e.replies[2..] == WAIT_TIMER_SCRIPT[5..];
    ChangeThenNext(e, "Request", "Success", "end@Request", "start@Success", Some("Complete"), EMPTY, 1000) by {
      assert "Request"[0] != BOOT[0] && "Request"[0] != "Success"[0];
      assert END + "@" + "Request" == "end@Request";
      assert START + "@" + "Success" == "start@Success";
    }
    assert Merge(EMPTY, EMPTY) == EMPTY;
  }

  /** Success to Complete emits `end@Success` and, after the delay, `start@Complete`, on which
      termination is requested. */
  lemma WaitTimerComplete(t: seq<string>, h: seq<map<string, Value>>)
    ensures Drain(Stage([StepState(Some("Complete"), None, 1000)], "Success", "start@Success", EMPTY, t, h, WAIT_TIMER_SCRIPT[5..]))
      == Drain(Stage([EXIT_REQUEST], "Complete", "start@Complete", EMPTY,
                     t + ["end@Success", "start@Complete"], h + [EMPTY, EMPTY], []))
  {
    var e := Stage([StepState(Some("Complete"), None, 1000)], "Success", "start@Success", EMPTY, t, h, WAIT_TIMER_SCRIPT[5..]);
    assert e.replies[0] == [] && e.replies[1] == [CallNext(None, EMPTY, -1)] && e.replies[2..] == [];
    ChangeThenNext(e, "Success", "Complete", "end@Success", "start@Complete", None, EMPTY, -1) by {
      assert "Success"[0] != BOOT[0] && "Success"[0] != "Complete"[0];
      assert END + "@" + "Success" == "end@Success";
      assert START + "@" + "Complete" == "start@Complete";
    }
    assert Merge(EMPTY, EMPTY) == EMPTY;
  }

  /** From the end of construction, the outside confirmation drives the run through Success
      and Complete to EXIT. */
  lemma WaitTimerRun()
    ensures Drain(Enqueue(Stage([], "Request", "start@Request", EMPTY, [BOOT] + ["start@Request"], [EMPTY] + [EMPTY],
                                WAIT_TIMER_SCRIPT[2..]), StepState(Some("Request"), Some(CONFIRM), -1), EMPTY)).trace
      == [BOOT, "start@Request", "confirm@Request", "end@Request",
          "start@Success", "end@Success", "start@Complete", "end@Complete", EXIT]
  {
    var t0, h0 := [BOOT] + ["start@Request"], [EMPTY] + [EMPTY];
    WaitTimerConfirm(t0, h0);
    var t1, h1 := t0 + ["confirm@Request"], h0 + [EMPTY];
    WaitTimerSuccess(t1, h1);
    var t2, h2 := t1 + ["end@Request", "start@Success"], h1 + [EMPTY, EMPTY];
    WaitTimerComplete(t2, h2);
    var t3 := t2 + ["end@Success", "start@Complete"];
    var w := Stage([EXIT_REQUEST], "Complete", "start@Complete", EMPTY, t3, h2 + [EMPTY, EMPTY], []);
    EndLabels();
    DrainLemmas.DrainExitRequest(w);
    assert Drain(w).trace == t3 + ["end@Complete"] + [EXIT];
    WaitTimerLabels();
  }

  /** The labels of the run above, round by round, are the nine labels of the test. */
  lemma WaitTimerLabels()
    ensures [BOOT] + ["start@Request"] + ["confirm@Request"] + ["end@Request", "start@Success"]
        + ["end@Success", "start@Complete"] + ["end@Complete"] + [EXIT]
      == [BOOT, "start@Request", "confirm@Request", "end@Request",
          "start@Success", "end@Success", "start@Complete", "end@Complete", EXIT]
  {
  }

  /** The callback requests Request on BOOT; the confirmation arrives from outside once
      construction is over, and the run goes on through Success and Complete to EXIT. */
  method WaitTimer() returns (history: seq<string>)
    ensures history == [BOOT, "start@Request", "confirm@Request", "end@Request",
      "start@Success", "end@Success", "start@Complete", "end@Complete", EXIT]
  {
    var proc := new Procaser<Value>(None, WAIT_TIMER_SCRIPT);
    WaitTimerBoot();
    assert proc.currentStepName == Some("Request") && !proc.exited;
    proc.Confirm(EMPTY, -1);
    WaitTimerRun();
    history := proc.trace;
  }
}
