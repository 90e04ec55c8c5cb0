/** What a reader of a Pi session is shown of the model's messages, and how its tools and turns end: driver/pi.go.
    Everything here is read off the steps of a run and the turns they opened. */
module PiReplies {
  import opened Options
  import opened AgentEvents
  import opened Sequences
  import opened PiSession

  function After(steps: seq<Step>): State {
    Run(INIT, steps)
  }

  lemma {:induction false} RunOneMore(s: State, steps: seq<Step>, step: Step)
    ensures Run(s, steps + [step]) == Next(Run(s, steps), step)
    decreases |steps|
  {
    if steps == [] {
      assert [step][1..] == [];
      assert Run(Next(s, step), []) == Next(s, step);
    } else {
      RunOneMore(Next(s, steps[0]), steps[1..], step);
      assert (steps + [step])[1..] == steps[1..] + [step];
    }
  }

  // What the steps of a run should show.

  /** The step opened a turn. */
  predicate Began(steps: seq<Step>, step: Step) {
    After(steps + [step]).turnIndex != After(steps).turnIndex
  }

  /** A text delta with text in it came since the last start or end of a message and the last start of a turn. */
  predicate Streamed(steps: seq<Step>) {
    steps != [] &&
    var init, step := steps[..|steps| - 1], steps[|steps| - 1];
    (step.TextDelta? && step.delta != "") ||
    (Streamed(init) && !step.MessageStart? && !step.MessageEnd? && !Began(init, step))
  }

  /** The caller interrupted the turn that is open. */
  predicate Interrupted(steps: seq<Step>) {
    steps != [] && After(steps).turnActive &&
    var init, step := steps[..|steps| - 1], steps[|steps| - 1];
    step.Interrupt? || (Interrupted(init) && !Began(init, step))
  }

  /** The last message that ended in the turn that is open, if one did. */
  function LastMessage(steps: seq<Step>): Option<Step> {
    if steps == [] then None
    else
      var init, step := steps[..|steps| - 1], steps[|steps| - 1];
      if Began(init, step) then None
      else if step.MessageEnd? then Some(step)
      else LastMessage(init)
  }

  /** What was shown, and what one more step adds. */
  function Added(shown: seq<Event>, streamed: bool, step: Step): seq<Event> {
    match step
    case TextDelta(delta) => if delta != "" then shown + [Text(delta)] else shown
    case ThinkingDelta(delta) => if delta != "" then shown + [Reasoning(delta)] else shown
    case MessageEnd(text, _, _) => if text != "" && !streamed then shown + [Text(text)] else shown
    case ToolStart(id, name) => shown + [AgentEvents.ToolStarted(id, name)]
    case ToolEnd(id, name, isError, result) =>
      shown + [ToolCompleted(id, if name != "" then name else NameOf(shown, id),
                             if isError then ToolStatus.Failed else ToolStatus.Completed, result)]
    case _ => shown
  }

  /** All a reader should be shown of what happened inside turns, in order. */
  function Script(steps: seq<Step>): seq<Event> {
    if steps == [] then []
    else
      var init := steps[..|steps| - 1];
      Added(Script(init), Streamed(init), steps[|steps| - 1])
  }

  // One step.

  lemma EmitIsHeard(trace: seq<Event>, e: Event)
    ensures Heard(trace + [e]) == if IsBoundary(e) then Heard(trace) else Heard(trace) + [Plain(e)]
  {
    assert (trace + [e])[..|trace|] == trace;
    NoMore(Heard(trace));
  }

  lemma OpenShowsNothing(s: State)
    ensures Heard(Open(s).trace) == Heard(s.trace)
    ensures Open(s).tools == s.tools
  {
    EmitIsHeard(s.trace, TurnStarted(s.turnIndex + 1));
  }

  /** An event inside the turn that is open or opened for it. */
  lemma ContentIsShown(trace: seq<Event>, tools: map<string, string>, e: Event, shown: seq<Event>)
    requires Heard(trace) == shown && tools == UnderWay(shown) && IsContent(e)
    ensures Heard(trace + [e]) == shown + [Plain(e)]
    ensures UnderWay(shown + [Plain(e)]) ==
            if e.ToolStarted? then tools[e.id := e.name] else if e.ToolCompleted? then tools - {e.id} else tools
  {
    EmitIsHeard(trace, e);
    UnderWayAfter(shown, Plain(e));
  }

  predicate IsContentStep(step: Step) {
    step.TextDelta? || step.ThinkingDelta? || step.MessageEnd? || step.ToolStart? || step.ToolEnd?
  }

  predicate Shows(s: State, shown: seq<Event>) {
    Heard(s.trace) == shown && s.tools == UnderWay(shown)
  }

  lemma DeltaShows(s: State, step: Step, shown: seq<Event>)
    requires Shows(s, shown) && (step.TextDelta? || step.ThinkingDelta?)
    ensures Shows(Next(s, step), Added(shown, s.streamedText, step))
  {
    if step.delta != "" {
      OpenShowsNothing(s);
      EmittedShows(Open(s), Next(s, step), if step.TextDelta? then Text(step.delta) else Reasoning(step.delta), shown);
    }
  }

  /** From o, where nothing more was shown, a step emitted e. */
  lemma EmittedShows(o: State, t: State, e: Event, shown: seq<Event>)
    requires Shows(o, shown) && IsContent(e) && t.trace == o.trace + [e]
    requires t.tools == if e.ToolStarted? then o.tools[e.id := e.name] else if e.ToolCompleted? then o.tools - {e.id} else o.tools
    ensures Shows(t, shown + [Plain(e)])
  {
    ContentIsShown(o.trace, o.tools, e, shown);
  }

  lemma MessageEndShows(s: State, text: string, stop: string, error: string, shown: seq<Event>)
    requires Shows(s, shown) && !s.streamedText && text != ""
    ensures Shows(Next(s, MessageEnd(text, stop, error)), shown + [Text(text)])
  {
    var t := s.(lastStop := stop, lastError := error);
    OpenShowsNothing(t);
    EmittedShows(Open(t), Next(s, MessageEnd(text, stop, error)), Text(text), shown);
  }

  lemma ToolStartShows(s: State, id: string, name: string, shown: seq<Event>)
    requires Shows(s, shown)
    ensures Shows(Next(s, ToolStart(id, name)), shown + [AgentEvents.ToolStarted(id, name)])
  {
    OpenShowsNothing(s);
    ToolStartIs(s, id, name);
    EmittedShows(Open(s), Next(s, ToolStart(id, name)), AgentEvents.ToolStarted(id, name), shown);
  }

  lemma ToolStartIs(s: State, id: string, name: string)
    ensures Next(s, ToolStart(id, name)).trace == Open(s).trace + [AgentEvents.ToolStarted(id, name)]
    ensures Next(s, ToolStart(id, name)).tools == Open(s).tools[id := name]
  {
  }

  lemma ToolEndIs(s: State, step: Step)
    requires step.ToolEnd?
    ensures Next(s, step).trace == Open(s).trace + [Completion(Open(s), step.id, step.name, step.isError, step.result)]
    ensures Next(s, step).tools == Open(s).tools - {step.id}
  {
  }

  lemma CompletionIs(o: State, step: Step, shown: seq<Event>)
    requires step.ToolEnd? && o.tools == UnderWay(shown)
    ensures Added(shown, false, step) ==
            shown + [Plain(Completion(o, step.id, step.name, step.isError, step.result))]
  {
  }

  lemma ToolEndShows(s: State, step: Step, shown: seq<Event>)
    requires Shows(s, shown) && step.ToolEnd?
    ensures Shows(Next(s, step), Added(shown, false, step))
  {
    OpenShowsNothing(s);
    var o := Open(s);
    var e := Completion(o, step.id, step.name, step.isError, step.result);
    ToolEndIs(s, step);
    CompletionIs(o, step, shown);
    CompletionShows(o, Next(s, step), e, shown);
  }

  lemma CompletionShows(o: State, t: State, e: Event, shown: seq<Event>)
    requires Shows(o, shown) && e.ToolCompleted? && t.trace == o.trace + [e] && t.tools == o.tools - {e.id}
    ensures Shows(t, shown + [Plain(e)])
  {
    EmittedShows(o, t, e, shown);
  }

  lemma EndShows(s: State, shown: seq<Event>, e: Event)
    requires Heard(s.trace) == shown && IsBoundary(e)
    ensures Heard(Emit(s, e).trace) == shown
  {
    EmitIsHeard(s.trace, e);
  }

  lemma FailShows(s: State, shown: seq<Event>, message: string, code: string)
    requires Shows(s, shown)
    ensures Shows(Fail(s, message, code), shown)
  {
    EndShows(s, shown, Error(message, code));
  }

  lemma CompleteShows(s: State, shown: seq<Event>, stop: string)
    requires Shows(s, shown)
    ensures Shows(Complete(s, stop), shown)
  {
    EndShows(s, shown, TurnCompleted(s.turnIndex, s.toolCount, s.hasOutput, stop));
  }

  lemma CompactDoneShows(s: State, shown: seq<Event>, outcome: Compaction)
    requires Shows(s, shown)
    ensures Shows(Next(s, CompactDone(outcome)), shown)
  {
    var t := s.(compacting := false);
    CompleteShows(t, shown, "compacted");
    CompleteShows(t, shown, "interrupted");
    if outcome.Refused? || outcome.Broken? {
      FailShows(t, shown, "pi could not compact: " + outcome.message, "compaction_failed");
    }
  }

  lemma SettledShows(s: State, shown: seq<Event>)
    requires Shows(s, shown)
    ensures Shows(Next(s, Settled), shown)
  {
    CompleteShows(s, shown, "interrupted");
    CompleteShows(s, shown, s.lastStop);
    FailShows(s, shown, if s.lastError == "" then "pi's model call failed" else s.lastError, "agent_error");
  }

  lemma OtherShows(s: State, step: Step, shown: seq<Event>)
    requires Shows(s, shown) && !IsContentStep(step)
    ensures Shows(Next(s, step), shown)
  {
    OpenShowsNothing(s);
    match step
    case Rejected(_, message) => FailShows(s, shown, "pi rejected the prompt: " + message, "prompt_rejected");
    case Handled(_) => CompleteShows(s, shown, "handled");
    case CompactDone(outcome) => CompactDoneShows(s, shown, outcome);
    case Settled => SettledShows(s, shown);
    case Exit => EndShows(s, shown, Error("pi exited before the turn finished", "process_exited"));
    case _ =>
  }

  lemma StepShows(s: State, step: Step, shown: seq<Event>)
    requires Shows(s, shown)
    ensures Shows(Next(s, step), Added(shown, s.streamedText, step))
  {
    if step.TextDelta? || step.ThinkingDelta? {
      DeltaShows(s, step, shown);
    } else if step.MessageEnd? {
      if step.text != "" && !s.streamedText {
        MessageEndShows(s, step.text, step.stop, step.error, shown);
      }
    } else if step.ToolStart? {
      ToolStartShows(s, step.id, step.name, shown);
    } else if step.ToolEnd? {
      ToolEndShows(s, step, shown);
    } else {
      OtherShows(s, step, shown);
    }
  }

  // The flags after a step, told by whether it opened a turn.

  predicate CanEnd(step: Step) {
    step.Rejected? || step.Handled? || step.CompactDone? || step.Settled? || step.Exit?
  }

  /** All but the turn's end is as it was. */
  predicate Leaves(s: State, t: State) {
    && t.turnIndex == s.turnIndex && t.streamedText == s.streamedText
    && t.lastStop == s.lastStop && t.lastError == s.lastError
    && (t.turnActive ==> s.turnActive && t.interrupting == s.interrupting)
  }

  lemma CompleteLeaves(s: State, stop: string)
    ensures Leaves(s, Complete(s, stop))
  {
  }

  lemma FailLeaves(s: State, message: string, code: string)
    ensures Leaves(s, Fail(s, message, code))
  {
  }

  lemma CompactDoneLeaves(s: State, outcome: Compaction)
    ensures Leaves(s, Next(s, CompactDone(outcome)))
  {
    var t := s.(compacting := false);
    CompleteLeaves(t, "compacted");
    CompleteLeaves(t, "interrupted");
    if outcome.Refused? || outcome.Broken? {
      FailLeaves(t, "pi could not compact: " + outcome.message, "compaction_failed");
    }
  }

  lemma SettledLeaves(s: State)
    ensures Leaves(s, Next(s, Settled))
  {
    CompleteLeaves(s, "interrupted");
    CompleteLeaves(s, s.lastStop);
    FailLeaves(s, if s.lastError == "" then "pi's model call failed" else s.lastError, "agent_error");
  }

  lemma EndLeaves(s: State, step: Step)
    requires CanEnd(step)
    ensures Leaves(s, Next(s, step))
  {
    match step
    case Rejected(_, message) => FailLeaves(s, "pi rejected the prompt: " + message, "prompt_rejected");
    case Handled(_) => CompleteLeaves(s, "handled");
    case CompactDone(outcome) => CompactDoneLeaves(s, outcome);
    case Settled => SettledLeaves(s);
    case Exit =>
  }

  lemma StreamedAfter(s: State, step: Step)
    ensures var t := Next(s, step);
            t.streamedText == ((step.TextDelta? && step.delta != "") ||
                               (s.streamedText && !step.MessageStart? && !step.MessageEnd? && t.turnIndex == s.turnIndex))
  {
    if CanEnd(step) {
      EndLeaves(s, step);
    }
  }

  lemma InterruptedAfter(s: State, step: Step)
    ensures var t := Next(s, step);
            (t.turnActive && t.interrupting) ==
            (t.turnActive && (step.Interrupt? || (s.turnActive && s.interrupting && t.turnIndex == s.turnIndex)))
  {
    if CanEnd(step) {
      EndLeaves(s, step);
    }
  }

  /** Of a step that leaves a turn open. */
  predicate StopFollows(s: State, step: Step, t: State) {
    if t.turnIndex != s.turnIndex then t.lastStop == "" && t.lastError == ""
    else if step.MessageEnd? then s.turnActive && t.lastStop == step.stop && t.lastError == step.error
    else s.turnActive && t.lastStop == s.lastStop && t.lastError == s.lastError
  }

  lemma StopAfter(s: State, step: Step)
    requires Next(s, step).turnActive
    ensures StopFollows(s, step, Next(s, step))
  {
    if CanEnd(step) {
      EndLeaves(s, step);
    } else if step.MessageEnd? {
      StopAfterMessage(s, step);
    }
  }

  lemma StopAfterMessage(s: State, step: Step)
    requires step.MessageEnd? && Next(s, step).turnActive
    ensures StopFollows(s, step, Next(s, step))
  {
  }

  lemma {:induction false} EveryRunShows(steps: seq<Step>)
    ensures Shows(After(steps), Script(steps)) && After(steps).streamedText == Streamed(steps)
  {
    if steps != [] {
      var init, step := steps[..|steps| - 1], steps[|steps| - 1];
      EveryRunShows(init);
      assert steps == init + [step];
      RunOneMore(INIT, init, step);
      StreamedAfter(After(init), step);
      StepShows(After(init), step, Script(init));
    }
  }

  predicate StopsAs(s: State, last: Option<Step>) {
    if last.None? then s.lastStop == "" && s.lastError == ""
    else last.value.MessageEnd? && s.lastStop == last.value.stop && s.lastError == last.value.error
  }

  lemma {:induction false} EveryRunEnds(steps: seq<Step>)
    ensures var s := After(steps);
            (s.turnActive && s.interrupting) == Interrupted(steps) && (s.turnActive ==> StopsAs(s, LastMessage(steps)))
  {
    if steps != [] {
      var init, step := steps[..|steps| - 1], steps[|steps| - 1];
      EveryRunEnds(init);
      assert steps == init + [step];
      RunOneMore(INIT, init, step);
      InterruptedAfter(After(init), step);
      if After(steps).turnActive {
        StopAfter(After(init), step);
      }
    }
  }

  /** Any sequence of handler steps: the events inside turns are the non-empty deltas, the text of each message none of
      whose deltas carried text, and the tools, each completed under the name it came with or was started with; all in
      order, none lost and none twice. */
  lemma EverythingIsShownOnce(steps: seq<Step>)
    ensures Heard(After(steps).trace) == Script(steps)
  {
    EveryRunShows(steps);
  }

  /** A tool that failed is cancelled exactly when the caller interrupted the turn it ends in. */
  lemma CancelledIff(steps: seq<Step>, id: string, name: string, result: string)
    ensures var t := After(steps + [ToolEnd(id, name, true, result)]);
            && |t.trace| > 0 && t.trace[|t.trace| - 1].ToolCompleted?
            && t.trace[|t.trace| - 1].status == if Interrupted(steps) then Cancelled else ToolStatus.Failed
  {
    EveryRunEnds(steps);
    RunOneMore(INIT, steps, ToolEnd(id, name, true, result));
  }

  /** The event that ends a turn as its last message did, unless the caller interrupted it. */
  predicate EndsAs(e: Event, interrupted: bool, last: Option<Step>) {
    var stop := if last.Some? && last.value.MessageEnd? then last.value.stop else "";
    if interrupted || stop == STOP_ABORTED then e.TurnCompleted? && e.stop == "interrupted"
    else if stop == STOP_ERROR then
      e.Error? && (last.Some? && last.value.MessageEnd? && last.value.error != "" ==> e.message == last.value.error)
    else e.TurnCompleted? && e.stop == stop
  }

  /** How a turn ends once the agent has settled: by one event, which says what the last message of the turn said. */
  lemma HowATurnEnds(steps: seq<Step>)
    requires After(steps).turnActive && !After(steps).compacting
    ensures var s, t := After(steps), After(steps + [Settled]);
            && |t.trace| == |s.trace| + 1 && t.trace[..|s.trace|] == s.trace && !t.turnActive
            && EndsAs(t.trace[|s.trace|], Interrupted(steps), LastMessage(steps))
  {
    EveryRunEnds(steps);
    RunOneMore(INIT, steps, Settled);
    SettledEndsAs(After(steps), LastMessage(steps));
  }

  lemma SettledEndsAs(s: State, last: Option<Step>)
    requires s.turnActive && !s.compacting && StopsAs(s, last)
    ensures var t := Next(s, Settled);
            && |t.trace| == |s.trace| + 1 && t.trace[..|s.trace|] == s.trace && !t.turnActive
            && EndsAs(t.trace[|s.trace|], s.interrupting, last)
  {
  }
}
