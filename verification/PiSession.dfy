/** The turn state of driver/pi.go: every handler is one critical section under the session's mutex, so a session is a
    sequence of the steps below in any order. */
module PiSession {
  import opened Options
  import opened AgentEvents

  /** How pi answered the compact command. */
  datatype Compaction = Compacted | Refused(message: string) | Broken(message: string) | StreamClosed

  const STOP_ABORTED := "aborted"
  const STOP_ERROR := "error"

  datatype Step =
    | Prompt                                       // Prompt, for anything but /compact
    | Rejected(turn: int, message: string)         // awaitPrompt: pi refused the prompt
    | Handled(turn: int)                           // awaitPrompt: accepted, and pi is idle with no run behind it
    | Compact                                      // compact, up to its unlock
    | CompactDone(outcome: Compaction)             // compact's goroutine
    | Interrupt
    | AgentStart
    | MessageStart
    | TextDelta(delta: string)
    | ThinkingDelta(delta: string)
    | MessageEnd(text: string, stop: string, error: string)
    | ToolStart(id: string, name: string)
    | ToolEnd(id: string, name: string, isError: bool, result: string)
    | Settled
    | Exit                                         // watch, under the lock

  /** compactTurn is the turn the running compaction opened; trace is what has been emitted. */
  datatype State = State(
    turnActive: bool, turnIndex: int, runSeen: bool, toolCount: nat, hasOutput: bool, streamedText: bool,
    interrupting: bool, compacting: bool, lastStop: string, lastError: string, tools: map<string, string>,
    compactTurn: int, trace: seq<Event>)

  const INIT := State(false, 0, false, 0, false, false, false, false, "", "", map[], 0, [])

  function Emit(s: State, e: Event): State {
    s.(trace := s.trace + [e])
  }

  function Open(s: State): State {
    if s.turnActive then s
    else
      var t := s.(turnActive := true, turnIndex := s.turnIndex + 1, runSeen := false, toolCount := 0,
                  hasOutput := false, streamedText := false, interrupting := false, lastStop := "", lastError := "");
      Emit(t, TurnStarted(t.turnIndex))
  }

  function Complete(s: State, stop: string): State {
    Emit(s.(turnActive := false, interrupting := false), TurnCompleted(s.turnIndex, s.toolCount, s.hasOutput, stop))
  }

  function Fail(s: State, message: string, code: string): State {
    Emit(s.(turnActive := false, interrupting := false), Error(message, code))
  }

  function Completion(s: State, id: string, name: string, isError: bool, result: string): Event {
    ToolCompleted(
      id,
      if name != "" then name else if id in s.tools then s.tools[id] else "",
      if !isError then ToolStatus.Completed else if s.interrupting then Cancelled else ToolStatus.Failed,
      result)
  }

  /** The rejected prompt's turn is still the current one and pi has started no run in it. */
  predicate RejectionEndsTurn(s: State, turn: int) {
    s.turnActive && s.turnIndex == turn && !s.runSeen
  }

  function Next(s: State, step: Step): State {
    match step
    case Prompt => Open(s)
    case Rejected(turn, message) =>
      if RejectionEndsTurn(s, turn) then Fail(s, "pi rejected the prompt: " + message, "prompt_rejected") else s
    case Handled(turn) =>
      if RejectionEndsTurn(s, turn) && !s.compacting then Complete(s, "handled") else s
    case Compact =>
      if s.turnActive then s else Open(s).(compacting := true, compactTurn := s.turnIndex + 1)
    case CompactDone(outcome) =>
      if !s.compacting then s
      else
        var t := s.(compacting := false);
        if !t.turnActive || outcome.StreamClosed? then t
        else if outcome.Compacted? then Complete(t, "compacted")
        else if t.interrupting then Complete(t, "interrupted")
        else Fail(t, "pi could not compact: " + outcome.message, "compaction_failed")
    case Interrupt => if s.turnActive then s.(interrupting := true) else s
    case AgentStart => Open(s).(runSeen := true)
    case MessageStart => s.(streamedText := false)
    case TextDelta(delta) =>
      if delta == "" then s else Emit(Open(s).(streamedText := true, hasOutput := true), Text(delta))
    case ThinkingDelta(delta) =>
      if delta == "" then s else Emit(Open(s), Reasoning(delta))
    case MessageEnd(text, stop, error) =>
      var t := s.(lastStop := stop, lastError := error);
      if t.streamedText || text == "" then t.(streamedText := false)
      else Emit(Open(t).(hasOutput := true), Text(text)).(streamedText := false)
    case ToolStart(id, name) =>
      var t := Open(s);
      Emit(t.(toolCount := t.toolCount + 1, tools := t.tools[id := name]), AgentEvents.ToolStarted(id, name))
    case ToolEnd(id, name, isError, result) =>
      var t := Open(s);
      Emit(t.(tools := t.tools - {id}), Completion(t, id, name, isError, result))
    case Settled =>
      if !s.turnActive || s.compacting then s
      else if s.lastStop == STOP_ABORTED || s.interrupting then Complete(s, "interrupted")
      else if s.lastStop == STOP_ERROR then
        Fail(s, if s.lastError == "" then "pi's model call failed" else s.lastError, "agent_error")
      else Complete(s, s.lastStop)
    case Exit =>
      if s.turnActive then Emit(s.(turnActive := false), Error("pi exited before the turn finished", "process_exited"))
      else s
  }

  const BEFORE_FIRST := Turns(false, 0, 0, false, 0)

  /** The emitted stream is well formed, nothing was emitted outside a turn, and the session's fields are exactly what
      a consumer of that stream can tell. */
  ghost predicate Inv(s: State) {
    ReadAll(BEFORE_FIRST, s.trace) == Some(Turns(s.turnActive, s.turnIndex, s.toolCount, s.hasOutput, 0))
  }

  lemma EmitReads(s: State, t: Turns, e: Event)
    requires ReadAll(BEFORE_FIRST, s.trace) == Some(t)
    ensures ReadAll(BEFORE_FIRST, Emit(s, e).trace) == Read(t, e)
  {
    ReadAllAppend(BEFORE_FIRST, s.trace, [e]);
    if Read(t, e).Some? {
      assert ReadAll(Read(t, e).value, []) == Read(t, e);
    }
  }

  lemma OpenKeepsInv(s: State)
    requires Inv(s)
    ensures Inv(Open(s)) && Open(s).turnActive
  {
    EmitReads(s, Turns(s.turnActive, s.turnIndex, s.toolCount, s.hasOutput, 0), TurnStarted(s.turnIndex + 1));
  }

  /** A content event keeps the stream well formed inside a turn. */
  lemma ContentKeepsInv(s: State, e: Event)
    requires Inv(s) && s.turnActive && IsContent(e)
    ensures Inv(Emit(s, e).(toolCount := s.toolCount + if e.ToolStarted? then 1 else 0,
                            hasOutput := s.hasOutput || e.Text?))
  {
    EmitReads(s, Turns(true, s.turnIndex, s.toolCount, s.hasOutput, 0), e);
  }

  lemma CompleteKeepsInv(s: State, stop: string)
    requires Inv(s) && s.turnActive
    ensures Inv(Complete(s, stop))
  {
    EmitReads(s, Turns(true, s.turnIndex, s.toolCount, s.hasOutput, 0),
              TurnCompleted(s.turnIndex, s.toolCount, s.hasOutput, stop));
  }

  lemma ErrorKeepsInv(s: State, message: string, code: string)
    requires Inv(s) && s.turnActive
    ensures Inv(Emit(s.(turnActive := false), Error(message, code)))
  {
    EmitReads(s, Turns(true, s.turnIndex, s.toolCount, s.hasOutput, 0), Error(message, code));
  }

  lemma NextKeepsInv(s: State, step: Step)
    requires Inv(s)
    ensures Inv(Next(s, step))
  {
    match step
    case Rejected(_, message) =>
      if s.turnActive { ErrorKeepsInv(s, "pi rejected the prompt: " + message, "prompt_rejected"); }
    case Handled(_) =>
      if s.turnActive { CompleteKeepsInv(s, "handled"); }
    case CompactDone(outcome) =>
      if s.turnActive { CompactDoneKeepsInv(s, outcome); }
    case Settled =>
      if s.turnActive { SettledKeepsInv(s); }
    case Exit =>
      if s.turnActive { ErrorKeepsInv(s, "pi exited before the turn finished", "process_exited"); }
    case Interrupt =>
    case MessageStart =>
    case _ => ContentStepKeepsInv(s, step);
  }

  lemma CompactDoneKeepsInv(s: State, outcome: Compaction)
    requires Inv(s) && s.turnActive
    ensures Inv(Next(s, CompactDone(outcome)))
  {
    var t := s.(compacting := false);
    CompleteKeepsInv(t, "compacted");
    CompleteKeepsInv(t, "interrupted");
    if outcome.Refused? || outcome.Broken? {
      ErrorKeepsInv(t, "pi could not compact: " + outcome.message, "compaction_failed");
    }
  }

  lemma SettledKeepsInv(s: State)
    requires Inv(s) && s.turnActive
    ensures Inv(Next(s, Settled))
  {
    CompleteKeepsInv(s, "interrupted");
    CompleteKeepsInv(s, s.lastStop);
    ErrorKeepsInv(s, if s.lastError == "" then "pi's model call failed" else s.lastError, "agent_error");
  }

  lemma ContentStepKeepsInv(s: State, step: Step)
    requires Inv(s)
    requires step.Prompt? || step.Compact? || step.AgentStart? || step.TextDelta? || step.ThinkingDelta? ||
             step.MessageEnd? || step.ToolStart? || step.ToolEnd?
    ensures Inv(Next(s, step))
  {
    OpenKeepsInv(s);
    var o := Open(s);
    match step
    case TextDelta(delta) => ContentKeepsInv(o, Text(delta));
    case ThinkingDelta(delta) => ContentKeepsInv(o, Reasoning(delta));
    case MessageEnd(text, stop, error) =>
      var t := s.(lastStop := stop, lastError := error);
      OpenKeepsInv(t);
      ContentKeepsInv(Open(t), Text(text));
    case ToolStart(id, name) => ContentKeepsInv(o, AgentEvents.ToolStarted(id, name));
    case ToolEnd(id, name, isError, result) =>
      var e := Completion(o, id, name, isError, result);
      ContentKeepsInv(o, e);
    case _ =>
  }

  function Run(s: State, steps: seq<Step>): State
    decreases |steps|
  {
    if steps == [] then s else Run(Next(s, steps[0]), steps[1..])
  }

  lemma {:induction false} RunKeepsInv(s: State, steps: seq<Step>)
    requires Inv(s)
    ensures Inv(Run(s, steps))
    decreases |steps|
  {
    if steps != [] {
      NextKeepsInv(s, steps[0]);
      RunKeepsInv(Next(s, steps[0]), steps[1..]);
    }
  }

  /** Any sequence of handler steps: starts and ends of turns strictly alternate with indices 1, 2, ..., every content
      event is inside a turn, turnActive says whether the last boundary was a start, and the counters that the next
      completion will report are those of the events emitted since that start. */
  lemma TurnGrammar(steps: seq<Step>, i: nat)
    ensures var s := Run(INIT, steps);
            && ReadAll(BEFORE_FIRST, s.trace) == Some(Turns(s.turnActive, s.turnIndex, s.toolCount, s.hasOutput, 0))
            && (s.turnActive ==> s.toolCount == CountToolStarts(SinceStart(s.trace)))
            && (s.turnActive ==> s.hasOutput == HasText(SinceStart(s.trace)))
            && (i < |Boundaries(s.trace)| ==> InPlace(Boundaries(s.trace)[i], i, 0))
            && (i < |s.trace| && s.trace[i].TurnCompleted? ==> CountsRight(s.trace, i))
  {
    RunKeepsInv(INIT, steps);
    var s := Run(INIT, steps);
    OpenTurnCounts(0, s.trace);
    if i < |s.trace| && s.trace[i].TurnCompleted? {
      CompletionCounts(0, s.trace, i);
    }
    if i < |Boundaries(s.trace)| {
      GrammarAlternates(BEFORE_FIRST, s.trace, i);
    }
  }

  /** A running compaction still owns the current turn. */
  predicate OwnsTurn(s: State) {
    s.compacting ==> s.turnActive && s.turnIndex == s.compactTurn
  }

  /** The step ends the turn of a compaction under way. */
  predicate TakesTheTurn(s: State, step: Step) {
    s.compacting && (step.Exit? || (step.Rejected? && RejectionEndsTurn(s, step.turn)))
  }

  /** Nothing takes a turn away from its compaction except the process exiting and a prompt rejected while it runs. */
  lemma CompactionKeepsItsTurn(s: State, step: Step)
    requires OwnsTurn(s)
    ensures OwnsTurn(Next(s, step)) <==> !TakesTheTurn(s, step)
  {
  }

  predicate Undisturbed(s: State, steps: seq<Step>)
    decreases |steps|
  {
    steps == [] || (!TakesTheTurn(s, steps[0]) && Undisturbed(Next(s, steps[0]), steps[1..]))
  }

  lemma {:induction false} UndisturbedOwnsTurn(s: State, steps: seq<Step>)
    requires OwnsTurn(s) && Undisturbed(s, steps)
    ensures OwnsTurn(Run(s, steps))
    decreases |steps|
  {
    if steps != [] {
      CompactionKeepsItsTurn(s, steps[0]);
      UndisturbedOwnsTurn(Next(s, steps[0]), steps[1..]);
    }
  }

  /** So after any run in which neither happens, the answer to a compaction closes the turn the compaction opened: that
      turn is the one open for a reader, and the one event that comes out ends it. */
  lemma CompactionClosesItsOwnTurn(steps: seq<Step>, outcome: Compaction)
    requires Undisturbed(INIT, steps) && Run(INIT, steps).compacting && !outcome.StreamClosed?
    ensures var s := Run(INIT, steps);
            var t := Next(s, CompactDone(outcome));
            var r := ReadAll(BEFORE_FIRST, s.trace);
            && r.Some? && r.value.open && r.value.last == s.compactTurn
            && |t.trace| == |s.trace| + 1 && s.trace == t.trace[..|s.trace|]
            && var e := t.trace[|s.trace|];
               (e.Error? || (e.TurnCompleted? && e.index == s.compactTurn)) && !t.turnActive
  {
    UndisturbedOwnsTurn(INIT, steps);
    RunKeepsInv(INIT, steps);
  }

  /** The exception is real: a prompt steered into a compaction and rejected ends turn 1, the next prompt opens turn 2,
      and the answer to the compaction of turn 1 then completes turn 2. */
  lemma CompactionCanCloseAnotherTurn()
    ensures Run(INIT, [Compact, Prompt, Rejected(1, "busy"), Prompt, CompactDone(Compacted)]).trace ==
            [TurnStarted(1), Error("pi rejected the prompt: " + "busy", "prompt_rejected"), TurnStarted(2),
             TurnCompleted(2, 0, false, "compacted")]
  {
    var a := Next(INIT, Compact);
    var b := Next(a, Prompt);
    var c := Next(b, Rejected(1, "busy"));
    var d := Next(c, Prompt);
    var e := Next(d, CompactDone(Compacted));
    var steps := [Compact, Prompt, Rejected(1, "busy"), Prompt, CompactDone(Compacted)];
    assert steps[1..][1..][1..][1..] == [CompactDone(Compacted)];
    assert Run(INIT, steps) == Run(a, steps[1..]) == Run(b, steps[1..][1..]) == Run(c, steps[1..][1..][1..]);
    assert Run(c, steps[1..][1..][1..]) == Run(d, [CompactDone(Compacted)]) == Run(e, []) == e;
  }

  /** piSession's turn fields and their handlers. */
  class Session {
    var turnActive: bool
    var turnIndex: int
    var runSeen: bool
    var toolCount: nat
    var hasOutput: bool
    var streamedText: bool
    var interrupting: bool
    var compacting: bool
    var lastStop: string
    var lastError: string
    var tools: map<string, string>
    ghost var compactTurn: int
    ghost var trace: seq<Event>

    ghost function View(): State
      reads this
    {
      State(turnActive, turnIndex, runSeen, toolCount, hasOutput, streamedText, interrupting, compacting, lastStop,
            lastError, tools, compactTurn, trace)
    }

    constructor ()
      ensures View() == INIT
    {
      turnActive, turnIndex, runSeen, toolCount, hasOutput := false, 0, false, 0, false;
      streamedText, interrupting, compacting, lastStop, lastError := false, false, false, "", "";
      tools, compactTurn, trace := map[], 0, [];
    }

    method OpenTurnLocked()
      modifies this
      ensures View() == Open(old(View()))
    {
      if !turnActive {
        turnActive, turnIndex := true, turnIndex + 1;
        ResetTurn();
        trace := trace + [TurnStarted(turnIndex)];
      }
    }

    /** What a new turn starts from. */
    method ResetTurn()
      modifies this
      ensures View() == old(View()).(runSeen := false, toolCount := 0, hasOutput := false, streamedText := false,
                                     interrupting := false, lastStop := "", lastError := "")
    {
      runSeen, toolCount, hasOutput, streamedText := false, 0, false, false;
      interrupting, lastStop, lastError := false, "", "";
    }

    method CompleteTurnLocked(stop: string)
      modifies this
      ensures View() == Complete(old(View()), stop)
    {
      turnActive := false;
      interrupting := false;
      trace := trace + [TurnCompleted(turnIndex, toolCount, hasOutput, stop)];
    }

    method FailTurnLocked(message: string, code: string)
      modifies this
      ensures View() == Fail(old(View()), message, code)
    {
      turnActive := false;
      interrupting := false;
      trace := trace + [Error(message, code)];
    }

    method Prompt() returns (turn: int)
      modifies this
      ensures View() == Next(old(View()), Step.Prompt) && turn == turnIndex
    {
      OpenTurnLocked();
      turn := turnIndex;
    }

    method PromptRejected(turn: int, message: string)
      modifies this
      ensures View() == Next(old(View()), Rejected(turn, message))
    {
      if turnActive && turnIndex == turn && !runSeen {
        FailTurnLocked("pi rejected the prompt: " + message, "prompt_rejected");
      }
    }

    method PromptHandled(turn: int)
      modifies this
      ensures View() == Next(old(View()), Handled(turn))
    {
      if turnActive && turnIndex == turn && !runSeen && !compacting {
        CompleteTurnLocked("handled");
      }
    }

    method Compact() returns (ok: bool)
      modifies this
      ensures View() == Next(old(View()), Step.Compact) && ok == !old(turnActive)
    {
      if turnActive {
        return false;
      }
      OpenTurnLocked();
      compacting := true;
      compactTurn := turnIndex;
      return true;
    }

    method CompactAnswered(outcome: Compaction)
      modifies this
      ensures View() == Next(old(View()), CompactDone(outcome))
    {
      if !compacting {
        return;
      }
      compacting := false;
      if !turnActive {
        return;
      }
      match outcome
      case StreamClosed => // watch reports the exit
      case Compacted => CompleteTurnLocked("compacted");
      case Refused(message) =>
        if interrupting {
          CompleteTurnLocked("interrupted");
        } else {
          FailTurnLocked("pi could not compact: " + message, "compaction_failed");
        }
      case Broken(message) =>
        if interrupting {
          CompleteTurnLocked("interrupted");
        } else {
          FailTurnLocked("pi could not compact: " + message, "compaction_failed");
        }
    }

    method Interrupt()
      modifies this
      ensures View() == Next(old(View()), Step.Interrupt)
    {
      if turnActive {
        interrupting := true;
      }
    }

    method OnAgentStart()
      modifies this
      ensures View() == Next(old(View()), AgentStart)
    {
      OpenTurnLocked();
      runSeen := true;
    }

    method OnMessageStart()
      modifies this
      ensures View() == Next(old(View()), MessageStart)
    {
      streamedText := false;
    }

    method OnTextDelta(delta: string)
      modifies this
      ensures View() == Next(old(View()), TextDelta(delta))
    {
      if delta == "" {
        return;
      }
      OpenTurnLocked();
      streamedText := true;
      hasOutput := true;
      trace := trace + [Text(delta)];
    }

    method OnThinkingDelta(delta: string)
      modifies this
      ensures View() == Next(old(View()), ThinkingDelta(delta))
    {
      if delta == "" {
        return;
      }
      OpenTurnLocked();
      trace := trace + [Reasoning(delta)];
    }

    method OnAssistant(text: string, stop: string, error: string)
      modifies this
      ensures View() == Next(old(View()), MessageEnd(text, stop, error))
    {
      lastStop := stop;
      lastError := error;
      if !streamedText && text != "" {
        OpenTurnLocked();
        hasOutput := true;
        trace := trace + [Text(text)];
      }
      streamedText := false;
    }

    method OnToolStart(id: string, name: string)
      modifies this
      ensures View() == Next(old(View()), ToolStart(id, name))
    {
      OpenTurnLocked();
      toolCount := toolCount + 1;
      tools := tools[id := name];
      trace := trace + [AgentEvents.ToolStarted(id, name)];
    }

    method OnToolEnd(id: string, toolName: string, isError: bool, result: string)
      modifies this
      ensures View() == Next(old(View()), ToolEnd(id, toolName, isError, result))
    {
      OpenTurnLocked();
      var status := ToolStatus.Completed;
      if isError {
        status := ToolStatus.Failed;
        if interrupting {
          status := Cancelled;
        }
      }
      var name := toolName;
      if name == "" && id in tools {
        name := tools[id];
      }
      tools := tools - {id};
      trace := trace + [ToolCompleted(id, name, status, result)];
    }

    method OnSettled()
      modifies this
      ensures View() == Next(old(View()), Settled)
    {
      if !turnActive || compacting {
        return;
      }
      if lastStop == STOP_ABORTED || interrupting {
        CompleteTurnLocked("interrupted");
      } else if lastStop == STOP_ERROR {
        var message := lastError;
        if message == "" {
          message := "pi's model call failed";
        }
        FailTurnLocked(message, "agent_error");
      } else {
        CompleteTurnLocked(lastStop);
      }
    }

    method OnExit()
      modifies this
      ensures View() == Next(old(View()), Exit)
    {
      if turnActive {
        turnActive := false;
        trace := trace + [Error("pi exited before the turn finished", "process_exited")];
      }
    }
  }
}
