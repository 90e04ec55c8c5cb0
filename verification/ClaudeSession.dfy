/** A Claude Code session's turns and the approvals it raises: driver/claude.go. Handlers hold the session's mutex while
    they change its state; onPermission, Resolve and the withdrawal put their events out after letting it go, so those
    events are steps of their own. */
module ClaudeSession {
  import opened Options
  import opened AgentEvents

  // Turns.

  datatype Turn = Turn(
    active: bool, index: int, toolCount: nat, hasOutput: bool, streamedText: bool, interrupting: bool,
    tools: map<string, string>, denied: set<string>)

  const NO_TURN := Turn(false, 0, 0, false, false, false, map[], {})

  /** What a handler does: the fields it leaves and the events it emits. */
  datatype Out = Out(turn: Turn, events: seq<Event>)

  datatype Block = TextBlock(text: string) | ToolBlock(id: string, name: string)

  datatype ToolResult = ToolResult(id: string, failed: bool, text: string)

  function Opened(t: Turn): Out {
    if t.active then Out(t, [])
    else
      Out(t.(active := true, index := t.index + 1, toolCount := 0, hasOutput := false, streamedText := false),
          [TurnStarted(t.index + 1)])
  }

  function Then(o: Out, p: Out): Out {
    Out(p.turn, o.events + p.events)
  }

  function OnText(t: Turn, text: string): Out {
    var o := Opened(t);
    if text == "" then o else Then(o, Out(o.turn.(streamedText := true, hasOutput := true), [Text(text)]))
  }

  function OnThinking(t: Turn, text: string): Out {
    var o := Opened(t);
    if text == "" then o else Then(o, Out(o.turn, [Reasoning(text)]))
  }

  function OnMessageStart(t: Turn): Out {
    var o := Opened(t);
    o.(turn := o.turn.(streamedText := false))
  }

  function OnBlock(t: Turn, b: Block): Out {
    match b
    case TextBlock(text) =>
      if text != "" && !t.streamedText then Out(t.(hasOutput := true), [Text(text)]) else Out(t, [])
    case ToolBlock(id, name) =>
      Out(t.(toolCount := t.toolCount + 1, tools := t.tools[id := name]), [ToolStarted(id, name)])
  }

  function OnBlocks(o: Out, bs: seq<Block>): Out {
    if bs == [] then o
    else
      var before := OnBlocks(o, bs[..|bs| - 1]);
      Then(before, OnBlock(before.turn, bs[|bs| - 1]))
  }

  function StatusOf(t: Turn, r: ToolResult): ToolStatus {
    if !r.failed then Completed else if r.id in t.denied || t.interrupting then Cancelled else Failed
  }

  function OnToolResult(t: Turn, r: ToolResult): Out {
    Out(t.(denied := t.denied - {r.id}, tools := t.tools - {r.id}),
        [ToolCompleted(r.id, if r.id in t.tools then t.tools[r.id] else "", StatusOf(t, r), r.text)])
  }

  function OnToolResults(o: Out, rs: seq<ToolResult>): Out {
    if rs == [] then o
    else
      var before := OnToolResults(o, rs[..|rs| - 1]);
      Then(before, OnToolResult(before.turn, rs[|rs| - 1]))
  }

  /** A result line: how many model turns it counts, whether it says it was interrupted, how it ended. */
  datatype Result = Result(turns: nat, interrupted: bool, failed: bool, stop: string, message: string, code: string)

  predicate EndsNothing(t: Turn, r: Result) {
    !t.active && r.turns == 0
  }

  function EndEvent(t: Turn, r: Result): Event {
    var interrupted := r.interrupted || t.interrupting;
    if !interrupted && r.failed then Error(r.message, r.code)
    else TurnCompleted(t.index, t.toolCount, t.hasOutput, if interrupted then "interrupted" else r.stop)
  }

  function Ended(t: Turn, r: Result): Out {
    Out(t.(active := false, interrupting := false), [EndEvent(t, r)])
  }

  /** The fields are what a reader of the events can tell. */
  predicate Agree(t: Turn, r: Turns) {
    t.active == r.open && t.index == r.last && (t.active ==> t.toolCount == r.tools && t.hasOutput == r.output)
  }

  /** Events that carry a reader from agreeing with one state of the fields to agreeing with the next. */
  predicate Speaks(t: Turn, o: Out, r: Turns) {
    Agree(t, r) ==> ReadAll(r, o.events).Some? && Agree(o.turn, ReadAll(r, o.events).value)
  }

  lemma SpeaksOne(t: Turn, o: Out, r: Turns)
    requires |o.events| == 1
    requires Agree(t, r) ==> Read(r, o.events[0]).Some? && Agree(o.turn, Read(r, o.events[0]).value)
    ensures Speaks(t, o, r)
  {
    if Agree(t, r) {
      var next := Read(r, o.events[0]).value;
      assert o.events[1..] == [];
      assert ReadAll(next, []) == Some(next);
    }
  }

  lemma ThenSpeaks(t: Turn, o: Out, p: Out, r: Turns)
    requires Agree(t, r) && Speaks(t, o, r) && Speaks(o.turn, p, ReadAll(r, o.events).value)
    ensures Speaks(t, Then(o, p), r)
  {
    ReadAllAppend(r, o.events, p.events);
  }

  lemma OpenedSpeaks(t: Turn, r: Turns)
    ensures Speaks(t, Opened(t), r)
    ensures Opened(t).turn.active
  {
    if !t.active {
      SpeaksOne(t, Opened(t), r);
    }
  }

  lemma {:induction false} BlocksSpeak(o: Out, bs: seq<Block>, t: Turn, r: Turns)
    requires Agree(t, r) && Speaks(t, o, r) && o.turn.active
    ensures Speaks(t, OnBlocks(o, bs), r) && OnBlocks(o, bs).turn.active
  {
    if bs != [] {
      var before, b := OnBlocks(o, bs[..|bs| - 1]), bs[|bs| - 1];
      BlocksSpeak(o, bs[..|bs| - 1], t, r);
      var p := OnBlock(before.turn, b);
      var mid := ReadAll(r, before.events).value;
      if p.events != [] {
        SpeaksOne(before.turn, p, mid);
      }
      ThenSpeaks(t, before, p, r);
    }
  }

  lemma {:induction false} ToolResultsSpeak(o: Out, rs: seq<ToolResult>, t: Turn, r: Turns)
    requires Agree(t, r) && Speaks(t, o, r)
    ensures Speaks(t, OnToolResults(o, rs), r)
  {
    if rs != [] {
      var before, x := OnToolResults(o, rs[..|rs| - 1]), rs[|rs| - 1];
      ToolResultsSpeak(o, rs[..|rs| - 1], t, r);
      var p := OnToolResult(before.turn, x);
      SpeaksOne(before.turn, p, ReadAll(r, before.events).value);
      ThenSpeaks(t, before, p, r);
    }
  }

  // Approvals.

  /** Parked: in pending. Taken: out of it, with the event that says so still to come. Closed: that event is out. */
  datatype Place = Parked | Taken | Closed

  /** One permission request. announced: approval.required is out; late: it went out after the approval was closed.
      answers counts what was put in its one-slot answer channel. */
  datatype Request = Request(id: string, place: Place, announced: bool, late: bool, answers: nat)

  datatype Notice = Own(event: Event) | Required(k: nat) | Resolved(k: nat)

  /** What watch has done: nothing, closed the turn and kept whether one was open, reported that, ended the stream. */
  datatype Exit = Running | Exiting(open: bool) | Reported | StreamEnded

  datatype State = State(
    turn: Turn, pending: map<string, nat>, requests: seq<Request>, exit: Exit, trace: seq<Notice>)

  const INIT := State(NO_TURN, map[], [], Running, [])

  datatype Step =
    | Prompt
    | Interrupt
    | MessageStart
    | TextDelta(text: string)
    | ThinkingDelta(text: string)
    | Assistant(blocks: seq<Block>)
    | User(results: seq<ToolResult>)
    | Finish(result: Result, order: seq<nat>)
    | Park(toolUseId: string, requestId: string)
    | Announce(k: nat)
    | Resolve(id: string, allow: bool)
    | Withdraw(k: nat)
    | Report(k: nat)
    | ProcessExits
    | ReportExit(message: string)
    | EndStream

  function Owns(es: seq<Event>): (ns: seq<Notice>)
    ensures |ns| == |es| && forall i :: 0 <= i < |es| ==> ns[i] == Own(es[i])
  {
    seq(|es|, i requires 0 <= i < |es| => Own(es[i]))
  }

  function Closings(ks: seq<nat>): (ns: seq<Notice>)
    ensures |ns| == |ks| && forall i :: 0 <= i < |ks| ==> ns[i] == Resolved(ks[i])
  {
    seq(|ks|, i requires 0 <= i < |ks| => Resolved(ks[i]))
  }

  /** The key a request is parked under. */
  function KeyFor(s: State, toolUseId: string, requestId: string): string {
    if toolUseId == "" || toolUseId in s.pending then requestId else toolUseId
  }

  /** An order in which a loop over pending can visit it. */
  ghost predicate Visits(pending: map<string, nat>, order: seq<nat>) {
    && (forall i, j :: 0 <= i < j < |order| ==> order[i] != order[j])
    && forall k :: k in order <==> k in pending.Values
  }

  predicate IsOutput(step: Step) {
    || step.Prompt? || step.MessageStart? || step.TextDelta? || step.ThinkingDelta? || step.Assistant? || step.User?
    || step.Finish?
  }

  /** The process exits once its output was handled, and takes no prompt after that; what comes after the end of the
      stream reaches nobody. Approvals get a key of their own. */
  ghost predicate Enabled(s: State, step: Step) {
    !s.exit.StreamEnded? && (IsOutput(step) ==> s.exit.Running?) &&
    match step
    case Finish(r, order) => if EndsNothing(s.turn, r) then order == [] else Visits(s.pending, order)
    case Park(toolUseId, requestId) =>
      forall i :: 0 <= i < |s.requests| ==> s.requests[i].id != KeyFor(s, toolUseId, requestId)
    case Announce(k) => k < |s.requests| && !s.requests[k].announced
    case Resolve(id, _) => id in s.pending ==> s.pending[id] < |s.requests|
    case Withdraw(k) => k < |s.requests| && s.requests[k].announced
    case Report(k) => k < |s.requests| && s.requests[k].place.Taken?
    case ProcessExits => s.exit.Running?
    case ReportExit(_) => s.exit.Exiting?
    case EndStream => s.exit.Reported?
    case _ => true
  }

  function Say(s: State, o: Out): State {
    s.(turn := o.turn, trace := s.trace + Owns(o.events))
  }

  /** The requests, with those in ks closed. */
  function AllClosed(rs: seq<Request>, ks: seq<nat>): (out: seq<Request>)
    ensures |out| == |rs|
    ensures forall k :: 0 <= k < |rs| ==> out[k] == if k in ks then rs[k].(place := Closed) else rs[k]
  {
    seq(|rs|, k requires 0 <= k < |rs| => if k in ks then rs[k].(place := Closed) else rs[k])
  }

  ghost function Next(s: State, step: Step): State
    requires Enabled(s, step)
  {
    var t := s.turn;
    match step
    case Prompt => Say(s, Opened(t))
    case Interrupt => if t.active then s.(turn := t.(interrupting := true)) else s
    case MessageStart => Say(s, OnMessageStart(t))
    case TextDelta(text) => Say(s, OnText(t, text))
    case ThinkingDelta(text) => Say(s, OnThinking(t, text))
    case Assistant(blocks) => Say(s, OnBlocks(Opened(t), blocks))
    case User(results) => Say(s, OnToolResults(Out(t, []), results))
    case Finish(r, order) =>
      if EndsNothing(t, r) then s
      else
        var o := Opened(t);
        var e := Ended(o.turn, r);
        State(e.turn, map[], AllClosed(s.requests, order), s.exit,
              s.trace + Owns(o.events) + Closings(order) + Owns(e.events))
    case Park(toolUseId, requestId) =>
      var id := KeyFor(s, toolUseId, requestId);
      s.(pending := s.pending[id := |s.requests|],
      requests := s.requests + [Request(id, Parked, false, false, 0)])
    case Announce(k) =>
      var q := s.requests[k];
      s.(requests := s.requests[k := q.(announced := true, late := q.place.Closed?)], trace := s.trace + [Required(k)])
    case Resolve(id, allow) =>
      if id !in s.pending then s
      else
        var k := s.pending[id];
        var q := s.requests[k];
        s.(pending := s.pending - {id},
        turn := if allow then t else t.(denied := t.denied + {id}),
        requests := s.requests[k := q.(place := Taken, answers := q.answers + 1)])
    case Withdraw(k) =>
      var q := s.requests[k];
      if q.id !in s.pending then s
      else s.(pending := s.pending - {q.id}, requests := s.requests[k := q.(place := Taken)])
    case Report(k) =>
      s.(requests := s.requests[k := s.requests[k].(place := Closed)], trace := s.trace + [Resolved(k)])
    case ProcessExits => s.(turn := t.(active := false), exit := Exiting(t.active))
    case ReportExit(message) => ExitReported(s, message)
    case EndStream => s.(exit := StreamEnded)
  }

  function ExitReported(s: State, message: string): State
    requires s.exit.Exiting?
  {
    var u := s.(exit := Reported);
    if s.exit.open then u.(trace := s.trace + [Own(Error(message, "process_exited"))]) else u
  }

  class Session {
    var turn: Turn
    var pending: map<string, nat>
    var requests: seq<Request>
    var exit: Exit
    ghost var trace: seq<Notice>

    ghost function View(): State
      reads this
    {
      State(turn, pending, requests, exit, trace)
    }

    constructor ()
      ensures View() == INIT
    {
      turn, pending, requests, exit, trace := NO_TURN, map[], [], Running, [];
    }

    method Emit(e: Event)
      modifies this`trace
      ensures trace == old(trace) + [Own(e)]
    {
      trace := trace + [Own(e)];
    }

    method OpenTurnLocked()
      modifies this`turn, this`trace
      ensures View() == Say(old(View()), Opened(old(turn)))
    {
      if turn.active {
        return;
      }
      turn := turn.(active := true, index := turn.index + 1);
      turn := turn.(toolCount := 0, hasOutput := false, streamedText := false);
      Emit(TurnStarted(turn.index));
    }

    /** watch: what it does under the mutex, what it emits after, and the end of the stream. */
    method Watch(message: string)
      requires exit.Running?
      modifies this
      ensures View() == Next(Next(Next(old(View()), ProcessExits), ReportExit(message)), EndStream)
    {
      var open := turn.active;
      turn := turn.(active := false);
      if open {
        Emit(Error(message, "process_exited"));
      }
      exit := StreamEnded;
    }

    method OnAssistant(blocks: seq<Block>)
      requires exit.Running?
      modifies this
      ensures View() == Next(old(View()), Assistant(blocks))
    {
      OpenTurnLocked();
      var i := 0;
      while i < |blocks|
        invariant 0 <= i <= |blocks|
        invariant View() == Say(old(View()), OnBlocks(Opened(old(turn)), blocks[..i]))
      {
        assert blocks[..i + 1][..i] == blocks[..i];
        match blocks[i] {
          case TextBlock(text) =>
            if text != "" && !turn.streamedText {
              turn := turn.(hasOutput := true);
              Emit(Text(text));
            }
          case ToolBlock(id, name) =>
            turn := turn.(toolCount := turn.toolCount + 1, tools := turn.tools[id := name]);
            Emit(ToolStarted(id, name));
        }
        i := i + 1;
      }
      assert blocks[..i] == blocks;
    }

    method OnUser(results: seq<ToolResult>)
      requires exit.Running?
      modifies this
      ensures View() == Next(old(View()), User(results))
    {
      var i := 0;
      while i < |results|
        invariant 0 <= i <= |results|
        invariant View() == Say(old(View()), OnToolResults(Out(old(turn), []), results[..i]))
      {
        assert results[..i + 1][..i] == results[..i];
        var r := results[i];
        var status := ToolStatus.Completed;
        if r.failed {
          status := ToolStatus.Failed;
          if r.id in turn.denied || turn.interrupting {
            status := ToolStatus.Cancelled;
          }
        }
        var name := "";
        if r.id in turn.tools {
          name := turn.tools[r.id];
        }
        turn := turn.(denied := turn.denied - {r.id}, tools := turn.tools - {r.id});
        Emit(ToolCompleted(r.id, name, status, r.text));
        i := i + 1;
      }
      assert results[..i] == results;
    }

    /** onResult: closes what is still pending, in whatever order the map gives it, before it ends the turn. */
    method OnResult(r: Result) returns (ghost order: seq<nat>)
      requires exit.Running?
      requires forall a, b :: a in pending && b in pending && a != b ==> pending[a] != pending[b]
      requires forall id <- pending :: pending[id] < |requests|
      modifies this
      ensures Enabled(old(View()), Finish(r, order)) && View() == Next(old(View()), Finish(r, order))
    {
      order := [];
      if !turn.active && r.turns == 0 {
        return;
      }
      OpenTurnLocked();
      var t := turn;
      turn := turn.(active := false, interrupting := false);
      order := CloseApprovals();
      Emit(EndEvent(t, r));
    }

    /** onResult's loop over what is still pending, in whatever order the map gives it. */
    method CloseApprovals() returns (ghost order: seq<nat>)
      requires forall a, b :: a in pending && b in pending && a != b ==> pending[a] != pending[b]
      requires forall id <- pending :: pending[id] < |requests|
      modifies this`pending, this`requests, this`trace
      ensures Visits(old(pending), order) && pending == map[]
      ensures requests == AllClosed(old(requests), order) && trace == old(trace) + Closings(order)
    {
      ghost var was := pending;
      order := [];
      while pending != map[]
        invariant Visited(was, pending, order)
        invariant requests == AllClosed(old(requests), order)
        invariant trace == old(trace) + Closings(order)
        decreases |pending|
      {
        var id :| id in pending;
        ghost var k := pending[id];
        VisitOne(was, pending, order, id);
        CloseOne(old(requests), old(trace), order, k);
        CloseApproval(id);
        order := order + [k];
      }
    }

    method CloseApproval(id: string)
      requires id in pending && pending[id] < |requests|
      modifies this`pending, this`requests, this`trace
      ensures pending == old(pending) - {id}
      ensures requests == old(requests[pending[id] := requests[pending[id]].(place := Closed)])
      ensures trace == old(trace) + [Resolved(old(pending[id]))]
    {
      var k := pending[id];
      pending := pending - {id};
      requests := requests[k := requests[k].(place := Closed)];
      trace := trace + [Resolved(k)];
    }

    method OnPermission(toolUseId: string, requestId: string) returns (k: nat)
      requires Enabled(View(), Park(toolUseId, requestId))
      modifies this
      ensures View() == Next(old(View()), Park(toolUseId, requestId)) && k == old(|requests|)
    {
      var id := toolUseId;
      if id == "" || id in pending {
        id := requestId;
      }
      k := |requests|;
      pending := pending[id := k];
      requests := requests + [Request(id, Parked, false, false, 0)];
    }

    /** The locked part of Resolve, and its answer. */
    method ResolveRequest(id: string, allow: bool) returns (found: bool)
      requires Enabled(View(), Resolve(id, allow))
      modifies this
      ensures View() == Next(old(View()), Resolve(id, allow)) && found == (id in old(pending))
    {
      if id !in pending {
        return false;
      }
      var k := pending[id];
      pending := pending - {id};
      if !allow {
        turn := turn.(denied := turn.denied + {id});
      }
      requests := requests[k := requests[k].(place := Taken, answers := requests[k].answers + 1)];
      found := true;
    }
  }

  lemma CloseOne(rs: seq<Request>, trace: seq<Notice>, ks: seq<nat>, k: nat)
    requires k < |rs| && k !in ks
    ensures AllClosed(rs, ks + [k]) == AllClosed(rs, ks)[k := rs[k].(place := Closed)]
    ensures trace + Closings(ks + [k]) == trace + Closings(ks) + [Resolved(k)]
  {
    assert Closings(ks + [k]) == Closings(ks) + [Resolved(k)];
  }

  /** What a loop over was has left, and the order it visited the rest in. */
  ghost predicate Visited(was: map<string, nat>, left: map<string, nat>, order: seq<nat>) {
    && left.Keys <= was.Keys && (forall id <- left :: left[id] == was[id])
    && (forall a, b :: a in was && b in was && a != b ==> was[a] != was[b])
    && (forall i, j :: 0 <= i < j < |order| ==> order[i] != order[j])
    && forall k :: k in order <==> k in was.Values && k !in left.Values
  }

  lemma VisitOne(was: map<string, nat>, left: map<string, nat>, order: seq<nat>, id: string)
    requires Visited(was, left, order) && id in left
    ensures left[id] !in order && Visited(was, left - {id}, order + [left[id]])
  {
    var k := left[id];
    assert was[id] == k && k in left.Values;
    var less := left - {id};
    forall x | x in left.Values && x != k ensures x in less.Values {
      var y :| y in left && left[y] == x;
      assert less[y] == x;
    }
    assert k !in less.Values;
  }

  // The turns a reader sees.

  function OwnEvents(trace: seq<Notice>): seq<Event> {
    if trace == [] then []
    else
      var n := trace[|trace| - 1];
      OwnEvents(trace[..|trace| - 1]) + if n.Own? then [n.event] else []
  }

  lemma {:induction false} OwnEventsAppend(a: seq<Notice>, b: seq<Notice>)
    ensures OwnEvents(a + b) == OwnEvents(a) + OwnEvents(b)
    decreases |b|
  {
    if b == [] {
      assert a + b == a;
    } else {
      var n := |b| - 1;
      assert (a + b)[..|a + b| - 1] == a + b[..n];
      OwnEventsAppend(a, b[..n]);
    }
  }

  lemma {:induction false} OwnEventsOfOwns(es: seq<Event>)
    ensures OwnEvents(Owns(es)) == es
  {
    if es != [] {
      var n := |es| - 1;
      assert Owns(es)[..n] == Owns(es[..n]);
      OwnEventsOfOwns(es[..n]);
      assert es == es[..n] + [es[n]];
    }
  }

  lemma {:induction false} ClosingsAreNotOwn(ks: seq<nat>)
    ensures OwnEvents(Closings(ks)) == []
  {
    if ks != [] {
      var n := |ks| - 1;
      assert Closings(ks)[..n] == Closings(ks[..n]);
      ClosingsAreNotOwn(ks[..n]);
    }
  }

  const BEFORE_FIRST := Turns(false, 0, 0, false, 0)

  predicate Grammatical(t: Turn, trace: seq<Notice>) {
    var r := ReadAll(BEFORE_FIRST, OwnEvents(trace));
    r.Some? && Agree(t, r.value)
  }

  /** The turn as a reader has it: still open between watch closing it and reporting that. */
  function Shown(s: State): Turn {
    if s.exit.Exiting? then s.turn.(active := s.exit.open) else s.turn
  }

  predicate TurnsInv(s: State) {
    Grammatical(Shown(s), s.trace) && (!s.exit.Running? ==> !s.turn.active)
  }

  lemma SayGrammatical(t: Turn, trace: seq<Notice>, o: Out)
    requires Grammatical(t, trace) && Speaks(t, o, ReadAll(BEFORE_FIRST, OwnEvents(trace)).value)
    ensures Grammatical(o.turn, trace + Owns(o.events))
  {
    OwnEventsAppend(trace, Owns(o.events));
    OwnEventsOfOwns(o.events);
    ReadAllAppend(BEFORE_FIRST, OwnEvents(trace), o.events);
  }

  lemma QuietGrammatical(t: Turn, trace: seq<Notice>, more: seq<Notice>)
    requires Grammatical(t, trace) && OwnEvents(more) == []
    ensures Grammatical(t, trace + more)
  {
    OwnEventsAppend(trace, more);
    assert OwnEvents(trace) + [] == OwnEvents(trace);
  }

  lemma OutputSpeaks(t: Turn, step: Step, r: Turns)
    requires Agree(t, r) && (step.TextDelta? || step.ThinkingDelta? || step.MessageStart?)
    ensures Speaks(t, if step.TextDelta? then OnText(t, step.text) else if step.ThinkingDelta? then OnThinking(t, step.text)
                      else OnMessageStart(t), r)
  {
    OpenedSpeaks(t, r);
    var o := Opened(t);
    if !step.MessageStart? && step.text != "" {
      var p := if step.TextDelta? then Out(o.turn.(streamedText := true, hasOutput := true), [Text(step.text)])
               else Out(o.turn, [Reasoning(step.text)]);
      SpeaksOne(o.turn, p, ReadAll(r, o.events).value);
      ThenSpeaks(t, o, p, r);
    }
  }

  lemma EndGrammatical(t: Turn, trace: seq<Notice>, r: Result, order: seq<nat>)
    requires Grammatical(t, trace) && t.active
    ensures Grammatical(Ended(t, r).turn, trace + Closings(order) + Owns(Ended(t, r).events))
  {
    var e := Ended(t, r);
    ClosingsAreNotOwn(order);
    QuietGrammatical(t, trace, Closings(order));
    SpeaksOne(t, e, ReadAll(BEFORE_FIRST, OwnEvents(trace + Closings(order))).value);
    SayGrammatical(t, trace + Closings(order), e);
  }

  lemma FinishGrammatical(s: State, r: Result, order: seq<nat>)
    requires TurnsInv(s) && Enabled(s, Finish(r, order))
    ensures TurnsInv(Next(s, Finish(r, order)))
  {
    if !EndsNothing(s.turn, r) {
      var o := Opened(s.turn);
      OpenedSpeaks(s.turn, ReadAll(BEFORE_FIRST, OwnEvents(s.trace)).value);
      SayGrammatical(s.turn, s.trace, o);
      EndGrammatical(o.turn, s.trace + Owns(o.events), r, order);
    }
  }

  lemma OutputGrammatical(s: State, step: Step)
    requires TurnsInv(s) && Enabled(s, step) && IsOutput(step) && !step.Finish?
    ensures TurnsInv(Next(s, step))
  {
    var r := ReadAll(BEFORE_FIRST, OwnEvents(s.trace)).value;
    OpenedSpeaks(s.turn, r);
    match step
    case Prompt => SayGrammatical(s.turn, s.trace, Opened(s.turn));
    case MessageStart =>
      OutputSpeaks(s.turn, step, r);
      SayGrammatical(s.turn, s.trace, OnMessageStart(s.turn));
    case TextDelta(text) =>
      OutputSpeaks(s.turn, step, r);
      SayGrammatical(s.turn, s.trace, OnText(s.turn, text));
    case ThinkingDelta(text) =>
      OutputSpeaks(s.turn, step, r);
      SayGrammatical(s.turn, s.trace, OnThinking(s.turn, text));
    case Assistant(blocks) =>
      BlocksSpeak(Opened(s.turn), blocks, s.turn, r);
      SayGrammatical(s.turn, s.trace, OnBlocks(Opened(s.turn), blocks));
    case User(results) =>
      ToolResultsSpeak(Out(s.turn, []), results, s.turn, r);
      SayGrammatical(s.turn, s.trace, OnToolResults(Out(s.turn, []), results));
  }

  lemma ExitGrammatical(s: State, message: string)
    requires TurnsInv(s) && Enabled(s, ReportExit(message))
    ensures TurnsInv(Next(s, ReportExit(message)))
  {
    if s.exit.open {
      var o := Out(s.turn, [Error(message, "process_exited")]);
      SpeaksOne(Shown(s), o, ReadAll(BEFORE_FIRST, OwnEvents(s.trace)).value);
      SayGrammatical(Shown(s), s.trace, o);
      assert Owns(o.events) == [Own(Error(message, "process_exited"))];
    }
  }

  lemma NextGrammatical(s: State, step: Step)
    requires TurnsInv(s) && Enabled(s, step)
    ensures TurnsInv(Next(s, step))
  {
    if IsOutput(step) && !step.Finish? {
      OutputGrammatical(s, step);
    } else {
      match step
      case Finish(result, order) => FinishGrammatical(s, result, order);
      case Announce(k) => QuietGrammatical(Shown(s), s.trace, [Required(k)]);
      case Report(k) => QuietGrammatical(Shown(s), s.trace, [Resolved(k)]);
      case ReportExit(message) => ExitGrammatical(s, message);
      case _ =>
    }
  }

  // The approvals a reader sees.

  /** The approvals a reader of the stream takes to be open. */
  function OpenApprovals(trace: seq<Notice>): set<nat> {
    if trace == [] then {}
    else
      var before := OpenApprovals(trace[..|trace| - 1]);
      var n := trace[|trace| - 1];
      if n.Own? then before else if n.Required? then before + {n.k} else before - {n.k}
  }

  lemma {:induction false} OpenAppendQuiet(trace: seq<Notice>, more: seq<Notice>)
    requires forall n <- more :: n.Own?
    ensures OpenApprovals(trace + more) == OpenApprovals(trace)
    ensures forall k: nat :: multiset(trace + more)[Required(k)] == multiset(trace)[Required(k)] &&
                             multiset(trace + more)[Resolved(k)] == multiset(trace)[Resolved(k)]
    decreases |more|
  {
    if more == [] {
      assert trace + more == trace;
    } else {
      var n := |more| - 1;
      assert (trace + more)[..|trace| + n] == trace + more[..n];
      assert trace + more == trace + more[..n] + [more[n]];
      OpenAppendQuiet(trace, more[..n]);
    }
  }

  lemma OpenAppendOne(trace: seq<Notice>, n: Notice)
    ensures OpenApprovals(trace + [n]) ==
            if n.Own? then OpenApprovals(trace)
            else if n.Required? then OpenApprovals(trace) + {n.k}
            else OpenApprovals(trace) - {n.k}
    ensures multiset(trace + [n]) == multiset(trace) + multiset{n}
  {
    assert (trace + [n])[..|trace|] == trace;
  }

  function Members(ks: seq<nat>): set<nat> {
    set k <- ks
  }

  lemma OneMoreClosing(trace: seq<Notice>, ks: seq<nat>, k: nat)
    requires k !in ks
    ensures trace + Closings(ks + [k]) == trace + Closings(ks) + [Resolved(k)]
    ensures Members(ks + [k]) == Members(ks) + {k}
  {
    assert Closings(ks + [k]) == Closings(ks) + [Resolved(k)];
  }

  lemma {:induction false} OpenAppendClosings(trace: seq<Notice>, order: seq<nat>)
    requires forall i, j :: 0 <= i < j < |order| ==> order[i] != order[j]
    ensures OpenApprovals(trace + Closings(order)) == OpenApprovals(trace) - Members(order)
    decreases |order|
  {
    if order == [] {
      assert trace + Closings(order) == trace;
    } else {
      var before, k := order[..|order| - 1], order[|order| - 1];
      assert order == before + [k] && k !in before;
      OpenAppendClosings(trace, before);
      OneMoreClosing(trace, before, k);
      OpenAppendOne(trace + Closings(before), Resolved(k));
    }
  }

  lemma {:induction false} CountClosings(trace: seq<Notice>, order: seq<nat>, k: nat)
    requires forall i, j :: 0 <= i < j < |order| ==> order[i] != order[j]
    ensures multiset(trace + Closings(order))[Required(k)] == multiset(trace)[Required(k)]
    ensures multiset(trace + Closings(order))[Resolved(k)] == multiset(trace)[Resolved(k)] + if k in order then 1 else 0
    decreases |order|
  {
    if order == [] {
      assert trace + Closings(order) == trace;
    } else {
      var before, last := order[..|order| - 1], order[|order| - 1];
      assert order == before + [last] && last !in before;
      CountClosings(trace, before, k);
      OneMoreClosing(trace, before, last);
      OpenAppendOne(trace + Closings(before), Resolved(last));
    }
  }

  ghost predicate Known(s: State, k: nat)
    requires k < |s.requests|
  {
    var q := s.requests[k];
    && (q.place.Parked? <==> q.id in s.pending && s.pending[q.id] == k)
    && multiset(s.trace)[Required(k)] == (if q.announced then 1 else 0)
    && multiset(s.trace)[Resolved(k)] == (if q.place.Closed? then 1 else 0)
    && (k in OpenApprovals(s.trace) <==> q.announced && (q.late || !q.place.Closed?))
    && (q.late ==> q.announced && q.place.Closed?)
    && q.answers <= 1 && (q.place.Parked? ==> q.answers == 0)
  }

  ghost predicate Keys(s: State) {
    && (forall id <- s.pending :: s.pending[id] < |s.requests| && s.requests[s.pending[id]].id == id)
    && (forall i, j :: 0 <= i < j < |s.requests| ==> s.requests[i].id != s.requests[j].id)
    && (forall k: nat :: k >= |s.requests| ==>
          k !in OpenApprovals(s.trace) && multiset(s.trace)[Required(k)] == 0 && multiset(s.trace)[Resolved(k)] == 0)
  }

  ghost predicate ApprovalsInv(s: State) {
    Keys(s) && forall k: nat :: k < |s.requests| ==> Known(s, k)
  }

  lemma SayKeeps(s: State, o: Out)
    requires ApprovalsInv(s)
    ensures ApprovalsInv(Say(s, o))
  {
    OpenAppendQuiet(s.trace, Owns(o.events));
    forall k: nat | k < |s.requests| ensures Known(Say(s, o), k) {
      assert Known(s, k);
    }
  }

  lemma ParkKeeps(s: State, toolUseId: string, requestId: string)
    requires ApprovalsInv(s) && Enabled(s, Park(toolUseId, requestId))
    ensures ApprovalsInv(Next(s, Park(toolUseId, requestId)))
  {
    var t := Next(s, Park(toolUseId, requestId));
    forall k: nat | k < |t.requests| ensures Known(t, k) {
      if k < |s.requests| {
        assert Known(s, k) && t.requests[k] == s.requests[k];
      }
    }
  }

  lemma NoticeKeeps(s: State, step: Step)
    requires ApprovalsInv(s) && Enabled(s, step) && (step.Announce? || step.Report?)
    ensures ApprovalsInv(Next(s, step))
  {
    var t := Next(s, step);
    var n := if step.Announce? then Required(step.k) else Resolved(step.k);
    OpenAppendOne(s.trace, n);
    forall k: nat | k < |t.requests| ensures Known(t, k) {
      assert Known(s, k);
    }
  }

  lemma TakeKeeps(s: State, step: Step)
    requires ApprovalsInv(s) && Enabled(s, step) && (step.Resolve? || step.Withdraw?)
    ensures ApprovalsInv(Next(s, step))
  {
    var t := Next(s, step);
    var id := if step.Resolve? then step.id else s.requests[step.k].id;
    if id in s.pending {
      var taken := s.pending[id];
      assert Known(s, taken) && s.requests[taken].id == id;
      assert step.Withdraw? ==> taken == step.k;
      forall k: nat | k < |t.requests| ensures Known(t, k) {
        assert Known(s, k);
        assert k != taken ==> s.requests[k].id != id;
      }
    }
  }

  /** What a reader makes of a turn's end. */
  lemma FinishHeard(s: State, r: Result, order: seq<nat>, k: nat)
    requires Enabled(s, Finish(r, order)) && !EndsNothing(s.turn, r)
    ensures var t := Next(s, Finish(r, order));
            && OpenApprovals(t.trace) == OpenApprovals(s.trace) - Members(order)
            && multiset(t.trace)[Required(k)] == multiset(s.trace)[Required(k)]
            && multiset(t.trace)[Resolved(k)] == multiset(s.trace)[Resolved(k)] + if k in order then 1 else 0
  {
    var o := Opened(s.turn);
    var e := Ended(o.turn, r);
    var mid := s.trace + Owns(o.events);
    OpenAppendQuiet(s.trace, Owns(o.events));
    OpenAppendClosings(mid, order);
    CountClosings(mid, order, k);
    OpenAppendQuiet(mid + Closings(order), Owns(e.events));
  }

  lemma FinishKeeps(s: State, r: Result, order: seq<nat>)
    requires ApprovalsInv(s) && Enabled(s, Finish(r, order))
    ensures ApprovalsInv(Next(s, Finish(r, order)))
  {
    if !EndsNothing(s.turn, r) {
      var t := Next(s, Finish(r, order));
      forall k: nat | k < |t.requests| ensures Known(t, k) {
        FinishKnown(s, r, order, k);
      }
      forall k: nat | k >= |t.requests|
        ensures k !in OpenApprovals(t.trace) && multiset(t.trace)[Required(k)] == multiset(t.trace)[Resolved(k)] == 0 {
        FinishHeard(s, r, order, k);
      }
    }
  }

  lemma FinishKnown(s: State, r: Result, order: seq<nat>, k: nat)
    requires ApprovalsInv(s) && k < |s.requests| && Enabled(s, Finish(r, order)) && !EndsNothing(s.turn, r)
    ensures Known(Next(s, Finish(r, order)), k)
  {
    FinishHeard(s, r, order, k);
    assert Known(s, k);
    var id := s.requests[k].id;
    if k in order {
      var x :| x in s.pending && s.pending[x] == k;
      assert x == id;
    } else {
      assert id in s.pending ==> s.pending[id] in s.pending.Values;
    }
  }

  lemma NextKeepsInv(s: State, step: Step)
    requires ApprovalsInv(s) && Enabled(s, step)
    ensures ApprovalsInv(Next(s, step))
  {
    match step
    case Prompt => SayKeeps(s, Opened(s.turn));
    case MessageStart => SayKeeps(s, OnMessageStart(s.turn));
    case TextDelta(text) => SayKeeps(s, OnText(s.turn, text));
    case ThinkingDelta(text) => SayKeeps(s, OnThinking(s.turn, text));
    case Assistant(blocks) => SayKeeps(s, OnBlocks(Opened(s.turn), blocks));
    case User(results) => SayKeeps(s, OnToolResults(Out(s.turn, []), results));
    case Finish(r, order) => FinishKeeps(s, r, order);
    case Park(toolUseId, requestId) => ParkKeeps(s, toolUseId, requestId);
    case Interrupt => TurnOnly(s, Next(s, step));
    case ProcessExits => TurnOnly(s, Next(s, step));
    case ReportExit(message) => ExitKeeps(s, message);
    case EndStream => TurnOnly(s, Next(s, step));
    case Announce(_) => NoticeKeeps(s, step);
    case Report(_) => NoticeKeeps(s, step);
    case _ => TakeKeeps(s, step);
  }

  lemma TurnOnly(s: State, t: State)
    requires ApprovalsInv(s) && t == s.(turn := t.turn, exit := t.exit)
    ensures ApprovalsInv(t)
  {
    forall k: nat | k < |t.requests| ensures Known(t, k) {
      assert Known(s, k);
    }
  }

  lemma ExitKeeps(s: State, message: string)
    requires ApprovalsInv(s) && Enabled(s, ReportExit(message))
    ensures ApprovalsInv(Next(s, ReportExit(message)))
  {
    var t := Next(s, ReportExit(message));
    if s.exit.open {
      OpenAppendOne(s.trace, Own(Error(message, "process_exited")));
    }
    forall k: nat | k < |s.requests| ensures Known(t, k) {
      assert Known(s, k);
    }
  }

  ghost predicate Reaches(s: State, steps: seq<Step>, t: State)
    decreases |steps|
  {
    if steps == [] then s == t else Enabled(s, steps[0]) && Reaches(Next(s, steps[0]), steps[1..], t)
  }

  lemma {:induction false} Run(s: State, steps: seq<Step>, t: State)
    requires TurnsInv(s) && ApprovalsInv(s) && Reaches(s, steps, t)
    ensures TurnsInv(t) && ApprovalsInv(t)
    decreases |steps|
  {
    if steps != [] {
      NextGrammatical(s, steps[0]);
      NextKeepsInv(s, steps[0]);
      Run(Next(s, steps[0]), steps[1..], t);
    }
  }

  lemma RunFromStart(steps: seq<Step>, t: State)
    requires Reaches(INIT, steps, t)
    ensures TurnsInv(t) && ApprovalsInv(t)
  {
    assert ReadAll(BEFORE_FIRST, []) == Some(BEFORE_FIRST);
    Run(INIT, steps, t);
  }

  /** Over every interleaving of handlers, starts and ends of turns alternate with indices 1, 2, ...; every completion
      reports the tools started, and whether text came, since its start; turnActive says whether a turn is open; and
      when the process has exited and that was reported, none is. */
  lemma TurnGrammar(steps: seq<Step>, t: State, i: nat)
    requires Reaches(INIT, steps, t)
    ensures var es := OwnEvents(t.trace);
            && ReadAll(BEFORE_FIRST, es).Some?
            && ReadAll(BEFORE_FIRST, es).value.open == Shown(t).active
            && (t.exit.Reported? || t.exit.StreamEnded? ==> !ReadAll(BEFORE_FIRST, es).value.open)
            && (t.turn.active ==> t.turn.toolCount == CountToolStarts(SinceStart(es)))
            && (t.turn.active ==> t.turn.hasOutput == HasText(SinceStart(es)))
            && (i < |Boundaries(es)| ==> InPlace(Boundaries(es)[i], i, 0))
            && (i < |es| && es[i].TurnCompleted? ==> CountsRight(es, i))
  {
    RunFromStart(steps, t);
    var es := OwnEvents(t.trace);
    OpenTurnCounts(0, es);
    if i < |es| && es[i].TurnCompleted? {
      CompletionCounts(0, es, i);
    }
    if i < |Boundaries(es)| {
      GrammarAlternates(BEFORE_FIRST, es, i);
    }
  }

  /** Every approval is announced at most once, closed at most once and answered at most once, and a reader of the
      stream takes it to be open exactly while it is, or when it was announced late. */
  lemma ApprovalsCloseOnce(steps: seq<Step>, t: State, k: nat)
    requires Reaches(INIT, steps, t) && k < |t.requests|
    ensures multiset(t.trace)[Required(k)] <= 1 && multiset(t.trace)[Resolved(k)] <= 1 && t.requests[k].answers <= 1
    ensures t.requests[k].place.Parked? <==> t.requests[k].id in t.pending && t.pending[t.requests[k].id] == k
    ensures k in OpenApprovals(t.trace) <==>
            t.requests[k].announced && (t.requests[k].late || !t.requests[k].place.Closed?)
  {
    RunFromStart(steps, t);
    assert Known(t, k);
  }

  /** When a result ends a turn, the end is the last event out, nothing is pending any more, and what a reader still
      takes to be open is exactly what Resolve or a withdrawal has already taken and is about to report, and what was
      announced late. */
  lemma TurnEndClosesApprovals(steps: seq<Step>, s: State, r: Result, order: seq<nat>, k: nat)
    requires Reaches(INIT, steps, s) && Enabled(s, Finish(r, order)) && !EndsNothing(s.turn, r) && k < |s.requests|
    ensures var t := Next(s, Finish(r, order));
            && t.pending == map[] && t.trace != []
            && t.trace[|t.trace| - 1] == Own(EndEvent(Opened(s.turn).turn, r))
            && (k in OpenApprovals(t.trace) <==>
                s.requests[k].announced && (s.requests[k].place.Taken? || s.requests[k].late))
  {
    RunFromStart(steps, s);
    FinishHeard(s, r, order, k);
    assert Known(s, k);
    var id := s.requests[k].id;
    assert k in order <==> s.requests[k].place.Parked? by {
      if k in order {
        var x :| x in s.pending && s.pending[x] == k;
        assert x == id;
      }
      if s.requests[k].place.Parked? {
        assert s.pending[id] == k;
      }
    }
  }

  /** The step takes approval k away: an answer addressed to it, or a result that ends a turn. */
  predicate Takes(s: State, step: Step, k: nat) {
    k < |s.requests| &&
    ((step.Resolve? && step.id == s.requests[k].id) || (step.Finish? && !EndsNothing(s.turn, step.result)))
  }

  ghost predicate Untouched(s: State, steps: seq<Step>, k: nat)
    decreases |steps|
  {
    steps == [] ||
    (!Takes(s, steps[0], k) && (Enabled(s, steps[0]) ==> Untouched(Next(s, steps[0]), steps[1..], k)))
  }

  /** When parking takes the key of a request that is still pending, whatever ids came before: when the control request's
      own id is pending already and is the one to fall back on. */
  lemma ParkingOverwritesIff(s: State, toolUseId: string, requestId: string)
    ensures KeyFor(s, toolUseId, requestId) in s.pending <==>
            requestId in s.pending && (toolUseId == "" || toolUseId in s.pending)
  {
  }

  /** What one step does to an approval not announced yet. */
  lemma StepTakes(s: State, step: Step, k: nat)
    requires ApprovalsInv(s) && Enabled(s, step) && k < |s.requests|
    ensures var t := Next(s, step);
            && k < |t.requests| && t.requests[k].id == s.requests[k].id
            && (s.requests[k].announced ==> t.requests[k].announced)
            && (!s.requests[k].announced ==>
                  (t.requests[k].place.Parked? <==> s.requests[k].place.Parked? && !Takes(s, step, k)))
  {
    assert Known(s, k);
    if step.Finish? && !EndsNothing(s.turn, step.result) {
      assert s.requests[k].place.Parked? ==> s.pending[s.requests[k].id] in s.pending.Values;
    }
    if step.Resolve? && step.id in s.pending {
      assert Known(s, s.pending[step.id]);
    }
    if step.Withdraw? {
      assert Known(s, step.k);
    }
  }

  lemma {:induction false} RunTakes(s: State, steps: seq<Step>, t: State, k: nat)
    requires ApprovalsInv(s) && Reaches(s, steps, t) && k < |s.requests|
    requires k < |t.requests| ==> !t.requests[k].announced
    ensures k < |t.requests| && t.requests[k].id == s.requests[k].id && !s.requests[k].announced
    ensures t.requests[k].place.Parked? <==> s.requests[k].place.Parked? && Untouched(s, steps, k)
    decreases |steps|
  {
    if steps != [] {
      StepTakes(s, steps[0], k);
      NextKeepsInv(s, steps[0]);
      RunTakes(Next(s, steps[0]), steps[1..], t, k);
    }
  }

  /** Whatever happens between the parking of a request and its announcement: once announced it can be answered if and
      only if no answer addressed to it and no result that ended a turn came in between, and otherwise it is announced
      late or while its closing is being reported. */
  lemma AnnouncedInTimeIff(before: seq<Step>, s: State, toolUseId: string, requestId: string, between: seq<Step>, t: State)
    requires Reaches(INIT, before, s) && Enabled(s, Park(toolUseId, requestId))
    requires Reaches(Next(s, Park(toolUseId, requestId)), between, t) && Enabled(t, Announce(|s.requests|))
    ensures var k, parked, u := |s.requests|, Next(s, Park(toolUseId, requestId)), Next(t, Announce(|s.requests|));
            && u.requests[k].id == KeyFor(s, toolUseId, requestId)
            && (u.requests[k].id in u.pending <==> Untouched(parked, between, k))
            && (u.requests[k].late ==> !Untouched(parked, between, k))
  {
    var k, parked := |s.requests|, Next(s, Park(toolUseId, requestId));
    RunFromStart(before, s);
    NextKeepsInv(s, Park(toolUseId, requestId));
    NextGrammatical(s, Park(toolUseId, requestId));
    RunTakes(parked, between, t, k);
    Run(parked, between, t);
    assert Known(t, k);
    assert t.requests[k].id in t.pending ==> t.requests[t.pending[t.requests[k].id]].id == t.requests[k].id;
  }

  /** One announced late stays open for a reader for good, and no answer to it is ever taken. */
  lemma {:induction false} LateStaysOpen(s: State, steps: seq<Step>, t: State, k: nat)
    requires ApprovalsInv(s) && Reaches(s, steps, t) && k < |s.requests| && s.requests[k].late
    ensures k < |t.requests| && t.requests[k].late && k in OpenApprovals(t.trace) && t.requests[k].id !in t.pending
    decreases |steps|
  {
    assert Known(s, k);
    if steps != [] {
      NextKeepsInv(s, steps[0]);
      LateStays(s, steps[0], k);
      LateStaysOpen(Next(s, steps[0]), steps[1..], t, k);
    }
  }

  lemma LateStays(s: State, step: Step, k: nat)
    requires ApprovalsInv(s) && Enabled(s, step) && k < |s.requests| && s.requests[k].late
    ensures k < |Next(s, step).requests| && Next(s, step).requests[k].late
  {
    assert Known(s, k);
  }

  lemma ThreeSteps(s: State, a: Step, s1: State, b: Step, s2: State, c: Step, t: State)
    requires Enabled(s, a) && s1 == Next(s, a) && Enabled(s1, b) && s2 == Next(s1, b) && Enabled(s2, c) && t == Next(s2, c)
    ensures Reaches(s, [a, b, c], t)
  {
    assert [a, b, c][1..] == [b, c] && [b, c][1..] == [c] && [c][1..] == [];
    assert Reaches(t, [], t) && Reaches(s2, [c], t) && Reaches(s1, [b, c], t);
  }

  lemma OneParked() returns (s: State)
    ensures Enabled(INIT, Park("a", "r")) && s == Next(INIT, Park("a", "r"))
    ensures s.turn == NO_TURN && s.exit == Running && Visits(s.pending, [0]) && s.requests == [Request("a", Parked, false, false, 0)]
  {
    s := Next(INIT, Park("a", "r"));
    assert s.pending == map["a" := 0];
    assert s.pending.Values == {0} by { assert s.pending["a"] == 0; }
  }

  lemma OneFinished(s: State, r: Result) returns (t: State)
    requires s.turn == NO_TURN && s.exit == Running && Visits(s.pending, [0]) && s.requests == [Request("a", Parked, false, false, 0)]
    requires r.turns > 0
    ensures Enabled(s, Finish(r, [0])) && t == Next(s, Finish(r, [0]))
    ensures t.exit == Running && t.pending == map[] && t.requests == [Request("a", Closed, false, false, 0)]
  {
    t := Next(s, Finish(r, [0]));
    assert t.requests == AllClosed(s.requests, [0]);
  }

  lemma AnnouncedLate(s: State) returns (t: State)
    requires s.exit == Running && s.pending == map[] && s.requests == [Request("a", Closed, false, false, 0)]
    ensures Enabled(s, Announce(0)) && t == Next(s, Announce(0))
    ensures t.pending == map[] && |t.requests| == 1 && t.requests[0].late
  {
    t := Next(s, Announce(0));
  }

  /** It happens: a result line handled after onPermission parked a request and before it announced it. */
  lemma ResultBeatsTheAnnouncement(r: Result) returns (steps: seq<Step>, t: State)
    requires r.turns > 0
    ensures Reaches(INIT, steps, t) && t.pending == map[] && OpenApprovals(t.trace) == {0}
  {
    var s1 := OneParked();
    var s2 := OneFinished(s1, r);
    t := AnnouncedLate(s2);
    steps := [Park("a", "r"), Finish(r, [0]), Announce(0)];
    ThreeSteps(INIT, steps[0], s1, steps[1], s2, steps[2], t);
    OnlyLateOneIsOpen(steps, t);
  }

  lemma OnlyLateOneIsOpen(steps: seq<Step>, t: State)
    requires Reaches(INIT, steps, t) && |t.requests| == 1 && t.requests[0].late
    ensures OpenApprovals(t.trace) == {0}
  {
    RunFromStart(steps, t);
    assert Known(t, 0);
    assert forall k :: k in OpenApprovals(t.trace) ==> k == 0;
  }
}
