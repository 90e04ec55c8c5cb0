/** Turns, tool items and spawned agents of driver/codex.go. Notifications are handled one at a time, in the order codex
    sends them; nothing is assumed about that order. */
module CodexLifecycles {
  import opened Options
  import opened AgentEvents

  datatype ChildStatus = Waiting | Running | ChildCompleted | ChildFailed | ChildCancelled | ChildInterrupted

  predicate Ended(st: ChildStatus) {
    st.ChildCompleted? || st.ChildFailed? || st.ChildCancelled? || st.ChildInterrupted?
  }

  /** What the session emits: a turn or tool event of its own thread, a failed turn, the process exiting on its own, or
      news of a spawned agent. */
  datatype Notice =
    | Own(event: Event)
    | TurnFailed(message: string)
    | ProcessExited(message: string)
    | ChildStarted(id: string)
    | ChildUpdated(id: string, status: Option<ChildStatus>)
    | ChildDone(id: string, final: ChildStatus)

  datatype Tool = Tool(id: string, name: string)
  datatype ToolResult = ToolResult(id: string, name: string, status: ToolStatus)

  /** A collab call: the threads it spawned, and the states it reports in the order the map yields them. */
  datatype Collab = Collab(spawned: seq<string>, states: seq<(string, Option<ChildStatus>)>)

  const NO_COLLAB := Collab([], [])

  datatype TurnStatus = TurnOk | TurnInterrupted | TurnBroken

  datatype Step =
    | TurnStart(turn: string)
    | TurnEnd(turn: string, status: TurnStatus, error: string, order: seq<string>)
    | MessageDelta(delta: string)
    | ReasoningDelta(delta: string)
    | ItemStart(tool: Option<Tool>, collab: Collab)
    | ItemEnd(result: Option<ToolResult>, collab: Collab)
    | ErrorNote(message: string)
    | ChildUsage(thread: string)
    | Exit(closing: bool, message: string) // watch up to its event
    | EndStream
    | ChildTurn(thread: string, state: ChildStatus) // turn/started or turn/completed of a spawned thread

  /** exited: watch has seen the process go; ended: the stream is over, and what is emitted reaches nobody. */
  datatype State = State(
    activeTurn: string, turnIndex: int, toolCount: nat, hasOutput: bool, turnError: string,
    openTools: map<string, string>, children: map<string, ChildStatus>, exited: bool, ended: bool, trace: seq<Notice>)

  const INIT := State("", 0, 0, false, "", map[], map[], false, false, [])

  function Emit(s: State, n: Notice): State {
    if s.ended then s else s.(trace := s.trace + [n])
  }

  function Spawn(s: State, ids: seq<string>): State
    decreases |ids|
  {
    if ids == [] then s
    else
      Spawn(if ids[0] in s.children then s
            else Emit(s.(children := s.children[ids[0] := Running]), ChildStarted(ids[0])), ids[1..])
  }

  function Report(s: State, id: string, status: Option<ChildStatus>): State {
    if id !in s.children || status.None? || s.children[id] == status.value || Ended(s.children[id]) then s
    else
      var t := s.(children := s.children[id := status.value]);
      Emit(t, if Ended(status.value) then ChildDone(id, status.value) else ChildUpdated(id, status))
  }

  function ReportAll(s: State, states: seq<(string, Option<ChildStatus>)>): State
    decreases |states|
  {
    if states == [] then s else ReportAll(Report(s, states[0].0, states[0].1), states[1..])
  }

  function AfterCollab(s: State, c: Collab): State {
    ReportAll(Spawn(s, c.spawned), c.states)
  }

  function CancelOpen(s: State, open: map<string, string>, order: seq<string>): State
    requires forall id :: id in order ==> id in open
    decreases |order|
  {
    if order == [] then s
    else CancelOpen(Emit(s, Own(ToolCompleted(order[0], open[order[0]], Cancelled, ""))), open, order[1..])
  }

  function StopReason(status: TurnStatus): string {
    if status.TurnOk? then "completed" else "interrupted"
  }

  /** The event that closes a turn. */
  function Closing(s: State, status: TurnStatus, error: string): Notice {
    if status.TurnBroken? then
      TurnFailed(if error != "" then error else if s.turnError != "" then s.turnError else "codex turn failed")
    else Own(TurnCompleted(s.turnIndex, s.toolCount, s.hasOutput, StopReason(status)))
  }

  function EndTurn(s: State, status: TurnStatus, error: string): State {
    Emit(s, Closing(s, status, error))
  }

  predicate Distinct(xs: seq<string>) {
    forall i, j :: 0 <= i < j < |xs| ==> xs[i] != xs[j]
  }

  /** order is an order in which the map of open tools may be ranged over; the statuses codex's spawned threads take
      from their own turns are never final. */
  predicate Enabled(s: State, step: Step) {
    match step
    case TurnEnd(_, _, _, order) => Distinct(order) && (set id | id in order) == s.openTools.Keys
    case ChildTurn(_, status) => !Ended(status)
    case Exit(_, _) => !s.exited
    case EndStream => s.exited && !s.ended
    case _ => true
  }

  function Next(s: State, step: Step): State
    requires Enabled(s, step)
  {
    match step
    case TurnStart(turn) =>
      var t := s.(activeTurn := turn, turnIndex := s.turnIndex + 1, toolCount := 0, hasOutput := false, turnError := "");
      Emit(t, Own(TurnStarted(t.turnIndex)))
    case TurnEnd(turn, status, error, order) =>
      var t := s.(activeTurn := if s.activeTurn == turn then "" else s.activeTurn, openTools := map[]);
      EndTurn(CancelOpen(t, s.openTools, order), status, error)
    case MessageDelta(delta) => if delta == "" then s else Emit(s.(hasOutput := true), Own(Text(delta)))
    case ReasoningDelta(delta) => if delta == "" then s else Emit(s, Own(Reasoning(delta)))
    case ItemStart(tool, collab) =>
      var t := if tool.None? then s
               else Emit(s.(toolCount := s.toolCount + 1, openTools := s.openTools[tool.value.id := tool.value.name]),
                         Own(ToolStarted(tool.value.id, tool.value.name)));
      AfterCollab(t, collab)
    case ItemEnd(result, collab) =>
      var t := if result.None? then s
               else Emit(s.(openTools := s.openTools - {result.value.id}),
                         Own(ToolCompleted(result.value.id, result.value.name, result.value.status, "")));
      AfterCollab(t, collab)
    case ErrorNote(message) => s.(turnError := message)
    case Exit(closing, message) =>
      var t := s.(exited := true);
      if closing then t else Emit(t, ProcessExited(message))
    case EndStream => s.(ended := true)
    case ChildUsage(thread) => if thread in s.children then Emit(s, ChildUpdated(thread, None)) else s
    case ChildTurn(thread, status) =>
      if thread !in s.children || Ended(s.children[thread]) then s
      else Emit(s.(children := s.children[thread := status]), ChildUpdated(thread, Some(status)))
  }

  /** What a consumer knows after a prefix of the stream. */
  datatype Facts = Facts(
    open: map<string, string>, index: int, tools: nat, output: bool, children: map<string, ChildStatus>)

  const NO_FACTS := Facts(map[], 0, 0, false, map[])

  predicate ClosesTurn(n: Notice) {
    n.TurnFailed? || (n.Own? && n.event.TurnCompleted?)
  }

  /** The lifecycle rules, one event at a time: a turn ends with every tool closed and reports what happened since it
      started; a spawned agent is started once, ends once, and has no status after that. */
  function Read(f: Facts, n: Notice): Option<Facts> {
    match n
    case Own(TurnStarted(index)) =>
      if index == f.index + 1 then Some(f.(index := index, tools := 0, output := false)) else None
    case Own(TurnCompleted(index, tools, output, _)) =>
      if f.open == map[] && index == f.index && tools == f.tools && output == f.output then Some(f) else None
    case Own(ToolStarted(id, name)) => Some(f.(open := f.open[id := name], tools := f.tools + 1))
    case Own(ToolCompleted(id, _, _, _)) => Some(f.(open := f.open - {id}))
    case Own(Text(_)) => Some(f.(output := true))
    case Own(Reasoning(_)) => Some(f)
    case Own(Error(_, _)) => None
    case TurnFailed(_) => if f.open == map[] then Some(f) else None
    case ProcessExited(_) => Some(f)
    case ChildStarted(id) => if id in f.children then None else Some(f.(children := f.children[id := Running]))
    case ChildUpdated(id, status) =>
      if id !in f.children then None
      else if status.None? then Some(f)
      else if Ended(f.children[id]) || Ended(status.value) then None
      else Some(f.(children := f.children[id := status.value]))
    case ChildDone(id, status) =>
      if id !in f.children || Ended(f.children[id]) || !Ended(status) then None
      else Some(f.(children := f.children[id := status]))
  }

  function ReadAll(f: Facts, ns: seq<Notice>): Option<Facts>
    decreases |ns|
  {
    if ns == [] then Some(f)
    else if Read(f, ns[0]).None? then None
    else ReadAll(Read(f, ns[0]).value, ns[1..])
  }

  lemma {:induction false} ReadOneMore(f: Facts, ns: seq<Notice>, n: Notice)
    ensures ReadAll(f, ns + [n]) == if ReadAll(f, ns).None? then None else Read(ReadAll(f, ns).value, n)
    decreases |ns|
  {
    if ns == [] {
      assert ([] + [n])[1..] == [];
    } else {
      assert (ns + [n])[0] == ns[0] && (ns + [n])[1..] == ns[1..] + [n];
      if Read(f, ns[0]).Some? {
        ReadOneMore(Read(f, ns[0]).value, ns[1..], n);
      }
    }
  }

  /** The stream obeys the rules, and until it ends the session's fields are what a consumer can tell from it. */
  ghost predicate Inv(s: State) {
    ReadAll(NO_FACTS, s.trace).Some? && (!s.ended ==> Leaves(s, FactsOf(s))) && (s.ended ==> s.exited)
  }

  /** The stream so far leaves exactly these facts. */
  ghost predicate Leaves(s: State, f: Facts) {
    ReadAll(NO_FACTS, s.trace) == Some(f)
  }

  lemma EmitReads(s: State, f: Facts, n: Notice)
    requires Leaves(s, f) && Read(f, n).Some? && !s.ended
    ensures Leaves(Emit(s, n), Read(f, n).value)
  {
    ReadOneMore(NO_FACTS, s.trace, n);
  }

  function FactsOf(s: State): Facts {
    Facts(s.openTools, s.turnIndex, s.toolCount, s.hasOutput, s.children)
  }

  lemma {:induction false} SpawnKeepsInv(s: State, ids: seq<string>)
    requires Inv(s) && !s.ended
    ensures Inv(Spawn(s, ids)) && !Spawn(s, ids).ended
    decreases |ids|
  {
    if ids != [] {
      if ids[0] !in s.children {
        EmitReads(s, FactsOf(s), ChildStarted(ids[0]));
      }
      SpawnKeepsInv(if ids[0] in s.children then s
                    else Emit(s.(children := s.children[ids[0] := Running]), ChildStarted(ids[0])), ids[1..]);
    }
  }

  lemma ReportKeepsInv(s: State, id: string, status: Option<ChildStatus>)
    requires Inv(s) && !s.ended
    ensures Inv(Report(s, id, status)) && !Report(s, id, status).ended
  {
    if Report(s, id, status) != s {
      EmitReads(s, FactsOf(s), if Ended(status.value) then ChildDone(id, status.value) else ChildUpdated(id, status));
    }
  }

  lemma {:induction false} ReportAllKeepsInv(s: State, states: seq<(string, Option<ChildStatus>)>)
    requires Inv(s) && !s.ended
    ensures Inv(ReportAll(s, states)) && !ReportAll(s, states).ended
    decreases |states|
  {
    if states != [] {
      ReportKeepsInv(s, states[0].0, states[0].1);
      ReportAllKeepsInv(Report(s, states[0].0, states[0].1), states[1..]);
    }
  }

  lemma CollabKeepsInv(s: State, c: Collab)
    requires Inv(s) && !s.ended
    ensures Inv(AfterCollab(s, c)) && !AfterCollab(s, c).ended
  {
    SpawnKeepsInv(s, c.spawned);
    ReportAllKeepsInv(Spawn(s, c.spawned), c.states);
  }

  /** Cancelling in any order closes exactly the tools cancelled. */
  lemma {:induction false} CancelReads(s: State, open: map<string, string>, order: seq<string>, f: Facts)
    requires forall id :: id in order ==> id in open
    requires Leaves(s, f) && !s.ended
    ensures Leaves(CancelOpen(s, open, order), f.(open := f.open - set id | id in order))
    ensures CancelOpen(s, open, order) == s.(trace := CancelOpen(s, open, order).trace)
    decreases |order|
  {
    if order == [] {
      assert f.open - (set id | id in order) == f.open;
    } else {
      var n := Own(ToolCompleted(order[0], open[order[0]], Cancelled, ""));
      EmitReads(s, f, n);
      var g := f.(open := f.open - {order[0]});
      CancelReads(Emit(s, n), open, order[1..], g);
      assert (set id | id in order) == {order[0]} + set id | id in order[1..];
      assert g.open - (set id | id in order[1..]) == f.open - set id | id in order;
    }
  }

  lemma EndKeepsInv(s: State, step: Step)
    requires Inv(s) && step.TurnEnd? && Enabled(s, step) && !s.ended
    ensures Inv(Next(s, step))
  {
    var t := s.(activeTurn := if s.activeTurn == step.turn then "" else s.activeTurn, openTools := map[]);
    var f := FactsOf(s);
    CancelReads(t, s.openTools, step.order, f);
    var c := CancelOpen(t, s.openTools, step.order);
    assert f.open - (set id | id in step.order) == map[];
    EmitReads(c, f.(open := map[]), EndTurn(c, step.status, step.error).trace[|c.trace|]);
  }

  lemma StepKeepsInv(s: State, step: Step)
    requires Inv(s) && Enabled(s, step) && !s.ended
    ensures Inv(Next(s, step))
  {
    var f := FactsOf(s);
    match step
    case TurnStart(_) => EmitReads(s, f, Own(TurnStarted(s.turnIndex + 1)));
    case TurnEnd(_, _, _, _) => EndKeepsInv(s, step);
    case MessageDelta(delta) => EmitReads(s, f, Own(Text(delta)));
    case ReasoningDelta(delta) => EmitReads(s, f, Own(Reasoning(delta)));
    case ItemStart(tool, collab) =>
      if tool.None? {
        CollabKeepsInv(s, collab);
      } else {
        var n := Own(ToolStarted(tool.value.id, tool.value.name));
        EmitReads(s, f, n);
        CollabKeepsInv(Emit(s.(toolCount := s.toolCount + 1,
                               openTools := s.openTools[tool.value.id := tool.value.name]), n), collab);
      }
    case ItemEnd(result, collab) =>
      if result.None? {
        CollabKeepsInv(s, collab);
      } else {
        var n := Own(ToolCompleted(result.value.id, result.value.name, result.value.status, ""));
        EmitReads(s, f, n);
        CollabKeepsInv(Emit(s.(openTools := s.openTools - {result.value.id}), n), collab);
      }
    case ErrorNote(_) =>
    case Exit(_, message) => EmitReads(s.(exited := true), f, ProcessExited(message));
    case EndStream =>
    case ChildUsage(thread) =>
      if thread in s.children { EmitReads(s, f, ChildUpdated(thread, None)); }
    case ChildTurn(thread, status) =>
      if thread in s.children && !Ended(s.children[thread]) { EmitReads(s, f, ChildUpdated(thread, Some(status))); }
  }

  // After the end of the stream.

  lemma {:induction false} SpawnIsSilent(s: State, ids: seq<string>)
    requires s.ended
    ensures Spawn(s, ids) == s.(children := Spawn(s, ids).children)
    decreases |ids|
  {
    if ids != [] {
      SpawnIsSilent(if ids[0] in s.children then s else s.(children := s.children[ids[0] := Running]), ids[1..]);
    }
  }

  lemma {:induction false} ReportAllIsSilent(s: State, states: seq<(string, Option<ChildStatus>)>)
    requires s.ended
    ensures ReportAll(s, states) == s.(children := ReportAll(s, states).children)
    decreases |states|
  {
    if states != [] {
      ReportAllIsSilent(Report(s, states[0].0, states[0].1), states[1..]);
    }
  }

  lemma {:induction false} CancelIsSilent(s: State, open: map<string, string>, order: seq<string>)
    requires s.ended && forall id :: id in order ==> id in open
    ensures CancelOpen(s, open, order) == s
    decreases |order|
  {
    if order != [] {
      CancelIsSilent(s, open, order[1..]);
    }
  }

  lemma CollabIsSilent(s: State, c: Collab)
    requires s.ended
    ensures AfterCollab(s, c).trace == s.trace && AfterCollab(s, c).ended && AfterCollab(s, c).exited == s.exited
  {
    SpawnIsSilent(s, c.spawned);
    ReportAllIsSilent(Spawn(s, c.spawned), c.states);
  }

  /** No step adds to a stream that has ended. */
  lemma EndedIsSilent(s: State, step: Step)
    requires s.ended && s.exited && Enabled(s, step)
    ensures Next(s, step).trace == s.trace && Next(s, step).ended && Next(s, step).exited
  {
    match step
    case TurnEnd(turn, _, _, order) =>
      CancelIsSilent(s.(activeTurn := if s.activeTurn == turn then "" else s.activeTurn, openTools := map[]),
                     s.openTools, order);
    case ItemStart(tool, collab) =>
      CollabIsSilent(if tool.None? then s
                     else s.(toolCount := s.toolCount + 1, openTools := s.openTools[tool.value.id := tool.value.name]),
                     collab);
    case ItemEnd(result, collab) =>
      CollabIsSilent(if result.None? then s else s.(openTools := s.openTools - {result.value.id}), collab);
    case _ =>
  }

  lemma NextKeepsInv(s: State, step: Step)
    requires Inv(s) && Enabled(s, step)
    ensures Inv(Next(s, step))
  {
    if s.ended {
      EndedIsSilent(s, step);
    } else {
      StepKeepsInv(s, step);
    }
  }

  ghost predicate Reaches(s: State, steps: seq<Step>, t: State)
    decreases |steps|
  {
    if steps == [] then s == t
    else Enabled(s, steps[0]) && Reaches(Next(s, steps[0]), steps[1..], t)
  }

  lemma {:induction false} RunKeepsInv(s: State, steps: seq<Step>, t: State)
    requires Inv(s) && Reaches(s, steps, t)
    ensures Inv(t)
    decreases |steps|
  {
    if steps != [] {
      NextKeepsInv(s, steps[0]);
      RunKeepsInv(Next(s, steps[0]), steps[1..], t);
    }
  }

  lemma {:induction false} OpenToolIsClosed(f: Facts, ns: seq<Notice>, id: string, end: nat)
    requires ReadAll(f, ns).Some? && id in f.open
    requires end < |ns| && ClosesTurn(ns[end])
    ensures exists k :: 0 <= k < end && ns[k].Own? && ns[k].event.ToolCompleted? && ns[k].event.id == id
    decreases |ns|
  {
    if ns[0].Own? && ns[0].event.ToolCompleted? && ns[0].event.id == id {
      assert 0 < end;
    } else if end > 0 {
      OpenToolIsClosed(Read(f, ns[0]).value, ns[1..], id, end - 1);
      var k :| 0 <= k < end - 1 && ns[1..][k].Own? && ns[1..][k].event.ToolCompleted? && ns[1..][k].event.id == id;
      assert ns[k + 1] == ns[1..][k];
    }
  }

  lemma {:induction false} StartedToolIsClosed(f: Facts, ns: seq<Notice>, start: nat, end: nat)
    requires ReadAll(f, ns).Some?
    requires start < end < |ns| && ns[start].Own? && ns[start].event.ToolStarted? && ClosesTurn(ns[end])
    ensures exists k :: start < k < end && ns[k].Own? && ns[k].event.ToolCompleted? && ns[k].event.id == ns[start].event.id
    decreases |ns|
  {
    var g, tail := Read(f, ns[0]).value, ns[1..];
    var k;
    if start == 0 {
      OpenToolIsClosed(g, tail, ns[0].event.id, end - 1);
      k :| 0 <= k < end - 1 && tail[k].Own? && tail[k].event.ToolCompleted? && tail[k].event.id == ns[0].event.id;
    } else {
      StartedToolIsClosed(g, tail, start - 1, end - 1);
      k :| start - 1 < k < end - 1 && tail[k].Own? && tail[k].event.ToolCompleted? &&
           tail[k].event.id == ns[start].event.id;
    }
    assert ns[k + 1] == tail[k];
  }

  /** Any sequence of notifications: a tool reported started before a turn's closing event is reported completed in
      between, be it by codex or as cancelled. */
  lemma ToolsCloseBeforeTheTurn(steps: seq<Step>, s: State, start: nat, end: nat)
    requires Reaches(INIT, steps, s)
    requires start < end < |s.trace| && ClosesTurn(s.trace[end])
    requires s.trace[start].Own? && s.trace[start].event.ToolStarted?
    ensures exists k :: start < k < end && s.trace[k].Own? && s.trace[k].event.ToolCompleted? &&
                        s.trace[k].event.id == s.trace[start].event.id
  {
    RunKeepsInv(INIT, steps, s);
    StartedToolIsClosed(NO_FACTS, s.trace, start, end);
  }

  function Cancelling(open: map<string, string>, id: string): Notice
    requires id in open
  {
    Own(ToolCompleted(id, open[id], Cancelled, ""))
  }

  /** The cancellations of the open tools, in some order. */
  function Cancels(open: map<string, string>, order: seq<string>): (ns: seq<Notice>)
    requires forall id :: id in order ==> id in open
    ensures |ns| == |order| && forall i :: 0 <= i < |order| ==> ns[i] == Cancelling(open, order[i])
  {
    seq(|order|, i requires 0 <= i < |order| => Cancelling(open, order[i]))
  }

  lemma {:induction false} CancelOpenEmits(s: State, open: map<string, string>, order: seq<string>)
    requires !s.ended && forall id :: id in order ==> id in open
    ensures CancelOpen(s, open, order) == s.(trace := s.trace + Cancels(open, order))
    decreases |order|
  {
    if order == [] {
      assert s.trace + Cancels(open, order) == s.trace;
    } else {
      var init, last := order[..|order| - 1], order[|order| - 1];
      assert order == init + [last];
      CancelOpenEmits(s, open, init);
      CancelOneMore(s, open, init, last);
      assert Cancels(open, order) == Cancels(open, init) + [Cancelling(open, last)];
      assert s.trace + Cancels(open, order) == s.trace + Cancels(open, init) + [Cancelling(open, last)];
    }
  }

  lemma EndEmits(s: State, turn: string, status: TurnStatus, error: string, order: seq<string>)
    requires Enabled(s, TurnEnd(turn, status, error, order)) && !s.ended
    ensures forall id :: id in order <==> id in s.openTools
    ensures Next(s, TurnEnd(turn, status, error, order)).trace ==
            s.trace + Cancels(s.openTools, order) + [Closing(s, status, error)]
  {
    assert forall id :: id in order <==> id in (set x | x in order);
    var mid := s.(activeTurn := if s.activeTurn == turn then "" else s.activeTurn, openTools := map[]);
    CancelOpenEmits(mid, s.openTools, order);
  }

  /** A turn's end reports every tool a reader of the stream still has open as cancelled, once each and under its name,
      reports nothing else, and closes the turn last; once the stream has ended it reports nothing. */
  lemma OpenToolsAreCancelled(
      steps: seq<Step>, s: State, turn: string, status: TurnStatus, error: string, order: seq<string>)
    requires Reaches(INIT, steps, s) && Enabled(s, TurnEnd(turn, status, error, order))
    ensures ReadAll(NO_FACTS, s.trace).Some?
    ensures var open, t := ReadAll(NO_FACTS, s.trace).value.open, Next(s, TurnEnd(turn, status, error, order));
            if s.ended then t.trace == s.trace
            else
              && Distinct(order) && (forall id :: id in order <==> id in open)
              && t.trace == s.trace + Cancels(open, order) + [Closing(s, status, error)]
  {
    RunKeepsInv(INIT, steps, s);
    if s.ended {
      EndedIsSilent(s, TurnEnd(turn, status, error, order));
    } else {
      EndEmits(s, turn, status, error, order);
    }
  }

  lemma {:induction false} EndedStaysSilent(s: State, steps: seq<Step>, t: State)
    requires s.ended && s.exited && Reaches(s, steps, t)
    ensures t.trace == s.trace && t.ended
    decreases |steps|
  {
    if steps != [] {
      EndedIsSilent(s, steps[0]);
      EndedStaysSilent(Next(s, steps[0]), steps[1..], t);
    }
  }

  /** The end of the stream cancels nothing: a reader is left with exactly the tools open at that step, and whatever the
      session does after, none of them is reported completed. */
  lemma EndLeavesToolsOpen(steps: seq<Step>, s: State, later: seq<Step>, t: State)
    requires Reaches(INIT, steps, s) && Enabled(s, EndStream) && Reaches(Next(s, EndStream), later, t)
    ensures t.trace == s.trace
    ensures ReadAll(NO_FACTS, t.trace).Some? && ReadAll(NO_FACTS, t.trace).value.open == s.openTools
  {
    RunKeepsInv(INIT, steps, s);
    EndedStaysSilent(Next(s, EndStream), later, t);
  }

  /** It happens: a tool under way when the process exits and the stream ends, whatever comes after. */
  lemma ToolOpenAtTheEnd(later: seq<Step>, t: State) returns (steps: seq<Step>, s: State)
    ensures Reaches(INIT, steps, s) && Enabled(s, EndStream)
    ensures Reaches(Next(s, EndStream), later, t) ==>
              && t.trace == [Own(TurnStarted(1)), Own(ToolStarted("a", "bash")), ProcessExited("codex app-server exited")]
              && ReadAll(NO_FACTS, t.trace).Some? && "a" in ReadAll(NO_FACTS, t.trace).value.open
  {
    var a, b := TurnStart("t"), ItemStart(Some(Tool("a", "bash")), NO_COLLAB);
    var c := Exit(false, "codex app-server exited");
    var s1 := Next(INIT, a);
    var s2 := Next(s1, b);
    s := Next(s2, c);
    steps := [a, b, c];
    assert steps[1..] == [b, c] && steps[1..][1..] == [c] && steps[1..][1..][1..] == [];
    assert Reaches(s, [], s) && Reaches(s2, [c], s) && Reaches(s1, [b, c], s);
    if Reaches(Next(s, EndStream), later, t) {
      EndLeavesToolsOpen(steps, s, later, t);
    }
  }

  /** The event starts the agent or gives it a status. */
  predicate SpeaksOf(n: Notice, id: string) {
    || n == ChildStarted(id)
    || (n.ChildUpdated? && n.id == id && n.status.Some?)
    || (n.ChildDone? && n.id == id)
  }

  lemma {:induction false} SilentOnceEnded(f: Facts, ns: seq<Notice>, id: string, i: nat)
    requires ReadAll(f, ns).Some? && i < |ns|
    requires id in f.children && Ended(f.children[id])
    ensures !SpeaksOf(ns[i], id)
    decreases |ns|
  {
    if i > 0 {
      SilentOnceEnded(Read(f, ns[0]).value, ns[1..], id, i - 1);
    }
  }

  lemma {:induction false} SilentAfterDone(f: Facts, ns: seq<Notice>, i: nat, j: nat)
    requires ReadAll(f, ns).Some? && i < j < |ns| && ns[i].ChildDone?
    ensures !SpeaksOf(ns[j], ns[i].id)
    decreases |ns|
  {
    if i == 0 {
      SilentOnceEnded(Read(f, ns[0]).value, ns[1..], ns[0].id, j - 1);
    } else {
      SilentAfterDone(Read(f, ns[0]).value, ns[1..], i - 1, j - 1);
    }
  }

  /** Any sequence of notifications: a spawned agent is reported completed at most once, and is neither started again
      nor given a status afterwards. */
  lemma ChildEndsOnce(steps: seq<Step>, s: State, i: nat, j: nat)
    requires Reaches(INIT, steps, s)
    requires i < j < |s.trace| && s.trace[i].ChildDone?
    ensures !SpeaksOf(s.trace[j], s.trace[i].id)
  {
    RunKeepsInv(INIT, steps, s);
    SilentAfterDone(NO_FACTS, s.trace, i, j);
  }

  /** codexSession's lifecycle fields. */
  class Session {
    var activeTurn: string
    var turnIndex: int
    var toolCount: nat
    var hasOutput: bool
    var turnError: string
    var openTools: map<string, string>
    var children: map<string, ChildStatus>
    ghost var exited: bool
    ghost var ended: bool
    ghost var trace: seq<Notice>

    ghost function View(): State
      reads this
    {
      State(activeTurn, turnIndex, toolCount, hasOutput, turnError, openTools, children, exited, ended, trace)
    }

    constructor ()
      ensures View() == INIT
    {
      activeTurn, turnIndex, toolCount, hasOutput, turnError := "", 0, 0, false, "";
      openTools, children, exited, ended, trace := map[], map[], false, false, [];
    }

    /** The event goes to the pump, which drops it once the stream has ended. */
    ghost method Push(n: Notice)
      modifies this`trace
      ensures View() == Emit(old(View()), n)
    {
      if !ended {
        trace := trace + [n];
      }
    }

    method OnTurnStarted(turn: string)
      modifies this
      ensures View() == Next(old(View()), TurnStart(turn))
    {
      activeTurn := turn;
      turnIndex := turnIndex + 1;
      toolCount, hasOutput, turnError := 0, false, "";
      Push(Own(TurnStarted(turnIndex)));
    }

    /** order is the order the open tools were ranged over in. */
    method OnTurnCompleted(turn: string, status: TurnStatus, error: string) returns (ghost order: seq<string>)
      modifies this
      ensures Enabled(old(View()), TurnEnd(turn, status, error, order))
      ensures View() == Next(old(View()), TurnEnd(turn, status, error, order))
    {
      if activeTurn == turn || activeTurn == "" {
        activeTurn := "";
      }
      var open := openTools;
      openTools := map[];
      ghost var start := View();
      order := [];
      var left := open.Keys;
      while left != {}
        invariant left <= open.Keys
        invariant Distinct(order) && (set id | id in order) == open.Keys - left
        invariant forall id :: id in order ==> id in open
        invariant View() == CancelOpen(start, open, order)
        decreases left
      {
        var id :| id in left;
        CancelOneMore(start, open, order, id);
        assert (set x | x in order + [id]) == (set x | x in order) + {id};
        Push(Own(ToolCompleted(id, open[id], Cancelled, "")));
        order := order + [id];
        left := left - {id};
      }
      if status.TurnBroken? {
        var message := turnError;
        if error != "" {
          message := error;
        }
        if message == "" {
          message := "codex turn failed";
        }
        Push(TurnFailed(message));
        return;
      }
      Push(Own(TurnCompleted(turnIndex, toolCount, hasOutput, StopReason(status))));
    }

    /** watch, up to its event: closing says that the session was told to stop. */
    method Watch(closing: bool, message: string)
      requires !exited
      modifies this
      ensures View() == Next(old(View()), Exit(closing, message))
    {
      exited := true;
      if !closing {
        Push(ProcessExited(message));
      }
    }

    /** The end of watch, when what the process wrote has been read. */
    method WatchEnds()
      requires exited && !ended
      modifies this
      ensures View() == Next(old(View()), EndStream)
    {
      ended := true;
    }

    method OnMessageDelta(delta: string)
      modifies this
      ensures View() == Next(old(View()), MessageDelta(delta))
    {
      if delta == "" {
        return;
      }
      hasOutput := true;
      Push(Own(Text(delta)));
    }

    method OnItemStarted(tool: Option<Tool>, collab: Collab)
      modifies this
      ensures View() == Next(old(View()), ItemStart(tool, collab))
    {
      if tool.Some? {
        toolCount := toolCount + 1;
        openTools := openTools[tool.value.id := tool.value.name];
        Push(Own(ToolStarted(tool.value.id, tool.value.name)));
      }
      OnCollab(collab);
    }

    method OnItemCompleted(result: Option<ToolResult>, collab: Collab)
      modifies this
      ensures View() == Next(old(View()), ItemEnd(result, collab))
    {
      if result.Some? {
        openTools := openTools - {result.value.id};
        Push(Own(ToolCompleted(result.value.id, result.value.name, result.value.status, "")));
      }
      OnCollab(collab);
    }

    method OnCollab(c: Collab)
      modifies this
      ensures View() == AfterCollab(old(View()), c)
    {
      var i := 0;
      while i < |c.spawned|
        invariant 0 <= i <= |c.spawned|
        invariant Spawn(View(), c.spawned[i..]) == Spawn(old(View()), c.spawned)
      {
        var id := c.spawned[i];
        assert c.spawned[i..][0] == id && c.spawned[i..][1..] == c.spawned[i + 1..];
        if id !in children {
          children := children[id := Running];
          Push(ChildStarted(id));
        }
        i := i + 1;
      }
      ghost var mid := View();
      i := 0;
      while i < |c.states|
        invariant 0 <= i <= |c.states|
        invariant ReportAll(View(), c.states[i..]) == ReportAll(mid, c.states)
      {
        var id, status := c.states[i].0, c.states[i].1;
        assert c.states[i..][0] == c.states[i] && c.states[i..][1..] == c.states[i + 1..];
        i := i + 1;
        if id !in children || status.None? || children[id] == status.value || Ended(children[id]) {
          continue;
        }
        children := children[id := status.value];
        if Ended(status.value) {
          Push(ChildDone(id, status.value));
        } else {
          Push(ChildUpdated(id, status));
        }
      }
    }

    method SetChildStatus(thread: string, status: ChildStatus)
      requires !Ended(status)
      modifies this
      ensures View() == Next(old(View()), ChildTurn(thread, status))
    {
      if thread !in children || Ended(children[thread]) {
        return;
      }
      children := children[thread := status];
      Push(ChildUpdated(thread, Some(status)));
    }
  }

  lemma {:induction false} CancelOneMore(s: State, open: map<string, string>, order: seq<string>, id: string)
    requires id in open && forall x :: x in order ==> x in open
    ensures forall x :: x in order + [id] ==> x in open
    ensures CancelOpen(s, open, order + [id]) ==
            Emit(CancelOpen(s, open, order), Own(ToolCompleted(id, open[id], Cancelled, "")))
    decreases |order|
  {
    if order == [] {
      assert ([] + [id])[1..] == [];
    } else {
      assert (order + [id])[0] == order[0] && (order + [id])[1..] == order[1..] + [id];
      CancelOneMore(Emit(s, Own(ToolCompleted(order[0], open[order[0]], Cancelled, ""))), open, order[1..], id);
    }
  }
}
