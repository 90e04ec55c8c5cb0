/** What a reader of a Codex session is told of its items, how its turns end, and what becomes of the agents it spawns:
    driver/codex.go. Everything here is read off the list of notifications. */
module CodexReports {
  import opened Options
  import opened AgentEvents
  import opened Sequences
  import opened CodexLifecycles

  // What the notifications say.

  predicate Over(steps: seq<Step>) {
    EndStream in steps
  }

  function WithCancels(shown: seq<Event>, order: seq<string>): seq<Event> {
    if order == [] then shown
    else
      WithCancels(shown, order[..|order| - 1]) +
      [ToolCompleted(order[|order| - 1], NameOf(shown, order[|order| - 1]), Cancelled, "")]
  }

  /** What was shown, and what one more notification adds: text, reasoning, tools that start and end, and the end of a
      turn, which cancels the tools under way in some order. */
  function Added(shown: seq<Event>, step: Step): seq<Event> {
    match step
    case MessageDelta(delta) => if delta == "" then shown else shown + [Text(delta)]
    case ReasoningDelta(delta) => if delta == "" then shown else shown + [Reasoning(delta)]
    case ItemStart(tool, _) => if tool.None? then shown else shown + [ToolStarted(tool.value.id, tool.value.name)]
    case ItemEnd(result, _) =>
      if result.None? then shown
      else shown + [ToolCompleted(result.value.id, result.value.name, result.value.status, "")]
    case TurnEnd(_, _, _, order) => WithCancels(shown, order)
    case _ => shown
  }

  function Script(steps: seq<Step>): seq<Event> {
    if steps == [] then []
    else
      var init := steps[..|steps| - 1];
      if Over(init) then Script(init) else Added(Script(init), steps[|steps| - 1])
  }

  /** The last error codex reported in the turn. */
  function LastError(steps: seq<Step>): string {
    if steps == [] then ""
    else
      var step := steps[|steps| - 1];
      if step.ErrorNote? then step.message
      else if step.TurnStart? then ""
      else LastError(steps[..|steps| - 1])
  }

  /** The turn under way: the last one started, unless its end has come. */
  function ActiveTurn(steps: seq<Step>): string {
    if steps == [] then ""
    else
      var init, step := steps[..|steps| - 1], steps[|steps| - 1];
      if step.TurnStart? then step.turn
      else if step.TurnEnd? && step.turn == ActiveTurn(init) then ""
      else ActiveTurn(init)
  }

  // What a reader was told.

  function Content(ns: seq<Notice>): seq<Event> {
    if ns == [] then []
    else
      var n := ns[|ns| - 1];
      Content(ns[..|ns| - 1]) + if n.Own? && IsContent(n.event) then [n.event] else []
  }

  lemma ContentOneMore(ns: seq<Notice>, n: Notice)
    ensures Content(ns + [n]) == if n.Own? && IsContent(n.event) then Content(ns) + [n.event] else Content(ns)
  {
    assert (ns + [n])[..|ns|] == ns;
    NoMore(Content(ns));
  }

  /** The fields and the stream are what the notifications so far should have made of them. */
  predicate Tells(s: State, shown: seq<Event>) {
    Content(s.trace) == shown && (!s.ended ==> s.openTools == UnderWay(shown))
  }

  lemma {:induction false} SpawnTellsNothing(s: State, ids: seq<string>)
    ensures var t := Spawn(s, ids);
            Content(t.trace) == Content(s.trace) && t == s.(children := t.children, trace := t.trace)
    decreases |ids|
  {
    if ids != [] {
      ContentOneMore(s.trace, ChildStarted(ids[0]));
      SpawnTellsNothing(if ids[0] in s.children then s
                        else Emit(s.(children := s.children[ids[0] := Running]), ChildStarted(ids[0])), ids[1..]);
    }
  }

  lemma {:induction false} ReportsTellNothing(s: State, states: seq<(string, Option<ChildStatus>)>)
    ensures var t := ReportAll(s, states);
            Content(t.trace) == Content(s.trace) && t == s.(children := t.children, trace := t.trace)
    decreases |states|
  {
    if states != [] {
      var id, status := states[0].0, states[0].1;
      if status.Some? {
        ContentOneMore(s.trace, ChildDone(id, status.value));
        ContentOneMore(s.trace, ChildUpdated(id, status));
      }
      ReportsTellNothing(Report(s, id, status), states[1..]);
    }
  }

  lemma CollabTellsNothing(s: State, c: Collab)
    ensures var t := AfterCollab(s, c);
            Content(t.trace) == Content(s.trace) && t == s.(children := t.children, trace := t.trace)
  {
    SpawnTellsNothing(s, c.spawned);
    ReportsTellNothing(Spawn(s, c.spawned), c.states);
  }

  lemma {:induction false} CancelsTell(trace: seq<Notice>, open: map<string, string>, order: seq<string>, shown: seq<Event>)
    requires (forall id :: id in order ==> id in open) && Content(trace) == shown && open == UnderWay(shown)
    ensures Content(trace + Cancels(open, order)) == WithCancels(shown, order)
    decreases |order|
  {
    if order == [] {
      NoMore(trace);
      assert Cancels(open, order) == [];
    } else {
      var init, last := order[..|order| - 1], order[|order| - 1];
      assert order == init + [last];
      CancelsTell(trace, open, init, shown);
      assert Cancels(open, order) == Cancels(open, init) + [Cancelling(open, last)];
      Assoc(trace, Cancels(open, init), [Cancelling(open, last)]);
      ContentOneMore(trace + Cancels(open, init), Cancelling(open, last));
    }
  }

  /** Cancelling every tool under way leaves none. */
  lemma {:induction false} CancelledAreOver(shown: seq<Event>, order: seq<string>)
    ensures UnderWay(WithCancels(shown, order)) == UnderWay(shown) - set id | id in order
    decreases |order|
  {
    if order == [] {
      assert UnderWay(shown) - (set id | id in order) == UnderWay(shown);
    } else {
      var init, last := order[..|order| - 1], order[|order| - 1];
      CancelledAreOver(shown, init);
      UnderWayAfter(WithCancels(shown, init), ToolCompleted(last, NameOf(shown, last), Cancelled, ""));
      assert (set id | id in order) == (set id | id in init) + {last} by { assert order == init + [last]; }
      assert UnderWay(shown) - (set id | id in init) - {last} == UnderWay(shown) - set id | id in order;
    }
  }

  lemma EndTells(s: State, step: Step, shown: seq<Event>)
    requires step.TurnEnd? && Enabled(s, step) && Tells(s, shown) && !s.ended
    ensures Tells(Next(s, step), Added(shown, step))
  {
    EndEmits(s, step.turn, step.status, step.error, step.order);
    CancelsTell(s.trace, s.openTools, step.order, shown);
    ContentOneMore(s.trace + Cancels(s.openTools, step.order), Closing(s, step.status, step.error));
    CancelledAreOver(shown, step.order);
    assert s.openTools - (set id | id in step.order) == map[];
    EndClosesAll(s, step);
  }

  lemma EndClosesAll(s: State, step: Step)
    requires step.TurnEnd? && Enabled(s, step) && !s.ended
    ensures Next(s, step).openTools == map[]
  {
    assert forall id :: id in step.order <==> id in (set x | x in step.order);
    CancelOpenEmits(s.(activeTurn := if s.activeTurn == step.turn then "" else s.activeTurn, openTools := map[]),
                    s.openTools, step.order);
  }

  /** An event out, and then a collaboration item. */
  lemma EventTells(s: State, t: State, e: Event, c: Collab, shown: seq<Event>)
    requires Tells(s, shown) && !s.ended && !t.ended && IsContent(e) && t.trace == s.trace + [Own(e)]
    requires t.openTools == if e.ToolStarted? then s.openTools[e.id := e.name]
                            else if e.ToolCompleted? then s.openTools - {e.id}
                            else s.openTools
    ensures Tells(AfterCollab(t, c), shown + [e])
  {
    ContentOneMore(s.trace, Own(e));
    UnderWayAfter(shown, e);
    CollabTellsNothing(t, c);
  }

  lemma ItemStartTells(s: State, tool: Tool, c: Collab, shown: seq<Event>)
    requires Tells(s, shown) && !s.ended
    ensures Tells(Next(s, ItemStart(Some(tool), c)), shown + [ToolStarted(tool.id, tool.name)])
  {
    var e := ToolStarted(tool.id, tool.name);
    EventTells(s, Emit(s.(toolCount := s.toolCount + 1, openTools := s.openTools[tool.id := tool.name]), Own(e)), e, c, shown);
  }

  lemma ItemEndTells(s: State, r: ToolResult, c: Collab, shown: seq<Event>)
    requires Tells(s, shown) && !s.ended
    ensures Tells(Next(s, ItemEnd(Some(r), c)), shown + [ToolCompleted(r.id, r.name, r.status, "")])
  {
    var e := ToolCompleted(r.id, r.name, r.status, "");
    EventTells(s, Emit(s.(openTools := s.openTools - {r.id}), Own(e)), e, c, shown);
  }

  lemma DeltaTells(s: State, step: Step, shown: seq<Event>)
    requires (step.MessageDelta? || step.ReasoningDelta?) && Tells(s, shown) && !s.ended
    ensures Tells(Next(s, step), Added(shown, step))
  {
    if step.delta != "" {
      EmittedTells(s, Next(s, step), if step.MessageDelta? then Text(step.delta) else Reasoning(step.delta), shown);
    }
  }

  lemma EmittedTells(s: State, t: State, e: Event, shown: seq<Event>)
    requires Tells(s, shown) && !s.ended && (e.Text? || e.Reasoning?)
    requires t.trace == s.trace + [Own(e)] && t.openTools == s.openTools
    ensures Tells(t, shown + [e])
  {
    ContentOneMore(s.trace, Own(e));
    UnderWayAfter(shown, e);
  }

  lemma OtherTells(s: State, step: Step, shown: seq<Event>)
    requires Enabled(s, step) && Tells(s, shown) && !s.ended
    requires step.TurnStart? || step.ErrorNote? || step.Exit? || step.EndStream? || step.ChildUsage? || step.ChildTurn?
    ensures Tells(Next(s, step), shown)
  {
    match step
    case TurnStart(_) => ContentOneMore(s.trace, Own(TurnStarted(s.turnIndex + 1)));
    case Exit(_, message) => ContentOneMore(s.trace, ProcessExited(message));
    case ChildUsage(thread) => ContentOneMore(s.trace, ChildUpdated(thread, None));
    case ChildTurn(thread, status) => ContentOneMore(s.trace, ChildUpdated(thread, Some(status)));
    case _ =>
  }

  lemma StepTells(s: State, step: Step, shown: seq<Event>)
    requires Enabled(s, step) && Tells(s, shown) && !s.ended
    ensures Tells(Next(s, step), Added(shown, step))
  {
    match step
    case TurnEnd(_, _, _, _) => EndTells(s, step, shown);
    case ItemStart(tool, c) => if tool.Some? { ItemStartTells(s, tool.value, c, shown); } else { CollabTellsNothing(s, c); }
    case ItemEnd(r, c) => if r.Some? { ItemEndTells(s, r.value, c, shown); } else { CollabTellsNothing(s, c); }
    case MessageDelta(_) => DeltaTells(s, step, shown);
    case ReasoningDelta(_) => DeltaTells(s, step, shown);
    case _ => OtherTells(s, step, shown);
  }

  lemma FieldsAfter(s: State, step: Step)
    requires Enabled(s, step)
    ensures Next(s, step).turnError ==
            if step.ErrorNote? then step.message else if step.TurnStart? then "" else s.turnError
    ensures Next(s, step).activeTurn ==
            if step.TurnStart? then step.turn else if step.TurnEnd? && step.turn == s.activeTurn then "" else s.activeTurn
    ensures Next(s, step).ended == (s.ended || step.EndStream?)
  {
    match step
    case TurnEnd(_, _, _, _) => FieldsAfterEnd(s, step);
    case ItemStart(tool, collab) =>
      CollabTellsNothing(if tool.None? then s
                         else Emit(s.(toolCount := s.toolCount + 1,
                                      openTools := s.openTools[tool.value.id := tool.value.name]),
                                   Own(ToolStarted(tool.value.id, tool.value.name))), collab);
    case ItemEnd(result, collab) =>
      CollabTellsNothing(if result.None? then s
                         else Emit(s.(openTools := s.openTools - {result.value.id}),
                                   Own(ToolCompleted(result.value.id, result.value.name, result.value.status, ""))), collab);
    case _ =>
  }

  lemma FieldsAfterEnd(s: State, step: Step)
    requires step.TurnEnd? && Enabled(s, step)
    ensures var t := Next(s, step);
            && t.turnError == s.turnError && t.ended == s.ended
            && t.activeTurn == if step.turn == s.activeTurn then "" else s.activeTurn
  {
    var mid := s.(activeTurn := if s.activeTurn == step.turn then "" else s.activeTurn, openTools := map[]);
    assert forall id :: id in step.order <==> id in (set x | x in step.order);
    if s.ended {
      CancelIsSilent(mid, s.openTools, step.order);
    } else {
      CancelOpenEmits(mid, s.openTools, step.order);
    }
  }

  predicate RunInv(steps: seq<Step>, s: State) {
    Tells(s, Script(steps)) && s.ended == Over(steps) && s.turnError == LastError(steps) &&
    s.activeTurn == ActiveTurn(steps) && (s.ended ==> s.exited)
  }

  lemma StepKeeps(done: seq<Step>, s: State, step: Step)
    requires RunInv(done, s) && Enabled(s, step)
    ensures RunInv(done + [step], Next(s, step))
  {
    assert (done + [step])[..|done|] == done;
    FieldsAfter(s, step);
    if s.ended {
      EndedIsSilent(s, step);
    } else {
      StepTells(s, step, Script(done));
      ExitedAfter(s, step);
    }
  }

  lemma ExitedAfter(s: State, step: Step)
    requires Enabled(s, step) && !s.ended
    ensures Next(s, step).ended ==> Next(s, step).exited
  {
    FieldsAfter(s, step);
  }

  lemma {:induction false} RunKeeps(done: seq<Step>, s: State, steps: seq<Step>, t: State)
    requires RunInv(done, s) && Reaches(s, steps, t)
    ensures RunInv(done + steps, t)
    decreases |steps|
  {
    if steps == [] {
      NoMore(done);
    } else {
      StepKeeps(done, s, steps[0]);
      RunKeeps(done + [steps[0]], Next(s, steps[0]), steps[1..], t);
      Assoc(done, [steps[0]], steps[1..]);
      assert [steps[0]] + steps[1..] == steps;
    }
  }

  /** Any sequence of notifications: until the stream ends, a reader is told the text, the reasoning and the tools of the
      session's own thread as codex gave them, in order, none lost and none twice; the end of a turn cancels each tool
      under way under its name; and after the end of the stream nothing comes. */
  lemma EverythingIsToldOnce(steps: seq<Step>, s: State)
    requires Reaches(INIT, steps, s)
    ensures Content(s.trace) == Script(steps)
    ensures !Over(steps) ==> s.openTools == UnderWay(Script(steps))
    ensures s.activeTurn == ActiveTurn(steps)
  {
    RunKeeps([], INIT, steps, s);
    assert [] + steps == steps;
  }

  /** How a turn ends: a failed one with the error given, or else the last one reported in the turn; the others say whether
      they completed or were interrupted. */
  lemma HowATurnEnds(steps: seq<Step>, s: State, turn: string, status: TurnStatus, error: string, order: seq<string>)
    requires Reaches(INIT, steps, s) && Enabled(s, TurnEnd(turn, status, error, order)) && !Over(steps)
    ensures var t := Next(s, TurnEnd(turn, status, error, order));
            && |t.trace| > 0
            && var n := t.trace[|t.trace| - 1];
               if status.TurnBroken? then
                 n.TurnFailed? && (error != "" ==> n.message == error) &&
                 (error == "" && LastError(steps) != "" ==> n.message == LastError(steps))
               else n.Own? && n.event.TurnCompleted? && n.event.stop == if status.TurnOk? then "completed" else "interrupted"
  {
    RunKeeps([], INIT, steps, s);
    assert [] + steps == steps;
    EndEmits(s, turn, status, error, order);
  }

  // Spawned agents.

  function StatusBefore(children: map<string, ChildStatus>, id: string): ChildStatus {
    if id in children then children[id] else Running
  }

  lemma {:induction false} SpawnAdds(s: State, ids: seq<string>)
    ensures var t := Spawn(s, ids);
            && t.children.Keys == s.children.Keys + (set id | id in ids)
            && forall id <- t.children :: t.children[id] == StatusBefore(s.children, id)
    decreases |ids|
  {
    if ids != [] {
      var u := if ids[0] in s.children then s
               else Emit(s.(children := s.children[ids[0] := Running]), ChildStarted(ids[0]));
      SpawnAdds(u, ids[1..]);
      assert (set id | id in ids) == {ids[0]} + set id | id in ids[1..];
    }
  }

  predicate OneEach(states: seq<(string, Option<ChildStatus>)>) {
    forall i, j :: 0 <= i < j < |states| ==> states[i].0 != states[j].0
  }

  /** The status reported for id, if the states have one. */
  function Given(states: seq<(string, Option<ChildStatus>)>, id: string): Option<ChildStatus> {
    if states == [] then None else if states[0].0 == id then states[0].1 else Given(states[1..], id)
  }

  lemma {:induction false} NotGiven(states: seq<(string, Option<ChildStatus>)>, id: string)
    requires forall i :: 0 <= i < |states| ==> states[i].0 != id
    ensures Given(states, id) == None
    decreases |states|
  {
    if states != [] {
      NotGiven(states[1..], id);
    }
  }

  lemma {:induction false} ReportsSet(s: State, states: seq<(string, Option<ChildStatus>)>, id: string)
    requires OneEach(states)
    ensures var t := ReportAll(s, states);
            && t.children.Keys == s.children.Keys
            && (id in s.children ==>
                  t.children[id] ==
                  if Given(states, id).Some? && !Ended(s.children[id]) then Given(states, id).value else s.children[id])
    decreases |states|
  {
    if states != [] {
      var u := Report(s, states[0].0, states[0].1);
      assert u.children.Keys == s.children.Keys;
      ReportsSet(u, states[1..], id);
      if states[0].0 == id {
        NotGiven(states[1..], id);
      }
    }
  }

  /** What a reader knows after a prefix of the stream. */
  function Known(trace: seq<Notice>): Option<Facts> {
    CodexLifecycles.ReadAll(NO_FACTS, trace)
  }

  /** What a collaboration item leaves a reader knowing: the agents it knew and those it spawned, each with the status the
      item gives it unless it had ended, and otherwise the one it had or running. */
  lemma CollabIsTold(steps: seq<Step>, s: State, step: Step, id: string)
    requires Reaches(INIT, steps, s) && Enabled(s, step) && !Over(steps) && (step.ItemStart? || step.ItemEnd?)
    requires OneEach(step.collab.states)
    ensures Known(s.trace).Some? && Known(Next(s, step).trace).Some?
    ensures var was, now := Known(s.trace).value.children, Known(Next(s, step).trace).value.children;
            && (id in now <==> id in was || id in step.collab.spawned)
            && (id in now ==>
                  now[id] == if Given(step.collab.states, id).Some? && !Ended(StatusBefore(was, id))
                             then Given(step.collab.states, id).value else StatusBefore(was, id))
  {
    RunKeeps([], INIT, steps, s);
    assert [] + steps == steps;
    assert Leaves(INIT, FactsOf(INIT));
    RunKeepsInv(INIT, steps, s);
    StepKeepsInv(s, step);
    FieldsAfter(s, step);
    CollabSets(s, step, id);
  }

  lemma CollabSets(s: State, step: Step, id: string)
    requires Enabled(s, step) && (step.ItemStart? || step.ItemEnd?) && OneEach(step.collab.states)
    ensures var was, now := s.children, Next(s, step).children;
            && (id in now <==> id in was || id in step.collab.spawned)
            && (id in now ==>
                  now[id] == if Given(step.collab.states, id).Some? && !Ended(StatusBefore(was, id))
                             then Given(step.collab.states, id).value else StatusBefore(was, id))
  {
    var t := if step.ItemStart? then
               if step.tool.None? then s
               else Emit(s.(toolCount := s.toolCount + 1,
                            openTools := s.openTools[step.tool.value.id := step.tool.value.name]),
                         Own(ToolStarted(step.tool.value.id, step.tool.value.name)))
             else if step.result.None? then s
             else Emit(s.(openTools := s.openTools - {step.result.value.id}),
                       Own(ToolCompleted(step.result.value.id, step.result.value.name, step.result.value.status, "")));
    SpawnAdds(t, step.collab.spawned);
    assert id in (set x | x in step.collab.spawned) <==> id in step.collab.spawned;
    ReportsSet(Spawn(t, step.collab.spawned), step.collab.states, id);
  }

  /** A spawned thread's own turn gives its agent a status, unless it has ended or is not the session's. */
  lemma ChildTurnIsTold(steps: seq<Step>, s: State, thread: string, status: ChildStatus)
    requires Reaches(INIT, steps, s) && Enabled(s, ChildTurn(thread, status)) && !Over(steps)
    ensures Known(s.trace).Some? && Known(Next(s, ChildTurn(thread, status)).trace).Some?
    ensures var was := Known(s.trace).value.children;
            Known(Next(s, ChildTurn(thread, status)).trace).value.children ==
            if thread in was && !Ended(was[thread]) then was[thread := status] else was
  {
    RunKeeps([], INIT, steps, s);
    assert [] + steps == steps;
    RunKeepsInv(INIT, steps, s);
    StepKeepsInv(s, ChildTurn(thread, status));
  }
}
