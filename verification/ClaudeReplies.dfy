/** What a reader of a Claude session is shown of the model's messages, and when a tool or a turn is reported as cut
    short: driver/claude.go. Everything here is read off the list of steps a run took. */
module ClaudeReplies {
  import opened Options
  import opened AgentEvents
  import opened Sequences
  import opened ClaudeSession

  // What the steps of a run should show.

  /** A text delta with text in it came since the last message start and the last end of a turn. */
  predicate Streamed(steps: seq<Step>) {
    exists i :: 0 <= i < |steps| && CarriesText(steps[i]) &&
                forall j :: i < j < |steps| ==> !steps[j].MessageStart? && !steps[j].Finish?
  }

  predicate CarriesText(step: Step) {
    step.TextDelta? && step.text != ""
  }

  /** A message's blocks: its tools, and its texts unless deltas carried them. */
  function BlockShown(b: Block, streamed: bool): seq<Event> {
    if b.ToolBlock? then [ToolStarted(b.id, b.name)] else if b.text != "" && !streamed then [Text(b.text)] else []
  }

  function BlocksShown(bs: seq<Block>, streamed: bool): seq<Event> {
    if bs == [] then [] else BlocksShown(bs[..|bs| - 1], streamed) + BlockShown(bs[|bs| - 1], streamed)
  }

  /** What was shown, and then the results of tools, each under the name its tool was started with. */
  function ResultsShown(shown: seq<Event>, rs: seq<ToolResult>): seq<Event> {
    if rs == [] then shown
    else
      var before, r := ResultsShown(shown, rs[..|rs| - 1]), rs[|rs| - 1];
      before + [ToolCompleted(r.id, NameOf(before, r.id), if r.failed then Failed else Completed, r.text)]
  }

  /** What was shown, and what one more step adds. */
  function Added(shown: seq<Event>, streamed: bool, step: Step): seq<Event> {
    match step
    case TextDelta(text) => if text != "" then shown + [Text(text)] else shown
    case ThinkingDelta(text) => if text != "" then shown + [Reasoning(text)] else shown
    case Assistant(blocks) => shown + BlocksShown(blocks, streamed)
    case User(results) => ResultsShown(shown, results)
    case _ => shown
  }

  /** All a reader should be shown of what happened inside turns, in order. */
  function Script(steps: seq<Step>): seq<Event> {
    if steps == [] then []
    else
      var init := steps[..|steps| - 1];
      Added(Script(init), Streamed(init), steps[|steps| - 1])
  }

  lemma ScriptStep(steps: seq<Step>, step: Step)
    ensures Script(steps + [step]) == Added(Script(steps), Streamed(steps), step)
  {
    assert (steps + [step])[..|steps|] == steps;
  }

  lemma SayIsHeard(s: State, o: Out)
    ensures Heard(OwnEvents(Say(s, o).trace)) == Heard(OwnEvents(s.trace)) + Heard(o.events)
  {
    OwnEventsAppend(s.trace, Owns(o.events));
    OwnEventsOfOwns(o.events);
    HeardAppend(OwnEvents(s.trace), o.events);
  }

  // One step.

  predicate StreamsAgree(t: Turn, streamed: bool) {
    t.active && t.streamedText <==> streamed
  }

  /** What the session has emitted and remembers is what the steps so far should have shown. */
  predicate ShowsInv(steps: seq<Step>, s: State) {
    && Heard(OwnEvents(s.trace)) == Script(steps)
    && s.turn.tools == UnderWay(Script(steps))
    && (s.exit.Running? ==> StreamsAgree(s.turn, Streamed(steps)))
  }

  lemma StreamedStep(steps: seq<Step>, step: Step)
    ensures Streamed(steps + [step]) <==>
            CarriesText(step) || (Streamed(steps) && !step.MessageStart? && !step.Finish?)
  {
    var all := steps + [step];
    assert forall i :: 0 <= i < |steps| ==> all[i] == steps[i];
    if CarriesText(step) {
      assert CarriesText(all[|steps|]);
    }
    if Streamed(steps) && !step.MessageStart? && !step.Finish? {
      var i :| 0 <= i < |steps| && CarriesText(steps[i]) &&
               forall j :: i < j < |steps| ==> !steps[j].MessageStart? && !steps[j].Finish?;
      assert CarriesText(all[i]);
    }
    if Streamed(all) && !CarriesText(step) {
      assert all[|steps|] == step;
    }
  }

  lemma OpenedShowsNothing(t: Turn)
    ensures Heard(Opened(t).events) == []
    ensures Opened(t).turn.tools == t.tools && Opened(t).turn.active
    ensures Opened(t).turn.streamedText == (t.active && t.streamedText)
  {
    if !t.active {
      HeardOne(TurnStarted(t.index + 1));
    }
  }

  lemma BlockIsShown(t: Turn, b: Block, shown: seq<Event>)
    requires t.tools == UnderWay(shown)
    ensures var p, more := OnBlock(t, b), BlockShown(b, t.streamedText);
            && Heard(p.events) == more && p.turn.tools == UnderWay(shown + more)
            && p.turn.active == t.active && p.turn.streamedText == t.streamedText
  {
    if b.ToolBlock? {
      HeardOne(ToolStarted(b.id, b.name));
      UnderWayAfter(shown, ToolStarted(b.id, b.name));
    } else if b.text != "" && !t.streamedText {
      HeardOne(Text(b.text));
      UnderWayAfter(shown, Text(b.text));
    } else {
      assert shown + [] == shown;
    }
  }

  lemma {:induction false} BlocksAreShown(o: Out, bs: seq<Block>, shown: seq<Event>)
    requires o.turn.tools == UnderWay(shown)
    ensures var p, more := OnBlocks(o, bs), BlocksShown(bs, o.turn.streamedText);
            && Heard(p.events) == Heard(o.events) + more && p.turn.tools == UnderWay(shown + more)
            && p.turn.active == o.turn.active && p.turn.streamedText == o.turn.streamedText
    decreases |bs|
  {
    if bs == [] {
      assert shown + [] == shown;
      assert Heard(o.events) + [] == Heard(o.events);
    } else {
      var n := |bs| - 1;
      BlocksAreShown(o, bs[..n], shown);
      var before, more := OnBlocks(o, bs[..n]), BlocksShown(bs[..n], o.turn.streamedText);
      var last := BlockShown(bs[n], o.turn.streamedText);
      BlockIsShown(before.turn, bs[n], shown + more);
      HeardThen(Heard(o.events), before.events, OnBlock(before.turn, bs[n]).events, more, last);
      Assoc(shown, more, last);
    }
  }

  lemma ResultIsShown(t: Turn, r: ToolResult, shown: seq<Event>)
    requires t.tools == UnderWay(shown)
    ensures var p, e := OnToolResult(t, r),
                        ToolCompleted(r.id, NameOf(shown, r.id), if r.failed then Failed else Completed, r.text);
            && Heard(p.events) == [e] && p.turn.tools == UnderWay(shown + [e])
            && p.turn.active == t.active && p.turn.streamedText == t.streamedText
  {
    HeardOne(OnToolResult(t, r).events[0]);
    UnderWayAfter(shown, Plain(OnToolResult(t, r).events[0]));
  }

  lemma {:induction false} ResultsAreShown(o: Out, rs: seq<ToolResult>, shown: seq<Event>, earlier: seq<Event>)
    requires o.turn.tools == UnderWay(shown) && earlier + Heard(o.events) == shown
    ensures var p, all := OnToolResults(o, rs), ResultsShown(shown, rs);
            && earlier + Heard(p.events) == all && p.turn.tools == UnderWay(all)
            && p.turn.active == o.turn.active && p.turn.streamedText == o.turn.streamedText
    decreases |rs|
  {
    if rs != [] {
      var n := |rs| - 1;
      ResultsAreShown(o, rs[..n], shown, earlier);
      var before, all := OnToolResults(o, rs[..n]), ResultsShown(shown, rs[..n]);
      ResultIsShown(before.turn, rs[n], all);
      HeardAppend(before.events, OnToolResult(before.turn, rs[n]).events);
      Assoc(earlier, Heard(before.events), Heard(OnToolResult(before.turn, rs[n]).events));
    }
  }

  /** A handler's events, and the fields it leaves, are what the step adds. */
  lemma SayShows(steps: seq<Step>, s: State, step: Step, o: Out)
    requires ShowsInv(steps, s) && Enabled(s, step) && Next(s, step) == Say(s, o)
    requires Heard(OwnEvents(s.trace)) + Heard(o.events) == Added(Script(steps), Streamed(steps), step)
    requires o.turn.tools == UnderWay(Added(Script(steps), Streamed(steps), step))
    requires StreamsAgree(o.turn, Streamed(steps + [step]))
    ensures ShowsInv(steps + [step], Next(s, step))
  {
    ScriptStep(steps, step);
    SayIsHeard(s, o);
  }

  /** One delta: e is the event it emits unless it is empty. */
  lemma DeltaIsShown(t: Turn, text: string, thinking: bool, shown: seq<Event>)
    requires t.tools == UnderWay(shown)
    ensures var p, e := if thinking then OnThinking(t, text) else OnText(t, text),
                        if thinking then Reasoning(text) else Text(text);
            && Heard(p.events) == (if text == "" then [] else [e])
            && p.turn.tools == UnderWay(if text == "" then shown else shown + [e])
            && (p.turn.active && p.turn.streamedText <==>
                (t.active && t.streamedText) || (!thinking && text != ""))
  {
    OpenedShowsNothing(t);
    if text != "" {
      var e := if thinking then Reasoning(text) else Text(text);
      HeardAppend(Opened(t).events, [e]);
      HeardOne(e);
      UnderWayAfter(shown, e);
    }
  }

  lemma OutputIsShown(steps: seq<Step>, s: State, step: Step)
    requires ShowsInv(steps, s) && Enabled(s, step) && !IsQuiet(step)
    ensures ShowsInv(steps + [step], Next(s, step))
  {
    StreamedStep(steps, step);
    var shown := Script(steps);
    assert shown + [] == shown;
    match step
    case TextDelta(text) =>
      DeltaIsShown(s.turn, text, false, shown);
      SayShows(steps, s, step, OnText(s.turn, text));
    case ThinkingDelta(text) =>
      DeltaIsShown(s.turn, text, true, shown);
      SayShows(steps, s, step, OnThinking(s.turn, text));
    case Assistant(blocks) => MessageIsShown(steps, s, blocks);
    case User(results) =>
      ResultsAreShown(Out(s.turn, []), results, shown, shown);
      SayShows(steps, s, step, OnToolResults(Out(s.turn, []), results));
  }

  lemma MessageIsShown(steps: seq<Step>, s: State, blocks: seq<Block>)
    requires ShowsInv(steps, s) && Enabled(s, Assistant(blocks))
    ensures ShowsInv(steps + [Assistant(blocks)], Next(s, Assistant(blocks)))
  {
    StreamedStep(steps, Assistant(blocks));
    OpenedShowsNothing(s.turn);
    var o := Opened(s.turn);
    assert o.turn.streamedText == Streamed(steps);
    BlocksAreShown(o, blocks, Script(steps));
    assert Heard(o.events) + BlocksShown(blocks, Streamed(steps)) == BlocksShown(blocks, Streamed(steps));
    SayShows(steps, s, Assistant(blocks), OnBlocks(o, blocks));
  }

  lemma SilentAppend(trace: seq<Notice>, more: seq<Notice>)
    requires Heard(OwnEvents(more)) == []
    ensures Heard(OwnEvents(trace + more)) == Heard(OwnEvents(trace))
  {
    OwnEventsAppend(trace, more);
    HeardAppend(OwnEvents(trace), OwnEvents(more));
    NoMore(Heard(OwnEvents(trace)));
  }

  lemma SilentOwns(trace: seq<Notice>, es: seq<Event>)
    requires Heard(es) == []
    ensures Heard(OwnEvents(trace + Owns(es))) == Heard(OwnEvents(trace))
  {
    OwnEventsOfOwns(es);
    SilentAppend(trace, Owns(es));
  }

  lemma SilentEnd(trace: seq<Notice>, first: seq<Event>, order: seq<nat>, last: seq<Event>)
    requires Heard(first) == [] && Heard(last) == []
    ensures Heard(OwnEvents(trace + Owns(first) + Closings(order) + Owns(last))) == Heard(OwnEvents(trace))
  {
    SilentOwns(trace, first);
    ClosingsAreNotOwn(order);
    SilentAppend(trace + Owns(first), Closings(order));
    SilentOwns(trace + Owns(first) + Closings(order), last);
  }

  lemma EndShowsNothing(s: State, r: Result, order: seq<nat>)
    requires Enabled(s, Finish(r, order))
    ensures Heard(OwnEvents(Next(s, Finish(r, order)).trace)) == Heard(OwnEvents(s.trace))
  {
    if !EndsNothing(s.turn, r) {
      var o := Opened(s.turn);
      OpenedShowsNothing(s.turn);
      HeardOne(EndEvent(o.turn, r));
      SilentEnd(s.trace, o.events, order, Ended(o.turn, r).events);
    }
  }

  lemma NoticeShowsNothing(trace: seq<Notice>, n: Notice)
    requires n.Own? ==> IsBoundary(n.event)
    ensures Heard(OwnEvents(trace + [n])) == Heard(OwnEvents(trace))
  {
    assert (trace + [n])[..|trace|] == trace;
    if n.Own? {
      HeardAppend(OwnEvents(trace), [n.event]);
      HeardOne(n.event);
      NoMore(Heard(OwnEvents(trace)));
    } else {
      NoMore(OwnEvents(trace));
    }
  }

  predicate IsQuiet(step: Step) {
    !step.TextDelta? && !step.ThinkingDelta? && !step.Assistant? && !step.User?
  }

  lemma QuietFields(s: State, step: Step, streamed: bool)
    requires Enabled(s, step) && IsQuiet(step)
    ensures Next(s, step).turn.tools == s.turn.tools
    ensures Next(s, step).exit.Running? && StreamsAgree(s.turn, streamed) ==>
              StreamsAgree(Next(s, step).turn, streamed && !step.MessageStart? && !step.Finish?)
    ensures Next(s, step).exit.Running? ==> s.exit.Running?
  {
  }

  lemma QuietStep(steps: seq<Step>, s: State, step: Step)
    requires ShowsInv(steps, s) && Enabled(s, step) && IsQuiet(step)
    ensures ShowsInv(steps + [step], Next(s, step))
  {
    StreamedStep(steps, step);
    ScriptStep(steps, step);
    OtherShowsNothing(s, step);
    QuietFields(s, step, Streamed(steps));
  }

  lemma OtherShowsNothing(s: State, step: Step)
    requires Enabled(s, step) && IsQuiet(step)
    ensures Heard(OwnEvents(Next(s, step).trace)) == Heard(OwnEvents(s.trace))
  {
    match step
    case Prompt =>
      OpenedShowsNothing(s.turn);
      SayIsHeard(s, Opened(s.turn));
      NoMore(Heard(OwnEvents(s.trace)));
    case MessageStart =>
      OpenedShowsNothing(s.turn);
      SayIsHeard(s, OnMessageStart(s.turn));
      NoMore(Heard(OwnEvents(s.trace)));
    case Finish(r, order) => EndShowsNothing(s, r, order);
    case Announce(k) => NoticeShowsNothing(s.trace, Required(k));
    case Report(k) => NoticeShowsNothing(s.trace, Resolved(k));
    case ReportExit(message) => NoticeShowsNothing(s.trace, Own(Error(message, "process_exited")));
    case _ =>
  }

  // Runs.

  lemma {:induction false} RunShows(done: seq<Step>, s: State, steps: seq<Step>, t: State)
    requires ShowsInv(done, s) && Reaches(s, steps, t)
    ensures ShowsInv(done + steps, t)
    decreases |steps|
  {
    if steps == [] {
      assert done + steps == done;
    } else {
      var step := steps[0];
      if IsQuiet(step) {
        QuietStep(done, s, step);
      } else {
        OutputIsShown(done, s, step);
      }
      RunShows(done + [step], Next(s, step), steps[1..], t);
      assert done + [step] + steps[1..] == done + steps;
    }
  }

  /** Over every interleaving of handlers: the events inside turns are the non-empty deltas, each message's tools and,
      where no delta of the message carried text, its non-empty texts, and the tool results under the names their tools
      were started with; all in order, none lost and none twice. */
  lemma EverythingIsShownOnce(steps: seq<Step>, t: State)
    requires Reaches(INIT, steps, t)
    ensures Heard(OwnEvents(t.trace)) == Script(steps)
  {
    RunShows([], INIT, steps, t);
    assert [] + steps == steps;
  }

  // One message.

  function TextsOf(es: seq<Event>): seq<string> {
    if es == [] then []
    else
      var e := es[|es| - 1];
      TextsOf(es[..|es| - 1]) + if e.Text? then [e.delta] else []
  }

  function ToolsOf(es: seq<Event>): seq<(string, string)> {
    if es == [] then []
    else
      var e := es[|es| - 1];
      ToolsOf(es[..|es| - 1]) + if e.ToolStarted? then [(e.id, e.name)] else []
  }

  function DeltaTexts(steps: seq<Step>): seq<string> {
    if steps == [] then []
    else
      var step := steps[|steps| - 1];
      DeltaTexts(steps[..|steps| - 1]) + if CarriesText(step) then [step.text] else []
  }

  function BlockTexts(bs: seq<Block>): seq<string> {
    if bs == [] then []
    else
      var b := bs[|bs| - 1];
      BlockTexts(bs[..|bs| - 1]) + if b.TextBlock? && b.text != "" then [b.text] else []
  }

  function BlockTools(bs: seq<Block>): seq<(string, string)> {
    if bs == [] then []
    else
      var b := bs[|bs| - 1];
      BlockTools(bs[..|bs| - 1]) + if b.ToolBlock? then [(b.id, b.name)] else []
  }

  lemma {:induction false} PickAppend(a: seq<Event>, b: seq<Event>)
    ensures TextsOf(a + b) == TextsOf(a) + TextsOf(b)
    ensures ToolsOf(a + b) == ToolsOf(a) + ToolsOf(b)
    decreases |b|
  {
    if b == [] {
      assert a + b == a;
    } else {
      var n := |b| - 1;
      assert (a + b)[..|a| + n] == a + b[..n];
      PickAppend(a, b[..n]);
    }
  }

  lemma PickMore(es: seq<Event>, e: Event)
    ensures TextsOf(es + [e]) == if e.Text? then TextsOf(es) + [e.delta] else TextsOf(es)
    ensures ToolsOf(es + [e]) == if e.ToolStarted? then ToolsOf(es) + [(e.id, e.name)] else ToolsOf(es)
  {
    assert (es + [e])[..|es|] == es;
  }

  lemma {:induction false} PickHeard(es: seq<Event>)
    ensures TextsOf(Heard(es)) == TextsOf(es) && ToolsOf(Heard(es)) == ToolsOf(es)
  {
    if es != [] {
      var n := |es| - 1;
      PickHeard(es[..n]);
      PickMore(es[..n], es[n]);
      assert es == es[..n] + [es[n]];
      if !IsBoundary(es[n]) {
        PickMore(Heard(es[..n]), Plain(es[n]));
      } else {
        assert Heard(es) == Heard(es[..n]);
      }
    }
  }

  lemma PickBlock(b: Block, streamed: bool)
    ensures TextsOf(BlockShown(b, streamed)) == if !streamed && b.TextBlock? && b.text != "" then [b.text] else []
    ensures ToolsOf(BlockShown(b, streamed)) == if b.ToolBlock? then [(b.id, b.name)] else []
  {
    PickMore([], if b.ToolBlock? then ToolStarted(b.id, b.name) else Text(b.text));
  }

  lemma {:induction false} PickBlocks(bs: seq<Block>, streamed: bool)
    ensures TextsOf(BlocksShown(bs, streamed)) == if streamed then [] else BlockTexts(bs)
    ensures ToolsOf(BlocksShown(bs, streamed)) == BlockTools(bs)
  {
    if bs != [] {
      var n := |bs| - 1;
      PickBlocks(bs[..n], streamed);
      PickBlock(bs[n], streamed);
      PickAppend(BlocksShown(bs[..n], streamed), BlockShown(bs[n], streamed));
    }
  }

  lemma {:induction false} PickResults(shown: seq<Event>, rs: seq<ToolResult>)
    ensures TextsOf(ResultsShown(shown, rs)) == TextsOf(shown) && ToolsOf(ResultsShown(shown, rs)) == ToolsOf(shown)
    decreases |rs|
  {
    if rs != [] {
      var before, all := ResultsShown(shown, rs[..|rs| - 1]), ResultsShown(shown, rs);
      PickResults(shown, rs[..|rs| - 1]);
      assert all[..|all| - 1] == before;
    }
  }

  /** Steps between the start of a message and its settled copy. */
  predicate InMessage(step: Step) {
    !step.MessageStart? && !step.Assistant? && !step.Finish?
  }

  lemma PickAdded(shown: seq<Event>, streamed: bool, step: Step)
    requires InMessage(step)
    ensures TextsOf(Added(shown, streamed, step)) == TextsOf(shown) + if CarriesText(step) then [step.text] else []
    ensures ToolsOf(Added(shown, streamed, step)) == ToolsOf(shown)
  {
    match step
    case TextDelta(text) => PickMore(shown, Text(text));
    case ThinkingDelta(text) => PickMore(shown, Reasoning(text));
    case User(results) => PickResults(shown, results);
    case _ =>
  }

  lemma {:induction false} BetweenIsShown(before: seq<Step>, between: seq<Step>)
    requires forall step <- between :: InMessage(step)
    ensures var steps := before + [MessageStart] + between;
            && TextsOf(Script(steps)) == TextsOf(Script(before)) + DeltaTexts(between)
            && ToolsOf(Script(steps)) == ToolsOf(Script(before))
            && (Streamed(steps) <==> DeltaTexts(between) != [])
    decreases |between|
  {
    var began := before + [MessageStart];
    if between == [] {
      assert began + between == began;
      ScriptStep(before, MessageStart);
      StreamedStep(before, MessageStart);
    } else {
      var n := |between| - 1;
      var init, step := began + between[..n], between[n];
      BetweenIsShown(before, between[..n]);
      Assoc(began, between[..n], [step]);
      assert between == between[..n] + [step] && InMessage(step);
      ScriptStep(init, step);
      StreamedStep(init, step);
      PickAdded(Script(init), Streamed(init), step);
      Assoc(TextsOf(Script(before)), DeltaTexts(between[..n]), if CarriesText(step) then [step.text] else []);
    }
  }

  lemma MessagePicked(before: seq<Step>, between: seq<Step>, blocks: seq<Block>)
    requires forall step <- between :: InMessage(step)
    ensures var steps := before + [MessageStart] + between + [Assistant(blocks)];
            && TextsOf(Script(steps)) ==
               TextsOf(Script(before)) + (if DeltaTexts(between) != [] then DeltaTexts(between) else BlockTexts(blocks))
            && ToolsOf(Script(steps)) == ToolsOf(Script(before)) + BlockTools(blocks)
  {
    var streaming := before + [MessageStart] + between;
    BetweenIsShown(before, between);
    ScriptStep(streaming, Assistant(blocks));
    PickAppend(Script(streaming), BlocksShown(blocks, Streamed(streaming)));
    PickBlocks(blocks, Streamed(streaming));
    assert TextsOf(Script(before)) + DeltaTexts(between) + [] == TextsOf(Script(before)) + DeltaTexts(between);
    assert TextsOf(Script(before)) + [] == TextsOf(Script(before));
  }

  /** A message that starts, streams and settles, whatever else happens meanwhile: a reader gets its text once, from the
      deltas if any carried text and from the settled copy otherwise, and each tool it calls, in order. */
  lemma TextIsShownOnce(before: seq<Step>, s: State, between: seq<Step>, blocks: seq<Block>, t: State)
    requires Reaches(INIT, before, s) && Reaches(INIT, before + [MessageStart] + between + [Assistant(blocks)], t)
    requires forall step <- between :: InMessage(step)
    ensures TextsOf(OwnEvents(t.trace)) == TextsOf(OwnEvents(s.trace)) +
                                           if DeltaTexts(between) != [] then DeltaTexts(between) else BlockTexts(blocks)
    ensures ToolsOf(OwnEvents(t.trace)) == ToolsOf(OwnEvents(s.trace)) + BlockTools(blocks)
  {
    EverythingIsShownOnce(before, s);
    EverythingIsShownOnce(before + [MessageStart] + between + [Assistant(blocks)], t);
    PickHeard(OwnEvents(s.trace));
    PickHeard(OwnEvents(t.trace));
    MessagePicked(before, between, blocks);
  }

  // How tools and turns end.

  predicate Opens(step: Step) {
    step.Prompt? || step.MessageStart? || step.TextDelta? || step.ThinkingDelta? || step.Assistant?
  }

  /** Output of a turn came since the last one ended. */
  predicate TurnOpen(steps: seq<Step>) {
    exists i :: 0 <= i < |steps| && Opens(steps[i]) &&
                forall j :: i < j < |steps| ==> !steps[j].Finish? && !steps[j].ProcessExits?
  }

  /** The turn was interrupted while it was open, and has not ended since. */
  predicate Interrupted(steps: seq<Step>) {
    exists i :: 0 <= i < |steps| && steps[i].Interrupt? && TurnOpen(steps[..i]) &&
                forall j :: i < j < |steps| ==> !steps[j].Finish?
  }

  lemma TurnOpenStep(steps: seq<Step>, step: Step)
    ensures TurnOpen(steps + [step]) <==> Opens(step) || (TurnOpen(steps) && !step.Finish? && !step.ProcessExits?)
  {
    var all := steps + [step];
    assert forall i :: 0 <= i < |steps| ==> all[i] == steps[i];
    if Opens(step) {
      assert Opens(all[|steps|]);
    }
    if TurnOpen(steps) && !step.Finish? && !step.ProcessExits? {
      var i :| 0 <= i < |steps| && Opens(steps[i]) &&
               forall j :: i < j < |steps| ==> !steps[j].Finish? && !steps[j].ProcessExits?;
      assert Opens(all[i]);
    }
    if TurnOpen(all) && !Opens(step) {
      assert all[|steps|] == step;
    }
  }

  lemma InterruptedStep(steps: seq<Step>, step: Step)
    ensures Interrupted(steps + [step]) <==>
            (step.Interrupt? && TurnOpen(steps)) || (Interrupted(steps) && !step.Finish?)
  {
    var all := steps + [step];
    assert all[|steps|] == step && all[..|steps|] == steps;
    assert forall i :: 0 <= i < |steps| ==> all[i] == steps[i] && all[..i] == steps[..i];
    if step.Interrupt? && TurnOpen(steps) {
      assert TurnOpen(all[..|steps|]);
    }
    if Interrupted(steps) && !step.Finish? {
      var i :| 0 <= i < |steps| && steps[i].Interrupt? && TurnOpen(steps[..i]) &&
               forall j :: i < j < |steps| ==> !steps[j].Finish?;
      assert all[i].Interrupt? && TurnOpen(all[..i]);
    }
  }

  predicate InterruptsInv(steps: seq<Step>, s: State) {
    && s.turn.active == TurnOpen(steps) && s.turn.interrupting == Interrupted(steps)
    && (s.turn.interrupting && s.exit.Running? ==> s.turn.active) && (s.turn.active ==> s.exit.Running?)
  }

  lemma {:induction false} BlocksLeaveTheTurn(o: Out, bs: seq<Block>)
    ensures var p := OnBlocks(o, bs);
            p.turn.active == o.turn.active && p.turn.interrupting == o.turn.interrupting && p.turn.denied == o.turn.denied
    decreases |bs|
  {
    if bs != [] {
      BlocksLeaveTheTurn(o, bs[..|bs| - 1]);
    }
  }

  /** The ids of a list of results. */
  predicate Reported(rs: seq<ToolResult>, id: string) {
    exists i :: 0 <= i < |rs| && rs[i].id == id
  }

  lemma {:induction false} ResultsLeaveTheTurn(o: Out, rs: seq<ToolResult>, id: string)
    ensures var p := OnToolResults(o, rs);
            && p.turn.active == o.turn.active && p.turn.interrupting == o.turn.interrupting
            && (id in p.turn.denied <==> id in o.turn.denied && !Reported(rs, id))
    decreases |rs|
  {
    if rs != [] {
      var n := |rs| - 1;
      ResultsLeaveTheTurn(o, rs[..n], id);
      assert Reported(rs, id) <==> Reported(rs[..n], id) || rs[n].id == id by {
        if Reported(rs[..n], id) {
          var i :| 0 <= i < n && rs[..n][i].id == id;
          assert rs[i].id == id;
        }
      }
    }
  }

  /** What a step does to the turn's flags. */
  lemma FlagsAfter(s: State, step: Step)
    requires Enabled(s, step)
    ensures var t := Next(s, step);
            && t.turn.active == (Opens(step) || (s.turn.active && !step.Finish? && !step.ProcessExits?))
            && (t.turn.interrupting <==>
                if step.Finish? && !EndsNothing(s.turn, step.result) then false
                else s.turn.interrupting || (step.Interrupt? && s.turn.active))
            && (t.exit.Running? <==> s.exit.Running? && !step.ProcessExits?)
  {
    match step
    case Assistant(blocks) => BlocksLeaveTheTurn(Opened(s.turn), blocks);
    case User(results) => ResultsLeaveTheTurn(Out(s.turn, []), results, "");
    case _ =>
  }

  lemma {:induction false} RunInterrupts(done: seq<Step>, s: State, steps: seq<Step>, t: State)
    requires InterruptsInv(done, s) && Reaches(s, steps, t)
    ensures InterruptsInv(done + steps, t)
    decreases |steps|
  {
    if steps == [] {
      NoMore(done);
    } else {
      FlagsAfter(s, steps[0]);
      TurnOpenStep(done, steps[0]);
      InterruptedStep(done, steps[0]);
      RunInterrupts(done + [steps[0]], Next(s, steps[0]), steps[1..], t);
      Assoc(done, [steps[0]], steps[1..]);
      assert [steps[0]] + steps[1..] == steps;
    }
  }

  lemma InterruptsFromStart(steps: seq<Step>, t: State)
    requires Reaches(INIT, steps, t)
    ensures InterruptsInv(steps, t)
  {
    RunInterrupts([], INIT, steps, t);
    assert [] + steps == steps;
  }

  /** The event that ends a turn: interrupted if the result says so or the caller interrupted it, an error if it failed
      otherwise. A result that counts no turns while none is open ends nothing. */
  lemma HowATurnEnds(steps: seq<Step>, s: State, r: Result, order: seq<nat>)
    requires Reaches(INIT, steps, s) && Enabled(s, Finish(r, order))
    ensures var t := Next(s, Finish(r, order));
            if r.turns == 0 && !TurnOpen(steps) then t == s
            else
              |t.trace| > 0 && t.trace[|t.trace| - 1].Own? &&
              var e := t.trace[|t.trace| - 1].event;
              if r.interrupted || Interrupted(steps) then e.TurnCompleted? && e.stop == "interrupted"
              else if r.failed then e == Error(r.message, r.code)
              else e.TurnCompleted? && e.stop == r.stop
  {
    InterruptsFromStart(steps, s);
  }

  ghost predicate NoResult(steps: seq<Step>, id: string) {
    forall i :: 0 <= i < |steps| && steps[i].User? ==> !Reported(steps[i].results, id)
  }

  /** The approval of id was denied while it could be answered, and no result of that tool came since. */
  ghost predicate Denied(s: State, steps: seq<Step>, id: string)
    decreases |steps|
  {
    steps != [] && Enabled(s, steps[0]) &&
    ((steps[0] == Resolve(id, false) && id in s.pending && NoResult(steps[1..], id)) ||
     Denied(Next(s, steps[0]), steps[1..], id))
  }

  lemma DeniedAfter(s: State, step: Step, id: string)
    requires Enabled(s, step)
    ensures id in Next(s, step).turn.denied <==>
            (id in s.turn.denied && (step.User? ==> !Reported(step.results, id))) ||
            (step == Resolve(id, false) && id in s.pending)
  {
    match step
    case Assistant(blocks) => BlocksLeaveTheTurn(Opened(s.turn), blocks);
    case User(results) => ResultsLeaveTheTurn(Out(s.turn, []), results, id);
    case _ =>
  }

  lemma {:induction false} DeniedIff(s: State, steps: seq<Step>, t: State, id: string)
    requires Reaches(s, steps, t)
    ensures id in t.turn.denied <==> Denied(s, steps, id) || (id in s.turn.denied && NoResult(steps, id))
    decreases |steps|
  {
    if steps != [] {
      DeniedAfter(s, steps[0], id);
      DeniedIff(Next(s, steps[0]), steps[1..], t, id);
      assert NoResult(steps, id) <==> (steps[0].User? ==> !Reported(steps[0].results, id)) && NoResult(steps[1..], id) by {
        if (steps[0].User? ==> !Reported(steps[0].results, id)) && NoResult(steps[1..], id) {
          forall i | 0 <= i < |steps| && steps[i].User? ensures !Reported(steps[i].results, id) {
            assert i > 0 ==> steps[i] == steps[1..][i - 1];
          }
        }
      }
    }
  }

  lemma {:induction false} ResultStatus(o: Out, rs: seq<ToolResult>, i: nat)
    requires i < |rs|
    ensures var p, r := OnToolResults(o, rs), rs[i];
            && |p.events| == |o.events| + |rs| && p.events[|o.events| + i].ToolCompleted?
            && p.events[|o.events| + i].status ==
               (if !r.failed then Completed
                else if o.turn.interrupting || (r.id in o.turn.denied && !Reported(rs[..i], r.id)) then Cancelled
                else Failed)
    decreases |rs|
  {
    var n := |rs| - 1;
    ResultCount(o, rs[..n]);
    if i < n {
      ResultStatus(o, rs[..n], i);
      assert rs[..n][..i] == rs[..i];
    } else {
      ResultsLeaveTheTurn(o, rs[..n], rs[n].id);
    }
  }

  lemma {:induction false} ResultCount(o: Out, rs: seq<ToolResult>)
    ensures |OnToolResults(o, rs).events| == |o.events| + |rs|
    decreases |rs|
  {
    if rs != [] {
      ResultCount(o, rs[..|rs| - 1]);
    }
  }

  /** A failed tool is reported cancelled exactly when the turn was interrupted or its approval denied. */
  lemma CancelledIff(steps: seq<Step>, s: State, rs: seq<ToolResult>, i: nat)
    requires Reaches(INIT, steps, s) && Enabled(s, User(rs)) && i < |rs|
    ensures var t, r := Next(s, User(rs)), rs[i];
            && |t.trace| == |s.trace| + |rs| && t.trace[|s.trace| + i].Own?
            && var e := t.trace[|s.trace| + i].event;
               && e.ToolCompleted?
               && e.status == (if !r.failed then Completed
                               else if Interrupted(steps) || (Denied(INIT, steps, r.id) && !Reported(rs[..i], r.id)) then Cancelled
                               else Failed)
  {
    InterruptsFromStart(steps, s);
    DeniedIff(INIT, steps, s, rs[i].id);
    ResultStatus(Out(s.turn, []), rs, i);
  }
}
