/** One response collected from an agent session's events and the tool calls it makes: harnessTurn of llm/harness.go. */
module HarnessTurns {
  import opened Options
  import opened Deltas
  import opened Sequences

  datatype Outcome = Answer(content: seq<Piece>, stop: string) | Failure(message: string)

  /** armed: the timer the first tool call starts. deltas: what onDelta was given so far. */
  datatype Turn = Turn(content: seq<Piece>, tools: nat, armed: bool, outcome: Option<Outcome>, deltas: seq<Delta>)

  const NEW := Turn([], 0, false, None, [])

  /** subagent: the delta is a subagent's. */
  datatype Event =
    | ContentDelta(reasoning: bool, subagent: bool, delta: string)
    | TurnCompleted
    | Error(message: string)

  predicate Finished(t: Turn) {
    t.outcome.Some?
  }

  predicate SameKind(p: Piece, reasoning: bool) {
    if reasoning then p.Thought? else p.Said?
  }

  function MakeText(reasoning: bool, text: string): Piece {
    if reasoning then Thought(text) else Said(text)
  }

  predicate Joins(content: seq<Piece>, reasoning: bool) {
    |content| > 0 && SameKind(content[|content| - 1], reasoning)
  }

  /** The content with a piece of text at its end, in the last block where that is of the same kind. */
  function WithText(content: seq<Piece>, reasoning: bool, text: string): (r: seq<Piece>)
    ensures |r| > 0
  {
    if Joins(content, reasoning) then
      content[|content| - 1 := MakeText(reasoning, content[|content| - 1].text + text)]
    else content + [MakeText(reasoning, text)]
  }

  function AddText(t: Turn, reasoning: bool, text: string): Turn {
    var content := WithText(t.content, reasoning, text);
    t.(content := content,
    deltas := t.deltas + [if reasoning then ReasoningDelta(|content| - 1, text) else TextDelta(|content| - 1, text)])
  }

  function AddCall(t: Turn, id: string, name: string, input: string): Turn {
    var i := |t.content|;
    t.(content := t.content + [Called(t.tools, id, name, input)],
    tools := t.tools + 1,
    armed := true,
    deltas := t.deltas + [CallStart(i, t.tools, id, name), CallArguments(i, t.tools, input)])
  }

  function Ended(t: Turn, failure: Option<string>): Turn {
    if Finished(t) then t
    else
      t.(armed := false,
      outcome := Some(if failure.Some? then Failure(failure.value)
                      else Answer(t.content, if t.tools > 0 then "tool_use" else "end_turn")))
  }

  function OnEvent(t: Turn, e: Event): Turn {
    match e
    case ContentDelta(reasoning, subagent, delta) =>
      if subagent || delta == "" then t else AddText(t, reasoning, delta)
    case TurnCompleted => if t.tools == 0 then Ended(t, None) else t
    case Error(message) => Ended(t, Some(message))
  }

  class HarnessTurn {
    var content: seq<Piece>
    var tools: nat
    var armed: bool
    var outcome: Option<Outcome>
    ghost var deltas: seq<Delta>

    ghost function View(): Turn
      reads this
    {
      Turn(content, tools, armed, outcome, deltas)
    }

    constructor ()
      ensures View() == NEW
    {
      content, tools, armed, outcome, deltas := [], 0, false, None, [];
    }

    method Event(e: Event)
      modifies this
      ensures View() == OnEvent(old(View()), e)
    {
      match e {
        case ContentDelta(reasoning, subagent, delta) =>
          if subagent || delta == "" {
            return;
          }
          var n := |content|;
          if n == 0 || !SameKind(content[n - 1], reasoning) {
            content := content + [MakeText(reasoning, "")];
            n := n + 1;
          }
          assert "" + delta == delta;
          content := content[n - 1 := MakeText(reasoning, content[n - 1].text + delta)];
          assert content == WithText(old(content), reasoning, delta);
          deltas := deltas + [if reasoning then ReasoningDelta(n - 1, delta) else TextDelta(n - 1, delta)];
        case TurnCompleted =>
          if tools == 0 {
            Finish(None);
          }
        case Error(message) =>
          Finish(Some(message));
      }
    }

    method Call(id: string, name: string, input: string)
      modifies this
      ensures View() == AddCall(old(View()), id, name, input)
    {
      content := content + [Called(tools, id, name, input)];
      deltas := deltas + [CallStart(|content| - 1, tools, id, name)];
      deltas := deltas + [CallArguments(|content| - 1, tools, input)];
      tools := tools + 1;
      if !armed {
        armed := true;
      }
    }

    method Finish(failure: Option<string>)
      modifies this
      ensures View() == Ended(old(View()), failure)
    {
      if outcome.Some? {
        return;
      }
      armed := false;
      if failure.Some? {
        outcome := Some(Failure(failure.value));
        return;
      }
      var stop := "end_turn";
      if tools > 0 {
        stop := "tool_use";
      }
      outcome := Some(Answer(content, stop));
    }
  }

  // What was streamed is what is returned.

  function CountCalls(content: seq<Piece>): nat {
    if content == [] then 0
    else CountCalls(content[..|content| - 1]) + if content[|content| - 1].Called? then 1 else 0
  }

  /** The blocks, each at its own index. */
  function Indexed(content: seq<Piece>): map<int, Piece> {
    map i: int | 0 <= i < |content| :: content[i]
  }

  predicate NoTwins(content: seq<Piece>) {
    forall i :: 0 < i < |content| ==>
                  !(content[i].Said? && content[i - 1].Said?) && !(content[i].Thought? && content[i - 1].Thought?)
  }

  predicate Numbered(content: seq<Piece>) {
    forall i :: 0 <= i < |content| && content[i].Called? ==> content[i].toolIndex == CountCalls(content[..i])
  }

  predicate Inv(t: Turn) {
    && ReadAll(t.deltas) == Some(Rebuilt(Indexed(t.content), t.tools))
    && t.tools == CountCalls(t.content) && Numbered(t.content)
    && NoTwins(t.content)
    && (t.armed ==> t.tools > 0)
  }

  /** The answer of a finished turn: what a consumer of the deltas has, in the same blocks; and it stopped for tools
      exactly when it calls one. */
  predicate Streamed(t: Turn) {
    t.outcome.Some? && t.outcome.value.Answer? ==>
      var answer := t.outcome.value;
      && ReadAll(t.deltas) == Some(Rebuilt(Indexed(answer.content), CountCalls(answer.content)))
      && NoTwins(answer.content) && Numbered(answer.content)
      && answer.stop == if exists i :: 0 <= i < |answer.content| && answer.content[i].Called? then "tool_use" else "end_turn"
  }

  lemma {:induction false} CountCallsIff(content: seq<Piece>)
    ensures CountCalls(content) > 0 <==> exists i :: 0 <= i < |content| && content[i].Called?
  {
    if content != [] {
      var n := |content| - 1;
      CountCallsIff(content[..n]);
      if CountCalls(content[..n]) > 0 {
        var i :| 0 <= i < n && content[..n][i].Called?;
        assert content[i].Called?;
      }
      if i :| 0 <= i < |content| && content[i].Called? && i < n {
        assert content[..n][i].Called?;
      }
    }
  }

  lemma CountAppend(content: seq<Piece>, p: Piece)
    ensures CountCalls(content + [p]) == CountCalls(content) + if p.Called? then 1 else 0
    ensures Indexed(content + [p]) == Indexed(content)[|content| := p]
  {
    assert (content + [p])[..|content|] == content;
    IndexedAppend(content, p);
  }

  lemma IndexedAppend(content: seq<Piece>, p: Piece)
    ensures Indexed(content + [p]) == Indexed(content)[|content| := p]
  {
  }

  lemma NumberedAppend(content: seq<Piece>, p: Piece)
    requires Numbered(content) && (p.Called? ==> p.toolIndex == CountCalls(content))
    ensures Numbered(content + [p])
  {
    var all := content + [p];
    forall i | 0 <= i < |all| && all[i].Called? ensures all[i].toolIndex == CountCalls(all[..i]) {
      assert all[..i] == content[..i];
      if i == |content| { assert content[..i] == content; }
    }
  }

  lemma SetLast(content: seq<Piece>, p: Piece)
    requires content != [] && Numbered(content) && !content[|content| - 1].Called? && !p.Called?
    ensures var all := content[|content| - 1 := p];
            && CountCalls(all) == CountCalls(content) && Numbered(all)
            && Indexed(all) == Indexed(content)[|content| - 1 := p]
  {
    var n := |content| - 1;
    var all := content[n := p];
    assert all[..n] == content[..n];
    forall i | 0 <= i < |all| && all[i].Called? ensures all[i].toolIndex == CountCalls(all[..i]) {
      assert all[..i] == content[..i] && all[i] == content[i];
    }
  }

  lemma JoinFacts(content: seq<Piece>, p: Piece)
    requires Numbered(content) && NoTwins(content) && content != []
    requires (p.Said? && content[|content| - 1].Said?) || (p.Thought? && content[|content| - 1].Thought?)
    ensures var r := content[|content| - 1 := p];
            CountCalls(r) == CountCalls(content) && Numbered(r) && NoTwins(r) && Indexed(r) == Indexed(content)[|r| - 1 := p]
  {
    SetLast(content, p);
  }

  lemma NewTextFacts(content: seq<Piece>, p: Piece, reasoning: bool)
    requires Numbered(content) && NoTwins(content) && SameKind(p, reasoning) && !Joins(content, reasoning)
    ensures var r := content + [p];
            CountCalls(r) == CountCalls(content) && Numbered(r) && NoTwins(r) && Indexed(r) == Indexed(content)[|r| - 1 := p]
  {
    CountAppend(content, p);
    NumberedAppend(content, p);
  }

  lemma WithTextFacts(content: seq<Piece>, reasoning: bool, text: string)
    requires Numbered(content) && NoTwins(content)
    ensures var r := WithText(content, reasoning, text);
            && CountCalls(r) == CountCalls(content) && Numbered(r) && NoTwins(r)
            && Indexed(r) == Indexed(content)[|r| - 1 := r[|r| - 1]]
  {
    if Joins(content, reasoning) {
      JoinFacts(content, MakeText(reasoning, content[|content| - 1].text + text));
    } else {
      NewTextFacts(content, MakeText(reasoning, text), reasoning);
    }
  }

  function TextDeltaAt(i: int, reasoning: bool, text: string): Delta {
    if reasoning then ReasoningDelta(i, text) else TextDelta(i, text)
  }

  /** What a reader of the blocks makes of one more piece of text. */
  lemma TextReads(content: seq<Piece>, calls: nat, reasoning: bool, text: string)
    ensures var r := WithText(content, reasoning, text);
            Read(Rebuilt(Indexed(content), calls), TextDeltaAt(|r| - 1, reasoning, text)) ==
            Some(Rebuilt(Indexed(content)[|r| - 1 := r[|r| - 1]], calls))
  {
  }

  lemma AddTextKeepsInv(t: Turn, reasoning: bool, text: string)
    requires Inv(t)
    ensures Inv(AddText(t, reasoning, text))
  {
    var r := WithText(t.content, reasoning, text);
    WithTextFacts(t.content, reasoning, text);
    TextReads(t.content, t.tools, reasoning, text);
    ReadOneMore(t.deltas, TextDeltaAt(|r| - 1, reasoning, text));
    AddTextIs(t, reasoning, text);
  }

  lemma AddTextIs(t: Turn, reasoning: bool, text: string)
    ensures var r := WithText(t.content, reasoning, text);
            AddText(t, reasoning, text) ==
            t.(content := r, deltas := t.deltas + [TextDeltaAt(|r| - 1, reasoning, text)])
  {
  }

  /** A call's two deltas, read one after the other. */
  lemma CallReads(r: Rebuilt, i: int, id: string, name: string, input: string)
    requires i !in r.blocks
    ensures var start := Read(r, CallStart(i, r.calls, id, name));
            && start.Some?
            && Read(start.value, CallArguments(i, r.calls, input)) ==
               Some(Rebuilt(r.blocks[i := Called(r.calls, id, name, input)], r.calls + 1))
  {
    assert "" + input == input;
    var empty, full := Called(r.calls, id, name, ""), Called(r.calls, id, name, input);
    assert r.blocks[i := empty][i := full] == r.blocks[i := full];
  }

  lemma AddCallReads(t: Turn, id: string, name: string, input: string)
    requires Inv(t)
    ensures ReadAll(AddCall(t, id, name, input).deltas) ==
            Some(Rebuilt(Indexed(t.content)[|t.content| := Called(t.tools, id, name, input)], t.tools + 1))
  {
    var n := |t.content|;
    var start, args := CallStart(n, t.tools, id, name), CallArguments(n, t.tools, input);
    CallReads(ReadAll(t.deltas).value, n, id, name, input);
    ReadOneMore(t.deltas, start);
    ReadOneMore(t.deltas + [start], args);
    assert t.deltas + [start, args] == t.deltas + [start] + [args];
  }

  lemma AddCallKeepsInv(t: Turn, id: string, name: string, input: string)
    requires Inv(t)
    ensures Inv(AddCall(t, id, name, input))
  {
    var p := Called(t.tools, id, name, input);
    AddCallReads(t, id, name, input);
    CountAppend(t.content, p);
    NumberedAppend(t.content, p);
  }

  datatype Input = FromSession(event: Event) | FromTool(id: string, name: string, input: string) | TimerFires

  /** What the conversation passes on: nothing once the turn is finished. */
  function Next(t: Turn, i: Input): Turn {
    if Finished(t) then t
    else
      match i
      case FromSession(e) => OnEvent(t, e)
      case FromTool(id, name, input) => AddCall(t, id, name, input)
      case TimerFires => if t.armed then Ended(t, None) else t
  }

  lemma NextKeepsInv(t: Turn, i: Input)
    requires Inv(t) && Streamed(t)
    ensures Inv(Next(t, i)) && Streamed(Next(t, i))
  {
    if !Finished(t) {
      CountCallsIff(t.content);
      match i
      case FromSession(ContentDelta(reasoning, subagent, delta)) => AddTextKeepsInv(t, reasoning, delta);
      case FromSession(TurnCompleted) =>
      case FromSession(Error(_)) =>
      case FromTool(id, name, input) => AddCallKeepsInv(t, id, name, input);
      case TimerFires =>
    }
  }

  function Run(t: Turn, inputs: seq<Input>): Turn {
    if inputs == [] then t else Next(Run(t, inputs[..|inputs| - 1]), inputs[|inputs| - 1])
  }

  /** Whatever the session and its tools do and whenever the timer fires, the deltas rebuild the content so far, and the
      answer in the end; no two neighbours are both text or both reasoning; the k-th call has tool index k; and the stop
      reason says whether there is a call. */
  lemma {:induction false} DeltasRebuildTheAnswer(inputs: seq<Input>)
    ensures var t := Run(NEW, inputs);
            && ReadAll(t.deltas) == Some(Rebuilt(Indexed(t.content), CountCalls(t.content)))
            && NoTwins(t.content) && Numbered(t.content) && Streamed(t) && Inv(t)
  {
    if inputs == [] {
      assert Indexed([]) == map[];
    } else {
      DeltasRebuildTheAnswer(inputs[..|inputs| - 1]);
      NextKeepsInv(Run(NEW, inputs[..|inputs| - 1]), inputs[|inputs| - 1]);
    }
  }

  /** A response with a call in it ends only by its timer or by an error: the agent's own end of turn is passed over. */
  lemma CallsOutlastTheTurn(t: Turn, i: Input)
    requires Inv(t) && !Finished(t) && t.tools > 0 && Finished(Next(t, i))
    ensures i.TimerFires? || (i.FromSession? && i.event.Error?)
  {
  }

  // What is answered is what came in.

  /** A response letter by letter. */
  datatype Mark = Letter(reasoning: bool, c: char) | ToolUse(id: string, name: string, input: string)

  function Letters(reasoning: bool, text: string): (r: seq<Mark>)
    ensures |r| == |text|
  {
    seq(|text|, i requires 0 <= i < |text| => Letter(reasoning, text[i]))
  }

  function MarksOf(p: Piece): seq<Mark> {
    match p
    case Said(text) => Letters(false, text)
    case Thought(text) => Letters(true, text)
    case Called(_, id, name, input) => [ToolUse(id, name, input)]
  }

  function Marks(content: seq<Piece>): seq<Mark> {
    if content == [] then [] else Marks(content[..|content| - 1]) + MarksOf(content[|content| - 1])
  }

  /** The text of the agent's own deltas and the tool calls, in the order they came. */
  function MarksIn(inputs: seq<Input>): seq<Mark> {
    if inputs == [] then []
    else
      var i := inputs[|inputs| - 1];
      MarksIn(inputs[..|inputs| - 1]) +
      if i.FromTool? then [ToolUse(i.id, i.name, i.input)]
      else if i.FromSession? && i.event.ContentDelta? && !i.event.subagent then Letters(i.event.reasoning, i.event.delta)
      else []
  }

  predicate HasCall(inputs: seq<Input>) {
    exists k :: 0 <= k < |inputs| && inputs[k].FromTool?
  }

  /** What ends a response after the inputs before it: an error, the agent's end of turn while there is no call, the timer
      once there is one. */
  predicate Ends(before: seq<Input>, i: Input) {
    || (i.FromSession? && i.event.Error?)
    || (i.FromSession? && i.event.TurnCompleted? && !HasCall(before))
    || (i.TimerFires? && HasCall(before))
  }

  predicate EndsNowhere(inputs: seq<Input>) {
    forall k :: 0 <= k < |inputs| ==> !Ends(inputs[..k], inputs[k])
  }

  lemma MarksOneMore(content: seq<Piece>, p: Piece)
    ensures Marks(content + [p]) == Marks(content) + MarksOf(p)
  {
    assert (content + [p])[..|content|] == content;
  }

  lemma MarksWithText(content: seq<Piece>, reasoning: bool, text: string)
    ensures Marks(WithText(content, reasoning, text)) == Marks(content) + Letters(reasoning, text)
  {
    if Joins(content, reasoning) {
      var n := |content| - 1;
      var p := MakeText(reasoning, content[n].text + text);
      assert content == content[..n] + [content[n]] && content[n := p] == content[..n] + [p];
      MarksOneMore(content[..n], content[n]);
      MarksOneMore(content[..n], p);
      LettersAppend(reasoning, content[n].text, text);
      Assoc(Marks(content[..n]), Letters(reasoning, content[n].text), Letters(reasoning, text));
    } else {
      MarksOneMore(content, MakeText(reasoning, text));
    }
  }

  lemma LettersAppend(reasoning: bool, a: string, b: string)
    ensures Letters(reasoning, a + b) == Letters(reasoning, a) + Letters(reasoning, b)
  {
  }

  /** A turn still open, as its inputs left it. */
  predicate Holds(t: Turn, inputs: seq<Input>) {
    !Finished(t) && Marks(t.content) == MarksIn(inputs) && (t.tools > 0 <==> HasCall(inputs)) && t.armed == HasCall(inputs)
  }

  lemma NextHolds(t: Turn, inputs: seq<Input>, i: Input)
    requires Holds(t, inputs) && !Ends(inputs, i)
    ensures Holds(Next(t, i), inputs + [i])
  {
    InOneMore(inputs, i);
    match i
    case FromSession(ContentDelta(reasoning, subagent, delta)) => MarksWithText(t.content, reasoning, delta);
    case FromTool(id, name, input) => MarksOneMore(t.content, Called(t.tools, id, name, input));
    case _ =>
  }

  lemma InOneMore(inputs: seq<Input>, i: Input)
    ensures HasCall(inputs + [i]) <==> HasCall(inputs) || i.FromTool?
    ensures MarksIn(inputs + [i]) ==
            if i.FromTool? then MarksIn(inputs) + [ToolUse(i.id, i.name, i.input)]
            else if i.FromSession? && i.event.ContentDelta? && !i.event.subagent && i.event.delta != "" then
              MarksIn(inputs) + Letters(i.event.reasoning, i.event.delta)
            else MarksIn(inputs)
  {
    var all := inputs + [i];
    assert all[..|inputs|] == inputs && all[|inputs|] == i;
    NoMore(MarksIn(inputs));
    if k :| 0 <= k < |inputs| && inputs[k].FromTool? {
      assert all[k].FromTool?;
    }
  }

  lemma {:induction false} OpenHolds(inputs: seq<Input>)
    requires EndsNowhere(inputs)
    ensures Holds(Run(NEW, inputs), inputs)
  {
    if inputs != [] {
      var n := |inputs| - 1;
      assert forall k :: 0 <= k < n ==> inputs[..n][..k] == inputs[..k];
      OpenHolds(inputs[..n]);
      NextHolds(Run(NEW, inputs[..n]), inputs[..n], inputs[n]);
      assert inputs == inputs[..n] + [inputs[n]];
    }
  }

  lemma {:induction false} FinishedStays(t: Turn, inputs: seq<Input>)
    requires Finished(t)
    ensures Run(t, inputs) == t
  {
    if inputs != [] {
      FinishedStays(t, inputs[..|inputs| - 1]);
    }
  }

  lemma {:induction false} RunSplits(t: Turn, a: seq<Input>, b: seq<Input>)
    ensures Run(t, a + b) == Run(Run(t, a), b)
    decreases |b|
  {
    if b == [] {
      assert a + b == a;
    } else {
      var n := |b| - 1;
      assert (a + b)[..|a| + n] == a + b[..n];
      RunSplits(t, a, b[..n]);
    }
  }

  lemma RunGoesOn(inputs: seq<Input>, i: Input, later: seq<Input>)
    ensures Run(NEW, inputs + [i] + later) == Run(Next(Run(NEW, inputs), i), later)
  {
    RunSplits(NEW, inputs + [i], later);
    assert (inputs + [i])[..|inputs|] == inputs;
  }

  /** The outcome of a turn that held these inputs when i ended it. */
  predicate Decided(t: Turn, inputs: seq<Input>, i: Input) {
    t.outcome.Some? &&
    if i.FromSession? && i.event.Error? then t.outcome.value == Failure(i.event.message)
    else t.outcome.value.Answer? && Marks(t.outcome.value.content) == MarksIn(inputs)
  }

  lemma EndDecides(t: Turn, inputs: seq<Input>, i: Input)
    requires Holds(t, inputs) && Ends(inputs, i)
    ensures Decided(Next(t, i), inputs, i)
  {
  }

  /** Until something ends the response it holds, letter by letter and call by call, what came in and nothing else. The
      first thing that ends it decides the outcome for good: an error fails it, anything else answers with what it
      holds. */
  lemma AnsweredWithWhatCameIn(inputs: seq<Input>, i: Input, later: seq<Input>)
    requires EndsNowhere(inputs)
    ensures Run(NEW, inputs).outcome.None? && Marks(Run(NEW, inputs).content) == MarksIn(inputs)
    ensures Ends(inputs, i) ==> Decided(Run(NEW, inputs + [i] + later), inputs, i)
  {
    OpenHolds(inputs);
    if Ends(inputs, i) {
      var t := Run(NEW, inputs);
      EndDecides(t, inputs, i);
      RunGoesOn(inputs, i, later);
      FinishedStays(Next(t, i), later);
    }
  }

  /** A turn as some run of session events and tool calls leaves it. */
  ghost predicate Collected(t: Turn) {
    exists inputs :: t == Run(NEW, inputs)
  }

  lemma NewIsCollected()
    ensures Collected(NEW)
  {
    assert Run(NEW, []) == NEW;
  }

  lemma NextIsCollected(t: Turn, i: Input)
    requires Collected(t)
    ensures Collected(Next(t, i))
  {
    var inputs :| t == Run(NEW, inputs);
    assert (inputs + [i])[..|inputs|] == inputs;
    assert Run(NEW, inputs + [i]) == Next(t, i);
  }

  lemma CollectedIsStreamed(t: Turn)
    requires Collected(t)
    ensures Inv(t) && Streamed(t)
  {
    var inputs :| t == Run(NEW, inputs);
    DeltasRebuildTheAnswer(inputs);
  }
}
