/** A direct-mode conversation over an agent session: harnessConv of llm/harness.go. The agent's tool calls come in over
    a server of their own and are held; which response a call belongs to is decided by when it comes. Each step is one
    hold of the conversation's mutex, one channel operation, or one handler's return. */
module HarnessConv {
  import opened Options
  import opened Deltas
  import opened HarnessTurns
  import PC = ParkedCalls

  function Digit(d: nat): char
    requires d < 10
  {
    '0' + d as char
  }

  function Decimal(n: nat): (s: string)
    ensures |s| > 0
  {
    if n < 10 then [Digit(n)] else Decimal(n / 10) + [Digit(n % 10)]
  }

  /** The id of the n-th call, counting from 0. */
  function CallId(n: nat): string {
    "call_" + Decimal(n + 1)
  }

  lemma LastDigit(n: nat)
    ensures var s := Decimal(n);
            s[|s| - 1] == Digit(n % 10) && s[..|s| - 1] == if n < 10 then "" else Decimal(n / 10)
  {
  }

  lemma {:induction false} DecimalInjective(a: nat, b: nat)
    requires Decimal(a) == Decimal(b)
    ensures a == b
  {
    LastDigit(a);
    LastDigit(b);
    assert a % 10 == b % 10;
    if a >= 10 && b >= 10 {
      DecimalInjective(a / 10, b / 10);
    }
  }

  /** Two calls never get the same id. */
  lemma CallIdsDiffer(a: nat, b: nat)
    ensures CallId(a) == CallId(b) <==> a == b
  {
    if CallId(a) == CallId(b) {
      assert CallId(a)[5..] == Decimal(a + 1) && CallId(b)[5..] == Decimal(b + 1);
      DecimalInjective(a + 1, b + 1);
    }
  }

  datatype Reply = Result(result: string) | Cancelled

  datatype Status = Waiting | Returned(reply: Reply) | GaveUp

  /** A held call, its one-slot answer channel, and how the handler waiting on it came out. */
  datatype Call = Call(name: string, input: string, slot: Option<Reply>, status: Status)

  /** A call as a response lists it. */
  datatype Made = Made(id: string, name: string, input: string)

  /** given is the result next captured for each call it took; answering is what it has yet to answer, cancelling what
      close has. */
  datatype Conv = Conv(
    turn: Turn, held: map<string, nat>, early: seq<Made>, calls: seq<Call>, closed: bool,
    pending: seq<string>, given: map<nat, string>, answering: seq<nat>, cancelling: set<nat>)

  function Arguments(args: string): string {
    if args == "" || args == "null" then "{}" else args
  }

  function WithCall(c: Conv, name: string, args: string): Conv {
    var n := |c.calls|;
    var made := Made(CallId(n), name, Arguments(args));
    var d := c.(calls := c.calls + [Call(name, made.input, None, Waiting)], held := c.held[made.id := n]);
    if Finished(c.turn) then d.(early := c.early + [made])
    else d.(turn := AddCall(c.turn, made.id, made.name, made.input))
  }

  function AddEarly(t: Turn, early: seq<Made>): Turn {
    if early == [] then t
    else
      var e := early[|early| - 1];
      AddCall(AddEarly(t, early[..|early| - 1]), e.id, e.name, e.input)
  }

  function Begun(c: Conv): Conv {
    c.(turn := AddEarly(NEW, c.early), early := [])
  }

  /** The first pending id, from k on, that is no longer held when its turn comes. */
  function FirstMissing(held: map<string, nat>, pending: seq<string>, k: nat): (m: nat)
    requires k <= |pending|
    ensures k <= m <= |pending|
    decreases |pending| - k
  {
    if k == |pending| || pending[k] !in PC.HeldAfter(held, pending, k) then k else FirstMissing(held, pending, k + 1)
  }

  function ResultFor(rs: map<string, string>, id: string): string {
    if id in rs then rs[id] else ""
  }

  /** The locked part of next: takes every pending call out of held, or stops at the first that is gone. */
  function Continued(c: Conv, rs: map<string, string>): Conv {
    var m := FirstMissing(c.held, c.pending, 0);
    var d := c.(held := PC.HeldAfter(c.held, c.pending, m));
    if m < |c.pending| then d
    else
      var taken := PC.Taken(c.held, c.pending, m);
      d.(answering := taken, given := c.given + map n <- taken :: ResultFor(rs, CallId(n)))
  }

  function Put(c: Conv, n: nat, reply: Reply): Conv
    requires n < |c.calls|
  {
    c.(calls := c.calls[n := c.calls[n].(slot := Some(reply))])
  }

  function Ending(c: Conv): Conv {
    c.(closed := true, held := map[], cancelling := c.held.Values)
  }

  function Pending(t: Turn): seq<string> {
    if t.outcome.Some? && t.outcome.value.Answer? && t.outcome.value.stop == "tool_use" then
      Ids(CallsOf(t.outcome.value.content))
    else []
  }

  function CallsOf(content: seq<Piece>): seq<Made> {
    if content == [] then []
    else
      var p := content[|content| - 1];
      CallsOf(content[..|content| - 1]) + if p.Called? then [Made(p.id, p.name, p.input)] else []
  }

  function Ids(made: seq<Made>): (ids: seq<string>)
    ensures |ids| == |made| && forall k :: 0 <= k < |made| ==> ids[k] == made[k].id
  {
    seq(|made|, k requires 0 <= k < |made| => made[k].id)
  }

  class Conversation {
    var turn: Turn
    var held: map<string, nat>
    var early: seq<Made>
    var calls: seq<Call>
    var closed: bool
    var pending: seq<string>
    var given: map<nat, string>
    var answering: seq<nat>
    var cancelling: set<nat>

    function View(): Conv
      reads this
    {
      Conv(turn, held, early, calls, closed, pending, given, answering, cancelling)
    }

    constructor ()
      ensures View() == Conv(NEW, map[], [], [], false, [], map[], [], {})
    {
      turn, held, early, calls, closed := NEW, map[], [], [], false;
      pending, given, answering, cancelling := [], map[], [], {};
    }

    /** toolCall up to its select. */
    method ToolCall(name: string, arguments: string)
      modifies this
      ensures View() == WithCall(old(View()), name, arguments)
    {
      var n := |calls|;
      var id := CallId(n);
      var args := arguments;
      if |args| == 0 || args == "null" {
        args := "{}";
      }
      held := held[id := n];
      calls := calls + [Call(name, args, None, Waiting)];
      if !Finished(turn) {
        turn := AddCall(turn, id, name, args);
      } else {
        early := early + [Made(id, name, args)];
      }
    }

    method Begin()
      modifies this
      ensures View() == Begun(old(View()))
    {
      var t := NEW;
      var k := 0;
      while k < |early|
        invariant unchanged(this)
        invariant 0 <= k <= |early| && t == AddEarly(NEW, early[..k])
      {
        assert early[..k + 1][..k] == early[..k];
        t := AddCall(t, early[k].id, early[k].name, early[k].input);
        k := k + 1;
      }
      assert early[..k] == early;
      turn, early := t, [];
    }

    method Next(rs: map<string, string>) returns (ok: bool)
      modifies this
      ensures View() == Continued(old(View()), rs)
      ensures ok <==> FirstMissing(old(held), pending, 0) == |pending|
    {
      var answer: seq<nat>;
      held, answer, ok := TakePending(held, pending);
      if ok {
        given := given + map n <- answer :: ResultFor(rs, CallId(n));
        answering := answer;
      }
    }

    /** close, up to the cancellations it sends. */
    method Close()
      modifies this
      ensures View() == Ending(old(View()))
    {
      closed := true;
      cancelling := held.Values;
      held := map[];
    }

    /** One turn of close's loop over the calls it took: the send that gives way when the channel is full. */
    method CancelOne(n: nat)
      requires n < |calls| && n in cancelling
      modifies this
      ensures View() == Cancelling(old(View()), n)
    {
      cancelling := cancelling - {n};
      if calls[n].slot.None? {
        calls := calls[n := calls[n].(slot := Some(Cancelled))];
      }
    }
  }

  /** next's loop: takes the pending calls out of held, up to the first that is gone. */
  method TakePending(held: map<string, nat>, pending: seq<string>)
    returns (left: map<string, nat>, taken: seq<nat>, ok: bool)
    ensures var m := FirstMissing(held, pending, 0);
            && left == PC.HeldAfter(held, pending, m) && taken == PC.Taken(held, pending, m)
            && (ok <==> m == |pending|)
  {
    left, taken := held, [];
    var i := 0;
    while i < |pending|
      invariant 0 <= i <= |pending|
      invariant left == PC.HeldAfter(held, pending, i) && taken == PC.Taken(held, pending, i)
      invariant FirstMissing(held, pending, 0) == FirstMissing(held, pending, i)
    {
      var id := pending[i];
      assert pending[..i + 1] == pending[..i] + [id];
      if id !in left {
        return left, taken, false;
      }
      taken := taken + [left[id]];
      left := left - {id};
      i := i + 1;
    }
    ok := true;
  }

  function Cancelling(c: Conv, n: nat): Conv
    requires n < |c.calls|
  {
    var d := c.(cancelling := c.cancelling - {n});
    if c.calls[n].slot.None? then Put(d, n, Cancelled) else d
  }

  // Whole conversations.

  datatype Phase = Collecting | Settled | Continuing | Broken

  /** responses are those finished without an error, served how many of them the caller has had, done how many calls
      the caller has returned results for, passed what it returned for each. answers lists the calls that were answered,
      in order; stranded are those next took out of held and then gave up on. */
  datatype State = State(
    c: Conv, phase: Phase, responses: seq<seq<Piece>>, served: nat, done: nat, errored: bool,
    passed: map<string, string>, answers: seq<nat>, stranded: set<nat>)

  const START := State(Conv(NEW, map[], [], [], false, [], map[], [], {}), Collecting, [], 0, 0, false, map[], [], {})

  datatype Step =
    | ToolCall(name: string, arguments: string)
    | FromAgent(event: Event)
    | TimerFires
    | SessionEnds(message: string) // pump's own words
    | Respond
    | Begin
    | Next(rs: map<string, string>)
    | Send
    | Return(n: nat)
    | GiveUp(n: nat)
    | Forget(n: nat)
    | Close
    | Cancel(n: nat)

  /** The agent, the timer and the server are free to do anything they can. Calls come one after the other: a response
      is taken once it is there, and continued once. */
  predicate Enabled(s: State, step: Step) {
    var c := s.c;
    match step
    case ToolCall(_, _) => true
    case FromAgent(_) => !Finished(c.turn)
    case TimerFires => c.turn.armed && !Finished(c.turn)
    case SessionEnds(_) => !Finished(c.turn)
    case Respond => s.phase == Collecting && c.answering == [] && Finished(c.turn) && c.turn.outcome.value.Answer?
    case Begin => s.phase == Settled
    case Next(_) => s.phase == Continuing
    case Send => c.answering != [] && c.answering[0] < |c.calls|
    case Return(n) => n < |c.calls| && c.calls[n].status.Waiting? && c.calls[n].slot.Some?
    case GiveUp(n) => n < |c.calls| && c.calls[n].status.Waiting?
    case Forget(n) => n < |c.calls| && c.calls[n].status.GaveUp?
    case Close => !c.closed
    case Cancel(n) => n < |c.calls| && n in c.cancelling
  }

  /** The state with the turn moved on, its answer noted when it has one. */
  function WithTurn(s: State, t: Turn): State {
    var u := s.(c := s.c.(turn := t));
    if t.outcome.None? then u
    else if t.outcome.value.Answer? then u.(responses := s.responses + [t.outcome.value.content])
    else u.(errored := true)
  }

  function After(s: State, step: Step): State
    requires Enabled(s, step)
  {
    var c := s.c;
    match step
    case ToolCall(name, args) => s.(c := WithCall(c, name, args))
    case FromAgent(e) => WithTurn(s, OnEvent(c.turn, e))
    case TimerFires => WithTurn(s, Ended(c.turn, None))
    case SessionEnds(message) => WithTurn(s, Ended(c.turn, Some(message)))
    case Respond => s.(c := c.(pending := Pending(c.turn)), phase := Settled, served := s.served + 1)
    case Begin => s.(c := Begun(c), phase := Continuing)
    case Next(rs) =>
      var m := FirstMissing(c.held, c.pending, 0);
      if m < |c.pending| then
        s.(c := Continued(c, rs), phase := Broken, stranded := s.stranded + set n <- PC.Taken(c.held, c.pending, m))
      else
        s.(c := Continued(c, rs), phase := Collecting, done := s.done + m,
        passed := s.passed + map id <- rs | id in c.pending :: rs[id])
    case Send =>
      var n := c.answering[0];
      s.(c := Put(c, n, Result(if n in c.given then c.given[n] else "")).(answering := c.answering[1..]),
      answers := s.answers + [n])
    case Return(n) =>
      s.(c := c.(calls := c.calls[n := c.calls[n].(slot := None, status := Returned(c.calls[n].slot.value))]))
    case GiveUp(n) => s.(c := c.(calls := c.calls[n := c.calls[n].(status := GaveUp)]))
    case Forget(n) => s.(c := c.(held := c.held - {CallId(n)}))
    case Close => s.(c := Ending(c))
    case Cancel(n) =>
      s.(c := Cancelling(c, n), answers := if c.calls[n].slot.None? then s.answers + [n] else s.answers)
  }

  ghost predicate Reaches(s: State, steps: seq<Step>, t: State)
    decreases |steps|
  {
    if steps == [] then s == t else Enabled(s, steps[0]) && Reaches(After(s, steps[0]), steps[1..], t)
  }

  // No call is lost or listed twice.

  function AllCalls(responses: seq<seq<Piece>>): seq<Made> {
    if responses == [] then []
    else AllCalls(responses[..|responses| - 1]) + CallsOf(responses[|responses| - 1])
  }

  /** The calls the agent made, in order. */
  function MadeCalls(calls: seq<Call>): (made: seq<Made>)
    ensures |made| == |calls|
    ensures forall k :: 0 <= k < |calls| ==> made[k] == Made(CallId(k), calls[k].name, calls[k].input)
  {
    seq(|calls|, k requires 0 <= k < |calls| => Made(CallId(k), calls[k].name, calls[k].input))
  }

  function Current(t: Turn): seq<Made> {
    if Finished(t) then [] else CallsOf(t.content)
  }

  predicate Conserved(t: Turn, early: seq<Made>, made: seq<Made>, responses: seq<seq<Piece>>, errored: bool) {
    && (!Finished(t) ==> early == [])
    && (if errored then AllCalls(responses) <= made else AllCalls(responses) + Current(t) + early == made)
  }

  predicate IsAnswer(outcome: Option<Outcome>) {
    outcome.Some? && outcome.value.Answer?
  }

  /** Where the caller is in the list of responses. */
  predicate InStep(
      outcome: Option<Outcome>, phase: Phase, responses: seq<seq<Piece>>, served: nat, done: nat, pending: seq<string>) {
    && served <= |responses|
    && (phase == Settled ==> IsAnswer(outcome))
    && (if phase != Settled && IsAnswer(outcome) then responses == responses[..served] + [outcome.value.content]
        else served == |responses|)
    && (phase != Broken ==>
          && done <= |AllCalls(responses[..served])|
          && Ids(AllCalls(responses[..served])[done..]) == if phase == Collecting then [] else pending)
  }

  ghost predicate TurnInv(t: Turn, errored: bool) {
    Collected(t) && errored == (Finished(t) && t.outcome.value.Failure?)
  }

  ghost predicate Sound(s: State) {
    && TurnInv(s.c.turn, s.errored)
    && Conserved(s.c.turn, s.c.early, MadeCalls(s.c.calls), s.responses, s.errored)
    && InStep(s.c.turn.outcome, s.phase, s.responses, s.served, s.done, s.c.pending)
  }

  lemma CallsAppend(content: seq<Piece>, p: Piece)
    ensures CallsOf(content + [p]) == CallsOf(content) + if p.Called? then [Made(p.id, p.name, p.input)] else []
  {
    assert (content + [p])[..|content|] == content;
  }

  lemma {:induction false} CallsOfCount(content: seq<Piece>)
    ensures |CallsOf(content)| == CountCalls(content)
  {
    if content != [] {
      CallsOfCount(content[..|content| - 1]);
    }
  }

  lemma TextKeepsCalls(content: seq<Piece>, reasoning: bool, text: string)
    ensures CallsOf(WithText(content, reasoning, text)) == CallsOf(content)
  {
    var r := WithText(content, reasoning, text);
    if Joins(content, reasoning) {
      var n := |content| - 1;
      assert r[..n] == content[..n];
    } else {
      CallsAppend(content, r[|content|]);
    }
  }

  lemma CallAddsACall(t: Turn, e: Made)
    requires !Finished(t)
    ensures var u := AddCall(t, e.id, e.name, e.input);
            !Finished(u) && CallsOf(u.content) == CallsOf(t.content) + [e] && (Collected(t) ==> Collected(u))
  {
    if Collected(t) {
      NextIsCollected(t, FromTool(e.id, e.name, e.input));
    }
    CallsAppend(t.content, Piece.Called(t.tools, e.id, e.name, e.input));
  }

  lemma {:induction false} EarlyCalls(t: Turn, early: seq<Made>)
    requires Collected(t) && !Finished(t)
    ensures Collected(AddEarly(t, early)) && !Finished(AddEarly(t, early))
    ensures CallsOf(AddEarly(t, early).content) == CallsOf(t.content) + early
    decreases |early|
  {
    if early == [] {
      assert CallsOf(t.content) + early == CallsOf(t.content);
    } else {
      var n := |early| - 1;
      var e := early[n];
      var before := AddEarly(t, early[..n]);
      EarlyCalls(t, early[..n]);
      CallAddsACall(before, e);
      assert AddEarly(t, early) == AddCall(before, e.id, e.name, e.input);
      AppendsBack(CallsOf(t.content), early);
    }
  }

  lemma AppendsBack(a: seq<Made>, b: seq<Made>)
    requires b != []
    ensures a + b == a + b[..|b| - 1] + [b[|b| - 1]]
  {
  }

  lemma ResponseAdded(responses: seq<seq<Piece>>, content: seq<Piece>)
    ensures AllCalls(responses + [content]) == AllCalls(responses) + CallsOf(content)
  {
    assert (responses + [content])[..|responses|] == responses;
  }

  lemma CallConserved(t: Turn, early: seq<Made>, made: seq<Made>, responses: seq<seq<Piece>>, errored: bool, e: Made)
    requires Conserved(t, early, made, responses, errored) && TurnInv(t, errored)
    ensures if Finished(t) then Conserved(t, early + [e], made + [e], responses, errored)
            else var u := AddCall(t, e.id, e.name, e.input);
                 Conserved(u, early, made + [e], responses, errored) && TurnInv(u, errored) && u.outcome == t.outcome
  {
    var all := AllCalls(responses);
    if errored {
      assert made <= made + [e];
    } else if Finished(t) {
      assert all + [] + (early + [e]) == all + [] + early + [e];
    } else {
      CallAddsACall(t, e);
      assert all + (Current(t) + [e]) + [] == all + Current(t) + [] + [e];
    }
  }

  lemma OneMoreMade(calls: seq<Call>, call: Call)
    ensures MadeCalls(calls + [call]) == MadeCalls(calls) + [Made(CallId(|calls|), call.name, call.input)]
  {
  }

  lemma ToolCallSound(s: State, name: string, args: string)
    requires Sound(s)
    ensures Sound(After(s, ToolCall(name, args)))
  {
    var d := WithCall(s.c, name, args);
    var made := Made(CallId(|s.c.calls|), name, Arguments(args));
    OneMoreMade(s.c.calls, Call(name, Arguments(args), None, Waiting));
    CallConserved(s.c.turn, s.c.early, MadeCalls(s.c.calls), s.responses, s.errored, made);
    assert TurnInv(d.turn, s.errored);
    assert Conserved(d.turn, d.early, MadeCalls(d.calls), s.responses, s.errored);
    assert d.turn.outcome == s.c.turn.outcome && d.pending == s.c.pending;
  }

  /** A turn that gets text or ends. */
  ghost predicate MovesOn(t: Turn, u: Turn) {
    && CallsOf(u.content) == CallsOf(t.content) && Collected(u)
    && (Finished(u) && u.outcome.value.Answer? ==> u.outcome.value.content == t.content)
  }

  lemma TurnMovesOn(t: Turn, i: Input)
    requires Collected(t) && !Finished(t) && !i.FromTool?
    ensures MovesOn(t, HarnessTurns.Next(t, i))
  {
    NextIsCollected(t, i);
    CollectedIsStreamed(t);
    if i.FromSession? && i.event.ContentDelta? {
      TextKeepsCalls(t.content, i.event.reasoning, i.event.delta);
    }
  }

  lemma AnswerInStep(phase: Phase, responses: seq<seq<Piece>>, served: nat, done: nat, pending: seq<string>, answer: Outcome)
    requires InStep(None, phase, responses, served, done, pending) && answer.Answer?
    ensures InStep(Some(answer), phase, responses + [answer.content], served, done, pending)
  {
    assert (responses + [answer.content])[..served] == responses[..served] == responses;
  }

  lemma MovedOnSound(s: State, t: Turn)
    requires Sound(s) && !Finished(s.c.turn) && MovesOn(s.c.turn, t)
    ensures Sound(WithTurn(s, t))
  {
    if IsAnswer(t.outcome) {
      ResponseAdded(s.responses, t.outcome.value.content);
      AnswerInStep(s.phase, s.responses, s.served, s.done, s.c.pending, t.outcome.value);
    }
  }

  lemma TurnStepsSound(s: State, step: Step)
    requires Sound(s) && Enabled(s, step) && (step.FromAgent? || step.TimerFires? || step.SessionEnds?)
    ensures Sound(After(s, step))
  {
    var t := s.c.turn;
    match step
    case FromAgent(e) =>
      TurnMovesOn(t, FromSession(e));
      MovedOnSound(s, OnEvent(t, e));
    case TimerFires =>
      TurnMovesOn(t, Input.TimerFires);
      MovedOnSound(s, Ended(t, None));
    case SessionEnds(message) =>
      var e := Error(message);
      TurnMovesOn(t, FromSession(e));
      MovedOnSound(s, OnEvent(t, e));
  }

  /** The calls of a response that ended are what its caller has to return results for. */
  lemma PendingIsCalls(t: Turn)
    requires Collected(t) && Finished(t) && t.outcome.value.Answer?
    ensures Pending(t) == Ids(CallsOf(t.outcome.value.content))
  {
    var content := t.outcome.value.content;
    CollectedIsStreamed(t);
    CallsOfCount(content);
    CountCallsIff(content);
  }

  lemma RespondInStep(t: Turn, responses: seq<seq<Piece>>, served: nat, done: nat, pending: seq<string>)
    requires InStep(t.outcome, Collecting, responses, served, done, pending) && IsAnswer(t.outcome) && Collected(t)
    ensures InStep(t.outcome, Settled, responses, served + 1, done, Pending(t))
  {
    var content := t.outcome.value.content;
    var had := responses[..served];
    assert responses == had + [content];
    assert responses[..served + 1] == responses;
    PendingIsCalls(t);
    ResponseAdded(had, content);
    assert |Ids(AllCalls(had)[done..])| == 0;
    assert AllCalls(responses)[done..] == CallsOf(content);
  }

  lemma EarlyTurn(early: seq<Made>) returns (u: Turn)
    ensures u == AddEarly(NEW, early)
    ensures TurnInv(u, false) && u.outcome == None && CallsOf(u.content) == early
  {
    EmptyTurn();
    EarlyCalls(NEW, early);
    u := AddEarly(NEW, early);
    assert [] + early == early;
  }

  lemma BeginInStep(
      outcome: Option<Outcome>, responses: seq<seq<Piece>>, served: nat, done: nat, pending: seq<string>)
    requires InStep(outcome, Settled, responses, served, done, pending)
    ensures InStep(None, Continuing, responses, served, done, pending)
  {
  }

  lemma BeginConserved(u: Turn, early: seq<Made>, made: seq<Made>, responses: seq<seq<Piece>>)
    requires CallsOf(u.content) == early && !Finished(u) && AllCalls(responses) + [] + early == made
    ensures Conserved(u, [], made, responses, false)
  {
    assert AllCalls(responses) + [] + early == AllCalls(responses) + early + [];
  }

  lemma BeginSound(s: State)
    requires Sound(s) && Enabled(s, Begin)
    ensures Sound(After(s, Begin))
  {
    var u := EarlyTurn(s.c.early);
    BeginInStep(s.c.turn.outcome, s.responses, s.served, s.done, s.c.pending);
    BeginConserved(u, s.c.early, MadeCalls(s.c.calls), s.responses);
    assert !s.errored;
  }

  lemma EmptyTurn()
    ensures Collected(NEW) && !Finished(NEW) && CallsOf(NEW.content) == []
  {
    NewIsCollected();
  }

  lemma ContinuedOnlyTakes(c: Conv, rs: map<string, string>)
    ensures var d := Continued(c, rs);
            d == c.(held := d.held, answering := d.answering, given := d.given)
  {
  }

  lemma NextInStep(
      outcome: Option<Outcome>, responses: seq<seq<Piece>>, served: nat, done: nat, pending: seq<string>)
    requires InStep(outcome, Continuing, responses, served, done, pending)
    ensures InStep(outcome, Collecting, responses, served, done + |pending|, pending)
    ensures forall done' :: InStep(outcome, Broken, responses, served, done', pending)
  {
    var all := AllCalls(responses[..served]);
    assert |pending| == |all| - done;
    assert all[done + |pending|..] == [];
  }

  lemma NextOnlyTakes(s: State, rs: map<string, string>)
    requires Enabled(s, Next(rs))
    ensures var t := After(s, Next(rs));
            && t == s.(c := t.c, phase := t.phase, done := t.done, passed := t.passed, stranded := t.stranded)
            && t.c.turn == s.c.turn && t.c.early == s.c.early && t.c.calls == s.c.calls && t.c.pending == s.c.pending
            && t.c.closed == s.c.closed
            && (t.phase == Broken ||
                (t.phase == Collecting && t.done == s.done + |s.c.pending| &&
                 t.c.held == PC.HeldAfter(s.c.held, s.c.pending, |s.c.pending|)))
  {
  }

  lemma NextSound(s: State, rs: map<string, string>)
    requires Sound(s) && Enabled(s, Next(rs))
    ensures Sound(After(s, Next(rs)))
  {
    NextOnlyTakes(s, rs);
    NextInStep(s.c.turn.outcome, s.responses, s.served, s.done, s.c.pending);
  }

  predicate Quiet(step: Step) {
    step.Send? || step.Return? || step.GiveUp? || step.Forget? || step.Close? || step.Cancel?
  }

  lemma SameMade(cs: seq<Call>, ds: seq<Call>)
    requires |cs| == |ds|
    requires forall k :: 0 <= k < |cs| ==> ds[k].name == cs[k].name && ds[k].input == cs[k].input
    ensures MadeCalls(ds) == MadeCalls(cs)
  {
  }

  lemma QuietStepsOnlyAnswer(s: State, step: Step)
    requires Enabled(s, step) && Quiet(step)
    ensures var t := After(s, step);
            && t.c.turn == s.c.turn && t.c.early == s.c.early && t.c.pending == s.c.pending
            && t == s.(c := t.c, answers := t.answers)
            && MadeCalls(t.c.calls) == MadeCalls(s.c.calls)
  {
    var t := After(s, step);
    assert |t.c.calls| == |s.c.calls|;
    assert forall k :: 0 <= k < |s.c.calls| ==>
                         t.c.calls[k].name == s.c.calls[k].name && t.c.calls[k].input == s.c.calls[k].input;
    SameMade(s.c.calls, t.c.calls);
  }

  lemma StepSound(s: State, step: Step)
    requires Sound(s) && Enabled(s, step)
    ensures Sound(After(s, step))
  {
    match step
    case ToolCall(name, args) => ToolCallSound(s, name, args);
    case FromAgent(_) => TurnStepsSound(s, step);
    case TimerFires => TurnStepsSound(s, step);
    case SessionEnds(_) => TurnStepsSound(s, step);
    case Respond => RespondInStep(s.c.turn, s.responses, s.served, s.done, s.c.pending);
    case Begin => BeginSound(s);
    case Next(rs) => NextSound(s, rs);
    case _ => QuietStepsOnlyAnswer(s, step);
  }

  lemma {:induction false} RunSound(s: State, steps: seq<Step>, t: State)
    requires Sound(s) && Reaches(s, steps, t)
    ensures Sound(t)
    decreases |steps|
  {
    if steps != [] {
      StepSound(s, steps[0]);
      RunSound(After(s, steps[0]), steps[1..], t);
    }
  }

  /** While no turn has ended in error, the calls of the finished responses, then of the response being collected, then
      those that came in between are call_1, call_2, ... as the agent made them, none lost and none twice; and each
      response stops for tools exactly when it lists a call. */
  lemma CallsAreConserved(steps: seq<Step>, t: State)
    requires Reaches(START, steps, t)
    ensures !t.errored ==> AllCalls(t.responses) + Current(t.c.turn) + t.c.early == MadeCalls(t.c.calls)
    ensures forall k :: 0 <= k < |t.c.calls| ==> MadeCalls(t.c.calls)[k].id == CallId(k)
    ensures Streamed(t.c.turn)
  {
    EmptyTurn();
    RunSound(START, steps, t);
    CollectedIsStreamed(t.c.turn);
  }

  // Each call is answered at most once, with its own result.

  predicate IsHeld(c: Conv, n: nat) {
    CallId(n) in c.held && c.held[CallId(n)] == n
  }

  predicate LetGo(call: Call) {
    call.slot.Some? || call.status.Returned?
  }

  predicate Replied(call: Call, reply: Reply) {
    call.slot == Some(reply) || call.status == Returned(reply)
  }

  /** Where a call is: held, about to be answered, about to be cancelled, let go, stranded, or given up by the agent. */
  ghost predicate Placed(c: Conv, answers: seq<nat>, stranded: set<nat>, n: nat)
    requires n < |c.calls|
  {
    var call := c.calls[n];
    && (IsHeld(c, n) || n in c.answering || n in c.cancelling || LetGo(call) || n in stranded || call.status.GaveUp?)
    && (IsHeld(c, n) ==> n !in c.answering && n !in c.cancelling && !LetGo(call) && n !in c.given && n !in stranded)
    && (n in c.answering ==> n !in c.cancelling && !LetGo(call) && n in c.given && n !in stranded)
    && (n in c.cancelling ==> !LetGo(call) && n !in c.given && n !in stranded)
    && (n in stranded ==> !LetGo(call))
    && (LetGo(call) <==> n in answers)
    && (call.slot.Some? ==> !call.status.Returned?)
    && (forall r :: Replied(call, Result(r)) ==> n in c.given && c.given[n] == r)
    && (Replied(call, Cancelled) ==> n !in c.given)
  }

  ghost predicate Numbers(c: Conv, answers: seq<nat>, stranded: set<nat>) {
    && (forall id <- c.held :: c.held[id] < |c.calls| && CallId(c.held[id]) == id)
    && (forall n <- c.answering :: n < |c.calls|) && PC.Unique(c.answering)
    && (forall n <- answers :: n < |c.calls|) && PC.Unique(answers)
    && (forall n <- c.cancelling :: n < |c.calls|) && (forall n <- stranded :: n < |c.calls|)
    && (forall n <- c.given :: n < |c.calls|)
  }

  ghost predicate CallsInv(s: State) {
    && Numbers(s.c, s.answers, s.stranded)
    && forall n: nat :: n < |s.c.calls| ==> Placed(s.c, s.answers, s.stranded, n)
  }

  lemma NewIdIsFree(c: Conv)
    requires forall id <- c.held :: c.held[id] < |c.calls| && CallId(c.held[id]) == id
    ensures CallId(|c.calls|) !in c.held
    ensures forall k: nat :: k < |c.calls| ==> CallId(k) != CallId(|c.calls|)
  {
    forall k: nat | k < |c.calls| ensures CallId(k) != CallId(|c.calls|) {
      CallIdsDiffer(k, |c.calls|);
    }
  }

  lemma NewCallNumbers(s: State, name: string, args: string)
    requires CallsInv(s)
    ensures var t := After(s, ToolCall(name, args));
            && Numbers(t.c, t.answers, t.stranded)
            && forall k: nat :: k < |s.c.calls| ==> (IsHeld(t.c, k) <==> IsHeld(s.c, k))
  {
    NewIdIsFree(s.c);
    var t := After(s, ToolCall(name, args));
    assert t.c.held == s.c.held[CallId(|s.c.calls|) := |s.c.calls|];
  }

  lemma NewCallPlaced(s: State, name: string, args: string)
    requires CallsInv(s)
    ensures CallsInv(After(s, ToolCall(name, args)))
  {
    var t := After(s, ToolCall(name, args));
    var n := |s.c.calls|;
    NewCallNumbers(s, name, args);
    assert n !in s.answers && n !in s.c.answering && n !in s.c.cancelling && n !in s.stranded && n !in s.c.given;
    assert IsHeld(t.c, n) && !LetGo(t.c.calls[n]);
    forall k: nat | k < n ensures Placed(t.c, t.answers, t.stranded, k) {
      assert Placed(s.c, s.answers, s.stranded, k);
      assert t.c.calls[k] == s.c.calls[k];
    }
  }

  /** What next's loop takes, by number. */
  lemma TakenNumbers(c: Conv, m: nat)
    requires m <= |c.pending|
    requires forall id <- c.held :: CallId(c.held[id]) == id
    ensures forall n :: n in PC.Taken(c.held, c.pending, m) <==> IsHeld(c, n) && CallId(n) in c.pending[..m]
    ensures PC.Unique(PC.Taken(c.held, c.pending, m))
  {
    PC.TakenIff(c.held, c.pending, m);
    forall n | n in PC.Taken(c.held, c.pending, m) ensures IsHeld(c, n) && CallId(n) in c.pending[..m] {
      var id :| id in c.pending[..m] && id in c.held && c.held[id] == n;
      assert CallId(n) == id;
    }
  }

  lemma NextFailsPlaced(c: Conv, answers: seq<nat>, stranded: set<nat>, m: nat, n: nat)
    requires m <= |c.pending| && n < |c.calls| && c.answering == []
    requires Numbers(c, answers, stranded) && Placed(c, answers, stranded, n)
    ensures var d := c.(held := PC.HeldAfter(c.held, c.pending, m));
            Placed(d, answers, stranded + (set k <- PC.Taken(c.held, c.pending, m)), n)
  {
    TakenNumbers(c, m);
    var d := c.(held := PC.HeldAfter(c.held, c.pending, m));
    assert IsHeld(d, n) <==> IsHeld(c, n) && n !in PC.Taken(c.held, c.pending, m);
  }

  lemma NextTakesPlaced(c: Conv, answers: seq<nat>, stranded: set<nat>, rs: map<string, string>, n: nat)
    requires FirstMissing(c.held, c.pending, 0) == |c.pending| && n < |c.calls| && c.answering == []
    requires Numbers(c, answers, stranded) && Placed(c, answers, stranded, n)
    ensures Placed(Continued(c, rs), answers, stranded, n)
  {
    var m := |c.pending|;
    TakenNumbers(c, m);
    var d := Continued(c, rs);
    assert d.answering == PC.Taken(c.held, c.pending, m);
    assert IsHeld(d, n) <==> IsHeld(c, n) && n !in d.answering;
    assert n !in d.answering ==> (n in d.given <==> n in c.given) && (n in c.given ==> d.given[n] == c.given[n]);
  }

  lemma NextNumbers(c: Conv, answers: seq<nat>, stranded: set<nat>, rs: map<string, string>)
    requires Numbers(c, answers, stranded)
    ensures Numbers(Continued(c, rs), answers, stranded)
    ensures forall n :: n in PC.Taken(c.held, c.pending, FirstMissing(c.held, c.pending, 0)) ==> n < |c.calls|
  {
    TakenNumbers(c, FirstMissing(c.held, c.pending, 0));
  }

  lemma NextPlaced(s: State, rs: map<string, string>)
    requires CallsInv(s) && Enabled(s, Next(rs)) && s.c.answering == []
    ensures CallsInv(After(s, Next(rs)))
  {
    var t := After(s, Next(rs));
    var m := FirstMissing(s.c.held, s.c.pending, 0);
    NextNumbers(s.c, s.answers, s.stranded, rs);
    forall n: nat | n < |t.c.calls| ensures Placed(t.c, t.answers, t.stranded, n) {
      if m < |s.c.pending| {
        NextFailsPlaced(s.c, s.answers, s.stranded, m, n);
      } else {
        NextTakesPlaced(s.c, s.answers, s.stranded, rs, n);
      }
    }
  }

  lemma SendPlaced(s: State)
    requires CallsInv(s) && Enabled(s, Send)
    ensures CallsInv(After(s, Send))
  {
    var t := After(s, Send);
    var n := s.c.answering[0];
    assert n in s.c.answering && Placed(s.c, s.answers, s.stranded, n);
    PC.UniqueAppend(s.answers, n);
    PC.UniqueTail(s.c.answering);
    assert s.c.answering == [n] + t.c.answering;
    assert forall k <- t.c.answering :: k in s.c.answering;
    forall k: nat | k < |t.c.calls| ensures Placed(t.c, t.answers, t.stranded, k) {
      assert Placed(s.c, s.answers, s.stranded, k);
      assert IsHeld(t.c, k) <==> IsHeld(s.c, k);
      assert k in t.c.answering <==> k in s.c.answering && k != n;
    }
  }

  lemma CancelPlaced(s: State, n: nat)
    requires CallsInv(s) && Enabled(s, Cancel(n))
    ensures CallsInv(After(s, Cancel(n)))
    ensures s.c.calls[n].slot.None?
  {
    var t := After(s, Cancel(n));
    assert Placed(s.c, s.answers, s.stranded, n);
    PC.UniqueAppend(s.answers, n);
    forall k: nat | k < |t.c.calls| ensures Placed(t.c, t.answers, t.stranded, k) {
      assert Placed(s.c, s.answers, s.stranded, k);
      assert IsHeld(t.c, k) <==> IsHeld(s.c, k);
    }
  }

  lemma ClosePlaced(s: State)
    requires CallsInv(s) && s.c.cancelling == {}
    ensures CallsInv(s.(c := Ending(s.c)))
  {
    var t := s.(c := Ending(s.c));
    forall n: nat | n < |t.c.calls| ensures Placed(t.c, t.answers, t.stranded, n) {
      assert Placed(s.c, s.answers, s.stranded, n);
      assert n in t.c.cancelling <==> IsHeld(s.c, n);
    }
  }

  lemma HandlerPlaced(s: State, step: Step)
    requires CallsInv(s) && Enabled(s, step) && (step.Return? || step.GiveUp? || step.Forget?)
    ensures CallsInv(After(s, step))
  {
    var t := After(s, step);
    forall n: nat | n < |t.c.calls| ensures Placed(t.c, t.answers, t.stranded, n) {
      assert Placed(s.c, s.answers, s.stranded, n);
      CallIdsDiffer(n, step.n);
    }
  }

  lemma TurnPlaced(s: State, t: State)
    requires CallsInv(s) && t.answers == s.answers && t.stranded == s.stranded
    requires t.c == s.c.(turn := t.c.turn, early := t.c.early, pending := t.c.pending)
    ensures CallsInv(t)
  {
    forall n: nat | n < |t.c.calls| ensures Placed(t.c, t.answers, t.stranded, n) {
      assert Placed(s.c, s.answers, s.stranded, n);
      assert IsHeld(t.c, n) <==> IsHeld(s.c, n);
    }
  }

  /** Between two responses nothing is left to send; and only close cancels. */
  predicate Resting(s: State) {
    && (s.phase in {Settled, Continuing} ==> s.c.answering == [])
    && (!s.c.closed ==> s.c.cancelling == {})
  }

  lemma StepRests(s: State, step: Step)
    requires Resting(s) && Enabled(s, step)
    ensures Resting(After(s, step))
  {
  }

  lemma StepPlaced(s: State, step: Step)
    requires CallsInv(s) && Resting(s) && Enabled(s, step)
    ensures CallsInv(After(s, step)) && Resting(After(s, step))
  {
    StepRests(s, step);
    match step
    case ToolCall(name, args) => NewCallPlaced(s, name, args);
    case Next(rs) => NextPlaced(s, rs);
    case Send => SendPlaced(s);
    case Cancel(n) => CancelPlaced(s, n);
    case Close => ClosePlaced(s);
    case Return(_) => HandlerPlaced(s, step);
    case GiveUp(_) => HandlerPlaced(s, step);
    case Forget(_) => HandlerPlaced(s, step);
    case _ => TurnPlaced(s, After(s, step));
  }

  lemma {:induction false} RunPlaced(s: State, steps: seq<Step>, t: State)
    requires CallsInv(s) && Resting(s) && Reaches(s, steps, t)
    ensures CallsInv(t) && Resting(t)
    decreases |steps|
  {
    if steps != [] {
      StepPlaced(s, steps[0]);
      RunPlaced(After(s, steps[0]), steps[1..], t);
    }
  }

  /** Over every interleaving, a held call is answered at most once: with the result next captured for that very call,
      or with the cancellation when close took it and next did not. Neither send ever finds the channel full. */
  lemma AnsweredAtMostOnce(steps: seq<Step>, t: State)
    requires Reaches(START, steps, t)
    ensures forall i, j :: 0 <= i < j < |t.answers| ==> t.answers[i] != t.answers[j]
    ensures forall n: nat :: n < |t.c.calls| ==>
              && (LetGo(t.c.calls[n]) <==> n in t.answers)
              && (forall r :: Replied(t.c.calls[n], Result(r)) ==> n in t.c.given && t.c.given[n] == r)
              && (Replied(t.c.calls[n], Cancelled) ==> n !in t.c.given)
    ensures t.c.answering != [] ==> Enabled(t, Send) && t.c.calls[t.c.answering[0]].slot.None?
    ensures forall n <- t.c.cancelling :: Enabled(t, Cancel(n)) && t.c.calls[n].slot.None?
  {
    RunPlaced(START, steps, t);
    forall n: nat | n < |t.c.calls|
      ensures LetGo(t.c.calls[n]) <==> n in t.answers
      ensures forall r :: Replied(t.c.calls[n], Result(r)) ==> n in t.c.given && t.c.given[n] == r
      ensures Replied(t.c.calls[n], Cancelled) ==> n !in t.c.given
      ensures n in t.c.answering || n in t.c.cancelling ==> t.c.calls[n].slot.None?
    {
      assert Placed(t.c, t.answers, t.stranded, n);
    }
    if t.c.answering != [] {
      assert t.c.answering[0] in t.c.answering;
    }
  }

  /** What next captured for a call is what the caller returned under its id, or nothing where it returned nothing. */
  ghost predicate OwnResults(s: State) {
    && (forall n <- s.c.given ::
          if CallId(n) in s.passed then s.c.given[n] == s.passed[CallId(n)] else s.c.given[n] == "")
    && forall id <- s.passed :: exists n :: n in s.c.given && CallId(n) == id
  }

  lemma NewIsNotPassed(s: State, n: nat)
    requires OwnResults(s) && n !in s.c.given
    ensures CallId(n) !in s.passed
  {
    forall m | m in s.c.given ensures CallId(m) != CallId(n) {
      CallIdsDiffer(m, n);
    }
  }

  lemma TakenIsNew(s: State, m: nat, n: nat)
    requires CallsInv(s) && m <= |s.c.pending| && n in PC.Taken(s.c.held, s.c.pending, m)
    ensures n < |s.c.calls| && n !in s.c.given && IsHeld(s.c, n)
  {
    TakenNumbers(s.c, m);
    assert IsHeld(s.c, n) && Placed(s.c, s.answers, s.stranded, n);
  }

  /** A call that next succeeds: every pending call, in order, is on its way to be answered with what the caller returned
      for it, and what earlier calls were given is left alone. */
  lemma NextGivesResults(s: State, rs: map<string, string>)
    requires CallsInv(s) && Enabled(s, Next(rs))
    requires After(s, Next(rs)).phase == Collecting
    ensures var t := After(s, Next(rs));
            && |t.c.answering| == |s.c.pending|
            && (forall k :: 0 <= k < |s.c.pending| ==>
                  var n := t.c.answering[k];
                  && CallId(n) == s.c.pending[k] && n in t.c.given && n !in s.c.given
                  && t.c.given[n] == if s.c.pending[k] in rs then rs[s.c.pending[k]] else "")
            && (forall n <- s.c.given :: n in t.c.given && t.c.given[n] == s.c.given[n])
            && (forall n <- t.c.given :: n in s.c.given || n in t.c.answering)
  {
    var p := s.c.pending;
    var taken := PC.Taken(s.c.held, p, |p|);
    assert FirstMissing(s.c.held, p, 0) == |p|;
    TakesInOrder(s.c.held, p, |p|);
    var t := After(s, Next(rs));
    assert t.c.answering == taken && t.c.given == s.c.given + map n <- taken :: ResultFor(rs, CallId(n));
    forall n | n in taken ensures n !in s.c.given && IsHeld(s.c, n) {
      TakenIsNew(s, |p|, n);
    }
    forall k | 0 <= k < |p|
      ensures taken[k] !in s.c.given && CallId(taken[k]) == p[k] && taken[k] in t.c.given {
      assert taken[k] == s.c.held[p[k]] && taken[k] in taken;
    }
  }

  lemma GivenIsNotPending(s: State, rs: map<string, string>, n: nat)
    requires CallsInv(s) && Enabled(s, Next(rs)) && After(s, Next(rs)).phase == Collecting && n in s.c.given
    ensures CallId(n) !in s.c.pending
  {
    NextGivesResults(s, rs);
    forall k | 0 <= k < |s.c.pending| ensures s.c.pending[k] != CallId(n) {
      CallIdsDiffer(After(s, Next(rs)).c.answering[k], n);
    }
  }

  lemma {:induction false} TakesInOrder(held: map<string, nat>, pending: seq<string>, n: nat)
    requires n <= |pending| && FirstMissing(held, pending, 0) >= n
    ensures |PC.Taken(held, pending, n)| == n
    ensures forall k :: 0 <= k < n ==> pending[k] in held && PC.Taken(held, pending, n)[k] == held[pending[k]]
  {
    if n > 0 {
      TakesInOrder(held, pending, n - 1);
      NotMissingBefore(held, pending, 0, n - 1);
    }
  }

  lemma {:induction false} NotMissingBefore(held: map<string, nat>, pending: seq<string>, from: nat, k: nat)
    requires from <= k < |pending| && k < FirstMissing(held, pending, from)
    ensures pending[k] in PC.HeldAfter(held, pending, k)
    decreases k - from
  {
    if from < k {
      NotMissingBefore(held, pending, from + 1, k);
    }
  }

  lemma SameGivenOwnResults(s: State, t: State)
    requires OwnResults(s) && t.c.given == s.c.given && t.passed == s.passed
    ensures OwnResults(t)
  {
  }

  lemma OthersGiveNothing(s: State, step: Step)
    requires Enabled(s, step) && (step.Next? ==> After(s, step).phase != Collecting)
    ensures After(s, step).c.given == s.c.given && After(s, step).passed == s.passed
  {
    if step.Next? {
      NextOnlyTakes(s, step.rs);
    }
  }

  lemma StepOwnResults(s: State, step: Step)
    requires CallsInv(s) && OwnResults(s) && Enabled(s, step)
    ensures OwnResults(After(s, step))
  {
    if step.Next? && After(s, step).phase == Collecting {
      NextOwnResults(s, step.rs);
    } else {
      OthersGiveNothing(s, step);
      SameGivenOwnResults(s, After(s, step));
    }
  }

  lemma NextPasses(s: State, rs: map<string, string>, id: string)
    requires Enabled(s, Next(rs)) && After(s, Next(rs)).phase == Collecting
    ensures var t := After(s, Next(rs));
            && (id in t.passed <==> id in s.passed || (id in s.c.pending && id in rs))
            && (id in t.passed ==> t.passed[id] == if id in s.c.pending && id in rs then rs[id] else s.passed[id])
  {
  }

  lemma NextOwnResults(s: State, rs: map<string, string>)
    requires CallsInv(s) && Enabled(s, Next(rs)) && OwnResults(s)
    requires After(s, Next(rs)).phase == Collecting
    ensures OwnResults(After(s, Next(rs)))
  {
    var t := After(s, Next(rs));
    NextGivesResults(s, rs);
    forall n | n in t.c.given
      ensures if CallId(n) in t.passed then t.c.given[n] == t.passed[CallId(n)] else t.c.given[n] == "" {
      NextPasses(s, rs, CallId(n));
      if n in s.c.given {
        GivenIsNotPending(s, rs, n);
      } else {
        var k :| 0 <= k < |t.c.answering| && t.c.answering[k] == n;
        NewIsNotPassed(s, n);
      }
    }
    forall id | id in t.passed ensures exists n :: n in t.c.given && CallId(n) == id {
      PassedIsGiven(s, rs, id);
    }
  }

  lemma PassedIsGiven(s: State, rs: map<string, string>, id: string)
    requires CallsInv(s) && Enabled(s, Next(rs)) && OwnResults(s)
    requires After(s, Next(rs)).phase == Collecting && id in After(s, Next(rs)).passed
    ensures exists n :: n in After(s, Next(rs)).c.given && CallId(n) == id
  {
    var t := After(s, Next(rs));
    NextGivesResults(s, rs);
    NextPasses(s, rs, id);
    if id in s.passed {
      var n :| n in s.c.given && CallId(n) == id;
      assert n in t.c.given;
    } else {
      var k :| 0 <= k < |s.c.pending| && s.c.pending[k] == id;
      assert t.c.answering[k] in t.c.given;
    }
  }

  lemma {:induction false} RunOwnResults(s: State, steps: seq<Step>, t: State)
    requires CallsInv(s) && Resting(s) && OwnResults(s) && Reaches(s, steps, t)
    ensures OwnResults(t)
    decreases |steps|
  {
    if steps != [] {
      StepPlaced(s, steps[0]);
      StepOwnResults(s, steps[0]);
      RunOwnResults(After(s, steps[0]), steps[1..], t);
    }
  }

  ghost predicate PassedBy(steps: seq<Step>, id: string, r: string) {
    exists i :: 0 <= i < |steps| && steps[i].Next? && id in steps[i].rs && steps[i].rs[id] == r
  }

  lemma {:induction false} PassedBySomeCall(s: State, steps: seq<Step>, t: State, id: string)
    requires Reaches(s, steps, t) && id in t.passed
    ensures (id in s.passed && s.passed[id] == t.passed[id]) || PassedBy(steps, id, t.passed[id])
    decreases |steps|
  {
    if steps != [] {
      var u := After(s, steps[0]);
      PassedBySomeCall(u, steps[1..], t, id);
      if PassedBy(steps[1..], id, t.passed[id]) {
        var i :| 0 <= i < |steps| - 1 && steps[1..][i].Next? && id in steps[1..][i].rs && steps[1..][i].rs[id] == t.passed[id];
        assert steps[i + 1] == steps[1..][i];
      } else if !(id in s.passed && s.passed[id] == u.passed[id]) {
        assert steps[0].Next? && id in steps[0].rs && steps[0].rs[id] == u.passed[id];
      }
    }
  }

  /** Over every interleaving, the result a held call is answered with is the one the caller returned under that call's
      id; the empty one only when it returned none. */
  lemma AnsweredWithItsResult(steps: seq<Step>, t: State, n: nat, r: string)
    requires Reaches(START, steps, t) && n < |t.c.calls| && Replied(t.c.calls[n], Result(r))
    ensures if CallId(n) in t.passed then r == t.passed[CallId(n)] && PassedBy(steps, CallId(n), r) else r == ""
  {
    RunOwnResults(START, steps, t);
    AnsweredAtMostOnce(steps, t);
    if CallId(n) in t.passed {
      PassedBySomeCall(START, steps, t, CallId(n));
    }
  }

  /** Once every answer is sent, a call is held, answered, given up by the agent, or one that next stranded. */
  lemma AllAnsweredAtRest(steps: seq<Step>, t: State, n: nat)
    requires Reaches(START, steps, t) && t.c.answering == [] && t.c.cancelling == {} && n < |t.c.calls|
    ensures IsHeld(t.c, n) || LetGo(t.c.calls[n]) || t.c.calls[n].status.GaveUp? || n in t.stranded
    ensures n in t.stranded ==> !LetGo(t.c.calls[n]) && !IsHeld(t.c, n)
  {
    RunPlaced(START, steps, t);
    assert Placed(t.c, t.answers, t.stranded, n);
  }

  /** next strands a held call, leaving it to be neither answered nor cancelled, exactly when the call stands before the
      first pending one that is gone. */
  lemma StrandsIff(s: State, rs: map<string, string>, n: nat)
    requires CallsInv(s) && Enabled(s, Next(rs)) && IsHeld(s.c, n)
    ensures var t := After(s, Next(rs)); var m := FirstMissing(s.c.held, s.c.pending, 0);
            !IsHeld(t.c, n) && n !in t.c.answering <==> m < |s.c.pending| && CallId(n) in s.c.pending[..m]
  {
    TakenNumbers(s.c, FirstMissing(s.c.held, s.c.pending, 0));
    assert n < |s.c.calls| && Placed(s.c, s.answers, s.stranded, n);
  }

  // What next finds gone.

  /** Every call the caller has yet to answer is held, unless the agent gave it up or the conversation was closed. */
  predicate Waits(s: State) {
    s.phase != Broken ==> WaitsFrom(s.c, s.done)
  }

  lemma {:induction false} OneMoreStep(s: State, steps: seq<Step>, m: State, step: Step)
    requires Reaches(s, steps, m) && Enabled(m, step)
    ensures Reaches(s, steps + [step], After(m, step))
    decreases |steps|
  {
    var all := steps + [step];
    if steps == [] {
      assert all[1..] == [];
      assert Reaches(After(s, step), [], After(m, step));
    } else {
      assert all[0] == steps[0] && all[1..] == steps[1..] + [step];
      OneMoreStep(After(s, steps[0]), steps[1..], m, step);
    }
  }

  lemma PendingIds(s: State)
    requires Sound(s) && s.phase == Continuing
    ensures s.done + |s.c.pending| <= |s.c.calls|
    ensures forall k :: 0 <= k < |s.c.pending| ==> s.c.pending[k] == CallId(s.done + k)
  {
    var all := AllCalls(s.responses);
    var made := MadeCalls(s.c.calls);
    assert all <= made;
    AllCallsGrow(s.responses, s.served);
    forall k | 0 <= k < |s.c.pending| ensures s.c.pending[k] == CallId(s.done + k) {
      var had := AllCalls(s.responses[..s.served]);
      assert s.c.pending[k] == had[s.done..][k].id;
      assert had[s.done + k] == made[s.done + k];
    }
  }

  lemma {:induction false} AllCallsGrow(responses: seq<seq<Piece>>, n: nat)
    requires n <= |responses|
    ensures AllCalls(responses[..n]) <= AllCalls(responses)
    decreases |responses|
  {
    if n < |responses| {
      var init := responses[..|responses| - 1];
      assert init[..n] == responses[..n];
      AllCallsGrow(init, n);
    } else {
      assert responses[..n] == responses;
    }
  }

  lemma StillHeld(c: Conv, done: nat, n: nat)
    requires forall id <- c.held :: CallId(c.held[id]) == id
    requires forall k :: 0 <= k < |c.pending| ==> c.pending[k] == CallId(done + k)
    requires IsHeld(c, n) && n >= done + |c.pending|
    ensures CallId(n) in PC.HeldAfter(c.held, c.pending, |c.pending|)
  {
    forall k | 0 <= k < |c.pending| ensures c.pending[k] != CallId(n) {
      CallIdsDiffer(done + k, n);
    }
  }

  predicate WaitsFrom(c: Conv, done: nat) {
    forall n: nat :: done <= n < |c.calls| ==> IsHeld(c, n) || c.calls[n].status.GaveUp? || c.closed
  }

  lemma TakenWaits(c: Conv, d: Conv, done: nat)
    requires WaitsFrom(c, done) && d.calls == c.calls && d.closed == c.closed
    requires d.held == PC.HeldAfter(c.held, c.pending, |c.pending|)
    requires forall id <- c.held :: CallId(c.held[id]) == id
    requires forall k :: 0 <= k < |c.pending| ==> c.pending[k] == CallId(done + k)
    ensures WaitsFrom(d, done + |c.pending|)
  {
    forall n: nat | done + |c.pending| <= n < |d.calls|
      ensures IsHeld(d, n) || d.calls[n].status.GaveUp? || d.closed {
      if IsHeld(c, n) {
        StillHeld(c, done, n);
      }
    }
  }

  lemma TookWaits(s: State, t: State)
    requires Waits(s) && s.phase != Broken && t.c.calls == s.c.calls && t.c.closed == s.c.closed
    requires t.phase != Broken ==>
               t.done == s.done + |s.c.pending| && t.c.held == PC.HeldAfter(s.c.held, s.c.pending, |s.c.pending|)
    requires forall id <- s.c.held :: CallId(s.c.held[id]) == id
    requires forall k :: 0 <= k < |s.c.pending| ==> s.c.pending[k] == CallId(s.done + k)
    ensures Waits(t)
  {
    if t.phase != Broken {
      TakenWaits(s.c, t.c, s.done);
    }
  }

  lemma NextWaits(s: State, rs: map<string, string>)
    requires Waits(s) && Enabled(s, Next(rs))
    requires forall id <- s.c.held :: CallId(s.c.held[id]) == id
    requires forall k :: 0 <= k < |s.c.pending| ==> s.c.pending[k] == CallId(s.done + k)
    ensures Waits(After(s, Next(rs)))
  {
    NextOnlyTakes(s, rs);
    TookWaits(s, After(s, Next(rs)));
  }

  lemma ForgetWaits(s: State, n: nat)
    requires Waits(s) && Enabled(s, Forget(n))
    ensures Waits(After(s, Forget(n)))
  {
    var t := After(s, Forget(n));
    forall k: nat | k < |s.c.calls| && IsHeld(s.c, k) && k != n ensures IsHeld(t.c, k) {
      CallIdsDiffer(k, n);
    }
  }

  lemma ToolCallWaits(s: State, name: string, args: string)
    requires CallsInv(s) && Waits(s)
    ensures Waits(After(s, ToolCall(name, args)))
  {
    var t := After(s, ToolCall(name, args));
    NewCallNumbers(s, name, args);
    assert IsHeld(t.c, |s.c.calls|);
    forall k: nat | k < |s.c.calls| ensures t.c.calls[k] == s.c.calls[k] && (IsHeld(t.c, k) <==> IsHeld(s.c, k)) {
    }
  }

  /** A step that leaves held, done and the number of calls alone, and unsays nothing. */
  lemma OtherWaits(s: State, t: State)
    requires Waits(s) && t.c.held == s.c.held && t.done == s.done && |t.c.calls| == |s.c.calls|
    requires t.phase == Broken ==> s.phase == Broken
    requires s.phase == Broken ==> t.phase == Broken
    requires s.c.closed ==> t.c.closed
    requires forall n: nat :: n < |s.c.calls| && s.c.calls[n].status.GaveUp? ==> t.c.calls[n].status.GaveUp?
    ensures Waits(t)
  {
    if s.phase != Broken {
      forall n: nat | s.done <= n < |s.c.calls| ensures IsHeld(t.c, n) || t.c.calls[n].status.GaveUp? || t.c.closed {
        assert IsHeld(t.c, n) <==> IsHeld(s.c, n);
      }
    }
  }

  lemma TurnWaits(s: State, step: Step)
    requires Waits(s) && Enabled(s, step)
    requires step.FromAgent? || step.TimerFires? || step.SessionEnds? || step.Respond? || step.Begin?
    ensures Waits(After(s, step))
  {
    OtherWaits(s, After(s, step));
  }

  lemma AnswerWaits(s: State, step: Step)
    requires Waits(s) && Enabled(s, step) && (step.Send? || step.Return? || step.GiveUp? || step.Cancel?)
    ensures Waits(After(s, step))
  {
    OtherWaits(s, After(s, step));
  }

  lemma StepWaits(s: State, step: Step)
    requires Sound(s) && CallsInv(s) && Waits(s) && Enabled(s, step)
    ensures Waits(After(s, step))
  {
    match step
    case ToolCall(name, args) => ToolCallWaits(s, name, args);
    case Next(rs) =>
      PendingIds(s);
      NextWaits(s, rs);
    case Forget(n) => ForgetWaits(s, n);
    case Close =>
    case Send => AnswerWaits(s, step);
    case Return(_) => AnswerWaits(s, step);
    case GiveUp(_) => AnswerWaits(s, step);
    case Cancel(_) => AnswerWaits(s, step);
    case _ => TurnWaits(s, step);
  }

  lemma {:induction false} RunWaits(s: State, steps: seq<Step>, t: State)
    requires Sound(s) && CallsInv(s) && Resting(s) && Waits(s) && Reaches(s, steps, t)
    ensures Sound(t) && CallsInv(t) && Waits(t)
    decreases |steps|
  {
    if steps != [] {
      StepSound(s, steps[0]);
      StepPlaced(s, steps[0]);
      StepWaits(s, steps[0]);
      RunWaits(After(s, steps[0]), steps[1..], t);
    }
  }

  lemma {:induction false} FirstMissingIff(held: map<string, nat>, pending: seq<string>, k: nat)
    requires k <= |pending| && forall i, j :: 0 <= i < j < |pending| ==> pending[i] != pending[j]
    ensures var m := FirstMissing(held, pending, k);
            (m < |pending| ==> pending[m] !in held) && (forall i :: k <= i < m ==> pending[i] in held)
    decreases |pending| - k
  {
    if k < |pending| {
      assert pending[k] in PC.HeldAfter(held, pending, k) <==> pending[k] in held;
      if pending[k] in held {
        FirstMissingIff(held, pending, k + 1);
      }
    }
  }

  /** The calls a continued response waits for have distinct ids, and next fails exactly when one of them is no longer
      held: one the agent gave up, or one that close took. */
  lemma NextFailsIff(steps: seq<Step>, t: State)
    requires Reaches(START, steps, t) && t.phase == Continuing
    ensures forall i, j :: 0 <= i < j < |t.c.pending| ==> t.c.pending[i] != t.c.pending[j]
    ensures FirstMissing(t.c.held, t.c.pending, 0) < |t.c.pending| <==>
            exists k :: 0 <= k < |t.c.pending| && t.c.pending[k] !in t.c.held
    ensures t.done + |t.c.pending| <= |t.c.calls|
    ensures forall k :: 0 <= k < |t.c.pending| && t.c.pending[k] !in t.c.held ==>
              t.c.pending[k] == CallId(t.done + k) && (t.c.calls[t.done + k].status.GaveUp? || t.c.closed)
  {
    EmptyTurn();
    RunWaits(START, steps, t);
    PendingIds(t);
    PendingGone(t);
  }

  lemma PendingGone(t: State)
    requires Waits(t) && t.phase == Continuing && t.done + |t.c.pending| <= |t.c.calls|
    requires forall k :: 0 <= k < |t.c.pending| ==> t.c.pending[k] == CallId(t.done + k)
    ensures forall i, j :: 0 <= i < j < |t.c.pending| ==> t.c.pending[i] != t.c.pending[j]
    ensures FirstMissing(t.c.held, t.c.pending, 0) < |t.c.pending| <==>
            exists k :: 0 <= k < |t.c.pending| && t.c.pending[k] !in t.c.held
    ensures forall k :: 0 <= k < |t.c.pending| && t.c.pending[k] !in t.c.held ==>
              t.c.calls[t.done + k].status.GaveUp? || t.c.closed
  {
    forall i, j | 0 <= i < j < |t.c.pending| ensures t.c.pending[i] != t.c.pending[j] {
      CallIdsDiffer(t.done + i, t.done + j);
    }
    FirstMissingIff(t.c.held, t.c.pending, 0);
    forall k | 0 <= k < |t.c.pending| && t.c.pending[k] !in t.c.held
      ensures t.c.calls[t.done + k].status.GaveUp? || t.c.closed {
      assert !IsHeld(t.c, t.done + k);
    }
  }
}
