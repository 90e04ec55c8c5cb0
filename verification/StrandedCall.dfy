/** A run in which a direct-mode conversation over an agent session strands a call: llm/harness.go. */
module StrandedCall {
  import opened Options
  import opened Deltas
  import opened HarnessTurns
  import opened HarnessConv
  import PC = ParkedCalls

  const LOOKUP := Call("lookup", "{}", None, Waiting)

  function LookupPiece(n: nat): Piece {
    Piece.Called(n, CallId(n), "lookup", "{}")
  }

  lemma TwoCallsMade() returns (steps: seq<Step>, t: State)
    ensures Reaches(START, steps, t) && t.phase == Collecting && t.stranded == {} && t.answers == []
    ensures t.c.calls == [LOOKUP, LOOKUP] && t.c.early == [] && t.c.answering == [] && t.c.cancelling == {}
    ensures t.c.held == map[CallId(0) := 0, CallId(1) := 1]
    ensures var u := t.c.turn;
            u.content == [LookupPiece(0), LookupPiece(1)] && u.tools == 2 && u.armed && u.outcome == None
  {
    CallIdsDiffer(0, 1);
    var call := ToolCall("lookup", "");
    steps, t := [], START;
    OneMoreStep(START, steps, t, call);
    steps, t := steps + [call], After(t, call);
    assert t.c.turn.content == [LookupPiece(0)] && t.c.turn.outcome == None && t.c.turn.armed;
    OneMoreStep(START, steps, t, call);
    steps, t := steps + [call], After(t, call);
    assert t.c.turn.content == [LookupPiece(0), LookupPiece(1)];
  }

  /** A response with two calls. */
  lemma TwoCalls() returns (steps: seq<Step>, t: State)
    ensures Reaches(START, steps, t) && t.phase == Settled && t.stranded == {}
    ensures t.c.calls == [LOOKUP, LOOKUP] && t.c.pending == [CallId(0), CallId(1)]
    ensures t.c.held == map[CallId(0) := 0, CallId(1) := 1] && t.c.answering == [] && t.c.cancelling == {}
  {
    steps, t := TwoCallsMade();
    OneMoreStep(START, steps, t, Step.TimerFires);
    steps, t := steps + [Step.TimerFires], After(t, Step.TimerFires);
    assert t.c.turn.outcome == Some(Answer([LookupPiece(0), LookupPiece(1)], "tool_use"));
    TwoIds(LookupPiece(0), LookupPiece(1));
    OneMoreStep(START, steps, t, Respond);
    steps, t := steps + [Respond], After(t, Respond);
  }

  lemma TwoIds(a: Piece, b: Piece)
    requires a.Called? && b.Called?
    ensures Ids(CallsOf([a, b])) == [a.id, b.id]
  {
    assert [a, b][..1] == [a] && [a][..0] == [];
    assert CallsOf([a]) == [Made(a.id, a.name, a.input)];
  }

  lemma SecondCallGivenUp() returns (steps: seq<Step>, t: State)
    ensures Reaches(START, steps, t) && t.phase == Continuing && t.stranded == {}
    ensures |t.c.calls| == 2 && t.c.calls[0] == LOOKUP && t.c.pending == [CallId(0), CallId(1)]
    ensures t.c.held == map[CallId(0) := 0] && t.c.answering == [] && t.c.cancelling == {}
  {
    CallIdsDiffer(0, 1);
    steps, t := TwoCalls();
    OneMoreStep(START, steps, t, GiveUp(1));
    steps, t := steps + [GiveUp(1)], After(t, GiveUp(1));
    OneMoreStep(START, steps, t, Forget(1));
    steps, t := steps + [Forget(1)], After(t, Forget(1));
    OneMoreStep(START, steps, t, Begin);
    steps, t := steps + [Begin], After(t, Begin);
  }

  lemma FirstTakenSecondMissing(held: map<string, nat>, a: string, b: string)
    requires a != b && held == map[a := 0]
    ensures FirstMissing(held, [a, b], 0) == 1 && PC.Taken(held, [a, b], 1) == [0]
    ensures PC.HeldAfter(held, [a, b], 1) == map[]
  {
    var p := [a, b];
    assert p[..0] == [] && p[..1] == [a];
    assert FirstMissing(held, p, 1) == 1;
  }

  /** The agent gives up the second of two calls; the caller's next call takes the first out of held, finds the second
      gone, and fails: the first call is held by nobody, and nobody will answer or cancel it. */
  lemma NextStrandsACall(rs: map<string, string>) returns (steps: seq<Step>, t: State)
    ensures Reaches(START, steps, t) && t.phase == Broken && t.stranded == {0}
    ensures |t.c.calls| == 2 && t.c.calls[0] == LOOKUP && !IsHeld(t.c, 0)
    ensures t.c.answering == [] && t.c.cancelling == {}
  {
    CallIdsDiffer(0, 1);
    steps, t := SecondCallGivenUp();
    FirstTakenSecondMissing(t.c.held, CallId(0), CallId(1));
    assert (set n <- [0]) == {0};
    OneMoreStep(START, steps, t, Next(rs));
    steps, t := steps + [Next(rs)], After(t, Next(rs));
  }
}
