/** Tool calls parked at the permission question while the caller runs them: claudeConv's held and results of
    llm/claude.go. The agent asks for permission and calls the tool on its own time; the caller's next call brings the
    results. Every step below is one hold of the conversation's mutex, one channel operation, or one field access the
    call in progress makes alone. */
module ParkedCalls {
  import opened Options

  datatype Status = Waiting | Allowed(input: string) | GaveUp

  /** One permission question: a heldCall, its one-slot answer channel, and how the handler waiting on it came out. */
  datatype Request = Request(id: string, input: string, slot: Option<string>, status: Status)

  /** held maps a call id to the question parked under it; releasing is what next took out and has yet to answer. */
  datatype Conv = Conv(
    pending: seq<string>,
    results: map<string, string>,
    held: map<string, nat>,
    requests: seq<Request>,
    releasing: seq<nat>)

  function Asked(c: Conv, id: string, input: string): Conv {
    if id in c.results then c.(requests := c.requests + [Request(id, input, None, Allowed(input))])
    else c.(requests := c.requests + [Request(id, input, None, Waiting)], held := c.held[id := |c.requests|])
  }

  /** What is left in held, and what was taken out, after the first n pending ids. */
  function HeldAfter(held: map<string, nat>, pending: seq<string>, n: nat): map<string, nat>
    requires n <= |pending|
  {
    map id <- held | id !in pending[..n] :: held[id]
  }

  function Taken(held: map<string, nat>, pending: seq<string>, n: nat): seq<nat>
    requires n <= |pending|
  {
    if n == 0 then []
    else
      var id := pending[n - 1];
      Taken(held, pending, n - 1) + if id in HeldAfter(held, pending, n - 1) then [held[id]] else []
  }

  function Continued(c: Conv, rs: map<string, string>): Conv {
    c.(results := c.results + rs,
    held := HeldAfter(c.held, c.pending, |c.pending|),
    releasing := Taken(c.held, c.pending, |c.pending|))
  }

  ghost predicate CanSend(c: Conv) {
    c.releasing != [] && c.releasing[0] < |c.requests|
  }

  function Sent(c: Conv): Conv
    requires CanSend(c)
  {
    var k := c.releasing[0];
    c.(requests := c.requests[k := c.requests[k].(slot := Some(c.requests[k].input))], releasing := c.releasing[1..])
  }

  predicate CanReceive(c: Conv, k: nat) {
    k < |c.requests| && c.requests[k].status.Waiting? && c.requests[k].slot.Some?
  }

  function Received(c: Conv, k: nat): Conv
    requires CanReceive(c, k)
  {
    c.(requests := c.requests[k := c.requests[k].(slot := None, status := Allowed(c.requests[k].slot.value))])
  }

  predicate CanGiveUp(c: Conv, k: nat) {
    k < |c.requests| && c.requests[k].status.Waiting?
  }

  function Abandoned(c: Conv, k: nat): Conv
    requires CanGiveUp(c, k)
  {
    c.(requests := c.requests[k := c.requests[k].(status := GaveUp)])
  }

  function Lookup(c: Conv, id: string): Option<string> {
    if id in c.results then Some(c.results[id]) else None
  }

  function Responded(c: Conv, ids: seq<string>): Conv {
    c.(pending := ids, results := map[])
  }

  class ClaudeConv {
    var pending: seq<string>
    var results: map<string, string>
    var held: map<string, nat>
    var requests: seq<Request>
    var releasing: seq<nat>

    function View(): Conv
      reads this
    {
      Conv(pending, results, held, requests, releasing)
    }

    constructor ()
      ensures View() == Conv([], map[], map[], [], [])
    {
      pending, results, held, requests, releasing := [], map[], map[], [], [];
    }

    /** onPermission up to its select. */
    method OnPermission(id: string, input: string)
      modifies this
      ensures View() == Asked(old(View()), id, input)
    {
      if id in results {
        requests := requests + [Request(id, input, None, Allowed(input))];
        return;
      }
      held := held[id := |requests|];
      requests := requests + [Request(id, input, None, Waiting)];
    }

    /** The locked part of next: the results are there before any call is let go. */
    method Next(rs: map<string, string>)
      modifies this
      ensures View() == Continued(old(View()), rs)
    {
      results := results + rs;
      var allow: seq<nat> := [];
      var i := 0;
      while i < |pending|
        invariant 0 <= i <= |pending|
        invariant pending == old(pending) && results == old(results) + rs
        invariant requests == old(requests) && releasing == old(releasing)
        invariant held == HeldAfter(old(held), pending, i) && allow == Taken(old(held), pending, i)
      {
        var id := pending[i];
        assert pending[..i + 1] == pending[..i] + [id];
        if id in held {
          allow := allow + [held[id]];
          held := held - {id};
        }
        i := i + 1;
      }
      releasing := allow;
    }

    /** One send of next's second loop. */
    method Send()
      requires CanSend(View())
      modifies this
      ensures View() == Sent(old(View()))
    {
      var k := releasing[0];
      requests := requests[k := requests[k].(slot := Some(requests[k].input))];
      releasing := releasing[1..];
    }

    method ToolCall(id: string) returns (r: Option<string>)
      ensures r == Lookup(View(), id)
    {
      if id in results {
        return Some(results[id]);
      }
      return None;
    }

    method Answered(ids: seq<string>)
      modifies this
      ensures View() == Responded(old(View()), ids)
    {
      pending := ids;
      results := map[];
    }
  }

  // Whole conversations.

  /** running: a call is being served, from next to answered. named: the ids the model or the caller has used so far.
      given: what the caller returned for each call. answers: the questions let go, in order. calls: what each tools/call
      was answered with. */
  datatype State = State(
    c: Conv,
    running: bool,
    named: set<string>,
    given: map<string, string>,
    answers: seq<nat>,
    calls: map<string, Option<string>>)

  datatype Step =
    | Ask(id: string, input: string)
    | Continue(rs: map<string, string>)
    | UserTurn
    | Send
    | Receive(k: nat)
    | GiveUp(k: nat)
    | Call(id: string)
    | Respond(ids: seq<string>)

  const START := State(Conv([], map[], map[], [], []), true, {}, map[], [], map[])

  ghost predicate AskedFor(c: Conv, id: string) {
    exists k :: 0 <= k < |c.requests| && c.requests[k].id == id
  }

  ghost predicate MayRun(c: Conv, id: string) {
    exists k :: 0 <= k < |c.requests| && c.requests[k].id == id && c.requests[k].status.Allowed?
  }

  /** The agent's side: it asks once for each call, under an id new to the conversation, and calls a tool once, when it
      may, before the next response. It need not ask for a call, nor make one it may. The caller's side: it continues a
      response with a result for every call in it, or, where there is none, with a turn of the user's. */
  ghost predicate Enabled(s: State, step: Step) {
    match step
    case Ask(id, _) => !AskedFor(s.c, id) && (id in s.c.pending || id !in s.named)
    case Continue(rs) => !s.running && s.c.pending != [] && forall id <- s.c.pending :: id in rs
    case UserTurn => !s.running && s.c.pending == []
    case Send => CanSend(s.c)
    case Receive(k) => CanReceive(s.c, k)
    case GiveUp(k) => CanGiveUp(s.c, k)
    case Call(id) => MayRun(s.c, id) && id !in s.calls && id in s.c.pending
    case Respond(ids) => s.running && s.c.releasing == [] && forall id <- ids :: id !in s.named
  }

  ghost function Next(s: State, step: Step): State
    requires Enabled(s, step)
  {
    match step
    case Ask(id, input) =>
      s.(c := Asked(s.c, id, input), answers := s.answers + if id in s.c.results then [|s.c.requests|] else [])
    case Continue(rs) =>
      s.(c := Continued(s.c, rs), running := true, named := s.named + rs.Keys,
      given := s.given + map id <- rs | id in s.c.pending :: rs[id])
    case UserTurn => s.(running := true)
    case Send => s.(c := Sent(s.c), answers := s.answers + [s.c.releasing[0]])
    case Receive(k) => s.(c := Received(s.c, k))
    case GiveUp(k) => s.(c := Abandoned(s.c, k))
    case Call(id) => s.(calls := s.calls[id := Lookup(s.c, id)])
    case Respond(ids) => s.(c := Responded(s.c, ids), running := false, named := s.named + (set id <- ids))
  }

  // Where a question is: held, about to be let go, or let go.

  predicate IsHeld(c: Conv, k: nat)
    requires k < |c.requests|
  {
    var id := c.requests[k].id;
    id in c.held && c.held[id] == k
  }

  predicate LetGo(r: Request) {
    r.slot.Some? || r.status.Allowed?
  }

  /** Each question in exactly one place, and let go with its own input only. */
  ghost predicate Placed(s: State, k: nat)
    requires k < |s.c.requests|
  {
    var r := s.c.requests[k];
    && (IsHeld(s.c, k) || k in s.c.releasing || LetGo(r))
    && (IsHeld(s.c, k) ==> k !in s.c.releasing && !LetGo(r))
    && (k in s.c.releasing ==> !LetGo(r) && r.id in s.c.pending && s.running)
    && (LetGo(r) <==> k in s.answers)
    && (r.slot.Some? ==> r.slot.value == r.input && !r.status.Allowed?)
    && (r.status.Allowed? ==> r.status.input == r.input)
    && (LetGo(r) ==> r.id in s.given)
  }

  ghost predicate Unique(ks: seq<nat>) {
    forall i, j :: 0 <= i < j < |ks| ==> ks[i] != ks[j]
  }

  ghost predicate Numbers(c: Conv) {
    && (forall k <- c.releasing :: k < |c.requests|)
    && (forall id <- c.held :: c.held[id] < |c.requests| && c.requests[c.held[id]].id == id)
    && (forall i, j :: 0 <= i < j < |c.requests| ==> c.requests[i].id != c.requests[j].id)
  }

  ghost predicate Inv(s: State) {
    && Numbers(s.c)
    && (forall k: nat :: k < |s.c.requests| ==> Placed(s, k))
    && Unique(s.c.releasing) && Unique(s.answers)
    && (forall k <- s.answers :: k < |s.c.requests|)
    && ResultsInv(s)
  }

  ghost predicate ResultsInv(s: State) {
    && (forall id <- s.c.pending :: id in s.named)
    && s.c.results.Keys <= s.named && s.given.Keys <= s.named
    && (if s.running then forall id <- s.c.pending ::
                            id in s.c.results && id !in s.c.held && id in s.given && s.given[id] == s.c.results[id]
        else s.c.results == map[] && forall id <- s.c.pending :: id !in s.given)
    && (forall id <- s.calls :: id in s.given && s.calls[id] == Some(s.given[id]))
  }

  lemma {:induction false} TakenIff(held: map<string, nat>, pending: seq<string>, n: nat)
    requires n <= |pending|
    requires forall a, b :: a in held && b in held && a != b ==> held[a] != held[b]
    ensures forall k :: k in Taken(held, pending, n) <==> exists id :: id in pending[..n] && id in held && held[id] == k
    ensures Unique(Taken(held, pending, n))
  {
    if n > 0 {
      TakenIff(held, pending, n - 1);
      var id := pending[n - 1];
      assert pending[..n] == pending[..n - 1] + [id];
      assert id in pending[..n];
      if id in HeldAfter(held, pending, n - 1) {
        assert held[id] !in Taken(held, pending, n - 1);
        UniqueAppend(Taken(held, pending, n - 1), held[id]);
      }
    }
  }

  lemma UniqueTail(ks: seq<nat>)
    requires Unique(ks) && ks != []
    ensures ks[0] !in ks[1..] && Unique(ks[1..])
  {
    forall k | k in ks[1..] ensures k != ks[0] {
      var i :| 0 <= i < |ks| - 1 && ks[1..][i] == k;
      assert ks[i + 1] == k;
    }
    forall i, j | 0 <= i < j < |ks| - 1 ensures ks[1..][i] != ks[1..][j] {
      assert ks[i + 1] != ks[j + 1];
    }
  }

  lemma UniqueAppend(ks: seq<nat>, k: nat)
    requires Unique(ks) && k !in ks
    ensures Unique(ks + [k])
  {
  }

  lemma AskKeepsInv(s: State, id: string, input: string)
    requires Inv(s) && Enabled(s, Ask(id, input))
    ensures Inv(Next(s, Ask(id, input)))
  {
    var t := Next(s, Ask(id, input));
    var n := |s.c.requests|;
    assert id !in s.c.held;
    assert n !in s.answers;
    UniqueAppend(s.answers, n);
    forall k: nat | k < |t.c.requests| ensures Placed(t, k) {
      if k < n {
        assert Placed(s, k) && t.c.requests[k] == s.c.requests[k];
        assert k in t.answers <==> k in s.answers;
      } else {
        assert k !in s.c.releasing && k !in s.answers;
      }
    }
  }

  lemma ContinueKeepsInv(s: State, rs: map<string, string>)
    requires Inv(s) && Enabled(s, Continue(rs))
    ensures Inv(Next(s, Continue(rs)))
  {
    var t := Next(s, Continue(rs));
    var p := s.c.pending;
    TakenIff(s.c.held, p, |p|);
    assert p[..|p|] == p;
    forall k: nat | k < |t.c.requests| ensures Placed(t, k) {
      assert Placed(s, k);
      var id := s.c.requests[k].id;
      if k in t.c.releasing {
        var other :| other in p && other in s.c.held && s.c.held[other] == k;
        assert other == id;
      }
    }
  }

  lemma SendKeepsInv(s: State)
    requires Inv(s) && Enabled(s, Send)
    ensures Inv(Next(s, Send))
  {
    var t := Next(s, Send);
    var k0 := s.c.releasing[0];
    assert k0 in s.c.releasing && Placed(s, k0);
    UniqueAppend(s.answers, k0);
    assert s.c.releasing == [k0] + t.c.releasing;
    UniqueTail(s.c.releasing);
    assert forall k <- t.c.releasing :: k in s.c.releasing;
    forall k: nat | k < |t.c.requests| ensures Placed(t, k) {
      assert Placed(s, k);
      assert k in t.c.releasing <==> k in s.c.releasing && k != k0;
    }
  }

  lemma OtherStepsKeepInv(s: State, step: Step)
    requires Inv(s) && Enabled(s, step) && (step.Receive? || step.GiveUp?)
    ensures Inv(Next(s, step))
  {
    var t := Next(s, step);
    forall k: nat | k < |t.c.requests| ensures Placed(t, k) {
      assert Placed(s, k);
    }
  }

  lemma CallKeepsInv(s: State, id: string)
    requires Inv(s) && Enabled(s, Call(id))
    ensures Inv(Next(s, Call(id)))
    ensures id in s.given && Lookup(s.c, id) == Some(s.given[id])
  {
    var t := Next(s, Call(id));
    var k :| 0 <= k < |s.c.requests| && s.c.requests[k].id == id && s.c.requests[k].status.Allowed?;
    assert Placed(s, k);
    forall k: nat | k < |t.c.requests| ensures Placed(t, k) {
      assert Placed(s, k);
    }
  }

  lemma TurnKeepsInv(s: State, step: Step)
    requires Inv(s) && Enabled(s, step) && (step.Respond? || step.UserTurn?)
    ensures Inv(Next(s, step))
  {
    var t := Next(s, step);
    forall k: nat | k < |t.c.requests| ensures Placed(t, k) {
      assert Placed(s, k);
    }
  }

  lemma NextKeepsInv(s: State, step: Step)
    requires Inv(s) && Enabled(s, step)
    ensures Inv(Next(s, step))
  {
    match step
    case Ask(id, input) => AskKeepsInv(s, id, input);
    case Continue(rs) => ContinueKeepsInv(s, rs);
    case Send => SendKeepsInv(s);
    case Receive(_) => OtherStepsKeepInv(s, step);
    case GiveUp(_) => OtherStepsKeepInv(s, step);
    case Call(id) => CallKeepsInv(s, id);
    case UserTurn => TurnKeepsInv(s, step);
    case Respond(_) => TurnKeepsInv(s, step);
  }

  ghost predicate Reaches(s: State, steps: seq<Step>, t: State)
    decreases |steps|
  {
    if steps == [] then s == t else Enabled(s, steps[0]) && Reaches(Next(s, steps[0]), steps[1..], t)
  }

  lemma {:induction false} Run(s: State, steps: seq<Step>, t: State)
    requires Inv(s) && Reaches(s, steps, t)
    ensures Inv(t)
    decreases |steps|
  {
    if steps != [] {
      NextKeepsInv(s, steps[0]);
      Run(Next(s, steps[0]), steps[1..], t);
    }
  }

  /** Whichever side arrives first, a question is answered at most once, with its own input, and only after the caller
      gave the result of its call; the one slot of its channel is empty when next sends, so next never blocks. */
  lemma AllowedAtMostOnce(steps: seq<Step>, t: State)
    requires Reaches(START, steps, t)
    ensures forall i, j :: 0 <= i < j < |t.answers| ==> t.answers[i] != t.answers[j]
    ensures forall k <- t.c.requests :: k.status.Allowed? ==> k.status.input == k.input && k.id in t.given
    ensures forall k: nat :: k < |t.c.requests| ==> (k in t.answers <==> LetGo(t.c.requests[k]))
    ensures t.c.releasing != [] ==> CanSend(t.c) && t.c.requests[t.c.releasing[0]].slot.None?
  {
    Run(START, steps, t);
    forall k | 0 <= k < |t.c.requests| ensures var r := t.c.requests[k];
        && (r.status.Allowed? ==> r.status.input == r.input && r.id in t.given)
        && (k in t.answers <==> LetGo(r)) {
      assert Placed(t, k);
    }
    if t.c.releasing != [] {
      assert t.c.releasing[0] in t.c.releasing;
      assert Placed(t, t.c.releasing[0]);
    }
  }

  /** Once next has sent what it took, every call of the response that was asked about has been let go, and one asked
      about from then on is let go at once: no call of a continued response stays parked. */
  lemma NoCallStaysParked(steps: seq<Step>, t: State, id: string, input: string)
    requires Reaches(START, steps, t) && t.running && t.c.releasing == [] && id in t.c.pending
    ensures forall r <- t.c.requests :: r.id == id ==> LetGo(r)
    ensures var next := Asked(t.c, id, input); next.requests[|t.c.requests|].status == Allowed(input)
  {
    Run(START, steps, t);
    forall k | 0 <= k < |t.c.requests| && t.c.requests[k].id == id ensures LetGo(t.c.requests[k]) {
      assert Placed(t, k);
    }
  }

  /** Until the caller continues, no call of the last response is let go. */
  lemma ParkedUntilContinued(steps: seq<Step>, t: State)
    requires Reaches(START, steps, t) && !t.running
    ensures forall r <- t.c.requests :: r.id in t.c.pending ==> !LetGo(r) && r.id in t.c.held
  {
    Run(START, steps, t);
    forall k | 0 <= k < |t.c.requests| && t.c.requests[k].id in t.c.pending
      ensures !LetGo(t.c.requests[k]) && t.c.requests[k].id in t.c.held {
      assert Placed(t, k);
    }
  }

  /** A tools/call made while its response is being continued finds the result the caller gave for that very call; until
      the caller continues, one finds none. */
  lemma ToolsFindTheirResults(steps: seq<Step>, t: State)
    requires Reaches(START, steps, t)
    ensures forall id <- t.calls :: id in t.given && t.calls[id] == Some(t.given[id])
    ensures forall id :: MayRun(t.c, id) && id in t.c.pending ==> id in t.given && Lookup(t.c, id) == Some(t.given[id])
    ensures forall id :: !t.running ==> Lookup(t.c, id) == None
  {
    Run(START, steps, t);
    forall id | MayRun(t.c, id) && id in t.c.pending ensures id in t.given && Lookup(t.c, id) == Some(t.given[id]) {
      var k :| 0 <= k < |t.c.requests| && t.c.requests[k].id == id && t.c.requests[k].status.Allowed?;
      assert Placed(t, k);
    }
  }

  lemma {:induction false} OneMoreStep(s: State, steps: seq<Step>, m: State, step: Step)
    requires Reaches(s, steps, m) && Enabled(m, step)
    ensures Reaches(s, steps + [step], Next(m, step))
    decreases |steps|
  {
    var all := steps + [step];
    if steps == [] {
      assert all[1..] == [];
      assert Reaches(Next(s, step), [], Next(m, step));
    } else {
      assert all[0] == steps[0] && all[1..] == steps[1..] + [step];
      OneMoreStep(Next(s, steps[0]), steps[1..], m, step);
    }
  }

  lemma SecondTurnAsks(input: string) returns (steps: seq<Step>, t: State)
    ensures Reaches(START, steps, t) && !t.running && t.calls == map[] && t.given == map[]
    ensures t.c == Conv(["a"], map[], map["a" := 0], [Request("a", input, None, Waiting)], [])
  {
    steps, t := [], START;
    OneMoreStep(START, steps, t, Respond([]));
    steps, t := steps + [Respond([])], Next(t, Respond([]));
    OneMoreStep(START, steps, t, UserTurn);
    steps, t := steps + [UserTurn], Next(t, UserTurn);
    OneMoreStep(START, steps, t, Ask("a", input));
    steps, t := steps + [Ask("a", input)], Next(t, Ask("a", input));
    OneMoreStep(START, steps, t, Respond(["a"]));
    steps, t := steps + [Respond(["a"])], Next(t, Respond(["a"]));
  }

  /** A conversation goes on after a response without calls: a second user turn calls a tool and gets its result. */
  lemma SecondTurnCallsATool(input: string, result: string) returns (steps: seq<Step>, t: State)
    ensures Reaches(START, steps, t) && t.calls == map["a" := Some(result)]
  {
    var rs := map["a" := result];
    steps, t := SecondTurnAsks(input);
    assert t.c.pending[..1] == ["a"] && t.c.pending[..0] == [];
    assert Taken(t.c.held, t.c.pending, 1) == [0];
    OneMoreStep(START, steps, t, Continue(rs));
    steps, t := steps + [Continue(rs)], Next(t, Continue(rs));
    OneMoreStep(START, steps, t, Send);
    steps, t := steps + [Send], Next(t, Send);
    OneMoreStep(START, steps, t, Receive(0));
    steps, t := steps + [Receive(0)], Next(t, Receive(0));
    assert t.c.requests[0].status == Allowed(input);
    OneMoreStep(START, steps, t, Call("a"));
    steps, t := steps + [Call("a")], Next(t, Call("a"));
  }

  /** Asking parks the new question and loses no other one, if and only if its id is not parked already. */
  lemma AskingTwiceLosesTheFirst(s: State, id: string, input: string)
    requires Inv(s) && id !in s.c.results
    ensures (forall k: nat :: k < |s.c.requests| && IsHeld(s.c, k) ==> IsHeld(Asked(s.c, id, input), k)) <==>
            id !in s.c.held
  {
    var t := Asked(s.c, id, input);
    if id in s.c.held {
      var k := s.c.held[id];
      assert IsHeld(s.c, k) && !IsHeld(t, k);
    } else {
      forall k: nat | k < |s.c.requests| && IsHeld(s.c, k) ensures IsHeld(t, k) {
        assert t.requests[k] == s.c.requests[k];
      }
    }
  }
}
