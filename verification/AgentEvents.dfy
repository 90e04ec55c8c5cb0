module Options {
  datatype Option<+T> = None | Some(value: T)
}

module Sequences {
  lemma Assoc<T>(a: seq<T>, b: seq<T>, c: seq<T>)
    ensures a + b + c == a + (b + c)
  {
  }

  lemma NoMore<T>(a: seq<T>)
    ensures a + [] == a
  {
  }
}

/** The agent events the session drivers and the transcript projection emit, as far as the turn lifecycle goes, and
    the grammar of a well-formed stream of them. */
module AgentEvents {
  import opened Options
  import opened Sequences

  datatype ToolStatus = InProgress | Completed | Failed | Cancelled

  datatype Event =
    | TurnStarted(index: int)
    | TurnCompleted(index: int, toolCount: nat, hasOutput: bool, stop: string)
    | Error(message: string, code: string)
    | Text(delta: string)
    | Reasoning(delta: string)
    | ToolStarted(id: string, name: string)
    | ToolCompleted(id: string, name: string, status: ToolStatus, result: string)

  predicate IsBoundary(e: Event) {
    e.TurnStarted? || e.TurnCompleted? || e.Error?
  }

  predicate IsContent(e: Event) {
    !IsBoundary(e)
  }

  /** What a consumer knows after reading a prefix of the stream: whether a turn is open, the last turn's index, the
      tools started and whether text came in it, and how many content events came outside any turn. */
  datatype Turns = Turns(open: bool, last: int, tools: nat, output: bool, stray: nat)

  /** Reading one more event; None is a stream that breaks the grammar. */
  function Read(t: Turns, e: Event): Option<Turns> {
    match e
    case TurnStarted(index) =>
      if t.open || index != t.last + 1 then None else Some(Turns(true, index, 0, false, t.stray))
    case TurnCompleted(index, toolCount, hasOutput, _) =>
      if !t.open || index != t.last || toolCount != t.tools || hasOutput != t.output then None
      else Some(t.(open := false))
    case Error(_, _) => if t.open then Some(t.(open := false)) else None
    case _ =>
      if !t.open then Some(t.(stray := t.stray + 1))
      else if e.ToolStarted? then Some(t.(tools := t.tools + 1))
      else if e.Text? then Some(t.(output := true))
      else Some(t)
  }

  function ReadAll(t: Turns, es: seq<Event>): Option<Turns>
    decreases |es|
  {
    if es == [] then Some(t)
    else
      var first := Read(t, es[0]);
      if first.None? then None else ReadAll(first.value, es[1..])
  }

  lemma {:induction false} ReadAllAppend(t: Turns, es: seq<Event>, more: seq<Event>)
    ensures ReadAll(t, es + more) ==
            if ReadAll(t, es).None? then None else ReadAll(ReadAll(t, es).value, more)
    decreases |es|
  {
    if es == [] {
      assert [] + more == more;
    } else {
      assert (es + more)[0] == es[0] && (es + more)[1..] == es[1..] + more;
      if Read(t, es[0]).Some? {
        ReadAllAppend(Read(t, es[0]).value, es[1..], more);
      }
    }
  }

  function Boundaries(es: seq<Event>): seq<Event> {
    if es == [] then []
    else (if IsBoundary(es[0]) then [es[0]] else []) + Boundaries(es[1..])
  }

  /** The n-th boundary of a stream whose last turn before it was last: even ones start a turn, with the next index; odd
      ones end it, and a completion names it. */
  predicate InPlace(e: Event, n: nat, last: int) {
    var index := last + n / 2 + 1;
    if n % 2 == 0 then e == TurnStarted(index) else e.Error? || (e.TurnCompleted? && e.index == index)
  }

  /** What the grammar means: starts and ends strictly alternate, the k-th start carries the k-th index and every
      completion names the turn it closes. */
  lemma {:induction false} GrammarAlternates(t: Turns, es: seq<Event>, i: nat)
    requires ReadAll(t, es).Some?
    requires i < |Boundaries(es)|
    ensures if t.open then InPlace(Boundaries(es)[i], i + 1, t.last - 1) else InPlace(Boundaries(es)[i], i, t.last)
    decreases |es|
  {
    var rest := Boundaries(es[1..]);
    var next := Read(t, es[0]).value;
    if !IsBoundary(es[0]) {
      assert Boundaries(es) == rest;
      GrammarAlternates(next, es[1..], i);
    } else if i > 0 {
      assert Boundaries(es)[i] == rest[i - 1];
      GrammarAlternates(next, es[1..], i - 1);
    }
  }

  /** A stream that leaves no turn open has one start and one end for each index it went through. */
  lemma {:induction false} BoundaryCount(t: Turns, es: seq<Event>)
    requires ReadAll(t, es).Some?
    ensures var u := ReadAll(t, es).value;
            |Boundaries(es)| == 2 * (u.last - t.last) + (if t.open then 1 else 0) - (if u.open then 1 else 0)
    decreases |es|
  {
    if es != [] {
      BoundaryCount(Read(t, es[0]).value, es[1..]);
    }
  }

  /** The events since the last turn start. */
  function SinceStart(es: seq<Event>): seq<Event> {
    if es == [] then []
    else if es[|es| - 1].TurnStarted? then []
    else SinceStart(es[..|es| - 1]) + [es[|es| - 1]]
  }

  function CountToolStarts(es: seq<Event>): nat {
    if es == [] then 0
    else CountToolStarts(es[..|es| - 1]) + if es[|es| - 1].ToolStarted? then 1 else 0
  }

  predicate HasText(es: seq<Event>) {
    exists i :: 0 <= i < |es| && es[i].Text?
  }

  lemma CountOneMore(es: seq<Event>, e: Event)
    ensures CountToolStarts(es + [e]) == CountToolStarts(es) + if e.ToolStarted? then 1 else 0
    ensures HasText(es + [e]) <==> HasText(es) || e.Text?
  {
    assert (es + [e])[..|es|] == es && (es + [e])[|es|] == e;
    if HasText(es) {
      var i :| 0 <= i < |es| && es[i].Text?;
      assert (es + [e])[i].Text?;
    }
  }

  /** What the grammar means for a completion: it reports the tools started, and whether text came, since its start. */
  lemma {:induction false} OpenTurnCounts(first: int, es: seq<Event>)
    requires ReadAll(Turns(false, first, 0, false, 0), es).Some?
    ensures var t := ReadAll(Turns(false, first, 0, false, 0), es).value;
            t.open ==> t.tools == CountToolStarts(SinceStart(es)) && t.output == HasText(SinceStart(es))
    decreases |es|
  {
    if es != [] {
      var init, e := es[..|es| - 1], es[|es| - 1];
      assert es == init + [e];
      ReadAllAppend(Turns(false, first, 0, false, 0), init, [e]);
      var t := ReadAll(Turns(false, first, 0, false, 0), init).value;
      assert ReadAll(t, [e]) == Read(t, e) by {
        if Read(t, e).Some? { assert ReadAll(Read(t, e).value, []) == Some(Read(t, e).value); }
      }
      OpenTurnCounts(first, init);
      if !e.TurnStarted? {
        assert SinceStart(es) == SinceStart(init) + [e];
        CountOneMore(SinceStart(init), e);
      }
    }
  }

  /** The completion reports what happened since its turn's start. */
  predicate CountsRight(es: seq<Event>, i: nat)
    requires i < |es| && es[i].TurnCompleted?
  {
    && es[i].toolCount == CountToolStarts(SinceStart(es[..i]))
    && es[i].hasOutput == HasText(SinceStart(es[..i]))
  }

  /** Every completion in a stream the grammar accepts reports the tools started, and whether text came, since the start
      of its turn. */
  lemma CompletionCounts(first: int, es: seq<Event>, i: nat)
    requires ReadAll(Turns(false, first, 0, false, 0), es).Some?
    requires i < |es| && es[i].TurnCompleted?
    ensures CountsRight(es, i)
  {
    var start := Turns(false, first, 0, false, 0);
    assert es == es[..i] + es[i..];
    ReadAllAppend(start, es[..i], es[i..]);
    var t := ReadAll(start, es[..i]).value;
    assert ReadAll(t, es[i..]).Some? && Read(t, es[i]).Some?;
    OpenTurnCounts(first, es[..i]);
  }

  // What a reader is shown inside turns.

  function Plain(e: Event): Event {
    if e.ToolCompleted? && e.status.Cancelled? then e.(status := Failed) else e
  }

  /** The events inside turns, a cancelled tool counted as a failed one. */
  function Heard(es: seq<Event>): seq<Event> {
    if es == [] then []
    else
      var e := es[|es| - 1];
      Heard(es[..|es| - 1]) + if IsBoundary(e) then [] else [Plain(e)]
  }

  lemma {:induction false} HeardAppend(a: seq<Event>, b: seq<Event>)
    ensures Heard(a + b) == Heard(a) + Heard(b)
    decreases |b|
  {
    if b == [] {
      assert a + b == a;
    } else {
      var n := |b| - 1;
      assert (a + b)[..|a| + n] == a + b[..n];
      HeardAppend(a, b[..n]);
    }
  }

  lemma HeardOne(e: Event)
    ensures Heard([e]) == if IsBoundary(e) then [] else [Plain(e)]
  {
    assert [e][..0] == [];
  }

  lemma HeardThen(start: seq<Event>, before: seq<Event>, last: seq<Event>, more: seq<Event>, added: seq<Event>)
    requires Heard(before) == start + more && added == Heard(last)
    ensures Heard(before + last) == start + (more + added)
  {
    HeardAppend(before, last);
    Assoc(start, more, added);
  }

  /** The tools a reader takes to be under way, each with the name it was started with. */
  function UnderWay(shown: seq<Event>): map<string, string> {
    if shown == [] then map[]
    else
      var before, e := UnderWay(shown[..|shown| - 1]), shown[|shown| - 1];
      if e.ToolStarted? then before[e.id := e.name] else if e.ToolCompleted? then before - {e.id} else before
  }

  function NameOf(shown: seq<Event>, id: string): string {
    if id in UnderWay(shown) then UnderWay(shown)[id] else ""
  }

  lemma UnderWayAfter(shown: seq<Event>, e: Event)
    ensures UnderWay(shown + [e]) ==
            if e.ToolStarted? then UnderWay(shown)[e.id := e.name]
            else if e.ToolCompleted? then UnderWay(shown) - {e.id}
            else UnderWay(shown)
  {
    assert (shown + [e])[..|shown|] == shown;
  }
}
