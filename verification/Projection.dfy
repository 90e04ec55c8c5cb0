/** The projection of a conversation onto the agent event stream: transcript/events.go. */
module Projection {
  import opened Options
  import opened AgentEvents
  import opened Transcripts

  /** The event a block of an entry with this role becomes, if any. */
  function BlockEvents(role: Role, b: Block): seq<Event> {
    match role
    case Assistant =>
      if b.kind.TextBlock? && b.text != "" then [Text(b.text)]
      else if b.kind.ReasoningBlock? && b.text != "" then [Reasoning(b.text)]
      else if b.kind.ToolUse? then [ToolStarted(b.toolId, b.name)]
      else []
    case ToolRole =>
      if b.kind.ToolResult? then
        [ToolCompleted(b.toolId, b.name, if b.failed then ToolStatus.Failed else ToolStatus.Completed, b.text)]
      else []
    case _ => []
  }

  function ContentEvents(role: Role, bs: seq<Block>): seq<Event> {
    if bs == [] then [] else ContentEvents(role, bs[..|bs| - 1]) + BlockEvents(role, bs[|bs| - 1])
  }

  /** Every content event of a conversation, in order, turns aside. */
  function AllContent(es: seq<Message>): seq<Event> {
    if es == [] then [] else AllContent(es[..|es| - 1]) + ContentEvents(es[|es| - 1].role, es[|es| - 1].content)
  }

  function CountUsers(es: seq<Message>): nat {
    if es == [] then 0 else CountUsers(es[..|es| - 1]) + if es[|es| - 1].role.User? then 1 else 0
  }

  function OnlyContent(es: seq<Event>): seq<Event> {
    if es == [] then []
    else OnlyContent(es[..|es| - 1]) + if IsContent(es[|es| - 1]) then [es[|es| - 1]] else []
  }

  /** Turns are numbered from 0. */
  const BEFORE_FIRST := Turns(false, -1, 0, false, 0)

  predicate NoUser(es: seq<Message>) {
    forall i :: 0 <= i < |es| ==> !es[i].role.User?
  }

  /** The content since the last user entry: that of the turn still open, if there is one. */
  function SinceUser(es: seq<Message>): seq<Event> {
    if es == [] || es[|es| - 1].role.User? then []
    else SinceUser(es[..|es| - 1]) + ContentEvents(es[|es| - 1].role, es[|es| - 1].content)
  }

  /** The content before the first user entry. */
  function Preamble(es: seq<Message>): seq<Event> {
    if es == [] then []
    else
      Preamble(es[..|es| - 1]) +
      if CountUsers(es) > 0 then [] else ContentEvents(es[|es| - 1].role, es[|es| - 1].content)
  }

  function Completion(k: int, content: seq<Event>): Event {
    TurnCompleted(k, CountToolStarts(content), HasText(content), "")
  }

  /** The end of the last turn, if there is one. */
  function Ending(es: seq<Message>): seq<Event> {
    if CountUsers(es) == 0 then [] else [Completion(CountUsers(es) - 1, SinceUser(es))]
  }

  /** The stream of a conversation, its last turn still open. */
  function Unfinished(es: seq<Message>): seq<Event> {
    if es == [] then []
    else
      var init, m := es[..|es| - 1], es[|es| - 1];
      Unfinished(init) +
      if m.role.User? then Ending(init) + [TurnStarted(CountUsers(init))] else ContentEvents(m.role, m.content)
  }

  /** The event stream of a conversation. */
  function Stream(es: seq<Message>): seq<Event> {
    Unfinished(es) + Ending(es)
  }

  /** What one more entry does. */
  lemma OneMoreEntry(es: seq<Message>, m: Message)
    ensures var all, more := es + [m], ContentEvents(m.role, m.content);
            && CountUsers(all) == CountUsers(es) + (if m.role.User? then 1 else 0)
            && AllContent(all) == AllContent(es) + more
            && SinceUser(all) == (if m.role.User? then [] else SinceUser(es) + more)
            && Preamble(all) == Preamble(es) + (if CountUsers(all) > 0 then [] else more)
            && Unfinished(all) ==
               if m.role.User? then Stream(es) + [TurnStarted(CountUsers(es))] else Unfinished(es) + more
  {
    assert (es + [m])[..|es|] == es;
  }

  lemma {:induction false} UserIsNoContent(bs: seq<Block>)
    ensures ContentEvents(User, bs) == []
    decreases |bs|
  {
    if bs != [] {
      UserIsNoContent(bs[..|bs| - 1]);
    }
  }

  // Which turn an event lies in.

  lemma AppendAssoc(a: seq<Event>, b: seq<Event>, c: seq<Event>)
    ensures a + b + c == a + (b + c)
  {
  }

  lemma Prefixes(a: seq<Event>, b: seq<Event>, c: seq<Event>)
    requires a <= b
    ensures a <= b + c
  {
    assert (b + c)[..|a|] == b[..|a|];
  }

  function Opening(before: seq<Message>): seq<Event> {
    Stream(before) + [TurnStarted(CountUsers(before))]
  }

  predicate HoldsTurn(before: seq<Message>, turn: seq<Message>, es: seq<Message>) {
    && CountUsers(es) == CountUsers(before) + 1 && SinceUser(es) == AllContent(turn)
    && Unfinished(es) == Opening(before) + AllContent(turn)
  }

  lemma HoldsOneMore(before: seq<Message>, turn: seq<Message>, es: seq<Message>, m: Message)
    requires HoldsTurn(before, turn, es) && !m.role.User?
    ensures HoldsTurn(before, turn + [m], es + [m])
  {
    OneMoreEntry(es, m);
    OneMoreEntry(turn, m);
    AppendAssoc(Opening(before), AllContent(turn), ContentEvents(m.role, m.content));
  }

  lemma HoldsNothing(before: seq<Message>, user: Message)
    requires user.role.User?
    ensures HoldsTurn(before, [], before + [user])
  {
    OneMoreEntry(before, user);
    assert Opening(before) + [] == Opening(before);
  }

  lemma {:induction false} OpenTurnHolds(before: seq<Message>, user: Message, turn: seq<Message>, es: seq<Message>)
    requires user.role.User? && NoUser(turn) && es == before + [user] + turn
    ensures HoldsTurn(before, turn, es)
    decreases |turn|
  {
    if turn == [] {
      assert es == before + [user];
      HoldsNothing(before, user);
    } else {
      var init, m := turn[..|turn| - 1], turn[|turn| - 1];
      var front := before + [user] + init;
      assert turn == init + [m] && es == front + [m];
      OpenTurnHolds(before, user, init, front);
      HoldsOneMore(before, init, front, m);
    }
  }

  /** The turn a user entry opens holds exactly the content of the entries up to the next user entry, between its start
      and the completion that counts it; and it comes right after the stream of what was before. */
  lemma TurnHoldsItsEntries(before: seq<Message>, user: Message, turn: seq<Message>, es: seq<Message>)
    requires user.role.User? && NoUser(turn) && es == before + [user] + turn
    ensures var k := CountUsers(before);
            Stream(es) == Stream(before) + [TurnStarted(k)] + AllContent(turn) + [Completion(k, AllContent(turn))]
  {
    OpenTurnHolds(before, user, turn, es);
    assert Ending(es) == [Completion(CountUsers(before), AllContent(turn))];
  }

  /** Before the first user entry there is content and no turn. */
  lemma {:induction false} NoTurnBeforeTheFirstUser(es: seq<Message>)
    requires NoUser(es)
    ensures CountUsers(es) == 0 && Stream(es) == AllContent(es) == Unfinished(es)
  {
    if es != [] {
      NoTurnBeforeTheFirstUser(es[..|es| - 1]);
    }
  }

  lemma UnfinishedGrowsByOne(es: seq<Message>, m: Message)
    ensures Unfinished(es) <= Unfinished(es + [m])
    ensures m.role.User? ==> Stream(es) <= Unfinished(es + [m])
  {
    OneMoreEntry(es, m);
    Prefixes(Unfinished(es), Unfinished(es), if m.role.User? then Ending(es) else ContentEvents(m.role, m.content));
    if m.role.User? {
      Prefixes(Unfinished(es), Stream(es), [TurnStarted(CountUsers(es))]);
      Prefixes(Stream(es), Stream(es), [TurnStarted(CountUsers(es))]);
    }
  }

  lemma {:induction false} UnfinishedGrows(es: seq<Message>, all: seq<Message>)
    requires es <= all
    ensures Unfinished(es) <= Unfinished(all)
    decreases |all|
  {
    if |all| > |es| {
      var init, m := all[..|all| - 1], all[|all| - 1];
      assert all == init + [m];
      UnfinishedGrows(es, init);
      UnfinishedGrowsByOne(init, m);
      Prefixes(Unfinished(es), Unfinished(init), Unfinished(all)[|Unfinished(init)|..]);
    } else {
      assert es == all;
    }
  }

  /** What comes after does not change it. */
  lemma LaterTurnsAreAppended(es: seq<Message>, all: seq<Message>)
    requires es <= all && (es == all || all[|es|].role.User?)
    ensures Stream(es) <= Stream(all)
  {
    var n := |es|;
    if n < |all| {
      var next := all[..n + 1];
      assert next == es + [all[n]];
      UnfinishedGrowsByOne(es, all[n]);
      UnfinishedGrows(next, all);
      Prefixes(Stream(es), Unfinished(next), Unfinished(all)[|Unfinished(next)|..]);
      Prefixes(Stream(es), Unfinished(all), Ending(all));
    } else {
      assert es == all;
    }
  }

  lemma CountsAppend(a: seq<Event>, b: seq<Event>)
    ensures CountToolStarts(a + b) == CountToolStarts(a) + CountToolStarts(b)
    ensures HasText(a + b) <==> HasText(a) || HasText(b)
    decreases |b|
  {
    if b == [] {
      assert a + b == a;
    } else {
      assert (a + b)[..|a + b| - 1] == a + b[..|b| - 1];
      CountsAppend(a, b[..|b| - 1]);
    }
    if HasText(a) {
      var i :| 0 <= i < |a| && a[i].Text?;
      assert (a + b)[i].Text?;
    }
    if HasText(b) {
      var i :| 0 <= i < |b| && b[i].Text?;
      assert (a + b)[|a| + i].Text?;
    }
  }

  /** What the projector's fields are once it has read es. */
  predicate Projects(es: seq<Message>, out: seq<Event>, turn: int, open: bool, tools: nat, hasOutput: bool) {
    && out == Unfinished(es) && turn == CountUsers(es) - 1 && open == (CountUsers(es) > 0)
    && (open ==> tools == CountToolStarts(SinceUser(es)) && hasOutput == HasText(SinceUser(es)))
  }

  lemma OtherProjects(
      es: seq<Message>, m: Message, out: seq<Event>, turn: int, open: bool, tools: nat, hasOutput: bool)
    requires Projects(es, out, turn, open, tools, hasOutput) && !m.role.User?
    ensures var more := ContentEvents(m.role, m.content);
            Projects(es + [m], out + more, turn, open, tools + CountToolStarts(more), hasOutput || HasText(more))
  {
    OneMoreEntry(es, m);
    CountsAppend(SinceUser(es), ContentEvents(m.role, m.content));
  }

  /** projector. read is what it was given so far. */
  class Projector {
    var out: seq<Event>
    var turn: int
    var open: bool
    var tools: nat
    var hasOutput: bool
    ghost var read: seq<Message>

    ghost predicate Valid()
      reads this
    {
      Projects(read, out, turn, open, tools, hasOutput)
    }

    constructor ()
      ensures Valid() && read == []
    {
      out, turn, open, tools, hasOutput, read := [], -1, false, 0, false, [];
    }

    method CloseTurn()
      modifies this`out, this`open
      ensures !open
      ensures out == old(out) + if old(open) then [TurnCompleted(turn, tools, hasOutput, "")] else []
    {
      if !open {
        return;
      }
      out := out + [TurnCompleted(turn, tools, hasOutput, "")];
      open := false;
    }

    method StartTurn(ghost m: Message)
      requires Valid() && m.role.User?
      modifies this
      ensures Valid() && read == old(read) + [m] && old(out) <= out
    {
      OneMoreEntry(read, m);
      CloseTurn();
      assert out == Stream(read);
      turn := turn + 1;
      tools, hasOutput, open := 0, false, true;
      out := out + [TurnStarted(turn)];
      read := read + [m];
      assert !HasText([]);
    }

    /** An entry's events go at the end of those already out, inside the turn that is open: with its start and the end of
        the turn before when it is a user's. */
    method Entry(m: Message)
      requires Valid()
      modifies this
      ensures Valid() && read == old(read) + [m] && old(out) <= out
    {
      if m.role.User? {
        StartTurn(m);
        return;
      }
      OtherProjects(read, m, out, turn, open, tools, hasOutput);
      EntryBlocks(m);
      read := read + [m];
    }

    method EntryBlocks(m: Message)
      requires !m.role.User?
      modifies this`out, this`tools, this`hasOutput
      ensures out == old(out) + ContentEvents(m.role, m.content)
      ensures tools == old(tools) + CountToolStarts(ContentEvents(m.role, m.content))
      ensures hasOutput == (old(hasOutput) || HasText(ContentEvents(m.role, m.content)))
    {
      var i := 0;
      while i < |m.content|
        invariant 0 <= i <= |m.content|
        invariant out == old(out) + ContentEvents(m.role, m.content[..i])
        invariant tools == old(tools) + CountToolStarts(ContentEvents(m.role, m.content[..i]))
        invariant hasOutput == (old(hasOutput) || HasText(ContentEvents(m.role, m.content[..i])))
      {
        OneMoreBlock(old(out), m.role, m.content, i);
        EntryBlock(m.role, m.content[i]);
        i := i + 1;
      }
      assert m.content[..i] == m.content;
    }

    method EntryBlock(role: Role, b: Block)
      requires !role.User?
      modifies this`out, this`tools, this`hasOutput
      ensures out == old(out) + BlockEvents(role, b)
      ensures tools == old(tools) + CountToolStarts(BlockEvents(role, b))
      ensures hasOutput == (old(hasOutput) || HasText(BlockEvents(role, b)))
    {
      if role.Assistant? {
        match b.kind
        case TextBlock =>
          if b.text != "" {
            hasOutput := true;
            out := out + [Text(b.text)];
          }
        case ReasoningBlock =>
          if b.text != "" {
            out := out + [Reasoning(b.text)];
          }
        case ToolUse =>
          tools := tools + 1;
          out := out + [ToolStarted(b.toolId, b.name)];
        case _ =>
      } else if role.ToolRole? && b.kind.ToolResult? {
        out := out +
        [ToolCompleted(b.toolId, b.name, if b.failed then ToolStatus.Failed else ToolStatus.Completed, b.text)];
      }
    }
  }

  lemma OneMoreBlock(es: seq<Event>, role: Role, bs: seq<Block>, i: nat)
    requires i < |bs|
    ensures es + ContentEvents(role, bs[..i + 1]) == es + ContentEvents(role, bs[..i]) + BlockEvents(role, bs[i])
    ensures var before, more := ContentEvents(role, bs[..i]), BlockEvents(role, bs[i]);
            && CountToolStarts(ContentEvents(role, bs[..i + 1])) == CountToolStarts(before) + CountToolStarts(more)
            && (HasText(ContentEvents(role, bs[..i + 1])) <==> HasText(before) || HasText(more))
  {
    assert bs[..i + 1][..i] == bs[..i];
    CountsAppend(ContentEvents(role, bs[..i]), BlockEvents(role, bs[i]));
  }

  /** Session.Events: the stream of the conversation, turn by turn. */
  method Events(entries: seq<Message>) returns (out: seq<Event>)
    ensures out == Stream(entries)
  {
    var p := new Projector();
    var i := 0;
    while i < |entries|
      invariant 0 <= i <= |entries|
      invariant p.Valid() && p.read == entries[..i]
    {
      assert entries[..i + 1] == entries[..i] + [entries[i]];
      p.Entry(entries[i]);
      i := i + 1;
    }
    assert entries[..i] == entries;
    if |entries| > 0 {
      p.CloseTurn();
    }
    out := p.out;
  }

  // What a reader makes of the stream.

  lemma ReadOne(t: Turns, e: Event)
    ensures ReadAll(t, [e]) == Read(t, e)
  {
    if Read(t, e).Some? {
      assert ReadAll(Read(t, e).value, []) == Read(t, e);
    }
  }

  lemma {:induction false} BlocksAreContent(role: Role, bs: seq<Block>)
    ensures forall e <- ContentEvents(role, bs) :: IsContent(e)
  {
    if bs != [] {
      BlocksAreContent(role, bs[..|bs| - 1]);
    }
  }

  function WithContent(t: Turns, es: seq<Event>): Turns {
    if t.open then t.(tools := t.tools + CountToolStarts(es), output := t.output || HasText(es))
    else t.(stray := t.stray + |es|)
  }

  lemma {:induction false} ReadContent(t: Turns, es: seq<Event>)
    requires forall e <- es :: IsContent(e)
    ensures ReadAll(t, es) == Some(WithContent(t, es))
  {
    if es == [] {
      assert !HasText(es);
      assert WithContent(t, es) == t;
    } else {
      var init, e := es[..|es| - 1], es[|es| - 1];
      assert e in es;
      ReadContent(t, init);
      assert es == init + [e];
      ReadAllAppend(t, init, [e]);
      ReadOne(WithContent(t, init), e);
      CountsAppend(init, [e]);
    }
  }

  lemma {:induction false} ReadUnfinished(es: seq<Message>)
    ensures ReadAll(BEFORE_FIRST, Unfinished(es)).Some?
    ensures var r, content := ReadAll(BEFORE_FIRST, Unfinished(es)).value, SinceUser(es);
            && r.open == (CountUsers(es) > 0) && r.last == CountUsers(es) - 1 && r.stray == |Preamble(es)|
            && (r.open ==> r.tools == CountToolStarts(content) && r.output == HasText(content))
  {
    if es == [] {
      assert ReadAll(BEFORE_FIRST, []) == Some(BEFORE_FIRST);
    } else {
      var init, m := es[..|es| - 1], es[|es| - 1];
      assert es == init + [m];
      ReadUnfinished(init);
      OneMoreEntry(init, m);
      if m.role.User? {
        ReadStart(init);
        assert !HasText([]);
      } else {
        ReadMore(init, m);
      }
    }
  }

  /** Reading the end of the last turn. */
  lemma ReadEnding(es: seq<Message>)
    requires var r, content := ReadAll(BEFORE_FIRST, Unfinished(es)), SinceUser(es);
             && r.Some? && r.value.open == (CountUsers(es) > 0) && r.value.last == CountUsers(es) - 1
             && (r.value.open ==> r.value.tools == CountToolStarts(content) && r.value.output == HasText(content))
    ensures ReadAll(BEFORE_FIRST, Stream(es)) == Some(ReadAll(BEFORE_FIRST, Unfinished(es)).value.(open := false))
  {
    var r := ReadAll(BEFORE_FIRST, Unfinished(es)).value;
    ReadAllAppend(BEFORE_FIRST, Unfinished(es), Ending(es));
    if CountUsers(es) > 0 {
      ReadOne(r, Completion(CountUsers(es) - 1, SinceUser(es)));
    }
  }

  lemma ReadStart(es: seq<Message>)
    requires var r, content := ReadAll(BEFORE_FIRST, Unfinished(es)), SinceUser(es);
             && r.Some? && r.value.open == (CountUsers(es) > 0) && r.value.last == CountUsers(es) - 1
             && (r.value.open ==> r.value.tools == CountToolStarts(content) && r.value.output == HasText(content))
    ensures ReadAll(BEFORE_FIRST, Stream(es) + [TurnStarted(CountUsers(es))]) ==
            Some(Turns(true, CountUsers(es), 0, false, ReadAll(BEFORE_FIRST, Unfinished(es)).value.stray))
  {
    ReadEnding(es);
    ReadAllAppend(BEFORE_FIRST, Stream(es), [TurnStarted(CountUsers(es))]);
    ReadOne(ReadAll(BEFORE_FIRST, Stream(es)).value, TurnStarted(CountUsers(es)));
  }

  lemma ReadMore(es: seq<Message>, m: Message)
    requires ReadAll(BEFORE_FIRST, Unfinished(es)).Some?
    ensures var more, r := ContentEvents(m.role, m.content), ReadAll(BEFORE_FIRST, Unfinished(es)).value;
            && ReadAll(BEFORE_FIRST, Unfinished(es) + more) == Some(WithContent(r, more))
            && CountToolStarts(SinceUser(es) + more) == CountToolStarts(SinceUser(es)) + CountToolStarts(more)
            && (HasText(SinceUser(es) + more) <==> HasText(SinceUser(es)) || HasText(more))
  {
    var more := ContentEvents(m.role, m.content);
    BlocksAreContent(m.role, m.content);
    ReadAllAppend(BEFORE_FIRST, Unfinished(es), more);
    ReadContent(ReadAll(BEFORE_FIRST, Unfinished(es)).value, more);
    CountsAppend(SinceUser(es), more);
  }

  lemma {:induction false} OnlyContentAppend(a: seq<Event>, b: seq<Event>)
    ensures OnlyContent(a + b) == OnlyContent(a) + OnlyContent(b)
    decreases |b|
  {
    if b == [] {
      assert a + b == a;
    } else {
      assert (a + b)[..|a + b| - 1] == a + b[..|b| - 1];
      OnlyContentAppend(a, b[..|b| - 1]);
    }
  }

  lemma {:induction false} OnlyContentOfContent(es: seq<Event>)
    requires forall e <- es :: IsContent(e)
    ensures OnlyContent(es) == es
  {
    if es != [] {
      OnlyContentOfContent(es[..|es| - 1]);
      assert es == es[..|es| - 1] + [es[|es| - 1]];
    }
  }

  lemma NoContentInBoundaries(es: seq<Event>)
    requires |es| <= 1 && forall e <- es :: IsBoundary(e)
    ensures OnlyContent(es) == []
  {
    if |es| == 1 {
      assert es[..0] == [] && es[0] in es;
    }
  }

  lemma {:induction false} StreamHoldsContent(es: seq<Message>)
    ensures OnlyContent(Unfinished(es)) == AllContent(es) == OnlyContent(Stream(es))
  {
    if es != [] {
      var init, m := es[..|es| - 1], es[|es| - 1];
      assert es == init + [m];
      StreamHoldsContent(init);
      OneMoreEntry(init, m);
      if m.role.User? {
        UserIsNoContent(m.content);
        NoContentInBoundaries([TurnStarted(CountUsers(init))]);
        OnlyContentAppend(Stream(init), [TurnStarted(CountUsers(init))]);
      } else {
        var more := ContentEvents(m.role, m.content);
        BlocksAreContent(m.role, m.content);
        OnlyContentOfContent(more);
        OnlyContentAppend(Unfinished(init), more);
      }
    }
    NoContentInBoundaries(Ending(es));
    OnlyContentAppend(Unfinished(es), Ending(es));
  }

  lemma StreamBoundaries(out: seq<Event>, n: nat)
    requires var r := ReadAll(BEFORE_FIRST, out); r.Some? && !r.value.open && r.value.last == n - 1
    ensures |Boundaries(out)| == 2 * n
    ensures forall i :: 0 <= i < |Boundaries(out)| ==> InPlace(Boundaries(out)[i], i, -1)
  {
    BoundaryCount(BEFORE_FIRST, out);
    forall i | 0 <= i < |Boundaries(out)| ensures InPlace(Boundaries(out)[i], i, -1) {
      GrammarAlternates(BEFORE_FIRST, out, i);
    }
  }

  /** The projection of any conversation is a well-formed stream: one turn per user entry, numbered from 0, each started
      and then completed once before the next start, at the latest at the end, with the counts of what it holds; the
      tool uses, tool results and non-empty assistant texts and reasonings appear once each, in order; and only those
      before the first user entry lie outside a turn. */
  lemma StreamIsWellFormed(entries: seq<Message>)
    ensures var out := Stream(entries);
            var r := ReadAll(BEFORE_FIRST, out);
            && r.Some? && !r.value.open && r.value.last == CountUsers(entries) - 1
            && r.value.stray == |Preamble(entries)|
            && |Boundaries(out)| == 2 * CountUsers(entries)
            && (forall i :: 0 <= i < |Boundaries(out)| ==> InPlace(Boundaries(out)[i], i, -1))
            && OnlyContent(out) == AllContent(entries)
  {
    ReadUnfinished(entries);
    ReadEnding(entries);
    StreamBoundaries(Stream(entries), CountUsers(entries));
    StreamHoldsContent(entries);
  }
}
