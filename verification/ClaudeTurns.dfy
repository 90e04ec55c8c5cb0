/** One response collected from Claude Code's stream: claudeTurn and onMessage of llm/claude.go, without the token
    counts and times. */
module ClaudeTurns {
  import opened Options
  import opened Deltas
  import opened Sequences

  datatype Kind = TextKind | ReasoningKind | CallKind

  datatype Block = Block(kind: Kind, text: string, signature: string, id: string, name: string, toolIndex: nat)

  datatype Output = OutText(text: string) | OutReasoning(text: string, signature: string)
                  | OutCall(id: string, name: string, input: string)

  datatype Outcome = Answer(content: seq<Output>, stop: string) | Failure(message: string)

  datatype Turn = Turn(
    msgId: string, blocks: map<int, Block>, order: seq<int>, tools: nat, stop: string, stopped: bool,
    outcome: Option<Outcome>, deltas: seq<Delta>)

  const NEW := Turn("", map[], [], 0, "", false, None, [])

  datatype Opening = OpenText | OpenThinking(signature: string) | OpenCall(id: string, name: string) | OpenOther

  datatype Addition = AddText(text: string) | AddThinking(text: string) | AddSignature(text: string)
                    | AddJson(text: string) | AddOther

  datatype StreamEvent =
    | MessageStart(id: Option<string>)
    | BlockStart(index: int, opening: Option<Opening>)
    | BlockDelta(index: int, addition: Addition)
    | MessageDelta(stop: string)
    | MessageStop

  /** nested: of a subagent's. */
  datatype Message =
    | Streamed(nested: bool, event: StreamEvent)
    | AssistantError(nested: bool, error: string)
    | Result(message: string)

  predicate Retries(t: Turn, e: StreamEvent) {
    e.MessageStart? && e.id.Some? && !t.stopped && t.msgId != "" && t.msgId != e.id.value
  }

  function Opened(t: Turn, opening: Opening): Block {
    match opening
    case OpenThinking(s) => Block(ReasoningKind, "", s, "", "", 0)
    case OpenCall(id, name) => Block(CallKind, "", "", id, name, t.tools)
    case _ => Block(TextKind, "", "", "", "", 0)
  }

  function Started(t: Turn, i: int, opening: Opening): Turn {
    if opening.OpenOther? then t
    else
      var u := t.(blocks := t.blocks[i := Opened(t, opening)], order := t.order + [i]);
      if opening.OpenCall? then
        u.(tools := t.tools + 1, deltas := t.deltas + [CallStart(i, t.tools, opening.id, opening.name)])
      else u
  }

  function Added(t: Turn, i: int, a: Addition): Turn {
    if i !in t.blocks then t
    else
      var b := t.blocks[i];
      match a
      case AddText(x) => t.(blocks := t.blocks[i := b.(text := b.text + x)], deltas := t.deltas + [TextDelta(i, x)])
      case AddThinking(x) =>
        t.(blocks := t.blocks[i := b.(text := b.text + x)], deltas := t.deltas + [ReasoningDelta(i, x)])
      case AddSignature(x) => t.(blocks := t.blocks[i := b.(signature := b.signature + x)])
      case AddJson(x) =>
        t.(blocks := t.blocks[i := b.(text := b.text + x)], deltas := t.deltas + [CallArguments(i, b.toolIndex, x)])
      case AddOther => t
  }

  function OnStream(t: Turn, e: StreamEvent): Turn {
    match e
    case MessageStart(id) =>
      if id.None? || t.stopped then t
      else if Retries(t, e) then
        t.(blocks := map[], order := [], tools := 0, stop := "", stopped := false, msgId := id.value)
      else t.(msgId := id.value)
    case BlockStart(i, opening) => if opening.None? then t else Started(t, i, opening.value)
    case BlockDelta(i, a) => Added(t, i, a)
    case MessageDelta(stop) => if stop != "" then t.(stop := stop) else t
    case MessageStop => if t.msgId != "" then t.(stopped := true) else t
  }

  function OutputOf(b: Block): Output {
    match b.kind
    case CallKind => OutCall(b.id, b.name, if b.text == "" then "{}" else b.text)
    case ReasoningKind => OutReasoning(b.text, b.signature)
    case TextKind => OutText(b.text)
  }

  /** Every block listed is there. */
  predicate Listed(t: Turn) {
    forall k :: 0 <= k < |t.order| ==> t.order[k] in t.blocks
  }

  function Content(t: Turn): (content: seq<Output>)
    requires Listed(t)
    ensures |content| == |t.order|
  {
    seq(|t.order|, k requires 0 <= k < |t.order| => OutputOf(t.blocks[t.order[k]]))
  }

  function Ended(t: Turn, failure: Option<string>): Turn
    requires Listed(t)
  {
    if t.outcome.Some? then t
    else t.(outcome := Some(if failure.Some? then Failure(failure.value) else Answer(Content(t), t.stop)))
  }

  lemma StreamKeepsListed(t: Turn, e: StreamEvent)
    requires Listed(t)
    ensures Listed(OnStream(t, e))
  {
  }

  function Next(t: Turn, m: Message): Turn
    requires Listed(t)
  {
    if t.outcome.Some? then t
    else
      match m
      case Streamed(nested, e) =>
        if nested then t
        else
          var u := OnStream(t, e);
          StreamKeepsListed(t, e);
          if u.stopped && u.stop != "end_turn" then Ended(u, None) else u
      case AssistantError(nested, error) =>
        if !nested && error != "" && t.msgId == "" then Ended(t, Some(error)) else t
      case Result(message) => Ended(t, if t.stopped then None else Some(message))
  }

  class ClaudeTurn {
    var msgId: string
    var blocks: map<int, Block>
    var order: seq<int>
    var tools: nat
    var stop: string
    var stopped: bool
    var outcome: Option<Outcome>
    ghost var deltas: seq<Delta>

    ghost function View(): Turn
      reads this
    {
      Turn(msgId, blocks, order, tools, stop, stopped, outcome, deltas)
    }

    constructor ()
      ensures View() == NEW
    {
      msgId, blocks, order, tools := "", map[], [], 0;
      stop, stopped, outcome, deltas := "", false, None, [];
    }

    method Stream(e: StreamEvent)
      modifies this
      ensures View() == OnStream(old(View()), e)
    {
      match e {
        case MessageStart(id) =>
          if id.None? || stopped {
            return;
          }
          if msgId != "" && msgId != id.value {
            blocks, order, tools, stop, stopped := map[], [], 0, "", false;
          }
          msgId := id.value;
        case BlockStart(i, opening) =>
          if opening.None? {
            return;
          }
          var b := Block(TextKind, "", "", "", "", 0);
          match opening.value {
            case OpenText =>
            case OpenThinking(signature) =>
              b := b.(kind := ReasoningKind, signature := signature);
            case OpenCall(id, name) =>
              b := Block(CallKind, "", "", id, name, tools);
              tools := tools + 1;
              deltas := deltas + [CallStart(i, b.toolIndex, id, name)];
            case OpenOther =>
              return;
          }
          blocks := blocks[i := b];
          order := order + [i];
        case BlockDelta(i, a) =>
          if i !in blocks {
            return;
          }
          var b := blocks[i];
          match a {
            case AddText(x) =>
              blocks := blocks[i := b.(text := b.text + x)];
              deltas := deltas + [TextDelta(i, x)];
            case AddThinking(x) =>
              blocks := blocks[i := b.(text := b.text + x)];
              deltas := deltas + [ReasoningDelta(i, x)];
            case AddSignature(x) =>
              blocks := blocks[i := b.(signature := b.signature + x)];
            case AddJson(x) =>
              blocks := blocks[i := b.(text := b.text + x)];
              deltas := deltas + [CallArguments(i, b.toolIndex, x)];
            case AddOther =>
          }
        case MessageDelta(reason) =>
          if reason != "" {
            stop := reason;
          }
        case MessageStop =>
          if msgId != "" {
            stopped := true;
          }
      }
    }

    method Finish(failure: Option<string>)
      requires Listed(View())
      modifies this
      ensures View() == Ended(old(View()), failure)
    {
      if outcome.Some? {
        return;
      }
      if failure.Some? {
        outcome := Some(Failure(failure.value));
        return;
      }
      var content: seq<Output> := [];
      var k := 0;
      while k < |order|
        invariant unchanged(this)
        invariant 0 <= k <= |order| && content == Content(View())[..k]
      {
        content := content + [OutputOf(blocks[order[k]])];
        k := k + 1;
      }
      assert content == Content(View());
      outcome := Some(Answer(content, stop));
    }

    method OnMessage(m: Message)
      requires Listed(View())
      modifies this
      ensures View() == Next(old(View()), m)
    {
      if outcome.Some? {
        return;
      }
      StreamKeepsListed(View(), if m.Streamed? then m.event else MessageStop);
      match m {
        case Streamed(nested, e) =>
          if nested {
            return;
          }
          Stream(e);
          if stopped && stop != "end_turn" {
            Finish(None);
          }
        case AssistantError(nested, error) =>
          if !nested && error != "" && msgId == "" {
            Finish(Some(error));
          }
        case Result(message) =>
          if stopped {
            Finish(None);
            return;
          }
          Finish(Some(message));
      }
    }
  }

  // What was streamed and what is returned.

  function PieceOf(b: Block): Piece {
    match b.kind
    case TextKind => Said(b.text)
    case ReasoningKind => Thought(b.text)
    case CallKind => Called(b.toolIndex, b.id, b.name, b.text)
  }

  function CountCalls(blocks: map<int, Block>, order: seq<int>): nat {
    if order == [] then 0
    else
      var i := order[|order| - 1];
      CountCalls(blocks, order[..|order| - 1]) + if i in blocks && blocks[i].kind == CallKind then 1 else 0
  }

  /** A block as the consumer of the deltas has it; one that got no delta it has not heard of. */
  predicate Agrees(r: Rebuilt, i: int, b: Block) {
    if i in r.blocks then r.blocks[i] == PieceOf(b) else b.kind != CallKind && b.text == ""
  }

  predicate NoneTwice(order: seq<int>) {
    forall j, k :: 0 <= j < k < |order| ==> order[j] != order[k]
  }

  predicate Numbered(blocks: map<int, Block>, order: seq<int>) {
    forall k :: 0 <= k < |order| && order[k] in blocks && blocks[order[k]].kind == CallKind ==>
                  blocks[order[k]].toolIndex == CountCalls(blocks, order[..k])
  }

  /** Each block listed once, and the calls numbered in the order of the list. */
  ghost predicate InOrder(blocks: map<int, Block>, order: seq<int>, tools: nat) {
    && (forall i :: i in blocks <==> i in order) && NoneTwice(order)
    && Numbered(blocks, order) && tools == CountCalls(blocks, order)
  }

  ghost predicate Heard(blocks: map<int, Block>, tools: nat, r: Option<Rebuilt>) {
    && r.Some? && r.value.calls == tools
    && (forall i <- r.value.blocks :: i in blocks)
    && (forall i <- blocks :: Agrees(r.value, i, blocks[i]))
  }

  /** The consumer of the deltas has the response so far. */
  ghost predicate Synced(t: Turn) {
    InOrder(t.blocks, t.order, t.tools) && Heard(t.blocks, t.tools, ReadAll(t.deltas))
  }

  /** An event that does not go back on what was streamed: no retry once something was streamed, no block started twice,
      no addition of another kind than its block's. */
  predicate Harmless(t: Turn, e: StreamEvent) {
    match e
    case MessageStart(_) => Retries(t, e) ==> t.deltas == []
    case BlockStart(i, opening) => opening.Some? && !opening.value.OpenOther? ==> i !in t.blocks
    case BlockDelta(i, a) => i in t.blocks ==> Suits(t.blocks[i].kind, a)
    case _ => true
  }

  lemma {:induction false} CountCallsSame(blocks: map<int, Block>, other: map<int, Block>, order: seq<int>)
    requires forall i <- order :: i in blocks && i in other && blocks[i].kind == other[i].kind
    ensures CountCalls(blocks, order) == CountCalls(other, order)
  {
    if order != [] {
      CountCallsSame(blocks, other, order[..|order| - 1]);
    }
  }

  lemma NumberedAppend(blocks: map<int, Block>, order: seq<int>, i: int, b: Block)
    requires (forall j <- order :: j in blocks) && i !in blocks && Numbered(blocks, order)
    requires b.kind == CallKind ==> b.toolIndex == CountCalls(blocks, order)
    ensures Numbered(blocks[i := b], order + [i])
  {
    var bs, all := blocks[i := b], order + [i];
    forall k | 0 <= k < |all| && all[k] in bs && bs[all[k]].kind == CallKind
      ensures bs[all[k]].toolIndex == CountCalls(bs, all[..k])
    {
      assert all[..k] == order[..k];
      CountCallsSame(blocks, bs, order[..k]);
      if k < |order| {
        assert order[k] in order;
      } else {
        assert order[..k] == order;
      }
    }
  }

  lemma NoneTwiceAppend(order: seq<int>, i: int)
    requires NoneTwice(order) && i !in order
    ensures NoneTwice(order + [i])
  {
    var all := order + [i];
    forall j, k | 0 <= j < k < |all| ensures all[j] != all[k] {
      assert all[j] == order[j] && order[j] in order;
    }
  }

  lemma CountCallsAppend(blocks: map<int, Block>, order: seq<int>, i: int, b: Block)
    requires (forall j <- order :: j in blocks) && i !in blocks
    ensures CountCalls(blocks[i := b], order + [i]) == CountCalls(blocks, order) + if b.kind == CallKind then 1 else 0
  {
    assert (order + [i])[..|order|] == order;
    CountCallsSame(blocks, blocks[i := b], order);
  }

  /** A new block at the end of the list. */
  lemma InOrderAppend(blocks: map<int, Block>, order: seq<int>, i: int, b: Block)
    requires InOrder(blocks, order, CountCalls(blocks, order)) && i !in blocks
    requires b.kind == CallKind ==> b.toolIndex == CountCalls(blocks, order)
    ensures InOrder(blocks[i := b], order + [i], CountCalls(blocks, order) + if b.kind == CallKind then 1 else 0)
  {
    NumberedAppend(blocks, order, i, b);
    NoneTwiceAppend(order, i);
    CountCallsAppend(blocks, order, i, b);
  }

  lemma StartKeepsOrder(t: Turn, i: int, opening: Opening)
    requires InOrder(t.blocks, t.order, t.tools) && i !in t.blocks && !opening.OpenOther?
    ensures var u := Started(t, i, opening); InOrder(u.blocks, u.order, u.tools)
  {
    InOrderAppend(t.blocks, t.order, i, Opened(t, opening));
  }

  lemma AddKeepsOrder(t: Turn, i: int, a: Addition)
    requires InOrder(t.blocks, t.order, t.tools)
    ensures var u := Added(t, i, a); InOrder(u.blocks, u.order, u.tools)
  {
    var u := Added(t, i, a);
    CountCallsSame(t.blocks, u.blocks, t.order);
    forall k | 0 <= k < |u.order| && u.order[k] in u.blocks && u.blocks[u.order[k]].kind == CallKind
      ensures u.blocks[u.order[k]].toolIndex == CountCalls(u.blocks, u.order[..k])
    {
      CountCallsSame(t.blocks, u.blocks, t.order[..k]);
    }
  }

  /** A block no delta has spoken of yet. */
  lemma NewBlockIsHeard(blocks: map<int, Block>, tools: nat, r: Option<Rebuilt>, i: int, b: Block)
    requires Heard(blocks, tools, r) && i !in blocks && b.kind != CallKind && b.text == ""
    ensures Heard(blocks[i := b], tools, r)
  {
  }

  lemma NewCallIsHeard(blocks: map<int, Block>, tools: nat, r: Option<Rebuilt>, i: int, b: Block)
    requires Heard(blocks, tools, r) && i !in blocks && b.kind == CallKind && b.text == "" && b.toolIndex == tools
    ensures Heard(blocks[i := b], tools + 1, Read(r.value, CallStart(i, tools, b.id, b.name)))
  {
    var next := Read(r.value, CallStart(i, tools, b.id, b.name));
    assert i !in r.value.blocks;
    var bs := blocks[i := b];
    forall j | j in bs ensures Agrees(next.value, j, bs[j]) {
      if j != i {
        assert Agrees(r.value, j, blocks[j]);
      }
    }
  }

  lemma StartIsHeard(t: Turn, i: int, opening: Opening)
    requires Synced(t) && !opening.OpenOther? && i !in t.blocks
    ensures var u := Started(t, i, opening); Heard(u.blocks, u.tools, ReadAll(u.deltas))
  {
    var r, b := ReadAll(t.deltas), Opened(t, opening);
    if opening.OpenCall? {
      NewCallIsHeard(t.blocks, t.tools, r, i, b);
      ReadOneMore(t.deltas, CallStart(i, t.tools, opening.id, opening.name));
    } else {
      NewBlockIsHeard(t.blocks, t.tools, r, i, b);
    }
  }

  lemma StartSynced(t: Turn, i: int, opening: Opening)
    requires Synced(t) && !opening.OpenOther?
    ensures Synced(Started(t, i, opening)) <==> i !in t.blocks
  {
    if i in t.blocks {
      var u := Started(t, i, opening);
      var k :| 0 <= k < |t.order| && t.order[k] == i;
      assert u.order[k] == u.order[|t.order|];
    } else {
      StartKeepsOrder(t, i, opening);
      StartIsHeard(t, i, opening);
    }
  }

  predicate Suits(kind: Kind, a: Addition) {
    match a
    case AddText(_) => kind == TextKind
    case AddThinking(_) => kind == ReasoningKind
    case AddJson(_) => kind == CallKind
    case _ => true
  }

  lemma AddIsHeard(t: Turn, i: int, a: Addition)
    requires Synced(t) && i in t.blocks && !a.AddSignature? && !a.AddOther?
    ensures var u := Added(t, i, a); Heard(u.blocks, u.tools, ReadAll(u.deltas)) <==> Suits(t.blocks[i].kind, a)
  {
    var u := Added(t, i, a);
    var d := if a.AddText? then TextDelta(i, a.text)
             else if a.AddThinking? then ReasoningDelta(i, a.text)
             else CallArguments(i, t.blocks[i].toolIndex, a.text);
    ReadOneMore(t.deltas, d);
    var before := ReadAll(t.deltas).value;
    assert Agrees(before, i, t.blocks[i]);
    assert "" + a.text == a.text;
    var after := Read(before, d);
    if after.Some? {
      assert Agrees(after.value, i, u.blocks[i]) <==> Suits(t.blocks[i].kind, a);
      forall j | j in u.blocks && j != i ensures Agrees(after.value, j, u.blocks[j]) {
        assert Agrees(before, j, t.blocks[j]);
      }
    }
  }

  lemma AddSynced(t: Turn, i: int, a: Addition)
    requires Synced(t) && i in t.blocks
    ensures Synced(Added(t, i, a)) <==> Suits(t.blocks[i].kind, a)
  {
    AddKeepsOrder(t, i, a);
    if !a.AddSignature? && !a.AddOther? {
      AddIsHeard(t, i, a);
    } else {
      assert Heard(Added(t, i, a).blocks, t.tools, ReadAll(t.deltas));
    }
  }

  lemma RetrySynced(t: Turn, e: StreamEvent)
    requires Synced(t) && Retries(t, e)
    ensures Synced(OnStream(t, e)) <==> t.deltas == []
  {
    var u := OnStream(t, e);
    var r := ReadAll(t.deltas);
    assert u.blocks == map[] && u.order == [] && u.tools == 0 && u.deltas == t.deltas;
    if t.deltas == [] {
      assert r == Some(NOTHING);
      assert InOrder(u.blocks, u.order, u.tools) && Heard(u.blocks, u.tools, r);
    } else {
      assert t.deltas[|t.deltas| - 1].index !in u.blocks;
    }
  }

  /** One event keeps the consumer in step with the response if and only if it is harmless. */
  lemma InStepIff(t: Turn, e: StreamEvent)
    requires Synced(t)
    ensures Synced(OnStream(t, e)) <==> Harmless(t, e)
  {
    match e
    case MessageStart(_) =>
      if Retries(t, e) {
        RetrySynced(t, e);
      }
    case BlockStart(i, opening) =>
      if opening.Some? && !opening.value.OpenOther? {
        StartSynced(t, i, opening.value);
      }
    case BlockDelta(i, a) =>
      if i in t.blocks {
        AddSynced(t, i, a);
      }
    case _ =>
  }

  /** What a run of messages makes of a turn, and whether every event it passed on was harmless. */
  function Run(ms: seq<Message>): (t: Turn)
    ensures Listed(t)
  {
    if ms == [] then NEW
    else
      var t := Run(ms[..|ms| - 1]);
      assert ms[|ms| - 1].Streamed? ==> Listed(OnStream(t, ms[|ms| - 1].event)) by {
        if ms[|ms| - 1].Streamed? { StreamKeepsListed(t, ms[|ms| - 1].event); }
      }
      Next(t, ms[|ms| - 1])
  }

  predicate Clean(ms: seq<Message>) {
    ms == [] ||
    (Clean(ms[..|ms| - 1]) &&
     var t, m := Run(ms[..|ms| - 1]), ms[|ms| - 1];
     t.outcome.None? && m.Streamed? && !m.nested ==> Harmless(t, m.event))
  }

  /** The block of a response and the block the consumer has at its index. */
  predicate SameBlock(r: Rebuilt, i: int, out: Output) {
    if i !in r.blocks then out == OutText("") || (out.OutReasoning? && out.text == "")
    else
      match r.blocks[i]
      case Said(x) => out == OutText(x)
      case Thought(x) => out.OutReasoning? && out.text == x
      case Called(_, id, name, x) => out == OutCall(id, name, if x == "" then "{}" else x)
  }

  predicate AnswersWithContent(t: Turn)
    requires Listed(t)
  {
    t.outcome.Some? && t.outcome.value.Answer? ==> t.outcome.value == Answer(Content(t), t.stop) && t.stopped
  }

  lemma NextIsSynced(t: Turn, m: Message)
    requires Listed(t) && Synced(t) && AnswersWithContent(t)
    requires t.outcome.None? && m.Streamed? && !m.nested ==> Harmless(t, m.event)
    ensures Synced(Next(t, m)) && Listed(Next(t, m)) && AnswersWithContent(Next(t, m))
  {
    if t.outcome.None? {
      match m
      case Streamed(nested, e) =>
        if !nested {
          InStepIff(t, e);
          StreamKeepsListed(t, e);
          var u := OnStream(t, e);
          assert u.outcome.None?;
        }
      case AssistantError(_, error) =>
      case Result(message) =>
    }
  }

  lemma {:induction false} CleanRunsAreSynced(ms: seq<Message>)
    requires Clean(ms)
    ensures Synced(Run(ms)) && AnswersWithContent(Run(ms))
  {
    if ms != [] {
      CleanRunsAreSynced(ms[..|ms| - 1]);
      NextIsSynced(Run(ms[..|ms| - 1]), ms[|ms| - 1]);
    }
  }

  /** A response streamed without going back: the consumer has each of its blocks under the index it started with, up to
      empty text and reasoning and the empty arguments of a call, has no other block, and the k-th call has tool index k. */
  lemma DeltasRebuildTheAnswer(ms: seq<Message>)
    requires Clean(ms) && Run(ms).outcome.Some? && Run(ms).outcome.value.Answer?
    ensures var t := Run(ms);
            var content := t.outcome.value.content;
            var r := ReadAll(t.deltas);
            && r.Some? && |content| == |t.order| && NoneTwice(t.order)
            && (forall i <- r.value.blocks :: i in t.order)
            && (forall k :: 0 <= k < |content| ==> SameBlock(r.value, t.order[k], content[k]))
            && (forall k :: 0 <= k < |content| && content[k].OutCall? ==>
                              t.order[k] in r.value.blocks &&
                              r.value.blocks[t.order[k]].toolIndex == CountCalls(t.blocks, t.order[..k]))
  {
    CleanRunsAreSynced(ms);
    var t := Run(ms);
    forall k | 0 <= k < |t.order| ensures Agrees(ReadAll(t.deltas).value, t.order[k], t.blocks[t.order[k]]) {
    }
  }

  // The response is what was streamed since it was last started over.

  function After(t: Turn, es: seq<StreamEvent>): Turn {
    if es == [] then t else OnStream(After(t, es[..|es| - 1]), es[|es| - 1])
  }

  predicate StraightOn(t: Turn, es: seq<StreamEvent>) {
    forall k :: 0 <= k < |es| ==> !Retries(After(t, es[..k]), es[k])
  }

  predicate Starts(e: StreamEvent) {
    e.BlockStart? && e.opening.Some? && !e.opening.value.OpenOther?
  }

  /** The blocks started, in order. */
  function StartOrder(es: seq<StreamEvent>): seq<int> {
    if es == [] then []
    else
      var e := es[|es| - 1];
      StartOrder(es[..|es| - 1]) + if Starts(e) then [e.index] else []
  }

  function CallsStarted(es: seq<StreamEvent>): nat {
    if es == [] then 0
    else
      var e := es[|es| - 1];
      CallsStarted(es[..|es| - 1]) + if Starts(e) && e.opening.value.OpenCall? then 1 else 0
  }

  /** The text, thinking and arguments that came for block i, and its signatures. */
  function TextFor(es: seq<StreamEvent>, i: int): string {
    if es == [] then ""
    else
      var e := es[|es| - 1];
      TextFor(es[..|es| - 1], i) +
      if e.BlockDelta? && e.index == i && !e.addition.AddSignature? && !e.addition.AddOther? then e.addition.text else ""
  }

  function SignatureFor(es: seq<StreamEvent>, i: int): string {
    if es == [] then ""
    else
      var e := es[|es| - 1];
      SignatureFor(es[..|es| - 1], i) +
      if e.BlockDelta? && e.index == i && e.addition.AddSignature? then e.addition.text else ""
  }

  lemma AfterOneMore(t: Turn, es: seq<StreamEvent>, e: StreamEvent)
    ensures After(t, es + [e]) == OnStream(After(t, es), e)
    ensures StraightOn(t, es + [e]) <==> StraightOn(t, es) && !Retries(After(t, es), e)
  {
    var all := es + [e];
    assert all[..|es|] == es;
    assert forall k :: 0 <= k < |es| ==> all[..k] == es[..k] && all[k] == es[k];
    if StraightOn(t, all) {
      assert !Retries(After(t, all[..|es|]), all[|es|]);
    }
  }

  lemma OrderAfter(u: Turn, e: StreamEvent)
    requires !Retries(u, e)
    ensures OnStream(u, e).order == u.order + if Starts(e) then [e.index] else []
    ensures OnStream(u, e).tools == u.tools + if Starts(e) && e.opening.value.OpenCall? then 1 else 0
  {
    NoMore(u.order);
  }

  lemma {:induction false} OrderIsStarted(t: Turn, es: seq<StreamEvent>)
    requires StraightOn(t, es) && t.order == [] && t.tools == 0
    ensures After(t, es).order == StartOrder(es) && After(t, es).tools == CallsStarted(es)
  {
    if es != [] {
      var init, e := es[..|es| - 1], es[|es| - 1];
      assert es == init + [e];
      AfterOneMore(t, init, e);
      OrderIsStarted(t, init);
      OrderAfter(After(t, init), e);
    }
  }

  /** A block that started as o at a time when n calls had, and got this text and signature since. */
  predicate Grown(b: Block, o: Opening, n: nat, text: string, signature: string) {
    && b.text == text && (o.OpenCall? ==> b.toolIndex == n)
    && match o
       case OpenThinking(s) => b.kind == ReasoningKind && b.signature == s + signature
       case OpenCall(id, name) => b.kind == CallKind && b.id == id && b.name == name
       case _ => b.kind == TextKind
  }

  lemma OneAddition(t: Turn, i: int, e: StreamEvent, o: Opening, n: nat, text: string, signature: string)
    requires i in t.blocks && Grown(t.blocks[i], o, n, text, signature) && !Retries(t, e) && !(Starts(e) && e.index == i)
    ensures var u := OnStream(t, e);
            && i in u.blocks
            && (e.BlockDelta? && e.index == i && e.addition.AddSignature? ==>
                  Grown(u.blocks[i], o, n, text, signature + e.addition.text))
            && (e.BlockDelta? && e.index == i && !e.addition.AddSignature? && !e.addition.AddOther? ==>
                  Grown(u.blocks[i], o, n, text + e.addition.text, signature))
            && (!(e.BlockDelta? && e.index == i && !e.addition.AddOther?) ==> u.blocks[i] == t.blocks[i])
  {
    if o.OpenThinking? && e.BlockDelta? && e.addition.AddSignature? {
      Assoc(o.signature, signature, e.addition.text);
    }
  }

  lemma {:induction false} BlockGrows(t: Turn, before: seq<StreamEvent>, i: int, o: Opening, after: seq<StreamEvent>)
    requires t.order == [] && t.tools == 0 && !o.OpenOther?
    requires StraightOn(t, before + [BlockStart(i, Some(o))] + after)
    requires forall e <- after :: !(Starts(e) && e.index == i)
    ensures var u := After(t, before + [BlockStart(i, Some(o))] + after);
            i in u.blocks && Grown(u.blocks[i], o, CallsStarted(before), TextFor(after, i), SignatureFor(after, i))
    decreases |after|
  {
    var start := BlockStart(i, Some(o));
    var began := before + [start];
    if after == [] {
      assert began + after == began;
      AfterOneMore(t, before, start);
      OrderIsStarted(t, before);
      if o.OpenThinking? {
        NoMore(o.signature);
      }
    } else {
      var init, e := after[..|after| - 1], after[|after| - 1];
      assert began + after == began + init + [e];
      AfterOneMore(t, began + init, e);
      BlockGrows(t, before, i, o, init);
      assert e in after;
      OneAddition(After(t, began + init), i, e, o, CallsStarted(before), TextFor(init, i), SignatureFor(init, i));
      NoMore(TextFor(init, i));
      NoMore(SignatureFor(init, i));
    }
  }

  lemma {:induction false} StartedAppend(a: seq<StreamEvent>, b: seq<StreamEvent>)
    ensures StartOrder(a + b) == StartOrder(a) + StartOrder(b)
    decreases |b|
  {
    if b == [] {
      assert a + b == a;
    } else {
      var n := |b| - 1;
      assert (a + b)[..|a| + n] == a + b[..n];
      StartedAppend(a, b[..n]);
    }
  }

  predicate Says(out: Output, o: Opening, text: string, signature: string) {
    match o
    case OpenThinking(s) => out == OutReasoning(text, s + signature)
    case OpenCall(id, name) => out == OutCall(id, name, if text == "" then "{}" else text)
    case _ => out == OutText(text)
  }

  /** What a response says at the place of a block that was started after before and got the events after: exactly the text,
      thinking and signatures, or the call with the arguments, that were streamed for it. Blocks stand in the order they
      were started. */
  lemma AnsweredAsStreamed(t: Turn, before: seq<StreamEvent>, i: int, o: Opening, after: seq<StreamEvent>)
    requires Listed(t) && t.order == [] && t.tools == 0 && !o.OpenOther?
    requires StraightOn(t, before + [BlockStart(i, Some(o))] + after)
    requires forall e <- after :: !(Starts(e) && e.index == i)
    ensures var u := After(t, before + [BlockStart(i, Some(o))] + after);
            && Listed(u) && u.order == StartOrder(before) + [i] + StartOrder(after)
            && Says(Content(u)[|StartOrder(before)|], o, TextFor(after, i), SignatureFor(after, i))
  {
    var start := BlockStart(i, Some(o));
    var es := before + [start] + after;
    AfterIsListed(t, es);
    OrderIsStarted(t, es);
    StartedAppend(before + [start], after);
    StartedAppend(before, [start]);
    assert [start][..0] == [] && StartOrder([start]) == [i];
    BlockGrows(t, before, i, o, after);
  }

  lemma {:induction false} AfterIsListed(t: Turn, es: seq<StreamEvent>)
    requires Listed(t)
    ensures Listed(After(t, es))
  {
    if es != [] {
      AfterIsListed(t, es[..|es| - 1]);
      StreamKeepsListed(After(t, es[..|es| - 1]), es[|es| - 1]);
    }
  }

  // When a response ends.

  predicate Names(e: StreamEvent) {
    e.MessageStart? && e.id.Some? && e.id.value != ""
  }

  /** A message with an id has started. */
  predicate Named(t: Turn, es: seq<StreamEvent>) {
    t.msgId != "" || exists k :: 0 <= k < |es| && Names(es[k])
  }

  /** And it has stopped. */
  predicate Stopped(t: Turn, es: seq<StreamEvent>) {
    exists k :: 0 <= k < |es| && es[k].MessageStop? && Named(t, es[..k])
  }

  /** The last stop reason given. */
  function LastStop(t: Turn, es: seq<StreamEvent>): string {
    if es == [] then t.stop
    else
      var e := es[|es| - 1];
      if e.MessageDelta? && e.stop != "" then e.stop else LastStop(t, es[..|es| - 1])
  }

  lemma NamedOneMore(t: Turn, es: seq<StreamEvent>, e: StreamEvent)
    ensures Named(t, es + [e]) <==> Named(t, es) || Names(e)
  {
    var all := es + [e];
    assert all[|es|] == e;
    if k :| 0 <= k < |es| && Names(es[k]) {
      assert Names(all[k]);
    }
  }

  lemma StoppedOneMore(t: Turn, es: seq<StreamEvent>, e: StreamEvent)
    ensures Stopped(t, es + [e]) <==> Stopped(t, es) || (e.MessageStop? && Named(t, es))
  {
    var all := es + [e];
    assert all[|es|] == e && all[..|es|] == es;
    assert forall k :: 0 <= k < |es| ==> all[..k] == es[..k] && all[k] == es[k];
    if Stopped(t, es) {
      var k :| 0 <= k < |es| && es[k].MessageStop? && Named(t, es[..k]);
      assert all[k].MessageStop? && Named(t, all[..k]);
    }
    if e.MessageStop? && Named(t, es) {
      assert all[|es|].MessageStop? && Named(t, all[..|es|]);
    }
  }

  /** What a turn knows of that. */
  predicate Knows(u: Turn, named: bool, stopped: bool, stop: string, outcome: Option<Outcome>) {
    && u.stopped == stopped && u.stop == stop && u.outcome == outcome && ((u.msgId != "") == named)
  }

  lemma KnowsAfter(u: Turn, e: StreamEvent, named: bool, stopped: bool, stop: string, outcome: Option<Outcome>)
    requires Knows(u, named, stopped, stop, outcome) && !Retries(u, e) && (stopped ==> named)
    ensures Knows(OnStream(u, e), named || (Names(e) && !stopped), stopped || (e.MessageStop? && named),
                  if e.MessageDelta? && e.stop != "" then e.stop else stop, outcome)
  {
  }

  lemma {:induction false} StoppedIff(t: Turn, es: seq<StreamEvent>)
    requires StraightOn(t, es) && !t.stopped
    ensures Knows(After(t, es), Named(t, es), Stopped(t, es), LastStop(t, es), t.outcome)
    ensures Stopped(t, es) ==> Named(t, es)
  {
    if es != [] {
      var init, e := es[..|es| - 1], es[|es| - 1];
      assert es == init + [e];
      AfterOneMore(t, init, e);
      NamedOneMore(t, init, e);
      StoppedOneMore(t, init, e);
      StoppedIff(t, init);
      KnowsAfter(After(t, init), e, Named(t, init), Stopped(t, init), LastStop(t, init), t.outcome);
    }
  }

  /** A response under way ends: on an event of its own that leaves it stopped for any reason but the end of the turn; on
      the result, which answers it if it had stopped and fails it otherwise; on an error of the model's before any message
      has started. On nothing else. */
  lemma EndsWhen(t: Turn, es: seq<StreamEvent>, m: Message)
    requires Listed(t) && t.outcome.None? && !t.stopped && StraightOn(t, es)
    requires m.Streamed? && !m.nested ==> !Retries(After(t, es), m.event)
    ensures Listed(After(t, es))
    ensures var u := Next(After(t, es), m);
            && (m.Streamed? ==>
                  (u.outcome.Some? <==>
                   !m.nested && Stopped(t, es + [m.event]) && LastStop(t, es + [m.event]) != "end_turn"))
            && (m.Result? && Stopped(t, es) ==>
                  u.outcome.Some? && u.outcome.value.Answer? && u.outcome.value.stop == LastStop(t, es))
            && (m.Result? && !Stopped(t, es) ==> u.outcome == Some(Failure(m.message)))
            && (m.AssistantError? ==>
                  u.outcome == if m.nested || m.error == "" || Named(t, es) then None else Some(Failure(m.error)))
  {
    AfterIsListed(t, es);
    StoppedIff(t, es);
    if m.Streamed? && !m.nested {
      AfterOneMore(t, es, m.event);
      StoppedIff(t, es + [m.event]);
    }
  }

  /** A message that starts, or starts over, and gets one piece of text. */
  function OneText(t: Turn, id: string, text: string): Turn {
    OnStream(OnStream(OnStream(t, MessageStart(Some(id))), BlockStart(0, Some(OpenText))), BlockDelta(0, AddText(text)))
  }

  lemma OneTextIs(t: Turn, id: string, text: string)
    requires t.blocks == map[] && t.order == [] && t.tools == 0 && t.stop == "" && !t.stopped && t.outcome.None?
    requires t.msgId == ""
    ensures OneText(t, id, text) ==
            Turn(id, map[0 := Block(TextKind, text, "", "", "", 0)], [0], 0, "", false, None, t.deltas + [TextDelta(0, text)])
  {
    var open := Block(TextKind, "", "", "", "", 0);
    assert OnStream(OnStream(t, MessageStart(Some(id))), BlockStart(0, Some(OpenText))) ==
           Turn(id, map[0 := open], [0], 0, "", false, None, t.deltas);
    assert "" + text == text;
    assert map[0 := open][0 := open.(text := text)] == map[0 := open.(text := text)];
  }

  /** A retry after something was streamed: the response is "b", the consumer has "ab". */
  lemma RetryLeavesStaleText() returns (first: Turn, t: Turn)
    ensures first == OneText(NEW, "m", "a") && t == OneText(first, "n", "b")
    ensures Listed(t) && Content(t) == [OutText("b")]
    ensures ReadAll(t.deltas) == Some(Rebuilt(map[0 := Said("ab")], 0))
  {
    first, t := OneText(NEW, "m", "a"), OneText(OneText(NEW, "m", "a"), "n", "b");
    OneTextIs(NEW, "m", "a");
    assert "m"[0] != "n"[0];
    RetriedText(first, "n", "b");
    assert t.deltas == [TextDelta(0, "a"), TextDelta(0, "b")];
    StaleText(TextDelta(0, "a"), TextDelta(0, "b"));
  }

  lemma RetriedText(t: Turn, id: string, text: string)
    requires t.msgId != "" && t.msgId != id && !t.stopped && t.outcome.None?
    ensures OneText(t, id, text) ==
            Turn(id, map[0 := Block(TextKind, text, "", "", "", 0)], [0], 0, "", false, None, t.deltas + [TextDelta(0, text)])
  {
    var again := NEW.(deltas := t.deltas);
    assert OnStream(t, MessageStart(Some(id))) == OnStream(again, MessageStart(Some(id)));
    OneTextIs(again, id, text);
  }

  lemma StaleText(a: Delta, b: Delta)
    requires a == TextDelta(0, "a") && b == TextDelta(0, "b")
    ensures ReadAll([a, b]) == Some(Rebuilt(map[0 := Said("ab")], 0))
  {
    assert [a, b][..1] == [a] && [a][..0] == [];
    assert ReadAll([a]) == Read(NOTHING, a);
    assert "a" + "b" == "ab";
    var r := Rebuilt(map[0 := Said("a")], 0);
    assert Read(NOTHING, a) == Some(r);
    assert Read(r, b).value.blocks == map[0 := Said("ab")];
  }
}
