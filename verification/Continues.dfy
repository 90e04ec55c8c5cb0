/** When a call continues a live conversation: what llm/claude.go remembers of a conversation after a response and how
    it recognises the next call as that conversation with something added. llm/harness.go goes through the same code. */
module Continues {
  import opened Options
  import opened Lines
  import opened Transcripts

  datatype Mark = Used(id: string) | Returned(id: string)

  /** A message's fingerprint. */
  datatype Print = Print(role: Role, text: string, ids: multiset<Mark>)

  function TextOf(content: seq<Block>): string {
    if content == [] then ""
    else
      var b := content[|content| - 1];
      TextOf(content[..|content| - 1]) + if b.kind in {TextBlock, ToolResult} then b.text else ""
  }

  function MarksOf(content: seq<Block>): multiset<Mark> {
    if content == [] then multiset{}
    else
      var b := content[|content| - 1];
      MarksOf(content[..|content| - 1]) +
      if b.kind == ToolUse then multiset{Used(b.toolId)}
      else if b.kind == ToolResult then multiset{Returned(b.toolId)}
      else multiset{}
  }

  /** A tool's entry and a user's count as one side. */
  function Side(r: Role): Role {
    if r == ToolRole then User else r
  }

  function PrintOf(m: Message): Print {
    Print(Side(m.role), Trim(TextOf(m.content)), MarksOf(m.content))
  }

  method Fingerprint(m: Message) returns (p: Print)
    ensures p == PrintOf(m)
  {
    var text := "";
    var ids := multiset{};
    var i := 0;
    while i < |m.content|
      invariant 0 <= i <= |m.content|
      invariant text == TextOf(m.content[..i]) && ids == MarksOf(m.content[..i])
    {
      assert m.content[..i + 1][..i] == m.content[..i];
      var b := m.content[i];
      match b.kind {
        case TextBlock => text := text + b.text;
        case ToolUse => ids := ids + multiset{Used(b.toolId)};
        case ToolResult =>
          ids := ids + multiset{Returned(b.toolId)};
          text := text + b.text;
        case _ =>
      }
      i := i + 1;
    }
    assert m.content[..i] == m.content;
    p := Print(if m.role == ToolRole then User else m.role, Trim(text), ids);
  }

  /** settings stands for the serialised system prompt, tools, model, effort and token cap. */
  datatype Request = Request(settings: string, messages: seq<Message>)

  datatype Response = Response(content: seq<Block>, stop: string)

  /** What the conversation's process holds after the last response. */
  datatype Holding = Holding(settings: string, history: seq<Print>, pending: seq<string>, ended: bool)

  predicate Extends(h: Holding, req: Request) {
    && req.settings == h.settings
    && |req.messages| > |h.history|
    && forall i :: 0 <= i < |h.history| ==> PrintOf(req.messages[i]) == h.history[i]
  }

  predicate IsResultPart(b: Block) {
    b.kind == ToolResult || (b.kind in {Image, File} && b.toolId != "")
  }

  predicate ResultsOnly(m: Message) {
    m.role in {ToolRole, User} && forall k :: 0 <= k < |m.content| ==> IsResultPart(m.content[k])
  }

  predicate HasToolResult(m: Message) {
    exists k :: 0 <= k < |m.content| && m.content[k].kind == ToolResult
  }

  predicate NewTurn(m: Message) {
    m.role == User && !HasToolResult(m)
  }

  function Blocks(ms: seq<Message>): seq<Block> {
    if ms == [] then [] else Blocks(ms[..|ms| - 1]) + ms[|ms| - 1].content
  }

  function Ids(bs: seq<Block>): set<string> {
    set b <- bs | b.kind == ToolResult :: b.toolId
  }

  /** The ids of the calls the messages bring results for. */
  function ResultIds(ms: seq<Message>): set<string> {
    Ids(Blocks(ms))
  }

  ghost predicate Distinct(ids: seq<string>) {
    forall i, j :: 0 <= i < j < |ids| ==> ids[i] != ids[j]
  }

  function Elements(ids: seq<string>): set<string> {
    set id <- ids
  }

  /** Exactly what is accepted. */
  predicate Accepts(h: Holding, req: Request) {
    && Extends(h, req)
    && var rest := req.messages[|h.history|..];
       if h.pending == [] then h.ended && forall i :: 0 <= i < |rest| ==> NewTurn(rest[i])
       else
         && (forall i :: 0 <= i < |rest| ==> ResultsOnly(rest[i]))
         && Elements(h.pending) <= ResultIds(rest)
         && |ResultIds(rest)| == |h.pending|
  }

  function CallIds(content: seq<Block>): seq<string> {
    if content == [] then []
    else
      var b := content[|content| - 1];
      CallIds(content[..|content| - 1]) + if b.kind == ToolUse then [b.toolId] else []
  }

  function Prints(ms: seq<Message>): (ps: seq<Print>)
    ensures |ps| == |ms|
    ensures forall i :: 0 <= i < |ms| ==> ps[i] == PrintOf(ms[i])
  {
    if ms == [] then [] else Prints(ms[..|ms| - 1]) + [PrintOf(ms[|ms| - 1])]
  }

  function AsMessage(resp: Response): Message {
    Message(Assistant, resp.content)
  }

  /** What is held after a response. */
  function After(h: Holding, req: Request, resp: Response): Holding {
    Holding(
      h.settings,
      Prints(req.messages) + [PrintOf(AsMessage(resp))],
      if resp.stop == "tool_use" then CallIds(resp.content) else [],
      resp.stop == "end_turn")
  }

  class Conversation {
    var settings: string
    var history: seq<Print>
    var pending: seq<string>
    var ended: bool

    function View(): Holding
      reads this
    {
      Holding(settings, history, pending, ended)
    }

    constructor (settings: string)
      ensures View() == Holding(settings, [], [], false)
    {
      this.settings, history, pending, ended := settings, [], [], false;
    }

    /** continues: the entries the request adds, or None when it does not continue the conversation. */
    method Continues(req: Request) returns (added: Option<seq<Message>>)
      ensures added == if Accepts(View(), req) then Some(req.messages[|history|..]) else None
    {
      if req.settings != settings || |req.messages| <= |history| {
        return None;
      }
      var i := 0;
      while i < |history|
        invariant 0 <= i <= |history|
        invariant forall k :: 0 <= k < i ==> PrintOf(req.messages[k]) == history[k]
      {
        var p := Fingerprint(req.messages[i]);
        if p != history[i] {
          return None;
        }
        i := i + 1;
      }
      var rest := req.messages[|history|..];
      if |pending| > 0 {
        var got := CollectResults(rest);
        if got.None? || |got.value| != |pending| {
          return None;
        }
        i := 0;
        while i < |pending|
          invariant 0 <= i <= |pending|
          invariant forall k :: 0 <= k < i ==> pending[k] in got.value
        {
          if pending[i] !in got.value {
            assert pending[i] in Elements(pending);
            return None;
          }
          i := i + 1;
        }
        return Some(rest);
      }
      if !ended {
        return None;
      }
      i := 0;
      while i < |rest|
        invariant 0 <= i <= |rest|
        invariant forall k :: 0 <= k < i ==> NewTurn(rest[k])
      {
        if rest[i].role != User || HasToolResult(rest[i]) {
          assert !NewTurn(rest[i]);
          return None;
        }
        i := i + 1;
      }
      return Some(rest);
    }

    /** answered: remembers the call and its response. */
    method Answered(req: Request, resp: Response)
      modifies this
      ensures View() == After(old(View()), req, resp)
    {
      var prints: seq<Print> := [];
      var i := 0;
      while i < |req.messages|
        invariant 0 <= i <= |req.messages|
        invariant prints == Prints(req.messages[..i])
        invariant unchanged(this)
      {
        assert req.messages[..i + 1][..i] == req.messages[..i];
        var p := Fingerprint(req.messages[i]);
        prints := prints + [p];
        i := i + 1;
      }
      assert req.messages[..i] == req.messages;
      var last := Fingerprint(AsMessage(resp));
      history := prints + [last];
      pending := ToolCalls(resp.content);
      ended := resp.stop == "end_turn";
      if resp.stop != "tool_use" {
        pending := [];
      }
    }
  }

  /** Response.ToolCalls, as far as the ids. */
  method ToolCalls(content: seq<Block>) returns (ids: seq<string>)
    ensures ids == CallIds(content)
  {
    ids := [];
    var i := 0;
    while i < |content|
      invariant 0 <= i <= |content| && ids == CallIds(content[..i])
    {
      assert content[..i + 1][..i] == content[..i];
      if content[i].kind == ToolUse {
        ids := ids + [content[i].toolId];
      }
      i := i + 1;
    }
    assert content[..i] == content;
  }

  /** The ids results come for, or None when the messages hold something else besides. */
  method CollectResults(ms: seq<Message>) returns (got: Option<set<string>>)
    ensures got.Some? <==> forall i :: 0 <= i < |ms| ==> ResultsOnly(ms[i])
    ensures got.Some? ==> got.value == ResultIds(ms)
  {
    var ids: set<string> := {};
    var i := 0;
    while i < |ms|
      invariant 0 <= i <= |ms|
      invariant forall k :: 0 <= k < i ==> ResultsOnly(ms[k])
      invariant ids == ResultIds(ms[..i])
    {
      assert ms[..i + 1][..i] == ms[..i];
      if ms[i].role != ToolRole && ms[i].role != User {
        assert !ResultsOnly(ms[i]);
        return None;
      }
      var content := ms[i].content;
      var k := 0;
      while k < |content|
        invariant 0 <= k <= |content|
        invariant forall j :: 0 <= j < k ==> IsResultPart(content[j])
        invariant ids == Ids(Blocks(ms[..i])) + Ids(content[..k])
      {
        var b := content[k];
        if b.kind == ToolResult {
          ids := ids + {b.toolId};
        } else if !(b.kind in {Image, File} && b.toolId != "") {
          assert !IsResultPart(content[k]);
          return None;
        }
        assert content[..k + 1] == content[..k] + [b];
        assert Ids([b]) == if b.kind == ToolResult then {b.toolId} else {} by {
          assert [b][0] == b;
        }
        k := k + 1;
      }
      assert content[..k] == content;
      i := i + 1;
    }
    assert ms[..i] == ms;
    got := Some(ids);
  }

  // Which result ids an accepted call brings.

  lemma {:induction false} ElementsCount(ids: seq<string>)
    ensures |Elements(ids)| <= |ids|
    ensures |Elements(ids)| == |ids| <==> Distinct(ids)
  {
    if ids != [] {
      var n := |ids| - 1;
      ElementsCount(ids[..n]);
      assert ids == ids[..n] + [ids[n]];
      assert Elements(ids) == Elements(ids[..n]) + {ids[n]};
      if ids[n] in Elements(ids[..n]) {
        var k :| 0 <= k < n && ids[..n][k] == ids[n];
        assert ids[k] == ids[n];
        assert Elements(ids) == Elements(ids[..n]);
      } else {
        assert forall k :: 0 <= k < n ==> ids[k] in Elements(ids[..n]) by {
          forall k | 0 <= k < n ensures ids[k] in Elements(ids[..n]) { assert ids[..n][k] == ids[k]; }
        }
        assert Distinct(ids[..n]) <==> Distinct(ids) by {
          if Distinct(ids[..n]) {
            forall i, j | 0 <= i < j < |ids| ensures ids[i] != ids[j] {
              if j < n { assert ids[..n][i] != ids[..n][j]; }
            }
          } else {
            var i, j :| 0 <= i < j < n && ids[..n][i] == ids[..n][j];
            assert ids[i] == ids[j];
          }
        }
      }
    }
  }

  lemma SubsetCount(a: set<string>, b: set<string>)
    requires a <= b
    ensures |a| <= |b|
    ensures |a| == |b| <==> a == b
  {
    assert b == a + (b - a);
    assert |b| == |a| + |b - a|;
    if |a| == |b| {
      assert b - a == {};
    }
  }

  /** An accepted call brings results for exactly the calls held, if and only if the model gave its calls distinct ids. */
  lemma AcceptedIdsArePending(h: Holding, req: Request)
    requires h.pending != [] && Accepts(h, req)
    ensures ResultIds(req.messages[|h.history|..]) == Elements(h.pending) <==> Distinct(h.pending)
  {
    ElementsCount(h.pending);
    SubsetCount(Elements(h.pending), ResultIds(req.messages[|h.history|..]));
  }

  /** With distinct ids, a call is accepted exactly when it brings those results and nothing else. */
  lemma AcceptsIff(h: Holding, req: Request)
    requires h.pending != [] && Distinct(h.pending)
    ensures Accepts(h, req) <==>
            && Extends(h, req)
            && (forall i :: |h.history| <= i < |req.messages| ==> ResultsOnly(req.messages[i]))
            && ResultIds(req.messages[|h.history|..]) == Elements(h.pending)
  {
    ElementsCount(h.pending);
    if Extends(h, req) {
      var rest := req.messages[|h.history|..];
      if Accepts(h, req) {
        AcceptedIdsArePending(h, req);
        forall i | |h.history| <= i < |req.messages| ensures ResultsOnly(req.messages[i]) {
          assert rest[i - |h.history|] == req.messages[i];
        }
      }
    }
  }

  // What a caller may change in an entry it sends back.

  /** The calls an entry makes and the results it brings, in order. */
  function Marks(content: seq<Block>): seq<Mark> {
    if content == [] then []
    else
      var b := content[|content| - 1];
      Marks(content[..|content| - 1]) +
      if b.kind == ToolUse then [Used(b.toolId)]
      else if b.kind == ToolResult then [Returned(b.toolId)]
      else []
  }

  predicate AllSpace(s: string) {
    forall c <- s :: IsSpace(c)
  }

  /** The text with white space around it. */
  predicate Pads(s: string, text: string, left: string, right: string) {
    AllSpace(left) && AllSpace(right) && s == left + text + right
  }

  ghost predicate SameText(a: string, b: string) {
    exists text, l, r, l', r' :: Pads(a, text, l, r) && Pads(b, text, l', r')
  }

  /** The same said, the same calls and results, by the same side: what is left of an entry when reasoning, media,
      names, arguments, status, the way text is split and the white space around it are left out. */
  ghost predicate SameToAgent(a: Message, b: Message) {
    && (a.role == b.role || {a.role, b.role} == {User, ToolRole})
    && SameText(TextOf(a.content), TextOf(b.content))
    && Marks(a.content) == Marks(b.content)
  }

  lemma {:induction false} TrimLeftAppend(a: string, b: string)
    ensures TrimLeft(a + b) == if TrimLeft(a) == "" then TrimLeft(b) else TrimLeft(a) + b
  {
    if a == "" {
      assert a + b == b;
    } else if IsSpace(a[0]) {
      assert (a + b)[1..] == a[1..] + b;
      TrimLeftAppend(a[1..], b);
    }
  }

  lemma {:induction false} TrimRightSpace(a: string, b: string)
    requires AllSpace(b)
    ensures TrimRight(a + b) == TrimRight(a)
  {
    if b == "" {
      assert a + b == a;
    } else {
      var n := |b| - 1;
      assert (a + b)[..|a + b| - 1] == a + b[..n] && (a + b)[|a + b| - 1] == b[n];
      assert b[n] in b;
      TrimRightSpace(a, b[..n]);
    }
  }

  lemma {:induction false} TrimLeftSpace(a: string)
    requires AllSpace(a)
    ensures TrimLeft(a) == ""
  {
    if a != "" {
      assert a[0] in a;
      TrimLeftSpace(a[1..]);
    }
  }

  lemma TrimPadded(s: string, text: string, left: string, right: string)
    requires Pads(s, text, left, right)
    ensures Trim(s) == Trim(text)
  {
    assert s == left + (text + right);
    TrimLeftSpace(left);
    TrimLeftSpace(right);
    TrimLeftAppend(left, text + right);
    TrimLeftAppend(text, right);
    TrimRightSpace(TrimLeft(text), right);
  }

  lemma {:induction false} TrimLeftPads(s: string) returns (left: string)
    ensures AllSpace(left) && s == left + TrimLeft(s)
  {
    left := "";
    if s != "" && IsSpace(s[0]) {
      var rest := TrimLeftPads(s[1..]);
      left := [s[0]] + rest;
    }
  }

  lemma {:induction false} TrimRightPads(s: string) returns (right: string)
    ensures AllSpace(right) && s == TrimRight(s) + right
  {
    right := "";
    if s != "" && IsSpace(s[|s| - 1]) {
      var rest := TrimRightPads(s[..|s| - 1]);
      right := rest + [s[|s| - 1]];
    }
  }

  lemma SameTextIff(a: string, b: string)
    ensures SameText(a, b) <==> Trim(a) == Trim(b)
  {
    if Trim(a) == Trim(b) {
      var l := TrimLeftPads(a);
      var r := TrimRightPads(TrimLeft(a));
      var l' := TrimLeftPads(b);
      var r' := TrimRightPads(TrimLeft(b));
      assert Pads(a, Trim(a), l, r) && Pads(b, Trim(a), l', r');
    }
    if SameText(a, b) {
      var text, l, r, l', r' :| Pads(a, text, l, r) && Pads(b, text, l', r');
      TrimPadded(a, text, l, r);
      TrimPadded(b, text, l', r');
    }
  }

  lemma {:induction false} MarksAreIds(content: seq<Block>)
    ensures MarksOf(content) == multiset(Marks(content))
  {
    if content != [] {
      MarksAreIds(content[..|content| - 1]);
    }
  }

  /** Exactly when two entries have one fingerprint: the same side, the same text up to white space around it, and the
      same calls and results, in whatever order. */
  lemma SamePrintIff(a: Message, b: Message)
    ensures PrintOf(a) == PrintOf(b) <==>
            && (a.role == b.role || {a.role, b.role} == {User, ToolRole})
            && SameText(TextOf(a.content), TextOf(b.content))
            && multiset(Marks(a.content)) == multiset(Marks(b.content))
  {
    SameTextIff(TextOf(a.content), TextOf(b.content));
    MarksAreIds(a.content);
    MarksAreIds(b.content);
  }

  lemma SamePrint(a: Message, b: Message)
    requires SameToAgent(a, b)
    ensures PrintOf(a) == PrintOf(b)
  {
    SamePrintIff(a, b);
  }

  // What a caller may change in an entry.

  lemma {:induction false} PartsAppend(a: seq<Block>, b: seq<Block>)
    ensures TextOf(a + b) == TextOf(a) + TextOf(b) && Marks(a + b) == Marks(a) + Marks(b)
    decreases |b|
  {
    if b == [] {
      assert a + b == a;
    } else {
      assert (a + b)[..|a + b| - 1] == a + b[..|b| - 1];
      PartsAppend(a, b[..|b| - 1]);
    }
  }

  function TextOnly(text: string): Block {
    Block(TextBlock, text, "", "", "", false, "")
  }

  lemma OneBlock(b: Block)
    ensures TextOf([b]) == if b.kind in {TextBlock, ToolResult} then b.text else ""
    ensures Marks([b]) == if b.kind == ToolUse then [Used(b.toolId)]
                          else if b.kind == ToolResult then [Returned(b.toolId)] else []
  {
    assert [b][..0] == [];
  }

  lemma Replaced(role: Role, before: seq<Block>, x: seq<Block>, y: seq<Block>, after: seq<Block>)
    requires TextOf(x) == TextOf(y) && Marks(x) == Marks(y)
    ensures SameToAgent(Message(role, before + x + after), Message(role, before + y + after))
  {
    PartsAppend(before + x, after);
    PartsAppend(before + y, after);
    PartsAppend(before, x);
    PartsAppend(before, y);
    SameTextIff(TextOf(before + x + after), TextOf(before + y + after));
  }

  lemma TwoTexts(s: string, t: string)
    ensures TextOf([TextOnly(s), TextOnly(t)]) == s + t && Marks([TextOnly(s), TextOnly(t)]) == []
  {
    OneBlock(TextOnly(s));
    OneBlock(TextOnly(t));
    PartsAppend([TextOnly(s)], [TextOnly(t)]);
    assert [TextOnly(s)] + [TextOnly(t)] == [TextOnly(s), TextOnly(t)];
  }

  /** A text may come back in two blocks or one. */
  lemma SplittingIsTheSame(role: Role, before: seq<Block>, s: string, t: string, after: seq<Block>)
    ensures SameToAgent(Message(role, before + [TextOnly(s + t)] + after),
                        Message(role, before + [TextOnly(s), TextOnly(t)] + after))
  {
    OneBlock(TextOnly(s + t));
    TwoTexts(s, t);
    Replaced(role, before, [TextOnly(s + t)], [TextOnly(s), TextOnly(t)], after);
  }

  /** With white space around it or without. */
  lemma PaddingIsTheSame(role: Role, left: string, content: seq<Block>, right: string)
    requires AllSpace(left) && AllSpace(right)
    ensures SameToAgent(Message(role, content), Message(role, [TextOnly(left)] + content + [TextOnly(right)]))
  {
    OneBlock(TextOnly(left));
    OneBlock(TextOnly(right));
    PartsAppend([TextOnly(left)] + content, [TextOnly(right)]);
    PartsAppend([TextOnly(left)], content);
    assert Pads(TextOf(content), TextOf(content), "", "");
    assert Pads(left + TextOf(content) + right, TextOf(content), left, right);
  }

  /** Without its reasoning and media, and with other names, arguments, statuses and data. */
  lemma UnseenPartsAreTheSame(role: Role, before: seq<Block>, b: Block, c: Block, after: seq<Block>)
    requires c == b.(name := c.name, input := c.input, failed := c.failed, data := c.data)
    ensures SameToAgent(Message(role, before + [b] + after), Message(role, before + [c] + after))
    ensures b.kind in {ReasoningBlock, Image, File} ==>
              SameToAgent(Message(role, before + [b] + after), Message(role, before + [] + after))
  {
    OneBlock(b);
    OneBlock(c);
    Replaced(role, before, [b], [c], after);
    if b.kind in {ReasoningBlock, Image, File} {
      Replaced(role, before, [b], [], after);
    }
  }

  /** The next call's messages are the last call's and its response as the agent holds them, with rest added. */
  ghost predicate SentBack(req: Request, resp: Response, next: Request, rest: seq<Message>) {
    && next.settings == req.settings
    && |next.messages| == |req.messages| + 1 + |rest|
    && (forall i :: 0 <= i < |req.messages| ==> SameToAgent(next.messages[i], req.messages[i]))
    && SameToAgent(next.messages[|req.messages|], AsMessage(resp))
    && next.messages[|req.messages| + 1..] == rest
  }

  lemma SentBackPrint(req: Request, resp: Response, next: Request, rest: seq<Message>, i: nat)
    requires SentBack(req, resp, next, rest) && i <= |req.messages|
    ensures PrintOf(next.messages[i]) == PrintOf(if i < |req.messages| then req.messages[i] else AsMessage(resp))
  {
    SamePrint(next.messages[i], if i < |req.messages| then req.messages[i] else AsMessage(resp));
  }

  lemma SentBackExtends(h: Holding, req: Request, resp: Response, next: Request, rest: seq<Message>)
    requires h.settings == req.settings && SentBack(req, resp, next, rest) && rest != []
    ensures Extends(After(h, req, resp), next)
    ensures next.messages[|After(h, req, resp).history|..] == rest
  {
    var history := After(h, req, resp).history;
    forall i | 0 <= i < |history| ensures PrintOf(next.messages[i]) == history[i] {
      SentBackPrint(req, resp, next, rest, i);
    }
  }

  /** After a response that ended in tool calls with distinct ids, the conversation sent back is continued exactly by
      the results of those calls, whatever the caller did to reasoning, media, arguments and outer white space. */
  lemma ToolResultsContinue(h: Holding, req: Request, resp: Response, next: Request, rest: seq<Message>)
    requires h.settings == req.settings && SentBack(req, resp, next, rest) && rest != []
    requires resp.stop == "tool_use" && CallIds(resp.content) != [] && Distinct(CallIds(resp.content))
    ensures Accepts(After(h, req, resp), next) <==>
            && (forall i :: 0 <= i < |rest| ==> ResultsOnly(rest[i]))
            && ResultIds(rest) == Elements(CallIds(resp.content))
  {
    var held := After(h, req, resp);
    SentBackExtends(h, req, resp, next, rest);
    AcceptsIff(held, next);
    SameTail(next.messages, |held.history|, rest);
  }

  lemma SameTail(ms: seq<Message>, n: nat, rest: seq<Message>)
    requires n <= |ms| && ms[n..] == rest
    ensures (forall i :: n <= i < |ms| ==> ResultsOnly(ms[i])) <==> forall i :: 0 <= i < |rest| ==> ResultsOnly(rest[i])
  {
    assert forall i :: 0 <= i < |rest| ==> rest[i] == ms[n + i];
    assert forall i :: n <= i < |ms| ==> ms[i] == rest[i - n];
  }

  predicate SameSide(a: Role, b: Role) {
    a == b || {a, b} == {User, ToolRole}
  }

  /** Whatever the response stopped for, only the conversation the agent holds is continued: a request that is accepted
      has its settings, every message of the last call and the response, each by the same side, with the same text and
      the same calls and results, and something more. */
  lemma AcceptedIsSentBack(h: Holding, req: Request, resp: Response, next: Request)
    requires Accepts(After(h, req, resp), next)
    ensures next.settings == h.settings && |next.messages| > |req.messages| + 1
    ensures var held := req.messages + [AsMessage(resp)];
            forall i :: 0 <= i <= |req.messages| ==>
              && SameSide(next.messages[i].role, held[i].role)
              && SameText(TextOf(next.messages[i].content), TextOf(held[i].content))
              && multiset(Marks(next.messages[i].content)) == multiset(Marks(held[i].content))
  {
    var held := req.messages + [AsMessage(resp)];
    var history := After(h, req, resp).history;
    forall i | 0 <= i <= |req.messages|
      ensures SameSide(next.messages[i].role, held[i].role)
      ensures SameText(TextOf(next.messages[i].content), TextOf(held[i].content))
      ensures multiset(Marks(next.messages[i].content)) == multiset(Marks(held[i].content))
    {
      assert PrintOf(next.messages[i]) == history[i] == PrintOf(held[i]);
      SamePrintIff(next.messages[i], held[i]);
    }
  }

  /** One message per call, each with that call's result. */
  predicate OneResultEach(ids: seq<string>, rest: seq<Message>) {
    && |rest| == |ids|
    && forall i :: 0 <= i < |ids| ==>
         && rest[i].role == ToolRole && |rest[i].content| == 1
         && rest[i].content[0].kind == ToolResult && rest[i].content[0].toolId == ids[i]
  }

  lemma {:induction false} OneResultEachIds(ids: seq<string>, rest: seq<Message>)
    requires OneResultEach(ids, rest)
    ensures ResultIds(rest) == Elements(ids)
  {
    if ids != [] {
      var n := |ids| - 1;
      OneResultEachIds(ids[..n], rest[..n]);
      assert ids == ids[..n] + [ids[n]];
      assert Elements(ids) == Elements(ids[..n]) + {ids[n]};
      assert rest[n].content == [rest[n].content[0]];
      assert Ids(rest[n].content) == {ids[n]};
    }
  }

  lemma OneResultEachContinues(h: Holding, req: Request, resp: Response, next: Request, rest: seq<Message>, ids: seq<string>)
    requires h.settings == req.settings && SentBack(req, resp, next, rest)
    requires resp.stop == "tool_use" && ids == CallIds(resp.content) && ids != [] && Distinct(ids)
    requires OneResultEach(ids, rest)
    ensures Accepts(After(h, req, resp), next)
  {
    OneResultEachIds(ids, rest);
    OneResultEachIsResults(ids, rest);
    ToolResultsContinue(h, req, resp, next, rest);
  }

  lemma OneResultEachIsResults(ids: seq<string>, rest: seq<Message>)
    requires OneResultEach(ids, rest)
    ensures forall i :: 0 <= i < |rest| ==> ResultsOnly(rest[i])
  {
  }

  /** After any other stop: a new user turn continues a response that ended the turn, and nothing continues the rest. */
  lemma OtherStops(h: Holding, req: Request, resp: Response, next: Request, rest: seq<Message>)
    requires h.settings == req.settings && SentBack(req, resp, next, rest) && rest != []
    requires resp.stop == "tool_use" ==> CallIds(resp.content) == []
    ensures Accepts(After(h, req, resp), next) <==>
            resp.stop == "end_turn" && forall i :: 0 <= i < |rest| ==> NewTurn(rest[i])
  {
    SentBackExtends(h, req, resp, next, rest);
  }

  // The results handed to the agent's tool calls.

  datatype Content = TextContent(text: string) | ImageContent(data: string)

  datatype Result = Result(content: seq<Content>, failed: bool)

  predicate GivesImage(b: Block, id: string) {
    b.kind == Image && b.toolId == id && id != "" && b.data != ""
  }

  predicate Gives(b: Block, id: string) {
    (b.kind == ToolResult && b.toolId == id) || GivesImage(b, id)
  }

  /** What one block adds to the result of a call. */
  function Piece(b: Block, id: string): seq<Content> {
    if b.kind == ToolResult && b.toolId == id && b.text != "" then [TextContent(b.text)]
    else if GivesImage(b, id) then [ImageContent(b.data)]
    else []
  }

  function Pieces(bs: seq<Block>, id: string): seq<Content> {
    if bs == [] then [] else Pieces(bs[..|bs| - 1], id) + Piece(bs[|bs| - 1], id)
  }

  /** A call failed when the last result block for it says so. */
  function Failed(bs: seq<Block>, id: string): bool {
    if bs == [] then false
    else
      var b := bs[|bs| - 1];
      if b.kind == ToolResult && b.toolId == id then b.failed else Failed(bs[..|bs| - 1], id)
  }

  predicate Named(bs: seq<Block>, id: string) {
    exists k :: 0 <= k < |bs| && Gives(bs[k], id)
  }

  function Filled(content: seq<Content>): seq<Content> {
    if content == [] then [TextContent("")] else content
  }

  /** toolResults. */
  method ToolResults(ms: seq<Message>) returns (out: map<string, Result>)
    ensures forall id :: id in out <==> Named(Blocks(ms), id)
    ensures forall id <- out :: out[id] == Result(Filled(Pieces(Blocks(ms), id)), Failed(Blocks(ms), id))
  {
    out := map[];
    ghost var bs: seq<Block> := [];
    var i := 0;
    while i < |ms|
      invariant 0 <= i <= |ms| && bs == Blocks(ms[..i])
      invariant Gathered(bs, out)
    {
      assert ms[..i + 1][..i] == ms[..i];
      var content := ms[i].content;
      var k := 0;
      while k < |content|
        invariant 0 <= k <= |content| && bs == Blocks(ms[..i]) + content[..k]
        invariant Gathered(bs, out)
      {
        out := AddBlock(bs, out, content[k]);
        bs := bs + [content[k]];
        k := k + 1;
      }
      assert content[..k] == content;
      i := i + 1;
    }
    assert ms[..i] == ms;
    ghost var all := out;
    var left := out.Keys;
    while left != {}
      invariant left <= out.Keys == all.Keys
      invariant forall id <- left :: out[id] == all[id]
      invariant forall id <- out.Keys - left :: out[id] == all[id].(content := Filled(all[id].content))
    {
      var id :| id in left;
      if out[id].content == [] {
        out := out[id := out[id].(content := [TextContent("")])];
      }
      left := left - {id};
    }
  }

  ghost predicate Gathered(bs: seq<Block>, out: map<string, Result>) {
    && (forall id :: id in out <==> Named(bs, id))
    && forall id <- out :: out[id] == Result(Pieces(bs, id), Failed(bs, id))
  }

  method AddBlock(ghost bs: seq<Block>, out: map<string, Result>, b: Block) returns (next: map<string, Result>)
    requires Gathered(bs, out)
    ensures Gathered(bs + [b], next)
  {
    next := out;
    if b.kind == ToolResult {
      var r := if b.toolId in out then out[b.toolId] else Result([], false);
      next := out[b.toolId := Result(r.content + (if b.text != "" then [TextContent(b.text)] else []), b.failed)];
    } else if b.kind == Image && b.toolId != "" && b.data != "" {
      var r := if b.toolId in out then out[b.toolId] else Result([], false);
      next := out[b.toolId := r.(content := r.content + [ImageContent(b.data)])];
    }
    forall id ensures id in next <==> Named(bs + [b], id)
      ensures id in next ==> next[id] == Result(Pieces(bs + [b], id), Failed(bs + [b], id)) {
      NamedStep(bs, b, id);
      if !Named(bs, id) {
        NothingGathered(bs, id);
      }
    }
  }

  lemma NamedStep(bs: seq<Block>, b: Block, id: string)
    ensures Named(bs + [b], id) <==> Named(bs, id) || Gives(b, id)
    ensures Pieces(bs + [b], id) == Pieces(bs, id) + Piece(b, id)
    ensures Failed(bs + [b], id) == if b.kind == ToolResult && b.toolId == id then b.failed else Failed(bs, id)
  {
    var all := bs + [b];
    assert all[|bs|] == b && all[..|bs|] == bs;
    if Named(bs, id) {
      var k :| 0 <= k < |bs| && Gives(bs[k], id);
      assert Gives(all[k], id);
    }
    if Gives(b, id) {
      assert Gives(all[|bs|], id);
    }
  }

  lemma {:induction false} NothingGathered(bs: seq<Block>, id: string)
    requires !Named(bs, id)
    ensures Pieces(bs, id) == [] && !Failed(bs, id)
  {
    if bs != [] {
      var n := |bs| - 1;
      assert !Gives(bs[n], id);
      assert !Named(bs[..n], id) by {
        forall k | 0 <= k < n ensures !Gives(bs[..n][k], id) { assert !Gives(bs[k], id); }
      }
      NothingGathered(bs[..n], id);
    }
  }

  lemma {:induction false} PiecesAppend(a: seq<Block>, b: seq<Block>, id: string)
    ensures Pieces(a + b, id) == Pieces(a, id) + Pieces(b, id)
    decreases |b|
  {
    if b == [] {
      assert a + b == a;
    } else {
      assert (a + b)[..|a + b| - 1] == a + b[..|b| - 1];
      PiecesAppend(a, b[..|b| - 1], id);
    }
  }

  lemma OneBlockPieces(b: Block, id: string)
    ensures Pieces([b], id) == Piece(b, id)
  {
    assert [b][..0] == [];
  }

  /** What a call is answered with, in the order of the blocks: the non-empty text of each of its results, the bytes of
      each image that names it, and nothing of any other block. */
  lemma PiecesInOrder(before: seq<Block>, b: Block, after: seq<Block>, id: string)
    ensures Pieces([], id) == []
    ensures b.kind == ToolResult && b.toolId == id && b.text != "" ==>
              Pieces(before + [b] + after, id) == Pieces(before, id) + [TextContent(b.text)] + Pieces(after, id)
    ensures b.kind == Image && b.toolId == id && id != "" && b.data != "" ==>
              Pieces(before + [b] + after, id) == Pieces(before, id) + [ImageContent(b.data)] + Pieces(after, id)
    ensures b.toolId != id || b.kind !in {ToolResult, Image} || (b.kind == ToolResult && b.text == "") ||
            (b.kind == Image && (b.data == "" || id == "")) ==>
              Pieces(before + [b] + after, id) == Pieces(before, id) + Pieces(after, id)
  {
    PiecesAppend(before + [b], after, id);
    PiecesAppend(before, [b], id);
    OneBlockPieces(b, id);
  }

  /** A call failed exactly when the last result for it says so. */
  lemma {:induction false} FailedIsTheLast(bs: seq<Block>, id: string)
    ensures Failed(bs, id) <==>
            exists i :: 0 <= i < |bs| && bs[i].kind == ToolResult && bs[i].toolId == id && bs[i].failed &&
                        forall j :: i < j < |bs| ==> bs[j].kind != ToolResult || bs[j].toolId != id
  {
    if bs != [] {
      var n := |bs| - 1;
      FailedIsTheLast(bs[..n], id);
      if bs[n].kind != ToolResult || bs[n].toolId != id {
        if Failed(bs[..n], id) {
          var i :| 0 <= i < n && bs[..n][i].kind == ToolResult && bs[..n][i].toolId == id && bs[..n][i].failed &&
                   forall j :: i < j < n ==> bs[..n][j].kind != ToolResult || bs[..n][j].toolId != id;
          assert bs[i] == bs[..n][i];
          assert forall j :: i < j < n ==> bs[j] == bs[..n][j];
        }
        if i :| 0 <= i < |bs| && bs[i].kind == ToolResult && bs[i].toolId == id && bs[i].failed &&
                forall j :: i < j < |bs| ==> bs[j].kind != ToolResult || bs[j].toolId != id {
          assert i < n && bs[..n][i] == bs[i];
          assert forall j :: i < j < n ==> bs[..n][j] == bs[j];
        }
      }
    }
  }

  /** The calls a continued request has results for are those it was accepted with and those its images name, so every
      held call has one; an image that names some other call gives that call a result too. */
  lemma ResultsCoverPending(h: Holding, req: Request, id: string)
    requires h.pending != [] && Distinct(h.pending) && Accepts(h, req)
    ensures var bs := Blocks(req.messages[|h.history|..]);
            Named(bs, id) <==> id in h.pending || exists k :: 0 <= k < |bs| && GivesImage(bs[k], id)
  {
    var bs := Blocks(req.messages[|h.history|..]);
    AcceptedIdsArePending(h, req);
    assert id in Elements(h.pending) <==> id in h.pending;
    if Named(bs, id) {
      var k :| 0 <= k < |bs| && Gives(bs[k], id);
      if !GivesImage(bs[k], id) {
        assert bs[k] in bs && id in Ids(bs);
      }
    }
    if id in h.pending {
      assert id in Ids(bs);
      var b :| b in bs && b.kind == ToolResult && b.toolId == id;
      var k :| 0 <= k < |bs| && bs[k] == b;
      assert Gives(bs[k], id);
    }
    if k :| 0 <= k < |bs| && GivesImage(bs[k], id) {
      assert Gives(bs[k], id);
    }
  }

  // A response that uses one id twice.

  function CallOf(id: string): Block {
    Block(ToolUse, "", id, "", "", false, "")
  }

  function ResultOf(id: string): Block {
    Block(ToolResult, "", id, "", "", false, "")
  }

  const HELLO := Request("", [Message(User, [TextOnly("hello")])])
  const TWICE := Response([CallOf("a"), CallOf("a")], "tool_use")

  /** The conversation sent back with one message of results. */
  function WithResults(results: seq<Block>): Request {
    Request("", HELLO.messages + [AsMessage(TWICE)] + [Message(ToolRole, results)])
  }

  lemma TwiceIsHeld(h: Holding)
    requires h.settings == ""
    ensures var held := After(h, HELLO, TWICE);
            && held.pending == ["a", "a"] && !Distinct(held.pending) && Elements(held.pending) == {"a"}
            && |held.history| == 2
  {
    var content := TWICE.content;
    assert content[..1] == [CallOf("a")] && content[..1][..0] == [];
    assert CallIds(content[..1]) == ["a"];
    var pending := After(h, HELLO, TWICE).pending;
    assert pending == ["a", "a"] && pending[0] == pending[1];
  }

  lemma WithResultsIsSentBack(h: Holding, results: seq<Block>, rest: seq<Message>)
    requires h.settings == "" && rest == [Message(ToolRole, results)]
    ensures WithResults(results).messages[2..] == rest
    ensures SentBack(HELLO, TWICE, WithResults(results), rest)
    ensures Extends(After(h, HELLO, TWICE), WithResults(results))
    ensures ResultIds(rest) == Ids(results)
  {
    var next := WithResults(results);
    assert next.messages[0] == HELLO.messages[0] && next.messages[1] == AsMessage(TWICE);
    forall m: Message ensures SameToAgent(m, m) {
      SameTextIff(TextOf(m.content), TextOf(m.content));
    }
    assert next.messages[2..] == rest;
    assert rest[..0] == [] && Blocks(rest) == Blocks([]) + results == results;
    SentBackExtends(h, HELLO, TWICE, next, rest);
  }

  lemma TakenWhenTwo(held: Holding, req: Request, rest: seq<Message>)
    requires Extends(held, req) && req.messages[|held.history|..] == rest
    requires |held.pending| == 2 && Elements(held.pending) == {"a"} && "a" in ResultIds(rest)
    requires |rest| == 1 && ResultsOnly(rest[0])
    ensures Accepts(held, req) <==> |ResultIds(rest)| == 2
  {
  }

  lemma TwiceContinues(h: Holding, results: seq<Block>, rest: seq<Message>)
    requires h.settings == "" && rest == [Message(ToolRole, results)] && "a" in Ids(results)
    requires forall k :: 0 <= k < |results| ==> results[k].kind == ToolResult
    ensures SentBack(HELLO, TWICE, WithResults(results), rest) && ResultIds(rest) == Ids(results)
    ensures Accepts(After(h, HELLO, TWICE), WithResults(results)) <==> |Ids(results)| == 2
  {
    TwiceIsHeld(h);
    WithResultsIsSentBack(h, results, rest);
    TakenWhenTwo(After(h, HELLO, TWICE), WithResults(results), rest);
  }

  /** A response that used one id twice: the conversation sent back with the result of that id is refused, and sent back
      with a result nobody asked for besides it is taken. */
  lemma RepeatedIdTakesAForeignResult(h: Holding, honest: seq<Block>, foreign: seq<Block>)
    requires h.settings == "" && honest == [ResultOf("a")] && foreign == [ResultOf("a"), ResultOf("b")]
    ensures !Distinct(After(h, HELLO, TWICE).pending) && Elements(After(h, HELLO, TWICE).pending) == {"a"}
    ensures SentBack(HELLO, TWICE, WithResults(honest), [Message(ToolRole, honest)])
    ensures ResultIds([Message(ToolRole, honest)]) == {"a"} && !Accepts(After(h, HELLO, TWICE), WithResults(honest))
    ensures SentBack(HELLO, TWICE, WithResults(foreign), [Message(ToolRole, foreign)])
    ensures ResultIds([Message(ToolRole, foreign)]) == {"a", "b"} && Accepts(After(h, HELLO, TWICE), WithResults(foreign))
  {
    TwiceIsHeld(h);
    TwoResultIds();
    TwiceContinues(h, honest, [Message(ToolRole, honest)]);
    TwiceContinues(h, foreign, [Message(ToolRole, foreign)]);
  }

  lemma TwoResultIds()
    ensures Ids([ResultOf("a")]) == {"a"} && |{"a"}| == 1
    ensures Ids([ResultOf("a"), ResultOf("b")]) == {"a", "b"} != {"a"} && |{"a", "b"}| == 2
  {
    var a, b := ResultOf("a"), ResultOf("b");
    assert [a][0] == a && [a, b][0] == a && [a, b][1] == b;
    assert "a"[0] != "b"[0] && "b" !in {"a"};
  }
}
