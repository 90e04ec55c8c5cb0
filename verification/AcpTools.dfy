/** Recognising the caller's tools among an ACP agent's tool calls: driver/acp_tools.go. */
module AcpTools {
  import opened Options

  /** What a tool call's _meta names, when it parses. */
  datatype Meta = Meta(source: string, server: string, tool: string)

  datatype Kind = ToolCall | ToolCallUpdate

  datatype Update = Update(kind: Kind, id: string, title: string, meta: Option<Meta>, status: string)

  /** A session's tool server and the tools it offers. */
  datatype Offer = Offer(server: string, names: set<string>)

  /** The server-qualified forms agents give an MCP tool's name, in the order they are tried. */
  function Prefixes(server: string): seq<string> {
    ["mcp__" + server + "__", "mcp_" + server + "_", server + "__", server + "_",
     server + "/", server + ".", server + ":"]
  }

  predicate Qualifies(o: Offer, title: string, prefix: string, bare: string) {
    title == prefix + bare && bare in o.names
  }

  /** The first form that makes the title one of the tools. */
  function MatchTitle(o: Offer, title: string, prefixes: seq<string>): Option<string> {
    if prefixes == [] then None
    else if prefixes[0] <= title && title[|prefixes[0]|..] in o.names then Some(title[|prefixes[0]|..])
    else MatchTitle(o, title, prefixes[1..])
  }

  function MatchMeta(o: Offer, meta: Option<Meta>): Option<string> {
    if meta.Some? && meta.value.source == "mcp" && meta.value.server == o.server && meta.value.tool in o.names
    then Some(meta.value.tool) else None
  }

  function Match(o: Offer, title: string, meta: Option<Meta>): Option<string> {
    if MatchMeta(o, meta).Some? then MatchMeta(o, meta) else MatchTitle(o, title, Prefixes(o.server))
  }

  lemma {:induction false} MatchTitleIff(o: Offer, title: string, prefixes: seq<string>)
    ensures MatchTitle(o, title, prefixes).Some? <==>
            exists p, bare :: p in prefixes && Qualifies(o, title, p, bare)
    ensures var m := MatchTitle(o, title, prefixes);
            m.Some? ==> exists p :: p in prefixes && Qualifies(o, title, p, m.value)
  {
    if prefixes != [] {
      MatchTitleIff(o, title, prefixes[1..]);
      var p := prefixes[0];
      if p <= title {
        assert title == p + title[|p|..];
        if title[|p|..] in o.names {
          assert Qualifies(o, title, p, title[|p|..]);
        }
      }
      forall bare | Qualifies(o, title, p, bare)
        ensures p <= title && title[|p|..] == bare
      {
      }
    }
  }

  /** A title is taken for one of the tools exactly when it is a tool's name behind one of the forms, or _meta names the
      server and a tool. */
  lemma MatchIff(o: Offer, title: string, meta: Option<Meta>)
    ensures Match(o, title, meta).Some? <==>
            || (meta.Some? && meta.value.source == "mcp" && meta.value.server == o.server && meta.value.tool in o.names)
            || exists p, bare :: p in Prefixes(o.server) && Qualifies(o, title, p, bare)
    ensures Match(o, title, meta).Some? ==> Match(o, title, meta).value in o.names
  {
    MatchTitleIff(o, title, Prefixes(o.server));
  }

  /** An agent's own tool that bears the bare name of one of the caller's is not taken for it, unless that name is
      itself another tool's qualified name. */
  lemma BareNameIsNotMatched(o: Offer, name: string)
    requires name in o.names
    ensures Match(o, name, None).None? <==>
            forall p, bare :: p in Prefixes(o.server) && bare in o.names ==> name != p + bare
  {
    MatchTitleIff(o, name, Prefixes(o.server));
    if Match(o, name, None).Some? {
      var p, bare :| p in Prefixes(o.server) && Qualifies(o, name, p, bare);
      assert name == p + bare;
    } else {
      forall p, bare | p in Prefixes(o.server) && bare in o.names
        ensures name != p + bare
      {
        assert !Qualifies(o, name, p, bare);
      }
    }
  }

  lemma QualifiedToolNameIsMatched()
    ensures Match(Offer("tools", {"bash", "tools_bash"}), "tools_bash", None) == Some("bash")
  {
    var o := Offer("tools", {"bash", "tools_bash"});
    var ps := Prefixes("tools");
    assert "tools_bash"[|"tools_"|..] == "bash";
    assert ps[0][3] == '_' && ps[1][3] == '_' && ps[2][6] == '_' && "tools_bash"[3] == 'l' && "tools_bash"[6] == 'b';
    assert MatchTitle(o, "tools_bash", ps) == MatchTitle(o, "tools_bash", ps[1..]);
    assert ps[1..][1..] == ps[2..] && ps[2..][1..] == ps[3..];
    assert MatchTitle(o, "tools_bash", ps[1..]) == MatchTitle(o, "tools_bash", ps[2..]);
    assert MatchTitle(o, "tools_bash", ps[2..]) == MatchTitle(o, "tools_bash", ps[3..]);
    assert ps[3] == "tools_";
  }

  predicate IsTerminal(status: string) {
    status in ["completed", "success", "failed", "error", "cancelled", "canceled"]
  }

  /** An update that settles whether its id is the caller's: it matches, it announces something else, or it ends the
      call. */
  predicate Decides(o: Offer, u: Update, id: string) {
    u.id == id && (Match(o, u.title, u.meta).Some? || u.kind.ToolCall? || IsTerminal(u.status))
  }

  /** The tool an id stands for after a history, read off the latest deciding update alone. */
  function OwnedBy(o: Offer, history: seq<Update>, id: string): Option<string> {
    if history == [] then None
    else
      var u := history[|history| - 1];
      if Decides(o, u, id) then (if IsTerminal(u.status) then None else Match(o, u.title, u.meta))
      else OwnedBy(o, history[..|history| - 1], id)
  }

  /** The latest deciding update says it all, wherever it stands in the history. */
  lemma {:induction false} OwnedIff(o: Offer, history: seq<Update>, id: string)
    ensures OwnedBy(o, history, id).Some? <==>
            exists i :: 0 <= i < |history| && Decides(o, history[i], id) &&
                        Match(o, history[i].title, history[i].meta).Some? && !IsTerminal(history[i].status) &&
                        forall j :: i < j < |history| ==> !Decides(o, history[j], id)
    decreases |history|
  {
    if history != [] {
      var n := |history| - 1;
      var init := history[..n];
      OwnedIff(o, init, id);
      if Decides(o, history[n], id) {
        if OwnedBy(o, history, id).Some? {
          assert Match(o, history[n].title, history[n].meta).Some?;
        }
      } else {
        if OwnedBy(o, init, id).Some? {
          var i :| 0 <= i < n && Decides(o, init[i], id) && Match(o, init[i].title, init[i].meta).Some? &&
                   !IsTerminal(init[i].status) && forall j :: i < j < n ==> !Decides(o, init[j], id);
          assert Decides(o, history[i], id);
          forall j | i < j < |history| ensures !Decides(o, history[j], id) {
            if j < n { assert history[j] == init[j]; }
          }
        }
        if i :| 0 <= i < |history| && Decides(o, history[i], id) &&
                Match(o, history[i].title, history[i].meta).Some? && !IsTerminal(history[i].status) &&
                forall j :: i < j < |history| ==> !Decides(o, history[j], id) {
          assert i < n && init[i] == history[i];
          forall j | i < j < n ensures !Decides(o, init[j], id) {
            assert init[j] == history[j];
          }
        }
      }
    }
  }

  /** An id that a later tool call announces as something else is not the caller's until a call matches again. */
  lemma ReusedIdIsNotOwned(o: Offer, before: seq<Update>, u: Update, after: seq<Update>)
    requires u.kind.ToolCall? && Match(o, u.title, u.meta).None?
    requires forall v :: v in after && v.id == u.id ==> Match(o, v.title, v.meta).None?
    ensures OwnedBy(o, before + [u] + after, u.id).None?
  {
    var h := before + [u] + after;
    OwnedIff(o, h, u.id);
    assert h[|before|] == u && Decides(o, h[|before|], u.id);
    forall i | |before| < i < |h|
      ensures h[i].id == u.id ==> Match(o, h[i].title, h[i].meta).None?
    {
      assert h[i] == after[i - |before| - 1];
    }
  }

  /** acpCallerTools. */
  class CallerTools {
    const offer: Offer
    var calls: map<string, string>
    ghost var history: seq<Update>

    /** calls agrees with a scan of everything observed. */
    ghost predicate Valid()
      reads this
    {
      && (forall id :: id in calls ==> id != "" && OwnedBy(offer, history, id) == Some(calls[id]))
      && (forall id :: id != "" && id !in calls ==> OwnedBy(offer, history, id) == None)
    }

    constructor (offer: Offer)
      ensures Valid() && this.offer == offer && history == []
    {
      this.offer := offer;
      calls, history := map[], [];
    }

    method MatchCall(title: string, meta: Option<Meta>) returns (bare: Option<string>)
      ensures bare == Match(offer, title, meta)
    {
      bare := MatchMeta(offer, meta);
      if bare.Some? {
        return;
      }
      var prefixes := Prefixes(offer.server);
      var i := 0;
      while i < |prefixes|
        invariant 0 <= i <= |prefixes|
        invariant MatchTitle(offer, title, prefixes) == MatchTitle(offer, title, prefixes[i..])
      {
        var p := prefixes[i];
        assert prefixes[i..][1..] == prefixes[i + 1..];
        if p <= title && title[|p|..] in offer.names {
          return Some(title[|p|..]);
        }
        i := i + 1;
      }
    }

    /** bare is the tool the update is about, the owner before it for one that only retitles or ends the call. */
    method Observe(u: Update) returns (bare: Option<string>)
      requires Valid()
      modifies this
      ensures Valid() && history == old(history) + [u]
      ensures bare == if Match(offer, u.title, u.meta).Some? then Match(offer, u.title, u.meta)
                      else if u.id == "" || u.kind.ToolCall? then None
                      else OwnedBy(offer, old(history), u.id)
    {
      bare := MatchCall(u.title, u.meta);
      history := history + [u];
      assert history[..|history| - 1] == old(history);
      if u.id == "" {
        return;
      }
      if bare.Some? {
        calls := calls[u.id := bare.value];
      } else if u.kind.ToolCall? {
        calls := calls - {u.id};
      } else {
        bare := if u.id in calls then Some(calls[u.id]) else None;
      }
      if bare.Some? && IsTerminal(u.status) {
        calls := calls - {u.id};
      }
    }

    /** Whether a permission request is for one of the tools. */
    method Owns(id: string, title: string, meta: Option<Meta>) returns (ok: bool)
      requires Valid()
      ensures ok <==> Match(offer, title, meta).Some? || (id != "" && OwnedBy(offer, history, id).Some?)
    {
      var bare := MatchCall(title, meta);
      if bare.Some? {
        return true;
      }
      ok := id in calls && id != "";
    }
  }
}
