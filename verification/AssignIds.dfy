/** Naming and linking the entries a write creates: AssignIDs of transcript/jsonl.go. */
module AssignIds {
  import opened Options

  /** message tells a message from an opaque row; keep is the entry a compaction marker keeps from; raw is the vendor
      row an entry was read from. */
  datatype Entry = Entry(
    id: string, parent: string, message: bool, keep: Option<string>, raw: Option<string>, body: string)

  /** The agent's id scheme, with mint(k) the k-th id it makes, and how the write links: whether rows form a tree, the
      pinned leaf and whether the session restarts. */
  datatype Config = Config(accepts: string -> bool, mint: nat -> string, tree: bool, leaf: string, restart: bool)

  predicate Created(e: Entry) {
    e.raw.None? && (e.message || e.keep.Some?)
  }

  predicate NeedsId(c: Config, e: Entry) {
    Created(e) && (e.id == "" || !c.accepts(e.id))
  }

  function Minted(c: Config, es: seq<Entry>, n: nat): nat
    requires n <= |es|
  {
    if n == 0 then 0 else Minted(c, es, n - 1) + if NeedsId(c, es[n - 1]) then 1 else 0
  }

  /** The id an entry ends with. */
  function FinalId(c: Config, es: seq<Entry>, i: nat): string
    requires i < |es|
  {
    if NeedsId(c, es[i]) then c.mint(Minted(c, es, i)) else es[i].id
  }

  /** The replaced ids of the first n entries, with what replaced them. */
  function Remap(c: Config, es: seq<Entry>, n: nat): map<string, string>
    requires n <= |es|
  {
    if n == 0 then map[]
    else
      var m := Remap(c, es, n - 1);
      if NeedsId(c, es[n - 1]) && es[n - 1].id != "" then m[es[n - 1].id := FinalId(c, es, n - 1)] else m
  }

  function Rename(m: map<string, string>, id: string): string {
    if id in m then m[id] else id
  }

  /** The id of the nearest entry before i that has one. */
  function LastId(c: Config, es: seq<Entry>, i: nat): string
    requires i <= |es|
  {
    if i == 0 then ""
    else if FinalId(c, es, i - 1) != "" then FinalId(c, es, i - 1)
    else LastId(c, es, i - 1)
  }

  predicate IsFirst(es: seq<Entry>, i: nat)
    requires i <= |es|
  {
    forall j :: 0 <= j < i ==> !Created(es[j])
  }

  /** What a new entry without a parent is linked to in a tree. */
  function Predecessor(c: Config, es: seq<Entry>, i: nat): string
    requires i < |es|
  {
    if IsFirst(es, i) && c.restart then ""
    else if IsFirst(es, i) && c.leaf != "" then c.leaf
    else LastId(c, es, i)
  }

  function FinalParent(c: Config, es: seq<Entry>, i: nat): string
    requires i < |es|
  {
    var p := Rename(Remap(c, es, |es|), es[i].parent);
    if c.tree && p == "" then Predecessor(c, es, i) else p
  }

  function FinalKeep(c: Config, es: seq<Entry>, i: nat): Option<string>
    requires i < |es|
  {
    if es[i].keep.Some? then Some(Rename(Remap(c, es, |es|), es[i].keep.value)) else None
  }

  function FinalEntry(c: Config, es: seq<Entry>, i: nat): Entry
    requires i < |es|
  {
    if Created(es[i]) then
      es[i].(id := FinalId(c, es, i), parent := FinalParent(c, es, i), keep := FinalKeep(c, es, i))
    else es[i]
  }

  function Assigned(c: Config, es: seq<Entry>): (out: seq<Entry>)
    ensures |out| == |es|
    ensures forall i :: 0 <= i < |es| ==> out[i] == FinalEntry(c, es, i)
  {
    seq(|es|, i requires 0 <= i < |es| => FinalEntry(c, es, i))
  }

  /** The first pass: ids. */
  method NameEntries(c: Config, a: array<Entry>) returns (remap: map<string, string>)
    modifies a
    ensures remap == Remap(c, old(a[..]), a.Length)
    ensures forall k :: 0 <= k < a.Length ==> a[k] == old(a[k]).(id := FinalId(c, old(a[..]), k))
  {
    ghost var es := a[..];
    remap := map[];
    var minted, i := 0, 0;
    while i < a.Length
      invariant 0 <= i <= a.Length
      invariant minted == Minted(c, es, i) && remap == Remap(c, es, i)
      invariant forall k :: 0 <= k < i ==> a[k] == es[k].(id := FinalId(c, es, k))
      invariant forall k :: i <= k < a.Length ==> a[k] == es[k]
    {
      var e := a[i];
      if Created(e) && (e.id == "" || !c.accepts(e.id)) {
        var id := c.mint(minted);
        minted := minted + 1;
        if e.id != "" {
          remap := remap[e.id := id];
        }
        a[i] := e.(id := id);
      }
      i := i + 1;
    }
  }

  /** The second pass: compaction markers follow the renaming. */
  method FollowKeeps(a: array<Entry>, remap: map<string, string>)
    modifies a
    ensures forall k :: 0 <= k < a.Length ==>
              a[k] == if old(a[k]).raw.None? && old(a[k]).keep.Some?
                      then old(a[k]).(keep := Some(Rename(remap, old(a[k]).keep.value))) else old(a[k])
  {
    var i := 0;
    while i < a.Length
      invariant 0 <= i <= a.Length
      invariant forall k :: 0 <= k < i ==>
                  a[k] == if old(a[k]).raw.None? && old(a[k]).keep.Some?
                          then old(a[k]).(keep := Some(Rename(remap, old(a[k]).keep.value))) else old(a[k])
      invariant forall k :: i <= k < a.Length ==> a[k] == old(a[k])
    {
      var e := a[i];
      if e.keep.Some? && e.raw.None? && e.keep.value in remap {
        a[i] := e.(keep := Some(remap[e.keep.value]));
      }
      i := i + 1;
    }
  }

  /** An entry after the third pass. */
  function Linked(c: Config, es: seq<Entry>, was: Entry, i: nat): Entry
    requires i < |es|
  {
    if Created(es[i]) then was.(parent := FinalParent(c, es, i)) else was
  }

  /** The third pass: parents. es is the session before the first. */
  method LinkEntries(c: Config, a: array<Entry>, remap: map<string, string>, ghost es: seq<Entry>)
    requires forall k: nat :: c.mint(k) != ""
    requires a.Length == |es| && remap == Remap(c, es, |es|)
    requires forall k :: 0 <= k < a.Length ==>
               a[k].id == FinalId(c, es, k) && Created(a[k]) == Created(es[k]) && a[k].parent == es[k].parent
    modifies a
    ensures forall k :: 0 <= k < a.Length ==> a[k] == Linked(c, es, old(a[k]), k)
  {
    ghost var was := a[..];
    var prev, first := "", true;
    var i := 0;
    while i < a.Length
      invariant 0 <= i <= a.Length
      invariant first == IsFirst(es, i) && prev == LastId(c, es, i)
      invariant forall k :: 0 <= k < i ==> a[k] == Linked(c, es, was[k], k)
      invariant forall k :: i <= k < a.Length ==> a[k] == was[k]
    {
      var e;
      e, prev, first := LinkEntry(c, a[i], remap, prev, first, es, i);
      a[i] := e;
      i := i + 1;
    }
  }

  /** One turn of the third pass. */
  method LinkEntry(
      c: Config, was: Entry, remap: map<string, string>, last: string, isFirst: bool, ghost es: seq<Entry>, ghost i: nat)
    returns (e: Entry, prev: string, first: bool)
    requires forall k: nat :: c.mint(k) != ""
    requires i < |es| && remap == Remap(c, es, |es|) && isFirst == IsFirst(es, i) && last == LastId(c, es, i)
    requires was.id == FinalId(c, es, i) && Created(was) == Created(es[i]) && was.parent == es[i].parent
    ensures e == Linked(c, es, was, i)
    ensures first == IsFirst(es, i + 1) && prev == LastId(c, es, i + 1)
  {
    e, prev, first := was, last, isFirst;
    if Created(e) {
      var parent := e.parent;
      if parent in remap {
        parent := remap[parent];
      }
      if first && c.restart {
        prev := "";
      } else if first && c.leaf != "" {
        prev := c.leaf;
      }
      first := false;
      if c.tree && parent == "" {
        parent := prev;
      }
      e := e.(parent := parent);
    }
    if e.id != "" {
      prev := e.id;
    }
  }

  /** AssignIDs: three passes over the entries in place. */
  method AssignInPlace(c: Config, a: array<Entry>)
    requires forall k: nat :: c.mint(k) != ""
    modifies a
    ensures a[..] == Assigned(c, old(a[..]))
  {
    ghost var es := a[..];
    var remap := NameEntries(c, a);
    FollowKeeps(a, remap);
    LinkEntries(c, a, remap, es);
  }

  /** Non-empty ids name one entry each. */
  ghost predicate UniqueIds(es: seq<Entry>) {
    forall i, j :: 0 <= i < j < |es| && es[i].id != "" ==> es[i].id != es[j].id
  }

  /** Ids the scheme makes are ids, are its own, differ from each other and from every name in the session. */
  ghost predicate FreshIds(c: Config, es: seq<Entry>) {
    && (forall k: nat :: c.mint(k) != "" && c.accepts(c.mint(k)))
    && (forall j: nat, k: nat :: j < k ==> c.mint(j) != c.mint(k))
    && (forall k: nat, i :: 0 <= i < |es| ==>
          c.mint(k) != es[i].id && c.mint(k) != es[i].parent && es[i].keep != Some(c.mint(k)))
    && (forall k: nat :: c.mint(k) != c.leaf)
  }

  lemma {:induction false} MintedGrows(c: Config, es: seq<Entry>, i: nat, j: nat)
    requires i < j <= |es|
    ensures Minted(c, es, i) <= Minted(c, es, j)
    ensures NeedsId(c, es[i]) ==> Minted(c, es, i) < Minted(c, es, j)
    decreases j
  {
    if i < j - 1 {
      MintedGrows(c, es, i, j - 1);
    }
  }

  /** A name an entry had is mapped to the id that entry ends with, and no other name is mapped. */
  lemma {:induction false} RemapIff(c: Config, es: seq<Entry>, n: nat, id: string)
    requires n <= |es| && UniqueIds(es)
    ensures id in Remap(c, es, n) <==> id != "" && exists i :: 0 <= i < n && es[i].id == id && NeedsId(c, es[i])
    ensures forall i :: 0 <= i < n && es[i].id == id && id != "" ==>
                          (if NeedsId(c, es[i]) then id in Remap(c, es, n) && Remap(c, es, n)[id] == FinalId(c, es, i)
                           else id !in Remap(c, es, n))
  {
    if n > 0 {
      RemapIff(c, es, n - 1, id);
    }
  }

  /** A name that named an entry is renamed to that entry's final id, and to no other entry's. */
  lemma RenameFollows(c: Config, es: seq<Entry>, id: string, j: nat)
    requires UniqueIds(es) && FreshIds(c, es) && j < |es| && id != ""
    requires forall k: nat :: c.mint(k) != id
    ensures Rename(Remap(c, es, |es|), id) == FinalId(c, es, j) <==> id == es[j].id
    ensures Rename(Remap(c, es, |es|), id) != ""
  {
    RemapIff(c, es, |es|, id);
    if id in Remap(c, es, |es|) {
      var i :| 0 <= i < |es| && es[i].id == id && NeedsId(c, es[i]);
      if i != j && NeedsId(c, es[j]) {
        MintedGrows(c, es, if i < j then i else j, if i < j then j else i);
      }
    }
  }

  /** Every entry the write creates gets an id the agent accepts, no two entries share one, and every other entry is
      left exactly as it was. */
  lemma EveryEntryNamed(c: Config, es: seq<Entry>, i: nat)
    requires UniqueIds(es) && FreshIds(c, es) && i < |es|
    ensures var out := Assigned(c, es);
            && (if Created(es[i]) then out[i].id != "" && c.accepts(out[i].id) else out[i] == es[i])
            && UniqueIds(out)
            && Created(out[i]) == Created(es[i])
  {
    var out := Assigned(c, es);
    forall j, k | 0 <= j < k < |out| && out[j].id != ""
      ensures out[j].id != out[k].id
    {
      MintedGrows(c, es, j, k);
    }
  }

  /** And nothing else changes: an id the agent accepts stays, one it does not is replaced by a new one, a link to no entry
      of the session stays as it was, no parent is invented outside a tree, and no other field is touched. */
  lemma NothingElseChanges(c: Config, es: seq<Entry>, i: nat)
    requires UniqueIds(es) && i < |es|
    ensures var out := Assigned(c, es);
            && out[i] == es[i].(id := out[i].id, parent := out[i].parent, keep := out[i].keep)
            && (if Created(es[i]) && (es[i].id == "" || !c.accepts(es[i].id)) then exists k: nat :: out[i].id == c.mint(k)
                else out[i].id == es[i].id)
            && (es[i].parent != "" && (forall e <- es :: e.id != es[i].parent) ==> out[i].parent == es[i].parent)
            && (es[i].parent == "" && !c.tree ==> out[i].parent == "")
            && (out[i].keep.Some? <==> es[i].keep.Some?)
            && (es[i].keep.Some? && (forall e <- es :: e.id != es[i].keep.value) ==> out[i].keep == es[i].keep)
  {
    RemapIff(c, es, |es|, es[i].parent);
    if es[i].keep.Some? {
      RemapIff(c, es, |es|, es[i].keep.value);
    }
    assert NeedsId(c, es[i]) ==> Assigned(c, es)[i].id == c.mint(Minted(c, es, i));
  }

  /** A link names after the write the entry it named before, and no other: always for the entries the write creates,
      and for rows it keeps exactly when the entry they name was not renamed. */
  lemma LinksFollow(c: Config, es: seq<Entry>, i: nat, j: nat)
    requires UniqueIds(es) && FreshIds(c, es) && i < |es| && j < |es|
    ensures var out := Assigned(c, es);
            && (es[i].parent != "" ==>
                  (out[i].parent == out[j].id <==>
                   es[i].parent == es[j].id && (Created(es[i]) || !NeedsId(c, es[j]))))
            && (es[i].keep.Some? && es[i].keep.value != "" ==>
                  (out[i].keep == Some(out[j].id) <==>
                   es[i].keep == Some(es[j].id) && (Created(es[i]) || !NeedsId(c, es[j]))))
  {
    if es[i].parent != "" {
      RenameFollows(c, es, es[i].parent, j);
    }
    if es[i].keep.Some? && es[i].keep.value != "" {
      RenameFollows(c, es, es[i].keep.value, j);
    }
  }

  function Letters(k: nat): string {
    seq(k + 1, _ => 'm')
  }

  /** An agent that takes ids that begin with m or n, and makes its own of the letter m alone. */
  function SomeAgent(leaf: string): Config {
    Config(id => id != "" && id[0] in {'m', 'n'}, (k: nat) => Letters(k), true, leaf, false)
  }

  lemma SomeAgentMintsFresh(leaf: string, es: seq<Entry>)
    requires leaf == "" || leaf[0] != 'm'
    requires forall e <- es :: (e.id == "" || e.id[0] != 'm') && (e.parent == "" || e.parent[0] != 'm') && e.keep.None?
    ensures FreshIds(SomeAgent(leaf), es)
  {
    var c := SomeAgent(leaf);
    forall k: nat ensures c.mint(k) == Letters(k) && |Letters(k)| == k + 1 && Letters(k)[0] == 'm' {
    }
    forall j: nat, k: nat | j < k ensures c.mint(j) != c.mint(k) {
      assert |c.mint(j)| != |c.mint(k)|;
    }
    forall k: nat, i | 0 <= i < |es| ensures c.mint(k) != es[i].id && c.mint(k) != es[i].parent {
      assert es[i] in es;
    }
  }

  /** A row that was read and names an entry the write renames: after the write it names none. */
  lemma KeptRowLosesItsLink()
    ensures var es := [Entry("x", "", true, None, None, ""), Entry("n", "x", false, None, Some("row"), "")];
            var out := Assigned(SomeAgent(""), es);
            && UniqueIds(es) && FreshIds(SomeAgent(""), es) && es[1].parent == es[0].id
            && out[1].parent == "x" && out[0].id == "m" && out[1].id == "n"
  {
    var c, es := SomeAgent(""), [Entry("x", "", true, None, None, ""), Entry("n", "x", false, None, Some("row"), "")];
    SomeAgentMintsFresh("", es);
    assert NeedsId(c, es[0]) && Minted(c, es, 0) == 0 && Letters(0) == "m";
  }

  /** Links point to earlier entries, so following them ends. */
  ghost predicate Backward(es: seq<Entry>) {
    forall i, j :: 0 <= i < |es| && 0 <= j < |es| && es[i].parent != "" && es[i].parent == es[j].id ==> j < i
  }

  predicate LinksToLeaf(c: Config, es: seq<Entry>, i: nat)
    requires i < |es|
  {
    c.tree && !c.restart && c.leaf != "" && Created(es[i]) && IsFirst(es, i) && es[i].parent == ""
  }

  /** The pinned leaf, where the first new entry is going to be linked to it, is no entry from there on. */
  ghost predicate LeafComesFirst(c: Config, es: seq<Entry>) {
    forall i, j :: 0 <= i <= j < |es| && LinksToLeaf(c, es, i) ==> es[j].id != c.leaf || NeedsId(c, es[j])
  }

  lemma {:induction false} LastIdIsNearest(c: Config, es: seq<Entry>, i: nat)
    requires i <= |es|
    ensures LastId(c, es, i) == "" ==> forall j :: 0 <= j < i ==> FinalId(c, es, j) == ""
    ensures LastId(c, es, i) != "" ==>
              exists k :: 0 <= k < i && LastId(c, es, i) == FinalId(c, es, k) &&
                          forall j :: k < j < i ==> FinalId(c, es, j) == ""
  {
    if i > 0 && FinalId(c, es, i - 1) == "" {
      LastIdIsNearest(c, es, i - 1);
    }
  }

  lemma FinalIds(c: Config, es: seq<Entry>)
    ensures forall i :: 0 <= i < |es| ==> Assigned(c, es)[i].id == FinalId(c, es, i)
  {
  }

  /** In a tree a new entry without a parent is linked to the nearest entry before it that has an id; the first one to
      the pinned leaf, or to nothing on a restart. */
  lemma NewEntriesAreChained(c: Config, es: seq<Entry>, i: nat)
    requires UniqueIds(es) && FreshIds(c, es) && i < |es|
    requires c.tree && Created(es[i]) && es[i].parent == ""
    ensures var out := Assigned(c, es);
            if IsFirst(es, i) && c.restart then out[i].parent == ""
            else if IsFirst(es, i) && c.leaf != "" then out[i].parent == c.leaf
            else if out[i].parent == "" then forall j :: 0 <= j < i ==> out[j].id == ""
            else exists k :: 0 <= k < i && out[k].id == out[i].parent && forall j :: k < j < i ==> out[j].id == ""
  {
    RemapIff(c, es, |es|, "");
    LastIdIsNearest(c, es, i);
    FinalIds(c, es);
    var out := Assigned(c, es);
    if !(IsFirst(es, i) && (c.restart || c.leaf != "")) && out[i].parent != "" {
      var k :| 0 <= k < i && LastId(c, es, i) == FinalId(c, es, k) && forall j :: k < j < i ==> FinalId(c, es, j) == "";
      assert out[k].id == out[i].parent;
    }
  }

  lemma ParentlessPointsBack(c: Config, es: seq<Entry>, i: nat, j: nat)
    requires UniqueIds(es) && FreshIds(c, es) && i < |es| && j < |es|
    requires c.tree && Created(es[i]) && es[i].parent == ""
    requires Assigned(c, es)[i].parent != "" && Assigned(c, es)[i].parent == Assigned(c, es)[j].id
    ensures j < i || (LinksToLeaf(c, es, i) && es[j].id == c.leaf && !NeedsId(c, es[j]))
  {
    NewEntriesAreChained(c, es, i);
    EveryEntryNamed(c, es, i);
    var out := Assigned(c, es);
    if !(IsFirst(es, i) && c.leaf != "") {
      var k :| 0 <= k < i && out[k].id == out[i].parent;
      assert j == k;
    }
  }

  /** A backward-pointing session stays backward-pointing, so acyclic, exactly when the pinned leaf comes before the
      first new entry that would be linked to it. */
  lemma StaysBackward(c: Config, es: seq<Entry>)
    requires UniqueIds(es) && FreshIds(c, es) && Backward(es)
    ensures Backward(Assigned(c, es)) <==> LeafComesFirst(c, es)
  {
    var out := Assigned(c, es);
    if LeafComesFirst(c, es) {
      forall i, j | 0 <= i < |out| && 0 <= j < |out| && out[i].parent != "" && out[i].parent == out[j].id
        ensures j < i
      {
        if es[i].parent != "" {
          LinksFollow(c, es, i, j);
        } else {
          ParentlessGetsOne(c, es, i);
          ParentlessPointsBack(c, es, i, j);
        }
      }
    } else {
      var i, j :| 0 <= i <= j < |es| && LinksToLeaf(c, es, i) && es[j].id == c.leaf && !NeedsId(c, es[j]);
      NewEntriesAreChained(c, es, i);
      assert out[i].parent == out[j].id != "";
    }
  }

  /** A pinned leaf that stands after the first new entry: the session had no link at all, and gets one forward. */
  lemma LeafAfterTheFirstNewEntry()
    ensures var es := [Entry("n1", "", true, None, None, ""), Entry("n2", "", false, None, Some("row"), "")];
            var out := Assigned(SomeAgent("n2"), es);
            && UniqueIds(es) && FreshIds(SomeAgent("n2"), es) && Backward(es) && !LeafComesFirst(SomeAgent("n2"), es)
            && out[0].parent == out[1].id && !Backward(out)
  {
    var c := SomeAgent("n2");
    var es := [Entry("n1", "", true, None, None, ""), Entry("n2", "", false, None, Some("row"), "")];
    var out := Assigned(c, es);
    SomeAgentMintsFresh("n2", es);
    assert "n1"[1] != "n2"[1];
    assert Created(es[0]) && !NeedsId(c, es[0]) && !NeedsId(c, es[1]) && IsFirst(es, 0);
    assert LinksToLeaf(c, es, 0) && es[1].id == c.leaf;
    assert Remap(c, es, 1) == Remap(c, es, 0) == map[] && Remap(c, es, 2) == map[];
    assert out[0].parent == "n2" && out[1].id == "n2";
  }

  lemma ParentlessGetsOne(c: Config, es: seq<Entry>, i: nat)
    requires UniqueIds(es) && i < |es| && es[i].parent == "" && Assigned(c, es)[i].parent != ""
    ensures c.tree && Created(es[i])
  {
    RemapIff(c, es, |es|, "");
  }

  lemma {:induction false} NothingToMint(c: Config, es: seq<Entry>, n: nat)
    requires n <= |es| && forall i :: 0 <= i < |es| ==> !NeedsId(c, es[i])
    ensures Remap(c, es, n) == map[]
  {
    if n > 0 {
      NothingToMint(c, es, n - 1);
    }
  }

  lemma {:induction false} SameLastId(c: Config, es: seq<Entry>, d: Config, out: seq<Entry>, i: nat)
    requires |es| == |out| && i <= |es|
    requires forall j :: 0 <= j < |es| ==> FinalId(c, es, j) == FinalId(d, out, j)
    ensures LastId(c, es, i) == LastId(d, out, i)
  {
    if i > 0 {
      SameLastId(c, es, d, out, i - 1);
    }
  }

  lemma {:induction false} RemapNonEmpty(c: Config, es: seq<Entry>, n: nat)
    requires n <= |es| && forall k: nat :: c.mint(k) != ""
    ensures "" !in Remap(c, es, n) && forall id :: id in Remap(c, es, n) ==> Remap(c, es, n)[id] != ""
  {
    if n > 0 {
      RemapNonEmpty(c, es, n - 1);
    }
  }

  /** Writing again changes nothing, whatever ids the second write would make: repeated ids and dangling links are no
      exception. */
  lemma AssignIsIdempotent(c: Config, d: Config, es: seq<Entry>)
    requires forall k: nat :: c.mint(k) != "" && c.accepts(c.mint(k))
    requires d == c.(mint := d.mint)
    ensures Assigned(d, Assigned(c, es)) == Assigned(c, es)
  {
    var out := Assigned(c, es);
    assert forall i :: 0 <= i < |out| ==> !NeedsId(d, out[i]);
    NothingToMint(d, out, |out|);
    RemapNonEmpty(c, es, |es|);
    forall i | 0 <= i < |out|
      ensures FinalEntry(d, out, i) == out[i]
    {
      SameLastId(c, es, d, out, i);
      assert forall j :: 0 <= j < |es| ==> Created(es[j]) == Created(out[j]);
      assert IsFirst(es, i) == IsFirst(out, i);
    }
  }
}
