/** Parked approvals of driver/codex.go: the map a decision is looked up in, its reverse index by request id, and the
    channel each waiting request is answered on. Taking an approval out of the maps happens under the session's lock,
    answering it afterwards, so those are separate steps. */
module CodexApprovals {

  /** serial tells apart approvals that were given the same key or request id at different times. */
  datatype Approval = Approval(serial: nat, rpc: string, turn: string)

  type Pending = map<string, Approval>
  type Index = map<string, string>

  datatype Step =
    | OnRequest(key: string, rpc: string, turn: string)
    | Resolve(key: string)         // the critical section that takes the approval
    | Settle(serial: nat)          // the answer of a taken approval is sent
    | GiveUp(serial: nat)          // its request's context ends: drop
    | WithdrawTurn(turn: string)   // the critical section of withdraw for an ended turn
    | WithdrawRpc(rpc: string)     // the same for a request codex resolved itself
    | Shutdown                     // closing: everything pending is taken
    | Watch                        // the process is gone: everything pending is taken

  /** keyOf is every approval's key; taken are those owed an answer; settled the answers sent; gaveUp the requests
      that stopped waiting. */
  datatype State = State(
    pending: Pending, byRPC: Index, closing: bool,
    keyOf: seq<string>, taken: set<nat>, settled: seq<nat>, gaveUp: set<nat>)

  const INIT := State(map[], map[], false, [], {}, [], {})

  /** The key an approval is filed under: the item's, or the request's when there is none, made distinct from a
      pending one. */
  function KeyFor(pending: Pending, key: string, rpc: string): string {
    var k := if key == "" then "request-" + rpc else key;
    if k in pending then k + "#" + rpc else k
  }

  function OfTurn(turn: string): Approval -> bool {
    (p: Approval) => p.turn == turn
  }

  function OfRpc(rpc: string): Approval -> bool {
    (p: Approval) => p.rpc == rpc
  }

  function KeysWhere(pending: Pending, drop: Approval -> bool): set<string> {
    set k | k in pending && drop(pending[k])
  }

  function RpcsOf(pending: Pending, keys: set<string>): set<string> {
    set k | k in keys && k in pending :: pending[k].rpc
  }

  function SerialsOf(pending: Pending, keys: set<string>): set<nat> {
    set k | k in keys && k in pending :: pending[k].serial
  }

  function Serials(pending: Pending): set<nat> {
    SerialsOf(pending, pending.Keys)
  }

  function TakeKeys(s: State, keys: set<string>): State {
    s.(pending := s.pending - keys, byRPC := s.byRPC - RpcsOf(s.pending, keys),
       taken := s.taken + SerialsOf(s.pending, keys))
  }

  function Take(s: State, drop: Approval -> bool): State {
    TakeKeys(s, KeysWhere(s.pending, drop))
  }

  function Remove(s: State, key: string): State
    requires key in s.pending
  {
    s.(pending := s.pending - {key}, byRPC := s.byRPC - {s.pending[key].rpc})
  }

  predicate Enabled(s: State, step: Step) {
    match step
    case Settle(n) => n in s.taken
    case GiveUp(n) => n < |s.keyOf|
    case Shutdown => !s.closing
    case _ => true
  }

  function Next(s: State, step: Step): State
    requires Enabled(s, step)
  {
    match step
    case OnRequest(key, rpc, turn) =>
      if s.closing then s
      else
        var k := KeyFor(s.pending, key, rpc);
        s.(pending := s.pending[k := Approval(|s.keyOf|, rpc, turn)], byRPC := s.byRPC[rpc := k],
           keyOf := s.keyOf + [k])
    case Resolve(key) =>
      if key in s.pending then Remove(s, key).(taken := s.taken + {s.pending[key].serial}) else s
    case Settle(n) => s.(taken := s.taken - {n}, settled := s.settled + [n])
    case GiveUp(n) =>
      var t := s.(gaveUp := s.gaveUp + {n});
      if s.keyOf[n] in s.pending then Remove(t, s.keyOf[n]) else t
    case WithdrawTurn(turn) => Take(s, OfTurn(turn))
    case WithdrawRpc(rpc) => Take(s, OfRpc(rpc))
    case Shutdown => s.(closing := true, pending := map[], byRPC := map[], taken := s.taken + Serials(s.pending))
    case Watch => s.(pending := map[], byRPC := map[], taken := s.taken + Serials(s.pending))
  }

  /** byRPC is the exact inverse of pending's request ids. */
  ghost predicate Inverse(pending: Pending, byRPC: Index) {
    && (forall k :: k in pending ==> pending[k].rpc in byRPC && byRPC[pending[k].rpc] == k)
    && (forall r :: r in byRPC ==> byRPC[r] in pending && pending[byRPC[r]].rpc == r)
  }

  /** When a new request keeps the maps inverse to each other: exactly when it overwrites nothing, or overwrites the
      approval of the very request id it reuses. */
  lemma InverseAfterRequest(s: State, key: string, rpc: string, turn: string)
    requires Inverse(s.pending, s.byRPC) && !s.closing
    ensures var t := Next(s, OnRequest(key, rpc, turn));
            var k := KeyFor(s.pending, key, rpc);
            Inverse(t.pending, t.byRPC) <==>
            ((k !in s.pending && rpc !in s.byRPC) || (k in s.pending && s.pending[k].rpc == rpc))
  {
    var t, k := Next(s, OnRequest(key, rpc, turn)), KeyFor(s.pending, key, rpc);
    if k in s.pending && s.pending[k].rpc != rpc {
      assert t.byRPC[s.pending[k].rpc] == k && t.pending[k].rpc == rpc;
    } else if k !in s.pending && rpc in s.byRPC {
      assert t.pending[s.byRPC[rpc]].rpc == rpc && t.byRPC[rpc] == k;
    }
  }

  /** The key can collide in spite of the suffix: an item named like an earlier suffixed key. */
  lemma SuffixedKeyCanCollide(a: Approval, b: Approval)
    ensures KeyFor(map["x" := a, "x#7" := b], "x", "7") == "x#7"
  {
    assert "x" + "#" + "7" == "x#7";
  }

  /** Three requests from the start, with request ids of their own: the third overwrites the first, whose approval is then
      in neither map nor owed an answer, and whose request id leads to the third. */
  lemma SuffixedKeyLosesAnApproval() returns (t: State)
    ensures t == Next(Next(Next(INIT, OnRequest("x#7", "1", "")), OnRequest("x", "2", "")), OnRequest("x", "7", ""))
    ensures |t.keyOf| == 3 && !Inverse(t.pending, t.byRPC) && !Placed(t, 0)
    ensures "1" in t.byRPC && t.byRPC["1"] in t.pending && t.pending[t.byRPC["1"]].serial == 2
  {
    assert "x" + "#" + "7" == "x#7" && |"x"| != |"x#7"|;
    assert "1"[0] != "2"[0] && "1"[0] != "7"[0] && "2"[0] != "7"[0];
    var s1 := Next(INIT, OnRequest("x#7", "1", ""));
    assert s1.pending == map["x#7" := Approval(0, "1", "")];
    var s2 := Next(s1, OnRequest("x", "2", ""));
    assert s2.pending == map["x#7" := Approval(0, "1", ""), "x" := Approval(1, "2", "")];
    t := Next(s2, OnRequest("x", "7", ""));
    assert t.pending == map["x#7" := Approval(2, "7", ""), "x" := Approval(1, "2", "")];
    assert t.byRPC["1"] == "x#7";
    assert forall k <- t.pending :: t.pending[k].serial != 0;
  }

  /** What codex is taken at its word for: a request id is not reused while its request is open, and the item ids name
      one approval each, so the key is new. */
  predicate Fresh(s: State, step: Step) {
    step.OnRequest? && !s.closing ==> step.rpc !in s.byRPC && KeyFor(s.pending, step.key, step.rpc) !in s.keyOf
  }

  ghost predicate Inv(s: State) {
    && Inverse(s.pending, s.byRPC)
       // keys are not reused
    && (forall i, j :: 0 <= i < j < |s.keyOf| ==> s.keyOf[i] != s.keyOf[j])
    && (forall k :: k in s.pending ==> s.pending[k].serial < |s.keyOf| && s.keyOf[s.pending[k].serial] == k)
       // pending, owed and answered are disjoint, and nothing is answered twice
    && (forall k :: k in s.pending ==> s.pending[k].serial !in s.taken && s.pending[k].serial !in s.settled)
    && (forall n :: n in s.taken ==> n < |s.keyOf| && n !in s.settled)
    && (forall n :: n in s.settled ==> n < |s.keyOf|)
    && (forall i, j :: 0 <= i < j < |s.settled| ==> s.settled[i] != s.settled[j])
       // no approval is lost
    && (forall n :: 0 <= n < |s.keyOf| ==> Placed(s, n))
  }

  predicate Placed(s: State, n: nat) {
    n in Serials(s.pending) || n in s.taken || n in s.settled || n in s.gaveUp
  }

  lemma PlacedBySerial(s: State, k: string)
    requires k in s.pending
    ensures Placed(s, s.pending[k].serial)
  {
    assert s.pending[k].serial in Serials(s.pending);
  }

  lemma TakeKeepsInv(s: State, keys: set<string>)
    requires Inv(s)
    ensures Inv(TakeKeys(s, keys))
  {
    var t := TakeKeys(s, keys);
    forall r | r in t.byRPC
      ensures t.byRPC[r] in t.pending && t.pending[t.byRPC[r]].rpc == r
    {
      assert s.byRPC[r] in s.pending && s.pending[s.byRPC[r]].rpc == r;
    }
    forall n | 0 <= n < |s.keyOf|
      ensures Placed(t, n)
    {
      assert Placed(s, n);
      if n in Serials(s.pending) {
        var k :| k in s.pending && s.pending[k].serial == n;
        if k in keys {
          assert n in SerialsOf(s.pending, keys);
        } else {
          PlacedBySerial(t, k);
        }
      }
    }
  }

  lemma AddKeepsInv(s: State, key: string, rpc: string, turn: string)
    requires Inv(s) && Fresh(s, OnRequest(key, rpc, turn)) && !s.closing
    ensures Inv(Next(s, OnRequest(key, rpc, turn)))
  {
    var t, k := Next(s, OnRequest(key, rpc, turn)), KeyFor(s.pending, key, rpc);
    assert k !in s.pending;
    forall n | 0 <= n < |t.keyOf|
      ensures Placed(t, n)
    {
      if n < |s.keyOf| {
        assert Placed(s, n);
        if n in Serials(s.pending) {
          var j :| j in s.pending && s.pending[j].serial == n;
          assert t.pending[j].serial == n;
        }
      } else {
        assert t.pending[k].serial == n;
      }
    }
  }

  lemma RemoveKeepsInv(s: State, key: string, t: State)
    requires Inv(s) && key in s.pending
    requires var n := s.pending[key].serial;
             || t == Remove(s, key).(taken := s.taken + {n})
             || t == Remove(s, key).(gaveUp := s.gaveUp + {n})
    ensures Inv(t)
  {
    forall n | 0 <= n < |t.keyOf|
      ensures Placed(t, n)
    {
      assert Placed(s, n);
      if n in Serials(s.pending) {
        var j :| j in s.pending && s.pending[j].serial == n;
        if j != key {
          PlacedBySerial(t, j);
        }
      }
    }
  }

  lemma MoveKeepsInv(s: State, step: Step)
    requires Inv(s) && Enabled(s, step)
    requires step.Settle? || (step.GiveUp? && s.keyOf[step.serial] !in s.pending)
    ensures Inv(Next(s, step))
  {
    forall n | 0 <= n < |s.keyOf|
      ensures Placed(Next(s, step), n)
    {
      assert Placed(s, n);
    }
  }

  lemma TakeAllKeepsInv(s: State, t: State)
    requires Inv(s)
    requires t == s.(closing := t.closing, pending := map[], byRPC := map[], taken := s.taken + Serials(s.pending))
    ensures Inv(t)
  {
    forall n | 0 <= n < |t.keyOf|
      ensures Placed(t, n)
    {
      assert Placed(s, n);
    }
  }

  lemma NextKeepsInv(s: State, step: Step)
    requires Inv(s) && Enabled(s, step) && Fresh(s, step)
    ensures Inv(Next(s, step))
  {
    match step
    case OnRequest(key, rpc, turn) =>
      if !s.closing { AddKeepsInv(s, key, rpc, turn); }
    case Resolve(key) =>
      if key in s.pending { RemoveKeepsInv(s, key, Next(s, step)); }
    case Settle(n) => MoveKeepsInv(s, step);
    case GiveUp(n) =>
      if s.keyOf[n] in s.pending {
        assert s.pending[s.keyOf[n]].serial == n;
        RemoveKeepsInv(s, s.keyOf[n], Next(s, step));
      } else {
        MoveKeepsInv(s, step);
      }
    case WithdrawTurn(turn) => TakeKeepsInv(s, KeysWhere(s.pending, OfTurn(turn)));
    case WithdrawRpc(rpc) => TakeKeepsInv(s, KeysWhere(s.pending, OfRpc(rpc)));
    case Shutdown => TakeAllKeepsInv(s, Next(s, step));
    case Watch => TakeAllKeepsInv(s, Next(s, step));
  }

  ghost predicate Reaches(s: State, steps: seq<Step>, t: State)
    decreases |steps|
  {
    if steps == [] then s == t
    else Enabled(s, steps[0]) && Fresh(s, steps[0]) && Reaches(Next(s, steps[0]), steps[1..], t)
  }

  lemma {:induction false} RunKeepsInv(s: State, steps: seq<Step>, t: State)
    requires Inv(s) && Reaches(s, steps, t)
    ensures Inv(t)
    decreases |steps|
  {
    if steps != [] {
      NextKeepsInv(s, steps[0]);
      RunKeepsInv(Next(s, steps[0]), steps[1..], t);
    }
  }

  /** Every interleaving: the two maps stay inverse; no approval is answered twice; one that is owed or was sent an
      answer is no longer pending; and each is pending, owed an answer, answered, or given up by its own request. */
  lemma ApprovalsAnsweredOnce(steps: seq<Step>, s: State, n: nat)
    requires Reaches(INIT, steps, s) && n < |s.keyOf|
    ensures Inverse(s.pending, s.byRPC)
    ensures multiset(s.settled)[n] <= 1
    ensures n in s.settled || n in s.taken ==> n !in Serials(s.pending)
    ensures Placed(s, n)
  {
    RunKeepsInv(INIT, steps, s);
    DistinctCount(s.settled, n);
  }

  lemma {:induction false} DistinctCount(xs: seq<nat>, n: nat)
    requires forall i, j :: 0 <= i < j < |xs| ==> xs[i] != xs[j]
    ensures multiset(xs)[n] <= 1
    decreases |xs|
  {
    if xs != [] {
      var init := xs[..|xs| - 1];
      assert xs == init + [xs[|xs| - 1]];
      DistinctCount(init, n);
      assert forall x :: x in multiset(init) ==> x in init;
    }
  }

  /** After the withdrawal at a turn's end nothing of that turn is pending, what was is owed its cancellation, and
      nothing else changed hands. */
  lemma TurnEndWithdraws(s: State, turn: string)
    requires Inv(s)
    ensures var t := Next(s, WithdrawTurn(turn));
            && (forall k :: k in t.pending ==> t.pending[k].turn != turn)
            && (forall k :: k in s.pending ==>
                  if s.pending[k].turn == turn then s.pending[k].serial in t.taken
                  else k in t.pending && t.pending[k] == s.pending[k])
            && (forall n :: n in t.taken ==>
                  n in s.taken || exists k :: k in s.pending && s.pending[k].serial == n && s.pending[k].turn == turn)
  {
    var keys := KeysWhere(s.pending, OfTurn(turn));
    forall k | k in s.pending && s.pending[k].turn == turn
      ensures s.pending[k].serial in SerialsOf(s.pending, keys)
    {
      assert k in keys;
    }
  }

  /** The step is for approval a, filed under key: a decision, its own request ending, its turn's end, its request id, or
      the end of everything. */
  predicate Addresses(step: Step, key: string, a: Approval) {
    match step
    case Resolve(k) => k == key
    case GiveUp(n) => n == a.serial
    case WithdrawTurn(turn) => turn == a.turn
    case WithdrawRpc(rpc) => rpc == a.rpc
    case Shutdown => true
    case Watch => true
    case _ => false
  }

  lemma StepTakesIff(s: State, step: Step, key: string)
    requires Inv(s) && Enabled(s, step) && Fresh(s, step) && key in s.pending
    ensures var t, a := Next(s, step), s.pending[key];
            && (key in t.pending <==> !Addresses(step, key, a)) && (key in t.pending ==> t.pending[key] == a)
            && (a.serial in t.taken <==> Addresses(step, key, a) && !step.GiveUp?)
  {
    var a := s.pending[key];
    match step
    case WithdrawTurn(turn) => TakenAre(s, OfTurn(turn), key);
    case WithdrawRpc(rpc) => TakenAre(s, OfRpc(rpc), key);
    case Resolve(k) => assert k in s.pending && s.pending[k].serial == a.serial ==> k == key;
    case GiveUp(n) => assert s.keyOf[n] == key <==> n == a.serial;
    case Shutdown => PlacedBySerial(s, key);
    case Watch => PlacedBySerial(s, key);
    case _ =>
  }

  lemma TakenAre(s: State, drop: Approval -> bool, key: string)
    requires Inv(s) && key in s.pending
    ensures key in Take(s, drop).pending <==> !drop(s.pending[key])
    ensures s.pending[key].serial in Take(s, drop).taken <==> drop(s.pending[key])
  {
    var keys := KeysWhere(s.pending, drop);
    if s.pending[key].serial in SerialsOf(s.pending, keys) {
      var k :| k in keys && k in s.pending && s.pending[k].serial == s.pending[key].serial;
      assert k == key;
    }
  }

  /** A key once used is not used again. */
  lemma {:induction false} GoneForGood(s: State, steps: seq<Step>, t: State, key: string)
    requires Reaches(s, steps, t) && key in s.keyOf && key !in s.pending
    ensures key !in t.pending
    decreases |steps|
  {
    if steps != [] {
      var u := Next(s, steps[0]);
      var i :| 0 <= i < |s.keyOf| && s.keyOf[i] == key;
      assert u.keyOf[i] == key;
      GoneForGood(u, steps[1..], t, key);
    }
  }

  lemma {:induction false} PendingUntilAddressed(s: State, steps: seq<Step>, t: State, key: string)
    requires Inv(s) && Reaches(s, steps, t) && key in s.pending
    ensures key in t.pending <==> forall step <- steps :: !Addresses(step, key, s.pending[key])
    ensures key in t.pending ==> t.pending[key] == s.pending[key]
    decreases |steps|
  {
    if steps != [] {
      var a, u := s.pending[key], Next(s, steps[0]);
      NextKeepsInv(s, steps[0]);
      StepTakesIff(s, steps[0], key);
      if Addresses(steps[0], key, a) {
        assert s.keyOf[a.serial] == key;
        assert u.keyOf == s.keyOf;
        GoneForGood(u, steps[1..], t, key);
        assert steps[0] in steps;
      } else {
        PendingUntilAddressed(u, steps[1..], t, key);
        assert forall step <- steps :: step == steps[0] || step in steps[1..];
      }
    }
  }

  /** A request that comes before the session closes is filed, and over every run after it can be answered until, and only
      until, something is addressed to it. */
  lemma FiledUntilAddressed(before: seq<Step>, s: State, key: string, rpc: string, turn: string, steps: seq<Step>, t: State)
    requires Reaches(INIT, before, s) && Fresh(s, OnRequest(key, rpc, turn)) && !s.closing
    requires Reaches(Next(s, OnRequest(key, rpc, turn)), steps, t)
    ensures |t.keyOf| > |s.keyOf|
    ensures var k, a := t.keyOf[|s.keyOf|], Approval(|s.keyOf|, rpc, turn);
            && (k in t.pending <==> forall step <- steps :: !Addresses(step, k, a))
            && (k in t.pending ==> t.pending[k] == a && rpc in t.byRPC && t.byRPC[rpc] == k)
            && k !in s.pending && (key != "" && key !in s.pending ==> k == key)
  {
    RunKeepsInv(INIT, before, s);
    var u := Next(s, OnRequest(key, rpc, turn));
    NextKeepsInv(s, OnRequest(key, rpc, turn));
    KeysStay(u, steps, t, |s.keyOf|);
    RunKeepsInv(u, steps, t);
    PendingUntilAddressed(u, steps, t, u.keyOf[|s.keyOf|]);
  }

  lemma {:induction false} KeysStay(s: State, steps: seq<Step>, t: State, n: nat)
    requires Reaches(s, steps, t) && n < |s.keyOf|
    ensures n < |t.keyOf| && t.keyOf[n] == s.keyOf[n]
    decreases |steps|
  {
    if steps != [] {
      KeysStay(Next(s, steps[0]), steps[1..], t, n);
    }
  }

  lemma TakeOneMore(s: State, keys: set<string>, key: string)
    requires key in s.pending && key !in keys
    ensures TakeKeys(s, keys + {key}) ==
            Remove(TakeKeys(s, keys), key).(taken := TakeKeys(s, keys).taken + {s.pending[key].serial})
  {
    assert RpcsOf(s.pending, keys + {key}) == RpcsOf(s.pending, keys) + {s.pending[key].rpc};
    assert SerialsOf(s.pending, keys + {key}) == SerialsOf(s.pending, keys) + {s.pending[key].serial};
    assert TakeKeys(s, keys + {key}).pending == TakeKeys(s, keys).pending - {key};
    assert TakeKeys(s, keys + {key}).byRPC == TakeKeys(s, keys).byRPC - {s.pending[key].rpc};
  }

  /** codexSession's approval fields. */
  class Session {
    var pending: Pending
    var byRPC: Index
    var closing: bool
    ghost var keyOf: seq<string>
    ghost var taken: set<nat>
    ghost var settled: seq<nat>
    ghost var gaveUp: set<nat>
    var serial: nat // the number of approvals filed

    ghost predicate Valid()
      reads this
    {
      serial == |keyOf|
    }

    ghost function View(): State
      reads this
    {
      State(pending, byRPC, closing, keyOf, taken, settled, gaveUp)
    }

    constructor ()
      ensures Valid() && View() == INIT
    {
      pending, byRPC, closing, serial := map[], map[], false, 0;
      keyOf, taken, settled, gaveUp := [], {}, [], {};
    }

    /** filed is false when the session is closing and the request is answered at once. */
    method OnRequest(itemKey: string, rpc: string, turn: string) returns (filed: bool, key: string)
      requires Valid()
      modifies this
      ensures Valid() && View() == Next(old(View()), Step.OnRequest(itemKey, rpc, turn))
      ensures filed == !old(closing)
      ensures filed ==> key in pending && pending[key].rpc == rpc && pending[key].turn == turn
    {
      key := itemKey;
      if closing {
        return false, key;
      }
      if key == "" {
        key := "request-" + rpc;
      }
      if key in pending {
        key := key + "#" + rpc;
      }
      pending := pending[key := Approval(serial, rpc, turn)];
      byRPC := byRPC[rpc := key];
      serial := serial + 1;
      keyOf := keyOf + [key];
      return true, key;
    }

    method Resolve(key: string) returns (ok: bool)
      requires Valid()
      modifies this
      ensures Valid() && View() == Next(old(View()), Step.Resolve(key))
      ensures ok == (key in old(pending))
    {
      ok := key in pending;
      if ok {
        var p := pending[key];
        pending := pending - {key};
        byRPC := byRPC - {p.rpc};
        taken := taken + {p.serial};
      }
    }

    method Settle(n: nat)
      requires Valid() && Enabled(View(), Step.Settle(n))
      modifies this
      ensures Valid() && View() == Next(old(View()), Step.Settle(n))
    {
      taken := taken - {n};
      settled := settled + [n];
    }

    /** drop, for the request that was filed under key. */
    method Drop(key: string, ghost n: nat)
      requires Valid() && Enabled(View(), GiveUp(n)) && keyOf[n] == key
      modifies this
      ensures Valid() && View() == Next(old(View()), GiveUp(n))
    {
      gaveUp := gaveUp + {n};
      if key in pending {
        byRPC := byRPC - {pending[key].rpc};
        pending := pending - {key};
      }
    }

    /** withdraw's critical section: the approvals that match leave both maps; gone are the keys it takes. */
    method Withdraw(drop: Approval -> bool) returns (gone: set<string>)
      requires Valid()
      modifies this
      ensures Valid() && View() == Take(old(View()), drop)
      ensures gone == KeysWhere(old(pending), drop)
    {
      gone := {};
      var left := pending.Keys;
      while left != {}
        invariant left <= old(pending).Keys
        invariant gone == KeysWhere(old(pending), drop) - left
        invariant View() == TakeKeys(old(View()), gone) && Valid()
        decreases left
      {
        var key :| key in left;
        var p := pending[key];
        if drop(p) {
          TakeOneMore(old(View()), gone, key);
          gone := gone + {key};
          pending := pending - {key};
          byRPC := byRPC - {p.rpc};
          taken := taken + {p.serial};
        }
        left := left - {key};
      }
    }

    method Shutdown() returns (orphans: Pending)
      requires Valid() && !closing
      modifies this
      ensures Valid() && View() == Next(old(View()), Step.Shutdown) && orphans == old(pending)
    {
      closing := true;
      orphans := pending;
      taken := taken + Serials(pending);
      pending := map[];
      byRPC := map[];
    }

    method Watch() returns (orphans: Pending)
      requires Valid()
      modifies this
      ensures Valid() && View() == Next(old(View()), Step.Watch) && orphans == old(pending)
    {
      orphans := pending;
      taken := taken + Serials(pending);
      pending := map[];
      byRPC := map[];
    }
  }
}
