/** The conversations kept running between calls: take, settle, the idle timer and Close of llm/claude.go, which
    llm/harness.go has line for line. Each step is one hold of the pool's mutex or something that needs none: a timer
    going off, a process ending, a close that some goroutine is committed to. */
module Pool {
  import opened Options

  /** A conversation's idle timer. Fired is its callback running and yet to get the mutex. */
  datatype Timer = NoTimer | Armed(key: string) | Fired(key: string) | Stopped

  /** Who is going to close a conversation, or has. */
  datatype Closer = ByCall | ByTimer | ByReplacement | ByPool | ByItself

  /** dead: its process has ended, or (harness) it has closed itself. */
  datatype Conv = Conv(timer: Timer, closers: set<Closer>, done: bool, dead: bool)

  datatype State = State(live: map<string, nat>, closed: bool, inUse: map<nat, nat>, convs: seq<Conv>)

  const EMPTY := State(map[], false, map[], [])

  datatype Step =
    | Take(call: nat, key: string)
    | Launch(call: nat)
    | Refuse(call: nat)
    | Settle(call: nat, key: string, failed: bool, keep: bool)
    | Fire(k: nat)
    | Expire(k: nat)
    | Finish(k: nat)
    | Close
    | Die(k: nat)
    | CloseItself(k: nat)

  predicate Enabled(s: State, step: Step) {
    match step
    case Take(call, _) => call !in s.inUse && LiveInRange(s)
    case Launch(call) => call !in s.inUse
    case Refuse(call) => call in s.inUse && s.inUse[call] < |s.convs|
    case Settle(call, _, _, _) => call in s.inUse && s.inUse[call] < |s.convs| && LiveInRange(s)
    case Fire(k) => k < |s.convs| && s.convs[k].timer.Armed?
    case Expire(k) => k < |s.convs| && s.convs[k].timer.Fired?
    case Finish(k) => k < |s.convs| && s.convs[k].closers != {} && !s.convs[k].done
    case Close => LiveInRange(s)
    case Die(k) => k < |s.convs| && !s.convs[k].dead
    case CloseItself(k) => k < |s.convs| && !s.convs[k].dead
  }

  predicate LiveInRange(s: State) {
    forall key <- s.live :: s.live[key] < |s.convs|
  }

  function ClosedBy(c: Conv, who: Closer): Conv {
    c.(closers := c.closers + {who})
  }

  /** take on a key that has a conversation: whether it is handed out, and what becomes of its timer. */
  predicate HandsOut(c: Conv) {
    (c.timer.NoTimer? || c.timer.Armed?) && !c.dead
  }

  function StopTimer(t: Timer): Timer {
    if t.Armed? then Stopped else t
  }

  function AfterTake(s: State, call: nat, key: string): State
    requires Enabled(s, Take(call, key))
  {
    if key == "" || key !in s.live then s
    else
      var k := s.live[key];
      var c := s.convs[k];
      s.(live := s.live - {key},
      convs := s.convs[k := c.(timer := StopTimer(c.timer))],
      inUse := if HandsOut(c) then s.inUse[call := k] else s.inUse)
  }

  function AfterSettle(s: State, call: nat, key: string, failed: bool, keep: bool): State
    requires Enabled(s, Settle(call, key, failed, keep))
  {
    var k := s.inUse[call];
    var t := s.(inUse := s.inUse - {call});
    if failed || key == "" || !keep || s.closed then t.(convs := t.convs[k := ClosedBy(t.convs[k], ByCall)])
    else
      var convs := if key in t.live then t.convs[t.live[key] := ClosedBy(t.convs[t.live[key]], ByReplacement)]
                   else t.convs;
      t.(live := t.live[key := k], convs := convs[k := convs[k].(timer := Armed(key))])
  }

  function AfterExpire(s: State, k: nat): State
    requires Enabled(s, Expire(k))
  {
    var key := s.convs[k].timer.key;
    s.(live := if key in s.live && s.live[key] == k then s.live - {key} else s.live,
    convs := s.convs[k := ClosedBy(s.convs[k].(timer := Stopped), ByTimer)])
  }

  function AfterClose(s: State): State
    requires LiveInRange(s)
  {
    s.(live := map[], closed := true,
    convs := seq(|s.convs|, k requires 0 <= k < |s.convs| =>
                 if k in s.live.Values then ClosedBy(s.convs[k], ByPool) else s.convs[k]))
  }

  function Next(s: State, step: Step): State
    requires Enabled(s, step)
  {
    match step
    case Take(call, key) => AfterTake(s, call, key)
    case Launch(call) =>
      s.(inUse := s.inUse[call := |s.convs|], convs := s.convs + [Conv(NoTimer, {}, false, false)])
    case Refuse(call) =>
      var k := s.inUse[call];
      s.(inUse := s.inUse - {call}, convs := s.convs[k := ClosedBy(s.convs[k], ByCall)])
    case Settle(call, key, failed, keep) => AfterSettle(s, call, key, failed, keep)
    case Fire(k) => s.(convs := s.convs[k := s.convs[k].(timer := Fired(s.convs[k].timer.key))])
    case Expire(k) => AfterExpire(s, k)
    case Finish(k) => s.(convs := s.convs[k := s.convs[k].(done := true, timer := StopTimer(s.convs[k].timer))])
    case Close => AfterClose(s)
    case Die(k) => s.(convs := s.convs[k := s.convs[k].(dead := true)])
    case CloseItself(k) => s.(convs := s.convs[k := ClosedBy(s.convs[k].(dead := true), ByItself)])
  }

  /** The pool as the methods see it. The conversations are numbered in the order they were started. */
  class ClaudePool {
    var live: map<string, nat>
    var closed: bool
    var inUse: map<nat, nat>
    var convs: seq<Conv>

    function View(): State
      reads this
    {
      State(live, closed, inUse, convs)
    }

    constructor ()
      ensures View() == EMPTY
    {
      live, closed, inUse, convs := map[], false, map[], [];
    }

    method Take(call: nat, key: string) returns (conv: Option<nat>)
      requires Enabled(View(), Step.Take(call, key))
      modifies this
      ensures View() == Next(old(View()), Step.Take(call, key))
      ensures conv == if call in inUse then Some(inUse[call]) else None
    {
      if key == "" || key !in live {
        return None;
      }
      var k := live[key];
      live := live - {key};
      var stopped := convs[k].timer.NoTimer? || convs[k].timer.Armed?;
      convs := convs[k := convs[k].(timer := StopTimer(convs[k].timer))];
      if !stopped || convs[k].dead {
        return None;
      }
      inUse := inUse[call := k];
      conv := Some(k);
    }

    method Settle(call: nat, key: string, failed: bool, idle: int)
      requires Enabled(View(), Step.Settle(call, key, failed, idle >= 0))
      modifies this
      ensures View() == Next(old(View()), Step.Settle(call, key, failed, idle >= 0))
    {
      var k := inUse[call];
      inUse := inUse - {call};
      if failed || key == "" || idle < 0 || closed {
        convs := convs[k := ClosedBy(convs[k], ByCall)];
        return;
      }
      if key in live {
        convs := convs[live[key] := ClosedBy(convs[live[key]], ByReplacement)];
      }
      live := live[key := k];
      convs := convs[k := convs[k].(timer := Armed(key))];
    }

    /** The timer's callback: the pool forgets the conversation unless another has its key, and closes it. */
    method Expire(k: nat)
      requires Enabled(View(), Step.Expire(k))
      modifies this
      ensures View() == Next(old(View()), Step.Expire(k))
    {
      var key := convs[k].timer.key;
      if key in live && live[key] == k {
        live := live - {key};
      }
      convs := convs[k := ClosedBy(convs[k].(timer := Stopped), ByTimer)];
    }

    method Close()
      requires LiveInRange(View())
      modifies this
      ensures View() == Next(old(View()), Step.Close)
    {
      var left := live;
      live, closed := map[], true;
      while left != map[]
        invariant left.Keys <= old(live).Keys && forall key <- left :: left[key] == old(live)[key]
        invariant live == map[] && closed && inUse == old(inUse) && |convs| == |old(convs)|
        invariant forall k :: 0 <= k < |convs| ==>
                    convs[k] == if exists key :: key in old(live) && key !in left && old(live)[key] == k
                                then ClosedBy(old(convs)[k], ByPool) else old(convs)[k]
        decreases |left|
      {
        var key :| key in left;
        var k := left[key];
        convs := convs[k := ClosedBy(convs[k], ByPool)];
        left := left - {key};
      }
    }
  }

  // Invariant.

  predicate Using(s: State, k: nat) {
    k in s.inUse.Values
  }

  predicate Keeping(s: State, k: nat) {
    k in s.live.Values
  }

  /** Nobody has it and nobody will close it. */
  predicate Lost(s: State, k: nat)
    requires k < |s.convs|
  {
    Loose(s, k) && s.convs[k].closers == {} && !s.convs[k].timer.Fired?
  }

  predicate Loose(s: State, k: nat) {
    !Using(s, k) && !Keeping(s, k)
  }

  predicate UsedWell(c: Conv) {
    c.closers <= {ByItself} && (c.timer.NoTimer? || c.timer.Stopped?)
  }

  predicate KeptWell(c: Conv, key: string) {
    && c.closers <= {ByItself}
    && (c.timer == Armed(key) || c.timer == Fired(key) || (c.timer.Stopped? && ByItself in c.closers))
  }

  predicate LooseWell(c: Conv) {
    && (c.timer.Armed? ==> c.closers != {})
    && (c.closers == {} ==> c.timer.Fired? || c.dead)
  }

  ghost predicate Well(s: State, k: nat)
    requires k < |s.convs|
  {
    var c := s.convs[k];
    && (Using(s, k) ==> UsedWell(c))
    && (forall key <- s.live :: s.live[key] == k ==> KeptWell(c, key))
    && (Loose(s, k) ==> LooseWell(c))
    && (c.done ==> c.closers != {})
    && (ByItself in c.closers ==> c.dead)
  }

  /** One owner each: a call, or a key of the pool; and no key once the pool is closed. */
  ghost predicate Owners(s: State) {
    && LiveInRange(s)
    && (forall call <- s.inUse :: s.inUse[call] < |s.convs|)
    && (forall a, b :: a in s.inUse && b in s.inUse && a != b ==> s.inUse[a] != s.inUse[b])
    && (forall a, b :: a in s.live && b in s.live && a != b ==> s.live[a] != s.live[b])
    && (forall call, key :: call in s.inUse && key in s.live ==> s.inUse[call] != s.live[key])
    && (s.closed ==> s.live == map[])
  }

  ghost predicate Inv(s: State) {
    Owners(s) && forall k: nat :: k < |s.convs| ==> Well(s, k)
  }

  /** A step that hands over only the conversations in moved. */
  ghost predicate HandsOver(s: State, t: State, moved: set<nat>) {
    && (forall call <- s.inUse :: s.inUse[call] in moved || (call in t.inUse && t.inUse[call] == s.inUse[call]))
    && (forall call <- t.inUse :: t.inUse[call] in moved || (call in s.inUse && t.inUse[call] == s.inUse[call]))
    && (forall key <- s.live :: s.live[key] in moved || (key in t.live && t.live[key] == s.live[key]))
    && (forall key <- t.live :: t.live[key] in moved || (key in s.live && t.live[key] == s.live[key]))
  }

  lemma OthersStay(s: State, t: State, moved: set<nat>, k: nat)
    requires HandsOver(s, t, moved) && k !in moved
    ensures Using(t, k) <==> Using(s, k)
    ensures Keeping(t, k) <==> Keeping(s, k)
  {
    if Using(s, k) {
      var call :| call in s.inUse && s.inUse[call] == k;
      assert t.inUse[call] == k;
    }
    if Keeping(s, k) {
      var key :| key in s.live && s.live[key] == k;
      assert t.live[key] == k;
    }
  }

  lemma OthersStayWell(s: State, t: State, moved: set<nat>)
    requires Inv(s) && |t.convs| >= |s.convs| && HandsOver(s, t, moved)
    requires forall k: nat :: k < |s.convs| && k !in moved ==> t.convs[k] == s.convs[k]
    ensures forall k: nat :: k < |s.convs| && k !in moved ==> Well(t, k)
  {
    forall k: nat | k < |s.convs| && k !in moved ensures Well(t, k) {
      assert Well(s, k);
      OthersStay(s, t, moved, k);
    }
  }

  lemma TakeKeepsInv(s: State, call: nat, key: string)
    requires Inv(s) && Enabled(s, Take(call, key))
    ensures Inv(Next(s, Take(call, key)))
  {
    var t := Next(s, Take(call, key));
    if key != "" && key in s.live {
      var k := s.live[key];
      OthersStayWell(s, t, {k});
      assert Well(s, k) && !Keeping(t, k);
      assert HandsOut(s.convs[k]) ==> t.inUse[call] == k;
      assert Well(t, k);
    }
  }

  predicate SettleCloses(s: State, step: Step)
    requires step.Settle?
  {
    step.failed || step.key == "" || !step.keep || s.closed
  }

  lemma SettleClosingKeepsInv(s: State, step: Step)
    requires Inv(s) && step.Settle? && Enabled(s, step) && SettleCloses(s, step)
    ensures Inv(Next(s, step))
  {
    var k := s.inUse[step.call];
    assert Well(s, k);
    OthersStayWell(s, Next(s, step), {k});
  }

  /** The conversation settled, and the one it replaces if any. */
  function Settled(s: State, step: Step): set<nat>
    requires step.Settle? && step.call in s.inUse
  {
    {s.inUse[step.call]} + if step.key in s.live then {s.live[step.key]} else {}
  }

  lemma SettleKeepingOwners(s: State, step: Step)
    requires Inv(s) && step.Settle? && Enabled(s, step) && !SettleCloses(s, step)
    ensures Owners(Next(s, step)) && HandsOver(s, Next(s, step), Settled(s, step))
    ensures !Using(Next(s, step), s.inUse[step.call]) && Keeping(Next(s, step), s.inUse[step.call])
    ensures step.key in s.live ==> Loose(Next(s, step), s.live[step.key])
  {
    assert Next(s, step).live[step.key] == s.inUse[step.call];
  }

  lemma SettleKeepingKeepsInv(s: State, step: Step)
    requires Inv(s) && step.Settle? && Enabled(s, step) && !SettleCloses(s, step)
    ensures Inv(Next(s, step))
  {
    var t := Next(s, step);
    var k := s.inUse[step.call];
    SettleKeepingOwners(s, step);
    OthersStayWell(s, t, Settled(s, step));
    assert Using(s, k) && Well(s, k);
    assert Well(t, k);
    if step.key in s.live {
      assert Well(s, s.live[step.key]);
      assert Well(t, s.live[step.key]);
    }
  }

  lemma RefuseKeepsInv(s: State, call: nat)
    requires Inv(s) && Enabled(s, Refuse(call))
    ensures Inv(Next(s, Refuse(call)))
  {
    var k := s.inUse[call];
    OthersStayWell(s, Next(s, Refuse(call)), {k});
    assert Well(s, k);
  }

  lemma LaunchKeepsInv(s: State, call: nat)
    requires Inv(s) && Enabled(s, Launch(call))
    ensures Inv(Next(s, Launch(call)))
  {
    var t := Next(s, Launch(call));
    OthersStayWell(s, t, {|s.convs|});
    assert t.inUse[call] == |s.convs|;
  }

  lemma ExpireKeepsInv(s: State, k: nat)
    requires Inv(s) && Enabled(s, Expire(k))
    ensures Inv(Next(s, Expire(k)))
  {
    var t := Next(s, Expire(k));
    assert Well(s, k);
    OthersStayWell(s, t, {k});
    assert Loose(t, k) && Well(t, k);
  }

  lemma CloseKeepsInv(s: State)
    requires Inv(s)
    ensures Inv(Next(s, Close))
  {
    var t := Next(s, Close);
    OthersStayWell(s, t, s.live.Values);
    forall k: nat | k < |s.convs| && k in s.live.Values ensures Well(t, k) {
      assert Well(s, k);
    }
  }

  lemma QuietStepsKeepInv(s: State, step: Step)
    requires Inv(s) && Enabled(s, step) && (step.Fire? || step.Finish? || step.Die? || step.CloseItself?)
    ensures Inv(Next(s, step))
  {
    var t := Next(s, step);
    assert Well(s, step.k);
    OthersStayWell(s, t, {step.k});
    assert Well(t, step.k);
  }

  lemma NextKeepsInv(s: State, step: Step)
    requires Inv(s) && Enabled(s, step)
    ensures Inv(Next(s, step))
  {
    match step
    case Take(call, key) => TakeKeepsInv(s, call, key);
    case Settle(_, _, _, _) =>
      if SettleCloses(s, step) { SettleClosingKeepsInv(s, step); } else { SettleKeepingKeepsInv(s, step); }
    case Launch(call) => LaunchKeepsInv(s, call);
    case Refuse(call) => RefuseKeepsInv(s, call);
    case Expire(k) => ExpireKeepsInv(s, k);
    case Close => CloseKeepsInv(s);
    case _ => QuietStepsKeepInv(s, step);
  }

  ghost predicate Reaches(s: State, steps: seq<Step>, t: State)
    decreases |steps|
  {
    if steps == [] then s == t else Enabled(s, steps[0]) && Reaches(Next(s, steps[0]), steps[1..], t)
  }

  lemma {:induction false} Run(s: State, steps: seq<Step>, t: State)
    requires Inv(s) && Reaches(s, steps, t)
    ensures Inv(t)
    decreases |steps|
  {
    if steps != [] {
      NextKeepsInv(s, steps[0]);
      Run(Next(s, steps[0]), steps[1..], t);
    }
  }

  /** No conversation is used by two calls, or by a call and kept for another; one in use is closed by neither its
      timer, nor the pool, nor a replacement; and nothing is kept once the pool is closed. */
  lemma ExclusiveUse(steps: seq<Step>, t: State)
    requires Reaches(EMPTY, steps, t)
    ensures forall a, b :: a in t.inUse && b in t.inUse && t.inUse[a] == t.inUse[b] ==> a == b
    ensures forall call <- t.inUse :: !Keeping(t, t.inUse[call]) && t.inUse[call] < |t.convs|
    ensures forall call <- t.inUse ::
              var c := t.convs[t.inUse[call]];
              c.closers <= {ByItself} && !c.timer.Armed? && !c.timer.Fired? && (c.done ==> c.dead)
    ensures t.closed ==> t.live == map[]
  {
    Run(EMPTY, steps, t);
    forall call | call in t.inUse
      ensures !Keeping(t, t.inUse[call])
      ensures var c := t.convs[t.inUse[call]];
              c.closers <= {ByItself} && !c.timer.Armed? && !c.timer.Fired? && (c.done ==> c.dead) {
      assert Using(t, t.inUse[call]) && Well(t, t.inUse[call]);
      assert t.convs[t.inUse[call]].done ==> ByItself in t.convs[t.inUse[call]].closers;
    }
  }

  lemma {:induction false} ClosedStays(s: State, steps: seq<Step>, t: State)
    requires Reaches(s, steps, t) && s.closed
    ensures t.closed
    decreases |steps|
  {
    if steps != [] {
      ClosedStays(Next(s, steps[0]), steps[1..], t);
    }
  }

  /** Nothing enters the pool after Close. */
  lemma NothingEntersAfterClose(before: seq<Step>, s: State, after: seq<Step>, t: State)
    requires Reaches(EMPTY, before, s) && Enabled(s, Close) && Reaches(Next(s, Close), after, t)
    ensures t.live == map[]
  {
    Run(EMPTY, before, s);
    NextKeepsInv(s, Close);
    Run(Next(s, Close), after, t);
    ClosedStays(Next(s, Close), after, t);
  }

  /** take takes what is kept on the key off it, and the call has it exactly when its timer had not gone off and its
      process was alive; every other call keeps what it has. */
  lemma TakeHandsOutIff(s: State, call: nat, key: string)
    requires Inv(s) && Enabled(s, Take(call, key)) && key != "" && key in s.live
    ensures var k, t := s.live[key], Next(s, Take(call, key));
            && key !in t.live
            && (call in t.inUse && t.inUse[call] == k <==> s.convs[k].timer.Armed? && !s.convs[k].dead)
            && (forall other <- t.inUse :: other == call || (other in s.inUse && s.inUse[other] == t.inUse[other]))
            && (forall other <- s.live :: other != key ==> other in t.live && t.live[other] == s.live[other])
  {
    assert Well(s, s.live[key]);
  }

  /** What takes a conversation kept on a key away from the next call on it, or puts another in its place. */
  predicate Disturbs(step: Step, key: string, k: nat) {
    match step
    case Take(_, on) => on == key
    case Settle(_, on, _, _) => on == key
    case Fire(i) => i == k
    case Close => true
    case Die(i) => i == k
    case CloseItself(i) => i == k
    case _ => false
  }

  predicate KeptAlive(s: State, key: string, k: nat) {
    && key in s.live && s.live[key] == k && k < |s.convs|
    && s.convs[k].timer == Armed(key) && !s.convs[k].dead
  }

  lemma UndisturbedStaysKept(s: State, step: Step, key: string, k: nat)
    requires Inv(s) && Enabled(s, step) && KeptAlive(s, key, k) && !Disturbs(step, key, k)
    ensures KeptAlive(Next(s, step), key, k)
  {
    assert Well(s, k);
    if step.Settle? || step.Refuse? {
      assert s.inUse[step.call] != k;
    }
    if step.Take? && step.key in s.live {
      assert s.live[step.key] != k;
    }
    if step.Settle? && step.key in s.live {
      assert s.live[step.key] != k;
    }
  }

  lemma {:induction false} UndisturbedRunStaysKept(s: State, steps: seq<Step>, t: State, key: string, k: nat)
    requires Inv(s) && Reaches(s, steps, t) && KeptAlive(s, key, k)
    requires forall i :: 0 <= i < |steps| ==> !Disturbs(steps[i], key, k)
    ensures Inv(t) && KeptAlive(t, key, k)
    decreases |steps|
  {
    if steps != [] {
      UndisturbedStaysKept(s, steps[0], key, k);
      NextKeepsInv(s, steps[0]);
      UndisturbedRunStaysKept(Next(s, steps[0]), steps[1..], t, key, k);
    }
  }

  /** A call that ends well leaves its conversation to the next one on its key: when nothing else comes on the key, its
      timer does not go off, the pool is not closed and its process lives, the next take gets that very conversation. */
  lemma NextCallContinues(
      before: seq<Step>, s: State, call: nat, key: string, between: seq<Step>, t: State, nextCall: nat)
    requires Reaches(EMPTY, before, s) && Enabled(s, Settle(call, key, false, true))
    requires key != "" && !s.closed && !s.convs[s.inUse[call]].dead
    requires Reaches(Next(s, Settle(call, key, false, true)), between, t) && Enabled(t, Take(nextCall, key))
    requires forall i :: 0 <= i < |between| ==> !Disturbs(between[i], key, s.inUse[call])
    ensures var u := Next(t, Take(nextCall, key));
            nextCall in u.inUse && u.inUse[nextCall] == s.inUse[call] && key !in u.live
  {
    var k := s.inUse[call];
    Run(EMPTY, before, s);
    NextKeepsInv(s, Settle(call, key, false, true));
    UndisturbedRunStaysKept(Next(s, Settle(call, key, false, true)), between, t, key, k);
    TakeHandsOutIff(t, nextCall, key);
  }

  /** A conversation becomes lost, neither used nor kept nor going to be closed, exactly when take finds that its
      process ended while it was idle; one replaced, expired, refused, failed or kept at Close is always closed. */
  lemma LostExactlyWhenFoundDead(s: State, step: Step, k: nat)
    requires Inv(s) && Enabled(s, step) && k < |s.convs|
    ensures Lost(Next(s, step), k) <==>
            || Lost(s, k)
            || (step.Take? && step.key != "" && step.key in s.live && s.live[step.key] == k &&
                s.convs[k].timer.Armed? && s.convs[k].dead && s.convs[k].closers == {})
  {
    var t := Next(s, step);
    NextKeepsInv(s, step);
    assert Well(s, k) && Well(t, k);
    if k !in Moved(s, step) {
      MovesOnly(s, step, k);
    } else if step.Take? {
      assert HandsOut(s.convs[k]) ==> t.inUse[step.call] == k;
    } else if step.Settle? && !SettleCloses(s, step) {
      SettleKeepingOwners(s, step);
    }
  }

  /** The conversations a step hands over. */
  function Moved(s: State, step: Step): set<nat>
    requires Enabled(s, step)
  {
    match step
    case Take(_, key) => if key != "" && key in s.live then {s.live[key]} else {}
    case Launch(_) => {|s.convs|}
    case Refuse(call) => {s.inUse[call]}
    case Settle(_, _, _, _) => if SettleCloses(s, step) then {s.inUse[step.call]} else Settled(s, step)
    case Expire(k) => {k}
    case Close => s.live.Values
    case _ => {}
  }

  lemma MovesOnly(s: State, step: Step, k: nat)
    requires Inv(s) && Enabled(s, step) && k !in Moved(s, step)
    ensures Loose(Next(s, step), k) <==> Loose(s, k)
  {
    var t := Next(s, step);
    if step.Settle? && !SettleCloses(s, step) {
      SettleKeepingOwners(s, step);
    }
    assert HandsOver(s, t, Moved(s, step));
    OthersStay(s, t, Moved(s, step), k);
  }

  /** When everything has come to rest (the pool closed, no call in progress, no timer's callback running, no close
      outstanding), every conversation is closed but for those found dead while idle. */
  lemma AllClosedAtRest(steps: seq<Step>, t: State, k: nat)
    requires Reaches(EMPTY, steps, t) && k < |t.convs|
    requires t.closed && t.inUse == map[]
    requires forall i: nat :: i < |t.convs| ==> !Enabled(t, Expire(i)) && !Enabled(t, Finish(i))
    ensures t.convs[k].done || (Lost(t, k) && t.convs[k].dead)
  {
    Run(EMPTY, steps, t);
    assert Well(t, k) && !Enabled(t, Expire(k)) && !Enabled(t, Finish(k));
    assert Loose(t, k);
  }

  /** That gap is real: a conversation whose process ended while it was kept is dropped, and never closed. */
  lemma FoundDeadIsNeverClosed() returns (steps: seq<Step>, t: State)
    ensures Reaches(EMPTY, steps, t) && |t.convs| == 1 && Lost(t, 0) && !t.convs[0].done
  {
    var s1 := Next(EMPTY, Launch(0));
    var s2 := Next(s1, Settle(0, "k", false, true));
    var s3 := Next(s2, Die(0));
    t := Next(s3, Take(1, "k"));
    steps := [Launch(0), Settle(0, "k", false, true), Die(0), Take(1, "k")];
    assert steps[1..] == [Settle(0, "k", false, true), Die(0), Take(1, "k")];
    assert steps[1..][1..] == [Die(0), Take(1, "k")];
    assert steps[1..][1..][1..] == [Take(1, "k")];
    assert steps[1..][1..][1..][1..] == [];
    assert Reaches(t, [], t);
    assert Reaches(s3, [Take(1, "k")], t);
    assert Reaches(s2, steps[1..][1..], t);
    assert Reaches(s1, steps[1..], t);
  }
}
