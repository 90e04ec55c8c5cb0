/** Turn accounting of driver/acp.go and driver/acp_ext.go up to process exit: prompts, the goroutine that waits for
    each prompt's answer, the goroutine that bounds its first sign of work, and turns the agent starts by itself. The
    session's mutex is released between counting and reporting, so those are separate steps. */
module AcpTurns {

  type PromptId = nat

  /** Who took a prompt out of the waiting set. */
  datatype Remover = Nobody | Alive | Release | Timer

  /** One of the two goroutines of a prompt: it tries to settle the prompt, and the winner counts it down and then
      reports it. Ready is past the critical section on waiting. */
  datatype Reporter = Watching | Ready | Won | Counted | Reported | Lost

  /** closes counts close(life). */
  datatype PromptState = PromptState(settled: bool, answer: Reporter, timer: Reporter, removed: Remover, closes: nat)

  datatype Report = Answered(p: PromptId) | NoResponse(p: PromptId)

  datatype Step =
    | Prompt
    | ReleaseLife(p: PromptId)    // the answer arrived: release
    | AnswerSettle(p: PromptId)
    | AnswerCount(p: PromptId)
    | AnswerReport(p: PromptId)
    | TimerSeesLife(p: PromptId)  // awaitFirstEvent returns on life
    | TimerExpire(p: PromptId)    // awaitFirstEvent's critical section on waiting
    | TimerSettle(p: PromptId)
    | TimerCount(p: PromptId)
    | TimerReport(p: PromptId)
    | SignOfWork                  // alive
    | BeginAgentTurn(id: string)
    | EndAgentTurn(id: string)

  datatype State = State(
    turns: int, agentTurn: string, waiting: set<PromptId>, prompts: seq<PromptState>, reports: seq<Report>)

  const INIT := State(0, "", {}, [], [])

  predicate Enabled(s: State, step: Step) {
    match step
    case Prompt => true
    case ReleaseLife(p) => p < |s.prompts| && s.prompts[p].answer.Watching?
    case AnswerSettle(p) => p < |s.prompts| && s.prompts[p].answer.Ready?
    case AnswerCount(p) => p < |s.prompts| && s.prompts[p].answer.Won?
    case AnswerReport(p) => p < |s.prompts| && s.prompts[p].answer.Counted?
    case TimerSeesLife(p) => p < |s.prompts| && s.prompts[p].timer.Watching? && s.prompts[p].closes > 0
    case TimerExpire(p) => p < |s.prompts| && s.prompts[p].timer.Watching?
    case TimerSettle(p) => p < |s.prompts| && s.prompts[p].timer.Ready?
    case TimerCount(p) => p < |s.prompts| && s.prompts[p].timer.Won?
    case TimerReport(p) => p < |s.prompts| && s.prompts[p].timer.Counted?
    case SignOfWork => true
    case BeginAgentTurn(_) => true
    case EndAgentTurn(_) => true
  }

  function Update(s: State, p: PromptId, to: PromptState): State
    requires p < |s.prompts|
  {
    s.(prompts := s.prompts[p := to])
  }

  function Next(s: State, step: Step): State
    requires Enabled(s, step)
  {
    match step
    case Prompt =>
      s.(turns := s.turns + 1, waiting := s.waiting + {|s.prompts|},
         prompts := s.prompts + [PromptState(false, Watching, Watching, Nobody, 0)])
    case ReleaseLife(p) =>
      var q := s.prompts[p].(answer := Ready);
      if p in s.waiting then
        Update(s.(waiting := s.waiting - {p}), p, q.(removed := Release, closes := q.closes + 1))
      else Update(s, p, q)
    case AnswerSettle(p) =>
      var q := s.prompts[p];
      Update(s, p, if q.settled then q.(answer := Lost) else q.(settled := true, answer := Won))
    case AnswerCount(p) => Update(s.(turns := s.turns - 1), p, s.prompts[p].(answer := Counted))
    case AnswerReport(p) =>
      Update(s.(reports := s.reports + [Answered(p)]), p, s.prompts[p].(answer := Reported))
    case TimerSeesLife(p) => Update(s, p, s.prompts[p].(timer := Lost))
    case TimerExpire(p) =>
      var q := s.prompts[p];
      if p in s.waiting then Update(s.(waiting := s.waiting - {p}), p, q.(timer := Ready, removed := Timer))
      else Update(s, p, q.(timer := Lost))
    case TimerSettle(p) =>
      var q := s.prompts[p];
      Update(s, p, if q.settled then q.(timer := Lost) else q.(settled := true, timer := Won))
    case TimerCount(p) => Update(s.(turns := s.turns - 1), p, s.prompts[p].(timer := Counted))
    case TimerReport(p) =>
      Update(s.(reports := s.reports + [NoResponse(p)]), p, s.prompts[p].(timer := Reported))
    case SignOfWork =>
      s.(waiting := {},
         prompts := seq(|s.prompts|, p requires 0 <= p < |s.prompts| =>
           if p in s.waiting then s.prompts[p].(removed := Alive, closes := s.prompts[p].closes + 1)
           else s.prompts[p]))
    case BeginAgentTurn(id) =>
      if s.turns > 0 || s.agentTurn != "" then s else s.(agentTurn := id, turns := s.turns + 1)
    case EndAgentTurn(id) =>
      if id == "" || s.agentTurn != id then s else s.(agentTurn := "", turns := s.turns - 1)
  }

  /** A prompt whose end the counter has not seen: unsettled, or settled with the decrement still due. */
  predicate Outstanding(q: PromptState) {
    !q.settled || q.answer.Won? || q.timer.Won?
  }

  function CountOutstanding(qs: seq<PromptState>): nat {
    if qs == [] then 0
    else CountOutstanding(qs[..|qs| - 1]) + if Outstanding(qs[|qs| - 1]) then 1 else 0
  }

  predicate HasWon(r: Reporter) {
    r.Won? || r.Counted? || r.Reported?
  }

  ghost predicate PromptInv(s: State, p: PromptId)
    requires p < |s.prompts|
  {
    var q := s.prompts[p];
    && (p in s.waiting <==> q.removed.Nobody?)
       // exactly one goroutine settles a settled prompt
    && (q.settled <==> HasWon(q.answer) || HasWon(q.timer))
    && !(HasWon(q.answer) && HasWon(q.timer))
       // its channel is closed once at most, and never after the timer took it
    && q.closes == (if q.removed.Alive? || q.removed.Release? then 1 else 0)
       // only a prompt the timer itself took out can be failed for want of a response
    && (q.timer.Ready? || HasWon(q.timer) ==> q.removed.Timer?)
    && (!q.answer.Watching? ==> !q.removed.Nobody?)
    && (q.answer.Lost? ==> q.settled)
    && (q.timer.Lost? ==> !q.removed.Nobody?)
    && (q.removed.Timer? ==> !q.timer.Watching?)
  }

  ghost predicate ReportInv(s: State, p: PromptId)
    requires p < |s.prompts|
  {
    && multiset(s.reports)[Answered(p)] == (if s.prompts[p].answer.Reported? then 1 else 0)
    && multiset(s.reports)[NoResponse(p)] == (if s.prompts[p].timer.Reported? then 1 else 0)
  }

  ghost predicate Inv(s: State) {
    Drift(s) == 0 && PromptsInv(s)
  }

  /** How far the counter is off. */
  function Drift(s: State): int {
    s.turns - CountOutstanding(s.prompts) - if s.agentTurn != "" then 1 else 0
  }

  ghost predicate PromptsInv(s: State) {
    && (forall p :: p in s.waiting ==> p < |s.prompts|)
    && (forall p :: 0 <= p < |s.prompts| ==> PromptInv(s, p))
    && (forall p :: 0 <= p < |s.prompts| ==> ReportInv(s, p))
    && (forall r :: r in s.reports ==> r.p < |s.prompts|)
  }

  lemma CountUpdate(qs: seq<PromptState>, p: nat, q: PromptState)
    requires p < |qs|
    ensures CountOutstanding(qs[p := q]) ==
            CountOutstanding(qs) + (if Outstanding(q) then 1 else 0) - (if Outstanding(qs[p]) then 1 else 0)
    decreases |qs|
  {
    var n := |qs| - 1;
    if p < n {
      CountUpdate(qs[..n], p, q);
      assert qs[p := q][..n] == qs[..n][p := q];
    } else {
      assert qs[p := q][..n] == qs[..n];
    }
  }

  lemma {:induction false} CountSame(qs: seq<PromptState>, rs: seq<PromptState>)
    requires |qs| == |rs|
    requires forall i :: 0 <= i < |qs| ==> Outstanding(qs[i]) == Outstanding(rs[i])
    ensures CountOutstanding(qs) == CountOutstanding(rs)
    decreases |qs|
  {
    if qs != [] {
      var n := |qs| - 1;
      assert qs[..n][..] == qs[..n];
      CountSame(qs[..n], rs[..n]);
    }
  }

  /** The one call that breaks the accounting: an agent turn begun without an id while no turn is open. It is counted,
      and no call can end it. */
  predicate Leaks(s: State, step: Step) {
    step == BeginAgentTurn("") && s.turns <= 0 && s.agentTurn == ""
  }

  lemma TurnsAfter(s: State, step: Step)
    requires PromptsInv(s) && Enabled(s, step)
    ensures Drift(Next(s, step)) == Drift(s) + if Leaks(s, step) then 1 else 0
  {
    var t := Next(s, step);
    match step
    case Prompt => assert t.prompts[..|s.prompts|] == s.prompts;
    case SignOfWork => CountSame(s.prompts, t.prompts);
    case BeginAgentTurn(_) =>
    case EndAgentTurn(_) =>
    case _ => PromptTurnsAfter(s, step);
  }

  lemma PromptTurnsAfter(s: State, step: Step)
    requires PromptsInv(s) && Enabled(s, step)
    requires !step.Prompt? && !step.SignOfWork? && !step.BeginAgentTurn? && !step.EndAgentTurn?
    ensures Drift(Next(s, step)) == Drift(s)
  {
    var t := Next(s, step);
    assert PromptInv(s, step.p);
    CountUpdate(s.prompts, step.p, t.prompts[step.p]);
    OutstandingAfter(s, step);
  }

  /** The counter moves with the one prompt the step is about. */
  lemma OutstandingAfter(s: State, step: Step)
    requires Enabled(s, step) && !step.Prompt? && !step.SignOfWork? && !step.BeginAgentTurn? && !step.EndAgentTurn?
    requires step.p < |s.prompts| && PromptInv(s, step.p)
    ensures var t := Next(s, step);
            && t.prompts == s.prompts[step.p := t.prompts[step.p]] && t.agentTurn == s.agentTurn
            && t.turns - s.turns ==
               (if Outstanding(t.prompts[step.p]) then 1 else 0) - (if Outstanding(s.prompts[step.p]) then 1 else 0)
  {
  }

  lemma PromptsAfter(s: State, step: Step, p: PromptId)
    requires PromptsInv(s) && Enabled(s, step) && p < |Next(s, step).prompts|
    ensures PromptInv(Next(s, step), p)
  {
    if p < |s.prompts| {
      assert PromptInv(s, p);
    }
  }

  lemma NewReport(s: State, step: Step, p: PromptId)
    requires PromptsInv(s) && Enabled(s, step) && p < |s.prompts| && (step.AnswerReport? || step.TimerReport?)
    ensures ReportInv(Next(s, step), p)
  {
    var r := if step.AnswerReport? then Answered(step.p) else NoResponse(step.p);
    assert ReportInv(s, p) && PromptInv(s, p);
    assert multiset(s.reports + [r]) == multiset(s.reports) + multiset{r};
  }

  lemma NoNewReport(s: State, step: Step, p: PromptId)
    requires PromptsInv(s) && Enabled(s, step) && p < |s.prompts| && !step.AnswerReport? && !step.TimerReport?
    ensures ReportInv(Next(s, step), p)
  {
    var t := Next(s, step);
    assert ReportInv(s, p);
    assert t.reports == s.reports;
    assert t.prompts[p].answer.Reported? <==> s.prompts[p].answer.Reported?;
    assert t.prompts[p].timer.Reported? <==> s.prompts[p].timer.Reported?;
  }

  lemma ReportsAfter(s: State, step: Step, p: PromptId)
    requires PromptsInv(s) && Enabled(s, step) && p < |Next(s, step).prompts|
    ensures ReportInv(Next(s, step), p)
  {
    if p < |s.prompts| {
      if step.AnswerReport? || step.TimerReport? {
        NewReport(s, step, p);
      } else {
        NoNewReport(s, step, p);
      }
    } else {
      assert forall r :: r in multiset(s.reports) ==> r in s.reports;
    }
  }

  lemma NextKeepsPromptsInv(s: State, step: Step)
    requires PromptsInv(s) && Enabled(s, step)
    ensures PromptsInv(Next(s, step))
  {
    var t := Next(s, step);
    forall p | 0 <= p < |t.prompts|
      ensures PromptInv(t, p) && ReportInv(t, p)
    {
      PromptsAfter(s, step, p);
      ReportsAfter(s, step, p);
    }
    RangesAfter(s, step);
  }

  lemma NextKeepsInv(s: State, step: Step)
    requires Inv(s) && Enabled(s, step)
    ensures Inv(Next(s, step)) <==> !Leaks(s, step)
  {
    TurnsAfter(s, step);
    NextKeepsPromptsInv(s, step);
  }

  lemma RangesAfter(s: State, step: Step)
    requires PromptsInv(s) && Enabled(s, step)
    ensures forall p :: p in Next(s, step).waiting ==> p < |Next(s, step).prompts|
    ensures forall r :: r in Next(s, step).reports ==> r.p < |Next(s, step).prompts|
  {
  }

  ghost predicate Reaches(s: State, steps: seq<Step>, t: State)
    decreases |steps|
  {
    if steps == [] then s == t
    else Enabled(s, steps[0]) && !Leaks(s, steps[0]) && Reaches(Next(s, steps[0]), steps[1..], t)
  }

  lemma {:induction false} RunKeepsInv(s: State, steps: seq<Step>, t: State)
    requires Inv(s) && Reaches(s, steps, t)
    ensures Inv(t)
    decreases |steps|
  {
    if steps != [] {
      NextKeepsInv(s, steps[0]);
      RunKeepsInv(Next(s, steps[0]), steps[1..], t);
    }
  }

  /** A run in which the empty id is allowed. */
  ghost predicate ReachesAnyhow(s: State, steps: seq<Step>, t: State)
    decreases |steps|
  {
    if steps == [] then s == t else Enabled(s, steps[0]) && ReachesAnyhow(Next(s, steps[0]), steps[1..], t)
  }

  /** Once a turn has leaked no step takes it back, whatever is called after: the counter stays one too high, so a turn
      always seems open, and no agent turn is counted again. */
  lemma {:induction false} LeakIsForever(s: State, steps: seq<Step>, t: State)
    requires PromptsInv(s) && Drift(s) == 1 && s.agentTurn == "" && ReachesAnyhow(s, steps, t)
    ensures t.turns == CountOutstanding(t.prompts) + 1 && t.agentTurn == ""
    decreases |steps|
  {
    if steps != [] {
      var u := Next(s, steps[0]);
      TurnsAfter(s, steps[0]);
      NextKeepsPromptsInv(s, steps[0]);
      assert u.agentTurn == "";
      LeakIsForever(u, steps[1..], t);
    }
  }

  /** From the very start: begun with an empty id, ended with it. */
  lemma EmptyIdLeaks(steps: seq<Step>, t: State)
    requires ReachesAnyhow(Next(INIT, BeginAgentTurn("")), steps, t)
    ensures Next(Next(INIT, BeginAgentTurn("")), EndAgentTurn("")).turns == 1
    ensures t.turns >= 1 && t.agentTurn == ""
  {
    LeakIsForever(Next(INIT, BeginAgentTurn("")), steps, t);
  }

  predicate Finished(r: Reporter) {
    r.Reported? || r.Lost?
  }

  /** Every interleaving: the counter is the prompts still open plus an open agent turn, so never negative; each prompt
      is reported at most once, and exactly once when both its goroutines are done; its channel is closed at most
      once; and it is failed for want of a response only if the timer itself took it out of waiting. */
  lemma TurnAccounting(steps: seq<Step>, s: State, p: PromptId)
    requires Reaches(INIT, steps, s) && p < |s.prompts|
    ensures s.turns == CountOutstanding(s.prompts) + (if s.agentTurn != "" then 1 else 0) >= 0
    ensures var n := multiset(s.reports)[Answered(p)] + multiset(s.reports)[NoResponse(p)];
            && n <= 1
            && (Finished(s.prompts[p].answer) && Finished(s.prompts[p].timer) ==> n == 1)
    ensures s.prompts[p].closes <= 1
    ensures NoResponse(p) in s.reports ==> s.prompts[p].removed.Timer?
  {
    assert Inv(INIT);
    RunKeepsInv(INIT, steps, s);
    assert PromptInv(s, p) && ReportInv(s, p);
    assert NoResponse(p) in s.reports <==> NoResponse(p) in multiset(s.reports);
  }

  lemma RemoverIsFinal(s: State, step: Step, p: PromptId)
    requires Inv(s) && Enabled(s, step) && p < |s.prompts|
    requires !s.prompts[p].removed.Nobody?
    ensures p < |Next(s, step).prompts| && Next(s, step).prompts[p].removed == s.prompts[p].removed
  {
    assert PromptInv(s, p);
  }

  /** A sign of work or an answer that came first protects the prompt for good. */
  lemma {:induction false} NeverFailedAfterWork(s: State, steps: seq<Step>, t: State, p: PromptId)
    requires Inv(s) && Reaches(s, steps, t) && p < |s.prompts|
    requires s.prompts[p].removed.Alive? || s.prompts[p].removed.Release?
    ensures NoResponse(p) !in t.reports
    decreases |steps|
  {
    if steps == [] {
      assert PromptInv(s, p) && ReportInv(s, p);
      assert NoResponse(p) in s.reports <==> NoResponse(p) in multiset(s.reports);
    } else {
      NextKeepsInv(s, steps[0]);
      RemoverIsFinal(s, steps[0], p);
      NeverFailedAfterWork(Next(s, steps[0]), steps[1..], t, p);
    }
  }

  /** A sign of work, an answer or its timer is all that takes a prompt out of waiting. */
  lemma {:induction false} WaitsUntil(s: State, steps: seq<Step>, t: State, p: PromptId)
    requires Inv(s) && Reaches(s, steps, t) && p in s.waiting
    ensures p in t.waiting <==> forall step <- steps :: step != SignOfWork && step != ReleaseLife(p) && step != TimerExpire(p)
    decreases |steps|
  {
    if steps != [] {
      var u := Next(s, steps[0]);
      NextKeepsInv(s, steps[0]);
      assert PromptInv(s, p) && PromptInv(u, p);
      assert forall step <- steps :: step == steps[0] || step in steps[1..];
      assert forall step <- steps[1..] :: step in steps;
      if p in u.waiting {
        WaitsUntil(u, steps[1..], t, p);
      } else {
        assert steps[0] in steps && (steps[0] == SignOfWork || steps[0] == ReleaseLife(p) || steps[0] == TimerExpire(p));
        StaysOut(u, steps[1..], t, p);
      }
    }
  }

  lemma {:induction false} StaysOut(s: State, steps: seq<Step>, t: State, p: PromptId)
    requires Inv(s) && Reaches(s, steps, t) && p < |s.prompts| && p !in s.waiting
    ensures p !in t.waiting
    decreases |steps|
  {
    if steps != [] {
      NextKeepsInv(s, steps[0]);
      StaysOut(Next(s, steps[0]), steps[1..], t, p);
    }
  }

  /** A prompt its timer took out, before its answer settles it. */
  predicate Lapsed(q: PromptState) {
    q.timer != Watching && q.timer != Lost && !HasWon(q.answer)
  }

  lemma {:induction false} StaysLapsed(s: State, steps: seq<Step>, t: State, p: PromptId)
    requires Inv(s) && Reaches(s, steps, t) && p < |s.prompts| && Lapsed(s.prompts[p]) && AnswerSettle(p) !in steps
    ensures p < |t.prompts| && Lapsed(t.prompts[p])
    ensures t.prompts[p].timer.Reported? <==> s.prompts[p].timer.Reported? || TimerReport(p) in steps
    decreases |steps|
  {
    if steps != [] {
      NextKeepsInv(s, steps[0]);
      assert PromptInv(s, p);
      assert steps[0] in steps && forall step <- steps :: step == steps[0] || step in steps[1..];
      StaysLapsed(Next(s, steps[0]), steps[1..], t, p);
    }
  }

  /** A prompt that is sent and sees no sign of work and no answer until its timer expires has a failure coming: unless its
      answer is settled first it is never reported as answered, and it is failed exactly when the timer's goroutine gets
      to report. */
  lemma SilentPromptFails(
      before: seq<Step>, s: State, silent: seq<Step>, u: State, later: seq<Step>, t: State)
    requires Reaches(INIT, before, s) && Reaches(Next(s, Prompt), silent, u)
    requires forall step <- silent :: step != SignOfWork && step != ReleaseLife(|s.prompts|) && step != TimerExpire(|s.prompts|)
    ensures Enabled(u, TimerExpire(|s.prompts|))
    ensures Reaches(Next(u, TimerExpire(|s.prompts|)), later, t) && AnswerSettle(|s.prompts|) !in later ==>
              && Answered(|s.prompts|) !in t.reports
              && (NoResponse(|s.prompts|) in t.reports <==> TimerReport(|s.prompts|) in later)
  {
    var p := |s.prompts|;
    assert Inv(INIT);
    RunKeepsInv(INIT, before, s);
    NextKeepsInv(s, Prompt);
    RunKeepsInv(Next(s, Prompt), silent, u);
    WaitsUntil(Next(s, Prompt), silent, u, p);
    assert PromptInv(u, p);
    var v := Next(u, TimerExpire(p));
    NextKeepsInv(u, TimerExpire(p));
    if Reaches(v, later, t) && AnswerSettle(p) !in later {
      StaysLapsed(v, later, t, p);
      RunKeepsInv(v, later, t);
      assert PromptInv(t, p) && ReportInv(t, p);
      assert forall r :: r in t.reports <==> r in multiset(t.reports);
    }
  }

  /** A sign of work lets every prompt off that was still waiting: none of them is ever failed for want of a response. */
  lemma WorkLetsOff(before: seq<Step>, s: State, later: seq<Step>, t: State, p: PromptId)
    requires Reaches(INIT, before, s) && p in s.waiting && Reaches(Next(s, SignOfWork), later, t)
    ensures Next(s, SignOfWork).waiting == {} && p < |t.prompts| && NoResponse(p) !in t.reports && t.prompts[p].closes == 1
  {
    assert Inv(INIT);
    RunKeepsInv(INIT, before, s);
    NextKeepsInv(s, SignOfWork);
    NeverFailedAfterWork(Next(s, SignOfWork), later, t, p);
    StaysAlive(Next(s, SignOfWork), later, t, p);
    RunKeepsInv(Next(s, SignOfWork), later, t);
    assert PromptInv(t, p);
  }

  lemma {:induction false} StaysAlive(s: State, steps: seq<Step>, t: State, p: PromptId)
    requires Inv(s) && Reaches(s, steps, t) && p < |s.prompts| && s.prompts[p].removed.Alive?
    ensures p < |t.prompts| && t.prompts[p].removed.Alive?
    decreases |steps|
  {
    if steps != [] {
      NextKeepsInv(s, steps[0]);
      RemoverIsFinal(s, steps[0], p);
      StaysAlive(Next(s, steps[0]), steps[1..], t, p);
    }
  }

  /** An agent turn begun with an id while nothing is open is open until that id, and no other, is ended. */
  lemma {:induction false} AgentTurnStaysOpen(s: State, steps: seq<Step>, t: State, id: string)
    requires Inv(s) && id != "" && s.agentTurn == id && Reaches(s, steps, t)
    ensures EndAgentTurn(id) !in steps ==> t.agentTurn == id
    decreases |steps|
  {
    if steps != [] {
      NextKeepsInv(s, steps[0]);
      assert steps[0] in steps && forall step <- steps[1..] :: step in steps;
      if EndAgentTurn(id) !in steps {
        AgentTurnStaysOpen(Next(s, steps[0]), steps[1..], t, id);
      }
    }
  }

  /** Begun and ended: in between it is counted, whatever else happens, and after it the count is that of the prompts. One
      begun while a turn is open changes nothing. */
  lemma AgentTurnIsCounted(before: seq<Step>, s: State, id: string, between: seq<Step>, t: State)
    requires Reaches(INIT, before, s) && id != "" && EndAgentTurn(id) !in between
    requires Reaches(Next(s, BeginAgentTurn(id)), between, t)
    ensures s.turns > 0 ==> Next(s, BeginAgentTurn(id)) == s
    ensures s.turns == 0 ==>
              && t.turns == CountOutstanding(t.prompts) + 1
              && Next(t, EndAgentTurn(id)).turns == CountOutstanding(t.prompts) && Next(t, EndAgentTurn(id)).agentTurn == ""
  {
    assert Inv(INIT);
    RunKeepsInv(INIT, before, s);
    NextKeepsInv(s, BeginAgentTurn(id));
    RunKeepsInv(Next(s, BeginAgentTurn(id)), between, t);
    if s.turns == 0 {
      AgentTurnStaysOpen(Next(s, BeginAgentTurn(id)), between, t, id);
    }
  }

  /** acpSession's turn fields. A prompt's goroutines are given by their handlers, one per critical section. */
  class Session {
    var turns: int
    var agentTurn: string
    var waiting: set<PromptId>
    var prompts: seq<PromptState>
    ghost var reports: seq<Report>

    ghost function View(): State
      reads this
    {
      State(turns, agentTurn, waiting, prompts, reports)
    }

    constructor ()
      ensures View() == INIT
    {
      turns, agentTurn, waiting, prompts, reports := 0, "", {}, [], [];
    }

    method Prompt() returns (p: PromptId)
      requires Inv(View())
      modifies this
      ensures View() == Next(old(View()), Step.Prompt) && Inv(View())
      ensures p == old(|prompts|)
    {
      NextKeepsInv(View(), Step.Prompt);
      p := |prompts|;
      turns := turns + 1;
      waiting := waiting + {p};
      prompts := prompts + [PromptState(false, Watching, Watching, Nobody, 0)];
    }

    /** release: silent tells whether the prompt had seen no sign of work. */
    method ReleaseLife(p: PromptId) returns (silent: bool)
      requires Inv(View()) && Enabled(View(), Step.ReleaseLife(p))
      modifies this
      ensures View() == Next(old(View()), Step.ReleaseLife(p)) && Inv(View())
      ensures silent == (p in old(waiting))
    {
      NextKeepsInv(View(), Step.ReleaseLife(p));
      silent := p in waiting;
      prompts := prompts[p := prompts[p].(answer := Ready)];
      if silent {
        prompts := prompts[p := prompts[p].(closes := prompts[p].closes + 1, removed := Release)];
        waiting := waiting - {p};
      }
    }

    /** settle, the compare-and-swap both goroutines race for. */
    method Settle(p: PromptId) returns (won: bool)
      requires p < |prompts|
      modifies this
      ensures won == !old(prompts[p].settled)
      ensures View() == old(View()).(prompts := old(prompts)[p := old(prompts[p]).(settled := true)])
    {
      won := !prompts[p].settled;
      if won {
        prompts := prompts[p := prompts[p].(settled := true)];
      }
    }

    method AnswerSettle(p: PromptId)
      requires Inv(View()) && Enabled(View(), Step.AnswerSettle(p))
      modifies this
      ensures View() == Next(old(View()), Step.AnswerSettle(p)) && Inv(View())
    {
      NextKeepsInv(View(), Step.AnswerSettle(p));
      var won := Settle(p);
      prompts := prompts[p := prompts[p].(answer := if won then Won else Lost)];
    }

    method AnswerCount(p: PromptId)
      requires Inv(View()) && Enabled(View(), Step.AnswerCount(p))
      modifies this
      ensures View() == Next(old(View()), Step.AnswerCount(p)) && Inv(View())
    {
      NextKeepsInv(View(), Step.AnswerCount(p));
      turns := turns - 1;
      prompts := prompts[p := prompts[p].(answer := Counted)];
    }

    method AnswerReport(p: PromptId)
      requires Inv(View()) && Enabled(View(), Step.AnswerReport(p))
      modifies this
      ensures View() == Next(old(View()), Step.AnswerReport(p)) && Inv(View())
    {
      NextKeepsInv(View(), Step.AnswerReport(p));
      reports := reports + [Answered(p)];
      prompts := prompts[p := prompts[p].(answer := Reported)];
    }

    method TimerSeesLife(p: PromptId)
      requires Inv(View()) && Enabled(View(), Step.TimerSeesLife(p))
      modifies this
      ensures View() == Next(old(View()), Step.TimerSeesLife(p)) && Inv(View())
    {
      NextKeepsInv(View(), Step.TimerSeesLife(p));
      prompts := prompts[p := prompts[p].(timer := Lost)];
    }

    method TimerExpire(p: PromptId)
      requires Inv(View()) && Enabled(View(), Step.TimerExpire(p))
      modifies this
      ensures View() == Next(old(View()), Step.TimerExpire(p)) && Inv(View())
    {
      NextKeepsInv(View(), Step.TimerExpire(p));
      var still := p in waiting;
      if still {
        prompts := prompts[p := prompts[p].(timer := Ready, removed := Timer)];
      } else {
        prompts := prompts[p := prompts[p].(timer := Lost)];
      }
      waiting := waiting - {p};
    }

    method TimerSettle(p: PromptId)
      requires Inv(View()) && Enabled(View(), Step.TimerSettle(p))
      modifies this
      ensures View() == Next(old(View()), Step.TimerSettle(p)) && Inv(View())
    {
      NextKeepsInv(View(), Step.TimerSettle(p));
      var won := Settle(p);
      prompts := prompts[p := prompts[p].(timer := if won then Won else Lost)];
    }

    method TimerCount(p: PromptId)
      requires Inv(View()) && Enabled(View(), Step.TimerCount(p))
      modifies this
      ensures View() == Next(old(View()), Step.TimerCount(p)) && Inv(View())
    {
      NextKeepsInv(View(), Step.TimerCount(p));
      turns := turns - 1;
      prompts := prompts[p := prompts[p].(timer := Counted)];
    }

    method TimerReport(p: PromptId)
      requires Inv(View()) && Enabled(View(), Step.TimerReport(p))
      modifies this
      ensures View() == Next(old(View()), Step.TimerReport(p)) && Inv(View())
    {
      NextKeepsInv(View(), Step.TimerReport(p));
      reports := reports + [NoResponse(p)];
      prompts := prompts[p := prompts[p].(timer := Reported)];
    }

    /** alive closes and removes every waiting channel. */
    method SignOfWork()
      requires Inv(View())
      modifies this
      ensures View() == Next(old(View()), Step.SignOfWork) && Inv(View())
    {
      NextKeepsInv(View(), Step.SignOfWork);
      ghost var all := waiting;
      while waiting != {}
        invariant waiting <= all
        invariant |prompts| == |old(prompts)|
        invariant turns == old(turns) && agentTurn == old(agentTurn) && reports == old(reports)
        invariant forall p :: 0 <= p < |prompts| ==>
                    prompts[p] ==
                    if p in all - waiting
                    then old(prompts[p]).(removed := Alive, closes := old(prompts[p]).closes + 1)
                    else old(prompts[p])
        decreases waiting
      {
        var p :| p in waiting;
        prompts := prompts[p := prompts[p].(removed := Alive, closes := prompts[p].closes + 1)];
        waiting := waiting - {p};
      }
      assert prompts == Next(old(View()), Step.SignOfWork).prompts;
    }

    method BeginAgentTurn(id: string)
      requires Inv(View())
      modifies this
      ensures View() == Next(old(View()), Step.BeginAgentTurn(id))
    {
      if turns > 0 || agentTurn != "" {
        return;
      }
      agentTurn := id;
      turns := turns + 1;
    }

    method EndAgentTurn(id: string)
      requires Inv(View())
      modifies this
      ensures View() == Next(old(View()), Step.EndAgentTurn(id)) && Inv(View())
    {
      NextKeepsInv(View(), Step.EndAgentTurn(id));
      if id == "" || agentTurn != id {
        return;
      }
      agentTurn := "";
      turns := turns - 1;
    }
  }
}
