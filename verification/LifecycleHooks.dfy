/**
  The pre-tool-call hook and its call history. The class trims its history in place;
  the theorems compare it with a log that is never trimmed.
 */
module LifecycleHooks {
  import opened Wrappers
  import opened Governance

  datatype Mark = Executed | BlockedGatePending | BlockedGate | BlockedHighRisk | BlockedRepeated

  datatype Entry = Entry(tool: string, mark: Mark)

  datatype Reason =
    | NoReason | NotRegistered | UnknownLifecycle | LifecycleMismatch | GatePending | GateBlocked | HighRisk | Repeated

  datatype HookResult = HookResult(allowed: bool, autoExecute: bool, reason: Reason)

  function ParseLifecycle(name: string): Option<Lifecycle> {
    if name == "PRE_LIVE" then Some(PreLive)
    else if name == "ON_LIVE" then Some(OnLive)
    else if name == "POST_LIVE" then Some(PostLive)
    else None
  }

  /** Length of the run of `tool` at the end of the history. */
  function TrailingRun(history: seq<Entry>, tool: string): (n: nat)
    ensures n <= |history|
  {
    if history == [] || history[|history| - 1].tool != tool then 0
    else 1 + TrailingRun(history[..|history| - 1], tool)
  }

  function Last(history: seq<Entry>, n: nat): (kept: seq<Entry>)
    ensures |kept| <= n && |kept| <= |history|
  {
    if |history| <= n then history else history[|history| - n..]
  }

  /** What the policy alone decides; `None` leaves the decision to the repetition count. */
  function PolicyDecision(view: PolicyView, tool: string, lifecycle: string): Option<(HookResult, Option<Mark>)> {
    if tool !in view then Some((HookResult(false, false, NotRegistered), None))
    else match ParseLifecycle(lifecycle)
      case None => Some((HookResult(false, false, UnknownLifecycle), None))
      case Some(stage) =>
        if stage !in view[tool].lifecycle then Some((HookResult(false, false, LifecycleMismatch), None))
        else
          var gate := EvaluateToolGate(view[tool].gate, false);
          if !gate.allowed && gate.requiresConfirmation then
            Some((HookResult(true, false, GatePending), Some(BlockedGatePending)))
          else if !gate.allowed then Some((HookResult(false, false, GateBlocked), Some(BlockedGate)))
          else if view[tool].risk == High then Some((HookResult(true, false, HighRisk), Some(BlockedHighRisk)))
          else None
  }

  /** The decision and the entry it leaves, against the history it is shown. */
  function Decide(view: PolicyView, maxRepeated: nat, history: seq<Entry>, tool: string, lifecycle: string)
    : (HookResult, Option<Mark>)
  {
    match PolicyDecision(view, tool, lifecycle)
    case Some(decision) => decision
    case None =>
      if TrailingRun(history, tool) >= maxRepeated then (HookResult(false, false, Repeated), Some(BlockedRepeated))
      else (HookResult(true, true, NoReason), Some(Executed))
  }

  function Logged(history: seq<Entry>, tool: string, mark: Option<Mark>): seq<Entry> {
    match mark case None => history case Some(m) => history + [Entry(tool, m)]
  }

  /** One hook call on the trimmed history. */
  function HookStep(view: PolicyView, maxRepeated: nat, history: seq<Entry>, tool: string, lifecycle: string)
    : (HookResult, seq<Entry>)
  {
    var (result, mark) := Decide(view, maxRepeated, history, tool, lifecycle);
    var after := Logged(history, tool, mark);
    (result, if mark == Some(BlockedRepeated) then Last(after, 2 * maxRepeated) else after)
  }

  /** `kept` is `log` with nothing lost but a prefix that no decision can see. */
  predicate TrimOf(kept: seq<Entry>, log: seq<Entry>, maxRepeated: nat) {
    && |kept| <= |log|
    && kept == log[|log| - |kept|..]
    && (kept == log || |kept| >= 2 * maxRepeated)
  }

  // ---------------------------------------------------------------- trimming is invisible

  /** A suffix shows the same trailing run, up to its own length. */
  lemma {:induction false} SuffixRun(kept: seq<Entry>, log: seq<Entry>, tool: string)
    requires |kept| <= |log| && kept == log[|log| - |kept|..]
    ensures TrailingRun(kept, tool) == if TrailingRun(log, tool) <= |kept| then TrailingRun(log, tool) else |kept|
  {
    if kept != [] && log[|log| - 1].tool == tool {
      var k, l := kept[..|kept| - 1], log[..|log| - 1];
      assert k == l[|l| - |k|..];
      SuffixRun(k, l, tool);
    }
  }

  /** Two histories that differ by an invisible prefix get the same decision. */
  lemma {:induction false} TrimmedDecision(
    view: PolicyView, maxRepeated: nat, kept: seq<Entry>, log: seq<Entry>, tool: string, lifecycle: string)
    requires TrimOf(kept, log, maxRepeated)
    ensures Decide(view, maxRepeated, kept, tool, lifecycle) == Decide(view, maxRepeated, log, tool, lifecycle)
  {
    SuffixRun(kept, log, tool);
  }

  lemma AppendKeepsTrim(kept: seq<Entry>, log: seq<Entry>, maxRepeated: nat, entry: Entry)
    requires TrimOf(kept, log, maxRepeated)
    ensures TrimOf(kept + [entry], log + [entry], maxRepeated)
  {
  }

  lemma LastKeepsTrim(kept: seq<Entry>, log: seq<Entry>, maxRepeated: nat)
    requires TrimOf(kept, log, maxRepeated)
    ensures TrimOf(Last(kept, 2 * maxRepeated), log, maxRepeated)
  {
  }

  lemma HookStepKeepsTrim(
    view: PolicyView, maxRepeated: nat, kept: seq<Entry>, log: seq<Entry>, tool: string, lifecycle: string)
    requires TrimOf(kept, log, maxRepeated)
    ensures var (result, mark) := Decide(view, maxRepeated, log, tool, lifecycle);
      var (answer, after) := HookStep(view, maxRepeated, kept, tool, lifecycle);
      answer == result && TrimOf(after, Logged(log, tool, mark), maxRepeated)
  {
    TrimmedDecision(view, maxRepeated, kept, log, tool, lifecycle);
    var mark := Decide(view, maxRepeated, log, tool, lifecycle).1;
    if mark.Some? {
      AppendKeepsTrim(kept, log, maxRepeated, Entry(tool, mark.value));
      LastKeepsTrim(Logged(kept, tool, mark), Logged(log, tool, mark), maxRepeated);
    }
  }

  lemma PolicyMarksNoRepeat(view: PolicyView, tool: string, lifecycle: string)
    ensures var decision := PolicyDecision(view, tool, lifecycle);
      decision.Some? ==> decision.value.1 != Some(BlockedRepeated)
  {
  }

  class AgentLifecycleHooks {
    const view: PolicyView
    const maxRepeated: nat
    var callHistory: seq<Entry>
    ghost var log: seq<Entry>  // every entry ever appended

    ghost predicate Valid()
      reads this
    {
      TrimOf(callHistory, log, maxRepeated)
    }

    constructor (view: PolicyView, maxRepeated: nat)
      ensures Valid() && this.view == view && this.maxRepeated == maxRepeated
      ensures callHistory == [] && log == []
    {
      this.view := view;
      this.maxRepeated := maxRepeated;
      callHistory, log := [], [];
    }

    method RepeatedCallCount(tool: string) returns (count: nat)
      ensures count == TrailingRun(callHistory, tool)
    {
      count := 0;
      var i := |callHistory|;
      assert callHistory[..i] == callHistory;
      while i > 0 && callHistory[i - 1].tool == tool
        invariant 0 <= i <= |callHistory| && count == |callHistory| - i
        invariant TrailingRun(callHistory, tool) == count + TrailingRun(callHistory[..i], tool)
      {
        assert callHistory[..i][..i - 1] == callHistory[..i - 1];
        count := count + 1;
        i := i - 1;
      }
    }

    method ResetIfBlocked()
      modifies this`callHistory
      ensures callHistory == Last(old(callHistory), 2 * maxRepeated)
    {
      while |callHistory| > maxRepeated * 2
        invariant |callHistory| <= |old(callHistory)|
        invariant callHistory == old(callHistory)[|old(callHistory)| - |callHistory|..]
        invariant callHistory == old(callHistory) || |callHistory| >= maxRepeated * 2
      {
        callHistory := callHistory[1..];
      }
    }

    method Append(entry: Entry)
      modifies this`callHistory, this`log
      ensures callHistory == old(callHistory) + [entry] && log == old(log) + [entry]
    {
      callHistory := callHistory + [entry];
      log := log + [entry];
    }

    // Decisions read the trimmed history, yet equal those made on the whole log.
    method PreToolCall(tool: string, lifecycle: string) returns (result: HookResult)
      requires Valid()
      modifies this`callHistory, this`log
      ensures Valid()
      ensures var (spec, mark) := Decide(view, maxRepeated, old(log), tool, lifecycle);
              result == spec && log == Logged(old(log), tool, mark)
      ensures (result, callHistory) == HookStep(view, maxRepeated, old(callHistory), tool, lifecycle)
    {
      hide PolicyDecision, TrimOf, TrailingRun, Last;
      HookStepKeepsTrim(view, maxRepeated, callHistory, log, tool, lifecycle);
      PolicyMarksNoRepeat(view, tool, lifecycle);
      var decision := PolicyDecision(view, tool, lifecycle);
      if decision.Some? {
        if decision.value.1.Some? { Append(Entry(tool, decision.value.1.value)); }
        return decision.value.0;
      }
      var repeated := RepeatedCallCount(tool);
      if repeated >= maxRepeated {
        Append(Entry(tool, BlockedRepeated));
        ResetIfBlocked();
        return HookResult(false, false, Repeated);
      }
      Append(Entry(tool, Executed));
      return HookResult(true, true, NoReason);
    }
  }

  // ---------------------------------------------------------------- whole runs

  datatype Call = Call(tool: string, lifecycle: string)

  /** The answers and the final history of a run of calls on a hook that remembers `start`. */
  function RunTrimmedFrom(view: PolicyView, maxRepeated: nat, start: seq<Entry>, calls: seq<Call>)
    : (seq<HookResult>, seq<Entry>)
  {
    if calls == [] then ([], start)
    else
      var n := |calls| - 1;
      var (results, history) := RunTrimmedFrom(view, maxRepeated, start, calls[..n]);
      var (result, after) := HookStep(view, maxRepeated, history, calls[n].tool, calls[n].lifecycle);
      (results + [result], after)
  }

  function RunTrimmed(view: PolicyView, maxRepeated: nat, calls: seq<Call>): (seq<HookResult>, seq<Entry>) {
    RunTrimmedFrom(view, maxRepeated, [], calls)
  }

  function RunWhole(view: PolicyView, maxRepeated: nat, calls: seq<Call>): (seq<HookResult>, seq<Entry>) {
    if calls == [] then ([], [])
    else
      var n := |calls| - 1;
      var (results, log) := RunWhole(view, maxRepeated, calls[..n]);
      var (result, mark) := Decide(view, maxRepeated, log, calls[n].tool, calls[n].lifecycle);
      (results + [result], Logged(log, calls[n].tool, mark))
  }

  /** Over any call sequence the trimmed hook answers exactly as the hook that forgets nothing. */
  lemma {:induction false} TrimmedRefinesWhole(view: PolicyView, maxRepeated: nat, calls: seq<Call>)
    ensures RunTrimmed(view, maxRepeated, calls).0 == RunWhole(view, maxRepeated, calls).0
    ensures TrimOf(RunTrimmed(view, maxRepeated, calls).1, RunWhole(view, maxRepeated, calls).1, maxRepeated)
  {
    if calls != [] {
      var n := |calls| - 1;
      TrimmedRefinesWhole(view, maxRepeated, calls[..n]);
      HookStepKeepsTrim(view, maxRepeated, RunTrimmed(view, maxRepeated, calls[..n]).1,
        RunWhole(view, maxRepeated, calls[..n]).1, calls[n].tool, calls[n].lifecycle);
    }
  }

  // ---------------------------------------------------------------- repetition is bounded

  /** No executed entry ends a run of more than `maxRepeated` entries of its tool. */
  ghost predicate RunsBounded(log: seq<Entry>, maxRepeated: nat) {
    forall i | 0 <= i < |log| && log[i].mark == Executed :: TrailingRun(log[..i + 1], log[i].tool) <= maxRepeated
  }

  lemma {:induction false} ExecutedRunsAreBounded(view: PolicyView, maxRepeated: nat, calls: seq<Call>)
    ensures RunsBounded(RunWhole(view, maxRepeated, calls).1, maxRepeated)
  {
    if calls != [] {
      var n := |calls| - 1;
      ExecutedRunsAreBounded(view, maxRepeated, calls[..n]);
      var before := RunWhole(view, maxRepeated, calls[..n]).1;
      var after := RunWhole(view, maxRepeated, calls).1;
      forall i | 0 <= i < |after| && after[i].mark == Executed
        ensures TrailingRun(after[..i + 1], after[i].tool) <= maxRepeated
      {
        if i < |before| {
          assert after[..i + 1] == before[..i + 1];
        } else {
          assert after[..i + 1] == after && after[..i] == before;
        }
      }
    }
  }

  /** Positions of one tool, side by side. */
  predicate SameToolOver(log: seq<Entry>, from: nat, to: nat)
    requires from <= to <= |log|
  {
    forall i, j | from <= i < to && from <= j < to :: log[i].tool == log[j].tool
  }

  lemma {:induction false} RunCoversBlock(log: seq<Entry>, from: nat)
    requires from < |log| && SameToolOver(log, from, |log|)
    ensures TrailingRun(log, log[|log| - 1].tool) >= |log| - from
    decreases |log|
  {
    var n := |log| - 1;
    if from < n {
      assert log[n - 1].tool == log[n].tool;
      assert SameToolOver(log[..n], from, n);
      RunCoversBlock(log[..n], from);
    }
  }

  /** Of any `maxRepeated + 1` neighbouring entries of one tool, the last was not executed. */
  lemma NoLongExecutedBlock(view: PolicyView, maxRepeated: nat, calls: seq<Call>, at: nat)
    requires var log := RunWhole(view, maxRepeated, calls).1;
      at + maxRepeated < |log| && SameToolOver(log, at, at + maxRepeated + 1)
    ensures RunWhole(view, maxRepeated, calls).1[at + maxRepeated].mark != Executed
  {
    var log := RunWhole(view, maxRepeated, calls).1;
    ExecutedRunsAreBounded(view, maxRepeated, calls);
    RunCoversBlock(log[..at + maxRepeated + 1], at);
  }

  // ---------------------------------------------------------------- the reset lifts no block

  lemma RefusalRepeats(view: PolicyView, maxRepeated: nat, log: seq<Entry>, call: Call)
    requires Decide(view, maxRepeated, log, call.tool, call.lifecycle).0.reason == Repeated
    ensures Decide(view, maxRepeated, log, call.tool, call.lifecycle).1 == Some(BlockedRepeated)
    ensures var after := log + [Entry(call.tool, BlockedRepeated)];
      Decide(view, maxRepeated, after, call.tool, call.lifecycle).0.reason == Repeated
  {
    assert (log + [Entry(call.tool, BlockedRepeated)])[..|log|] == log;
  }

  lemma {:induction false} WholeStaysBlocked(
    view: PolicyView, maxRepeated: nat, calls: seq<Call>, call: Call, again: nat)
    requires var log := RunWhole(view, maxRepeated, calls).1;
      Decide(view, maxRepeated, log, call.tool, call.lifecycle).0.reason == Repeated
    ensures Decide(view, maxRepeated, RunWhole(view, maxRepeated, calls + seq(again, _ => call)).1,
              call.tool, call.lifecycle).0.reason == Repeated
  {
    hide Decide, TrailingRun;
    if again == 0 {
      assert calls + seq(0, _ => call) == calls;
    } else {
      WholeStaysBlocked(view, maxRepeated, calls, call, again - 1);
      OneMoreCall(view, maxRepeated, calls, call, again);
      RefusalRepeats(view, maxRepeated, RunWhole(view, maxRepeated, calls + seq(again - 1, _ => call)).1, call);
    }
  }

  lemma OneMoreCall(view: PolicyView, maxRepeated: nat, calls: seq<Call>, call: Call, again: nat)
    requires again > 0
    ensures var log := RunWhole(view, maxRepeated, calls + seq(again - 1, _ => call)).1;
      RunWhole(view, maxRepeated, calls + seq(again, _ => call)).1
        == Logged(log, call.tool, Decide(view, maxRepeated, log, call.tool, call.lifecycle).1)
  {
    hide Decide, Logged;
    var now, before := calls + seq(again, _ => call), calls + seq(again - 1, _ => call);
    assert now[..|now| - 1] == before && now[|now| - 1] == call;
  }

  /** Once the repetition guard has refused a call, the same call is refused however often it is made again. */
  lemma {:induction false} BlockedStaysBlocked(
    view: PolicyView, maxRepeated: nat, calls: seq<Call>, call: Call, again: nat)
    requires var history := RunTrimmed(view, maxRepeated, calls).1;
      HookStep(view, maxRepeated, history, call.tool, call.lifecycle).0.reason == Repeated
    ensures HookStep(view, maxRepeated, RunTrimmed(view, maxRepeated, calls + seq(again, _ => call)).1,
              call.tool, call.lifecycle).0.reason == Repeated
  {
    var now := calls + seq(again, _ => call);
    TrimmedRefinesWhole(view, maxRepeated, calls);
    HookStepKeepsTrim(view, maxRepeated, RunTrimmed(view, maxRepeated, calls).1, RunWhole(view, maxRepeated, calls).1,
      call.tool, call.lifecycle);
    WholeStaysBlocked(view, maxRepeated, calls, call, again);
    TrimmedRefinesWhole(view, maxRepeated, now);
    HookStepKeepsTrim(view, maxRepeated, RunTrimmed(view, maxRepeated, now).1, RunWhole(view, maxRepeated, now).1,
      call.tool, call.lifecycle);
  }

  // ---------------------------------------------------------------- what runs on its own

  /** A registered tool, called in a stage its skill allows. */
  predicate InStage(view: PolicyView, call: Call) {
    && call.tool in view
    && var stages := view[call.tool].lifecycle;
       || (call.lifecycle == "PRE_LIVE" && PreLive in stages)
       || (call.lifecycle == "ON_LIVE" && OnLive in stages)
       || (call.lifecycle == "POST_LIVE" && PostLive in stages)
  }

  /** Every answer of the hook and the mark it leaves, by stage, gate, risk and trailing run. */
  lemma HookAnswers(view: PolicyView, maxRepeated: nat, history: seq<Entry>, call: Call)
    ensures var (answer, mark) := Decide(view, maxRepeated, history, call.tool, call.lifecycle);
      if !InStage(view, call) then !answer.allowed && !answer.autoExecute && mark == None
      else
        match view[call.tool].gate
        case Block => !answer.allowed && !answer.autoExecute && mark == Some(BlockedGate)
        case HardGate => answer.allowed && !answer.autoExecute && mark == Some(BlockedGatePending)
        case _ =>
          if view[call.tool].risk == High then answer.allowed && !answer.autoExecute && mark == Some(BlockedHighRisk)
          else if TrailingRun(history, call.tool) < maxRepeated then
            answer.allowed && answer.autoExecute && mark == Some(Executed)
          else !answer.allowed && !answer.autoExecute && mark == Some(BlockedRepeated)
  {
    assert "PRE_LIVE"[0..2] == "PR" && "ON_LIVE"[0..2] == "ON" && "POST_LIVE"[0..2] == "PO";
  }

  /** In its stage, not gated, and of any risk but HIGH: CRITICAL included. */
  predicate Open(view: PolicyView, call: Call) {
    && InStage(view, call)
    && (view[call.tool].gate.Auto? || view[call.tool].gate.SoftGate?)
    && view[call.tool].risk != High
  }

  lemma OnlyHighRiskIsHeld(view: PolicyView, maxRepeated: nat, history: seq<Entry>, call: Call)
    ensures Decide(view, maxRepeated, history, call.tool, call.lifecycle).0.autoExecute
      <==> Open(view, call) && TrailingRun(history, call.tool) < maxRepeated
    ensures Open(view, call) ==> Decide(view, maxRepeated, history, call.tool, call.lifecycle).1.Some?
  {
    HookAnswers(view, maxRepeated, history, call);
    hide Decide, InStage;
  }

  lemma {:induction false} RepeatedOpenCalls(view: PolicyView, maxRepeated: nat, call: Call, n: nat)
    ensures var (results, log) := RunWhole(view, maxRepeated, seq(n, _ => call));
      && |results| == n
      && (forall i | 0 <= i < n :: results[i].autoExecute <==> Open(view, call) && i < maxRepeated)
      && (Open(view, call) ==> TrailingRun(log, call.tool) == n)
  {
    if n > 0 {
      var calls, before := seq(n, _ => call), seq(n - 1, _ => call);
      assert calls[..n - 1] == before && calls[n - 1] == call;
      RepeatedOpenCalls(view, maxRepeated, call, n - 1);
      var log := RunWhole(view, maxRepeated, before).1;
      OnlyHighRiskIsHeld(view, maxRepeated, log, call);
      var mark := Decide(view, maxRepeated, log, call.tool, call.lifecycle).1;
      if mark.Some? { assert Logged(log, call.tool, mark)[..|log|] == log; }
    }
  }

  /**
    One call made again and again on a fresh hook runs without a human exactly the first
    max_repeated times, and only if it is open: the risk guard holds HIGH back, not CRITICAL.
   */
  lemma {:induction false} UnattendedExactly(view: PolicyView, maxRepeated: nat, call: Call, n: nat, i: nat)
    requires i < n
    ensures var results := RunTrimmed(view, maxRepeated, seq(n, _ => call)).0;
      i < |results| && (results[i].autoExecute <==> Open(view, call) && i < maxRepeated)
  {
    RepeatedOpenCalls(view, maxRepeated, call, n);
    TrimmedRefinesWhole(view, maxRepeated, seq(n, _ => call));
  }

  lemma {:induction false} OneAnswerPerCall(view: PolicyView, maxRepeated: nat, start: seq<Entry>, calls: seq<Call>)
    ensures |RunTrimmedFrom(view, maxRepeated, start, calls).0| == |calls|
  {
    if calls != [] { OneAnswerPerCall(view, maxRepeated, start, calls[..|calls| - 1]); }
  }

  /** The answer to call `k` depends on the calls before it only. */
  lemma {:induction false} AnswerAt(
    view: PolicyView, maxRepeated: nat, start: seq<Entry>, calls: seq<Call>, k: nat)
    requires k < |calls|
    ensures |RunTrimmedFrom(view, maxRepeated, start, calls).0| == |calls|
    ensures RunTrimmedFrom(view, maxRepeated, start, calls).0[k]
      == HookStep(view, maxRepeated, RunTrimmedFrom(view, maxRepeated, start, calls[..k]).1,
                  calls[k].tool, calls[k].lifecycle).0
  {
    OneAnswerPerCall(view, maxRepeated, start, calls);
    var n := |calls| - 1;
    if k < n {
      AnswerAt(view, maxRepeated, start, calls[..n], k);
      assert calls[..n][..k] == calls[..k];
    } else {
      OneAnswerPerCall(view, maxRepeated, start, calls[..n]);
    }
  }

  lemma UnattendedStep(view: PolicyView, maxRepeated: nat, history: seq<Entry>, call: Call)
    requires HookStep(view, maxRepeated, history, call.tool, call.lifecycle).0.autoExecute
    ensures TrailingRun(history, call.tool) < maxRepeated
    ensures HookStep(view, maxRepeated, history, call.tool, call.lifecycle).1 == history + [Entry(call.tool, Executed)]
  {
  }

  lemma HistoryAfter(view: PolicyView, maxRepeated: nat, start: seq<Entry>, calls: seq<Call>, k: nat)
    requires k < |calls|
    ensures RunTrimmedFrom(view, maxRepeated, start, calls[..k + 1]).1
      == HookStep(view, maxRepeated, RunTrimmedFrom(view, maxRepeated, start, calls[..k]).1,
                  calls[k].tool, calls[k].lifecycle).1
  {
    assert calls[..k + 1][..k] == calls[..k];
  }

  lemma RunGrows(history: seq<Entry>, tool: string)
    ensures TrailingRun(history + [Entry(tool, Executed)], tool) == TrailingRun(history, tool) + 1
  {
    assert (history + [Entry(tool, Executed)])[..|history|] == history;
  }

  /** `n` neighbouring unattended calls of one tool, from call `i` on, leave a trailing run of at least `n`. */
  lemma {:induction false} StreakIsRemembered(
    view: PolicyView, maxRepeated: nat, start: seq<Entry>, calls: seq<Call>, i: nat, n: nat)
    requires i + n <= |calls| == |RunTrimmedFrom(view, maxRepeated, start, calls).0|
    requires forall j | i <= j < i + n ::
      calls[j].tool == calls[i].tool && RunTrimmedFrom(view, maxRepeated, start, calls).0[j].autoExecute
    ensures n > 0 ==> TrailingRun(RunTrimmedFrom(view, maxRepeated, start, calls[..i + n]).1, calls[i].tool) >= n
  {
    hide HookStep, RunTrimmedFrom, TrailingRun;
    if n > 0 {
      var k := i + n - 1;
      StreakIsRemembered(view, maxRepeated, start, calls, i, n - 1);
      AnswerAt(view, maxRepeated, start, calls, k);
      HistoryAfter(view, maxRepeated, start, calls, k);
      var before := RunTrimmedFrom(view, maxRepeated, start, calls[..k]).1;
      UnattendedStep(view, maxRepeated, before, calls[k]);
      RunGrows(before, calls[k].tool);
    }
  }

  /** Whatever the hook remembers, of max_repeated + 1 neighbouring unattended calls two name different tools. */
  lemma {:induction false} NoUnattendedStreak(
    view: PolicyView, maxRepeated: nat, start: seq<Entry>, calls: seq<Call>, i: nat)
    requires i + maxRepeated < |calls| == |RunTrimmedFrom(view, maxRepeated, start, calls).0|
    requires forall j | i <= j <= i + maxRepeated :: RunTrimmedFrom(view, maxRepeated, start, calls).0[j].autoExecute
    ensures exists j | i < j <= i + maxRepeated :: calls[j].tool != calls[i].tool
  {
    if forall j | i < j <= i + maxRepeated :: calls[j].tool == calls[i].tool {
      var k := i + maxRepeated;
      StreakIsRemembered(view, maxRepeated, start, calls, i, maxRepeated);
      AnswerAt(view, maxRepeated, start, calls, k);
      UnattendedStep(view, maxRepeated, RunTrimmedFrom(view, maxRepeated, start, calls[..k]).1, calls[k]);
    }
  }
}
