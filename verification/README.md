# Governed agent loop: a Dafny model

The repository runs a live-commerce agent under governance: every tool call passes a policy hook,
every business fact lands once in an audit ledger, and verdicts are computed afterwards from what the
ledger and the run left behind. This project models six parts of it and proves what they are for.

| file | component |
|---|---|
| `HarnessLoop.dfy`, `LifecycleHooks.dfy` | the on-live graph (13 nodes, four branch points, replan loop, human interrupt, two frozen routes) and the stateful hook that gates each call |
| `AuditLedger.dfy`, `Json.dfy` | the idempotent ledger: insert-or-lose, then select and compare, under any interleaving; replay equality of JSON payloads |
| `PreLiveApproval.dfy` | the approval node that runs again from its start on every resume, over that ledger |
| `ChannelChain.dfy` | the V5 retry/failover loop against a moving clock |
| `SmokeConclusion.dfy` | the PASS / INCONCLUSIVE / FAILED classifier over five fact lists |
| `RuleEvaluator.dfy`, `ReplayTimeline.dfy`, `Redaction.dfy`, `SourceClosure.dfy` | weighted evaluation, degraded replay, recursive redaction, the source payload encoding |
| `Governance.dfy`, `Text.dfy`, `Wrappers.dfy` | policies and gates, string operations, `Option` |

Code that changes state in place is a class or a loop proved against a specification function; code
made of expressions is functions. Outside worlds are parameters: the planner, executor and human are
an arbitrary `Input` per step, the network is an arbitrary function of call number, host, time and
deadline, other writers of the ledger are arbitrary events, and the path regexes of the redactors are
an arbitrary function `scrub` with the assumption stated where it is needed.

`dafny verify dfyconfig.toml` checks the whole project.

## Findings

Places where the code and what is said of it, or expected of it, part ways. The model follows the code.

* `src/decision_support/controlled_e2e_adapter_v5.py:9-10` says DEADLINE_EXCEEDED is not retried; the
  predicate at line 219 and following retries it (`ChannelChain.WhatFollows`).
* `src/core/agent_lifecycle_hooks.py:64` says that trimming the history avoids a permanent block. It
  never changes a decision (`TrimmedRefinesWhole`), and a refused call stays refused however often it
  is repeated (`BlockedStaysBlocked`).
* The hook's risk guard compares with HIGH only, so an ungated CRITICAL skill runs on its own, up to
  max_repeated times in a row (`UnattendedExactly`).
* The comment at `src/core/agent_lifecycle_hooks.py:170` says that ignoring an open alert is recorded, not
  blocked. The issue corrects the decision like the other two, so the call never runs (`ExecutedCallsFit`).
* The comment at `src/core/on_live_harness_agent_graph.py:736-737` says a blocked checkpoint keeps its
  blocking status. `route_replan` overwrites it with `max_iterations` exactly when no iteration is left,
  and the run aborts instead of reaching the audit exactly when the route is closed and the call's name
  is blank (`BlockedCallDrains`). Neither way is anybody called.
* A stored rejection does not bind a later entry of the approval node: a re-entry that approves still
  sets the session up (`RejectionIsNotFinal`). What does hold: no setup row without an approving answer
  handed in by the run (`SetupFollowsAHumanYes`).
* The pending row of an approval stays in the ledger and counts as unapproved. So once a setup has
  completed, a degraded replay of its trace is a FAIL exactly when the setup is HIGH risk, approved or
  not, or something else in the trace breaks a rule (`ApprovedSetupVerdict`).
* The evaluator's `overall < 60` branch is never taken, and PASS is a Boolean law over a few faults
  (`RuleEvaluator.Evaluate`, `Passes`). A high-risk item that names no tool needs no approval: it leaves a
  PASS standing exactly when the trace is complete and picks no bad tool (`UnnamedRiskIsOverlooked`,
  `UnreviewedRiskPasses`), and an executor result without a name is such an item (`UnnamedResultGoesUnreviewed`).
* Newline normalisation maps LF, CRLF and CR texts to one form except where a CR ending directly precedes
  an empty LF line (`StyleIsNormalisedAway`).
* A NUL in a content can hide where one file ends: over any two paths there are two closures with one
  payload (`TwoFilesCollide`). For a fixed path list the payload determines the contents exactly when
  every `NUL path NUL` reads in one place only between its two neighbours; a single file always passes
  (`ClosuresDecodeExactly`). `RoundTripExactly` is about the field decoder: it inverts the encoding exactly
  for NUL-free lists.

## Model

| member | source | states |
|---|---|---|
| Governance.EvaluateToolGate | src/core/security_hooks.py:43-61 | AUTO and SOFT gates let a tool through, HARD only when confirmed, BLOCK never; confirmation is asked for exactly at an unconfirmed HARD gate. |
| LifecycleHooks.AgentLifecycleHooks.RepeatedCallCount | src/core/agent_lifecycle_hooks.py:53-61 | The backward scan counts the run of the tool at the end of the history. |
| LifecycleHooks.AgentLifecycleHooks.ResetIfBlocked | src/core/agent_lifecycle_hooks.py:63-66 | Popping from the front keeps exactly the last 2·max_repeated entries. |
| LifecycleHooks.AgentLifecycleHooks.PreToolCall | src/core/agent_lifecycle_hooks.py:68-123 | The decision taken on the trimmed history is the one the full, never trimmed log would give, and the log grows by at most the entry of this call. |
| LifecycleHooks.HookAnswers | src/core/agent_lifecycle_hooks.py:68-123 | Every answer and the mark it leaves, by stage, gate, risk and trailing run: BLOCK and a full run refuse, HARD and HIGH risk hold for a human, the rest runs; a call out of its stage leaves no mark. |
| LifecycleHooks.SuffixRun | src/core/agent_lifecycle_hooks.py:53-61 | A suffix of the history shows the same trailing run, cut at its own length. |
| LifecycleHooks.TrimmedDecision | src/core/agent_lifecycle_hooks.py:68-123 | A history that equals the log or keeps at least 2·max_repeated of its last entries gives every call the same decision. |
| LifecycleHooks.HookStepKeepsTrim | src/core/agent_lifecycle_hooks.py:63-123 | One hook call answers like the untrimmed hook and keeps the trimmed history a large enough suffix of the log. |
| LifecycleHooks.TrimmedRefinesWhole | src/core/agent_lifecycle_hooks.py:53-123 | Over any call sequence the trimming hook gives the same answers as the hook that forgets nothing. |
| LifecycleHooks.ExecutedRunsAreBounded | src/core/agent_lifecycle_hooks.py:106-123 | In any call sequence no executed entry ends a run of more than max_repeated entries of its tool. |
| LifecycleHooks.NoLongExecutedBlock | src/core/agent_lifecycle_hooks.py:106-123 | Of any max_repeated + 1 neighbouring entries of one tool the last was not executed. |
| LifecycleHooks.BlockedStaysBlocked | src/core/agent_lifecycle_hooks.py:63-66 | Once the repetition guard refuses a call it refuses it however often it is made again: the reset lifts no block. |
| LifecycleHooks.UnattendedExactly | src/core/agent_lifecycle_hooks.py:94-123 | One call repeated on a fresh hook is auto-executed exactly the first max_repeated times, and only if known, in its stage, ungated and of any risk but HIGH, CRITICAL included. |
| LifecycleHooks.NoUnattendedStreak | src/core/agent_lifecycle_hooks.py:106-123 | Whatever the hook remembers from before, of max_repeated + 1 neighbouring auto-executed calls two name different tools. |
| HarnessLoop.Next | src/core/on_live_harness_agent_graph.py:240-283 | Every step of every node follows a declared edge other than interrupt to executor or aborts; only execute_tool calls the executor, once and authorized, only post_tool_call_hook observes, only observe_result counts an iteration. |
| HarnessLoop.RoundDecides | src/core/on_live_harness_agent_graph.py:343-571 | From agent_reasoning, five steps: the executor is next with the planner's call exactly when it fits the scene, needs no operator and the hook auto-approves it; the human exactly when the hook holds it; otherwise the audit, with the status and suggestion of the reason. The hook's history grows exactly by the call it was asked about. |
| HarnessLoop.HistoryIsReplayed | src/core/on_live_harness_agent_graph.py:509-556 | After any run from any checkpoint the hook's history is the starting one, extended and trimmed by replaying the calls the run asked it about. |
| HarnessLoop.NeighbouringCallsDiffer | src/core/agent_lifecycle_hooks.py:106-123 | In every fresh run, with any planner and any leftover history, of max_repeated + 1 neighbouring executor calls two name different tools. |
| HarnessLoop.CallIsAbsorbed | src/core/on_live_harness_agent_graph.py:646-770 | From execute_tool to the next decision: one executor call, its result recorded, then abort exactly when the observation model refuses it, else one observation, the call cleared, the iteration counted, and another round exactly while iterations remain. |
| HarnessLoop.AnswerIsAudited | src/core/on_live_harness_agent_graph.py:574-643 | An answered interrupt aborts exactly on a blank trace, room or tool, an unknown risk, a malformed answer or one for another trace, room or tool, and otherwise ends the run with the status and policy of the decision. |
| HarnessLoop.ObservationsTellResults | src/core/on_live_harness_agent_graph.py:694-725 | In every fresh run observation i carries the status of result i and the name call i asked for. |
| HarnessLoop.NextKeepsFreshInv | src/core/on_live_harness_agent_graph.py:240-283 | One inductive invariant over all thirteen nodes ties counters, pending call, hook grants and executor calls together. |
| HarnessLoop.ExecutorCallsAreGranted | src/core/on_live_harness_agent_graph.py:509-709 | In every fresh run, with any planner, executor and human, executor call i is the call the hook auto-approved in iteration i; its tool is registered, ON_LIVE, AUTO or SOFT gated, not HIGH risk and not authorization-requiring; calls need DECISION_SUPPORT and number at most max(1, max_iterations). |
| HarnessLoop.FreshBookkeeping | src/core/on_live_harness_agent_graph.py:240-288 | At every visit to pre_reasoning_hook iteration, executed tools, observations and executor calls agree in number; the guards inside execute_tool never trip in a fresh run. |
| HarnessLoop.ExecutedCallsFit | src/core/agent_lifecycle_hooks.py:142-181 | Whatever the planner asks for, every named call a fresh run executes is about the product on show, handles a sold-out event only while alerts are open, and while they are open is one of the two sold-out tools. |
| HarnessLoop.PlanRouteAnswersFromEvidence | src/core/on_live_harness_agent_graph.py:343-392 | On the plan-engine route a fresh run asks no planner and no executor, and ends evidence-only with the reviewed suggestion exactly when every reference is digest-closed and one carries it, otherwise blocked and blank. |
| HarnessLoop.PlanEngineWritesSoldOutAlone | src/core/on_live_harness_agent_graph.py:455-478 | On the plan-engine route no run executes handle_sold_out_event, from any checkpoint whose pending call post_reasoning_hook has yet to see. |
| HarnessLoop.SoldOutBecomesSuggestion | src/core/on_live_harness_agent_graph.py:455-478 | Such a call is dropped for the reviewed suggestion, or the first reference's where none was reviewed. |
| HarnessLoop.CompletedNodesAreAWalk | src/core/on_live_harness_agent_graph.py:240-288 | completed_nodes of a fresh run is a walk along the declared edges from load_context, never through interrupt to executor, and ends at write_audit when the run ends. |
| HarnessLoop.EveryRunEnds | src/core/on_live_harness_agent_graph.py:728-770 | From any checkpoint a run whose human answers ends within a measure of remaining iterations and node rank; from a fresh start that is 16·max_iterations + 14 steps. |
| HarnessLoop.ResumedCallsAreAuthorized | src/core/on_live_harness_agent_graph.py:646-691 | From an arbitrary checkpoint no authorization-requiring tool, and under DETERMINISTIC_ONLY no tool at all, reaches the executor; closed routes never ask the planner. |
| HarnessLoop.BlockedCallDrains | src/core/on_live_harness_agent_graph.py:646-770 | A checkpoint blocked at execute_tool reaches write_audit or abort with no planner, hook or executor call and one error observation; says exactly when it aborts and which status is audited. |
| HarnessLoop.ApprovalExecutesNothing | src/core/on_live_harness_agent_graph.py:574-643 | From the interrupt, whatever the human answers and however the run goes on, no executor, planner or hook call follows. |
| ChannelChain.Complete | src/decision_support/controlled_e2e_adapter_v5.py:265-317 | The nested loops contact exactly the hosts a flat call-by-call rule dictates, to its end, and return the last outcome with only attempts and host changed. |
| ChannelChain.OneFinishedRun | src/decision_support/controlled_e2e_adapter_v5.py:265-317 | The rule leaves no choice: two finished legal runs are equal, so the log of `Complete` is fully determined. |
| ChannelChain.WhatFollows | src/decision_support/controlled_e2e_adapter_v5.py:218-317 | The same host is contacted again exactly after a first try with at least a second left that failed with TRANSPORT_ERROR, DEADLINE_EXCEEDED or status 500 or more; the next host exactly after such a second try or RATE_LIMITED, while there is one; the pause is min(1, time left - 1) after status 500 or more and 0 otherwise. |
| ChannelChain.CallsKeepTheWindow | src/decision_support/controlled_e2e_adapter_v5.py:233-252 | Every call after the first starts with at least one second left, its deadline is min(now + 90 s, request deadline), and every pause is between 0 and 1 s. |
| ChannelChain.ContactsEndInTime | src/decision_support/controlled_e2e_adapter_v5.py:265-317 | With delegates that return by their deadline, every call and pause ends by max(start, request deadline). |
| ChannelChain.AttemptsAreCounted | src/decision_support/controlled_e2e_adapter_v5.py:95-107 | The returned attempts is the number of calls, between 1 and 2·n, the returned host is the last one contacted, and nothing else of the last outcome changed. |
| ChannelChain.GivesUpOnlyAfterEveryHost | src/decision_support/controlled_e2e_adapter_v5.py:265-317 | A run that ends with a second left in TRANSPORT_ERROR, DEADLINE_EXCEEDED, RATE_LIMITED or status 500 or more has contacted every endpoint of the list. |
| AuditLedger.ToolCallAuditStore.InsertOnConflictDoNothing | src/audit/tool_call_audit.py:97-126 | Appends exactly when the (tool, key) pair is free, else changes nothing and reports the loss. |
| AuditLedger.ToolCallAuditStore.RecordEvent | src/audit/tool_call_audit.py:144-197 | New table and answer are those of the sequential specification, keys stay unique, the unresolved error never occurs, and a keyed call repeated gives the same answer and changes nothing. |
| AuditLedger.EffectiveKey | src/audit/tool_call_audit.py:144-144 | The event's own non-empty key wins; otherwise the payload's text; there is no key exactly when the payload has none or null. |
| AuditLedger.OccupiedKeyAnswers | src/audit/tool_call_audit.py:172-187 | On an occupied key nothing is written, and the call conflicts exactly when it differs from the stored row in trace, room, tool, action, risk, gate, operator decision or, up to number notation, a payload. |
| AuditLedger.RecordingSettles | src/audit/tool_call_audit.py:144-197 | A keyed call, whatever it answered, is settled by its own execution. |
| AuditLedger.SettledIsStable | src/audit/tool_call_audit.py:144-197 | No later row unsettles it. |
| AuditLedger.SettledTwice | src/audit/tool_call_audit.py:266-297 | Two settled successes under one (tool, key) share one id and agree field by field in trace, room, tool, action, risk, gate, operator decision and normalised payloads. |
| AuditLedger.EveryInterleavingIsSound | src/audit/tool_call_audit.py:144-197 | For every interleaving of statements of any clients, with arrivals and crashes: at most one row per (tool, key), one row per winning insert and no other, every finished keyed client's answer is the sequential answer on the table. |
| AuditLedger.ConcurrentSuccessesAgree | src/audit/tool_call_audit.py:144-197 | All clients that succeed on one (tool, key) return the same audit id and agree in every field, payloads up to number notation. |
| AuditLedger.ConflictsWriteNothing | src/audit/tool_call_audit.py:172-197 | A client that ends in conflict inserted nothing and lost to a stored row that differs in a field; none ends with the failed-to-resolve error. |
| Json.EqualityIsNormalisedEquality | src/audit/tool_call_audit.py:300-323 | Two JSON trees are semantically equal exactly when equal after turning every number into a decimal. |
| Json.EqualityIsAnEquivalence | src/audit/tool_call_audit.py:300-323 | Reflexive, symmetric, transitive, and a boolean equals only itself. |
| PreLiveApproval.PreLiveBusinessService.RecordSetupApprovalEvent | src/core/pre_live_business_flow.py:222-275 | Writes the pending or response event once through the ledger; raises exactly when the tool is not available before the live, writing nothing. |
| PreLiveApproval.PreLiveBusinessService.SetupLiveSession | src/core/pre_live_business_flow.py:174-220 | Writes the setup event exactly when the tool is available and the gate allows it; an unavailable tool is refused before anything is written. |
| PreLiveApproval.ValidatedExactly | src/core/human_approval.py:77-123 | A resume is accepted exactly when its own stripped trace, room and tool are the request's, its decision is one of the two words, and operator and reason are not blank; the answer taken is its own. |
| PreLiveApproval.ValidRequestExactly | src/core/human_approval.py:48-75 | The request can be built exactly when trace, room and every plan item carry some text. |
| PreLiveApproval.SetupLiveSessionWithHumanApproval | src/core/pre_live_graph.py:372-446 | One run of the node from its start leaves the ledger and ends exactly as three steps of the crash model with nothing in between. |
| PreLiveApproval.EarlierNodesKeepClean | src/core/pre_live_business_flow.py:80-172 | The query, plan and card rows written under the same trace before the setup node leave the ledger one the theorems below start from. |
| PreLiveApproval.EveryRunIsGood | src/core/pre_live_graph.py:372-446 | From any ledger without setup or approval facts of the trace, over any sequence of entries, crashes between writes, resume payloads and other writes: unique keys, only the four setup and approval facts of the trace, and every id an entry holds is settled in the ledger. |
| PreLiveApproval.OneRowOfEachKind | src/core/pre_live_business_flow.py:195-275 | Under the setup and approval tools the trace owns at most one pending, one approved, one rejected and one setup row, and nothing else. |
| PreLiveApproval.RowsReadAsWritten | src/core/pre_live_business_flow.py:195-275 | In every run each of the trace's setup and approval rows reads, field by field, as one of the four facts. |
| PreLiveApproval.SetupFollowsAHumanYes | src/core/pre_live_graph.py:393-430 | Behind every setup row stands an approved row, and behind that a resume of this run whose own fields name this trace, room and tool and say approved, its operator and reason stored in the row. |
| PreLiveApproval.AnswersTellApart | src/core/pre_live_business_flow.py:247-258 | The ledger's comparison treats two answers as the same event exactly when decision, operator and reason agree. |
| PreLiveApproval.KeysTellApart | src/core/pre_live_business_flow.py:195-196 | Different traces never share a key, and within a trace no two statuses do. |
| PreLiveApproval.SetupsTellApart | src/core/pre_live_business_flow.py:198-219 | Two setups are one fact exactly when they agree in trace, room, plan items, risk and gate. |
| PreLiveApproval.AnotherPlanConflicts | src/core/pre_live_business_flow.py:198-219 | Under a stored setup's key the same plan, room and policy get the stored id and any other conflicts, writing nothing. |
| PreLiveApproval.ApprovingAgain | src/core/pre_live_graph.py:393-402 | With an approved row of the trace stored, an approving re-entry writes nothing, goes on under the stored id if its result payload matches, and otherwise conflicts before setup. |
| PreLiveApproval.OneOutcomePerDecision | src/core/pre_live_graph.py:404-446 | Any two completed entries with the same decision, in any run, returned the same answer, ids and gate. |
| PreLiveApproval.RetryCompletes | src/core/pre_live_graph.py:372-446 | Whatever earlier entries left half done, one uninterrupted entry completes exactly when nothing in the request is blank, the tool is open before the live, the resume answers this request and no other answer of its decision is stored. |
| PreLiveApproval.EveryTraceCanFinish | src/core/pre_live_graph.py:372-446 | The same for every state a run can reach. |
| PreLiveApproval.RejectionIsNotFinal | src/core/pre_live_graph.py:404-446 | A rejected entry followed by an approving one: both complete, and the session is set up unless the gate blocks. |
| SmokeConclusion.PassCharacterisation | scripts/render_phase16_official_smoke_evidence.py:180-314 | PASS holds exactly of 10 slots, 10 distinct claims, exactly one attempt, receipt and validation per claim and stage and no others, all flags set, all passing, one passing outcome per claim, authenticated = claims, and earlier spend plus every receipt's cost within budget. |
| SmokeConclusion.EarlierSpendDecides | scripts/render_phase16_official_smoke_evidence.py:330-336 | A PASS turns FAILED exactly when the spend before the run is raised above the budget minus the receipts' costs. |
| SmokeConclusion.InconclusiveCharacterisation | scripts/render_phase16_official_smoke_evidence.py:210-314 | INCONCLUSIVE holds exactly of a prepared empty run or of one claimed case stopped in one of four states before anything but a passing Analyst call was sent. |
| SmokeConclusion.InconclusiveMeansNothingFailed | scripts/render_phase16_official_smoke_evidence.py:210-292 | INCONCLUSIVE implies no FAILED fact and at most one receipt, an Analyst's. |
| SmokeConclusion.ConclusionIgnoresOrder | scripts/render_phase16_official_smoke_evidence.py:177-327 | Permuting any of the five lists never changes the verdict, although the stage dictionaries are last-wins. |
| SmokeConclusion.CostIgnoresOrder | scripts/render_phase16_official_smoke_evidence.py:330-336 | The known spend does not depend on the order of receipts. |
| SmokeConclusion.TaintIsForever | scripts/render_phase16_official_smoke_evidence.py:177-327 | A FAILED validation, a FAILED outcome or a repeated key makes every append-only extension FAILED. |
| SourceClosure.NormaliseIsScan | scripts/coverage_source.py:27-33 | The two replacement passes equal one left-to-right scan. |
| SourceClosure.NormalisationSettles | scripts/coverage_source.py:27-33 | Normalised text has no CR and normalising again changes nothing. |
| SourceClosure.StyleIsNormalisedAway | scripts/coverage_source.py:27-33 | A text of mixed line endings normalises like its LF form exactly when no CR ending directly precedes an empty LF line. |
| SourceClosure.CheckoutsAgree | scripts/coverage_source.py:25-35 | An LF, a CRLF and a CR checkout of the same documents have one payload, that of the LF files. |
| SourceClosure.CanonicalPayload | scripts/coverage_source.py:25-35 | The buffer built in the loop is the encoding of the normalised files. |
| SourceClosure.RoundTripExactly | scripts/coverage_source.py:25-35 | The decoder inverts the encoding exactly for NUL-free paths and contents. |
| SourceClosure.PayloadsAgree | scripts/coverage_source.py:22-36 | Equal NUL-free payloads mean equal path lists and equal normalised contents. |
| SourceClosure.FixedPathsDecodeExactly | scripts/coverage_source.py:25-35 | For a fixed path list the payload determines the contents exactly when every separator reads in one place only between its neighbours; a single file always passes. |
| SourceClosure.ClosuresDecodeExactly | scripts/coverage_source.py:22-36 | The same up to newline style, for closures with CR-free paths. |
| SourceClosure.TwoFilesCollide | scripts/coverage_source.py:25-35 | Over any two paths there are two closures with different contents and the same payload. |
| Redaction.RedactorsAgree | src/core/on_live_harness_audit.py:267-304 | The audit redactor and the replay redactor give the same result on every nested value. |
| Redaction.EveryPath | src/core/agent_replay.py:244-265 | Down every path: cut at its first sensitive key it reads `<redacted>`, otherwise it reads the redacted form of what stood there, and it reads nothing exactly when it did before, so keys and lengths are kept. |
| Redaction.SensitiveKeysAre | src/core/agent_replay.py:22-22 | A key is sensitive exactly when one of the six words stands in it, whatever the case of its letters. |
| Redaction.EverySecretIsHidden | src/core/agent_replay.py:247-255 | At any depth, what stands under such a key reads `<redacted>` at or above that key. |
| Redaction.OpenTextIsScrubbed | src/core/agent_replay.py:260-264 | A text with no such key above it keeps its place and is changed by the `.env` replacement and the path pass only. |
| Redaction.NoEnvFragmentSurvives | src/core/agent_replay.py:260-264 | No text leaf at any depth contains `.env`. |
| Redaction.RedactionIsIdempotent | src/core/agent_replay.py:244-265 | Redacting twice is redacting once. |
| Redaction.CleanText | src/core/on_live_harness_audit.py:298-304 | One text: no `.env` left, and a second pass changes nothing. |
| Text.ReplaceRemoves | src/core/agent_replay.py:261 | Replacing a pattern by a text that shares neither end with it leaves no occurrence, none formed across a seam either. |
| Text.StripReads | src/core/human_approval.py:48-63 | Stripping cuts blanks off both ends and nothing else; the result is empty exactly for blank texts. |
| Text.LowerReads | src/core/agent_replay.py:251-251 | Lower-casing is letter by letter and blind to the case it starts from. |
| RuleEvaluator.DetectSevereViolations | src/core/agent_evaluation.py:154-166 | The loop lists, in order, every rule each named item breaks. |
| RuleEvaluator.SevereMeansSomeItemViolates | src/core/agent_evaluation.py:154-171 | The list is non-empty exactly when a named item is blocked_tool, high-risk without approval, or executed without evidence. |
| RuleEvaluator.RepeatedMeansTwice | src/core/agent_evaluation.py:138-144 | Length minus set size detects exactly a tool named at two positions. |
| RuleEvaluator.PointsByFault | src/core/agent_evaluation.py:100-152 | The weighted points of any trace as a sum over its faults, read off the timeline without the scorers. |
| RuleEvaluator.ScoresDecide | src/core/agent_evaluation.py:62-87 | With no severe violation the weighted points never fall below 60, and reach 80 with coverage 80 exactly under the fault law `Passes`. |
| RuleEvaluator.Evaluate | src/core/agent_evaluation.py:59-98 | The verdict is the law without scores; FAIL exactly with a severe violation; coverage is 65 plus 15 for a named tool plus 10 for evidence; the score is the weighted mean, capped at 40 by a severe violation. |
| RuleEvaluator.PassMeans | src/core/agent_evaluation.py:79-87 | PASS implies a named tool call, every named high-risk call approved, evidence on every named execute_tool item and no blocked_tool. |
| RuleEvaluator.SevereIsForever | src/core/agent_evaluation.py:154-166 | Appending items or upgrading the fidelity never removes a violation or a FAIL. |
| RuleEvaluator.UnnamedRiskIsOverlooked | src/core/agent_evaluation.py:125-166 | An unapproved high-risk item without a tool name, appended to a passing trace, leaves the PASS standing exactly when the trace is complete and picks no bad tool. |
| RuleEvaluator.UnreviewedRiskPasses | src/core/agent_evaluation.py:79-87 | A concrete three-item trace that passes with an unapproved high-risk item in it. |
| ReplayTimeline.ApprovalDecisionFromOperator | src/core/agent_replay.py:297-305 | Reads approved or approve as approved, rejected or reject as rejected, in any letter case, and any other text as no decision. |
| ReplayTimeline.AuditEvidence | src/core/agent_replay.py:234-238 | The row's own id comes first and only once; the other ids are the session's. |
| ReplayTimeline.AuditItems | src/core/agent_replay.py:200-241 | One redacted item per ledger row, numbered on from the given start; no items when there is no store or reading it fails. |
| ReplayTimeline.BuildDegradedReplay | src/core/agent_replay.py:146-198 | The timeline is numbered exactly 1..n across nodes, executed tools and ledger rows, in that order; without a session store it is empty. |
| ReplayTimeline.LaidOutFields | src/core/agent_replay.py:159-239 | Every field of every item, read off the session and the ledger rows. |
| ReplayTimeline.DegradedEvidence | src/core/agent_replay.py:154-238 | A timeline cites exactly the session's ids, where it has an item, and the rows' own ids. |
| ReplayTimeline.StoredDecisions | src/core/agent_replay.py:268-276 | A session that stored a rejection, or nothing, approves no call; one that stored an approval approves. |
| ReplayTimeline.DegradedVerdict | src/core/agent_replay.py:146-241 | FAIL exactly when a named tool or row is blocked_tool, or is high-risk without an approving decision, or a named tool was executed while the session has neither audit nor decision ids. |
| ReplayTimeline.DegradedTraceIsComplete | src/core/agent_evaluation.py:100-104 | A degraded trace counts as complete exactly when load_context was logged and an audit node was logged or a ledger row exists. |
| ReplayTimeline.ApprovedSetupVerdict | src/core/agent_replay.py:209-241 | After any run in which an entry of the setup completed, a degraded replay over the trace's ledger rows is a FAIL exactly when the setup risk is HIGH, a session tool breaks a rule, or another row of the trace does. |
| ReplayTimeline.UnnamedResultGoesUnreviewed | src/core/agent_replay.py:174-188 | An executed tool recorded without a name at HIGH risk and without approval becomes an unapproved high-risk item that violates nothing. |

## Left out

- AuditLedger.EffectiveKey: a payload key that is neither text nor null is one failed write; how the database driver renders it is not modelled.
- AuditLedger.ToolCallAuditStore.RecordEvent: connection and SQL errors are not modelled; a row's id is its position in the table, and an insert is atomic.
- Json.SemanticallyEqual: decimals are exact reals; NaN, infinities and binary rounding are not modelled.
- PreLiveApproval.Step: one `record_event` is one step; that its two statements answer like one is shown in `AuditLedger`. An unknown skill fails like an unavailable one.
- PreLiveApproval.Next: nobody but the approval node writes setup or approval facts of the trace; the setup path without human approval is not part of a run.
- HarnessLoop.Next: what each node writes is stated by the lemmas over rounds and runs, not node by node; message and error texts, tool arguments and the audit payload written at the end are not modelled; response texts arrive already stripped.
- HarnessLoop.CallIsAbsorbed: whether the optional fields of an executor result fit the observation model is one flag of the result.
- LifecycleHooks.AgentLifecycleHooks.PreToolCall: max_repeated is a natural number; a negative one makes the reset loop pop from an empty list.
- ChannelChain.Complete: sleeping takes exactly the time asked for, and the constructor's checks of the endpoint list are reduced to its being non-empty.
- SmokeConclusion.FormalConclusion: facts are read from a frozen snapshot; reading, receipt authentication and rendering are left out.
- SourceClosure.CanonicalPayload: texts are character sequences before UTF-8 encoding and hashing; the newline translation of text-mode reading, which also yields LF, is left out.
- SourceClosure.ClosuresDecodeExactly: paths hold no CR; `scripts/coverage_source.py:59-68` accepts a path only as the version-control listing prints it, and that quotes control characters.
- Redaction.SanitizeReplayPayload: dictionary keys are strings; distinct non-string keys with equal spelling are not modelled. The path patterns are the parameter `scrub`.
- Text.Lower: ASCII only, as are `Text.Upper` and the white space of `Text.Strip`.
- RuleEvaluator.Evaluate: the two-decimal rounding of the reported numbers and the evidence texts of the dimensions; scores and weights are whole, so the weighted sums are exact in floating point too.
- ReplayTimeline.BuildDegradedReplay: observations, timestamps, phases and state deltas of items, and the replay read from checkpoint history.
- The rest of the pre-live graph (catalogue query, plan, cards, compliance text): its rows may stand in the ledger, but its nodes are not modelled one by one.
- The trigger of a second run of a completed node is not modelled: a lost checkpoint and a second resume look alike.
