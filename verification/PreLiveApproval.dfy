/**
  Pre-live setup under human approval. The setup node runs again from its first statement on
  every resume, so its three writes reach the ledger once per entry; only the idempotency keys
  keep them apart. Entries interleave, crash between any two writes and carry any resume
  payload, while other traces write to the same ledger. One `record_event` is one step here:
  `AuditLedger` shows that its two statements answer like one.
 */
module PreLiveApproval {
  import opened Wrappers
  import opened Governance
  import opened AuditLedger
  import Json
  import Text

  const SETUP_TOOL := "setup_live_session"
  const APPROVAL_TOOL := "setup_live_session_approval"

  /** What every entry of one checkpointed trace sees; `tool` is the policy of setup_live_session. */
  datatype Setting = Setting(trace: string, room: string, planItems: seq<string>, tool: SkillPolicy)

  datatype Decision = Approved | Rejected

  /** A validated answer; its trace, room and tool are the request's. */
  datatype Approval = Approval(decision: Decision, operator: string, reason: string)

  datatype ResumePayload =
    | Malformed
    | Fields(trace: string, room: string, tool: string, decision: string, operator: string, reason: string)

  datatype Failure = InvalidRequest | ToolUnavailable | InvalidResponse | Refused(answer: RecordResult)

  datatype Outcome = Outcome(pendingId: nat, resumeId: nat, approval: Approval, gate: GateResult, setupId: Option<nat>)

  datatype Entry =
    | Begun(resume: Option<ResumePayload>)
    | Suspended(pendingId: nat)
    | Answered(pendingId: nat, approval: Approval)
    | Cleared(pendingId: nat, approval: Approval, resumeId: nat)
    | Completed(outcome: Outcome)
    | Failed(failure: Failure)
    | Abandoned

  // ---------------------------------------------------------------- requests, answers, events

  function RequestTrace(c: Setting): string { Text.Strip(c.trace) }

  function StripAll(items: seq<string>): seq<string> {
    seq(|items|, i requires 0 <= i < |items| => Text.Strip(items[i]))
  }

  /** The approval request can be built at all. */
  predicate ValidRequest(c: Setting) {
    Text.Strip(c.trace) != "" && Text.Strip(c.room) != "" && "" !in StripAll(c.planItems)
  }

  function DecisionText(d: Decision): string {
    if d.Approved? then "approved" else "rejected"
  }

  function ReadDecision(text: string): Option<Decision> {
    if text == "approved" then Some(Approved) else if text == "rejected" then Some(Rejected) else None
  }

  /** The answer model's own checks, then the match against the pending request. */
  function Validated(c: Setting, payload: ResumePayload): Option<Approval> {
    if payload.Malformed? then None
    else
      var decision := ReadDecision(payload.decision);
      var operator, reason := Text.Strip(payload.operator), Text.Strip(payload.reason);
      if decision.None? || operator == "" || reason == "" then None
      else if Text.Strip(payload.trace) != RequestTrace(c) then None
      else if Text.Strip(payload.room) != Text.Strip(c.room) then None
      else if Text.Strip(payload.tool) != SETUP_TOOL then None
      else Some(Approval(decision.value, operator, reason))
  }

  /** The resume is for this request: its own fields name it, decide in one of the two words, and sign with a reason. */
  predicate AnswersRequest(c: Setting, payload: ResumePayload) {
    && payload.Fields?
    && Text.Strip(payload.trace) == Text.Strip(c.trace)
    && Text.Strip(payload.room) == Text.Strip(c.room)
    && Text.Strip(payload.tool) == "setup_live_session"
    && (payload.decision == "approved" || payload.decision == "rejected")
    && !Text.Blank(payload.operator) && !Text.Blank(payload.reason)
  }

  function AnswerIn(payload: ResumePayload): Approval
    requires payload.Fields?
  {
    Approval(
      if payload.decision == "approved" then Approved else Rejected,
      Text.Strip(payload.operator), Text.Strip(payload.reason))
  }

  /** Every other answer is refused: malformed, misaddressed, undecided or unsigned. */
  lemma ValidatedExactly(c: Setting, payload: ResumePayload)
    ensures Validated(c, payload) == if AnswersRequest(c, payload) then Some(AnswerIn(payload)) else None
  {
    if payload.Fields? {
      var _, _ := Text.StripReads(payload.operator);
      var _, _ := Text.StripReads(payload.reason);
    }
    assert "approved"[0] != "rejected"[0];
  }

  /** Trace, room and every plan item carry some text. */
  predicate NothingBlank(c: Setting) {
    !Text.Blank(c.trace) && !Text.Blank(c.room) && forall i | 0 <= i < |c.planItems| :: !Text.Blank(c.planItems[i])
  }

  lemma ValidRequestExactly(c: Setting)
    ensures ValidRequest(c) <==> NothingBlank(c)
  {
    var _, _ := Text.StripReads(c.trace);
    var _, _ := Text.StripReads(c.room);
    forall i | 0 <= i < |c.planItems| ensures StripAll(c.planItems)[i] == "" <==> Text.Blank(c.planItems[i]) {
      var _, _ := Text.StripReads(c.planItems[i]);
    }
    hide Text.Strip, Text.Blank;
    if "" in StripAll(c.planItems) {
      var i :| 0 <= i < |c.planItems| && StripAll(c.planItems)[i] == "";
    }
  }

  function Status(response: Option<Approval>): string {
    if response.None? then "pending" else DecisionText(response.value.decision)
  }

  function ApprovalKey(c: Setting, status: string): string {
    RequestTrace(c) + ":setup_live_session:approval:" + status
  }

  function SetupKey(c: Setting): string {
    c.trace + ":setup_live_session"
  }

  function Texts(items: seq<string>): Json.Json {
    Json.Array(seq(|items|, i requires 0 <= i < |items| => Json.Text(items[i])))
  }

  function RequestPayload(c: Setting, key: string): Payload {
    map[
      "trace_id" := Json.Text(RequestTrace(c)),
      "room_id" := Json.Text(Text.Strip(c.room)),
      "tool_name" := Json.Text(SETUP_TOOL),
      "risk_level" := Json.Text("HIGH"),
      "action" := Json.Text("confirm_setup_live_session"),
      "plan_item_ids" := Texts(StripAll(c.planItems)),
      "message" := Json.Text("请确认是否按当前排品方案模拟建播。"),
      "tool_arguments" := Json.Object(map[]),
      "context_summary" := Json.Null,
      "idempotency_key" := Json.Text(key)]
  }

  function ApprovalResult(response: Option<Approval>): Payload {
    match response
    case None =>
      map["status" := Json.Text("pending"), "requires_confirmation" := Json.Bool(true), "decision" := Json.Null]
    case Some(a) =>
      map[
        "status" := Json.Text(if a.decision.Approved? then "resumed" else "rejected"),
        "decision" := Json.Text(DecisionText(a.decision)),
        "operator_id" := Json.Text(a.operator),
        "reason" := Json.Text(a.reason)]
  }

  function ApprovalEvent(c: Setting, response: Option<Approval>): AuditEvent {
    var key := ApprovalKey(c, Status(response));
    AuditEvent(
      RequestTrace(c), Text.Strip(c.room), APPROVAL_TOOL,
      if response.None? then "HUMAN_APPROVAL_PENDING" else "HUMAN_APPROVAL_RESUMED",
      c.tool.risk, c.tool.gate, Some(Status(response)), Some(key),
      RequestPayload(c, key), ApprovalResult(response))
  }

  function SetupEvent(c: Setting): AuditEvent {
    AuditEvent(
      c.trace, c.room, SETUP_TOOL, "SETUP_LIVE_SESSION", c.tool.risk, c.tool.gate,
      Some("approved"), Some(SetupKey(c)),
      map["room_id" := Json.Text(c.room), "idempotency_key" := Json.Text(SetupKey(c))],
      map["status" := Json.Text("prepared"), "plan_item_ids" := Texts(c.planItems)])
  }

  // ---------------------------------------------------------------- one entry, one write at a time

  predicate Available(c: Setting) { PreLive in c.tool.lifecycle }

  /** From one write of the node to the next. */
  function Step(c: Setting, rows: seq<Row>, entry: Entry): (seq<Row>, Entry) {
    match entry
    case Begun(resume) => WritePending(c, rows, resume)
    case Answered(pendingId, approval) => WriteResponse(c, rows, pendingId, approval)
    case Cleared(pendingId, approval, resumeId) => SetUp(c, rows, pendingId, approval, resumeId)
    case _ => (rows, entry)
  }

  function WritePending(c: Setting, rows: seq<Row>, resume: Option<ResumePayload>): (seq<Row>, Entry) {
    if !ValidRequest(c) then (rows, Failed(InvalidRequest))
    else if !Available(c) then (rows, Failed(ToolUnavailable))
    else
      var (after, answer) := RecordAlone(rows, ApprovalEvent(c, None));
      if !answer.Recorded? then (after, Failed(Refused(answer)))
      else if resume.None? then (after, Suspended(answer.id))
      else
        match Validated(c, resume.value)
        case None => (after, Failed(InvalidResponse))
        case Some(approval) => (after, Answered(answer.id, approval))
  }

  function WriteResponse(c: Setting, rows: seq<Row>, pendingId: nat, approval: Approval): (seq<Row>, Entry) {
    if !Available(c) then (rows, Failed(ToolUnavailable))
    else
      var (after, answer) := RecordAlone(rows, ApprovalEvent(c, Some(approval)));
      if !answer.Recorded? then (after, Failed(Refused(answer)))
      else if approval.decision.Rejected? then
        (after, Completed(Outcome(pendingId, answer.id, approval, GateResult(false, HardGate, false), None)))
      else (after, Cleared(pendingId, approval, answer.id))
  }

  function SetUp(c: Setting, rows: seq<Row>, pendingId: nat, approval: Approval, resumeId: nat): (seq<Row>, Entry) {
    if !Available(c) then (rows, Failed(ToolUnavailable))
    else
      var gate := EvaluateToolGate(c.tool.gate, true);
      if !gate.allowed then (rows, Completed(Outcome(pendingId, resumeId, approval, gate, None)))
      else
        var (after, answer) := RecordAlone(rows, SetupEvent(c));
        if !answer.Recorded? then (after, Failed(Refused(answer)))
        else (after, Completed(Outcome(pendingId, resumeId, approval, gate, Some(answer.id))))
  }

  /** An entry nothing interrupts. */
  function WholeEntry(c: Setting, rows: seq<Row>, resume: Option<ResumePayload>): (seq<Row>, Entry) {
    var (r1, e1) := Step(c, rows, Begun(resume));
    var (r2, e2) := Step(c, r1, e1);
    Step(c, r2, e2)
  }

  class PreLiveBusinessService {
    const store: ToolCallAuditStore

    constructor (store: ToolCallAuditStore)
      ensures this.store == store
    {
      this.store := store;
    }

    method RecordSetupApprovalEvent(c: Setting, response: Option<Approval>) returns (answer: Option<RecordResult>)
      requires store.Valid()
      modifies store
      ensures store.Valid()
      ensures answer.None? <==> !Available(c)
      ensures answer.None? ==> store.rows == old(store.rows)
      ensures answer.Some? ==> (store.rows, answer.value) == RecordAlone(old(store.rows), ApprovalEvent(c, response))
    {
      if !Available(c) { return None; }
      var recorded := store.RecordEvent(ApprovalEvent(c, response));
      answer := Some(recorded);
    }

    method SetupLiveSession(c: Setting, confirmed: bool)
      returns (gate: Option<GateResult>, answer: Option<RecordResult>)
      requires store.Valid()
      modifies store
      ensures store.Valid()
      ensures gate == if Available(c) then Some(EvaluateToolGate(c.tool.gate, confirmed)) else None
      ensures answer.Some? <==> gate.Some? && gate.value.allowed
      ensures answer.None? ==> store.rows == old(store.rows)
      ensures answer.Some? ==> (store.rows, answer.value) == RecordAlone(old(store.rows), SetupEvent(c))
    {
      if !Available(c) { return None, None; }
      gate, answer := Some(EvaluateToolGate(c.tool.gate, confirmed)), None;
      if gate.value.allowed {
        var recorded := store.RecordEvent(SetupEvent(c));
        answer := Some(recorded);
      }
    }
  }

  /** The approval node, once through; an exception is a `Failed` end. */
  method SetupLiveSessionWithHumanApproval(service: PreLiveBusinessService, c: Setting, resume: Option<ResumePayload>)
    returns (end: Entry)
    requires service.store.Valid()
    modifies service.store
    ensures service.store.Valid()
    ensures (service.store.rows, end) == WholeEntry(c, old(service.store.rows), resume)
  {
    hide RecordAlone, ApprovalEvent, SetupEvent, Validated, ValidRequest;
    if !ValidRequest(c) { return Failed(InvalidRequest); }
    var pending := service.RecordSetupApprovalEvent(c, None);
    if pending.None? { return Failed(ToolUnavailable); }
    if !pending.value.Recorded? { return Failed(Refused(pending.value)); }
    if resume.None? { return Suspended(pending.value.id); }
    var validated := Validated(c, resume.value);
    if validated.None? { return Failed(InvalidResponse); }
    var approval := validated.value;
    assert (service.store.rows, Answered(pending.value.id, approval))
        == Step(c, old(service.store.rows), Begun(resume));
    var resumed := service.RecordSetupApprovalEvent(c, Some(approval));
    if !resumed.value.Recorded? { return Failed(Refused(resumed.value)); }
    if approval.decision.Rejected? {
      return Completed(Outcome(pending.value.id, resumed.value.id, approval, GateResult(false, HardGate, false), None));
    }
    var gate, setup := service.SetupLiveSession(c, true);
    if gate.None? { return Failed(ToolUnavailable); }
    if setup.Some? && !setup.value.Recorded? { return Failed(Refused(setup.value)); }
    var setupId := if setup.Some? then Some(setup.value.id) else None;
    end := Completed(Outcome(pending.value.id, resumed.value.id, approval, gate.value, setupId));
  }

  // ---------------------------------------------------------------- runs

  datatype System = System(rows: seq<Row>, entries: map<nat, Entry>)

  datatype Action =
    | Enter(e: nat, resume: Option<ResumePayload>)
    | Advance(e: nat)
    | Abandon(e: nat)
    | Elsewhere(event: AuditEvent)

  /** A setup or approval fact of this trace. Its query, plan and card rows are not among them. */
  predicate Ours(c: Setting, event: AuditEvent) {
    && (event.traceId == c.trace || event.traceId == RequestTrace(c))
    && (event.toolName == SETUP_TOOL || event.toolName == APPROVAL_TOOL)
  }

  /** Everybody else, the trace's other nodes included, writes anything but these setup and approval facts. */
  function Next(c: Setting, s: System, a: Action): System {
    match a
    case Enter(e, resume) => if e in s.entries then s else s.(entries := s.entries[e := Begun(resume)])
    case Advance(e) =>
      if e !in s.entries then s
      else
        var (rows, entry) := Step(c, s.rows, s.entries[e]);
        System(rows, s.entries[e := entry])
    case Abandon(e) =>
      if e !in s.entries || s.entries[e].Completed? || s.entries[e].Failed? then s
      else s.(entries := s.entries[e := Abandoned])
    case Elsewhere(event) => if Ours(c, event) then s else s.(rows := RecordAlone(s.rows, event).0)
  }

  function Run(c: Setting, start: seq<Row>, actions: seq<Action>): System {
    if actions == [] then System(start, map[])
    else Next(c, Run(c, start, actions[..|actions| - 1]), actions[|actions| - 1])
  }

  /** The ledger when the trace first reaches the setup node: none of its setup or approval facts, any of its others. */
  predicate Clean(c: Setting, start: seq<Row>) {
    UniqueKeys(start) && forall i | 0 <= i < |start| :: !Ours(c, start[i].fact)
  }

  /** The query, plan and card nodes run first and record under the same trace: the ledger stays clean. */
  lemma EarlierNodesKeepClean(c: Setting, start: seq<Row>, event: AuditEvent)
    requires Clean(c, start) && event.toolName != SETUP_TOOL && event.toolName != APPROVAL_TOOL
    ensures Clean(c, RecordAlone(start, event).0)
  {
    RecordingKeepsUniqueKeys(start, event);
  }

  /** The valid human answers handed in by a run. */
  function Answers(c: Setting, actions: seq<Action>): set<Approval> {
    if actions == [] then {} else Answers(c, actions[..|actions| - 1]) + AnswerOf(c, actions[|actions| - 1])
  }

  function AnswerOf(c: Setting, a: Action): set<Approval> {
    if a.Enter? && a.resume.Some? && Validated(c, a.resume.value).Some? then {Validated(c, a.resume.value).value}
    else {}
  }

  // ---------------------------------------------------------------- the invariant

  function Keyed(event: AuditEvent): Row { Row(event, event.idempotencyKey) }

  predicate ResponseRow(c: Setting, given: set<Approval>, row: Row) {
    exists a | a in given :: row == Keyed(ApprovalEvent(c, Some(a)))
  }

  predicate ApprovedRow(c: Setting, given: set<Approval>, row: Row) {
    exists a | a in given :: a.decision.Approved? && row == Keyed(ApprovalEvent(c, Some(a)))
  }

  predicate OurRow(c: Setting, given: set<Approval>, rows: seq<Row>, i: nat)
    requires i < |rows|
  {
    || rows[i] == Keyed(ApprovalEvent(c, None))
    || ResponseRow(c, given, rows[i])
    || (rows[i] == Keyed(SetupEvent(c)) && exists j | 0 <= j < i :: ApprovedRow(c, given, rows[j]))
  }

  predicate GoodRows(c: Setting, given: set<Approval>, rows: seq<Row>) {
    && UniqueKeys(rows)
    && forall i | 0 <= i < |rows| :: Ours(c, rows[i].fact) ==> OurRow(c, given, rows, i)
  }

  predicate Wrote(rows: seq<Row>, event: AuditEvent, id: nat) {
    Settled(rows, event, Recorded(id))
  }

  predicate GoodEntry(c: Setting, given: set<Approval>, rows: seq<Row>, entry: Entry) {
    match entry
    case Begun(resume) => resume.Some? && Validated(c, resume.value).Some? ==> Validated(c, resume.value).value in given
    case Suspended(p) => Wrote(rows, ApprovalEvent(c, None), p)
    case Answered(p, a) => Available(c) && a in given && Wrote(rows, ApprovalEvent(c, None), p)
    case Cleared(p, a, r) =>
      && Available(c) && a in given && a.decision.Approved?
      && Wrote(rows, ApprovalEvent(c, None), p) && Wrote(rows, ApprovalEvent(c, Some(a)), r)
    case Completed(o) =>
      && o.approval in given
      && Wrote(rows, ApprovalEvent(c, None), o.pendingId)
      && Wrote(rows, ApprovalEvent(c, Some(o.approval)), o.resumeId)
      && (o.approval.decision.Rejected? ==> o.gate == GateResult(false, HardGate, false))
      && (o.approval.decision.Approved? ==> o.gate == EvaluateToolGate(c.tool.gate, true))
      && (o.setupId.Some? <==> o.gate.allowed)
      && (o.setupId.Some? ==> Wrote(rows, SetupEvent(c), o.setupId.value))
    case _ => true
  }

  predicate Good(c: Setting, given: set<Approval>, s: System) {
    GoodRows(c, given, s.rows) && forall e | e in s.entries :: GoodEntry(c, given, s.rows, s.entries[e])
  }

  /** One more row at most, or nothing. */
  predicate Grows(rows: seq<Row>, after: seq<Row>) {
    after == rows || (|after| == |rows| + 1 && after[..|rows|] == rows)
  }

  lemma RecordingGrows(rows: seq<Row>, event: AuditEvent)
    ensures Grows(rows, RecordAlone(rows, event).0)
  {
  }

  lemma WroteIsStable(rows: seq<Row>, after: seq<Row>, event: AuditEvent, id: nat)
    requires Grows(rows, after) && EffectiveKey(event).TextKey?
    ensures Wrote(rows, event, id) ==> Wrote(after, event, id)
  {
    if after != rows && Wrote(rows, event, id) {
      assert after == rows + [after[|rows|]];
      SettledIsStable(rows, after[|rows|], event, Recorded(id));
    }
  }

  lemma GoodEntryIsStable(
    c: Setting, given: set<Approval>, more: set<Approval>, rows: seq<Row>, after: seq<Row>, entry: Entry)
    requires GoodEntry(c, given, rows, entry) && given <= more && Grows(rows, after)
    ensures GoodEntry(c, more, after, entry)
  {
    match entry
    case Suspended(p) => WroteIsStable(rows, after, ApprovalEvent(c, None), p);
    case Answered(p, a) => WroteIsStable(rows, after, ApprovalEvent(c, None), p);
    case Cleared(p, a, r) =>
      WroteIsStable(rows, after, ApprovalEvent(c, None), p);
      WroteIsStable(rows, after, ApprovalEvent(c, Some(a)), r);
    case Completed(o) =>
      WroteIsStable(rows, after, ApprovalEvent(c, None), o.pendingId);
      WroteIsStable(rows, after, ApprovalEvent(c, Some(o.approval)), o.resumeId);
      if o.setupId.Some? { WroteIsStable(rows, after, SetupEvent(c), o.setupId.value); }
    case _ =>
  }

  lemma OurRowIsStable(c: Setting, given: set<Approval>, more: set<Approval>, rows: seq<Row>, after: seq<Row>, i: nat)
    requires i < |rows| && rows <= after && given <= more && OurRow(c, given, rows, i)
    ensures OurRow(c, more, after, i)
  {
    assert after[i] == rows[i];
    if !(rows[i] == Keyed(ApprovalEvent(c, None))) && !ResponseRow(c, given, rows[i]) {
      var j :| 0 <= j < i && ApprovedRow(c, given, rows[j]);
      assert ApprovedRow(c, more, after[j]);
    }
  }

  /** The row a write appends may be judged at its own position. */
  lemma GoodRowsGrow(c: Setting, given: set<Approval>, rows: seq<Row>, event: AuditEvent)
    requires GoodRows(c, given, rows)
    requires Ours(c, event) ==> OurRow(c, given, rows + [Keyed(event)], |rows|)
    requires Ours(c, event) ==> EffectiveKey(event).TextKey? && Some(EffectiveKey(event).key) == event.idempotencyKey
    ensures GoodRows(c, given, RecordAlone(rows, event).0)
  {
    var after := RecordAlone(rows, event).0;
    RecordingKeepsUniqueKeys(rows, event);
    forall i | 0 <= i < |after| && Ours(c, after[i].fact) ensures OurRow(c, given, after, i) {
      if i < |rows| {
        OurRowIsStable(c, given, given, rows, after, i);
      }
    }
  }

  /** What one step promises about the ledger and the entry it moved. */
  predicate StepIsGood(c: Setting, given: set<Approval>, rows: seq<Row>, r: (seq<Row>, Entry)) {
    GoodRows(c, given, r.0) && Grows(rows, r.0) && GoodEntry(c, given, r.0, r.1)
  }

  /** A keyed write, made when its row is in order, keeps the ledger good and is settled. */
  lemma GoodWrite(c: Setting, given: set<Approval>, rows: seq<Row>, event: AuditEvent)
    requires GoodRows(c, given, rows) && OurRow(c, given, rows + [Keyed(event)], |rows|)
    requires EffectiveKey(event).TextKey? && Some(EffectiveKey(event).key) == event.idempotencyKey
    ensures var (after, answer) := RecordAlone(rows, event);
      GoodRows(c, given, after) && Grows(rows, after) && (answer.Recorded? ==> Wrote(after, event, answer.id))
  {
    GoodRowsGrow(c, given, rows, event);
    RecordingGrows(rows, event);
    RecordingSettles(rows, event);
  }

  lemma WritePendingIsGood(c: Setting, given: set<Approval>, rows: seq<Row>, resume: Option<ResumePayload>)
    requires GoodRows(c, given, rows) && GoodEntry(c, given, rows, Begun(resume))
    ensures StepIsGood(c, given, rows, WritePending(c, rows, resume))
  {
    GoodWrite(c, given, rows, ApprovalEvent(c, None));
  }

  lemma WriteResponseIsGood(c: Setting, given: set<Approval>, rows: seq<Row>, p: nat, a: Approval)
    requires GoodRows(c, given, rows) && GoodEntry(c, given, rows, Answered(p, a))
    ensures StepIsGood(c, given, rows, WriteResponse(c, rows, p, a))
  {
    var event := ApprovalEvent(c, Some(a));
    assert ResponseRow(c, given, (rows + [Keyed(event)])[|rows|]);
    GoodWrite(c, given, rows, event);
    WroteIsStable(rows, RecordAlone(rows, event).0, ApprovalEvent(c, None), p);
  }

  /** A recorded approval has its row, and the row carries the approval itself. */
  lemma ApprovalRowExists(c: Setting, given: set<Approval>, rows: seq<Row>, a: Approval, r: nat)
    requires GoodRows(c, given, rows) && a in given && a.decision.Approved?
    requires Wrote(rows, ApprovalEvent(c, Some(a)), r)
    ensures r < |rows| && ApprovedRow(c, given, rows[r])
  {
    var event := ApprovalEvent(c, Some(a));
    FirstRecordingAppends(rows, event);
    assert OurRow(c, given, rows, r);
    assert rows[r].fact.toolName == APPROVAL_TOOL && rows[r].fact.operatorDecision == Some("approved");
  }

  lemma SetupRowFits(c: Setting, given: set<Approval>, rows: seq<Row>, r: nat)
    requires r < |rows| && ApprovedRow(c, given, rows[r])
    ensures OurRow(c, given, rows + [Keyed(SetupEvent(c))], |rows|)
  {
    assert ApprovedRow(c, given, (rows + [Keyed(SetupEvent(c))])[r]);
  }

  lemma EarlierWritesStand(c: Setting, rows: seq<Row>, after: seq<Row>, p: nat, a: Approval, r: nat)
    requires Grows(rows, after)
    requires Wrote(rows, ApprovalEvent(c, None), p) && Wrote(rows, ApprovalEvent(c, Some(a)), r)
    ensures Wrote(after, ApprovalEvent(c, None), p) && Wrote(after, ApprovalEvent(c, Some(a)), r)
  {
    WroteIsStable(rows, after, ApprovalEvent(c, None), p);
    WroteIsStable(rows, after, ApprovalEvent(c, Some(a)), r);
  }

  lemma SetUpEnds(c: Setting, given: set<Approval>, rows: seq<Row>, p: nat, a: Approval, r: nat)
    requires Available(c) && EvaluateToolGate(c.tool.gate, true).allowed && a in given && a.decision.Approved?
    requires var (after, answer) := RecordAlone(rows, SetupEvent(c));
      && Wrote(after, ApprovalEvent(c, None), p) && Wrote(after, ApprovalEvent(c, Some(a)), r)
      && (answer.Recorded? ==> Wrote(after, SetupEvent(c), answer.id))
    ensures SetUp(c, rows, p, a, r).0 == RecordAlone(rows, SetupEvent(c)).0
    ensures GoodEntry(c, given, SetUp(c, rows, p, a, r).0, SetUp(c, rows, p, a, r).1)
  {
  }

  lemma SetUpIsGood(c: Setting, given: set<Approval>, rows: seq<Row>, p: nat, a: Approval, r: nat)
    requires GoodRows(c, given, rows) && GoodEntry(c, given, rows, Cleared(p, a, r))
    ensures StepIsGood(c, given, rows, SetUp(c, rows, p, a, r))
  {
    var event := SetupEvent(c);
    if Available(c) && EvaluateToolGate(c.tool.gate, true).allowed {
      ApprovalRowExists(c, given, rows, a, r);
      SetupRowFits(c, given, rows, r);
      GoodWrite(c, given, rows, event);
      EarlierWritesStand(c, rows, RecordAlone(rows, event).0, p, a, r);
      SetUpEnds(c, given, rows, p, a, r);
    }
  }

  lemma StepKeepsGood(c: Setting, given: set<Approval>, rows: seq<Row>, entry: Entry)
    requires GoodRows(c, given, rows) && GoodEntry(c, given, rows, entry)
    ensures StepIsGood(c, given, rows, Step(c, rows, entry))
  {
    match entry
    case Begun(resume) => WritePendingIsGood(c, given, rows, resume);
    case Answered(p, a) => WriteResponseIsGood(c, given, rows, p, a);
    case Cleared(p, a, r) => SetUpIsGood(c, given, rows, p, a, r);
    case _ =>
  }

  lemma MoreAnswersKeepGood(c: Setting, given: set<Approval>, more: set<Approval>, s: System)
    requires Good(c, given, s) && given <= more
    ensures Good(c, more, s)
  {
    forall i | 0 <= i < |s.rows| && Ours(c, s.rows[i].fact) ensures OurRow(c, more, s.rows, i) {
      OurRowIsStable(c, given, more, s.rows, s.rows, i);
    }
    forall e | e in s.entries ensures GoodEntry(c, more, s.rows, s.entries[e]) {
      GoodEntryIsStable(c, given, more, s.rows, s.rows, s.entries[e]);
    }
  }

  /** Rows grow, one entry moves, the others stand by. */
  lemma EntryMoveKeepsGood(c: Setting, given: set<Approval>, s: System, rows: seq<Row>, e: nat, entry: Entry)
    requires Good(c, given, s) && GoodRows(c, given, rows) && Grows(s.rows, rows) && GoodEntry(c, given, rows, entry)
    ensures Good(c, given, System(rows, s.entries[e := entry]))
  {
    forall d | d in s.entries && d != e ensures GoodEntry(c, given, rows, s.entries[d]) {
      GoodEntryIsStable(c, given, given, s.rows, rows, s.entries[d]);
    }
  }

  lemma NextKeepsGood(c: Setting, given: set<Approval>, s: System, a: Action)
    requires Good(c, given, s) && AnswerOf(c, a) <= given
    ensures Good(c, given, Next(c, s, a))
  {
    match a
    case Enter(e, resume) =>
      if e !in s.entries { EntryMoveKeepsGood(c, given, s, s.rows, e, Begun(resume)); }
    case Advance(e) =>
      if e in s.entries {
        var (rows, entry) := Step(c, s.rows, s.entries[e]);
        StepKeepsGood(c, given, s.rows, s.entries[e]);
        EntryMoveKeepsGood(c, given, s, rows, e, entry);
      }
    case Abandon(e) =>
      if e in s.entries { EntryMoveKeepsGood(c, given, s, s.rows, e, Abandoned); }
    case Elsewhere(event) =>
      if !Ours(c, event) {
        GoodRowsGrow(c, given, s.rows, event);
        RecordingGrows(s.rows, event);
        forall e | e in s.entries ensures GoodEntry(c, given, Next(c, s, a).rows, s.entries[e]) {
          GoodEntryIsStable(c, given, given, s.rows, Next(c, s, a).rows, s.entries[e]);
        }
      }
  }

  /** Every run: entries, crashes, resumes and foreign writes in any order and number. */
  lemma {:induction false} EveryRunIsGood(c: Setting, start: seq<Row>, actions: seq<Action>)
    requires Clean(c, start)
    ensures Good(c, Answers(c, actions), Run(c, start, actions))
  {
    if actions != [] {
      var before, last := actions[..|actions| - 1], actions[|actions| - 1];
      EveryRunIsGood(c, start, before);
      MoreAnswersKeepGood(c, Answers(c, before), Answers(c, actions), Run(c, start, before));
      NextKeepsGood(c, Answers(c, actions), Run(c, start, before), last);
    }
  }

  // ---------------------------------------------------------------- what every run keeps

  /** Which of the trace's four facts a row tells. */
  predicate Tells(row: Row, tool: string, decision: string) {
    row.fact.toolName == tool && row.fact.operatorDecision == Some(decision)
  }

  /** The key of each of the trace's rows follows from what it tells. */
  lemma TheKeyFollows(c: Setting, given: set<Approval>, rows: seq<Row>, i: nat)
    requires i < |rows| && OurRow(c, given, rows, i)
    ensures Tells(rows[i], SETUP_TOOL, "approved") || Tells(rows[i], APPROVAL_TOOL, "pending")
      || Tells(rows[i], APPROVAL_TOOL, "approved") || Tells(rows[i], APPROVAL_TOOL, "rejected")
    ensures rows[i].fact.toolName == SETUP_TOOL ==> rows[i].key == Some(SetupKey(c))
    ensures rows[i].fact.toolName == APPROVAL_TOOL ==>
      rows[i].fact.operatorDecision.Some? && rows[i].key == Some(ApprovalKey(c, rows[i].fact.operatorDecision.value))
  {
  }

  /** At most one pending, one approved, one rejected and one setup row, and nothing else. */
  lemma {:induction false} OneRowOfEachKind(c: Setting, start: seq<Row>, actions: seq<Action>, i: nat, j: nat)
    requires Clean(c, start)
    requires var rows := Run(c, start, actions).rows;
      && i < |rows| && j < |rows| && Ours(c, rows[i].fact) && Ours(c, rows[j].fact)
    ensures var rows := Run(c, start, actions).rows;
      && (Tells(rows[i], SETUP_TOOL, "approved") || Tells(rows[i], APPROVAL_TOOL, "pending")
          || Tells(rows[i], APPROVAL_TOOL, "approved") || Tells(rows[i], APPROVAL_TOOL, "rejected"))
      && (forall tool, decision :: Tells(rows[i], tool, decision) && Tells(rows[j], tool, decision) ==> i == j)
  {
    var rows, given := Run(c, start, actions).rows, Answers(c, actions);
    EveryRunIsGood(c, start, actions);
    TheKeyFollows(c, given, rows, i);
    TheKeyFollows(c, given, rows, j);
  }

  predicate HandsIn(c: Setting, action: Action, a: Approval) {
    && action.Enter? && action.resume.Some?
    && AnswersRequest(c, action.resume.value) && AnswerIn(action.resume.value) == a
  }

  lemma {:induction false} AnswersAreHandedIn(c: Setting, actions: seq<Action>, a: Approval)
    requires a in Answers(c, actions)
    ensures exists k | 0 <= k < |actions| :: HandsIn(c, actions[k], a)
  {
    hide Validated, AnswersRequest, AnswerIn;
    var before, last := actions[..|actions| - 1], actions[|actions| - 1];
    if a in Answers(c, before) {
      AnswersAreHandedIn(c, before, a);
      var k :| 0 <= k < |before| && HandsIn(c, before[k], a);
      assert actions[k] == before[k];
    } else {
      ValidatedExactly(c, last.resume.value);
      assert HandsIn(c, actions[|actions| - 1], a);
    }
  }

  /**
    A setup row stands behind an approved row, and behind that stands a resume of this very run:
    addressed to this trace, room and tool, saying "approved", its operator and reason stored.
   */
  lemma {:induction false} SetupFollowsAHumanYes(c: Setting, start: seq<Row>, actions: seq<Action>, i: nat)
    requires Clean(c, start)
    requires var rows := Run(c, start, actions).rows;
      i < |rows| && Ours(c, rows[i].fact) && rows[i].fact.toolName == SETUP_TOOL
    ensures var rows := Run(c, start, actions).rows;
      exists j, k | 0 <= j < i && 0 <= k < |actions| ::
        && Tells(rows[j], APPROVAL_TOOL, "approved") && Ours(c, rows[j].fact)
        && ApprovingResume(c, actions[k], rows[j].fact.result)
  {
    var rows, given := Run(c, start, actions).rows, Answers(c, actions);
    EveryRunIsGood(c, start, actions);
    assert OurRow(c, given, rows, i);
    var j :| 0 <= j < i && ApprovedRow(c, given, rows[j]);
    var a :| a in given && a.decision.Approved? && rows[j] == Keyed(ApprovalEvent(c, Some(a)));
    AnswersAreHandedIn(c, actions, a);
    hide Validated, AnswersRequest, AnswerIn, Run, Answers, OurRow, Clean;
    var k :| 0 <= k < |actions| && HandsIn(c, actions[k], a);
    ApprovingIsStored(c, actions[k], a);
  }

  /** An entry resumed by an approval of this request, signed as `result` says. */
  predicate ApprovingResume(c: Setting, action: Action, result: Payload) {
    && action.Enter? && action.resume.Some? && action.resume.value.Fields?
    && var p := action.resume.value;
       && Text.Strip(p.trace) == Text.Strip(c.trace) && Text.Strip(p.room) == Text.Strip(c.room)
       && Text.Strip(p.tool) == "setup_live_session" && p.decision == "approved"
       && "operator_id" in result && result["operator_id"] == Json.Text(Text.Strip(p.operator))
       && "reason" in result && result["reason"] == Json.Text(Text.Strip(p.reason))
       && "status" in result && result["status"] == Json.Text("resumed")
  }

  lemma ApprovingIsStored(c: Setting, action: Action, a: Approval)
    requires HandsIn(c, action, a) && a.decision.Approved?
    ensures ApprovingResume(c, action, ApprovalResult(Some(a)))
  {
  }

  /** The replay comparison tells two answers apart. */
  lemma AnswersTellApart(c: Setting, a: Approval, b: Approval)
    ensures SameFact(ApprovalEvent(c, Some(a)), ApprovalEvent(c, Some(b))) <==> a == b
  {
    FactsReflexive(ApprovalEvent(c, Some(a)));
    var l, r := ApprovalResult(Some(a)), ApprovalResult(Some(b));
    if SamePayload(l, r) {
      assert Json.SemanticallyEqual(l["operator_id"], r["operator_id"]);
      assert Json.SemanticallyEqual(l["reason"], r["reason"]);
      assert Json.SemanticallyEqual(l["decision"], r["decision"]);
      assert DecisionText(a.decision)[0] == DecisionText(b.decision)[0];
    }
  }

  /** All entries that got past the same kind of answer carry one answer under one id. */
  lemma OneAnswerPerDecision(c: Setting, rows: seq<Row>, a: Approval, b: Approval, r: nat, q: nat)
    requires Wrote(rows, ApprovalEvent(c, Some(a)), r) && Wrote(rows, ApprovalEvent(c, Some(b)), q)
    requires a.decision == b.decision
    ensures a == b && r == q
  {
    SettledTwice(rows, ApprovalEvent(c, Some(a)), ApprovalEvent(c, Some(b)), r, q);
    AnswersTellApart(c, a, b);
  }

  /** Completed entries of one decision end alike: same answer, same ids, same gate. */
  lemma {:induction false} OneOutcomePerDecision(c: Setting, start: seq<Row>, actions: seq<Action>, d: nat, e: nat)
    requires Clean(c, start)
    requires var s := Run(c, start, actions);
      && d in s.entries && e in s.entries && s.entries[d].Completed? && s.entries[e].Completed?
      && s.entries[d].outcome.approval.decision == s.entries[e].outcome.approval.decision
    ensures var s := Run(c, start, actions); s.entries[d].outcome == s.entries[e].outcome
  {
    var s := Run(c, start, actions);
    EveryRunIsGood(c, start, actions);
    assert GoodEntry(c, Answers(c, actions), s.rows, s.entries[d]);
    assert GoodEntry(c, Answers(c, actions), s.rows, s.entries[e]);
    var o, q := s.entries[d].outcome, s.entries[e].outcome;
    OneAnswerPerDecision(c, s.rows, o.approval, q.approval, o.resumeId, q.resumeId);
    SettledTwice(s.rows, ApprovalEvent(c, None), ApprovalEvent(c, None), o.pendingId, q.pendingId);
    if o.setupId.Some? {
      SettledTwice(s.rows, SetupEvent(c), SetupEvent(c), o.setupId.value, q.setupId.value);
    }
  }

  /** A completed entry's pending row is stored under its id, whatever was decided later. */
  lemma PendingRowStands(c: Setting, given: set<Approval>, s: System, e: nat)
    requires Good(c, given, s) && e in s.entries && s.entries[e].Completed?
    ensures var id := s.entries[e].outcome.pendingId;
      id < |s.rows| && SameScalars(ApprovalEvent(c, None), s.rows[id].fact)
  {
    assert GoodEntry(c, given, s.rows, s.entries[e]);
    FirstRecordingAppends(s.rows, ApprovalEvent(c, None));
  }

  // ---------------------------------------------------------------- one entry against the ledger

  /** An approved row is already stored when an approving entry writes its answer. */
  lemma {:induction false} ApprovingAgain(c: Setting, start: seq<Row>, actions: seq<Action>, e: nat, j: nat)
    requires Clean(c, start)
    requires var s := Run(c, start, actions);
      && e in s.entries && s.entries[e].Answered? && s.entries[e].approval.decision.Approved?
      && j < |s.rows| && Ours(c, s.rows[j].fact) && Tells(s.rows[j], APPROVAL_TOOL, "approved")
    ensures var s, t := Run(c, start, actions), Run(c, start, actions + [Advance(e)]);
      var a := s.entries[e].approval;
      && t.rows == s.rows
      && (SamePayload(s.rows[j].fact.result, ApprovalResult(Some(a))) ==>
            t.entries[e] == Cleared(s.entries[e].pendingId, a, j))
      && (!SamePayload(s.rows[j].fact.result, ApprovalResult(Some(a))) ==> t.entries[e] == Failed(Refused(Conflict)))
  {
    var s, given := Run(c, start, actions), Answers(c, actions);
    EveryRunIsGood(c, start, actions);
    assert (actions + [Advance(e)])[..|actions|] == actions;
    assert OurRow(c, given, s.rows, j);
    StoredApprovalAnswers(c, given, s.rows, s.entries[e].approval, j);
  }

  lemma StoredApprovalAnswers(c: Setting, given: set<Approval>, rows: seq<Row>, a: Approval, j: nat)
    requires UniqueKeys(rows) && j < |rows| && OurRow(c, given, rows, j)
    requires Tells(rows[j], APPROVAL_TOOL, DecisionText(a.decision))
    ensures var event := ApprovalEvent(c, Some(a));
      RecordAlone(rows, event)
        == (rows, if SamePayload(rows[j].fact.result, ApprovalResult(Some(a))) then Recorded(j) else Conflict)
  {
    TheKeyFollows(c, given, rows, j);
    var event := ApprovalEvent(c, Some(a));
    FactsReflexive(event);
    assert HasKey(rows[j], event.toolName, EffectiveKey(event).key);
    assert Find(rows, event.toolName, EffectiveKey(event).key) == Some(j);
    assert rows[j].fact.request == event.request;
  }

  /** No foreign row sits on one of this trace's keys. */
  predicate NoSquatter(c: Setting, rows: seq<Row>) {
    forall i | 0 <= i < |rows| && !Ours(c, rows[i].fact) ::
      && !HasKey(rows[i], SETUP_TOOL, SetupKey(c))
      && forall status | status in ["pending", "approved", "rejected"] ::
           !HasKey(rows[i], APPROVAL_TOOL, ApprovalKey(c, status))
  }

  /** Every stored answer of this kind is the given one. */
  predicate NoOtherAnswer(c: Setting, rows: seq<Row>, response: Option<Approval>) {
    forall i | 0 <= i < |rows| && Ours(c, rows[i].fact) && Tells(rows[i], APPROVAL_TOOL, Status(response)) ::
      SamePayload(rows[i].fact.result, ApprovalResult(response))
  }

  lemma OurWriteKeepsNoSquatter(c: Setting, rows: seq<Row>, event: AuditEvent)
    requires NoSquatter(c, rows) && Ours(c, event)
    ensures NoSquatter(c, RecordAlone(rows, event).0)
  {
  }

  lemma StepKeepsNoSquatter(c: Setting, rows: seq<Row>, entry: Entry)
    requires NoSquatter(c, rows)
    ensures NoSquatter(c, Step(c, rows, entry).0)
  {
    hide RecordAlone, ApprovalEvent, SetupEvent, NoSquatter, Ours;
    OurEvents(c, None);
    OurWriteKeepsNoSquatter(c, rows, SetupEvent(c));
    OurWriteKeepsNoSquatter(c, rows, ApprovalEvent(c, None));
    if entry.Answered? {
      OurEvents(c, Some(entry.approval));
      OurWriteKeepsNoSquatter(c, rows, ApprovalEvent(c, Some(entry.approval)));
    }
  }

  lemma OurEvents(c: Setting, response: Option<Approval>)
    ensures Ours(c, SetupEvent(c)) && Ours(c, ApprovalEvent(c, response))
  {
  }

  lemma StatusKeysDiffer(c: Setting, s1: string, s2: string)
    ensures ApprovalKey(c, s1) == ApprovalKey(c, s2) ==> s1 == s2
  {
    var base := RequestTrace(c) + ":setup_live_session:approval:";
    assert ApprovalKey(c, s1)[|base|..] == s1 && ApprovalKey(c, s2)[|base|..] == s2;
  }

  lemma ApprovalWriteSucceeds(c: Setting, given: set<Approval>, rows: seq<Row>, response: Option<Approval>)
    requires GoodRows(c, given, rows) && NoSquatter(c, rows)
    ensures RecordAlone(rows, ApprovalEvent(c, response)).1.Recorded? <==> NoOtherAnswer(c, rows, response)
  {
    var event := ApprovalEvent(c, response);
    var status := Status(response);
    var found := Find(rows, APPROVAL_TOOL, ApprovalKey(c, status));
    forall i | 0 <= i < |rows| && Ours(c, rows[i].fact) && rows[i].fact.toolName == APPROVAL_TOOL
      ensures Tells(rows[i], APPROVAL_TOOL, status) <==> found == Some(i)
    {
      assert OurRow(c, given, rows, i);
      TheKeyFollows(c, given, rows, i);
      StatusKeysDiffer(c, rows[i].fact.operatorDecision.value, status);
    }
    if found.Some? {
      assert status in ["pending", "approved", "rejected"];
      var row := rows[found.value];
      assert OurRow(c, given, rows, found.value);
      SameRequestAndScalars(c, given, rows, found.value, response);
    }
  }

  lemma SameRequestAndScalars(c: Setting, given: set<Approval>, rows: seq<Row>, i: nat, response: Option<Approval>)
    requires i < |rows| && OurRow(c, given, rows, i) && Tells(rows[i], APPROVAL_TOOL, Status(response))
    ensures EventMatchesStoredFact(ApprovalEvent(c, response), rows[i], ApprovalKey(c, Status(response)))
      <==> SamePayload(rows[i].fact.result, ApprovalResult(response))
  {
    FactsReflexive(ApprovalEvent(c, response));
    assert "pending"[0] != "approved"[0] && "pending"[0] != "rejected"[0];
    assert rows[i].fact.request == ApprovalEvent(c, response).request;
  }

  lemma PendingNeverDiffers(c: Setting, given: set<Approval>, rows: seq<Row>)
    requires GoodRows(c, given, rows)
    ensures NoOtherAnswer(c, rows, None)
  {
    FactsReflexive(ApprovalEvent(c, None));
    forall i | 0 <= i < |rows| && Ours(c, rows[i].fact) && Tells(rows[i], APPROVAL_TOOL, "pending")
      ensures SamePayload(rows[i].fact.result, ApprovalResult(None))
    {
      assert OurRow(c, given, rows, i);
      assert "pending"[0] != "approved"[0] && "pending"[0] != "rejected"[0];
    }
  }

  lemma SetupWriteSucceeds(c: Setting, given: set<Approval>, rows: seq<Row>)
    requires GoodRows(c, given, rows) && NoSquatter(c, rows)
    ensures RecordAlone(rows, SetupEvent(c)).1.Recorded?
  {
    FactsReflexive(SetupEvent(c));
    var found := Find(rows, SETUP_TOOL, SetupKey(c));
    if found.Some? {
      assert OurRow(c, given, rows, found.value);
      TheKeyFollows(c, given, rows, found.value);
    }
  }

  /** Writing an approval event of another status leaves the question open. */
  lemma OtherStatusIsNoAnswer(c: Setting, rows: seq<Row>, written: Option<Approval>, response: Option<Approval>)
    requires NoSquatter(c, rows) && Status(written) != Status(response)
    ensures var after := RecordAlone(rows, ApprovalEvent(c, written)).0;
      NoSquatter(c, after) && (NoOtherAnswer(c, after, response) <==> NoOtherAnswer(c, rows, response))
  {
    var after := RecordAlone(rows, ApprovalEvent(c, written)).0;
    assert forall i | 0 <= i < |rows| :: after[i] == rows[i];
  }

  /**
    An entry nothing interrupts completes exactly when nothing in the request is blank, the tool is
    open before the live, the resume answers this request, and no other answer of its decision is
    stored: whatever an earlier entry left half done.
   */
  lemma {:induction false} RetryCompletes(c: Setting, given: set<Approval>, rows: seq<Row>, payload: ResumePayload)
    requires GoodRows(c, given, rows) && NoSquatter(c, rows)
    requires AnswersRequest(c, payload) ==> AnswerIn(payload) in given
    ensures var end := WholeEntry(c, rows, Some(payload)).1;
      && (end.Completed? <==>
          && NothingBlank(c) && PreLive in c.tool.lifecycle
          && AnswersRequest(c, payload) && NoOtherAnswer(c, rows, Some(AnswerIn(payload))))
      && (end.Completed? ==> end.outcome.approval == AnswerIn(payload))
  {
    ValidatedExactly(c, payload);
    ValidRequestExactly(c);
    hide ApprovalEvent, SetupEvent, RecordAlone, NoOtherAnswer, NoSquatter, GoodRows, ValidRequest, Validated,
      NothingBlank, AnswersRequest, AnswerIn;
    if ValidRequest(c) && Available(c) && AnswersRequest(c, payload) {
      AnswerCompletes(c, given, rows, payload);
    }
  }

  lemma AnswerCompletes(c: Setting, given: set<Approval>, rows: seq<Row>, payload: ResumePayload)
    requires GoodRows(c, given, rows) && NoSquatter(c, rows) && ValidRequest(c) && Available(c)
    requires Validated(c, payload).Some? && Validated(c, payload).value in given
    ensures WholeEntry(c, rows, Some(payload)).1.Completed?
      <==> NoOtherAnswer(c, rows, Validated(c, payload))
    ensures var end := WholeEntry(c, rows, Some(payload)).1;
      end.Completed? ==> end.outcome.approval == Validated(c, payload).value
  {
    var a := Validated(c, payload).value;
    PendingWriteAnswers(c, given, rows, payload);
    var (r1, e1) := Step(c, rows, Begun(Some(payload)));
    AnsweredCompletes(c, given, r1, e1.pendingId, a);
  }

  lemma PendingWriteAnswers(c: Setting, given: set<Approval>, rows: seq<Row>, payload: ResumePayload)
    requires GoodRows(c, given, rows) && NoSquatter(c, rows) && ValidRequest(c) && Available(c)
    requires Validated(c, payload).Some? && Validated(c, payload).value in given
    ensures var a := Validated(c, payload).value;
      var (after, entry) := Step(c, rows, Begun(Some(payload)));
      && entry.Answered? && entry.approval == a && GoodRows(c, given, after) && GoodEntry(c, given, after, entry)
      && NoSquatter(c, after) && (NoOtherAnswer(c, after, Some(a)) <==> NoOtherAnswer(c, rows, Some(a)))
  {
    assert "pending"[0] != "approved"[0] && "pending"[0] != "rejected"[0];
    PendingNeverDiffers(c, given, rows);
    ApprovalWriteSucceeds(c, given, rows, None);
    WritePendingIsGood(c, given, rows, Some(payload));
    OtherStatusIsNoAnswer(c, rows, None, Validated(c, payload));
  }

  lemma AnsweredIsAvailable(c: Setting, given: set<Approval>, rows: seq<Row>, p: nat, a: Approval)
    requires GoodEntry(c, given, rows, Answered(p, a))
    ensures Available(c)
  {
    hide Wrote;
  }

  lemma AnsweredCompletes(c: Setting, given: set<Approval>, rows: seq<Row>, p: nat, a: Approval)
    requires GoodRows(c, given, rows) && GoodEntry(c, given, rows, Answered(p, a)) && NoSquatter(c, rows)
    ensures var (r, e) := Step(c, rows, Answered(p, a));
      var end := Step(c, r, e).1;
      (end.Completed? <==> NoOtherAnswer(c, rows, Some(a))) && (end.Completed? ==> end.outcome.approval == a)
  {
    hide RecordAlone, ApprovalEvent, SetupEvent, NoSquatter, NoOtherAnswer, GoodRows, GoodEntry;
    AnsweredIsAvailable(c, given, rows, p, a);
    ApprovalWriteSucceeds(c, given, rows, Some(a));
    WriteResponseIsGood(c, given, rows, p, a);
    StepKeepsNoSquatter(c, rows, Answered(p, a));
    if a.decision.Approved? && NoOtherAnswer(c, rows, Some(a)) {
      SetupWriteSucceeds(c, given, RecordAlone(rows, ApprovalEvent(c, Some(a))).0);
    }
  }

  /** Entering and advancing three times is an uninterrupted entry. */
  lemma UninterruptedRun(c: Setting, start: seq<Row>, actions: seq<Action>, e: nat, resume: Option<ResumePayload>)
    requires e !in Run(c, start, actions).entries
    ensures var s := Run(c, start, actions);
      var t := Run(c, start, actions + [Enter(e, resume), Advance(e), Advance(e), Advance(e)]);
      t == System(WholeEntry(c, s.rows, resume).0, s.entries[e := WholeEntry(c, s.rows, resume).1])
  {
    hide Step, WholeEntry, RecordAlone, Ours;
    var tail := [Enter(e, resume), Advance(e), Advance(e), Advance(e)];
    RunTail(c, start, actions, tail);
    RunTail(c, start, actions, tail[..3]);
    RunTail(c, start, actions, tail[..2]);
    RunTail(c, start, actions, tail[..1]);
    assert tail[..3][..2] == tail[..2] && tail[..2][..1] == tail[..1];
    assert actions + tail[..1][..0] == actions;
    WholeEntryIsThreeSteps(c, Run(c, start, actions).rows, resume);
  }

  lemma WholeEntryIsThreeSteps(c: Setting, rows: seq<Row>, resume: Option<ResumePayload>)
    ensures var first := Step(c, rows, Begun(resume));
      var second := Step(c, first.0, first.1);
      WholeEntry(c, rows, resume) == Step(c, second.0, second.1)
  {
    hide Step;
  }

  lemma RunTail(c: Setting, start: seq<Row>, actions: seq<Action>, tail: seq<Action>)
    requires tail != []
    ensures Run(c, start, actions + tail)
      == Next(c, Run(c, start, actions + tail[..|tail| - 1]), tail[|tail| - 1])
  {
    assert (actions + tail)[..|actions + tail| - 1] == actions + tail[..|tail| - 1];
  }

  function Uninterrupted(e: nat, payload: ResumePayload): seq<Action> {
    [Enter(e, Some(payload)), Advance(e), Advance(e), Advance(e)]
  }

  /** The same wherever a run stands: one more uninterrupted entry ends the trace under exactly these conditions. */
  lemma {:induction false} EveryTraceCanFinish(
    c: Setting, start: seq<Row>, actions: seq<Action>, e: nat, payload: ResumePayload)
    requires Clean(c, start)
    requires var s := Run(c, start, actions); e !in s.entries && NoSquatter(c, s.rows)
    ensures var s, t := Run(c, start, actions), Run(c, start, actions + Uninterrupted(e, payload));
      && e in t.entries
      && (t.entries[e].Completed? <==>
          && NothingBlank(c) && PreLive in c.tool.lifecycle
          && AnswersRequest(c, payload) && NoOtherAnswer(c, s.rows, Some(AnswerIn(payload))))
      && (t.entries[e].Completed? ==> t.entries[e].outcome.approval == AnswerIn(payload))
  {
    var s := Run(c, start, actions);
    var given := Answers(c, actions) + (if AnswersRequest(c, payload) then {AnswerIn(payload)} else {});
    EveryRunIsGood(c, start, actions);
    MoreAnswersKeepGood(c, Answers(c, actions), given, s);
    RetryCompletes(c, given, s.rows, payload);
    UninterruptedRun(c, start, actions, e, Some(payload));
  }

  lemma WholeEntryKeepsNoSquatter(c: Setting, rows: seq<Row>, resume: Option<ResumePayload>)
    requires NoSquatter(c, rows)
    ensures NoSquatter(c, WholeEntry(c, rows, resume).0)
  {
    var (r1, e1) := Step(c, rows, Begun(resume));
    var (r2, e2) := Step(c, r1, e1);
    StepKeepsNoSquatter(c, rows, Begun(resume));
    StepKeepsNoSquatter(c, r1, e1);
    StepKeepsNoSquatter(c, r2, e2);
  }

  lemma {:induction false} NoApprovalWithoutAYes(c: Setting, given: set<Approval>, rows: seq<Row>, yes: Approval)
    requires GoodRows(c, given, rows) && yes.decision.Approved?
    requires forall a | a in given :: a.decision.Rejected?
    ensures NoOtherAnswer(c, rows, Some(yes))
  {
    assert "pending"[0] != "approved"[0] && "rejected"[0] != "approved"[0];
    forall i | 0 <= i < |rows| && Ours(c, rows[i].fact) ensures !Tells(rows[i], APPROVAL_TOOL, "approved") {
      assert OurRow(c, given, rows, i);
    }
  }

  lemma AnswersOfOneEntry(c: Setting, e: nat, payload: ResumePayload)
    requires Validated(c, payload).Some?
    ensures Answers(c, Uninterrupted(e, payload)) == {Validated(c, payload).value}
  {
    var all := Uninterrupted(e, payload);
    assert all[..3][..2] == all[..2] && all[..2][..1] == all[..1] && all[..1][..0] == [];
    assert Answers(c, all[..1]) == {Validated(c, payload).value};
    assert Answers(c, all[..2]) == {Validated(c, payload).value};
    assert Answers(c, all[..3]) == {Validated(c, payload).value};
  }

  /**
    A stored rejection does not bind a later entry: two uninterrupted entries, the first
    rejected and the second approved, both complete, and the second sets the session up.
   */
  lemma {:induction false} RejectionIsNotFinal(c: Setting, start: seq<Row>, no: ResumePayload, yes: ResumePayload)
    requires Clean(c, start) && NothingBlank(c) && PreLive in c.tool.lifecycle && NoSquatter(c, start)
    requires AnswersRequest(c, no) && no.decision == "rejected"
    requires AnswersRequest(c, yes) && yes.decision == "approved"
    ensures var s := Run(c, start, Uninterrupted(0, no) + Uninterrupted(1, yes));
      && 0 in s.entries && 1 in s.entries && s.entries[0].Completed? && s.entries[1].Completed?
      && s.entries[0].outcome.approval.decision.Rejected?
      && (s.entries[1].outcome.setupId.Some? <==> !c.tool.gate.Block?)
  {
    var first, second := Uninterrupted(0, no), Uninterrupted(1, yes);
    AfterTheRejection(c, start, no, yes);
    EveryTraceCanFinish(c, start, first, 1, yes);
    UninterruptedRun(c, start, first, 1, Some(yes));
    var s := Run(c, start, first + second);
    EveryRunIsGood(c, start, first + second);
    ApprovedEntrySetsUp(c, Answers(c, first + second), s.rows, s.entries[1]);
  }

  lemma ApprovedEntrySetsUp(c: Setting, given: set<Approval>, rows: seq<Row>, entry: Entry)
    requires GoodEntry(c, given, rows, entry) && entry.Completed? && entry.outcome.approval.decision.Approved?
    ensures entry.outcome.setupId.Some? <==> !c.tool.gate.Block?
  {
    hide Wrote, ApprovalEvent, SetupEvent;
  }

  lemma AfterTheRejection(c: Setting, start: seq<Row>, no: ResumePayload, yes: ResumePayload)
    requires Clean(c, start) && NothingBlank(c) && PreLive in c.tool.lifecycle && NoSquatter(c, start)
    requires AnswersRequest(c, no) && no.decision == "rejected"
    requires AnswersRequest(c, yes) && yes.decision == "approved"
    ensures var s := Run(c, start, Uninterrupted(0, no));
      && s.entries.Keys == {0} && s.entries[0].Completed? && s.entries[0].outcome.approval == AnswerIn(no)
      && NoSquatter(c, s.rows) && NoOtherAnswer(c, s.rows, Some(AnswerIn(yes)))
  {
    var first := Uninterrupted(0, no);
    ValidatedExactly(c, no);
    assert [] + first == first;
    EveryTraceCanFinish(c, start, [], 0, no);
    UninterruptedRun(c, start, [], 0, Some(no));
    WholeEntryKeepsNoSquatter(c, start, Some(no));
    EveryRunIsGood(c, start, first);
    AnswersOfOneEntry(c, 0, no);
    NoApprovalWithoutAYes(c, Answers(c, first), Run(c, start, first).rows, AnswerIn(yes));
  }

  // ---------------------------------------------------------------- what the keys and facts tell apart

  /** Traces never share a key, and within a trace no two statuses do. */
  lemma KeysTellApart(c: Setting, d: Setting, s1: string, s2: string)
    ensures SetupKey(c) == SetupKey(d) <==> c.trace == d.trace
    ensures ApprovalKey(c, s1) == ApprovalKey(d, s1) <==> RequestTrace(c) == RequestTrace(d)
    ensures ApprovalKey(c, s1) == ApprovalKey(c, s2) <==> s1 == s2
  {
    StatusKeysDiffer(c, s1, s2);
    SameTail(c.trace, d.trace, ":setup_live_session");
    SameTail(RequestTrace(c), RequestTrace(d), ":setup_live_session:approval:" + s1);
    assert ApprovalKey(c, s1) == RequestTrace(c) + (":setup_live_session:approval:" + s1);
    assert ApprovalKey(d, s1) == RequestTrace(d) + (":setup_live_session:approval:" + s1);
  }

  lemma SameTail(a: string, b: string, tail: string)
    ensures a + tail == b + tail <==> a == b
  {
    if a + tail == b + tail {
      assert |a| == |b|;
      assert (a + tail)[..|a|] == a && (b + tail)[..|b|] == b;
    }
  }

  /** What an approval row says: whose it is, what was asked and what was answered. */
  predicate ApprovalReads(c: Setting, row: Row, status: string) {
    var fact, trace := row.fact, Text.Strip(c.trace);
    var key := trace + ":setup_live_session:approval:" + status;
    && fact.traceId == trace && fact.roomId == Text.Strip(c.room) && fact.toolName == "setup_live_session_approval"
    && fact.actionType == (if status == "pending" then "HUMAN_APPROVAL_PENDING" else "HUMAN_APPROVAL_RESUMED")
    && fact.risk == c.tool.risk && fact.gate == c.tool.gate && fact.operatorDecision == Some(status)
    && row.key == fact.idempotencyKey == Some(key)
    && RequestReads(c, fact.request, key)
    && "status" in fact.result
    && fact.result["status"] == Json.Text(if status == "approved" then "resumed" else status)
  }

  predicate RequestReads(c: Setting, request: Payload, key: string) {
    && request.Keys == {
         "trace_id", "room_id", "tool_name", "risk_level", "action", "plan_item_ids", "message", "tool_arguments",
         "context_summary", "idempotency_key"}
    && request["trace_id"] == Json.Text(Text.Strip(c.trace)) && request["idempotency_key"] == Json.Text(key)
    && request["room_id"] == Json.Text(Text.Strip(c.room))
    && request["tool_name"] == Json.Text("setup_live_session") && request["risk_level"] == Json.Text("HIGH")
    && request["plan_item_ids"].Array? && |request["plan_item_ids"].items| == |c.planItems|
    && (forall i | 0 <= i < |c.planItems| ::
         request["plan_item_ids"].items[i] == Json.Text(Text.Strip(c.planItems[i])))
  }

  lemma RequestPayloadReads(c: Setting, key: string)
    ensures RequestReads(c, RequestPayload(c, key), key)
  {
    hide Text.Strip;
  }

  lemma ApprovalResultReads(response: Option<Approval>)
    ensures var status, result := Status(response), ApprovalResult(response);
      && status in ["pending", "approved", "rejected"] && (status == "pending" <==> response.None?)
      && "status" in result && result["status"] == Json.Text(if status == "approved" then "resumed" else status)
  {
    assert "pending"[0] == 'p' && "approved"[0] == 'a' && "rejected"[0] == 'r';
  }

  predicate SetupReads(c: Setting, row: Row) {
    var fact, key := row.fact, c.trace + ":setup_live_session";
    && fact.traceId == c.trace && fact.roomId == c.room && fact.toolName == "setup_live_session"
    && fact.actionType == "SETUP_LIVE_SESSION" && fact.risk == c.tool.risk && fact.gate == c.tool.gate
    && fact.operatorDecision == Some("approved") && row.key == fact.idempotencyKey == Some(key)
    && fact.request == map["room_id" := Json.Text(c.room), "idempotency_key" := Json.Text(key)]
    && fact.result.Keys == {"status", "plan_item_ids"} && fact.result["status"] == Json.Text("prepared")
    && fact.result["plan_item_ids"].Array? && |fact.result["plan_item_ids"].items| == |c.planItems|
    && (forall i | 0 <= i < |c.planItems| :: fact.result["plan_item_ids"].items[i] == Json.Text(c.planItems[i]))
  }

  /** In every run each of the trace's rows reads, field by field, as one of the four facts. */
  lemma {:induction false} RowsReadAsWritten(c: Setting, start: seq<Row>, actions: seq<Action>, i: nat)
    requires Clean(c, start)
    requires var rows := Run(c, start, actions).rows; i < |rows| && Ours(c, rows[i].fact)
    ensures var row := Run(c, start, actions).rows[i];
      || SetupReads(c, row) || ApprovalReads(c, row, "pending")
      || ApprovalReads(c, row, "approved") || ApprovalReads(c, row, "rejected")
  {
    EveryRunIsGood(c, start, actions);
    assert OurRow(c, Answers(c, actions), Run(c, start, actions).rows, i);
    hide *;
    OurRowReads(c, Answers(c, actions), Run(c, start, actions).rows, i);
  }

  lemma OurRowReads(c: Setting, given: set<Approval>, rows: seq<Row>, i: nat)
    requires i < |rows| && OurRow(c, given, rows, i)
    ensures SetupReads(c, rows[i]) || ApprovalReads(c, rows[i], "pending")
      || ApprovalReads(c, rows[i], "approved") || ApprovalReads(c, rows[i], "rejected")
  {
    hide SetupReads, ApprovalReads, ApprovalEvent, SetupEvent;
    SetupEventReads(c);
    ApprovalEventReads(c, None);
    if ResponseRow(c, given, rows[i]) {
      var a :| a in given && rows[i] == Keyed(ApprovalEvent(c, Some(a)));
      ApprovalEventReads(c, Some(a));
    }
  }

  lemma SetupEventReads(c: Setting)
    ensures SetupReads(c, Keyed(SetupEvent(c)))
  {
  }

  lemma ApprovalEventReads(c: Setting, response: Option<Approval>)
    ensures ApprovalReads(c, Keyed(ApprovalEvent(c, response)), Status(response))
    ensures Status(response) in ["pending", "approved", "rejected"]
  {
    hide Text.Strip, RequestReads, RequestPayload, ApprovalResult, Status;
    ApprovalResultReads(response);
    RequestPayloadReads(c, ApprovalKey(c, Status(response)));
  }

  lemma TextsTellApart(a: seq<string>, b: seq<string>)
    ensures Json.Normalise(Texts(a)) == Json.Normalise(Texts(b)) <==> a == b
  {
    var l, r := Json.Normalise(Texts(a)), Json.Normalise(Texts(b));
    forall i | 0 <= i < |a| ensures l.items[i] == Json.Text(a[i]) {
      Json.NormaliseItem(Texts(a).items, i);
    }
    forall i | 0 <= i < |b| ensures r.items[i] == Json.Text(b[i]) {
      Json.NormaliseItem(Texts(b).items, i);
    }
    if l == r {
      forall i | 0 <= i < |a| ensures a[i] == b[i] {
        assert l.items[i] == r.items[i];
      }
    }
  }

  /** Two setups are one fact exactly when they agree in trace, room, plan, risk and gate. */
  lemma SetupsTellApart(c: Setting, d: Setting)
    ensures OneFact(SetupEvent(c), SetupEvent(d)) <==>
      && c.trace == d.trace && c.room == d.room && c.planItems == d.planItems
      && c.tool.risk == d.tool.risk && c.tool.gate == d.tool.gate
  {
    TextsTellApart(c.planItems, d.planItems);
    var l, r := Json.Normalise(Json.Object(SetupEvent(c).result)), Json.Normalise(Json.Object(SetupEvent(d).result));
    assert l.fields["plan_item_ids"] == Json.Normalise(Texts(c.planItems));
    assert r.fields["plan_item_ids"] == Json.Normalise(Texts(d.planItems));
  }

  /** A stored setup is reused for the same plan only: under its key any other plan, room or policy conflicts. */
  lemma AnotherPlanConflicts(c: Setting, d: Setting, rows: seq<Row>, i: nat)
    requires UniqueKeys(rows) && i < |rows| && rows[i] == Keyed(SetupEvent(d)) && c.trace == d.trace
    ensures RecordAlone(rows, SetupEvent(c)) ==
      (rows,
       if c.room == d.room && c.planItems == d.planItems && c.tool.risk == d.tool.risk && c.tool.gate == d.tool.gate
       then Recorded(i) else Conflict)
  {
    SetupsTellApart(c, d);
    assert HasKey(rows[i], SETUP_TOOL, SetupKey(c));
    OccupiedKeyAnswers(rows, SetupEvent(c), i);
    hide OneFact, RecordAlone;
  }
}
