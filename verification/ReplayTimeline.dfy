/**
  The degraded replay: with no checkpoint history, a session record and the ledger rows of its
  trace are laid out as one numbered timeline. Every text of a tool call or an approval passes
  the replay redactor on its way in; `scrub` is its path-regex pass.
 */
module ReplayTimeline {
  import opened Wrappers
  import opened Governance
  import opened RuleEvaluator
  import AuditLedger
  import PreLiveApproval
  import Redaction
  import Text

  datatype ExecutedTool = ExecutedTool(name: Option<string>, risk: Option<string>, status: Option<string>)

  /** What the replay reads of a stored session. */
  datatype Session = Session(
    status: string,
    agentStatus: Option<string>,
    completedNodes: seq<string>,
    executedTools: seq<ExecutedTool>,
    approvalDecision: Option<string>,
    auditIds: seq<string>,
    decisionTraceIds: seq<string>)

  /** What the replay reads of one ledger row. */
  datatype AuditRecord = AuditRecord(
    auditId: Option<string>,
    toolName: Option<string>,
    risk: Option<string>,
    operatorDecision: Option<string>)

  predicate Truthy(text: Option<string>) {
    text.Some? && text.value != ""
  }

  function OrElse(text: Option<string>, other: string): string {
    if Truthy(text) then text.value else other
  }

  function Clean(text: Option<string>, scrub: string -> string): Option<string> {
    if text.None? then None else Some(Redaction.SanitizeText(text.value, scrub))
  }

  function ApprovalDecisionFromOperator(operatorDecision: Option<string>): (decision: Option<string>)
    ensures decision in [None, Some("approved"), Some("rejected")]
    ensures decision == Some("approved") <==> Text.Lower(OrElse(operatorDecision, "")) in ["approved", "approve"]
    ensures decision == Some("rejected") <==> Text.Lower(OrElse(operatorDecision, "")) in ["rejected", "reject"]
  {
    var raw := Text.Lower(OrElse(operatorDecision, ""));
    if raw == "approved" || raw == "approve" then Some("approved")
    else if raw == "rejected" || raw == "reject" then Some("rejected")
    else None
  }

  function ApprovalFromState(session: Session): Option<string> {
    if Truthy(session.approvalDecision) then session.approvalDecision else None
  }

  function EvidenceOf(session: Session): seq<string> {
    session.auditIds + session.decisionTraceIds
  }

  function Without(ids: seq<string>, id: string): (rest: seq<string>)
    ensures forall x :: x in rest <==> x in ids && x != id
    ensures |rest| <= |ids|
  {
    if ids == [] then [] else (if ids[0] != id then [ids[0]] else []) + Without(ids[1..], id)
  }

  /** The row's own id leads and is not repeated. */
  function AuditEvidence(record: AuditRecord, fallback: seq<string>): (ids: seq<string>)
    ensures Truthy(record.auditId) ==> ids != [] && ids[0] == record.auditId.value && record.auditId.value !in ids[1..]
    ensures forall id :: id in ids <==> id in fallback || (Truthy(record.auditId) && id == record.auditId.value)
  {
    if Truthy(record.auditId) then [record.auditId.value] + Without(fallback, record.auditId.value) else fallback
  }

  // ---------------------------------------------------------------- the three kinds of items

  function NodeItem(session: Session, sequence: nat, node: string): Item {
    Item(sequence, node, OrElse(session.agentStatus, session.status), None, None, None, EvidenceOf(session))
  }

  function ToolItem(session: Session, sequence: nat, tool: ExecutedTool, scrub: string -> string): Item {
    Item(
      sequence, "execute_tool", OrElse(tool.status, "completed"),
      Clean(tool.name, scrub), Clean(tool.risk, scrub), Clean(ApprovalFromState(session), scrub),
      EvidenceOf(session))
  }

  function AuditItem(sequence: nat, record: AuditRecord, fallback: seq<string>, scrub: string -> string): Item {
    Item(
      sequence, "audit_event", "recorded",
      Clean(record.toolName, scrub), Clean(record.risk, scrub),
      Clean(ApprovalDecisionFromOperator(record.operatorDecision), scrub),
      AuditEvidence(record, fallback))
  }

  /** The ledger rows of the trace, one item each; none when there is no store or reading it fails. */
  method AuditItems(events: Option<seq<AuditRecord>>, start: nat, fallback: seq<string>, scrub: string -> string)
    returns (items: seq<Item>)
    ensures |items| == |RecordsOf(events)|
    ensures forall i | 0 <= i < |items| :: items[i] == AuditItem(start + i, RecordsOf(events)[i], fallback, scrub)
  {
    items := [];
    if events.None? { return; }
    var records := events.value;
    for offset := 0 to |records|
      invariant |items| == offset
      invariant forall i | 0 <= i < offset :: items[i] == AuditItem(start + i, records[i], fallback, scrub)
    {
      items := items + [AuditItem(start + offset, records[offset], fallback, scrub)];
    }
  }

  function RecordsOf(events: Option<seq<AuditRecord>>): seq<AuditRecord> {
    if events.Some? then events.value else []
  }

  /** The timeline is numbered 1..n, and lists nodes, then executed tools, then ledger rows. */
  ghost predicate LaysOut(timeline: seq<Item>, session: Session, records: seq<AuditRecord>, scrub: string -> string) {
    var n, t := |session.completedNodes|, |session.executedTools|;
    && |timeline| == n + t + |records|
    && (forall i | 0 <= i < |timeline| :: timeline[i].sequence == i + 1)
    && (forall i | 0 <= i < n :: timeline[i] == NodeItem(session, i + 1, session.completedNodes[i]))
    && (forall i | n <= i < n + t :: timeline[i] == ToolItem(session, i + 1, session.executedTools[i - n], scrub))
    && (forall i | n + t <= i < |timeline| ::
         timeline[i] == AuditItem(i + 1, records[i - n - t], EvidenceOf(session), scrub))
  }

  lemma Assembled(
    items: seq<Item>, auditItems: seq<Item>, session: Session, records: seq<AuditRecord>, scrub: string -> string)
    requires var n, t := |session.completedNodes|, |session.executedTools|;
      && |items| == n + t && |auditItems| == |records|
      && (forall i | 0 <= i < n :: items[i] == NodeItem(session, i + 1, session.completedNodes[i]))
      && (forall i | n <= i < n + t :: items[i] == ToolItem(session, i + 1, session.executedTools[i - n], scrub))
      && (forall i | 0 <= i < |records| ::
           auditItems[i] == AuditItem(n + t + 1 + i, records[i], EvidenceOf(session), scrub))
    ensures LaysOut(items + auditItems, session, records, scrub)
  {
    hide OrElse, Clean, EvidenceOf, AuditEvidence, ApprovalDecisionFromOperator, ApprovalFromState;
    forall i | 0 <= i < |items + auditItems| ensures (items + auditItems)[i].sequence == i + 1 {
      if i >= |items| { assert (items + auditItems)[i] == auditItems[i - |items|]; }
    }
  }

  /** Without a session store the replay is empty. */
  method BuildDegradedReplay(
    traceId: string, session: Option<Session>, events: Option<seq<AuditRecord>>, scrub: string -> string)
    returns (replay: Replay)
    ensures replay.traceId == traceId && replay.fidelity == Degraded
    ensures session.None? ==> replay.timeline == []
    ensures session.Some? ==> LaysOut(replay.timeline, session.value, RecordsOf(events), scrub)
  {
    if session.None? { return Replay(traceId, Degraded, []); }
    hide NodeItem, ToolItem, AuditItem, LaysOut;
    var s := session.value;
    var n, t := |s.completedNodes|, |s.executedTools|;
    var items: seq<Item> := [];
    for i := 0 to n
      invariant |items| == i
      invariant forall k | 0 <= k < i :: items[k] == NodeItem(s, k + 1, s.completedNodes[k])
    {
      items := items + [NodeItem(s, i + 1, s.completedNodes[i])];
    }
    var nextSequence := |items| + 1;
    for i := 0 to t
      invariant |items| == n + i && nextSequence == n + i + 1
      invariant forall k | 0 <= k < n :: items[k] == NodeItem(s, k + 1, s.completedNodes[k])
      invariant forall k | n <= k < n + i :: items[k] == ToolItem(s, k + 1, s.executedTools[k - n], scrub)
    {
      items := items + [ToolItem(s, nextSequence, s.executedTools[i], scrub)];
      nextSequence := nextSequence + 1;
    }
    var auditItems := AuditItems(events, nextSequence, EvidenceOf(s), scrub);
    Assembled(items, auditItems, s, RecordsOf(events), scrub);
    replay := Replay(traceId, Degraded, items + auditItems);
  }

  // ---------------------------------------------------------------- the verdict of a degraded replay

  // The rules once more, spelled out on the session and the ledger rows.

  predicate CallBreaksARule(name: string, risk: Option<string>, approved: bool) {
    && name != ""
    && (name == "blocked_tool"
        || ((name == "handle_sold_out_event" || (risk != None && SpellsHigh(risk.value))) && !approved))
  }

  function Redacted(text: Option<string>, scrub: string -> string): Option<string> {
    match text case None => None case Some(t) => Some(Redaction.SanitizeText(t, scrub))
  }

  /** The stored decision, if there is one, reads "approved". */
  predicate SessionApproves(session: Session, scrub: string -> string) {
    && session.approvalDecision != None && session.approvalDecision != Some("")
    && Redaction.SanitizeText(session.approvalDecision.value, scrub) == "approved"
  }

  predicate ToolBreaksARule(session: Session, tool: ExecutedTool, scrub: string -> string) {
    && tool.name != None
    && var name := Redaction.SanitizeText(tool.name.value, scrub);
       || CallBreaksARule(name, Redacted(tool.risk, scrub), SessionApproves(session, scrub))
       || (name != "" && session.auditIds == [] && session.decisionTraceIds == [])
  }

  /** The path patterns all need a backslash, so other texts pass the regexes unchanged. */
  ghost predicate LeavesPlainText(scrub: string -> string) {
    forall s | '\\' !in s :: scrub(s) == s
  }

  predicate OperatorApproved(record: AuditRecord) {
    record.operatorDecision != None && Text.Lower(record.operatorDecision.value) in ["approved", "approve"]
  }

  predicate RecordBreaksARule(record: AuditRecord, scrub: string -> string) {
    && record.toolName != None
    && CallBreaksARule(
         Redaction.SanitizeText(record.toolName.value, scrub), Redacted(record.risk, scrub), OperatorApproved(record))
  }

  lemma WordsStay(scrub: string -> string)
    requires LeavesPlainText(scrub)
    ensures Redaction.SanitizeText("approved", scrub) == "approved"
    ensures Redaction.SanitizeText("rejected", scrub) == "rejected"
    ensures "approved" != "rejected"
  {
    PlainTextStaysItself("approved", scrub);
    PlainTextStaysItself("rejected", scrub);
    assert "approved"[0] != "rejected"[0];
    hide Redaction.SanitizeText, LeavesPlainText;
  }

  /** A session that stored a rejection approves nothing; one that stored an approval approves. */
  lemma StoredDecisions(session: Session, scrub: string -> string)
    requires LeavesPlainText(scrub)
    ensures session.approvalDecision in [None, Some(""), Some("rejected")] ==> !SessionApproves(session, scrub)
    ensures session.approvalDecision == Some("approved") ==> SessionApproves(session, scrub)
  {
    hide Redaction.SanitizeText, LeavesPlainText;
    WordsStay(scrub);
  }

  lemma PlainTextStaysItself(text: string, scrub: string -> string)
    requires LeavesPlainText(scrub) && '\\' !in text && '.' !in text
    ensures Clean(Some(text), scrub) == Some(text)
  {
    Text.ContainsNeedsHead(text, Redaction.ENV_FRAGMENT);
    Text.ReplaceAbsent(text, Redaction.ENV_FRAGMENT, Redaction.REDACTED_ENV);
  }

  lemma NodeItemsNeverViolate(session: Session, sequence: nat, node: string)
    ensures !Violates(NodeItem(session, sequence, node))
  {
  }

  lemma ToolItemViolates(session: Session, sequence: nat, tool: ExecutedTool, scrub: string -> string)
    ensures Violates(ToolItem(session, sequence, tool, scrub)) <==> ToolBreaksARule(session, tool, scrub)
  {
    assert EvidenceOf(session) == [] <==> session.auditIds == [] && session.decisionTraceIds == [];
  }

  lemma AuditItemViolates(sequence: nat, record: AuditRecord, fallback: seq<string>, scrub: string -> string)
    requires LeavesPlainText(scrub)
    ensures Violates(AuditItem(sequence, record, fallback, scrub)) <==> RecordBreaksARule(record, scrub)
  {
    hide Redaction.SanitizeText, LeavesPlainText, SpellsHigh, AuditEvidence, Text.Lower, ApprovalDecisionFromOperator,
      OperatorApproved;
    WordsStay(scrub);
    EmptyIsNoApproval(record);
  }

  lemma EmptyIsNoApproval(record: AuditRecord)
    ensures OperatorApproved(record) <==> ApprovalDecisionFromOperator(record.operatorDecision) == Some("approved")
  {
    assert |Text.Lower("")| == 0;
  }

  /** Which item of a laid-out timeline violates. */
  lemma ItemViolates(timeline: seq<Item>, session: Session, records: seq<AuditRecord>, scrub: string -> string, i: nat)
    requires LeavesPlainText(scrub) && LaysOut(timeline, session, records, scrub) && i < |timeline|
    ensures var n, t := |session.completedNodes|, |session.executedTools|;
      Violates(timeline[i]) <==>
        if i < n then false
        else if i < n + t then ToolBreaksARule(session, session.executedTools[i - n], scrub)
        else RecordBreaksARule(records[i - n - t], scrub)
  {
    hide Violates, ToolBreaksARule, RecordBreaksARule, LeavesPlainText, NodeItem, ToolItem, AuditItem, EvidenceOf;
    var n, t := |session.completedNodes|, |session.executedTools|;
    if i < n {
      NodeItemsNeverViolate(session, i + 1, session.completedNodes[i]);
    } else if i < n + t {
      ToolItemViolates(session, i + 1, session.executedTools[i - n], scrub);
    } else {
      AuditItemViolates(i + 1, records[i - n - t], EvidenceOf(session), scrub);
    }
  }

  lemma LaidOutLength(timeline: seq<Item>, session: Session, records: seq<AuditRecord>, scrub: string -> string)
    requires LaysOut(timeline, session, records, scrub)
    ensures |timeline| == |session.completedNodes| + |session.executedTools| + |records|
  {
  }

  lemma FailIsAnIndex(replay: Replay)
    ensures VerdictOf(replay) == Fail <==> exists i | 0 <= i < |replay.timeline| :: Violates(replay.timeline[i])
  {
    hide Violates, Passes;
    if item :| item in replay.timeline && Violates(item) {
      var k :| 0 <= k < |replay.timeline| && replay.timeline[k] == item;
    }
  }

  /** FAIL, read off the session and the ledger rows alone. */
  lemma {:induction false} DegradedVerdict(
    replay: Replay, session: Session, records: seq<AuditRecord>, scrub: string -> string)
    requires LeavesPlainText(scrub) && LaysOut(replay.timeline, session, records, scrub)
    ensures VerdictOf(replay) == Fail <==>
      || (exists i | 0 <= i < |session.executedTools| :: ToolBreaksARule(session, session.executedTools[i], scrub))
      || (exists i | 0 <= i < |records| :: RecordBreaksARule(records[i], scrub))
  {
    hide *;
    var timeline, n, t := replay.timeline, |session.completedNodes|, |session.executedTools|;
    LaidOutLength(timeline, session, records, scrub);
    FailIsAnIndex(replay);
    if k :| 0 <= k < |timeline| && Violates(timeline[k]) {
      ItemViolates(timeline, session, records, scrub, k);
    }
    if i :| 0 <= i < t && ToolBreaksARule(session, session.executedTools[i], scrub) {
      ItemViolates(timeline, session, records, scrub, n + i);
    }
    if i :| 0 <= i < |records| && RecordBreaksARule(records[i], scrub) {
      ItemViolates(timeline, session, records, scrub, n + t + i);
    }
  }

  lemma LaidOutNames(timeline: seq<Item>, session: Session, records: seq<AuditRecord>, scrub: string -> string)
    requires LaysOut(timeline, session, records, scrub)
    ensures var n, t := |session.completedNodes|, |session.executedTools|;
      && (forall i | 0 <= i < n :: timeline[i].nodeName == session.completedNodes[i])
      && (forall i | n <= i < n + t :: timeline[i].nodeName == "execute_tool")
      && (forall i | n + t <= i < |timeline| :: timeline[i].nodeName == "audit_event")
  {
  }

  predicate ShowsNode(item: Item, session: Session, node: string) {
    && item.nodeName == node
    && item.toolName == item.risk == item.decision == None
    && (session.agentStatus in [None, Some("")] ==> item.status == session.status)
    && (session.agentStatus !in [None, Some("")] ==> Some(item.status) == session.agentStatus)
    && item.evidence == session.auditIds + session.decisionTraceIds
  }

  predicate ShowsTool(item: Item, session: Session, tool: ExecutedTool, scrub: string -> string) {
    && item.nodeName == "execute_tool"
    && item.toolName == Redacted(tool.name, scrub) && item.risk == Redacted(tool.risk, scrub)
    && (tool.status in [None, Some("")] ==> item.status == "completed")
    && (tool.status !in [None, Some("")] ==> Some(item.status) == tool.status)
    && (session.approvalDecision in [None, Some("")] ==> item.decision == None)
    && (session.approvalDecision !in [None, Some("")] ==> item.decision == Redacted(session.approvalDecision, scrub))
    && item.evidence == session.auditIds + session.decisionTraceIds
  }

  ghost predicate ShowsRecord(item: Item, session: Session, record: AuditRecord, scrub: string -> string) {
    && item.nodeName == "audit_event" && item.status == "recorded"
    && item.toolName == Redacted(record.toolName, scrub) && item.risk == Redacted(record.risk, scrub)
    && (item.decision == Some("approved") <==> OperatorApproved(record))
    && (record.auditId in [None, Some("")] ==> item.evidence == session.auditIds + session.decisionTraceIds)
    && (record.auditId !in [None, Some("")] ==>
          && |item.evidence| > 0 && Some(item.evidence[0]) == record.auditId
          && item.evidence[0] !in item.evidence[1..]
          && forall id :: id in item.evidence[1..] <==>
               Some(id) != record.auditId && (id in session.auditIds || id in session.decisionTraceIds))
  }

  lemma NodeItemShows(session: Session, sequence: nat, node: string)
    ensures ShowsNode(NodeItem(session, sequence, node), session, node)
  {
  }

  lemma ToolItemShows(session: Session, sequence: nat, tool: ExecutedTool, scrub: string -> string)
    ensures ShowsTool(ToolItem(session, sequence, tool, scrub), session, tool, scrub)
  {
    hide Redaction.SanitizeText;
  }

  lemma AuditItemShows(session: Session, sequence: nat, record: AuditRecord, scrub: string -> string)
    requires LeavesPlainText(scrub)
    ensures ShowsRecord(AuditItem(sequence, record, EvidenceOf(session), scrub), session, record, scrub)
  {
    hide Redaction.SanitizeText, LeavesPlainText, AuditEvidence, Text.Lower, ApprovalDecisionFromOperator,
      OperatorApproved;
    WordsStay(scrub);
    EmptyIsNoApproval(record);
    OwnIdLeads(record, EvidenceOf(session));
  }

  /** Every field of every item of a laid-out timeline, read off the session and the ledger rows. */
  lemma LaidOutFields(
    timeline: seq<Item>, session: Session, records: seq<AuditRecord>, scrub: string -> string, i: nat)
    requires LeavesPlainText(scrub) && LaysOut(timeline, session, records, scrub) && i < |timeline|
    ensures var n, t := |session.completedNodes|, |session.executedTools|;
      && timeline[i].sequence == i + 1
      && if i < n then ShowsNode(timeline[i], session, session.completedNodes[i])
         else if i < n + t then ShowsTool(timeline[i], session, session.executedTools[i - n], scrub)
         else ShowsRecord(timeline[i], session, records[i - n - t], scrub)
  {
    var n, t := |session.completedNodes|, |session.executedTools|;
    hide NodeItem, ToolItem, AuditItem, EvidenceOf, ShowsNode, ShowsTool, ShowsRecord, LeavesPlainText;
    if i < n {
      NodeItemShows(session, i + 1, session.completedNodes[i]);
    } else if i < n + t {
      ToolItemShows(session, i + 1, session.executedTools[i - n], scrub);
    } else {
      AuditItemShows(session, i + 1, records[i - n - t], scrub);
    }
  }

  lemma OwnIdLeads(record: AuditRecord, fallback: seq<string>)
    ensures !Truthy(record.auditId) ==> AuditEvidence(record, fallback) == fallback
    ensures var ids := AuditEvidence(record, fallback);
      Truthy(record.auditId) ==>
        && |ids| > 0
        && ids[0] == record.auditId.value && ids[0] !in ids[1..]
        && forall id :: id in ids[1..] <==> id != record.auditId.value && id in fallback
  {
  }

  /** What a degraded timeline cites: the session's ids, wherever it has an item, and the ids of the rows. */
  lemma DegradedEvidence(timeline: seq<Item>, session: Session, records: seq<AuditRecord>, scrub: string -> string)
    requires LeavesPlainText(scrub) && LaysOut(timeline, session, records, scrub)
    ensures forall id :: id in EvidenceIds(timeline) <==>
      || (timeline != [] && (id in session.auditIds || id in session.decisionTraceIds))
      || (exists r | r in records :: r.auditId == Some(id) && id != "")
  {
    hide LaysOut, LeavesPlainText, EvidenceIds;
    LaidOutLength(timeline, session, records, scrub);
    forall id
      ensures id in EvidenceIds(timeline) <==>
        || (timeline != [] && (id in session.auditIds || id in session.decisionTraceIds))
        || (exists r | r in records :: r.auditId == Some(id) && id != "")
    {
      CitedSomewhere(timeline, session, records, scrub, id);
    }
  }

  lemma CitedSomewhere(
    timeline: seq<Item>, session: Session, records: seq<AuditRecord>, scrub: string -> string, id: string)
    requires LeavesPlainText(scrub) && LaysOut(timeline, session, records, scrub)
    ensures (exists item | item in timeline :: id in item.evidence) <==>
      || (timeline != [] && (id in session.auditIds || id in session.decisionTraceIds))
      || (exists r | r in records :: r.auditId == Some(id) && id != "")
  {
    hide *;
    var n, t := |session.completedNodes|, |session.executedTools|;
    LaidOutLength(timeline, session, records, scrub);
    if item :| item in timeline && id in item.evidence {
      var i :| 0 <= i < |timeline| && timeline[i] == item;
      CitedBy(timeline, session, records, scrub, i, id);
      if i >= n + t { assert records[i - n - t] in records; }
    }
    if timeline != [] {
      CitedBy(timeline, session, records, scrub, 0, id);
      assert timeline[0] in timeline;
    }
    if r :| r in records && r.auditId == Some(id) && id != "" {
      var k :| 0 <= k < |records| && records[k] == r;
      CitedBy(timeline, session, records, scrub, n + t + k, id);
      assert timeline[n + t + k] in timeline;
    }
  }

  lemma CitedBy(
    timeline: seq<Item>, session: Session, records: seq<AuditRecord>, scrub: string -> string, i: nat, id: string)
    requires LeavesPlainText(scrub) && LaysOut(timeline, session, records, scrub) && i < |timeline|
    ensures var n, t := |session.completedNodes|, |session.executedTools|;
      && |timeline| == n + t + |records|
      && (id in timeline[i].evidence <==>
        || id in session.auditIds || id in session.decisionTraceIds
        || (i >= n + t && records[i - n - t].auditId == Some(id) && id != ""))
  {
    hide LaysOut, LeavesPlainText, Redacted, OperatorApproved;
    LaidOutLength(timeline, session, records, scrub);
    LaidOutFields(timeline, session, records, scrub, i);
    var ids := timeline[i].evidence;
    if |ids| > 0 { assert ids == [ids[0]] + ids[1..]; }
  }

  /** When a degraded trace counts as complete. */
  lemma DegradedTraceIsComplete(replay: Replay, session: Session, records: seq<AuditRecord>, scrub: string -> string)
    requires replay.fidelity.Degraded? && LaysOut(replay.timeline, session, records, scrub)
    ensures IncompleteTrace(replay) <==>
      || "load_context" !in session.completedNodes
      || ("write_audit" !in session.completedNodes && "audit_event" !in session.completedNodes && records == [])
  {
    IncompleteReads(replay);
    var timeline, n, t := replay.timeline, |session.completedNodes|, |session.executedTools|;
    var names := NodeNames(timeline);
    hide IncompleteTrace, NodeItem, ToolItem, AuditItem;
    LaidOutNames(timeline, session, records, scrub);
    assert forall i | 0 <= i < n :: names[i] == session.completedNodes[i];
    assert forall i | n <= i < n + t :: names[i] == "execute_tool";
    assert forall i | n + t <= i < |names| :: names[i] == "audit_event";
    assert records != [] ==> names[n + t] == "audit_event";
    assert "execute_tool"[0] != "load_context"[0] && "audit_event"[0] != "load_context"[0];
    assert "execute_tool"[0] != "write_audit"[0] && "audit_event"[0] != "write_audit"[0];
    assert "execute_tool"[0] != "audit_event"[0];
    forall name | name in session.completedNodes ensures name in names {
      var i :| 0 <= i < n && session.completedNodes[i] == name;
      assert names[i] == name;
    }
  }

  // ---------------------------------------------------------------- replaying an approved pre-live trace

  function RiskText(risk: RiskLevel): string {
    match risk
    case Low => "LOW"
    case Medium => "MEDIUM"
    case High => "HIGH"
    case Critical => "CRITICAL"
  }

  /** One ledger row as the replay reads it; `idText` spells a row id. */
  function RecordOf(rows: seq<AuditLedger.Row>, i: nat, idText: nat -> string): AuditRecord
    requires i < |rows|
  {
    var fact := rows[i].fact;
    AuditRecord(Some(idText(i)), Some(fact.toolName), Some(RiskText(fact.risk)), fact.operatorDecision)
  }

  function TraceRecords(rows: seq<AuditLedger.Row>, trace: string, idText: nat -> string): seq<AuditRecord> {
    if rows == [] then []
    else
      var n := |rows| - 1;
      TraceRecords(rows[..n], trace, idText)
      + (if rows[n].fact.traceId != trace then [] else [RecordOf(rows, n, idText)])
  }

  predicate InTrace(rows: seq<AuditLedger.Row>, trace: string, i: nat) {
    i < |rows| && rows[i].fact.traceId == trace
  }

  lemma {:induction false} RecordsAreRows(rows: seq<AuditLedger.Row>, trace: string, idText: nat -> string)
    ensures forall i | InTrace(rows, trace, i) :: RecordOf(rows, i, idText) in TraceRecords(rows, trace, idText)
    ensures forall r | r in TraceRecords(rows, trace, idText) ::
      exists i: nat | InTrace(rows, trace, i) :: RecordOf(rows, i, idText) == r
  {
    if rows != [] {
      var n := |rows| - 1;
      var init := rows[..n];
      RecordsAreRows(init, trace, idText);
      forall i: nat | InTrace(rows, trace, i) ensures RecordOf(rows, i, idText) in TraceRecords(rows, trace, idText) {
        if i < n { assert InTrace(init, trace, i) && RecordOf(init, i, idText) == RecordOf(rows, i, idText); }
      }
      forall r | r in TraceRecords(rows, trace, idText)
        ensures exists i: nat | InTrace(rows, trace, i) :: RecordOf(rows, i, idText) == r
      {
        if r in TraceRecords(init, trace, idText) {
          var i: nat :| InTrace(init, trace, i) && RecordOf(init, i, idText) == r;
          assert InTrace(rows, trace, i) && RecordOf(rows, i, idText) == r;
        } else {
          assert InTrace(rows, trace, n);
        }
      }
    }
  }

  lemma RiskTextReads(risk: RiskLevel)
    ensures SpellsHigh(RiskText(risk)) <==> risk.High?
    ensures '\\' !in RiskText(risk) && '.' !in RiskText(risk)
  {
    assert "LOW"[0] == 'L' && "MEDIUM"[0] == 'M' && "CRITICAL"[0] == 'C';
  }

  lemma ToolNamesReadPlainly(scrub: string -> string)
    requires LeavesPlainText(scrub)
    ensures Clean(Some(PreLiveApproval.SETUP_TOOL), scrub) == Some(PreLiveApproval.SETUP_TOOL)
    ensures Clean(Some(PreLiveApproval.APPROVAL_TOOL), scrub) == Some(PreLiveApproval.APPROVAL_TOOL)
    ensures PreLiveApproval.SETUP_TOOL !in ["", "blocked_tool", "handle_sold_out_event"]
    ensures PreLiveApproval.APPROVAL_TOOL !in ["", "blocked_tool", "handle_sold_out_event"]
  {
    hide Clean, LeavesPlainText;
    assert '\\' !in PreLiveApproval.SETUP_TOOL && '.' !in PreLiveApproval.SETUP_TOOL;
    assert '\\' !in PreLiveApproval.APPROVAL_TOOL && '.' !in PreLiveApproval.APPROVAL_TOOL;
    PlainTextStaysItself(PreLiveApproval.SETUP_TOOL, scrub);
    PlainTextStaysItself(PreLiveApproval.APPROVAL_TOOL, scrub);
    assert PreLiveApproval.SETUP_TOOL[0] == PreLiveApproval.APPROVAL_TOOL[0] == 's';
    assert "blocked_tool"[0] == 'b' && "handle_sold_out_event"[0] == 'h';
  }

  /** A record of the setup or its approval breaks a rule exactly at HIGH risk without an approving operator text. */
  lemma SetupRecordBreaksARule(record: AuditRecord, risk: RiskLevel, scrub: string -> string)
    requires LeavesPlainText(scrub)
    requires record.toolName in [Some(PreLiveApproval.SETUP_TOOL), Some(PreLiveApproval.APPROVAL_TOOL)]
    requires record.risk == Some(RiskText(risk))
    ensures RecordBreaksARule(record, scrub) <==> risk.High? && !OperatorApproved(record)
  {
    hide Redaction.SanitizeText, LeavesPlainText, RiskText, OperatorApproved, SpellsHigh;
    ToolNamesReadPlainly(scrub);
    RiskTextReads(risk);
    PlainTextStaysItself(RiskText(risk), scrub);
  }

  lemma PendingIsNoApproval(record: AuditRecord)
    requires record.operatorDecision == Some("pending")
    ensures !OperatorApproved(record)
  {
    assert Text.Lower("pending")[0] == 'p';
  }

  /** A row of the trace that is no setup or approval fact breaks a rule. */
  predicate AnotherRowBreaksARule(
    c: PreLiveApproval.Setting, rows: seq<AuditLedger.Row>, idText: nat -> string, scrub: string -> string)
  {
    exists i: nat | i < |rows| ::
      && InTrace(rows, PreLiveApproval.RequestTrace(c), i) && !PreLiveApproval.Ours(c, rows[i].fact)
      && RecordBreaksARule(RecordOf(rows, i, idText), scrub)
  }

  /**
    The pending row outlives the approval. Once an entry of the setup has completed, a degraded
    replay over the trace's ledger rows is a FAIL exactly when the setup is HIGH risk, approved or
    not, or something else in the trace breaks a rule.
   */
  lemma {:induction false} ApprovedSetupVerdict(
    c: PreLiveApproval.Setting, start: seq<AuditLedger.Row>, actions: seq<PreLiveApproval.Action>, e: nat,
    replay: Replay, session: Session, idText: nat -> string, scrub: string -> string)
    requires PreLiveApproval.Clean(c, start) && LeavesPlainText(scrub)
    requires var s := PreLiveApproval.Run(c, start, actions);
      && e in s.entries && s.entries[e].Completed?
      && LaysOut(
           replay.timeline, session, TraceRecords(s.rows, PreLiveApproval.RequestTrace(c), idText), scrub)
    ensures VerdictOf(replay) == Fail <==>
      || c.tool.risk.High?
      || (exists i | 0 <= i < |session.executedTools| :: ToolBreaksARule(session, session.executedTools[i], scrub))
      || AnotherRowBreaksARule(c, PreLiveApproval.Run(c, start, actions).rows, idText, scrub)
  {
    hide PreLiveApproval.Run, PreLiveApproval.Good, PreLiveApproval.Clean, ToolBreaksARule, RecordBreaksARule,
      TraceRecords, LaysOut, AnotherRowBreaksARule, VerdictOf, LeavesPlainText;
    var s := PreLiveApproval.Run(c, start, actions);
    var records := TraceRecords(s.rows, PreLiveApproval.RequestTrace(c), idText);
    PreLiveApproval.EveryRunIsGood(c, start, actions);
    DegradedVerdict(replay, session, records, scrub);
    RowsThatFail(c, PreLiveApproval.Answers(c, actions), s, e, idText, scrub);
  }

  /** The ledger's own part of that verdict. */
  lemma {:induction false} RowsThatFail(
    c: PreLiveApproval.Setting, given: set<PreLiveApproval.Approval>, s: PreLiveApproval.System, e: nat,
    idText: nat -> string, scrub: string -> string)
    requires PreLiveApproval.Good(c, given, s) && e in s.entries && s.entries[e].Completed? && LeavesPlainText(scrub)
    ensures var records := TraceRecords(s.rows, PreLiveApproval.RequestTrace(c), idText);
      (exists i | 0 <= i < |records| :: RecordBreaksARule(records[i], scrub)) <==>
      c.tool.risk.High? || AnotherRowBreaksARule(c, s.rows, idText, scrub)
  {
    hide PreLiveApproval.Good, RecordBreaksARule, TraceRecords, AnotherRowBreaksARule, LeavesPlainText;
    var records := TraceRecords(s.rows, PreLiveApproval.RequestTrace(c), idText);
    if c.tool.risk.High? {
      PendingRecordFails(c, given, s, e, idText, scrub);
    }
    AnotherRowFails(c, s.rows, idText, scrub);
    if k :| 0 <= k < |records| && RecordBreaksARule(records[k], scrub) {
      BadRecordIsAnotherRow(c, given, s, records[k], idText, scrub);
    }
  }

  lemma AnotherRowFails(
    c: PreLiveApproval.Setting, rows: seq<AuditLedger.Row>, idText: nat -> string, scrub: string -> string)
    ensures AnotherRowBreaksARule(c, rows, idText, scrub) ==>
      exists r | r in TraceRecords(rows, PreLiveApproval.RequestTrace(c), idText) :: RecordBreaksARule(r, scrub)
  {
    var trace := PreLiveApproval.RequestTrace(c);
    RecordsAreRows(rows, trace, idText);
    hide TraceRecords, RecordBreaksARule, PreLiveApproval.Ours;
    if AnotherRowBreaksARule(c, rows, idText, scrub) {
      var i: nat :| i < |rows| && InTrace(rows, trace, i) && RecordBreaksARule(RecordOf(rows, i, idText), scrub);
      assert RecordOf(rows, i, idText) in TraceRecords(rows, trace, idText);
    }
  }

  lemma BadRecordIsAnotherRow(
    c: PreLiveApproval.Setting, given: set<PreLiveApproval.Approval>, s: PreLiveApproval.System, r: AuditRecord,
    idText: nat -> string, scrub: string -> string)
    requires PreLiveApproval.Good(c, given, s) && LeavesPlainText(scrub)
    requires r in TraceRecords(s.rows, PreLiveApproval.RequestTrace(c), idText) && RecordBreaksARule(r, scrub)
    ensures c.tool.risk.High? || AnotherRowBreaksARule(c, s.rows, idText, scrub)
  {
    var trace := PreLiveApproval.RequestTrace(c);
    assert PreLiveApproval.GoodRows(c, given, s.rows);
    RecordsAreRows(s.rows, trace, idText);
    hide TraceRecords, RecordBreaksARule, PreLiveApproval.Ours, PreLiveApproval.Good, PreLiveApproval.GoodRows;
    var i: nat :| InTrace(s.rows, trace, i) && RecordOf(s.rows, i, idText) == r;
    if PreLiveApproval.Ours(c, s.rows[i].fact) {
      OurRecordFails(c, given, s.rows, i, idText, scrub);
    }
  }

  lemma PendingRecordFails(
    c: PreLiveApproval.Setting, given: set<PreLiveApproval.Approval>, s: PreLiveApproval.System, e: nat,
    idText: nat -> string, scrub: string -> string)
    requires PreLiveApproval.Good(c, given, s) && e in s.entries && s.entries[e].Completed? && LeavesPlainText(scrub)
    requires c.tool.risk.High?
    ensures exists r | r in TraceRecords(s.rows, PreLiveApproval.RequestTrace(c), idText) :: RecordBreaksARule(r, scrub)
  {
    var id := s.entries[e].outcome.pendingId;
    PreLiveApproval.PendingRowStands(c, given, s, e);
    RecordsAreRows(s.rows, PreLiveApproval.RequestTrace(c), idText);
    hide TraceRecords, PreLiveApproval.Good, RecordBreaksARule;
    assert InTrace(s.rows, PreLiveApproval.RequestTrace(c), id);
    PendingIsNoApproval(RecordOf(s.rows, id, idText));
    SetupRecordBreaksARule(RecordOf(s.rows, id, idText), High, scrub);
  }

  lemma OurRecordFails(
    c: PreLiveApproval.Setting, given: set<PreLiveApproval.Approval>, rows: seq<AuditLedger.Row>, i: nat,
    idText: nat -> string, scrub: string -> string)
    requires PreLiveApproval.GoodRows(c, given, rows) && LeavesPlainText(scrub)
    requires i < |rows| && PreLiveApproval.Ours(c, rows[i].fact)
    ensures RecordBreaksARule(RecordOf(rows, i, idText), scrub) ==> c.tool.risk.High?
  {
    assert PreLiveApproval.OurRow(c, given, rows, i);
    assert rows[i].fact.risk == c.tool.risk;
    SetupRecordBreaksARule(RecordOf(rows, i, idText), c.tool.risk, scrub);
  }

  // ---------------------------------------------------------------- a call nobody reviews

  /** An executor result without a tool name becomes a high-risk item that no rule looks at. */
  lemma UnnamedResultGoesUnreviewed(session: Session, sequence: nat, tool: ExecutedTool, scrub: string -> string)
    requires LeavesPlainText(scrub) && tool.name in [None, Some("")] && tool.risk == Some("HIGH")
    requires ApprovalFromState(session).None?
    ensures var item := ToolItem(session, sequence, tool, scrub);
      !NamesATool(item) && Unreviewed(item) && !Violates(item)
  {
    PlainTextStaysItself("", scrub);
    PlainTextStaysItself("HIGH", scrub);
    hide Redaction.SanitizeText, LeavesPlainText;
  }
}
