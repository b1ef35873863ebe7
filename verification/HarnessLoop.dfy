/**
  The on-live harness agent graph: thirteen nodes, four branch points, a replan loop and a
  human interrupt, as a step relation. Planner, executor, context builder and human are an
  arbitrary `Input` at every step; a node that raises goes to `Aborted`.
 */
module HarnessLoop {
  import opened Wrappers
  import opened Governance
  import Hooks = LifecycleHooks
  import Text

  datatype Node =
    | LoadContext | PreReasoning | AgentReasoning | PostReasoning | RouteDecision
    | PreToolCallHook | RouteToolPolicy | ExecuteTool | HumanInterrupt
    | PostToolCallHook | ObserveResult | RouteReplan | WriteAudit

  /** The edges the graph declares, conditional targets included. */
  predicate Edge(a: Node, b: Node) {
    match a
    case LoadContext => b == PreReasoning
    case PreReasoning => b == AgentReasoning
    case AgentReasoning => b == PostReasoning
    case PostReasoning => b == RouteDecision
    case RouteDecision => b == PreToolCallHook || b == WriteAudit
    case PreToolCallHook => b == RouteToolPolicy
    case RouteToolPolicy => b == ExecuteTool || b == HumanInterrupt || b == WriteAudit
    case HumanInterrupt => b == ExecuteTool || b == WriteAudit
    case ExecuteTool => b == PostToolCallHook
    case PostToolCallHook => b == ObserveResult
    case ObserveResult => b == RouteReplan
    case RouteReplan => b == PreReasoning || b == WriteAudit
    case WriteAudit => false
  }

  datatype SoldOutRoute = Legacy | PlanEngine

  datatype SupportRoute = DeterministicOnly | DecisionSupport

  /** What graph construction freezes. */
  datatype Wiring = Wiring(
    soldOut: SoldOutRoute,
    support: SupportRoute,
    defaultView: PolicyView,
    hookView: PolicyView,
    maxRepeated: nat)

  function AuthorizationRequired(w: Wiring): set<string> {
    set tool | tool in w.defaultView
      && OnLive in w.defaultView[tool].lifecycle
      && !w.defaultView[tool].authorization.NoAuthorization?
  }

  /** The tool runs on air and its skill asks for a human or a trusted event. */
  predicate NeedsOperator(w: Wiring, tool: string) {
    && tool in w.defaultView && OnLive in w.defaultView[tool].lifecycle
    && (w.defaultView[tool].authorization == HumanApproval || w.defaultView[tool].authorization == TrustedEventOrHuman)
  }

  lemma RequiredMeansNeeded(w: Wiring, tool: string)
    ensures tool in AuthorizationRequired(w) <==> NeedsOperator(w, tool)
  {
  }

  datatype Status =
    | NoStatus | ContextDegraded | CallTool | FinalAnswer | NoAction | Fallback | EvidenceOnly
    | BlockedStatus | SupportDisabled | Degraded | Corrected | OperatorDecisionRequired
    | PendingHuman | RejectedByHuman | ToolObserved | MaxIterations | Finished | OtherStatus(text: string)

  datatype Policy =
    | NoPolicy | AutoExecute | PolicyBlocked | PolicyPendingHuman | PolicyOperatorDecisionRequired
    | LegacyApprovalRecorded | HumanRejected | OtherPolicy(text: string)

  /** A missing field of the call is the empty string. */
  datatype ToolCall = ToolCall(name: string, productId: string, soldOutProductId: string, risk: string)

  datatype ToolResult = ToolResult(tool: string, status: string, fieldsOk: bool)

  datatype Observation = Observation(tool: string, status: string)

  datatype EvidenceRef = EvidenceRef(digestOk: bool, suggestion: string)

  datatype State = State(
    traceId: string,
    roomId: string,
    inventoryAlerts: nat,
    currentProductId: string,
    evidence: seq<EvidenceRef>,
    suggestionFact: string,
    iteration: int,
    maxIterations: int,
    pending: Option<ToolCall>,
    policy: Policy,
    toolResult: Option<ToolResult>,
    executedTools: seq<ToolResult>,
    observations: seq<Observation>,
    agentStatus: Status,
    finalSuggestion: string,
    completed: seq<Node>)

  datatype Pc = At(node: Node) | Ended | Aborted

  /** A tool call together with the iteration it belongs to. */
  datatype Grant = Grant(call: ToolCall, iteration: int)

  /** `hookCalls` lists what the hook was asked about, `grants` its auto-execute answers, `calls` executor calls. */
  datatype Machine = Machine(
    pc: Pc,
    state: State,
    hookHistory: seq<Hooks.Entry>,
    hookCalls: seq<string>,
    calls: seq<Grant>,
    grants: seq<Grant>,
    plannerCalls: nat)

  datatype PlannerAnswer = PlannerRaises | Decision(action: Status, call: ToolCall, suggestion: string)

  datatype ExecutorAnswer = ExecutorRaises | NotADict | Returned(tool: Option<string>, status: string, fieldsOk: bool)

  datatype HumanAnswer = Waiting | Malformed | Response(traceId: string, roomId: string, tool: string, approved: bool)

  datatype Input = Input(
    contextDegrades: Option<bool>,
    planner: PlannerAnswer,
    executor: ExecutorAnswer,
    human: HumanAnswer)

  // ---------------------------------------------------------------- what a step may do

  /** The edge declared from the interrupt to the executor is the only one no run takes. */
  predicate Taken(a: Node, b: Node) {
    Edge(a, b) && !(a == HumanInterrupt && b == ExecuteTool)
  }

  /**
    A step aborts in place or logs its node and moves along a taken edge; only an unanswered
    interrupt stays put, only observe_result counts an iteration, only execute_tool calls and
    records, only post_tool_call_hook observes, and only pre_tool_call_hook asks the hook.
   */
  predicate Follows(m: Machine, r: Machine, n: Node) {
    && r.state.maxIterations == m.state.maxIterations
    && (n != ObserveResult ==> r.state.iteration == m.state.iteration)
    && (n != ExecuteTool ==> r.calls == m.calls && r.state.executedTools == m.state.executedTools)
    && (n != PostToolCallHook ==> r.state.observations == m.state.observations)
    && (n != PreToolCallHook ==> SameHook(m, r))
    && FollowsEdge(m, r, n)
  }

  predicate SameHook(m: Machine, r: Machine) {
    r.hookHistory == m.hookHistory && r.hookCalls == m.hookCalls && r.grants == m.grants
  }

  /** The hook is asked about the pending call, remembers what it answers, and may grant the call. */
  predicate AsksHook(w: Wiring, m: Machine, r: Machine) {
    var (answer, history) := Hooks.HookStep(w.hookView, w.maxRepeated, m.hookHistory, PendingName(m.state), "ON_LIVE");
    && r.hookHistory == history && r.hookCalls == m.hookCalls + [PendingName(m.state)]
    && if answer.autoExecute then
         && |r.grants| == |m.grants| + 1 && r.grants[..|m.grants|] == m.grants
         && r.grants[|m.grants|].call.name == PendingName(m.state)
       else r.grants == m.grants && r.state.policy != AutoExecute
  }

  predicate FollowsEdge(m: Machine, r: Machine, n: Node) {
    || (r == m && n == HumanInterrupt)
    || (r.pc.Aborted? && r.state.completed == m.state.completed)
    || (r.state.completed == m.state.completed + [n]
        && if n == WriteAudit then r.pc.Ended? else r.pc.At? && Taken(n, r.pc.node))
  }

  /** What one step may add to the two call logs. */
  predicate LogsAuthorized(w: Wiring, m: Machine, r: Machine) {
    && (r.calls == m.calls
        || (|r.calls| == |m.calls| + 1 && r.calls[..|m.calls|] == m.calls && w.support.DecisionSupport?
            && !NeedsOperator(w, r.calls[|m.calls|].call.name)))
    && (w.support.DeterministicOnly? || w.soldOut.PlanEngine? ==> r.plannerCalls == m.plannerCalls)
  }

  /** A step that calls nobody. */
  predicate Moves(m: Machine, r: Machine, n: Node) {
    && Follows(m, r, n)
    && r.calls == m.calls && r.plannerCalls == m.plannerCalls && r.state.executedTools == m.state.executedTools
  }

  // ---------------------------------------------------------------- nodes

  function Visit(s: State, n: Node): State {
    s.(completed := s.completed + [n])
  }

  function PendingName(s: State): string {
    if s.pending.Some? then s.pending.value.name else ""
  }

  function Goto(m: Machine, s: State, n: Node): Machine {
    m.(pc := At(n), state := s)
  }

  function Abort(m: Machine): Machine {
    m.(pc := Aborted)
  }

  function LoadContextNode(m: Machine, degrades: Option<bool>): (r: Machine)
    ensures Moves(m, r, LoadContext)
    ensures r.pc == if degrades.None? then Aborted else At(PreReasoning)
    ensures r.state.agentStatus == if degrades == Some(true) then ContextDegraded else m.state.agentStatus
  {
    if degrades.None? then Abort(m)
    else
      var s := Visit(m.state, LoadContext);
      Goto(m, if degrades.value then s.(agentStatus := ContextDegraded) else s, PreReasoning)
  }

  /** The reviewed suggestion is backed: every reference has its digest, and one of them carries it. */
  predicate Backed(s: State) {
    && s.suggestionFact != "" && s.evidence != []
    && (forall i | 0 <= i < |s.evidence| :: s.evidence[i].digestOk)
    && (exists i | 0 <= i < |s.evidence| :: s.evidence[i].suggestion == s.suggestionFact)
  }

  function EvidenceAnswer(s: State): State {
    if Backed(s) then s.(pending := None, finalSuggestion := s.suggestionFact, agentStatus := EvidenceOnly)
    else s.(pending := None, finalSuggestion := "", agentStatus := BlockedStatus)
  }

  function AgentReasoningNode(w: Wiring, m: Machine, planner: PlannerAnswer): (r: Machine)
    ensures Follows(m, r, AgentReasoning) && LogsAuthorized(w, m, r)
    ensures r.pc == At(PostReasoning)
  {
    var s := Visit(m.state, AgentReasoning);
    if w.soldOut.PlanEngine? then Goto(m, EvidenceAnswer(s), PostReasoning)
    else if w.support.DeterministicOnly? then
      Goto(m, s.(pending := None, finalSuggestion := "", agentStatus := SupportDisabled), PostReasoning)
    else
      var asked := m.(plannerCalls := m.plannerCalls + 1);
      match planner
      case PlannerRaises => Goto(asked, s.(agentStatus := Degraded), PostReasoning)
      case Decision(action, call, suggestion) =>
        Goto(asked, s.(
          pending := if action == CallTool then Some(call) else None,
          finalSuggestion := suggestion,
          agentStatus := action), PostReasoning)
  }

  datatype Issue = ProductNotShown | NoAlertToHandle | AlertIgnored

  /** The cross-checks after reasoning, each listed as an issue. */
  function PostReasoningIssues(call: ToolCall, currentProductId: string, alerts: nat): seq<Issue> {
    var product := if call.productId != "" then call.productId else call.soldOutProductId;
    (if product != "" && currentProductId != "" && product != currentProductId then [ProductNotShown] else [])
    + (if call.name == "handle_sold_out_event" && alerts == 0 then [NoAlertToHandle] else [])
    + (if alerts > 0 && call.name !in {"handle_sold_out_event", "recommend_backup_product"} then [AlertIgnored] else [])
  }

  function PostReasoningNode(w: Wiring, m: Machine): (r: Machine)
    ensures Moves(m, r, PostReasoning)
    ensures r.pc == At(RouteDecision)
  {
    var s := Visit(m.state, PostReasoning);
    if PendingName(s) == "" then Goto(m, s, RouteDecision)
    else if w.soldOut.PlanEngine? && PendingName(s) == "handle_sold_out_event" then
      var suggestion :=
        if s.suggestionFact == "" && s.evidence != [] then s.evidence[0].suggestion else s.suggestionFact;
      Goto(m, s.(pending := None, agentStatus := EvidenceOnly, finalSuggestion := suggestion), RouteDecision)
    else if PostReasoningIssues(s.pending.value, s.currentProductId, s.inventoryAlerts) != [] then
      Goto(m, s.(pending := None, agentStatus := Corrected), RouteDecision)
    else Goto(m, s, RouteDecision)
  }

  function RouteDecisionNode(m: Machine): (r: Machine)
    ensures Moves(m, r, RouteDecision)
    ensures r.pc.At?
  {
    var s := Visit(m.state, RouteDecision);
    Goto(m, s, if s.agentStatus == CallTool && s.pending.Some? then PreToolCallHook else WriteAudit)
  }

  function PreToolCallHookNode(w: Wiring, m: Machine): (r: Machine)
    ensures Moves(m, r, PreToolCallHook)
    ensures r.pc == At(RouteToolPolicy)
    ensures if NeedsOperator(w, PendingName(m.state)) then SameHook(m, r) else AsksHook(w, m, r)
  {
    var s := Visit(m.state, PreToolCallHook);
    var tool := PendingName(s);
    if tool in AuthorizationRequired(w) then
      Goto(m, s.(pending := None, policy := PolicyOperatorDecisionRequired, agentStatus := OperatorDecisionRequired),
        RouteToolPolicy)
    else
      var (answer, history) := Hooks.HookStep(w.hookView, w.maxRepeated, m.hookHistory, tool, "ON_LIVE");
      var hooked := m.(hookHistory := history, hookCalls := m.hookCalls + [tool]);
      if !answer.allowed then
        Goto(hooked, s.(policy := PolicyBlocked, agentStatus := BlockedStatus), RouteToolPolicy)
      else if !answer.autoExecute then
        Goto(hooked, s.(policy := PolicyPendingHuman, agentStatus := PendingHuman), RouteToolPolicy)
      else
        var call := if s.pending.Some? then s.pending.value else ToolCall("", "", "", "");
        Goto(hooked.(grants := m.grants + [Grant(call, s.iteration)]), s.(policy := AutoExecute), RouteToolPolicy)
  }

  function RouteToolPolicyNode(m: Machine): (r: Machine)
    ensures Moves(m, r, RouteToolPolicy)
    ensures r.pc.At?
  {
    var s := Visit(m.state, RouteToolPolicy);
    Goto(m, s,
      if s.policy == AutoExecute then ExecuteTool
      else if s.policy == PolicyPendingHuman then HumanInterrupt
      else WriteAudit)
  }

  predicate RequestValid(s: State) {
    && Text.Strip(s.traceId) != "" && Text.Strip(s.roomId) != "" && Text.Strip(PendingName(s)) != ""
    && (s.pending.None? || s.pending.value.risk in {"", "LOW", "MEDIUM", "HIGH", "CRITICAL"})
  }

  predicate ResponseMatches(s: State, answer: HumanAnswer)
    requires answer.Response?
  {
    && answer.traceId == Text.Strip(s.traceId)
    && answer.roomId == Text.Strip(s.roomId)
    && answer.tool == Text.Strip(PendingName(s))
  }

  function HumanInterruptNode(m: Machine, answer: HumanAnswer): (r: Machine)
    ensures Moves(m, r, HumanInterrupt)
    ensures m.pc == At(HumanInterrupt) ==> (r.pc.Aborted? <==>
      !RequestValid(m.state) || answer.Malformed? || (answer.Response? && !ResponseMatches(m.state, answer)))
  {
    if !RequestValid(m.state) then Abort(m)
    else match answer
      case Waiting => m
      case Malformed => Abort(m)
      case Response(_, _, _, approved) =>
        if !ResponseMatches(m.state, answer) then Abort(m)
        else
          var s := Visit(m.state, HumanInterrupt);
          Goto(m,
            if approved then s.(agentStatus := OperatorDecisionRequired, policy := LegacyApprovalRecorded)
            else s.(agentStatus := RejectedByHuman, policy := HumanRejected),
            WriteAudit)
  }

  function ExecuteToolNode(w: Wiring, m: Machine, answer: ExecutorAnswer): (r: Machine)
    ensures Follows(m, r, ExecuteTool) && LogsAuthorized(w, m, r)
    ensures r.pc.Aborted? ==> r.calls != m.calls && answer.ExecutorRaises?
  {
    var s := Visit(m.state, ExecuteTool);
    var tool := PendingName(s);
    if w.support.DeterministicOnly? then
      Goto(m, s.(pending := None, toolResult := Some(ToolResult(tool, "error", true)), agentStatus := SupportDisabled),
        PostToolCallHook)
    else if tool in AuthorizationRequired(w) then
      Goto(m, s.(pending := None, toolResult := None, policy := PolicyOperatorDecisionRequired,
                 agentStatus := OperatorDecisionRequired), PostToolCallHook)
    else
      var call := if s.pending.Some? then s.pending.value else ToolCall("", "", "", "");
      var called := m.(calls := m.calls + [Grant(call, s.iteration)]);
      match answer
      case ExecutorRaises => Abort(called)
      case NotADict => Goto(called, WithResult(s, ToolResult(tool, "error", true)), PostToolCallHook)
      case Returned(name, status, ok) =>
        Goto(called, WithResult(s, ToolResult(if name.Some? then name.value else tool, status, ok)), PostToolCallHook)
  }

  function WithResult(s: State, r: ToolResult): State {
    s.(toolResult := Some(r), executedTools := s.executedTools + [r])
  }

  /** The observation of a result, or nothing where the observation model refuses it. */
  function Observe(s: State): Option<Observation> {
    var result := if s.toolResult.Some? then s.toolResult.value else ToolResult("unknown", "error", true);
    var name := Text.Strip(if PendingName(s) != "" then PendingName(s) else result.tool);
    if name != "" && result.status in {"success", "error", "pending"} && result.fieldsOk
    then Some(Observation(name, result.status)) else None
  }

  function PostToolCallHookNode(m: Machine): (r: Machine)
    ensures Moves(m, r, PostToolCallHook)
    ensures r.pc == if Observe(m.state).None? then Aborted else At(ObserveResult)
  {
    var s := Visit(m.state, PostToolCallHook);
    match Observe(s)
    case None => Abort(m)
    case Some(o) => Goto(m, s.(observations := s.observations + [o]), ObserveResult)
  }

  predicate Terminal(status: Status) {
    status == SupportDisabled || status == OperatorDecisionRequired
  }

  function ObserveResultNode(m: Machine): (r: Machine)
    ensures Moves(m, r, ObserveResult)
    ensures r.pc == At(RouteReplan)
  {
    var s := Visit(m.state, ObserveResult).(pending := None);
    Goto(m,
      if Terminal(s.agentStatus) then s else s.(iteration := s.iteration + 1, agentStatus := ToolObserved),
      RouteReplan)
  }

  function RouteReplanNode(m: Machine): (r: Machine)
    ensures Moves(m, r, RouteReplan)
    ensures r.pc.At?
  {
    var s := Visit(m.state, RouteReplan);
    var t := if s.iteration >= s.maxIterations then s.(agentStatus := MaxIterations) else s;
    Goto(m, t, if t.agentStatus == MaxIterations || Terminal(t.agentStatus) then WriteAudit else PreReasoning)
  }

  function WriteAuditNode(m: Machine): (r: Machine)
    ensures Moves(m, r, WriteAudit)
    ensures r.pc.Ended?
    ensures r.state.agentStatus == if m.state.agentStatus.NoStatus? then Finished else m.state.agentStatus
  {
    var s := Visit(m.state, WriteAudit);
    m.(pc := Ended, state := if s.agentStatus == NoStatus then s.(agentStatus := Finished) else s)
  }

  function Next(w: Wiring, m: Machine, input: Input): (r: Machine)
    ensures m.pc.At? ==> Follows(m, r, m.pc.node)
    ensures LogsAuthorized(w, m, r)
    ensures r.state.maxIterations == m.state.maxIterations
  {
    if !m.pc.At? then m
    else match m.pc.node
      case LoadContext => LoadContextNode(m, input.contextDegrades)
      case PreReasoning => Goto(m, Visit(m.state, PreReasoning), AgentReasoning)
      case AgentReasoning => AgentReasoningNode(w, m, input.planner)
      case PostReasoning => PostReasoningNode(w, m)
      case RouteDecision => RouteDecisionNode(m)
      case PreToolCallHook => PreToolCallHookNode(w, m)
      case RouteToolPolicy => RouteToolPolicyNode(m)
      case ExecuteTool => ExecuteToolNode(w, m, input.executor)
      case HumanInterrupt => HumanInterruptNode(m, input.human)
      case PostToolCallHook => PostToolCallHookNode(m)
      case ObserveResult => ObserveResultNode(m)
      case RouteReplan => RouteReplanNode(m)
      case WriteAudit => WriteAuditNode(m)
  }

  function Run(w: Wiring, m: Machine, inputs: seq<Input>): Machine {
    if inputs == [] then m else Next(w, Run(w, m, inputs[..|inputs| - 1]), inputs[|inputs| - 1])
  }

  /** An invariant of every step is an invariant of every run. */
  lemma {:induction false} RunKeeps(w: Wiring, inv: Machine -> bool, m: Machine, inputs: seq<Input>)
    requires inv(m)
    requires forall m', input :: inv(m') ==> inv(Next(w, m', input))
    ensures inv(Run(w, m, inputs))
  {
    if inputs != [] {
      RunKeeps(w, inv, m, inputs[..|inputs| - 1]);
    }
  }

  // ---------------------------------------------------------------- fresh runs

  /** Any room, product, alerts, budget and leftover hook history; nothing has happened yet. */
  predicate FreshStart(m: Machine) {
    && m.pc == At(LoadContext)
    && m.state.iteration == 0 && m.state.pending.None? && m.state.policy == NoPolicy
    && m.state.toolResult.None? && m.state.executedTools == [] && m.state.observations == []
    && m.state.agentStatus == NoStatus && m.state.completed == []
    && m.hookCalls == [] && m.calls == [] && m.grants == []
  }

  /** What the hook must have seen in a tool before the executor may meet it. */
  predicate Permitted(w: Wiring, tool: string) {
    && tool in w.hookView && OnLive in w.hookView[tool].lifecycle
    && (w.hookView[tool].gate.Auto? || w.hookView[tool].gate.SoftGate?)
    && w.hookView[tool].risk != High
    && !NeedsOperator(w, tool)
  }

  ghost predicate GrantsSound(w: Wiring, grants: seq<Grant>) {
    && (grants != [] ==> w.support.DecisionSupport? && w.soldOut.Legacy?)
    && forall i | 0 <= i < |grants| :: grants[i].iteration == i && Permitted(w, grants[i].call.name)
  }

  /** The bookkeeping between two iterations and while one is being decided. */
  predicate Counted(m: Machine) {
    && m.state.iteration == |m.calls| == |m.state.executedTools| == |m.state.observations|
    && (|m.calls| == 0 || |m.calls| < m.state.maxIterations)
  }

  /** The hook has granted the pending call of this iteration and nothing else is in flight. */
  predicate Granted(w: Wiring, m: Machine) {
    && m.state.pending.Some? && m.state.agentStatus == CallTool
    && m.grants == m.calls + [Grant(m.state.pending.value, m.state.iteration)]
  }

  predicate Deciding(w: Wiring, m: Machine) {
    && Counted(m) && m.grants == m.calls
    && (m.state.pending.Some? ==>
          w.support.DecisionSupport? && w.soldOut.Legacy? && m.state.agentStatus == CallTool)
  }

  predicate NodeInv(w: Wiring, m: Machine, n: Node) {
    match n
    case LoadContext => Deciding(w, m) && m.state.pending.None? && m.calls == []
    case PreReasoning => Deciding(w, m) && m.state.pending.None?
    case AgentReasoning => Deciding(w, m) && m.state.pending.None?
    case PostReasoning => Deciding(w, m)
    case RouteDecision => Deciding(w, m)
    case PreToolCallHook => Deciding(w, m) && m.state.pending.Some?
    case RouteToolPolicy => Counted(m) && if m.state.policy == AutoExecute then Granted(w, m) else m.grants == m.calls
    case ExecuteTool => Counted(m) && Granted(w, m)
    case HumanInterrupt => Counted(m) && m.grants == m.calls
    case PostToolCallHook =>
      && m.grants == m.calls && m.state.agentStatus == CallTool
      && |m.calls| == |m.state.executedTools| == m.state.iteration + 1 && |m.state.observations| == m.state.iteration
    case ObserveResult =>
      && m.grants == m.calls && m.state.agentStatus == CallTool
      && |m.calls| == |m.state.executedTools| == |m.state.observations| == m.state.iteration + 1
    case RouteReplan =>
      && m.grants == m.calls && m.state.agentStatus == ToolObserved && m.state.pending.None?
      && |m.calls| == |m.state.executedTools| == |m.state.observations| == m.state.iteration
    case WriteAudit =>
      && m.grants == m.calls
      && |m.calls| == |m.state.executedTools| == |m.state.observations| == m.state.iteration
  }

  function AtLeastOne(n: int): int {
    if n < 1 then 1 else n
  }

  ghost predicate FreshInv(w: Wiring, m: Machine) {
    && GrantsSound(w, m.grants)
    && m.calls <= m.grants && |m.grants| <= |m.calls| + 1
    && |m.calls| <= AtLeastOne(m.state.maxIterations)
    && (m.pc.At? ==> NodeInv(w, m, m.pc.node))
    && (m.pc.Ended? ==> m.grants == m.calls)
  }

  lemma PlanningKeepsFreshInv(w: Wiring, m: Machine, input: Input)
    requires FreshInv(w, m) && m.pc.At?
    requires m.pc.node in {LoadContext, PreReasoning, AgentReasoning, PostReasoning, RouteDecision}
    ensures FreshInv(w, Next(w, m, input))
  {
  }

  lemma HookKeepsFreshInv(w: Wiring, m: Machine)
    requires FreshInv(w, m) && m.pc == At(PreToolCallHook)
    ensures FreshInv(w, PreToolCallHookNode(w, m))
  {
  }

  lemma PolicyKeepsFreshInv(w: Wiring, m: Machine, input: Input)
    requires FreshInv(w, m) && m.pc.At? && m.pc.node in {RouteToolPolicy, HumanInterrupt, WriteAudit}
    ensures FreshInv(w, Next(w, m, input))
  {
  }

  lemma ExecutionKeepsFreshInv(w: Wiring, m: Machine, answer: ExecutorAnswer)
    requires FreshInv(w, m) && m.pc == At(ExecuteTool)
    ensures FreshInv(w, ExecuteToolNode(w, m, answer))
    ensures !GuardTrips(w, m)
  {
    hide AuthorizationRequired, Permitted, Follows, LogsAuthorized, ExecuteToolNode, NeedsOperator;
    GrantIsNext(w, m);
    if answer.ExecutorRaises? {
      CallRaises(w, m);
    } else {
      CallIsRecorded(w, m, answer);
    }
  }

  lemma GrantIsNext(w: Wiring, m: Machine)
    requires FreshInv(w, m) && m.pc == At(ExecuteTool)
    ensures m.state.pending.Some? && !GuardTrips(w, m)
    ensures m.calls + [Grant(m.state.pending.value, m.state.iteration)] == m.grants
  {
    var grant := Grant(m.state.pending.value, m.state.iteration);
    assert m.grants[|m.calls|] == grant;
    assert Permitted(w, grant.call.name);
  }

  lemma CallRaises(w: Wiring, m: Machine)
    requires m.pc == At(ExecuteTool) && m.state.pending.Some? && !GuardTrips(w, m)
    ensures ExecuteToolNode(w, m, ExecutorRaises)
      == m.(pc := Aborted, calls := m.calls + [Grant(m.state.pending.value, m.state.iteration)])
  {
    RequiredMeansNeeded(w, PendingName(m.state));
    hide AuthorizationRequired, NeedsOperator;
  }

  lemma ObservationKeepsFreshInv(w: Wiring, m: Machine, input: Input)
    requires FreshInv(w, m) && m.pc.At? && m.pc.node in {PostToolCallHook, ObserveResult, RouteReplan}
    ensures FreshInv(w, Next(w, m, input))
  {
  }

  lemma NextKeepsFreshInv(w: Wiring, m: Machine, input: Input)
    requires FreshInv(w, m)
    ensures FreshInv(w, Next(w, m, input))
  {
    if m.pc.At? {
      match m.pc.node
      case PreToolCallHook => HookKeepsFreshInv(w, m);
      case ExecuteTool => ExecutionKeepsFreshInv(w, m, input.executor);
      case RouteToolPolicy => PolicyKeepsFreshInv(w, m, input);
      case HumanInterrupt => PolicyKeepsFreshInv(w, m, input);
      case WriteAudit => PolicyKeepsFreshInv(w, m, input);
      case PostToolCallHook => ObservationKeepsFreshInv(w, m, input);
      case ObserveResult => ObservationKeepsFreshInv(w, m, input);
      case RouteReplan => ObservationKeepsFreshInv(w, m, input);
      case _ => PlanningKeepsFreshInv(w, m, input);
    }
  }

  lemma {:induction false} FreshRunInvariant(w: Wiring, m: Machine, inputs: seq<Input>)
    requires FreshStart(m)
    ensures FreshInv(w, Run(w, m, inputs)) && Run(w, m, inputs).state.maxIterations == m.state.maxIterations
  {
    var inv := (r: Machine) => FreshInv(w, r) && r.state.maxIterations == m.state.maxIterations;
    forall r, input | inv(r) ensures inv(Next(w, r, input)) {
      NextKeepsFreshInv(w, r, input);
    }
    RunKeeps(w, inv, m, inputs);
  }

  /**
    Safety of every fresh run: executor call number i is the call the hook granted in
    iteration i, its tool is permitted, calls happen only under DECISION_SUPPORT, and
    there are at most max(1, max_iterations) of them.
   */
  lemma {:induction false} ExecutorCallsAreGranted(w: Wiring, m: Machine, inputs: seq<Input>)
    requires FreshStart(m)
    ensures var r := Run(w, m, inputs);
      && r.calls <= r.grants && |r.grants| <= |r.calls| + 1
      && (forall i | 0 <= i < |r.calls| :: r.calls[i].iteration == i && Permitted(w, r.calls[i].call.name))
      && (r.calls != [] ==> w.support.DecisionSupport? && w.soldOut.Legacy?)
      && |r.calls| <= AtLeastOne(m.state.maxIterations)
  {
    FreshRunInvariant(w, m, inputs);
    var r := Run(w, m, inputs);
    forall i | 0 <= i < |r.calls| ensures r.calls[i].iteration == i && Permitted(w, r.calls[i].call.name) {
      assert r.calls[i] == r.grants[i];
    }
  }

  /** At every visit to pre_reasoning_hook the four counters agree, and execute_tool's own guards never trip. */
  lemma {:induction false} FreshBookkeeping(w: Wiring, m: Machine, inputs: seq<Input>)
    requires FreshStart(m)
    ensures var r := Run(w, m, inputs);
      && (r.pc == At(PreReasoning) ==>
            r.state.iteration == |r.state.executedTools| == |r.state.observations| == |r.calls|)
      && (r.pc == At(ExecuteTool) ==> !GuardTrips(w, r))
  {
    FreshRunInvariant(w, m, inputs);
    var r := Run(w, m, inputs);
    if r.pc == At(ExecuteTool) {
      ExecutionKeepsFreshInv(w, r, NotADict);
    }
  }

  // ---------------------------------------------------------------- what reasoning lets through

  function ProductOf(call: ToolCall): string {
    if call.productId != "" then call.productId else call.soldOutProductId
  }

  /** A call about the product on show, and about a sold-out alert exactly when there is one. */
  predicate Fits(s: State, call: ToolCall) {
    && (ProductOf(call) != "" && s.currentProductId != "" ==> ProductOf(call) == s.currentProductId)
    && (call.name == "handle_sold_out_event" ==> s.inventoryAlerts > 0)
    && (s.inventoryAlerts > 0 ==> call.name == "handle_sold_out_event" || call.name == "recommend_backup_product")
  }

  predicate PastReasoning(n: Node) {
    n.RouteDecision? || n.PreToolCallHook? || n.RouteToolPolicy? || n.ExecuteTool?
  }

  predicate FitInv(start: State, m: Machine) {
    && m.state.currentProductId == start.currentProductId && m.state.inventoryAlerts == start.inventoryAlerts
    && (forall i | 0 <= i < |m.calls| :: m.calls[i].call.name != "" ==> Fits(start, m.calls[i].call))
    && (m.pc.At? && PastReasoning(m.pc.node) && PendingName(m.state) != "" ==> Fits(start, m.state.pending.value))
  }

  lemma CorrectionKeepsFit(w: Wiring, start: State, m: Machine)
    requires FitInv(start, m) && m.pc == At(PostReasoning)
    ensures FitInv(start, PostReasoningNode(w, m))
  {
  }

  lemma ExecutionKeepsFit(w: Wiring, start: State, m: Machine, answer: ExecutorAnswer)
    requires FitInv(start, m) && m.pc == At(ExecuteTool)
    ensures FitInv(start, ExecuteToolNode(w, m, answer))
  {
    hide Fits;
  }

  lemma HookKeepsFit(w: Wiring, start: State, m: Machine)
    requires FitInv(start, m) && m.pc == At(PreToolCallHook)
    ensures FitInv(start, PreToolCallHookNode(w, m))
  {
    hide Fits, Hooks.HookStep, AuthorizationRequired;
  }

  lemma ReasoningKeepsFit(w: Wiring, start: State, m: Machine, planner: PlannerAnswer)
    requires FitInv(start, m) && m.pc == At(AgentReasoning)
    ensures FitInv(start, AgentReasoningNode(w, m, planner))
  {
    hide Fits;
  }

  lemma OtherNodesKeepFit(w: Wiring, start: State, m: Machine, input: Input)
    requires FitInv(start, m)
    requires m.pc.At? ==> m.pc.node !in {PostReasoning, ExecuteTool, PreToolCallHook, AgentReasoning}
    ensures FitInv(start, Next(w, m, input))
  {
    hide Fits, RequestValid, ResponseMatches, Observe, PostReasoningNode, ExecuteToolNode, PreToolCallHookNode,
      AgentReasoningNode;
  }

  lemma NextKeepsFit(w: Wiring, start: State, m: Machine, input: Input)
    requires FitInv(start, m)
    ensures FitInv(start, Next(w, m, input))
  {
    NextIs(w, m, input);
    hide FitInv, Next;
    if m.pc == At(PostReasoning) {
      CorrectionKeepsFit(w, start, m);
    } else if m.pc == At(ExecuteTool) {
      ExecutionKeepsFit(w, start, m, input.executor);
    } else if m.pc == At(PreToolCallHook) {
      HookKeepsFit(w, start, m);
    } else if m.pc == At(AgentReasoning) {
      ReasoningKeepsFit(w, start, m, input.planner);
    } else {
      OtherNodesKeepFit(w, start, m, input);
    }
  }

  /**
    Whatever the planner asks for, every named call a fresh run executes is about the product on
    show, and while alerts are open it is one of the two sold-out tools.
   */
  lemma {:induction false} ExecutedCallsFit(w: Wiring, m: Machine, inputs: seq<Input>)
    requires FreshStart(m)
    ensures var r := Run(w, m, inputs);
      forall i | 0 <= i < |r.calls| :: r.calls[i].call.name != "" ==> Fits(m.state, r.calls[i].call)
  {
    forall r, input | FitInv(m.state, r) ensures FitInv(m.state, Next(w, r, input)) {
      NextKeepsFit(w, m.state, r, input);
    }
    RunKeeps(w, r => FitInv(m.state, r), m, inputs);
  }

  // ---------------------------------------------------------------- answering from evidence

  predicate AnsweredFromEvidence(start: State, s: State) {
    var backed :=
      && |start.evidence| > 0 && |start.suggestionFact| > 0
      && !(exists e | e in start.evidence :: !e.digestOk)
      && (exists e | e in start.evidence :: e.suggestion == start.suggestionFact);
    && s.agentStatus == (if backed then EvidenceOnly else BlockedStatus)
    && s.finalSuggestion == (if backed then start.suggestionFact else "")
  }

  predicate PlanRouteInv(start: Machine, m: Machine) {
    && m.calls == start.calls && m.plannerCalls == start.plannerCalls
    && m.state.evidence == start.state.evidence && m.state.suggestionFact == start.state.suggestionFact
    && m.state.pending.None?
    && match m.pc
       case At(n) =>
         || n.LoadContext? || n.PreReasoning? || n.AgentReasoning?
         || ((n.PostReasoning? || n.RouteDecision? || n.WriteAudit?) && AnsweredFromEvidence(start.state, m.state))
       case Ended => AnsweredFromEvidence(start.state, m.state)
       case Aborted => true
  }

  lemma EvidenceAnswerIsBacked(start: State, s: State)
    requires s.evidence == start.evidence && s.suggestionFact == start.suggestionFact
    ensures AnsweredFromEvidence(start, EvidenceAnswer(s))
  {
  }

  lemma AnswerReadsTwoFields(start: State)
    ensures forall s: State, t: State | s.agentStatus == t.agentStatus && s.finalSuggestion == t.finalSuggestion ::
      AnsweredFromEvidence(start, s) ==> AnsweredFromEvidence(start, t)
    ensures forall s | AnsweredFromEvidence(start, s) :: s.agentStatus == EvidenceOnly || s.agentStatus == BlockedStatus
  {
  }

  lemma NextKeepsPlanRoute(w: Wiring, start: Machine, m: Machine, input: Input)
    requires w.soldOut.PlanEngine? && PlanRouteInv(start, m)
    ensures PlanRouteInv(start, Next(w, m, input))
  {
    EvidenceAnswerIsBacked(start.state, Visit(m.state, AgentReasoning));
    hide Backed, EvidenceAnswer, AnsweredFromEvidence;
    AnswerReadsTwoFields(start.state);
  }

  /**
    On the plan-engine route a fresh run that ends has asked no planner and no executor, and its
    answer is the reviewed suggestion exactly when the evidence backs it, and blank and blocked otherwise.
   */
  lemma {:induction false} PlanRouteAnswersFromEvidence(w: Wiring, m: Machine, inputs: seq<Input>)
    requires FreshStart(m) && w.soldOut.PlanEngine?
    ensures var r := Run(w, m, inputs);
      && r.calls == m.calls && r.plannerCalls == m.plannerCalls
      && (r.pc.Ended? ==> AnsweredFromEvidence(m.state, r.state))
  {
    hide AnsweredFromEvidence;
    forall r, input | PlanRouteInv(m, r) ensures PlanRouteInv(m, Next(w, r, input)) {
      NextKeepsPlanRoute(w, m, r, input);
    }
    RunKeeps(w, r => PlanRouteInv(m, r), m, inputs);
  }

  // ---------------------------------------------------------------- the walk

  ghost predicate WalkSoFar(m: Machine) {
    var path := m.state.completed;
    && (path != [] ==> path[0] == LoadContext)
    && (forall i | 0 < i < |path| :: Taken(path[i - 1], path[i]))
    && (m.pc.At? ==> if path == [] then m.pc.node == LoadContext else Taken(path[|path| - 1], m.pc.node))
    && (m.pc.Ended? ==> path != [] && path[|path| - 1] == WriteAudit)
  }

  lemma NextKeepsWalk(w: Wiring, m: Machine, input: Input)
    requires WalkSoFar(m)
    ensures WalkSoFar(Next(w, m, input))
  {
    if m.pc.At? {
      FollowsKeepsWalk(m, Next(w, m, input));
    }
  }

  lemma FollowsKeepsWalk(m: Machine, r: Machine)
    requires m.pc.At? && WalkSoFar(m) && Follows(m, r, m.pc.node)
    ensures WalkSoFar(r)
  {
  }

  /** completed_nodes of a fresh run is a walk along declared edges that ends, if the run ends, at write_audit. */
  lemma {:induction false} CompletedNodesAreAWalk(w: Wiring, m: Machine, inputs: seq<Input>)
    requires FreshStart(m)
    ensures WalkSoFar(Run(w, m, inputs))
  {
    forall r, input | WalkSoFar(r) ensures WalkSoFar(Next(w, r, input)) {
      NextKeepsWalk(w, r, input);
    }
    RunKeeps(w, r => WalkSoFar(r), m, inputs);
  }

  // ---------------------------------------------------------------- termination

  function Rank(n: Node): nat {
    match n
    case LoadContext => 14 case PreReasoning => 13 case AgentReasoning => 12 case PostReasoning => 11
    case RouteDecision => 10 case PreToolCallHook => 9 case RouteToolPolicy => 8 case HumanInterrupt => 6
    case ExecuteTool => 6 case PostToolCallHook => 5 case ObserveResult => 4 case RouteReplan => 3 case WriteAudit => 1
  }

  function IterationsLeft(s: State): nat {
    if s.iteration < s.maxIterations then s.maxIterations - s.iteration else 0
  }

  function Measure(m: Machine): nat {
    match m.pc
    case At(RouteReplan) =>
      if || m.state.iteration >= m.state.maxIterations
         || m.state.agentStatus == MaxIterations || Terminal(m.state.agentStatus)
      then 16 * IterationsLeft(m.state) + 3
      else 16 * IterationsLeft(m.state) + 15
    case At(n) => 16 * IterationsLeft(m.state) + Rank(n)
    case _ => 0
  }

  lemma EdgeDecreases(m: Machine, r: Machine, n: Node)
    requires m.pc == At(n) && n != ObserveResult && n != RouteReplan
    requires Follows(m, r, n) && r != m
    ensures Measure(r) < Measure(m)
  {
  }

  lemma ObserveDecreases(m: Machine)
    requires m.pc == At(ObserveResult)
    ensures Measure(ObserveResultNode(m)) < Measure(m)
  {
  }

  lemma ReplanDecreases(m: Machine)
    requires m.pc == At(RouteReplan)
    ensures Measure(RouteReplanNode(m)) < Measure(m)
  {
  }

  lemma StepDecreases(w: Wiring, m: Machine, input: Input)
    requires m.pc.At? && (input.human.Waiting? ==> m.pc.node != HumanInterrupt)
    ensures Measure(Next(w, m, input)) < Measure(m)
  {
    match m.pc.node
    case ObserveResult => ObserveDecreases(m);
    case RouteReplan => ReplanDecreases(m);
    case HumanInterrupt => EdgeDecreases(m, HumanInterruptNode(m, input.human), HumanInterrupt);
    case n => EdgeDecreases(m, Next(w, m, input), n);
  }

  /** From any checkpoint whatever, a run whose human answers ends within `Measure` steps. */
  lemma {:induction false} EveryRunEnds(w: Wiring, m: Machine, inputs: seq<Input>)
    requires forall i | 0 <= i < |inputs| :: !inputs[i].human.Waiting?
    ensures Measure(Run(w, m, inputs)) + |inputs| <= Measure(m) || !Run(w, m, inputs).pc.At?
    ensures |inputs| >= Measure(m) ==> !Run(w, m, inputs).pc.At?
    ensures FreshStart(m) ==> Measure(m) == 16 * IterationsLeft(m.state) + 14
  {
    if inputs != [] {
      var before := Run(w, m, inputs[..|inputs| - 1]);
      EveryRunEnds(w, m, inputs[..|inputs| - 1]);
      if before.pc.At? {
        StepDecreases(w, before, inputs[|inputs| - 1]);
      }
    }
  }

  // ---------------------------------------------------------------- resuming from an arbitrary checkpoint

  predicate GuardTrips(w: Wiring, m: Machine) {
    m.pc == At(ExecuteTool) && (w.support.DeterministicOnly? || NeedsOperator(w, PendingName(m.state)))
  }

  ghost predicate LogsSince(w: Wiring, m: Machine, r: Machine) {
    && m.calls <= r.calls
    && (forall i | |m.calls| <= i < |r.calls| :: !NeedsOperator(w, r.calls[i].call.name))
    && (w.support.DeterministicOnly? ==> r.calls == m.calls)
    && (w.support.DeterministicOnly? || w.soldOut.PlanEngine? ==> r.plannerCalls == m.plannerCalls)
  }

  /**
    From any checkpoint, no authorization-requiring tool, and no tool at all under
    DETERMINISTIC_ONLY, reaches the executor; closed routes never ask the planner.
   */
  lemma {:induction false} ResumedCallsAreAuthorized(w: Wiring, m: Machine, inputs: seq<Input>)
    ensures LogsSince(w, m, Run(w, m, inputs))
  {
    RunKeeps(w, r => LogsSince(w, m, r), m, inputs);
  }

  /** The run has asked nobody anything since checkpoint `m`. */
  predicate Silent(m: Machine, r: Machine) {
    && r.calls == m.calls && r.grants == m.grants && r.plannerCalls == m.plannerCalls
    && r.hookHistory == m.hookHistory && r.hookCalls == m.hookCalls
  }

  function BlockingStatus(w: Wiring): Status {
    if w.support.DeterministicOnly? then SupportDisabled else OperatorDecisionRequired
  }

  /** A blocked call whose name no observation can carry. */
  predicate Unobservable(w: Wiring, m: Machine) {
    w.support.DeterministicOnly? && Text.Strip(PendingName(m.state)) == ""
  }

  /** The blocked call is observed once, as an error, by name where the route is closed. */
  function BlockedObservation(w: Wiring, m: Machine): Observation {
    Observation(if w.support.DeterministicOnly? then Text.Strip(PendingName(m.state)) else "unknown", "error")
  }

  predicate Reported(w: Wiring, m: Machine, r: Machine) {
    r.state.observations == m.state.observations + [BlockedObservation(w, m)]
  }

  lemma UnknownIsStripped()
    ensures Text.Strip("unknown") == "unknown"
  {
    var i, j := Text.StripReads("unknown");
    assert !Text.IsSpace("unknown"[0]) && !Text.IsSpace("unknown"[6]);
  }

  /** `r` is on its way from the blocked checkpoint `m` to the audit. */
  predicate Draining(w: Wiring, m: Machine, r: Machine) {
    && Silent(m, r)
    && r.state.iteration == m.state.iteration && r.state.maxIterations == m.state.maxIterations
    && match r.pc
       case At(ExecuteTool) => r == m
       case At(PostToolCallHook) =>
         && r.state.agentStatus == BlockingStatus(w) && r.state.observations == m.state.observations
         && Observe(r.state) == if Unobservable(w, m) then None else Some(BlockedObservation(w, m))
       case At(ObserveResult) => r.state.agentStatus == BlockingStatus(w) && !Unobservable(w, m) && Reported(w, m, r)
       case At(RouteReplan) => r.state.agentStatus == BlockingStatus(w) && !Unobservable(w, m) && Reported(w, m, r)
       case At(WriteAudit) => Drained(w, m, r)
       case Ended => Drained(w, m, r)
       case Aborted => Unobservable(w, m)
       case _ => false
  }

  predicate Drained(w: Wiring, m: Machine, r: Machine) {
    && !Unobservable(w, m) && Reported(w, m, r)
    && r.state.agentStatus ==
       (if m.state.iteration >= m.state.maxIterations then MaxIterations else BlockingStatus(w))
  }

  lemma BlockedExecutionDrains(w: Wiring, m: Machine, answer: ExecutorAnswer)
    requires GuardTrips(w, m)
    ensures Draining(w, m, ExecuteToolNode(w, m, answer))
  {
    UnknownIsStripped();
    RequiredMeansNeeded(w, PendingName(m.state));
    hide Text.Strip, AuthorizationRequired, NeedsOperator, Follows, LogsAuthorized;
  }

  lemma NextKeepsDraining(w: Wiring, m: Machine, r: Machine, input: Input)
    requires GuardTrips(w, m) && Draining(w, m, r)
    ensures Draining(w, m, Next(w, r, input))
  {
    if r.pc == At(ExecuteTool) {
      BlockedExecutionDrains(w, m, input.executor);
    }
  }

  /**
    A checkpoint parked on execute_tool whose guard trips goes to write_audit or abort, and
    asks neither planner, hook nor executor again. It aborts only when the route is closed and
    the call's name is blank, and the audited status is the blocking one exactly when
    iterations remain: otherwise route_replan overwrites it. The audit shows one error observation.
   */
  lemma {:induction false} BlockedCallDrains(w: Wiring, m: Machine, inputs: seq<Input>)
    requires GuardTrips(w, m)
    ensures Draining(w, m, Run(w, m, inputs))
  {
    forall r, input | Draining(w, m, r) ensures Draining(w, m, Next(w, r, input)) {
      NextKeepsDraining(w, m, r, input);
    }
    RunKeeps(w, r => Draining(w, m, r), m, inputs);
  }

  /** Whatever the human answers, and however the run goes on, the interrupt leads to no executor or planner call. */
  lemma {:induction false} ApprovalExecutesNothing(w: Wiring, m: Machine, inputs: seq<Input>)
    requires m.pc == At(HumanInterrupt)
    ensures Silent(m, Run(w, m, inputs))
    ensures Run(w, m, inputs).pc in {At(HumanInterrupt), At(WriteAudit), Ended, Aborted}
  {
    var inv := (r: Machine) => Silent(m, r) && r.pc in {At(HumanInterrupt), At(WriteAudit), Ended, Aborted};
    RunKeeps(w, inv, m, inputs);
  }

  // ---------------------------------------------------------------- what one iteration does

  datatype Fate = Executes(call: ToolCall) | AsksHuman(call: ToolCall) | Audits

  /** What becomes of the planner's answer, from the wiring, the state and the hook alone. */
  function FateOf(w: Wiring, m: Machine, planner: PlannerAnswer): Fate {
    if w.soldOut.PlanEngine? || w.support.DeterministicOnly? then Audits
    else if planner.PlannerRaises? || planner.action != CallTool then Audits
    else
      var call := planner.call;
      var answer := Hooks.HookStep(w.hookView, w.maxRepeated, m.hookHistory, call.name, "ON_LIVE").0;
      if call.name != "" && !Fits(m.state, call) then Audits
      else if NeedsOperator(w, call.name) || !answer.allowed then Audits
      else if answer.autoExecute then Executes(call)
      else AsksHuman(call)
  }

  /** The planner's call as it stands in front of the hook, if it gets there. */
  predicate Proposes(w: Wiring, m: Machine, planner: PlannerAnswer) {
    && w.soldOut.Legacy? && w.support.DecisionSupport?
    && planner.Decision? && planner.action == CallTool
    && (planner.call.name == "" || Fits(m.state, planner.call))
  }

  /** Why the round went to the audit. */
  function AuditedStatus(w: Wiring, m: Machine, planner: PlannerAnswer): Status {
    if w.support.DeterministicOnly? then SupportDisabled
    else if planner.PlannerRaises? then Degraded
    else if planner.action == NoStatus then Finished
    else if planner.action != CallTool then planner.action
    else if planner.call.name != "" && !Fits(m.state, planner.call) then Corrected
    else if NeedsOperator(w, planner.call.name) then OperatorDecisionRequired
    else BlockedStatus
  }

  /** The suggestion a round ends with: the planner's own, or the old one if it raised. */
  function AuditedSuggestion(w: Wiring, m: Machine, planner: PlannerAnswer): string {
    if w.support.DeterministicOnly? then ""
    else if planner.PlannerRaises? then m.state.finalSuggestion
    else planner.suggestion
  }

  /** The hook is asked exactly about proposed calls that need no operator. */
  function HistoryAfterRound(w: Wiring, m: Machine, planner: PlannerAnswer): seq<Hooks.Entry> {
    if !Proposes(w, m, planner) || NeedsOperator(w, planner.call.name) then m.hookHistory
    else Hooks.HookStep(w.hookView, w.maxRepeated, m.hookHistory, planner.call.name, "ON_LIVE").1
  }

  predicate Untouched(m: Machine, r: Machine) {
    && r.calls == m.calls && r.grants == m.grants && r.hookHistory == m.hookHistory
    && r.state.iteration == m.state.iteration
  }

  predicate SameScene(m: Machine, r: Machine) {
    r.state.currentProductId == m.state.currentProductId && r.state.inventoryAlerts == m.state.inventoryAlerts
  }

  predicate Calling(m: Machine) {
    m.state.agentStatus == CallTool && m.state.pending.Some?
  }

  lemma PlannerStage(w: Wiring, m: Machine, planner: PlannerAnswer)
    ensures var r := AgentReasoningNode(w, m, planner);
      && Untouched(m, r) && SameScene(m, r)
      && (Calling(r) <==>
          w.soldOut.Legacy? && w.support.DecisionSupport? && planner.Decision? && planner.action == CallTool)
      && (Calling(r) ==> r.state.pending == Some(planner.call))
  {
    hide Backed;
  }

  lemma CorrectionStage(w: Wiring, m: Machine)
    requires Calling(m) ==> w.soldOut.Legacy?
    ensures var r := PostReasoningNode(w, m);
      && Untouched(m, r)
      && (Calling(r) <==> Calling(m) && (m.state.pending.value.name == "" || Fits(m.state, m.state.pending.value)))
      && (Calling(r) ==> r.state.pending == m.state.pending)
  {
    if m.state.pending.Some? { IssuesAreMisfits(m); }
    hide PostReasoningIssues, Fits;
  }

  /** What the planner's turn leaves in the status, before it is checked. */
  function PlannedStatus(w: Wiring, planner: PlannerAnswer): Status {
    if w.support.DeterministicOnly? then SupportDisabled
    else if planner.PlannerRaises? then Degraded
    else planner.action
  }

  lemma PlannerStatus(w: Wiring, m: Machine, planner: PlannerAnswer)
    requires w.soldOut.Legacy? && m.state.pending.None?
    ensures var r := AgentReasoningNode(w, m, planner);
      && r.state.agentStatus == PlannedStatus(w, planner) && SameScene(m, r)
      && r.state.finalSuggestion == AuditedSuggestion(w, m, planner)
      && r.state.pending == (
           if w.support.DecisionSupport? && planner.Decision? && planner.action == CallTool then Some(planner.call)
           else None)
  {
    hide Follows, LogsAuthorized, Backed;
  }

  lemma CheckedStatus(w: Wiring, m: Machine)
    requires w.soldOut.Legacy?
    ensures PostReasoningNode(w, m).state.agentStatus
      == if m.state.pending.None? || m.state.pending.value.name == "" || Fits(m.state, m.state.pending.value)
         then m.state.agentStatus else Corrected
    ensures PostReasoningNode(w, m).state.finalSuggestion == m.state.finalSuggestion
  {
    if m.state.pending.Some? { IssuesAreMisfits(m); }
    hide Follows, PostReasoningIssues, Fits;
  }

  lemma StatusStage(w: Wiring, m: Machine, planner: PlannerAnswer)
    requires w.soldOut.Legacy? && m.state.pending.None?
    ensures var r := RouteDecisionNode(PostReasoningNode(w, AgentReasoningNode(w, m, planner)));
      && r.state.finalSuggestion == AuditedSuggestion(w, m, planner)
      && (!Proposes(w, m, planner) ==> WriteAuditNode(r).state.agentStatus == AuditedStatus(w, m, planner))
  {
    hide AgentReasoningNode, PostReasoningNode, Follows;
    PlannerStatus(w, m, planner);
    CheckedStatus(w, AgentReasoningNode(w, m, planner));
  }

  lemma ReasoningStage(w: Wiring, m: Machine, planner: PlannerAnswer)
    ensures var r := RouteDecisionNode(PostReasoningNode(w, AgentReasoningNode(w, m, planner)));
      && Untouched(m, r)
      && r.pc == At(if Proposes(w, m, planner) then PreToolCallHook else WriteAudit)
      && (Proposes(w, m, planner) ==> r.state.pending == Some(planner.call))
  {
    PlannerStage(w, m, planner);
    CorrectionStage(w, AgentReasoningNode(w, m, planner));
    hide AgentReasoningNode, PostReasoningNode;
  }

  lemma IssuesAreMisfits(m: Machine)
    requires m.state.pending.Some?
    ensures var call := m.state.pending.value;
      PostReasoningIssues(call, m.state.currentProductId, m.state.inventoryAlerts) == [] <==> Fits(m.state, call)
  {
  }

  lemma HookStage(w: Wiring, m: Machine, call: ToolCall)
    requires m.pc == At(PreToolCallHook) && m.state.pending == Some(call)
    ensures var r := RouteToolPolicyNode(PreToolCallHookNode(w, m));
      var answer := Hooks.HookStep(w.hookView, w.maxRepeated, m.hookHistory, call.name, "ON_LIVE").0;
      var held := NeedsOperator(w, call.name) || !answer.allowed;
      && r.calls == m.calls && r.state.finalSuggestion == m.state.finalSuggestion
      && r.pc == At(if held then WriteAudit else if answer.autoExecute then ExecuteTool else HumanInterrupt)
      && (!held ==> r.state.pending == Some(call))
      && (held ==>
            r.state.agentStatus == if NeedsOperator(w, call.name) then OperatorDecisionRequired else BlockedStatus)
      && r.hookHistory == (
           if NeedsOperator(w, call.name) then m.hookHistory
           else Hooks.HookStep(w.hookView, w.maxRepeated, m.hookHistory, call.name, "ON_LIVE").1)
      && r.grants == (if !held && answer.autoExecute then m.grants + [Grant(call, m.state.iteration)] else m.grants)
  {
    hide AuthorizationRequired, Hooks.HookStep;
  }

  /**
    One round from agent_reasoning: the executor is next exactly for a call that fits the scene,
    needs no authorization and has the hook's automatic approval; the human is next exactly for
    one the hook holds; everything else goes to the audit. Nothing has been executed so far, and
    the hook remembers the call exactly when it was asked.
   */
  lemma {:induction false} RoundDecides(w: Wiring, m: Machine, inputs: seq<Input>)
    requires m.pc == At(AgentReasoning) && |inputs| == 5
    ensures var r := Run(w, m, inputs);
      && r.calls == m.calls
      && r.hookHistory == HistoryAfterRound(w, m, inputs[0].planner)
      && match FateOf(w, m, inputs[0].planner)
         case Executes(call) =>
           && r.pc == At(ExecuteTool) && r.state.pending == Some(call)
           && r.grants == m.grants + [Grant(call, m.state.iteration)]
         case AsksHuman(call) =>
           r.pc == At(HumanInterrupt) && r.state.pending == Some(call) && r.grants == m.grants
         case Audits =>
           && (r.pc == At(WriteAudit) || r.pc.Ended?) && r.grants == m.grants
           && (w.soldOut.Legacy? && m.state.pending.None? ==>
                 && r.state.agentStatus == AuditedStatus(w, m, inputs[0].planner)
                 && r.state.finalSuggestion == AuditedSuggestion(w, m, inputs[0].planner))
  {
    hide AgentReasoningNode, PostReasoningNode, RouteDecisionNode, Fits, AuthorizationRequired, Hooks.HookStep, Run,
      Next, PreToolCallHookNode, RouteToolPolicyNode;
    var planner := inputs[0].planner;
    var m3 := RouteDecisionNode(PostReasoningNode(w, AgentReasoningNode(w, m, planner)));
    ReasoningStage(w, m, planner);
    RoundUnrolled(w, m, inputs);
    if w.soldOut.Legacy? && m.state.pending.None? { StatusStage(w, m, planner); }
    if Proposes(w, m, planner) { HookStage(w, m3, planner.call); }
  }

  lemma RoundUnrolled(w: Wiring, m: Machine, inputs: seq<Input>)
    requires m.pc == At(AgentReasoning) && |inputs| == 5
    ensures var m3 := RouteDecisionNode(PostReasoningNode(w, AgentReasoningNode(w, m, inputs[0].planner)));
      var r := Run(w, m, inputs);
      && (m3.pc == At(PreToolCallHook) ==> r == RouteToolPolicyNode(PreToolCallHookNode(w, m3)))
      && (m3.pc == At(WriteAudit) ==> r == WriteAuditNode(m3))
  {
    hide *;
    RunOfFive(w, m, inputs);
    var m1 := AgentReasoningNode(w, m, inputs[0].planner);
    var m2 := PostReasoningNode(w, m1);
    var m3 := RouteDecisionNode(m2);
    NextIs(w, m, inputs[0]);
    NextIs(w, m1, inputs[1]);
    NextIs(w, m2, inputs[2]);
    NextIs(w, m3, inputs[3]);
    NextIs(w, PreToolCallHookNode(w, m3), inputs[4]);
    NextIs(w, WriteAuditNode(m3), inputs[4]);
  }

  lemma NextIs(w: Wiring, m: Machine, input: Input)
    ensures m.pc == At(AgentReasoning) ==> Next(w, m, input) == AgentReasoningNode(w, m, input.planner)
    ensures m.pc == At(PostReasoning) ==> Next(w, m, input) == PostReasoningNode(w, m)
    ensures m.pc == At(RouteDecision) ==> Next(w, m, input) == RouteDecisionNode(m)
    ensures m.pc == At(PreToolCallHook) ==> Next(w, m, input) == PreToolCallHookNode(w, m)
    ensures m.pc == At(RouteToolPolicy) ==> Next(w, m, input) == RouteToolPolicyNode(m)
    ensures m.pc == At(HumanInterrupt) ==> Next(w, m, input) == HumanInterruptNode(m, input.human)
    ensures m.pc == At(ExecuteTool) ==> Next(w, m, input) == ExecuteToolNode(w, m, input.executor)
    ensures m.pc == At(PostToolCallHook) ==> Next(w, m, input) == PostToolCallHookNode(m)
    ensures m.pc == At(ObserveResult) ==> Next(w, m, input) == ObserveResultNode(m)
    ensures m.pc == At(RouteReplan) ==> Next(w, m, input) == RouteReplanNode(m)
    ensures m.pc == At(WriteAudit) ==> Next(w, m, input) == WriteAuditNode(m)
    ensures !m.pc.At? ==> Next(w, m, input) == m
  {
    hide LoadContextNode, AgentReasoningNode, PostReasoningNode, RouteDecisionNode, PreToolCallHookNode,
      RouteToolPolicyNode, HumanInterruptNode, ExecuteToolNode, PostToolCallHookNode, ObserveResultNode,
      RouteReplanNode, WriteAuditNode, Visit, Goto, Follows, LogsAuthorized;
  }

  lemma RunOfFive(w: Wiring, m: Machine, inputs: seq<Input>)
    requires |inputs| == 5
    ensures var m4 := Next(w, Next(w, Next(w, Next(w, m, inputs[0]), inputs[1]), inputs[2]), inputs[3]);
      Run(w, m, inputs) == Next(w, m4, inputs[4])
  {
    RunOfFour(w, m, inputs[..4]);
    hide Next;
  }

  lemma RunOfTwo(w: Wiring, m: Machine, inputs: seq<Input>)
    requires |inputs| == 2
    ensures Run(w, m, inputs) == Next(w, Next(w, m, inputs[0]), inputs[1])
  {
    hide Next;
    assert inputs[..1][..0] == [];
    assert Run(w, m, inputs[..1]) == Next(w, m, inputs[0]);
  }

  lemma RunOfFour(w: Wiring, m: Machine, inputs: seq<Input>)
    requires |inputs| == 4
    ensures var m3 := Next(w, Next(w, Next(w, m, inputs[0]), inputs[1]), inputs[2]);
      Run(w, m, inputs) == Next(w, m3, inputs[3])
  {
    hide Next;
    assert inputs[..3][..2] == inputs[..2] && inputs[..2][..1] == inputs[..1] && inputs[..1][..0] == [];
    assert Run(w, m, inputs[..1]) == Next(w, m, inputs[0]);
    assert Run(w, m, inputs[..2]) == Next(w, Run(w, m, inputs[..1]), inputs[1]);
    assert Run(w, m, inputs[..3]) == Next(w, Run(w, m, inputs[..2]), inputs[2]);
  }

  /** What the executor's answer is recorded as; an answer that is no dictionary is an error. */
  function ResultOf(call: string, answer: ExecutorAnswer): ToolResult
    requires !answer.ExecutorRaises?
  {
    if answer.NotADict? then ToolResult(call, "error", true)
    else ToolResult(if answer.tool.Some? then answer.tool.value else call, answer.status, answer.fieldsOk)
  }

  /** The observation model takes a result with a name to report and one of its three statuses. */
  predicate Observable(call: string, result: ToolResult) {
    && Text.Strip(if call != "" then call else result.tool) != ""
    && result.status in {"success", "error", "pending"} && result.fieldsOk
  }

  /**
    One executor call, from execute_tool to the next decision: called once with the pending call,
    its result recorded; then either the observation model refuses it and the run aborts, or it is
    observed under the call's name, the call is cleared, the iteration counts, and the next round
    starts exactly while iterations remain.
   */
  lemma {:induction false} CallIsAbsorbed(w: Wiring, m: Machine, inputs: seq<Input>)
    requires m.pc == At(ExecuteTool) && m.state.pending.Some? && m.state.agentStatus == CallTool
    requires !GuardTrips(w, m) && |inputs| == 4 && !inputs[0].executor.ExecutorRaises?
    ensures var r := Run(w, m, inputs);
      var call := m.state.pending.value;
      var result := ResultOf(call.name, inputs[0].executor);
      && r.calls == m.calls + [Grant(call, m.state.iteration)]
      && r.state.executedTools == m.state.executedTools + [result]
      && if !Observable(call.name, result) then r.pc.Aborted? && r.state.observations == m.state.observations
         else
           && r.state.observations == m.state.observations
                + [Observation(Text.Strip(if call.name != "" then call.name else result.tool), result.status)]
           && r.state.iteration == m.state.iteration + 1 && r.state.pending.None?
           && r.pc == At(if r.state.iteration < r.state.maxIterations then PreReasoning else WriteAudit)
           && r.state.agentStatus == (if r.pc == At(PreReasoning) then ToolObserved else MaxIterations)
  {
    hide ExecuteToolNode, PostToolCallHookNode, ObserveResultNode, RouteReplanNode, Run, Next, Observable, Text.Strip,
      AuthorizationRequired;
    CallIsRecorded(w, m, inputs[0].executor);
    var m1 := ExecuteToolNode(w, m, inputs[0].executor);
    ResultIsObserved(m1);
    AbsorbUnrolled(w, m, inputs);
    RoundCloses(PostToolCallHookNode(m1));
  }

  lemma CallIsRecorded(w: Wiring, m: Machine, answer: ExecutorAnswer)
    requires m.pc == At(ExecuteTool) && m.state.pending.Some? && m.state.agentStatus == CallTool
    requires !GuardTrips(w, m) && !answer.ExecutorRaises?
    ensures var r := ExecuteToolNode(w, m, answer);
      var call := m.state.pending.value;
      && r.pc == At(PostToolCallHook) && r.calls == m.calls + [Grant(call, m.state.iteration)] && r.grants == m.grants
      && r.state == Visit(m.state, ExecuteTool).(
           toolResult := Some(ResultOf(call.name, answer)),
           executedTools := m.state.executedTools + [ResultOf(call.name, answer)])
  {
    RequiredMeansNeeded(w, PendingName(m.state));
    hide AuthorizationRequired, NeedsOperator;
  }

  lemma ResultIsObserved(m: Machine)
    requires m.pc == At(PostToolCallHook) && m.state.pending.Some? && m.state.toolResult.Some?
    ensures var r := PostToolCallHookNode(m);
      var call, result := m.state.pending.value.name, m.state.toolResult.value;
      && r.calls == m.calls && r.state.executedTools == m.state.executedTools
      && if !Observable(call, result) then r.pc.Aborted? && r.state.observations == m.state.observations
         else
           && r.pc == At(ObserveResult)
           && r.state.iteration == m.state.iteration && r.state.maxIterations == m.state.maxIterations
           && r.state.agentStatus == m.state.agentStatus
           && r.state.observations == m.state.observations
                + [Observation(Text.Strip(if call != "" then call else result.tool), result.status)]
  {
    hide Text.Strip;
  }

  lemma RoundCloses(m: Machine)
    ensures var r := RouteReplanNode(ObserveResultNode(m));
      m.pc == At(ObserveResult) && m.state.agentStatus == CallTool ==>
        && r.calls == m.calls && r.state.executedTools == m.state.executedTools
        && r.state.observations == m.state.observations && r.state.pending.None?
        && r.state.iteration == m.state.iteration + 1 && r.state.maxIterations == m.state.maxIterations
        && r.pc == At(if r.state.iteration < r.state.maxIterations then PreReasoning else WriteAudit)
        && r.state.agentStatus == (if r.pc == At(PreReasoning) then ToolObserved else MaxIterations)
  {
  }

  lemma AbsorbUnrolled(w: Wiring, m: Machine, inputs: seq<Input>)
    requires m.pc == At(ExecuteTool) && |inputs| == 4
    ensures var m1 := ExecuteToolNode(w, m, inputs[0].executor);
      var m2 := PostToolCallHookNode(m1);
      m1.pc == At(PostToolCallHook) ==>
        Run(w, m, inputs) == if m2.pc.Aborted? then m2 else RouteReplanNode(ObserveResultNode(m2))
  {
    hide *;
    RunOfFour(w, m, inputs);
    var m1 := ExecuteToolNode(w, m, inputs[0].executor);
    var m2 := PostToolCallHookNode(m1);
    NextIs(w, m, inputs[0]);
    NextIs(w, m1, inputs[1]);
    NextIs(w, m2, inputs[2]);
    NextIs(w, m2, inputs[3]);
    NextIs(w, ObserveResultNode(m2), inputs[3]);
  }

  /**
    An answered interrupt, to the end of the run: a malformed or mismatched answer aborts it; an
    approval ends it with the legacy approval recorded and an operator decision still required, a
    rejection as rejected by the human.
   */
  lemma {:induction false} AnswerIsAudited(w: Wiring, m: Machine, inputs: seq<Input>)
    requires m.pc == At(HumanInterrupt) && |inputs| == 2 && !inputs[0].human.Waiting?
    ensures var r := Run(w, m, inputs);
      var answer, s := inputs[0].human, m.state;
      var tool := if s.pending.Some? then s.pending.value.name else "";
      if || Text.Strip(s.traceId) == "" || Text.Strip(s.roomId) == "" || Text.Strip(tool) == ""
         || (s.pending.Some? && s.pending.value.risk !in ["", "LOW", "MEDIUM", "HIGH", "CRITICAL"])
         || answer.Malformed?
         || answer.traceId != Text.Strip(s.traceId) || answer.roomId != Text.Strip(s.roomId)
         || answer.tool != Text.Strip(tool)
      then r.pc.Aborted?
      else
        && r.pc.Ended?
        && r.state.agentStatus == (if answer.approved then OperatorDecisionRequired else RejectedByHuman)
        && r.state.policy == (if answer.approved then LegacyApprovalRecorded else HumanRejected)
  {
    RunOfTwo(w, m, inputs);
    NextIs(w, m, inputs[0]);
    NextIs(w, HumanInterruptNode(m, inputs[0].human), inputs[1]);
    hide Run, Next, Text.Strip;
  }

  // ---------------------------------------------------------------- observations tell the results

  predicate Told(call: string, result: ToolResult, seen: Observation) {
    seen.status == result.status && seen.tool == Text.Strip(if call != "" then call else result.tool)
  }

  ghost predicate ToldInv(w: Wiring, m: Machine) {
    && FreshInv(w, m)
    && |m.state.observations| <= |m.state.executedTools| <= |m.calls|
    && (forall i | 0 <= i < |m.state.observations| ::
         Told(m.calls[i].call.name, m.state.executedTools[i], m.state.observations[i]))
    && (m.pc == At(PostToolCallHook) ==>
         && m.state.toolResult == Some(m.state.executedTools[|m.state.executedTools| - 1])
         && PendingName(m.state) == m.calls[|m.calls| - 1].call.name)
  }

  lemma ExecutionKeepsTold(w: Wiring, m: Machine, answer: ExecutorAnswer)
    requires ToldInv(w, m) && m.pc == At(ExecuteTool)
    ensures ToldInv(w, ExecuteToolNode(w, m, answer))
  {
    ExecutionKeepsFreshInv(w, m, answer);
    hide FreshInv, Told, AuthorizationRequired;
    if !answer.ExecutorRaises? { CallIsRecorded(w, m, answer); }
  }

  lemma ObservedIsTold(m: Machine)
    requires m.state.toolResult.Some?
    ensures var r := PostToolCallHookNode(m);
      && r.calls == m.calls && r.state.executedTools == m.state.executedTools && r.pc != At(PostToolCallHook)
      && (r.state.observations == m.state.observations
          || (|r.state.observations| == |m.state.observations| + 1
              && r.state.observations[..|m.state.observations|] == m.state.observations
              && Told(PendingName(m.state), m.state.toolResult.value, r.state.observations[|m.state.observations|])))
  {
    hide Text.Strip;
  }

  lemma ObservationKeepsTold(w: Wiring, m: Machine, input: Input)
    requires ToldInv(w, m) && m.pc == At(PostToolCallHook)
    ensures ToldInv(w, PostToolCallHookNode(m))
  {
    ObservationKeepsFreshInv(w, m, input);
    assert |m.state.observations| == |m.state.executedTools| - 1 == |m.calls| - 1;
    hide FreshInv, Text.Strip, Follows;
    ObservedIsTold(m);
    hide PostToolCallHookNode, Told;
  }

  lemma NextKeepsTold(w: Wiring, m: Machine, input: Input)
    requires ToldInv(w, m)
    ensures ToldInv(w, Next(w, m, input))
  {
    hide FreshInv, Told, ExecuteToolNode, PostToolCallHookNode;
    if m.pc == At(ExecuteTool) {
      ExecutionKeepsTold(w, m, input.executor);
    } else if m.pc == At(PostToolCallHook) {
      ObservationKeepsTold(w, m, input);
    } else {
      OtherNodesKeepTold(w, m, input);
    }
  }

  lemma OtherNodesRecordNothing(w: Wiring, m: Machine, input: Input)
    requires m.pc != At(ExecuteTool) && m.pc != At(PostToolCallHook)
    ensures var r := Next(w, m, input);
      && r.calls == m.calls && r.state.executedTools == m.state.executedTools
      && r.state.observations == m.state.observations && r.pc != At(PostToolCallHook)
  {
    hide LoadContextNode, AgentReasoningNode, PostReasoningNode, RouteDecisionNode, PreToolCallHookNode,
      RouteToolPolicyNode, HumanInterruptNode, ExecuteToolNode, PostToolCallHookNode, ObserveResultNode,
      RouteReplanNode, WriteAuditNode;
  }

  lemma OtherNodesKeepTold(w: Wiring, m: Machine, input: Input)
    requires ToldInv(w, m) && m.pc != At(ExecuteTool) && m.pc != At(PostToolCallHook)
    ensures ToldInv(w, Next(w, m, input))
  {
    hide FreshInv, Told, Next;
    NextKeepsFreshInv(w, m, input);
    OtherNodesRecordNothing(w, m, input);
  }

  /** In every fresh run observation i reports result i under the name call i asked for. */
  lemma {:induction false} ObservationsTellResults(w: Wiring, m: Machine, inputs: seq<Input>)
    requires FreshStart(m)
    ensures var r := Run(w, m, inputs);
      && |r.state.observations| <= |r.state.executedTools| <= |r.calls|
      && forall i | 0 <= i < |r.state.observations| ::
           Told(r.calls[i].call.name, r.state.executedTools[i], r.state.observations[i])
  {
    forall r, input | ToldInv(w, r) ensures ToldInv(w, Next(w, r, input)) {
      NextKeepsTold(w, r, input);
    }
    RunKeeps(w, r => ToldInv(w, r), m, inputs);
  }

  // ---------------------------------------------------------------- the hook's memory over a run

  function AsCalls(tools: seq<string>): seq<Hooks.Call> {
    seq(|tools|, i requires 0 <= i < |tools| => Hooks.Call(tools[i], "ON_LIVE"))
  }

  /** What the hook answers and remembers when asked about `tools` in turn. */
  function Replayed(w: Wiring, start: seq<Hooks.Entry>, tools: seq<string>): (seq<Hooks.HookResult>, seq<Hooks.Entry>) {
    Hooks.RunTrimmedFrom(w.hookView, w.maxRepeated, start, AsCalls(tools))
  }

  lemma ReplayedOneMore(w: Wiring, start: seq<Hooks.Entry>, tools: seq<string>, tool: string)
    ensures var (results, history) := Replayed(w, start, tools);
      var (answer, after) := Hooks.HookStep(w.hookView, w.maxRepeated, history, tool, "ON_LIVE");
      Replayed(w, start, tools + [tool]) == (results + [answer], after)
  {
    assert AsCalls(tools + [tool])[..|tools|] == AsCalls(tools);
    hide Hooks.HookStep;
  }

  /** Any step either leaves the hook alone or asks it about the pending call. */
  lemma StepAsksAtMostOnce(w: Wiring, m: Machine, input: Input)
    ensures var r := Next(w, m, input); SameHook(m, r) || (m.pc == At(PreToolCallHook) && AsksHook(w, m, r))
  {
    if m.pc == At(PreToolCallHook) {
      NextIs(w, m, input);
    }
    hide LoadContextNode, AgentReasoningNode, PostReasoningNode, RouteDecisionNode, PreToolCallHookNode,
      RouteToolPolicyNode, HumanInterruptNode, ExecuteToolNode, PostToolCallHookNode, ObserveResultNode,
      RouteReplanNode, WriteAuditNode, AsksHook, NeedsOperator;
  }

  predicate Remembers(w: Wiring, start: seq<Hooks.Entry>, m: Machine) {
    m.hookHistory == Replayed(w, start, m.hookCalls).1
  }

  lemma NextRemembers(w: Wiring, start: seq<Hooks.Entry>, m: Machine, input: Input)
    requires Remembers(w, start, m)
    ensures Remembers(w, start, Next(w, m, input))
  {
    StepAsksAtMostOnce(w, m, input);
    ReplayedOneMore(w, start, m.hookCalls, PendingName(m.state));
    hide Next, Replayed, Hooks.HookStep;
  }

  /** From any checkpoint: a run leaves the starting history, replayed through the calls the hook was asked about. */
  lemma {:induction false} HistoryIsReplayed(w: Wiring, m: Machine, inputs: seq<Input>)
    requires m.hookCalls == []
    ensures var r := Run(w, m, inputs); r.hookHistory == Replayed(w, m.hookHistory, r.hookCalls).1
  {
    assert AsCalls([]) == [];
    forall r, input | Remembers(w, m.hookHistory, r) ensures Remembers(w, m.hookHistory, Next(w, r, input)) {
      NextRemembers(w, m.hookHistory, r, input);
    }
    RunKeeps(w, r => Remembers(w, m.hookHistory, r), m, inputs);
  }

  /** The hook has been asked about one call more than it granted, and the run is on its way out. */
  predicate Refused(m: Machine) {
    || m.pc.Ended? || m.pc.Aborted? || m.pc == At(WriteAudit) || m.pc == At(HumanInterrupt)
    || (m.pc == At(RouteToolPolicy) && m.state.policy != AutoExecute)
  }

  ghost predicate GrantsAnswer(w: Wiring, start: seq<Hooks.Entry>, m: Machine) {
    var results := Replayed(w, start, m.hookCalls).0;
    && |results| == |m.hookCalls|
    && |m.grants| <= |m.hookCalls| <= |m.grants| + 1
    && (forall i | 0 <= i < |m.grants| :: m.hookCalls[i] == m.grants[i].call.name && results[i].autoExecute)
    && (|m.hookCalls| > |m.grants| ==> Refused(m))
  }

  ghost predicate AskedInv(w: Wiring, start: seq<Hooks.Entry>, m: Machine) {
    Remembers(w, start, m) && GrantsAnswer(w, start, m)
  }

  lemma RefusedStaysRefused(w: Wiring, m: Machine, input: Input)
    requires Refused(m)
    ensures Refused(Next(w, m, input)) && SameHook(m, Next(w, m, input))
  {
    NextIs(w, m, input);
    hide Next, RequestValid, ResponseMatches, PreToolCallHookNode, AgentReasoningNode, PostReasoningNode,
      RouteDecisionNode, ExecuteToolNode, PostToolCallHookNode, ObserveResultNode, RouteReplanNode;
  }

  lemma AskingKeepsAnswers(w: Wiring, start: seq<Hooks.Entry>, m: Machine, r: Machine)
    requires AskedInv(w, start, m) && |m.hookCalls| == |m.grants| && AsksHook(w, m, r)
    requires r.pc == At(RouteToolPolicy)
    ensures GrantsAnswer(w, start, r)
  {
    ReplayedOneMore(w, start, m.hookCalls, PendingName(m.state));
    hide Replayed, Hooks.HookStep;
  }

  lemma NextKeepsAsked(w: Wiring, start: seq<Hooks.Entry>, m: Machine, input: Input)
    requires AskedInv(w, start, m)
    ensures AskedInv(w, start, Next(w, m, input))
  {
    hide Next, Replayed, AsksHook, Remembers;
    NextRemembers(w, start, m, input);
    StepAsksAtMostOnce(w, m, input);
    if Refused(m) {
      RefusedStaysRefused(w, m, input);
    } else if !SameHook(m, Next(w, m, input)) {
      AskedStep(w, m, input);
      AskingKeepsAnswers(w, start, m, Next(w, m, input));
    }
  }

  lemma AskedStep(w: Wiring, m: Machine, input: Input)
    requires m.pc == At(PreToolCallHook)
    ensures Next(w, m, input).pc == At(RouteToolPolicy)
  {
    NextIs(w, m, input);
    hide Next;
  }

  lemma {:induction false} FreshRunAsks(w: Wiring, m: Machine, inputs: seq<Input>)
    requires FreshStart(m)
    ensures AskedInv(w, m.hookHistory, Run(w, m, inputs))
  {
    assert AsCalls([]) == [];
    forall r, input | AskedInv(w, m.hookHistory, r) ensures AskedInv(w, m.hookHistory, Next(w, r, input)) {
      NextKeepsAsked(w, m.hookHistory, r, input);
    }
    RunKeeps(w, r => AskedInv(w, m.hookHistory, r), m, inputs);
  }

  /**
    The repetition guard over whole runs: whatever the planner asks for and whatever the hook
    remembers from before, of any max_repeated + 1 neighbouring executor calls two name different tools.
   */
  lemma {:induction false} NeighbouringCallsDiffer(w: Wiring, m: Machine, inputs: seq<Input>, i: nat)
    requires FreshStart(m) && i + w.maxRepeated < |Run(w, m, inputs).calls|
    ensures var calls := Run(w, m, inputs).calls;
      exists j | i < j <= i + w.maxRepeated :: calls[j].call.name != calls[i].call.name
  {
    var r := Run(w, m, inputs);
    FreshRunAsks(w, m, inputs);
    ExecutorCallsAreGranted(w, m, inputs);
    assert forall j | 0 <= j < |r.calls| :: r.calls[j] == r.grants[j];
    hide Run, Remembers, Permitted;
    Hooks.NoUnattendedStreak(w.hookView, w.maxRepeated, m.hookHistory, AsCalls(r.hookCalls), i);
    var j :| i < j <= i + w.maxRepeated && AsCalls(r.hookCalls)[j].tool != AsCalls(r.hookCalls)[i].tool;
    assert r.calls[j].call.name == r.hookCalls[j] && r.calls[i].call.name == r.hookCalls[i];
  }

  // ---------------------------------------------------------------- sold-out writes under the plan engine

  /** Still to be checked by post_reasoning_hook, or already known not to be the sold-out write. */
  predicate SoldOutHeldBack(m: Machine) {
    && (forall i | 0 <= i < |m.calls| :: m.calls[i].call.name != "handle_sold_out_event")
    && (m.pc.At? && (PastReasoning(m.pc.node) || m.pc == At(HumanInterrupt)) ==>
          PendingName(m.state) != "handle_sold_out_event")
  }

  lemma CheckHoldsBack(w: Wiring, m: Machine)
    requires w.soldOut.PlanEngine? && SoldOutHeldBack(m) && m.pc == At(PostReasoning)
    ensures SoldOutHeldBack(PostReasoningNode(w, m))
  {
    hide PostReasoningIssues;
  }

  lemma ExecutionHoldsBack(w: Wiring, m: Machine, answer: ExecutorAnswer)
    requires SoldOutHeldBack(m) && m.pc == At(ExecuteTool)
    ensures SoldOutHeldBack(ExecuteToolNode(w, m, answer))
  {
    hide AuthorizationRequired, LogsAuthorized;
  }

  /** Between the check and the executor the pending call stays or goes, but never changes. */
  lemma PendingOnlyGoes(w: Wiring, m: Machine, input: Input)
    requires m.pc in {At(RouteDecision), At(PreToolCallHook), At(RouteToolPolicy), At(HumanInterrupt)}
    ensures PendingName(Next(w, m, input).state) in {PendingName(m.state), ""}
  {
    NextIs(w, m, input);
    hide Next, AuthorizationRequired, Hooks.HookStep, RequestValid, ResponseMatches, Follows, AsksHook;
  }

  lemma NextHoldsBack(w: Wiring, m: Machine, input: Input)
    requires w.soldOut.PlanEngine? && SoldOutHeldBack(m)
    ensures SoldOutHeldBack(Next(w, m, input))
  {
    NextIs(w, m, input);
    hide Next, PostReasoningNode, ExecuteToolNode;
    if m.pc == At(PostReasoning) {
      CheckHoldsBack(w, m);
    } else if m.pc == At(ExecuteTool) {
      ExecutionHoldsBack(w, m, input.executor);
    } else if m.pc.At? {
      NextFollows(w, m, input);
      if PastReasoning(m.pc.node) || m.pc == At(HumanInterrupt) {
        PendingOnlyGoes(w, m, input);
      }
    }
  }

  lemma NextFollows(w: Wiring, m: Machine, input: Input)
    requires m.pc.At?
    ensures Follows(m, Next(w, m, input), m.pc.node)
  {
    hide Next;
  }

  /**
    On the plan-engine route the coordinator alone writes sold-out events: from any checkpoint whose
    pending call post_reasoning_hook has yet to see, no run executes handle_sold_out_event.
   */
  lemma {:induction false} PlanEngineWritesSoldOutAlone(w: Wiring, m: Machine, inputs: seq<Input>)
    requires w.soldOut.PlanEngine? && m.calls == []
    requires m.pc in {At(LoadContext), At(PreReasoning), At(AgentReasoning), At(PostReasoning)}
    ensures var calls := Run(w, m, inputs).calls;
      forall i | 0 <= i < |calls| :: calls[i].call.name != "handle_sold_out_event"
  {
    forall r, input | SoldOutHeldBack(r) ensures SoldOutHeldBack(Next(w, r, input)) {
      NextHoldsBack(w, r, input);
    }
    RunKeeps(w, r => SoldOutHeldBack(r), m, inputs);
  }

  /** Such a call becomes the reviewed suggestion instead, or the first reference's where none was reviewed. */
  lemma SoldOutBecomesSuggestion(w: Wiring, m: Machine, input: Input)
    requires w.soldOut.PlanEngine? && m.pc == At(PostReasoning) && PendingName(m.state) == "handle_sold_out_event"
    ensures var s := Next(w, m, input).state;
      && s.pending.None? && s.agentStatus == EvidenceOnly
      && (m.state.suggestionFact != "" ==> s.finalSuggestion == m.state.suggestionFact)
      && (m.state.suggestionFact == "" && m.state.evidence != [] ==>
            s.finalSuggestion == m.state.evidence[0].suggestion)
  {
    NextIs(w, m, input);
    hide Next;
  }
}
