/** The frozen skill policy: what a catalogue entry says and how the security gate reads it. */
module Governance {

  datatype RiskLevel = Low | Medium | High | Critical

  datatype Lifecycle = PreLive | OnLive | PostLive

  datatype GateDecision = Auto | SoftGate | HardGate | Block

  datatype Authorization = NoAuthorization | HumanApproval | TrustedEventOrHuman

  datatype SkillPolicy = SkillPolicy(
    lifecycle: set<Lifecycle>,
    risk: RiskLevel,
    gate: GateDecision,
    authorization: Authorization)

  /** A skill that is not a key is unknown, and every reader fails closed on it. */
  type PolicyView = map<string, SkillPolicy>

  datatype GateResult = GateResult(allowed: bool, decision: GateDecision, requiresConfirmation: bool)

  function EvaluateToolGate(gate: GateDecision, confirmed: bool): (r: GateResult)
    ensures r.decision == gate
    ensures r.allowed <==> gate.Auto? || gate.SoftGate? || (gate.HardGate? && confirmed)
    ensures r.requiresConfirmation <==> gate.HardGate? && !confirmed
  {
    match gate
    case Auto => GateResult(true, Auto, false)
    case SoftGate => GateResult(true, SoftGate, false)
    case HardGate => if confirmed then GateResult(true, HardGate, false) else GateResult(false, HardGate, true)
    case Block => GateResult(false, Block, false)
  }
}
