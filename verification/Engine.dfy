/** The records that the off-chain engine passes between its parts. Amounts are stroops. */
module Engine {

  datatype ActionType = Allocate | Deallocate | Harvest | EmergencyExit

  datatype ActionProposal = ActionProposal(
    id: string,
    proposerAgent: string,
    actionType: ActionType,
    targetStrategy: string,
    amount: int,
    maxSlippageBps: int)

  datatype ProtocolState = ProtocolState(
    totalAssets: int,
    idleAssets: int,
    strategyAllocations: map<string, int>)

  /** What the text of a violation reports. */
  datatype Violation =
    | AgentNotAuthorized(agent: string)
    | StrategyNotAllowed(strategy: string)
    | TransactionTooLarge(amount: int, limit: int)
    | DailyCapBreached(cap: int, spent: int)
    | SlippageTooHigh(requested: int, permitted: int)
    | InsufficientIdle(wanted: int, available: int)
    | ReserveTooLow(ratio: int, minimum: int)

  datatype Note = OperatorSignatureRequired(amount: int, threshold: int) | ApprovedAutomatically

  datatype PolicyEvaluation = PolicyEvaluation(
    approved: bool,
    requiresHumanApproval: bool,
    violations: seq<Violation>,
    notes: seq<Note>)
}
