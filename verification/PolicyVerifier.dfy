/** The off-chain verifier of proposals: its checks, its daily cap, and what the cap guarantees. */
module Verifier {
  import opened Engine
  import opened Soroban
  import Arith

  const MS_PER_DAY: nat := 1000 * 60 * 60 * 24

  datatype Rules = Rules(
    agents: set<string>,
    strategies: set<string>,
    maxTransaction: int,
    dailyCap: int,
    maxSlippageBps: int,
    minIdleReservePercentage: int,
    humanApprovalThreshold: int)

  datatype State = State(spent: int, lastResetDay: int)

  /** Division of big integers truncates toward zero. */
  function BigDiv(a: int, b: int): int
    requires b != 0
  {
    if b > 0 then TruncDiv(a, b) else TruncDiv(-a, -b)
  }

  function Day(now: int): int { now / MS_PER_DAY }

  function Reset(s: State, now: int): State {
    if Day(now) > s.lastResetDay then State(0, Day(now)) else s
  }

  function Also(violations: seq<Violation>, broken: bool, v: Violation): seq<Violation> {
    if broken then violations + [v] else violations
  }

  function ReserveViolations(rules: Rules, p: ActionProposal, state: ProtocolState): seq<Violation> {
    AlsoReserve([], rules, p, state)
  }

  function AlsoReserve(violations: seq<Violation>, rules: Rules, p: ActionProposal, state: ProtocolState)
    : seq<Violation>
  {
    if p.actionType != Allocate then violations
    else if p.amount > state.idleAssets then violations + [InsufficientIdle(p.amount, state.idleAssets)]
    else if state.totalAssets <= 0 then violations
    else
      var ratio := TruncDiv((state.idleAssets - p.amount) * 100, state.totalAssets);
      Also(violations, ratio < rules.minIdleReservePercentage, ReserveTooLow(ratio, rules.minIdleReservePercentage))
  }

  function Violations(rules: Rules, spent: int, p: ActionProposal, state: ProtocolState): seq<Violation> {
    var v1 := Also([], p.proposerAgent !in rules.agents, AgentNotAuthorized(p.proposerAgent));
    var v2 := Also(v1, p.targetStrategy !in rules.strategies, StrategyNotAllowed(p.targetStrategy));
    var v3 := Also(v2, p.amount > rules.maxTransaction, TransactionTooLarge(p.amount, rules.maxTransaction));
    var v4 := Also(v3, spent + p.amount > rules.dailyCap, DailyCapBreached(rules.dailyCap, spent));
    var v5 := Also(v4, p.maxSlippageBps > rules.maxSlippageBps,
                  SlippageTooHigh(p.maxSlippageBps, rules.maxSlippageBps));
    AlsoReserve(v5, rules, p, state)
  }

  function NeedsHuman(rules: Rules, p: ActionProposal): bool {
    p.amount >= rules.humanApprovalThreshold
  }

  predicate Approved(rules: Rules, s: State, now: int, p: ActionProposal, state: ProtocolState) {
    Violations(rules, Reset(s, now).spent, p, state) == []
  }

  /** Approved without an operator: only then is the amount recorded at once. */
  predicate Automatic(rules: Rules, s: State, now: int, p: ActionProposal, state: ProtocolState) {
    Approved(rules, s, now, p, state) && !NeedsHuman(rules, p)
  }

  function Evaluate(rules: Rules, s: State, now: int, p: ActionProposal, state: ProtocolState)
    : (State, PolicyEvaluation)
  {
    var s1 := Reset(s, now);
    var automatic := Automatic(rules, s, now, p, state);
    (if automatic then s1.(spent := s1.spent + p.amount) else s1,
     PolicyEvaluation(
       Approved(rules, s, now, p, state),
       NeedsHuman(rules, p),
       Violations(rules, s1.spent, p, state),
       if automatic then [ApprovedAutomatically]
       else if NeedsHuman(rules, p) then [OperatorSignatureRequired(p.amount, rules.humanApprovalThreshold)]
       else []))
  }

  function RecordManual(s: State, now: int, amount: int): State {
    var s1 := Reset(s, now);
    s1.(spent := s1.spent + amount)
  }

  datatype Event =
    | Evaluation(now: int, proposal: ActionProposal, state: ProtocolState)
    | ManualApproval(now: int, amount: int)

  function Step(rules: Rules, s: State, e: Event): State {
    match e
    case Evaluation(now, p, state) => Evaluate(rules, s, now, p, state).0
    case ManualApproval(now, amount) => RecordManual(s, now, amount)
  }

  /** The amount an event changes the record by: a positive one is spent, a negative one is recorded back. */
  function Recorded(rules: Rules, s: State, e: Event): int {
    match e
    case Evaluation(now, p, state) => if Automatic(rules, s, now, p, state) then p.amount else 0
    case ManualApproval(now, amount) => amount
  }

  /** The positive amounts approved automatically on one day of a run. */
  function AutomaticOn(rules: Rules, s: State, run: seq<Event>, day: int): nat
    decreases run
  {
    if run == [] then 0 else
      var e, x := run[0], Recorded(rules, s, run[0]);
      (if e.Evaluation? && Day(e.now) == day && x > 0 then x else 0)
      + AutomaticOn(rules, Step(rules, s, e), run[1..], day)
  }

  /** What is recorded back on one day, by evaluations or by operators. */
  function RefundedOn(rules: Rules, s: State, run: seq<Event>, day: int): nat
    decreases run
  {
    if run == [] then 0 else
      var x := Recorded(rules, s, run[0]);
      (if Day(run[0].now) == day && x < 0 then -x else 0) + RefundedOn(rules, Step(rules, s, run[0]), run[1..], day)
  }

  /** Time does not run backwards. */
  ghost predicate Orderly(run: seq<Event>, day: int) {
    run != [] ==> day <= Day(run[0].now) && Orderly(run[1..], Day(run[0].now))
  }

  lemma {:induction false} NothingOnPastDays(rules: Rules, s: State, run: seq<Event>, now: int, day: int)
    requires Orderly(run, now) && day < now
    ensures AutomaticOn(rules, s, run, day) == 0
    decreases run
  {
    if run != [] { NothingOnPastDays(rules, Step(rules, s, run[0]), run[1..], Day(run[0].now), day); }
  }

  lemma {:induction false} LeftOfTheCap(rules: Rules, s: State, run: seq<Event>, day: int)
    requires Orderly(run, s.lastResetDay) && rules.dailyCap >= 0
    ensures var left := rules.dailyCap - if s.lastResetDay == day then s.spent else 0;
            AutomaticOn(rules, s, run, day) <= (if left > 0 then left else 0) + RefundedOn(rules, s, run, day)
    decreases run
  {
    if run != [] {
      var e := run[0];
      var s' := Step(rules, s, e);
      assert s'.lastResetDay == Day(e.now);
      if Day(e.now) > day {
        NothingOnPastDays(rules, s', run[1..], Day(e.now), day);
      } else {
        LeftOfTheCap(rules, s', run[1..], day);
        if e.Evaluation? && Automatic(rules, s, e.now, e.proposal, e.state) {
          WithinCap(rules, Reset(s, e.now).spent, e.proposal, e.state);
        }
      }
    }
  }

  lemma WithinCap(rules: Rules, spent: int, p: ActionProposal, state: ProtocolState)
    requires Violations(rules, spent, p, state) == []
    ensures spent + p.amount <= rules.dailyCap && p.amount <= rules.maxTransaction
    ensures p.proposerAgent in rules.agents && p.targetStrategy in rules.strategies
    ensures ReserveViolations(rules, p, state) == []
  {
  }

  /** Exactly what the verifier approves: a known agent and strategy, an amount within both limits and a slippage
      within its own; and of allocations only what is idle and leaves the percentage of the total idle. It names each
      broken rule, and approves if it can name none. */
  lemma ApprovedIff(rules: Rules, s: State, now: int, p: ActionProposal, state: ProtocolState)
    ensures var (s', r) := Evaluate(rules, s, now, p, state);
            var before := if now / 86_400_000 > s.lastResetDay then 0 else s.spent;
            && (r.approved <==>
                  && p.proposerAgent in rules.agents && p.targetStrategy in rules.strategies
                  && p.amount <= rules.maxTransaction && before + p.amount <= rules.dailyCap
                  && p.maxSlippageBps <= rules.maxSlippageBps && ReserveHolds(rules, p, state))
            && (r.approved <==> r.violations == [])
            && (r.requiresHumanApproval <==> p.amount >= rules.humanApprovalThreshold)
            && s'.spent == before + (if r.approved && !r.requiresHumanApproval then p.amount else 0)
            && (ApprovedAutomatically in r.notes <==> r.approved && !r.requiresHumanApproval)
  {
    ReserveHoldsIff(rules, p, state);
    NothingBrokenIff(rules, Reset(s, now).spent, p, state);
  }

  /** Of an allocation: it is idle, and leaves at least the percentage of the total idle, unrounded. */
  predicate ReserveHolds(rules: Rules, p: ActionProposal, state: ProtocolState) {
    p.actionType == Allocate ==>
      && p.amount <= state.idleAssets
      && (state.totalAssets > 0 ==>
            (state.idleAssets - p.amount) * 100 >= state.totalAssets * rules.minIdleReservePercentage)
  }

  lemma ReserveHoldsIff(rules: Rules, p: ActionProposal, state: ProtocolState)
    ensures ReserveViolations(rules, p, state) == [] <==> ReserveHolds(rules, p, state)
  {
    if p.actionType == Allocate && p.amount <= state.idleAssets && state.totalAssets > 0 {
      Arith.FloorIsGreatest(rules.minIdleReservePercentage, (state.idleAssets - p.amount) * 100, state.totalAssets);
    }
  }

  /** The violation names a rule that the proposal breaks, with the numbers that break it. */
  predicate Names(rules: Rules, spent: int, p: ActionProposal, state: ProtocolState, ratio: int, v: Violation) {
    match v
    case AgentNotAuthorized(agent) => agent == p.proposerAgent && p.proposerAgent !in rules.agents
    case StrategyNotAllowed(strategy) => strategy == p.targetStrategy && p.targetStrategy !in rules.strategies
    case TransactionTooLarge(x, limit) => x == p.amount > rules.maxTransaction == limit
    case DailyCapBreached(cap, x) => cap == rules.dailyCap && x == spent && spent + p.amount > rules.dailyCap
    case SlippageTooHigh(x, most) => x == p.maxSlippageBps > rules.maxSlippageBps == most
    case InsufficientIdle(x, idle) => p.actionType == Allocate && x == p.amount > state.idleAssets == idle
    case ReserveTooLow(x, least) =>
      && p.actionType == Allocate && p.amount <= state.idleAssets && state.totalAssets > 0
      && x == ratio < rules.minIdleReservePercentage == least
  }

  /** The verifier names exactly the rules that are broken, the reserve with the percentage that would be left, rounded
      down. */
  lemma NamedIff(rules: Rules, spent: int, p: ActionProposal, state: ProtocolState, ratio: int, v: Violation)
    requires state.totalAssets > 0 && p.amount <= state.idleAssets ==>
      ratio * state.totalAssets <= (state.idleAssets - p.amount) * 100 < (ratio + 1) * state.totalAssets
    ensures v in Violations(rules, spent, p, state) <==> Names(rules, spent, p, state, ratio, v)
  {
    var v1 := Also([], p.proposerAgent !in rules.agents, AgentNotAuthorized(p.proposerAgent));
    var v2 := Also(v1, p.targetStrategy !in rules.strategies, StrategyNotAllowed(p.targetStrategy));
    var v3 := Also(v2, p.amount > rules.maxTransaction, TransactionTooLarge(p.amount, rules.maxTransaction));
    var v4 := Also(v3, spent + p.amount > rules.dailyCap, DailyCapBreached(rules.dailyCap, spent));
    AlsoIn([], p.proposerAgent !in rules.agents, AgentNotAuthorized(p.proposerAgent), v);
    AlsoIn(v1, p.targetStrategy !in rules.strategies, StrategyNotAllowed(p.targetStrategy), v);
    AlsoIn(v2, p.amount > rules.maxTransaction, TransactionTooLarge(p.amount, rules.maxTransaction), v);
    AlsoIn(v3, spent + p.amount > rules.dailyCap, DailyCapBreached(rules.dailyCap, spent), v);
    SlippageAndReserveIn(v4, rules, p, state, ratio, v);
  }

  lemma AlsoIn(violations: seq<Violation>, broken: bool, x: Violation, v: Violation)
    ensures v in Also(violations, broken, x) <==> v in violations || (broken && v == x)
  {
  }

  lemma SlippageAndReserveIn(v4: seq<Violation>, rules: Rules, p: ActionProposal, state: ProtocolState, ratio: int,
                             v: Violation)
    requires state.totalAssets > 0 && p.amount <= state.idleAssets ==>
      ratio * state.totalAssets <= (state.idleAssets - p.amount) * 100 < (ratio + 1) * state.totalAssets
    ensures var slippage := SlippageTooHigh(p.maxSlippageBps, rules.maxSlippageBps);
            v in AlsoReserve(Also(v4, p.maxSlippageBps > rules.maxSlippageBps, slippage), rules, p, state) <==>
              || v in v4 || (p.maxSlippageBps > rules.maxSlippageBps && v == slippage)
              || ((v.InsufficientIdle? || v.ReserveTooLow?) && Names(rules, 0, p, state, ratio, v))
  {
    if state.totalAssets > 0 && p.amount <= state.idleAssets { RatioIs(p, state, ratio); }
  }

  lemma RatioIs(p: ActionProposal, state: ProtocolState, ratio: int)
    requires state.totalAssets > 0 && p.amount <= state.idleAssets
    requires ratio * state.totalAssets <= (state.idleAssets - p.amount) * 100 < (ratio + 1) * state.totalAssets
    ensures TruncDiv((state.idleAssets - p.amount) * 100, state.totalAssets) == ratio
  {
    Arith.FloorIsGreatest(ratio, (state.idleAssets - p.amount) * 100, state.totalAssets);
    Arith.FloorIsGreatest(ratio + 1, (state.idleAssets - p.amount) * 100, state.totalAssets);
  }

  lemma NothingBrokenIff(rules: Rules, spent: int, p: ActionProposal, state: ProtocolState)
    ensures Violations(rules, spent, p, state) == [] <==>
      && p.proposerAgent in rules.agents && p.targetStrategy in rules.strategies
      && p.amount <= rules.maxTransaction && spent + p.amount <= rules.dailyCap
      && p.maxSlippageBps <= rules.maxSlippageBps && ReserveViolations(rules, p, state) == []
  {
  }

  /** On no day of any run is more approved without an operator than the daily cap and what was recorded
      back that day. */
  lemma DailyCapHolds(rules: Rules, run: seq<Event>, start: int, day: int)
    requires Orderly(run, start) && rules.dailyCap >= 0
    ensures AutomaticOn(rules, State(0, start), run, day)
         <= rules.dailyCap + RefundedOn(rules, State(0, start), run, day)
  {
    LeftOfTheCap(rules, State(0, start), run, day);
  }

  // Recording back

  /** Some agent may propose some strategy, and one stroop passes both limits. */
  predicate CanApprove(rules: Rules) {
    rules.agents != {} && rules.strategies != {} && rules.maxTransaction >= 1 && rules.humanApprovalThreshold >= 2
  }

  /** A deallocation: the verifier checks no reserve for it. */
  function Movement(rules: Rules, agent: string, strategy: string, amount: int): Event {
    Evaluation(0, ActionProposal("", agent, Deallocate, strategy, amount, rules.maxSlippageBps),
               ProtocolState(0, 0, map[]))
  }

  lemma MovementIsAutomatic(rules: Rules, s: State, agent: string, strategy: string, amount: int)
    requires agent in rules.agents && strategy in rules.strategies && s.lastResetDay == 0
    requires amount <= rules.maxTransaction && amount < rules.humanApprovalThreshold
        && s.spent + amount <= rules.dailyCap
    ensures var e := Movement(rules, agent, strategy, amount);
            Recorded(rules, s, e) == amount && Step(rules, s, e) == s.(spent := s.spent + amount)
  {
  }

  function Repeated(e: Event, n: nat): seq<Event> { if n == 0 then [] else [e] + Repeated(e, n - 1) }

  lemma {:induction false} StroopByStroop(rules: Rules, agent: string, strategy: string, s: State, n: nat)
    requires CanApprove(rules) && agent in rules.agents && strategy in rules.strategies
    requires s.lastResetDay == 0 && s.spent + n == rules.dailyCap
    ensures var run := Repeated(Movement(rules, agent, strategy, 1), n);
            AutomaticOn(rules, s, run, 0) == n && Orderly(run, 0)
    decreases n
  {
    if n > 0 {
      var e := Movement(rules, agent, strategy, 1);
      MovementIsAutomatic(rules, s, agent, strategy, 1);
      StroopByStroop(rules, agent, strategy, s.(spent := s.spent + 1), n - 1);
      assert Repeated(e, n)[1..] == Repeated(e, n - 1);
    }
  }

  /** Nothing forbids a negative amount, so the cap alone is no bound: `back` recorded back lets `back` more
      than the cap be approved, for every `back`. */
  lemma RecordingBackLiftsTheCap(rules: Rules, agent: string, strategy: string, back: int)
    requires CanApprove(rules) && agent in rules.agents && strategy in rules.strategies
    requires back > 0 && rules.dailyCap >= 0
    ensures var run := [Movement(rules, agent, strategy, -back)]
                       + Repeated(Movement(rules, agent, strategy, 1), rules.dailyCap + back);
            && Orderly(run, 0)
            && AutomaticOn(rules, State(0, 0), run, 0) == rules.dailyCap + back
  {
    var first := Movement(rules, agent, strategy, -back);
    var rest := Repeated(Movement(rules, agent, strategy, 1), rules.dailyCap + back);
    MovementIsAutomatic(rules, State(0, 0), agent, strategy, -back);
    StroopByStroop(rules, agent, strategy, State(-back, 0), rules.dailyCap + back);
    assert ([first] + rest)[1..] == rest;
  }

  ghost predicate CapKept(rules: Rules) {
    forall run, start, day :: Orderly(run, start) ==> AutomaticOn(rules, State(0, start), run, day) <= rules.dailyCap
  }

  /** Exactly which rules keep the cap on every day of every run: those that approve nothing positive
      without an operator. */
  lemma CapKeptIffNothingIsApproved(rules: Rules)
    requires rules.dailyCap >= 0
    ensures CapKept(rules) <==> !CanApprove(rules)
  {
    if CanApprove(rules) {
      var agent :| agent in rules.agents;
      var strategy :| strategy in rules.strategies;
      RecordingBackLiftsTheCap(rules, agent, strategy, 1);
    } else {
      forall run, start, day | Orderly(run, start)
        ensures AutomaticOn(rules, State(0, start), run, day) <= rules.dailyCap
      {
        NothingPositive(rules, State(0, start), run, day);
      }
    }
  }

  lemma {:induction false} NothingPositive(rules: Rules, s: State, run: seq<Event>, day: int)
    requires !CanApprove(rules)
    ensures AutomaticOn(rules, s, run, day) == 0
    decreases run
  {
    if run != [] {
      var e := run[0];
      NothingPositive(rules, Step(rules, s, e), run[1..], day);
      if e.Evaluation? && Automatic(rules, s, e.now, e.proposal, e.state) {
        WithinCap(rules, Reset(s, e.now).spent, e.proposal, e.state);
      }
    }
  }

  /** What an operator approves is added to what was spent that day, and the day starts over when it has passed. */
  lemma ManualApprovalRecords(s: State, now: int, amount: int)
    ensures var s' := RecordManual(s, now, amount);
            if now / 86_400_000 > s.lastResetDay then s' == State(amount, now / 86_400_000)
            else s' == State(s.spent + amount, s.lastResetDay)
  {
  }

  /** What operators approve is recorded but not checked against the cap. */
  lemma ManualApprovalsPassTheCap(rules: Rules, s: State, now: int, amount: int)
    requires Day(now) == s.lastResetDay && s.spent >= 0 && amount > rules.dailyCap
    ensures Step(rules, s, ManualApproval(now, amount)).spent > rules.dailyCap
  {
  }

  class PolicyVerifier {
    const rules: Rules
    var dailySpentStroops: int
    var lastResetDay: int

    constructor (rules: Rules, now: int)
      ensures this.rules == rules && Value() == State(0, Day(now))
    {
      this.rules, dailySpentStroops, lastResetDay := rules, 0, now / MS_PER_DAY;
    }

    function Value(): State
      reads this
    {
      State(dailySpentStroops, lastResetDay)
    }

    method CheckDailyReset(now: int)
      modifies this
      ensures Value() == Reset(old(Value()), now)
    {
      var currentDay := now / MS_PER_DAY;
      if currentDay > lastResetDay {
        dailySpentStroops := 0;
        lastResetDay := currentDay;
      }
    }

    /** The checks, in their order, against what has been spent today. */
    method CollectViolations(proposal: ActionProposal, state: ProtocolState) returns (violations: seq<Violation>)
      ensures violations == Violations(rules, dailySpentStroops, proposal, state)
    {
      violations := [];
      if proposal.proposerAgent !in rules.agents {
        violations := violations + [AgentNotAuthorized(proposal.proposerAgent)];
      }
      if proposal.targetStrategy !in rules.strategies {
        violations := violations + [StrategyNotAllowed(proposal.targetStrategy)];
      }
      if proposal.amount > rules.maxTransaction {
        violations := violations + [TransactionTooLarge(proposal.amount, rules.maxTransaction)];
      }
      if dailySpentStroops + proposal.amount > rules.dailyCap {
        violations := violations + [DailyCapBreached(rules.dailyCap, dailySpentStroops)];
      }
      if proposal.maxSlippageBps > rules.maxSlippageBps {
        violations := violations + [SlippageTooHigh(proposal.maxSlippageBps, rules.maxSlippageBps)];
      }
      if proposal.actionType == Allocate {
        if proposal.amount > state.idleAssets {
          violations := violations + [InsufficientIdle(proposal.amount, state.idleAssets)];
        } else {
          var remainingIdle := state.idleAssets - proposal.amount;
          if state.totalAssets > 0 {
            var reserveRatio := TruncDiv(remainingIdle * 100, state.totalAssets);
            if reserveRatio < rules.minIdleReservePercentage {
              violations := violations + [ReserveTooLow(reserveRatio, rules.minIdleReservePercentage)];
            }
          }
        }
      }
    }

    method EvaluateProposal(now: int, proposal: ActionProposal, state: ProtocolState) returns (r: PolicyEvaluation)
      modifies this
      ensures Value() == Evaluate(rules, old(Value()), now, proposal, state).0
      ensures r == Evaluate(rules, old(Value()), now, proposal, state).1
    {
      CheckDailyReset(now);
      var violations := CollectViolations(proposal, state);
      var notes: seq<Note> := [];
      var requiresHumanApproval := false;
      if proposal.amount >= rules.humanApprovalThreshold {
        requiresHumanApproval := true;
        notes := notes + [OperatorSignatureRequired(proposal.amount, rules.humanApprovalThreshold)];
      }
      var approved := |violations| == 0;
      if approved && !requiresHumanApproval {
        dailySpentStroops := dailySpentStroops + proposal.amount;
        notes := notes + [ApprovedAutomatically];
      }
      return PolicyEvaluation(approved, requiresHumanApproval, violations, notes);
    }

    method RecordManualApproval(now: int, amount: int)
      modifies this
      ensures Value() == RecordManual(old(Value()), now, amount)
    {
      CheckDailyReset(now);
      dailySpentStroops := dailySpentStroops + amount;
    }
  }
}
