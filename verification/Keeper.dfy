/** The keeper's rebalancing: which strategy it picks, how much it proposes, where that ends, and how
    its sizing meets the verifier's reserve check. */
module Keeper {
  import opened Wrappers
  import opened Engine
  import opened Soroban
  import opened Arith
  import Verifier

  /** Target weights are basis points, in the insertion order of the configured map. */
  datatype Config = Config(
    keeperAccount: string,
    minReserveRatioPercentage: int,
    rebalanceThresholdBps: int,
    targets: seq<(string, int)>)

  datatype Allocation = Allocation(strategy: string, amount: int, driftBps: int)

  function AllocatedTo(state: ProtocolState, strategy: string): int {
    if strategy in state.strategyAllocations then state.strategyAllocations[strategy] else 0
  }

  function WeightBps(state: ProtocolState, strategy: string): int
    requires state.totalAssets != 0
  {
    Verifier.BigDiv(AllocatedTo(state, strategy) * 10000, state.totalAssets)
  }

  function Drift(targets: seq<(string, int)>, state: ProtocolState, i: nat): int
    requires i < |targets| && state.totalAssets != 0
  {
    targets[i].1 - WeightBps(state, targets[i].0)
  }

  /** The first of the first `n` targets with the largest positive drift; -1 if none drifts. */
  function Pick(targets: seq<(string, int)>, state: ProtocolState, n: nat): (k: int)
    requires n <= |targets| && state.totalAssets != 0
    ensures -1 <= k < n
    ensures k == -1 ==> forall j :: 0 <= j < n ==> Drift(targets, state, j) <= 0
    ensures k >= 0 ==> Drift(targets, state, k) > 0
    ensures k >= 0 ==> forall j :: 0 <= j < n ==> Drift(targets, state, j) <= Drift(targets, state, k)
    ensures k >= 0 ==> forall j :: 0 <= j < k ==> Drift(targets, state, j) < Drift(targets, state, k)
  {
    if n == 0 then -1 else
      var best := Pick(targets, state, n - 1);
      if Drift(targets, state, n - 1) > (if best < 0 then 0 else Drift(targets, state, best)) then n - 1 else best
  }

  function MinReserve(c: Config, state: ProtocolState): int {
    TruncDiv(state.totalAssets * c.minReserveRatioPercentage, 100)
  }

  /** Half the drift, but no more than the idle assets above the reserve floor. */
  function Size(c: Config, state: ProtocolState, driftBps: int): int {
    var half := TruncDiv(state.totalAssets * driftBps, 20000);
    var spare := if state.idleAssets > MinReserve(c, state) then state.idleAssets - MinReserve(c, state) else 0;
    if half > spare then spare else half
  }

  predicate ReserveBreached(c: Config, state: ProtocolState)
    requires state.totalAssets != 0
  {
    Verifier.BigDiv(state.idleAssets * 100, state.totalAssets) < c.minReserveRatioPercentage
  }

  function Propose(c: Config, state: ProtocolState): Option<Allocation> {
    if state.totalAssets == 0 || ReserveBreached(c, state) then None else
      var k := Pick(c.targets, state, |c.targets|);
      if k < 0 then None else
        var drift := Drift(c.targets, state, k);
        var a := Allocation(c.targets[k].0, Size(c, state, drift), drift);
        if drift >= c.rebalanceThresholdBps && a.strategy != "" && a.amount > 0 then Some(a) else None
  }

  function ProposalOf(c: Config, id: string, a: Allocation): ActionProposal {
    ActionProposal(id, c.keeperAccount, Allocate, a.strategy, a.amount, 50)
  }

  /** A vault whose records are in order: nothing is negative. */
  predicate Sensible(state: ProtocolState) {
    && 0 <= state.idleAssets && 0 <= state.totalAssets
    && forall s :: s in state.strategyAllocations ==> state.strategyAllocations[s] >= 0
  }

  /** Exactly when the keeper proposes, and what: for the strategy it picks, half of its drift in stroops, rounded
      down, or all that is idle above the reserve, rounded down, if that is less. */
  lemma ProposedIff(c: Config, state: ProtocolState, k: nat, half: nat, reserve: nat)
    requires Sensible(state) && state.totalAssets > 0 && c.minReserveRatioPercentage >= 0
    requires k < |c.targets| && k == Pick(c.targets, state, |c.targets|)
    requires half * 20000 <= state.totalAssets * Drift(c.targets, state, k) < (half + 1) * 20000
    requires reserve * 100 <= state.totalAssets * c.minReserveRatioPercentage < (reserve + 1) * 100
    ensures Propose(c, state).Some? <==>
      && state.idleAssets * 100 >= state.totalAssets * c.minReserveRatioPercentage
      && Drift(c.targets, state, k) >= c.rebalanceThresholdBps && c.targets[k].0 != ""
      && half > 0 && state.idleAssets > reserve
    ensures Propose(c, state).Some? ==>
      Propose(c, state).value == Allocation(c.targets[k].0,
        if half <= state.idleAssets - reserve then half else state.idleAssets - reserve, Drift(c.targets, state, k))
  {
    FloorIsGreatest(c.minReserveRatioPercentage, state.idleAssets * 100, state.totalAssets);
    SizeIs(c, state, Drift(c.targets, state, k), half, reserve);
  }

  lemma SizeIs(c: Config, state: ProtocolState, drift: nat, half: nat, reserve: nat)
    requires 0 <= state.totalAssets && 0 <= c.minReserveRatioPercentage
    requires half * 20000 <= state.totalAssets * drift < (half + 1) * 20000
    requires reserve * 100 <= state.totalAssets * c.minReserveRatioPercentage < (reserve + 1) * 100
    ensures MinReserve(c, state) == reserve
    ensures Size(c, state, drift) == if half <= state.idleAssets - reserve then half
                                     else if state.idleAssets > reserve then state.idleAssets - reserve else 0
  {
  }

  /** Without a positive drift nothing is proposed. */
  lemma NothingToPropose(c: Config, state: ProtocolState)
    requires Sensible(state) && (state.totalAssets > 0 ==>
               forall j :: 0 <= j < |c.targets| ==> Drift(c.targets, state, j) <= 0)
    ensures Propose(c, state).None?
  {
  }

  /** The drift is the target less the strategy's weight, rounded down to a basis point. */
  lemma DriftIs(targets: seq<(string, int)>, state: ProtocolState, i: nat, weight: nat)
    requires i < |targets| && Sensible(state) && state.totalAssets > 0
    requires weight * state.totalAssets <= AllocatedTo(state, targets[i].0) * 10000 < (weight + 1) * state.totalAssets
    ensures Drift(targets, state, i) == targets[i].1 - weight
  {
    FloorIsGreatest(weight, AllocatedTo(state, targets[i].0) * 10000, state.totalAssets);
    FloorIsGreatest(weight + 1, AllocatedTo(state, targets[i].0) * 10000, state.totalAssets);
  }

  // Against the verifier's reserve check

  /** What every proposal leaves idle: at least the floor, rounded down to a stroop. */
  lemma LeavesTheFloor(c: Config, state: ProtocolState)
    requires Propose(c, state).Some?
    ensures state.idleAssets - Propose(c, state).value.amount >= MinReserve(c, state)
    ensures Propose(c, state).value.amount > 0
  {
  }

  /** The two roundings of one floor. With the same percentage on both sides, the verifier's reserve
      check refuses a proposal exactly when it would leave idle assets on the rounded floor and the
      floor was rounded. */
  lemma VerifierRefusesIffOnRoundedFloor(c: Config, rules: Verifier.Rules, state: ProtocolState, id: string)
    requires state.totalAssets >= 0 && c.minReserveRatioPercentage >= 0
    requires rules.minIdleReservePercentage == c.minReserveRatioPercentage
    requires Propose(c, state).Some?
    ensures var a := Propose(c, state).value;
            Verifier.ReserveViolations(rules, ProposalOf(c, id, a), state) != [] <==>
              && state.idleAssets - a.amount == MinReserve(c, state)
              && state.totalAssets * c.minReserveRatioPercentage % 100 != 0
  {
    LeavesTheFloor(c, state);
    NaturalReserve(c, state);
    var a := Propose(c, state).value;
    ReserveRoundings(state.idleAssets - a.amount, state.totalAssets, c.minReserveRatioPercentage);
    assert state.idleAssets - a.amount >= 0;
  }

  /** It happens: 15% of 101 stroops. The keeper would leave 15, the verifier wants 15.15. */
  lemma RefusalHappens(rules: Verifier.Rules, id: string)
    requires rules.minIdleReservePercentage == 15
    ensures var c := Config("keeper", 15, 500, [("blend", 10000)]);
            var state := ProtocolState(101, 20, map[]);
            && Sensible(state)
            && Propose(c, state) == Some(Allocation("blend", 5, 10000))
            && Verifier.ReserveViolations(rules, ProposalOf(c, id, Propose(c, state).value), state)
               == [ReserveTooLow(14, 15)]
  {
    var c := Config("keeper", 15, 500, [("blend", 10000)]);
    var state := ProtocolState(101, 20, map[]);
    assert Drift(c.targets, state, 0) == 10000;
    assert Pick(c.targets, state, 0) == -1;
    assert Pick(c.targets, state, 1) == 0;
    assert Size(c, state, 10000) == 5;
  }

  lemma NaturalReserve(c: Config, state: ProtocolState)
    requires state.totalAssets >= 0 && c.minReserveRatioPercentage >= 0
    ensures MinReserve(c, state) == state.totalAssets * c.minReserveRatioPercentage / 100 >= 0
  {
    assert state.totalAssets * c.minReserveRatioPercentage >= 0;
  }

  lemma ReserveRoundings(left: nat, total: nat, percent: nat)
    requires total > 0 && left >= total * percent / 100
    ensures left * 100 / total < percent <==> left == total * percent / 100 && total * percent % 100 != 0
  {
    FloorIsGreatest(percent, left * 100, total);
    Assoc(percent, total, 1);
    Floor(total * percent, 100);
  }

  // Sizing

  /** Allocating what was proposed. */
  function Apply(state: ProtocolState, a: Allocation): ProtocolState {
    state.(idleAssets := state.idleAssets - a.amount,
           strategyAllocations := state.strategyAllocations[a.strategy := AllocatedTo(state, a.strategy) + a.amount])
  }

  /** The exact, unrounded comparison of a strategy's share with its target. */
  predicate WithinTarget(state: ProtocolState, strategy: string, targetBps: int) {
    AllocatedTo(state, strategy) * 10000 <= state.totalAssets * targetBps
  }

  /** With a threshold of at least two basis points a proposal never takes its strategy past its target. */
  lemma NeverPastTarget(c: Config, state: ProtocolState)
    requires Sensible(state) && c.rebalanceThresholdBps >= 2 && Propose(c, state).Some?
    ensures var a := Propose(c, state).value;
            var k := Pick(c.targets, state, |c.targets|);
            k >= 0 && a.strategy == c.targets[k].0 && WithinTarget(Apply(state, a), a.strategy, c.targets[k].1)
  {
    var a := Propose(c, state).value;
    var k := Pick(c.targets, state, |c.targets|);
    HalfDriftStaysBelow(AllocatedTo(state, a.strategy), a.amount, state.totalAssets, c.targets[k].1, a.driftBps);
  }

  lemma HalfDriftStaysBelow(alloc: nat, amount: nat, total: nat, target: int, drift: int)
    requires total > 0 && drift >= 2
    requires drift == target - alloc * 10000 / total && amount <= total * drift / 20000
    ensures (alloc + amount) * 10000 <= total * target
  {
    var weight := alloc * 10000 / total;
    Floor(alloc * 10000, total);
    Floor(total * drift, 20000);
    Distribute(weight, drift, total);
    MulLe(2, drift, total);
  }

  /** At a threshold of one basis point or less, some proposal does. */
  lemma PastTargetAtOneBasisPoint(threshold: int)
    requires threshold <= 1
    ensures var c := Config("keeper", 0, threshold, [("blend", 1)]);
            var state := ProtocolState(1_000_000, 500_000, map["blend" := 99]);
            && Sensible(state) && Propose(c, state).Some? && Pick(c.targets, state, 1) == 0
            && !WithinTarget(Apply(state, Propose(c, state).value), "blend", 1)
  {
    var c := Config("keeper", 0, threshold, [("blend", 1)]);
    var state := ProtocolState(1_000_000, 500_000, map["blend" := 99]);
    assert Drift(c.targets, state, 0) == 1;
    assert Pick(c.targets, state, 0) == -1;
    assert Pick(c.targets, state, 1) == 0;
    assert Size(c, state, 1) == 50;
  }

  /** What is proposed, if anything, leaves its strategy within its target. */
  predicate StaysWithin(c: Config, state: ProtocolState) {
    Propose(c, state).Some? ==>
      var k := Pick(c.targets, state, |c.targets|);
      k >= 0 && WithinTarget(Apply(state, Propose(c, state).value), c.targets[k].0, c.targets[k].1)
  }

  ghost predicate NeverOvershoots(threshold: int) {
    forall c: Config, state: ProtocolState ::
      c.rebalanceThresholdBps == threshold && Sensible(state) ==> StaysWithin(c, state)
  }

  /** Exactly which thresholds keep every proposal of every configuration within its target. */
  lemma NeverOvershootsIff(threshold: int)
    ensures NeverOvershoots(threshold) <==> threshold >= 2
  {
    if threshold >= 2 {
      forall c: Config, state: ProtocolState | c.rebalanceThresholdBps == threshold && Sensible(state)
        ensures StaysWithin(c, state)
      {
        if Propose(c, state).Some? { NeverPastTarget(c, state); }
      }
    } else {
      var c := Config("keeper", 0, threshold, [("blend", 1)]);
      var state := ProtocolState(1_000_000, 500_000, map["blend" := 99]);
      PastTargetAtOneBasisPoint(threshold);
      assert !StaysWithin(c, state);
    }
  }

  // Convergence

  lemma ApplyingKeepsSensible(c: Config, state: ProtocolState)
    requires Sensible(state) && c.minReserveRatioPercentage >= 0 && Propose(c, state).Some?
    ensures var next := Apply(state, Propose(c, state).value);
            Sensible(next) && 0 <= next.idleAssets < state.idleAssets && next.totalAssets == state.totalAssets
  {
    LeavesTheFloor(c, state);
    NaturalReserve(c, state);
  }

  /** Proposing and allocating until nothing more is proposed; the allocations made, in order. */
  function Rebalance(c: Config, state: ProtocolState): (r: (ProtocolState, seq<Allocation>))
    requires Sensible(state) && c.minReserveRatioPercentage >= 0
    ensures Sensible(r.0) && r.0.totalAssets == state.totalAssets
    ensures Propose(c, r.0).None?
    decreases state.idleAssets
  {
    var proposed := Propose(c, state);
    if proposed.None? then (state, []) else
      ApplyingKeepsSensible(c, state);
      var rest := Rebalance(c, Apply(state, proposed.value));
      (rest.0, [proposed.value] + rest.1)
  }

  function Moved(made: seq<Allocation>): int {
    if made == [] then 0 else made[0].amount + Moved(made[1..])
  }

  function MovedTo(made: seq<Allocation>, strategy: string): int {
    if made == [] then 0
    else (if made[0].strategy == strategy then made[0].amount else 0) + MovedTo(made[1..], strategy)
  }

  /** Rebalancing to the end conserves assets: what leaves the idle assets is what the strategies got. It
      never goes below the reserve floor it started above. */
  lemma {:induction false} RebalanceConserves(c: Config, state: ProtocolState, strategy: string)
    requires Sensible(state) && c.minReserveRatioPercentage >= 0
    ensures var (end, made) := Rebalance(c, state);
            && end.idleAssets == state.idleAssets - Moved(made)
            && AllocatedTo(end, strategy) == AllocatedTo(state, strategy) + MovedTo(made, strategy)
            && (made != [] ==> end.idleAssets >= MinReserve(c, state))
    decreases state.idleAssets
  {
    var proposed := Propose(c, state);
    if proposed.Some? {
      var next := Apply(state, proposed.value);
      var (end, rest) := Rebalance(c, next);
      ApplyingKeepsSensible(c, state);
      ApplyingMoves(c, state, strategy);
      RebalanceConserves(c, next, strategy);
      assert Rebalance(c, state) == (end, [proposed.value] + rest);
      OneMoreMade(proposed.value, rest, strategy);
    }
  }

  lemma ApplyingMoves(c: Config, state: ProtocolState, strategy: string)
    requires Propose(c, state).Some?
    ensures var a := Propose(c, state).value;
            var next := Apply(state, a);
            && next.idleAssets == state.idleAssets - a.amount
            && AllocatedTo(next, strategy)
                == AllocatedTo(state, strategy) + (if a.strategy == strategy then a.amount else 0)
            && next.idleAssets >= MinReserve(c, state) == MinReserve(c, next)
  {
    LeavesTheFloor(c, state);
  }

  lemma OneMoreMade(a: Allocation, rest: seq<Allocation>, strategy: string)
    ensures Moved([a] + rest) == a.amount + Moved(rest)
    ensures MovedTo([a] + rest, strategy) == (if a.strategy == strategy then a.amount else 0) + MovedTo(rest, strategy)
  {
    assert ([a] + rest)[1..] == rest;
  }

  ghost predicate DistinctTargets(targets: seq<(string, int)>) {
    forall i, j :: 0 <= i < j < |targets| ==> targets[i].0 != targets[j].0
  }

  /** A strategy at or below its target when rebalancing starts is never taken past it. */
  lemma {:induction false} RebalanceStaysWithinTargets(c: Config, state: ProtocolState, k: nat)
    requires Sensible(state) && c.minReserveRatioPercentage >= 0 && c.rebalanceThresholdBps >= 2
    requires DistinctTargets(c.targets) && k < |c.targets|
    requires WithinTarget(state, c.targets[k].0, c.targets[k].1)
    ensures WithinTarget(Rebalance(c, state).0, c.targets[k].0, c.targets[k].1)
    decreases state.idleAssets
  {
    var proposed := Propose(c, state);
    if proposed.Some? {
      NeverPastTarget(c, state);
      RebalanceStaysWithinTargets(c, Apply(state, proposed.value), k);
    }
  }

  /** Where it ends: idle assets are down to the reserve floor, or every target's drift is under the
      threshold or too small for half of it to be one stroop. */
  lemma RebalanceReachesItsGoal(c: Config, state: ProtocolState)
    requires Sensible(state) && c.minReserveRatioPercentage >= 0
    requires forall j :: 0 <= j < |c.targets| ==> c.targets[j].0 != ""
    requires state.totalAssets > 0
    ensures var end := Rebalance(c, state).0;
            || end.idleAssets <= MinReserve(c, end)
            || forall j :: 0 <= j < |c.targets| ==>
                 Drift(c.targets, end, j) < c.rebalanceThresholdBps
                 || end.totalAssets * Drift(c.targets, end, j) < 20000
  {
    var end := Rebalance(c, state).0;
    var k := Pick(c.targets, end, |c.targets|);
    if ReserveBreached(c, end) {
      FloorIsGreatest(c.minReserveRatioPercentage, end.idleAssets * 100, end.totalAssets);
    } else {
      var largest := if k < 0 then 0 else Drift(c.targets, end, k);
      forall j | 0 <= j < |c.targets|
        ensures Drift(c.targets, end, j) * end.totalAssets <= largest * end.totalAssets
      {
        MulLeInt(Drift(c.targets, end, j), largest, end.totalAssets);
      }
    }
  }
}

/** The keeper itself, wired to the verifier and the audit log. */
module KeeperBot {
  import opened Wrappers
  import opened Engine
  import opened Soroban
  import opened Keeper
  import Verifier
  import AuditLog

  function Digits(n: nat): string {
    if n < 10 then [('0' as int + n) as char] else Digits(n / 10) + [('0' as int + n % 10) as char]
  }

  function ProposalId(now: nat, cycle: nat): string {
    "hikari_rebalance_" + Digits(now) + "_" + Digits(cycle)
  }

  datatype Rebalancing = Rebalancing(proposal: Option<ActionProposal>, driftBps: int)

  /** The largest positive drift, or 0. */
  function MaxDrift(c: Config, state: ProtocolState): int {
    if state.totalAssets == 0 || ReserveBreached(c, state) then 0 else
      var k := Pick(c.targets, state, |c.targets|);
      if k < 0 then 0 else Drift(c.targets, state, k)
  }

  class AutonomousKeeperBot {
    const config: Config
    const policyVerifier: Verifier.PolicyVerifier
    const auditLogger: AuditLog.AuditLogger
    var cycleCount: nat

    constructor (config: Config, policyVerifier: Verifier.PolicyVerifier, auditLogger: AuditLog.AuditLogger)
      ensures this.config == config && this.policyVerifier == policyVerifier && this.auditLogger == auditLogger
      ensures cycleCount == 0
    {
      this.config, this.policyVerifier, this.auditLogger, cycleCount := config, policyVerifier, auditLogger, 0;
    }

    /** The loop over the target weights. */
    method LargestDrift(state: ProtocolState)
      returns (maxDriftBps: int, strategyToAllocate: string, rebalanceAmount: int)
      requires state.totalAssets != 0
      ensures var k := Pick(config.targets, state, |config.targets|);
              if k < 0 then maxDriftBps == 0 && strategyToAllocate == ""
              else
                && maxDriftBps == Drift(config.targets, state, k)
                && strategyToAllocate == config.targets[k].0
                && rebalanceAmount == Verifier.BigDiv(state.totalAssets * maxDriftBps, 20000)
    {
      maxDriftBps, strategyToAllocate, rebalanceAmount := 0, "", 0;
      for i := 0 to |config.targets|
        invariant var k := Pick(config.targets, state, i);
                  if k < 0 then maxDriftBps == 0 && strategyToAllocate == ""
                  else
                    && maxDriftBps == Drift(config.targets, state, k)
                    && strategyToAllocate == config.targets[k].0
                    && rebalanceAmount == Verifier.BigDiv(state.totalAssets * maxDriftBps, 20000)
      {
        var (strategy, targetWeightBps) := config.targets[i];
        var currentAlloc := if strategy in state.strategyAllocations then state.strategyAllocations[strategy] else 0;
        var currentWeight := Verifier.BigDiv(currentAlloc * 10000, state.totalAssets);
        var diffBps := targetWeightBps - currentWeight;
        if diffBps > maxDriftBps {
          maxDriftBps := diffBps;
          strategyToAllocate := strategy;
          rebalanceAmount := Verifier.BigDiv(state.totalAssets * diffBps, 20000);
        }
      }
    }

    method EvaluateRebalance(now: nat, state: ProtocolState) returns (r: Rebalancing)
      modifies this
      ensures r.driftBps == MaxDrift(config, state)
      ensures match Propose(config, state)
              case None => r.proposal == None && cycleCount == old(cycleCount)
              case Some(a) =>
                && cycleCount == old(cycleCount) + 1
                && r.proposal == Some(ProposalOf(config, ProposalId(now, cycleCount), a))
    {
      var totalAssets := state.totalAssets;
      if totalAssets == 0 { return Rebalancing(None, 0); }
      var reserveRatioPct := Verifier.BigDiv(state.idleAssets * 100, totalAssets);
      if reserveRatioPct < config.minReserveRatioPercentage { return Rebalancing(None, 0); }
      var maxDriftBps, strategyToAllocate, rebalanceAmount := LargestDrift(state);
      if maxDriftBps >= config.rebalanceThresholdBps && strategyToAllocate != "" {
        var minRequiredReserve := Verifier.BigDiv(totalAssets * config.minReserveRatioPercentage, 100);
        var allocatableIdle := if state.idleAssets > minRequiredReserve then state.idleAssets - minRequiredReserve
          else 0;
        var finalAmount := if rebalanceAmount > allocatableIdle then allocatableIdle else rebalanceAmount;
        if finalAmount > 0 {
          cycleCount := cycleCount + 1;
          var proposal := ActionProposal(ProposalId(now, cycleCount), config.keeperAccount, Allocate,
                                         strategyToAllocate, finalAmount, 50);
          return Rebalancing(Some(proposal), maxDriftBps);
        }
      }
      return Rebalancing(None, maxDriftBps);
    }

    /** The rebalancing part of a cycle: what the verifier approves is logged, and nothing else is. */
    method RunKeeperCycle(now: nat, state: ProtocolState, bunkerActive: bool)
      returns (rebalanced: bool, proposal: Option<ActionProposal>)
      requires auditLogger.Valid()
      modifies this, policyVerifier, auditLogger
      ensures auditLogger.Valid()
      ensures bunkerActive ==> proposal == None && policyVerifier.Value() == old(policyVerifier.Value())
      ensures !bunkerActive ==> (proposal.Some? <==> Propose(config, state).Some?)
      ensures proposal.Some? ==>
        proposal.value == ProposalOf(config, ProposalId(now, cycleCount), Propose(config, state).value)
      ensures proposal.None? ==> !rebalanced && policyVerifier.Value() == old(policyVerifier.Value())
      ensures proposal.Some? ==>
        && policyVerifier.Value()
            == Verifier.Evaluate(policyVerifier.rules, old(policyVerifier.Value()), now, proposal.value, state).0
        && rebalanced
            == Verifier.Approved(policyVerifier.rules, old(policyVerifier.Value()), now, proposal.value, state)
      ensures !rebalanced ==> auditLogger.chain == old(auditLogger.chain)
      ensures rebalanced ==>
        && proposal.Some? && |auditLogger.chain| == |old(auditLogger.chain)| + 1
        && auditLogger.chain[..|auditLogger.chain| - 1] == old(auditLogger.chain)
        && var entry := auditLogger.chain[|auditLogger.chain| - 1];
           && entry.proposalId == proposal.value.id && entry.timestamp == now
           && entry.evaluation == Verifier.Evaluate(policyVerifier.rules, old(policyVerifier.Value()), now,
                                                    proposal.value, state).1
    {
      cycleCount := cycleCount + 1;
      rebalanced, proposal := false, None;
      if !bunkerActive {
        var check := EvaluateRebalance(now, state);
        if check.proposal.Some? {
          proposal := check.proposal;
          var evaluation := policyVerifier.EvaluateProposal(now, proposal.value, state);
          if evaluation.approved {
            rebalanced := true;
            var entry := auditLogger.LogDecision(now, proposal.value, evaluation);
          }
        }
      }
    }
  }
}

/** The agent that sizes allocations for the manual pipeline: a quarter of what lies above 15%. */
module RiskAgent {
  import opened Engine
  import opened Soroban
  import opened Arith
  import Keeper
  import Verifier

  datatype RiskAssessment = RiskAssessment(safeToRebalance: bool, maxAllocation: int, target: string)

  function EvaluateExposure(state: ProtocolState, ranked: seq<string>): RiskAssessment {
    if ranked == [] then RiskAssessment(false, 0, "") else
      var minReserve := TruncDiv(state.totalAssets * 15, 100);
      if state.idleAssets <= minReserve then RiskAssessment(false, 0, ranked[0])
      else RiskAssessment(true, TruncDiv((state.idleAssets - minReserve) * 25, 100), ranked[0])
  }

  /** It takes an allocation to be safe exactly if there is a strategy and more than 15% is idle. */
  lemma SafeIff(state: ProtocolState, ranked: seq<string>)
    requires state.totalAssets >= 0
    ensures EvaluateExposure(state, ranked).safeToRebalance <==>
      ranked != [] && state.idleAssets * 100 > state.totalAssets * 15
    ensures ranked != [] ==> EvaluateExposure(state, ranked).target == ranked[0]
  {
  }

  /** Its sizing, a quarter of what is idle above 15% of the total, is never refused by the verifier's
      reserve check, for any percentage up to 15. */
  lemma NeverRefused(state: ProtocolState, ranked: seq<string>, rules: Verifier.Rules, p: ActionProposal)
    requires state.totalAssets >= 0 && rules.minIdleReservePercentage <= 15
    requires EvaluateExposure(state, ranked).safeToRebalance
    requires p.amount == EvaluateExposure(state, ranked).maxAllocation
    ensures Verifier.ReserveViolations(rules, p, state) == []
    ensures var surplus := state.idleAssets - state.totalAssets * 15 / 100;
            0 < surplus && 4 * p.amount <= surplus < 4 * p.amount + 4
  {
    if state.totalAssets > 0 {
      FloorIsGreatest(15, (state.idleAssets - p.amount) * 100, state.totalAssets);
    }
  }
}
