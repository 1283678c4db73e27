/** What the contracts do not enforce: no entry point of the vault, nor the policy account, looks at a
    liquid reserve. */
module Reserve {
  import opened Soroban
  import opened Balances
  import opened Vault
  import Framing
  import Token
  import Registry
  import Policy
  import Adapters

  /** The documented floor: 15% of all assets are idle. */
  predicate Kept(w: World) { 100 * w.idle >= 15 * w.TotalAssets() }

  /** Every check of an allocation that does not depend on the amount. */
  predicate Admitted(w: World, env: Env, agent: Address, strategy: Address) {
    && env.Authorized(agent) && env.CallFrom(w.self).Authorized(agent) && !w.paused
    && Policy.Enabled(w.policy.agents, agent) && Policy.Enabled(w.policy.contracts, strategy)
    && FitsU32(w.policy.lastReset + Policy.DAY_IN_LEDGERS)
    && strategy in w.registry.strategies && w.registry.strategies[strategy].status == Registry.Active
    && strategy in w.adapters && !w.adapters[strategy].paused
  }

  /** What the policy account counts as spent when an allocation is made now. */
  function SpentNow(w: World, env: Env): int {
    if Policy.ResetDue(w.policy, env.ledger) then 0 else w.policy.spentToday
  }

  /** The limits that somebody set, and what is there to lend. */
  function Limits(w: World, env: Env, strategy: Address): seq<int>
    requires strategy in w.registry.strategies
  {
    var info := w.registry.strategies[strategy];
    [w.idle, w.policy.maxTx, w.policy.dailyLimit - SpentNow(w, env), info.cap - info.booked]
  }

  /** What the books can still hold in 128 bits, and the tokens to transfer. */
  function Widths(w: World, env: Env, strategy: Address): seq<int>
    requires strategy in w.registry.strategies && strategy in w.adapters
  {
    [I128_MAX - SpentNow(w, env), I128_MAX - w.registry.strategies[strategy].booked, Get(w.asset, w.self),
     I128_MAX - Get(w.asset, strategy), I128_MAX - Principal(w.adapters[strategy]), I128_MAX - w.placed]
  }

  /** The one amount a deposit into an adapter adds to. */
  function Principal(a: Adapters.State): nat {
    match a
    case Blend(_, supplied, _, _, _) => supplied
    case Soroswap(_, principal, _, _, _, _) => principal
    case Mock(_, balance, _, _) => balance
  }

  function Least(bounds: seq<int>): (m: int)
    requires bounds != []
    ensures m in bounds && forall i :: 0 <= i < |bounds| ==> m <= bounds[i]
  {
    if |bounds| == 1 then bounds[0] else
      var rest := Least(bounds[1..]);
      assert forall i :: 0 < i < |bounds| ==> bounds[i] == bounds[1..][i - 1];
      if bounds[0] < rest then bounds[0] else rest
  }

  /** The largest amount that can be allocated. */
  function Largest(w: World, env: Env, strategy: Address): int
    requires strategy in w.registry.strategies && strategy in w.adapters
  {
    Least(Limits(w, env, strategy) + Widths(w, env, strategy))
  }

  predicate Within(x: int, bounds: seq<int>) { forall i :: 0 <= i < |bounds| ==> x <= bounds[i] }

  lemma WithinLeast(x: int, a: seq<int>, b: seq<int>)
    requires a != []
    ensures x <= Least(a + b) <==> Within(x, a) && Within(x, b)
  {
    if x <= Least(a + b) {
      forall i | 0 <= i < |a| ensures x <= a[i] { assert (a + b)[i] == a[i]; }
      forall i | 0 <= i < |b| ensures x <= b[i] { assert (a + b)[|a| + i] == b[i]; }
    }
  }

  lemma RecordedIff(w: World, env: Env, agent: Address, strategy: Address, amount: int)
    ensures Policy.VerifyAndRecord(w.policy, env.CallFrom(w.self), agent, strategy, amount).Ok? <==>
      && env.CallFrom(w.self).Authorized(agent)
      && Policy.Enabled(w.policy.agents, agent) && Policy.Enabled(w.policy.contracts, strategy)
      && FitsU32(w.policy.lastReset + Policy.DAY_IN_LEDGERS)
      && amount <= w.policy.maxTx && amount <= w.policy.dailyLimit - SpentNow(w, env)
      && Fits(SpentNow(w, env) + amount)
  {
  }

  lemma BookedIff(w: World, env: Env, strategy: Address, amount: int)
    requires w.Valid()
    ensures Registry.RecordAllocation(w.registry, env.CallFrom(w.self), strategy, amount).Ok? <==>
      && strategy in w.registry.strategies && w.registry.strategies[strategy].status == Registry.Active
      && Fits(w.registry.strategies[strategy].booked + amount)
      && amount <= w.registry.strategies[strategy].cap - w.registry.strategies[strategy].booked
  {
  }

  lemma ApprovedIff(w: World, env: Env, agent: Address, strategy: Address, amount: int)
    requires w.Valid() && strategy in w.adapters && !w.adapters[strategy].paused
    ensures Approve(w, env, agent, strategy, amount).Ok? <==>
      && Admitted(w, env, agent, strategy) && 0 < amount && Within(amount, Limits(w, env, strategy))
      && Fits(SpentNow(w, env) + amount) && Fits(w.registry.strategies[strategy].booked + amount)
  {
    RecordedIff(w, env, agent, strategy, amount);
    BookedIff(w, env, strategy, amount);
    if strategy in w.registry.strategies { WithinLimits(w, env, strategy, amount); }
  }

  lemma WithinLimits(w: World, env: Env, strategy: Address, amount: int)
    requires strategy in w.registry.strategies
    ensures Within(amount, Limits(w, env, strategy)) <==>
      && amount <= w.idle && amount <= w.policy.maxTx && amount <= w.policy.dailyLimit - SpentNow(w, env)
      && amount <= w.registry.strategies[strategy].cap - w.registry.strategies[strategy].booked
  {
    var limits := Limits(w, env, strategy);
    assert Within(amount, limits) <==>
      amount <= limits[0] && amount <= limits[1] && amount <= limits[2] && amount <= limits[3];
  }

  lemma LentIff(w: World, env: Env, strategy: Address, amount: nat)
    requires w.Valid() && 0 < amount <= w.idle
    ensures Lend(w, env, strategy, amount).Ok? <==>
      CanReceive(w, strategy, amount)
  {
  }

  lemma WithinWidths(w: World, env: Env, strategy: Address, amount: int)
    requires w.Valid() && strategy in w.registry.strategies && strategy in w.adapters && 0 < amount
    ensures Within(amount, Widths(w, env, strategy)) <==>
      && Fits(SpentNow(w, env) + amount) && Fits(w.registry.strategies[strategy].booked + amount)
      && amount <= Get(w.asset, w.self) && Fits(Get(w.asset, strategy) + amount)
      && Fits(Principal(w.adapters[strategy]) + amount) && Fits(w.placed + amount)
  {
    var widths := Widths(w, env, strategy);
    assert Within(amount, widths) <==>
      && amount <= widths[0] && amount <= widths[1] && amount <= widths[2]
      && amount <= widths[3] && amount <= widths[4] && amount <= widths[5];
  }

  predicate CanReceive(w: World, strategy: Address, amount: int) {
    && strategy in w.adapters && !w.adapters[strategy].paused
    && amount <= Get(w.asset, w.self) && Fits(Get(w.asset, strategy) + amount)
    && Fits(Principal(w.adapters[strategy]) + amount) && Fits(w.placed + amount)
  }

  lemma SameReceipt(w: World, v: World, strategy: Address, amount: int)
    requires v == w.(policy := v.policy, registry := v.registry)
    ensures CanReceive(v, strategy, amount) == CanReceive(w, strategy, amount)
  {
  }

  lemma ApprovedThenReceived(w: World, env: Env, agent: Address, strategy: Address, amount: int)
    requires w.Valid()
    ensures Allocate(w, env, agent, strategy, amount).Ok? <==>
      Approve(w, env, agent, strategy, amount).Ok? && CanReceive(w, strategy, amount)
  {
    if Approve(w, env, agent, strategy, amount).Ok? {
      var v := Approve(w, env, agent, strategy, amount).value;
      assert Allocate(w, env, agent, strategy, amount) == Lend(v, env, strategy, amount);
      LentIff(v, env, strategy, amount);
      SameReceipt(w, v, strategy, amount);
    }
  }

  lemma WithinLargest(w: World, env: Env, strategy: Address, amount: int)
    requires w.Valid() && strategy in w.registry.strategies && strategy in w.adapters && 0 < amount
    ensures amount <= Largest(w, env, strategy) <==>
      && Within(amount, Limits(w, env, strategy))
      && Fits(SpentNow(w, env) + amount) && Fits(w.registry.strategies[strategy].booked + amount)
      && amount <= Get(w.asset, w.self) && Fits(Get(w.asset, strategy) + amount)
      && Fits(Principal(w.adapters[strategy]) + amount) && Fits(w.placed + amount)
  {
    WithinWidths(w, env, strategy, amount);
    WithinLeast(amount, Limits(w, env, strategy), Widths(w, env, strategy));
  }

  lemma AdmittedWithinLargest(w: World, env: Env, agent: Address, strategy: Address, amount: int)
    requires w.Valid()
    ensures Approve(w, env, agent, strategy, amount).Ok? && CanReceive(w, strategy, amount) <==>
      Admitted(w, env, agent, strategy) && 0 < amount <= Largest(w, env, strategy)
  {
    if strategy in w.adapters && !w.adapters[strategy].paused {
      ApprovedIff(w, env, agent, strategy, amount);
      if strategy in w.registry.strategies && 0 < amount { WithinLargest(w, env, strategy, amount); }
    }
  }

  /** An allocation is accepted exactly if its agent and strategy are admitted and its amount is positive and
      at most the largest. */
  lemma AllocatedIff(w: World, env: Env, agent: Address, strategy: Address, amount: int)
    requires w.Valid()
    ensures Allocate(w, env, agent, strategy, amount).Ok? <==>
      Admitted(w, env, agent, strategy) && 0 < amount <= Largest(w, env, strategy)
  {
    ApprovedThenReceived(w, env, agent, strategy, amount);
    AdmittedWithinLargest(w, env, agent, strategy, amount);
  }

  lemma AllocationKeepsTotal(w: World, env: Env, agent: Address, strategy: Address, amount: int)
    requires w.Valid() && Allocate(w, env, agent, strategy, amount).Ok?
    ensures var w' := Allocate(w, env, agent, strategy, amount).value;
            w'.idle == w.idle - amount && w'.TotalAssets() == w.TotalAssets()
  {
  }

  /** Exactly when the floor is kept: every allocation by an agent to a strategy that would be accepted now
      leaves 15% idle if and only if the largest one does. The contracts keep the floor just as far as the
      limits somebody set happen to. */
  lemma KeptIffByTheLargest(w: World, env: Env, agent: Address, strategy: Address)
    requires w.Valid()
    ensures
      (forall x :: Allocate(w, env, agent, strategy, x).Ok? ==> Kept(Allocate(w, env, agent, strategy, x).value))
      <==> (Admitted(w, env, agent, strategy) && Largest(w, env, strategy) > 0 ==>
              100 * (w.idle - Largest(w, env, strategy)) >= 15 * w.TotalAssets())
  {
    forall x
      ensures Allocate(w, env, agent, strategy, x).Ok? <==>
        Admitted(w, env, agent, strategy) && 0 < x <= Largest(w, env, strategy)
      ensures Allocate(w, env, agent, strategy, x).Ok? ==>
        (Kept(Allocate(w, env, agent, strategy, x).value) <==> 100 * (w.idle - x) >= 15 * w.TotalAssets())
    {
      AllocatedIff(w, env, agent, strategy, x);
      if Allocate(w, env, agent, strategy, x).Ok? { AllocationKeepsTotal(w, env, agent, strategy, x); }
    }
    if Admitted(w, env, agent, strategy) && Largest(w, env, strategy) > 0 {
      assert Allocate(w, env, agent, strategy, Largest(w, env, strategy)).Ok?;
    }
  }

  /** In a backed vault whose amounts are far from 128 bits, the largest is the least of the idle assets and
      the three limits: per transaction, per day, and the strategy's cap. */
  lemma LargestIsTheLeastLimit(w: World, env: Env, strategy: Address)
    requires w.Valid() && strategy in w.registry.strategies && strategy in w.adapters && w.idle <= Get(w.asset, w.self)
    requires Fits(w.policy.dailyLimit) && Fits(w.registry.strategies[strategy].cap) && Fits(w.TotalAssets())
    requires Fits(Get(w.asset, strategy) + w.idle) && Fits(Principal(w.adapters[strategy]) + w.idle)
    ensures Largest(w, env, strategy) == Least(Limits(w, env, strategy))
  {
    var limits, widths := Limits(w, env, strategy), Widths(w, env, strategy);
    var m := Least(limits);
    assert m <= limits[0] && m <= limits[2] && m <= limits[3];
    assert Within(m, limits) && Within(m, widths);
    WithinLeast(m, limits, widths);
    WithinLeast(Largest(w, env, strategy), limits, widths);
  }

  /** A vault with `amount` idle assets, one strategy, and one agent whose limits are as high. */
  function OneStrategy(self: Address, strategy: Address, agent: Address, amount: nat): World
    requires self.Contract? && strategy.Contract? && strategy != self
  {
    World(self, agent, agent, amount, 0, false,
          Token.State(agent, self, map[], 0, map[]),
          map[self := amount],
          Registry.State(agent, self, agent, [strategy],
                         map[strategy := Registry.StrategyInfo(amount, 0, 1, Registry.Active)]),
          Policy.State(agent, map[agent := true], map[strategy := true], amount, amount, 0, 0),
          map[strategy := Adapters.Mock(self, 0, 0, false)])
  }

  /** It need not be kept at all: an approved agent can allocate every last stroop. */
  lemma EverythingCanBeAllocated(self: Address, strategy: Address, agent: Address, amount: nat)
    requires self.Contract? && strategy.Contract? && strategy != self && agent.User?
    requires 0 < amount && Fits(amount)
    ensures var w := OneStrategy(self, strategy, agent, amount);
            var env := Env(0, 0, {agent}, agent);
            && w.Valid() && env.TopLevel()
            && Allocate(w, env, agent, strategy, amount).Ok?
            && Allocate(w, env, agent, strategy, amount).value.idle == 0
            && Allocate(w, env, agent, strategy, amount).value.TotalAssets() == amount
  {
    var w := OneStrategy(self, strategy, agent, amount);
    var env := Env(0, 0, {agent}, agent);
    assert Policy.VerifyAndRecord(w.policy, env.CallFrom(self), agent, strategy, amount)
         == Result.Ok(w.policy.(spentToday := amount));
    assert Registry.RecordAllocation(w.registry, env.CallFrom(self), strategy, amount).Ok?;
    var approved := Approve(w, env, agent, strategy, amount).value;
    assert Spend(w.asset, self, amount) == map[];
    assert Lend(approved, env, strategy, amount).Ok?;
  }

  function WithPolicy(r: Result<World>, p: Policy.State): Result<World> {
    match r
    case Ok(w) => Ok(w.(policy := p))
    case Err(e) => Err(e)
  }

  lemma RecallIgnoresPolicy(w: World, env: Env, strategy: Address, amount: int, p: Policy.State)
    requires w.Valid() && p.Valid()
    ensures Recall(w.(policy := p), env, strategy, amount) == WithPolicy(Recall(w, env, strategy, amount), p)
  {
  }

  lemma RebookIgnoresPolicy(w: World, env: Env, strategy: Address, amount: nat, p: Policy.State)
    requires w.Valid() && p.Valid()
    ensures Rebook(w.(policy := p), env, strategy, amount) == WithPolicy(Rebook(w, env, strategy, amount), p)
  {
  }

  /** Deallocating asks nobody but the agent: whatever the policy account holds, the outcome is the same. */
  lemma DeallocationIgnoresPolicy(w: World, env: Env, agent: Address, strategy: Address, amount: int, p: Policy.State)
    requires w.Valid() && p.Valid()
    ensures match Deallocate(w, env, agent, strategy, amount)
            case Ok((w', x)) => Deallocate(w.(policy := p), env, agent, strategy, amount) == Ok((w'.(policy := p), x))
            case Err(e) => Deallocate(w.(policy := p), env, agent, strategy, amount) == Err(e)
  {
    if env.Authorized(agent) && amount > 0 {
      var v := w.(policy := p);
      Framing.DeallocateIsRebooked(w, env, agent, strategy, amount);
      Framing.DeallocateIsRebooked(v, env, agent, strategy, amount);
      RecallIgnoresPolicy(w, env, strategy, amount, p);
      var back := Recall(w, env, strategy, amount);
      if back.Ok? { RebookIgnoresPolicy(back.value, env, strategy, amount, p); }
    }
  }
}
