/** When money comes back out of a strategy: the exact condition for an emergency exit, and how the
    simulated yield can stand in its way. */
module Exits {
  import opened Soroban
  import opened Balances
  import opened Vault
  import opened Solvency
  import Asset
  import Token
  import Registry
  import Policy
  import Adapters

  /** Who may exit a strategy, and that every sum involved is representable. */
  predicate MayExit(w: World, env: Env, caller: Address, strategy: Address) {
    && caller in env.signers
    && (caller == w.admin || caller == w.guardian)
    && (caller == w.registry.admin || caller == w.registry.guardian)
    && strategy in w.adapters && strategy in w.registry.strategies
    && var total := w.adapters[strategy].TotalValue();
       Fits(total) && Fits(w.idle + total) && Fits(Get(w.asset, w.self) + total)
  }

  /** An emergency exit works exactly when the adapter holds all the tokens it reports. */
  lemma ExitIffFullyHeld(w: World, env: Env, caller: Address, strategy: Address)
    requires w.Valid() && MayExit(w, env, caller, strategy)
    ensures EmergencyExit(w, env, caller, strategy).Ok?
            <==> w.adapters[strategy].TotalValue() <= Get(w.asset, strategy)
  {
  }

  /** Exactly when an emergency exit is accepted: a caller with both contracts' leave signs, the adapter holds all
      it reports, and the sums fit. */
  lemma ExitedIff(w: World, env: Env, caller: Address, strategy: Address)
    requires w.Valid() && env.TopLevel()
    ensures EmergencyExit(w, env, caller, strategy).Ok? <==>
      && env.Authorized(caller) && (caller == w.admin || caller == w.guardian)
      && (caller == w.registry.admin || caller == w.registry.guardian)
      && strategy in w.registry.strategies && strategy in w.adapters
      && var total := w.adapters[strategy].TotalValue();
         && total <= Get(w.asset, strategy) && Fits(total) && Fits(w.idle + total)
         && (total > 0 ==> Fits(Get(w.asset, w.self) + total))
  {
    EvacuatedIff(w, env, strategy);
    if Evacuate(w, env, strategy).Ok? {
      var (back, total) := Evacuate(w, env, strategy).value;
      CloseIs(back, env, caller, strategy, total);
    }
  }

  lemma EvacuatedIff(w: World, env: Env, strategy: Address)
    requires w.Valid()
    ensures Evacuate(w, env, strategy).Ok? <==>
      && strategy in w.adapters
      && var total := w.adapters[strategy].TotalValue();
         && total <= Get(w.asset, strategy) && Fits(total)
         && (total > 0 ==> Fits(Get(w.asset, w.self) + total))
    ensures Evacuate(w, env, strategy).Ok? ==> Evacuate(w, env, strategy).value.1 == w.adapters[strategy].TotalValue()
  {
  }

  /** Exactly when a deallocation is accepted: anybody signs for it, the adapter reports and holds the amount, and
      the sums fit. */
  lemma DeallocatedIff(w: World, env: Env, agent: Address, strategy: Address, amount: int)
    requires w.Valid() && env.TopLevel()
    ensures Deallocate(w, env, agent, strategy, amount).Ok? <==>
      && env.Authorized(agent) && 0 < amount
      && strategy in w.registry.strategies && strategy in w.adapters && Fits(w.adapters[strategy].TotalValue())
      && amount <= w.adapters[strategy].TotalValue() && amount <= Get(w.asset, strategy)
      && Fits(Get(w.asset, w.self) + amount) && Fits(w.idle + amount)
  {
    RecalledIff(w, env, strategy, amount);
    if Recall(w, env, strategy, amount).Ok? {
      RebookIs(Recall(w, env, strategy, amount).value, env, strategy, amount);
    }
  }

  lemma RecalledIff(w: World, env: Env, strategy: Address, amount: int)
    requires w.Valid()
    ensures Recall(w, env, strategy, amount).Ok? <==>
      && 0 < amount && strategy in w.adapters && Fits(w.adapters[strategy].TotalValue())
      && amount <= w.adapters[strategy].TotalValue() && amount <= Get(w.asset, strategy)
      && Fits(Get(w.asset, w.self) + amount)
  {
  }

  /** The yield a step books at adapter `k` without a token to go with it. */
  function YieldBooked(w: World, env: Env, op: Op, k: Address): nat
    requires w.Valid()
  {
    if op == OpHarvest(k) && k in w.adapters && Adapters.Harvest(w.adapters[k], env.CallFrom(w.self)).Ok?
    then Adapters.Harvest(w.adapters[k], env.CallFrom(w.self)).value.1 else 0
  }

  function YieldOverRun(w: World, run: Run, k: Address): nat
    requires w.Valid()
    decreases run
  {
    if run == [] then 0
    else YieldBooked(w, run[0].0, run[0].1, k) + YieldOverRun(Step(w, run[0].0, run[0].1), run[1..], k)
  }

  /** How far what adapter `k` reports exceeds what it holds. */
  function Gap(w: World, k: Address): int
    requires k in w.adapters
  {
    w.adapters[k].TotalValue() - Get(w.asset, k)
  }

  lemma DepositLeavesAdapters(w: World, env: Env, from: Address, amount: int)
    requires w.Valid() && Deposit(w, env, from, amount).Ok?
    ensures var w' := Deposit(w, env, from, amount).value.0;
            && w'.adapters == w.adapters && env.CallFrom(w.self).Authorized(from) && 0 < amount <= Get(w.asset, from)
            && w'.asset == Move(w.asset, from, w.self, amount)
  {
  }

  lemma WithdrawLeavesAdapters(w: World, env: Env, to: Address, shares: int)
    requires w.Valid() && Withdraw(w, env, to, shares).Ok?
    ensures var (w', x) := Withdraw(w, env, to, shares).value;
            && w'.adapters == w.adapters && x <= Get(w.asset, w.self) && w'.asset == Move(w.asset, w.self, to, x)
  {
  }

  /** Tokens that no adapter pays only ever arrive at one. */
  lemma PaidByAnother(b: Book, from: Address, to: Address, amount: nat, k: Address)
    requires amount <= Get(b, from) && from != k
    ensures Get(Move(b, from, to, amount), k) >= Get(b, k)
  {
  }

  /** Apart from calls into strategies, tokens only ever arrive at an adapter. */
  lemma OtherStepsLeaveAdapters(w: World, env: Env, op: Op, k: Address)
    requires w.Valid() && env.TopLevel() && k in w.adapters
    requires !op.OpAllocate? && !op.OpDeallocate? && !op.OpEmergencyExit? && !op.OpHarvest?
    ensures Step(w, env, op).adapters == w.adapters && Get(Step(w, env, op).asset, k) >= Get(w.asset, k)
  {
    if Execute(w, env, op).Ok? {
      if op.OpDeposit? {
        DepositLeavesAdapters(w, env, op.from, op.amount);
        PaidByAnother(w.asset, op.from, w.self, op.amount, k);
      } else if op.OpWithdraw? {
        WithdrawLeavesAdapters(w, env, op.to, op.shares);
        PaidByAnother(w.asset, w.self, op.to, Withdraw(w, env, op.to, op.shares).value.1, k);
      } else if op.OpTransferAsset? {
        PaidByAnother(w.asset, op.from, op.to, op.amount, k);
      }
    }
  }

  lemma LendingKeepsGap(w: World, w': World, to: Address, x: nat, k: Address)
    requires w.Valid() && w'.Valid() && Lent(w, w', to, x) && k in w.adapters
    ensures k in w'.adapters && Gap(w', k) == Gap(w, k)
  {
  }

  lemma ReturningKeepsGap(w: World, w': World, from: Address, x: nat, k: Address)
    requires w.Valid() && w'.Valid() && Returned(w, w', from, x) && k in w.adapters
    ensures k in w'.adapters && Gap(w', k) == Gap(w, k)
  {
  }

  lemma HarvestWidensGap(w: World, env: Env, op: Op, k: Address)
    requires w.Valid() && op.OpHarvest? && Execute(w, env, op).Ok? && k in w.adapters
    ensures k in Step(w, env, op).adapters
    ensures Gap(Step(w, env, op), k) == Gap(w, k) + YieldBooked(w, env, op, k)
  {
  }

  lemma StrategyStepWidensGap(w: World, env: Env, op: Op, k: Address)
    requires w.Valid() && k in w.adapters && Execute(w, env, op).Ok?
    requires op.OpAllocate? || op.OpDeallocate? || op.OpEmergencyExit?
    ensures k in Step(w, env, op).adapters && Gap(Step(w, env, op), k) == Gap(w, k)
  {
    var w' := Step(w, env, op);
    if op.OpAllocate? {
      AllocateLends(w, env, op.agent, op.strategy, op.amount);
      LendingKeepsGap(w, w', op.strategy, op.amount, k);
    } else if op.OpDeallocate? {
      DeallocateReturns(w, env, op.agent, op.strategy, op.amount);
      ReturningKeepsGap(w, w', op.strategy, op.amount, k);
    } else {
      EmergencyExitReturns(w, env, op.caller, op.strategy);
      ReturningKeepsGap(w, w', op.strategy, w.adapters[op.strategy].TotalValue(), k);
    }
  }

  /** Only a harvest can widen the gap, and only by the yield it books. */
  lemma StepWidensGapByYield(w: World, env: Env, op: Op, k: Address)
    requires w.Valid() && env.TopLevel() && k in w.adapters
    ensures k in Step(w, env, op).adapters
    ensures Gap(Step(w, env, op), k) <= Gap(w, k) + YieldBooked(w, env, op, k)
  {
    if op.OpHarvest? && Execute(w, env, op).Ok? {
      HarvestWidensGap(w, env, op, k);
    } else {
      GapKeptWithoutHarvest(w, env, op, k);
    }
  }

  lemma GapKeptWithoutHarvest(w: World, env: Env, op: Op, k: Address)
    requires w.Valid() && env.TopLevel() && k in w.adapters && (op.OpHarvest? ==> Execute(w, env, op).Err?)
    ensures k in Step(w, env, op).adapters && Gap(Step(w, env, op), k) <= Gap(w, k)
  {
    if Execute(w, env, op).Ok? {
      if op.OpAllocate? || op.OpDeallocate? || op.OpEmergencyExit? {
        StrategyStepWidensGap(w, env, op, k);
      } else {
        OtherStepsLeaveAdapters(w, env, op, k);
      }
    }
  }

  /** Over any run, what an adapter reports exceeds what it holds by at most the yield harvested. */
  lemma {:induction false} GapIsAtMostYield(w: World, run: Run, k: Address)
    requires w.Valid() && TopLevelRun(run) && k in w.adapters
    ensures k in After(w, run).adapters
    ensures Gap(After(w, run), k) <= Gap(w, k) + YieldOverRun(w, run, k)
    decreases run
  {
    if run != [] {
      StepWidensGapByYield(w, run[0].0, run[0].1, k);
      GapIsAtMostYield(Step(w, run[0].0, run[0].1), run[1..], k);
    }
  }

  lemma {:induction false} NoHarvestNoYield(w: World, run: Run, k: Address)
    requires w.Valid() && forall i :: 0 <= i < |run| ==> run[i].1 != OpHarvest(k)
    ensures YieldOverRun(w, run, k) == 0
    decreases run
  {
    if run != [] { NoHarvestNoYield(Step(w, run[0].0, run[0].1), run[1..], k); }
  }

  /** With the entry points the vault has, which never harvest, every adapter stays fully held, and so
      an emergency exit is always possible to those who may make one. */
  lemma ExitAlwaysPossibleWithoutHarvest(w: World, run: Run, env: Env, caller: Address, k: Address)
    requires w.Valid() && TopLevelRun(run) && k in w.adapters && w.adapters[k].TotalValue() == 0
    requires forall i :: 0 <= i < |run| ==> run[i].1 != OpHarvest(k)
    requires MayExit(After(w, run), env, caller, k)
    ensures EmergencyExit(After(w, run), env, caller, k).Ok?
  {
    GapIsAtMostYield(w, run, k);
    NoHarvestNoYield(w, run, k);
    ExitIffFullyHeld(After(w, run), env, caller, k);
  }

  /** Were the vault to harvest, which none of its entry points does, an exit would afterwards work exactly if
      the adapter holds the booked yield as well. */
  lemma ExitAfterHarvestIff(w: World, env: Env, exitEnv: Env, caller: Address, k: Address)
    requires w.Valid() && k in w.adapters && MayExit(Step(w, env, OpHarvest(k)), exitEnv, caller, k)
    ensures EmergencyExit(Step(w, env, OpHarvest(k)), exitEnv, caller, k).Ok?
            <==> Gap(w, k) + YieldBooked(w, env, OpHarvest(k), k) <= 0
  {
    ExitIffFullyHeld(Step(w, env, OpHarvest(k)), exitEnv, caller, k);
  }

  /** So the booked yield would strand a strategy that holds just what it reports, until somebody sends it the
      difference. */
  lemma HarvestBlocksExit(w: World, env: Env, exitEnv: Env, caller: Address, k: Address)
    requires w.Valid() && k in w.adapters && Gap(w, k) == 0
    requires YieldBooked(w, env, OpHarvest(k), k) > 0
    requires MayExit(Step(w, env, OpHarvest(k)), exitEnv, caller, k)
    ensures EmergencyExit(Step(w, env, OpHarvest(k)), exitEnv, caller, k).Err?
  {
    ExitAfterHarvestIff(w, env, exitEnv, caller, k);
  }
}
