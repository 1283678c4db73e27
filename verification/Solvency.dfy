/** Solvency and the share price of the composed vault, over every run. */
module Solvency {
  import opened Soroban
  import opened Balances
  import opened Vault
  import Arith
  import Asset
  import Token
  import Registry
  import Policy
  import Adapters

  /** The virtual-offset share price of `after` is at least that of `before`. */
  predicate PriceKept(before: World, after: World) {
    Arith.RatioLe(before.TotalAssets() + VIRTUAL_ASSETS, before.share.supply + VIRTUAL_SHARES,
                  after.TotalAssets() + VIRTUAL_ASSETS, after.share.supply + VIRTUAL_SHARES)
  }

  /** What stands behind the books: idle assets by the vault's own tokens, and allocated assets by
      the tokens the registered adapters hold, by what they report and by what the registry booked. */
  ghost predicate Backed(w: World)
    requires w.Valid()
  {
    && w.idle <= Get(w.asset, w.self)
    && w.placed <= SumOver(w.registry.list, w.Held())
    && w.placed <= SumOver(w.registry.list, w.Reported())
    && w.placed <= SumOver(w.registry.list, w.registry.Booked())
  }

  // Price

  lemma DepositKeepsPrice(w: World, env: Env, from: Address, amount: int)
    requires w.Valid() && Deposit(w, env, from, amount).Ok?
    ensures PriceKept(w, Deposit(w, env, from, amount).value.0)
  {
    var a, s := w.TotalAssets() + 1, w.share.supply + 1000;
    var m := Deposit(w, env, from, amount).value.1;
    Arith.Floor(amount * s, a);
    Arith.Distribute(s, m, a);
    Arith.Distribute(a, amount, s);
  }

  lemma WithdrawKeepsPrice(w: World, env: Env, to: Address, shares: int)
    requires w.Valid() && Withdraw(w, env, to, shares).Ok?
    ensures PriceKept(w, Withdraw(w, env, to, shares).value.0)
  {
    var a, s := w.TotalAssets() + 1, w.share.supply + 1000;
    var x := Withdraw(w, env, to, shares).value.1;
    Arith.Floor(shares * a, s);
    Arith.Distribute(s, shares, a);
    Arith.Distribute(a, x, s);
  }

  predicate SharesKept(w: World, w': World) {
    w.share.supply == w'.share.supply && w.TotalAssets() <= w'.TotalAssets()
  }

  lemma SameSupplyKeepsPrice(w: World, w': World)
    requires SharesKept(w, w')
    ensures PriceKept(w, w')
  {
    Arith.MulLe(w.TotalAssets() + 1, w'.TotalAssets() + 1, w.share.supply + 1000);
  }

  lemma PriceTransitive(w: World, w': World, w'': World)
    requires PriceKept(w, w') && PriceKept(w', w'')
    ensures PriceKept(w, w'')
  {
    Arith.RatioTransitive(w.TotalAssets() + 1, w.share.supply + 1000, w'.TotalAssets() + 1, w'.share.supply + 1000,
                          w''.TotalAssets() + 1, w''.share.supply + 1000);
  }

  // Backing

  /** A change at one adapter moves each sum over the registered list by that adapter's change. */
  lemma AtOneAdapter(w: World, w': World, strategy: Address)
    requires w.Valid() && w'.Valid() && w'.registry.list == w.registry.list && strategy in w.adapters
    requires w'.adapters.Keys == w.adapters.Keys
    requires forall a :: a in w.adapters && a != strategy ==>
      w'.adapters[a] == w.adapters[a] && Get(w'.asset, a) == Get(w.asset, a)
    ensures SumOver(w'.registry.list, w'.Held()) == SumOver(w.registry.list, w.Held())
            + (if strategy in w.registry.list then Get(w'.asset, strategy) - Get(w.asset, strategy) else 0)
    ensures SumOver(w'.registry.list, w'.Reported()) == SumOver(w.registry.list, w.Reported())
            + (if strategy in w.registry.list
               then w'.adapters[strategy].TotalValue() - w.adapters[strategy].TotalValue() else 0)
  {
    SumOverUpdate(w.registry.list, w.Held(), w'.Held(), strategy);
    SumOverUpdate(w.registry.list, w.Reported(), w'.Reported(), strategy);
  }

  /** Apart from strategy `k`, nobody's adapter state or adapter tokens changed. */
  ghost predicate OnlyAt(w: World, w': World, k: Address) {
    && k in w.adapters && w'.adapters.Keys == w.adapters.Keys
    && w'.self == w.self && w'.share == w.share && w'.paused == w.paused
    && forall a :: a in w.adapters && a != k ==> w'.adapters[a] == w.adapters[a] && Get(w'.asset, a) == Get(w.asset, a)
  }

  /** The effect of an allocation of `x` to strategy `k`. */
  ghost predicate Lent(w: World, w': World, k: Address, x: nat)
    requires w.Valid() && w'.Valid()
  {
    && OnlyAt(w, w', k)
    && w.idle == w'.idle + x && w'.placed == w.placed + x
    && Get(w'.asset, w.self) == Get(w.asset, w.self) - x && Get(w'.asset, k) == Get(w.asset, k) + x
    && w'.adapters[k].TotalValue() == w.adapters[k].TotalValue() + x
    && w'.registry.list == w.registry.list && k in w.registry.strategies
    && w'.registry.Booked() == Receive(w.registry.Booked(), k, x)
  }

  /** What is left of a strategy's booking when it is released by `x`: it stops at zero. */
  function BookedAfter(w: World, k: Address, x: nat): nat
    requires w.Valid()
  {
    if x <= Get(w.registry.Booked(), k) then Get(w.registry.Booked(), k) - x else 0
  }

  /** The effect of `x` coming back from strategy `k`, by deallocation or by emergency exit. */
  ghost predicate Returned(w: World, w': World, k: Address, x: nat)
    requires w.Valid() && w'.Valid()
  {
    && OnlyAt(w, w', k)
    && w'.idle == w.idle + x && w'.placed == Released(w.placed, x)
    && Get(w'.asset, w.self) == Get(w.asset, w.self) + x && Get(w'.asset, k) == Get(w.asset, k) - x
    && w'.adapters[k].TotalValue() == w.adapters[k].TotalValue() - x
    && w'.registry.list == w.registry.list
    && (forall a :: a != k ==> Get(w'.registry.Booked(), a) == Get(w.registry.Booked(), a))
    && Get(w.registry.Booked(), k) - x <= Get(w'.registry.Booked(), k) <= Get(w.registry.Booked(), k)
  }

  /** `x` tokens came from strategy `k` to the vault, or went the other way if `x` is negative, and the strategy
      booked it. */
  ghost predicate TokensMoved(w: World, v: World, k: Address, x: int) {
    && v == w.(asset := v.asset, adapters := v.adapters) && OnlyAt(w, v, k)
    && Get(v.asset, w.self) == Get(w.asset, w.self) + x && Get(v.asset, k) == Get(w.asset, k) - x
    && v.adapters[k].TotalValue() == w.adapters[k].TotalValue() - x
  }

  lemma SendMoves(w: World, env: Env, k: Address, x: int)
    requires w.Valid() && x >= 0 && Send(w, env, k, x).Ok?
    ensures TokensMoved(w, Send(w, env, k, x).value, k, -x)
  {
  }

  lemma RecallMoves(w: World, env: Env, k: Address, x: int)
    requires w.Valid() && Recall(w, env, k, x).Ok?
    ensures x > 0 && TokensMoved(w, Recall(w, env, k, x).value, k, x)
  {
  }

  lemma EvacuateMoves(w: World, env: Env, k: Address)
    requires w.Valid() && Evacuate(w, env, k).Ok?
    ensures TokensMoved(w, Evacuate(w, env, k).value.0, k, Evacuate(w, env, k).value.1)
    ensures Evacuate(w, env, k).value.1 == w.adapters[k].TotalValue() && Evacuate(w, env, k).value.0.adapters[k].paused
  {
  }

  /** The vault and the registry booked what came back from `k`. */
  ghost predicate ReturnBooked(v: World, w': World, k: Address, x: nat)
    requires v.Valid() && w'.Valid()
  {
    && w' == v.(idle := v.idle + x, placed := Released(v.placed, x), registry := w'.registry)
    && w'.registry.list == v.registry.list
    && (forall a :: a != k ==> Get(w'.registry.Booked(), a) == Get(v.registry.Booked(), a))
    && Get(v.registry.Booked(), k) - x <= Get(w'.registry.Booked(), k) <= Get(v.registry.Booked(), k)
  }

  lemma RebookBooks(v: World, env: Env, k: Address, x: nat)
    requires v.Valid() && Rebook(v, env, k, x).Ok?
    ensures ReturnBooked(v, Rebook(v, env, k, x).value, k, x)
    ensures Get(Rebook(v, env, k, x).value.registry.Booked(), k) == BookedAfter(v, k, x)
  {
    Registry.DeallocationReleases(v.registry, env.CallFrom(v.self), k, x);
  }

  lemma CloseBooks(v: World, env: Env, caller: Address, k: Address, x: nat)
    requires v.Valid() && Close(v, env, caller, k, x).Ok?
    ensures ReturnBooked(v, Close(v, env, caller, k, x).value, k, x)
    ensures var r := Close(v, env, caller, k, x).value.registry;
            && r.Booked() == v.registry.Booked() && k in r.strategies && r.strategies[k].status == Registry.Revoked
  {
    Registry.StatusKeepsBookings(v.registry, env.CallFrom(v.self), caller, k, Registry.Revoked);
  }

  lemma MovedAndBooked(w: World, v: World, w': World, k: Address, x: nat)
    requires w.Valid() && v.Valid() && w'.Valid() && TokensMoved(w, v, k, x) && ReturnBooked(v, w', k, x)
    ensures Returned(w, w', k, x)
  {
  }

  lemma ApproveBooks(w: World, env: Env, agent: Address, k: Address, x: int)
    requires w.Valid() && Approve(w, env, agent, k, x).Ok?
    ensures var v := Approve(w, env, agent, k, x).value;
            && 0 < x <= w.idle && v == w.(policy := v.policy, registry := v.registry)
            && v.registry.list == w.registry.list && k in w.registry.strategies
            && v.registry.Booked() == Receive(w.registry.Booked(), k, x)
  {
    Registry.AllocationBooks(w.registry, env.CallFrom(w.self), k, x);
  }

  lemma LendLends(v: World, env: Env, k: Address, x: int)
    requires v.Valid() && 0 < x <= v.idle && Lend(v, env, k, x).Ok?
    ensures var sent, w' := Send(v, env, k, x), Lend(v, env, k, x).value;
            && sent.Ok? && TokensMoved(v, sent.value, k, -x)
            && w' == sent.value.(idle := v.idle - x, placed := v.placed + x)
  {
    SendMoves(v, env, k, x);
  }

  lemma AllocateLends(w: World, env: Env, agent: Address, strategy: Address, amount: int)
    requires w.Valid() && Allocate(w, env, agent, strategy, amount).Ok?
    ensures amount > 0 && Lent(w, Allocate(w, env, agent, strategy, amount).value, strategy, amount)
  {
    ApproveBooks(w, env, agent, strategy, amount);
    LendLends(Approve(w, env, agent, strategy, amount).value, env, strategy, amount);
  }

  lemma DeallocateReturns(w: World, env: Env, agent: Address, strategy: Address, amount: int)
    requires w.Valid() && Deallocate(w, env, agent, strategy, amount).Ok?
    ensures amount > 0 && Returned(w, Deallocate(w, env, agent, strategy, amount).value.0, strategy, amount)
    ensures var w' := Deallocate(w, env, agent, strategy, amount).value.0;
            && Deallocate(w, env, agent, strategy, amount).value.1 == amount && env.Authorized(agent)
            && Get(w'.registry.Booked(), strategy) == BookedAfter(w, strategy, amount)
  {
    RecallMoves(w, env, strategy, amount);
    var back := Recall(w, env, strategy, amount).value;
    RebookBooks(back, env, strategy, amount);
    MovedAndBooked(w, back, Rebook(back, env, strategy, amount).value, strategy, amount);
  }

  lemma EmergencyExitReturns(w: World, env: Env, caller: Address, strategy: Address)
    requires w.Valid() && EmergencyExit(w, env, caller, strategy).Ok?
    ensures var (w', recovered) := EmergencyExit(w, env, caller, strategy).value;
            && Returned(w, w', strategy, recovered) && recovered == w.adapters[strategy].TotalValue()
            && w'.registry.Booked() == w.registry.Booked() && strategy in w'.registry.strategies
            && w'.registry.strategies[strategy].status == Registry.Revoked && w'.adapters[strategy].paused
  {
    EvacuateMoves(w, env, strategy);
    var (back, recovered) := Evacuate(w, env, strategy).value;
    CloseBooks(back, env, caller, strategy, recovered);
    MovedAndBooked(w, back, Close(back, env, caller, strategy, recovered).value, strategy, recovered);
  }

  lemma LendingKeeps(w: World, w': World, k: Address, x: nat)
    requires w.Valid() && w'.Valid() && Backed(w) && Lent(w, w', k, x)
    ensures Backed(w') && SharesKept(w, w')
  {
    AtOneAdapter(w, w', k);
    SumOverUpdate(w.registry.list, w.registry.Booked(), w'.registry.Booked(), k);
  }

  lemma ReturningKeeps(w: World, w': World, k: Address, x: nat)
    requires w.Valid() && w'.Valid() && Backed(w) && Returned(w, w', k, x)
    ensures Backed(w') && SharesKept(w, w')
  {
    AtOneAdapter(w, w', k);
    SumOverUpdate(w.registry.list, w.registry.Booked(), w'.registry.Booked(), k);
  }

  lemma HarvestKeeps(w: World, env: Env, strategy: Address)
    requires w.Valid() && Backed(w) && Harvest(w, env, strategy).Ok?
    ensures var w' := Harvest(w, env, strategy).value;
            Backed(w') && w'.share == w.share && w'.TotalAssets() == w.TotalAssets()
  {
    AtOneAdapter(w, Harvest(w, env, strategy).value, strategy);
  }

  /** Tokens that no contract pays out of only ever add to what the adapters hold. */
  lemma PaidByUser(w: World, w': World, from: Address, to: Address, amount: nat)
    requires w.Valid() && w'.Valid() && w'.registry == w.registry && w'.adapters == w.adapters
    requires from.User? && amount <= Get(w.asset, from) && w'.asset == Move(w.asset, from, to, amount)
    ensures Get(w'.asset, w.self) == Get(w.asset, w.self) + (if to == w.self then amount else 0)
    ensures SumOver(w.registry.list, w'.Held()) >= SumOver(w.registry.list, w.Held())
  {
    SumOverUpdate(w.registry.list, w.Held(), w'.Held(), to);
  }

  lemma PaidToUser(w: World, w': World, to: Address, amount: nat)
    requires w.Valid() && w'.Valid() && w'.registry == w.registry && w'.adapters == w.adapters
    requires to.User? && amount <= Get(w.asset, w.self) && w'.asset == Move(w.asset, w.self, to, amount)
    ensures Get(w'.asset, w.self) == Get(w.asset, w.self) - amount
    ensures w'.Held() == w.Held()
  {
  }

  lemma DepositKeeps(w: World, env: Env, from: Address, amount: int)
    requires w.Valid() && Backed(w) && env.TopLevel() && Deposit(w, env, from, amount).Ok?
    ensures Backed(Deposit(w, env, from, amount).value.0)
  {
    PaidByUser(w, Deposit(w, env, from, amount).value.0, from, w.self, amount);
  }

  lemma WithdrawKeeps(w: World, env: Env, to: Address, shares: int)
    requires w.Valid() && Backed(w) && env.TopLevel() && Withdraw(w, env, to, shares).Ok?
    ensures Backed(Withdraw(w, env, to, shares).value.0)
  {
    PaidToUser(w, Withdraw(w, env, to, shares).value.0, to, Withdraw(w, env, to, shares).value.1);
  }

  lemma DonationKeeps(w: World, env: Env, from: Address, to: Address, amount: int)
    requires w.Valid() && Backed(w) && env.TopLevel() && Execute(w, env, OpTransferAsset(from, to, amount)).Ok?
    ensures Backed(Step(w, env, OpTransferAsset(from, to, amount)))
  {
    PaidByUser(w, Step(w, env, OpTransferAsset(from, to, amount)), from, to, amount);
  }

  lemma RegistryGrows(w: World, w': World)
    requires w.Valid() && w'.Valid() && Backed(w) && w' == w.(registry := w'.registry)
    requires forall a :: Get(w'.registry.Booked(), a) == Get(w.registry.Booked(), a)
    requires w'.registry.list == w.registry.list || exists a :: w'.registry.list == w.registry.list + [a]
    ensures Backed(w')
  {
    assert w'.Held() == w.Held() && w'.Reported() == w.Reported();
    SumOverSame(w.registry.list, w.registry.Booked(), w'.registry.Booked());
    if w'.registry.list != w.registry.list {
      var a :| w'.registry.list == w.registry.list + [a];
      SumOverAppend(w.registry.list, a, w.Held());
      SumOverAppend(w.registry.list, a, w.Reported());
      SumOverAppend(w.registry.list, a, w'.registry.Booked());
    }
  }

  lemma RegistryKeeps(w: World, env: Env, call: Registry.Call)
    requires w.Valid() && Backed(w) && Execute(w, env, OpRegistry(call)).Ok?
    ensures Backed(Step(w, env, OpRegistry(call))) && SharesKept(w, Step(w, env, OpRegistry(call)))
  {
    RegistryGrows(w, Step(w, env, OpRegistry(call)));
  }

  /** Share, policy and pause calls touch neither tokens nor books. */
  lemma OtherStepsKeep(w: World, env: Env, op: Op)
    requires w.Valid() && Backed(w) && env.TopLevel() && (op.OpShares? || op.OpPolicy? || op.OpSetPaused?)
    ensures Backed(Step(w, env, op)) && SharesKept(w, Step(w, env, op))
  {
    OtherStepsMoveNothing(w, env, op);
    var w' := Step(w, env, op);
    assert w'.Held() == w.Held() && w'.Reported() == w.Reported();
  }

  lemma OtherStepsMoveNothing(w: World, env: Env, op: Op)
    requires w.Valid() && env.TopLevel() && (op.OpShares? || op.OpPolicy? || op.OpSetPaused?)
    ensures var w' := Step(w, env, op);
            && w' == w.(share := w'.share, policy := w'.policy, paused := w'.paused)
            && w'.share.supply == w.share.supply
  {
  }

  /** The calls by which tokens and bookings move between vault, registry and adapters fail for
      everybody but the vault. */
  lemma OnlyTheVault(w: World, env: Env, strategy: Address, amount: int)
    requires w.Valid() && env.TopLevel()
    ensures Registry.RecordAllocation(w.registry, env, strategy, amount) == Err(AuthFailed)
    ensures Registry.RecordDeallocation(w.registry, env, strategy, amount) == Err(AuthFailed)
    ensures strategy in w.adapters ==>
              && Adapters.Deposit(w.adapters[strategy], env, amount) == Err(AuthFailed)
              && Adapters.Withdraw(w.adapters[strategy], env, amount) == Err(AuthFailed)
              && Adapters.Harvest(w.adapters[strategy], env) == Err(AuthFailed)
              && Adapters.EmergencyExit(w.adapters[strategy], env) == Err(AuthFailed)
  {
  }

  // Runs

  lemma StrategyStepKeeps(w: World, env: Env, op: Op)
    requires w.Valid() && Backed(w) && Execute(w, env, op).Ok?
    requires op.OpAllocate? || op.OpDeallocate? || op.OpEmergencyExit? || op.OpHarvest?
    ensures Backed(Step(w, env, op)) && SharesKept(w, Step(w, env, op))
  {
    if op.OpAllocate? {
      AllocateLends(w, env, op.agent, op.strategy, op.amount);
      LendingKeeps(w, Step(w, env, op), op.strategy, op.amount);
    } else if op.OpHarvest? {
      HarvestKeeps(w, env, op.strategy);
    } else {
      ReturnStepKeeps(w, env, op);
    }
  }

  lemma ReturnStepKeeps(w: World, env: Env, op: Op)
    requires w.Valid() && Backed(w) && Execute(w, env, op).Ok? && (op.OpDeallocate? || op.OpEmergencyExit?)
    ensures Backed(Step(w, env, op)) && SharesKept(w, Step(w, env, op))
  {
    if op.OpDeallocate? {
      DeallocateReturns(w, env, op.agent, op.strategy, op.amount);
      ReturningKeeps(w, Step(w, env, op), op.strategy, op.amount);
    } else {
      EmergencyExitReturns(w, env, op.caller, op.strategy);
      ReturningKeeps(w, Step(w, env, op), op.strategy, EmergencyExit(w, env, op.caller, op.strategy).value.1);
    }
  }

  lemma UserStepKeeps(w: World, env: Env, op: Op)
    requires w.Valid() && Backed(w) && env.TopLevel() && Execute(w, env, op).Ok?
    requires op.OpDeposit? || op.OpWithdraw? || op.OpTransferAsset?
    ensures Backed(Step(w, env, op)) && (op.OpTransferAsset? ==> SharesKept(w, Step(w, env, op)))
  {
    if op.OpDeposit? {
      DepositKeeps(w, env, op.from, op.amount);
    } else if op.OpWithdraw? {
      WithdrawKeeps(w, env, op.to, op.shares);
    } else {
      DonationKeeps(w, env, op.from, op.to, op.amount);
    }
  }

  /** Every step keeps the books backed, and no step but a deposit or a withdrawal changes the
      supply or lowers the assets. */
  lemma StepKeepsBacking(w: World, env: Env, op: Op)
    requires w.Valid() && Backed(w) && env.TopLevel()
    ensures Backed(Step(w, env, op))
    ensures !op.OpDeposit? && !op.OpWithdraw? ==> SharesKept(w, Step(w, env, op))
  {
    if Execute(w, env, op).Ok? {
      if op.OpDeposit? || op.OpWithdraw? || op.OpTransferAsset? {
        UserStepKeeps(w, env, op);
      } else if op.OpRegistry? {
        RegistryKeeps(w, env, op.registryCall);
      } else if op.OpShares? || op.OpPolicy? || op.OpSetPaused? {
        OtherStepsKeep(w, env, op);
      } else {
        StrategyStepKeeps(w, env, op);
      }
    }
  }

  /** No step of any kind lowers the share price. */
  lemma StepKeepsPrice(w: World, env: Env, op: Op)
    requires w.Valid() && Backed(w) && env.TopLevel()
    ensures PriceKept(w, Step(w, env, op))
  {
    StepKeepsBacking(w, env, op);
    if op.OpDeposit? {
      if Deposit(w, env, op.from, op.amount).Ok? { DepositKeepsPrice(w, env, op.from, op.amount); }
    } else if op.OpWithdraw? {
      if Withdraw(w, env, op.to, op.shares).Ok? { WithdrawKeepsPrice(w, env, op.to, op.shares); }
    } else {
      SameSupplyKeepsPrice(w, Step(w, env, op));
    }
  }

  ghost predicate TopLevelRun(run: Run) {
    forall i :: 0 <= i < |run| ==> run[i].0.TopLevel()
  }

  lemma {:induction false} RunKeeps(w: World, run: Run)
    requires w.Valid() && Backed(w) && TopLevelRun(run)
    ensures Backed(After(w, run)) && PriceKept(w, After(w, run))
    decreases run
  {
    if run != [] {
      var w' := Step(w, run[0].0, run[0].1);
      StepKeepsBacking(w, run[0].0, run[0].1);
      StepKeepsPrice(w, run[0].0, run[0].1);
      RunKeeps(w', run[1..]);
      PriceTransitive(w, w', After(w, run));
    }
  }

  /** A freshly constructed system: no shares, no books, adapters that hold nothing. Anybody may
      already have sent tokens to any address. */
  ghost predicate Genesis(w: World) {
    w.Valid() && w.idle == 0 && w.placed == 0 && w.share.supply == 0
  }

  /** What every holder could redeem, at the current price. */
  function Claims(w: World): Book {
    map a | a in w.share.balances :: w.ConvertToAssets(w.share.balances[a])
  }

  /** Rounding and the virtual offset both leave the holders' claims within the assets. */
  lemma ClaimsWithinAssets(w: World)
    requires w.Valid()
    ensures Sum(Claims(w)) <= w.TotalAssets()
  {
    var a, s := w.TotalAssets() + 1, w.share.supply + 1000;
    var claims := Claims(w);
    forall h | h in w.share.balances ensures Arith.Scaled(claims[h], w.share.balances[h], a, s) {
      Arith.Floor(w.share.balances[h] * a, s);
    }
    SumScaled(claims, w.share.balances, a, s);
    Arith.ProperPart(Sum(claims), w.share.supply, 1000, w.TotalAssets());
  }

  /** At the genesis price of a stroop per thousand shares or better. */
  lemma SharesAtMostThousandfold(w: World, w': World)
    requires Genesis(w) && PriceKept(w, w')
    ensures w'.share.supply <= 1000 * w'.TotalAssets()
  {
  }

  /** End-to-end solvency. After any run of any transactions by anybody, what all holders together
      could redeem is at most the vault's total assets, and those are at most the underlying tokens
      really held by the vault and the registered adapters. */
  lemma Solvent(w: World, run: Run)
    requires Genesis(w) && TopLevelRun(run)
    ensures var w' := After(w, run);
            && Sum(Claims(w')) <= w'.TotalAssets()
            && w'.TotalAssets() <= Get(w'.asset, w'.self) + SumOver(w'.registry.list, w'.Held())
            && w'.share.supply <= 1000 * w'.TotalAssets()
  {
    RunKeeps(w, run);
    ClaimsWithinAssets(After(w, run));
    SharesAtMostThousandfold(w, After(w, run));
  }

  /** The allocation books: no strategy is booked below zero or past its cap, and the vault counts no
      more as allocated than the registry has booked, or than the adapters report. */
  lemma BooksAgree(w: World, run: Run)
    requires Genesis(w) && TopLevelRun(run)
    ensures var w' := After(w, run);
            && (forall a :: a in w'.registry.strategies ==>
                  0 <= w'.registry.strategies[a].booked <= w'.registry.strategies[a].cap)
            && w'.placed <= SumOver(w'.registry.list, w'.registry.Booked())
            && w'.placed <= SumOver(w'.registry.list, w'.Reported())
  {
    RunKeeps(w, run);
  }
}
