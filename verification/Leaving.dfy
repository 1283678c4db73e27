/** That everybody can leave: exiting every strategy brings all assets back, and then every holder can
    redeem in full, in any order. */
module Leaving {
  import opened Soroban
  import opened Balances
  import opened Vault
  import opened Solvency
  import opened FairShares
  import opened Exits
  import Arith
  import Adapters
  import Registry

  // Exits

  function ExitAll(w: World, env: Env, caller: Address, list: seq<Address>): (r: Result<World>)
    requires w.Valid()
    ensures r.Ok? ==> r.value.Valid()
    decreases list
  {
    if list == [] then Ok(w) else
      var (w', _) :- EmergencyExit(w, env, caller, list[0]);
      ExitAll(w', env, caller, list[1..])
  }

  predicate Empty(w: World, k: Address) { k in w.adapters && w.adapters[k].TotalValue() == 0 }

  lemma ReturningEmpties(w: World, w': World, k: Address, x: nat)
    requires w.Valid() && w'.Valid() && Returned(w, w', k, x) && x == w.adapters[k].TotalValue()
    ensures Empty(w', k) && forall a :: Empty(w, a) ==> Empty(w', a)
  {
  }

  lemma ExitEmpties(w: World, env: Env, caller: Address, k: Address)
    requires w.Valid() && Backed(w) && EmergencyExit(w, env, caller, k).Ok?
    ensures var w' := EmergencyExit(w, env, caller, k).value.0;
            && Empty(w', k) && (forall a :: Empty(w, a) ==> Empty(w', a))
            && Backed(w') && SharesKept(w, w') && w'.share == w.share && w'.paused == w.paused
            && w'.registry.list == w.registry.list
  {
    var (w', x) := EmergencyExit(w, env, caller, k).value;
    EmergencyExitReturns(w, env, caller, k);
    ReturningKeeps(w, w', k, x);
    ReturningEmpties(w, w', k, x);
  }

  lemma {:induction false} ExitsEmptyAll(w: World, env: Env, caller: Address, list: seq<Address>)
    requires w.Valid() && Backed(w) && ExitAll(w, env, caller, list).Ok?
    ensures var w' := ExitAll(w, env, caller, list).value;
            && (forall a :: Empty(w, a) || a in list ==> Empty(w', a))
            && Backed(w') && SharesKept(w, w') && w'.share == w.share && w'.paused == w.paused
            && w'.registry.list == w.registry.list
    decreases list
  {
    if list != [] {
      ExitEmpties(w, env, caller, list[0]);
      ExitsEmptyAll(EmergencyExit(w, env, caller, list[0]).value.0, env, caller, list[1..]);
    }
  }

  lemma {:induction false} NothingReported(list: seq<Address>, reported: Book)
    requires forall a :: a in list ==> Get(reported, a) == 0
    ensures SumOver(list, reported) == 0
  {
    if list != [] { NothingReported(list[1..], reported); }
  }

  /** Once every registered strategy has been exited, nothing is allocated any more. */
  lemma ExitsBringEverythingBack(w: World, env: Env, caller: Address)
    requires w.Valid() && Backed(w) && ExitAll(w, env, caller, w.registry.list).Ok?
    ensures var w' := ExitAll(w, env, caller, w.registry.list).value;
            && w'.placed == 0 && w'.idle == w'.TotalAssets() >= w.TotalAssets()
            && Backed(w') && w'.share == w.share && w'.paused == w.paused && PriceKept(w, w')
  {
    ExitsEmptyAll(w, env, caller, w.registry.list);
    var w' := ExitAll(w, env, caller, w.registry.list).value;
    NothingReported(w'.registry.list, w'.Reported());
    SameSupplyKeepsPrice(w, w');
  }

  /** Who may exit all strategies of a list, and that every sum involved is representable. */
  predicate MayExitAll(w: World, env: Env, caller: Address, list: seq<Address>) {
    && caller in env.signers
    && (caller == w.admin || caller == w.guardian) && (caller == w.registry.admin || caller == w.registry.guardian)
    && (forall i :: 0 <= i < |list| ==> list[i] in w.adapters && list[i] in w.registry.strategies)
    && Fits(w.idle + SumOver(list, w.Reported())) && Fits(Get(w.asset, w.self) + SumOver(list, w.Reported()))
  }

  /** Roles and registrations, which an exit leaves alone. */
  predicate SameRoles(w: World, w': World) {
    && w'.self == w.self && w'.admin == w.admin && w'.guardian == w.guardian
    && w'.registry.admin == w.registry.admin && w'.registry.guardian == w.registry.guardian
    && w'.registry.strategies.Keys == w.registry.strategies.Keys
  }

  lemma ExitKeepsRoles(w: World, env: Env, caller: Address, k: Address)
    requires w.Valid() && EmergencyExit(w, env, caller, k).Ok?
    ensures SameRoles(w, EmergencyExit(w, env, caller, k).value.0)
  {
  }

  lemma ReturnLeavesTheOthers(w: World, w': World, list: seq<Address>, x: nat)
    requires w.Valid() && w'.Valid() && NoDup(list) && list != [] && Returned(w, w', list[0], x)
    requires forall i :: 0 <= i < |list| ==> list[i] in w.adapters
    ensures forall i :: 0 <= i < |list| - 1 ==>
      list[1..][i] in w'.adapters && Gap(w', list[1..][i]) == Gap(w, list[1..][i])
    ensures SumOver(list[1..], w'.Reported()) == SumOver(list[1..], w.Reported())
  {
    forall a | a in list[1..] ensures a in w.adapters && a != list[0] {
      var i :| 0 <= i < |list| - 1 && list[1..][i] == a;
      assert list[i + 1] == a;
    }
    SumOverSame(list[1..], w.Reported(), w'.Reported());
  }

  lemma MayExitTheRest(w: World, w': World, env: Env, caller: Address, list: seq<Address>)
    requires list != [] && MayExitAll(w, env, caller, list) && SameRoles(w, w') && w'.adapters.Keys == w.adapters.Keys
    requires var x := w.adapters[list[0]].TotalValue();
             w'.idle == w.idle + x && Get(w'.asset, w'.self) == Get(w.asset, w.self) + x
    requires SumOver(list[1..], w'.Reported()) == SumOver(list[1..], w.Reported())
    ensures MayExitAll(w', env, caller, list[1..])
  {
    assert Get(w.Reported(), list[0]) == w.adapters[list[0]].TotalValue();
  }

  lemma ExitLeavesTheOthers(w: World, env: Env, caller: Address, list: seq<Address>)
    requires w.Valid() && NoDup(list) && list != [] && MayExitAll(w, env, caller, list)
    requires EmergencyExit(w, env, caller, list[0]).Ok?
    ensures var w' := EmergencyExit(w, env, caller, list[0]).value.0;
            && MayExitAll(w', env, caller, list[1..])
            && forall i :: 0 <= i < |list| - 1 ==>
                 list[1..][i] in w.adapters && Gap(w', list[1..][i]) == Gap(w, list[1..][i])
  {
    var (w', x) := EmergencyExit(w, env, caller, list[0]).value;
    EmergencyExitReturns(w, env, caller, list[0]);
    ExitKeepsRoles(w, env, caller, list[0]);
    ReturnLeavesTheOthers(w, w', list, x);
    MayExitTheRest(w, w', env, caller, list);
  }

  lemma {:induction false} ExitAllPossible(w: World, env: Env, caller: Address, list: seq<Address>)
    requires w.Valid() && NoDup(list) && MayExitAll(w, env, caller, list)
    requires forall i :: 0 <= i < |list| ==> list[i] in w.adapters && Gap(w, list[i]) <= 0
    ensures ExitAll(w, env, caller, list).Ok?
    decreases list
  {
    if list != [] {
      assert Get(w.Reported(), list[0]) == w.adapters[list[0]].TotalValue();
      ExitIffFullyHeld(w, env, caller, list[0]);
      ExitLeavesTheOthers(w, env, caller, list);
      ExitAllPossible(EmergencyExit(w, env, caller, list[0]).value.0, env, caller, list[1..]);
    }
  }

  // Redemptions

  /** What a redemption needs besides idle assets: a holder outside the system that asks for no more than it has,
      and room in 128 bits. */
  predicate MayRedeem(w: World, p: Piece) {
    && p.who.User? && p.env.Authorized(p.who) && 0 < p.amount <= Get(w.share.balances, p.who)
    && Fits(w.share.supply + VIRTUAL_SHARES) && Fits(w.TotalAssets() + VIRTUAL_ASSETS)
    && Fits(p.amount * (w.TotalAssets() + VIRTUAL_ASSETS)) && Fits(Get(w.asset, p.who) + w.TotalAssets())
  }

  /** A redemption goes through exactly if the vault is not paused and what it returns is idle. */
  lemma RedeemedIffIdle(w: World, p: Piece)
    requires w.Valid() && Backed(w) && MayRedeem(w, p)
    ensures Withdraw(w, p.env, p.who, p.amount).Ok? <==> !w.paused && w.ConvertToAssets(p.amount) <= w.idle
  {
    GetAtMostSum(w.share.balances, p.who);
    if WithdrawQuote(w, p.env, p.who, p.amount).Ok? {
      assert Spend(w.asset, w.self, w.ConvertToAssets(p.amount)).Keys <= w.asset.Keys;
    }
  }

  /** No number of existing shares is worth more than the total assets. */
  lemma WorthAtMostTheAssets(w: World, shares: nat)
    requires w.Valid() && shares <= w.share.supply
    ensures w.ConvertToAssets(shares) <= w.TotalAssets()
  {
    var a, s := w.TotalAssets() + 1, w.share.supply + 1000;
    Arith.Floor(shares * a, s);
    Arith.MulLe(shares, w.share.supply, a);
    Arith.ProperPart(w.ConvertToAssets(shares), w.share.supply, 1000, w.TotalAssets());
  }

  /** Each holder once, and all of them may redeem. */
  ghost predicate Leavers(w: World, pieces: seq<Piece>) {
    && (forall i, j :: 0 <= i < j < |pieces| ==> pieces[i].who != pieces[j].who)
    && forall i :: 0 <= i < |pieces| ==> MayRedeem(w, pieces[i])
  }

  lemma RedemptionTakesOnly(w: World, p: Piece, who: Address)
    requires w.Valid() && Backed(w) && MayRedeem(w, p) && who != p.who && who.User?
    requires Withdraw(w, p.env, p.who, p.amount).Ok?
    ensures var w' := Withdraw(w, p.env, p.who, p.amount).value.0;
            && w'.share.supply <= w.share.supply && w'.TotalAssets() <= w.TotalAssets()
            && Get(w'.share.balances, who) == Get(w.share.balances, who) && Get(w'.asset, who) == Get(w.asset, who)
  {
  }

  lemma OthersMayStillRedeem(w: World, w': World, q: Piece)
    requires MayRedeem(w, q) && w'.share.supply <= w.share.supply && w'.TotalAssets() <= w.TotalAssets()
    requires Get(w'.share.balances, q.who) == Get(w.share.balances, q.who)
        && Get(w'.asset, q.who) == Get(w.asset, q.who)
    ensures MayRedeem(w', q)
  {
    Arith.MulLeInt(w'.TotalAssets() + 1, w.TotalAssets() + 1, q.amount);
  }

  lemma RedemptionKeepsBacking(w: World, p: Piece)
    requires w.Valid() && Backed(w) && MayRedeem(w, p) && Withdraw(w, p.env, p.who, p.amount).Ok?
    ensures var w' := Withdraw(w, p.env, p.who, p.amount).value.0;
            Backed(w') && w'.placed == w.placed && w'.paused == w.paused
  {
    PaidToUser(w, Withdraw(w, p.env, p.who, p.amount).value.0, p.who, Withdraw(w, p.env, p.who, p.amount).value.1);
  }

  /** With nothing allocated, any holders can redeem, as much as they have, in any order. */
  lemma {:induction false} AllCanRedeem(w: World, pieces: seq<Piece>)
    requires w.Valid() && Backed(w) && w.placed == 0 && !w.paused && Leavers(w, pieces)
    ensures WithdrawAll(w, pieces).Ok?
    decreases pieces
  {
    if pieces != [] {
      var p := pieces[0];
      GetAtMostSum(w.share.balances, p.who);
      WorthAtMostTheAssets(w, p.amount);
      RedeemedIffIdle(w, p);
      RedemptionKeepsBacking(w, p);
      var w' := Withdraw(w, p.env, p.who, p.amount).value.0;
      forall i | 0 <= i < |pieces| - 1 ensures MayRedeem(w', pieces[1..][i]) {
        RedemptionTakesOnly(w, p, pieces[i + 1].who);
        OthersMayStillRedeem(w, w', pieces[i + 1]);
      }
      AllCanRedeem(w', pieces[1..]);
    }
  }

  /** Everybody can leave. Take any run without a harvest from an empty vault with empty adapters. Then all
      strategies can be exited, and after that the holders can redeem all they have, in whatever order they
      come. */
  lemma EverybodyCanLeave(w: World, run: Run, env: Env, caller: Address, pieces: seq<Piece>)
    requires Genesis(w) && TopLevelRun(run) && forall k :: k in w.adapters ==> w.adapters[k].TotalValue() == 0
    requires forall i :: 0 <= i < |run| ==> !run[i].1.OpHarvest?
    requires MayExitAll(After(w, run), env, caller, After(w, run).registry.list) && !After(w, run).paused
    ensures var exits := ExitAll(After(w, run), env, caller, After(w, run).registry.list);
            exits.Ok? && (Leavers(exits.value, pieces) ==> WithdrawAll(exits.value, pieces).Ok?)
  {
    var before := After(w, run);
    var list := before.registry.list;
    RunKeeps(w, run);
    forall i | 0 <= i < |list| ensures list[i] in before.adapters && Gap(before, list[i]) <= 0 {
      AdaptersStay(w, run);
      GapIsAtMostYield(w, run, list[i]);
      NoHarvestNoYield(w, run, list[i]);
    }
    ExitAllPossible(before, env, caller, list);
    ExitsBringEverythingBack(before, env, caller);
    var left := ExitAll(before, env, caller, list).value;
    if Leavers(left, pieces) { AllCanRedeem(left, pieces); }
  }

  lemma {:induction false} AdaptersStay(w: World, run: Run)
    requires w.Valid()
    ensures After(w, run).adapters.Keys == w.adapters.Keys
    decreases run
  {
    if run != [] {
      StepKeepsAdapters(w, run[0].0, run[0].1);
      AdaptersStay(Step(w, run[0].0, run[0].1), run[1..]);
    }
  }

  lemma StrategyStepKeepsAdapters(w: World, env: Env, op: Op)
    requires w.Valid() && Execute(w, env, op).Ok?
    requires op.OpAllocate? || op.OpDeallocate? || op.OpEmergencyExit? || op.OpHarvest?
    ensures Step(w, env, op).adapters.Keys == w.adapters.Keys
  {
    if op.OpAllocate? {
      AllocateLends(w, env, op.agent, op.strategy, op.amount);
    } else if op.OpDeallocate? {
      DeallocateReturns(w, env, op.agent, op.strategy, op.amount);
    } else if op.OpEmergencyExit? {
      EmergencyExitReturns(w, env, op.caller, op.strategy);
    }
  }

  lemma OtherStepKeepsAdapters(w: World, env: Env, op: Op)
    requires w.Valid() && Execute(w, env, op).Ok?
    requires !op.OpAllocate? && !op.OpDeallocate? && !op.OpEmergencyExit? && !op.OpHarvest?
    ensures Step(w, env, op).adapters == w.adapters
  {
    if op.OpDeposit? {
      DepositLeavesAdapters(w, env, op.from, op.amount);
    } else if op.OpWithdraw? {
      WithdrawLeavesAdapters(w, env, op.to, op.shares);
    }
  }

  lemma StepKeepsAdapters(w: World, env: Env, op: Op)
    requires w.Valid()
    ensures Step(w, env, op).adapters.Keys == w.adapters.Keys
  {
    if Execute(w, env, op).Ok? {
      if op.OpAllocate? || op.OpDeallocate? || op.OpEmergencyExit? || op.OpHarvest? {
        StrategyStepKeepsAdapters(w, env, op);
      } else {
        OtherStepKeepsAdapters(w, env, op);
      }
    }
  }
}
