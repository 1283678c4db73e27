/** Each entry point of the vault touches one strategy at most: what it does to the whole world is what it
    does to the world as far as a call into that strategy can see it. */
module Framing {
  import opened Soroban
  import opened Balances
  import opened Vault
  import Asset
  import Registry
  import Adapters

  /** The world with no strategy but `k`. */
  function Focus(w: World, k: Address): World {
    w.(adapters := if k in w.adapters then map[k := w.adapters[k]] else map[])
  }

  /** What a call did to the focused world, done to the whole one: every other strategy is as it was. */
  function Unfocus(w: World, v: World): World { v.(adapters := w.adapters + v.adapters) }

  function Widened<T>(w: World, r: Result<(World, T)>): Result<(World, T)> {
    match r
    case Ok((v, x)) => Ok((Unfocus(w, v), x))
    case Err(e) => Err(e)
  }

  function WidenedWorld(w: World, r: Result<World>): Result<World> {
    match r
    case Ok(v) => Ok(Unfocus(w, v))
    case Err(e) => Err(e)
  }

  lemma FocusIsValid(w: World, k: Address)
    requires w.Valid()
    ensures Focus(w, k).Valid()
  {
  }

  lemma SameOutsideAdapters(w: World, k: Address, v: World)
    requires v == w.(idle := v.idle, placed := v.placed, paused := v.paused, share := v.share, asset := v.asset,
                     registry := v.registry, policy := v.policy)
    ensures Unfocus(w, v.(adapters := Focus(w, k).adapters)) == v
  {
    assert w.adapters + Focus(w, k).adapters == w.adapters;
  }

  lemma AtOneStrategy(w: World, k: Address, a: Adapters.State)
    requires k in w.adapters
    ensures w.adapters + Focus(w, k).adapters[k := a] == w.adapters[k := a]
  {
  }

  lemma QuotesFrame(w: World, env: Env, who: Address, x: int, k: Address)
    ensures DepositQuote(Focus(w, k), env, who, x) == DepositQuote(w, env, who, x)
    ensures WithdrawQuote(Focus(w, k), env, who, x) == WithdrawQuote(w, env, who, x)
  {
  }

  lemma DepositFrames(w: World, env: Env, from: Address, amount: int, k: Address)
    requires w.Valid() && Focus(w, k).Valid()
    ensures Deposit(w, env, from, amount) == Widened(w, Deposit(Focus(w, k), env, from, amount))
  {
    QuotesFrame(w, env, from, amount, k);
    if DepositQuote(w, env, from, amount).Ok? {
      DepositIs(w, env, from, amount);
      DepositIs(Focus(w, k), env, from, amount);
    }
    var r, focused := Deposit(w, env, from, amount), Deposit(Focus(w, k), env, from, amount);
    if r.Ok? {
      assert focused == Ok((r.value.0.(adapters := Focus(w, k).adapters), r.value.1));
      SameOutsideAdapters(w, k, r.value.0);
    }
  }

  lemma WithdrawFrames(w: World, env: Env, to: Address, shares: int, k: Address)
    requires w.Valid() && Focus(w, k).Valid()
    ensures Withdraw(w, env, to, shares) == Widened(w, Withdraw(Focus(w, k), env, to, shares))
  {
    QuotesFrame(w, env, to, shares, k);
    var r, focused := Withdraw(w, env, to, shares), Withdraw(Focus(w, k), env, to, shares);
    if r.Ok? {
      assert focused == Ok((r.value.0.(adapters := Focus(w, k).adapters), r.value.1));
      SameOutsideAdapters(w, k, r.value.0);
    }
  }

  lemma PauseFrames(w: World, env: Env, caller: Address, paused: bool, k: Address)
    requires w.Valid() && Focus(w, k).Valid()
    ensures SetPaused(w, env, caller, paused) == WidenedWorld(w, SetPaused(Focus(w, k), env, caller, paused))
  {
    if SetPaused(w, env, caller, paused).Ok? { SameOutsideAdapters(w, k, SetPaused(w, env, caller, paused).value); }
  }

  lemma ApproveFrames(w: World, env: Env, agent: Address, strategy: Address, amount: int)
    requires w.Valid() && Focus(w, strategy).Valid()
    ensures var r, focused := Approve(w, env, agent, strategy, amount),
                              Approve(Focus(w, strategy), env, agent, strategy, amount);
            match r
            case Ok(v) => focused == Ok(Focus(v, strategy)) && v.adapters == w.adapters
            case Err(e) => focused == Err(e)
  {
  }

  lemma SendFrames(w: World, env: Env, strategy: Address, amount: nat)
    requires w.Valid() && Focus(w, strategy).Valid()
    ensures Send(w, env, strategy, amount) == WidenedWorld(w, Send(Focus(w, strategy), env, strategy, amount))
  {
    var sent := Send(w, env, strategy, amount);
    if sent.Ok? { AtOneStrategy(w, strategy, sent.value.adapters[strategy]); }
  }

  /** Lending once the strategy has the tokens. */
  function Placed(w: World, sent: Result<World>, amount: nat): Result<World>
    requires amount <= w.idle
  {
    match sent
    case Err(e) => Err(e)
    case Ok(v) =>
      if Fits(w.placed + amount) then Ok(v.(idle := w.idle - amount, placed := w.placed + amount)) else Err(Panic)
  }

  lemma LendFrames(w: World, env: Env, strategy: Address, amount: nat)
    requires w.Valid() && Focus(w, strategy).Valid() && 0 < amount <= w.idle
    ensures Lend(w, env, strategy, amount) == WidenedWorld(w, Lend(Focus(w, strategy), env, strategy, amount))
  {
    LendIs(w, env, strategy, amount);
    LendIs(Focus(w, strategy), env, strategy, amount);
    SendFrames(w, env, strategy, amount);
    PlacedFrames(w, strategy, Send(Focus(w, strategy), env, strategy, amount), amount);
  }

  lemma PlacedFrames(w: World, k: Address, sent: Result<World>, amount: nat)
    requires amount <= w.idle
    ensures Placed(w, WidenedWorld(w, sent), amount) == WidenedWorld(w, Placed(Focus(w, k), sent, amount))
  {
  }

  lemma AllocateFrames(w: World, env: Env, agent: Address, strategy: Address, amount: int)
    requires w.Valid() && Focus(w, strategy).Valid()
    ensures Allocate(w, env, agent, strategy, amount)
         == WidenedWorld(w, Allocate(Focus(w, strategy), env, agent, strategy, amount))
  {
    ApproveFrames(w, env, agent, strategy, amount);
    var approved := Approve(w, env, agent, strategy, amount);
    if approved.Ok? { LendFrames(approved.value, env, strategy, amount); }
  }

  lemma RecallFrames(w: World, env: Env, strategy: Address, amount: int)
    requires w.Valid() && Focus(w, strategy).Valid()
    ensures Recall(w, env, strategy, amount) == WidenedWorld(w, Recall(Focus(w, strategy), env, strategy, amount))
  {
    if Recall(w, env, strategy, amount).Ok? {
      AtOneStrategy(w, strategy, Recall(w, env, strategy, amount).value.adapters[strategy]);
    }
  }

  /** A deallocation once the strategy has sent the tokens. */
  function Rebooked(r: Result<World>, env: Env, strategy: Address, amount: nat): Result<(World, nat)>
    requires r.Ok? ==> r.value.Valid()
  {
    var back :- r;
    var booked :- Rebook(back, env, strategy, amount);
    Ok((booked, amount))
  }

  lemma RebookedFrames(w: World, r: Result<World>, env: Env, strategy: Address, amount: nat)
    requires r.Ok? ==> r.value.Valid() && Unfocus(w, r.value).Valid()
    ensures Rebooked(WidenedWorld(w, r), env, strategy, amount) == Widened(w, Rebooked(r, env, strategy, amount))
  {
    if r.Ok? { RebookFrames(w, r.value, env, strategy, amount); }
  }

  lemma DeallocateIsRebooked(w: World, env: Env, agent: Address, strategy: Address, amount: int)
    requires w.Valid() && env.Authorized(agent) && amount > 0
    ensures Deallocate(w, env, agent, strategy, amount)
         == Rebooked(Recall(w, env, strategy, amount), env, strategy, amount)
  {
  }

  lemma DeallocateFrames(w: World, env: Env, agent: Address, strategy: Address, amount: int)
    requires w.Valid() && Focus(w, strategy).Valid()
    ensures Deallocate(w, env, agent, strategy, amount)
         == Widened(w, Deallocate(Focus(w, strategy), env, agent, strategy, amount))
  {
    if env.Authorized(agent) && amount > 0 {
      DeallocateIsRebooked(w, env, agent, strategy, amount);
      DeallocateIsRebooked(Focus(w, strategy), env, agent, strategy, amount);
      RecallFrames(w, env, strategy, amount);
      RebookedFrames(w, Recall(Focus(w, strategy), env, strategy, amount), env, strategy, amount);
    }
  }

  lemma RebookFrames(w: World, v: World, env: Env, strategy: Address, amount: nat)
    requires v.Valid() && Unfocus(w, v).Valid()
    ensures Rebook(Unfocus(w, v), env, strategy, amount) == WidenedWorld(w, Rebook(v, env, strategy, amount))
  {
    var registry := Registry.RecordDeallocation(v.registry, env.CallFrom(v.self), strategy, amount);
    if registry.Ok? && Fits(v.idle + amount) {
      var booked := v.(idle := v.idle + amount, placed := Released(v.placed, amount), registry := registry.value);
      assert Rebook(v, env, strategy, amount) == Ok(booked);
      assert Rebook(Unfocus(w, v), env, strategy, amount) == Ok(Unfocus(w, booked));
    }
  }

  lemma CloseFrames(w: World, v: World, env: Env, caller: Address, strategy: Address, recovered: nat)
    requires v.Valid() && Unfocus(w, v).Valid()
    ensures Close(Unfocus(w, v), env, caller, strategy, recovered)
         == WidenedWorld(w, Close(v, env, caller, strategy, recovered))
  {
    CloseIs(v, env, caller, strategy, recovered);
    CloseIs(Unfocus(w, v), env, caller, strategy, recovered);
  }

  lemma EvacuateFrames(w: World, env: Env, strategy: Address)
    requires w.Valid() && Focus(w, strategy).Valid()
    ensures Evacuate(w, env, strategy) == Widened(w, Evacuate(Focus(w, strategy), env, strategy))
  {
    if Evacuate(w, env, strategy).Ok? {
      AtOneStrategy(w, strategy, Evacuate(w, env, strategy).value.0.adapters[strategy]);
    }
  }

  /** An emergency exit once the strategy is evacuated. */
  function Finish(r: Result<(World, nat)>, env: Env, caller: Address, strategy: Address): Result<(World, nat)>
    requires r.Ok? ==> r.value.0.Valid()
  {
    var (back, recovered) :- r;
    var closed :- Close(back, env, caller, strategy, recovered);
    Ok((closed, recovered))
  }

  lemma FinishFrames(w: World, r: Result<(World, nat)>, env: Env, caller: Address, strategy: Address)
    requires r.Ok? ==> r.value.0.Valid() && Unfocus(w, r.value.0).Valid()
    ensures Finish(Widened(w, r), env, caller, strategy) == Widened(w, Finish(r, env, caller, strategy))
  {
    if r.Ok? { CloseFrames(w, r.value.0, env, caller, strategy, r.value.1); }
  }

  lemma ExitIsFinish(w: World, env: Env, caller: Address, strategy: Address)
    requires w.Valid() && env.Authorized(caller) && (caller == w.admin || caller == w.guardian)
    ensures EmergencyExit(w, env, caller, strategy) == Finish(Evacuate(w, env, strategy), env, caller, strategy)
  {
  }

  lemma EmergencyExitFrames(w: World, env: Env, caller: Address, strategy: Address)
    requires w.Valid() && Focus(w, strategy).Valid()
    ensures EmergencyExit(w, env, caller, strategy)
         == Widened(w, EmergencyExit(Focus(w, strategy), env, caller, strategy))
  {
    var focused := Focus(w, strategy);
    assert focused.admin == w.admin && focused.guardian == w.guardian;
    if env.Authorized(caller) && (caller == w.admin || caller == w.guardian) {
      ExitIsFinish(w, env, caller, strategy);
      ExitIsFinish(focused, env, caller, strategy);
      EvacuateFrames(w, env, strategy);
      FinishFrames(w, Evacuate(focused, env, strategy), env, caller, strategy);
    }
  }

  /** The transactions that enter through the vault. */
  predicate ThroughTheVault(op: Op) {
    op.OpDeposit? || op.OpWithdraw? || op.OpAllocate? || op.OpDeallocate? || op.OpEmergencyExit? || op.OpSetPaused?
  }

  /** The strategy a transaction names. */
  predicate Names(op: Op, k: Address) {
    && (op.OpAllocate? || op.OpDeallocate? || op.OpEmergencyExit? ==> op.strategy == k)
  }

  /** Framing: a transaction through the vault does to the whole world exactly what it does to the world with
      its strategy alone, with the same result or the same error. */
  lemma VaultFrames(w: World, env: Env, op: Op, k: Address)
    requires w.Valid() && ThroughTheVault(op) && Names(op, k)
    ensures Focus(w, k).Valid()
    ensures Execute(w, env, op) == WidenedWorld(w, Execute(Focus(w, k), env, op))
  {
    FocusIsValid(w, k);
    if op.OpDeposit? { DepositFrames(w, env, op.from, op.amount, k); }
    else if op.OpWithdraw? { WithdrawFrames(w, env, op.to, op.shares, k); }
    else if op.OpSetPaused? { PauseFrames(w, env, op.caller, op.paused, k); }
    else { StrategyCallFrames(w, env, op, k); }
  }

  lemma StrategyCallFrames(w: World, env: Env, op: Op, k: Address)
    requires w.Valid() && Names(op, k) && (op.OpAllocate? || op.OpDeallocate? || op.OpEmergencyExit?)
    ensures Focus(w, k).Valid()
    ensures Execute(w, env, op) == WidenedWorld(w, Execute(Focus(w, k), env, op))
  {
    FocusIsValid(w, k);
    if op.OpAllocate? { AllocateFrames(w, env, op.agent, k, op.amount); }
    else if op.OpDeallocate? { DeallocateFrames(w, env, op.agent, k, op.amount); }
    else { EmergencyExitFrames(w, env, op.caller, k); }
  }

  /** And so with the host's rollback of a failing transaction. */
  lemma VaultStepFrames(w: World, env: Env, op: Op, k: Address)
    requires w.Valid() && ThroughTheVault(op) && Names(op, k)
    ensures Focus(w, k).Valid() && Step(w, env, op) == Unfocus(w, Step(Focus(w, k), env, op))
  {
    VaultFrames(w, env, op, k);
    SameOutsideAdapters(w, k, w);
    StepIs(w, env, op);
    StepIs(Focus(w, k), env, op);
  }

  lemma StepIs(w: World, env: Env, op: Op)
    requires w.Valid()
    ensures Step(w, env, op) == if Execute(w, env, op).Ok? then Execute(w, env, op).value else w
  {
  }
}
