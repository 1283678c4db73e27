/** Who can change what: over runs of the whole system, balances, settings and the pause change only with the
    signature of those they belong to. */
module Consent {
  import opened Soroban
  import opened Balances
  import opened Vault
  import opened Solvency
  import FairShares
  import Lending
  import Asset
  import Token
  import Registry
  import Policy
  import Adapters

  // Shares

  /** Everything but deposits, redemptions and calls on the share token leaves the shares alone. */
  lemma SharesUntouched(w: World, env: Env, op: Op)
    requires w.Valid() && !op.OpDeposit? && !op.OpWithdraw? && !op.OpShares?
    ensures Step(w, env, op).share == w.share
  {
    if Execute(w, env, op).Ok? {
      if op.OpAllocate? {
        AllocateLends(w, env, op.agent, op.strategy, op.amount);
      } else if op.OpDeallocate? {
        DeallocateReturns(w, env, op.agent, op.strategy, op.amount);
      } else if op.OpEmergencyExit? {
        EmergencyExitReturns(w, env, op.caller, op.strategy);
      }
    }
  }

  /** A holder's shares fall only if it signs, or by what a spender it granted them to takes. */
  lemma SharesFallOnlyByConsent(w: World, env: Env, op: Op, holder: Address)
    requires w.Valid() && env.TopLevel()
    requires Get(Step(w, env, op).share.balances, holder) < Get(w.share.balances, holder)
    ensures
      || env.Authorized(holder)
      || (op.OpShares? && op.shareCall.CallTransferFrom? && op.shareCall.from == holder
          && env.Authorized(op.shareCall.spender)
          && Get(w.share.balances, holder) - Get(Step(w, env, op).share.balances, holder) == op.shareCall.amount
          && op.shareCall.amount <= Token.Granted(w.share, holder, op.shareCall.spender, env.ledger))
  {
    if op.OpDeposit? {
      FairShares.DepositEffect(w, env, op.from, op.amount, holder);
    } else if op.OpWithdraw? {
      FairShares.WithdrawEffect(w, env, op.to, op.shares, holder);
    } else if op.OpShares? {
      Token.LosesOnlyByConsent(w.share, env, op.shareCall, holder);
    } else {
      SharesUntouched(w, env, op);
    }
  }

  lemma UnsignedStep(w: World, env: Env, op: Op, holder: Address, ledger: nat)
    requires w.Valid() && env.TopLevel() && !env.Authorized(holder) && ledger <= env.ledger
    ensures Token.Ungranted(w.share, holder, ledger) <= Token.Ungranted(Step(w, env, op).share, holder, ledger)
  {
    SharePart(w, env, op, holder);
    if op.OpShares? {
      Token.UnsignedStepTakesFromGrants(w.share, env, op.shareCall, holder, ledger);
    } else {
      Token.SameGrantsKeep(w.share, Step(w, env, op).share, holder, ledger);
    }
  }

  /** A step's part in the shares: a call on the token, or only a mint, or a burn that its holder signs. */
  lemma SharePart(w: World, env: Env, op: Op, holder: Address)
    requires w.Valid() && env.TopLevel() && !env.Authorized(holder)
    ensures var s' := Step(w, env, op).share;
            if op.OpShares? then s' == Token.Step(w.share, env, op.shareCall)
            else s'.allowances == w.share.allowances && Get(w.share.balances, holder) <= Get(s'.balances, holder)
  {
    if Execute(w, env, op).Ok? {
      if op.OpDeposit? {
        FairShares.DepositEffect(w, env, op.from, op.amount, holder);
      } else if op.OpWithdraw? {
        FairShares.WithdrawEffect(w, env, op.to, op.shares, holder);
      } else if !op.OpShares? {
        SharesUntouched(w, env, op);
      }
    }
  }

  /** The holder signs nothing, and no ledger is before the given one. */
  ghost predicate Unsigned(run: Run, holder: Address, ledger: nat) {
    forall i :: 0 <= i < |run| ==> !run[i].0.Authorized(holder) && ledger <= run[i].0.ledger
  }

  /** A measure of the shares that no step without the holder's signature lowers. */
  ghost predicate Kept(measure: Token.State -> int, holder: Address, ledger: nat) {
    forall w: World, env: Env, op: Op ::
      w.Valid() && env.TopLevel() && !env.Authorized(holder) && ledger <= env.ledger ==>
        measure(w.share) <= measure(Step(w, env, op).share)
  }

  lemma {:induction false} KeptOverRuns(measure: Token.State -> int, w: World, run: Run, holder: Address, ledger: nat)
    requires Kept(measure, holder, ledger) && w.Valid() && TopLevelRun(run) && Unsigned(run, holder, ledger)
    ensures measure(w.share) <= measure(After(w, run).share)
    decreases run
  {
    if run != [] {
      KeptOverRuns(measure, Step(w, run[0].0, run[0].1), run[1..], holder, ledger);
    }
  }

  /** Whatever others do in a run, whoever signs nothing keeps its shares, but for what it had granted at the
      start. */
  lemma UnsignedHolderKeepsShares(w: World, run: Run, holder: Address, ledger: nat)
    requires w.Valid() && TopLevelRun(run) && Unsigned(run, holder, ledger)
    ensures Get(w.share.balances, holder)
         <= Get(After(w, run).share.balances, holder) + Sum(Token.Grants(w.share, holder, ledger))
  {
    var measure := (s: Token.State) => Token.Ungranted(s, holder, ledger);
    forall v: World, env: Env, op: Op |
      v.Valid() && env.TopLevel() && !env.Authorized(holder) && ledger <= env.ledger
      ensures measure(v.share) <= measure(Step(v, env, op).share)
    {
      UnsignedStep(v, env, op, holder, ledger);
    }
    KeptOverRuns(measure, w, run, holder, ledger);
  }

  // Tokens

  /** Calls into strategies move tokens among the system's own contracts only. */
  lemma StrategiesTakeFromNoUser(w: World, env: Env, op: Op, user: Address)
    requires w.Valid() && user.User? && Execute(w, env, op).Ok?
    requires op.OpAllocate? || op.OpDeallocate? || op.OpEmergencyExit?
    ensures Get(Step(w, env, op).asset, user) == Get(w.asset, user)
  {
    if op.OpAllocate? {
      ApproveBooks(w, env, op.agent, op.strategy, op.amount);
      AllocationSends(w, env, op.agent, op.strategy, op.amount, user);
    } else if op.OpDeallocate? {
      RecallSends(w, env, op.strategy, op.amount, user);
      RebookBooks(Recall(w, env, op.strategy, op.amount).value, env, op.strategy, op.amount);
    } else {
      EvacuationSends(w, env, op.strategy, user);
      var (back, x) := Evacuate(w, env, op.strategy).value;
      CloseBooks(back, env, op.caller, op.strategy, x);
    }
  }

  lemma AllocationSends(w: World, env: Env, agent: Address, strategy: Address, amount: int, user: Address)
    requires w.Valid() && user.User? && Allocate(w, env, agent, strategy, amount).Ok?
    ensures Get(Allocate(w, env, agent, strategy, amount).value.asset, user) == Get(w.asset, user)
  {
    var v := Approve(w, env, agent, strategy, amount).value;
    SendingSends(v, env, strategy, amount, user);
    LendLends(v, env, strategy, amount);
  }

  lemma SendingSends(v: World, env: Env, strategy: Address, amount: nat, user: Address)
    requires v.Valid() && user.User? && Send(v, env, strategy, amount).Ok?
    ensures Get(Send(v, env, strategy, amount).value.asset, user) == Get(v.asset, user)
  {
    SendIs(v, env, strategy, amount);
  }

  lemma RecallSends(w: World, env: Env, strategy: Address, amount: int, user: Address)
    requires w.Valid() && user.User? && Recall(w, env, strategy, amount).Ok?
    ensures Get(Recall(w, env, strategy, amount).value.asset, user) == Get(w.asset, user)
  {
  }

  lemma EvacuationSends(w: World, env: Env, strategy: Address, user: Address)
    requires w.Valid() && user.User? && Evacuate(w, env, strategy).Ok?
    ensures Get(Evacuate(w, env, strategy).value.0.asset, user) == Get(w.asset, user)
  {
  }

  lemma TokensFallOnlyByConsent(w: World, env: Env, op: Op, user: Address)
    requires w.Valid() && env.TopLevel() && user.User? && !env.Authorized(user)
    ensures Get(w.asset, user) <= Get(Step(w, env, op).asset, user)
  {
    if Execute(w, env, op).Ok? {
      if op.OpDeposit? {
        FairShares.DepositEffect(w, env, op.from, op.amount, user);
      } else if op.OpWithdraw? {
        FairShares.WithdrawEffect(w, env, op.to, op.shares, user);
      } else if op.OpAllocate? || op.OpDeallocate? || op.OpEmergencyExit? {
        StrategiesTakeFromNoUser(w, env, op, user);
      }
    }
  }

  /** And whoever signs nothing keeps its tokens. */
  lemma {:induction false} UnsignedUserKeepsTokens(w: World, run: Run, user: Address, ledger: nat)
    requires w.Valid() && TopLevelRun(run) && user.User? && Unsigned(run, user, ledger)
    ensures Get(w.asset, user) <= Get(After(w, run).asset, user)
    decreases run
  {
    if run != [] {
      TokensFallOnlyByConsent(w, run[0].0, run[0].1, user);
      UnsignedUserKeepsTokens(Step(w, run[0].0, run[0].1), run[1..], user, ledger);
    }
  }

  // The pause

  /** Nothing comes in through a paused vault, nothing is redeemed and nothing lent. */
  lemma PauseStops(w: World, env: Env, who: Address, strategy: Address, x: int)
    requires w.Valid() && w.paused && env.Authorized(who)
    ensures Deposit(w, env, who, x) == Err(Paused) && Withdraw(w, env, who, x) == Err(Paused)
    ensures Allocate(w, env, who, strategy, x) == Err(Paused)
  {
  }

  /** Admin and guardian can pause, only the admin can lift a pause, and neither touches anything else. */
  lemma PausedIff(w: World, env: Env, caller: Address, paused: bool)
    requires w.Valid()
    ensures SetPaused(w, env, caller, paused).Ok? <==>
      env.Authorized(caller) && (caller == w.admin || (caller == w.guardian && paused))
    ensures SetPaused(w, env, caller, paused).Ok? ==> SetPaused(w, env, caller, paused).value == w.(paused := paused)
  {
  }

  /** What can change while the vault is paused. */
  predicate Frozen(w: World, w': World) {
    && w'.paused && w'.admin == w.admin && w'.share.supply == w.share.supply
    && w.TotalAssets() <= w'.TotalAssets() && w'.placed <= w.placed
  }

  lemma StepKeepsPause(w: World, env: Env, op: Op)
    requires w.Valid() && env.TopLevel() && w.paused && !env.Authorized(w.admin)
    ensures Frozen(w, Step(w, env, op))
  {
    if Execute(w, env, op).Ok? {
      if op.OpDeallocate? {
        DeallocationKeepsPause(w, env, op.agent, op.strategy, op.amount);
      } else if op.OpEmergencyExit? {
        ExitKeepsPause(w, env, op.caller, op.strategy);
      } else if op.OpSetPaused? {
        PausedIff(w, env, op.caller, op.paused);
      } else if op.OpShares? {
        OtherStepsMoveNothing(w, env, op);
      }
    }
  }

  lemma DeallocationKeepsPause(w: World, env: Env, agent: Address, strategy: Address, amount: int)
    requires w.Valid() && w.paused && Deallocate(w, env, agent, strategy, amount).Ok?
    ensures Frozen(w, Deallocate(w, env, agent, strategy, amount).value.0)
  {
    RebookIs(Recall(w, env, strategy, amount).value, env, strategy, amount);
  }

  lemma ExitKeepsPause(w: World, env: Env, caller: Address, strategy: Address)
    requires w.Valid() && w.paused && EmergencyExit(w, env, caller, strategy).Ok?
    ensures Frozen(w, EmergencyExit(w, env, caller, strategy).value.0)
  {
    var (back, x) := Evacuate(w, env, strategy).value;
    CloseIs(back, env, caller, strategy, x);
  }

  /** As long as the admin signs nothing a paused vault stays paused: whatever others do, no share is minted or
      burned, no assets leave and nothing is lent. */
  lemma {:induction false} PauseHolds(w: World, run: Run)
    requires w.Valid() && TopLevelRun(run) && w.paused
    requires forall i :: 0 <= i < |run| ==> !run[i].0.Authorized(w.admin)
    ensures Frozen(w, After(w, run))
    decreases run
  {
    if run != [] {
      StepKeepsPause(w, run[0].0, run[0].1);
      PauseHolds(Step(w, run[0].0, run[0].1), run[1..]);
    }
  }

  // Settings

  /** Only its admin sets the policy account's allowlists and limits. */
  lemma PolicyStep(w: World, env: Env, op: Op)
    requires w.Valid() && env.TopLevel() && !env.Authorized(w.policy.admin)
    ensures Policy.SameSettings(w.policy, Step(w, env, op).policy)
  {
    var calls := Lending.CallsOf(w, env, op);
    Lending.StepIsPolicyStep(w, env, op);
    if calls != [] { Policy.OnlyTheAdminConfigures(w.policy, calls[0].0, calls[0].1); }
  }

  lemma {:induction false} PolicyHolds(w: World, run: Run)
    requires w.Valid() && TopLevelRun(run)
    requires forall i :: 0 <= i < |run| ==> !run[i].0.Authorized(w.policy.admin)
    ensures Policy.SameSettings(w.policy, After(w, run).policy)
    decreases run
  {
    if run != [] {
      PolicyStep(w, run[0].0, run[0].1);
      PolicyHolds(Step(w, run[0].0, run[0].1), run[1..]);
    }
  }

  /** The registry's part of a step lies within what its admin and its guardian signed. */
  lemma RegistryStep(w: World, env: Env, op: Op)
    requires w.Valid() && env.TopLevel() && w.registry.admin.User? && w.registry.guardian.User?
    ensures Registry.WithinRoles(w.registry, Step(w, env, op).registry,
                                 env.Authorized(w.registry.admin), env.Authorized(w.registry.guardian))
  {
    if Execute(w, env, op).Ok? {
      if op.OpRegistry? {
        Registry.RolesBound(w.registry, env, op.registryCall);
      } else if op.OpAllocate? || op.OpDeallocate? || op.OpEmergencyExit? {
        StrategyStepWithinRoles(w, env, op);
      } else {
        OthersLeaveRegistry(w, env, op);
      }
    }
  }

  lemma OthersLeaveRegistry(w: World, env: Env, op: Op)
    requires w.Valid() && !op.OpRegistry? && !op.OpAllocate? && !op.OpDeallocate? && !op.OpEmergencyExit?
    ensures Step(w, env, op).registry == w.registry
  {
  }

  lemma StrategyStepWithinRoles(w: World, env: Env, op: Op)
    requires w.Valid() && w.registry.admin.User? && w.registry.guardian.User? && Execute(w, env, op).Ok?
    requires op.OpAllocate? || op.OpDeallocate? || op.OpEmergencyExit?
    ensures Registry.WithinRoles(w.registry, Step(w, env, op).registry,
                                 env.Authorized(w.registry.admin), env.Authorized(w.registry.guardian))
  {
    if op.OpAllocate? {
      AllocationKeepsRoles(w, env, op.agent, op.strategy, op.amount);
    } else if op.OpDeallocate? {
      DeallocationKeepsRoles(w, env, op.agent, op.strategy, op.amount);
    } else {
      ExitWithinRoles(w, env, op.caller, op.strategy);
    }
  }

  lemma DeallocationKeepsRoles(w: World, env: Env, agent: Address, strategy: Address, amount: int)
    requires w.Valid() && Deallocate(w, env, agent, strategy, amount).Ok?
    ensures Registry.WithinRoles(w.registry, Deallocate(w, env, agent, strategy, amount).value.0.registry, false, false)
  {
    RebookIs(Recall(w, env, strategy, amount).value, env, strategy, amount);
  }

  lemma ExitWithinRoles(w: World, env: Env, caller: Address, strategy: Address)
    requires w.Valid() && w.registry.admin.User? && w.registry.guardian.User?
    requires EmergencyExit(w, env, caller, strategy).Ok?
    ensures Registry.WithinRoles(w.registry, EmergencyExit(w, env, caller, strategy).value.0.registry,
                                 env.Authorized(w.registry.admin), env.Authorized(w.registry.guardian))
  {
    var (back, x) := Evacuate(w, env, strategy).value;
    CloseIs(back, env, caller, strategy, x);
  }

  lemma AllocationKeepsRoles(w: World, env: Env, agent: Address, strategy: Address, amount: int)
    requires w.Valid() && Allocate(w, env, agent, strategy, amount).Ok?
    ensures Registry.WithinRoles(w.registry, Allocate(w, env, agent, strategy, amount).value.registry, false, false)
  {
    ApprovalKeepsRoles(w, env, agent, strategy, amount);
    LendLends(Approve(w, env, agent, strategy, amount).value, env, strategy, amount);
  }

  lemma ApprovalKeepsRoles(w: World, env: Env, agent: Address, strategy: Address, amount: int)
    requires w.Valid() && Approve(w, env, agent, strategy, amount).Ok?
    ensures Registry.WithinRoles(w.registry, Approve(w, env, agent, strategy, amount).value.registry, false, false)
  {
    ApproveIs(w, env, agent, strategy, amount);
  }

  /** Over any run without the admin's signature no cap is set and no strategy is added or becomes active, and
      without the guardian's either no status changes, not by an emergency exit of the vault either. */
  lemma {:induction false} RegistryHolds(w: World, run: Run, admin: bool, guardian: bool)
    requires w.Valid() && TopLevelRun(run) && w.registry.admin.User? && w.registry.guardian.User?
    requires forall i :: 0 <= i < |run| ==>
      (run[i].0.Authorized(w.registry.admin) ==> admin) && (run[i].0.Authorized(w.registry.guardian) ==> guardian)
    ensures Registry.WithinRoles(w.registry, After(w, run).registry, admin, guardian)
    decreases run
  {
    if run != [] {
      RegistryStep(w, run[0].0, run[0].1);
      RegistryHolds(Step(w, run[0].0, run[0].1), run[1..], admin, guardian);
    }
  }
}
