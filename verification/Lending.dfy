/** The policy account's limit, seen from the vault: how much can be lent within any day's worth of ledgers. */
module Lending {
  import opened Soroban
  import opened Vault
  import Policy

  /** The policy account's part of a step, if the step goes through. */
  function CallsOf(w: World, env: Env, op: Op): Policy.Run
    requires w.Valid()
  {
    if Execute(w, env, op).Err? then []
    else if op.OpAllocate? then [(env.CallFrom(w.self), Policy.Record(op.agent, op.strategy, op.amount))]
    else if op.OpPolicy? then [(env, op.policyCall)]
    else []
  }

  /** The policy account's part of a run. */
  function Calls(w: World, run: Run): Policy.Run
    requires w.Valid()
    decreases run
  {
    if run == [] then [] else CallsOf(w, run[0].0, run[0].1) + Calls(Step(w, run[0].0, run[0].1), run[1..])
  }

  /** What one step lends, if its ledger is from `lo` up to but not including `hi`. */
  function LentBy(w: World, env: Env, op: Op, lo: nat, hi: nat): nat
    requires w.Valid()
  {
    if op.OpAllocate? && Allocate(w, env, op.agent, op.strategy, op.amount).Ok? && lo <= env.ledger < hi
    then op.amount else 0
  }

  /** What the vault lends to strategies at ledgers from `lo` up to but not including `hi`. */
  function Lent(w: World, run: Run, lo: nat, hi: nat): nat
    requires w.Valid()
    decreases run
  {
    if run == [] then 0
    else LentBy(w, run[0].0, run[0].1, lo, hi) + Lent(Step(w, run[0].0, run[0].1), run[1..], lo, hi)
  }

  /** Ledgers never decrease, starting from `now`, and no call raises the daily limit above `most`. */
  ghost predicate Orderly(run: Run, now: nat, most: int) {
    run != [] ==>
      && now <= run[0].0.ledger
      && (run[0].1.OpPolicy? && run[0].1.policyCall.SetLimits? ==> run[0].1.policyCall.dailyLimit <= most)
      && Orderly(run[1..], run[0].0.ledger, most)
  }

  /** The account lives through its part of a run as it would on its own. */
  lemma StepIsPolicyStep(w: World, env: Env, op: Op)
    requires w.Valid()
    ensures var calls := CallsOf(w, env, op);
            if calls == [] then Step(w, env, op).policy == w.policy
            else
              && |calls| == 1 && calls[0].0.ledger == env.ledger
              && Policy.Execute(w.policy, calls[0].0, calls[0].1) == Ok(Step(w, env, op).policy)
              && (op.OpAllocate? ==> calls[0].1.Record? && calls[0].1.amount == op.amount > 0)
              && (op.OpPolicy? ==> calls[0].1 == op.policyCall)
  {
    if op.OpAllocate? {
      if Allocate(w, env, op.agent, op.strategy, op.amount).Ok? {
        AllocationIsPolicyCall(w, env, op.agent, op.strategy, op.amount);
      }
    } else if !op.OpPolicy? {
      OthersLeavePolicy(w, env, op);
    }
  }

  lemma AllocationIsPolicyCall(w: World, env: Env, agent: Address, strategy: Address, amount: int)
    requires w.Valid() && Allocate(w, env, agent, strategy, amount).Ok?
    ensures amount > 0
    ensures Policy.Execute(w.policy, env.CallFrom(w.self), Policy.Record(agent, strategy, amount))
         == Ok(Allocate(w, env, agent, strategy, amount).value.policy)
  {
    ApproveIs(w, env, agent, strategy, amount);
  }

  lemma OthersLeavePolicy(w: World, env: Env, op: Op)
    requires w.Valid() && !op.OpAllocate? && !op.OpPolicy?
    ensures Step(w, env, op).policy == w.policy
  {
    if Execute(w, env, op).Err? { }
    else if op.OpDeposit? { DepositIs(w, env, op.from, op.amount); }
    else if op.OpWithdraw? { WithdrawIs(w, env, op.to, op.shares); }
    else if op.OpDeallocate? { DeallocationLeavesPolicy(w, env, op.agent, op.strategy, op.amount); }
    else if op.OpEmergencyExit? { ExitLeavesPolicy(w, env, op.caller, op.strategy); }
  }

  lemma DeallocationLeavesPolicy(w: World, env: Env, agent: Address, strategy: Address, amount: int)
    requires w.Valid() && Deallocate(w, env, agent, strategy, amount).Ok?
    ensures Deallocate(w, env, agent, strategy, amount).value.0.policy == w.policy
  {
    RebookIs(Recall(w, env, strategy, amount).value, env, strategy, amount);
  }

  lemma ExitLeavesPolicy(w: World, env: Env, caller: Address, strategy: Address)
    requires w.Valid() && EmergencyExit(w, env, caller, strategy).Ok?
    ensures EmergencyExit(w, env, caller, strategy).value.0.policy == w.policy
  {
    var (back, recovered) := Evacuate(w, env, strategy).value;
    CloseIs(back, env, caller, strategy, recovered);
  }

  lemma {:induction false} CallsAreOrderly(w: World, run: Run, now: nat, from: nat, most: int)
    requires w.Valid() && Orderly(run, now, most) && from <= now
    ensures Policy.Orderly(Calls(w, run), from, most)
    decreases run
  {
    if run != [] {
      var (env, op) := run[0];
      var calls, rest := CallsOf(w, env, op), Calls(Step(w, env, op), run[1..]);
      StepIsPolicyStep(w, env, op);
      if calls == [] {
        CallsAreOrderly(Step(w, env, op), run[1..], env.ledger, from, most);
        assert calls + rest == rest;
      } else {
        CallsAreOrderly(Step(w, env, op), run[1..], env.ledger, env.ledger, most);
        assert (calls + rest)[0] == calls[0] && (calls + rest)[1..] == rest;
      }
    }
  }

  lemma CallsThenRest(p: Policy.State, calls: Policy.Run, q: Policy.State, rest: Policy.Run, lo: nat, hi: nat)
    requires if calls == [] then q == p else |calls| == 1 && Policy.Step(p, calls[0].0, calls[0].1) == q
    ensures var x := if calls == [] then 0 else Policy.Recorded(p, calls[0].0, calls[0].1);
            Policy.Spent(p, calls + rest, lo, hi) == Policy.Spent(q, rest, lo, hi)
              + if x > 0 && lo <= calls[0].0.ledger < hi then x else 0
  {
    if calls == [] {
      assert calls + rest == rest;
    } else {
      assert calls + rest == [calls[0]] + rest;
      Policy.OneMore(p, calls[0], rest, lo, hi);
    }
  }

  lemma LentByIsRecorded(w: World, env: Env, op: Op, lo: nat, hi: nat)
    requires w.Valid()
    ensures var calls := CallsOf(w, env, op);
            var x := if calls == [] then 0 else Policy.Recorded(w.policy, calls[0].0, calls[0].1);
            LentBy(w, env, op, lo, hi) <= if x > 0 && lo <= calls[0].0.ledger < hi then x else 0
  {
    StepIsPolicyStep(w, env, op);
  }

  lemma {:induction false} LentIsSpent(w: World, run: Run, lo: nat, hi: nat)
    requires w.Valid()
    ensures Lent(w, run, lo, hi) <= Policy.Spent(w.policy, Calls(w, run), lo, hi)
    decreases run
  {
    if run != [] {
      var (env, op) := run[0];
      var w' := Step(w, env, op);
      StepIsPolicyStep(w, env, op);
      LentByIsRecorded(w, env, op, lo, hi);
      LentIsSpent(w', run[1..], lo, hi);
      CallsThenRest(w.policy, CallsOf(w, env, op), w'.policy, Calls(w', run[1..]), lo, hi);
    }
  }

  /** In any 17280 consecutive ledgers of any run of the whole system, whoever sends what, the vault lends no
      more than twice the daily limit and what was recorded back in the window or the day before. */
  lemma LendingIsLimited(w: World, run: Run, now: nat, lo: nat, most: int)
    requires w.Valid() && Policy.Deployed(w.policy, now) && Orderly(run, now, most)
    requires w.policy.dailyLimit <= most && 0 <= most
    ensures var hi := lo + Policy.DAY_IN_LEDGERS;
            Lent(w, run, lo, hi) <= 2 * most + Policy.Refunded(w.policy, Calls(w, run), Policy.DayBefore(lo), hi)
  {
    CallsAreOrderly(w, run, now, now, most);
    LentIsSpent(w, run, lo, lo + Policy.DAY_IN_LEDGERS);
    Policy.SlidingWindow(w.policy, Calls(w, run), now, lo, most);
  }
}
