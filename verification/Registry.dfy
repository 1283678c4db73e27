/** The strategy registry: which strategies exist, their caps, and what is booked to each. */
module Registry {
  import opened Soroban
  import opened Balances

  datatype Status = Active | Paused | Revoked

  datatype StrategyInfo = StrategyInfo(cap: int, booked: int, riskTier: nat, status: Status)

  datatype State = State(admin: Address, vault: Address, guardian: Address,
                         list: seq<Address>, strategies: map<Address, StrategyInfo>) {
    /** The list names each registered strategy once, and no strategy is booked past its cap. */
    ghost predicate Valid() {
      && NoDup(list)
      && (forall a :: a in list <==> a in strategies)
      && (forall a :: a in strategies ==> 0 <= strategies[a].booked <= strategies[a].cap)
    }

    function Booked(): Book
      requires Valid()
    {
      map a | a in strategies :: strategies[a].booked
    }
  }

  function AddStrategy(s: State, env: Env, strategy: Address, cap: int, riskTier: nat): (r: Result<State>)
    requires s.Valid()
    ensures r.Ok? ==> r.value.Valid()
  {
    if !env.Authorized(s.admin) then Err(AuthFailed) else
    :- Need(cap > 0, ZeroAmount);
    :- Need(strategy !in s.strategies, AlreadyInitialized);
    Ok(s.(list := s.list + [strategy],
          strategies := s.strategies[strategy := StrategyInfo(cap, 0, riskTier, Active)]))
  }

  function UpdateCap(s: State, env: Env, strategy: Address, newCap: int): (r: Result<State>)
    requires s.Valid()
    ensures r.Ok? ==> r.value.Valid()
  {
    if !env.Authorized(s.admin) then Err(AuthFailed) else
    :- Need(strategy in s.strategies, StrategyNotFound);
    :- Need(s.strategies[strategy].booked <= newCap, StrategyCapExceeded);
    Ok(s.(strategies := s.strategies[strategy := s.strategies[strategy].(cap := newCap)]))
  }

  /** Pausing and revoking overwrite whatever status there was, a revocation included. */
  function SetStatus(s: State, env: Env, caller: Address, strategy: Address, status: Status): (r: Result<State>)
    requires s.Valid()
    ensures r.Ok? ==> r.value.Valid()
  {
    if !env.Authorized(caller) then Err(AuthFailed) else
    :- Need(caller == s.admin || caller == s.guardian, Unauthorized);
    :- Need(strategy in s.strategies, StrategyNotFound);
    Ok(s.(strategies := s.strategies[strategy := s.strategies[strategy].(status := status)]))
  }

  function Unpause(s: State, env: Env, strategy: Address): (r: Result<State>)
    requires s.Valid()
    ensures r.Ok? ==> r.value.Valid()
  {
    if !env.Authorized(s.admin) then Err(AuthFailed) else
    :- Need(strategy in s.strategies, StrategyNotFound);
    :- Need(s.strategies[strategy].status != Revoked, Error.StrategyRevoked);
    Ok(s.(strategies := s.strategies[strategy := s.strategies[strategy].(status := Active)]))
  }

  function RecordAllocation(s: State, env: Env, strategy: Address, amount: int): (r: Result<State>)
    requires s.Valid()
    ensures r.Ok? && amount >= 0 ==> r.value.Valid()
  {
    if !env.Authorized(s.vault) then Err(AuthFailed) else
    :- Need(strategy in s.strategies, StrategyNotFound);
    var info := s.strategies[strategy];
    :- Need(info.status == Active, Error.Paused);
    :- Need(Fits(info.booked + amount), MathOverflow);
    :- Need(info.booked + amount <= info.cap, StrategyCapExceeded);
    Ok(s.(strategies := s.strategies[strategy := info.(booked := info.booked + amount)]))
  }

  /** Releasing more than is booked floors the booking at zero. */
  function RecordDeallocation(s: State, env: Env, strategy: Address, amount: int): (r: Result<State>)
    requires s.Valid()
    ensures r.Ok? && amount >= 0 ==> r.value.Valid()
  {
    if !env.Authorized(s.vault) then Err(AuthFailed) else
    :- Need(strategy in s.strategies, StrategyNotFound);
    var info := s.strategies[strategy];
    var left := if info.booked < amount then 0 else info.booked - amount;
    Ok(s.(strategies := s.strategies[strategy := info.(booked := left)]))
  }

  lemma AllocationBooks(s: State, env: Env, strategy: Address, amount: nat)
    requires s.Valid() && RecordAllocation(s, env, strategy, amount).Ok?
    ensures var s' := RecordAllocation(s, env, strategy, amount).value;
            && s'.list == s.list && strategy in s.strategies && s.strategies[strategy].status == Active
            && s'.Booked() == Receive(s.Booked(), strategy, amount)
            && Get(s'.Booked(), strategy) <= s.strategies[strategy].cap
  {
  }

  /** A deallocation releases its amount, or what is booked if that is less, and only of that strategy. */
  lemma DeallocationReleases(s: State, env: Env, strategy: Address, amount: nat)
    requires s.Valid() && RecordDeallocation(s, env, strategy, amount).Ok?
    ensures var s' := RecordDeallocation(s, env, strategy, amount).value;
            && s'.list == s.list
            && (forall a :: a != strategy ==> Get(s'.Booked(), a) == Get(s.Booked(), a))
            && Get(s'.Booked(), strategy)
                == if amount <= Get(s.Booked(), strategy) then Get(s.Booked(), strategy) - amount else 0
  {
  }

  lemma StatusKeepsBookings(s: State, env: Env, caller: Address, strategy: Address, status: Status)
    requires s.Valid() && SetStatus(s, env, caller, strategy, status).Ok?
    ensures SetStatus(s, env, caller, strategy, status).value.list == s.list
    ensures SetStatus(s, env, caller, strategy, status).value.Booked() == s.Booked()
  {
  }

  /** Revocation is not final: a pause overwrites it, and what is paused can be unpaused. */
  lemma RevocationCanBeUndone(s: State, env: Env, strategy: Address)
    requires s.Valid() && env.Authorized(s.admin) && strategy in s.strategies
    ensures var revoked := SetStatus(s, env, s.admin, strategy, Revoked);
            && revoked.Ok? && Unpause(revoked.value, env, strategy) == Err(Error.StrategyRevoked)
            && var paused := SetStatus(revoked.value, env, s.admin, strategy, Status.Paused);
               && paused.Ok? && Unpause(paused.value, env, strategy).Ok?
               && Unpause(paused.value, env, strategy).value.strategies[strategy].status == Active
  {
  }

  datatype Call =
    | CallAdd(strategy: Address, cap: int, riskTier: nat)
    | CallUpdateCap(strategy: Address, newCap: int)
    | CallPause(caller: Address, strategy: Address)
    | CallUnpause(strategy: Address)
    | CallRevoke(caller: Address, strategy: Address)

  /** The administrative calls. They extend the list but never shrink it, and book nothing. */
  function Execute(s: State, env: Env, call: Call): (r: Result<State>)
    requires s.Valid()
    ensures r.Ok? ==> r.value.Valid() && r.value.vault == s.vault
    ensures r.Ok? ==> r.value.list == s.list || (exists a :: a !in s.list && r.value.list == s.list + [a])
    ensures r.Ok? ==> forall a :: Get(r.value.Booked(), a) == Get(s.Booked(), a)
  {
    match call
    case CallAdd(strategy, cap, riskTier) => AddStrategy(s, env, strategy, cap, riskTier)
    case CallUpdateCap(strategy, newCap) => UpdateCap(s, env, strategy, newCap)
    case CallPause(caller, strategy) => SetStatus(s, env, caller, strategy, Status.Paused)
    case CallUnpause(strategy) => Unpause(s, env, strategy)
    case CallRevoke(caller, strategy) => SetStatus(s, env, caller, strategy, Revoked)
  }

  /** What the signatures of admin and guardian allow: without the admin's no cap is set, nothing is added and
      nothing becomes active; without either's no status changes. */
  predicate WithinRoles(s: State, s': State, admin: bool, guardian: bool) {
    && s'.admin == s.admin && s'.guardian == s.guardian && s'.vault == s.vault
    && s.strategies.Keys <= s'.strategies.Keys
    && (!admin ==> s'.list == s.list && s'.strategies.Keys == s.strategies.Keys)
    && forall a :: a in s.strategies ==>
         && (!admin ==> s'.strategies[a].cap == s.strategies[a].cap)
         && (!admin && s'.strategies[a].status == Active ==> s.strategies[a].status == Active)
         && (!admin && !guardian ==> s'.strategies[a].status == s.strategies[a].status)
  }

  lemma RolesBound(s: State, env: Env, call: Call)
    requires s.Valid() && Execute(s, env, call).Ok?
    ensures WithinRoles(s, Execute(s, env, call).value, env.Authorized(s.admin), env.Authorized(s.guardian))
  {
  }

  /** Exactly when an administrative call goes through, and what it sets. */
  lemma AdministeredIff(s: State, env: Env, call: Call)
    requires s.Valid()
    ensures Execute(s, env, call).Ok? <==>
      && (call.CallAdd? || call.CallUpdateCap? || call.CallUnpause? ==> env.Authorized(s.admin))
      && (call.CallPause? || call.CallRevoke? ==>
            env.Authorized(call.caller) && (call.caller == s.admin || call.caller == s.guardian))
      && (call.CallAdd? <==> call.strategy !in s.strategies) && (call.CallAdd? ==> call.cap > 0)
      && (call.CallUpdateCap? ==> s.strategies[call.strategy].booked <= call.newCap)
      && (call.CallUnpause? ==> s.strategies[call.strategy].status != Revoked)
    ensures Execute(s, env, call).Ok? ==>
      var s' := Execute(s, env, call).value;
      && call.strategy in s'.strategies
      && var (was, now) := (if call.CallAdd? then StrategyInfo(call.cap, 0, call.riskTier, Active)
                            else s.strategies[call.strategy], s'.strategies[call.strategy]);
         && now.booked == was.booked && now.riskTier == was.riskTier
         && now.cap == (if call.CallUpdateCap? then call.newCap else was.cap)
         && now.status == (if call.CallPause? then Status.Paused else if call.CallUnpause? then Active
                           else if call.CallRevoke? then Revoked else was.status)
         && s' == s.(list := s'.list, strategies := s.strategies[call.strategy := now])
         && s'.list == if call.CallAdd? then s.list + [call.strategy] else s.list
  {
  }
}

/** The contract that stores this state. */
module RegistryContract {
  import opened Soroban
  import opened Balances
  import opened Registry

  class StrategyRegistry {
    const admin: Address
    const vault: Address
    const guardian: Address
    var strategiesList: seq<Address>
    var strategies: map<Address, StrategyInfo>

    constructor (admin: Address, vault: Address, guardian: Address)
      ensures Value() == State(admin, vault, guardian, [], map[]) && Value().Valid()
    {
      this.admin, this.vault, this.guardian := admin, vault, guardian;
      strategiesList, strategies := [], map[];
    }

    function Value(): State
      reads this
    {
      State(admin, vault, guardian, strategiesList, strategies)
    }

    method AddStrategy(env: Env, strategy: Address, cap: int, riskTier: nat) returns (r: Result<()>)
      requires Value().Valid()
      modifies this
      ensures match Registry.AddStrategy(old(Value()), env, strategy, cap, riskTier)
              case Ok(s) => r.Ok? && Value() == s
              case Err(e) => r == Err(e)
    {
      if !env.Authorized(admin) { return Err(AuthFailed); }
      if cap <= 0 { return Err(ZeroAmount); }
      if strategy in strategies { return Err(AlreadyInitialized); }
      strategies := strategies[strategy := StrategyInfo(cap, 0, riskTier, Active)];
      strategiesList := strategiesList + [strategy];
      return Ok(());
    }

    method UpdateCap(env: Env, strategy: Address, newCap: int) returns (r: Result<()>)
      requires Value().Valid()
      modifies this
      ensures match Registry.UpdateCap(old(Value()), env, strategy, newCap)
              case Ok(s) => r.Ok? && Value() == s
              case Err(e) => r == Err(e)
    {
      if !env.Authorized(admin) { return Err(AuthFailed); }
      if strategy !in strategies { return Err(StrategyNotFound); }
      var info := strategies[strategy];
      if newCap < info.booked { return Err(StrategyCapExceeded); }
      strategies := strategies[strategy := info.(cap := newCap)];
      return Ok(());
    }

    method PauseStrategy(env: Env, caller: Address, strategy: Address) returns (r: Result<()>)
      requires Value().Valid()
      modifies this
      ensures match Registry.SetStatus(old(Value()), env, caller, strategy, Status.Paused)
              case Ok(s) => r.Ok? && Value() == s
              case Err(e) => r == Err(e)
    {
      if !env.Authorized(caller) { return Err(AuthFailed); }
      if caller != admin && caller != guardian { return Err(Unauthorized); }
      if strategy !in strategies { return Err(StrategyNotFound); }
      strategies := strategies[strategy := strategies[strategy].(status := Status.Paused)];
      return Ok(());
    }

    method UnpauseStrategy(env: Env, strategy: Address) returns (r: Result<()>)
      requires Value().Valid()
      modifies this
      ensures match Registry.Unpause(old(Value()), env, strategy)
              case Ok(s) => r.Ok? && Value() == s
              case Err(e) => r == Err(e)
    {
      if !env.Authorized(admin) { return Err(AuthFailed); }
      if strategy !in strategies { return Err(StrategyNotFound); }
      var info := strategies[strategy];
      if info.status == Revoked { return Err(StrategyRevoked); }
      strategies := strategies[strategy := info.(status := Active)];
      return Ok(());
    }

    method RevokeStrategy(env: Env, caller: Address, strategy: Address) returns (r: Result<()>)
      requires Value().Valid()
      modifies this
      ensures match Registry.SetStatus(old(Value()), env, caller, strategy, Revoked)
              case Ok(s) => r.Ok? && Value() == s
              case Err(e) => r == Err(e)
    {
      if !env.Authorized(caller) { return Err(AuthFailed); }
      if caller != admin && caller != guardian { return Err(Unauthorized); }
      if strategy !in strategies { return Err(StrategyNotFound); }
      strategies := strategies[strategy := strategies[strategy].(status := Revoked)];
      return Ok(());
    }

    method RecordAllocation(env: Env, strategy: Address, amount: int) returns (r: Result<()>)
      requires Value().Valid()
      modifies this
      ensures match Registry.RecordAllocation(old(Value()), env, strategy, amount)
              case Ok(s) => r.Ok? && Value() == s
              case Err(e) => r == Err(e)
    {
      if !env.Authorized(vault) { return Err(AuthFailed); }
      if strategy !in strategies { return Err(StrategyNotFound); }
      var info := strategies[strategy];
      if info.status != Active { return Err(Error.Paused); }
      var newAllocated := info.booked + amount;
      if !Fits(newAllocated) { return Err(MathOverflow); }
      if newAllocated > info.cap { return Err(StrategyCapExceeded); }
      strategies := strategies[strategy := info.(booked := newAllocated)];
      return Ok(());
    }

    method RecordDeallocation(env: Env, strategy: Address, amount: int) returns (r: Result<()>)
      requires Value().Valid()
      modifies this
      ensures match Registry.RecordDeallocation(old(Value()), env, strategy, amount)
              case Ok(s) => r.Ok? && Value() == s
              case Err(e) => r == Err(e)
    {
      if !env.Authorized(vault) { return Err(AuthFailed); }
      if strategy !in strategies { return Err(StrategyNotFound); }
      var info := strategies[strategy];
      var newAllocated := if info.booked < amount then 0 else info.booked - amount;
      strategies := strategies[strategy := info.(booked := newAllocated)];
      return Ok(());
    }
  }
}
