/** The vault composed with the contracts it calls: what each entry point, run as one atomic
    transaction, does to the state of all of them together. */
module Vault {
  import opened Soroban
  import opened Balances
  import Arith
  import Asset
  import Token
  import Registry
  import Policy
  import Adapters

  const VIRTUAL_SHARES: int := 1000
  const VIRTUAL_ASSETS: int := 1

  datatype World = World(self: Address, admin: Address, guardian: Address,
                         idle: nat, placed: nat, paused: bool,
                         share: Token.State, asset: Book, registry: Registry.State, policy: Policy.State,
                         adapters: map<Address, Adapters.State>)
  {
    /** Each contract's own state is well formed, and the contracts are deployed for this vault. */
    ghost predicate Valid() {
      && self.Contract? && share.vault == self && registry.vault == self
      && Fits(idle) && Fits(placed)
      && share.Valid() && registry.Valid() && policy.Valid()
      && self !in adapters
      && forall a :: a in adapters ==> a.Contract? && adapters[a].Valid() && adapters[a].vault == self
    }

    /** Idle plus allocated: the vault's own books, not its token balance. */
    function TotalAssets(): nat { idle + placed }

    function ConvertToShares(assets: nat): nat {
      Arith.MulDiv(assets, share.supply + VIRTUAL_SHARES, TotalAssets() + VIRTUAL_ASSETS)
    }

    function ConvertToAssets(shares: nat): nat {
      Arith.MulDiv(shares, TotalAssets() + VIRTUAL_ASSETS, share.supply + VIRTUAL_SHARES)
    }

    /** The underlying tokens each adapter really holds. */
    function Held(): Book { map a | a in adapters :: Get(asset, a) }

    /** What each adapter reports it holds. */
    function Reported(): Book { map a | a in adapters :: adapters[a].TotalValue() }
  }

  /** The checks of a deposit, and the shares it is worth: amount * (supply + 1000) / (assets + 1). */
  function DepositQuote(w: World, env: Env, from: Address, amount: int): (r: Result<nat>)
    ensures r.Ok? ==> amount > 0 && r.value > 0 && r.value == w.ConvertToShares(amount)
  {
    if !env.Authorized(from) then Err(AuthFailed) else
    :- Need(!w.paused, Paused);
    :- Need(amount > 0, ZeroAmount);
    :- Need(Fits(w.TotalAssets()) && Fits(w.share.supply + VIRTUAL_SHARES), Panic);
    :- Need(Fits(amount * (w.share.supply + VIRTUAL_SHARES)), MathOverflow);
    :- Need(Fits(w.TotalAssets() + VIRTUAL_ASSETS), Panic);
    :- Need(w.ConvertToShares(amount) > 0, ZeroAmount);
    Ok(w.ConvertToShares(amount))
  }

  function Deposit(w: World, env: Env, from: Address, amount: int): (r: Result<(World, nat)>)
    requires w.Valid()
    ensures r.Ok? ==> r.value.0.Valid()
  {
    var minted :- DepositQuote(w, env, from, amount);
    var asset :- Asset.Transfer(w.asset, env.CallFrom(w.self), from, w.self, amount);
    :- Need(Fits(w.idle + amount), Panic);
    var share :- Token.Mint(w.share, env.CallFrom(w.self), from, minted);
    Ok((w.(asset := asset, idle := w.idle + amount, share := share), minted))
  }

  /** The checks of a withdrawal, and the assets it is worth: shares * (assets + 1) / (supply + 1000). */
  function WithdrawQuote(w: World, env: Env, to: Address, shares: int): (r: Result<nat>)
    ensures r.Ok? ==> shares > 0 && r.value == w.ConvertToAssets(shares) && r.value <= w.idle
  {
    if !env.Authorized(to) then Err(AuthFailed) else
    :- Need(!w.paused, Paused);
    :- Need(shares > 0, ZeroAmount);
    :- Need(Fits(w.TotalAssets() + VIRTUAL_ASSETS), Panic);
    :- Need(Fits(shares * (w.TotalAssets() + VIRTUAL_ASSETS)), MathOverflow);
    :- Need(Fits(w.share.supply + VIRTUAL_SHARES), Panic);
    :- Need(w.ConvertToAssets(shares) <= w.idle, InsufficientBalance);
    Ok(w.ConvertToAssets(shares))
  }

  function Withdraw(w: World, env: Env, to: Address, shares: int): (r: Result<(World, nat)>)
    requires w.Valid()
    ensures r.Ok? ==> r.value.0.Valid()
  {
    var returned :- WithdrawQuote(w, env, to, shares);
    var share :- Token.Burn(w.share, env.CallFrom(w.self), to, shares);
    var asset :- Asset.Transfer(w.asset, env.CallFrom(w.self), w.self, to, returned);
    Ok((w.(share := share, idle := w.idle - returned, asset := asset), returned))
  }

  /** The vault's own checks of an allocation, then those of the policy account and the registry. */
  function Approve(w: World, env: Env, agent: Address, strategy: Address, amount: int): (r: Result<World>)
    requires w.Valid()
    ensures r.Ok? ==> r.value.Valid() && 0 < amount <= w.idle
    ensures r.Ok? ==> r.value == w.(policy := r.value.policy, registry := r.value.registry)
  {
    if !env.Authorized(agent) then Err(AuthFailed) else
    :- Need(!w.paused, Paused);
    :- Need(amount > 0, ZeroAmount);
    :- Need(amount <= w.idle, InsufficientBalance);
    var policy :- Policy.VerifyAndRecord(w.policy, env.CallFrom(w.self), agent, strategy, amount);
    var registry :- Registry.RecordAllocation(w.registry, env.CallFrom(w.self), strategy, amount);
    Ok(w.(policy := policy, registry := registry))
  }

  /** The transfer to the strategy, and the strategy's own booking. */
  function Send(w: World, env: Env, strategy: Address, amount: nat): (r: Result<World>)
    requires w.Valid()
    ensures r.Ok? ==> r.value.Valid() && strategy in w.adapters
    ensures r.Ok? ==> r.value == w.(asset := r.value.asset, adapters := r.value.adapters)
  {
    var asset :- Asset.Transfer(w.asset, env.CallFrom(w.self), w.self, strategy, amount);
    :- Need(strategy in w.adapters, Panic);
    var adapter :- Adapters.Deposit(w.adapters[strategy], env.CallFrom(w.self), amount);
    Ok(w.(asset := asset, adapters := w.adapters[strategy := adapter]))
  }

  /** Then the vault's books. */
  function Lend(w: World, env: Env, strategy: Address, amount: nat): (r: Result<World>)
    requires w.Valid() && 0 < amount <= w.idle
    ensures r.Ok? ==> r.value.Valid() && strategy in w.adapters
  {
    var sent :- Send(w, env, strategy, amount);
    :- Need(Fits(w.placed + amount), Panic);
    Ok(sent.(idle := w.idle - amount, placed := w.placed + amount))
  }

  function Allocate(w: World, env: Env, agent: Address, strategy: Address, amount: int): (r: Result<World>)
    requires w.Valid()
    ensures r.Ok? ==> r.value.Valid()
  {
    var approved :- Approve(w, env, agent, strategy, amount);
    Lend(approved, env, strategy, amount)
  }

  /** The allocated total after `x` came back: it stops at zero. */
  function Released(placed: nat, x: nat): nat { if placed < x then 0 else placed - x }

  /** The strategy books a withdrawal and sends the tokens back. */
  function Recall(w: World, env: Env, strategy: Address, amount: int): (r: Result<World>)
    requires w.Valid()
    ensures r.Ok? ==> r.value.Valid() && amount > 0
    ensures r.Ok? ==> r.value == w.(asset := r.value.asset, adapters := r.value.adapters)
  {
    if strategy !in w.adapters then Err(Panic) else
    var adapter :- Adapters.Withdraw(w.adapters[strategy], env.CallFrom(w.self), amount);
    var asset :- Asset.Transfer(w.asset, env.CallFrom(strategy), strategy, w.self, amount);
    Ok(w.(asset := asset, adapters := w.adapters[strategy := adapter]))
  }

  /** The registry and the vault book what came back. */
  function Rebook(w: World, env: Env, strategy: Address, amount: nat): (r: Result<World>)
    requires w.Valid()
    ensures r.Ok? ==> r.value.Valid()
  {
    var registry :- Registry.RecordDeallocation(w.registry, env.CallFrom(w.self), strategy, amount);
    :- Need(Fits(w.idle + amount), Panic);
    Ok(w.(idle := w.idle + amount, placed := Released(w.placed, amount), registry := registry))
  }

  /** Any signer may deallocate: the source checks no allowlist here. */
  function Deallocate(w: World, env: Env, agent: Address, strategy: Address, amount: int): (r: Result<(World, nat)>)
    requires w.Valid()
    ensures r.Ok? ==> r.value.0.Valid()
  {
    if !env.Authorized(agent) then Err(AuthFailed) else
    :- Need(amount > 0, ZeroAmount);
    var back :- Recall(w, env, strategy, amount);
    var booked :- Rebook(back, env, strategy, amount);
    Ok((booked, amount))
  }

  /** The strategy empties and pauses itself and sends back all it reports. */
  function Evacuate(w: World, env: Env, strategy: Address): (r: Result<(World, nat)>)
    requires w.Valid()
    ensures r.Ok? ==> r.value.0.Valid()
    ensures r.Ok? ==> r.value.0 == w.(asset := r.value.0.asset, adapters := r.value.0.adapters)
  {
    if strategy !in w.adapters then Err(Panic) else
    var (adapter, recovered) :- Adapters.EmergencyExit(w.adapters[strategy], env.CallFrom(w.self));
    var asset :- (if recovered == 0 then Ok(w.asset)
                  else Asset.Transfer(w.asset, env.CallFrom(strategy), strategy, w.self, recovered));
    Ok((w.(asset := asset, adapters := w.adapters[strategy := adapter]), recovered))
  }

  /** The vault books what came back, and the registry revokes the strategy. */
  function Close(w: World, env: Env, caller: Address, strategy: Address, recovered: nat): (r: Result<World>)
    requires w.Valid()
    ensures r.Ok? ==> r.value.Valid()
  {
    if !Fits(w.idle + recovered) then Err(Panic) else
    var registry :- Registry.SetStatus(w.registry, env.CallFrom(w.self), caller, strategy, Registry.Revoked);
    Ok(w.(idle := w.idle + recovered, placed := Released(w.placed, recovered), registry := registry))
  }

  function EmergencyExit(w: World, env: Env, caller: Address, strategy: Address): (r: Result<(World, nat)>)
    requires w.Valid()
    ensures r.Ok? ==> r.value.0.Valid()
  {
    if !env.Authorized(caller) then Err(AuthFailed) else
    :- Need(caller == w.admin || caller == w.guardian, Unauthorized);
    var (back, recovered) :- Evacuate(w, env, strategy);
    var closed :- Close(back, env, caller, strategy, recovered);
    Ok((closed, recovered))
  }

  function SetPaused(w: World, env: Env, caller: Address, paused: bool): (r: Result<World>)
    requires w.Valid()
    ensures r.Ok? ==> r.value.Valid()
  {
    if !env.Authorized(caller) then Err(AuthFailed) else
    :- Need(caller == w.admin || (paused && caller == w.guardian), Unauthorized);
    Ok(w.(paused := paused))
  }

  /** Harvesting is reserved to the vault, and no entry point of the vault does it. It is a step of
      the model all the same, so that what holds of every run also holds if it is wired up. */
  function Harvest(w: World, env: Env, strategy: Address): (r: Result<World>)
    requires w.Valid()
    ensures r.Ok? ==> r.value.Valid()
  {
    if strategy !in w.adapters then Err(Panic) else
    var (adapter, _) :- Adapters.Harvest(w.adapters[strategy], env.CallFrom(w.self));
    Ok(w.(adapters := w.adapters[strategy := adapter]))
  }

  // Each stage in terms of the one contract it calls

  lemma ApproveIs(w: World, env: Env, agent: Address, strategy: Address, amount: int)
    requires w.Valid()
    requires env.Authorized(agent) && !w.paused && 0 < amount <= w.idle
    ensures Approve(w, env, agent, strategy, amount) ==
      match Policy.VerifyAndRecord(w.policy, env.CallFrom(w.self), agent, strategy, amount)
      case Err(e) => Err(e)
      case Ok(policy) =>
        match Registry.RecordAllocation(w.registry, env.CallFrom(w.self), strategy, amount)
        case Err(e) => Err(e)
        case Ok(registry) => Ok(w.(policy := policy, registry := registry))
  {
  }

  lemma SendIs(w: World, env: Env, strategy: Address, amount: nat)
    requires w.Valid()
    ensures Send(w, env, strategy, amount) ==
      match Asset.Transfer(w.asset, env.CallFrom(w.self), w.self, strategy, amount)
      case Err(e) => Err(e)
      case Ok(asset) =>
        if strategy !in w.adapters then Err(Panic) else
          match Adapters.Deposit(w.adapters[strategy], env.CallFrom(w.self), amount)
          case Err(e) => Err(e)
          case Ok(adapter) => Ok(w.(asset := asset, adapters := w.adapters[strategy := adapter]))
  {
  }

  lemma LendIs(w: World, env: Env, strategy: Address, amount: nat)
    requires w.Valid() && 0 < amount <= w.idle
    ensures Lend(w, env, strategy, amount) ==
      match Send(w, env, strategy, amount)
      case Err(e) => Err(e)
      case Ok(v) =>
        if Fits(w.placed + amount) then Ok(v.(idle := w.idle - amount, placed := w.placed + amount)) else Err(Panic)
  {
  }

  lemma RecallIs(w: World, env: Env, strategy: Address, amount: int)
    requires w.Valid() && strategy in w.adapters
    ensures Recall(w, env, strategy, amount) ==
      match Adapters.Withdraw(w.adapters[strategy], env.CallFrom(w.self), amount)
      case Err(e) => Err(e)
      case Ok(adapter) =>
        match Asset.Transfer(w.asset, env.CallFrom(strategy), strategy, w.self, amount)
        case Err(e) => Err(e)
        case Ok(asset) => Ok(w.(asset := asset, adapters := w.adapters[strategy := adapter]))
  {
  }

  lemma EvacuateIs(w: World, env: Env, strategy: Address)
    requires w.Valid() && strategy in w.adapters
    ensures Evacuate(w, env, strategy) ==
      match Adapters.EmergencyExit(w.adapters[strategy], env.CallFrom(w.self))
      case Err(e) => Err(e)
      case Ok((adapter, x)) =>
        var v := w.(adapters := w.adapters[strategy := adapter]);
        if x == 0 then Ok((v, x))
        else match Asset.Transfer(w.asset, env.CallFrom(strategy), strategy, w.self, x)
             case Err(e) => Err(e)
             case Ok(asset) => Ok((v.(asset := asset), x))
  {
  }

  lemma RebookIs(w: World, env: Env, strategy: Address, amount: nat)
    requires w.Valid()
    ensures Rebook(w, env, strategy, amount) ==
      match Registry.RecordDeallocation(w.registry, env.CallFrom(w.self), strategy, amount)
      case Err(e) => Err(e)
      case Ok(registry) =>
        if !Fits(w.idle + amount) then Err(Panic)
        else Ok(w.(idle := w.idle + amount, placed := Released(w.placed, amount), registry := registry))
  {
  }

  lemma CloseIs(w: World, env: Env, caller: Address, strategy: Address, recovered: nat)
    requires w.Valid()
    ensures Close(w, env, caller, strategy, recovered) ==
      if !Fits(w.idle + recovered) then Err(Panic)
      else match Registry.SetStatus(w.registry, env.CallFrom(w.self), caller, strategy, Registry.Revoked)
           case Err(e) => Err(e)
           case Ok(registry) =>
             Ok(w.(idle := w.idle + recovered, placed := Released(w.placed, recovered), registry := registry))
  {
  }

  lemma DepositIs(w: World, env: Env, from: Address, amount: int)
    requires w.Valid() && DepositQuote(w, env, from, amount).Ok?
    ensures var minted := DepositQuote(w, env, from, amount).value;
            Deposit(w, env, from, amount) ==
              match Asset.Transfer(w.asset, env.CallFrom(w.self), from, w.self, amount)
              case Err(e) => Err(e)
              case Ok(asset) =>
                if !Fits(w.idle + amount) then Err(Panic)
                else match Token.Mint(w.share, env.CallFrom(w.self), from, minted)
                     case Err(e) => Err(e)
                     case Ok(share) => Ok((w.(asset := asset, idle := w.idle + amount, share := share), minted))
  {
  }

  lemma WithdrawIs(w: World, env: Env, to: Address, shares: int)
    requires w.Valid() && WithdrawQuote(w, env, to, shares).Ok?
    ensures var x := WithdrawQuote(w, env, to, shares).value;
            Withdraw(w, env, to, shares) ==
              match Token.Burn(w.share, env.CallFrom(w.self), to, shares)
              case Err(e) => Err(e)
              case Ok(share) =>
                match Asset.Transfer(w.asset, env.CallFrom(w.self), w.self, to, x)
                case Err(e) => Err(e)
                case Ok(asset) => Ok((w.(share := share, idle := w.idle - x, asset := asset), x))
  {
  }

  datatype Op =
    | OpDeposit(from: Address, amount: int)
    | OpWithdraw(to: Address, shares: int)
    | OpAllocate(agent: Address, strategy: Address, amount: int)
    | OpDeallocate(agent: Address, strategy: Address, amount: int)
    | OpEmergencyExit(caller: Address, strategy: Address)
    | OpSetPaused(caller: Address, paused: bool)
    | OpHarvest(strategy: Address)
    | OpShares(shareCall: Token.Call)
    | OpTransferAsset(from: Address, to: Address, amount: int)
    | OpRegistry(registryCall: Registry.Call)
    | OpPolicy(policyCall: Policy.Call)

  function Execute(w: World, env: Env, op: Op): (r: Result<World>)
    requires w.Valid()
    ensures r.Ok? ==> r.value.Valid()
  {
    match op
    case OpDeposit(from, amount) => var (w', _) :- Deposit(w, env, from, amount); Ok(w')
    case OpWithdraw(to, shares) => var (w', _) :- Withdraw(w, env, to, shares); Ok(w')
    case OpAllocate(agent, strategy, amount) => Allocate(w, env, agent, strategy, amount)
    case OpDeallocate(agent, strategy, amount) => var (w', _) :- Deallocate(w, env, agent, strategy, amount); Ok(w')
    case OpEmergencyExit(caller, strategy) => var (w', _) :- EmergencyExit(w, env, caller, strategy); Ok(w')
    case OpSetPaused(caller, paused) => SetPaused(w, env, caller, paused)
    case OpHarvest(strategy) => Harvest(w, env, strategy)
    case OpShares(call) => var share :- Token.Execute(w.share, env, call); Ok(w.(share := share))
    case OpTransferAsset(from, to, amount) =>
      var asset :- Asset.Transfer(w.asset, env, from, to, amount); Ok(w.(asset := asset))
    case OpRegistry(call) => var registry :- Registry.Execute(w.registry, env, call); Ok(w.(registry := registry))
    case OpPolicy(call) => var policy :- Policy.Execute(w.policy, env, call); Ok(w.(policy := policy))
  }

  /** A transaction that fails leaves the whole world as it was. */
  function Step(w: World, env: Env, op: Op): (w': World)
    requires w.Valid()
    ensures w'.Valid()
  {
    match Execute(w, env, op)
    case Ok(w') => w'
    case Err(_) => w
  }

  type Run = seq<(Env, Op)>

  function After(w: World, run: Run): (w': World)
    requires w.Valid()
    ensures w'.Valid()
    decreases run
  {
    if run == [] then w else After(Step(w, run[0].0, run[0].1), run[1..])
  }
}
