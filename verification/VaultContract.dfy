/** The vault contract. What a failing call has written so far the host discards, as `Vault.Step` does. */
module VaultContract {
  import opened Wrappers
  import opened Soroban
  import opened Balances
  import Arith
  import Asset
  import Token
  import Registry
  import Policy
  import Adapters
  import Vault
  import opened AssetContract
  import opened TokenContract
  import opened RegistryContract
  import opened PolicyContract
  import opened AdapterContracts

  /** What a call into a strategy can write, apart from the tokens. */
  function Objects(s: Option<Adapter>): set<object> { if s.None? then {} else {s.value.Object()} }

  class HikariVault {
    const self: Address
    const admin: Address
    const guardian: Address
    const asset: StellarAsset
    const share: HikariToken
    const registry: StrategyRegistry
    const policy: PolicyAccount
    var totalIdleAssets: nat
    var allocatedAssets: nat
    var paused: bool

    constructor (self: Address, admin: Address, guardian: Address, asset: StellarAsset, share: HikariToken,
                 registry: StrategyRegistry, policy: PolicyAccount)
      ensures this.self == self && this.admin == admin && this.guardian == guardian
      ensures this.asset == asset && this.share == share && this.registry == registry && this.policy == policy
      ensures totalIdleAssets == 0 && allocatedAssets == 0 && !paused
    {
      this.self, this.admin, this.guardian := self, admin, guardian;
      this.asset, this.share, this.registry, this.policy := asset, share, registry, policy;
      totalIdleAssets, allocatedAssets, paused := 0, 0, false;
    }

    /** The world as far as a call into the strategy `s` can see it. */
    ghost function World(s: Option<Adapter>): Vault.World
      reads this, asset, share, registry, policy, Objects(s)
    {
      Vault.World(self, admin, guardian, totalIdleAssets, allocatedAssets, paused,
                  share.Value(), asset.balances, registry.Value(), policy.Value(),
                  if s.None? then map[] else map[s.value.Self() := s.value.Value()])
    }

    ghost predicate Ready(s: Option<Adapter>)
      reads this, asset, share, registry, policy, Objects(s)
    {
      && share.IsWellFormed() && World(s).Valid()
      && (s.Some? ==> s.value.Underlying() == asset && s.value.Value().Valid())
      && Objects(s) !! {this, asset, share, registry, policy}
    }

    method QuoteDeposit(env: Env, from: Address, amount: int) returns (r: Result<nat>)
      requires Ready(None)
      ensures r == Vault.DepositQuote(World(None), env, from, amount)
    {
      if !env.Authorized(from) { return Err(AuthFailed); }
      if paused { return Err(Paused); }
      if amount <= 0 { return Err(ZeroAmount); }
      var totalAssets := totalIdleAssets + allocatedAssets;
      var totalShares := share.totalSupply;
      if !Fits(totalAssets) || !Fits(totalShares + Vault.VIRTUAL_SHARES) { return Err(Panic); }
      var numerator := amount * (totalShares + Vault.VIRTUAL_SHARES);
      if !Fits(numerator) { return Err(MathOverflow); }
      var denominator := totalAssets + Vault.VIRTUAL_ASSETS;
      if !Fits(denominator) { return Err(Panic); }
      var sharesToMint := numerator / denominator;
      if sharesToMint <= 0 { return Err(ZeroAmount); }
      return Ok(sharesToMint);
    }

    method Deposit(env: Env, from: Address, amount: int) returns (r: Result<nat>)
      requires Ready(None)
      modifies this, asset, share
      ensures match Vault.Deposit(old(World(None)), env, from, amount)
              case Ok((w, minted)) => r == Ok(minted) && share.IsWellFormed() && World(None) == w
              case Err(e) => r == Err(e)
    {
      r := QuoteDeposit(env, from, amount);
      if r.Err? { return; }
      ghost var w := World(None);
      Vault.DepositIs(w, env, from, amount);
      var paid := asset.Transfer(env.CallFrom(self), from, self, amount);
      if paid.Err? { return Err(paid.error); }
      if !Fits(totalIdleAssets + amount) { return Err(Panic); }
      totalIdleAssets := totalIdleAssets + amount;
      var minted := share.Mint(env.CallFrom(self), from, r.value);
      if minted.Err? { return Err(minted.error); }
      assert World(None) == w.(asset := asset.balances, idle := totalIdleAssets, share := share.Value());
    }

    method QuoteWithdraw(env: Env, to: Address, shares: int) returns (r: Result<nat>)
      requires Ready(None)
      ensures r == Vault.WithdrawQuote(World(None), env, to, shares)
    {
      if !env.Authorized(to) { return Err(AuthFailed); }
      if paused { return Err(Paused); }
      if shares <= 0 { return Err(ZeroAmount); }
      var totalAssets := totalIdleAssets + allocatedAssets;
      var totalShares := share.totalSupply;
      if !Fits(totalAssets + Vault.VIRTUAL_ASSETS) { return Err(Panic); }
      var numerator := shares * (totalAssets + Vault.VIRTUAL_ASSETS);
      if !Fits(numerator) { return Err(MathOverflow); }
      var denominator := totalShares + Vault.VIRTUAL_SHARES;
      if !Fits(denominator) { return Err(Panic); }
      var assetsToReturn := numerator / denominator;
      assert assetsToReturn == Arith.MulDiv(shares, totalAssets + 1, denominator);
      if totalIdleAssets < assetsToReturn { return Err(InsufficientBalance); }
      return Ok(assetsToReturn);
    }

    method Withdraw(env: Env, to: Address, shares: int) returns (r: Result<nat>)
      requires Ready(None)
      modifies this, asset, share
      ensures match Vault.Withdraw(old(World(None)), env, to, shares)
              case Ok((w, returned)) => r == Ok(returned) && share.IsWellFormed() && World(None) == w
              case Err(e) => r == Err(e)
    {
      r := QuoteWithdraw(env, to, shares);
      if r.Err? { return; }
      ghost var w := World(None);
      Vault.WithdrawIs(w, env, to, shares);
      var burned := share.Burn(env.CallFrom(self), to, shares);
      if burned.Err? { return Err(burned.error); }
      totalIdleAssets := totalIdleAssets - r.value;
      var sent := asset.Transfer(env.CallFrom(self), self, to, r.value);
      if sent.Err? { return Err(sent.error); }
      assert World(None) == w.(share := share.Value(), idle := totalIdleAssets, asset := asset.balances);
    }

    /** Steps 1 and 2 of an allocation: the policy account, then the registry. */
    method Approve(env: Env, agent: Address, strategy: Address, s: Option<Adapter>, amount: int)
      returns (r: Result<()>)
      requires Ready(s)
      modifies registry, policy
      ensures match Vault.Approve(old(World(s)), env, agent, strategy, amount)
              case Ok(w) => r.Ok? && World(s) == w
              case Err(e) => r == Err(e)
    {
      if !env.Authorized(agent) { return Err(AuthFailed); }
      if paused { return Err(Paused); }
      if amount <= 0 { return Err(ZeroAmount); }
      if totalIdleAssets < amount { return Err(InsufficientBalance); }
      ghost var w := World(s);
      Vault.ApproveIs(w, env, agent, strategy, amount);
      r := Record(env, agent, strategy, amount);
      assert World(s).adapters == w.adapters;
      assert World(s) == w.(policy := policy.Value(), registry := registry.Value());
    }

    /** The two calls. */
    method Record(env: Env, agent: Address, strategy: Address, amount: nat) returns (r: Result<()>)
      requires registry.Value().Valid()
      modifies policy, registry
      ensures match Policy.VerifyAndRecord(old(policy.Value()), env.CallFrom(self), agent, strategy, amount)
              case Err(e) => r == Err(e)
              case Ok(p) =>
                match Registry.RecordAllocation(old(registry.Value()), env.CallFrom(self), strategy, amount)
                case Err(e) => r == Err(e)
                case Ok(reg) => r.Ok? && policy.Value() == p && registry.Value() == reg
    {
      r := policy.VerifyAndRecordAction(env.CallFrom(self), agent, strategy, amount);
      if r.Err? { return; }
      r := registry.RecordAllocation(env.CallFrom(self), strategy, amount);
    }

    /** Step 3: transfer the assets and let the strategy book them. */
    method Send(env: Env, strategy: Address, s: Option<Adapter>, amount: nat) returns (r: Result<()>)
      requires Ready(s) && (s.Some? ==> s.value.Self() == strategy)
      modifies asset, Objects(s)
      ensures match Vault.Send(old(World(s)), env, strategy, amount)
              case Ok(w) => r.Ok? && World(s) == w
              case Err(e) => r == Err(e)
    {
      ghost var w := World(s);
      Vault.SendIs(w, env, strategy, amount);
      assert strategy in w.adapters <==> s.Some?;
      r := Hand(env, strategy, s, amount);
      if r.Ok? { Handed(env, strategy, s, amount, w); }
    }

    /** With its one strategy's new state the world is the old one updated. */
    lemma Handed(env: Env, strategy: Address, s: Option<Adapter>, amount: nat, w: Vault.World)
      requires s.Some? && s.value.Self() == strategy && strategy in w.adapters && w.adapters.Keys == {strategy}
      requires World(s) == w.(asset := asset.balances, adapters := World(s).adapters)
      ensures World(s) == w.(asset := asset.balances, adapters := w.adapters[strategy := s.value.Value()])
    {
    }

    /** The two calls. */
    method Hand(env: Env, strategy: Address, s: Option<Adapter>, amount: nat) returns (r: Result<()>)
      requires s.Some? ==> s.value.Value().Valid()
      requires Objects(s) !! {asset}
      modifies asset, Objects(s)
      ensures match Asset.Transfer(old(asset.balances), env.CallFrom(self), self, strategy, amount)
              case Err(e) => r == Err(e)
              case Ok(b) =>
                if s.None? then r == Err(Panic)
                else match Adapters.Deposit(old(s.value.Value()), env.CallFrom(self), amount)
                     case Err(e) => r == Err(e)
                     case Ok(a) => r.Ok? && asset.balances == b && s.value.Value() == a
    {
      r := asset.Transfer(env.CallFrom(self), self, strategy, amount);
      if r.Err? { return; }
      if s.None? { return Err(Panic); }
      r := s.value.Deposit(env.CallFrom(self), amount);
    }

    method Lend(env: Env, strategy: Address, s: Option<Adapter>, amount: nat) returns (r: Result<()>)
      requires Ready(s) && (s.Some? ==> s.value.Self() == strategy) && 0 < amount <= totalIdleAssets
      modifies this, asset, Objects(s)
      ensures match Vault.Lend(old(World(s)), env, strategy, amount)
              case Ok(w) => r.Ok? && World(s) == w
              case Err(e) => r == Err(e)
    {
      r := Send(env, strategy, s, amount);
      if r.Err? { return; }
      ghost var sent := World(s);
      Vault.LendIs(old(World(s)), env, strategy, amount);
      r := Place(amount);
      assert World(s).adapters == sent.adapters;
      assert World(s) == sent.(idle := totalIdleAssets, placed := allocatedAssets);
    }

    /** Moves what was lent from the idle to the allocated books. */
    method Place(amount: nat) returns (r: Result<()>)
      requires amount <= totalIdleAssets
      modifies this`totalIdleAssets, this`allocatedAssets
      ensures r == if Fits(old(allocatedAssets) + amount) then Ok(()) else Err(Panic)
      ensures r.Ok? ==>
        totalIdleAssets == old(totalIdleAssets) - amount && allocatedAssets == old(allocatedAssets) + amount
    {
      totalIdleAssets := totalIdleAssets - amount;
      if !Fits(allocatedAssets + amount) { return Err(Panic); }
      allocatedAssets := allocatedAssets + amount;
      return Ok(());
    }

    method AllocateToStrategy(env: Env, agent: Address, strategy: Address, s: Option<Adapter>, amount: int)
      returns (r: Result<()>)
      requires Ready(s) && (s.Some? ==> s.value.Self() == strategy)
      modifies this, asset, registry, policy, Objects(s)
      ensures match Vault.Allocate(old(World(s)), env, agent, strategy, amount)
              case Ok(w) => r.Ok? && World(s) == w
              case Err(e) => r == Err(e)
    {
      r := Approve(env, agent, strategy, s, amount);
      if r.Err? { return; }
      r := Lend(env, strategy, s, amount);
    }

    method Recall(env: Env, strategy: Address, s: Option<Adapter>, amount: int) returns (r: Result<nat>)
      requires Ready(s) && (s.Some? ==> s.value.Self() == strategy)
      modifies asset, Objects(s)
      ensures match Vault.Recall(old(World(s)), env, strategy, amount)
              case Ok(w) => r == Ok(amount) && World(s) == w
              case Err(e) => r == Err(e)
    {
      if s.None? { return Err(Panic); }
      ghost var w := World(s);
      Vault.RecallIs(w, env, strategy, amount);
      assert s.value.Value() == w.adapters[strategy];
      r := s.value.Withdraw(env.CallFrom(self), amount);
      assert World(s).adapters == w.adapters[strategy := s.value.Value()];
      assert World(s) == w.(asset := asset.balances, adapters := w.adapters[strategy := s.value.Value()]);
    }

    method Evacuate(env: Env, strategy: Address, s: Option<Adapter>) returns (r: Result<nat>)
      requires Ready(s) && (s.Some? ==> s.value.Self() == strategy)
      modifies asset, Objects(s)
      ensures match Vault.Evacuate(old(World(s)), env, strategy)
              case Ok((w, recovered)) => r == Ok(recovered) && World(s) == w && Ready(s)
              case Err(e) => r == Err(e)
    {
      if s.None? { return Err(Panic); }
      ghost var w := World(s);
      Vault.EvacuateIs(w, env, strategy);
      assert s.value.Value() == w.adapters[strategy];
      r := s.value.EmergencyExit(env.CallFrom(self));
      assert World(s).adapters == w.adapters[strategy := s.value.Value()];
    }

    /** Moves what came back from the allocated to the idle books. */
    method Settle(x: nat) returns (r: Result<()>)
      modifies this`totalIdleAssets, this`allocatedAssets
      ensures r == if x == 0 || Fits(old(totalIdleAssets) + x) then Ok(()) else Err(Panic)
      ensures r.Ok? ==>
        totalIdleAssets == old(totalIdleAssets) + x && allocatedAssets == Vault.Released(old(allocatedAssets), x)
    {
      if x > 0 {
        if !Fits(totalIdleAssets + x) { return Err(Panic); }
        totalIdleAssets := totalIdleAssets + x;
        allocatedAssets := if allocatedAssets < x then 0 else allocatedAssets - x;
      }
      return Ok(());
    }

    method DeallocateFromStrategy(env: Env, agent: Address, strategy: Address, s: Option<Adapter>, amount: int)
      returns (r: Result<nat>)
      requires Ready(s) && (s.Some? ==> s.value.Self() == strategy)
      modifies this, asset, registry, Objects(s)
      ensures match Vault.Deallocate(old(World(s)), env, agent, strategy, amount)
              case Ok((w, withdrawn)) => r == Ok(withdrawn) && World(s) == w
              case Err(e) => r == Err(e)
    {
      if !env.Authorized(agent) { return Err(AuthFailed); }
      if amount <= 0 { return Err(ZeroAmount); }
      r := Recall(env, strategy, s, amount);
      if r.Err? { return; }
      var booked := Rebook(env, strategy, s, r.value);
      if booked.Err? { return Err(booked.error); }
    }

    method Rebook(env: Env, strategy: Address, s: Option<Adapter>, amount: nat) returns (r: Result<()>)
      requires Ready(s)
      modifies this`totalIdleAssets, this`allocatedAssets, registry
      ensures match Vault.Rebook(old(World(s)), env, strategy, amount)
              case Ok(w) => r.Ok? && World(s) == w
              case Err(e) => r == Err(e)
    {
      ghost var w := World(s);
      Vault.RebookIs(w, env, strategy, amount);
      r := BookReturn(env, strategy, amount);
      assert World(s).adapters == w.adapters;
      assert World(s) == w.(registry := registry.Value(), idle := totalIdleAssets, placed := allocatedAssets);
    }

    /** The registry and the vault book what came back. */
    method BookReturn(env: Env, strategy: Address, amount: nat) returns (r: Result<()>)
      requires registry.Value().Valid() && Fits(totalIdleAssets)
      modifies this`totalIdleAssets, this`allocatedAssets, registry
      ensures match Registry.RecordDeallocation(old(registry.Value()), env.CallFrom(self), strategy, amount)
              case Err(e) => r == Err(e)
              case Ok(reg) =>
                if !Fits(old(totalIdleAssets) + amount) then r == Err(Panic)
                else
                  && r.Ok? && registry.Value() == reg && totalIdleAssets == old(totalIdleAssets) + amount
                  && allocatedAssets == Vault.Released(old(allocatedAssets), amount)
    {
      r := registry.RecordDeallocation(env.CallFrom(self), strategy, amount);
      if r.Err? { return; }
      r := Settle(amount);
    }

    method Close(env: Env, caller: Address, strategy: Address, s: Option<Adapter>, recovered: nat)
      returns (r: Result<()>)
      requires Ready(s)
      modifies this`totalIdleAssets, this`allocatedAssets, registry
      ensures match Vault.Close(old(World(s)), env, caller, strategy, recovered)
              case Ok(w) => r.Ok? && World(s) == w
              case Err(e) => r == Err(e)
    {
      ghost var w := World(s);
      Vault.CloseIs(w, env, caller, strategy, recovered);
      r := Settle(recovered);
      if r.Err? { return; }
      r := registry.RevokeStrategy(env.CallFrom(self), caller, strategy);
      assert World(s).adapters == w.adapters;
      assert World(s) == w.(registry := registry.Value(), idle := totalIdleAssets, placed := allocatedAssets);
    }

    method EmergencyExitStrategy(env: Env, caller: Address, strategy: Address, s: Option<Adapter>)
      returns (r: Result<nat>)
      requires Ready(s) && (s.Some? ==> s.value.Self() == strategy)
      modifies this, asset, registry, Objects(s)
      ensures match Vault.EmergencyExit(old(World(s)), env, caller, strategy)
              case Ok((w, recovered)) => r == Ok(recovered) && World(s) == w
              case Err(e) => r == Err(e)
    {
      if !env.Authorized(caller) { return Err(AuthFailed); }
      if caller != admin && caller != guardian { return Err(Unauthorized); }
      r := Evacuate(env, strategy, s);
      if r.Err? { return; }
      var closed := Close(env, caller, strategy, s, r.value);
      if closed.Err? { return Err(closed.error); }
    }

    method Pause(env: Env, caller: Address) returns (r: Result<()>)
      requires Ready(None)
      modifies this
      ensures match Vault.SetPaused(old(World(None)), env, caller, true)
              case Ok(w) => r.Ok? && World(None) == w
              case Err(e) => r == Err(e)
    {
      if !env.Authorized(caller) { return Err(AuthFailed); }
      if caller != admin && caller != guardian { return Err(Unauthorized); }
      paused := true;
      return Ok(());
    }

    method Unpause(env: Env, caller: Address) returns (r: Result<()>)
      requires Ready(None)
      modifies this
      ensures match Vault.SetPaused(old(World(None)), env, caller, false)
              case Ok(w) => r.Ok? && World(None) == w
              case Err(e) => r == Err(e)
    {
      if !env.Authorized(caller) { return Err(AuthFailed); }
      if caller != admin { return Err(Unauthorized); }
      paused := false;
      return Ok(());
    }
  }
}
