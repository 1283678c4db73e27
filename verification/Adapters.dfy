/** The three strategy adapters the vault can allocate to. Blend and Soroswap keep principal and
    simulated yield apart and draw on the yield first; the mock keeps one balance. None of them
    receives a token for the yield that `harvest` books. */
module Adapters {
  import opened Soroban

  datatype State =
    | Blend(vault: Address, supplied: nat, interest: nat, rateBps: nat, paused: bool)
    | Soroswap(vault: Address, principal: nat, fees: nat, lpShares: nat, rateBps: nat, paused: bool)
    | Mock(vault: Address, balance: nat, rateBps: nat, paused: bool)
  {
    /** What the adapter reports it holds. */
    function TotalValue(): nat {
      match this
      case Blend(_, supplied, interest, _, _) => supplied + interest
      case Soroswap(_, principal, fees, _, _, _) => principal + fees
      case Mock(_, balance, _, _) => balance
    }

    /** Every stored amount is an `i128`, and Soroswap never records more LP shares than the
        principal that bought them. */
    predicate Valid() {
      match this
      case Blend(_, supplied, interest, _, _) => Fits(supplied) && Fits(interest)
      case Soroswap(_, principal, fees, lp, _, _) => Fits(principal) && Fits(fees) && lp <= principal
      case Mock(_, balance, _, _) => Fits(balance)
    }
  }

  function Deposit(a: State, env: Env, amount: int): (r: Result<State>)
    requires a.Valid()
    ensures r.Ok? ==> amount > 0 && r.value.Valid() && r.value.TotalValue() == a.TotalValue() + amount
  {
    if !env.Authorized(a.vault) then Err(AuthFailed) else
    :- Need(!a.paused, Paused);
    :- Need(amount > 0, ZeroAmount);
    match a
    case Blend(_, supplied, _, _, _) =>
      :- Need(Fits(supplied + amount), MathOverflow);
      Ok(a.(supplied := supplied + amount))
    case Soroswap(_, principal, _, lp, _, _) =>
      :- Need(Fits(principal + amount), MathOverflow);
      :- Need(Fits(lp + amount), Panic);
      Ok(a.(principal := principal + amount, lpShares := lp + amount))
    case Mock(_, balance, _, _) =>
      :- Need(Fits(balance + amount), MathOverflow);
      Ok(a.(balance := balance + amount))
  }

  /** The book entry of a withdrawal: it takes exactly `amount` off the reported value, out of the
      yield first. The saturating subtraction from the principal in the source never saturates. */
  function Withdraw(a: State, env: Env, amount: int): (r: Result<State>)
    requires a.Valid()
    ensures r.Ok? ==> 0 < amount <= a.TotalValue() && r.value.Valid()
    ensures r.Ok? ==> r.value.TotalValue() == a.TotalValue() - amount
    ensures r.Ok? && a.Blend? ==> r.value.Blend? && (r.value.supplied < a.supplied ==> r.value.interest == 0)
    ensures r.Ok? && a.Soroswap? ==> r.value.Soroswap? && (r.value.principal < a.principal ==> r.value.fees == 0)
  {
    if !env.Authorized(a.vault) then Err(AuthFailed) else
    :- Need(amount > 0, ZeroAmount);
    :- Need(Fits(a.TotalValue()), Panic);
    :- Need(amount <= a.TotalValue(), InsufficientBalance);
    match a
    case Blend(_, supplied, interest, _, _) =>
      var fromYield := if interest <= amount then interest else amount;
      Ok(a.(interest := interest - fromYield, supplied := supplied - (amount - fromYield)))
    case Soroswap(_, principal, fees, lp, _, _) =>
      var fromYield := if fees <= amount then fees else amount;
      Ok(a.(fees := fees - fromYield, principal := principal - (amount - fromYield),
            lpShares := if lp <= amount then 0 else lp - amount))
    case Mock(_, balance, _, _) =>
      Ok(a.(balance := balance - amount))
  }

  /** The simulated yield of one harvest. */
  function Yield(base: nat, rateBps: nat): nat { base * rateBps / 10000 }

  function Harvest(a: State, env: Env): (r: Result<(State, nat)>)
    requires a.Valid()
    ensures r.Ok? ==> r.value.0.Valid() && r.value.0.TotalValue() == a.TotalValue() + r.value.1
  {
    if !env.Authorized(a.vault) then Err(AuthFailed) else
    var base := match a
                case Blend(_, supplied, _, _, _) => supplied
                case Soroswap(_, principal, _, _, _, _) => principal
                case Mock(_, balance, _, _) => balance;
    if base == 0 || a.rateBps == 0 then Ok((a, 0))
    else
      :- Need(Fits(base * a.rateBps), Panic);
      var earned := Yield(base, a.rateBps);
      match a
      case Blend(_, _, interest, _, _) =>
        :- Need(Fits(interest + earned), MathOverflow);
        Ok((a.(interest := interest + earned), earned))
      case Soroswap(_, _, fees, _, _, _) =>
        :- Need(Fits(fees + earned), MathOverflow);
        Ok((a.(fees := fees + earned), earned))
      case Mock(_, balance, _, _) =>
        :- Need(Fits(balance + earned), MathOverflow);
        Ok((a.(balance := balance + earned), earned))
  }

  function EmergencyExit(a: State, env: Env): (r: Result<(State, nat)>)
    requires a.Valid()
    ensures r.Ok? ==> r.value.0.Valid() && r.value.0.paused && r.value.0.TotalValue() == 0
    ensures r.Ok? ==> r.value.1 == a.TotalValue()
  {
    if !env.Authorized(a.vault) then Err(AuthFailed) else
    :- Need(Fits(a.TotalValue()), Panic);
    Ok((match a
        case Blend(_, _, _, _, _) => a.(supplied := 0, interest := 0, paused := true)
        case Soroswap(_, _, _, _, _, _) => a.(principal := 0, fees := 0, lpShares := 0, paused := true)
        case Mock(_, _, _, _) => a.(balance := 0, paused := true),
        a.TotalValue()))
  }

  /** What a harvest takes its rate of, and where its yield is booked. */
  function Base(a: State): nat {
    match a
    case Blend(_, supplied, _, _, _) => supplied
    case Soroswap(_, principal, _, _, _, _) => principal
    case Mock(_, balance, _, _) => balance
  }

  function Booked(a: State): nat {
    match a
    case Blend(_, _, interest, _, _) => interest
    case Soroswap(_, _, fees, _, _, _) => fees
    case Mock(_, balance, _, _) => balance
  }

  /** Exactly when a deposit is accepted, and a pause stops it: the vault alone deposits. It adds to the principal. */
  lemma DepositedIff(a: State, env: Env, amount: int)
    requires a.Valid()
    ensures Deposit(a, env, amount).Ok? <==>
      env.Authorized(a.vault) && !a.paused && amount > 0 && Fits(Base(a) + amount)
    ensures Deposit(a, env, amount).Ok? ==>
      var a' := Deposit(a, env, amount).value;
      && Base(a') == Base(a) + amount && (!a.Mock? ==> Booked(a') == Booked(a))
      && (a.Soroswap? ==> a'.Soroswap? && a'.lpShares == a.lpShares + amount)
      && a'.vault == a.vault && a'.paused == a.paused && a'.rateBps == a.rateBps
  {
  }

  /** Exactly when a withdrawal is accepted, which a pause does not stop: the vault alone withdraws. It draws on the
      yield first, and on the principal for the rest. */
  lemma WithdrawnIff(a: State, env: Env, amount: int)
    requires a.Valid()
    ensures Withdraw(a, env, amount).Ok? <==>
      env.Authorized(a.vault) && 0 < amount <= a.TotalValue() && Fits(a.TotalValue())
    ensures Withdraw(a, env, amount).Ok? ==>
      var a' := Withdraw(a, env, amount).value;
      && (!a.Mock? && amount <= Booked(a) ==> Base(a') == Base(a) && Booked(a') == Booked(a) - amount)
      && (!a.Mock? && amount > Booked(a) ==> Base(a') == Base(a) + Booked(a) - amount && Booked(a') == 0)
      && (a.Soroswap? ==> a'.Soroswap? && a'.lpShares == if amount <= a.lpShares then a.lpShares - amount else 0)
      && a'.vault == a.vault && a'.paused == a.paused && a'.rateBps == a.rateBps
  {
  }

  /** Exactly when a harvest is accepted, and what it books: the rate's share of the base, less than one unit off and
      never more. The vault alone harvests, and the base stays as it is but for the mock, which keeps one balance. */
  lemma HarvestedIff(a: State, env: Env, earned: nat)
    requires a.Valid() && earned * 10000 <= Base(a) * a.rateBps < (earned + 1) * 10000
    ensures Harvest(a, env).Ok? <==> env.Authorized(a.vault) && Fits(Base(a) * a.rateBps)
                                     && Fits(Booked(a) + earned)
    ensures Harvest(a, env).Ok? ==>
      var (a', x) := Harvest(a, env).value;
      && x == earned && Booked(a') == Booked(a) + earned && (!a.Mock? ==> Base(a') == Base(a))
      && a'.vault == a.vault && a'.paused == a.paused && a'.rateBps == a.rateBps
  {
    if Base(a) == 0 || a.rateBps == 0 { assert Base(a) * a.rateBps == 0; }
  }

  /** Exactly when an exit is accepted: the vault alone exits. */
  lemma ExitedIff(a: State, env: Env)
    requires a.Valid()
    ensures EmergencyExit(a, env).Ok? <==> env.Authorized(a.vault) && Fits(a.TotalValue())
    ensures EmergencyExit(a, env).Ok? ==>
      var a' := EmergencyExit(a, env).value.0;
      && Base(a') == 0 && Booked(a') == 0 && a'.paused && a'.vault == a.vault && a'.rateBps == a.rateBps
  {
  }
}

/** The contracts that store these states. Each pays the vault out of its own asset balance. */
module AdapterContracts {
  import opened Soroban
  import opened Adapters
  import Asset
  import opened AssetContract

  class BlendAdapter {
    const self: Address
    const vault: Address
    const asset: StellarAsset
    var suppliedPrincipal: nat
    var accruedInterest: nat
    var lendingRateBps: nat
    var paused: bool

    constructor (self: Address, vault: Address, asset: StellarAsset, rateBps: nat)
      ensures this.self == self && this.asset == asset && Value() == Blend(vault, 0, 0, rateBps, false)
    {
      this.self, this.vault, this.asset := self, vault, asset;
      suppliedPrincipal, accruedInterest, lendingRateBps, paused := 0, 0, rateBps, false;
    }

    function Value(): State
      reads this
    {
      Blend(vault, suppliedPrincipal, accruedInterest, lendingRateBps, paused)
    }

    method Deposit(env: Env, amount: int) returns (r: Result<()>)
      requires Value().Valid()
      modifies this
      ensures match Adapters.Deposit(old(Value()), env, amount)
              case Ok(a) => r.Ok? && Value() == a
              case Err(e) => r == Err(e)
    {
      if !env.Authorized(vault) { return Err(AuthFailed); }
      if paused { return Err(Paused); }
      if amount <= 0 { return Err(ZeroAmount); }
      var newPrincipal := suppliedPrincipal + amount;
      if !Fits(newPrincipal) { return Err(MathOverflow); }
      suppliedPrincipal := newPrincipal;
      return Ok(());
    }

    method Withdraw(env: Env, amount: int) returns (r: Result<nat>)
      requires Value().Valid()
      modifies this, asset
      ensures match Adapters.Withdraw(old(Value()), env, amount)
              case Err(e) => r == Err(e)
              case Ok(a) =>
                match Asset.Transfer(old(asset.balances), env.CallFrom(self), self, vault, amount)
                case Ok(b) => r == Ok(amount) && Value() == a && asset.balances == b
                case Err(e) => r == Err(e)
    {
      if !env.Authorized(vault) { return Err(AuthFailed); }
      if amount <= 0 { return Err(ZeroAmount); }
      var total := suppliedPrincipal + accruedInterest;
      if !Fits(total) { return Err(Panic); }
      if total < amount { return Err(InsufficientBalance); }
      if accruedInterest >= amount {
        accruedInterest := accruedInterest - amount;
      } else {
        var remainder := amount - accruedInterest;
        accruedInterest := 0;
        var newPrincipal: int := if suppliedPrincipal < remainder then 0 else suppliedPrincipal - remainder;
        suppliedPrincipal := newPrincipal;
      }
      var sent := asset.Transfer(env.CallFrom(self), self, vault, amount);
      if sent.Err? { return Err(sent.error); }
      return Ok(amount);
    }

    method Harvest(env: Env) returns (r: Result<nat>)
      requires Value().Valid()
      modifies this
      ensures match Adapters.Harvest(old(Value()), env)
              case Ok((a, earned)) => r == Ok(earned) && Value() == a
              case Err(e) => r == Err(e)
    {
      if !env.Authorized(vault) { return Err(AuthFailed); }
      if suppliedPrincipal == 0 || lendingRateBps == 0 { return Ok(0); }
      if !Fits(suppliedPrincipal * lendingRateBps) { return Err(Panic); }
      var yieldGenerated := Yield(suppliedPrincipal, lendingRateBps);
      var newInterest := accruedInterest + yieldGenerated;
      if !Fits(newInterest) { return Err(MathOverflow); }
      accruedInterest := newInterest;
      return Ok(yieldGenerated);
    }

    method EmergencyExit(env: Env) returns (r: Result<nat>)
      requires Value().Valid()
      modifies this, asset
      ensures match Adapters.EmergencyExit(old(Value()), env)
              case Err(e) => r == Err(e)
              case Ok((a, total)) =>
                if total == 0 then r == Ok(0) && Value() == a && asset.balances == old(asset.balances)
                else match Asset.Transfer(old(asset.balances), env.CallFrom(self), self, vault, total)
                     case Ok(b) => r == Ok(total) && Value() == a && asset.balances == b
                     case Err(e) => r == Err(e)
    {
      if !env.Authorized(vault) { return Err(AuthFailed); }
      var total := suppliedPrincipal + accruedInterest;
      if !Fits(total) { return Err(Panic); }
      suppliedPrincipal, accruedInterest, paused := 0, 0, true;
      if total > 0 {
        var sent := asset.Transfer(env.CallFrom(self), self, vault, total);
        if sent.Err? { return Err(sent.error); }
      }
      return Ok(total);
    }
  }

  class SoroswapAdapter {
    const self: Address
    const vault: Address
    const asset: StellarAsset
    var lpSharesBalance: nat
    var principalValue: nat
    var accruedSwapFees: nat
    var feeAprBps: nat
    var paused: bool

    constructor (self: Address, vault: Address, asset: StellarAsset, rateBps: nat)
      ensures this.self == self && this.asset == asset && Value() == Soroswap(vault, 0, 0, 0, rateBps, false)
    {
      this.self, this.vault, this.asset := self, vault, asset;
      lpSharesBalance, principalValue, accruedSwapFees, feeAprBps, paused := 0, 0, 0, rateBps, false;
    }

    function Value(): State
      reads this
    {
      Soroswap(vault, principalValue, accruedSwapFees, lpSharesBalance, feeAprBps, paused)
    }

    method Deposit(env: Env, amount: int) returns (r: Result<()>)
      requires Value().Valid()
      modifies this
      ensures match Adapters.Deposit(old(Value()), env, amount)
              case Ok(a) => r.Ok? && Value() == a
              case Err(e) => r == Err(e)
    {
      if !env.Authorized(vault) { return Err(AuthFailed); }
      if paused { return Err(Paused); }
      if amount <= 0 { return Err(ZeroAmount); }
      var newPrincipal := principalValue + amount;
      if !Fits(newPrincipal) { return Err(MathOverflow); }
      principalValue := newPrincipal;
      if !Fits(lpSharesBalance + amount) { return Err(Panic); }
      lpSharesBalance := lpSharesBalance + amount;
      return Ok(());
    }

    method Withdraw(env: Env, amount: int) returns (r: Result<nat>)
      requires Value().Valid()
      modifies this, asset
      ensures match Adapters.Withdraw(old(Value()), env, amount)
              case Err(e) => r == Err(e)
              case Ok(a) =>
                match Asset.Transfer(old(asset.balances), env.CallFrom(self), self, vault, amount)
                case Ok(b) => r == Ok(amount) && Value() == a && asset.balances == b
                case Err(e) => r == Err(e)
    {
      if !env.Authorized(vault) { return Err(AuthFailed); }
      if amount <= 0 { return Err(ZeroAmount); }
      var total := principalValue + accruedSwapFees;
      if !Fits(total) { return Err(Panic); }
      if total < amount { return Err(InsufficientBalance); }
      if accruedSwapFees >= amount {
        accruedSwapFees := accruedSwapFees - amount;
      } else {
        var remainder := amount - accruedSwapFees;
        accruedSwapFees := 0;
        var newPrincipal: int := if principalValue < remainder then 0 else principalValue - remainder;
        principalValue := newPrincipal;
      }
      lpSharesBalance := if lpSharesBalance < amount then 0 else lpSharesBalance - amount;
      var sent := asset.Transfer(env.CallFrom(self), self, vault, amount);
      if sent.Err? { return Err(sent.error); }
      return Ok(amount);
    }

    method Harvest(env: Env) returns (r: Result<nat>)
      requires Value().Valid()
      modifies this
      ensures match Adapters.Harvest(old(Value()), env)
              case Ok((a, earned)) => r == Ok(earned) && Value() == a
              case Err(e) => r == Err(e)
    {
      if !env.Authorized(vault) { return Err(AuthFailed); }
      if principalValue == 0 || feeAprBps == 0 { return Ok(0); }
      if !Fits(principalValue * feeAprBps) { return Err(Panic); }
      var feesGenerated := Yield(principalValue, feeAprBps);
      var newFees := accruedSwapFees + feesGenerated;
      if !Fits(newFees) { return Err(MathOverflow); }
      accruedSwapFees := newFees;
      return Ok(feesGenerated);
    }

    method EmergencyExit(env: Env) returns (r: Result<nat>)
      requires Value().Valid()
      modifies this, asset
      ensures match Adapters.EmergencyExit(old(Value()), env)
              case Err(e) => r == Err(e)
              case Ok((a, total)) =>
                if total == 0 then r == Ok(0) && Value() == a && asset.balances == old(asset.balances)
                else match Asset.Transfer(old(asset.balances), env.CallFrom(self), self, vault, total)
                     case Ok(b) => r == Ok(total) && Value() == a && asset.balances == b
                     case Err(e) => r == Err(e)
    {
      if !env.Authorized(vault) { return Err(AuthFailed); }
      var total := principalValue + accruedSwapFees;
      if !Fits(total) { return Err(Panic); }
      principalValue, accruedSwapFees, lpSharesBalance, paused := 0, 0, 0, true;
      if total > 0 {
        var sent := asset.Transfer(env.CallFrom(self), self, vault, total);
        if sent.Err? { return Err(sent.error); }
      }
      return Ok(total);
    }
  }

  class MockStrategy {
    const self: Address
    const vault: Address
    const asset: StellarAsset
    var balance: nat
    var yieldRateBps: nat
    var paused: bool

    constructor (self: Address, vault: Address, asset: StellarAsset, rateBps: nat)
      ensures this.self == self && this.asset == asset && Value() == Mock(vault, 0, rateBps, false)
    {
      this.self, this.vault, this.asset := self, vault, asset;
      balance, yieldRateBps, paused := 0, rateBps, false;
    }

    function Value(): State
      reads this
    {
      Mock(vault, balance, yieldRateBps, paused)
    }

    method Deposit(env: Env, amount: int) returns (r: Result<()>)
      requires Value().Valid()
      modifies this
      ensures match Adapters.Deposit(old(Value()), env, amount)
              case Ok(a) => r.Ok? && Value() == a
              case Err(e) => r == Err(e)
    {
      if !env.Authorized(vault) { return Err(AuthFailed); }
      if paused { return Err(Paused); }
      if amount <= 0 { return Err(ZeroAmount); }
      var newBal := balance + amount;
      if !Fits(newBal) { return Err(MathOverflow); }
      balance := newBal;
      return Ok(());
    }

    method Withdraw(env: Env, amount: int) returns (r: Result<nat>)
      requires Value().Valid()
      modifies this, asset
      ensures match Adapters.Withdraw(old(Value()), env, amount)
              case Err(e) => r == Err(e)
              case Ok(a) =>
                match Asset.Transfer(old(asset.balances), env.CallFrom(self), self, vault, amount)
                case Ok(b) => r == Ok(amount) && Value() == a && asset.balances == b
                case Err(e) => r == Err(e)
    {
      if !env.Authorized(vault) { return Err(AuthFailed); }
      if amount <= 0 { return Err(ZeroAmount); }
      if balance < amount { return Err(InsufficientBalance); }
      balance := balance - amount;
      var sent := asset.Transfer(env.CallFrom(self), self, vault, amount);
      if sent.Err? { return Err(sent.error); }
      return Ok(amount);
    }

    method Harvest(env: Env) returns (r: Result<nat>)
      requires Value().Valid()
      modifies this
      ensures match Adapters.Harvest(old(Value()), env)
              case Ok((a, earned)) => r == Ok(earned) && Value() == a
              case Err(e) => r == Err(e)
    {
      if !env.Authorized(vault) { return Err(AuthFailed); }
      if balance == 0 || yieldRateBps == 0 { return Ok(0); }
      if !Fits(balance * yieldRateBps) { return Err(Panic); }
      var yieldGenerated := Yield(balance, yieldRateBps);
      var newBal := balance + yieldGenerated;
      if !Fits(newBal) { return Err(MathOverflow); }
      balance := newBal;
      return Ok(yieldGenerated);
    }

    method EmergencyExit(env: Env) returns (r: Result<nat>)
      requires Value().Valid()
      modifies this, asset
      ensures match Adapters.EmergencyExit(old(Value()), env)
              case Err(e) => r == Err(e)
              case Ok((a, total)) =>
                if total == 0 then r == Ok(0) && Value() == a && asset.balances == old(asset.balances)
                else match Asset.Transfer(old(asset.balances), env.CallFrom(self), self, vault, total)
                     case Ok(b) => r == Ok(total) && Value() == a && asset.balances == b
                     case Err(e) => r == Err(e)
    {
      if !env.Authorized(vault) { return Err(AuthFailed); }
      var current := balance;
      balance, paused := 0, true;
      if current > 0 {
        var sent := asset.Transfer(env.CallFrom(self), self, vault, current);
        if sent.Err? { return Err(sent.error); }
      }
      return Ok(current);
    }
  }

  /** Whichever of the three contracts stands at an address: a call goes to that one. */
  datatype Adapter = AtBlend(blend: BlendAdapter) | AtSoroswap(soroswap: SoroswapAdapter) | AtMock(mock: MockStrategy) {
    function Object(): object {
      match this
      case AtBlend(blend) => blend
      case AtSoroswap(soroswap) => soroswap
      case AtMock(mock) => mock
    }

    function Self(): Address {
      match this
      case AtBlend(blend) => blend.self
      case AtSoroswap(soroswap) => soroswap.self
      case AtMock(mock) => mock.self
    }

    function Underlying(): StellarAsset {
      match this
      case AtBlend(blend) => blend.asset
      case AtSoroswap(soroswap) => soroswap.asset
      case AtMock(mock) => mock.asset
    }

    function Value(): State
      reads Object()
    {
      match this
      case AtBlend(blend) => blend.Value()
      case AtSoroswap(soroswap) => soroswap.Value()
      case AtMock(mock) => mock.Value()
    }

    method Deposit(env: Env, amount: int) returns (r: Result<()>)
      requires Value().Valid()
      modifies Object()
      ensures match Adapters.Deposit(old(Value()), env, amount)
              case Ok(a) => r.Ok? && Value() == a
              case Err(e) => r == Err(e)
    {
      match this {
        case AtBlend(blend) => r := blend.Deposit(env, amount);
        case AtSoroswap(soroswap) => r := soroswap.Deposit(env, amount);
        case AtMock(mock) => r := mock.Deposit(env, amount);
      }
    }

    method Withdraw(env: Env, amount: int) returns (r: Result<nat>)
      requires Value().Valid()
      modifies Object(), Underlying()
      ensures match Adapters.Withdraw(old(Value()), env, amount)
              case Err(e) => r == Err(e)
              case Ok(a) =>
                match Asset.Transfer(old(Underlying().balances), env.CallFrom(Self()),
                                     Self(), old(Value()).vault, amount)
                case Ok(b) => r == Ok(amount) && Value() == a && Underlying().balances == b
                case Err(e) => r == Err(e)
    {
      match this {
        case AtBlend(blend) => r := blend.Withdraw(env, amount);
        case AtSoroswap(soroswap) => r := soroswap.Withdraw(env, amount);
        case AtMock(mock) => r := mock.Withdraw(env, amount);
      }
    }

    method EmergencyExit(env: Env) returns (r: Result<nat>)
      requires Value().Valid()
      modifies Object(), Underlying()
      ensures match Adapters.EmergencyExit(old(Value()), env)
              case Err(e) => r == Err(e)
              case Ok((a, total)) =>
                if total == 0 then r == Ok(0) && Value() == a && Underlying().balances == old(Underlying().balances)
                else match Asset.Transfer(old(Underlying().balances), env.CallFrom(Self()),
                                          Self(), old(Value()).vault, total)
                     case Ok(b) => r == Ok(total) && Value() == a && Underlying().balances == b
                     case Err(e) => r == Err(e)
    {
      match this {
        case AtBlend(blend) => r := blend.EmergencyExit(env);
        case AtSoroswap(soroswap) => r := soroswap.EmergencyExit(env);
        case AtMock(mock) => r := mock.EmergencyExit(env);
      }
    }
  }
}
