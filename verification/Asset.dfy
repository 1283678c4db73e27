/** The underlying asset: a Stellar Asset Contract, which belongs to the host and not to this
    repository. Only the `transfer` the contracts call is modelled, as SEP-41 describes it. */
module Asset {
  import opened Soroban
  import opened Balances

  function Transfer(b: Book, env: Env, from: Address, to: Address, amount: int): (r: Result<Book>)
  {
    if !env.Authorized(from) then Err(AuthFailed) else
    :- Need(amount >= 0, Panic);
    :- Need(amount <= Get(b, from), InsufficientBalance);
    :- Need(Fits(Get(Spend(b, from, amount), to) + amount), Panic);
    Ok(Move(b, from, to, amount))
  }
}

module AssetContract {
  import opened Soroban
  import opened Balances
  import Asset

  class StellarAsset {
    var balances: Book

    constructor (balances: Book)
      ensures this.balances == balances
    {
      this.balances := balances;
    }

    method Transfer(env: Env, from: Address, to: Address, amount: int) returns (r: Result<()>)
      modifies this
      ensures match Asset.Transfer(old(balances), env, from, to, amount)
              case Ok(b) => r.Ok? && balances == b
              case Err(e) => r == Err(e)
    {
      if !env.Authorized(from) { return Err(AuthFailed); }
      if amount < 0 { return Err(Panic); }
      if Get(balances, from) < amount { return Err(InsufficientBalance); }
      balances := Spend(balances, from, amount);
      if !Fits(Get(balances, to) + amount) { return Err(Panic); }
      balances := Receive(balances, to, amount);
      return Ok(());
    }
  }
}
