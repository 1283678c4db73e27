/** The hXLM share token: the state each entry point leaves behind, and the contract itself. */
module Token {
  import opened Soroban
  import opened Balances

  datatype Allowance = Allowance(amount: int, liveUntil: nat)

  datatype State = State(admin: Address, vault: Address, balances: Book, supply: nat,
                         allowances: map<(Address, Address), Allowance>) {
    /** No share exists outside a holder's balance, and no empty balance is stored. */
    ghost predicate Valid() {
      Sum(balances) == supply && forall a :: a in balances ==> balances[a] > 0
    }
  }

  function Moved(s: State, from: Address, to: Address, amount: int): (r: Result<State>)
    requires s.Valid()
    ensures r.Ok? ==> r.value.Valid() && r.value.supply == s.supply
  {
    if amount <= 0 then Err(Panic) else
    :- Need(amount <= Get(s.balances, from), Panic);
    :- Need(Fits(Get(Spend(s.balances, from, amount), to) + amount), Panic);
    SumMove(s.balances, from, to, amount);
    Ok(s.(balances := Move(s.balances, from, to, amount)))
  }

  function Transfer(s: State, env: Env, from: Address, to: Address, amount: int): (r: Result<State>)
    requires s.Valid()
    ensures r.Ok? ==> r.value.Valid() && r.value.supply == s.supply
  {
    if !env.Authorized(from) then Err(AuthFailed) else
    Moved(s, from, to, amount)
  }

  /** The allowance a spender can still use at this ledger. */
  function Usable(s: State, env: Env, from: Address, spender: Address): int {
    if (from, spender) in s.allowances && env.ledger <= s.allowances[(from, spender)].liveUntil
    then s.allowances[(from, spender)].amount else 0
  }

  function TransferFrom(s: State, env: Env, spender: Address, from: Address, to: Address, amount: int)
      : (r: Result<State>)
    requires s.Valid()
    ensures r.Ok? ==> r.value.Valid() && r.value.supply == s.supply
  {
    if !env.Authorized(spender) then Err(AuthFailed) else
    :- Need(amount > 0, Panic);
    :- Need(amount <= Usable(s, env, from, spender), Panic);
    var left := s.allowances[(from, spender)].(amount := Usable(s, env, from, spender) - amount);
    Moved(s.(allowances := s.allowances[(from, spender) := left]), from, to, amount)
  }

  function Approve(s: State, env: Env, from: Address, spender: Address, amount: int, liveUntil: nat): (r: Result<State>)
    requires s.Valid()
    ensures r.Ok? ==> r.value.Valid() && r.value.supply == s.supply
  {
    if !env.Authorized(from) then Err(AuthFailed) else
    :- Need(amount >= 0, Panic);
    Ok(s.(allowances := s.allowances[(from, spender) := Allowance(amount, liveUntil)]))
  }

  function Mint(s: State, env: Env, to: Address, amount: int): (r: Result<State>)
    requires s.Valid()
    ensures r.Ok? ==> r.value.Valid() && r.value.supply == s.supply + amount
  {
    if !env.Authorized(s.vault) then Err(AuthFailed) else
    :- Need(amount > 0, Panic);
    :- Need(Fits(s.supply + amount), Panic);
    :- Need(Fits(Get(s.balances, to) + amount), Panic);
    SumReceive(s.balances, to, amount);
    Ok(s.(balances := Receive(s.balances, to, amount), supply := s.supply + amount))
  }

  function Burn(s: State, env: Env, from: Address, amount: int): (r: Result<State>)
    requires s.Valid()
    ensures r.Ok? ==> r.value.Valid() && r.value.supply == s.supply - amount
  {
    if !env.Authorized(s.vault) then Err(AuthFailed) else
    :- Need(amount > 0, Panic);
    :- Need(Fits(s.supply - amount), Panic);
    :- Need(amount <= Get(s.balances, from), Panic);
    GetAtMostSum(s.balances, from);
    SumSpend(s.balances, from, amount);
    Ok(s.(balances := Spend(s.balances, from, amount), supply := s.supply - amount))
  }

  datatype Call =
    | CallTransfer(from: Address, to: Address, amount: int)
    | CallTransferFrom(spender: Address, from: Address, to: Address, amount: int)
    | CallApprove(from: Address, spender: Address, amount: int, liveUntil: nat)
    | CallMint(to: Address, amount: int)
    | CallBurn(from: Address, amount: int)

  /** A call made directly on the token. Without the vault's authorization it leaves the supply alone. */
  function Execute(s: State, env: Env, call: Call): (r: Result<State>)
    requires s.Valid()
    ensures r.Ok? ==> r.value.Valid() && r.value.vault == s.vault
    ensures r.Ok? && !env.Authorized(s.vault) ==> r.value.supply == s.supply && !call.CallMint? && !call.CallBurn?
  {
    match call
    case CallTransfer(from, to, amount) => Transfer(s, env, from, to, amount)
    case CallTransferFrom(spender, from, to, amount) => TransferFrom(s, env, spender, from, to, amount)
    case CallApprove(from, spender, amount, liveUntil) => Approve(s, env, from, spender, amount, liveUntil)
    case CallMint(to, amount) => Mint(s, env, to, amount)
    case CallBurn(from, amount) => Burn(s, env, from, amount)
  }

  /** What a holder can lose, and how: by a transfer it authorized, by one of a spender it approved, up
      to what that spender may still use, or by a burn of the vault. */
  lemma LosesOnlyByConsent(s: State, env: Env, call: Call, a: Address)
    requires s.Valid() && Execute(s, env, call).Ok?
    requires Get(Execute(s, env, call).value.balances, a) < Get(s.balances, a)
    ensures var lost := Get(s.balances, a) - Get(Execute(s, env, call).value.balances, a);
            || (call.CallTransfer? && call.from == a && env.Authorized(a) && lost == call.amount)
            || (call.CallTransferFrom? && call.from == a && env.Authorized(call.spender)
                && lost == call.amount <= Usable(s, env, a, call.spender))
            || (call.CallBurn? && call.from == a && env.Authorized(s.vault) && lost == call.amount)
  {
  }

  /** A transfer changes the balances of its two ends by the amount, and nobody else's. */
  lemma TransferOnlyTouchesBothEnds(s: State, env: Env, from: Address, to: Address, amount: int, a: Address)
    requires s.Valid() && Transfer(s, env, from, to, amount).Ok?
    ensures var b' := Transfer(s, env, from, to, amount).value.balances;
            && env.Authorized(from)
            && (from == to ==> Get(b', a) == Get(s.balances, a))
            && (from != to ==> Get(b', a) == Get(s.balances, a) + (if a == to then amount else 0)
                                             - (if a == from then amount else 0))
  {
  }

  // Who may do what, and to what extent

  /** Exactly when a transfer of one's own shares goes through. */
  lemma TransferredIff(s: State, env: Env, from: Address, to: Address, amount: int)
    requires s.Valid()
    ensures Transfer(s, env, from, to, amount).Ok? <==>
      && env.Authorized(from) && 0 < amount <= Get(s.balances, from)
      && (from != to ==> Fits(Get(s.balances, to) + amount)) && (from == to ==> Fits(Get(s.balances, to)))
  {
  }

  /** Exactly when a spender's transfer goes through: it signs, and the holder's grant is alive and large enough. */
  lemma TransferredFromIff(s: State, env: Env, spender: Address, from: Address, to: Address, amount: int)
    requires s.Valid()
    ensures TransferFrom(s, env, spender, from, to, amount).Ok? <==>
      && env.Authorized(spender) && 0 < amount <= Get(s.balances, from)
      && (from, spender) in s.allowances && amount <= s.allowances[(from, spender)].amount
      && env.ledger <= s.allowances[(from, spender)].liveUntil
      && (from != to ==> Fits(Get(s.balances, to) + amount)) && (from == to ==> Fits(Get(s.balances, to)))
  {
  }

  /** It uses up the grant by just what it moves, and no other grant. */
  lemma TransferFromUsesUp(s: State, env: Env, spender: Address, from: Address, to: Address, amount: int,
                           holder: Address, other: Address)
    requires s.Valid() && TransferFrom(s, env, spender, from, to, amount).Ok?
    ensures var s' := TransferFrom(s, env, spender, from, to, amount).value;
            && Usable(s', env, holder, other) == Usable(s, env, holder, other)
                 - (if holder == from && other == spender then amount else 0)
            && Get(s'.balances, holder) == Get(s.balances, holder)
                 + (if holder == to then amount else 0) - (if holder == from then amount else 0)
  {
  }

  /** What a spender may still use from some ledger on, and later if the grant lives that long. */
  function Granted(s: State, from: Address, spender: Address, ledger: nat): nat {
    if (from, spender) in s.allowances && ledger <= s.allowances[(from, spender)].liveUntil
       && s.allowances[(from, spender)].amount > 0
    then s.allowances[(from, spender)].amount else 0
  }

  /** What the holder grants the spender in a call that goes through. */
  function NewlyGranted(s: State, env: Env, call: Call, from: Address, spender: Address): nat
    requires s.Valid()
  {
    if call.CallApprove? && call.from == from && call.spender == spender && Execute(s, env, call).Ok? && call.amount > 0
    then call.amount else 0
  }

  /** What the spender takes from the holder in a call that goes through. */
  function Taken(s: State, env: Env, call: Call, from: Address, spender: Address): nat
    requires s.Valid()
  {
    if call.CallTransferFrom? && call.from == from && call.spender == spender && Execute(s, env, call).Ok?
       && call.amount > 0
    then call.amount else 0
  }

  type Run = seq<(Env, Call)>

  /** A failing call leaves no trace. */
  function Step(s: State, env: Env, call: Call): (s': State)
    requires s.Valid()
    ensures s'.Valid()
  {
    match Execute(s, env, call)
    case Ok(s') => s'
    case Err(_) => s
  }

  function GrantedOver(s: State, run: Run, from: Address, spender: Address): nat
    requires s.Valid()
    decreases run
  {
    if run == [] then 0
    else NewlyGranted(s, run[0].0, run[0].1, from, spender)
         + GrantedOver(Step(s, run[0].0, run[0].1), run[1..], from, spender)
  }

  function TakenOver(s: State, run: Run, from: Address, spender: Address): nat
    requires s.Valid()
    decreases run
  {
    if run == [] then 0
    else Taken(s, run[0].0, run[0].1, from, spender) + TakenOver(Step(s, run[0].0, run[0].1), run[1..], from, spender)
  }

  lemma StepTakesFromTheGrant(s: State, env: Env, call: Call, from: Address, spender: Address, ledger: nat)
    requires s.Valid() && ledger <= env.ledger
    ensures Taken(s, env, call, from, spender) + Granted(Step(s, env, call), from, spender, ledger)
         <= Granted(s, from, spender, ledger) + NewlyGranted(s, env, call, from, spender)
  {
  }

  /** Over any run, all that a spender takes from a holder is at most the grant at the start and what the holder
      granted since; without a new grant, the grant at the start. */
  lemma {:induction false} TakesAtMostTheGrant(s: State, run: Run, from: Address, spender: Address, ledger: nat)
    requires s.Valid() && forall i :: 0 <= i < |run| ==> ledger <= run[i].0.ledger
    ensures TakenOver(s, run, from, spender)
         <= Granted(s, from, spender, ledger) + GrantedOver(s, run, from, spender)
    ensures (forall i :: 0 <= i < |run| ==>
               !(run[i].1.CallApprove? && run[i].1.from == from && run[i].1.spender == spender)) ==>
      TakenOver(s, run, from, spender) <= Granted(s, from, spender, ledger)
    decreases run
  {
    if run != [] {
      StepTakesFromTheGrant(s, run[0].0, run[0].1, from, spender, ledger);
      TakesAtMostTheGrant(Step(s, run[0].0, run[0].1), run[1..], from, spender, ledger);
    }
  }

  /** All that a holder has granted and that is alive at a ledger, spender by spender. */
  function Grants(s: State, from: Address, ledger: nat): (grants: Book)
    ensures forall a :: a in grants ==> grants[a] > 0
  {
    map a | a in Spenders(s, from) && Granted(s, from, a, ledger) > 0 :: Granted(s, from, a, ledger)
  }

  function Spenders(s: State, from: Address): set<Address> {
    set key | key in s.allowances && key.0 == from :: key.1
  }

  /** What is left to a holder once everybody has used up what it granted them. */
  ghost function Ungranted(s: State, holder: Address, ledger: nat): int {
    Get(s.balances, holder) as int - Sum(Grants(s, holder, ledger))
  }

  lemma SameGrantsKeep(s: State, s': State, holder: Address, ledger: nat)
    requires s'.allowances == s.allowances && Get(s.balances, holder) <= Get(s'.balances, holder)
    ensures Ungranted(s, holder, ledger) <= Ungranted(s', holder, ledger)
  {
    SameGrants(s, s', holder, ledger);
  }

  lemma GrantsAre(s: State, from: Address, spender: Address, ledger: nat)
    ensures Get(Grants(s, from, ledger), spender) == Granted(s, from, spender, ledger)
  {
    if Granted(s, from, spender, ledger) > 0 { assert (from, spender) in s.allowances; }
  }

  /** A call that a holder did not sign takes from its balance no more than from what it has granted. */
  lemma UnsignedStepTakesFromGrants(s: State, env: Env, call: Call, holder: Address, ledger: nat)
    requires s.Valid() && ledger <= env.ledger && !env.Authorized(holder) && !env.Authorized(s.vault)
    ensures Ungranted(s, holder, ledger) <= Ungranted(Step(s, env, call), holder, ledger)
  {
    var s' := Step(s, env, call);
    if call.CallTransferFrom? && call.from == holder && Execute(s, env, call).Ok? {
      TransferFromUsesUp(s, env, call.spender, holder, call.to, call.amount, holder, call.spender);
      GrantUsed(s, s', holder, call.spender, ledger, call.amount);
    } else {
      assert forall spender :: Granted(s', holder, spender, ledger) == Granted(s, holder, spender, ledger);
      SameGrants(s, s', holder, ledger);
      if Get(s'.balances, holder) < Get(s.balances, holder) { LosesOnlyByConsent(s, env, call, holder); }
    }
  }

  lemma SameGrants(s: State, s': State, from: Address, ledger: nat)
    requires forall spender :: Granted(s', from, spender, ledger) == Granted(s, from, spender, ledger)
    ensures Grants(s', from, ledger) == Grants(s, from, ledger)
  {
    forall a ensures Get(Grants(s', from, ledger), a) == Get(Grants(s, from, ledger), a) {
      GrantsAre(s, from, a, ledger);
      GrantsAre(s', from, a, ledger);
    }
    SameBook(Grants(s', from, ledger), Grants(s, from, ledger));
  }

  lemma GrantUsed(s: State, s': State, from: Address, spender: Address, ledger: nat, x: nat)
    requires x <= Granted(s, from, spender, ledger)
    requires forall a :: Granted(s', from, a, ledger)
                       == Granted(s, from, a, ledger) - (if a == spender then x else 0)
    ensures Sum(Grants(s', from, ledger)) == Sum(Grants(s, from, ledger)) - x
  {
    var b, b' := Grants(s, from, ledger), Grants(s', from, ledger);
    GrantsAre(s, from, spender, ledger);
    forall a ensures Get(b', a) == Get(b, a) - (if a == spender then x else 0) {
      GrantsAre(s, from, a, ledger);
      GrantsAre(s', from, a, ledger);
    }
    UsedUp(b, b', spender, x);
  }

  lemma UsedUp(b: Book, b': Book, a: Address, x: nat)
    requires x <= Get(b, a) && forall k :: Get(b', k) == Get(b, k) - (if k == a then x else 0)
    requires (forall k :: k in b ==> b[k] > 0) && forall k :: k in b' ==> b'[k] > 0
    ensures Sum(b') == Sum(b) - x
  {
    if x > 0 {
      SumSpend(b, a, x);
      SameBook(b', Spend(b, a, x));
    } else {
      SameBook(b', b);
    }
  }

  lemma SameBook(b: Book, b': Book)
    requires forall a :: Get(b, a) == Get(b', a)
    requires (forall a :: a in b ==> b[a] > 0) && forall a :: a in b' ==> b'[a] > 0
    ensures b == b'
  {
    forall a ensures a in b <==> a in b' { assert Get(b, a) == Get(b', a); }
    assert b.Keys == b'.Keys;
    forall a | a in b ensures b[a] == b'[a] { assert Get(b, a) == Get(b', a); }
  }

  /** Exactly when the vault's mint and burn go through, and what a grant leaves behind. */
  lemma MintedIff(s: State, env: Env, to: Address, amount: int)
    requires s.Valid()
    ensures Mint(s, env, to, amount).Ok? <==> env.Authorized(s.vault) && 0 < amount && Fits(s.supply + amount)
                                              && Fits(Get(s.balances, to) + amount)
    ensures Mint(s, env, to, amount).Ok? ==> forall a :: Get(Mint(s, env, to, amount).value.balances, a)
                                                  == Get(s.balances, a) + if a == to then amount else 0
  {
  }

  lemma BurntIff(s: State, env: Env, from: Address, amount: int)
    requires s.Valid()
    ensures Burn(s, env, from, amount).Ok? <==> env.Authorized(s.vault) && 0 < amount <= Get(s.balances, from)
                                                && Fits(s.supply - amount)
    ensures Burn(s, env, from, amount).Ok? ==> forall a :: Get(Burn(s, env, from, amount).value.balances, a)
                                                    == Get(s.balances, a) - if a == from then amount else 0
  {
  }

  /** A grant replaces the one before it, only for its pair, and only its holder can make it. */
  lemma ApprovedIff(s: State, env: Env, from: Address, spender: Address, amount: int, liveUntil: nat,
                    holder: Address, other: Address, ledger: nat)
    requires s.Valid()
    ensures var r := Approve(s, env, from, spender, amount, liveUntil);
            && (r.Ok? <==> env.Authorized(from) && 0 <= amount)
            && (r.Ok? ==>
                  && r.value.balances == s.balances
                  && Granted(r.value, holder, other, ledger)
                      == if holder != from || other != spender then Granted(s, holder, other, ledger)
                         else if ledger <= liveUntil then amount else 0)
  {
  }
}

/** The contract that stores this state. */
module TokenContract {
  import opened Soroban
  import opened Balances
  import opened Token

  /** A call that returns `Err` leaves the storage as it happens to be at that point: the host
      discards it, as `Vault.Step` does. */
  class HikariToken {
    const admin: Address
    const vault: Address
    var balances: Book
    var totalSupply: int
    var allowances: map<(Address, Address), Allowance>

    constructor (admin: Address, vault: Address)
      ensures IsWellFormed() && Value() == State(admin, vault, map[], 0, map[])
    {
      this.admin, this.vault := admin, vault;
      balances, totalSupply, allowances := map[], 0, map[];
    }

    ghost predicate IsWellFormed() reads this {
      totalSupply >= 0 && Value().Valid()
    }

    ghost function Value(): State
      reads this
    {
      State(admin, vault, balances, if totalSupply >= 0 then totalSupply else 0, allowances)
    }

    method SpendBalance(id: Address, amount: nat) returns (r: Result<()>)
      modifies this`balances
      ensures r == if amount <= Get(old(balances), id) then Ok(()) else Err(Panic)
      ensures r.Ok? ==> balances == Spend(old(balances), id, amount)
      ensures r.Err? ==> balances == old(balances)
    {
      var currentBalance := Get(balances, id);
      if currentBalance < amount { return Err(Panic); }
      var newBalance := currentBalance - amount;
      if newBalance == 0 {
        balances := balances - {id};
      } else {
        balances := balances[id := newBalance];
      }
      return Ok(());
    }

    method ReceiveBalance(id: Address, amount: nat) returns (r: Result<()>)
      modifies this`balances
      ensures r == if Fits(Get(old(balances), id) + amount) then Ok(()) else Err(Panic)
      ensures r.Ok? ==> balances == Receive(old(balances), id, amount)
      ensures r.Err? ==> balances == old(balances)
    {
      var newBalance := Get(balances, id) + amount;
      if !Fits(newBalance) { return Err(Panic); }
      balances := balances[id := newBalance];
      return Ok(());
    }

    method SpendAllowance(env: Env, from: Address, spender: Address, amount: nat) returns (r: Result<()>)
      requires IsWellFormed() && amount > 0
      modifies this`allowances
      ensures r == if amount <= Usable(old(Value()), env, from, spender) then Ok(()) else Err(Panic)
      ensures r.Ok? ==> (from, spender) in old(allowances)
      ensures r.Ok? ==> var was := old(allowances)[(from, spender)];
                        allowances == old(allowances)[(from, spender) := was.(amount := was.amount - amount)]
      ensures r.Err? ==> allowances == old(allowances)
    {
      var key := (from, spender);
      if key !in allowances { return Err(Panic); }
      var val := allowances[key];
      if val.liveUntil < env.ledger { return Err(Panic); }
      if val.amount < amount { return Err(Panic); }
      allowances := allowances[key := Allowance(val.amount - amount, val.liveUntil)];
      return Ok(());
    }

    /** What both transfers end with. */
    method MoveBalance(from: Address, to: Address, amount: nat) returns (r: Result<()>)
      requires IsWellFormed() && amount > 0
      modifies this`balances
      ensures match Moved(old(Value()), from, to, amount)
              case Ok(s) => r.Ok? && IsWellFormed() && Value() == s
              case Err(e) => r == Err(e)
    {
      r := SpendBalance(from, amount);
      if r.Err? { return; }
      r := ReceiveBalance(to, amount);
    }

    method Transfer(env: Env, from: Address, to: Address, amount: int) returns (r: Result<()>)
      requires IsWellFormed()
      modifies this
      ensures match Token.Transfer(old(Value()), env, from, to, amount)
              case Ok(s) => r.Ok? && IsWellFormed() && Value() == s
              case Err(e) => r == Err(e)
    {
      if !env.Authorized(from) { return Err(AuthFailed); }
      if amount <= 0 { return Err(Panic); }
      r := MoveBalance(from, to, amount);
    }

    method TransferFrom(env: Env, spender: Address, from: Address, to: Address, amount: int) returns (r: Result<()>)
      requires IsWellFormed()
      modifies this
      ensures match Token.TransferFrom(old(Value()), env, spender, from, to, amount)
              case Ok(s) => r.Ok? && IsWellFormed() && Value() == s
              case Err(e) => r == Err(e)
    {
      if !env.Authorized(spender) { return Err(AuthFailed); }
      if amount <= 0 { return Err(Panic); }
      r := SpendAllowance(env, from, spender, amount);
      if r.Err? { return; }
      assert Value() == old(Value()).(allowances := allowances);
      r := MoveBalance(from, to, amount);
    }

    method Approve(env: Env, from: Address, spender: Address, amount: int, liveUntil: nat) returns (r: Result<()>)
      requires IsWellFormed()
      modifies this
      ensures match Token.Approve(old(Value()), env, from, spender, amount, liveUntil)
              case Ok(s) => r.Ok? && IsWellFormed() && Value() == s
              case Err(e) => r == Err(e)
    {
      if !env.Authorized(from) { return Err(AuthFailed); }
      if amount < 0 { return Err(Panic); }
      allowances := allowances[(from, spender) := Allowance(amount, liveUntil)];
      return Ok(());
    }

    method Mint(env: Env, to: Address, amount: int) returns (r: Result<()>)
      requires IsWellFormed()
      modifies this
      ensures match Token.Mint(old(Value()), env, to, amount)
              case Ok(s) => r.Ok? && IsWellFormed() && Value() == s
              case Err(e) => r == Err(e)
    {
      if !env.Authorized(vault) { return Err(AuthFailed); }
      if amount <= 0 { return Err(Panic); }
      var newSupply := totalSupply + amount;
      if !Fits(newSupply) { return Err(Panic); }
      totalSupply := newSupply;
      r := ReceiveBalance(to, amount);
    }

    method Burn(env: Env, from: Address, amount: int) returns (r: Result<()>)
      requires IsWellFormed()
      modifies this
      ensures match Token.Burn(old(Value()), env, from, amount)
              case Ok(s) => r.Ok? && IsWellFormed() && Value() == s
              case Err(e) => r == Err(e)
    {
      if !env.Authorized(vault) { return Err(AuthFailed); }
      if amount <= 0 { return Err(Panic); }
      var newSupply := totalSupply - amount;
      if !Fits(newSupply) { return Err(Panic); }
      totalSupply := newSupply;
      r := SpendBalance(from, amount);
    }
  }
}
