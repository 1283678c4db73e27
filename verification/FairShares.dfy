/** What the vault's rounding means for those who use it: nobody gains by splitting or by going
    in and out, nobody who stays loses, and when the emergency exit works. */
module FairShares {
  import opened Soroban
  import opened Balances
  import opened Vault
  import opened Solvency
  import Arith
  import Asset
  import Token
  import Registry
  import Policy
  import Adapters

  // Effects

  lemma MintedBounds(w: World, env: Env, from: Address, amount: int)
    requires DepositQuote(w, env, from, amount).Ok?
    ensures var minted := DepositQuote(w, env, from, amount).value;
            && amount > 0 && minted > 0
            && minted * (w.TotalAssets() + 1) <= amount * (w.share.supply + 1000) < (minted + 1) * (w.TotalAssets() + 1)
  {
    Arith.FloorBounds(amount * (w.share.supply + 1000), w.TotalAssets() + 1);
  }

  lemma ReturnedBounds(w: World, env: Env, to: Address, shares: int)
    requires WithdrawQuote(w, env, to, shares).Ok?
    ensures var returned := WithdrawQuote(w, env, to, shares).value;
            && returned * (w.share.supply + 1000) <= shares * (w.TotalAssets() + 1)
                < (returned + 1) * (w.share.supply + 1000)
  {
    Arith.FloorBounds(shares * (w.TotalAssets() + 1), w.share.supply + 1000);
  }

  /** A deposit takes exactly `amount` from the depositor to the vault, credits exactly the rounded
      share count to the depositor, and touches nobody else. */
  lemma DepositEffect(w: World, env: Env, from: Address, amount: int, who: Address)
    requires w.Valid() && env.TopLevel() && Deposit(w, env, from, amount).Ok?
    ensures var (w', minted) := Deposit(w, env, from, amount).value;
            && env.Authorized(from) && !w.paused && amount > 0 && minted > 0
            && minted * (w.TotalAssets() + 1) <= amount * (w.share.supply + 1000) < (minted + 1) * (w.TotalAssets() + 1)
            && Get(w'.share.balances, who) == Get(w.share.balances, who) + (if who == from then minted else 0)
            && Get(w'.asset, who) == Get(w.asset, who) + (if who == w.self then amount else 0)
                                       - (if who == from then amount else 0)
            && w' == w.(asset := w'.asset, share := w'.share, idle := w.idle + amount)
            && w'.share == w.share.(balances := w'.share.balances, supply := w.share.supply + minted)
  {
    MintedBounds(w, env, from, amount);
    DepositIs(w, env, from, amount);
  }

  /** A deposit whose shares would round to zero is refused, so no depositor is truncated away. */
  lemma DepositRefusedWhenTruncated(w: World, env: Env, from: Address, amount: int)
    requires w.Valid() && env.Authorized(from) && !w.paused && amount > 0
    requires Fits(w.share.supply + 1000) && Fits(amount * (w.share.supply + 1000)) && Fits(w.TotalAssets() + 1)
    ensures Deposit(w, env, from, amount) == Err(ZeroAmount) <==> amount * (w.share.supply + 1000) < w.TotalAssets() + 1
  {
    Arith.FloorIsGreatest(1, amount * (w.share.supply + 1000), w.TotalAssets() + 1);
  }

  lemma WithdrawMoves(w: World, env: Env, to: Address, shares: int, who: Address)
    requires w.Valid() && env.TopLevel() && Withdraw(w, env, to, shares).Ok?
    ensures var x, w' := WithdrawQuote(w, env, to, shares).value, Withdraw(w, env, to, shares).value.0;
            && Withdraw(w, env, to, shares).value.1 == x && 0 < shares <= Get(w.share.balances, to)
            && Get(w'.share.balances, who) == Get(w.share.balances, who) - (if who == to then shares else 0)
            && Get(w'.asset, who) == Get(w.asset, who) + (if who == to then x else 0) - (if who == w.self then x else 0)
            && w' == w.(asset := w'.asset, share := w'.share, idle := w.idle - x)
            && w'.share == w.share.(balances := w'.share.balances, supply := w.share.supply - shares)
  {
    WithdrawIs(w, env, to, shares);
  }

  lemma WithdrawEffect(w: World, env: Env, to: Address, shares: int, who: Address)
    requires w.Valid() && env.TopLevel() && Withdraw(w, env, to, shares).Ok?
    ensures var (w', returned) := Withdraw(w, env, to, shares).value;
            && env.Authorized(to) && !w.paused && 0 < shares <= Get(w.share.balances, to)
            && returned * (w.share.supply + 1000) <= shares * (w.TotalAssets() + 1)
                < (returned + 1) * (w.share.supply + 1000)
            && Get(w'.share.balances, who) == Get(w.share.balances, who) - (if who == to then shares else 0)
            && Get(w'.asset, who) == Get(w.asset, who) + (if who == to then returned else 0)
                                       - (if who == w.self then returned else 0)
            && w' == w.(asset := w'.asset, share := w'.share, idle := w.idle - returned)
            && w'.share == w.share.(balances := w'.share.balances, supply := w.share.supply - shares)
  {
    ReturnedBounds(w, env, to, shares);
    WithdrawMoves(w, env, to, shares, who);
  }

  /** Exactly when a deposit is accepted: its depositor signs and has the tokens, the vault is not paused, the
      amount is worth at least one share, and the sums fit. */
  lemma DepositedIff(w: World, env: Env, from: Address, amount: int)
    requires w.Valid() && env.TopLevel()
    ensures Deposit(w, env, from, amount).Ok? <==>
      && env.Authorized(from) && !w.paused && 0 < amount <= Get(w.asset, from)
      && w.TotalAssets() + 1 <= amount * (w.share.supply + 1000)
      && Fits(amount * (w.share.supply + 1000)) && Fits(w.share.supply + 1000) && Fits(w.TotalAssets() + 1)
      && Fits(Get(w.asset, w.self) + amount) && Fits(w.idle + amount)
      && Fits(w.share.supply + w.ConvertToShares(amount))
      && Fits(Get(w.share.balances, from) + w.ConvertToShares(amount))
  {
    DepositQuotedIff(w, env, from, amount);
    if DepositQuote(w, env, from, amount).Ok? { DepositIs(w, env, from, amount); }
  }

  lemma DepositQuotedIff(w: World, env: Env, from: Address, amount: int)
    ensures DepositQuote(w, env, from, amount).Ok? <==>
      && env.Authorized(from) && !w.paused && 0 < amount
      && w.TotalAssets() + 1 <= amount * (w.share.supply + 1000)
      && Fits(amount * (w.share.supply + 1000)) && Fits(w.share.supply + 1000) && Fits(w.TotalAssets() + 1)
  {
    Arith.FloorIsGreatest(1, amount * (w.share.supply + 1000), w.TotalAssets() + 1);
  }

  /** Exactly when a redemption is accepted: its holder signs and has the shares, the vault is not paused, less
      than one stroop more than what is idle is asked for, the vault has the tokens, and the sums fit. */
  lemma RedeemedIff(w: World, env: Env, to: Address, shares: int)
    requires w.Valid() && env.TopLevel()
    ensures Withdraw(w, env, to, shares).Ok? <==>
      && env.Authorized(to) && !w.paused && 0 < shares <= Get(w.share.balances, to)
      && shares * (w.TotalAssets() + 1) < (w.idle + 1) * (w.share.supply + 1000)
      && Fits(shares * (w.TotalAssets() + 1)) && Fits(w.TotalAssets() + 1) && Fits(w.share.supply + 1000)
      && w.ConvertToAssets(shares) <= Get(w.asset, w.self)
      && Fits(Get(w.asset, to) + w.ConvertToAssets(shares))
  {
    GetAtMostSum(w.share.balances, to);
    RedemptionQuotedIff(w, env, to, shares);
    if WithdrawQuote(w, env, to, shares).Ok? { WithdrawIs(w, env, to, shares); }
  }

  lemma RedemptionQuotedIff(w: World, env: Env, to: Address, shares: int)
    ensures WithdrawQuote(w, env, to, shares).Ok? <==>
      && env.Authorized(to) && !w.paused && 0 < shares
      && shares * (w.TotalAssets() + 1) < (w.idle + 1) * (w.share.supply + 1000)
      && Fits(shares * (w.TotalAssets() + 1)) && Fits(w.TotalAssets() + 1) && Fits(w.share.supply + 1000)
  {
    if 0 < shares {
      Arith.FloorIsGreatest(w.idle + 1, shares * (w.TotalAssets() + 1), w.share.supply + 1000);
    }
  }

  // Splitting

  datatype Piece = Piece(env: Env, who: Address, amount: int)

  function Total(pieces: seq<Piece>): int {
    if pieces == [] then 0 else pieces[0].amount + Total(pieces[1..])
  }

  /** Several deposits in a row, with the shares they mint together. */
  function DepositAll(w: World, pieces: seq<Piece>): (r: Result<(World, nat)>)
    requires w.Valid()
    ensures r.Ok? ==> r.value.0.Valid()
    decreases pieces
  {
    if pieces == [] then Ok((w, 0)) else
      var (w', minted) :- Deposit(w, pieces[0].env, pieces[0].who, pieces[0].amount);
      var (w'', more) :- DepositAll(w', pieces[1..]);
      Ok((w'', minted + more))
  }

  /** Several redemptions in a row, with the assets they return together. */
  function WithdrawAll(w: World, pieces: seq<Piece>): (r: Result<(World, nat)>)
    requires w.Valid()
    ensures r.Ok? ==> r.value.0.Valid()
    decreases pieces
  {
    if pieces == [] then Ok((w, 0)) else
      var (w', returned) :- Withdraw(w, pieces[0].env, pieces[0].who, pieces[0].amount);
      var (w'', more) :- WithdrawAll(w', pieces[1..]);
      Ok((w'', returned + more))
  }

  lemma {:induction false} DepositsKeepPrice(w: World, pieces: seq<Piece>)
    requires w.Valid() && DepositAll(w, pieces).Ok?
    ensures var (w', minted) := DepositAll(w, pieces).value;
            && Total(pieces) >= 0 && PriceKept(w, w')
            && w'.share.supply == w.share.supply + minted && w'.TotalAssets() == w.TotalAssets() + Total(pieces)
    decreases pieces
  {
    if pieces != [] {
      var w' := Deposit(w, pieces[0].env, pieces[0].who, pieces[0].amount).value.0;
      DepositKeepsPrice(w, pieces[0].env, pieces[0].who, pieces[0].amount);
      DepositsKeepPrice(w', pieces[1..]);
      PriceTransitive(w, w', DepositAll(w, pieces).value.0);
    }
  }

  lemma {:induction false} WithdrawalsKeepPrice(w: World, pieces: seq<Piece>)
    requires w.Valid() && WithdrawAll(w, pieces).Ok?
    ensures var (w', returned) := WithdrawAll(w, pieces).value;
            && Total(pieces) >= 0 && PriceKept(w, w')
            && w'.share.supply == w.share.supply - Total(pieces) && w'.TotalAssets() == w.TotalAssets() - returned
    decreases pieces
  {
    if pieces != [] {
      var w' := Withdraw(w, pieces[0].env, pieces[0].who, pieces[0].amount).value.0;
      WithdrawKeepsPrice(w, pieces[0].env, pieces[0].who, pieces[0].amount);
      WithdrawalsKeepPrice(w', pieces[1..]);
      PriceTransitive(w, w', WithdrawAll(w, pieces).value.0);
    }
  }

  lemma GainAtMostFloor(a: nat, s: nat, dx: nat, dy: nat)
    requires a > 0 && Arith.RatioLe(a, s, a + dx, s + dy)
    ensures dy <= dx * s / a
  {
    Arith.Distribute(s, dy, a);
    Arith.Distribute(a, dx, s);
    Arith.FloorIsGreatest(dy, dx * s, a);
  }

  lemma LossAtMostFloor(a: nat, s: nat, dx: nat, dy: nat)
    requires s > 0 && Arith.RatioLe(a, s, a - dy, s - dx)
    ensures dy <= dx * a / s
  {
    Arith.Distribute(s, dx, a);
    Arith.Distribute(a, dy, s);
    Arith.FloorIsGreatest(dy, dx * a, s);
  }

  lemma GainAtMostConversion(w: World, w': World, assets: nat, shares: nat)
    requires PriceKept(w, w')
    requires w'.share.supply == w.share.supply + shares && w'.TotalAssets() == w.TotalAssets() + assets
    ensures shares <= w.ConvertToShares(assets)
  {
    GainAtMostFloor(w.TotalAssets() + 1, w.share.supply + 1000, assets, shares);
  }

  lemma LossAtMostConversion(w: World, w': World, shares: nat, assets: nat)
    requires PriceKept(w, w')
    requires w'.share.supply == w.share.supply - shares && w'.TotalAssets() == w.TotalAssets() - assets
    ensures assets <= w.ConvertToAssets(shares)
  {
    LossAtMostFloor(w.TotalAssets() + 1, w.share.supply + 1000, shares, assets);
  }

  /** However a deposit is split into pieces made one after the other, by anybody, they together mint no more
      shares than one deposit of the whole would. */
  lemma SplittingADepositNeverHelps(w: World, pieces: seq<Piece>)
    requires w.Valid() && DepositAll(w, pieces).Ok?
    ensures Total(pieces) >= 0 && DepositAll(w, pieces).value.1 <= w.ConvertToShares(Total(pieces))
  {
    DepositsKeepPrice(w, pieces);
    var (w', minted) := DepositAll(w, pieces).value;
    GainAtMostConversion(w, w', Total(pieces), minted);
  }

  // Over time

  /** What was deposited in one go, and the shares it minted. */
  datatype Lot = Lot(assets: nat, shares: nat)

  /** The accepted deposits of a group over a run, whatever else happens in between. */
  function Lots(w: World, run: Run, group: set<Address>): seq<Lot>
    requires w.Valid()
    decreases run
  {
    if run == [] then [] else
      LotsOf(w, run[0].0, run[0].1, group) + Lots(Step(w, run[0].0, run[0].1), run[1..], group)
  }

  function LotsOf(w: World, env: Env, op: Op, group: set<Address>): seq<Lot>
    requires w.Valid()
  {
    if op.OpDeposit? && op.from in group && Deposit(w, env, op.from, op.amount).Ok?
    then [Lot(op.amount, Deposit(w, env, op.from, op.amount).value.1)] else []
  }

  function Assets(lots: seq<Lot>): nat { if lots == [] then 0 else lots[0].assets + Assets(lots[1..]) }

  function Shares(lots: seq<Lot>): nat { if lots == [] then 0 else lots[0].shares + Shares(lots[1..]) }

  /** No lot got more shares than `num/den` for each asset. */
  ghost predicate AtMostAt(lots: seq<Lot>, num: nat, den: nat) {
    forall i :: 0 <= i < |lots| ==> Arith.Scaled(lots[i].shares, lots[i].assets, num, den)
  }

  lemma {:induction false} AtMostAltogether(lots: seq<Lot>, num: nat, den: nat)
    requires AtMostAt(lots, num, den)
    ensures Arith.Scaled(Shares(lots), Assets(lots), num, den)
  {
    if lots != [] {
      AtMostAltogether(lots[1..], num, den);
      Arith.AddScaled(lots[0].shares, Shares(lots[1..]), lots[0].assets, Assets(lots[1..]), num, den);
    }
  }

  /** A share costs at least `den/num` assets. */
  predicate CostsAtLeast(w: World, num: nat, den: nat) {
    Arith.RatioLe(den, num, w.TotalAssets() + 1, w.share.supply + 1000)
  }

  lemma CostFollowsPrice(w: World, w': World, num: nat, den: nat)
    requires CostsAtLeast(w, num, den) && PriceKept(w, w')
    ensures CostsAtLeast(w', num, den)
  {
    Arith.RatioTransitive(den, num, w.TotalAssets() + 1, w.share.supply + 1000,
                          w'.TotalAssets() + 1, w'.share.supply + 1000);
  }

  lemma DepositMintsAtMostAt(w: World, env: Env, op: Op, group: set<Address>, num: nat, den: nat)
    requires w.Valid() && CostsAtLeast(w, num, den)
    ensures AtMostAt(LotsOf(w, env, op, group), num, den)
  {
    if LotsOf(w, env, op, group) != [] {
      var minted := Deposit(w, env, op.from, op.amount).value.1;
      Arith.Floor(op.amount * (w.share.supply + 1000), w.TotalAssets() + 1);
      LaterQuotient(minted, op.amount, w.TotalAssets() + 1, w.share.supply + 1000, den, num);
    }
  }

  lemma LaterQuotient(m: nat, x: nat, a: nat, s: nat, a0: nat, s0: nat)
    requires a > 0 && m * a <= x * s && Arith.RatioLe(a0, s0, a, s)
    ensures Arith.Scaled(m, x, s0, a0)
  {
    Arith.MulLe(m * a, x * s, a0);
    Arith.MulLe(a0 * s, a * s0, x);
    Arith.Assoc(m, a, a0);
    Arith.Assoc(x, s, a0);
    Arith.Assoc(x, s0, a);
    Arith.Assoc(a0, s, x);
    Arith.Assoc(a, s0, x);
    assert (m * a0) * a <= (x * s0) * a;
    Arith.MulCancel(m * a0, x * s0, a);
  }

  lemma Joined(a: seq<Lot>, b: seq<Lot>, num: nat, den: nat)
    requires AtMostAt(a, num, den) && AtMostAt(b, num, den)
    ensures AtMostAt(a + b, num, den)
  {
  }

  lemma {:induction false} RunMintsAtMostAt(w: World, run: Run, group: set<Address>, num: nat, den: nat)
    requires w.Valid() && Backed(w) && TopLevelRun(run) && CostsAtLeast(w, num, den)
    ensures AtMostAt(Lots(w, run, group), num, den)
    decreases run
  {
    if run != [] {
      var (env, op) := run[0];
      StepKeepsBacking(w, env, op);
      StepKeepsPrice(w, env, op);
      CostFollowsPrice(w, Step(w, env, op), num, den);
      DepositMintsAtMostAt(w, env, op, group, num, den);
      RunMintsAtMostAt(Step(w, env, op), run[1..], group, num, den);
      Joined(LotsOf(w, env, op, group), Lots(Step(w, env, op), run[1..], group), num, den);
    }
  }

  /** Nor does it help to spread a deposit over time and over depositors: over any run of any transactions, all
      the deposits of a group together mint no more shares than one deposit of the whole at the start. */
  lemma SpreadingADepositNeverHelps(w: World, run: Run, group: set<Address>)
    requires w.Valid() && Backed(w) && TopLevelRun(run)
    ensures Shares(Lots(w, run, group)) <= w.ConvertToShares(Assets(Lots(w, run, group)))
  {
    RunMintsAtMostAt(w, run, group, w.share.supply + 1000, w.TotalAssets() + 1);
    LotsWithinConversion(w, Lots(w, run, group));
  }

  lemma LotsWithinConversion(w: World, lots: seq<Lot>)
    requires AtMostAt(lots, w.share.supply + 1000, w.TotalAssets() + 1)
    ensures Shares(lots) <= w.ConvertToShares(Assets(lots))
  {
    AtMostAltogether(lots, w.share.supply + 1000, w.TotalAssets() + 1);
    Arith.FloorIsGreatest(Shares(lots), Assets(lots) * (w.share.supply + 1000), w.TotalAssets() + 1);
  }

  /** However a redemption is split, the pieces together return no more assets than one redemption. */
  lemma SplittingARedemptionNeverHelps(w: World, pieces: seq<Piece>)
    requires w.Valid() && WithdrawAll(w, pieces).Ok?
    ensures Total(pieces) >= 0 && WithdrawAll(w, pieces).value.1 <= w.ConvertToAssets(Total(pieces))
  {
    WithdrawalsKeepPrice(w, pieces);
    var (w', returned) := WithdrawAll(w, pieces).value;
    LossAtMostConversion(w, w', Total(pieces), returned);
  }

  /** Redeeming what a deposit just minted never returns more than was deposited, and falls short by
      less than the price of one share and one stroop. */
  lemma RoundTrip(w: World, env: Env, from: Address, amount: int)
    requires w.Valid() && Deposit(w, env, from, amount).Ok?
    ensures var (w', minted) := Deposit(w, env, from, amount).value;
            var back := w'.ConvertToAssets(minted);
            && back <= amount
            && (amount - back - 1) * (w'.share.supply + 1000) < w.TotalAssets() + 1
  {
    var (w', m) := Deposit(w, env, from, amount).value;
    RoundTripArithmetic(w.TotalAssets() + 1, w.share.supply + 1000, amount, m);
  }

  lemma RoundTripArithmetic(v: nat, t: nat, a: nat, m: nat)
    requires v > 0 && t > 0 && m == a * t / v
    ensures var back := m * (v + a) / (t + m);
            back <= a && (a - back - 1) * (t + m) < v
  {
    var back := m * (v + a) / (t + m);
    Arith.Floor(a * t, v);
    Arith.Floor(m * (v + a), t + m);
    Arith.Distribute(v, a, m);
    Arith.Distribute(t, m, a);
    Arith.Distribute(a, back, t + m);
    Arith.Distribute(a - back, 1, t + m);
    if back > a {
      Arith.MulLe(a + 1, back, t + m);
      Arith.Distribute(a, 1, t + m);
    }
  }

  /** Assets sent past the entry points, to the vault or to anybody, move no price: conversions go by the
      books and not by token balances, so a donation cannot inflate the share price. */
  lemma DonationMovesNoPrice(w: World, env: Env, from: Address, to: Address, amount: int, x: nat)
    requires w.Valid()
    ensures var w' := Step(w, env, OpTransferAsset(from, to, amount));
            && w'.ConvertToShares(x) == w.ConvertToShares(x) && w'.ConvertToAssets(x) == w.ConvertToAssets(x)
            && forall e, who, n :: DepositQuote(w', e, who, n) == DepositQuote(w, e, who, n)
  {
  }

  /** A holder is never diluted: over any run of anybody's transactions, the assets that a given
      number of shares converts to never fall. */
  lemma HolderNeverDiluted(w: World, run: Run, shares: nat)
    requires w.Valid() && Backed(w) && TopLevelRun(run)
    ensures w.ConvertToAssets(shares) <= After(w, run).ConvertToAssets(shares)
  {
    RunKeeps(w, run);
    ConversionFollowsPrice(w, After(w, run), shares);
  }

  lemma ConversionFollowsPrice(w: World, w': World, shares: nat)
    requires PriceKept(w, w')
    ensures w.ConvertToAssets(shares) <= w'.ConvertToAssets(shares)
  {
    FloorsFollowRatios(shares, w.TotalAssets() + 1, w.share.supply + 1000,
                       w'.TotalAssets() + 1, w'.share.supply + 1000);
  }

  lemma FloorsFollowRatios(x: nat, a: nat, s: nat, a': nat, s': nat)
    requires s > 0 && s' > 0 && Arith.RatioLe(a, s, a', s')
    ensures Arith.MulDiv(x, a, s) <= Arith.MulDiv(x, a', s')
  {
    var q := x * a / s;
    Arith.Floor(x * a, s);
    Arith.MulLe(q * s, x * a, s');
    Arith.MulLe(a * s', a' * s, x);
    Arith.Assoc(q, s, s');
    Arith.Assoc(x, a, s');
    Arith.Assoc(x, a', s);
    assert (q * s') * s <= (x * a') * s;
    Arith.MulCancel(q * s', x * a', s);
    Arith.FloorIsGreatest(q, x * a', s');
  }
}
