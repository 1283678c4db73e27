/** The client's previews, and how they compare with what the contracts do. */
module Sdk {
  import opened Soroban
  import opened Arith
  import opened Balances
  import Vault
  import FairShares
  import Queue
  import Verifier

  const VIRTUAL_SHARES: int := 1000
  const VIRTUAL_ASSETS: int := 1

  /** A division by zero throws. */
  function PreviewDeposit(assets: int, totalAssets: int, totalShares: int): int
    requires totalAssets + VIRTUAL_ASSETS != 0
  {
    Verifier.BigDiv(assets * (totalShares + VIRTUAL_SHARES), totalAssets + VIRTUAL_ASSETS)
  }

  function PreviewRedeem(shares: int, totalAssets: int, totalShares: int, haircutBps: int): int
    requires totalShares + VIRTUAL_SHARES != 0
  {
    var nominal := Verifier.BigDiv(shares * (totalAssets + VIRTUAL_ASSETS), totalShares + VIRTUAL_SHARES);
    if haircutBps > 0 then nominal - Verifier.BigDiv(nominal * haircutBps, 10000) else nominal
  }

  /** On the same totals the client computes what the vault computes. */
  lemma PreviewsConvert(w: Vault.World, x: nat)
    ensures PreviewDeposit(x, w.TotalAssets(), w.share.supply) == w.ConvertToShares(x)
    ensures PreviewRedeem(x, w.TotalAssets(), w.share.supply, 0) == w.ConvertToAssets(x)
  {
  }

  /** A deposit that goes through mints exactly the shares previewed from the vault's books. */
  lemma DepositMintsThePreview(w: Vault.World, env: Env, from: Address, amount: int)
    requires w.Valid() && Vault.Deposit(w, env, from, amount).Ok?
    ensures var (w', minted) := Vault.Deposit(w, env, from, amount).value;
            var preview := PreviewDeposit(amount, w.TotalAssets(), w.share.supply);
            minted == preview
            && (env.TopLevel() ==> Get(w'.share.balances, from) == Get(w.share.balances, from) + preview)
  {
    PreviewsConvert(w, amount);
    if env.TopLevel() { FairShares.DepositEffect(w, env, from, amount, from); }
  }

  /** A withdrawal that goes through pays exactly the preview without a haircut. */
  lemma WithdrawalPaysThePreview(w: Vault.World, env: Env, to: Address, shares: int)
    requires w.Valid() && Vault.Withdraw(w, env, to, shares).Ok?
    ensures var (w', paid) := Vault.Withdraw(w, env, to, shares).value;
            var preview := PreviewRedeem(shares, w.TotalAssets(), w.share.supply, 0);
            paid == preview && (env.TopLevel() ==> Get(w'.asset, to) == Get(w.asset, to) + preview)
  {
    PreviewsConvert(w, shares);
    if env.TopLevel() { FairShares.WithdrawEffect(w, env, to, shares, to); }
  }

  /** In bunker mode the preview and the queue round in opposite directions: on the same nominal amount
      they agree exactly when the haircut comes out even, and otherwise the client promises exactly one
      stroop more than the queue pays. */
  lemma BunkerPreview(q: Queue.State, shares: nat, totalAssets: nat, totalShares: nat)
    requires q.Valid() && q.mode == Queue.Bunker
    ensures var nominal := PreviewRedeem(shares, totalAssets, totalShares, 0);
            var preview := PreviewRedeem(shares, totalAssets, totalShares, q.haircutBps);
            preview - Queue.Payout(q, nominal) == if nominal * q.haircutBps % 10000 == 0 then 0 else 1
  {
    var nominal := PreviewRedeem(shares, totalAssets, totalShares, 0);
    OppositeRoundings(nominal, q.haircutBps);
  }

  lemma OppositeRoundings(n: nat, h: nat)
    requires h <= 10000
    ensures n * (10000 - h) >= 0
    ensures n - n * h / 10000 == n * (10000 - h) / 10000 + if n * h % 10000 == 0 then 0 else 1
  {
    Distribute(10000, h, n);
    Floor(n * h, 10000);
    Floor(n * (10000 - h), 10000);
  }
}
