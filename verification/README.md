# Hikari: a verified model

Hikari is a liquid-staking vault on Soroban. Depositors receive hXLM shares; agents lend the vault's idle assets to
strategy adapters within the limits of a policy account and a registry; a queue, a fee controller, a yield streamer and
a governance contract stand around it. Off chain, a keeper proposes allocations, a verifier checks them, an audit log
chains the decisions, and two Merkle provers commit to what was decided and to who is owed what. This project models
that logic in Dafny and proves what it is for: that claims are always covered, that no step lowers the share price, that
nothing is paid twice, that nobody loses what they did not sign away, and that the proofs and logs bind.

## How it is laid out

Each contract is a pair. A module such as `Vault`, `Token` or `Governance` says, as functions on values, what every entry
point does to the state, its error paths included, and holds the properties of single steps and of whole runs. A module
such as `VaultContract` or `GovernanceContract` holds the class whose methods overwrite storage the way the Rust code
does, loops included, and each method is proved to return and leave behind exactly what the function says. A vault
method sees the one strategy it calls, which is any of the three adapter classes. `Framing` proves that what an entry
point does to the whole system is exactly what it does to the vault with that strategy alone, call by call
(`Framing.VaultFrames`) and with the host's rollback (`Framing.VaultStepFrames`), so the theorems about all strategies
reach the class as well.

| Files | What they hold |
|---|---|
| `Wrappers`, `Soroban`, `Arith`, `Balances`, `Asset` | host environment and errors, products and floors, balance books and their sums, the underlying asset |
| `Token`, `Registry`, `Adapters`, `Policy` | the four contracts the vault calls |
| `Vault`, `VaultContract` | the vault, composed with all of them |
| `Framing`, `Solvency`, `FairShares`, `Exits`, `Leaving`, `Lending`, `Reserve`, `Consent` | theorems about the composition |
| `Streamer`, `StreamerContract`, `Streaming` | linear yield streams |
| `Governance`, `Queue`, `Fees` | proposals, withdrawals, fees |
| `Merkle`, `MerkleProver`, `AuditLog` | the two Merkle provers and the hash-chained log |
| `Engine`, `PolicyVerifier`, `Keeper`, `Sdk` | the off-chain engine and the client's previews |

## What the model assumes

- A transaction is atomic. If it fails, by an error or a panic, nothing it wrote remains. The streamer, governance
  and queue classes put back what they wrote where they return an error; the vault, token, registry, policy account,
  adapters and `route_fee` leave that to `Vault.Step` and its like, and promise nothing about the state after an error.
- Amounts are mathematical integers. Wherever the code computes in `i128`, `u32` or `u64`, the model checks that the
  result fits and fails otherwise, with `MathOverflow` where the code uses checked arithmetic and with a panic elsewhere
  (the release profile keeps overflow checks on). Division truncates toward zero.
- `require_auth` succeeds for an address that authorized the transaction or is the direct caller. Transactions come from
  users, which are accounts or contracts outside the system; the system's own contracts authorize only the calls they
  make themselves, and no such call comes back into the system before it returns. So the calls that only the vault may
  make, the adapters' and the registry's booking ones, are no transactions of their own: they fail for everybody else
  (`Solvency.OnlyTheVault`).
- An error of a called contract is reported as itself.
- Two things the documentation does not speak of follow the code. A deallocation consults no policy account
  (`Reserve.DeallocationIgnoresPolicy`), and revoking a strategy is not final, since pausing overwrites it
  (`Registry.RevocationCanBeUndone`).
- A hash function is a parameter. For the Merkle trees nothing is assumed but the digest length: where security rests on
  there being no collision, a function of the model returns the collision that any counterexample would contain. The
  statement about the audit log's check assumes that there is no collision among the logged payloads.

## Where the code and its documentation differ

- The documentation says that the policy account rejects allocations below a 15% liquid reserve
  (`docs/INVARIANT_SPECIFICATION.md:47-50`). No contract looks at a reserve: `Reserve.EverythingCanBeAllocated`. Exactly
  when the reserve is kept, in terms of the limits in force before the call, is `Reserve.KeptIffByTheLargest`.
- It says that a performance fee is due if and only if the value is above the high-water mark
  (`docs/INVARIANT_SPECIFICATION.md:57`). Rounding and a zero rate break one direction: `Fees.AboveTheMarkWithoutFee`. The
  exact condition is `Fees.ChargedIff`.
- It says that a veto share of 33.4% always stops a proposal (`docs/SECURITY_AUDIT_DOSSIER.md:138-142`). Vetoes cast
  before the first vote are compared with a fixed amount only, and nothing compares them again:
  `Governance.EarlyVetoIsOutrun`. It fails exactly then: `Governance.ShareReachedButNotStopped`.
- A proposal without votes is meant to become defeated when it is queued. The write is undone with the failing call:
  `Governance.UnvotedIsNeverDefeated`.
- The spend limit is meant per day. In a day's window it can be spent twice (`Policy.SlidingWindowIsTight`). As long as
  nothing is recorded back in a window, exactly which windows hold to one limit is `Policy.OneLimitIff`. But negative
  amounts pass every check, and what is recorded back can be spent again, on top of two limits and to the last unit
  (`Policy.NegativeAmountsLiftTheBound`). With them no amount at all bounds what is spent in a window, unless the window
  was over when the account was deployed (`Policy.NoBoundButForClosedWindows`).
- The verifier's daily cap is meant to bound what is approved without an operator. It too accepts negative amounts, and
  whatever is recorded back can be approved again on top of the cap: `Verifier.RecordingBackLiftsTheCap`. Exactly which
  rules keep the cap is `Verifier.CapKeptIffNothingIsApproved`. What operators approve is recorded without looking at
  the cap: `Verifier.ManualApprovalsPassTheCap`.
- The streamer has no constructor, and `initialize` may be called by anybody, once, at any time. It restarts the stream
  count even if streams exist, and then two streams share a number: a harvest can pay out another vault's stream
  (`Streaming.LateInitializationMisdirects`) and leave less of a token than is owed in it
  (`Streaming.LateInitializationLosesCustody`). Index and custody are kept if and only if no stream exists yet when it is
  called: `Streaming.KeptFromDeploymentIffInTime`.
- A batch of claims can depend on its order once a request has been finalized with a negative amount:
  `Queue.NegativeAmountsMakeOrderMatter`. Exactly when it does not is `Queue.AcceptedInEveryOrderIff`.
- `verifyProof` checks neither the length of a proof, nor the high bits of the index, nor that the leaf is a digest. What
  each omission lets through is stated in `Merkle.RootIsAcceptedAsLeaf`, `Merkle.HighIndexBitsAreIgnored` and
  `Merkle.ShiftedLeafIsAccepted`.
- `verifyChainIntegrity` never recomputes a hash, so rewritten content passes: `AuditLog.RewrittenContentIsAccepted`.
- Keeper and verifier round the same reserve floor differently, so the verifier refuses some of the keeper's own
  proposals: `Keeper.VerifierRefusesIffOnRoundedFloor`, `Keeper.RefusalHappens`.
- Withdrawal previews promise one stroop too much in bunker mode unless the haircut comes out even:
  `Sdk.BunkerPreview`.
- An adapter's harvest would book yield without receiving tokens, and an emergency exit would then need the difference:
  `Exits.ExitAfterHarvestIff`. Only the vault may harvest, and none of its entry points does, so today nobody can bring
  this about; without harvests an exit always works (`Exits.ExitAlwaysPossibleWithoutHarvest`).

## Model

| member | source | states |
|---|---|---|
| Solvency.Solvent | contracts/vault/src/lib.rs:58-291 | End-to-end solvency: after any run of any transactions by anybody, all holders' claims together are at most the total assets, these are at most the underlying tokens really held by the vault and the registered adapters, and there are at most 1000 shares per stroop |
| Solvency.BooksAgree | contracts/vault/src/lib.rs:174-240 | After any run each strategy's booking is between zero and its cap, and the vault's allocated total is at most the sum of the registry's bookings and at most what the adapters report, although both sides saturate at zero independently |
| Solvency.StepKeepsPrice | contracts/vault/src/lib.rs:68-134 | No transaction of any kind lowers the offset share price (assets + 1) / (shares + 1000) |
| Solvency.DepositKeepsPrice | contracts/vault/src/lib.rs:71-77 | Rounding in a deposit never lowers the share price |
| Solvency.WithdrawKeepsPrice | contracts/vault/src/lib.rs:113-117 | Rounding in a withdrawal never lowers the share price |
| Solvency.StepKeepsBacking | contracts/vault/src/lib.rs:58-267 | Every transaction keeps idle assets covered by the vault's own tokens and allocated assets by the adapters' tokens, reports and bookings; only deposits and withdrawals change the supply or lower the assets |
| Solvency.ClaimsWithinAssets | contracts/vault/src/lib.rs:287-291 | The sum over all holders of what their shares convert to never exceeds the total assets |
| Solvency.AllocateLends | contracts/vault/src/lib.rs:138-181 | An allocation moves one and the same amount out of the vault's tokens and idle books and into the adapter's tokens, its report, the allocated books and the registry's booking, and touches no other strategy |
| Solvency.DeallocateReturns | contracts/vault/src/lib.rs:183-214 | A deallocation that somebody signed moves one and the same amount back, with the allocated books and the booking each stopping at zero, and touches no other strategy |
| Solvency.EmergencyExitReturns | contracts/vault/src/lib.rs:216-244 | An emergency exit returns all that the adapter reports, pauses it, revokes it in the registry without touching the bookings, and touches no other strategy |
| Solvency.DonationKeeps | contracts/vault/src/lib.rs:269-273 | Tokens sent directly to any address keep the books backed |
| Solvency.OnlyTheVault | contracts/strategy_registry/src/lib.rs:158-200 | The registry's booking calls and all calls of an adapter fail for everybody but the vault |
| Solvency.RegistryKeeps | contracts/strategy_registry/src/lib.rs:39-156 | Registry administration at any time keeps the books backed |
| Solvency.RunKeeps | contracts/vault/src/lib.rs:58-291 | Over any run, backing is kept and the share price at the end is at least that at the start |
| FairShares.SplittingADepositNeverHelps | contracts/vault/src/lib.rs:71-77 | Deposits split into any number of accepted pieces made one after the other, by anybody, mint no more shares than one deposit of the whole |
| FairShares.SpreadingADepositNeverHelps | contracts/vault/src/lib.rs:58-98 | Over any run of any transactions, all accepted deposits of a group of depositors together mint no more shares than one deposit of the whole at the start |
| FairShares.SplittingARedemptionNeverHelps | contracts/vault/src/lib.rs:113-117 | Redemptions split into any number of accepted pieces return no more assets than one redemption of the whole |
| FairShares.RoundTrip | contracts/vault/src/lib.rs:71-117 | Redeeming what a deposit minted returns at most the deposit, and falls short by less than one share's price and one stroop |
| FairShares.HolderNeverDiluted | contracts/vault/src/lib.rs:287-291 | Over any run, the assets that a given number of shares converts to never fall |
| FairShares.DepositEffect | contracts/vault/src/lib.rs:58-98 | Who gains and loses what in a deposit, which its depositor signs to an unpaused vault: shares only to the depositor, tokens only from depositor to vault, and the minted shares are the exact rounded-down quotient |
| FairShares.WithdrawEffect | contracts/vault/src/lib.rs:100-136 | Who gains and loses what in a withdrawal, which its holder signs to an unpaused vault, and that the returned assets are the exact rounded-down quotient |
| FairShares.DepositedIff | contracts/vault/src/lib.rs:58-98 | A deposit is accepted if and only if its depositor signs and has the tokens, the vault is not paused, the amount is worth a share at least, and the sums fit |
| FairShares.RedeemedIff | contracts/vault/src/lib.rs:100-136 | A redemption is accepted if and only if its holder signs and has the shares, the vault is not paused and has the tokens, what is asked for, rounded down, is idle, and the sums fit |
| FairShares.DepositRefusedWhenTruncated | contracts/vault/src/lib.rs:79-81 | A deposit whose shares would round to zero is refused |
| FairShares.DonationMovesNoPrice | contracts/vault/src/lib.rs:269-291 | A direct transfer of assets to anybody changes no conversion and no deposit quote |
| Exits.ExitIffFullyHeld | contracts/blend_adapter/src/lib.rs:133-151 | For those who may make it, an emergency exit works if and only if the adapter holds all the tokens it reports |
| Exits.ExitedIff | contracts/vault/src/lib.rs:216-244 | An emergency exit is accepted if and only if a caller that both vault and registry allow signs, the adapter holds all it reports, and the sums fit |
| Exits.DeallocatedIff | contracts/vault/src/lib.rs:183-214 | A deallocation is accepted if and only if anybody signs for it, the adapter reports and holds the amount, and the sums fit |
| Exits.GapIsAtMostYield | contracts/blend_adapter/src/lib.rs:112-131 | Over any run an adapter's report exceeds its tokens by at most the yield harvested there |
| Exits.ExitAlwaysPossibleWithoutHarvest | contracts/vault/src/lib.rs:216-244 | As long as nothing is harvested, an emergency exit is always possible to those who may make it |
| Exits.ExitAfterHarvestIff | contracts/blend_adapter/src/lib.rs:112-151 | If the vault did harvest, which none of its entry points does, an exit would afterwards work if and only if the adapter held the booked yield too |
| Exits.HarvestBlocksExit | contracts/blend_adapter/src/lib.rs:112-151 | So a harvest of a positive yield, if there were one, would block the exit of an adapter that held just what it reported |
| Reserve.KeptIffByTheLargest | contracts/vault/src/lib.rs:138-181 | For every valid system, agent and strategy: every allocation that would be accepted leaves 15% of the assets idle if and only if the largest acceptable one does |
| Reserve.AllocatedIff | contracts/vault/src/lib.rs:138-181 | An allocation is accepted if and only if the checks that ignore the amount pass and the amount is positive and at most the least of the limits and widths that can be read before the call |
| Reserve.LargestIsTheLeastLimit | contracts/policy_account/src/lib.rs:105-145 | Away from the width of the numbers, that is the least of the idle assets, the transaction limit, the rest of the daily limit and the rest of the strategy's cap |
| Reserve.EverythingCanBeAllocated | contracts/policy_account/src/lib.rs:88-146 | For every amount there is a valid system in which an agent allocates all of it |
| Reserve.DeallocationIgnoresPolicy | contracts/vault/src/lib.rs:183-214 | The outcome of a deallocation, errors included, is the same whatever the policy account holds |
| Leaving.EverybodyCanLeave | contracts/vault/src/lib.rs:100-244 | After any harvest-free run from an empty vault with empty adapters, all strategies can be exited by those who may, and then any holders can redeem all they have, in any order |
| Leaving.ExitsBringEverythingBack | contracts/vault/src/lib.rs:216-244 | Once every registered strategy has been exited nothing is allocated, no assets are lost and the price is kept |
| Leaving.AllCanRedeem | contracts/vault/src/lib.rs:100-136 | With nothing allocated, any redemptions of what their holders have are accepted, in any order |
| Leaving.RedeemedIffIdle | contracts/vault/src/lib.rs:100-136 | A redemption is accepted if and only if the vault is not paused and what it returns is idle |
| Lending.LendingIsLimited | contracts/vault/src/lib.rs:156-172 | In any 17280 consecutive ledgers of any run of the whole system, the vault lends at most twice the daily limit, plus what was recorded back in them or in the 17280 before |
| Lending.LentIsSpent | contracts/vault/src/lib.rs:156-172 | Over any run, what the vault lends in a window is recorded as spent by the policy account in that window |
| Consent.SharesFallOnlyByConsent | contracts/vault/src/lib.rs:58-267 | In any transaction on the whole system a holder's shares fall only if the holder signs, or by what a spender takes within a live allowance that the holder granted |
| Consent.UnsignedHolderKeepsShares | contracts/vault/src/lib.rs:58-267 | Over any run of the whole system in which a holder signs nothing, its shares fall by no more than all the allowances it had granted, and were alive, at the start |
| Consent.UnsignedUserKeepsTokens | contracts/vault/src/lib.rs:58-267 | Over any run in which a user signs nothing, its underlying tokens never fall |
| Consent.PauseStops | contracts/vault/src/lib.rs:59-140 | A paused vault refuses every deposit, redemption and allocation |
| Consent.PausedIff | contracts/vault/src/lib.rs:246-267 | Admin and guardian can pause, only the admin can lift a pause, and neither touches anything else |
| Consent.PauseHolds | contracts/vault/src/lib.rs:246-300 | Over any run in which the admin signs nothing, a paused vault stays paused, mints and burns no share, loses no assets and lends nothing |
| Consent.PolicyHolds | contracts/policy_account/src/lib.rs:48-86 | Over any run of the whole system without its admin's signature, the policy account keeps its allowlists and limits |
| Consent.RegistryHolds | contracts/strategy_registry/src/lib.rs:39-156 | Over any run of the whole system without the registry admin's signature no cap is set and no strategy is added or becomes active; without the guardian's either no status changes |
| Framing.VaultFrames | contracts/vault/src/lib.rs:58-267 | A transaction through the vault does to the whole system exactly what it does with its strategy alone, with the same result or error, and leaves every other strategy as it was |
| Framing.VaultStepFrames | contracts/vault/src/lib.rs:58-267 | The same with the host's rollback of what fails: the step of the whole system is the step of the vault with that strategy, put back among the others |
| VaultContract.HikariVault.Deposit | contracts/vault/src/lib.rs:58-98 | deposit: the quote, the transfer, the books and the mint, or the error the code returns first |
| VaultContract.HikariVault.QuoteDeposit | contracts/vault/src/lib.rs:59-81 | The checks of a deposit in order and the shares it is worth |
| VaultContract.HikariVault.Withdraw | contracts/vault/src/lib.rs:100-136 | withdraw: the quote, the burn, the books and the transfer, or the first error |
| VaultContract.HikariVault.QuoteWithdraw | contracts/vault/src/lib.rs:101-122 | The checks of a withdrawal in order and the assets it is worth |
| VaultContract.HikariVault.Approve | contracts/vault/src/lib.rs:144-164 | The vault's own checks of an allocation, then those of the policy account and the registry |
| VaultContract.HikariVault.Lend | contracts/vault/src/lib.rs:166-177 | The transfer to the strategy, its deposit, and the books |
| VaultContract.HikariVault.Send | contracts/vault/src/lib.rs:166-172 | The transfer to the strategy and the strategy's own booking, or the first error |
| VaultContract.HikariVault.AllocateToStrategy | contracts/vault/src/lib.rs:138-181 | allocate_to_strategy leaves all the contracts it touches in the specified state |
| VaultContract.HikariVault.DeallocateFromStrategy | contracts/vault/src/lib.rs:183-214 | deallocate_from_strategy leaves all the contracts it touches in the specified state |
| VaultContract.HikariVault.Rebook | contracts/vault/src/lib.rs:199-210 | What came back is booked by the registry and the vault, or the first error |
| VaultContract.HikariVault.EmergencyExitStrategy | contracts/vault/src/lib.rs:216-244 | emergency_exit_strategy leaves all the contracts it touches in the specified state and revokes the strategy |
| VaultContract.HikariVault.Pause | contracts/vault/src/lib.rs:246-256 | pause, by admin or guardian |
| VaultContract.HikariVault.Unpause | contracts/vault/src/lib.rs:258-267 | unpause, by the admin only |
| Token.TransferOnlyTouchesBothEnds | contracts/token/src/lib.rs:75-82 | A transfer changes the balances of its two ends by the amount and nobody else's, a transfer to oneself included |
| Token.LosesOnlyByConsent | contracts/token/src/lib.rs:75-203 | A call lowers a balance only as a transfer its holder authorized, as one of an approved spender within the live allowance, or as a burn of the vault, and then by exactly the call's amount |
| Token.TransferredIff | contracts/token/src/lib.rs:75-82 | A transfer is accepted if and only if its sender signs and has the positive amount, and the receiver's balance fits |
| Token.TransferredFromIff | contracts/token/src/lib.rs:84-92 | A spender's transfer is accepted if and only if it signs, the holder's allowance is alive and large enough, the holder has the positive amount, and the receiver's balance fits |
| Token.TransferFromUsesUp | contracts/token/src/lib.rs:179-203 | It lowers what the spender can still use by exactly the amount, and no other pair's allowance |
| Token.TakesAtMostTheGrant | contracts/token/src/lib.rs:84-203 | Over any run all that a spender takes from a holder is at most the allowance alive at the start and what the holder granted since, so without a new approval the allowance at the start |
| Token.ApprovedIff | contracts/token/src/lib.rs:94-108 | An approval goes through if and only if the holder signs and the amount is not negative; it replaces that pair's allowance and no other |
| Token.MintedIff | contracts/token/src/lib.rs:132-142 | A mint goes through if and only if the vault makes it, the amount is positive and the sums fit; only the receiver's balance changes |
| Token.BurntIff | contracts/token/src/lib.rs:144-154 | A burn goes through if and only if the vault makes it and the holder has the positive amount; only the holder's balance changes |
| Token.Execute | contracts/token/src/lib.rs:75-154 | After any call the balances add up to the total supply and no empty balance is stored |
| Token.Mint | contracts/token/src/lib.rs:132-142 | Only the vault mints, and the supply grows by the amount |
| Token.Burn | contracts/token/src/lib.rs:144-154 | Only the vault burns, and the supply shrinks by the amount |
| TokenContract.HikariToken.Transfer | contracts/token/src/lib.rs:75-82 | transfer, proved against its specification |
| TokenContract.HikariToken.TransferFrom | contracts/token/src/lib.rs:84-92 | transfer_from, using up a live allowance |
| TokenContract.HikariToken.Approve | contracts/token/src/lib.rs:94-108 | approve records the amount and its expiry |
| TokenContract.HikariToken.Mint | contracts/token/src/lib.rs:132-142 | mint to the holder and to the supply |
| TokenContract.HikariToken.Burn | contracts/token/src/lib.rs:144-154 | burn from the holder and from the supply |
| TokenContract.HikariToken.SpendBalance | contracts/token/src/lib.rs:156-169 | spend_balance removes an entry that reaches zero |
| TokenContract.HikariToken.ReceiveBalance | contracts/token/src/lib.rs:171-177 | receive_balance |
| TokenContract.HikariToken.SpendAllowance | contracts/token/src/lib.rs:179-203 | spend_allowance, which treats an expired allowance as none |
| Registry.AllocationBooks | contracts/strategy_registry/src/lib.rs:158-182 | An allocation is booked to that strategy alone, and only if it is active and stays within its cap |
| Registry.DeallocationReleases | contracts/strategy_registry/src/lib.rs:184-200 | A deallocation releases exactly the amount, or what is booked if that is less, from that strategy alone |
| Registry.AdministeredIff | contracts/strategy_registry/src/lib.rs:39-156 | Exactly when each administrative call goes through, who must sign it, and what it sets |
| Registry.RolesBound | contracts/strategy_registry/src/lib.rs:39-156 | Without the admin's signature no cap is set and nothing is added or becomes active; without the guardian's either no status changes |
| Registry.RevocationCanBeUndone | contracts/strategy_registry/src/lib.rs:95-156 | A revoked strategy cannot be unpaused, but it can be paused and then unpaused, and is active again |
| RegistryContract.StrategyRegistry.AddStrategy | contracts/strategy_registry/src/lib.rs:39-72 | add_strategy appends a new, active, unbooked strategy |
| RegistryContract.StrategyRegistry.UpdateCap | contracts/strategy_registry/src/lib.rs:74-93 | update_cap never goes below what is booked |
| RegistryContract.StrategyRegistry.PauseStrategy | contracts/strategy_registry/src/lib.rs:95-114 | pause_strategy overwrites any status |
| RegistryContract.StrategyRegistry.UnpauseStrategy | contracts/strategy_registry/src/lib.rs:116-135 | unpause_strategy refuses a revoked strategy |
| RegistryContract.StrategyRegistry.RevokeStrategy | contracts/strategy_registry/src/lib.rs:137-156 | revoke_strategy |
| RegistryContract.StrategyRegistry.RecordAllocation | contracts/strategy_registry/src/lib.rs:158-182 | record_allocation |
| RegistryContract.StrategyRegistry.RecordDeallocation | contracts/strategy_registry/src/lib.rs:184-200 | record_deallocation |
| Adapters.Deposit | contracts/blend_adapter/src/lib.rs:42-61 | A deposit raises what the adapter reports by exactly its amount |
| Adapters.Withdraw | contracts/blend_adapter/src/lib.rs:63-97 | A withdrawal lowers the reported value by exactly its amount, and takes principal only once the yield is used up; the saturating subtraction never saturates |
| Adapters.Harvest | contracts/blend_adapter/src/lib.rs:112-131 | A harvest raises the reported value by exactly the yield it returns |
| Adapters.EmergencyExit | contracts/blend_adapter/src/lib.rs:133-151 | An emergency exit reports everything and leaves nothing |
| Adapters.DepositedIff | contracts/blend_adapter/src/lib.rs:42-61 | A deposit is accepted if and only if the vault makes it, the adapter is not paused, the amount is positive and the principal fits; it adds to the principal alone |
| Adapters.WithdrawnIff | contracts/blend_adapter/src/lib.rs:63-97 | A withdrawal is accepted if and only if the vault makes it and the amount is positive and reported, paused or not; it draws on the yield first and on the principal for the rest |
| Adapters.HarvestedIff | contracts/blend_adapter/src/lib.rs:112-131 | A harvest is accepted if and only if the vault makes it and the numbers fit; it books the rate's share of the principal, rounded down |
| Adapters.ExitedIff | contracts/blend_adapter/src/lib.rs:133-151 | An exit is accepted if and only if the vault makes it and the total fits; it empties the books and pauses |
| AdapterContracts.BlendAdapter.Deposit | contracts/blend_adapter/src/lib.rs:42-61 | deposit, proved against the adapters' common specification |
| AdapterContracts.BlendAdapter.Withdraw | contracts/blend_adapter/src/lib.rs:63-97 | withdraw, yield first, with the transfer back to the vault, proved against the adapters' common specification |
| AdapterContracts.BlendAdapter.Harvest | contracts/blend_adapter/src/lib.rs:112-131 | harvest books the simulated yield, proved against the adapters' common specification |
| AdapterContracts.BlendAdapter.EmergencyExit | contracts/blend_adapter/src/lib.rs:133-151 | emergency_exit empties the books and returns everything to the vault, proved against the adapters' common specification |
| AdapterContracts.SoroswapAdapter.Deposit | contracts/soroswap_adapter/src/lib.rs:44-67 | deposit, proved against the adapters' common specification |
| AdapterContracts.SoroswapAdapter.Withdraw | contracts/soroswap_adapter/src/lib.rs:69-108 | withdraw, yield first, with the transfer back to the vault, proved against the adapters' common specification |
| AdapterContracts.SoroswapAdapter.Harvest | contracts/soroswap_adapter/src/lib.rs:123-142 | harvest books the simulated yield, proved against the adapters' common specification |
| AdapterContracts.SoroswapAdapter.EmergencyExit | contracts/soroswap_adapter/src/lib.rs:144-163 | emergency_exit empties the books and returns everything to the vault, proved against the adapters' common specification |
| AdapterContracts.MockStrategy.Deposit | contracts/mock_strategy/src/lib.rs:28-44 | deposit, proved against the adapters' common specification |
| AdapterContracts.MockStrategy.Withdraw | contracts/mock_strategy/src/lib.rs:46-66 | withdraw, yield first, with the transfer back to the vault, proved against the adapters' common specification |
| AdapterContracts.MockStrategy.Harvest | contracts/mock_strategy/src/lib.rs:72-85 | harvest books the simulated yield, proved against the adapters' common specification |
| AdapterContracts.MockStrategy.EmergencyExit | contracts/mock_strategy/src/lib.rs:87-102 | emergency_exit empties the books and returns everything to the vault, proved against the adapters' common specification |
| AdapterContracts.Adapter.EmergencyExit | contracts/vault/src/lib.rs:224-226 | The vault's call goes to whichever of the three contracts stands at the address, with the common specification |
| AdapterContracts.Adapter.Withdraw | contracts/vault/src/lib.rs:195-197 | The vault's call goes to whichever of the three contracts stands at the address, with the common specification |
| AdapterContracts.Adapter.Deposit | contracts/vault/src/lib.rs:166-172 | The vault's call goes to whichever of the three contracts stands at the address, with the common specification |
| Policy.SlidingWindow | contracts/policy_account/src/lib.rs:122-145 | In any 17280 consecutive ledgers of any run, at most twice the daily limit is spent, plus what was recorded back as negative amounts in them or in the 17280 before |
| Policy.SlidingWindowIsTight | contracts/policy_account/src/lib.rs:122-145 | Twice the limit is reached, with nothing recorded back, in every window that starts strictly between two resets |
| Policy.OneLimitIff | contracts/policy_account/src/lib.rs:122-145 | For an account deployed at a ledger, no run that records nothing back in a window spends more than one limit in it if and only if the window starts by then or just when the first reset falls due |
| Policy.WithinOneReset | contracts/policy_account/src/lib.rs:122-145 | Until the next reset, what is spent, on top of what was spent before, stays within one limit and what is recorded back |
| Policy.RecordedIff | contracts/policy_account/src/lib.rs:88-146 | Spending is accepted if and only if an enabled agent signs it, on an allowed target, within the transaction limit and what is left of the daily limit, which starts over 17280 ledgers after the last reset; it is added to what was spent |
| Policy.ConfiguredIff | contracts/policy_account/src/lib.rs:48-86 | A setting goes through if and only if the admin signs it and limits are positive; it sets what it names and nothing else |
| Policy.OnlyTheAdminConfigures | contracts/policy_account/src/lib.rs:48-146 | Nobody but the admin changes the allowlists or the limits |
| Policy.NoBoundButForClosedWindows | contracts/policy_account/src/lib.rs:105-145 | Over all runs of an account, those that record amounts back included, one limit, two limits or any other bound holds in a window if and only if the window was over when the account was deployed |
| Policy.NegativeAmountsLiftTheBound | contracts/policy_account/src/lib.rs:105-145 | Negative amounts are accepted: for every account with an agent, a target and a full limit, every window that starts strictly between two resets and every amount recorded back, some run spends two limits and just that amount in the window |
| PolicyContract.PolicyAccount.VerifyAndRecordAction | contracts/policy_account/src/lib.rs:88-146 | verify_and_record_action: the checks in their order, the reset after a day's ledgers, and the recorded spend |
| PolicyContract.PolicyAccount.SetAgentStatus | contracts/policy_account/src/lib.rs:48-60 | set_agent_status |
| PolicyContract.PolicyAccount.SetContractAllowed | contracts/policy_account/src/lib.rs:62-74 | set_contract_allowed |
| PolicyContract.PolicyAccount.SetLimits | contracts/policy_account/src/lib.rs:76-86 | set_limits |
| Streaming.PathIndependent | contracts/streamer/src/lib.rs:23-133 | After any run from deployment in which no accepted initialize comes after a stream, each stream has claimed exactly floor(total * min(elapsed, duration) / duration) at its last harvest, so the number of harvests never changes what is paid; what harvests paid for a vault and token is the sum of that; and the contract holds at least what it still owes in every token |
| Streaming.PaidProRata | contracts/streamer/src/lib.rs:33-133 | After any run in time from deployment, every stream last brought up to date at `t` has been paid everything if it was over by then, and otherwise the `x` with x * duration <= total * (t - start) < (x + 1) * duration |
| Streaming.HarvestPaysWhatIsDue | contracts/streamer/src/lib.rs:86-168 | For any amounts that are due pro rata by now, get_claimable announces, and a harvest pays, their sum less what the streams have been paid |
| Streaming.HarvestLeavesPaidProRata | contracts/streamer/src/lib.rs:98-125 | After a harvest every stream of the pair has been paid just what was due pro rata |
| Streaming.OneStreamIsPaidProRata | contracts/streamer/src/lib.rs:86-168 | Of a pair with one stream: what get_claimable announces, and what a harvest pays, brings the stream to its pro rata share |
| Streaming.AnnouncedIff | contracts/streamer/src/lib.rs:135-168 | get_claimable answers if and only if the products and the sum fit |
| Streaming.HarvestedIff | contracts/streamer/src/lib.rs:86-133 | A harvest, which anybody may make, goes through if and only if these fit and the vault's balance can take the payout; custody always can pay it |
| Streaming.AddedIff | contracts/streamer/src/lib.rs:33-84 | A stream is accepted if and only if who pays for it signs and has the tokens, amount and duration are positive, and the sums fit; the tokens move from the payer to the streamer |
| Streaming.UnsignedUserKeepsTokens | contracts/streamer/src/lib.rs:23-133 | Over any run in which a user signs nothing its tokens never fall, whatever the token |
| Streaming.KeptFromDeploymentIffInTime | contracts/streamer/src/lib.rs:23-84 | After any run from deployment, numbering, index and custody are kept if and only if the accepted initialize, if any, came before the first stream |
| Streaming.InitializationKeepsIff | contracts/streamer/src/lib.rs:23-31 | An accepted initialize keeps numbering and index if and only if no stream exists |
| Streaming.InitializedIff | contracts/streamer/src/lib.rs:23-31 | initialize goes through exactly once, whoever calls it, and starts the count over |
| Streaming.MisnumberedForGood | contracts/streamer/src/lib.rs:23-84 | Once initialize has come after a stream, no later call restores numbering and index |
| Streaming.LateInitializationMisdirects | contracts/streamer/src/lib.rs:23-133 | A run in which a late initialize lets one vault's harvest pay out another vault's stream |
| Streaming.LateInitializationLosesCustody | contracts/streamer/src/lib.rs:23-133 | A run in which, after a late initialize, a harvest leaves the contract with 1 unit of a token in which it owes 1000 |
| Streaming.NoDust | contracts/streamer/src/lib.rs:98-125 | A harvest at or after a stream's end leaves exactly nothing unclaimed |
| Streaming.HarvestPaysWhatWasAnnounced | contracts/streamer/src/lib.rs:86-168 | A harvest pays exactly what get_claimable reported |
| Streaming.HarvestTouchesNothingElse | contracts/streamer/src/lib.rs:86-133 | In every state a harvest leaves what its pair does not list, and every other token, untouched; while numbering and index are kept that covers the streams of every other pair |
| Streaming.HarvestMovesThePayout | contracts/streamer/src/lib.rs:126-131 | A harvest moves exactly its payout from the streamer to the vault |
| Streaming.StepKeeps | contracts/streamer/src/lib.rs:23-133 | Every call, an initialize before the first stream included, keeps the index (each pair lists exactly its streams, once each) and keeps each token's balance at or above what is owed in it |
| Streaming.ClaimForgetsThePast | contracts/streamer/src/lib.rs:98-118 | Harvesting now leaves the same claimed amount whenever the stream was harvested before |
| StreamerContract.LinearYieldStreamer.Initialize | contracts/streamer/src/lib.rs:23-31 | initialize: by anybody, once, with the count restarted |
| StreamerContract.LinearYieldStreamer.AddYieldStream | contracts/streamer/src/lib.rs:33-84 | add_yield_stream: the transfer in, the record and the index |
| StreamerContract.LinearYieldStreamer.ClaimableOf | contracts/streamer/src/lib.rs:98-118 | The arithmetic of one stream, which both loops repeat, with its overflow |
| StreamerContract.LinearYieldStreamer.Gather | contracts/streamer/src/lib.rs:98-125 | The loop of a harvest over the pair's streams |
| StreamerContract.LinearYieldStreamer.HarvestClaimable | contracts/streamer/src/lib.rs:86-133 | harvest_claimable: the gathering, the payout, and the error paths with their rollback |
| StreamerContract.LinearYieldStreamer.GetClaimable | contracts/streamer/src/lib.rs:135-168 | get_claimable: the read-only loop |
| Governance.ExecutedLawfully | contracts/governance/src/lib.rs:149-311 | After any run: tallies are the sums of one positive ballot per voter, cast within the voting period; an executed proposal had more votes for than against, was executed no earlier than its eta, which is later than the end of voting plus the timelock, and had no vetoes or fewer than max(10^9, floor(total * bps / 10000)) |
| Governance.FinalIsForever | contracts/governance/src/lib.rs:201-311 | Defeated, vetoed and executed proposals never change again over any run |
| Governance.VotesSettle | contracts/governance/src/lib.rs:153-155 | Once the voting period is over, no run changes a tally |
| Governance.UnvotedIsNeverDefeated | contracts/governance/src/lib.rs:262-268 | A proposal nobody voted on never becomes defeated: over any run after its vote it stays active or is vetoed |
| Governance.ShareReachedButNotStopped | contracts/governance/src/lib.rs:214-227 | If the veto share is reached, the proposal is not stopped if and only if all its vetoes were cast before its first vote, with less power than 10^9 |
| Governance.EarlyVetoIsOutrun | contracts/governance/src/lib.rs:214-227 | A run in which a proposal is executed against a veto 999999999 times as strong as its only vote |
| Governance.StepKeeps | contracts/governance/src/lib.rs:74-321 | Every call keeps numbering, tallies, one ballot and one veto per address, and the rules of each state |
| Governance.VetoKeepsGood | contracts/governance/src/lib.rs:210-227 | A veto stops a proposal exactly when the trigger is reached then, and what was stopped stays past the trigger |
| Governance.VotedIff | contracts/governance/src/lib.rs:129-180 | A ballot is accepted if and only if its voter signs, with positive power, the proposal is active, its vote is open and the voter has not voted; it raises the tally of its kind, and nothing else |
| Governance.VetoedIff | contracts/governance/src/lib.rs:182-238 | A veto is accepted if and only if its staker signs, with positive power, and has not vetoed, and the proposal is active or queued; it stops the proposal if and only if the veto votes reach the share of the votes cast, or the fixed amount while there are none |
| Governance.CreatedIff | contracts/governance/src/lib.rs:74-127 | A proposal is made if and only if its creator signs and the contract is configured; it starts without votes and its vote ends after the voting period |
| Governance.SettledIff | contracts/governance/src/lib.rs:240-289 | Exactly when queueing goes through, which is after the vote and with at least one vote, and whether it queues or defeats the proposal |
| Governance.ExecutedIff | contracts/governance/src/lib.rs:291-321 | A proposal is executed if and only if it is queued and its timelock is over |
| Governance.InitializedIff | contracts/governance/src/lib.rs:43-72 | The configuration is accepted once, signed by the admin it names |
| Governance.TermsStand | contracts/governance/src/lib.rs:74-321 | Over any run a proposal keeps its creator, texts, target, action, parameter and dates: what is executed is what was voted on |
| Governance.BallotsAreSigned | contracts/governance/src/lib.rs:129-180 | Every ballot counted in a run was cast in that run by a call that its voter signed |
| Governance.VetoesAreSigned | contracts/governance/src/lib.rs:182-238 | And so was every veto by its staker |
| GovernanceContract.HikariGovernance.Initialize | contracts/governance/src/lib.rs:43-72 | initialize, once |
| GovernanceContract.HikariGovernance.CreateProposal | contracts/governance/src/lib.rs:74-127 | create_proposal numbers the proposal and opens its vote |
| GovernanceContract.HikariGovernance.CastVote | contracts/governance/src/lib.rs:129-180 | cast_vote: the checks in order, the tally, the voter's mark |
| GovernanceContract.HikariGovernance.CastVeto | contracts/governance/src/lib.rs:182-238 | cast_veto: the checks in order, the trigger, the staker's mark |
| GovernanceContract.HikariGovernance.QueueProposal | contracts/governance/src/lib.rs:240-289 | queue_proposal, with the lost write of the zero-vote case |
| GovernanceContract.HikariGovernance.ExecuteProposal | contracts/governance/src/lib.rs:291-321 | execute_proposal |
| Queue.BatchIffEachClaimable | contracts/withdrawal_queue/src/lib.rs:146-196 | A batch is accepted if and only if its ids are distinct, each can be claimed on its own at the start, and the running totals fit; then it pays the sum and removes just those requests |
| Queue.ClaimedIff | contracts/withdrawal_queue/src/lib.rs:140-196 | A claim is accepted if and only if its user signs, the request is that user's, is finalized and past its cooldown and the extra one in bunker mode, and the numbers fit; it removes that request alone and pays the finalized amount, in bunker mode its share after the haircut, rounded toward zero |
| Queue.CancelledIff | contracts/withdrawal_queue/src/lib.rs:198-218 | A cancellation is accepted if and only if its user signs and the request is that user's and not finalized; it returns the shares and removes that request alone |
| Queue.SettledByItsUser | contracts/withdrawal_queue/src/lib.rs:91-218 | Over any run from deployment every request that is gone was settled in a call its own user signed: a cancellation before it was finalized, or a claim or batch after that and after its cooldown |
| Queue.LiveRequestChanges | contracts/withdrawal_queue/src/lib.rs:117-138 | A live request never changes but by its one finalization, which the vault signs |
| Queue.OnlyVaultAndAdmin | contracts/withdrawal_queue/src/lib.rs:52-138 | Without the vault's signature no request is made; without the admin's neither mode, haircut nor cooldowns change |
| Queue.ManagedIff | contracts/withdrawal_queue/src/lib.rs:52-138 | Exactly when the calls of vault and admin go through, and what they set |
| Queue.BatchRefinesSingles | contracts/withdrawal_queue/src/lib.rs:140-157 | An accepted batch has the total and the final state of single claims made in any order |
| Queue.OrderDoesNotMatter | contracts/withdrawal_queue/src/lib.rs:146-157 | Without negative amounts an accepted batch is accepted in every order, with the same result |
| Queue.AcceptedInEveryOrderIff | contracts/withdrawal_queue/src/lib.rs:146-157 | A batch is accepted in every order if and only if the user authorized it, its ids are distinct, each can be claimed, and both the sum of the positive and the sum of the negative payouts fit |
| Queue.NegativeAmountsMakeOrderMatter | contracts/withdrawal_queue/src/lib.rs:117-138 | Amounts below zero can be finalized, and then one order overflows where another does not |
| Queue.SharesConserved | contracts/withdrawal_queue/src/lib.rs:91-218 | Over any run, requested shares are those live, claimed and cancelled, and each request is settled at most once and never live again |
| Queue.FinalizedAmountStands | contracts/withdrawal_queue/src/lib.rs:117-138 | Over any run a finalized request either keeps its owner, shares and amount or is gone for good |
| Queue.StepKeeps | contracts/withdrawal_queue/src/lib.rs:91-218 | Every call keeps that account |
| Queue.HaircutIsAtMostHalf | contracts/withdrawal_queue/src/lib.rs:60-192 | Bunker mode pays at most the finalized amount and at least half of it, rounded |
| QueueContract.WithdrawalQueue.EnterBunkerMode | contracts/withdrawal_queue/src/lib.rs:60-73 | enter_bunker_mode, with a haircut of at most 5000 bps |
| QueueContract.WithdrawalQueue.ExitBunkerMode | contracts/withdrawal_queue/src/lib.rs:75-83 | exit_bunker_mode |
| QueueContract.WithdrawalQueue.RequestWithdrawal | contracts/withdrawal_queue/src/lib.rs:91-115 | request_withdrawal numbers and stores the request |
| QueueContract.WithdrawalQueue.FinalizeWithdrawal | contracts/withdrawal_queue/src/lib.rs:117-138 | finalize_withdrawal, once |
| QueueContract.WithdrawalQueue.InternalClaim | contracts/withdrawal_queue/src/lib.rs:159-196 | internal_claim: owner, finalization, cooldown, haircut and removal |
| QueueContract.WithdrawalQueue.ClaimWithdrawal | contracts/withdrawal_queue/src/lib.rs:140-143 | claim_withdrawal |
| QueueContract.WithdrawalQueue.ClaimBatch | contracts/withdrawal_queue/src/lib.rs:146-157 | claim_batch: the loop with its running total; a failure undoes the whole batch |
| QueueContract.WithdrawalQueue.CancelWithdrawal | contracts/withdrawal_queue/src/lib.rs:198-218 | cancel_withdrawal returns the shares of a request that is not finalized |
| Fees.PerformanceFeesTelescope | contracts/fee_controller/src/lib.rs:71-95 | Over any run with assets up to A and rates up to B, the mark never falls and all performance fees together are at most A * (rise of the mark) * B / (10000 * 10^7): a fall and recovery is never charged twice |
| Fees.ChargedIff | contracts/fee_controller/src/lib.rs:77-94 | A performance fee is charged if and only if value is above the mark and the gain reaches ceil(10000 / bps) stroops, with assets and rate positive |
| Fees.AssessedExactly | contracts/fee_controller/src/lib.rs:71-95 | The performance fee floor by floor, from both sides: the part of the assets by which the value rose over the mark, and of that the rate; the value becomes the mark |
| Fees.AssessedIff | contracts/fee_controller/src/lib.rs:71-95 | An assessment goes through if and only if the vault signs it and both products fit |
| Fees.ManagementFeeExactly | contracts/fee_controller/src/lib.rs:52-69 | The management fee from both sides: the rate's share of the assets for the part of a year that has passed, rounded down; refused exactly if the product does not fit |
| Fees.RoutedIff | contracts/fee_controller/src/lib.rs:97-128 | A fee is routed if and only if the vault signs, the controller has it and the balances fit; only a positive one moves the accrual clock |
| Fees.RatesSetIff | contracts/fee_controller/src/lib.rs:130-142 | Rates are set if and only if the admin signs and they are at most 500 and 2500 basis points |
| Fees.AboveTheMarkWithoutFee | contracts/fee_controller/src/lib.rs:87-94 | Value above the mark and no fee, although the mark is raised |
| Fees.PiecewiseWithinAStroopEach | contracts/fee_controller/src/lib.rs:52-128 | On fixed assets, fees calculated and routed at any ledgers, whichever of these charges fail, and what is then still pending never exceed one charge at the end, and fall short of it by at most one stroop per routed fee |
| Fees.NothingPending | contracts/fee_controller/src/lib.rs:52-128 | If the last of the charges goes through, nothing is pending |
| Fees.PiecesOfDue | contracts/fee_controller/src/lib.rs:59-68 | Routed fees and what is still pending make up what is due, to within one stroop per routed fee |
| Fees.RoutedInFull | contracts/fee_controller/src/lib.rs:110-125 | A routed fee leaves the controller to the last stroop: half to the reserve rounded down, the rest to the treasury, nothing to anybody else |
| Fees.RoutingConserves | contracts/fee_controller/src/lib.rs:110-125 | Routing a fee neither creates nor loses assets, even where the three parties coincide |
| FeesContract.FeeController.CalculateManagementFee | contracts/fee_controller/src/lib.rs:52-69 | calculate_management_fee |
| FeesContract.FeeController.AssessPerformanceFee | contracts/fee_controller/src/lib.rs:71-95 | assess_performance_fee and the new mark |
| FeesContract.FeeController.RouteFee | contracts/fee_controller/src/lib.rs:97-128 | route_fee: the two transfers and the accrual clock, which a zero fee leaves alone |
| FeesContract.FeeController.UpdateFeeRates | contracts/fee_controller/src/lib.rs:130-142 | update_fee_rates, capped at 500 and 2500 bps |
| Merkle.Complete | engine/src/cryptographic_verifier.ts:48-90 | For every nonempty list and every index, the generated proof is accepted, odd levels included |
| Merkle.SmallestTrees | engine/src/cryptographic_verifier.ts:27-46 | The roots of one, two and three leaves: left before right, and an odd last node twice |
| Merkle.Binding | engine/src/cryptographic_verifier.ts:79-90 | An accepted proof of the tree's depth for a digest and an index below the number of leaves shows the leaf at that index and is the generated proof, or FindCollision returns two strings with one hash |
| Merkle.ShorterProofShowsInnerNode | engine/src/cryptographic_verifier.ts:79-90 | A proof that is shorter than the tree's depth shows the inner node that many levels up which the index leads to, with that node's own proof, or a collision is returned |
| Merkle.LongerProofOpensLeaf | engine/src/cryptographic_verifier.ts:79-90 | A proof that is longer hashes, along its extra nodes, to the leaf that the rest of the index leads to, and continues with that leaf's own proof, or a collision is returned |
| Merkle.GenuineIffDigest | engine/src/cryptographic_verifier.ts:79-90 | For an accepted proof of the tree's depth: barring a collision, the leaf is genuine exactly if it is a digest |
| Merkle.SameRootIffSameFilled | engine/src/cryptographic_verifier.ts:27-46 | Barring a collision, which FindRootCollision would return, two lists of digests of one depth have one root if and only if they become equal once every odd level is filled up with its last node |
| Merkle.SameRootSameLeaves | engine/src/cryptographic_verifier.ts:27-46 | Two lists of equal length with one root are equal, or a collision is returned |
| Merkle.RepeatedLastLeafKeepsRoot | engine/src/cryptographic_verifier.ts:36-43 | Repeating the last leaf of an odd list keeps the root: lists of different length can share one |
| Merkle.ShiftedLeafIsAccepted | engine/src/cryptographic_verifier.ts:83-87 | A leaf that is not a digest can be accepted: characters move between it and its sibling |
| Merkle.HighIndexBitsAreIgnored | engine/src/cryptographic_verifier.ts:83-87 | Indices that agree in the lowest bits, as many as the proof has nodes, are not told apart |
| CryptographicVerifier.BuildMerkleTree | engine/src/cryptographic_verifier.ts:27-46 | The loop computes the root of the tree; an empty list has the hash of a fixed text |
| CryptographicVerifier.GenerateProof | engine/src/cryptographic_verifier.ts:48-77 | The loop collects the sibling at every level; outside the list the proof is empty |
| CryptographicVerifier.VerifyProof | engine/src/cryptographic_verifier.ts:79-90 | The loop folds the proof by the bits of the index |
| SolvencyProver.ProversAgree | services/automation/src/merkle-solvency.ts:110-138 | Both provers give the same sibling hashes, and the named sides spell the index |
| SolvencyProver.RootsAgree | services/automation/src/merkle-solvency.ts:70-88 | Both provers compute the same root |
| SolvencyProver.SidesSpellTheIndex | services/automation/src/merkle-solvency.ts:154-168 | Checking by named sides is checking by the index they spell, for every proof |
| SolvencyProver.InclusionIsSound | services/automation/src/merkle-solvency.ts:154-168 | An accepted inclusion proof of the tree's depth for a digest shows a leaf of the tree, or a collision is returned |
| SolvencyProver.InclusionIsComplete | services/automation/src/merkle-solvency.ts:110-168 | Every depositor's inclusion proof is accepted |
| SolvencyProver.ComputeMerkleTree | services/automation/src/merkle-solvency.ts:70-88 | The loop computes the root, the leaves and all levels |
| SolvencyProver.CollectSteps | services/automation/src/merkle-solvency.ts:120-138 | The loop over the levels collects the steps of the proof |
| SolvencyProver.GetInclusionProof | services/automation/src/merkle-solvency.ts:110-152 | A registered address gets its proof, always already verified; any other gets none |
| SolvencyProver.VerifyInclusion | services/automation/src/merkle-solvency.ts:154-168 | The loop folds the steps by their named sides |
| AuditLog.AcceptsExactlyThePrefixes | engine/src/audit_logger.ts:42-53 | Among all sequences put together from logged entries, the check accepts exactly the prefixes of the log, so every interior deletion, reordering or repetition is seen |
| AuditLog.LogIsLinked | engine/src/audit_logger.ts:8-53 | Whatever was logged, the check accepts the log |
| AuditLog.RewrittenContentIsAccepted | engine/src/audit_logger.ts:42-53 | Rewriting everything but the two hash fields of every entry changes nothing for the check |
| AuditLog.LastHashFixesHistory | engine/src/audit_logger.ts:12-37 | Two logs that end in the same hash agree, decision by decision in the same order, in time, proposal, proposer, target, amount, approval, need of an operator and violations, or FindCollision returns two payloads with one hash |
| AuditLog.SameLastHashIff | engine/src/audit_logger.ts:12-37 | Barring a collision, which FindCollision would return, two logs end in the same hash if and only if they record the same decisions in the same order, up to the notes, the kind of action and the slippage |
| AuditLog.EntryRecords | engine/src/audit_logger.ts:8-40 | Every entry of a log has its place as sequence number, the time, proposal and evaluation of its decision, and the hash of the entry before it |
| AuditLog.AuditLogger.LogDecision | engine/src/audit_logger.ts:8-40 | logDecision appends the entry of the decision and nothing else |
| AuditLog.AuditLogger.VerifyChainIntegrity | engine/src/audit_logger.ts:42-53 | The loop decides whether the chain is linked, and accepts every chain the logger itself wrote |
| Keeper.VerifierRefusesIffOnRoundedFloor | engine/src/agents/keeper_bot.ts:65-72 | With one percentage on both sides, the verifier's reserve check refuses a keeper's proposal if and only if it leaves idle assets exactly on the rounded-down floor and the floor was rounded |
| Keeper.LeavesTheFloor | engine/src/agents/keeper_bot.ts:65-72 | Every proposal is positive and leaves at least the rounded-down floor idle |
| Keeper.RefusalHappens | engine/src/policy_verifier.ts:56-66 | A state in which the verifier refuses what the keeper proposes |
| Keeper.Pick | engine/src/agents/keeper_bot.ts:45-62 | The loop's choice: the first strategy of maximal positive drift, or none if no drift is positive |
| Keeper.ProposedIff | engine/src/agents/keeper_bot.ts:29-91 | The keeper proposes if and only if the reserve is kept, the largest drift reaches the threshold, and half of the drift and the idle assets above the reserve are at least a stroop; it proposes the smaller of the two, rounded down |
| Keeper.DriftIs | engine/src/agents/keeper_bot.ts:49-55 | A drift is the target less the strategy's weight, rounded down to a basis point |
| Keeper.NeverPastTarget | engine/src/agents/keeper_bot.ts:45-72 | With a threshold of at least 2 bps, applying a proposal never takes its strategy past its target weight |
| Keeper.PastTargetAtOneBasisPoint | engine/src/agents/keeper_bot.ts:59-65 | With any threshold of 1 bps or less it can |
| Keeper.NeverOvershootsIff | engine/src/agents/keeper_bot.ts:45-72 | A threshold keeps every proposal, in every sensible state and for all target weights, from going past its target if and only if it is at least 2 bps |
| Keeper.Rebalance | engine/src/agents/keeper_bot.ts:29-91 | Proposing and applying terminates, with the idle assets as measure, in a state where nothing is proposed |
| Keeper.RebalanceConserves | engine/src/agents/keeper_bot.ts:29-91 | Rebalancing to the end moves assets without loss and leaves the reserve floor idle |
| Keeper.RebalanceStaysWithinTargets | engine/src/agents/keeper_bot.ts:29-91 | Over the whole rebalancing no strategy that starts within its target is taken past it |
| Keeper.RebalanceReachesItsGoal | engine/src/agents/keeper_bot.ts:64-90 | It ends with idle assets at the reserve floor, or with every drift under the threshold or too small to allocate |
| KeeperBot.AutonomousKeeperBot.LargestDrift | engine/src/agents/keeper_bot.ts:46-62 | The loop over the target weights |
| KeeperBot.AutonomousKeeperBot.EvaluateRebalance | engine/src/agents/keeper_bot.ts:29-91 | evaluateRebalance: the guards, the choice, the clamp, the proposal and the cycle count |
| KeeperBot.AutonomousKeeperBot.RunKeeperCycle | engine/src/agents/keeper_bot.ts:196-218 | The rebalancing part of a cycle: what the verifier approves is logged, nothing else is, and nothing happens in bunker mode |
| RiskAgent.NeverRefused | agents/src/risk_agent.ts:28-45 | Allocations sized by the risk agent are a quarter of what is idle above 15% of the total, rounded down, and are never refused by the reserve check for any percentage up to 15 |
| RiskAgent.SafeIff | agents/src/risk_agent.ts:12-56 | An allocation is taken to be safe if and only if there is a strategy and more than 15% is idle |
| Verifier.DailyCapHolds | engine/src/policy_verifier.ts:35-82 | On no day of any run do the positive amounts approved without an operator exceed the daily cap plus what was recorded back that day |
| Verifier.ApprovedIff | engine/src/policy_verifier.ts:11-90 | A proposal is approved if and only if agent and strategy are known, the amount is within both limits, the slippage within its own, and an allocation is idle and leaves the percentage idle, unrounded; only what needs no operator is recorded at once |
| Verifier.NamedIff | engine/src/policy_verifier.ts:18-67 | The violations named are exactly the rules broken, each with its numbers |
| Verifier.ManualApprovalRecords | engine/src/policy_verifier.ts:92-108 | A manual approval is added to the day's spend, which starts over on a new day |
| Verifier.RecordingBackLiftsTheCap | engine/src/policy_verifier.ts:28-82 | For every amount recorded back there is a run that approves the cap and that amount on one day |
| Verifier.CapKeptIffNothingIsApproved | engine/src/policy_verifier.ts:18-82 | The cap alone bounds what is approved on every day of every run if and only if the rules let no positive amount be approved without an operator |
| Verifier.LeftOfTheCap | engine/src/policy_verifier.ts:35-108 | From any state on, what is approved automatically on a day is at most what is left of its cap plus what is recorded back |
| Verifier.PolicyVerifier.CollectViolations | engine/src/policy_verifier.ts:18-68 | The checks of evaluateProposal collect all violations in their order |
| Verifier.PolicyVerifier.EvaluateProposal | engine/src/policy_verifier.ts:11-90 | evaluateProposal: all violations in their order, the notes, the verdict and the recorded spend |
| Verifier.PolicyVerifier.RecordManualApproval | engine/src/policy_verifier.ts:92-95 | recordManualApproval |
| Verifier.PolicyVerifier.CheckDailyReset | engine/src/policy_verifier.ts:102-108 | checkDailyReset |
| Sdk.DepositMintsThePreview | sdk/src/client.ts:64-72 | previewDeposit is exactly what deposit mints, to the depositor |
| Sdk.WithdrawalPaysThePreview | sdk/src/client.ts:77-93 | previewRedeem without a haircut is exactly what withdraw pays |
| Sdk.BunkerPreview | sdk/src/client.ts:85-92 | On the same nominal amount, previewRedeem with a haircut equals the queue's payout if nominal * haircut is a multiple of 10000, and exceeds it by exactly one stroop otherwise |

## Left out

- Phoenix adapter: its withdrawal and exit report amounts whatever was transferred, so it is not one of the adapters the backing theorem is about.
- Sentinel, gate seal, oracle and factory contracts: one or two guarded writes each.
- Storage lifetimes, events, `set_vault`, upgrades and reentrancy: host behaviour or reconfiguration. The contracts stay wired as deployed.
- The mock strategy's rate setter and the withdrawal queue's vault setter: configuration; the theorems hold for every rate.
- The interface checks of the host's token contract: the underlying asset is modelled by its SEP-41 transfer alone.
- VaultContract.HikariVault.Deposit: promises nothing about the state after an error, since the host discards it; likewise the vault's other methods, the token's, the registry's, the policy account's and the adapters'.
- Missing storage keys that a constructor or `initialize` has written before anything can depend on them.
- Governance quorum: `quorum_bps` is stored and never consulted, so there is nothing to prove about it.
- Governance.ExecutedLawfully: voting power is what the caller passes in, as in the code; that it matches holdings is not claimed.
- SHA-256 and the JSON text that is hashed: the hash is a parameter, and the audit log's payload is the record that the text spells out.
- Rendering of numbers in texts and letter case of addresses: the text of a depositor's leaf and lower-casing are parameters, and violations and notes are records of what their texts report.
- CryptographicVerifier.VerifyProof: a negative or fractional leaf index is not modelled.
- Floating point: target weights are taken as integer basis points, and conversions of big integers to numbers as exact.
- MEV scanning, oracle telemetry, risk metrics, solvency report figures: floating-point heuristics and formatting.
- KeeperBot.AutonomousKeeperBot.RunKeeperCycle: only its rebalancing part, with the bunker decision as a parameter.
- Verifier.DailyCapHolds: assumes that the clock does not run backwards.
- Policy.SlidingWindow: assumes that ledger numbers do not decrease.
- Leaving.EverybodyCanLeave: assumes that the sums involved fit in 128 bits, as `MayExitAll` and `MayRedeem` spell out.
- Merkle.Binding: is about proofs of the tree's depth, since the code checks no length; what shorter and longer proofs show is stated beside it.
- AuditLog.AcceptsExactlyThePrefixes: assumes no collision among the logged payloads and none that hashes to zeros.
- Frontend, social bots, data services, trading agents, x402 client: I/O, UI and network code.
