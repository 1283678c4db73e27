/** The withdrawal queue: requests, finalization, single and batch claims, cancellation, bunker mode. */
module Queue {
  import opened Soroban
  import opened Balances
  import Arith

  const MAX_HAIRCUT_BPS: nat := 5000

  datatype Mode = Turbo | Bunker

  datatype Request = Request(id: nat, user: Address, shares: int, ledger: nat, finalized: bool, claimable: int)

  datatype State = State(admin: Address, vault: Address, cooldown: nat, nextId: nat,
                         mode: Mode, haircutBps: nat, extraCooldown: nat, requests: map<nat, Request>)
  {
    predicate Valid() {
      && 0 < nextId && haircutBps <= MAX_HAIRCUT_BPS
      && forall id :: id in requests ==> 0 < id < nextId && requests[id].id == id && requests[id].shares > 0
    }
  }

  function RequestWithdrawal(s: State, env: Env, user: Address, shares: int): Result<(State, nat)> {
    if !env.Authorized(s.vault) then Err(AuthFailed) else
    :- Need(shares > 0, ZeroAmount);
    :- Need(s.nextId + 1 <= U64_MAX, Panic);
    var request := Request(s.nextId, user, shares, env.ledger, false, 0);
    Ok((s.(nextId := s.nextId + 1, requests := s.requests[s.nextId := request]), s.nextId))
  }

  function Finalize(s: State, env: Env, id: nat, claimable: int): Result<State> {
    if !env.Authorized(s.vault) then Err(AuthFailed) else
    :- Need(id in s.requests, RequestNotFound);
    :- Need(!s.requests[id].finalized, AlreadyFinalized);
    Ok(s.(requests := s.requests[id := s.requests[id].(finalized := true, claimable := claimable)]))
  }

  function ExtraCooldown(s: State): nat {
    if s.mode == Bunker then s.extraCooldown else 0
  }

  /** What a claim pays on a finalized amount; in bunker mode with the haircut, rounded toward zero. */
  function Payout(s: State, claimable: int): int {
    if s.mode == Bunker then TruncDiv(claimable * (10000 - s.haircutBps), 10000) else claimable
  }

  function InternalClaim(s: State, env: Env, user: Address, id: nat): Result<(State, int)> {
    if id !in s.requests then Err(RequestNotFound) else
    var request := s.requests[id];
    :- Need(request.user == user, Unauthorized);
    :- Need(request.finalized, InvalidState);
    var due := request.ledger + s.cooldown + ExtraCooldown(s);
    :- Need(FitsU32(due), Panic);
    :- Need(env.ledger >= due, CooldownNotMet);
    :- Need(s.mode == Bunker ==> Fits(request.claimable * (10000 - s.haircutBps)), Panic);
    Ok((s.(requests := s.requests - {id}), Payout(s, request.claimable)))
  }

  function Claim(s: State, env: Env, user: Address, id: nat): Result<(State, int)> {
    if !env.Authorized(user) then Err(AuthFailed) else
    InternalClaim(s, env, user, id)
  }

  /** One claim after the other within one transaction, with a running total. */
  function ClaimFrom(s: State, env: Env, user: Address, ids: seq<nat>, total: int): Result<(State, int)>
    decreases ids
  {
    if ids == [] then Ok((s, total)) else
      var one :- InternalClaim(s, env, user, ids[0]);
      :- Need(Fits(total + one.1), MathOverflow);
      ClaimFrom(one.0, env, user, ids[1..], total + one.1)
  }

  function ClaimBatch(s: State, env: Env, user: Address, ids: seq<nat>): Result<(State, int)> {
    if !env.Authorized(user) then Err(AuthFailed) else
    ClaimFrom(s, env, user, ids, 0)
  }

  function Cancel(s: State, env: Env, user: Address, id: nat): Result<(State, int)> {
    if !env.Authorized(user) then Err(AuthFailed) else
    :- Need(id in s.requests, RequestNotFound);
    :- Need(s.requests[id].user == user, Unauthorized);
    :- Need(!s.requests[id].finalized, AlreadyFinalized);
    Ok((s.(requests := s.requests - {id}), s.requests[id].shares))
  }

  function EnterBunker(s: State, env: Env, haircutBps: nat, extraCooldown: nat): Result<State> {
    if !env.Authorized(s.admin) then Err(AuthFailed) else
    :- Need(haircutBps <= MAX_HAIRCUT_BPS, InvalidState);
    Ok(s.(mode := Bunker, haircutBps := haircutBps, extraCooldown := extraCooldown))
  }

  function ExitBunker(s: State, env: Env): Result<State> {
    if !env.Authorized(s.admin) then Err(AuthFailed) else
    Ok(s.(mode := Turbo, haircutBps := 0, extraCooldown := 0))
  }

  // Single calls

  /** The request is the user's, is finalized and past its cooldown, and the numbers fit. */
  predicate Claimable(s: State, env: Env, user: Address, id: nat) {
    && id in s.requests && s.requests[id].user == user && s.requests[id].finalized
    && Cooled(s, env, id)
    && (s.mode == Bunker ==> Fits(s.requests[id].claimable * (10000 - s.haircutBps)))
  }

  /** The cooldown since the request, with the extra one in bunker mode, is over. */
  predicate Cooled(s: State, env: Env, id: nat)
    requires id in s.requests
  {
    var due := s.requests[id].ledger + s.cooldown + (if s.mode == Bunker then s.extraCooldown else 0);
    FitsU32(due) && due <= env.ledger
  }

  /** A claim goes through exactly if its user signs and the request is that user's, finalized and past its
      cooldown. It pays what the request is worth now, and removes that request only. */
  lemma ClaimedIff(s: State, env: Env, user: Address, id: nat)
    ensures Claim(s, env, user, id).Ok? <==> env.Authorized(user) && Claimable(s, env, user, id)
    ensures Claim(s, env, user, id).Ok? ==>
      && Claim(s, env, user, id).value.0 == s.(requests := s.requests - {id})
      && (s.Valid() ==> IsWorth(s, s.requests[id].claimable, Claim(s, env, user, id).value.1))
  {
    if s.Valid() && Claim(s, env, user, id).Ok? { WorthItsPayout(s, s.requests[id].claimable); }
  }

  /** What a finalized amount is worth: all of it, or in bunker mode its share after the haircut, less than a
      stroop off and never more, whichever the sign. */
  predicate IsWorth(s: State, claimable: int, payout: int) {
    if s.mode == Turbo then payout == claimable
    else if claimable >= 0 then
      payout * 10000 <= claimable * (10000 - s.haircutBps) < (payout + 1) * 10000
    else
      (payout - 1) * 10000 < claimable * (10000 - s.haircutBps) <= payout * 10000
  }

  lemma WorthItsPayout(s: State, claimable: int)
    requires s.Valid()
    ensures IsWorth(s, claimable, Payout(s, claimable))
  {
    if claimable < 0 { Arith.MulLeInt(claimable, -1, 10000 - s.haircutBps); }
  }

  /** A cancellation goes through exactly if its user signs and the request is that user's and not finalized. It
      returns the shares and removes that request only. */
  lemma CancelledIff(s: State, env: Env, user: Address, id: nat)
    ensures Cancel(s, env, user, id).Ok? <==>
      env.Authorized(user) && id in s.requests && s.requests[id].user == user && !s.requests[id].finalized
    ensures Cancel(s, env, user, id).Ok? ==>
      Cancel(s, env, user, id).value == (s.(requests := s.requests - {id}), s.requests[id].shares)
  {
  }

  // Batches against single claims

  function PaidFor(s: State, id: nat): int {
    if id in s.requests then Payout(s, s.requests[id].claimable) else 0
  }

  function TotalPaid(s: State, ids: seq<nat>): int {
    if ids == [] then 0 else PaidFor(s, ids[0]) + TotalPaid(s, ids[1..])
  }

  /** No partial sum leaves 128 bits. */
  predicate RunningTotalsFit(s: State, ids: seq<nat>, total: int) {
    ids != [] ==> Fits(total + PaidFor(s, ids[0])) && RunningTotalsFit(s, ids[1..], total + PaidFor(s, ids[0]))
  }

  function Without(s: State, ids: seq<nat>): State {
    s.(requests := s.requests - set id | id in ids)
  }

  lemma {:induction false} SameElsewhere(s: State, id: nat, ids: seq<nat>, total: int)
    requires id !in ids
    ensures TotalPaid(s.(requests := s.requests - {id}), ids) == TotalPaid(s, ids)
    ensures RunningTotalsFit(s.(requests := s.requests - {id}), ids, total) == RunningTotalsFit(s, ids, total)
    decreases ids
  {
    if ids != [] { SameElsewhere(s, id, ids[1..], total + PaidFor(s, ids[0])); }
  }

  /** A batch is accepted exactly when its ids are distinct, each can be claimed at the start, and the
      running totals fit. Then it pays the sum and removes just those requests. */
  lemma {:induction false} BatchIffEachClaimable(s: State, env: Env, user: Address, ids: seq<nat>, total: int)
    ensures ClaimFrom(s, env, user, ids, total).Ok? <==>
      NoDup(ids) && (forall id :: id in ids ==> Claimable(s, env, user, id)) && RunningTotalsFit(s, ids, total)
    ensures ClaimFrom(s, env, user, ids, total).Ok? ==>
      ClaimFrom(s, env, user, ids, total).value == (Without(s, ids), total + TotalPaid(s, ids))
    decreases ids
  {
    if ids == [] {
      assert Without(s, ids).requests == s.requests;
    } else if Claimable(s, env, user, ids[0]) {
      var id, rest := ids[0], ids[1..];
      var s' := s.(requests := s.requests - {id});
      AfterOneClaim(s, env, user, id);
      BatchIffEachClaimable(s', env, user, rest, total + PaidFor(s, id));
      HeadAndTail(ids);
      if id !in rest {
        SameElsewhere(s, id, rest, total + PaidFor(s, id));
        WithoutHeadAndTail(s, ids);
      }
    } else {
      assert ids[0] in ids;
    }
  }

  lemma WithoutHeadAndTail(s: State, ids: seq<nat>)
    requires ids != []
    ensures Without(s.(requests := s.requests - {ids[0]}), ids[1..]) == Without(s, ids)
  {
    HeadAndTail(ids);
    assert Without(s.(requests := s.requests - {ids[0]}), ids[1..]).requests == Without(s, ids).requests;
  }

  lemma AfterOneClaim(s: State, env: Env, user: Address, id: nat)
    requires Claimable(s, env, user, id)
    ensures var s' := s.(requests := s.requests - {id});
            && InternalClaim(s, env, user, id) == Ok((s', PaidFor(s, id))) && !Claimable(s', env, user, id)
            && forall other :: other != id ==> Claimable(s', env, user, other) == Claimable(s, env, user, other)
  {
  }

  lemma HeadAndTail(ids: seq<nat>)
    requires ids != []
    ensures NoDup(ids) <==> ids[0] !in ids[1..] && NoDup(ids[1..])
    ensures forall id :: id in ids <==> id == ids[0] || id in ids[1..]
  {
    if ids[0] in ids[1..] {
      var i :| 0 <= i < |ids| - 1 && ids[1..][i] == ids[0];
      assert ids[i + 1] == ids[0];
    }
  }

  /** Single claims as separate transactions: a failing one changes nothing and pays nothing. */
  function ClaimSingly(s: State, env: Env, user: Address, ids: seq<nat>): (State, int)
    decreases ids
  {
    if ids == [] then (s, 0) else
      var one := Claim(s, env, user, ids[0]);
      var rest := ClaimSingly(if one.Ok? then one.value.0 else s, env, user, ids[1..]);
      (rest.0, rest.1 + if one.Ok? then one.value.1 else 0)
  }

  lemma {:induction false} SinglesOfDistinct(s: State, env: Env, user: Address, ids: seq<nat>)
    requires env.Authorized(user) && NoDup(ids)
    requires forall id :: id in ids ==> Claimable(s, env, user, id)
    ensures ClaimSingly(s, env, user, ids) == (Without(s, ids), TotalPaid(s, ids))
    decreases ids
  {
    if ids == [] {
      assert Without(s, ids).requests == s.requests;
    } else {
      var id, rest := ids[0], ids[1..];
      var s' := s.(requests := s.requests - {id});
      assert id in ids && id !in rest;
      forall other | other in rest ensures Claimable(s', env, user, other) {
        assert other in ids && other != id && Claimable(s, env, user, other);
      }
      SinglesOfDistinct(s', env, user, rest);
      SameElsewhere(s, id, rest, 0);
      assert Without(s', rest).requests == Without(s, ids).requests;
    }
  }

  /** The sum of any amount per request; what is paid is one, its positive and its negative part are others. */
  function SumBy(amount: nat -> int, ids: seq<nat>): int {
    if ids == [] then 0 else amount(ids[0]) + SumBy(amount, ids[1..])
  }

  function Paid(s: State): nat -> int { (id: nat) => PaidFor(s, id) }

  function Gains(s: State): nat -> int { (id: nat) => if PaidFor(s, id) > 0 then PaidFor(s, id) else 0 }

  function Losses(s: State): nat -> int { (id: nat) => if PaidFor(s, id) < 0 then PaidFor(s, id) else 0 }

  lemma {:induction false} SumBySplit(amount: nat -> int, a: seq<nat>, b: seq<nat>)
    ensures SumBy(amount, a + b) == SumBy(amount, a) + SumBy(amount, b)
  {
    if a == [] {
      assert a + b == b;
    } else {
      SumBySplit(amount, a[1..], b);
      assert (a + b)[1..] == a[1..] + b;
    }
  }

  lemma {:induction false} SumByAnyOrder(amount: nat -> int, ids: seq<nat>, reordered: seq<nat>)
    requires multiset(ids) == multiset(reordered)
    ensures SumBy(amount, ids) == SumBy(amount, reordered)
    decreases ids
  {
    if ids == [] {
      assert |multiset(reordered)| == 0;
    } else {
      var k := FirstAmong(ids, reordered);
      SumByAnyOrder(amount, ids[1..], reordered[..k] + reordered[k + 1..]);
      SumByTakeOut(amount, reordered, k);
    }
  }

  /** Where the first of some ids stands in another order of them. */
  lemma FirstAmong(ids: seq<nat>, reordered: seq<nat>) returns (k: nat)
    requires ids != [] && multiset(ids) == multiset(reordered)
    ensures k < |reordered| && reordered[k] == ids[0]
    ensures multiset(ids[1..]) == multiset(reordered[..k] + reordered[k + 1..])
  {
    assert ids[0] in multiset(reordered);
    k :| k < |reordered| && reordered[k] == ids[0];
    TakeOut(reordered, k);
    TakeFirst(ids);
  }

  lemma TakeFirst(ids: seq<nat>)
    requires ids != []
    ensures multiset(ids[1..]) == multiset(ids) - multiset{ids[0]}
  {
    assert ids == [ids[0]] + ids[1..];
  }

  lemma SumByTakeOut(amount: nat -> int, ids: seq<nat>, k: nat)
    requires k < |ids|
    ensures SumBy(amount, ids) == amount(ids[k]) + SumBy(amount, ids[..k] + ids[k + 1..])
  {
    assert ids == ids[..k] + ids[k..];
    SumBySplit(amount, ids[..k], ids[k..]);
    SumBySplit(amount, ids[..k], ids[k + 1..]);
  }

  lemma {:induction false} TotalPaidIsSum(s: State, ids: seq<nat>)
    ensures TotalPaid(s, ids) == SumBy(Paid(s), ids)
  {
    if ids != [] { TotalPaidIsSum(s, ids[1..]); }
  }

  lemma TotalPaidAnyOrder(s: State, ids: seq<nat>, reordered: seq<nat>)
    requires multiset(ids) == multiset(reordered)
    ensures TotalPaid(s, ids) == TotalPaid(s, reordered)
  {
    TotalPaidIsSum(s, ids);
    TotalPaidIsSum(s, reordered);
    SumByAnyOrder(Paid(s), ids, reordered);
  }

  lemma TakeOut(ids: seq<nat>, k: nat)
    requires k < |ids|
    ensures multiset(ids[..k] + ids[k + 1..]) == multiset(ids) - multiset{ids[k]}
  {
    assert ids == ids[..k] + [ids[k]] + ids[k + 1..];
  }

  lemma NoDupIsMultiplicity(ids: seq<nat>)
    ensures NoDup(ids) <==> forall id :: id in ids ==> multiset(ids)[id] == 1
  {
    if ids != [] {
      NoDupIsMultiplicity(ids[1..]);
      HeadAndTail(ids);
      assert ids == [ids[0]] + ids[1..];
      forall id ensures multiset(ids)[id] == multiset(ids[1..])[id] + if id == ids[0] then 1 else 0 { }
    }
  }

  lemma SameElements(ids: seq<nat>, reordered: seq<nat>)
    requires multiset(ids) == multiset(reordered)
    ensures NoDup(ids) <==> NoDup(reordered)
    ensures forall id :: id in ids <==> id in reordered
  {
    NoDupIsMultiplicity(ids);
    NoDupIsMultiplicity(reordered);
    assert forall id :: id in ids <==> id in multiset(ids);
    assert forall id :: id in reordered <==> id in multiset(reordered);
  }

  /** A batch that goes through does what the single claims do, in whatever order they are made. */
  lemma BatchRefinesSingles(s: State, env: Env, user: Address, ids: seq<nat>, reordered: seq<nat>)
    requires ClaimBatch(s, env, user, ids).Ok? && multiset(ids) == multiset(reordered)
    ensures ClaimBatch(s, env, user, ids).value == ClaimSingly(s, env, user, reordered)
  {
    BatchIffEachClaimable(s, env, user, ids, 0);
    SameElements(ids, reordered);
    SinglesOfDistinct(s, env, user, reordered);
    TotalPaidAnyOrder(s, ids, reordered);
    assert Without(s, ids).requests == Without(s, reordered).requests;
  }

  lemma {:induction false} NonNegativeTotalsFit(s: State, ids: seq<nat>, total: nat)
    requires forall id :: id in ids ==> PaidFor(s, id) >= 0
    ensures TotalPaid(s, ids) >= 0
    ensures ids != [] ==> (RunningTotalsFit(s, ids, total) <==> Fits(total + TotalPaid(s, ids)))
    decreases ids
  {
    if ids != [] {
      assert ids[0] in ids;
      NonNegativeTotalsFit(s, ids[1..], total + PaidFor(s, ids[0]));
    }
  }

  /** As long as no request was finalized below zero, the order of a batch does not matter at all. */
  lemma OrderDoesNotMatter(s: State, env: Env, user: Address, ids: seq<nat>, reordered: seq<nat>)
    requires multiset(ids) == multiset(reordered) && ClaimBatch(s, env, user, ids).Ok?
    requires forall id :: id in ids ==> PaidFor(s, id) >= 0
    ensures ClaimBatch(s, env, user, reordered) == ClaimBatch(s, env, user, ids)
  {
    BatchIffEachClaimable(s, env, user, ids, 0);
    BatchIffEachClaimable(s, env, user, reordered, 0);
    SameElements(ids, reordered);
    NonNegativeTotalsFit(s, ids, 0);
    NonNegativeTotalsFit(s, reordered, 0);
    TotalPaidAnyOrder(s, ids, reordered);
    assert Without(s, ids).requests == Without(s, reordered).requests;
  }

  /** Every running total lies between the sum of the losses and the sum of the gains. */
  lemma {:induction false} RunningTotalsBetween(s: State, ids: seq<nat>, total: int)
    requires Fits(total) && Fits(total + SumBy(Gains(s), ids)) && Fits(total + SumBy(Losses(s), ids))
    ensures RunningTotalsFit(s, ids, total)
    decreases ids
  {
    if ids != [] {
      SignOfSums(s, ids[1..]);
      RunningTotalsBetween(s, ids[1..], total + PaidFor(s, ids[0]));
    }
  }

  lemma {:induction false} SignOfSums(s: State, ids: seq<nat>)
    ensures SumBy(Gains(s), ids) >= 0 >= SumBy(Losses(s), ids)
  {
    if ids != [] { SignOfSums(s, ids[1..]); }
  }

  /** The requests that pay something, or those that do not. */
  function Select(s: State, ids: seq<nat>, positive: bool): seq<nat> {
    if ids == [] then []
    else (if (PaidFor(s, ids[0]) > 0) == positive then [ids[0]] else []) + Select(s, ids[1..], positive)
  }

  lemma {:induction false} SelectsAll(s: State, ids: seq<nat>)
    ensures multiset(Select(s, ids, true)) + multiset(Select(s, ids, false)) == multiset(ids)
  {
    if ids != [] {
      SelectsAll(s, ids[1..]);
      assert ids == [ids[0]] + ids[1..];
      var one := PaidFor(s, ids[0]) > 0;
      assert Select(s, ids, one) == [ids[0]] + Select(s, ids[1..], one);
      assert Select(s, ids, !one) == Select(s, ids[1..], !one);
    }
  }

  lemma {:induction false} SelectedSums(s: State, ids: seq<nat>)
    ensures SumBy(Gains(s), ids) == TotalPaid(s, Select(s, ids, true))
    ensures SumBy(Losses(s), ids) == TotalPaid(s, Select(s, ids, false))
  {
    if ids != [] {
      SelectedSums(s, ids[1..]);
      var one := PaidFor(s, ids[0]) > 0;
      assert Select(s, ids, one) == [ids[0]] + Select(s, ids[1..], one);
      assert Select(s, ids, one)[1..] == Select(s, ids[1..], one);
      assert Select(s, ids, !one) == Select(s, ids[1..], !one);
    }
  }

  /** A batch that starts with some requests reaches their sum. */
  lemma {:induction false} ReachesTheSum(s: State, first: seq<nat>, rest: seq<nat>, total: int)
    requires Fits(total) && RunningTotalsFit(s, first + rest, total)
    ensures Fits(total + TotalPaid(s, first))
    decreases first
  {
    if first != [] {
      assert (first + rest)[1..] == first[1..] + rest;
      ReachesTheSum(s, first[1..], rest, total + PaidFor(s, first[0]));
    }
  }

  ghost predicate AcceptedInEveryOrder(s: State, env: Env, user: Address, ids: seq<nat>) {
    forall reordered: seq<nat> :: multiset(reordered) == multiset(ids) ==> ClaimBatch(s, env, user, reordered).Ok?
  }

  lemma AcceptedBatchReachesTheSum(s: State, env: Env, user: Address, first: seq<nat>, rest: seq<nat>)
    requires ClaimBatch(s, env, user, first + rest).Ok?
    ensures Fits(TotalPaid(s, first))
  {
    BatchIffEachClaimable(s, env, user, first + rest, 0);
    ReachesTheSum(s, first, rest, 0);
  }

  lemma EveryOrderNeedsBothSums(s: State, env: Env, user: Address, ids: seq<nat>)
    requires AcceptedInEveryOrder(s, env, user, ids)
    ensures Fits(SumBy(Gains(s), ids)) && Fits(SumBy(Losses(s), ids))
  {
    var gains, losses := Select(s, ids, true), Select(s, ids, false);
    SelectsAll(s, ids);
    SelectedSums(s, ids);
    assert multiset(gains + losses) == multiset(ids);
    AcceptedBatchReachesTheSum(s, env, user, gains, losses);
    assert multiset(losses + gains) == multiset(ids);
    AcceptedBatchReachesTheSum(s, env, user, losses, gains);
  }

  lemma BothSumsSuffice(s: State, env: Env, user: Address, ids: seq<nat>, reordered: seq<nat>)
    requires env.Authorized(user) && NoDup(ids) && forall id :: id in ids ==> Claimable(s, env, user, id)
    requires Fits(SumBy(Gains(s), ids)) && Fits(SumBy(Losses(s), ids))
    requires multiset(reordered) == multiset(ids)
    ensures ClaimBatch(s, env, user, reordered).Ok?
  {
    BatchIffEachClaimable(s, env, user, reordered, 0);
    SameElements(ids, reordered);
    SumByAnyOrder(Gains(s), ids, reordered);
    SumByAnyOrder(Losses(s), ids, reordered);
    RunningTotalsBetween(s, reordered, 0);
  }

  /** Exactly when the order of a batch does not matter: its ids are distinct, each can be claimed, and both
      the sum of what the requests pay and the sum of what they take back fit. */
  lemma AcceptedInEveryOrderIff(s: State, env: Env, user: Address, ids: seq<nat>)
    ensures AcceptedInEveryOrder(s, env, user, ids) <==>
      && env.Authorized(user) && NoDup(ids) && (forall id :: id in ids ==> Claimable(s, env, user, id))
      && Fits(SumBy(Gains(s), ids)) && Fits(SumBy(Losses(s), ids))
  {
    if AcceptedInEveryOrder(s, env, user, ids) {
      EveryOrderNeedsBothSums(s, env, user, ids);
      assert ClaimBatch(s, env, user, ids).Ok?;
      BatchIffEachClaimable(s, env, user, ids, 0);
    } else {
      var reordered: seq<nat> :| multiset(reordered) == multiset(ids) && !ClaimBatch(s, env, user, reordered).Ok?;
      if env.Authorized(user) && NoDup(ids) && (forall id :: id in ids ==> Claimable(s, env, user, id))
        && Fits(SumBy(Gains(s), ids)) && Fits(SumBy(Losses(s), ids))
      {
        BothSumsSuffice(s, env, user, ids, reordered);
      }
    }
  }

  /** Three requests of one user, finalized with the largest amount, with one, and with one below zero. */
  function Unbalanced(user: Address): State {
    State(user, user, 0, 4, Turbo, 0, 0,
          map[1 := Request(1, user, 1, 0, true, I128_MAX), 2 := Request(2, user, 1, 0, true, 1),
              3 := Request(3, user, 1, 0, true, -1)])
  }

  /** Nothing forbids finalizing below zero, and then it does: the same three claims overflow in one
      order and not in another. */
  lemma NegativeAmountsMakeOrderMatter(user: Address)
    ensures var s, env := Unbalanced(user), Env(0, 0, {user}, user);
            && s.Valid()
            && ClaimBatch(s, env, user, [1, 2, 3]) == Err(MathOverflow)
            && ClaimBatch(s, env, user, [1, 3, 2]).Ok?
  {
    OneOrderOverflows(user);
    OneOrderFits(user);
  }

  lemma OneOrderOverflows(user: Address)
    ensures ClaimBatch(Unbalanced(user), Env(0, 0, {user}, user), user, [1, 2, 3]) == Err(MathOverflow)
  {
    var s, env := Unbalanced(user), Env(0, 0, {user}, user);
    var s1 := s.(requests := s.requests - {1});
    assert InternalClaim(s, env, user, 1) == Ok((s1, I128_MAX));
    assert InternalClaim(s1, env, user, 2).value.1 == 1;
    assert [1, 2, 3][1..] == [2, 3];
    assert ClaimFrom(s1, env, user, [2, 3], I128_MAX) == Err(MathOverflow);
  }

  lemma OneOrderFits(user: Address)
    ensures ClaimBatch(Unbalanced(user), Env(0, 0, {user}, user), user, [1, 3, 2]).Ok?
  {
    var s, env := Unbalanced(user), Env(0, 0, {user}, user);
    BatchIffEachClaimable(s, env, user, [1, 3, 2], 0);
    assert [1, 3, 2][1..] == [3, 2] && [3, 2][1..] == [2] && [2][1..] == [];
    assert RunningTotalsFit(s, [2], I128_MAX - 1);
    assert RunningTotalsFit(s, [3, 2], I128_MAX);
  }

  /** Bunker mode costs the claimant at most half, and never pays more than the finalized amount. */
  lemma HaircutIsAtMostHalf(s: State, claimable: nat)
    requires s.Valid()
    ensures claimable - 1 <= 2 * Payout(s, claimable) && Payout(s, claimable) <= claimable
  {
    Arith.MulLe(5000, 10000 - s.haircutBps, claimable);
    Arith.MulLe(10000 - s.haircutBps, 10000, claimable);
  }

  // Runs

  datatype Call =
    | RequestCall(user: Address, shares: int)
    | FinalizeCall(id: nat, claimable: int)
    | ClaimCall(user: Address, id: nat)
    | BatchCall(user: Address, ids: seq<nat>)
    | CancelCall(user: Address, id: nat)
    | EnterBunkerCall(haircutBps: nat, extraCooldown: nat)
    | ExitBunkerCall
    | SetCooldownCall(cooldown: nat)

  function Execute(s: State, env: Env, call: Call): Result<State> {
    match call
    case RequestCall(user, shares) => var r :- RequestWithdrawal(s, env, user, shares); Ok(r.0)
    case FinalizeCall(id, claimable) => Finalize(s, env, id, claimable)
    case ClaimCall(user, id) => var r :- Claim(s, env, user, id); Ok(r.0)
    case BatchCall(user, ids) => var r :- ClaimBatch(s, env, user, ids); Ok(r.0)
    case CancelCall(user, id) => var r :- Cancel(s, env, user, id); Ok(r.0)
    case EnterBunkerCall(haircutBps, extraCooldown) => EnterBunker(s, env, haircutBps, extraCooldown)
    case ExitBunkerCall => ExitBunker(s, env)
    case SetCooldownCall(cooldown) =>
      :- Need(env.Authorized(s.admin), AuthFailed);
      Ok(s.(cooldown := cooldown))
  }

  /** A failing call leaves no trace. */
  function Step(s: State, env: Env, call: Call): State {
    match Execute(s, env, call)
    case Ok(s') => s'
    case Err(_) => s
  }

  /** What a run has done: the shares requested, claimed and cancelled, and the requests settled. */
  datatype History = History(requested: int, claimed: int, cancelled: int, settled: seq<nat>)

  const NoHistory: History := History(0, 0, 0, [])

  function SharesOf(s: State, ids: seq<nat>): int {
    if ids == [] then 0 else (if ids[0] in s.requests then s.requests[ids[0]].shares else 0) + SharesOf(s, ids[1..])
  }

  function NextHistory(s: State, h: History, env: Env, call: Call): History {
    if Execute(s, env, call).Err? then h else
      match call
      case RequestCall(_, shares) => h.(requested := h.requested + shares)
      case ClaimCall(_, id) => h.(claimed := h.claimed + SharesOf(s, [id]), settled := h.settled + [id])
      case BatchCall(_, ids) => h.(claimed := h.claimed + SharesOf(s, ids), settled := h.settled + ids)
      case CancelCall(_, id) => h.(cancelled := h.cancelled + SharesOf(s, [id]), settled := h.settled + [id])
      case FinalizeCall(_, _) => h
      case EnterBunkerCall(_, _) => h
      case ExitBunkerCall => h
      case SetCooldownCall(_) => h
  }

  /** The shares of the live requests below `n`. */
  function LiveBelow(requests: map<nat, Request>, n: nat): int {
    if n == 0 then 0 else LiveBelow(requests, n - 1) + if n - 1 in requests then requests[n - 1].shares else 0
  }

  function Live(s: State): int { LiveBelow(s.requests, s.nextId) }

  /** Every request is live or settled, never both and never settled twice, and no share is lost. */
  ghost predicate Accounted(s: State, h: History) {
    && s.Valid()
    && h.requested == Live(s) + h.claimed + h.cancelled
    && NoDup(h.settled)
    && (forall id :: 0 < id < s.nextId ==> (id in h.settled <==> id !in s.requests))
    && forall id :: id in h.settled ==> 0 < id < s.nextId
  }

  lemma {:induction false} LiveSame(a: map<nat, Request>, b: map<nat, Request>, n: nat)
    requires forall id :: id < n ==> (id in a <==> id in b) && (id in a ==> a[id].shares == b[id].shares)
    ensures LiveBelow(a, n) == LiveBelow(b, n)
  {
    if n > 0 { LiveSame(a, b, n - 1); }
  }

  lemma {:induction false} LiveRemove(requests: map<nat, Request>, id: nat, n: nat)
    requires id in requests && id < n
    ensures LiveBelow(requests - {id}, n) == LiveBelow(requests, n) - requests[id].shares
  {
    if id == n - 1 { LiveSame(requests, requests - {id}, id); } else { LiveRemove(requests, id, n - 1); }
  }

  lemma {:induction false} LiveRemoveAll(s: State, ids: seq<nat>)
    requires s.Valid() && NoDup(ids) && forall id :: id in ids ==> id in s.requests
    ensures LiveBelow(Without(s, ids).requests, s.nextId) == Live(s) - SharesOf(s, ids)
    decreases ids
  {
    if ids == [] {
      assert Without(s, ids).requests == s.requests;
    } else {
      var id, rest := ids[0], ids[1..];
      assert id in ids && id !in rest;
      LiveRemoveAll(s, rest);
      LiveRemove(Without(s, rest).requests, id, s.nextId);
      assert Without(s, ids).requests == Without(s, rest).requests - {id};
    }
  }

  lemma SettleKeeps(s: State, h: History, ids: seq<nat>, h': History)
    requires Accounted(s, h) && NoDup(ids) && forall id :: id in ids ==> id in s.requests
    requires h'.requested == h.requested && h'.settled == h.settled + ids
    requires h'.claimed + h'.cancelled == h.claimed + h.cancelled + SharesOf(s, ids)
    ensures Accounted(Without(s, ids), h')
  {
    LiveRemoveAll(s, ids);
    assert forall id :: id in h'.settled <==> id in h.settled || id in ids;
    forall i, j | 0 <= i < j < |h'.settled| ensures h'.settled[i] != h'.settled[j] {
      if i < |h.settled| <= j { assert h.settled[i] in h.settled && ids[j - |h.settled|] in ids; }
    }
  }

  lemma RequestKeeps(s: State, h: History, env: Env, user: Address, shares: int)
    requires Accounted(s, h) && RequestWithdrawal(s, env, user, shares).Ok?
    ensures Accounted(RequestWithdrawal(s, env, user, shares).value.0, h.(requested := h.requested + shares))
  {
    LiveSame(s.requests, RequestWithdrawal(s, env, user, shares).value.0.requests, s.nextId);
  }

  lemma FinalizeKeeps(s: State, h: History, env: Env, id: nat, claimable: int)
    requires Accounted(s, h) && Finalize(s, env, id, claimable).Ok?
    ensures Accounted(Finalize(s, env, id, claimable).value, h)
  {
    LiveSame(s.requests, Finalize(s, env, id, claimable).value.requests, s.nextId);
  }

  lemma StepKeeps(s: State, h: History, env: Env, call: Call)
    requires Accounted(s, h)
    ensures Accounted(Step(s, env, call), NextHistory(s, h, env, call))
  {
    var h' := NextHistory(s, h, env, call);
    if Execute(s, env, call).Err? {
    } else if call.RequestCall? {
      RequestKeeps(s, h, env, call.user, call.shares);
    } else if call.FinalizeCall? {
      FinalizeKeeps(s, h, env, call.id, call.claimable);
    } else if call.BatchCall? {
      BatchIffEachClaimable(s, env, call.user, call.ids, 0);
      assert forall id :: id in call.ids ==> Claimable(s, env, call.user, id);
      SettleKeeps(s, h, call.ids, h');
    } else if call.ClaimCall? {
      assert Step(s, env, call).requests == Without(s, [call.id]).requests;
      SettleKeeps(s, h, [call.id], h');
    } else if call.CancelCall? {
      assert Step(s, env, call).requests == Without(s, [call.id]).requests;
      SettleKeeps(s, h, [call.id], h');
    }
  }

  type Run = seq<(Env, Call)>

  function After(s: State, run: Run): State
    decreases run
  {
    if run == [] then s else After(Step(s, run[0].0, run[0].1), run[1..])
  }

  function HistoryAfter(s: State, h: History, run: Run): History
    decreases run
  {
    if run == [] then h
    else HistoryAfter(Step(s, run[0].0, run[0].1), NextHistory(s, h, run[0].0, run[0].1), run[1..])
  }

  lemma {:induction false} RunKeeps(s: State, h: History, run: Run)
    requires Accounted(s, h)
    ensures Accounted(After(s, run), HistoryAfter(s, h, run))
    decreases run
  {
    if run != [] {
      StepKeeps(s, h, run[0].0, run[0].1);
      RunKeeps(Step(s, run[0].0, run[0].1), NextHistory(s, h, run[0].0, run[0].1), run[1..]);
    }
  }

  function Deployed(admin: Address, vault: Address, cooldown: nat): State {
    State(admin, vault, cooldown, 1, Turbo, 0, 0, map[])
  }

  // Who settles a request

  /** A step that settles a request rightly: its own user signs a cancellation before it is finalized, or a claim
      or a batch with it after it is finalized and past its cooldown. */
  ghost predicate SettledRightly(s: State, env: Env, call: Call, id: nat) {
    && id in s.requests && env.Authorized(s.requests[id].user)
    && if call.CancelCall? then call.user == s.requests[id].user && call.id == id && !s.requests[id].finalized
       else
         && ((call.ClaimCall? && call.id == id) || (call.BatchCall? && id in call.ids))
         && call.user == s.requests[id].user && s.requests[id].finalized && Cooled(s, env, id)
  }

  lemma StepSettlesRightly(s: State, env: Env, call: Call, id: nat)
    requires id in s.requests && id !in Step(s, env, call).requests
    ensures SettledRightly(s, env, call, id)
  {
    if call.BatchCall? {
      BatchIffEachClaimable(s, env, call.user, call.ids, 0);
    } else if call.ClaimCall? {
      ClaimedIff(s, env, call.user, call.id);
    } else if call.CancelCall? {
      CancelledIff(s, env, call.user, call.id);
    }
  }

  /** A live request is changed by nothing but its finalization, which the vault signs, once. */
  lemma LiveRequestChanges(s: State, env: Env, call: Call, id: nat)
    requires s.Valid() && id in s.requests && id in Step(s, env, call).requests
    ensures var r, r' := s.requests[id], Step(s, env, call).requests[id];
            r' == r || (!r.finalized && env.Authorized(s.vault) && call == FinalizeCall(id, r'.claimable)
                        && r' == r.(finalized := true, claimable := r'.claimable))
  {
    if call.BatchCall? { BatchIffEachClaimable(s, env, call.user, call.ids, 0); }
  }

  lemma Later(s: State, run: Run, i: nat)
    requires i < |run|
    ensures After(s, run[..i + 1]) == After(Step(s, run[0].0, run[0].1), run[1..][..i])
  {
    assert run[..i + 1][1..] == run[1..][..i];
  }

  /** The step of a run that settled a request, which the run may also have made. */
  lemma {:induction false} WhenSettled(s: State, run: Run, id: nat) returns (i: nat)
    requires s.Valid() && (id in s.requests || s.nextId <= id < After(s, run).nextId) && id !in After(s, run).requests
    ensures i < |run| && SettledRightly(After(s, run[..i]), run[i].0, run[i].1, id)
    decreases run
  {
    var s' := Step(s, run[0].0, run[0].1);
    StepKeepsValid(s, run[0].0, run[0].1);
    if id in s.requests && id !in s'.requests {
      StepSettlesRightly(s, run[0].0, run[0].1, id);
      i := 0;
      assert run[..0] == [];
    } else {
      if s.nextId <= id < s'.nextId { NewRequestsAreLive(s, run[0].0, run[0].1, id); }
      var k := WhenSettled(s', run[1..], id);
      Later(s, run, k);
      i := k + 1;
    }
  }

  lemma NewRequestsAreLive(s: State, env: Env, call: Call, id: nat)
    requires s.Valid() && s.nextId <= id < Step(s, env, call).nextId
    ensures id in Step(s, env, call).requests
  {
    if call.BatchCall? { BatchIffEachClaimable(s, env, call.user, call.ids, 0); }
  }

  /** Over any run from deployment, every request that is no longer live was settled by a call that its own user
      signed: a cancellation, or a claim after its finalization and its cooldown. */
  lemma SettledByItsUser(admin: Address, vault: Address, cooldown: nat, run: Run, id: nat)
    requires var s := After(Deployed(admin, vault, cooldown), run); 0 < id < s.nextId && id !in s.requests
    ensures exists i: nat :: i < |run|
              && SettledRightly(After(Deployed(admin, vault, cooldown), run[..i]), run[i].0, run[i].1, id)
  {
    var i := WhenSettled(Deployed(admin, vault, cooldown), run, id);
  }

  /** Requests are made and finalized by the vault alone, and bunker mode and cooldown set by the admin alone. */
  lemma OnlyVaultAndAdmin(s: State, env: Env, call: Call)
    ensures !env.Authorized(s.vault) ==>
      Step(s, env, call).nextId == s.nextId && Step(s, env, call).requests.Keys <= s.requests.Keys
    ensures !env.Authorized(s.admin) ==>
      Step(s, env, call) == s.(nextId := Step(s, env, call).nextId, requests := Step(s, env, call).requests)
  {
    if call.BatchCall? { BatchIffEachClaimable(s, env, call.user, call.ids, 0); }
  }

  /** Exactly when the calls of vault and admin go through, and what they set. */
  lemma ManagedIff(s: State, env: Env, call: Call)
    requires !call.ClaimCall? && !call.BatchCall? && !call.CancelCall?
    ensures Execute(s, env, call).Ok? <==>
      && (if call.RequestCall? || call.FinalizeCall? then env.Authorized(s.vault) else env.Authorized(s.admin))
      && (call.RequestCall? ==> call.shares > 0 && s.nextId < U64_MAX)
      && (call.FinalizeCall? ==> call.id in s.requests && !s.requests[call.id].finalized)
      && (call.EnterBunkerCall? ==> call.haircutBps <= 5000)
    ensures Execute(s, env, call).Ok? ==>
      var s' := Execute(s, env, call).value;
      if call.RequestCall? then
        s' == s.(nextId := s.nextId + 1,
                 requests := s.requests[s.nextId := Request(s.nextId, call.user, call.shares, env.ledger, false, 0)])
      else if call.FinalizeCall? then
        s' == s.(requests := s.requests[call.id := s'.requests[call.id]])
        && s'.requests[call.id] == s.requests[call.id].(finalized := true, claimable := call.claimable)
      else if call.SetCooldownCall? then s' == s.(cooldown := call.cooldown)
      else s' == s.(mode := if call.EnterBunkerCall? then Bunker else Turbo,
                    haircutBps := if call.EnterBunkerCall? then call.haircutBps else 0,
                    extraCooldown := if call.EnterBunkerCall? then call.extraCooldown else 0)
  {
  }

  /** Over any run from deployment: requested shares are live, claimed or cancelled, and every request is
      settled at most once, by a claim, within a batch, or by cancellation. */
  lemma SharesConserved(admin: Address, vault: Address, cooldown: nat, run: Run)
    ensures var s, h := After(Deployed(admin, vault, cooldown), run),
                        HistoryAfter(Deployed(admin, vault, cooldown), NoHistory, run);
            && h.requested == Live(s) + h.claimed + h.cancelled
            && NoDup(h.settled)
            && forall id :: 0 < id < s.nextId ==> (id in h.settled <==> id !in s.requests)
  {
    RunKeeps(Deployed(admin, vault, cooldown), NoHistory, run);
  }

  /** Once a request is finalized, no run changes it: it stays as it is until it is claimed, and a claimed
      request never comes back. */
  lemma {:induction false} FinalizedAmountStands(s: State, run: Run, id: nat)
    requires s.Valid() && id in s.requests && s.requests[id].finalized
    ensures id in After(s, run).requests ==> After(s, run).requests[id] == s.requests[id]
    decreases run
  {
    if run != [] {
      var s' := Step(s, run[0].0, run[0].1);
      FinalizedStep(s, run[0].0, run[0].1, id);
      if id in s'.requests { FinalizedAmountStands(s', run[1..], id); } else { GoneForGood(s', run[1..], id); }
    }
  }

  lemma FinalizedStep(s: State, env: Env, call: Call, id: nat)
    requires s.Valid() && id in s.requests && s.requests[id].finalized
    ensures var s' := Step(s, env, call);
            && s'.Valid() && s'.nextId >= s.nextId
            && (id in s'.requests ==> s'.requests[id] == s.requests[id])
  {
    StepKeepsValid(s, env, call);
    if call.BatchCall? { BatchIffEachClaimable(s, env, call.user, call.ids, 0); }
  }

  lemma StepKeepsValid(s: State, env: Env, call: Call)
    requires s.Valid()
    ensures Step(s, env, call).Valid() && Step(s, env, call).nextId >= s.nextId
    ensures forall id :: id in Step(s, env, call).requests && id < s.nextId ==> id in s.requests
  {
    if call.BatchCall? { BatchIffEachClaimable(s, env, call.user, call.ids, 0); }
  }

  lemma {:induction false} GoneForGood(s: State, run: Run, id: nat)
    requires s.Valid() && id < s.nextId && id !in s.requests
    ensures id !in After(s, run).requests
    decreases run
  {
    if run != [] {
      StepKeepsValid(s, run[0].0, run[0].1);
      GoneForGood(Step(s, run[0].0, run[0].1), run[1..], id);
    }
  }
}

/** The contract that stores this state. Each method is a whole transaction: if it fails, the host has
    put back everything it wrote. */
module QueueContract {
  import opened Soroban
  import opened Queue

  class WithdrawalQueue {
    const admin: Address
    const vault: Address
    var cooldownLedgers: nat
    var nextRequestId: nat
    var mode: Mode
    var haircutBps: nat
    var bunkerExtraCooldown: nat
    var requests: map<nat, Request>

    constructor (admin: Address, vault: Address, cooldown: nat)
      ensures Value() == Deployed(admin, vault, cooldown)
    {
      this.admin, this.vault, cooldownLedgers, nextRequestId := admin, vault, cooldown, 1;
      mode, haircutBps, bunkerExtraCooldown, requests := Turbo, 0, 0, map[];
    }

    function Value(): State
      reads this
    {
      State(admin, vault, cooldownLedgers, nextRequestId, mode, haircutBps, bunkerExtraCooldown, requests)
    }

    method EnterBunkerMode(env: Env, haircut: nat, extraCooldown: nat) returns (r: Result<()>)
      modifies this
      ensures match EnterBunker(old(Value()), env, haircut, extraCooldown)
              case Ok(s) => r.Ok? && Value() == s
              case Err(e) => r == Err(e) && Value() == old(Value())
    {
      if !env.Authorized(admin) { return Err(AuthFailed); }
      if haircut > MAX_HAIRCUT_BPS { return Err(InvalidState); }
      mode, haircutBps, bunkerExtraCooldown := Bunker, haircut, extraCooldown;
      return Ok(());
    }

    method ExitBunkerMode(env: Env) returns (r: Result<()>)
      modifies this
      ensures match ExitBunker(old(Value()), env)
              case Ok(s) => r.Ok? && Value() == s
              case Err(e) => r == Err(e) && Value() == old(Value())
    {
      if !env.Authorized(admin) { return Err(AuthFailed); }
      mode, haircutBps, bunkerExtraCooldown := Turbo, 0, 0;
      return Ok(());
    }

    method RequestWithdrawal(env: Env, user: Address, shares: int) returns (r: Result<nat>)
      modifies this
      ensures match Queue.RequestWithdrawal(old(Value()), env, user, shares)
              case Ok((s, id)) => r == Ok(id) && Value() == s
              case Err(e) => r == Err(e) && Value() == old(Value())
    {
      if !env.Authorized(vault) { return Err(AuthFailed); }
      if shares <= 0 { return Err(ZeroAmount); }
      var id := nextRequestId;
      if id + 1 > U64_MAX { return Err(Panic); }
      nextRequestId := id + 1;
      requests := requests[id := Request(id, user, shares, env.ledger, false, 0)];
      return Ok(id);
    }

    method FinalizeWithdrawal(env: Env, id: nat, claimableAssets: int) returns (r: Result<()>)
      modifies this
      ensures match Finalize(old(Value()), env, id, claimableAssets)
              case Ok(s) => r.Ok? && Value() == s
              case Err(e) => r == Err(e) && Value() == old(Value())
    {
      if !env.Authorized(vault) { return Err(AuthFailed); }
      if id !in requests { return Err(RequestNotFound); }
      var request := requests[id];
      if request.finalized { return Err(AlreadyFinalized); }
      requests := requests[id := request.(finalized := true, claimable := claimableAssets)];
      return Ok(());
    }

    method InternalClaim(env: Env, user: Address, id: nat) returns (r: Result<int>)
      modifies this
      ensures match Queue.InternalClaim(old(Value()), env, user, id)
              case Ok((s, payout)) => r == Ok(payout) && Value() == s
              case Err(e) => r == Err(e) && Value() == old(Value())
    {
      if id !in requests { return Err(RequestNotFound); }
      var request := requests[id];
      if request.user != user { return Err(Unauthorized); }
      if !request.finalized { return Err(InvalidState); }
      var extra := if mode == Bunker then bunkerExtraCooldown else 0;
      if !FitsU32(request.ledger + cooldownLedgers + extra) { return Err(Panic); }
      if env.ledger < request.ledger + cooldownLedgers + extra { return Err(CooldownNotMet); }
      var payout := request.claimable;
      if mode == Bunker {
        var product := request.claimable * (10000 - haircutBps);
        if !Fits(product) { return Err(Panic); }
        payout := TruncDiv(product, 10000);
      }
      requests := requests - {id};
      return Ok(payout);
    }

    method ClaimWithdrawal(env: Env, user: Address, id: nat) returns (r: Result<int>)
      modifies this
      ensures match Claim(old(Value()), env, user, id)
              case Ok((s, payout)) => r == Ok(payout) && Value() == s
              case Err(e) => r == Err(e) && Value() == old(Value())
    {
      if !env.Authorized(user) { return Err(AuthFailed); }
      r := InternalClaim(env, user, id);
    }

    method ClaimBatch(env: Env, user: Address, requestIds: seq<nat>) returns (r: Result<int>)
      modifies this
      ensures match Queue.ClaimBatch(old(Value()), env, user, requestIds)
              case Ok((s, total)) => r == Ok(total) && Value() == s
              case Err(e) => r == Err(e) && Value() == old(Value())
    {
      if !env.Authorized(user) { return Err(AuthFailed); }
      var saved := requests;
      var totalPayout := 0;
      for i := 0 to |requestIds|
        invariant Value() == old(Value()).(requests := requests)
        invariant ClaimFrom(Value(), env, user, requestIds[i..], totalPayout)
               == ClaimFrom(old(Value()), env, user, requestIds, 0)
      {
        assert requestIds[i..][0] == requestIds[i] && requestIds[i..][1..] == requestIds[i + 1..];
        var payout := InternalClaim(env, user, requestIds[i]);
        if payout.Err? {
          requests := saved;  // rollback
          return Err(payout.error);
        }
        if !Fits(totalPayout + payout.value) {
          requests := saved;  // rollback
          return Err(MathOverflow);
        }
        totalPayout := totalPayout + payout.value;
      }
      return Ok(totalPayout);
    }

    method CancelWithdrawal(env: Env, user: Address, id: nat) returns (r: Result<int>)
      modifies this
      ensures match Cancel(old(Value()), env, user, id)
              case Ok((s, shares)) => r == Ok(shares) && Value() == s
              case Err(e) => r == Err(e) && Value() == old(Value())
    {
      if !env.Authorized(user) { return Err(AuthFailed); }
      if id !in requests { return Err(RequestNotFound); }
      var request := requests[id];
      if request.user != user { return Err(Unauthorized); }
      if request.finalized { return Err(AlreadyFinalized); }
      requests := requests - {id};
      return Ok(request.shares);
    }
  }
}
