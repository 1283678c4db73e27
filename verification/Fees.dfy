/** Management and performance fees, the high-water mark, and the split of what is routed. */
module Fees {
  import opened Soroban
  import opened Balances
  import opened Arith
  import Asset

  const YEAR_IN_LEDGERS: nat := 365 * 17280
  const INITIAL_HWM: int := 10_000_000
  const MAX_MANAGEMENT_BPS: nat := 500
  const MAX_PERFORMANCE_BPS: nat := 2500

  /** `book` is the underlying asset's. */
  datatype State = State(self: Address, admin: Address, vault: Address, treasury: Address, reserve: Address,
                         managementBps: nat, performanceBps: nat, highWaterMark: int, lastAccrual: nat, book: Book)
  {
    /** The mark starts at a value of one and never falls. */
    predicate Valid() { highWaterMark >= INITIAL_HWM }
  }

  function Deployed(self: Address, env: Env, admin: Address, vault: Address, treasury: Address, reserve: Address,
                    managementBps: nat, performanceBps: nat, book: Book): (s: State)
    ensures s.Valid()
  {
    State(self, admin, vault, treasury, reserve, managementBps, performanceBps, INITIAL_HWM, env.ledger, book)
  }

  function ManagementFee(s: State, ledger: nat, totalAssets: int): Result<int> {
    if ledger <= s.lastAccrual || totalAssets <= 0 || s.managementBps == 0 then Ok(0) else
      var rate := totalAssets * s.managementBps;
      :- Need(Fits(rate) && Fits(rate * (ledger - s.lastAccrual)), Panic);
      Ok(MulDiv(rate, ledger - s.lastAccrual, 10000 * YEAR_IN_LEDGERS))
  }

  function AssessPerformanceFee(s: State, env: Env, nav: int, totalAssets: int): (r: Result<(State, int)>)
    requires s.Valid()
  {
    if !env.Authorized(s.vault) then Err(AuthFailed) else
    if nav <= s.highWaterMark || totalAssets <= 0 || s.performanceBps == 0 then Ok((s, 0)) else
      :- Need(Fits(totalAssets * (nav - s.highWaterMark)), Panic);
      var gain := MulDiv(totalAssets, nav - s.highWaterMark, nav);
      :- Need(Fits(gain * s.performanceBps), Panic);
      Ok((s.(highWaterMark := nav), MulDiv(gain, s.performanceBps, 10000)))
  }

  function RouteFee(s: State, env: Env, fee: int): Result<State> {
    if !env.Authorized(s.vault) then Err(AuthFailed) else
    if fee <= 0 then Ok(s) else
      var half := fee / 2;
      var call := env.CallFrom(s.self);
      var book :- if half > 0 then Asset.Transfer(s.book, call, s.self, s.reserve, half) else Ok(s.book);
      var book' :- Asset.Transfer(book, call, s.self, s.treasury, fee - half);
      Ok(s.(lastAccrual := env.ledger, book := book'))
  }

  function UpdateRates(s: State, env: Env, managementBps: nat, performanceBps: nat): Result<State> {
    if !env.Authorized(s.admin) then Err(AuthFailed) else
    :- Need(managementBps <= MAX_MANAGEMENT_BPS && performanceBps <= MAX_PERFORMANCE_BPS, TxLimitExceeded);
    Ok(s.(managementBps := managementBps, performanceBps := performanceBps))
  }

  // Routing

  /** What is routed leaves the controller to the last stroop: half to the reserve, rounded down, the
      rest to the treasury. Nobody else's balance moves. */
  lemma RoutedInFull(s: State, env: Env, fee: nat)
    requires RouteFee(s, env, fee).Ok? && s.self != s.reserve && s.reserve != s.treasury && s.treasury != s.self
    ensures var b := RouteFee(s, env, fee).value.book;
            && Get(b, s.self) == Get(s.book, s.self) - fee
            && Get(b, s.reserve) == Get(s.book, s.reserve) + fee / 2
            && Get(b, s.treasury) == Get(s.book, s.treasury) + (fee + 1) / 2
            && forall a :: a != s.self && a != s.reserve && a != s.treasury ==> Get(b, a) == Get(s.book, a)
  {
    if fee > 0 {
      var book := Halfway(s, fee);
      assert RouteFee(s, env, fee).value.book == Move(book, s.self, s.treasury, fee - fee / 2);
      MovedOnly(s.book, s.self, s.reserve, fee / 2);
      MovedOnly(book, s.self, s.treasury, fee - fee / 2);
    }
  }

  /** The asset's balances after the transfer to the reserve. */
  function Halfway(s: State, fee: nat): Book
    requires fee / 2 <= Get(s.book, s.self)
  {
    if fee / 2 > 0 then Move(s.book, s.self, s.reserve, fee / 2) else s.book
  }

  /** Whoever the three parties are, no asset is created or lost. */
  lemma RoutingConserves(s: State, env: Env, fee: nat)
    requires RouteFee(s, env, fee).Ok?
    ensures Sum(RouteFee(s, env, fee).value.book) == Sum(s.book)
  {
    if fee > 0 {
      var book := Halfway(s, fee);
      assert RouteFee(s, env, fee).value.book == Move(book, s.self, s.treasury, fee - fee / 2);
      SumMove(s.book, s.self, s.reserve, fee / 2);
      SumMove(book, s.self, s.treasury, fee - fee / 2);
    }
  }

  lemma MovedOnly(b: Book, from: Address, to: Address, x: nat)
    requires from != to && x <= Get(b, from)
    ensures var b' := Move(b, from, to, x);
            && Get(b', from) == Get(b, from) - x && Get(b', to) == Get(b, to) + x
            && forall a :: a != from && a != to ==> Get(b', a) == Get(b, a)
  {
  }

  /** Exactly when a fee is routed: the vault signs, the controller has it, and the receivers' balances fit. Any
      fee at or below zero is ignored, and only a routed fee moves the accrual clock. */
  lemma RoutedIff(s: State, env: Env, fee: int)
    requires s.self != s.reserve && s.reserve != s.treasury && s.treasury != s.self
    ensures RouteFee(s, env, fee).Ok? <==>
      && env.Authorized(s.vault)
      && (fee > 0 ==>
            && fee <= Get(s.book, s.self) && Fits(Get(s.book, s.treasury) + (fee + 1) / 2)
            && (fee > 1 ==> Fits(Get(s.book, s.reserve) + fee / 2)))
    ensures RouteFee(s, env, fee).Ok? ==>
      var s' := RouteFee(s, env, fee).value;
      s' == s.(book := s'.book, lastAccrual := if fee > 0 then env.ledger else s.lastAccrual)
      && (fee <= 0 ==> s' == s)
  {
    if fee > 1 && fee / 2 <= Get(s.book, s.self) { MovedOnly(s.book, s.self, s.reserve, fee / 2); }
  }

  /** Only the admin sets rates, and none above 500 and 2500 basis points. */
  lemma RatesSetIff(s: State, env: Env, managementBps: nat, performanceBps: nat)
    ensures UpdateRates(s, env, managementBps, performanceBps).Ok? <==>
      env.Authorized(s.admin) && managementBps <= 500 && performanceBps <= 2500
    ensures UpdateRates(s, env, managementBps, performanceBps).Ok? ==>
      UpdateRates(s, env, managementBps, performanceBps).value
        == s.(managementBps := managementBps, performanceBps := performanceBps)
  {
  }

  // The performance fee

  /** Exactly what is charged, floor by floor: of the assets the part by which a unit's value rose over the mark, and
      of that gain the rate. The value becomes the mark. */
  lemma AssessedExactly(s: State, env: Env, nav: int, totalAssets: int) returns (gain: nat)
    requires s.Valid() && AssessPerformanceFee(s, env, nav, totalAssets).Ok?
    ensures var (s', fee) := AssessPerformanceFee(s, env, nav, totalAssets).value;
            env.Authorized(s.vault) &&
            if nav <= s.highWaterMark || totalAssets <= 0 || s.performanceBps == 0 then s' == s && fee == 0
            else
              && s' == s.(highWaterMark := nav)
              && gain * nav <= totalAssets * (nav - s.highWaterMark) < (gain + 1) * nav
              && fee * 10000 <= gain * s.performanceBps < (fee + 1) * 10000
  {
    gain := 0;
    if nav > s.highWaterMark && totalAssets > 0 && s.performanceBps > 0 {
      gain := MulDiv(totalAssets, nav - s.highWaterMark, nav);
      FloorBounds(totalAssets * (nav - s.highWaterMark), nav);
      FloorBounds(gain * s.performanceBps, 10000);
    }
  }

  /** Exactly when an assessment goes through: the vault signs, and both products fit. */
  lemma AssessedIff(s: State, env: Env, nav: int, totalAssets: int)
    requires s.Valid()
    ensures AssessPerformanceFee(s, env, nav, totalAssets).Ok? <==>
      && env.Authorized(s.vault)
      && (nav > s.highWaterMark && totalAssets > 0 && s.performanceBps > 0 ==>
            && Fits(totalAssets * (nav - s.highWaterMark))
            && Fits(totalAssets * (nav - s.highWaterMark) / nav * s.performanceBps))
  {
  }

  /** One assessment charges at most its rate of the rise of the mark, times the assets at a value of 1. */
  lemma AssessmentBound(s: State, env: Env, nav: int, totalAssets: int, most: nat, rate: nat)
    requires s.Valid() && AssessPerformanceFee(s, env, nav, totalAssets).Ok?
    requires totalAssets <= most && s.performanceBps <= rate
    ensures var (s', fee) := AssessPerformanceFee(s, env, nav, totalAssets).value;
            && 0 <= fee && s.highWaterMark <= s'.highWaterMark
            && fee * 10000 * INITIAL_HWM <= most * (s'.highWaterMark - s.highWaterMark) * rate
  {
    var (s', fee) := AssessPerformanceFee(s, env, nav, totalAssets).value;
    var rise := s'.highWaterMark - s.highWaterMark;
    if s' != s {
      var gain := MulDiv(totalAssets, rise, nav);
      Floor(totalAssets * rise, nav);
      Floor(gain * s.performanceBps, 10000);
      FeeBound(fee, gain, totalAssets, rise, nav, s.performanceBps);
      MulLe(INITIAL_HWM, nav, fee * 10000);
      MulLe(totalAssets, most, rise);
      MulLe(totalAssets * rise, most * rise, s.performanceBps);
      MulLe(s.performanceBps, rate, most * rise);
    } else {
      assert rise == 0 && most * rise * rate == 0;
    }
  }

  lemma FeeBound(fee: nat, gain: nat, assets: nat, rise: nat, nav: nat, bps: nat)
    requires fee * 10000 <= gain * bps && gain * nav <= assets * rise
    ensures (fee * 10000) * nav <= (assets * rise) * bps
  {
    MulLe(fee * 10000, gain * bps, nav);
    MulLe(gain * nav, assets * rise, bps);
    Assoc(gain, bps, nav);
  }

  /** A fee is charged exactly when the value is above the mark and the gain is large enough for the
      rate to reach one stroop. Value above the mark alone is not enough. */
  lemma ChargedIff(s: State, env: Env, nav: int, totalAssets: int)
    requires s.Valid() && AssessPerformanceFee(s, env, nav, totalAssets).Ok?
    ensures AssessPerformanceFee(s, env, nav, totalAssets).value.1 > 0 <==>
      && nav > s.highWaterMark && totalAssets > 0 && s.performanceBps > 0
      && totalAssets * (nav - s.highWaterMark) >= ((10000 + s.performanceBps - 1) / s.performanceBps) * nav
  {
    if nav > s.highWaterMark && totalAssets > 0 && s.performanceBps > 0 {
      var bps := s.performanceBps;
      var gain := MulDiv(totalAssets, nav - s.highWaterMark, nav);
      var needed := (10000 + bps - 1) / bps;
      FloorIsGreatest(1, gain * bps, 10000);
      FloorIsGreatest(needed, totalAssets * (nav - s.highWaterMark), nav);
      Floor(10000 + bps - 1, bps);
      if gain >= needed {
        MulLe(needed, gain, bps);
      } else {
        MulLe(gain, needed - 1, bps);
        Distribute(needed, 1, bps);
      }
    }
  }

  /** The published rule says a fee is due if and only if the value is above the mark. One stroop above
      it, on one stroop of assets, at the highest rate, is charged nothing. */
  lemma AboveTheMarkWithoutFee(s: State, env: Env)
    requires s.highWaterMark == INITIAL_HWM && s.performanceBps == MAX_PERFORMANCE_BPS && env.Authorized(s.vault)
    ensures AssessPerformanceFee(s, env, INITIAL_HWM + 1, 1) == Ok((s.(highWaterMark := INITIAL_HWM + 1), 0))
  {
  }

  datatype Call =
    | Assess(nav: int, totalAssets: int)
    | Route(fee: int)
    | SetRates(managementBps: nat, performanceBps: nat)

  function Execute(s: State, env: Env, call: Call): Result<(State, int)>
    requires s.Valid()
  {
    match call
    case Assess(nav, totalAssets) => AssessPerformanceFee(s, env, nav, totalAssets)
    case Route(fee) => var s' :- RouteFee(s, env, fee); Ok((s', 0))
    case SetRates(managementBps, performanceBps) =>
      var s' :- UpdateRates(s, env, managementBps, performanceBps); Ok((s', 0))
  }

  /** The state after a call and the performance fee it charges; a failing call does neither. */
  function Step(s: State, env: Env, call: Call): (r: (State, int))
    requires s.Valid()
    ensures r.0.Valid() && r.0.highWaterMark >= s.highWaterMark
  {
    match Execute(s, env, call)
    case Ok(r) => r
    case Err(_) => (s, 0)
  }

  type Run = seq<(Env, Call)>

  function After(s: State, run: Run): State
    requires s.Valid()
    decreases run
  {
    if run == [] then s else After(Step(s, run[0].0, run[0].1).0, run[1..])
  }

  /** All the performance fees a run charges. */
  function Charged(s: State, run: Run): int
    requires s.Valid()
    decreases run
  {
    if run == [] then 0 else
      var (s', fee) := Step(s, run[0].0, run[0].1);
      fee + Charged(s', run[1..])
  }

  /** No assessment is of more than `most` assets, and no rate is set above `rate`. */
  ghost predicate Within(run: Run, most: nat, rate: nat) {
    forall i :: 0 <= i < |run| ==>
      && (run[i].1.Assess? ==> run[i].1.totalAssets <= most)
      && (run[i].1.SetRates? ==> run[i].1.performanceBps <= rate)
  }

  /** Over any run, all performance fees together stay within the rate of the mark's rise: a fall and a
      recovery are never charged twice, however the rates change and in how many steps value rises. */
  lemma {:induction false} PerformanceFeesTelescope(s: State, run: Run, most: nat, rate: nat)
    requires s.Valid() && s.performanceBps <= rate && Within(run, most, rate)
    ensures After(s, run).highWaterMark >= s.highWaterMark && Charged(s, run) >= 0
    ensures Charged(s, run) * 10000 * INITIAL_HWM <= most * (After(s, run).highWaterMark - s.highWaterMark) * rate
    decreases run
  {
    if run == [] {
      assert most * 0 * rate == 0;
    } else {
      var (s', fee) := Step(s, run[0].0, run[0].1);
      var first, rest := s'.highWaterMark - s.highWaterMark, After(s', run[1..]).highWaterMark - s'.highWaterMark;
      StepBound(s, run[0].0, run[0].1, most, rate);
      PerformanceFeesTelescope(s', run[1..], most, rate);
      Distribute(first, rest, most);
      Distribute(most * first, most * rest, rate);
    }
  }

  lemma StepBound(s: State, env: Env, call: Call, most: nat, rate: nat)
    requires s.Valid() && s.performanceBps <= rate && Within([(env, call)], most, rate)
    ensures var (s', fee) := Step(s, env, call);
            && 0 <= fee && s'.performanceBps <= rate
            && fee * 10000 * INITIAL_HWM <= most * (s'.highWaterMark - s.highWaterMark) * rate
  {
    assert [(env, call)][0] == (env, call);
    if call.Assess? && Execute(s, env, call).Ok? {
      AssessmentBound(s, env, call.nav, call.totalAssets, most, rate);
    } else {
      assert most * 0 * rate == 0;
    }
  }

  // The management fee

  /** The fee is the rate's share of the assets for the part of a year that has passed, less than a stroop off and
      never more; it is refused exactly if the products do not fit. */
  lemma ManagementFeeExactly(s: State, ledger: nat, totalAssets: nat)
    requires s.lastAccrual <= ledger
    ensures ManagementFee(s, ledger, totalAssets).Ok? <==>
      (ledger > s.lastAccrual && totalAssets > 0 && s.managementBps > 0 ==>
         Fits(totalAssets * s.managementBps * (ledger - s.lastAccrual)))
    ensures ManagementFee(s, ledger, totalAssets).Ok? ==>
      var fee := ManagementFee(s, ledger, totalAssets).value;
      fee * 63_072_000_000 <= totalAssets * s.managementBps * (ledger - s.lastAccrual) < (fee + 1) * 63_072_000_000
  {
    var due := totalAssets * s.managementBps * (ledger - s.lastAccrual);
    if ledger == s.lastAccrual || totalAssets == 0 || s.managementBps == 0 {
      ZeroProduct(totalAssets, s.managementBps, ledger - s.lastAccrual);
    } else {
      MulLe(1, ledger - s.lastAccrual, totalAssets * s.managementBps);
      FloorBounds(due, 10000 * YEAR_IN_LEDGERS);
    }
  }

  /** At a ledger the vault calculates the fee and routes it. If either fails, nothing happens. */
  function Charge(s: State, env: Env, ledger: nat, totalAssets: int): Result<(State, int)> {
    var fee :- ManagementFee(s, ledger, totalAssets);
    var s' :- RouteFee(s, env.(ledger := ledger), fee);
    Ok((s', fee))
  }

  function ChargeStep(s: State, env: Env, ledger: nat, totalAssets: int): (State, int) {
    match Charge(s, env, ledger, totalAssets)
    case Ok(r) => r
    case Err(_) => (s, 0)
  }

  /** The vault charges at each of the given ledgers. Returns the state, the fees that were routed, and how many
      of them were not zero. */
  function Accrue(s: State, env: Env, ledgers: seq<nat>, totalAssets: int): (State, int, nat)
    decreases ledgers
  {
    if ledgers == [] then (s, 0, 0) else
      var (s', fee) := ChargeStep(s, env, ledgers[0], totalAssets);
      var rest := Accrue(s', env, ledgers[1..], totalAssets);
      (rest.0, fee + rest.1, rest.2 + if fee > 0 then 1 else 0)
  }

  predicate Ascending(ledgers: seq<nat>, from: nat) {
    ledgers != [] ==> from <= ledgers[0] && Ascending(ledgers[1..], ledgers[0])
  }

  function Last(ledgers: seq<nat>, from: nat): nat {
    if ledgers == [] then from else ledgers[|ledgers| - 1]
  }

  /** What is due for `elapsed` ledgers, before any rounding, over `10000 * YEAR_IN_LEDGERS`. */
  function Due(rate: nat, elapsed: nat): nat { rate * elapsed }

  function Rate(s: State, totalAssets: nat): nat { totalAssets * s.managementBps }

  /** What would still be charged at a ledger, were the numbers to fit. */
  function Pending(s: State, ledger: nat, totalAssets: nat): nat
    requires s.lastAccrual <= ledger
  {
    Due(Rate(s, totalAssets), ledger - s.lastAccrual) / (10000 * YEAR_IN_LEDGERS)
  }

  lemma FeeOfDue(s: State, ledger: nat, totalAssets: nat)
    requires s.lastAccrual <= ledger && ManagementFee(s, ledger, totalAssets).Ok?
    ensures ManagementFee(s, ledger, totalAssets).value
         == Due(Rate(s, totalAssets), ledger - s.lastAccrual) / (10000 * YEAR_IN_LEDGERS)
  {
    if ledger == s.lastAccrual || totalAssets == 0 || s.managementBps == 0 {
      ZeroProduct(totalAssets, s.managementBps, ledger - s.lastAccrual);
    }
  }

  lemma ZeroProduct(a: nat, b: nat, c: nat)
    requires a == 0 || b == 0 || c == 0
    ensures a * b * c == 0
  {
  }

  /** `fees`, in `routed` pieces, and what is `pending` make up `due`, less than a stroop short for each
      piece. */
  predicate Pieces(fees: int, routed: nat, pending: nat, due: nat) {
    10000 * YEAR_IN_LEDGERS * fees + pending <= due <= 10000 * YEAR_IN_LEDGERS * (fees + routed) + pending
  }

  lemma OneMorePiece(first: nat, fees: int, routed: nat, pending: nat, due: nat)
    requires Pieces(fees, routed, pending, due)
    ensures Pieces(first / (10000 * YEAR_IN_LEDGERS) + fees, routed + 1, pending, first + due)
  {
    Floor(first, 10000 * YEAR_IN_LEDGERS);
  }

  /** A charge that routes a fee routes what is due, rounded down, and sets the clock; any other changes neither. */
  lemma ChargeEffect(s: State, env: Env, ledger: nat, totalAssets: nat)
    requires s.lastAccrual <= ledger
    ensures var (s', fee) := ChargeStep(s, env, ledger, totalAssets);
            && Rate(s', totalAssets) == Rate(s, totalAssets) && fee >= 0
            && (fee > 0 ==> s'.lastAccrual == ledger && fee == Pending(s, ledger, totalAssets))
            && (fee == 0 ==> s'.lastAccrual == s.lastAccrual)
  {
    if Charge(s, env, ledger, totalAssets).Ok? { FeeOfDue(s, ledger, totalAssets); }
  }

  lemma PieceThenRest(rate: nat, last: nat, next: nat, end: nat, settled: nat, fees: int, routed: nat)
    requires last <= next <= end && settled <= end
    requires Pieces(fees, routed, Due(rate, end - settled), Due(rate, end - next))
    ensures Pieces(Due(rate, next - last) / (10000 * YEAR_IN_LEDGERS) + fees, routed + 1,
                   Due(rate, end - settled), Due(rate, end - last))
  {
    DueSplits(rate, next - last, end - next);
    OneMorePiece(Due(rate, next - last), fees, routed, Due(rate, end - settled), Due(rate, end - next));
  }

  lemma {:induction false} AccrueKeepsClock(s: State, env: Env, ledgers: seq<nat>, totalAssets: nat, from: nat)
    requires s.lastAccrual <= from && Ascending(ledgers, from)
    ensures var (s', fees, _) := Accrue(s, env, ledgers, totalAssets);
            && from <= Last(ledgers, from) && s'.lastAccrual <= Last(ledgers, from) && fees >= 0
            && Rate(s', totalAssets) == Rate(s, totalAssets)
    decreases ledgers
  {
    if ledgers != [] {
      ChargeEffect(s, env, ledgers[0], totalAssets);
      LastOfRest(ledgers, from);
      AccrueKeepsClock(ChargeStep(s, env, ledgers[0], totalAssets).0, env, ledgers[1..], totalAssets, ledgers[0]);
    }
  }

  /** What was routed up to the last of the ledgers, what is pending then, and what was due. */
  ghost predicate Accounted(s: State, env: Env, ledgers: seq<nat>, totalAssets: nat, end: nat)
    requires s.lastAccrual <= end && Accrue(s, env, ledgers, totalAssets).0.lastAccrual <= end
  {
    var (s', fees, routed) := Accrue(s, env, ledgers, totalAssets);
    var rate := Rate(s, totalAssets);
    Pieces(fees, routed, Due(rate, end - s'.lastAccrual), Due(rate, end - s.lastAccrual))
  }

  lemma ChargeThenRest(s: State, env: Env, ledgers: seq<nat>, totalAssets: nat, end: nat)
    requires ledgers != [] && s.lastAccrual <= ledgers[0] <= end
    requires Accrue(s, env, ledgers, totalAssets).0.lastAccrual <= end
    requires Accounted(ChargeStep(s, env, ledgers[0], totalAssets).0, env, ledgers[1..], totalAssets, end)
    ensures Accounted(s, env, ledgers, totalAssets, end)
  {
    var (s', fees, routed) := Accrue(ChargeStep(s, env, ledgers[0], totalAssets).0, env, ledgers[1..], totalAssets);
    ChargeEffect(s, env, ledgers[0], totalAssets);
    if ChargeStep(s, env, ledgers[0], totalAssets).1 > 0 {
      PieceThenRest(Rate(s, totalAssets), s.lastAccrual, ledgers[0], end, s'.lastAccrual, fees, routed);
    }
  }

  /** Fees routed piece by piece and what is still pending make up what is due, less than one stroop
      short for each fee that was routed. */
  lemma {:induction false} PiecesOfDue(s: State, env: Env, ledgers: seq<nat>, totalAssets: nat, from: nat)
    requires s.lastAccrual <= from && Ascending(ledgers, from)
    ensures s.lastAccrual <= Last(ledgers, from)
    ensures Accrue(s, env, ledgers, totalAssets).0.lastAccrual <= Last(ledgers, from)
    ensures Accounted(s, env, ledgers, totalAssets, Last(ledgers, from))
    decreases ledgers
  {
    AccrueKeepsClock(s, env, ledgers, totalAssets, from);
    if ledgers != [] {
      ChargeEffect(s, env, ledgers[0], totalAssets);
      LastOfRest(ledgers, from);
      PiecesOfDue(ChargeStep(s, env, ledgers[0], totalAssets).0, env, ledgers[1..], totalAssets, ledgers[0]);
      ChargeThenRest(s, env, ledgers, totalAssets, Last(ledgers, from));
    }
  }

  lemma DueSplits(rate: nat, a: nat, b: nat)
    ensures Due(rate, a + b) == Due(rate, a) + Due(rate, b)
  {
    Distribute(a, b, rate);
  }

  lemma {:induction false} LastIsLatest(ledgers: seq<nat>, from: nat)
    requires Ascending(ledgers, from)
    ensures from <= Last(ledgers, from)
    decreases ledgers
  {
    if ledgers != [] {
      LastIsLatest(ledgers[1..], ledgers[0]);
      assert Last(ledgers, from) == Last(ledgers[1..], ledgers[0]);
    }
  }

  lemma LastOfRest(ledgers: seq<nat>, from: nat)
    requires ledgers != [] && Ascending(ledgers, from)
    ensures Last(ledgers, from) == Last(ledgers[1..], ledgers[0]) && from <= ledgers[0] <= Last(ledgers, from)
  {
    LastIsLatest(ledgers[1..], ledgers[0]);
  }

  /** On fixed assets, charging piece by piece and once more at the end never costs more than charging once at
      the end, and at most one stroop less for each fee that was routed. That holds whichever of the charges
      fail: a failed charge, like a fee of zero, leaves the clock alone. */
  lemma PiecewiseWithinAStroopEach(s: State, env: Env, ledgers: seq<nat>, totalAssets: nat)
    requires ledgers != [] && Ascending(ledgers, s.lastAccrual)
    requires ManagementFee(s, Last(ledgers, 0), totalAssets).Ok?
    ensures var (s', fees, routed) := Accrue(s, env, ledgers, totalAssets);
            var end := Last(ledgers, 0);
            var once := ManagementFee(s, end, totalAssets).value;
            s'.lastAccrual <= end
            && fees + Pending(s', end, totalAssets) <= once <= fees + routed + Pending(s', end, totalAssets)
  {
    var (s', fees, routed) := Accrue(s, env, ledgers, totalAssets);
    var end := Last(ledgers, 0);
    AccrueKeepsClock(s, env, ledgers, totalAssets, s.lastAccrual);
    PiecesOfDue(s, env, ledgers, totalAssets, s.lastAccrual);
    LastIsLatest(ledgers, s.lastAccrual);
    FeeOfDue(s, end, totalAssets);
    var rate := Rate(s, totalAssets);
    PiecesInAStroop(fees, routed, Due(rate, end - s'.lastAccrual), Due(rate, end - s.lastAccrual));
  }

  lemma PiecesInAStroop(fees: nat, routed: nat, pending: nat, due: nat)
    requires Pieces(fees, routed, pending, due)
    ensures fees + pending / (10000 * YEAR_IN_LEDGERS) <= due / (10000 * YEAR_IN_LEDGERS)
    ensures due / (10000 * YEAR_IN_LEDGERS) <= fees + routed + pending / (10000 * YEAR_IN_LEDGERS)
  {
  }

  /** After a charge that went through nothing is pending, so if the last one did, the pieces alone come within
      that distance. */
  lemma {:induction false} NothingPending(s: State, env: Env, ledgers: seq<nat>, totalAssets: nat, from: nat)
    requires ledgers != [] && s.lastAccrual <= from && Ascending(ledgers, from)
    requires Charge(Accrue(s, env, ledgers[..|ledgers| - 1], totalAssets).0, env, Last(ledgers, from), totalAssets).Ok?
    ensures var s' := Accrue(s, env, ledgers, totalAssets).0;
            s'.lastAccrual <= Last(ledgers, from) && Pending(s', Last(ledgers, from), totalAssets) == 0
    decreases ledgers
  {
    var s1 := ChargeStep(s, env, ledgers[0], totalAssets).0;
    if |ledgers| == 1 {
      assert ledgers[..0] == [] && ledgers[1..] == [];
      FeeOfDue(s, ledgers[0], totalAssets);
      ZeroProduct(totalAssets, s.managementBps, 0);
    } else {
      var n := |ledgers| - 1;
      assert ledgers[..n][0] == ledgers[0] && ledgers[..n][1..] == ledgers[1..][..n - 1];
      NothingPending(s1, env, ledgers[1..], totalAssets, ledgers[0]);
    }
  }
}

/** The contract that stores this state. */
module FeesContract {
  import opened Soroban
  import opened Balances
  import opened Fees
  import Asset
  import AssetContract

  class FeeController {
    const self: Address
    const admin: Address
    const vault: Address
    const treasury: Address
    const reserve: Address
    const asset: AssetContract.StellarAsset
    var managementBps: nat
    var performanceBps: nat
    var highWaterMark: int
    var lastAccrualLedger: nat

    constructor (self: Address, env: Env, admin: Address, vault: Address, treasury: Address, reserve: Address,
                 asset: AssetContract.StellarAsset, managementBps: nat, performanceBps: nat)
      ensures Value() == Deployed(self, env, admin, vault, treasury, reserve,
                                   managementBps, performanceBps, asset.balances)
    {
      this.self, this.admin, this.vault, this.treasury, this.reserve := self, admin, vault, treasury, reserve;
      this.asset, this.managementBps, this.performanceBps := asset, managementBps, performanceBps;
      highWaterMark, lastAccrualLedger := INITIAL_HWM, env.ledger;
    }

    function Value(): State
      reads this, asset
    {
      State(self, admin, vault, treasury, reserve, managementBps, performanceBps,
            highWaterMark, lastAccrualLedger, asset.balances)
    }

    method CalculateManagementFee(env: Env, totalAssets: int) returns (r: Result<int>)
      ensures r == ManagementFee(Value(), env.ledger, totalAssets)
    {
      if env.ledger <= lastAccrualLedger || totalAssets <= 0 { return Ok(0); }
      var elapsed := env.ledger - lastAccrualLedger;
      if managementBps == 0 { return Ok(0); }
      var rate := totalAssets * managementBps;
      if !Fits(rate) || !Fits(rate * elapsed) { return Err(Panic); }
      var numerator := rate * elapsed;
      var denominator := 10000 * YEAR_IN_LEDGERS;
      return Ok(numerator / denominator);
    }

    method AssessPerformanceFee(env: Env, currentNav: int, totalAssets: int) returns (r: Result<int>)
      requires Value().Valid()
      modifies this
      ensures match Fees.AssessPerformanceFee(old(Value()), env, currentNav, totalAssets)
              case Ok((s, fee)) => r == Ok(fee) && Value() == s
              case Err(e) => r == Err(e) && Value() == old(Value())
    {
      if !env.Authorized(vault) { return Err(AuthFailed); }
      if currentNav <= highWaterMark || totalAssets <= 0 { return Ok(0); }
      if performanceBps == 0 { return Ok(0); }
      var gainPerUnit := currentNav - highWaterMark;
      if !Fits(totalAssets * gainPerUnit) { return Err(Panic); }
      var totalGain := totalAssets * gainPerUnit / currentNav;
      if !Fits(totalGain * performanceBps) { return Err(Panic); }
      var fee := totalGain * performanceBps / 10000;
      highWaterMark := currentNav;
      return Ok(fee);
    }

    /** On failure the host discards the writes. */
    method RouteFee(env: Env, fee: int) returns (r: Result<()>)
      modifies this, asset
      ensures match Fees.RouteFee(old(Value()), env, fee)
              case Ok(s) => r.Ok? && Value() == s
              case Err(e) => r == Err(e)
    {
      if !env.Authorized(vault) { return Err(AuthFailed); }
      if fee <= 0 { return Ok(()); }
      lastAccrualLedger := env.ledger;
      var half := fee / 2;
      var remainder := fee - half;
      var call := env.CallFrom(self);
      if half > 0 {
        var toReserve := asset.Transfer(call, self, reserve, half);
        if toReserve.Err? { return Err(toReserve.error); }
      }
      if remainder > 0 {
        var toTreasury := asset.Transfer(call, self, treasury, remainder);
        if toTreasury.Err? { return Err(toTreasury.error); }
      }
      return Ok(());
    }

    method UpdateFeeRates(env: Env, newManagementBps: nat, newPerformanceBps: nat) returns (r: Result<()>)
      modifies this
      ensures match UpdateRates(old(Value()), env, newManagementBps, newPerformanceBps)
              case Ok(s) => r.Ok? && Value() == s
              case Err(e) => r == Err(e) && Value() == old(Value())
    {
      if !env.Authorized(admin) { return Err(AuthFailed); }
      if newManagementBps > MAX_MANAGEMENT_BPS || newPerformanceBps > MAX_PERFORMANCE_BPS {
        return Err(TxLimitExceeded);
      }
      managementBps, performanceBps := newManagementBps, newPerformanceBps;
      return Ok(());
    }
  }
}
