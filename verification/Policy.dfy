/** The on-chain policy account: allowlists, a per-transaction limit, and a spend limit that
    resets once a day's worth of ledgers has passed since the last reset. */
module Policy {
  import opened Soroban

  const DAY_IN_LEDGERS: nat := 17280

  datatype State = State(admin: Address, agents: map<Address, bool>, contracts: map<Address, bool>,
                         maxTx: int, dailyLimit: int, spentToday: int, lastReset: nat)
  {
    predicate Valid() { Fits(spentToday) }
  }

  predicate Enabled(m: map<Address, bool>, a: Address) { a in m && m[a] }

  predicate ResetDue(s: State, ledger: nat) { s.lastReset + DAY_IN_LEDGERS <= ledger }

  function VerifyAndRecord(s: State, env: Env, agent: Address, target: Address, amount: int): (r: Result<State>)
    ensures r.Ok? ==> r.value.Valid()
  {
    if !env.Authorized(agent) then Err(AuthFailed) else
    :- Need(Enabled(s.agents, agent), Unauthorized);
    :- Need(Enabled(s.contracts, target), UnallowedDestination);
    :- Need(amount <= s.maxTx, TxLimitExceeded);
    :- Need(FitsU32(s.lastReset + DAY_IN_LEDGERS), Panic);
    var reset := ResetDue(s, env.ledger);
    var spent := (if reset then 0 else s.spentToday) + amount;
    :- Need(Fits(spent), MathOverflow);
    :- Need(spent <= s.dailyLimit, DailyLimitExceeded);
    Ok(s.(spentToday := spent, lastReset := if reset then env.ledger else s.lastReset))
  }

  function ChangeLimits(s: State, env: Env, maxTx: int, dailyLimit: int): Result<State> {
    if !env.Authorized(s.admin) then Err(AuthFailed) else
    :- Need(maxTx > 0 && dailyLimit > 0, ZeroAmount);
    Ok(s.(maxTx := maxTx, dailyLimit := dailyLimit))
  }

  datatype Call =
    | Record(agent: Address, target: Address, amount: int)
    | SetLimits(maxTx: int, dailyLimit: int)
    | SetAgent(agent: Address, active: bool)
    | SetContract(target: Address, allowed: bool)

  function Execute(s: State, env: Env, call: Call): (r: Result<State>)
    ensures s.Valid() && r.Ok? ==> r.value.Valid()
  {
    match call
    case Record(agent, target, amount) => VerifyAndRecord(s, env, agent, target, amount)
    case SetLimits(maxTx, dailyLimit) => ChangeLimits(s, env, maxTx, dailyLimit)
    case SetAgent(agent, active) =>
      :- Need(env.Authorized(s.admin), AuthFailed);
      Ok(s.(agents := s.agents[agent := active]))
    case SetContract(target, allowed) =>
      :- Need(env.Authorized(s.admin), AuthFailed);
      Ok(s.(contracts := s.contracts[target := allowed]))
  }

  /** A failing call leaves no trace. */
  function Step(s: State, env: Env, call: Call): State {
    match Execute(s, env, call)
    case Ok(s') => s'
    case Err(_) => s
  }

  /** What only the admin sets. */
  predicate SameSettings(s: State, s': State) {
    s' == s.(spentToday := s'.spentToday, lastReset := s'.lastReset)
  }

  /** Nobody but the admin changes the allowlists or the limits. */
  lemma OnlyTheAdminConfigures(s: State, env: Env, call: Call)
    requires !env.Authorized(s.admin) || call.Record?
    ensures SameSettings(s, Step(s, env, call))
  {
  }

  /** A setting goes through exactly if the admin signs it, and positive limits are the only limits; it sets what
      it names and nothing else. */
  lemma ConfiguredIff(s: State, env: Env, call: Call, a: Address)
    requires !call.Record?
    ensures Execute(s, env, call).Ok? <==>
      env.Authorized(s.admin) && (call.SetLimits? ==> call.maxTx > 0 && call.dailyLimit > 0)
    ensures Execute(s, env, call).Ok? ==>
      var s' := Execute(s, env, call).value;
      && (Enabled(s'.agents, a) <==> if call.SetAgent? && call.agent == a then call.active else Enabled(s.agents, a))
      && (Enabled(s'.contracts, a) <==>
            if call.SetContract? && call.target == a then call.allowed else Enabled(s.contracts, a))
      && (if call.SetLimits? then s'.maxTx == call.maxTx && s'.dailyLimit == call.dailyLimit
          else s'.maxTx == s.maxTx && s'.dailyLimit == s.dailyLimit)
      && s'.spentToday == s.spentToday && s'.lastReset == s.lastReset
  {
  }

  /** Exactly when spending is accepted: by an enabled agent that signs, on an enabled target, within both limits.
      From the day's end on the count starts over. */
  lemma RecordedIff(s: State, env: Env, agent: Address, target: Address, amount: int)
    ensures var over := env.ledger - s.lastReset >= DAY_IN_LEDGERS;
            var before := if over then 0 else s.spentToday;
            var r := VerifyAndRecord(s, env, agent, target, amount);
            && (r.Ok? <==>
                  && env.Authorized(agent) && Enabled(s.agents, agent) && Enabled(s.contracts, target)
                  && amount <= s.maxTx && before + amount <= s.dailyLimit
                  && FitsU32(s.lastReset + DAY_IN_LEDGERS) && Fits(before + amount))
            && (r.Ok? ==> SameSettings(s, r.value) && r.value.spentToday == before + amount
                          && r.value.lastReset == if over then env.ledger else s.lastReset)
  {
  }

  /** What a call adds to the record: its amount when it is accepted. */
  function Recorded(s: State, env: Env, call: Call): int {
    if call.Record? && Execute(s, env, call).Ok? then call.amount else 0
  }

  type Run = seq<(Env, Call)>

  /** The positive amounts a run records at ledgers from `lo` up to but not including `hi`. */
  function Spent(s: State, run: Run, lo: nat, hi: nat): nat
    decreases run
  {
    if run == [] then 0 else
      var x := Recorded(s, run[0].0, run[0].1);
      (if x > 0 && lo <= run[0].0.ledger < hi then x else 0) + Spent(Step(s, run[0].0, run[0].1), run[1..], lo, hi)
  }

  /** What a run records back, as negative amounts, at ledgers from `lo` up to but not including `hi`. */
  function Refunded(s: State, run: Run, lo: nat, hi: nat): nat
    decreases run
  {
    if run == [] then 0 else
      var x := Recorded(s, run[0].0, run[0].1);
      (if x < 0 && lo <= run[0].0.ledger < hi then -x else 0)
      + Refunded(Step(s, run[0].0, run[0].1), run[1..], lo, hi)
  }

  function After(s: State, run: Run): State
    decreases run
  {
    if run == [] then s else After(Step(s, run[0].0, run[0].1), run[1..])
  }

  /** Ledgers never decrease, starting from `now`, and no call raises the daily limit above `most`. */
  ghost predicate Orderly(run: Run, now: nat, most: int) {
    run != [] ==>
      && now <= run[0].0.ledger
      && (run[0].1.SetLimits? ==> run[0].1.dailyLimit <= most)
      && Orderly(run[1..], run[0].0.ledger, most)
  }

  lemma {:induction false} NothingBeforeNow(s: State, run: Run, now: nat, lo: nat, hi: nat, most: int)
    requires Orderly(run, now, most) && hi <= now
    ensures Spent(s, run, lo, hi) == 0
    decreases run
  {
    if run != [] {
      NothingBeforeNow(Step(s, run[0].0, run[0].1), run[1..], run[0].0.ledger, lo, hi, most);
    }
  }

  lemma {:induction false} EarlierRefundsCountToo(s: State, run: Run, lo': nat, lo: nat, hi: nat)
    requires lo' <= lo
    ensures Refunded(s, run, lo, hi) <= Refunded(s, run, lo', hi)
    decreases run
  {
    if run != [] { EarlierRefundsCountToo(Step(s, run[0].0, run[0].1), run[1..], lo', lo, hi); }
  }

  /** Up to the next reset, what is spent and what was spent already stay within one limit and what is
      recorded back. `from` is where the refunds are counted from. */
  lemma {:induction false} WithinOneReset(s: State, run: Run, now: nat, from: nat, lo: nat, hi: nat, most: int)
    requires Orderly(run, now, most) && s.dailyLimit <= most && s.spentToday <= most
    requires from <= now && hi <= s.lastReset + DAY_IN_LEDGERS
    ensures Spent(s, run, lo, hi) <= most - s.spentToday + Refunded(s, run, from, hi)
    decreases run
  {
    if run == [] {
    } else if hi <= run[0].0.ledger {
      NothingBeforeNow(s, run, run[0].0.ledger, lo, hi, most);
    } else {
      WithinOneReset(Step(s, run[0].0, run[0].1), run[1..], run[0].0.ledger, from, lo, hi, most);
    }
  }

  /** A window that starts now meets at most one reset, so at most two limits. */
  lemma {:induction false} WithinOneDay(s: State, run: Run, now: nat, from: nat, lo: nat, hi: nat, most: int)
    requires Orderly(run, now, most) && s.dailyLimit <= most && s.spentToday <= most && 0 <= most
    requires from <= now && hi <= now + DAY_IN_LEDGERS
    ensures Spent(s, run, lo, hi) <= 2 * most - s.spentToday + Refunded(s, run, from, hi)
    decreases run
  {
    if run != [] {
      var (env, call) := run[0];
      var s' := Step(s, env, call);
      if hi <= env.ledger {
        NothingBeforeNow(s, run, env.ledger, lo, hi, most);
      } else if call.Record? && ResetDue(s, env.ledger) && Execute(s, env, call).Ok? {
        WithinOneReset(s', run[1..], env.ledger, from, lo, hi, most);
      } else {
        WithinOneDay(s', run[1..], env.ledger, from, lo, hi, most);
      }
    }
  }

  /** A window that starts when a reset is due, or no sooner than that, meets its only reset first. */
  lemma {:induction false} FromTheNextReset(s: State, run: Run, now: nat, lo: nat, most: int)
    requires Orderly(run, now, most) && s.dailyLimit <= most && 0 <= most
    requires s.lastReset + DAY_IN_LEDGERS <= lo && (lo <= now || lo == s.lastReset + DAY_IN_LEDGERS)
    ensures Spent(s, run, lo, lo + DAY_IN_LEDGERS) <= most + Refunded(s, run, lo, lo + DAY_IN_LEDGERS)
    decreases run
  {
    if run != [] {
      var (env, call) := run[0];
      var s' := Step(s, env, call);
      if lo + DAY_IN_LEDGERS <= env.ledger {
        NothingBeforeNow(s, run, env.ledger, lo, lo + DAY_IN_LEDGERS, most);
      } else if call.Record? && ResetDue(s, env.ledger) && Execute(s, env, call).Ok? {
        WithinOneReset(s', run[1..], env.ledger, lo, lo, lo + DAY_IN_LEDGERS, most);
      } else {
        FromTheNextReset(s', run[1..], env.ledger, lo, most);
      }
    }
  }

  /** A day before a window, when the refunds that can still be felt in it begin. */
  function DayBefore(lo: nat): nat { if lo < DAY_IN_LEDGERS then 0 else lo - DAY_IN_LEDGERS }

  /** What was recorded back and the window will still feel: a reset before it forgets it. */
  function Felt(s: State, lo: nat): nat {
    if s.spentToday < 0 && lo < s.lastReset + DAY_IN_LEDGERS then -s.spentToday else 0
  }

  lemma WindowFromHere(s: State, run: Run, lo: nat, most: int)
    requires Orderly(run, lo, most) && s.dailyLimit <= most && s.spentToday <= most && 0 <= most
    ensures Spent(s, run, lo, lo + DAY_IN_LEDGERS)
         <= 2 * most + Felt(s, lo) + Refunded(s, run, DayBefore(lo), lo + DAY_IN_LEDGERS)
  {
    if s.lastReset + DAY_IN_LEDGERS <= lo {
      FromTheNextReset(s, run, lo, lo, most);
      EarlierRefundsCountToo(s, run, DayBefore(lo), lo, lo + DAY_IN_LEDGERS);
    } else {
      WithinOneDay(s, run, lo, DayBefore(lo), lo, lo + DAY_IN_LEDGERS, most);
    }
  }

  lemma {:induction false} WindowFrom(s: State, run: Run, now: nat, lo: nat, most: int)
    requires Orderly(run, now, most) && s.dailyLimit <= most && s.spentToday <= most && 0 <= most
    requires s.lastReset <= now <= lo
    ensures Spent(s, run, lo, lo + DAY_IN_LEDGERS)
         <= 2 * most + Felt(s, lo) + Refunded(s, run, DayBefore(lo), lo + DAY_IN_LEDGERS)
    decreases run
  {
    if run == [] || lo <= run[0].0.ledger {
      WindowFromHere(s, run, lo, most);
    } else {
      WindowFrom(Step(s, run[0].0, run[0].1), run[1..], run[0].0.ledger, lo, most);
    }
  }

  /** The state the constructor leaves at ledger `now`. */
  predicate Deployed(s: State, now: nat) {
    s.spentToday == 0 && s.lastReset == now
  }

  /** In any 17280 consecutive ledgers of any run, whatever the admin does with limits up to `most`,
      no more is spent than twice the limit and what was recorded back in the window or the day before. */
  lemma SlidingWindow(s: State, run: Run, now: nat, lo: nat, most: int)
    requires Deployed(s, now) && Orderly(run, now, most) && s.dailyLimit <= most && 0 <= most
    ensures Spent(s, run, lo, lo + DAY_IN_LEDGERS)
         <= 2 * most + Refunded(s, run, DayBefore(lo), lo + DAY_IN_LEDGERS)
  {
    if now <= lo {
      WindowFrom(s, run, now, lo, most);
    } else {
      WithinOneDay(s, run, now, DayBefore(lo), lo, lo + DAY_IN_LEDGERS, most);
    }
  }

  // Runs in two parts

  lemma {:induction false} InTwo(s: State, a: Run, b: Run, lo: nat, hi: nat)
    ensures After(s, a + b) == After(After(s, a), b)
    ensures Spent(s, a + b, lo, hi) == Spent(s, a, lo, hi) + Spent(After(s, a), b, lo, hi)
    ensures Refunded(s, a + b, lo, hi) == Refunded(s, a, lo, hi) + Refunded(After(s, a), b, lo, hi)
    decreases a
  {
    if a == [] {
      assert a + b == b;
    } else {
      assert (a + b)[1..] == a[1..] + b;
      InTwo(Step(s, a[0].0, a[0].1), a[1..], b, lo, hi);
    }
  }

  lemma {:induction false} OrderlyInTwo(a: Run, b: Run, now: nat, last: nat, most: int)
    requires Orderly(a, now, most) && Orderly(b, last, most) && now <= last
    requires forall i :: 0 <= i < |a| ==> a[i].0.ledger <= last
    ensures Orderly(a + b, now, most)
    decreases a
  {
    if a == [] {
      assert a + b == b;
    } else {
      assert (a + b)[1..] == a[1..] + b;
      OrderlyInTwo(a[1..], b, a[0].0.ledger, last, most);
    }
  }

  /** One call as a run. */
  lemma OneCall(s: State, env: Env, call: Call, lo: nat, hi: nat, most: int)
    ensures var x, run := Recorded(s, env, call), [(env, call)];
            && After(s, run) == Step(s, env, call)
            && Spent(s, run, lo, hi) == (if x > 0 && lo <= env.ledger < hi then x else 0)
            && Refunded(s, run, lo, hi) == (if x < 0 && lo <= env.ledger < hi then -x else 0)
            && (call.Record? ==> Orderly(run, env.ledger, most))
  {
    assert [(env, call)][1..] == [];
  }

  lemma OneMore(s: State, first: (Env, Call), rest: Run, lo: nat, hi: nat)
    ensures var x := Recorded(s, first.0, first.1);
            var s' := Step(s, first.0, first.1);
            && Spent(s, [first] + rest, lo, hi)
                == (if x > 0 && lo <= first.0.ledger < hi then x else 0) + Spent(s', rest, lo, hi)
            && Refunded(s, [first] + rest, lo, hi)
                == (if x < 0 && lo <= first.0.ledger < hi then -x else 0) + Refunded(s', rest, lo, hi)
  {
    assert ([first] + rest)[1..] == rest;
  }

  // Reaching the bound

  /** An agent can spend the whole limit in one call on this target. */
  predicate Ready(s: State, agent: Address, target: Address) {
    && Enabled(s.agents, agent) && Enabled(s.contracts, target)
    && 0 < s.dailyLimit <= s.maxTx && Fits(s.dailyLimit) && s.spentToday == 0
  }

  /** The one call these runs are made of. */
  function Pay(agent: Address, target: Address, ledger: nat, amount: int): (Env, Call) {
    (Env(ledger, 0, {agent}, agent), Record(agent, target, amount))
  }

  lemma Pays(s: State, agent: Address, target: Address, ledger: nat, amount: int)
    requires Enabled(s.agents, agent) && Enabled(s.contracts, target) && amount <= s.maxTx && Fits(s.dailyLimit)
    requires FitsU32(s.lastReset + DAY_IN_LEDGERS)
    requires var spent := (if ResetDue(s, ledger) then 0 else s.spentToday) + amount;
             -I128_MAX - 1 <= spent <= s.dailyLimit
    ensures var (env, call) := Pay(agent, target, ledger, amount);
            && Recorded(s, env, call) == amount
            && Step(s, env, call) == s.(spentToday := (if ResetDue(s, ledger) then 0 else s.spentToday) + amount,
                                        lastReset := if ResetDue(s, ledger) then ledger else s.lastReset)
  {
  }

  function TwoLimits(s: State, agent: Address, target: Address, lo: nat): Run {
    [Pay(agent, target, lo, s.dailyLimit)] + [Pay(agent, target, s.lastReset + DAY_IN_LEDGERS, s.dailyLimit)]
  }

  /** The bound is reached in every window that starts strictly between two resets: a full limit when the
      window starts, and another at the next reset. */
  lemma SlidingWindowIsTight(s: State, agent: Address, target: Address, lo: nat)
    requires Ready(s, agent, target) && s.lastReset < lo < s.lastReset + DAY_IN_LEDGERS
    requires FitsU32(s.lastReset + DAY_IN_LEDGERS)
    ensures var run := TwoLimits(s, agent, target, lo);
            && Orderly(run, lo, s.dailyLimit)
            && Spent(s, run, lo, lo + DAY_IN_LEDGERS) == 2 * s.dailyLimit
            && Refunded(s, run, DayBefore(lo), lo + DAY_IN_LEDGERS) == 0
  {
    TwoLimitsEffect(s, agent, target, lo, lo);
    TwoLimitsEffect(s, agent, target, lo, DayBefore(lo));
  }

  lemma TwoLimitsEffect(s: State, agent: Address, target: Address, lo: nat, from: nat)
    requires Ready(s, agent, target) && s.lastReset < lo < s.lastReset + DAY_IN_LEDGERS && from <= lo
    requires FitsU32(s.lastReset + DAY_IN_LEDGERS)
    ensures var run := TwoLimits(s, agent, target, lo);
            && Orderly(run, lo, s.dailyLimit)
            && Spent(s, run, from, lo + DAY_IN_LEDGERS) == 2 * s.dailyLimit
            && Refunded(s, run, from, lo + DAY_IN_LEDGERS) == 0
  {
    var next, hi := s.lastReset + DAY_IN_LEDGERS, lo + DAY_IN_LEDGERS;
    var first, second := Pay(agent, target, lo, s.dailyLimit), Pay(agent, target, next, s.dailyLimit);
    var full := s.(spentToday := s.dailyLimit);
    Pays(s, agent, target, lo, s.dailyLimit);
    Pays(full, agent, target, next, s.dailyLimit);
    OneCall(s, first.0, first.1, from, hi, s.dailyLimit);
    OneCall(full, second.0, second.1, from, hi, s.dailyLimit);
    InTwo(s, [first], [second], from, hi);
    OrderlyInTwo([first], [second], lo, next, s.dailyLimit);
  }

  function Repeated(pay: (Env, Call), n: nat): (run: Run)
    ensures |run| == n && forall i :: 0 <= i < n ==> run[i] == pay
  {
    if n == 0 then [] else [pay] + Repeated(pay, n - 1)
  }

  /** Spending unit by unit up to the limit, before the next reset. */
  lemma {:induction false} UnitByUnit(s: State, agent: Address, target: Address, ledger: nat, n: nat, lo: nat, hi: nat)
    requires Enabled(s.agents, agent) && Enabled(s.contracts, target) && 1 <= s.maxTx && Fits(s.dailyLimit)
    requires FitsU32(s.lastReset + DAY_IN_LEDGERS) && ledger < s.lastReset + DAY_IN_LEDGERS && lo <= ledger < hi
    requires Fits(s.spentToday) && s.spentToday + n <= s.dailyLimit
    ensures var run := Repeated(Pay(agent, target, ledger, 1), n);
            && After(s, run) == s.(spentToday := s.spentToday + n)
            && Spent(s, run, lo, hi) == n && Refunded(s, run, lo, hi) == 0 && Orderly(run, ledger, s.dailyLimit)
    decreases n
  {
    if n > 0 {
      var pay := Pay(agent, target, ledger, 1);
      Pays(s, agent, target, ledger, 1);
      UnitByUnit(s.(spentToday := s.spentToday + 1), agent, target, ledger, n - 1, lo, hi);
      OneCall(s, pay.0, pay.1, lo, hi, s.dailyLimit);
      InTwo(s, [pay], Repeated(pay, n - 1), lo, hi);
      OrderlyInTwo([pay], Repeated(pay, n - 1), ledger, ledger, s.dailyLimit);
    }
  }

  /** Recording `back` back, and spending it on top of the limit. */
  function BackAndLimit(s: State, agent: Address, target: Address, lo: nat, back: int): Run
    requires back > 0 && s.dailyLimit > 0
  {
    [Pay(agent, target, lo, -back)] + Repeated(Pay(agent, target, lo, 1), s.dailyLimit + back)
  }

  lemma BackAndLimitEffect(s: State, agent: Address, target: Address, lo: nat, back: int, from: nat, hi: nat)
    requires Ready(s, agent, target) && lo < s.lastReset + DAY_IN_LEDGERS && FitsU32(s.lastReset + DAY_IN_LEDGERS)
    requires back > 0 && Fits(-back) && from <= lo < hi
    ensures var run := BackAndLimit(s, agent, target, lo, back);
            && After(s, run) == s.(spentToday := s.dailyLimit)
            && Spent(s, run, from, hi) == s.dailyLimit + back && Refunded(s, run, from, hi) == back
            && Orderly(run, lo, s.dailyLimit) && forall i :: 0 <= i < |run| ==> run[i].0.ledger == lo
  {
    var first, rest := Pay(agent, target, lo, -back), Repeated(Pay(agent, target, lo, 1), s.dailyLimit + back);
    Pays(s, agent, target, lo, -back);
    OneCall(s, first.0, first.1, from, hi, s.dailyLimit);
    UnitByUnit(s.(spentToday := -back), agent, target, lo, s.dailyLimit + back, from, hi);
    InTwo(s, [first], rest, from, hi);
    OrderlyInTwo([first], rest, lo, lo, s.dailyLimit);
  }

  /** Nothing forbids a negative amount, so the bound needs its refund term, and all of it: for every account,
      every window that starts strictly between two resets and every refund, some run reaches it. */
  lemma NegativeAmountsLiftTheBound(s: State, agent: Address, target: Address, lo: nat, back: int)
    requires Ready(s, agent, target) && s.lastReset < lo < s.lastReset + DAY_IN_LEDGERS
    requires FitsU32(s.lastReset + DAY_IN_LEDGERS) && back > 0 && Fits(-back)
    ensures var run := BackAndLimit(s, agent, target, lo, back)
                       + [Pay(agent, target, s.lastReset + DAY_IN_LEDGERS, s.dailyLimit)];
            && Orderly(run, lo, s.dailyLimit)
            && Spent(s, run, lo, lo + DAY_IN_LEDGERS) == 2 * s.dailyLimit + back
            && Refunded(s, run, DayBefore(lo), lo + DAY_IN_LEDGERS) == back
  {
    var next, hi := s.lastReset + DAY_IN_LEDGERS, lo + DAY_IN_LEDGERS;
    var first, last := BackAndLimit(s, agent, target, lo, back), Pay(agent, target, next, s.dailyLimit);
    var full := s.(spentToday := s.dailyLimit);
    BackAndTwoLimits(s, agent, target, lo, back, lo);
    BackAndTwoLimits(s, agent, target, lo, back, DayBefore(lo));
    BackAndLimitEffect(s, agent, target, lo, back, lo, hi);
    Pays(full, agent, target, next, s.dailyLimit);
    OneCall(full, last.0, last.1, lo, hi, s.dailyLimit);
    OrderlyInTwo(first, [last], lo, next, s.dailyLimit);
  }

  lemma BackAndTwoLimits(s: State, agent: Address, target: Address, lo: nat, back: int, from: nat)
    requires Ready(s, agent, target) && s.lastReset < lo < s.lastReset + DAY_IN_LEDGERS
    requires FitsU32(s.lastReset + DAY_IN_LEDGERS) && back > 0 && Fits(-back) && from <= lo
    ensures var run := BackAndLimit(s, agent, target, lo, back)
                       + [Pay(agent, target, s.lastReset + DAY_IN_LEDGERS, s.dailyLimit)];
            && Spent(s, run, from, lo + DAY_IN_LEDGERS) == 2 * s.dailyLimit + back
            && Refunded(s, run, from, lo + DAY_IN_LEDGERS) == back
  {
    var next, hi := s.lastReset + DAY_IN_LEDGERS, lo + DAY_IN_LEDGERS;
    var first, last := BackAndLimit(s, agent, target, lo, back), Pay(agent, target, next, s.dailyLimit);
    var full := s.(spentToday := s.dailyLimit);
    BackAndLimitEffect(s, agent, target, lo, back, from, hi);
    Pays(full, agent, target, next, s.dailyLimit);
    OneCall(full, last.0, last.1, from, hi, s.dailyLimit);
    InTwo(s, first, [last], from, hi);
  }

  // From deployment

  /** The account once its admin has set the limit and enabled itself. */
  function Opened(s: State, most: int): State {
    s.(maxTx := most, dailyLimit := most, agents := s.agents[s.admin := true],
       contracts := s.contracts[s.admin := true])
  }

  function Open(s: State, now: nat, most: int): Run {
    var env := Env(now, 0, {s.admin}, s.admin);
    [(env, SetLimits(most, most)), (env, SetAgent(s.admin, true)), (env, SetContract(s.admin, true))]
  }

  lemma OpenEffect(s: State, now: nat, most: int, lo: nat, hi: nat)
    requires 0 < most
    ensures var run := Open(s, now, most);
            && After(s, run) == Opened(s, most) && Orderly(run, now, most)
            && Spent(s, run, lo, hi) == 0 && Refunded(s, run, lo, hi) == 0
  {
    var run := Open(s, now, most);
    var s1 := s.(maxTx := most, dailyLimit := most);
    var s2 := s1.(agents := s.agents[s.admin := true]);
    assert Step(s, run[0].0, run[0].1) == s1;
    assert Step(s1, run[1].0, run[1].1) == s2;
    assert Step(s2, run[2].0, run[2].1) == Opened(s, most);
    assert run[1..][1..] == run[2..] && run[2..][1..] == [];
    assert After(s2, run[2..]) == Opened(s, most) && Orderly(run[2..], now, most);
    assert Spent(s2, run[2..], lo, hi) == 0 && Refunded(s2, run[2..], lo, hi) == 0;
    assert After(s1, run[1..]) == Opened(s, most) && Orderly(run[1..], now, most);
    assert Spent(s1, run[1..], lo, hi) == 0 && Refunded(s1, run[1..], lo, hi) == 0;
  }

  /** If the first reset is past, a record of nothing resets the account in the ledger before the window. */
  function SetUp(s: State, now: nat, lo: nat, most: int): Run
    requires now < lo
  {
    Open(s, now, most) + if lo <= now + DAY_IN_LEDGERS then [] else [Pay(s.admin, s.admin, lo - 1, 0)]
  }

  lemma SetUpEffect(s: State, now: nat, lo: nat, most: int, hi: nat)
    requires Deployed(s, now) && 0 < most && Fits(most) && FitsU32(lo + DAY_IN_LEDGERS)
    requires now < lo && lo != now + DAY_IN_LEDGERS
    ensures var run, s' := SetUp(s, now, lo, most), After(s, SetUp(s, now, lo, most));
            && Ready(s', s.admin, s.admin) && s'.dailyLimit == most
            && s'.lastReset < lo < s'.lastReset + DAY_IN_LEDGERS && FitsU32(s'.lastReset + DAY_IN_LEDGERS)
            && Spent(s, run, lo, hi) == 0 && Refunded(s, run, lo, hi) == 0
            && Orderly(run, now, most) && forall i :: 0 <= i < |run| ==> run[i].0.ledger <= lo
  {
    var open := Open(s, now, most);
    OpenEffect(s, now, most, lo, hi);
    if lo > now + DAY_IN_LEDGERS {
      var nothing := Pay(s.admin, s.admin, lo - 1, 0);
      Pays(Opened(s, most), s.admin, s.admin, lo - 1, 0);
      OneCall(Opened(s, most), nothing.0, nothing.1, lo, hi, most);
      InTwo(s, open, [nothing], lo, hi);
      OrderlyInTwo(open, [nothing], now, lo - 1, most);
    } else {
      assert open + [] == open;
    }
  }

  function TwiceInWindow(s: State, now: nat, lo: nat, most: int): Run
    requires now < lo
  {
    SetUp(s, now, lo, most) + TwoLimits(After(s, SetUp(s, now, lo, most)), s.admin, s.admin, lo)
  }

  lemma SpendsTwice(s: State, now: nat, lo: nat, most: int)
    requires Deployed(s, now) && 0 < most && Fits(most) && FitsU32(lo + DAY_IN_LEDGERS)
    requires now < lo && lo != now + DAY_IN_LEDGERS
    ensures var run := TwiceInWindow(s, now, lo, most);
            && Orderly(run, now, most)
            && Spent(s, run, lo, lo + DAY_IN_LEDGERS) == 2 * most && Refunded(s, run, lo, lo + DAY_IN_LEDGERS) == 0
  {
    var setUp := SetUp(s, now, lo, most);
    var s' := After(s, setUp);
    var rest := TwoLimits(s', s.admin, s.admin, lo);
    SetUpEffect(s, now, lo, most, lo + DAY_IN_LEDGERS);
    SlidingWindowIsTight(s', s.admin, s.admin, lo);
    EarlierRefundsCountToo(s', rest, DayBefore(lo), lo, lo + DAY_IN_LEDGERS);
    InTwo(s, setUp, rest, lo, lo + DAY_IN_LEDGERS);
    OrderlyInTwo(setUp, rest, now, lo, most);
  }

  /** No run of an account, with limits up to `most`, that records nothing back in the window spends more than
      one limit in it. */
  ghost predicate HoldsOneLimit(s: State, now: nat, lo: nat, most: int) {
    forall run :: Orderly(run, now, most) && Refunded(s, run, lo, lo + DAY_IN_LEDGERS) == 0 ==>
      Spent(s, run, lo, lo + DAY_IN_LEDGERS) <= most
  }

  /** Exactly which windows hold to one limit as long as nothing is recorded back in them, for an account
      deployed at `now`: those that start by then, and the one that starts just when the first reset falls
      due. */
  lemma OneLimitIff(s: State, now: nat, lo: nat, most: int)
    requires Deployed(s, now) && s.dailyLimit <= most && 0 < most && Fits(most) && FitsU32(lo + DAY_IN_LEDGERS)
    ensures HoldsOneLimit(s, now, lo, most) <==> lo <= now || lo == now + DAY_IN_LEDGERS
  {
    var hi := lo + DAY_IN_LEDGERS;
    if lo <= now || lo == now + DAY_IN_LEDGERS {
      forall run | Orderly(run, now, most) && Refunded(s, run, lo, hi) == 0
        ensures Spent(s, run, lo, hi) <= most
      {
        if lo <= now {
          WithinOneReset(s, run, now, lo, lo, hi, most);
        } else {
          FromTheNextReset(s, run, now, lo, most);
        }
      }
    } else {
      SpendsTwice(s, now, lo, most);
      assert Orderly(TwiceInWindow(s, now, lo, most), now, most);
    }
  }

  /** No run of an account, with limits up to `most`, spends more than `bound` in the window. */
  ghost predicate HoldsInAll(s: State, now: nat, lo: nat, most: int, bound: nat) {
    forall run :: Orderly(run, now, most) ==> Spent(s, run, lo, lo + DAY_IN_LEDGERS) <= bound
  }

  /** With recording back there is no bound at all: for every account, one limit, two limits or any other amount
      hold in a window if and only if it was over when the account was deployed. */
  lemma NoBoundButForClosedWindows(s: State, now: nat, lo: nat, most: int, bound: nat)
    requires Deployed(s, now) && s.dailyLimit <= most && 0 < most && Fits(most)
    requires FitsU32(now + DAY_IN_LEDGERS) && FitsU32(lo + DAY_IN_LEDGERS)
    ensures HoldsInAll(s, now, lo, most, bound) <==> lo + DAY_IN_LEDGERS <= now
  {
    var hi := lo + DAY_IN_LEDGERS;
    if hi <= now {
      forall run | Orderly(run, now, most) ensures Spent(s, run, lo, hi) <= bound {
        NothingBeforeNow(s, run, now, lo, hi, most);
      }
    } else {
      var at := if now < lo then lo else now;
      SpendsMore(s, now, lo, at, most, bound);
      assert Orderly(MoreThan(s, now, at, most, bound), now, most);
    }
  }

  /** One unit recorded back and spent again, `n` times. */
  function BackAndForth(agent: Address, target: Address, ledger: nat, n: nat): (run: Run)
    ensures forall i :: 0 <= i < |run| ==> run[i].0.ledger == ledger
  {
    if n == 0 then [] else
      ([Pay(agent, target, ledger, -1)] + [Pay(agent, target, ledger, 1)]) + BackAndForth(agent, target, ledger, n - 1)
  }

  lemma BackAndForthOnce(s: State, agent: Address, target: Address, ledger: nat, lo: nat, hi: nat)
    requires Ready(s, agent, target) && FitsU32(s.lastReset + DAY_IN_LEDGERS)
    requires ledger < s.lastReset + DAY_IN_LEDGERS && lo <= ledger < hi
    ensures var run := [Pay(agent, target, ledger, -1)] + [Pay(agent, target, ledger, 1)];
            After(s, run) == s && Spent(s, run, lo, hi) == 1 && Orderly(run, ledger, s.dailyLimit)
  {
    var back, pay := Pay(agent, target, ledger, -1), Pay(agent, target, ledger, 1);
    Pays(s, agent, target, ledger, -1);
    Pays(s.(spentToday := -1), agent, target, ledger, 1);
    OneCall(s, back.0, back.1, lo, hi, s.dailyLimit);
    OneCall(s.(spentToday := -1), pay.0, pay.1, lo, hi, s.dailyLimit);
    InTwo(s, [back], [pay], lo, hi);
    OrderlyInTwo([back], [pay], ledger, ledger, s.dailyLimit);
  }

  lemma {:induction false} BackAndForthEffect(s: State, agent: Address, target: Address, ledger: nat, n: nat,
                                                lo: nat, hi: nat)
    requires Ready(s, agent, target) && FitsU32(s.lastReset + DAY_IN_LEDGERS)
    requires ledger < s.lastReset + DAY_IN_LEDGERS && lo <= ledger < hi
    ensures var run := BackAndForth(agent, target, ledger, n);
            Spent(s, run, lo, hi) == n && Orderly(run, ledger, s.dailyLimit)
    decreases n
  {
    if n > 0 {
      var once := [Pay(agent, target, ledger, -1)] + [Pay(agent, target, ledger, 1)];
      var rest := BackAndForth(agent, target, ledger, n - 1);
      BackAndForthOnce(s, agent, target, ledger, lo, hi);
      BackAndForthEffect(s, agent, target, ledger, n - 1, lo, hi);
      InTwo(s, once, rest, lo, hi);
      OrderlyInTwo(once, rest, ledger, ledger, s.dailyLimit);
    }
  }

  /** Opening the account, resetting it if that is due, and recording units back and forth. */
  function MoreThan(s: State, now: nat, at: nat, most: int, bound: nat): Run {
    (Open(s, now, most) + [Pay(s.admin, s.admin, at, 0)]) + BackAndForth(s.admin, s.admin, at, bound + 1)
  }

  lemma OpenedAndReset(s: State, now: nat, at: nat, most: int, lo: nat, hi: nat)
    requires Deployed(s, now) && 0 < most && Fits(most) && now <= at
    requires FitsU32(now + DAY_IN_LEDGERS) && FitsU32(at + DAY_IN_LEDGERS)
    ensures var run := Open(s, now, most) + [Pay(s.admin, s.admin, at, 0)];
            var s' := After(s, run);
            && Ready(s', s.admin, s.admin) && s'.dailyLimit == most && FitsU32(s'.lastReset + DAY_IN_LEDGERS)
            && at < s'.lastReset + DAY_IN_LEDGERS && Orderly(run, now, most)
            && forall i :: 0 <= i < |run| ==> run[i].0.ledger <= at
  {
    var nothing := Pay(s.admin, s.admin, at, 0);
    OpenEffect(s, now, most, lo, hi);
    Pays(Opened(s, most), s.admin, s.admin, at, 0);
    OneCall(Opened(s, most), nothing.0, nothing.1, lo, hi, most);
    InTwo(s, Open(s, now, most), [nothing], lo, hi);
    OrderlyInTwo(Open(s, now, most), [nothing], now, at, most);
  }

  lemma SpendsMore(s: State, now: nat, lo: nat, at: nat, most: int, bound: nat)
    requires Deployed(s, now) && 0 < most && Fits(most)
    requires FitsU32(now + DAY_IN_LEDGERS) && FitsU32(at + DAY_IN_LEDGERS)
    requires now <= at && lo <= at < lo + DAY_IN_LEDGERS
    ensures var run := MoreThan(s, now, at, most, bound);
            Orderly(run, now, most) && Spent(s, run, lo, lo + DAY_IN_LEDGERS) > bound
  {
    var hi := lo + DAY_IN_LEDGERS;
    var setUp := Open(s, now, most) + [Pay(s.admin, s.admin, at, 0)];
    var rest := BackAndForth(s.admin, s.admin, at, bound + 1);
    OpenedAndReset(s, now, at, most, lo, hi);
    BackAndForthEffect(After(s, setUp), s.admin, s.admin, at, bound + 1, lo, hi);
    InTwo(s, setUp, rest, lo, hi);
    OrderlyInTwo(setUp, rest, now, at, most);
  }
}

/** The contract that stores this state. */
module PolicyContract {
  import opened Soroban
  import opened Policy

  class PolicyAccount {
    const admin: Address
    var authorizedAgents: map<Address, bool>
    var allowedContracts: map<Address, bool>
    var maxTxAmount: int
    var dailySpendLimit: int
    var spentToday: int
    var lastResetLedger: nat

    constructor (env: Env, admin: Address, maxTx: int, dailyLimit: int)
      ensures Value() == State(admin, map[], map[], maxTx, dailyLimit, 0, env.ledger)
    {
      this.admin, maxTxAmount, dailySpendLimit := admin, maxTx, dailyLimit;
      spentToday, lastResetLedger := 0, env.ledger;
      authorizedAgents, allowedContracts := map[], map[];
    }

    function Value(): State
      reads this
    {
      State(admin, authorizedAgents, allowedContracts, maxTxAmount, dailySpendLimit, spentToday, lastResetLedger)
    }

    method SetAgentStatus(env: Env, agent: Address, active: bool) returns (r: Result<()>)
      modifies this
      ensures match Execute(old(Value()), env, SetAgent(agent, active))
              case Ok(s) => r.Ok? && Value() == s
              case Err(e) => r == Err(e)
    {
      if !env.Authorized(admin) { return Err(AuthFailed); }
      authorizedAgents := authorizedAgents[agent := active];
      return Ok(());
    }

    method SetContractAllowed(env: Env, target: Address, allowed: bool) returns (r: Result<()>)
      modifies this
      ensures match Execute(old(Value()), env, SetContract(target, allowed))
              case Ok(s) => r.Ok? && Value() == s
              case Err(e) => r == Err(e)
    {
      if !env.Authorized(admin) { return Err(AuthFailed); }
      allowedContracts := allowedContracts[target := allowed];
      return Ok(());
    }

    method SetLimits(env: Env, maxTx: int, dailyLimit: int) returns (r: Result<()>)
      modifies this
      ensures match Execute(old(Value()), env, Call.SetLimits(maxTx, dailyLimit))
              case Ok(s) => r.Ok? && Value() == s
              case Err(e) => r == Err(e)
    {
      if !env.Authorized(admin) { return Err(AuthFailed); }
      if maxTx <= 0 || dailyLimit <= 0 { return Err(ZeroAmount); }
      maxTxAmount, dailySpendLimit := maxTx, dailyLimit;
      return Ok(());
    }

    method VerifyAndRecordAction(env: Env, agent: Address, target: Address, amount: int) returns (r: Result<()>)
      modifies this
      ensures match VerifyAndRecord(old(Value()), env, agent, target, amount)
              case Ok(s) => r.Ok? && Value() == s
              case Err(e) => r == Err(e)
    {
      if !env.Authorized(agent) { return Err(AuthFailed); }
      if !Enabled(authorizedAgents, agent) { return Err(Unauthorized); }
      if !Enabled(allowedContracts, target) { return Err(UnallowedDestination); }
      if amount > maxTxAmount { return Err(TxLimitExceeded); }
      var windowEnd := lastResetLedger + DAY_IN_LEDGERS;
      if !FitsU32(windowEnd) { return Err(Panic); }
      var spent: int;
      if env.ledger >= windowEnd {
        lastResetLedger := env.ledger;
        spent := 0;
      } else {
        spent := spentToday;
      }
      var newSpent := spent + amount;
      if !Fits(newSpent) { return Err(MathOverflow); }
      if newSpent > dailySpendLimit { return Err(DailyLimitExceeded); }
      spentToday := newSpent;
      return Ok(());
    }
  }
}
