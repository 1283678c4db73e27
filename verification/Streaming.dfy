/** What the streamer guarantees over runs: custody covers everything owed, every harvest pays what
    was announced, and how often a stream is harvested never changes what it has paid. */
module Streaming {
  import opened Wrappers
  import opened Soroban
  import opened Balances
  import opened Streamer
  import Arith
  import Asset

  /** Exactly the listed streams were brought up to date. */
  predicate ClaimedAt(before: map<nat, Stream>, after: map<nat, Stream>, ids: seq<nat>, now: nat)
    requires AllSound(before)
  {
    && after.Keys == before.Keys
    && forall id :: id in before ==> after[id] == if id in ids then Claim(before[id], now) else before[id]
  }

  lemma {:induction false} OutstandingUpdate(streams: map<nat, Stream>, n: nat, token: Address, id: nat, s: Stream)
    requires AllSound(streams) && id in streams && Sound(s)
    requires s.total == streams[id].total && s.token == streams[id].token
    ensures Outstanding(streams[id := s], n, token) == Outstanding(streams, n, token)
            - (if 0 < id <= n && s.token == token then s.claimed - streams[id].claimed else 0)
  {
    if n > 0 { OutstandingUpdate(streams, n - 1, token, id, s); }
  }

  lemma {:induction false} OutstandingSame(streams: map<nat, Stream>, streams': map<nat, Stream>,
                                           n: nat, token: Address)
    requires AllSound(streams) && AllSound(streams')
    requires forall id :: 0 < id <= n ==>
      (id in streams <==> id in streams') && (id in streams ==> streams[id] == streams'[id])
    ensures Outstanding(streams', n, token) == Outstanding(streams, n, token)
  {
    if n > 0 { OutstandingSame(streams, streams', n - 1, token); }
  }

  /** The listed streams exist, once each, all in one token. */
  ghost predicate Listed(streams: map<nat, Stream>, ids: seq<nat>, token: Address) {
    NoDup(ids) && forall id :: id in ids ==> id in streams && streams[id].token == token
  }

  /** A pass brings exactly the listed streams up to date, and gathers exactly what the contract stops
      owing in that token; it owes as much as before in every other. */
  lemma {:induction false} PassEffect(streams: map<nat, Stream>, ids: seq<nat>, now: nat, gathered: nat, token: Address)
    requires AllSound(streams) && Listed(streams, ids, token) && HarvestFrom(streams, ids, now, gathered).Ok?
    ensures var (after, payout) := HarvestFrom(streams, ids, now, gathered).value;
            && gathered <= payout && ClaimedAt(streams, after, ids, now) && AllSound(after)
    decreases ids
  {
    if ids != [] {
      var s := streams[ids[0]];
      var streams' := streams[ids[0] := Claim(s, now)];
      var gathered' := if Claimable(s, now) <= 0 then gathered else gathered + Claimable(s, now);
      assert Claimable(s, now) <= 0 ==> streams' == streams;
      assert ids[0] !in ids[1..];
      PassEffect(streams', ids[1..], now, gathered', token);
    }
  }

  lemma {:induction false} PassOwesLess(streams: map<nat, Stream>, ids: seq<nat>, now: nat, gathered: nat,
                                        token: Address, n: nat, other: Address)
    requires AllSound(streams) && Listed(streams, ids, token) && HarvestFrom(streams, ids, now, gathered).Ok?
    requires forall id :: id in ids ==> 0 < id <= n
    ensures var (after, payout) := HarvestFrom(streams, ids, now, gathered).value;
            && AllSound(after)
            && Outstanding(after, n, other)
                == Outstanding(streams, n, other) - (if other == token then payout - gathered else 0)
    decreases ids
  {
    if ids != [] {
      var s := streams[ids[0]];
      var streams' := streams[ids[0] := Claim(s, now)];
      var gathered' := if Claimable(s, now) <= 0 then gathered else gathered + Claimable(s, now);
      assert Claimable(s, now) <= 0 ==> streams' == streams;
      assert ids[0] !in ids[1..] && forall id :: id in ids[1..] ==> id in ids;
      OutstandingUpdate(streams, n, other, ids[0], Claim(s, now));
      PassOwesLess(streams', ids[1..], now, gathered', token, n, other);
    }
  }

  /** No listed stream has claimed more than has unlocked by now, as when the clock never runs back. */
  predicate OnTime(streams: map<nat, Stream>, ids: seq<nat>, now: nat)
    requires AllSound(streams)
  {
    forall id :: id in ids && id in streams ==> streams[id].claimed <= Unlocked(streams[id], now)
  }

  /** On time, a harvest pays exactly what the read-only view announces, and fails exactly when it does. */
  lemma {:induction false} PassPaysWhatWasAnnounced(streams: map<nat, Stream>, ids: seq<nat>, now: nat, gathered: nat)
    requires AllSound(streams) && NoDup(ids) && OnTime(streams, ids, now) && Fits(gathered)
    ensures HarvestFrom(streams, ids, now, gathered).Ok? <==> ClaimableFrom(streams, ids, now, gathered).Ok?
    ensures HarvestFrom(streams, ids, now, gathered).Ok? ==>
              HarvestFrom(streams, ids, now, gathered).value.1 == ClaimableFrom(streams, ids, now, gathered).value
    decreases ids
  {
    if ids == [] {
    } else if ids[0] !in streams {
      PassPaysWhatWasAnnounced(streams, ids[1..], now, gathered);
    } else {
      var s := streams[ids[0]];
      var streams' := streams[ids[0] := Claim(s, now)];
      assert Claimable(s, now) <= 0 ==> streams' == streams;
      assert ids[0] !in ids[1..];
      if Computable(s, now) && Fits(gathered + Claimable(s, now)) {
        PassPaysWhatWasAnnounced(streams', ids[1..], now, gathered + Claimable(s, now));
        UnlistedStreamDoesNotMatter(streams, ids[1..], now, gathered + Claimable(s, now), ids[0], Claim(s, now));
      }
    }
  }

  lemma {:induction false} UnlistedStreamDoesNotMatter(streams: map<nat, Stream>, ids: seq<nat>,
                                                       now: nat, gathered: int, id: nat, s: Stream)
    requires AllSound(streams) && id in streams && Sound(s) && id !in ids
    ensures ClaimableFrom(streams[id := s], ids, now, gathered) == ClaimableFrom(streams, ids, now, gathered)
    decreases ids
  {
    if ids != [] {
      assert ids[0] != id;
      var more := if ids[0] in streams then gathered + Claimable(streams[ids[0]], now) else gathered;
      UnlistedStreamDoesNotMatter(streams, ids[1..], now, more, id, s);
    }
  }

  // Steps

  datatype Call =
    | InitCall(admin: Address)
    | Add(from: Address, token: Address, vault: Address, amount: int, duration: nat)
    | HarvestCall(key: Key)
    | Pay(token: Address, from: Address, to: Address, amount: int)  // a transfer between other parties, or a gift

  function Execute(s: State, env: Env, call: Call): (r: Result<State>)
    requires s.Sane()
    ensures r.Ok? ==> r.value.Sane()
  {
    match call
    case InitCall(admin) => Initialize(s, admin)
    case Add(from, token, vault, amount, duration) =>
      var (s', _) :- AddStream(s, env, from, token, vault, amount, duration); Ok(s')
    case HarvestCall(key) => var (s', _) :- Harvest(s, env, key); Ok(s')
    case Pay(token, from, to, amount) =>
      var book :- Asset.Transfer(s.TokenBook(token), env, from, to, amount); Ok(s.(tokens := s.tokens[token := book]))
  }

  /** A failing call leaves no trace. */
  function Step(s: State, env: Env, call: Call): (s': State)
    requires s.Sane()
    ensures s'.Sane()
  {
    match Execute(s, env, call)
    case Ok(s') => s'
    case Err(_) => s
  }

  /** If the call is the one initialization that is accepted, no stream exists yet. */
  predicate Timely(s: State, call: Call) {
    call.InitCall? && s.admin.None? ==> s.streams == map[]
  }

  lemma AddKeepsIndex(streams: map<nat, Stream>, index: map<Key, seq<nat>>, id: nat, stream: Stream)
    requires Indexed(streams, index) && id !in streams
    ensures var listed := if KeyOf(stream) in index then index[KeyOf(stream)] else [];
            Indexed(streams[id := stream], index[KeyOf(stream) := listed + [id]])
  {
    var key := KeyOf(stream);
    var listed := if key in index then index[key] else [];
    assert id !in listed;
  }

  lemma AddIs(s: State, env: Env, from: Address, token: Address, vault: Address, amount: int, duration: nat)
    requires s.Sane() && AddStream(s, env, from, token, vault, amount, duration).Ok?
    ensures var (s', id) := AddStream(s, env, from, token, vault, amount, duration).value;
            var key := (vault, token);
            && amount > 0 && Fits(amount) && duration > 0 && id == s.count + 1
            && s' == s.(tokens := s'.tokens, count := id, index := s.index[key := s.Ids(key) + [id]],
                        streams := s.streams[id := Stream(id, from, token, vault, amount, 0, env.timestamp, duration)])
  {
  }

  lemma AddKeeps(s: State, env: Env, from: Address, token: Address, vault: Address, amount: int, duration: nat)
    requires s.Valid() && AddStream(s, env, from, token, vault, amount, duration).Ok?
    ensures var (s', id) := AddStream(s, env, from, token, vault, amount, duration).value;
            && s'.Valid() && id == s.count + 1 && s'.self == s.self
            && s'.streams == s.streams[id := Stream(id, from, token, vault, amount, 0, env.timestamp, duration)]
  {
    AddIs(s, env, from, token, vault, amount, duration);
    AddKeepsIndex(s.streams, s.index, s.count + 1,
                  Stream(s.count + 1, from, token, vault, amount, 0, env.timestamp, duration));
  }

  lemma AddTakesCustody(s: State, env: Env, from: Address, token: Address, vault: Address, amount: int,
                        duration: nat, other: Address)
    requires s.Valid() && env.TopLevel() && AddStream(s, env, from, token, vault, amount, duration).Ok?
    ensures var s' := AddStream(s, env, from, token, vault, amount, duration).value.0;
            && amount > 0 && s'.count == s.count + 1
            && Get(s'.TokenBook(other), s.self)
                == Get(s.TokenBook(other), s.self) + (if other == token then amount else 0)
  {
  }

  lemma AddKeepsCoverIn(s: State, env: Env, from: Address, token: Address, vault: Address, amount: int,
                        duration: nat, other: Address)
    requires s.Valid() && s.CoveredIn(other) && env.TopLevel()
        && AddStream(s, env, from, token, vault, amount, duration).Ok?
    ensures var s' := AddStream(s, env, from, token, vault, amount, duration).value.0;
            AllSound(s'.streams) && s'.CoveredIn(other)
  {
    var s' := AddStream(s, env, from, token, vault, amount, duration).value.0;
    AddKeeps(s, env, from, token, vault, amount, duration);
    AddTakesCustody(s, env, from, token, vault, amount, duration, other);
    OutstandingSame(s.streams, s'.streams, s.count, other);
    assert Outstanding(s'.streams, s.count + 1, other)
        == (if token == other then amount else 0) + Outstanding(s'.streams, s.count, other);
  }

  lemma AddKeepsCover(s: State, env: Env, from: Address, token: Address, vault: Address, amount: int, duration: nat)
    requires s.Valid() && s.Covered() && env.TopLevel() && AddStream(s, env, from, token, vault, amount, duration).Ok?
    ensures var s' := AddStream(s, env, from, token, vault, amount, duration).value.0;
            s'.Valid() && s'.Covered()
  {
    var s' := AddStream(s, env, from, token, vault, amount, duration).value.0;
    AddKeeps(s, env, from, token, vault, amount, duration);
    forall other ensures s'.CoveredIn(other) {
      AddKeepsCoverIn(s, env, from, token, vault, amount, duration, other);
    }
  }

  lemma ClaimingKeepsNumbers(streams: map<nat, Stream>, streams': map<nat, Stream>, count: nat, ids: seq<nat>, now: nat)
    requires Numbered(streams, count) && ClaimedAt(streams, streams', ids, now)
    ensures Numbered(streams', count) && forall id :: id in streams ==> KeyOf(streams'[id]) == KeyOf(streams[id])
  {
  }

  lemma SameKeysKeepIndex(streams: map<nat, Stream>, streams': map<nat, Stream>, index: map<Key, seq<nat>>)
    requires Indexed(streams, index) && streams'.Keys == streams.Keys
    requires forall id :: id in streams ==> KeyOf(streams'[id]) == KeyOf(streams[id])
    ensures Indexed(streams', index)
  {
  }

  lemma ClaimingKeepsIndex(s: State, streams': map<nat, Stream>, ids: seq<nat>, now: nat)
    requires s.Valid() && ClaimedAt(s.streams, streams', ids, now)
    ensures Numbered(streams', s.count) && Indexed(streams', s.index)
  {
    ClaimingKeepsNumbers(s.streams, streams', s.count, ids, now);
    SameKeysKeepIndex(s.streams, streams', s.index);
  }

  lemma IdsListed(s: State, key: Key)
    requires s.Valid()
    ensures Listed(s.streams, s.Ids(key), key.1)
    ensures forall id :: id in s.streams && KeyOf(s.streams[id]) == key <==> id in s.Ids(key)
  {
  }

  lemma HarvestKeeps(s: State, env: Env, key: Key)
    requires s.Valid() && Harvest(s, env, key).Ok?
    ensures var (s', payout) := Harvest(s, env, key).value;
            && s'.Valid() && s'.self == s.self && s'.count == s.count && s'.index == s.index
            && ClaimedAt(s.streams, s'.streams, s.Ids(key), env.timestamp)
  {
    var s' := Harvest(s, env, key).value.0;
    HarvestIsPass(s, env, key);
    IdsListed(s, key);
    PassEffect(s.streams, s.Ids(key), env.timestamp, 0, key.1);
    ClaimingKeepsIndex(s, s'.streams, s.Ids(key), env.timestamp);
  }

  lemma HarvestIsPass(s: State, env: Env, key: Key)
    requires s.Sane() && Harvest(s, env, key).Ok?
    ensures var (s', payout) := Harvest(s, env, key).value;
            var pass := HarvestFrom(s.streams, s.Ids(key), env.timestamp, 0);
            && pass == Ok((s'.streams, payout))
            && s' == s.(streams := s'.streams, tokens := s'.tokens)
  {
  }

  lemma HarvestKeepsCoverIn(s: State, env: Env, key: Key, other: Address)
    requires s.Valid() && s.CoveredIn(other) && Harvest(s, env, key).Ok?
    ensures var s' := Harvest(s, env, key).value.0;
            AllSound(s'.streams) && s'.CoveredIn(other)
  {
    IdsListed(s, key);
    PassOwesLess(s.streams, s.Ids(key), env.timestamp, 0, key.1, s.count, other);
  }

  lemma HarvestKeepsCover(s: State, env: Env, key: Key)
    requires s.Valid() && s.Covered() && Harvest(s, env, key).Ok?
    ensures var s' := Harvest(s, env, key).value.0;
            s'.Valid() && s'.Covered()
  {
    HarvestKeeps(s, env, key);
    forall other ensures Harvest(s, env, key).value.0.CoveredIn(other) {
      HarvestKeepsCoverIn(s, env, key, other);
    }
  }

  /** Numbering and index survive an initialization exactly if no stream existed. */
  lemma InitializationKeepsIff(s: State, env: Env, admin: Address)
    requires s.Valid() && s.admin.None?
    ensures Step(s, env, InitCall(admin)).Valid() <==> s.streams == map[]
  {
    if s.streams != map[] {
      var id :| id in s.streams;
      assert id in Step(s, env, InitCall(admin)).streams && 1 <= id <= s.count;
    }
  }

  /** Anybody initializes, and nobody twice: it stores the admin and starts the count over, and nothing else. */
  lemma InitializedIff(s: State, admin: Address)
    ensures Initialize(s, admin).Ok? <==> s.admin.None?
    ensures Initialize(s, admin).Ok? ==> Initialize(s, admin).value == s.(admin := Some(admin), count := 0)
  {
  }

  lemma StepKeeps(s: State, env: Env, call: Call)
    requires s.Valid() && s.Covered() && env.TopLevel() && Timely(s, call)
    ensures Step(s, env, call).Valid() && Step(s, env, call).Covered()
  {
    if Execute(s, env, call).Ok? {
      match call
      case InitCall(admin) =>
        InitializationKeepsIff(s, env, admin);
      case Add(from, token, vault, amount, duration) => AddKeepsCover(s, env, from, token, vault, amount, duration);
      case HarvestCall(key) => HarvestKeepsCover(s, env, key);
      case Pay(token, from, to, amount) => PayKeepsCover(s, env, token, from, to, amount);
    }
  }

  lemma PayKeepsCover(s: State, env: Env, token: Address, from: Address, to: Address, amount: int)
    requires s.Valid() && s.Covered() && env.TopLevel() && Asset.Transfer(s.TokenBook(token), env, from, to, amount).Ok?
    ensures var book := Asset.Transfer(s.TokenBook(token), env, from, to, amount).value;
            s.(tokens := s.tokens[token := book]).Covered()
  {
    var s' := s.(tokens := s.tokens[token := Asset.Transfer(s.TokenBook(token), env, from, to, amount).value]);
    forall other ensures s'.CoveredIn(other) {
      assert s.CoveredIn(other);
    }
  }

  // History: when each stream was last brought up to date, its creation counting as the first time

  type History = map<nat, nat>

  function NextHistory(s: State, h: History, env: Env, call: Call): History
    requires s.Sane()
  {
    if Execute(s, env, call).Err? || call.Pay? || call.InitCall? then h
    else if call.Add? then h[s.count + 1 := env.timestamp]
    else map id | id in h :: if id in s.Ids(call.key) then env.timestamp else h[id]
  }

  /** Each stream has claimed exactly what had unlocked when it was last brought up to date. */
  ghost predicate Exact(s: State, h: History, now: nat)
    requires s.Sane()
  {
    && h.Keys == s.streams.Keys
    && forall id :: id in s.streams ==> ExactAt(s.streams[id], h[id], now)
  }

  lemma UnlockedMono(s: Stream, t: nat, t': nat)
    requires Sound(s) && t <= t'
    ensures Unlocked(s, t) <= Unlocked(s, t')
  {
    if Elapsed(s, t') < s.duration { Arith.MulDivMono(s.total, Elapsed(s, t), Elapsed(s, t'), s.duration); }
  }

  /** Bringing a stream up to date forgets when that was done before. */
  lemma ClaimForgetsThePast(s: Stream, last: nat, now: nat)
    requires Sound(s) && last <= now && s.claimed == Unlocked(s, last)
    ensures Claim(s, now) == s.(claimed := Unlocked(s, now))
    ensures Unlocked(Claim(s, now), now) == Unlocked(s, now)
    ensures s.claimed <= Unlocked(s, now)
  {
    UnlockedMono(s, last, now);
  }

  ghost predicate ExactAt(stream: Stream, last: nat, now: nat)
    requires Sound(stream)
  {
    stream.start <= last <= now && stream.claimed == Unlocked(stream, last)
  }

  lemma HarvestExact(s: State, h: History, env: Env, key: Key, now: nat)
    requires s.Valid() && Exact(s, h, now) && now <= env.timestamp && Harvest(s, env, key).Ok?
    ensures Harvest(s, env, key).value.0.Valid()
    ensures Exact(Harvest(s, env, key).value.0, NextHistory(s, h, env, HarvestCall(key)), env.timestamp)
  {
    var s', h' := Harvest(s, env, key).value.0, NextHistory(s, h, env, HarvestCall(key));
    HarvestKeeps(s, env, key);
    forall id | id in s.streams ensures ExactAt(s'.streams[id], h'[id], env.timestamp) {
      ClaimForgetsThePast(s.streams[id], h[id], env.timestamp);
    }
  }

  lemma ExactGrows(s: State, s': State, h: History, id: nat, stream: Stream, now: nat, later: nat)
    requires s.Sane() && s'.Sane() && Exact(s, h, now) && now <= later
    requires id !in s.streams && s'.streams == s.streams[id := stream] && stream.start == later && stream.claimed == 0
    ensures Exact(s', h[id := later], later)
  {
    forall k | k in s'.streams ensures ExactAt(s'.streams[k], h[id := later][k], later) {
      if k != id { assert ExactAt(s.streams[k], h[k], now); } else { StartsAtZero(stream); }
    }
  }

  lemma StartsAtZero(stream: Stream)
    requires Sound(stream)
    ensures Unlocked(stream, stream.start) == 0
  {
  }

  lemma AddExact(s: State, h: History, env: Env, call: Call, now: nat)
    requires s.Valid() && Exact(s, h, now) && now <= env.timestamp && call.Add? && Execute(s, env, call).Ok?
    ensures Exact(Step(s, env, call), NextHistory(s, h, env, call), env.timestamp)
  {
    var s', id := Step(s, env, call), s.count + 1;
    AddIs(s, env, call.from, call.token, call.vault, call.amount, call.duration);
    ExactGrows(s, s', h, id, s'.streams[id], now, env.timestamp);
  }

  lemma StepExact(s: State, h: History, env: Env, call: Call, now: nat)
    requires s.Valid() && Exact(s, h, now) && now <= env.timestamp
    ensures Exact(Step(s, env, call), NextHistory(s, h, env, call), env.timestamp)
  {
    if Execute(s, env, call).Err? || call.Pay? || call.InitCall? {
      forall id | id in s.streams ensures ExactAt(s.streams[id], h[id], env.timestamp) {
        assert ExactAt(s.streams[id], h[id], now);
      }
    } else if call.HarvestCall? {
      HarvestExact(s, h, env, call.key, now);
    } else {
      AddExact(s, h, env, call, now);
    }
  }

  // Runs

  type Run = seq<(Env, Call)>

  ghost predicate Orderly(run: Run, now: nat) {
    run != [] ==> run[0].0.TopLevel() && now <= run[0].0.timestamp && Orderly(run[1..], run[0].0.timestamp)
  }

  /** No accepted initialization of the run comes after a stream. */
  predicate InTime(s: State, run: Run)
    requires s.Sane()
    decreases run
  {
    run != [] ==> Timely(s, run[0].1) && InTime(Step(s, run[0].0, run[0].1), run[1..])
  }

  /** What a run in time has reached at time `now`, with its history. */
  ghost predicate Reached(s: State, h: History, now: nat) {
    s.Valid() && s.Covered() && Exact(s, h, now)
  }

  function End(run: Run, now: nat): nat {
    if run == [] then now else End(run[1..], run[0].0.timestamp)
  }

  function After(s: State, run: Run): (s': State)
    requires s.Sane()
    ensures s'.Sane()
    decreases run
  {
    if run == [] then s else After(Step(s, run[0].0, run[0].1), run[1..])
  }

  function HistoryAfter(s: State, h: History, run: Run): History
    requires s.Sane()
    decreases run
  {
    if run == [] then h
    else HistoryAfter(Step(s, run[0].0, run[0].1), NextHistory(s, h, run[0].0, run[0].1), run[1..])
  }

  /** What the harvests of one vault and token paid over a run. */
  function Paid(s: State, run: Run, key: Key): nat
    requires s.Sane()
    decreases run
  {
    if run == [] then 0 else
      (if run[0].1 == HarvestCall(key) && Harvest(s, run[0].0, key).Ok? then Harvest(s, run[0].0, key).value.1 else 0)
      + Paid(Step(s, run[0].0, run[0].1), run[1..], key)
  }

  function ClaimedOf(streams: map<nat, Stream>, ids: seq<nat>): nat {
    if ids == [] then 0 else (if ids[0] in streams then streams[ids[0]].claimed else 0) + ClaimedOf(streams, ids[1..])
  }

  lemma {:induction false} ClaimedOfSame(streams: map<nat, Stream>, streams': map<nat, Stream>, ids: seq<nat>)
    requires forall id :: id in ids ==> id in streams && id in streams' && streams[id].claimed == streams'[id].claimed
    ensures ClaimedOf(streams, ids) == ClaimedOf(streams', ids)
  {
    if ids != [] { ClaimedOfSame(streams, streams', ids[1..]); }
  }

  lemma {:induction false} ClaimedOfAppend(streams: map<nat, Stream>, ids: seq<nat>, id: nat)
    requires id in streams
    ensures ClaimedOf(streams, ids + [id]) == ClaimedOf(streams, ids) + streams[id].claimed
  {
    if ids == [] {
      assert ids + [id] == [id];
    } else {
      assert (ids + [id])[1..] == ids[1..] + [id];
      ClaimedOfAppend(streams, ids[1..], id);
    }
  }

  /** A pass gathers exactly what the listed streams' claims grow by. */
  lemma {:induction false} PassGathersClaims(streams: map<nat, Stream>, ids: seq<nat>, now: nat, gathered: nat,
                                             token: Address)
    requires AllSound(streams) && Listed(streams, ids, token) && HarvestFrom(streams, ids, now, gathered).Ok?
    ensures var (after, payout) := HarvestFrom(streams, ids, now, gathered).value;
            ClaimedOf(after, ids) == ClaimedOf(streams, ids) + payout - gathered
    decreases ids
  {
    if ids != [] {
      var s := streams[ids[0]];
      var streams' := streams[ids[0] := Claim(s, now)];
      var gathered' := if Claimable(s, now) <= 0 then gathered else gathered + Claimable(s, now);
      assert Claimable(s, now) <= 0 ==> streams' == streams;
      assert ids[0] !in ids[1..] && forall id :: id in ids[1..] ==> id in ids;
      PassEffect(streams', ids[1..], now, gathered', token);
      PassGathersClaims(streams', ids[1..], now, gathered', token);
      ClaimedOfSame(streams, streams', ids[1..]);
    }
  }

  lemma HarvestPaysClaims(s: State, env: Env, harvested: Key, key: Key)
    requires s.Valid() && Harvest(s, env, harvested).Ok?
    ensures var (s', payout) := Harvest(s, env, harvested).value;
            ClaimedOf(s'.streams, s'.Ids(key)) == ClaimedOf(s.streams, s.Ids(key))
              + (if harvested == key then payout else 0)
  {
    IdsListed(s, key);
    HarvestKeeps(s, env, harvested);
    if harvested == key {
      PassGathersClaims(s.streams, s.Ids(key), env.timestamp, 0, key.1);
    } else {
      IdsListed(s, harvested);
      ClaimedOfSame(s.streams, Harvest(s, env, harvested).value.0.streams, s.Ids(key));
    }
  }

  lemma UnclaimedStreamAdded(streams: map<nat, Stream>, ids: seq<nat>, id: nat, stream: Stream)
    requires id !in streams && (forall k :: k in ids ==> k in streams) && stream.claimed == 0
    ensures ClaimedOf(streams[id := stream], ids) == ClaimedOf(streams, ids)
    ensures ClaimedOf(streams[id := stream], ids + [id]) == ClaimedOf(streams, ids)
  {
    ClaimedOfSame(streams, streams[id := stream], ids);
    ClaimedOfAppend(streams[id := stream], ids, id);
  }

  lemma AddClaimsNothing(s: State, env: Env, call: Call, key: Key)
    requires s.Valid() && call.Add? && Execute(s, env, call).Ok?
    ensures ClaimedOf(Step(s, env, call).streams, Step(s, env, call).Ids(key)) == ClaimedOf(s.streams, s.Ids(key))
  {
    var s', id := Step(s, env, call), s.count + 1;
    IdsListed(s, key);
    AddIs(s, env, call.from, call.token, call.vault, call.amount, call.duration);
    UnclaimedStreamAdded(s.streams, s.Ids(key), id, s'.streams[id]);
  }

  /** One step raises what a vault and token have claimed by exactly what it pays them. */
  lemma StepPaysClaims(s: State, env: Env, call: Call, key: Key)
    requires s.Valid()
    ensures var s' := Step(s, env, call);
            ClaimedOf(s'.streams, s'.Ids(key)) == ClaimedOf(s.streams, s.Ids(key))
              + (if call == HarvestCall(key) && Harvest(s, env, key).Ok? then Harvest(s, env, key).value.1 else 0)
  {
    if Execute(s, env, call).Ok? {
      if call.HarvestCall? {
        HarvestPaysClaims(s, env, call.key, key);
      } else if call.Add? {
        AddClaimsNothing(s, env, call, key);
      }
    }
  }

  /** After any run in time, whatever was harvested when, every stream has claimed exactly what had
      unlocked at its last harvest, custody covers everything still owed, and each vault and token has
      been paid exactly its streams' claims. */
  lemma {:induction false} RunKeeps(s: State, h: History, run: Run, now: nat, key: Key)
    requires Reached(s, h, now) && Orderly(run, now) && InTime(s, run)
    ensures Reached(After(s, run), HistoryAfter(s, h, run), End(run, now))
    ensures var s' := After(s, run);
            ClaimedOf(s'.streams, s'.Ids(key)) == ClaimedOf(s.streams, s.Ids(key)) + Paid(s, run, key)
    decreases run
  {
    if run != [] {
      var (env, call) := run[0];
      StepKeeps(s, env, call);
      StepExact(s, h, env, call, now);
      StepPaysClaims(s, env, call, key);
      RunKeeps(Step(s, env, call), NextHistory(s, h, env, call), run[1..], env.timestamp, key);
    }
  }

  /** What the streams of a list have unlocked, each by its own time. */
  ghost function UnlockedOf(s: State, h: History, ids: seq<nat>): nat
    requires s.Sane() && h.Keys == s.streams.Keys
  {
    if ids == [] then 0
    else (if ids[0] in h then Unlocked(s.streams[ids[0]], h[ids[0]]) else 0) + UnlockedOf(s, h, ids[1..])
  }

  lemma {:induction false} ExactSum(s: State, h: History, now: nat, ids: seq<nat>)
    requires s.Valid() && Exact(s, h, now)
    ensures ClaimedOf(s.streams, ids) == UnlockedOf(s, h, ids)
  {
    if ids != [] { ExactSum(s, h, now, ids[1..]); }
  }

  /** Path independence. Over any run from deployment in which the initialization comes before the first
      stream, the total a vault and token are paid is the sum of what their streams had unlocked at their
      last harvest: how many harvests there were is immaterial. */
  lemma PathIndependent(self: Address, tokens: map<Address, Book>, run: Run, now: nat, key: Key)
    requires self.Contract? && Orderly(run, now) && InTime(Initial(self, tokens), run)
    ensures var s := Initial(self, tokens);
            && Reached(s, map[], now)
            && var s', h' := After(s, run), HistoryAfter(s, map[], run);
               && Reached(s', h', End(run, now))
               && Paid(s, run, key) == UnlockedOf(s', h', s'.Ids(key)) == ClaimedOf(s'.streams, s'.Ids(key))
  {
    var s := Initial(self, tokens);
    assert forall token :: Outstanding(s.streams, 0, token) == 0;
    RunKeeps(s, map[], run, now, key);
    var s', h' := After(s, run), HistoryAfter(s, map[], run);
    ExactSum(s', h', End(run, now), s'.Ids(key));
  }

  // Pro rata

  /** `x` is what a stream owes by the time `elapsed` since its start: everything from its end on, and before that
      its linear share, less than one unit off and never more. */
  predicate ProRata(total: nat, duration: nat, elapsed: nat, x: nat) {
    if elapsed >= duration then x == total else x * duration <= total * elapsed < (x + 1) * duration
  }

  lemma UnlockedIsProRata(s: Stream, t: nat)
    requires Sound(s) && s.start <= t
    ensures ProRata(s.total, s.duration, t - s.start, Unlocked(s, t))
  {
    Arith.FloorBounds(s.total * (t - s.start), s.duration);
  }

  /** No two amounts are pro rata of the same. */
  lemma OneIsProRata(total: nat, duration: nat, elapsed: nat, x: nat, y: nat)
    requires duration > 0 && ProRata(total, duration, elapsed, x) && ProRata(total, duration, elapsed, y)
    ensures x == y
  {
    if elapsed < duration {
      if x < y { Arith.MulLe(x + 1, y, duration); }
      if y < x { Arith.MulLe(y + 1, x, duration); }
    }
  }

  /** After any run in time from deployment, whatever was harvested when, every stream has been paid its linear
      share of the time from its start to its last harvest, and all of it once it is over. */
  lemma PaidProRata(self: Address, tokens: map<Address, Book>, run: Run, now: nat, id: nat)
    requires self.Contract? && Orderly(run, now) && InTime(Initial(self, tokens), run)
    requires id in After(Initial(self, tokens), run).streams
    ensures var s, h := After(Initial(self, tokens), run), HistoryAfter(Initial(self, tokens), map[], run);
            var stream := s.streams[id];
            && id in h && stream.start <= h[id] <= End(run, now)
            && ProRata(stream.total, stream.duration, h[id] - stream.start, stream.claimed)
  {
    PathIndependent(self, tokens, run, now, (self, self));
    var s, h := After(Initial(self, tokens), run), HistoryAfter(Initial(self, tokens), map[], run);
    assert ExactAt(s.streams[id], h[id], End(run, now));
    UnlockedIsProRata(s.streams[id], h[id]);
  }

  /** The sum over a list. */
  function DueOf(due: nat -> nat, ids: seq<nat>): nat {
    if ids == [] then 0 else due(ids[0]) + DueOf(due, ids[1..])
  }

  /** What each listed stream owes by `now`, all told. */
  ghost predicate DueBy(streams: map<nat, Stream>, ids: seq<nat>, now: nat, due: nat -> nat) {
    forall id :: id in ids ==>
      && id in streams && streams[id].start <= now
      && ProRata(streams[id].total, streams[id].duration, now - streams[id].start, due(id))
  }

  lemma {:induction false} PassAnnouncesWhatIsDue(streams: map<nat, Stream>, ids: seq<nat>, now: nat, gathered: int,
                                                  due: nat -> nat)
    requires AllSound(streams) && DueBy(streams, ids, now, due) && OnTime(streams, ids, now)
    requires ClaimableFrom(streams, ids, now, gathered).Ok?
    ensures ClaimableFrom(streams, ids, now, gathered).value + ClaimedOf(streams, ids) == gathered + DueOf(due, ids)
    decreases ids
  {
    if ids != [] {
      var s := streams[ids[0]];
      assert ids[0] in ids;
      UnlockedIsProRata(s, now);
      OneIsProRata(s.total, s.duration, now - s.start, due(ids[0]), Unlocked(s, now));
      PassAnnouncesWhatIsDue(streams, ids[1..], now, gathered + Claimable(s, now), due);
    }
  }

  /** What the view announces for a vault and token is what their streams owe by now, pro rata, less what they have
      been paid; and a harvest pays just that. */
  lemma HarvestPaysWhatIsDue(s: State, h: History, now: nat, env: Env, key: Key, due: nat -> nat)
    requires Reached(s, h, now) && now <= env.timestamp && DueBy(s.streams, s.Ids(key), env.timestamp, due)
    ensures GetClaimable(s, env.timestamp, key).Ok? ==>
      GetClaimable(s, env.timestamp, key).value == DueOf(due, s.Ids(key)) - ClaimedOf(s.streams, s.Ids(key))
    ensures Harvest(s, env, key).Ok? ==>
      Harvest(s, env, key).value.1 == DueOf(due, s.Ids(key)) - ClaimedOf(s.streams, s.Ids(key))
  {
    var ids := s.Ids(key);
    IdsListed(s, key);
    ReachedIsOnTime(s, h, now, env.timestamp, ids);
    PassPaysWhatWasAnnounced(s.streams, ids, env.timestamp, 0);
    if ClaimableFrom(s.streams, ids, env.timestamp, 0).Ok? {
      PassAnnouncesWhatIsDue(s.streams, ids, env.timestamp, 0, due);
    }
    if Harvest(s, env, key).Ok? { HarvestIsPass(s, env, key); }
  }

  lemma HarvestLeavesPaidProRata(s: State, h: History, now: nat, env: Env, key: Key, due: nat -> nat)
    requires Reached(s, h, now) && now <= env.timestamp && DueBy(s.streams, s.Ids(key), env.timestamp, due)
    requires Harvest(s, env, key).Ok?
    ensures var streams' := Harvest(s, env, key).value.0.streams;
            forall id :: id in s.Ids(key) ==> id in streams' && streams'[id].claimed == due(id)
  {
    HarvestKeeps(s, env, key);
    ReachedIsOnTime(s, h, now, env.timestamp, s.Ids(key));
    PassLeavesPaidProRata(s.streams, Harvest(s, env, key).value.0.streams, h, s.Ids(key), env.timestamp, due);
  }

  lemma PassLeavesPaidProRata(streams: map<nat, Stream>, streams': map<nat, Stream>, h: History, ids: seq<nat>,
                              now: nat, due: nat -> nat)
    requires AllSound(streams) && h.Keys == streams.Keys && ClaimedAt(streams, streams', ids, now)
    requires DueBy(streams, ids, now, due) && forall id :: id in streams ==> ExactAt(streams[id], h[id], now)
    ensures forall id :: id in ids ==> id in streams' && streams'[id].claimed == due(id)
  {
    forall id | id in ids ensures id in streams' && streams'[id].claimed == due(id) {
      HarvestedIsDue(streams[id], h[id], now, due(id));
    }
  }

  lemma ClaimableIsDue(s: Stream, now: nat, due: nat)
    requires Sound(s) && s.start <= now && s.claimed <= Unlocked(s, now)
    requires ProRata(s.total, s.duration, now - s.start, due)
    ensures Claimable(s, now) == due - s.claimed >= 0
    ensures Computable(s, now) <==>
      (s.claimed < s.total && now - s.start < s.duration ==> Fits(s.total * (now - s.start)))
  {
    UnlockedIsProRata(s, now);
    OneIsProRata(s.total, s.duration, now - s.start, due, Unlocked(s, now));
  }

  /** The products that the loops compute fit: a stream that is not yet over nor all claimed needs one. */
  ghost predicate ProductsFit(streams: map<nat, Stream>, ids: seq<nat>, now: nat) {
    forall id :: id in ids && id in streams && streams[id].start <= now ==>
      var s := streams[id];
      s.claimed < s.total && now - s.start < s.duration ==> Fits(s.total * (now - s.start))
  }

  lemma HeadAndRest(streams: map<nat, Stream>, ids: seq<nat>, now: nat, due: nat -> nat)
    requires AllSound(streams) && ids != [] && DueBy(streams, ids, now, due) && OnTime(streams, ids, now)
    ensures ids[0] in streams && streams[ids[0]].start <= now
    ensures streams[ids[0]].claimed <= Unlocked(streams[ids[0]], now)
    ensures var s := streams[ids[0]]; ProRata(s.total, s.duration, now - s.start, due(ids[0]))
    ensures DueBy(streams, ids[1..], now, due) && OnTime(streams, ids[1..], now)
    ensures ProductsFit(streams, ids, now) <==>
      && (var s := streams[ids[0]];
          s.claimed < s.total && now - s.start < s.duration ==> Fits(s.total * (now - s.start)))
      && ProductsFit(streams, ids[1..], now)
  {
    assert ids[0] in ids;
    assert forall id :: id in ids <==> id == ids[0] || id in ids[1..];
  }

  lemma {:induction false} PassAcceptedIff(streams: map<nat, Stream>, ids: seq<nat>, now: nat, gathered: nat,
                                           due: nat -> nat)
    requires AllSound(streams) && DueBy(streams, ids, now, due) && OnTime(streams, ids, now) && Fits(gathered)
    ensures ClaimedOf(streams, ids) <= DueOf(due, ids)
    ensures ClaimableFrom(streams, ids, now, gathered).Ok? <==>
      ProductsFit(streams, ids, now) && Fits(gathered + DueOf(due, ids) - ClaimedOf(streams, ids))
    decreases ids
  {
    if ids != [] {
      var s := streams[ids[0]];
      HeadAndRest(streams, ids, now, due);
      ClaimableIsDue(s, now, due(ids[0]));
      if Fits(gathered + Claimable(s, now)) {
        PassAcceptedIff(streams, ids[1..], now, gathered + Claimable(s, now), due);
      } else {
        PassAcceptedIff(streams, ids[1..], now, 0, due);
      }
    }
  }

  /** Exactly when the view announces anything: the products and the sum fit. */
  lemma AnnouncedIff(s: State, h: History, now: nat, later: nat, key: Key, due: nat -> nat)
    requires Reached(s, h, now) && now <= later && DueBy(s.streams, s.Ids(key), later, due)
    ensures var owed := DueOf(due, s.Ids(key)) - ClaimedOf(s.streams, s.Ids(key));
            && owed >= 0
            && (GetClaimable(s, later, key).Ok? <==> ProductsFit(s.streams, s.Ids(key), later) && Fits(owed))
            && (GetClaimable(s, later, key).Ok? ==> GetClaimable(s, later, key).value == owed)
  {
    ReachedIsOnTime(s, h, now, later, s.Ids(key));
    PassAcceptedIff(s.streams, s.Ids(key), later, 0, due);
    if GetClaimable(s, later, key).Ok? { PassAnnouncesWhatIsDue(s.streams, s.Ids(key), later, 0, due); }
  }

  /** Exactly when a harvest goes through: the view announces its payout, and that fits with what the vault has. No
      one needs to sign for it. */
  lemma HarvestedIff(s: State, h: History, now: nat, env: Env, key: Key, due: nat -> nat)
    requires Reached(s, h, now) && now <= env.timestamp && DueBy(s.streams, s.Ids(key), env.timestamp, due)
    requires key.0 != s.self
    ensures var owed := DueOf(due, s.Ids(key)) - ClaimedOf(s.streams, s.Ids(key));
            Harvest(s, env, key).Ok? <==>
              && ProductsFit(s.streams, s.Ids(key), env.timestamp) && Fits(owed)
              && (owed > 0 ==> Fits(Get(s.TokenBook(key.1), key.0) + owed))
  {
    AnnouncedIff(s, h, now, env.timestamp, key, due);
    HarvestedIffAnnounced(s, h, now, env, key);
  }

  lemma HarvestedIffAnnounced(s: State, h: History, now: nat, env: Env, key: Key)
    requires Reached(s, h, now) && now <= env.timestamp && key.0 != s.self
    ensures var view := GetClaimable(s, env.timestamp, key);
            Harvest(s, env, key).Ok? <==>
              view.Ok? && (view.value > 0 ==> Fits(Get(s.TokenBook(key.1), key.0) + view.value))
  {
    PassIsAnnounced(s, h, now, env.timestamp, key);
    PayoutIff(s, env, key);
  }

  lemma PassIsAnnounced(s: State, h: History, now: nat, later: nat, key: Key)
    requires Reached(s, h, now) && now <= later
    ensures HarvestFrom(s.streams, s.Ids(key), later, 0).Ok? <==> GetClaimable(s, later, key).Ok?
    ensures GetClaimable(s, later, key).Ok? ==>
      HarvestFrom(s.streams, s.Ids(key), later, 0).value.1 == GetClaimable(s, later, key).value
  {
    ReachedIsOnTime(s, h, now, later, s.Ids(key));
    IdsListed(s, key);
    PassPaysWhatWasAnnounced(s.streams, s.Ids(key), later, 0);
  }

  /** Custody covers every payout, so only the vault's balance can stand in its way. */
  lemma PayoutIff(s: State, env: Env, key: Key)
    requires s.Valid() && s.Covered() && key.0 != s.self
    ensures var pass := HarvestFrom(s.streams, s.Ids(key), env.timestamp, 0);
            Harvest(s, env, key).Ok? <==>
              pass.Ok? && (pass.value.1 > 0 ==> Fits(Get(s.TokenBook(key.1), key.0) + pass.value.1))
  {
    if HarvestFrom(s.streams, s.Ids(key), env.timestamp, 0).Ok? { CoverPays(s, env.timestamp, key); }
  }

  lemma CoverPays(s: State, now: nat, key: Key)
    requires s.Valid() && s.Covered() && HarvestFrom(s.streams, s.Ids(key), now, 0).Ok?
    ensures HarvestFrom(s.streams, s.Ids(key), now, 0).value.1 <= Get(s.TokenBook(key.1), s.self)
  {
    IdsListed(s, key);
    PassOwesLess(s.streams, s.Ids(key), now, 0, key.1, s.count, key.1);
    assert s.CoveredIn(key.1);
  }

  lemma HarvestedIsDue(stream: Stream, last: nat, now: nat, due: nat)
    requires Sound(stream) && ExactAt(stream, last, now)
    requires ProRata(stream.total, stream.duration, now - stream.start, due)
    ensures Claim(stream, now).claimed == due
  {
    ClaimForgetsThePast(stream, last, now);
    UnlockedIsProRata(stream, now);
    OneIsProRata(stream.total, stream.duration, now - stream.start, due, Unlocked(stream, now));
  }

  lemma ReachedIsOnTime(s: State, h: History, now: nat, later: nat, ids: seq<nat>)
    requires Reached(s, h, now) && now <= later
    ensures OnTime(s.streams, ids, later)
    ensures forall id :: id in s.streams ==> ExactAt(s.streams[id], h[id], later)
  {
    forall id | id in s.streams ensures ExactAt(s.streams[id], h[id], later) {
      assert ExactAt(s.streams[id], h[id], now);
    }
    forall id | id in s.streams ensures s.streams[id].claimed <= Unlocked(s.streams[id], later) {
      ClaimForgetsThePast(s.streams[id], h[id], later);
    }
  }

  /** Of a vault and token with one stream: what is announced and paid brings it to its pro rata share. */
  lemma OneStreamIsPaidProRata(s: State, h: History, now: nat, env: Env, key: Key, id: nat, share: nat)
    requires Reached(s, h, now) && now <= env.timestamp && s.Ids(key) == [id] && id in s.streams
    requires s.streams[id].start <= env.timestamp
    requires ProRata(s.streams[id].total, s.streams[id].duration, env.timestamp - s.streams[id].start, share)
    ensures GetClaimable(s, env.timestamp, key).Ok? ==>
      s.streams[id].claimed + GetClaimable(s, env.timestamp, key).value == share
    ensures Harvest(s, env, key).Ok? ==> s.streams[id].claimed + Harvest(s, env, key).value.1 == share
  {
    var due: nat -> nat := (_: nat) => share;
    assert DueBy(s.streams, [id], env.timestamp, due);
    HarvestPaysWhatIsDue(s, h, now, env, key, due);
    OneOf(s.streams, id, due);
  }

  lemma OneOf(streams: map<nat, Stream>, id: nat, due: nat -> nat)
    requires id in streams
    ensures ClaimedOf(streams, [id]) == streams[id].claimed && DueOf(due, [id]) == due(id)
  {
    assert [id][1..] == [];
  }

  // Consent

  /** Exactly when a stream is accepted: whoever pays for it signs and has the tokens, and the sums fit. */
  lemma AddedIff(s: State, env: Env, from: Address, token: Address, vault: Address, amount: int, duration: nat)
    requires s.Sane() && s.self.Contract? && env.TopLevel()
    ensures AddStream(s, env, from, token, vault, amount, duration).Ok? <==>
      && env.Authorized(from) && 0 < amount <= Get(s.TokenBook(token), from) && duration > 0
      && Fits(amount) && Fits(Get(s.TokenBook(token), s.self) + amount) && FitsU32(s.count + 1)
    ensures AddStream(s, env, from, token, vault, amount, duration).Ok? ==>
      forall t, a :: Get(AddStream(s, env, from, token, vault, amount, duration).value.0.TokenBook(t), a)
        == Get(s.TokenBook(t), a) + (if t == token && a == s.self then amount else 0)
                                  - (if t == token && a == from then amount else 0)
  {
  }

  lemma UnsignedStep(s: State, env: Env, call: Call, token: Address, user: Address)
    requires s.Sane() && s.self.Contract? && env.TopLevel() && user.User? && !env.Authorized(user)
    ensures Get(s.TokenBook(token), user) <= Get(Step(s, env, call).TokenBook(token), user)
    ensures Step(s, env, call).self == s.self
  {
    if call.Add? { AddedIff(s, env, call.from, call.token, call.vault, call.amount, call.duration); }
  }

  /** In any run at all, whoever signs nothing keeps its tokens. */
  lemma {:induction false} UnsignedUserKeepsTokens(s: State, run: Run, now: nat, token: Address, user: Address)
    requires s.Sane() && s.self.Contract? && user.User? && Orderly(run, now)
    requires forall i :: 0 <= i < |run| ==> !run[i].0.Authorized(user)
    ensures Get(s.TokenBook(token), user) <= Get(After(s, run).TokenBook(token), user)
    decreases run
  {
    if run != [] {
      UnsignedStep(s, run[0].0, run[0].1, token, user);
      UnsignedUserKeepsTokens(Step(s, run[0].0, run[0].1), run[1..], run[0].0.timestamp, token, user);
    }
  }

  // Late initialization

  /** The first id is listed where it does not belong, or twice; or it will be, because a stream has that
      id already and the count has started over. */
  ghost predicate Misnumbered(s: State, key: Key) {
    && s.admin.Some? && 1 in s.streams && key in s.index && 1 in s.index[key]
    && (s.count == 0 || KeyOf(s.streams[1]) != key || !NoDup(s.index[key]))
  }

  lemma MisnumberedIsInvalid(s: State, key: Key)
    requires Misnumbered(s, key)
    ensures !s.Valid()
  {
  }

  lemma LateInitializationMisnumbers(s: State, env: Env, call: Call)
    requires s.Valid() && !Timely(s, call)
    ensures exists key :: Misnumbered(Step(s, env, call), key)
  {
    var id :| id in s.streams;
    assert 1 in s.streams;
    assert Misnumbered(Step(s, env, call), KeyOf(s.streams[1]));
  }

  /** No later call mends it. */
  lemma StepKeepsMisnumbered(s: State, env: Env, call: Call, key: Key)
    requires s.Sane() && Misnumbered(s, key)
    ensures Misnumbered(Step(s, env, call), key)
  {
    if call.Add? && Execute(s, env, call).Ok? {
      AddKeepsMisnumbered(s, env, call, key);
    } else if call.HarvestCall? && Execute(s, env, call).Ok? {
      PassKeepsKeys(s.streams, s.Ids(call.key), env.timestamp, 0);
    }
  }

  lemma AddKeepsMisnumbered(s: State, env: Env, call: Call, key: Key)
    requires s.Sane() && Misnumbered(s, key) && call.Add? && Execute(s, env, call).Ok?
    ensures Misnumbered(Step(s, env, call), key)
  {
    var s' := Step(s, env, call);
    var n := |s.index[key]|;
    if key == (call.vault, call.token) {
      assert s'.index[key] == s.index[key] + [s.count + 1];
      if s.count == 0 {
        var i :| 0 <= i < n && s.index[key][i] == 1;
        assert s'.index[key][i] == s'.index[key][n];
      } else if !NoDup(s.index[key]) {
        var i, j :| 0 <= i < j < n && s.index[key][i] == s.index[key][j];
        assert s'.index[key][i] == s'.index[key][j];
      }
    }
  }

  lemma {:induction false} PassKeepsKeys(streams: map<nat, Stream>, ids: seq<nat>, now: nat, gathered: nat)
    requires AllSound(streams) && HarvestFrom(streams, ids, now, gathered).Ok?
    ensures var after := HarvestFrom(streams, ids, now, gathered).value.0;
            after.Keys == streams.Keys && forall id :: id in streams ==> KeyOf(after[id]) == KeyOf(streams[id])
    decreases ids
  {
    if ids != [] {
      if ids[0] !in streams || Claimable(streams[ids[0]], now) <= 0 {
        PassKeepsKeys(streams, ids[1..], now, gathered);
      } else {
        var s := streams[ids[0]];
        PassKeepsKeys(streams[ids[0] := Claim(s, now)], ids[1..], now, gathered + Claimable(s, now));
      }
    }
  }

  lemma {:induction false} MisnumberedForGood(s: State, run: Run, key: Key)
    requires s.Sane() && Misnumbered(s, key)
    ensures !After(s, run).Valid()
    decreases run
  {
    if run == [] {
      MisnumberedIsInvalid(s, key);
    } else {
      StepKeepsMisnumbered(s, run[0].0, run[0].1, key);
      MisnumberedForGood(Step(s, run[0].0, run[0].1), run[1..], key);
    }
  }

  /** Exactly when the streamer keeps its index and its custody: after a run it does if and only if the
      initialization that was accepted, if any, came before the first stream. */
  lemma {:induction false} KeptIffInTime(s: State, run: Run, now: nat)
    requires s.Valid() && s.Covered() && Orderly(run, now)
    ensures After(s, run).Valid() && After(s, run).Covered() <==> InTime(s, run)
    decreases run
  {
    if run != [] {
      var (env, call) := run[0];
      if Timely(s, call) {
        StepKeeps(s, env, call);
        KeptIffInTime(Step(s, env, call), run[1..], env.timestamp);
      } else {
        LateInitializationMisnumbers(s, env, call);
        var key :| Misnumbered(Step(s, env, call), key);
        MisnumberedForGood(Step(s, env, call), run[1..], key);
      }
    }
  }

  lemma KeptFromDeploymentIffInTime(self: Address, tokens: map<Address, Book>, run: Run, now: nat)
    requires self.Contract? && Orderly(run, now)
    ensures var s := Initial(self, tokens);
            After(s, run).Valid() && After(s, run).Covered() <==> InTime(s, run)
  {
    var s := Initial(self, tokens);
    assert forall token :: Outstanding(s.streams, 0, token) == 0;
    KeptIffInTime(s, run, now);
  }

  /** What goes wrong otherwise: a stream for one vault, an initialization, a stream of 1000 for another
      vault under the same number, and the first vault's harvest pays out what was meant for the other. */
  lemma LateInitializationMisdirects(self: Address, token: Address, user: Address, first: Address, second: Address)
    requires self.Contract? && user.User? && first.User? && second.User? && user != first && first != second
    ensures var early, late := Env(0, 0, {user}, user), Env(0, 1, {user}, user);
            var run: Run := [(early, Add(user, token, first, 1, 1)), (early, InitCall(user)),
                             (early, Add(user, token, second, 1000, 1)), (late, HarvestCall((first, token)))];
            var s := Initial(self, map[token := map[user := 1001]]);
            && Orderly(run, 0) && !InTime(s, run)
            && After(s, run).streams == map[1 := Stream(1, user, token, second, 1000, 1000, 0, 1)]
            && Paid(s, run, (first, token)) == 1000 && Get(After(s, run).TokenBook(token), first) == 1000
  {
    var early, late := Env(0, 0, {user}, user), Env(0, 1, {user}, user);
    var add, more := Add(user, token, first, 1, 1), Add(user, token, second, 1000, 1);
    var init, harvest := InitCall(user), HarvestCall((first, token));
    var s := Initial(self, map[token := map[user := 1001]]);
    AfterOneToken(s, token, user, first);
    SecondThenHarvest(Step(Step(s, early, add), early, init), token, user, first, second);
    FourSteps(s, (early, add), (early, init), (early, more), (late, harvest), (first, token));
  }

  /** The first stream and the initialization have been; nobody has been paid. */
  predicate Restarted(s: State, token: Address, user: Address, first: Address) {
    && s.self.Contract? && user.User? && first.User? && first != user
    && s.count == 0 && s.index == map[(first, token) := [1]]
    && s.streams == map[1 := Stream(1, user, token, first, 1, 0, 0, 1)]
    && Get(s.TokenBook(token), s.self) == 1 && Get(s.TokenBook(token), user) == 1000
    && Get(s.TokenBook(token), first) == 0
  }

  lemma SecondStream(s: State, token: Address, user: Address, first: Address, second: Address)
    requires Restarted(s, token, user, first) && first != second
    ensures var s' := Step(s, Env(0, 0, {user}, user), Add(user, token, second, 1000, 1));
            && s'.self == s.self && s'.Ids((first, token)) == [1]
            && s'.streams == map[1 := Stream(1, user, token, second, 1000, 0, 0, 1)]
            && Get(s'.TokenBook(token), s.self) == 1001 && Get(s'.TokenBook(token), first) == 0
  {
    AddEffect(s, Env(0, 0, {user}, user), user, token, second, 1000);
  }

  lemma SecondThenHarvest(s: State, token: Address, user: Address, first: Address, second: Address)
    requires Restarted(s, token, user, first) && first != second
    ensures var key := (first, token);
            var s' := Step(s, Env(0, 0, {user}, user), Add(user, token, second, 1000, 1));
            var s'' := Step(s', Env(0, 1, {user}, user), HarvestCall(key));
            && Harvest(s', Env(0, 1, {user}, user), key).Ok?
            && Harvest(s', Env(0, 1, {user}, user), key).value.1 == 1000
            && s''.streams == map[1 := Stream(1, user, token, second, 1000, 1000, 0, 1)]
            && Get(s''.TokenBook(token), first) == 1000
  {
    SecondStream(s, token, user, first, second);
    var s' := Step(s, Env(0, 0, {user}, user), Add(user, token, second, 1000, 1));
    HarvestOne(s', Env(0, 1, {user}, user), (first, token), 1);
  }

  lemma FourSteps(s: State, a: (Env, Call), b: (Env, Call), c: (Env, Call), d: (Env, Call), key: Key)
    requires s.Sane() && a.1.Add? && b.1.InitCall? && c.1.Add? && d.1 == HarvestCall(key)
    requires a.0.TopLevel() && a.0 == b.0 == c.0 && d.0.TopLevel() && a.0.timestamp <= d.0.timestamp
    ensures var run := [a, b, c, d];
            var s1 := Step(s, a.0, a.1);
            var s3 := Step(Step(s1, b.0, b.1), c.0, c.1);
            && Orderly(run, a.0.timestamp)
            && After(s, run) == Step(s3, d.0, d.1)
            && Paid(s, run, key) == (if Harvest(s3, d.0, key).Ok? then Harvest(s3, d.0, key).value.1 else 0)
            && (!Timely(s1, b.1) ==> !InTime(s, run))
  {
    var run := [a, b, c, d];
    assert run[1..] == [b, c, d] && run[1..][1..] == [c, d]
           && run[1..][1..][1..] == [d] && run[1..][1..][1..][1..] == [];
    var s1 := Step(s, a.0, a.1);
    var s2 := Step(s1, b.0, b.1);
    var s3 := Step(s2, c.0, c.1);
    OneStep(s3, [d], key);
    OneStep(s2, [c, d], key);
    OneStep(s1, [b, c, d], key);
    OneStep(s, run, key);
    assert Orderly([d], a.0.timestamp) && Orderly([c, d], a.0.timestamp) && Orderly([b, c, d], a.0.timestamp);
  }

  lemma OneStep(s: State, run: Run, key: Key)
    requires s.Sane() && run != []
    ensures var (env, call) := run[0];
            var s' := Step(s, env, call);
            && After(s, run) == After(s', run[1..]) && (InTime(s, run) <==> Timely(s, call) && InTime(s', run[1..]))
            && Paid(s, run, key) == Paid(s', run[1..], key)
                 + if call == HarvestCall(key) && Harvest(s, env, key).Ok? then Harvest(s, env, key).value.1 else 0
  {
  }

  lemma AddEffect(s: State, env: Env, user: Address, token: Address, vault: Address, amount: nat)
    requires s.Sane() && s.self.Contract? && user.User? && user in env.signers
    requires 0 < amount <= Get(s.TokenBook(token), user) && Fits(amount) && FitsU32(s.count + 1)
    requires Fits(Get(s.TokenBook(token), s.self) + amount)
    ensures var id, key := s.count + 1, (vault, token);
            var s' := Step(s, env, Add(user, token, vault, amount, 1));
            && s' == s.(tokens := s'.tokens, count := id, index := s.index[key := s.Ids(key) + [id]],
                        streams := s.streams[id := Stream(id, user, token, vault, amount, 0, env.timestamp, 1)])
            && Get(s'.TokenBook(token), s.self) == Get(s.TokenBook(token), s.self) + amount
            && Get(s'.TokenBook(token), user) == Get(s.TokenBook(token), user) - amount
            && (forall a :: a != user && a != s.self ==> Get(s'.TokenBook(token), a) == Get(s.TokenBook(token), a))
            && forall t :: t != token ==> s'.TokenBook(t) == s.TokenBook(t)
  {
  }

  /** A harvest of one stream, at its end and never harvested before. */
  lemma HarvestOne(s: State, env: Env, key: Key, id: nat)
    requires s.Sane() && s.self.Contract? && key.0.User? && s.Ids(key) == [id] && id in s.streams
    requires 0 < s.streams[id].total && s.streams[id].claimed == 0
    requires s.streams[id].start + s.streams[id].duration <= env.timestamp
    requires s.streams[id].total <= Get(s.TokenBook(key.1), s.self)
    requires Fits(Get(s.TokenBook(key.1), key.0) + s.streams[id].total)
    ensures var stream, s' := s.streams[id], Step(s, env, HarvestCall(key));
            && s' == s.(tokens := s'.tokens, streams := s.streams[id := stream.(claimed := stream.total)])
            && Harvest(s, env, key).Ok? && Harvest(s, env, key).value.1 == stream.total
            && Get(s'.TokenBook(key.1), s.self) == Get(s.TokenBook(key.1), s.self) - stream.total
            && Get(s'.TokenBook(key.1), key.0) == Get(s.TokenBook(key.1), key.0) + stream.total
  {
    var stream := s.streams[id];
    var paid := s.streams[id := stream.(claimed := stream.total)];
    assert Claim(stream, env.timestamp) == stream.(claimed := stream.total);
    assert [id][1..] == [];
    assert HarvestFrom(paid, [], env.timestamp, stream.total).value == (paid, stream.total);
    assert HarvestFrom(s.streams, [id], env.timestamp, 0) == HarvestFrom(paid, [], env.timestamp, stream.total);
  }

  /** The calls of `LateInitializationLosesCustody` but the last. */
  function TwoTokens(token: Address, other: Address, user: Address, first: Address, second: Address, third: Address)
    : Run
  {
    var env := Env(0, 0, {user}, user);
    [(env, Add(user, token, first, 1, 1)), (env, InitCall(user)),
     (env, Add(user, other, second, 1000, 1)), (env, Add(user, token, third, 1000, 1))]
  }

  /** The first stream and the initialization. */
  lemma AfterOneToken(s: State, token: Address, user: Address, first: Address)
    requires s == Initial(s.self, s.tokens) && s.self.Contract? && user.User? && first.User? && first != user
    requires s.TokenBook(token) == map[user := 1001]
    ensures var env := Env(0, 0, {user}, user);
            var s1 := Step(s, env, Add(user, token, first, 1, 1));
            var s' := Step(s1, env, InitCall(user));
            && !Timely(s1, InitCall(user)) && Restarted(s', token, user, first) && s'.self == s.self
            && forall t :: t != token ==> s'.TokenBook(t) == s.TokenBook(t)
  {
    var env := Env(0, 0, {user}, user);
    AddEffect(s, env, user, token, first, 1);
    var s1 := Step(s, env, Add(user, token, first, 1, 1));
    assert s.Ids((first, token)) == [] && [] + [1] == [1];
    assert s1.index == map[(first, token) := [1]] && s1.streams.Keys == {1};
    assert Step(s1, env, InitCall(user)) == s1.(admin := Some(user), count := 0);
  }

  /** A stream in the other token under the repeated number. */
  predicate Renumbered(s: State, token: Address, other: Address, user: Address, first: Address, second: Address) {
    && s.self.Contract? && user.User? && first.User? && first != user && s.count == 1 && s.Ids((first, token)) == [1]
    && s.streams == map[1 := Stream(1, user, other, second, 1000, 0, 0, 1)]
    && Get(s.TokenBook(token), s.self) == 1 && Get(s.TokenBook(token), user) == 1000
    && Get(s.TokenBook(token), first) == 0
  }

  lemma AfterTheOther(s: State, token: Address, other: Address, user: Address, first: Address, second: Address)
    requires Restarted(s, token, user, first) && token != other
    requires Get(s.TokenBook(other), user) == 1000 && Get(s.TokenBook(other), s.self) == 0
    ensures var s' := Step(s, Env(0, 0, {user}, user), Add(user, other, second, 1000, 1));
            s'.self == s.self && Renumbered(s', token, other, user, first, second)
  {
    AddEffect(s, Env(0, 0, {user}, user), user, other, second, 1000);
  }

  lemma AfterTheLast(s: State, token: Address, other: Address, user: Address,
                     first: Address, second: Address, third: Address)
    requires Renumbered(s, token, other, user, first, second) && token != other && first != third
    ensures var s' := Step(s, Env(0, 0, {user}, user), Add(user, token, third, 1000, 1));
            && s'.self == s.self && s'.count == 2 && s'.Ids((first, token)) == [1]
            && s'.streams == map[1 := Stream(1, user, other, second, 1000, 0, 0, 1),
                                 2 := Stream(2, user, token, third, 1000, 0, 0, 1)]
            && Get(s'.TokenBook(token), s.self) == 1001 && Get(s'.TokenBook(token), first) == 0
  {
    AddEffect(s, Env(0, 0, {user}, user), user, token, third, 1000);
  }

  lemma AfterTwoTokens(self: Address, token: Address, other: Address, user: Address,
                       first: Address, second: Address, third: Address)
    requires self.Contract? && user.User? && first.User? && token != other && first != third && first != user
    ensures var s := Initial(self, map[token := map[user := 1001], other := map[user := 1000]]);
            var s' := After(s, TwoTokens(token, other, user, first, second, third));
            && s'.self == self && s'.count == 2 && s'.Ids((first, token)) == [1]
            && s'.streams == map[1 := Stream(1, user, other, second, 1000, 0, 0, 1),
                                 2 := Stream(2, user, token, third, 1000, 0, 0, 1)]
            && Get(s'.TokenBook(token), self) == 1001 && Get(s'.TokenBook(token), first) == 0
  {
    var env := Env(0, 0, {user}, user);
    var run := TwoTokens(token, other, user, first, second, third);
    var s := Initial(self, map[token := map[user := 1001], other := map[user := 1000]]);
    AfterOneToken(s, token, user, first);
    var s2 := Step(Step(s, env, run[0].1), env, run[1].1);
    assert s2.TokenBook(other) == map[user := 1000];
    AfterTheOther(s2, token, other, user, first, second);
    AfterTheLast(Step(s2, env, run[2].1), token, other, user, first, second, third);
    FourCalls(s, run);
  }

  lemma FourCalls(s: State, run: Run)
    requires s.Sane() && |run| == 4
    ensures var s1 := Step(s, run[0].0, run[0].1);
            var s2 := Step(s1, run[1].0, run[1].1);
            var s3 := Step(s2, run[2].0, run[2].1);
            After(s, run) == Step(s3, run[3].0, run[3].1)
  {
    var s1 := Step(s, run[0].0, run[0].1);
    var s2 := Step(s1, run[1].0, run[1].1);
    var s3 := Step(s2, run[2].0, run[2].1);
    assert run[1..][1..] == run[2..] && run[2..][1..] == run[3..] && run[3..][1..] == [];
    assert After(s3, run[3..]) == Step(s3, run[3].0, run[3].1);
    assert After(s2, run[2..]) == After(s3, run[3..]);
  }

  lemma OneInEach(streams: map<nat, Stream>, token: Address)
    requires AllSound(streams) && streams.Keys == {1, 2} && streams[1].token != token && streams[2].token == token
    ensures Outstanding(streams, 2, token) == streams[2].total - streams[2].claimed
  {
    assert Outstanding(streams, 1, token) == Outstanding(streams, 0, token) == 0;
  }

  /** Custody itself can be lost: with a second token under the repeated number, the first vault's harvest
      pays out of what the contract holds for another stream in the first token. */
  lemma LateInitializationLosesCustody(self: Address, token: Address, other: Address, user: Address,
                                       first: Address, second: Address, third: Address)
    requires self.Contract? && user.User? && first.User? && token != other && first != third && first != user
    ensures var s := Initial(self, map[token := map[user := 1001], other := map[user := 1000]]);
            var run := TwoTokens(token, other, user, first, second, third);
            var last := (Env(0, 1, {user}, user), HarvestCall((first, token)));
            var s' := Step(After(s, run), last.0, last.1);
            && !s'.CoveredIn(token)
            && Get(s'.TokenBook(token), self) == 1 && Outstanding(s'.streams, s'.count, token) == 1000
  {
    var s := After(Initial(self, map[token := map[user := 1001], other := map[user := 1000]]),
                   TwoTokens(token, other, user, first, second, third));
    AfterTwoTokens(self, token, other, user, first, second, third);
    HarvestOne(s, Env(0, 1, {user}, user), (first, token), 1);
    OneInEach(Step(s, Env(0, 1, {user}, user), HarvestCall((first, token))).streams, token);
  }

  /** A harvest at or after a stream's end leaves no dust: the stream has paid its whole total. */
  lemma NoDust(s: State, h: History, env: Env, key: Key, now: nat, id: nat)
    requires Reached(s, h, now) && now <= env.timestamp && Harvest(s, env, key).Ok?
    requires id in s.Ids(key) && s.streams[id].start + s.streams[id].duration <= env.timestamp
    ensures var s' := Harvest(s, env, key).value.0;
            id in s'.streams && s'.streams[id].claimed == s.streams[id].total
  {
    HarvestKeeps(s, env, key);
    IdsListed(s, key);
    ClaimForgetsThePast(s.streams[id], h[id], env.timestamp);
  }

  /** What the view announces is what a pass gathers, and custody covers it. */
  lemma AnnouncedIsGathered(s: State, h: History, now: nat, key: Key, later: nat)
    requires Reached(s, h, now) && now <= later
    ensures GetClaimable(s, later, key).Ok? <==> HarvestFrom(s.streams, s.Ids(key), later, 0).Ok?
    ensures GetClaimable(s, later, key).Ok? ==>
              var p := GetClaimable(s, later, key).value;
              0 <= p <= Get(s.TokenBook(key.1), s.self) && HarvestFrom(s.streams, s.Ids(key), later, 0).value.1 == p
  {
    IdsListed(s, key);
    forall id | id in s.Ids(key) ensures s.streams[id].claimed <= Unlocked(s.streams[id], later) {
      ClaimForgetsThePast(s.streams[id], h[id], later);
    }
    PassPaysWhatWasAnnounced(s.streams, s.Ids(key), later, 0);
    if GetClaimable(s, later, key).Ok? {
      PassOwesLess(s.streams, s.Ids(key), later, 0, key.1, s.count, key.1);
      PassEffect(s.streams, s.Ids(key), later, 0, key.1);
      assert s.CoveredIn(key.1);
    }
  }

  /** A harvest pays exactly what the view announces and never fails for want of tokens: it fails only
      if the view does, or if the vault's balance would overflow. */
  lemma HarvestPaysWhatWasAnnounced(s: State, h: History, env: Env, key: Key, now: nat)
    requires Reached(s, h, now) && now <= env.timestamp
    ensures Harvest(s, env, key).Ok? <==>
              && GetClaimable(s, env.timestamp, key).Ok?
              && var p := GetClaimable(s, env.timestamp, key).value;
                 p == 0 || (key.0 == s.self && Fits(Get(s.TokenBook(key.1), s.self)))
                        || (key.0 != s.self && Fits(Get(s.TokenBook(key.1), key.0) + p))
    ensures Harvest(s, env, key).Ok? ==>
              Harvest(s, env, key).value.1 == GetClaimable(s, env.timestamp, key).value
  {
    AnnouncedIsGathered(s, h, now, key, env.timestamp);
  }

  /** A harvest leaves alone whatever its pair does not list, and every other token. So, while the index is
      right, it leaves the streams of every other vault and token as they were. */
  lemma HarvestTouchesNothingElse(s: State, env: Env, key: Key, id: nat, token: Address)
    requires s.Sane() && Harvest(s, env, key).Ok?
    ensures var s' := Harvest(s, env, key).value.0;
            && (id in s.streams && id !in s.Ids(key) ==> id in s'.streams && s'.streams[id] == s.streams[id])
            && (s.Valid() && id in s.streams && KeyOf(s.streams[id]) != key ==> id !in s.Ids(key))
            && (token != key.1 ==> s'.TokenBook(token) == s.TokenBook(token))
  {
    if id in s.streams && id !in s.Ids(key) { PassLeaves(s.streams, s.Ids(key), env.timestamp, 0, id); }
  }

  lemma {:induction false} PassLeaves(streams: map<nat, Stream>, ids: seq<nat>, now: nat, gathered: nat, id: nat)
    requires AllSound(streams) && HarvestFrom(streams, ids, now, gathered).Ok? && id in streams && id !in ids
    ensures var after := HarvestFrom(streams, ids, now, gathered).value.0;
            id in after && after[id] == streams[id]
    decreases ids
  {
    if ids != [] {
      assert ids[0] != id;
      if ids[0] !in streams || Claimable(streams[ids[0]], now) <= 0 {
        PassLeaves(streams, ids[1..], now, gathered, id);
      } else {
        var s := streams[ids[0]];
        PassLeaves(streams[ids[0] := Claim(s, now)], ids[1..], now, gathered + Claimable(s, now), id);
      }
    }
  }

  /** A harvest moves exactly its payout, from the streamer to the vault. */
  lemma HarvestMovesThePayout(s: State, env: Env, key: Key, who: Address)
    requires s.Sane() && Harvest(s, env, key).Ok? && key.0 != s.self
    ensures var (s', payout) := Harvest(s, env, key).value;
            var (had, has) := (Get(s.TokenBook(key.1), who), Get(s'.TokenBook(key.1), who));
            has == had + (if who == key.0 then payout else 0) - (if who == s.self then payout else 0)
  {
  }
}
