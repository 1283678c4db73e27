/** Linear yield streams: per stream a total that unlocks linearly, and per vault and token an index
    of the streams to harvest together. */
module Streamer {
  import opened Wrappers
  import opened Soroban
  import opened Balances
  import Arith
  import Asset

  datatype Stream = Stream(id: nat, depositor: Address, token: Address, vault: Address,
                           total: nat, claimed: nat, start: nat, duration: nat)

  type Key = (Address, Address)  // vault, token

  datatype State = State(self: Address, admin: Option<Address>, count: nat, streams: map<nat, Stream>,
                         index: map<Key, seq<nat>>, tokens: map<Address, Book>)
  {
    function Ids(key: Key): seq<nat> {
      if key in index then index[key] else []
    }

    function TokenBook(token: Address): Book {
      if token in tokens then tokens[token] else map[]
    }

    /** What every state has, whatever was called when. */
    predicate Sane() { AllSound(streams) }

    ghost predicate Valid() {
      self.Contract? && Numbered(streams, count) && Indexed(streams, index)
    }

    /** Every token still owed to some vault is in the contract's custody. */
    ghost predicate Covered()
      requires Sane()
    {
      forall token :: CoveredIn(token)
    }

    predicate CoveredIn(token: Address)
      requires Sane()
    {
      Outstanding(streams, count, token) <= Get(TokenBook(token), self)
    }
  }

  predicate AllSound(streams: map<nat, Stream>) {
    forall id :: id in streams ==> Sound(streams[id])
  }

  /** Streams are numbered from one, without gaps. */
  ghost predicate Numbered(streams: map<nat, Stream>, count: nat) {
    && (forall id :: id in streams <==> 1 <= id <= count)
    && AllSound(streams) && forall id :: id in streams ==> streams[id].id == id
  }

  /** The index of a vault and token lists exactly their streams, once each. */
  ghost predicate Indexed(streams: map<nat, Stream>, index: map<Key, seq<nat>>) {
    && (forall key :: key in index ==> NoDup(index[key]))
    && (forall key, id :: key in index && id in index[key] ==> id in streams && KeyOf(streams[id]) == key)
    && (forall id :: id in streams ==> KeyOf(streams[id]) in index && id in index[KeyOf(streams[id])])
  }

  predicate Sound(s: Stream) { 0 < s.total && Fits(s.total) && s.claimed <= s.total && 0 < s.duration }

  function KeyOf(s: Stream): Key { (s.vault, s.token) }

  /** What is owed in a token over the streams numbered up to `n`. */
  function Outstanding(streams: map<nat, Stream>, n: nat, token: Address): nat
    requires AllSound(streams)
  {
    if n == 0 then 0 else
      (if n in streams && streams[n].token == token then streams[n].total - streams[n].claimed else 0)
      + Outstanding(streams, n - 1, token)
  }

  function Elapsed(s: Stream, now: nat): nat {
    if now > s.start then now - s.start else 0
  }

  /** What has unlocked by `now`: linear, rounded down, and everything from the end on. */
  function Unlocked(s: Stream, now: nat): (u: nat)
    requires Sound(s)
    ensures u <= s.total
    ensures Elapsed(s, now) >= s.duration ==> u == s.total
  {
    if Elapsed(s, now) >= s.duration then s.total
    else
      Arith.MulDivAtMost(s.total, Elapsed(s, now), s.duration);
      Arith.MulDiv(s.total, Elapsed(s, now), s.duration)
  }

  /** The source multiplies before it divides, and that product can overflow until the stream ends. */
  predicate Computable(s: Stream, now: nat) {
    s.claimed < s.total && Elapsed(s, now) < s.duration ==> Fits(s.total * Elapsed(s, now))
  }

  function Claimable(s: Stream, now: nat): int
    requires Sound(s)
  {
    if s.claimed < s.total then Unlocked(s, now) - s.claimed else 0
  }

  function Claim(s: Stream, now: nat): Stream
    requires Sound(s)
  {
    if Claimable(s, now) > 0 then s.(claimed := s.claimed + Claimable(s, now)) else s
  }

  /** One pass over a list of stream ids, with the amount gathered so far. */
  function HarvestFrom(streams: map<nat, Stream>, ids: seq<nat>, now: nat, gathered: nat)
    : (r: Result<(map<nat, Stream>, nat)>)
    requires AllSound(streams)
    ensures r.Ok? ==> AllSound(r.value.0)
    decreases ids
  {
    if ids == [] then Ok((streams, gathered))
    else if ids[0] !in streams then HarvestFrom(streams, ids[1..], now, gathered)
    else
      var s := streams[ids[0]];
      :- Need(Computable(s, now), Panic);
      if Claimable(s, now) <= 0 then HarvestFrom(streams, ids[1..], now, gathered)
      else
        :- Need(Fits(gathered + Claimable(s, now)), MathOverflow);
        HarvestFrom(streams[ids[0] := Claim(s, now)], ids[1..], now, gathered + Claimable(s, now))
  }

  /** The same pass, only adding up. */
  function ClaimableFrom(streams: map<nat, Stream>, ids: seq<nat>, now: nat, gathered: int): Result<int>
    requires AllSound(streams)
    decreases ids
  {
    if ids == [] then Ok(gathered)
    else if ids[0] !in streams then ClaimableFrom(streams, ids[1..], now, gathered)
    else
      var s := streams[ids[0]];
      :- Need(Computable(s, now), Panic);
      :- Need(Fits(gathered + Claimable(s, now)), Panic);
      ClaimableFrom(streams, ids[1..], now, gathered + Claimable(s, now))
  }

  function GetClaimable(s: State, now: nat, key: Key): Result<int>
    requires s.Sane()
  {
    ClaimableFrom(s.streams, s.Ids(key), now, 0)
  }

  /** A deployed contract: it has no constructor, so nothing is stored yet. */
  function Initial(self: Address, tokens: map<Address, Book>): State {
    State(self, None, 0, map[], map[], tokens)
  }

  /** Anybody may initialize, once, and at any time: the count starts over even if streams exist. */
  function Initialize(s: State, admin: Address): Result<State> {
    if s.admin.Some? then Err(AlreadyInitialized) else Ok(s.(admin := Some(admin), count := 0))
  }

  function AddStream(s: State, env: Env, from: Address, token: Address, vault: Address, amount: int, duration: nat)
    : (r: Result<(State, nat)>)
    requires s.Sane()
    ensures r.Ok? ==> r.value.0.Sane()
  {
    if !env.Authorized(from) then Err(AuthFailed) else
    :- Need(amount > 0, ZeroAmount);
    :- Need(duration > 0, InvalidState);
    var book :- Asset.Transfer(s.TokenBook(token), env.CallFrom(s.self), from, s.self, amount);
    var id := s.count + 1;
    :- Need(FitsU32(id) && Fits(amount), Panic);
    var stream := Stream(id, from, token, vault, amount, 0, env.timestamp, duration);
    Ok((s.(tokens := s.tokens[token := book], count := id, streams := s.streams[id := stream],
           index := s.index[(vault, token) := s.Ids((vault, token)) + [id]]), id))
  }

  function Harvest(s: State, env: Env, key: Key): (r: Result<(State, nat)>)
    requires s.Sane()
    ensures r.Ok? ==> r.value.0.Sane()
  {
    var (streams, payout) :- HarvestFrom(s.streams, s.Ids(key), env.timestamp, 0);
    if payout == 0 then Ok((s.(streams := streams), 0))
    else
      var book :- Asset.Transfer(s.TokenBook(key.1), env.CallFrom(s.self), s.self, key.0, payout);
      Ok((s.(streams := streams, tokens := s.tokens[key.1 := book]), payout))
  }
}
