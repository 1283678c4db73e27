/** The streamer contract. Each method is a whole transaction: if it fails, the host has put back
    everything it wrote. */
module StreamerContract {
  import opened Wrappers
  import opened Soroban
  import opened Balances
  import opened Streamer
  import Arith
  import Asset

  class LinearYieldStreamer {
    const self: Address
    var admin: Option<Address>
    var streamCount: nat
    var streams: map<nat, Stream>
    var vaultTokenStreams: map<Key, seq<nat>>
    var tokens: map<Address, Book>  // the token contracts it calls

    constructor (self: Address, tokens: map<Address, Book>)
      ensures Value() == Initial(self, tokens)
    {
      this.self, this.tokens := self, tokens;
      admin, streamCount, streams, vaultTokenStreams := None, 0, map[], map[];
    }

    function Value(): State
      reads this
    {
      State(self, admin, streamCount, streams, vaultTokenStreams, tokens)
    }

    method Initialize(admin: Address) returns (r: Result<()>)
      modifies this
      ensures match Streamer.Initialize(old(Value()), admin)
              case Ok(s) => r.Ok? && Value() == s
              case Err(e) => r == Err(e) && Value() == old(Value())
    {
      if this.admin.Some? { return Err(AlreadyInitialized); }
      this.admin := Some(admin);
      streamCount := 0;
      return Ok(());
    }

    method AddYieldStream(env: Env, from: Address, token: Address, vault: Address, amount: int, duration: nat)
      returns (r: Result<nat>)
      requires Value().Sane()
      modifies this
      ensures match AddStream(old(Value()), env, from, token, vault, amount, duration)
              case Ok((s, id)) => r == Ok(id) && Value() == s
              case Err(e) => r == Err(e) && Value() == old(Value())
    {
      if !env.Authorized(from) { return Err(AuthFailed); }
      if amount <= 0 { return Err(ZeroAmount); }
      if duration == 0 { return Err(InvalidState); }
      var book := Asset.Transfer(Value().TokenBook(token), env.CallFrom(self), from, self, amount);
      if book.Err? { return Err(book.error); }
      var streamId := streamCount + 1;
      if !FitsU32(streamId) || !Fits(amount) { return Err(Panic); }
      tokens := tokens[token := book.value];
      streams := streams[streamId := Stream(streamId, from, token, vault, amount, 0, env.timestamp, duration)];
      streamCount := streamId;
      var key := (vault, token);
      var streamIds := if key in vaultTokenStreams then vaultTokenStreams[key] else [];
      vaultTokenStreams := vaultTokenStreams[key := streamIds + [streamId]];
      return Ok(streamId);
    }

    /** What both loops compute for one stream. */
    method ClaimableOf(stream: Stream, now: nat) returns (r: Result<int>)
      requires Sound(stream)
      ensures r == if Computable(stream, now) then Ok(Claimable(stream, now)) else Err(Panic)
    {
      if stream.claimed >= stream.total { return Ok(0); }
      var elapsed := if now > stream.start then now - stream.start else 0;
      var unlocked: int;
      if elapsed >= stream.duration {
        unlocked := stream.total;
      } else {
        if !Fits(stream.total * elapsed) { return Err(Panic); }
        unlocked := Arith.MulDiv(stream.total, elapsed, stream.duration);
      }
      return Ok(unlocked - stream.claimed);
    }

    /** The loop of a harvest. */
    method Gather(streamIds: seq<nat>, now: nat) returns (r: Result<nat>)
      requires AllSound(streams)
      modifies this`streams
      ensures match HarvestFrom(old(streams), streamIds, now, 0)
              case Ok((after, total)) => r == Ok(total) && streams == after
              case Err(e) => r == Err(e)
    {
      var totalHarvest: nat := 0;
      var i := 0;
      while i < |streamIds|
        invariant 0 <= i <= |streamIds|
        invariant AllSound(streams)
        invariant HarvestFrom(old(streams), streamIds, now, 0)
               == HarvestFrom(streams, streamIds[i..], now, totalHarvest)
      {
        var id := streamIds[i];
        assert streamIds[i..][0] == id && streamIds[i..][1..] == streamIds[i + 1..];
        if id in streams {
          var stream := streams[id];
          var claimable := ClaimableOf(stream, now);
          if claimable.Err? { return Err(claimable.error); }
          if claimable.value > 0 {
            if !Fits(totalHarvest + claimable.value) { return Err(MathOverflow); }
            totalHarvest := totalHarvest + claimable.value;
            streams := streams[id := stream.(claimed := stream.claimed + claimable.value)];
          }
        }
        i := i + 1;
      }
      return Ok(totalHarvest);
    }

    method HarvestClaimable(env: Env, vault: Address, token: Address) returns (r: Result<nat>)
      requires Value().Sane()
      modifies this
      ensures match Harvest(old(Value()), env, (vault, token))
              case Ok((s, payout)) => r == Ok(payout) && Value() == s
              case Err(e) => r == Err(e) && Value() == old(Value())
    {
      var key := (vault, token);
      if key !in vaultTokenStreams { return Ok(0); }
      var saved := streams;
      var gathered := Gather(vaultTokenStreams[key], env.timestamp);
      if gathered.Err? {
        streams := saved;  // rollback
        return Err(gathered.error);
      }
      var totalHarvest := gathered.value;
      if totalHarvest > 0 {
        var book := Asset.Transfer(Value().TokenBook(token), env.CallFrom(self), self, vault, totalHarvest);
        if book.Err? {
          streams := saved;  // rollback
          return Err(book.error);
        }
        tokens := tokens[token := book.value];
      }
      return Ok(totalHarvest);
    }

    method GetClaimable(env: Env, vault: Address, token: Address) returns (r: Result<int>)
      requires Value().Sane()
      ensures r == Streamer.GetClaimable(Value(), env.timestamp, (vault, token))
    {
      var key := (vault, token);
      if key !in vaultTokenStreams { return Ok(0); }
      var streamIds := vaultTokenStreams[key];
      var now := env.timestamp;
      var totalClaimable := 0;
      var i := 0;
      while i < |streamIds|
        invariant 0 <= i <= |streamIds|
        invariant Fits(totalClaimable)
        invariant ClaimableFrom(streams, streamIds, now, 0)
               == ClaimableFrom(streams, streamIds[i..], now, totalClaimable)
      {
        var id := streamIds[i];
        assert streamIds[i..][0] == id && streamIds[i..][1..] == streamIds[i + 1..];
        if id in streams {
          var stream := streams[id];
          var claimable := ClaimableOf(stream, now);
          if claimable.Err? { return Err(claimable.error); }
          if !Fits(totalClaimable + claimable.value) { return Err(Panic); }
          totalClaimable := totalClaimable + claimable.value;
        }
        i := i + 1;
      }
      return Ok(totalClaimable);
    }
  }
}
