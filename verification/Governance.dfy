/** Proposals, one vote and one veto per address, a majority, a timelock and the stakers' veto. */
module Governance {
  import opened Soroban
  import opened Wrappers

  const EARLY_VETO_TRIGGER: int := 1_000_000_000

  datatype ProposalState = Active | Defeated | Vetoed | Queued | Executed

  datatype VoteType = For | Against | Abstain

  datatype Config = Config(admin: Address, token: Address, votingPeriod: nat, timelock: nat,
                           quorumBps: nat, vetoThresholdBps: nat)

  datatype Proposal = Proposal(
    id: nat, creator: Address, title: string, descriptionHash: string, target: Address, actionId: nat, param: int,
    start: nat, end: nat, eta: nat,
    forVotes: int, againstVotes: int, abstainVotes: int, vetoVotes: int, state: ProposalState)
  {
    function Participating(): int { forVotes + againstVotes + abstainVotes }

    function Tally(kind: VoteType): int {
      match kind
      case For => forVotes
      case Against => againstVotes
      case Abstain => abstainVotes
    }

    predicate Final() { state == Defeated || state == Vetoed || state == Executed }
  }

  datatype State = State(config: Option<Config>, count: nat, proposals: map<nat, Proposal>,
                         voted: set<(nat, Address)>, vetoed: set<(nat, Address)>)

  /** The veto votes that stop a proposal in which `participating` votes were cast. */
  function Trigger(participating: int, bps: nat): int {
    if participating > 0 then TruncDiv(participating * bps, 10000) else EARLY_VETO_TRIGGER
  }

  function Initialize(s: State, env: Env, c: Config): Result<State> {
    if s.config.Some? then Err(AlreadyInitialized) else
    :- Need(env.Authorized(c.admin), AuthFailed);
    Ok(s.(config := Some(c), count := 0))
  }

  function Create(s: State, env: Env, creator: Address, title: string, descriptionHash: string,
                  target: Address, actionId: nat, param: int): Result<State>
  {
    if !env.Authorized(creator) then Err(AuthFailed) else
    :- Need(s.config.Some?, NotInitialized);
    var id := s.count + 1;
    var end := env.ledger + s.config.value.votingPeriod;
    :- Need(FitsU32(id) && FitsU32(end), Panic);
    var p := Proposal(id, creator, title, descriptionHash, target, actionId, param,
                      env.ledger, end, 0, 0, 0, 0, 0, Active);
    Ok(s.(count := id, proposals := s.proposals[id := p]))
  }

  function AddVote(p: Proposal, kind: VoteType, power: int): Proposal {
    match kind
    case For => p.(forVotes := p.forVotes + power)
    case Against => p.(againstVotes := p.againstVotes + power)
    case Abstain => p.(abstainVotes := p.abstainVotes + power)
  }

  function Vote(s: State, env: Env, voter: Address, id: nat, kind: VoteType, power: int): Result<State> {
    if !env.Authorized(voter) then Err(AuthFailed) else
    :- Need(power > 0, ZeroAmount);
    :- Need(id in s.proposals, ProposalNotFound);
    var p := s.proposals[id];
    :- Need(p.state == Active, InvalidState);
    :- Need(env.ledger <= p.end, VotingClosed);
    :- Need((id, voter) !in s.voted, InvalidState);
    :- Need(Fits(p.Tally(kind) + power), Panic);
    Ok(s.(voted := s.voted + {(id, voter)}, proposals := s.proposals[id := AddVote(p, kind, power)]))
  }

  /** Whether the sums and the product of the veto check stay within 128 bits. */
  predicate Countable(p: Proposal, bps: nat) {
    && Fits(p.forVotes + p.againstVotes) && Fits(p.Participating())
    && (p.Participating() > 0 ==> Fits(p.Participating() * bps))
  }

  function AddVeto(p: Proposal, power: int, bps: nat): Proposal {
    var stopped := p.vetoVotes + power >= Trigger(p.Participating(), bps);
    p.(vetoVotes := p.vetoVotes + power, state := if stopped then Vetoed else p.state)
  }

  function Veto(s: State, env: Env, staker: Address, id: nat, power: int): Result<State> {
    if !env.Authorized(staker) then Err(AuthFailed) else
    :- Need(power > 0, ZeroAmount);
    :- Need(id in s.proposals, ProposalNotFound);
    var p := s.proposals[id];
    :- Need(p.state == Active || p.state == Queued, InvalidState);
    :- Need((id, staker) !in s.vetoed, InvalidState);
    :- Need(Fits(p.vetoVotes + power) && s.config.Some? && Countable(p, s.config.value.vetoThresholdBps), Panic);
    var p' := AddVeto(p, power, s.config.value.vetoThresholdBps);
    Ok(s.(vetoed := s.vetoed + {(id, staker)}, proposals := s.proposals[id := p']))
  }

  function Queue(s: State, env: Env, id: nat): Result<State> {
    if id !in s.proposals then Err(ProposalNotFound) else
    var p := s.proposals[id];
    :- Need(p.state != Vetoed, ProposalVetoed);
    :- Need(p.state == Active && env.ledger > p.end, InvalidState);
    :- Need(s.config.Some? && Fits(p.forVotes + p.againstVotes) && Fits(p.Participating()), Panic);
    :- Need(p.Participating() > 0, QuorumNotMet);
    if p.forVotes <= p.againstVotes then
      Ok(s.(proposals := s.proposals[id := p.(state := Defeated)]))
    else
      :- Need(FitsU32(env.ledger + s.config.value.timelock), Panic);
      Ok(s.(proposals := s.proposals[id := p.(eta := env.ledger + s.config.value.timelock, state := Queued)]))
  }

  function ExecuteProposal(s: State, env: Env, id: nat): Result<State> {
    if id !in s.proposals then Err(ProposalNotFound) else
    var p := s.proposals[id];
    :- Need(p.state != Vetoed, ProposalVetoed);
    :- Need(p.state == Queued, InvalidState);
    :- Need(env.ledger >= p.eta, TimelockNotExpired);
    Ok(s.(proposals := s.proposals[id := p.(state := Executed)]))
  }

  datatype Call =
    | InitCall(config: Config)
    | CreateCall(creator: Address, title: string, descriptionHash: string, target: Address, actionId: nat, param: int)
    | VoteCall(voter: Address, id: nat, kind: VoteType, power: int)
    | VetoCall(staker: Address, id: nat, power: int)
    | QueueCall(id: nat)
    | ExecuteCall(id: nat)

  function Execute(s: State, env: Env, call: Call): Result<State> {
    match call
    case InitCall(config) => Initialize(s, env, config)
    case CreateCall(creator, title, hash, target, actionId, param) =>
      Create(s, env, creator, title, hash, target, actionId, param)
    case VoteCall(voter, id, kind, power) => Vote(s, env, voter, id, kind, power)
    case VetoCall(staker, id, power) => Veto(s, env, staker, id, power)
    case QueueCall(id) => Queue(s, env, id)
    case ExecuteCall(id) => ExecuteProposal(s, env, id)
  }

  /** A failing call leaves no trace. */
  function Step(s: State, env: Env, call: Call): State {
    match Execute(s, env, call)
    case Ok(s') => s'
    case Err(_) => s
  }

  const Genesis: State := State(None, 0, map[], {}, {})

  // Who may do what, when

  /** Exactly when a ballot is accepted: its voter signs, the vote is open and the voter has not voted. It raises
      the tally of its kind by its power, and nothing else. */
  lemma VotedIff(s: State, env: Env, voter: Address, id: nat, kind: VoteType, power: int)
    ensures Vote(s, env, voter, id, kind, power).Ok? <==>
      && env.Authorized(voter) && power > 0 && id in s.proposals
      && s.proposals[id].state == Active && env.ledger <= s.proposals[id].end && (id, voter) !in s.voted
      && (kind == For ==> Fits(s.proposals[id].forVotes + power))
      && (kind == Against ==> Fits(s.proposals[id].againstVotes + power))
      && (kind == Abstain ==> Fits(s.proposals[id].abstainVotes + power))
    ensures Vote(s, env, voter, id, kind, power).Ok? ==>
      var s', p := Vote(s, env, voter, id, kind, power).value, s.proposals[id];
      && s' == s.(voted := s.voted + {(id, voter)}, proposals := s.proposals[id := s'.proposals[id]])
      && s'.proposals[id] == p.(forVotes := p.forVotes + if kind == For then power else 0,
                                againstVotes := p.againstVotes + if kind == Against then power else 0,
                                abstainVotes := p.abstainVotes + if kind == Abstain then power else 0)
  {
  }

  /** Exactly when a veto is accepted: its staker signs and has not vetoed, and the proposal is active or queued. */
  lemma VetoedIff(s: State, env: Env, staker: Address, id: nat, power: int)
    ensures Veto(s, env, staker, id, power).Ok? <==>
      && env.Authorized(staker) && power > 0 && id in s.proposals && (id, staker) !in s.vetoed
      && (s.proposals[id].state == Active || s.proposals[id].state == Queued)
      && Fits(s.proposals[id].vetoVotes + power) && s.config.Some?
      && Countable(s.proposals[id], s.config.value.vetoThresholdBps)
    ensures Veto(s, env, staker, id, power).Ok? ==>
      var s', p := Veto(s, env, staker, id, power).value, s.proposals[id];
      && s' == s.(vetoed := s.vetoed + {(id, staker)}, proposals := s.proposals[id := s'.proposals[id]])
      && s'.proposals[id] == p.(vetoVotes := p.vetoVotes + power,
                                state := if Stops(s, id, power) then Vetoed else p.state)
  {
    if Veto(s, env, staker, id, power).Ok? {
      var p := s.proposals[id];
      TriggerReachedIff(p.vetoVotes + power, p.Participating(), s.config.value.vetoThresholdBps);
    }
  }

  /** The veto votes reach the threshold's share of the votes cast, rounded down to a vote; or, if no vote has been
      cast yet, the fixed amount. */
  predicate Stops(s: State, id: nat, power: int)
    requires id in s.proposals && s.config.Some?
  {
    var p := s.proposals[id];
    var cast := p.forVotes + p.againstVotes + p.abstainVotes;
    if cast > 0 then (p.vetoVotes + power + 1) * 10000 > cast * s.config.value.vetoThresholdBps
    else p.vetoVotes + power >= 1_000_000_000
  }

  lemma TriggerReachedIff(votes: int, cast: int, bps: nat)
    ensures cast > 0 ==> (votes >= Trigger(cast, bps) <==> (votes + 1) * 10000 > cast * bps)
  {
    if cast > 0 { assert cast * bps >= 0; }
  }

  /** Only the admin it names configures the contract, and only once. */
  lemma InitializedIff(s: State, env: Env, c: Config)
    ensures Initialize(s, env, c).Ok? <==> s.config.None? && env.Authorized(c.admin)
    ensures Initialize(s, env, c).Ok? ==> Initialize(s, env, c).value == s.(config := Some(c), count := 0)
  {
  }

  /** Exactly when a proposal is made: its creator signs, after the configuration. It starts with no votes, and its
      vote ends after the voting period. */
  lemma CreatedIff(s: State, env: Env, creator: Address, title: string, descriptionHash: string,
                   target: Address, actionId: nat, param: int)
    ensures var r := Create(s, env, creator, title, descriptionHash, target, actionId, param);
            && (r.Ok? <==> env.Authorized(creator) && s.config.Some? && FitsU32(s.count + 1)
                           && FitsU32(env.ledger + s.config.value.votingPeriod))
            && (r.Ok? ==>
                  var id := s.count + 1;
                  r.value == s.(count := id, proposals := s.proposals[id :=
                    Proposal(id, creator, title, descriptionHash, target, actionId, param, env.ledger,
                             env.ledger + s.config.value.votingPeriod, 0, 0, 0, 0, 0, Active)]))
  {
  }

  /** Exactly when a proposal is settled after its vote, and how: anybody may, once somebody voted. */
  lemma SettledIff(s: State, env: Env, id: nat)
    ensures Queue(s, env, id).Ok? <==>
      && id in s.proposals && s.proposals[id].state == Active && s.proposals[id].end < env.ledger && s.config.Some?
      && var p := s.proposals[id];
         && Fits(p.forVotes + p.againstVotes) && Fits(p.forVotes + p.againstVotes + p.abstainVotes)
         && p.forVotes + p.againstVotes + p.abstainVotes > 0
         && (p.forVotes > p.againstVotes ==> FitsU32(env.ledger + s.config.value.timelock))
    ensures Queue(s, env, id).Ok? ==>
      var s', p := Queue(s, env, id).value, s.proposals[id];
      && s' == s.(proposals := s.proposals[id := s'.proposals[id]])
      && s'.proposals[id] == if p.forVotes > p.againstVotes
                             then p.(state := Queued, eta := env.ledger + s.config.value.timelock)
                             else p.(state := Defeated)
  {
  }

  /** Exactly when a proposal is executed: anybody may, once the timelock of a queued one is over. */
  lemma ExecutedIff(s: State, env: Env, id: nat)
    ensures ExecuteProposal(s, env, id).Ok? <==>
      id in s.proposals && s.proposals[id].state == Queued && s.proposals[id].eta <= env.ledger
    ensures ExecuteProposal(s, env, id).Ok? ==>
      ExecuteProposal(s, env, id).value == s.(proposals := s.proposals[id := s.proposals[id].(state := Executed)])
  {
  }

  // What happened in a run: the accepted ballots and vetoes, and when proposals were queued and executed

  datatype Ballot = Ballot(ledger: nat, proposal: nat, voter: Address, kind: VoteType, power: int)

  /** `participating` is what had been cast when the veto was accepted. */
  datatype VetoBallot = VetoBallot(proposal: nat, staker: Address, power: int, participating: int)

  datatype History = History(ballots: seq<Ballot>, vetoes: seq<VetoBallot>,
                             queued: map<nat, nat>, executed: map<nat, nat>)

  const NoHistory: History := History([], [], map[], map[])

  function NextHistory(s: State, h: History, env: Env, call: Call): History {
    if Execute(s, env, call).Err? then h else
      match call
      case InitCall(_) => h
      case CreateCall(_, _, _, _, _, _) => h
      case VoteCall(voter, id, kind, power) => h.(ballots := h.ballots + [Ballot(env.ledger, id, voter, kind, power)])
      case VetoCall(staker, id, power) =>
        h.(vetoes := h.vetoes + [VetoBallot(id, staker, power, s.proposals[id].Participating())])
      case QueueCall(id) =>
        if Step(s, env, call).proposals[id].state == Queued then h.(queued := h.queued[id := env.ledger]) else h
      case ExecuteCall(id) => h.(executed := h.executed[id := env.ledger])
  }

  type Run = seq<(Env, Call)>

  function After(s: State, run: Run): State
    decreases run
  {
    if run == [] then s else After(Step(s, run[0].0, run[0].1), run[1..])
  }

  function HistoryAfter(s: State, h: History, run: Run): History
    decreases run
  {
    if run == [] then h
    else HistoryAfter(Step(s, run[0].0, run[0].1), NextHistory(s, h, run[0].0, run[0].1), run[1..])
  }

  /** The power of the ballots of one kind on one proposal. */
  function Cast(ballots: seq<Ballot>, id: nat, kind: VoteType): int {
    if ballots == [] then 0 else
      var n := |ballots| - 1;
      Cast(ballots[..n], id, kind)
      + if ballots[n].proposal == id && ballots[n].kind == kind then ballots[n].power else 0
  }

  function VetoPower(vetoes: seq<VetoBallot>, id: nat): int {
    if vetoes == [] then 0 else
      var n := |vetoes| - 1;
      VetoPower(vetoes[..n], id) + if vetoes[n].proposal == id then vetoes[n].power else 0
  }

  /** How much had been cast at the latest veto on a proposal; 0 if there was none. */
  function AtLastVeto(vetoes: seq<VetoBallot>, id: nat): int {
    if vetoes == [] then 0 else
      var n := |vetoes| - 1;
      if vetoes[n].proposal == id then vetoes[n].participating else AtLastVeto(vetoes[..n], id)
  }

  lemma CastOne(ballots: seq<Ballot>, b: Ballot, id: nat, kind: VoteType)
    ensures Cast(ballots + [b], id, kind)
         == Cast(ballots, id, kind) + if b.proposal == id && b.kind == kind then b.power else 0
  {
    assert (ballots + [b])[..|ballots|] == ballots;
  }

  lemma VetoOne(vetoes: seq<VetoBallot>, v: VetoBallot, id: nat)
    ensures VetoPower(vetoes + [v], id) == VetoPower(vetoes, id) + if v.proposal == id then v.power else 0
    ensures AtLastVeto(vetoes + [v], id) == if v.proposal == id then v.participating else AtLastVeto(vetoes, id)
  {
    assert (vetoes + [v])[..|vetoes|] == vetoes;
  }

  /** More votes never lower the trigger, once there are any. */
  lemma TriggerMono(a: int, b: int, bps: nat)
    requires 0 < a <= b
    ensures Trigger(a, bps) <= Trigger(b, bps)
  {
    assert a * bps <= b * bps;
    assert a * bps / 10000 <= b * bps / 10000;
  }

  // One proposal at a time

  /** The tallies are the sums of the ballots and vetoes that were accepted. */
  ghost predicate Tallied(p: Proposal, h: History) {
    && (forall kind :: p.Tally(kind) == Cast(h.ballots, p.id, kind) >= 0)
    && p.vetoVotes == VetoPower(h.vetoes, p.id) >= 0
  }

  /** A veto that did not stop the proposal was below the trigger when it was cast; one that did still
      reaches it, since no vote was cast afterwards. */
  ghost predicate VetoHeeded(p: Proposal, h: History, bps: nat) {
    && 0 <= AtLastVeto(h.vetoes, p.id) <= p.Participating()
    && (p.vetoVotes == 0 ==> AtLastVeto(h.vetoes, p.id) == 0)
    && (p.state == Vetoed ==>
          p.vetoVotes >= Trigger(p.Participating(), bps) && AtLastVeto(h.vetoes, p.id) == p.Participating())
    && (p.state != Vetoed && p.vetoVotes > 0 ==> p.vetoVotes < Trigger(AtLastVeto(h.vetoes, p.id), bps))
  }

  /** Only a majority is queued, only after the vote has ended, and only what has waited for the
      timelock is executed. */
  ghost predicate Lawful(p: Proposal, h: History, c: Config) {
    && p.end == p.start + c.votingPeriod
    && (p.state == Defeated ==> 0 < p.Participating() && p.forVotes <= p.againstVotes)
    && (p.state == Queued || p.state == Executed ==>
          && p.forVotes > p.againstVotes
          && p.id in h.queued && p.end < h.queued[p.id] && p.eta == h.queued[p.id] + c.timelock)
    && (p.state == Executed ==> p.id in h.executed && p.eta <= h.executed[p.id])
  }

  ghost predicate Good(p: Proposal, h: History, c: Config) {
    Tallied(p, h) && VetoHeeded(p, h, c.vetoThresholdBps) && Lawful(p, h, c)
  }

  ghost predicate GoodAt(s: State, h: History, id: nat) {
    id in s.proposals ==>
      && s.config.Some?
      && s.proposals[id].id == id && Good(s.proposals[id], h, s.config.value)
  }

  ghost predicate Numbered(s: State, h: History) {
    && (forall id :: id in s.proposals ==> 0 < id <= s.count)
    && (s.config.None? ==> s.proposals == map[])
    && (forall b :: b in h.ballots ==> b.proposal in s.proposals)
    && (forall v :: v in h.vetoes ==> v.proposal in s.proposals)
  }

  lemma {:induction false} NothingCastYet(h: History, id: nat)
    requires forall b :: b in h.ballots ==> b.proposal != id
    ensures forall kind :: Cast(h.ballots, id, kind) == 0
    decreases |h.ballots|
  {
    if h.ballots != [] {
      var n := |h.ballots| - 1;
      assert h.ballots[n] in h.ballots;
      NothingCastYet(h.(ballots := h.ballots[..n]), id);
    }
  }

  lemma {:induction false} NothingVetoedYet(h: History, id: nat)
    requires forall v :: v in h.vetoes ==> v.proposal != id
    ensures VetoPower(h.vetoes, id) == 0 && AtLastVeto(h.vetoes, id) == 0
    decreases |h.vetoes|
  {
    if h.vetoes != [] {
      var n := |h.vetoes| - 1;
      assert h.vetoes[n] in h.vetoes;
      NothingVetoedYet(h.(vetoes := h.vetoes[..n]), id);
    }
  }

  lemma CreateKeepsProposal(s: State, h: History, env: Env, call: Call, id: nat)
    requires Numbered(s, h) && GoodAt(s, h, id) && call.CreateCall? && Execute(s, env, call).Ok?
    ensures GoodAt(Step(s, env, call), NextHistory(s, h, env, call), id)
  {
    if id == s.count + 1 {
      NothingCastYet(h, id);
      NothingVetoedYet(h, id);
    }
  }

  /** A ballot counts once, for what it is cast for. */
  lemma VoteKeepsGood(p: Proposal, h: History, c: Config, b: Ballot)
    requires Good(p, h, c) && p.state == Active && b.proposal == p.id && b.power > 0
    ensures Good(AddVote(p, b.kind, b.power), h.(ballots := h.ballots + [b]), c)
  {
    forall kind { CastOne(h.ballots, b, p.id, kind); }
  }

  lemma VoteKeepsProposal(s: State, h: History, env: Env, call: Call, id: nat)
    requires GoodAt(s, h, id) && call.VoteCall? && Execute(s, env, call).Ok?
    ensures GoodAt(Step(s, env, call), NextHistory(s, h, env, call), id)
  {
    var b := Ballot(env.ledger, call.id, call.voter, call.kind, call.power);
    var s', h' := Step(s, env, call), NextHistory(s, h, env, call);
    assert h' == h.(ballots := h.ballots + [b]) && s'.config == s.config;
    if id == call.id {
      VoteKeepsGood(s.proposals[id], h, s.config.value, b);
      assert s'.proposals[id] == AddVote(s.proposals[id], call.kind, call.power);
    } else {
      assert id in s'.proposals ==> id in s.proposals && s'.proposals[id] == s.proposals[id];
      forall kind { CastOne(h.ballots, b, id, kind); }
    }
  }

  /** A veto cast when `v.participating` had been cast stops the proposal exactly if it then reaches the
      trigger. */
  lemma VetoKeepsGood(p: Proposal, h: History, c: Config, v: VetoBallot)
    requires Good(p, h, c) && (p.state == Active || p.state == Queued)
    requires v.proposal == p.id && v.power > 0 && v.participating == p.Participating()
    ensures Good(AddVeto(p, v.power, c.vetoThresholdBps), h.(vetoes := h.vetoes + [v]), c)
  {
    VetoOne(h.vetoes, v, p.id);
  }

  lemma VetoKeepsProposal(s: State, h: History, env: Env, call: Call, id: nat)
    requires GoodAt(s, h, id) && call.VetoCall? && Execute(s, env, call).Ok?
    ensures GoodAt(Step(s, env, call), NextHistory(s, h, env, call), id)
  {
    var v := VetoBallot(call.id, call.staker, call.power, s.proposals[call.id].Participating());
    var s', h' := Step(s, env, call), NextHistory(s, h, env, call);
    assert h' == h.(vetoes := h.vetoes + [v]) && s'.config == s.config;
    if id == call.id {
      VetoKeepsGood(s.proposals[id], h, s.config.value, v);
      assert s'.proposals[id] == AddVeto(s.proposals[id], call.power, s.config.value.vetoThresholdBps);
    } else {
      assert id in s.proposals ==> s'.proposals[id] == s.proposals[id];
      VetoOne(h.vetoes, v, id);
    }
  }

  /** A majority is queued at the ledger that starts the timelock; anything less is defeated. */
  lemma SettledKeepsGood(p: Proposal, h: History, c: Config, ledger: nat)
    requires Good(p, h, c) && p.state == Active && p.end < ledger && p.Participating() > 0
    ensures if p.forVotes <= p.againstVotes then Good(p.(state := Defeated), h, c)
            else Good(p.(eta := ledger + c.timelock, state := Queued), h.(queued := h.queued[p.id := ledger]), c)
  {
  }

  lemma QueueKeepsProposal(s: State, h: History, env: Env, call: Call, id: nat)
    requires GoodAt(s, h, id) && call.QueueCall? && Execute(s, env, call).Ok?
    ensures GoodAt(Step(s, env, call), NextHistory(s, h, env, call), id)
  {
    var s', h' := Step(s, env, call), NextHistory(s, h, env, call);
    assert s'.config == s.config && h'.ballots == h.ballots && h'.vetoes == h.vetoes;
    if id != call.id {
      assert id in s'.proposals ==> id in s.proposals && s'.proposals[id] == s.proposals[id];
      assert (id in h'.queued <==> id in h.queued) && (id in h.queued ==> h'.queued[id] == h.queued[id]);
    } else {
      SettledKeepsGood(s.proposals[id], h, s.config.value, env.ledger);
    }
  }

  lemma ExecuteKeepsProposal(s: State, h: History, env: Env, call: Call, id: nat)
    requires GoodAt(s, h, id) && call.ExecuteCall? && Execute(s, env, call).Ok?
    ensures GoodAt(Step(s, env, call), NextHistory(s, h, env, call), id)
  {
  }

  lemma StepKeepsProposal(s: State, h: History, env: Env, call: Call, id: nat)
    requires Numbered(s, h) && GoodAt(s, h, id)
    ensures GoodAt(Step(s, env, call), NextHistory(s, h, env, call), id)
  {
    if Execute(s, env, call).Ok? {
      if call.CreateCall? { CreateKeepsProposal(s, h, env, call, id); }
      else if call.VoteCall? { VoteKeepsProposal(s, h, env, call, id); }
      else if call.VetoCall? { VetoKeepsProposal(s, h, env, call, id); }
      else if call.QueueCall? { QueueKeepsProposal(s, h, env, call, id); }
      else if call.ExecuteCall? { ExecuteKeepsProposal(s, h, env, call, id); }
    }
  }

  lemma StepKeepsNumbers(s: State, h: History, env: Env, call: Call)
    requires Numbered(s, h)
    ensures Numbered(Step(s, env, call), NextHistory(s, h, env, call))
  {
  }

  /** At most one ballot of each address on each proposal, of positive power, within the voting period. */
  ghost predicate VotedOnce(s: State, h: History) {
    && (forall i, j :: 0 <= i < j < |h.ballots| && h.ballots[i].proposal == h.ballots[j].proposal ==>
          h.ballots[i].voter != h.ballots[j].voter)
    && forall b :: b in h.ballots ==>
         && b.power > 0 && (b.proposal, b.voter) in s.voted && b.proposal in s.proposals
         && b.ledger <= s.proposals[b.proposal].end
  }

  ghost predicate VetoedOnce(s: State, h: History) {
    && (forall i, j :: 0 <= i < j < |h.vetoes| && h.vetoes[i].proposal == h.vetoes[j].proposal ==>
          h.vetoes[i].staker != h.vetoes[j].staker)
    && forall v :: v in h.vetoes ==> v.power > 0 && (v.proposal, v.staker) in s.vetoed
  }

  ghost predicate OneEach(s: State, h: History) { VotedOnce(s, h) && VetoedOnce(s, h) }

  /** What was proposed, by whom and when. */
  predicate SameTerms(p: Proposal, p': Proposal) {
    p' == p.(eta := p'.eta, forVotes := p'.forVotes, againstVotes := p'.againstVotes,
             abstainVotes := p'.abstainVotes, vetoVotes := p'.vetoVotes, state := p'.state)
  }

  /** What one step at a ledger may make of a proposal. */
  predicate Evolves(p: Proposal, p': Proposal, ledger: nat) {
    && SameTerms(p, p')
    && (p.Final() ==> p' == p)
    && (p.end < ledger ==>
          && (forall kind :: p'.Tally(kind) == p.Tally(kind))
          && (p.state == Active && p.Participating() == 0 ==> p'.state == Active || p'.state == Vetoed))
  }

  lemma StepOnProposal(s: State, env: Env, call: Call, id: nat)
    requires id in s.proposals && id <= s.count
    ensures id in Step(s, env, call).proposals
    ensures Evolves(s.proposals[id], Step(s, env, call).proposals[id], env.ledger)
  {
  }

  lemma StepKeepsVotedOnce(s: State, h: History, env: Env, call: Call)
    requires Numbered(s, h) && VotedOnce(s, h)
    ensures VotedOnce(Step(s, env, call), NextHistory(s, h, env, call))
  {
    var s', h' := Step(s, env, call), NextHistory(s, h, env, call);
    forall id | id in s.proposals ensures id in s'.proposals && s'.proposals[id].end == s.proposals[id].end {
      StepOnProposal(s, env, call, id);
    }
    if call.VoteCall? && Execute(s, env, call).Ok? {
      var b := Ballot(env.ledger, call.id, call.voter, call.kind, call.power);
      assert s'.voted == s.voted + {(b.proposal, b.voter)} && h' == h.(ballots := h.ballots + [b]);
      BallotKeepsVotedOnce(s, h, s', b);
    } else {
      assert h'.ballots == h.ballots && s'.voted == s.voted;
    }
  }

  lemma BallotKeepsVotedOnce(s: State, h: History, s': State, b: Ballot)
    requires VotedOnce(s, h) && (b.proposal, b.voter) !in s.voted && s'.voted == s.voted + {(b.proposal, b.voter)}
    requires forall id :: id in s.proposals ==> id in s'.proposals && s'.proposals[id].end == s.proposals[id].end
    requires b.power > 0 && b.proposal in s'.proposals && b.ledger <= s'.proposals[b.proposal].end
    ensures VotedOnce(s', h.(ballots := h.ballots + [b]))
  {
  }

  lemma StepKeepsVetoedOnce(s: State, h: History, env: Env, call: Call)
    requires VetoedOnce(s, h)
    ensures VetoedOnce(Step(s, env, call), NextHistory(s, h, env, call))
  {
  }

  ghost predicate Sound(s: State, h: History) {
    Numbered(s, h) && OneEach(s, h) && forall id :: GoodAt(s, h, id)
  }

  lemma StepKeeps(s: State, h: History, env: Env, call: Call)
    requires Sound(s, h)
    ensures Sound(Step(s, env, call), NextHistory(s, h, env, call))
  {
    StepKeepsNumbers(s, h, env, call);
    StepKeepsVotedOnce(s, h, env, call);
    StepKeepsVetoedOnce(s, h, env, call);
    forall id ensures GoodAt(Step(s, env, call), NextHistory(s, h, env, call), id) {
      StepKeepsProposal(s, h, env, call, id);
    }
  }

  lemma {:induction false} RunKeeps(s: State, h: History, run: Run)
    requires Sound(s, h)
    ensures Sound(After(s, run), HistoryAfter(s, h, run))
    decreases run
  {
    if run != [] {
      StepKeeps(s, h, run[0].0, run[0].1);
      RunKeeps(Step(s, run[0].0, run[0].1), NextHistory(s, h, run[0].0, run[0].1), run[1..]);
    }
  }

  /** Ledgers never decrease, starting from `now`. */
  ghost predicate Orderly(run: Run, now: nat) {
    run != [] ==> now <= run[0].0.ledger && Orderly(run[1..], run[0].0.ledger)
  }

  /** After any run: the tallies are the sums of one ballot per voter; what was executed had a majority,
      waited out the vote and the timelock, and was vetoed by less than the trigger. */
  lemma ExecutedLawfully(run: Run, id: nat)
    requires id in After(Genesis, run).proposals
    ensures var s, h := After(Genesis, run), HistoryAfter(Genesis, NoHistory, run);
            var p := s.proposals[id];
            && OneEach(s, h) && Tallied(p, h) && s.config.Some?
            && (p.state == Executed ==>
                  var c := s.config.value;
                  && p.forVotes > p.againstVotes
                  && id in h.queued && id in h.executed
                  && h.executed[id] >= p.eta == h.queued[id] + c.timelock > p.end + c.timelock
                  && (p.vetoVotes == 0 || p.vetoVotes < EARLY_VETO_TRIGGER
                      || p.vetoVotes < Trigger(p.Participating(), c.vetoThresholdBps)))
  {
    RunKeeps(Genesis, NoHistory, run);
    var s, h := After(Genesis, run), HistoryAfter(Genesis, NoHistory, run);
    assert GoodAt(s, h, id);
    var p := s.proposals[id];
    if AtLastVeto(h.vetoes, id) > 0 {
      TriggerMono(AtLastVeto(h.vetoes, id), p.Participating(), s.config.value.vetoThresholdBps);
    }
  }

  /** The stakers' promise: a share of at least `bps` in the votes cast stops the proposal. */
  predicate ShareReached(p: Proposal, bps: nat) {
    p.Participating() > 0 && p.vetoVotes * 10000 >= p.Participating() * bps
  }

  /** Exactly when the promise fails: a share that is reached has not stopped the proposal if and only if all
      vetoes were cast before the first vote, with less power than the fixed trigger. Nothing looks at them
      again when votes come in. */
  lemma ShareReachedButNotStopped(run: Run, id: nat)
    requires id in After(Genesis, run).proposals && After(Genesis, run).config.Some?
    requires ShareReached(After(Genesis, run).proposals[id], After(Genesis, run).config.value.vetoThresholdBps)
    ensures var p, h := After(Genesis, run).proposals[id], HistoryAfter(Genesis, NoHistory, run);
            p.state != Vetoed <==> AtLastVeto(h.vetoes, id) == 0 && p.vetoVotes < EARLY_VETO_TRIGGER
  {
    RunKeeps(Genesis, NoHistory, run);
    var s, h := After(Genesis, run), HistoryAfter(Genesis, NoHistory, run);
    assert GoodAt(s, h, id);
    var p, bps, before := s.proposals[id], s.config.value.vetoThresholdBps, AtLastVeto(h.vetoes, id);
    ShareReachesTrigger(p, bps);
    if before > 0 { TriggerMono(before, p.Participating(), bps); }
  }

  lemma ShareReachesTrigger(p: Proposal, bps: nat)
    requires ShareReached(p, bps)
    ensures p.vetoVotes >= Trigger(p.Participating(), bps)
  {
    assert p.Participating() * bps >= 0;
  }

  /** It does fail: a veto 999999999 times as strong as the only vote, and the proposal is executed. */
  lemma EarlyVetoIsOutrun(admin: Address, staker: Address, voter: Address)
    ensures var env := Env(0, 0, {admin, staker, voter}, voter);
            var run := [(env, InitCall(Config(admin, admin, 1, 0, 400, 3340))),
                        (env, CreateCall(voter, "", "", voter, 0, 0)),
                        (env, VetoCall(staker, 1, 999_999_999)),
                        (env, VoteCall(voter, 1, For, 1)),
                        (env.(ledger := 2), QueueCall(1)),
                        (env.(ledger := 2), ExecuteCall(1))];
            var s := After(Genesis, run);
            Orderly(run, 0) && 1 in s.proposals && s.proposals[1].state == Executed
            && ShareReached(s.proposals[1], 3340)
  {
    var env := Env(0, 0, {admin, staker, voter}, voter);
    var late := env.(ledger := 2);
    var c := Config(admin, admin, 1, 0, 400, 3340);
    var create := CreateCall(voter, "", "", voter, 0, 0);
    var steps: Run := [(env, InitCall(c)), (env, create), (env, VetoCall(staker, 1, 999_999_999)),
                       (env, VoteCall(voter, 1, For, 1)), (late, QueueCall(1)), (late, ExecuteCall(1))];
    var p := Proposal(1, voter, "", "", voter, 0, 0, 0, 1, 0, 0, 0, 0, 0, Active);
    var s1 := State(Some(c), 0, map[], {}, {});
    var s2 := State(Some(c), 1, map[1 := p], {}, {});
    var p3 := p.(vetoVotes := 999_999_999);
    var s3 := State(Some(c), 1, map[1 := p3], {}, {(1, staker)});
    var p4 := p3.(forVotes := 1);
    var s4 := State(Some(c), 1, map[1 := p4], {(1, voter)}, {(1, staker)});
    var s5 := s4.(proposals := map[1 := p4.(state := Queued, eta := 2)]);
    var s6 := s4.(proposals := map[1 := p4.(state := Executed, eta := 2)]);
    assert Step(Genesis, env, steps[0].1) == s1;
    assert Step(s1, env, steps[1].1) == s2;
    assert Step(s2, env, steps[2].1) == s3;
    assert Step(s3, env, steps[3].1) == s4;
    assert Step(s4, late, steps[4].1) == s5;
    assert Step(s5, late, steps[5].1) == s6;
    OneStep(s5, steps[5..]); OneStep(s4, steps[4..]); OneStep(s3, steps[3..]);
    OneStep(s2, steps[2..]); OneStep(s1, steps[1..]); OneStep(Genesis, steps);
    assert Orderly(steps[6..], 2) && Orderly(steps[5..], 2) && Orderly(steps[4..], 0) && Orderly(steps[3..], 0);
    assert Orderly(steps[2..], 0) && Orderly(steps[1..], 0);
  }

  lemma OneStep(s: State, run: Run)
    requires run != []
    ensures After(s, run) == After(Step(s, run[0].0, run[0].1), run[1..])
  {
  }

  /** Defeated, vetoed and executed proposals never change again, whatever is called. */
  lemma {:induction false} FinalIsForever(s: State, h: History, run: Run, id: nat)
    requires Sound(s, h) && id in s.proposals && s.proposals[id].Final()
    ensures id in After(s, run).proposals && After(s, run).proposals[id] == s.proposals[id]
    decreases run
  {
    if run != [] {
      StepKeeps(s, h, run[0].0, run[0].1);
      StepOnProposal(s, run[0].0, run[0].1, id);
      FinalIsForever(Step(s, run[0].0, run[0].1), NextHistory(s, h, run[0].0, run[0].1), run[1..], id);
    }
  }

  /** What was proposed is never changed: what is executed is what was voted on. */
  lemma {:induction false} TermsStand(s: State, h: History, run: Run, id: nat)
    requires Sound(s, h) && id in s.proposals
    ensures id in After(s, run).proposals && SameTerms(s.proposals[id], After(s, run).proposals[id])
    decreases run
  {
    if run != [] {
      StepKeeps(s, h, run[0].0, run[0].1);
      StepOnProposal(s, run[0].0, run[0].1, id);
      TermsStand(Step(s, run[0].0, run[0].1), NextHistory(s, h, run[0].0, run[0].1), run[1..], id);
    }
  }

  /** The call casts the ballot, and its voter signs it. */
  predicate Casts(env: Env, call: Call, b: Ballot) {
    call == VoteCall(b.voter, b.proposal, b.kind, b.power) && env.Authorized(b.voter) && env.ledger == b.ledger
  }

  predicate CastsVeto(env: Env, call: Call, v: VetoBallot) {
    call == VetoCall(v.staker, v.proposal, v.power) && env.Authorized(v.staker)
  }

  /** Every ballot that was counted in a run was signed by its voter in that run. */
  lemma {:induction false} BallotsAreSigned(s: State, h: History, run: Run, b: Ballot)
    requires b in HistoryAfter(s, h, run).ballots && b !in h.ballots
    ensures exists i :: 0 <= i < |run| && Casts(run[i].0, run[i].1, b)
    decreases run
  {
    var (env, call) := run[0];
    var s', h' := Step(s, env, call), NextHistory(s, h, env, call);
    if b in h'.ballots {
      assert Casts(env, call, b);
    } else {
      BallotsAreSigned(s', h', run[1..], b);
      var i :| 0 <= i < |run| - 1 && Casts(run[1..][i].0, run[1..][i].1, b);
      assert run[1..][i] == run[i + 1];
    }
  }

  /** And so was every veto by its staker. */
  lemma {:induction false} VetoesAreSigned(s: State, h: History, run: Run, v: VetoBallot)
    requires v in HistoryAfter(s, h, run).vetoes && v !in h.vetoes
    ensures exists i :: 0 <= i < |run| && CastsVeto(run[i].0, run[i].1, v)
    decreases run
  {
    var (env, call) := run[0];
    var s', h' := Step(s, env, call), NextHistory(s, h, env, call);
    if v in h'.vetoes {
      assert CastsVeto(env, call, v);
    } else {
      VetoesAreSigned(s', h', run[1..], v);
      var i :| 0 <= i < |run| - 1 && CastsVeto(run[1..][i].0, run[1..][i].1, v);
      assert run[1..][i] == run[i + 1];
    }
  }

  /** Once the voting period is over the votes are settled, whatever is called. */
  lemma {:induction false} VotesSettle(s: State, h: History, run: Run, now: nat, id: nat)
    requires Sound(s, h) && Orderly(run, now) && id in s.proposals && s.proposals[id].end < now
    ensures id in After(s, run).proposals
    ensures forall kind :: After(s, run).proposals[id].Tally(kind) == s.proposals[id].Tally(kind)
    decreases run
  {
    if run != [] {
      var s' := Step(s, run[0].0, run[0].1);
      StepKeeps(s, h, run[0].0, run[0].1);
      StepOnProposal(s, run[0].0, run[0].1, id);
      VotesSettle(s', NextHistory(s, h, run[0].0, run[0].1), run[1..], run[0].0.ledger, id);
    }
  }

  lemma TalliesParticipate(p: Proposal, p': Proposal)
    requires forall kind :: p'.Tally(kind) == p.Tally(kind)
    ensures p'.Participating() == p.Participating()
  {
    assert p'.Tally(For) == p.Tally(For) && p'.Tally(Against) == p.Tally(Against);
    assert p'.Tally(Abstain) == p.Tally(Abstain);
  }

  /** A proposal nobody voted on is never defeated: queueing it fails, and the failing call's write is
      undone. After its vote has ended it stays active for good, unless it is vetoed. */
  lemma {:induction false} UnvotedIsNeverDefeated(s: State, h: History, run: Run, now: nat, id: nat)
    requires Sound(s, h) && Orderly(run, now) && id in s.proposals && s.proposals[id].end < now
    requires s.proposals[id].state == Active && s.proposals[id].Participating() == 0
    ensures id in After(s, run).proposals
    ensures After(s, run).proposals[id].state == Active || After(s, run).proposals[id].state == Vetoed
    decreases run
  {
    if run != [] {
      var s', h' := Step(s, run[0].0, run[0].1), NextHistory(s, h, run[0].0, run[0].1);
      StepKeeps(s, h, run[0].0, run[0].1);
      StepOnProposal(s, run[0].0, run[0].1, id);
      TalliesParticipate(s.proposals[id], s'.proposals[id]);
      if s'.proposals[id].state == Vetoed {
        FinalIsForever(s', h', run[1..], id);
      } else {
        UnvotedIsNeverDefeated(s', h', run[1..], run[0].0.ledger, id);
      }
    }
  }
}

/** The contract that stores this state. Each method is a whole transaction: if it fails, the host has
    put back everything it wrote. */
module GovernanceContract {
  import opened Soroban
  import opened Wrappers
  import opened Governance

  class HikariGovernance {
    var config: Option<Config>
    var proposalCount: nat
    var proposals: map<nat, Proposal>
    var voted: set<(nat, Address)>
    var vetoed: set<(nat, Address)>

    constructor ()
      ensures Value() == Genesis
    {
      config, proposalCount, proposals, voted, vetoed := None, 0, map[], {}, {};
    }

    function Value(): State
      reads this
    {
      State(config, proposalCount, proposals, voted, vetoed)
    }

    method Initialize(env: Env, admin: Address, token: Address, votingPeriod: nat, timelock: nat,
                      quorumBps: nat, vetoBps: nat)
      returns (r: Result<()>)
      modifies this
      ensures match Governance.Initialize(old(Value()), env,
                                              Config(admin, token, votingPeriod, timelock, quorumBps, vetoBps))
              case Ok(s) => r.Ok? && Value() == s
              case Err(e) => r == Err(e) && Value() == old(Value())
    {
      if config.Some? { return Err(AlreadyInitialized); }
      if !env.Authorized(admin) { return Err(AuthFailed); }
      config := Some(Config(admin, token, votingPeriod, timelock, quorumBps, vetoBps));
      proposalCount := 0;
      return Ok(());
    }

    method CreateProposal(env: Env, creator: Address, title: string, descriptionHash: string,
                          target: Address, actionId: nat, param: int) returns (r: Result<nat>)
      modifies this
      ensures match Create(old(Value()), env, creator, title, descriptionHash, target, actionId, param)
              case Ok(s) => r == Ok(s.count) && Value() == s
              case Err(e) => r == Err(e) && Value() == old(Value())
    {
      if !env.Authorized(creator) { return Err(AuthFailed); }
      if config.None? { return Err(NotInitialized); }
      var count := proposalCount + 1;
      var end := env.ledger + config.value.votingPeriod;
      if !FitsU32(count) || !FitsU32(end) { return Err(Panic); }
      proposals := proposals[count := Proposal(count, creator, title, descriptionHash, target, actionId, param,
                                               env.ledger, end, 0, 0, 0, 0, 0, Active)];
      proposalCount := count;
      return Ok(count);
    }

    method CastVote(env: Env, voter: Address, id: nat, kind: VoteType, power: int) returns (r: Result<()>)
      modifies this
      ensures match Vote(old(Value()), env, voter, id, kind, power)
              case Ok(s) => r.Ok? && Value() == s
              case Err(e) => r == Err(e) && Value() == old(Value())
    {
      if !env.Authorized(voter) { return Err(AuthFailed); }
      if power <= 0 { return Err(ZeroAmount); }
      if id !in proposals { return Err(ProposalNotFound); }
      var proposal := proposals[id];
      if proposal.state != Active { return Err(InvalidState); }
      if env.ledger > proposal.end { return Err(VotingClosed); }
      if (id, voter) in voted { return Err(InvalidState); }
      match kind {
        case For => proposal := proposal.(forVotes := proposal.forVotes + power);
        case Against => proposal := proposal.(againstVotes := proposal.againstVotes + power);
        case Abstain => proposal := proposal.(abstainVotes := proposal.abstainVotes + power);
      }
      if !Fits(proposal.Tally(kind)) { return Err(Panic); }
      voted := voted + {(id, voter)};
      proposals := proposals[id := proposal];
      return Ok(());
    }

    method CastVeto(env: Env, staker: Address, id: nat, power: int) returns (r: Result<()>)
      modifies this
      ensures match Veto(old(Value()), env, staker, id, power)
              case Ok(s) => r.Ok? && Value() == s
              case Err(e) => r == Err(e) && Value() == old(Value())
    {
      if !env.Authorized(staker) { return Err(AuthFailed); }
      if power <= 0 { return Err(ZeroAmount); }
      if id !in proposals { return Err(ProposalNotFound); }
      var proposal := proposals[id];
      if proposal.state != Active && proposal.state != Queued { return Err(InvalidState); }
      if (id, staker) in vetoed { return Err(InvalidState); }
      var vetoVotes := proposal.vetoVotes + power;
      if !Fits(vetoVotes) || config.None? { return Err(Panic); }
      if !Fits(proposal.forVotes + proposal.againstVotes) { return Err(Panic); }
      var total := proposal.forVotes + proposal.againstVotes + proposal.abstainVotes;
      if !Fits(total) { return Err(Panic); }
      var trigger := EARLY_VETO_TRIGGER;
      if total > 0 {
        var product := total * config.value.vetoThresholdBps;
        if !Fits(product) { return Err(Panic); }
        trigger := product / 10000;
      }
      vetoed := vetoed + {(id, staker)};
      proposals := proposals[id := proposal.(vetoVotes := vetoVotes,
                                             state := if vetoVotes >= trigger then Vetoed else proposal.state)];
      return Ok(());
    }

    method QueueProposal(env: Env, id: nat) returns (r: Result<()>)
      modifies this
      ensures match Queue(old(Value()), env, id)
              case Ok(s) => r.Ok? && Value() == s
              case Err(e) => r == Err(e) && Value() == old(Value())
    {
      if id !in proposals { return Err(ProposalNotFound); }
      var proposal := proposals[id];
      if proposal.state == Vetoed { return Err(ProposalVetoed); }
      if proposal.state != Active { return Err(InvalidState); }
      if env.ledger <= proposal.end { return Err(InvalidState); }
      if config.None? || !Fits(proposal.forVotes + proposal.againstVotes) { return Err(Panic); }
      var total := proposal.forVotes + proposal.againstVotes + proposal.abstainVotes;
      if !Fits(total) { return Err(Panic); }
      if total <= 0 {
        var saved := proposals;
        proposals := proposals[id := proposal.(state := Defeated)];
        proposals := saved;  // rollback
        return Err(QuorumNotMet);
      }
      if proposal.forVotes <= proposal.againstVotes {
        proposals := proposals[id := proposal.(state := Defeated)];
        return Ok(());
      }
      var eta := env.ledger + config.value.timelock;
      if !FitsU32(eta) { return Err(Panic); }
      proposals := proposals[id := proposal.(eta := eta, state := Queued)];
      return Ok(());
    }

    method ExecuteProposal(env: Env, id: nat) returns (r: Result<()>)
      modifies this
      ensures match Governance.ExecuteProposal(old(Value()), env, id)
              case Ok(s) => r.Ok? && Value() == s
              case Err(e) => r == Err(e) && Value() == old(Value())
    {
      if id !in proposals { return Err(ProposalNotFound); }
      var proposal := proposals[id];
      if proposal.state == Vetoed { return Err(ProposalVetoed); }
      if proposal.state != Queued { return Err(InvalidState); }
      if env.ledger < proposal.eta { return Err(TimelockNotExpired); }
      proposals := proposals[id := proposal.(state := Executed)];
      return Ok(());
    }
  }
}
