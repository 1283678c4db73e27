/** The hash-chained log of decisions: what its integrity check accepts and what it misses. */
module AuditLog {
  import opened Engine

  const ZERO_HASH: string := "0000000000000000000000000000000000000000000000000000000000000000"

  /** What an entry's hash is taken of. The notes of the evaluation are not part of it. */
  datatype Payload = Payload(
    sequence: nat,
    timestamp: int,
    previousHash: string,
    proposalId: string,
    proposer: string,
    target: string,
    amount: int,
    approved: bool,
    requiresHuman: bool,
    violations: seq<Violation>)

  type PayloadHash = Payload -> string

  datatype Entry = Entry(
    sequence: nat,
    timestamp: int,
    previousHash: string,
    proposalId: string,
    evaluation: PolicyEvaluation,
    entryHash: string)

  datatype Decision = Decision(timestamp: int, proposal: ActionProposal, evaluation: PolicyEvaluation)

  function PayloadOf(sequence: nat, previousHash: string, d: Decision): Payload {
    Payload(sequence, d.timestamp, previousHash, d.proposal.id, d.proposal.proposerAgent, d.proposal.targetStrategy,
            d.proposal.amount, d.evaluation.approved, d.evaluation.requiresHumanApproval, d.evaluation.violations)
  }

  function NewEntry(h: PayloadHash, sequence: nat, previousHash: string, d: Decision): Entry {
    Entry(sequence, d.timestamp, previousHash, d.proposal.id, d.evaluation, h(PayloadOf(sequence, previousHash, d)))
  }

  function LastHash(entries: seq<Entry>): string {
    if entries == [] then ZERO_HASH else entries[|entries| - 1].entryHash
  }

  /** The log of a run of decisions. */
  function Log(h: PayloadHash, decisions: seq<Decision>): (entries: seq<Entry>)
    ensures |entries| == |decisions|
  {
    if decisions == [] then [] else
      var n := |decisions| - 1;
      var before := Log(h, decisions[..n]);
      before + [NewEntry(h, n + 1, LastHash(before), decisions[n])]
  }

  /** The payload that was hashed for decision `i`. */
  function Hashed(h: PayloadHash, decisions: seq<Decision>, i: nat): Payload
    requires i < |decisions|
  {
    PayloadOf(i + 1, LastHash(Log(h, decisions[..i])), decisions[i])
  }

  /** What the integrity check compares: each entry names the hash of the one before it. */
  predicate Linked(entries: seq<Entry>, expected: string) {
    entries != [] ==>
      entries[0].previousHash == expected && Linked(entries[1..], entries[0].entryHash)
  }

  /** The hash function has no collision among the payloads of the log, and none hashes to zeros. */
  ghost predicate CollisionFree(h: PayloadHash, decisions: seq<Decision>) {
    && (forall i, j :: 0 <= i < |decisions| && 0 <= j < |decisions| ==>
          (h(Hashed(h, decisions, i)) == h(Hashed(h, decisions, j)) ==>
            Hashed(h, decisions, i) == Hashed(h, decisions, j)))
    && forall i :: 0 <= i < |decisions| ==> h(Hashed(h, decisions, i)) != ZERO_HASH
  }

  lemma {:induction false} EntryAt(h: PayloadHash, decisions: seq<Decision>, i: nat)
    requires i < |decisions|
    ensures Log(h, decisions)[..i] == Log(h, decisions[..i])
    ensures Log(h, decisions)[i] == NewEntry(h, i + 1, LastHash(Log(h, decisions[..i])), decisions[i])
    ensures Log(h, decisions)[i].entryHash == h(Hashed(h, decisions, i))
  {
    var n := |decisions| - 1;
    if i < n {
      EntryAt(h, decisions[..n], i);
      assert decisions[..n][..i] == decisions[..i];
      assert Log(h, decisions)[..i] == Log(h, decisions[..n])[..i];
    }
  }

  function HashBefore(log: seq<Entry>, i: nat): string
    requires i <= |log|
  {
    if i == 0 then ZERO_HASH else log[i - 1].entryHash
  }

  /** Every entry names the hash of the entry before it; the first names zeros. */
  ghost predicate Chained(log: seq<Entry>) {
    forall i :: 0 <= i < |log| ==> log[i].previousHash == HashBefore(log, i)
  }

  lemma LogIsChained(h: PayloadHash, decisions: seq<Decision>)
    ensures Chained(Log(h, decisions))
  {
    var log := Log(h, decisions);
    forall i: nat | i < |log|
      ensures log[i].previousHash == HashBefore(log, i)
    {
      EntryAt(h, decisions, i);
      assert log[i].previousHash == LastHash(log[..i]);
    }
  }

  /** The hashes of a log are different from each other and from zeros. */
  ghost predicate Unrepeated(log: seq<Entry>) {
    && (forall i :: 0 <= i < |log| ==> log[i].entryHash != ZERO_HASH)
    && forall i, j :: 0 <= i < |log| && 0 <= j < |log| && log[i].entryHash == log[j].entryHash ==> i == j
  }

  lemma HashesUnrepeated(h: PayloadHash, decisions: seq<Decision>)
    requires CollisionFree(h, decisions)
    ensures Unrepeated(Log(h, decisions))
  {
    var log := Log(h, decisions);
    forall i | 0 <= i < |log|
      ensures log[i].entryHash == h(Hashed(h, decisions, i)) && Hashed(h, decisions, i).sequence == i + 1
    {
      EntryAt(h, decisions, i);
    }
  }

  lemma PrefixStep(a: seq<Entry>, b: seq<Entry>)
    requires a != [] && b != []
    ensures a <= b <==> a[0] == b[0] && a[1..] <= b[1..]
  {
    if a[0] == b[0] && a[1..] <= b[1..] {
      assert a == [a[0]] + a[1..] && b == [b[0]] + b[1..];
      assert forall i :: 0 < i < |a| ==> a[i] == a[1..][i - 1] == b[1..][i - 1] == b[i];
    }
  }

  lemma NamesItsPredecessor(log: seq<Entry>, k: nat, j: nat)
    requires Chained(log) && Unrepeated(log) && k <= |log| && j < |log|
    ensures log[j].previousHash == HashBefore(log, k) <==> j == k
  {
    assert log[j].previousHash == HashBefore(log, j);
  }

  lemma NextMustFollow(log: seq<Entry>, k: nat, e: Entry)
    requires Chained(log) && Unrepeated(log) && k <= |log| && e in log
    ensures e.previousHash == HashBefore(log, k) <==> k < |log| && e == log[k]
  {
    var j :| 0 <= j < |log| && log[j] == e;
    NamesItsPredecessor(log, k, j);
    if k < |log| { NamesItsPredecessor(log, k, k); }
  }

  /** From entry `k` on, an accepted sequence of logged entries can only follow the log. */
  lemma {:induction false} FollowsTheLog(log: seq<Entry>, k: nat, entries: seq<Entry>)
    requires Chained(log) && Unrepeated(log) && k <= |log|
    requires forall i :: 0 <= i < |entries| ==> entries[i] in log
    ensures Linked(entries, HashBefore(log, k)) <==> entries <= log[k..]
    decreases |entries|
  {
    if entries != [] {
      NextMustFollow(log, k, entries[0]);
      if k < |log| {
        PrefixStep(entries, log[k..]);
        assert log[k..][1..] == log[k + 1..];
        if entries[0] == log[k] { FollowsTheLog(log, k + 1, entries[1..]); }
      }
    }
  }

  /** Among all sequences put together from logged entries, the check accepts exactly the prefixes of
      the log: it sees every deletion inside, every swap and every repetition. */
  lemma AcceptsExactlyThePrefixes(h: PayloadHash, decisions: seq<Decision>, entries: seq<Entry>)
    requires CollisionFree(h, decisions)
    requires forall e :: e in entries ==> e in Log(h, decisions)
    ensures Linked(entries, ZERO_HASH) <==> entries <= Log(h, decisions)
  {
    HashesUnrepeated(h, decisions);
    LogIsChained(h, decisions);
    FollowsTheLog(Log(h, decisions), 0, entries);
  }

  /** Without any assumption on the hash: what was logged is accepted, and so is every prefix. */
  lemma {:induction false} LogIsLinked(h: PayloadHash, decisions: seq<Decision>, k: nat)
    requires k <= |decisions|
    ensures Linked(Log(h, decisions)[k..], HashBefore(Log(h, decisions), k))
    decreases |decisions| - k
  {
    if k < |decisions| {
      var log := Log(h, decisions);
      LogIsChained(h, decisions);
      LogIsLinked(h, decisions, k + 1);
      assert log[k..][1..] == log[k + 1..];
    }
  }

  /** The check reads the two hash fields only: rewriting anything else in every entry passes it. */
  lemma {:induction false} RewrittenContentIsAccepted(entries: seq<Entry>, forged: seq<Entry>, expected: string)
    requires |forged| == |entries|
    requires forall i :: 0 <= i < |entries| ==>
      forged[i].previousHash == entries[i].previousHash && forged[i].entryHash == entries[i].entryHash
    ensures Linked(forged, expected) == Linked(entries, expected)
  {
    if entries != [] {
      RewrittenContentIsAccepted(entries[1..], forged[1..], entries[0].entryHash);
    }
  }

  datatype PayloadPair = PayloadPair(p: Payload, q: Payload) {
    predicate Collides(h: PayloadHash) { p != q && h(p) == h(q) }
  }

  /** Where two logs that end in the same hash first differ, seen from the end. */
  function FindCollision(h: PayloadHash, a: seq<Decision>, b: seq<Decision>): PayloadPair
    requires a != [] && b != []
    decreases |a|
  {
    var m, n := |a| - 1, |b| - 1;
    var pair := PayloadPair(Hashed(h, a, m), Hashed(h, b, n));
    if pair.p != pair.q || m == 0 || n == 0 then pair else FindCollision(h, a[..m], b[..n])
  }

  /** The same decision at the same time, up to what the log does not hash: the kind of action, the slippage and
      the notes. */
  predicate SameOnRecord(d: Decision, e: Decision) {
    && d.timestamp == e.timestamp
    && d.proposal.id == e.proposal.id && d.proposal.proposerAgent == e.proposal.proposerAgent
    && d.proposal.targetStrategy == e.proposal.targetStrategy && d.proposal.amount == e.proposal.amount
    && d.evaluation.approved == e.evaluation.approved
    && d.evaluation.requiresHumanApproval == e.evaluation.requiresHumanApproval
    && d.evaluation.violations == e.evaluation.violations
  }

  /** A payload fixes its place in the log, the hash before it and all of the decision that is on record. */
  lemma PayloadFixes(n: nat, m: nat, before: string, before': string, d: Decision, e: Decision)
    ensures PayloadOf(n, before, d) == PayloadOf(m, before', e) <==> n == m && before == before' && SameOnRecord(d, e)
  {
  }

  /** What each entry says of its decision, and that the log keeps every decision in its place. */
  lemma EntryRecords(h: PayloadHash, decisions: seq<Decision>, i: nat)
    requires i < |decisions|
    ensures |Log(h, decisions)| == |decisions|
    ensures var entry, d := Log(h, decisions)[i], decisions[i];
            && entry.sequence == i + 1 && entry.timestamp == d.timestamp && entry.proposalId == d.proposal.id
            && entry.evaluation == d.evaluation
            && entry.previousHash == HashBefore(Log(h, decisions), i)
  {
    EntryAt(h, decisions, i);
    LogIsChained(h, decisions);
  }

  /** Logs of the same decisions but for what is not hashed have the same hashes, entry by entry. */
  lemma {:induction false} SameRecordSameHashes(h: PayloadHash, a: seq<Decision>, b: seq<Decision>)
    requires |a| == |b| && forall i :: 0 <= i < |a| ==> SameOnRecord(a[i], b[i])
    ensures LastHash(Log(h, a)) == LastHash(Log(h, b))
    decreases |a|
  {
    if a != [] {
      var n := |a| - 1;
      SameRecordSameHashes(h, a[..n], b[..n]);
      PayloadFixes(n + 1, n + 1, LastHash(Log(h, a[..n])), LastHash(Log(h, b[..n])), a[n], b[n]);
    }
  }

  /** The last hash commits to the whole history: two logs that end in the same hash record the same
      decisions in the same order, or `FindCollision` returns two payloads with one hash. */
  lemma {:induction false} LastHashFixesHistory(h: PayloadHash, a: seq<Decision>, b: seq<Decision>)
    requires a != [] && b != []
    requires LastHash(Log(h, a)) == LastHash(Log(h, b))
    ensures
      || FindCollision(h, a, b).Collides(h)
      || (|a| == |b| && forall i :: 0 <= i < |a| ==> SameOnRecord(a[i], b[i]))
    decreases |a|
  {
    var m, n := |a| - 1, |b| - 1;
    EntryAt(h, a, m);
    EntryAt(h, b, n);
    PayloadFixes(m + 1, n + 1, LastHash(Log(h, a[..m])), LastHash(Log(h, b[..n])), a[m], b[n]);
    if Hashed(h, a, m) == Hashed(h, b, n) && m > 0 {
      assert m == n;
      LastHashFixesHistory(h, a[..m], b[..n]);
      assert forall i :: 0 <= i < m ==> a[..m][i] == a[i] && b[..m][i] == b[i];
    }
  }

  /** Barring a collision, the last hash is the same exactly for the same history on record. */
  lemma SameLastHashIff(h: PayloadHash, a: seq<Decision>, b: seq<Decision>)
    requires a != [] && b != [] && !FindCollision(h, a, b).Collides(h)
    ensures LastHash(Log(h, a)) == LastHash(Log(h, b))
            <==> |a| == |b| && forall i :: 0 <= i < |a| ==> SameOnRecord(a[i], b[i])
  {
    if LastHash(Log(h, a)) == LastHash(Log(h, b)) {
      LastHashFixesHistory(h, a, b);
    } else if |a| == |b| && forall i :: 0 <= i < |a| ==> SameOnRecord(a[i], b[i]) {
      SameRecordSameHashes(h, a, b);
    }
  }

  class AuditLogger {
    const digest: PayloadHash
    var chain: seq<Entry>
    var lastHash: string
    /** What has been logged so far. */
    ghost var decisions: seq<Decision>

    ghost predicate Valid()
      reads this
    {
      chain == Log(digest, decisions) && lastHash == LastHash(chain)
    }

    constructor (digest: PayloadHash)
      ensures Valid() && decisions == [] && this.digest == digest
    {
      this.digest := digest;
      chain := [];
      lastHash := ZERO_HASH;
      decisions := [];
    }

    method LogDecision(now: int, proposal: ActionProposal, evaluation: PolicyEvaluation) returns (entry: Entry)
      requires Valid()
      modifies this
      ensures Valid() && decisions == old(decisions) + [Decision(now, proposal, evaluation)]
      ensures chain == old(chain) + [entry]
      ensures entry.sequence == |old(chain)| + 1 && entry.previousHash == old(lastHash) && lastHash == entry.entryHash
      ensures entry.timestamp == now && entry.proposalId == proposal.id && entry.evaluation == evaluation
    {
      var sequence := |chain| + 1;
      var payload := Payload(
        sequence, now, lastHash, proposal.id, proposal.proposerAgent, proposal.targetStrategy, proposal.amount,
        evaluation.approved, evaluation.requiresHumanApproval, evaluation.violations);
      var entryHash := digest(payload);
      entry := Entry(sequence, now, lastHash, proposal.id, evaluation, entryHash);
      decisions := decisions + [Decision(now, proposal, evaluation)];
      assert decisions[..|decisions| - 1] == old(decisions);
      chain := chain + [entry];
      lastHash := entryHash;
    }

    /** It holds of any chain, whether or not the logger itself wrote it. */
    method VerifyChainIntegrity() returns (ok: bool)
      ensures ok == Linked(chain, ZERO_HASH)
      ensures Valid() ==> ok
    {
      var currentExpectedPrev := ZERO_HASH;
      var k := 0;
      if Valid() {
        LogIsLinked(digest, decisions, 0);
        assert chain[0..] == chain;
      }
      while k < |chain|
        invariant 0 <= k <= |chain|
        invariant Linked(chain[k..], currentExpectedPrev) == Linked(chain, ZERO_HASH)
      {
        var entry := chain[k];
        assert chain[k..][1..] == chain[k + 1..];
        if entry.previousHash != currentExpectedPrev {
          return false;
        }
        currentExpectedPrev := entry.entryHash;
        k := k + 1;
      }
      return true;
    }
  }
}
