/** The parts of the Soroban host that every contract relies on: addresses, contract errors,
    the transaction environment, authorization and the width of `i128` and `u32`. */
module Soroban {

  /** A user is anybody outside the system, be it an account or somebody else's contract, and authorizes
      what it likes. A contract is one of the system's own, and authorizes only the calls it makes. */
  datatype Address = User(id: nat) | Contract(id: nat)

  /** The contract errors the model can return, plus the two ways the host itself aborts a call. */
  datatype Error =
    | AlreadyInitialized | NotInitialized | Unauthorized | Paused | ZeroAmount
    | InsufficientBalance | StrategyCapExceeded | StrategyRevoked | StrategyNotFound
    | CooldownNotMet | DailyLimitExceeded | TxLimitExceeded | UnallowedDestination
    | MathOverflow | InvalidState | RequestNotFound | AlreadyFinalized
    | ProposalNotFound | VotingClosed | QuorumNotMet | TimelockNotExpired | ProposalVetoed
    | AuthFailed  // `require_auth` on an address that did not authorize the call
    | Panic       // a Rust panic: arithmetic overflow, `expect`, a call to no contract

  datatype Result<+T> = Ok(value: T) | Err(error: Error) {
    predicate IsFailure() { Err? }

    function PropagateFailure<U>(): Result<U>
      requires Err?
    {
      Err(error)
    }

    function Extract(): T
      requires Ok?
    {
      value
    }
  }

  datatype Check = Pass | Fail(error: Error) {
    predicate IsFailure() { Fail? }

    function PropagateFailure<U>(): Result<U>
      requires Fail?
    {
      Err(error)
    }
  }

  function Need(condition: bool, error: Error): Check {
    if condition then Pass else Fail(error)
  }

  const I128_MAX: int := 0x7fff_ffff_ffff_ffff_ffff_ffff_ffff_ffff
  const U32_MAX: int := 0xffff_ffff
  const U64_MAX: int := 0xffff_ffff_ffff_ffff

  predicate Fits(x: int) { -I128_MAX - 1 <= x <= I128_MAX }

  predicate FitsU32(x: int) { 0 <= x <= U32_MAX }

  /** What a call can see of the transaction it runs in. `invoker` is the direct caller. */
  datatype Env = Env(ledger: nat, timestamp: nat, signers: set<Address>, invoker: Address) {
    predicate Authorized(a: Address) { a in signers || a == invoker }

    /** The environment of a call that contract `self` makes. */
    function CallFrom(self: Address): Env { this.(invoker := self) }

    /** A call that reaches the system from outside: users made it and users authorized it. */
    ghost predicate TopLevel() {
      invoker.User? && invoker in signers && forall a :: a in signers ==> a.User?
    }
  }

  /** Rust's `/` on `i128` truncates toward zero. */
  function TruncDiv(a: int, b: int): (q: int)
    requires b > 0
    ensures a >= 0 ==> q * b <= a < (q + 1) * b
    ensures a < 0 ==> (q - 1) * b < a <= q * b
  {
    if a >= 0 then a / b else -((-a) / b)
  }
}
