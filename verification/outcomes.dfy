/** Error values and outcomes shared by every component. */
module Outcomes {

  /** The error classes the service distinguishes with `errors.Is`, one constructor each.
      `Crashed` stands for a process that stopped in the middle of a call: nothing runs after it. */
  datatype Error =
    | Crashed
    | Conflict
    | Constraint
    | NotFound
    | InvalidArgument
    | Storage
    | Authentication
    | SchemaMismatch
    | Transport
    | Unexpected
    | CertificateNotFound
    | MultipleCertificates
    | CertificateNotBound
    | ServerNotFound
    | MultipleServers
    | Ambiguous
    | TlsMismatch
    | Rejected
    | ReissueRequired
    | UnknownStage
    | OrderRefused
    | Joined(first: Error, second: Error)

  datatype Outcome = Ok | Err(error: Error) {
    predicate IsCrash() { Err? && error.Crashed? }
  }

  datatype Result<+T> = Success(value: T) | Failure(error: Error)

  datatype Option<+T> = None | Some(value: T)

  /** `errors.Is` over joined errors. */
  predicate Is(e: Error, kind: Error)
  {
    e == kind || (e.Joined? && (Is(e.first, kind) || Is(e.second, kind)))
  }

  /** What the outside world may answer when a call fails: never one of the service's own
      control errors. */
  predicate External(e: Error)
  {
    e.Storage? || e.Authentication? || e.SchemaMismatch? || e.Transport? || e.Unexpected? || e.TlsMismatch?
  }
}

/** The world outside the process: the clock and the fate of every call. */
module Environments {
  import opened Outcomes

  /** How one call ends: with or without its effect, and with or without the process surviving it. */
  datatype Fate = Done | FailedBefore | FailedAfter | CrashedBefore | CrashedAfter {
    predicate TakesEffect() { Done? || FailedAfter? || CrashedAfter? }
    predicate IsCrash() { CrashedBefore? || CrashedAfter? }
  }

  /** A reading of the wall clock in nanoseconds, past the first second of the epoch. */
  type Instant = t: int | t >= 1_000_000_000 witness 1_000_000_000

  class Environment {
    var now: Instant
    /** In a calm run no call fails, nothing crashes and the administrator has bound the certificates. */
    var calm: bool

    constructor (start: Instant)
      ensures now == start && !calm
    {
      now, calm := start, false;
    }

    /** Advances the clock and decides the fate of one call. */
    method Draw() returns (fate: Fate)
      modifies this`now
      ensures now > old(now)
      ensures calm ==> fate == Done
    {
      var step: int := *;
      now := now + (if step > 0 then step else 1);
      fate := *;
      if calm {
        fate := Done;
      }
    }

    /** The error a failed call reports. */
    method Fault() returns (e: Error)
      ensures External(e)
    {
      e := *;
      if !External(e) {
        e := Transport;
      }
    }

    /** The outcome a caller sees for a given fate. */
    method Report(fate: Fate) returns (r: Outcome)
      ensures r.Ok? <==> fate.Done?
      ensures r.IsCrash() <==> fate.IsCrash()
      ensures r.Err? ==> r.error.Crashed? || External(r.error)
    {
      if fate.Done? {
        return Ok;
      }
      if fate.IsCrash() {
        return Err(Crashed);
      }
      var e := Fault();
      return Err(e);
    }
  }
}
