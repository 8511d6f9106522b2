/** One call to FDMS: its retries and how its failure is read (src/core/transport.ts). */
module Transport {
  /** Other is any error that is neither the network's nor an HTTP answer, such as an unreadable body. */
  datatype Failure = Network | Other | Http(status: nat)

  /** The call may or may not have been processed: the network, 408, 429 or any 5xx. */
  predicate OutcomeUnknown(f: Failure) {
    f.Network? || (f.Http? && (f.status >= 500 || f.status == 408 || f.status == 429))
  }

  /** An HTTP answer that says FDMS did not take the request. */
  predicate Refusal(f: Failure) {
    f.Http? && !OutcomeUnknown(f)
  }

  /** What the transport makes of one try. */
  datatype Attempt = Reply(status: nat) | Thrown(failure: Failure)

  datatype CallResult = Succeeded | Err(failure: Failure)

  function ResultOf(a: Attempt): CallResult {
    match a
    case Reply(status) => if 200 <= status < 300 then Succeeded else Err(Http(status))
    case Thrown(failure) => Err(failure)
  }

  /** The first try that the network does not fail, if it comes soon enough, is answered with success. */
  ghost predicate Reaches(attempts: nat -> Attempt, retries: nat) {
    exists i :: 0 <= i <= retries && (forall j :: 0 <= j < i ==> attempts(j) == Thrown(Network))
                && attempts(i).Reply? && 200 <= attempts(i).status <= 299
  }

  /**
   * An idempotent call is tried again after a network failure, at most
   * `retries` times; any other call is sent exactly once. The last try decides.
   */
  method Request(idempotent: bool, retries: nat, attempts: nat -> Attempt) returns (result: CallResult, sent: nat)
    ensures 1 <= sent <= (if idempotent then 1 + retries else 1)
    ensures forall i :: 0 <= i < sent - 1 ==> attempts(i) == Thrown(Network)
    ensures match attempts(sent - 1)
      case Reply(status) => result == if 200 <= status <= 299 then Succeeded else Err(Http(status))
      case Thrown(failure) => result == Err(failure)
    ensures attempts(sent - 1) == Thrown(Network) ==> sent == if idempotent then 1 + retries else 1
  {
    var limit := if idempotent then 1 + retries else 1;
    sent := 1;
    while attempts(sent - 1) == Thrown(Network) && sent < limit
      invariant 1 <= sent <= limit
      invariant forall i :: 0 <= i < sent - 1 ==> attempts(i) == Thrown(Network)
    {
      sent := sent + 1;
    }
    result := ResultOf(attempts(sent - 1));
  }
}
