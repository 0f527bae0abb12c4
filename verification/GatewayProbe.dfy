/** The readiness probe of a start: retried, bounded by a deadline, abandoned when superseded. */
module GatewayProbe {
  import opened GatewayModel

  datatype Answer = Status(code: int) | Deadline | Cancelled

  /** What one round of the loop meets: the two checks before the probe, the race it runs, the checks
      after an unsuccessful answer, and the race of the retry delay. */
  datatype Round = Round(
    deadlineBefore: bool, continueBefore: bool, answer: Answer,
    deadlineAfter: bool, continueAfter: bool, wait: Answer)

  datatype Outcome = Returned(status: int) | Superseded

  predicate Asked(r: Round) { !r.deadlineBefore && r.continueBefore }

  /** The round probed, was refused, and the loop goes on to the next one. */
  predicate GoesOn(r: Round) {
    Asked(r) && r.answer.Status? && !Is2xx(r.answer.code) && !r.deadlineAfter && r.continueAfter && r.wait.Status?
  }

  /** The round finds the start superseded; of the last one the retry delay is not awaited. */
  predicate SeesSupersession(r: Round, retryDelay: nat, last: bool) {
    !r.deadlineBefore &&
    (|| !r.continueBefore || r.answer.Cancelled?
     || (r.answer.Status? && !Is2xx(r.answer.code) && !r.deadlineAfter
         && (!r.continueAfter || (!last && retryDelay > 0 && r.wait.Cancelled?))))
  }

  /** A probe that threw counts as status 0, as does a `Status` race of the retry delay that ran out. */
  method ProbeWithRetry(attempts: int, retryDelay: nat, rounds: nat -> Round) returns (out: Outcome)
    ensures var n := if attempts < 1 then 1 else attempts;
      // success is the answer of one of the probes, all before it having failed
      && (out.Returned? && Is2xx(out.status) <==>
            exists i :: 0 <= i < n && Asked(rounds(i)) && rounds(i).answer.Status? && Is2xx(rounds(i).answer.code)
                        && forall j :: 0 <= j < i ==> GoesOnAfter(rounds(j), retryDelay))
      // so is supersession
      && (out.Superseded? <==>
            exists i :: 0 <= i < n && SeesSupersession(rounds(i), retryDelay, i == n - 1)
                        && forall j :: 0 <= j < i ==> GoesOnAfter(rounds(j), retryDelay))
      && (out.Returned? && out.status != 0 ==> exists i :: 0 <= i < n && rounds(i).answer == Status(out.status))
  {
    var maxAttempts := if attempts < 1 then 1 else attempts;
    var statusCode := 0;
    var attempt := 0;
    while attempt < maxAttempts
      invariant 0 <= attempt <= maxAttempts
      invariant forall j :: 0 <= j < attempt ==> GoesOnAfter(rounds(j), retryDelay)
      invariant !Is2xx(statusCode)
      invariant statusCode != 0 ==> exists i :: 0 <= i < attempt && rounds(i).answer == Status(statusCode)
    {
      var r := rounds(attempt);
      if r.deadlineBefore { break; }
      if !r.continueBefore { return Superseded; }
      if r.answer.Cancelled? { return Superseded; }
      if r.answer.Deadline? { break; }
      statusCode := r.answer.code;
      if 200 <= statusCode < 300 { return Returned(statusCode); }
      if r.deadlineAfter { break; }
      if !r.continueAfter { return Superseded; }
      if attempt + 1 >= maxAttempts { break; }
      if retryDelay > 0 {
        if r.wait.Cancelled? { return Superseded; }
        if r.wait.Deadline? { break; }
      }
      attempt := attempt + 1;
    }
    return Returned(statusCode);
  }

  predicate GoesOnAfter(r: Round, retryDelay: nat) { GoesOn(if retryDelay > 0 then r else r.(wait := Status(0))) }
}
