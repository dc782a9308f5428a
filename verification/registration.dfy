/** Registration with the control plane: what ends the retry loop, and how long it waits. */
module Registration {
  import opened Backoff

  datatype Response = TransportError | Answered(status: int)

  datatype Verdict = Registered | Refused | TryAgain

  function Register(r: Response): Verdict {
    match r
    case TransportError => TryAgain
    case Answered(sc) =>
      if 400 <= sc < 500 then Refused
      else if sc == 200 || sc == 201 then Registered
      else TryAgain
  }

  // One round: the response to the attempt, and whether the context is done by the end of
  // the wait that follows a retryable failure.
  datatype Round = Round(response: Response, cancelled: bool)

  datatype Exit = Success | Rejected | Cancelled | StillTrying

  // The loop goes on past a round.
  predicate GoesOn(r: Round) {
    Register(r.response) == TryAgain && !r.cancelled
  }

  // What the loop does against a finite script of rounds.
  method Run(initialBackoff: int, maxBackoff: int, script: seq<Round>)
    returns (exit: Exit, attempts: nat, waits: seq<int>)
    ensures attempts <= |script|
    ensures forall i :: 0 <= i < attempts - 1 ==> GoesOn(script[i])
    ensures exit == StillTrying <==> attempts == |script| && (attempts > 0 ==> GoesOn(script[attempts - 1]))
    ensures exit == Success <==>
              attempts > 0 && script[attempts - 1].response in {Answered(200), Answered(201)}
    ensures exit == Rejected <==>
              && attempts > 0 && script[attempts - 1].response.Answered?
              && 400 <= script[attempts - 1].response.status < 500
    ensures exit == Cancelled ==> attempts > 0 && script[attempts - 1].cancelled
    ensures |waits| == if exit.Success? || exit.Rejected? then attempts - 1 else attempts
    ensures forall i :: 0 <= i < |waits| ==> waits[i] == RegistrationWait(initialBackoff, maxBackoff, i + 1)
  {
    var backoff := initialBackoff;
    exit, attempts, waits := StillTrying, 0, [];
    while attempts < |script|
      invariant attempts <= |script| && exit == StillTrying && |waits| == attempts
      invariant forall i :: 0 <= i < attempts ==> GoesOn(script[i])
      invariant backoff == RegistrationWait(initialBackoff, maxBackoff, attempts + 1)
      invariant forall i :: 0 <= i < |waits| ==> waits[i] == RegistrationWait(initialBackoff, maxBackoff, i + 1)
    {
      var round := script[attempts];
      attempts := attempts + 1;
      var verdict := Register(round.response);
      if verdict == Registered {
        exit := Success;
        return;
      } else if verdict == Refused {
        exit := Rejected;
        return;
      }
      waits := waits + [backoff];
      if round.cancelled {
        exit := Cancelled;
        return;
      }
      backoff := Wrap64(2 * backoff);
      if backoff > maxBackoff {
        backoff := maxBackoff;
      }
    }
  }
}
