/** The pipeline poll loop of the gitlabPipeline executor, against a declarative
    reading of the response stream. */
module Poll {

  /** What one turn of the loop sees: the context ending before the tick, a
      failed request (with the context ended meanwhile or not), or a status. */
  datatype Response = ContextDone | PollError(contextDone: bool) | Status(status: string)

  datatype Outcome = Success | Unsuccessful(status: string) | TooManyErrors | Interrupted | StillPolling

  const MAX_CONSECUTIVE_POLL_ERRORS := 5

  predicate Terminal(status: string) {
    status == "success" || status == "failed" || status == "canceled" || status == "skipped"
  }

  predicate Ends(r: Response) {
    r.ContextDone? || r == PollError(true) || (r.Status? && Terminal(r.status))
  }

  /** Five failed requests in a row, the last of them number j. */
  predicate FiveErrors(rs: seq<Response>, j: nat) {
    MAX_CONSECUTIVE_POLL_ERRORS - 1 <= j < |rs|
    && forall i :: j - MAX_CONSECUTIVE_POLL_ERRORS < i <= j ==> rs[i] == PollError(false)
  }

  /** Response j is where polling stops. */
  predicate Stops(rs: seq<Response>, j: nat) {
    j < |rs| && (Ends(rs[j]) || FiveErrors(rs, j))
  }

  ghost predicate StopsFirst(rs: seq<Response>, j: nat) {
    Stops(rs, j) && forall i :: 0 <= i < j ==> !Stops(rs, i)
  }

  function Verdict(r: Response): Outcome {
    match r
    case ContextDone => Interrupted
    case PollError(done) => if done then Interrupted else TooManyErrors
    case Status(status) => if status == "success" then Success else Unsuccessful(status)
  }

  /** Length of the run of failed requests at the end. */
  function TrailingErrors(rs: seq<Response>): nat {
    if rs != [] && rs[|rs| - 1] == PollError(false) then 1 + TrailingErrors(rs[..|rs| - 1]) else 0
  }

  /** The counter reaches n exactly when the last n responses all failed. */
  lemma {:induction false} TrailingErrorsCount(rs: seq<Response>, n: nat)
    ensures TrailingErrors(rs) >= n <==> n <= |rs| && forall i :: |rs| - n <= i < |rs| ==> rs[i] == PollError(false)
  {
    if rs == [] || n == 0 {
    } else if rs[|rs| - 1] == PollError(false) {
      TrailingErrorsCount(rs[..|rs| - 1], n - 1);
    }
  }

  /** Polls until the stream says stop; StillPolling when it has not said so yet. */
  method PollPipeline(rs: seq<Response>) returns (out: Outcome)
    ensures out.StillPolling? <==> forall j :: 0 <= j < |rs| ==> !Stops(rs, j)
    ensures forall j :: 0 <= j < |rs| && StopsFirst(rs, j) ==> out == Verdict(rs[j])
    ensures out.StillPolling? || exists j :: 0 <= j < |rs| && StopsFirst(rs, j)
  {
    var pollErrors := 0;
    for n := 0 to |rs|
      invariant pollErrors == TrailingErrors(rs[..n])
      invariant pollErrors < MAX_CONSECUTIVE_POLL_ERRORS
      invariant forall j :: 0 <= j < n ==> !Stops(rs, j)
    {
      assert rs[..n + 1][..n] == rs[..n];
      FiveErrorsPrefix(rs, n);
      assert StopsFirst(rs, n) <==> Ends(rs[n]) || FiveErrors(rs, n);
      match rs[n] {
        case ContextDone => return Interrupted;
        case PollError(done) =>
          if done {
            return Interrupted;
          }
          pollErrors := pollErrors + 1;
          if pollErrors >= MAX_CONSECUTIVE_POLL_ERRORS {
            return TooManyErrors;
          }
        case Status(status) =>
          pollErrors := 0;
          if status == "success" {
            return Success;
          }
          if status == "failed" || status == "canceled" || status == "skipped" {
            return Unsuccessful(status);
          }
      }
    }
    return StillPolling;
  }

  lemma FiveErrorsPrefix(rs: seq<Response>, n: nat)
    requires n < |rs|
    ensures FiveErrors(rs, n) <==> TrailingErrors(rs[..n + 1]) >= MAX_CONSECUTIVE_POLL_ERRORS
  {
    var p := rs[..n + 1];
    assert forall i :: 0 <= i < |p| ==> p[i] == rs[i];
    TrailingErrorsCount(p, MAX_CONSECUTIVE_POLL_ERRORS);
  }

  // ----- the outcomes in plain terms -----

  /** A pipeline in this status will not change any more. */
  predicate Final(r: Response) {
    r.Status? && r.status in {"success", "failed", "canceled", "skipped"}
  }

  predicate ContextEnded(r: Response) {
    r == ContextDone || r == PollError(true)
  }

  /** Response i and the four before it are failed requests. */
  predicate FifthFailure(rs: seq<Response>, i: nat) {
    && 4 <= i < |rs|
    && rs[i - 4..i + 1] == [PollError(false), PollError(false), PollError(false), PollError(false), PollError(false)]
  }

  /** Up to response j polling had no reason to stop. */
  ghost predicate GoesOnTo(rs: seq<Response>, j: nat) {
    j < |rs| && forall i :: 0 <= i < j ==> !Final(rs[i]) && !ContextEnded(rs[i]) && !FifthFailure(rs, i)
  }

  lemma FiveIsFive(rs: seq<Response>, i: nat)
    ensures FiveErrors(rs, i) <==> FifthFailure(rs, i)
  {
    if 4 <= i < |rs| {
      var five := rs[i - 4..i + 1];
      assert five == [rs[i - 4], rs[i - 3], rs[i - 2], rs[i - 1], rs[i]];
      if FifthFailure(rs, i) {
        forall k | i - 5 < k <= i ensures rs[k] == PollError(false) {
          assert rs[k] == five[k - (i - 4)];
        }
      }
    }
  }

  /** What the verdict at the first stopping response means: success and failure
      by the status itself, five failed requests in a row, or the context. */
  lemma PollOutcomes(rs: seq<Response>, j: nat)
    requires j < |rs|
    ensures StopsFirst(rs, j) && Verdict(rs[j]) == Success <==> GoesOnTo(rs, j) && rs[j] == Status("success")
    ensures forall status ::
              StopsFirst(rs, j) && Verdict(rs[j]) == Unsuccessful(status) <==>
              GoesOnTo(rs, j) && rs[j] == Status(status) && status in {"failed", "canceled", "skipped"}
    ensures StopsFirst(rs, j) && Verdict(rs[j]) == Interrupted <==> GoesOnTo(rs, j) && ContextEnded(rs[j])
    ensures StopsFirst(rs, j) && Verdict(rs[j]) == TooManyErrors <==> GoesOnTo(rs, j) && FifthFailure(rs, j)
    ensures StopsFirst(rs, j) ==> !Verdict(rs[j]).StillPolling?
  {
    forall i | 0 <= i <= j ensures Stops(rs, i) <==> Final(rs[i]) || ContextEnded(rs[i]) || FifthFailure(rs, i) {
      FiveIsFive(rs, i);
    }
    assert FifthFailure(rs, j) ==> rs[j] == PollError(false) by {
      if FifthFailure(rs, j) {
        assert rs[j] == rs[j - 4..j + 1][4];
      }
    }
  }

  /** Response j is the first terminal status, it is success, and no five
      consecutive errors come before it. */
  ghost predicate SucceedsAt(rs: seq<Response>, j: nat) {
    && j < |rs| && rs[j] == Status("success")
    && (forall i :: 0 <= i < j ==> !(rs[i].Status? && Terminal(rs[i].status)))
    && (forall i :: 0 <= i < j ==> !FiveErrors(rs, i))
  }

  /** With a live context polling stops with success exactly at such a response;
      scattered errors never abort it. */
  lemma LiveSuccess(rs: seq<Response>, j: nat)
    requires forall i :: 0 <= i < |rs| ==> !rs[i].ContextDone? && rs[i] != PollError(true)
    ensures SucceedsAt(rs, j) <==> StopsFirst(rs, j) && Verdict(rs[j]) == Success
  {
    if SucceedsAt(rs, j) {
      forall i | 0 <= i < j ensures !Stops(rs, i) {
        assert !FiveErrors(rs, i) && !(rs[i].Status? && Terminal(rs[i].status));
      }
    }
    if StopsFirst(rs, j) && Verdict(rs[j]) == Success {
      forall i | 0 <= i < j ensures !(rs[i].Status? && Terminal(rs[i].status)) && !FiveErrors(rs, i) {
        assert !Stops(rs, i);
      }
    }
  }
}
