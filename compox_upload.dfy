/**
 * The compox `S3FileUploader`: one multipart upload attempt
 * (`_upload_file_multipart_step`), which aborts the upload when anything
 * fails after it was created, and the retry loop around it
 * (`upload_file_multipart`), which retries only errors the store classifies
 * as transient. Each attempt talks to the client as `clients(attempt)`
 * says; the random backoff sleep between attempts is not modelled.
 */
module CompoxUpload {
  import opened Wrappers
  import opened Multipart

  // ---------------------------------------------------------------- one attempt

  /**
   * `_upload_file_multipart_step`: the calls made and the error raised, if
   * any. A failed creation leaves no upload id, so nothing is aborted; any
   * later failure triggers an abort (whose own failure is logged and
   * ignored) and is re-raised.
   */
  function Step(b: Bytes, key: string, bucket: string, chunk: nat, c: Client): (seq<Call>, Option<Exc>)
  {
    var created := [CreateUpload(bucket, key)];
    if c.create.Err? then (created, Some(c.create.exc))
    else
      var id := c.create.value;
      var abort := AbortUpload(bucket, key, id);
      match NumParts(|b|, chunk)
      case Err(e) => (created + [abort], Some(e))
      case Ok(n) =>
        var submitted := created + Submitted(b, key, bucket, chunk, n, id);
        match Collected(c, b, chunk, n)
        case Err(e) => (submitted + [abort], Some(e))
        case Ok(ps) =>
          var completed := submitted + [CompleteUpload(bucket, key, SortByNumber(ps), id)];
          if c.complete.Some? then (completed + [abort], c.complete) else (completed, None)
  }

  /** One attempt, as the source runs it: create, count, submit and collect, sort, complete; abort on failure. */
  method UploadStep(b: Bytes, key: string, bucket: string, chunk: nat, c: Client) returns (calls: seq<Call>, err: Option<Exc>)
    ensures (calls, err) == Step(b, key, bucket, chunk, c)
  {
    calls := [CreateUpload(bucket, key)];
    if c.create.Err? {
      return calls, Some(c.create.exc);
    }
    var uploadId := c.create.value;
    var count := NumParts(|b|, chunk);
    if count.Err? {
      calls := calls + [AbortUpload(bucket, key, uploadId)];
      return calls, Some(count.exc);
    }
    var submitted, parts := SubmitParts(b, key, bucket, chunk, count.value, uploadId, c);
    calls := calls + submitted;
    if parts.Err? {
      calls := calls + [AbortUpload(bucket, key, uploadId)];
      return calls, Some(parts.exc);
    }
    var sorted := SortByNumber(parts.value);
    calls := calls + [CompleteUpload(bucket, key, sorted, uploadId)];
    if c.complete.Some? {
      calls := calls + [AbortUpload(bucket, key, uploadId)];
      return calls, c.complete;
    }
    err := None;
  }

  /**
   * A successful attempt uploads every part, numbered 1 to n with n the
   * ceiling of the length over the chunk size, whose bodies concatenate to
   * the input, and completes with the parts in ascending number order,
   * each carrying the etag its upload returned.
   */
  lemma StepSuccess(b: Bytes, key: string, bucket: string, chunk: nat, c: Client)
    requires Step(b, key, bucket, chunk, c).1.None?
    ensures chunk > 0 && c.create.Ok?
    ensures var (calls, _) := Step(b, key, bucket, chunk, c);
      var n := NumParts(|b|, chunk).value;
      var id := c.create.value;
      |calls| == n + 2 && calls[0] == CreateUpload(bucket, key)
      && (forall i :: 1 <= i <= n ==> calls[i] == UploadPart(bucket, key, i, Part(b, chunk, i - 1), id))
      && Concat(Parts(b, chunk, n)) == b
      && calls[n + 1].CompleteUpload? && calls[n + 1].uploadId == id
      && |calls[n + 1].parts| == n
      && (forall i :: 0 <= i < n ==>
            c.uploadPart(i + 1, Part(b, chunk, i)).Ok?
            && calls[n + 1].parts[i] == PartRecord(i + 1, c.uploadPart(i + 1, Part(b, chunk, i)).value))
  {
    StepSucceeded(b, key, bucket, chunk, c);
    var n := NumParts(|b|, chunk).value;
    var id := c.create.value;
    var ps := Collected(c, b, chunk, n).value;
    SubmittedBetween(b, key, bucket, chunk, n, id, CreateUpload(bucket, key), CompleteUpload(bucket, key, SortByNumber(ps), id));
    CompletedParts(c, b, chunk, n);
    PartsCover(b, chunk);
  }

  /** The calls of a successful attempt: the creation, part uploads 1 to n in order, the completion. */
  lemma SubmittedBetween(b: Bytes, key: string, bucket: string, chunk: nat, n: nat, id: string, first: Call, last: Call)
    ensures var calls := [first] + Submitted(b, key, bucket, chunk, n, id) + [last];
      |calls| == n + 2 && calls[0] == first && calls[n + 1] == last
      && forall i :: 1 <= i <= n ==> calls[i] == UploadPart(bucket, key, i, Part(b, chunk, i - 1), id)
  {
    var sub := Submitted(b, key, bucket, chunk, n, id);
    var calls := [first] + sub + [last];
    forall i | 1 <= i <= n ensures calls[i] == UploadPart(bucket, key, i, Part(b, chunk, i - 1), id) {
      assert calls[i] == sub[i - 1];
    }
  }

  /** The only way an attempt succeeds: every call succeeds, and the calls are the creation, the parts and the completion. */
  lemma StepSucceeded(b: Bytes, key: string, bucket: string, chunk: nat, c: Client)
    requires Step(b, key, bucket, chunk, c).1.None?
    ensures c.create.Ok? && chunk > 0 && c.complete.None?
    ensures var n := NumParts(|b|, chunk).value;
      Collected(c, b, chunk, n).Ok?
      && Step(b, key, bucket, chunk, c).0
         == [CreateUpload(bucket, key)] + Submitted(b, key, bucket, chunk, n, c.create.value)
            + [CompleteUpload(bucket, key, SortByNumber(Collected(c, b, chunk, n).value), c.create.value)]
  {
  }

  /** The records given to the completion: parts 1 to n in order, with their etags. */
  lemma CompletedParts(c: Client, b: Bytes, chunk: nat, n: nat)
    requires Collected(c, b, chunk, n).Ok?
    ensures var ps := SortByNumber(Collected(c, b, chunk, n).value);
      |ps| == n
      && forall i :: 0 <= i < n ==>
           c.uploadPart(i + 1, Part(b, chunk, i)).Ok? && ps[i] == PartRecord(i + 1, c.uploadPart(i + 1, Part(b, chunk, i)).value)
  {
    CollectedSpec(c, b, chunk, n);
    var ps := Collected(c, b, chunk, n).value;
    assert Ascending(ps);
    SortAscendingUnchanged(ps);
  }

  /**
   * A failed attempt whose upload was created ends with an abort of that
   * upload; a failed creation makes no other call and aborts nothing.
   */
  lemma StepFailureAborts(b: Bytes, key: string, bucket: string, chunk: nat, c: Client)
    requires Step(b, key, bucket, chunk, c).1.Some?
    ensures var (calls, err) := Step(b, key, bucket, chunk, c);
      (c.create.Err? ==> calls == [CreateUpload(bucket, key)] && err == Some(c.create.exc))
      && (c.create.Ok? ==>
            |calls| >= 2 && calls[|calls| - 1] == AbortUpload(bucket, key, c.create.value)
            && forall i :: 0 <= i < |calls| - 1 ==> !calls[i].AbortUpload?)
  {
  }

  /** The error of a failed attempt after creation is the original one: the zero chunk, the first failed part, or the completion's. */
  lemma StepFailureReraises(b: Bytes, key: string, bucket: string, chunk: nat, c: Client)
    requires c.create.Ok? && Step(b, key, bucket, chunk, c).1.Some?
    ensures var err := Step(b, key, bucket, chunk, c).1.value;
      (chunk == 0 && err == ZeroDivisionError)
      || (chunk > 0 &&
            exists i :: 0 <= i < NumParts(|b|, chunk).value
              && c.uploadPart(i + 1, Part(b, chunk, i)) == Err(err)
              && forall j :: 0 <= j < i ==> c.uploadPart(j + 1, Part(b, chunk, j)).Ok?)
      || (chunk > 0 && Some(err) == c.complete)
  {
    if chunk > 0 {
      CollectedSpec(c, b, chunk, NumParts(|b|, chunk).value);
    }
  }

  // ---------------------------------------------------------------- retries

  /** The ClientError codes retried. */
  const TransientCodes: set<string> := {"AccessDenied", "InvalidPart", "InternalError", "ServiceUnavailable", "SlowDown"}

  predicate Transient(code: string)
  {
    code in TransientCodes
  }

  /** Whether a raised error is retried on an attempt that is not the last. */
  predicate Retried(e: Exc)
  {
    e.ClientError? && Transient(e.code)
  }

  const RetriesExhausted: string := "Multipart upload failed after multiple retries: "

  /** The generic failure's message, naming the last error or `None`. */
  function Exhausted(lastErr: Option<Exc>): string
  {
    RetriesExhausted + (if lastErr.Some? then Str(lastErr.value) else "None")
  }

  /** The outcome of a whole upload: every call made, the error raised if any, and the number of attempts. */
  datatype Outcome = Outcome(calls: seq<Call>, err: Option<Exc>, attempts: nat)

  /** What attempt `k` does: its calls and the error it raises, if any. */
  type Attempts = nat -> (seq<Call>, Option<Exc>)

  /**
   * The retry loop from `attempt` on, after the earlier attempts made the
   * calls `made`: a success returns; an error other than a ClientError, a
   * ClientError with a non-transient code, or any error on the last
   * attempt is raised; a transient one moves to the next attempt. When no
   * attempt is left the generic failure is raised with the last error,
   * `None` when there was none.
   */
  function Retry(steps: Attempts, retries: int, attempt: nat, lastErr: Option<Exc>, made: seq<Call>): (o: Outcome)
    decreases retries - attempt
  {
    if attempt >= retries then
      Outcome(made, Some(GenericError(Exhausted(lastErr))), attempt)
    else
      var (calls, err) := steps(attempt);
      if err.None? then Outcome(made + calls, None, attempt + 1)
      else if !err.value.ClientError? then Outcome(made + calls, err, attempt + 1)
      else if !Transient(err.value.code) || attempt == retries - 1 then Outcome(made + calls, err, attempt + 1)
      else Retry(steps, retries, attempt + 1, err, made + calls)
  }

  /** The attempts of an upload: attempt `k` runs one step against `clients(k)`. */
  function StepsOf(b: Bytes, key: string, bucket: string, chunk: nat, clients: nat -> Client): Attempts
  {
    (k: nat) => Step(b, key, bucket, chunk, clients(k))
  }

  /** `upload_file_multipart(bytes, key, bucket, retries)`. */
  function Upload(b: Bytes, key: string, bucket: string, chunk: nat, retries: int, clients: nat -> Client): Outcome
  {
    Retry(StepsOf(b, key, bucket, chunk, clients), retries, 0, None, [])
  }

  /** The `for attempt in range(retries)` loop with `last_err`. */
  method UploadFileMultipart(b: Bytes, key: string, bucket: string, chunk: nat, retries: int, clients: nat -> Client)
    returns (calls: seq<Call>, err: Option<Exc>, attempts: nat)
    ensures Outcome(calls, err, attempts) == Upload(b, key, bucket, chunk, retries, clients)
  {
    ghost var steps := StepsOf(b, key, bucket, chunk, clients);
    var lastErr: Option<Exc> := None;
    calls := [];
    var attempt: nat := 0;
    while attempt < retries
      invariant Retry(steps, retries, attempt, lastErr, calls) == Upload(b, key, bucket, chunk, retries, clients)
      decreases retries - attempt
    {
      var stepCalls, stepErr := UploadStep(b, key, bucket, chunk, clients(attempt));
      assert steps(attempt) == (stepCalls, stepErr);
      calls := calls + stepCalls;
      if stepErr.None? {
        return calls, None, attempt + 1;
      }
      lastErr := stepErr;
      var e := stepErr.value;
      if !e.ClientError? || !Transient(e.code) || attempt == retries - 1 {
        return calls, stepErr, attempt + 1;
      }
      attempt := attempt + 1;
    }
    var message := RetriesExhausted + (if lastErr.Some? then Str(lastErr.value) else "None");
    return calls, Some(GenericError(message)), attempt;
  }

  /** With `retries <= 0` no attempt is made and the generic failure names no last error. */
  lemma NoRetriesNoAttempt(b: Bytes, key: string, bucket: string, chunk: nat, retries: int, clients: nat -> Client)
    requires retries <= 0
    ensures Upload(b, key, bucket, chunk, retries, clients)
         == Outcome([], Some(GenericError("Multipart upload failed after multiple retries: None")), 0)
  {
    assert RetriesExhausted + "None" == "Multipart upload failed after multiple retries: None";
  }

  /**
   * From attempt `a` on (with at least one attempt left), at most
   * `retries` attempts are made in all, the generic failure is never
   * raised, every attempt before the last one failed with a transient
   * ClientError, and the outcome is that of the last attempt made.
   */
  lemma {:induction false} RetrySpec(steps: Attempts, retries: int, a: nat, lastErr: Option<Exc>, made: seq<Call>)
    requires a < retries
    ensures var o := Retry(steps, retries, a, lastErr, made);
      a < o.attempts <= retries
      && o.err == steps(o.attempts - 1).1
      && (forall k :: a <= k < o.attempts - 1 ==> steps(k).1.Some? && Retried(steps(k).1.value))
      && (o.attempts < retries ==> o.err.None? || !Retried(o.err.value))
    decreases retries - a
  {
    var err := steps(a).1;
    if err.Some? && err.value.ClientError? && Transient(err.value.code) && a != retries - 1 {
      RetrySpec(steps, retries, a + 1, err, made + steps(a).0);
    }
  }

  /**
   * An upload with at least one attempt makes at most `retries` attempts,
   * retries only after transient ClientErrors, and raises exactly what its
   * last attempt raised (nothing after a successful attempt).
   */
  lemma UploadSpec(b: Bytes, key: string, bucket: string, chunk: nat, retries: int, clients: nat -> Client)
    requires retries >= 1
    ensures var o := Upload(b, key, bucket, chunk, retries, clients);
      var steps := StepsOf(b, key, bucket, chunk, clients);
      1 <= o.attempts <= retries
      && o.err == steps(o.attempts - 1).1
      && (forall k :: 0 <= k < o.attempts - 1 ==> steps(k).1.Some? && Retried(steps(k).1.value))
  {
    RetrySpec(StepsOf(b, key, bucket, chunk, clients), retries, 0, None, []);
  }

  /** An error that is not a transient ClientError on the first attempt is raised at once, without a retry. */
  lemma NotRetried(b: Bytes, key: string, bucket: string, chunk: nat, retries: int, clients: nat -> Client)
    requires retries >= 1
    requires var err := Step(b, key, bucket, chunk, clients(0)).1; err.Some? && !Retried(err.value)
    ensures var o := Upload(b, key, bucket, chunk, retries, clients);
      o.attempts == 1 && o.err == Step(b, key, bucket, chunk, clients(0)).1
      && o.calls == Step(b, key, bucket, chunk, clients(0)).0
  {
    var first := Step(b, key, bucket, chunk, clients(0));
    assert StepsOf(b, key, bucket, chunk, clients)(0) == first;
    assert [] + first.0 == first.0;
  }
}
