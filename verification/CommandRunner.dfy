/**
 * The resumable bulk-delete command, the retry loop that runs it, and the handler that
 * turns the loop's result into the outbox row's fate.
 */
module CommandRunner {
  import opened Clock
  import opened Wrappers
  import opened OutboxTable
  import opened ObjectStorage
  import opened Dispatcher
  import Collections
  import Protocol = OutboxProtocol

  datatype ErrorKind = Retryable | NonRetryable

  datatype ErrorCategory =
    | Timeout | Throttled | Network | ServiceUnavailable | AccessDenied
    | InvalidArgument | ResourceNotFound | Internal | Unknown

  datatype CommandExecutionError =
    CommandExecutionError(kind: ErrorKind, category: ErrorCategory, message: string, failedKeys: seq<string>)

  type Outcome = Result<(), CommandExecutionError>

  const RETRYABLE_CODES := {
    "SlowDown", "Throttling", "ThrottlingException", "RequestTimeout", "InternalError", "ServiceUnavailable"
  }

  predicate IsRetryableFailure(failure: DeleteObjectFailure) {
    if failure.key == "" || failure.key == "<unknown>" then false
    else if failure.code.None? then true
    else failure.code.value in RETRYABLE_CODES
  }

  function Contains(text: string, part: string): bool {
    exists i | 0 <= i <= |text| :: part <= text[i..]
  }

  function ClassifyError(error: StorageError): (ErrorKind, ErrorCategory) {
    match error
    case Sdk(TimeoutError) => (Retryable, Timeout)
    case Sdk(DispatchFailure) => (Retryable, Network)
    case Sdk(ResponseError) => (Retryable, Network)
    case Sdk(ServiceError(code)) =>
      (match if code.Some? then code.value else ""
       case "SlowDown" => (Retryable, Throttled)
       case "Throttling" => (Retryable, Throttled)
       case "ThrottlingException" => (Retryable, Throttled)
       case "RequestTimeout" => (Retryable, Timeout)
       case "InternalError" => (Retryable, Internal)
       case "ServiceUnavailable" => (Retryable, ErrorCategory.ServiceUnavailable)
       case "AccessDenied" => (NonRetryable, AccessDenied)
       case "InvalidArgument" => (NonRetryable, InvalidArgument)
       case "NoSuchBucket" => (NonRetryable, ResourceNotFound)
       case _ => (NonRetryable, Unknown))
    case Sdk(ConstructionFailure) => (NonRetryable, InvalidArgument)
    case Sdk(OtherSdkError) => (Retryable, Unknown)
    case Plain(message) =>
      if Contains(message, BUILD_FAILED) then (NonRetryable, InvalidArgument)
      else if Contains(message, "AccessDenied") then (NonRetryable, AccessDenied)
      else if Contains(message, "InvalidArgument") then (NonRetryable, InvalidArgument)
      else if Contains(message, "NoSuchBucket") then (NonRetryable, ResourceNotFound)
      else (Retryable, Unknown)
  }

  const BUILD_FAILED := "构建删除对象失败"

  /**
   * A whole-request service error and a per-key failure with the same code are retried
   * alike, except that a failure without a code is retried and an error without one is not.
   */
  lemma SameCodesRetryAlike(key: string, code: Option<string>, message: Option<string>)
    requires key != "" && key != "<unknown>"
    ensures
      IsRetryableFailure(DeleteObjectFailure(key, code, message)) <==>
      code.None? || ClassifyError(Sdk(ServiceError(code))).0 == Retryable
  {
  }

  /** Which errors of a whole request are retried: all but the four known as permanent and unknown service codes. */
  lemma RetriedErrors(error: StorageError)
    ensures ClassifyError(error).0 == Retryable <==>
      match error
      case Sdk(ServiceError(code)) => code.Some? && code.value in RETRYABLE_CODES
      case Sdk(sdk) => !sdk.ConstructionFailure?
      case Plain(message) =>
        forall part :: part in {BUILD_FAILED, "AccessDenied", "InvalidArgument", "NoSuchBucket"} ==>
          !Contains(message, part)
  {
  }

  // A request that fails with this service code.
  predicate HasCode(error: StorageError, codes: set<string>) {
    error.Sdk? && error.error.ServiceError? && error.error.code.Some? && error.error.code.value in codes
  }

  /** What the row's error will name as the cause: each category stands for these errors and no other. */
  lemma ErrorCategories(error: StorageError)
    ensures
      var category := ClassifyError(error).1;
      && (category == Timeout <==> error == Sdk(TimeoutError) || HasCode(error, {"RequestTimeout"}))
      && (category == Throttled <==> HasCode(error, {"SlowDown", "Throttling", "ThrottlingException"}))
      && (category == Network <==> error in {Sdk(DispatchFailure), Sdk(ResponseError)})
      && (category == ServiceUnavailable <==> HasCode(error, {"ServiceUnavailable"}))
      && (category == Internal <==> HasCode(error, {"InternalError"}))
      && (error.Sdk? ==>
            && (category == AccessDenied <==> HasCode(error, {"AccessDenied"}))
            && (category == ResourceNotFound <==> HasCode(error, {"NoSuchBucket"}))
            && (category == InvalidArgument <==>
                  error == Sdk(ConstructionFailure) || HasCode(error, {"InvalidArgument"})))
  {
  }

  function Retryables(failures: seq<DeleteObjectFailure>): (r: seq<DeleteObjectFailure>)
    ensures forall f :: f in r <==> f in failures && IsRetryableFailure(f)
    ensures |r| <= |failures|
  {
    if failures == [] then []
    else (if IsRetryableFailure(failures[0]) then [failures[0]] else []) + Retryables(failures[1..])
  }

  function Others(failures: seq<DeleteObjectFailure>): (r: seq<DeleteObjectFailure>)
    ensures forall f :: f in r <==> f in failures && !IsRetryableFailure(f)
  {
    if failures == [] then []
    else (if IsRetryableFailure(failures[0]) then [] else [failures[0]]) + Others(failures[1..])
  }

  lemma KeysPartition(failures: seq<DeleteObjectFailure>)
    ensures ToSet(KeysOf(failures)) == ToSet(KeysOf(Retryables(failures))) + ToSet(KeysOf(Others(failures)))
  {
    InKeysOf(failures);
    InKeysOf(Retryables(failures));
    InKeysOf(Others(failures));
  }

  const MIXED_FAILURE := "delete_archive_objects mixed partial failure, retrying retryable failed keys only"
  const PARTIAL_FAILURE := "delete_archive_objects partial failure, retrying failed keys only"
  const PERMANENT_FAILURE := "delete_archive_objects failed with non-retryable errors: "
  const REQUEST_FAILED := "delete_archive_objects request failed: "
  const REQUEST_CONTEXT := "批量删除远程文件失败"

  function TextOr(text: Option<string>): string {
    if text.Some? then text.value else "<none>"
  }

  function FormatFailures(failures: seq<DeleteObjectFailure>): string {
    if failures == [] then ""
    else
      var f := failures[0];
      "key=" + f.key + ", code=" + TextOr(f.code) + ", message=" + TextOr(f.message)
      + if |failures| == 1 then "" else "; " + FormatFailures(failures[1..])
  }

  // An SDK error is displayed by the context it was wrapped in.
  function RequestFailure(error: StorageError): string {
    REQUEST_FAILED + if error.Plain? then error.message else REQUEST_CONTEXT
  }

  // What an attempt makes of S3's answer: its outcome, and the keys still pending.
  function Judged(pending: seq<string>, answer: Result<DeleteObjectsReport, StorageError>): (Outcome, seq<string>) {
    match answer
    case Err(error) =>
      var (kind, category) := ClassifyError(error);
      (Err(CommandExecutionError(kind, category, RequestFailure(error), pending)), pending)
    case Ok(report) =>
      var retryable, others := KeysOf(Retryables(report.failed)), KeysOf(Others(report.failed));
      if report.failed == [] || (retryable == [] && others == []) then (Ok(()), pending)
      else if retryable == [] then
        var details := FormatFailures(Others(report.failed));
        (Err(CommandExecutionError(NonRetryable, InvalidArgument, PERMANENT_FAILURE + details, others)), pending)
      else
        var note := if others == [] then PARTIAL_FAILURE else MIXED_FAILURE;
        (Err(CommandExecutionError(Retryable, ServiceUnavailable, note, retryable)), retryable)
  }

  // An attempt with keys whose first request is S3's n-th: outcome, pending keys, next request number.
  function RequestAttempt(outage: Outages, verdict: Verdicts, n: nat, pending: seq<string>)
    : (Outcome, seq<string>, nat)
  {
    var chunks := Chunks(pending, MAX_DELETE_PER_REQUEST);
    var judged := Judged(pending, Answer(outage, verdict, n, chunks));
    (judged.0, judged.1, n + RequestsMade(outage, n, chunks))
  }

  function Attempt(outage: Outages, verdict: Verdicts, n: nat, pending: seq<string>): (Outcome, seq<string>, nat) {
    if pending == [] then (Ok(()), [], n) else RequestAttempt(outage, verdict, n, pending)
  }

  // ---------------------------------------------------------------- what an attempt tells

  // S3 refuses this key in this attempt for a reason that may pass.
  ghost predicate RefusedForNow(verdict: Verdicts, n: nat, pending: seq<string>, k: string) {
    exists j :: 0 <= j < |pending| && pending[j] == k && MayPass(k, verdict(RequestFor(n, j))(k))
  }

  predicate MayPass(k: string, word: Verdict) {
    && word.Refused? && k != "" && k != "<unknown>"
    && (word.code.None? || word.code.value in
          {"SlowDown", "Throttling", "ThrottlingException", "RequestTimeout", "InternalError", "ServiceUnavailable"})
  }

  ghost predicate AllDeleted(verdict: Verdicts, n: nat, pending: seq<string>) {
    forall j :: 0 <= j < |pending| ==> verdict(RequestFor(n, j))(pending[j]) == Deleted
  }

  // An attempt in terms of S3's answers: what comes out, what is pending then, and the
  // number of the next request.
  ghost predicate AttemptTells(outage: Outages, verdict: Verdicts, n: nat, pending: seq<string>,
                               r: Outcome, left: seq<string>, next: nat) {
    if Healthy(outage, n, n + RequestsFor(pending)) then
      && next == n + RequestsFor(pending)
      && (r.Ok? <==> AllDeleted(verdict, n, pending))
      && (r.Err? && r.error.kind == Retryable <==> exists k :: RefusedForNow(verdict, n, pending, k))
      && (if r.Err? && r.error.kind == Retryable then
            (forall k :: k in left <==> RefusedForNow(verdict, n, pending, k)) && r.error.failedKeys == left
          else left == pending)
    else
      && n < next <= n + RequestsFor(pending) && Healthy(outage, n, next - 1) && outage(next - 1).Some?
      && left == pending && r.Err? && r.error.failedKeys == pending
      && r.error.kind == ClassifyError(outage(next - 1).value).0
  }

  lemma RetryableKeysTell(verdict: Verdicts, n: nat, pending: seq<string>, report: DeleteObjectsReport, k: string)
    requires ReportTells(verdict, n, pending, report)
    ensures k in KeysOf(Retryables(report.failed)) <==> RefusedForNow(verdict, n, pending, k)
  {
    InKeysOf(Retryables(report.failed));
    if f :| f in Retryables(report.failed) && f.key == k {
      FailureIsRefused(verdict, n, pending, report, f);
    }
    if j :| 0 <= j < |pending| && pending[j] == k && MayPass(k, verdict(RequestFor(n, j))(k)) {
      var word := verdict(RequestFor(n, j))(k);
      assert Answered(verdict, n, pending, k, Refused(word.code, word.message));
      assert DeleteObjectFailure(k, word.code, word.message) in report.failed;
      assert IsRetryableFailure(DeleteObjectFailure(k, word.code, word.message));
    }
  }

  lemma FailureIsRefused(verdict: Verdicts, n: nat, pending: seq<string>, report: DeleteObjectsReport,
                         f: DeleteObjectFailure)
    requires ReportTells(verdict, n, pending, report) && f in report.failed && IsRetryableFailure(f)
    ensures RefusedForNow(verdict, n, pending, f.key)
  {
    assert Answered(verdict, n, pending, f.key, Refused(f.code, f.message));
    var j :| 0 <= j < |pending| && pending[j] == f.key
             && verdict(RequestFor(n, j))(f.key) == Refused(f.code, f.message);
    assert MayPass(f.key, verdict(RequestFor(n, j))(f.key));
  }

  /**
   * After an attempt that S3 answers in full, exactly the keys that it refused for a
   * reason that may pass are pending, if there are any; so what was deleted or given up is
   * not asked for again. Otherwise the pending keys stay what they were.
   */
  lemma AttemptIsTold(outage: Outages, verdict: Verdicts, n: nat, pending: seq<string>)
    ensures
      var (r, left, next) := Attempt(outage, verdict, n, pending);
      AttemptTells(outage, verdict, n, pending, r, left, next)
  {
    var (r, left, next) := Attempt(outage, verdict, n, pending);
    var answer := Answer(outage, verdict, n, Chunks(pending, MAX_DELETE_PER_REQUEST));
    AnswerTells(outage, verdict, n, pending);
    if pending != [] && answer.Ok? {
      var report := answer.value;
      NoFailureIff(verdict, n, pending, report);
      forall k ensures k in KeysOf(Retryables(report.failed)) <==> RefusedForNow(verdict, n, pending, k) {
        RetryableKeysTell(verdict, n, pending, report, k);
      }
      SomeRetryable(verdict, n, pending, report);
    }
  }

  lemma SomeRetryable(verdict: Verdicts, n: nat, pending: seq<string>, report: DeleteObjectsReport)
    requires forall k :: k in KeysOf(Retryables(report.failed)) <==> RefusedForNow(verdict, n, pending, k)
    ensures KeysOf(Retryables(report.failed)) != [] <==> exists k :: RefusedForNow(verdict, n, pending, k)
    ensures report.failed != [] && KeysOf(Retryables(report.failed)) == [] ==> KeysOf(Others(report.failed)) != []
  {
    var keys := KeysOf(Retryables(report.failed));
    if keys != [] {
      assert keys[0] in keys;
    }
    if report.failed != [] && keys == [] {
      assert report.failed[0] in report.failed;
      assert report.failed[0] in Others(report.failed);
    }
  }

  class DeleteArchiveObjectsCommand {
    var pendingKeys: seq<string>
    // Keys given up as non-retryable while others were kept for a retry.
    ghost var dropped: set<string>

    constructor (objectKeys: seq<string>)
      ensures pendingKeys == objectKeys && dropped == {}
    {
      pendingKeys, dropped := objectKeys, {};
    }

    /**
     * One attempt. Every pending key is deleted, dropped or still pending afterwards;
     * Ok means all of them are deleted, and the pending list never grows.
     */
    method Execute(bucket: Bucket) returns (r: Outcome)
      modifies this, bucket`objects, bucket`requests, bucket`deleted, bucket`log
      ensures Promised(old(pendingKeys), old(bucket.deleted), old(dropped), r, pendingKeys, bucket.deleted, dropped)
      ensures (r, pendingKeys, bucket.requests) ==
        Attempt(bucket.outage, bucket.verdict, old(bucket.requests), old(pendingKeys))
      ensures AttemptTells(bucket.outage, bucket.verdict, old(bucket.requests), old(pendingKeys),
                           r, pendingKeys, bucket.requests)
    {
      AttemptIsTold(bucket.outage, bucket.verdict, bucket.requests, pendingKeys);
      if pendingKeys == [] {
        return Ok(());
      }
      ghost var answer, gone;
      r, answer, gone := Request(bucket);
      JudgedKeepsKeys(old(pendingKeys), answer, old(bucket.deleted), gone, old(dropped));
    }

    // The attempt itself, where there are keys.
    method Request(bucket: Bucket)
      returns (r: Outcome, ghost answer: Result<DeleteObjectsReport, StorageError>, ghost gone: set<string>)
      modifies this, bucket`objects, bucket`requests, bucket`deleted, bucket`log
      ensures answer.Ok? ==> Reports(answer.value, old(pendingKeys)) && gone == ToSet(answer.value.deletedKeys)
      ensures bucket.deleted == old(bucket.deleted) + gone && dropped == old(dropped) + Dropped(answer)
      ensures (r, pendingKeys) == Judged(old(pendingKeys), answer)
      ensures (r, pendingKeys, bucket.requests) ==
        RequestAttempt(bucket.outage, bucket.verdict, old(bucket.requests), old(pendingKeys))
    {
      var report;
      report, gone := bucket.DeleteObjectsWithReport(pendingKeys);
      answer := report;
      r := Judge(report);
    }

    // What S3's answer means for the command.
    method Judge(answer: Result<DeleteObjectsReport, StorageError>) returns (r: Outcome)
      modifies this
      ensures (r, pendingKeys) == Judged(old(pendingKeys), answer)
      ensures dropped == old(dropped) + Dropped(answer)
    {
      if answer.Err? {
        var (kind, category) := ClassifyError(answer.error);
        return Err(CommandExecutionError(kind, category, RequestFailure(answer.error), pendingKeys));
      }
      var report := answer.value;
      if report.failed == [] {
        return Ok(());
      }
      var retryable := KeysOf(Retryables(report.failed));
      var others := KeysOf(Others(report.failed));
      if retryable != [] {
        pendingKeys := retryable;
      }
      if others != [] {
        if retryable != [] {
          dropped := dropped + ToSet(others);
          return Err(CommandExecutionError(Retryable, ServiceUnavailable, MIXED_FAILURE, retryable));
        }
        var details := FormatFailures(Others(report.failed));
        return Err(CommandExecutionError(NonRetryable, InvalidArgument, PERMANENT_FAILURE + details, others));
      }
      if retryable == [] {
        return Ok(());
      }
      r := Err(CommandExecutionError(Retryable, ServiceUnavailable, PARTIAL_FAILURE, retryable));
    }
  }

  // The keys that are given up: the non-retryable ones, when others are kept for a retry.
  ghost function Dropped(answer: Result<DeleteObjectsReport, StorageError>): set<string> {
    if answer.Ok? && KeysOf(Retryables(answer.value.failed)) != []
      then ToSet(KeysOf(Others(answer.value.failed))) else {}
  }

  // Key conservation from one moment to a later one.
  ghost predicate Kept(pending0: seq<string>, deleted0: set<string>, dropped0: set<string>,
                       pending: seq<string>, deleted: set<string>, dropped: set<string>) {
    && deleted0 <= deleted && dropped0 <= dropped <= dropped0 + ToSet(pending0)
    && ToSet(pending0) <= deleted + dropped + ToSet(pending)
    && ToSet(pending) <= ToSet(pending0) && |pending| <= |pending0|
  }

  lemma KeptTwice(p0: seq<string>, a0: set<string>, d0: set<string>, p1: seq<string>, a1: set<string>, d1: set<string>,
                  p2: seq<string>, a2: set<string>, d2: set<string>)
    requires Kept(p0, a0, d0, p1, a1, d1) && Kept(p1, a1, d1, p2, a2, d2)
    ensures Kept(p0, a0, d0, p2, a2, d2)
  {
  }

  // What an attempt promises: conservation, and what its outcome says about the keys.
  ghost predicate Promised(pending0: seq<string>, deleted0: set<string>, dropped0: set<string>, r: Outcome,
                           pending: seq<string>, deleted: set<string>, dropped: set<string>) {
    && Kept(pending0, deleted0, dropped0, pending, deleted, dropped)
    && (r.Ok? ==> ToSet(pending0) <= deleted && dropped == dropped0)
    && (r.Err? && r.error.kind == Retryable ==> r.error.failedKeys == pending)
    && (r.Err? && r.error.kind == NonRetryable ==>
          pending == pending0 && dropped == dropped0 && ToSet(pending) <= deleted + ToSet(r.error.failedKeys))
  }

  lemma JudgedKeepsKeys(pending: seq<string>, answer: Result<DeleteObjectsReport, StorageError>, deleted: set<string>,
                        gone: set<string>, dropped: set<string>)
    requires answer.Ok? ==> Reports(answer.value, pending) && gone == ToSet(answer.value.deletedKeys)
    ensures
      var (r, left) := Judged(pending, answer);
      Promised(pending, deleted, dropped, r, left, deleted + gone, dropped + Dropped(answer))
  {
    if answer.Ok? {
      var failed := answer.value.failed;
      KeysPartition(failed);
      assert ToSet(KeysOf(failed)) <= ToSet(pending) <= gone + ToSet(KeysOf(failed));
    }
  }

  // ---------------------------------------------------------------- the retry loop

  // Durations in seconds; the loop only adds, scales and compares them.
  datatype RetryConfig = RetryConfig(maxRetries: nat, backoff: nat, backoffMultiplier: nat, maxWait: nat)

  const DEFAULT_RETRY := RetryConfig(10, 1, 2, 30)

  class Timer {
    var slept: seq<nat>

    constructor ()
      ensures slept == []
    {
      slept := [];
    }

    method Sleep(duration: nat)
      modifies this
      ensures slept == old(slept) + [duration]
    {
      slept := slept + [duration];
    }
  }

  function NextBackoff(config: RetryConfig, backoff: nat): nat {
    Min(backoff * config.backoffMultiplier, config.maxWait)
  }

  // The k-th sleep, as the loop updates it.
  function Backoff(config: RetryConfig, k: nat): nat {
    if k == 0 then config.backoff else NextBackoff(config, Backoff(config, k - 1))
  }

  function Sleeps(config: RetryConfig, n: nat): seq<nat> {
    seq(n, k requires 0 <= k < n => Backoff(config, k))
  }

  lemma SleepsNext(config: RetryConfig, n: nat)
    ensures Sleeps(config, n + 1) == Sleeps(config, n) + [Backoff(config, n)]
  {
  }

  // `outcomes` is a whole run of the loop: only its last entry may stop it, and a
  // retryable error stops it only after maxRetries retries.
  ghost predicate IsRun(outcomes: seq<Outcome>, maxRetries: nat) {
    && 0 < |outcomes| <= maxRetries + 1
    && (forall i :: 0 <= i < |outcomes| - 1 ==> outcomes[i].Err? && outcomes[i].error.kind == Retryable)
    && var last := outcomes[|outcomes| - 1];
    (last.Err? && last.error.kind == Retryable ==> |outcomes| == maxRetries + 1)
  }

  // Attempts as a function from request number and pending keys.
  type Attempts = (nat, seq<string>) -> (Outcome, seq<string>, nat)

  function AttemptsOn(outage: Outages, verdict: Verdicts): Attempts {
    (n, pending) => Attempt(outage, verdict, n, pending)
  }

  // The whole run of the loop with so many retries left.
  function RunFrom(attempts: Attempts, n: nat, pending: seq<string>, retriesLeft: nat): (outcomes: seq<Outcome>)
    ensures 0 < |outcomes| <= retriesLeft + 1
    decreases retriesLeft
  {
    var (outcome, left, next) := attempts(n, pending);
    if outcome.Ok? || outcome.error.kind == NonRetryable || retriesLeft == 0 then [outcome]
    else [outcome] + RunFrom(attempts, next, left, retriesLeft - 1)
  }

  // `outcomes` came about by consecutive attempts: ps and ns are the pending keys and the
  // request numbers before each of them and after the last.
  ghost predicate Transcript(attempts: Attempts, outcomes: seq<Outcome>, ps: seq<seq<string>>, ns: seq<nat>) {
    && |ps| == |ns| == |outcomes| + 1
    && forall i :: 0 <= i < |outcomes| ==> attempts(ns[i], ps[i]) == (outcomes[i], ps[i + 1], ns[i + 1])
  }

  lemma TranscriptNext(attempts: Attempts, outcomes: seq<Outcome>, ps: seq<seq<string>>, ns: seq<nat>,
                       r: Outcome, pending: seq<string>, next: nat)
    requires Transcript(attempts, outcomes, ps, ns)
    requires attempts(ns[|outcomes|], ps[|outcomes|]) == (r, pending, next)
    ensures Transcript(attempts, outcomes + [r], ps + [pending], ns + [next])
  {
  }

  /** Only one run fits the loop's rules and what S3 answers. */
  lemma {:induction false} TranscriptIsRun(attempts: Attempts, outcomes: seq<Outcome>, ps: seq<seq<string>>,
                                           ns: seq<nat>, maxRetries: nat)
    requires Transcript(attempts, outcomes, ps, ns) && IsRun(outcomes, maxRetries)
    ensures outcomes == RunFrom(attempts, ns[0], ps[0], maxRetries)
    decreases |outcomes|
  {
    assert attempts(ns[0], ps[0]) == (outcomes[0], ps[1], ns[1]);
    if |outcomes| > 1 {
      var rest := outcomes[1..];
      forall i | 0 <= i < |rest|
        ensures attempts(ns[1..][i], ps[1..][i]) == (rest[i], ps[1..][i + 1], ns[1..][i + 1])
      {
        assert attempts(ns[i + 1], ps[i + 1]) == (outcomes[i + 1], ps[i + 2], ns[i + 2]);
      }
      assert forall i :: 0 <= i < |rest| ==> rest[i] == outcomes[i + 1];
      TranscriptIsRun(attempts, rest, ps[1..], ns[1..], maxRetries - 1);
      assert outcomes == [outcomes[0]] + rest;
    }
  }

  /** So two runs from the same start over the same answers are equal, outcome by outcome. */
  lemma RunIsDetermined(attempts: Attempts, a: seq<Outcome>, pa: seq<seq<string>>, na: seq<nat>,
                        b: seq<Outcome>, pb: seq<seq<string>>, nb: seq<nat>, maxRetries: nat)
    requires Transcript(attempts, a, pa, na) && IsRun(a, maxRetries)
    requires Transcript(attempts, b, pb, nb) && IsRun(b, maxRetries)
    requires pa[0] == pb[0] && na[0] == nb[0]
    ensures a == b
  {
    TranscriptIsRun(attempts, a, pa, na, maxRetries);
    TranscriptIsRun(attempts, b, pb, nb, maxRetries);
  }

  /**
   * Runs the command until it succeeds, fails for good or has been retried maxRetries
   * times. `outcomes` are the attempts' answers in order.
   */
  method RunWithRetry(command: DeleteArchiveObjectsCommand, bucket: Bucket, timer: Timer, config: RetryConfig)
    returns (r: Outcome, ghost outcomes: seq<Outcome>)
    modifies command, bucket`objects, bucket`requests, bucket`deleted, bucket`log, timer
    ensures IsRun(outcomes, config.maxRetries) && r == outcomes[|outcomes| - 1]
    ensures outcomes == RunFrom(AttemptsOn(bucket.outage, bucket.verdict), old(bucket.requests),
                                old(command.pendingKeys), config.maxRetries)
    ensures timer.slept == old(timer.slept) + Sleeps(config, |outcomes| - 1)
    ensures Kept(old(command.pendingKeys), old(bucket.deleted), old(command.dropped), command.pendingKeys,
                 bucket.deleted, command.dropped)
    ensures r.Ok? ==> ToSet(old(command.pendingKeys)) <= bucket.deleted + command.dropped
  {
    ghost var ps, ns;
    r, outcomes, ps, ns := RetryLoop(command, bucket, timer, config);
    TranscriptIsRun(AttemptsOn(bucket.outage, bucket.verdict), outcomes, ps, ns, config.maxRetries);
  }

  method RetryLoop(command: DeleteArchiveObjectsCommand, bucket: Bucket, timer: Timer, config: RetryConfig)
    returns (r: Outcome, ghost outcomes: seq<Outcome>, ghost ps: seq<seq<string>>, ghost ns: seq<nat>)
    modifies command, bucket`objects, bucket`requests, bucket`deleted, bucket`log, timer
    ensures IsRun(outcomes, config.maxRetries) && r == outcomes[|outcomes| - 1]
    ensures Transcript(AttemptsOn(bucket.outage, bucket.verdict), outcomes, ps, ns)
    ensures ps[0] == old(command.pendingKeys) && ns[0] == old(bucket.requests)
    ensures timer.slept == old(timer.slept) + Sleeps(config, |outcomes| - 1)
    ensures Kept(old(command.pendingKeys), old(bucket.deleted), old(command.dropped), command.pendingKeys,
                 bucket.deleted, command.dropped)
    ensures r.Ok? ==> ToSet(old(command.pendingKeys)) <= bucket.deleted + command.dropped
  {
    var retries := 0;
    var backoff := config.backoff;
    outcomes, ps, ns := [], [command.pendingKeys], [bucket.requests];
    while true
      invariant retries == |outcomes| <= config.maxRetries
      invariant Transcript(AttemptsOn(bucket.outage, bucket.verdict), outcomes, ps, ns)
      invariant ps[0] == old(command.pendingKeys) && ns[0] == old(bucket.requests)
      invariant ps[retries] == command.pendingKeys && ns[retries] == bucket.requests
      invariant backoff == Backoff(config, retries)
      invariant forall i :: 0 <= i < |outcomes| ==> outcomes[i].Err? && outcomes[i].error.kind == Retryable
      invariant timer.slept == old(timer.slept) + Sleeps(config, retries)
      invariant Kept(old(command.pendingKeys), old(bucket.deleted), old(command.dropped), command.pendingKeys,
                     bucket.deleted, command.dropped)
      decreases config.maxRetries - retries
    {
      ghost var pending, deleted, dropped := command.pendingKeys, bucket.deleted, command.dropped;
      r := ExecuteNext(command, bucket, outcomes, ps, ns);
      KeptTwice(old(command.pendingKeys), old(bucket.deleted), old(command.dropped), pending, deleted, dropped,
                command.pendingKeys, bucket.deleted, command.dropped);
      outcomes, ps, ns := outcomes + [r], ps + [command.pendingKeys], ns + [bucket.requests];
      if r.Ok? {
        return;
      }
      if r.error.kind == NonRetryable {
        return;
      }
      if retries >= config.maxRetries {
        return;
      }
      SleepsNext(config, retries);
      retries := retries + 1;
      timer.Sleep(backoff);
      backoff := NextBackoff(config, backoff);
    }
  }

  // One attempt as the next line of the transcript.
  method ExecuteNext(command: DeleteArchiveObjectsCommand, bucket: Bucket,
                     ghost outcomes: seq<Outcome>, ghost ps: seq<seq<string>>, ghost ns: seq<nat>) returns (r: Outcome)
    requires Transcript(AttemptsOn(bucket.outage, bucket.verdict), outcomes, ps, ns)
    requires ps[|outcomes|] == command.pendingKeys && ns[|outcomes|] == bucket.requests
    modifies command, bucket`objects, bucket`requests, bucket`deleted, bucket`log
    ensures Transcript(AttemptsOn(bucket.outage, bucket.verdict), outcomes + [r], ps + [command.pendingKeys],
                       ns + [bucket.requests])
    ensures Kept(old(command.pendingKeys), old(bucket.deleted), old(command.dropped), command.pendingKeys,
                 bucket.deleted, command.dropped)
    ensures r.Ok? ==> ToSet(old(command.pendingKeys)) <= bucket.deleted && command.dropped == old(command.dropped)
  {
    r := command.Execute(bucket);
    TranscriptNext(AttemptsOn(bucket.outage, bucket.verdict), outcomes, ps, ns, r, command.pendingKeys,
                   bucket.requests);
  }

  function Pow(b: nat, e: nat): nat {
    if e == 0 then 1 else b * Pow(b, e - 1)
  }

  /** After the first sleep the waits are the capped geometric series. */
  lemma {:induction false} BackoffIsCappedPower(config: RetryConfig, k: nat)
    requires config.backoffMultiplier >= 1
    ensures Backoff(config, k) ==
      if k == 0 then config.backoff else Min(config.backoff * Pow(config.backoffMultiplier, k), config.maxWait)
  {
    var b, m := config.backoff, config.backoffMultiplier;
    if k == 0 {
      return;
    }
    if k == 1 {
      assert Backoff(config, 1) == Min(Backoff(config, 0) * m, config.maxWait);
      assert Pow(m, 1) == m * Pow(m, 0) == m;
    } else {
      BackoffIsCappedPower(config, k - 1);
      PowStep(b, m, k);
      CapSurvives(b * Pow(m, k - 1), m, config.maxWait);
    }
  }

  lemma PowStep(b: nat, m: nat, k: nat)
    requires k >= 1
    ensures b * Pow(m, k) == b * Pow(m, k - 1) * m
  {
    var p := Pow(m, k - 1);
    assert b * (m * p) == b * p * m;
  }

  lemma CapSurvives(p: nat, m: nat, w: nat)
    requires m >= 1
    ensures Min(Min(p, w) * m, w) == Min(p * m, w)
  {
    assert p <= p * m && w <= w * m;
  }

  function Total(waits: seq<nat>): nat {
    if waits == [] then 0 else Total(waits[..|waits| - 1]) + waits[|waits| - 1]
  }

  /** A run waits at most the first backoff plus maxWait for each further retry. */
  lemma {:induction false} TotalWaitBound(config: RetryConfig, n: nat)
    ensures n == 0 ==> Total(Sleeps(config, n)) == 0
    ensures n >= 1 ==> Total(Sleeps(config, n)) <= config.backoff + (n - 1) * config.maxWait
  {
    if n >= 1 {
      TotalWaitBound(config, n - 1);
      SleepsGrow(config, n);
      BackoffBound(config, n - 1);
      if n >= 2 {
        assert (n - 1) * config.maxWait == (n - 2) * config.maxWait + config.maxWait;
      }
    }
  }

  lemma SleepsGrow(config: RetryConfig, n: nat)
    requires n >= 1
    ensures Total(Sleeps(config, n)) == Total(Sleeps(config, n - 1)) + Backoff(config, n - 1)
  {
    assert Sleeps(config, n)[..n - 1] == Sleeps(config, n - 1);
  }

  lemma BackoffBound(config: RetryConfig, k: nat)
    ensures k == 0 ==> Backoff(config, k) == config.backoff
    ensures k > 0 ==> Backoff(config, k) <= config.maxWait
  {
  }

  const DEFAULT_RUNNING_TIMEOUT := 300

  /**
   * Under the defaults a run waits 181 seconds at the very worst, and no run waits more:
   * the waits alone stay below the default running timeout.
   */
  lemma DefaultWaits(n: nat)
    requires n <= DEFAULT_RETRY.maxRetries
    ensures Total(Sleeps(DEFAULT_RETRY, n)) <= 181 < DEFAULT_RUNNING_TIMEOUT
    ensures n == DEFAULT_RETRY.maxRetries ==> Total(Sleeps(DEFAULT_RETRY, n)) == 181
  {
    DefaultTail(n);
  }

  lemma {:induction false} DefaultTail(n: nat)
    requires n <= 10
    ensures Backoff(DEFAULT_RETRY, n) == if n < 5 then Pow(2, n) else 30
    ensures Total(Sleeps(DEFAULT_RETRY, n)) == if n <= 5 then Pow(2, n) - 1 else 31 + 30 * (n - 5)
  {
    if n > 0 {
      DefaultTail(n - 1);
      SleepsGrow(DEFAULT_RETRY, n);
      assert Pow(2, 3) == 8 && Pow(2, 4) == 16 && Pow(2, 5) == 32;
    }
  }

  // ---------------------------------------------------------------- the handler

  function CategoryName(category: ErrorCategory): string {
    match category
    case Timeout => "Timeout"
    case Throttled => "Throttled"
    case Network => "Network"
    case ServiceUnavailable => "ServiceUnavailable"
    case AccessDenied => "AccessDenied"
    case InvalidArgument => "InvalidArgument"
    case ResourceNotFound => "ResourceNotFound"
    case Internal => "Internal"
    case Unknown => "Unknown"
  }

  // {:?} of the keys, in which nothing needs escaping.
  function QuotedKeys(keys: seq<string>): string {
    if keys == [] then "" else "\"" + keys[0] + "\"" + if |keys| == 1 then "" else ", " + QuotedKeys(keys[1..])
  }

  // What the row's last_error says.
  function ErrorText(error: CommandExecutionError): string {
    "category=" + CategoryName(error.category) + ", message=" + error.message
    + ", failed_keys=[" + QuotedKeys(error.failedKeys) + "]"
  }

  function OutcomeOf(r: Outcome): Protocol.Outcome {
    match r
    case Ok(_) => Protocol.Succeeded
    case Err(error) =>
      if error.kind == Retryable then Protocol.RetryableError(ErrorText(error))
      else Protocol.NonRetryableError(ErrorText(error))
  }

  // What has become of the task's row: gone after Ok; after an error Pending and due again
  // in five seconds, or Dead for good, with the attempt counted and the error kept.
  ghost predicate RowSettled(before: Table, after: Table, id: int, r: Outcome, now: int) {
    && after.Keys - {id} == before.Keys - {id} && (id in after ==> id in before)
    && (forall other :: other in before && other != id ==> other in after && after[other] == before[other])
    && (id in before ==>
          && (r.Ok? <==> id !in after)
          && (r.Err? && r.error.kind == Retryable <==> id in after && after[id].status == Pending)
          && (r.Err? && r.error.kind == NonRetryable <==> id in after && after[id].status == Dead)
          && (r.Err? && r.error.kind == Retryable ==> WaitsUntil(after[id], now + 5_000_000))
          && (r.Err? ==>
                && after[id].payload == before[id].payload && after[id].attempts == before[id].attempts + 1
                && after[id].lastError == Some(ErrorText(r.error)) && after[id].updatedAt == now))
  }

  lemma FinishSettles(before: Table, id: int, r: Outcome, now: int)
    ensures RowSettled(before, Protocol.FinishRow(before, id, OutcomeOf(r), now), id, r, now)
  {
    if id in before {
      PutBackWaits(before[id], 5, now);
    }
  }

  /**
   * DefaultTaskHandler::handle: runs the task's command, then deletes, requeues or
   * buries its outbox row; an in-memory task leaves the table alone. Meanwhile the clock
   * moves on by the sleeps and by the time the requests take.
   */
  method Handle(task: QueuedTask, pool: Database, bucket: Bucket, timer: Timer, config: RetryConfig, requestTicks: nat)
    returns (r: Outcome, ghost dropped: set<string>)
    modifies pool`outbox, pool`now, bucket`objects, bucket`requests, bucket`deleted, bucket`log, timer
    ensures
      var run := RunFrom(AttemptsOn(bucket.outage, bucket.verdict), old(bucket.requests), task.command.objectKeys,
                         config.maxRetries);
      && r == run[|run| - 1] && timer.slept == old(timer.slept) + Sleeps(config, |run| - 1)
      && pool.now == old(pool.now) + requestTicks + Total(Sleeps(config, |run| - 1)) * TICKS_PER_SECOND
    ensures pool.outbox ==
      if task.outboxId.None? then old(pool.outbox)
      else Protocol.FinishRow(old(pool.outbox), task.outboxId.value, OutcomeOf(r), pool.now)
    ensures task.outboxId.Some? ==> RowSettled(old(pool.outbox), pool.outbox, task.outboxId.value, r, pool.now)
    ensures dropped <= ToSet(task.command.objectKeys)
    ensures r.Ok? ==> ToSet(task.command.objectKeys) <= bucket.deleted + dropped
  {
    var command := new DeleteArchiveObjectsCommand(task.command.objectKeys);
    var before := |timer.slept|;
    ghost var outcomes;
    r, outcomes := RunWithRetry(command, bucket, timer, config);
    Collections.SuffixOfAppended(old(timer.slept), Sleeps(config, |outcomes| - 1));
    pool.now := pool.now + requestTicks + Total(timer.slept[before..]) * TICKS_PER_SECOND;
    dropped := command.dropped;
    if task.outboxId.Some? {
      FinishSettles(pool.outbox, task.outboxId.value, r, pool.now);
      FinishTask(task.outboxId.value, r, pool);
    }
  }

  // The row's fate.
  method FinishTask(id: int, r: Outcome, pool: Database)
    modifies pool`outbox
    ensures pool.outbox == Protocol.FinishRow(old(pool.outbox), id, OutcomeOf(r), pool.now)
  {
    match r {
      case Ok(_) =>
        pool.outbox := DeleteRow(pool.outbox, id);
      case Err(error) =>
        if error.kind == Retryable {
          pool.outbox := RequeueRetryable(pool.outbox, id, ErrorText(error), 5, pool.now);
        } else {
          pool.outbox := MarkDead(pool.outbox, id, ErrorText(error), pool.now);
        }
    }
  }
}
