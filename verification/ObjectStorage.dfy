/**
 * The bucket, and the bulk delete that cuts its keys into requests of at most 1000.
 * S3 answers each request: either it fails as a whole, or every key asked for is
 * reported as deleted or as failed.
 */
module ObjectStorage {
  import opened Wrappers

  datatype SdkError =
    | TimeoutError
    | DispatchFailure
    | ResponseError
    | ServiceError(code: Option<string>)
    | ConstructionFailure
    | OtherSdkError

  // An error of the S3 client, or any other error with its text.
  datatype StorageError = Sdk(error: SdkError) | Plain(message: string)

  datatype DeleteObjectFailure = DeleteObjectFailure(key: string, code: Option<string>, message: Option<string>)

  datatype DeleteObjectsReport = DeleteObjectsReport(deletedKeys: seq<string>, failed: seq<DeleteObjectFailure>)

  // The age filter of a listing, in whole seconds; a zero age lets everything through.
  predicate OldEnough(nowSeconds: int, modifiedSeconds: int, minAge: nat) {
    minAge == 0 || nowSeconds - modifiedSeconds >= minAge
  }

  // S3's word on one key of one request.
  datatype Verdict = Deleted | Refused(code: Option<string>, message: Option<string>)

  datatype CopyFault = NoCopyFault | FailsBefore | FailsAfter

  const MAX_DELETE_PER_REQUEST := 1000

  function ToSet(keys: seq<string>): set<string> {
    set k | k in keys
  }

  function KeysOf(failures: seq<DeleteObjectFailure>): (keys: seq<string>)
    ensures |keys| == |failures|
    ensures forall i :: 0 <= i < |failures| ==> keys[i] == failures[i].key
  {
    seq(|failures|, i requires 0 <= i < |failures| => failures[i].key)
  }

  /** slice::chunks: consecutive pieces of the given size, the last one maybe shorter. */
  function Chunks(keys: seq<string>, size: nat): (chunks: seq<seq<string>>)
    requires size > 0
    ensures forall i :: 0 <= i < |chunks| ==> 0 < |chunks[i]| <= size
    ensures forall i :: 0 <= i < |chunks| - 1 ==> |chunks[i]| == size
    ensures Concat(chunks) == keys
    decreases |keys|
  {
    if keys == [] then []
    else if |keys| <= size then [keys]
    else
      assert keys == keys[..size] + keys[size..];
      [keys[..size]] + Chunks(keys[size..], size)
  }

  function Concat(chunks: seq<seq<string>>): seq<string> {
    if chunks == [] then [] else chunks[0] + Concat(chunks[1..])
  }

  function DeletedIn(keys: seq<string>, verdict: string -> Verdict): (deleted: seq<string>)
    ensures forall k :: k in deleted <==> k in keys && verdict(k) == Deleted
    ensures |deleted| <= |keys|
  {
    if keys == [] then []
    else (if verdict(keys[0]) == Deleted then [keys[0]] else []) + DeletedIn(keys[1..], verdict)
  }

  function RefusedIn(keys: seq<string>, verdict: string -> Verdict): (failed: seq<DeleteObjectFailure>)
    ensures forall f :: f in failed ==>
      f.key in keys && verdict(f.key) == Refused(f.code, f.message)
    ensures forall k :: k in keys && verdict(k).Refused? ==>
      DeleteObjectFailure(k, verdict(k).code, verdict(k).message) in failed
    ensures |failed| <= |keys|
  {
    if keys == [] then []
    else
      var rest := RefusedIn(keys[1..], verdict);
      match verdict(keys[0])
      case Deleted => rest
      case Refused(code, message) => [DeleteObjectFailure(keys[0], code, message)] + rest
  }

  type Outages = nat -> Option<StorageError>
  type Verdicts = nat -> (string -> Verdict)

  function Joined(a: DeleteObjectsReport, b: DeleteObjectsReport): DeleteObjectsReport {
    DeleteObjectsReport(a.deletedKeys + b.deletedKeys, a.failed + b.failed)
  }

  function ReportOn(keys: seq<string>, word: string -> Verdict): DeleteObjectsReport {
    DeleteObjectsReport(DeletedIn(keys, word), RefusedIn(keys, word))
  }

  // What one bulk delete answers when its first request is S3's n-th.
  function Answer(outage: Outages, verdict: Verdicts, n: nat, chunks: seq<seq<string>>)
    : Result<DeleteObjectsReport, StorageError>
    decreases |chunks|
  {
    if chunks == [] then Ok(DeleteObjectsReport([], []))
    else if outage(n).Some? then Err(outage(n).value)
    else Prepended(ReportOn(chunks[0], verdict(n)), Answer(outage, verdict, n + 1, chunks[1..]))
  }

  function Prepended(report: DeleteObjectsReport, rest: Result<DeleteObjectsReport, StorageError>)
    : Result<DeleteObjectsReport, StorageError>
  {
    match rest
    case Err(error) => Err(error)
    case Ok(later) => Ok(Joined(report, later))
  }

  // The requests it makes: all, or those up to the first that fails.
  function RequestsMade(outage: Outages, n: nat, chunks: seq<seq<string>>): nat
    decreases |chunks|
  {
    if chunks == [] then 0
    else if outage(n).Some? then 1
    else 1 + RequestsMade(outage, n + 1, chunks[1..])
  }

  // S3 goes along with every key.
  predicate DeletesAll(outage: Outages, verdict: Verdicts, n: nat, keys: seq<string>) {
    var answer := Answer(outage, verdict, n, Chunks(keys, MAX_DELETE_PER_REQUEST));
    answer.Ok? && answer.value.failed == []
  }

  // ---------------------------------------------------------------- what the answer tells, key by key

  // The request, counted from n, that asks for key number j.
  function RequestFor(n: nat, j: nat): nat {
    n + j / 1000
  }

  // None of these requests fails.
  ghost predicate Healthy(outage: Outages, start: nat, end: nat) {
    forall i :: start <= i < end ==> outage(i).None?
  }

  function RequestsFor(keys: seq<string>): nat {
    (|keys| + 999) / 1000
  }

  function FirstSize(keys: seq<string>): (size: nat)
    ensures size <= |keys|
  {
    if |keys| <= 1000 then |keys| else 1000
  }

  // The list in pieces of 1000, the last one maybe shorter.
  ghost predicate Cuts(keys: seq<string>, chunks: seq<seq<string>>)
    decreases |chunks|
  {
    if keys == [] then chunks == []
    else chunks != [] && chunks[0] == keys[..FirstSize(keys)] && Cuts(keys[FirstSize(keys)..], chunks[1..])
  }

  lemma {:induction false} ChunksCut(keys: seq<string>, size: nat)
    requires size == 1000
    ensures Cuts(keys, Chunks(keys, size))
    decreases |keys|
  {
    if 0 < |keys| <= size {
      assert keys[..|keys|] == keys && keys[|keys|..] == [];
      assert [keys][1..] == [];
    } else if |keys| > size {
      ChunksCut(keys[size..], size);
      assert Chunks(keys, size)[1..] == Chunks(keys[size..], size);
    }
  }

  lemma FirstCount(keys: seq<string>)
    requires keys != []
    ensures RequestsFor(keys) == 1 + RequestsFor(keys[FirstSize(keys)..])
  {
  }

  lemma LaterKey(n: nat, j: nat)
    ensures j < 1000 ==> RequestFor(n, j) == n
    ensures RequestFor(n, j + 1000) == RequestFor(n + 1, j)
  {
  }

  // Some key of the list gets this answer.
  ghost predicate Answered(verdict: Verdicts, n: nat, keys: seq<string>, k: string, word: Verdict) {
    exists j :: 0 <= j < |keys| && keys[j] == k && verdict(RequestFor(n, j))(k) == word
  }

  lemma AnsweredFirstOrLater(verdict: Verdicts, n: nat, keys: seq<string>, k: string, word: Verdict)
    requires keys != []
    ensures
      var size := FirstSize(keys);
      Answered(verdict, n, keys, k, word) <==>
        (k in keys[..size] && verdict(n)(k) == word) || Answered(verdict, n + 1, keys[size..], k, word)
  {
    var size := FirstSize(keys);
    if j :| 0 <= j < |keys| && keys[j] == k && verdict(RequestFor(n, j))(k) == word {
      LaterKey(n, j);
      if j < size {
        assert keys[..size][j] == k;
      } else {
        LaterKey(n, j - 1000);
        assert keys[size..][j - size] == k;
      }
    }
    if j :| 0 <= j < size && keys[..size][j] == k && verdict(n)(k) == word {
      LaterKey(n, j);
      assert keys[j] == k;
    }
    if j :| 0 <= j < |keys[size..]| && keys[size..][j] == k && verdict(RequestFor(n + 1, j))(k) == word {
      LaterKey(n, j);
      assert keys[j + size] == k;
    }
  }

  // A report on these keys, in terms of S3's verdicts.
  ghost predicate ReportTells(verdict: Verdicts, n: nat, keys: seq<string>, report: DeleteObjectsReport) {
    && (forall k :: k in report.deletedKeys <==> Answered(verdict, n, keys, k, Deleted))
    && (forall f :: f in report.failed <==> Answered(verdict, n, keys, f.key, Refused(f.code, f.message)))
  }

  lemma ReportGrows(verdict: Verdicts, n: nat, keys: seq<string>, later: DeleteObjectsReport)
    requires keys != []
    requires
      var size := FirstSize(keys);
      ReportTells(verdict, n + 1, keys[size..], later)
    ensures
      var size := FirstSize(keys);
      ReportTells(verdict, n, keys, Joined(ReportOn(keys[..size], verdict(n)), later))
  {
    var size := FirstSize(keys);
    var report := Joined(ReportOn(keys[..size], verdict(n)), later);
    forall k ensures k in report.deletedKeys <==> Answered(verdict, n, keys, k, Deleted) {
      AnsweredFirstOrLater(verdict, n, keys, k, Deleted);
    }
    forall f ensures f in report.failed <==> Answered(verdict, n, keys, f.key, Refused(f.code, f.message)) {
      AnsweredFirstOrLater(verdict, n, keys, f.key, Refused(f.code, f.message));
    }
  }

  /**
   * A bulk delete answers Ok exactly when none of its requests fails, and then reports of
   * each key what S3 says of it in the request that asks for it. Otherwise the first
   * request that fails gives the error, and is the last one made.
   */
  // What a bulk delete's answer and number of requests tell.
  ghost predicate Tells(outage: Outages, verdict: Verdicts, n: nat, keys: seq<string>,
                        answer: Result<DeleteObjectsReport, StorageError>, made: nat) {
    match answer
    case Ok(report) =>
      && Healthy(outage, n, n + RequestsFor(keys)) && made == RequestsFor(keys)
      && ReportTells(verdict, n, keys, report)
    case Err(error) =>
      && 0 < made <= RequestsFor(keys) && Healthy(outage, n, n + made - 1)
      && outage(n + made - 1) == Some(error)
  }

  lemma OutageTells(outage: Outages, verdict: Verdicts, n: nat, keys: seq<string>)
    requires keys != [] && outage(n).Some?
    ensures Tells(outage, verdict, n, keys, Err(outage(n).value), 1)
  {
  }

  lemma TellsNext(outage: Outages, verdict: Verdicts, n: nat, keys: seq<string>,
                  later: Result<DeleteObjectsReport, StorageError>, made: nat)
    requires keys != [] && outage(n).None?
    requires Tells(outage, verdict, n + 1, keys[FirstSize(keys)..], later, made)
    ensures Tells(outage, verdict, n, keys, Prepended(ReportOn(keys[..FirstSize(keys)], verdict(n)), later), 1 + made)
  {
    FirstCount(keys);
    if later.Ok? {
      HealthyFirst(outage, n, n + RequestsFor(keys));
      ReportGrows(verdict, n, keys, later.value);
    } else {
      HealthyFirst(outage, n, n + made);
    }
  }

  lemma HealthyFirst(outage: Outages, start: nat, end: nat)
    requires outage(start).None? && Healthy(outage, start + 1, end)
    ensures Healthy(outage, start, end)
  {
  }

  lemma {:induction false} CutAnswerTells(outage: Outages, verdict: Verdicts, n: nat, keys: seq<string>,
                                          chunks: seq<seq<string>>)
    requires Cuts(keys, chunks)
    ensures Tells(outage, verdict, n, keys, Answer(outage, verdict, n, chunks), RequestsMade(outage, n, chunks))
    decreases |chunks|
  {
    if keys != [] {
      assert chunks == [chunks[0]] + chunks[1..];
      FirstThenRest(outage, verdict, n, chunks[0], chunks[1..]);
      if outage(n).Some? {
        OutageTells(outage, verdict, n, keys);
      } else {
        CutAnswerTells(outage, verdict, n + 1, keys[FirstSize(keys)..], chunks[1..]);
        TellsNext(outage, verdict, n, keys, Answer(outage, verdict, n + 1, chunks[1..]),
                  RequestsMade(outage, n + 1, chunks[1..]));
      }
    }
  }

  /**
   * A bulk delete answers Ok exactly when none of its requests fails, and then reports of
   * each key what S3 says of it in the request that asks for it. Otherwise the first
   * request that fails gives the error, and is the last one made.
   */
  lemma AnswerTells(outage: Outages, verdict: Verdicts, n: nat, keys: seq<string>)
    ensures
      var chunks := Chunks(keys, MAX_DELETE_PER_REQUEST);
      var answer, made := Answer(outage, verdict, n, chunks), RequestsMade(outage, n, chunks);
      && Tells(outage, verdict, n, keys, answer, made)
      && (answer.Ok? <==> Healthy(outage, n, n + RequestsFor(keys)))
  {
    ChunksCut(keys, MAX_DELETE_PER_REQUEST);
    CutAnswerTells(outage, verdict, n, keys, Chunks(keys, MAX_DELETE_PER_REQUEST));
  }

  /** S3 deletes every key exactly when no request fails and each key's verdict is Deleted. */
  lemma DeletesAllIff(outage: Outages, verdict: Verdicts, n: nat, keys: seq<string>)
    ensures DeletesAll(outage, verdict, n, keys) <==>
      && Healthy(outage, n, n + RequestsFor(keys))
      && forall j :: 0 <= j < |keys| ==> verdict(RequestFor(n, j))(keys[j]) == Deleted
  {
    var answer := Answer(outage, verdict, n, Chunks(keys, MAX_DELETE_PER_REQUEST));
    AnswerTells(outage, verdict, n, keys);
    if answer.Ok? {
      NoFailureIff(verdict, n, keys, answer.value);
    }
  }

  lemma NoFailureIff(verdict: Verdicts, n: nat, keys: seq<string>, report: DeleteObjectsReport)
    requires ReportTells(verdict, n, keys, report)
    ensures report.failed == [] <==> forall j :: 0 <= j < |keys| ==> verdict(RequestFor(n, j))(keys[j]) == Deleted
  {
    if report.failed != [] {
      var f := report.failed[0];
      assert f in report.failed && Answered(verdict, n, keys, f.key, Refused(f.code, f.message));
    }
    if j :| 0 <= j < |keys| && verdict(RequestFor(n, j))(keys[j]) != Deleted {
      var word := verdict(RequestFor(n, j))(keys[j]);
      assert Answered(verdict, n, keys, keys[j], Refused(word.code, word.message));
      assert DeleteObjectFailure(keys[j], word.code, word.message) in report.failed;
    }
  }

  lemma FirstThenRest(outage: Outages, verdict: Verdicts, n: nat, first: seq<string>, rest: seq<seq<string>>)
    ensures Answer(outage, verdict, n, [first] + rest) ==
      if outage(n).Some? then Err(outage(n).value)
      else Prepended(ReportOn(first, verdict(n)), Answer(outage, verdict, n + 1, rest))
    ensures RequestsMade(outage, n, [first] + rest) ==
      if outage(n).Some? then 1 else 1 + RequestsMade(outage, n + 1, rest)
  {
    assert ([first] + rest)[1..] == rest;
  }

  lemma PrependedTwice(a: DeleteObjectsReport, b: DeleteObjectsReport, rest: Result<DeleteObjectsReport, StorageError>)
    ensures Prepended(a, Prepended(b, rest)) == Prepended(Joined(a, b), rest)
  {
    if rest.Ok? {
      assert a.deletedKeys + (b.deletedKeys + rest.value.deletedKeys) ==
        (a.deletedKeys + b.deletedKeys) + rest.value.deletedKeys;
      assert a.failed + (b.failed + rest.value.failed) == (a.failed + b.failed) + rest.value.failed;
    }
  }

  lemma AnswerNext(outage: Outages, verdict: Verdicts, n: nat, chunks: seq<seq<string>>, i: nat)
    requires i < |chunks|
    ensures outage(n).Some? ==>
      Answer(outage, verdict, n, chunks[i..]) == Err(outage(n).value) && RequestsMade(outage, n, chunks[i..]) == 1
    ensures outage(n).None? ==>
      && Answer(outage, verdict, n, chunks[i..]) ==
           Prepended(ReportOn(chunks[i], verdict(n)), Answer(outage, verdict, n + 1, chunks[i + 1..]))
      && RequestsMade(outage, n, chunks[i..]) == 1 + RequestsMade(outage, n + 1, chunks[i + 1..])
  {
    assert chunks[i..][1..] == chunks[i + 1..];
  }

  lemma InKeysOf(failures: seq<DeleteObjectFailure>)
    ensures forall k :: k in KeysOf(failures) <==> exists f :: f in failures && f.key == k
  {
    forall i | 0 <= i < |failures| ensures failures[i] in failures && failures[i].key == KeysOf(failures)[i] {}
    forall f | f in failures ensures f.key in KeysOf(failures) {
      var i :| 0 <= i < |failures| && failures[i] == f;
      assert KeysOf(failures)[i] == f.key;
    }
  }

  class Bucket {
    // How S3 will answer: request number -> outage of that request, and per key its verdict.
    const outage: Outages
    const verdict: Verdicts

    var objects: map<string, int>
    var requests: nat
    ghost var deleted: set<string>
    ghost var log: seq<seq<string>>

    constructor (outage: Outages, verdict: Verdicts, objects: map<string, int>)
      ensures this.outage == outage && this.verdict == verdict && this.objects == objects
      ensures requests == 0 && deleted == {} && log == []
    {
      this.outage, this.verdict, this.objects := outage, verdict, objects;
      requests, deleted, log := 0, {}, [];
    }

    // CopyObject within the bucket. A copy may fail before or after it took effect.
    method CopyObject(dest: string, now: int, fault: CopyFault) returns (ok: bool)
      modifies this`objects
      ensures ok <==> fault == NoCopyFault
      ensures objects == if fault == FailsBefore then old(objects) else old(objects)[dest := now]
    {
      if fault != FailsBefore {
        objects := objects[dest := now];
      }
      ok := fault == NoCopyFault;
    }

    // One DeleteObjects request.
    method DeleteRequest(keys: seq<string>) returns (answer: Result<DeleteObjectsReport, StorageError>)
      modifies this`objects, this`requests, this`deleted, this`log
      ensures requests == old(requests) + 1
      ensures answer == if outage(old(requests)).Some?
        then Err(outage(old(requests)).value) else Ok(ReportOn(keys, verdict(old(requests))))
      ensures answer.Err? ==> objects == old(objects) && deleted == old(deleted) && log == old(log)
      ensures answer.Ok? ==>
        && log == old(log) + [keys]
        && Reports(answer.value, keys)
        && deleted == old(deleted) + ToSet(answer.value.deletedKeys)
        && objects == old(objects) - ToSet(answer.value.deletedKeys)
    {
      requests := requests + 1;
      match outage(requests - 1) {
        case Some(error) =>
          answer := Err(error);
        case None =>
          var word := verdict(requests - 1);
          var gone := DeletedIn(keys, word);
          var refused := RefusedIn(keys, word);
          InKeysOf(refused);
          answer := Ok(DeleteObjectsReport(gone, refused));
          objects := objects - ToSet(gone);
          deleted := deleted + ToSet(gone);
          log := log + [keys];
      }
    }

    /**
     * The bulk delete. Ok reports every key as deleted or failed, after requests that
     * cut the list exactly; a request that fails as a whole ends the call, and what
     * earlier requests deleted stays deleted.
     */
    method DeleteObjectsWithReport(keys: seq<string>)
      returns (result: Result<DeleteObjectsReport, StorageError>, ghost gone: set<string>)
      modifies this`objects, this`requests, this`deleted, this`log
      ensures gone <= ToSet(keys)
      ensures deleted == old(deleted) + gone && objects == old(objects) - gone
      ensures result.Ok? ==>
        && log == old(log) + Chunks(keys, MAX_DELETE_PER_REQUEST)
        && Reports(result.value, keys)
        && gone == ToSet(result.value.deletedKeys)
      ensures result == Answer(outage, verdict, old(requests), Chunks(keys, MAX_DELETE_PER_REQUEST))
      ensures requests == old(requests) + RequestsMade(outage, old(requests), Chunks(keys, MAX_DELETE_PER_REQUEST))
    {
      gone := {};
      var report := DeleteObjectsReport([], []);
      if keys == [] {
        return Ok(report), {};
      }
      var chunks := Chunks(keys, MAX_DELETE_PER_REQUEST);
      ghost var start := Snapshot(objects, deleted, log, requests);
      var i := 0;
      ProgressStart(outage, verdict, chunks, start);
      while i < |chunks|
        invariant Progress(outage, verdict, chunks, i, start, Snapshot(objects, deleted, log, requests), report, gone)
        decreases |chunks| - i
      {
        ghost var here := Snapshot(objects, deleted, log, requests);
        var answer := DeleteRequest(chunks[i]);
        if answer.Err? {
          ProgressStops(outage, verdict, chunks, i, start, here, report, gone);
          return Err(answer.error), gone;
        }
        ProgressNext(outage, verdict, chunks, i, start, here, report, gone);
        report := Joined(report, answer.value);
        ghost var more := ToSet(answer.value.deletedKeys);
        gone := gone + more;
        assert Snapshot(objects, deleted, log, requests) ==
          Snapshot(here.objects - more, here.deleted + more, here.log + [chunks[i]], here.requests + 1);
        i := i + 1;
      }
      ProgressEnds(outage, verdict, chunks, i, start, Snapshot(objects, deleted, log, requests), report, gone);
      result := Ok(report);
    }

    /** delete_objects: Ok exactly when S3 deletes every key. */
    method DeleteObjects(keys: seq<string>) returns (ok: bool, ghost gone: set<string>)
      modifies this`objects, this`requests, this`deleted, this`log
      ensures gone <= ToSet(keys)
      ensures deleted == old(deleted) + gone && objects == old(objects) - gone
      ensures ok <==> DeletesAll(outage, verdict, old(requests), keys)
      ensures ok ==> gone == ToSet(keys) && log == old(log) + Chunks(keys, MAX_DELETE_PER_REQUEST)
    {
      var result;
      result, gone := DeleteObjectsWithReport(keys);
      ok := result.Ok? && result.value.failed == [];
    }
  }

  // S3's contract: each key asked for is reported as deleted or as failed, and no other.
  ghost predicate Reports(report: DeleteObjectsReport, keys: seq<string>) {
    && (forall k :: k in keys <==> k in report.deletedKeys || k in KeysOf(report.failed))
    && |report.failed| <= |keys|
  }

  lemma ReportsJoin(a: DeleteObjectsReport, ks: seq<string>, b: DeleteObjectsReport, ls: seq<string>)
    requires Reports(a, ks) && Reports(b, ls)
    ensures Reports(Joined(a, b), ks + ls)
    ensures ToSet(a.deletedKeys + b.deletedKeys) == ToSet(a.deletedKeys) + ToSet(b.deletedKeys)
    ensures ToSet(b.deletedKeys) <= ToSet(ls)
  {
    assert KeysOf(a.failed + b.failed) == KeysOf(a.failed) + KeysOf(b.failed);
  }

  lemma PrependNothing(rest: Result<DeleteObjectsReport, StorageError>)
    ensures Prepended(DeleteObjectsReport([], []), rest) == rest
  {
    if rest.Ok? {
      assert [] + rest.value.deletedKeys == rest.value.deletedKeys && [] + rest.value.failed == rest.value.failed;
    }
  }

  lemma AppendNothing(report: DeleteObjectsReport)
    ensures Joined(report, DeleteObjectsReport([], [])) == report
  {
    assert report.deletedKeys + [] == report.deletedKeys && report.failed + [] == report.failed;
  }

  datatype Snapshot = Snapshot(objects: map<string, int>, deleted: set<string>, log: seq<seq<string>>, requests: nat)

  // Where a bulk delete is after its first i requests, none of which failed.
  ghost predicate Progress(outage: Outages, verdict: Verdicts, chunks: seq<seq<string>>, i: nat, start: Snapshot,
                           here: Snapshot, report: DeleteObjectsReport, gone: set<string>) {
    && i <= |chunks| && here.requests == start.requests + i && here.log == start.log + chunks[..i]
    && Reports(report, Concat(chunks[..i])) && gone == ToSet(report.deletedKeys) && gone <= ToSet(Concat(chunks))
    && here.deleted == start.deleted + gone && here.objects == start.objects - gone
    && Prepended(report, Answer(outage, verdict, here.requests, chunks[i..])) ==
       Answer(outage, verdict, start.requests, chunks)
    && i + RequestsMade(outage, here.requests, chunks[i..]) == RequestsMade(outage, start.requests, chunks)
  }

  lemma ProgressStart(outage: Outages, verdict: Verdicts, chunks: seq<seq<string>>, start: Snapshot)
    ensures Progress(outage, verdict, chunks, 0, start, start, DeleteObjectsReport([], []), {})
  {
    assert chunks[..0] == [] && chunks[0..] == chunks;
    PrependNothing(Answer(outage, verdict, start.requests, chunks));
  }

  lemma ProgressNext(outage: Outages, verdict: Verdicts, chunks: seq<seq<string>>, i: nat, start: Snapshot,
                     here: Snapshot, report: DeleteObjectsReport, gone: set<string>)
    requires Progress(outage, verdict, chunks, i, start, here, report, gone) && i < |chunks|
      && outage(here.requests).None?
    requires Reports(ReportOn(chunks[i], verdict(here.requests)), chunks[i])
    ensures
      var answer := ReportOn(chunks[i], verdict(here.requests));
      var more := ToSet(answer.deletedKeys);
      Progress(outage, verdict, chunks, i + 1, start,
        Snapshot(here.objects - more, here.deleted + more, here.log + [chunks[i]], here.requests + 1),
        Joined(report, answer), gone + more)
  {
    var answer := ReportOn(chunks[i], verdict(here.requests));
    ConcatGrow(chunks, i);
    AnswerNext(outage, verdict, here.requests, chunks, i);
    PrependedTwice(report, answer, Answer(outage, verdict, here.requests + 1, chunks[i + 1..]));
    ReportsJoin(report, Concat(chunks[..i]), answer, chunks[i]);
    GoneJoin(start.objects, start.deleted, gone, ToSet(answer.deletedKeys));
    LogNext(start.log, chunks, i);
  }

  lemma LogNext(log: seq<seq<string>>, chunks: seq<seq<string>>, i: nat)
    requires i < |chunks|
    ensures chunks[..i + 1] == chunks[..i] + [chunks[i]]
    ensures log + chunks[..i + 1] == log + chunks[..i] + [chunks[i]]
  {
  }

  lemma ProgressStops(outage: Outages, verdict: Verdicts, chunks: seq<seq<string>>, i: nat, start: Snapshot,
                      here: Snapshot, report: DeleteObjectsReport, gone: set<string>)
    requires Progress(outage, verdict, chunks, i, start, here, report, gone) && i < |chunks|
      && outage(here.requests).Some?
    ensures Answer(outage, verdict, start.requests, chunks) == Err(outage(here.requests).value)
    ensures RequestsMade(outage, start.requests, chunks) == i + 1
  {
    AnswerNext(outage, verdict, here.requests, chunks, i);
  }

  lemma ProgressEnds(outage: Outages, verdict: Verdicts, chunks: seq<seq<string>>, i: nat, start: Snapshot,
                     here: Snapshot, report: DeleteObjectsReport, gone: set<string>)
    requires Progress(outage, verdict, chunks, i, start, here, report, gone) && i == |chunks|
    ensures Answer(outage, verdict, start.requests, chunks) == Ok(report)
    ensures RequestsMade(outage, start.requests, chunks) == i
    ensures here.log == start.log + chunks && Reports(report, Concat(chunks))
  {
    assert chunks[..i] == chunks && chunks[i..] == [];
    AppendNothing(report);
  }

  lemma GoneJoin(objects: map<string, int>, deleted: set<string>, gone: set<string>, more: set<string>)
    ensures (objects - gone) - more == objects - (gone + more)
    ensures (deleted + gone) + more == deleted + (gone + more)
  {
  }

  lemma {:induction false} ConcatSplit(chunks: seq<seq<string>>, i: nat)
    requires i <= |chunks|
    ensures Concat(chunks) == Concat(chunks[..i]) + Concat(chunks[i..])
  {
    if i == 0 {
      assert chunks[..0] == [] && chunks[0..] == chunks;
    } else {
      ConcatSplit(chunks[1..], i - 1);
      assert chunks[..i][1..] == chunks[1..][..i - 1];
      assert chunks[i..] == chunks[1..][i - 1..];
    }
  }

  lemma ConcatGrow(chunks: seq<seq<string>>, i: nat)
    requires i < |chunks|
    ensures Concat(chunks[..i + 1]) == Concat(chunks[..i]) + chunks[i]
    ensures ToSet(chunks[i]) <= ToSet(Concat(chunks))
  {
    var head := chunks[..i + 1];
    ConcatSplit(head, i);
    assert head[..i] == chunks[..i] && head[i..] == [chunks[i]];
    ConcatOne(chunks[i]);
    ConcatSplit(chunks, i + 1);
    InConcat(Concat(chunks[..i]), chunks[i], Concat(chunks[i + 1..]));
  }

  lemma ConcatOne(chunk: seq<string>)
    ensures Concat([chunk]) == chunk
  {
    assert [chunk][1..] == [] && chunk + [] == chunk;
  }

  lemma InConcat(a: seq<string>, b: seq<string>, c: seq<string>)
    ensures ToSet(b) <= ToSet(a + b + c)
  {
  }
}
