/** `SCSBApiHelper.handlePostingRecords`: post the ReCAP hold requests to SCSB one
    at a time (`async.mapSeries`), report failures and EDD successes to the
    HoldRequestResult stream, and stop the whole batch on the first fatal error.

    The SCSB client's answer for the i-th record and the stream client's answer
    for the i-th record's write are oracle inputs. The stream's optional
    parameters default to `defaults`; see `ResultStream.PostRecordToStreamAsWritten`
    for what the shipped default does instead. */
module ScsbPosting {
  import opened Wrappers
  import Js
  import opened Records
  import opened ConsumerErrors
  import opened ResultStream
  import opened ScsbApi

  /** A rejection of `addRequestItem`: a falsy rejection value, or an error whose
      `statusCode` may be absent. */
  datatype ScsbFailure = FalsyRejection | Failure(statusCode: Option<int>)

  datatype ScsbAnswer = Resolved(response: ScsbResponse) | Rejected(failure: ScsbFailure)

  /** A failure the loop continues after: a falsy rejection or a 404. */
  predicate Tolerated(f: ScsbFailure) {
    f.FalsyRejection? || f.statusCode == Some(404)
  }

  /** The SCSB client reported success (`result.success === true`). */
  predicate Succeeded(a: ScsbAnswer) {
    a.Resolved? && a.response.success == Some(true)
  }

  predicate IsEdd(a: ScsbAnswer) {
    Succeeded(a) && a.response.requestType == "EDD"
  }

  const ResultStreamErrorType := "hold-request-result-stream-error"
  const ScsbApiErrorType := "scsb-api-error"
  const SuccessFalseErrorType := "scsb-api-response-success-false"

  const PostingFunctionName := "handlePostingRecordsToSCSBApi"
  const NotAnArrayMessage := "an array is required for the records parameter; object, string, null or undefined types are forbidden"
  const EmptyArrayMessage := "the records array is empty, this may occur if records were filtered out once posted to the HoldRequestResult stream; cannot process POST requests to the SCSB API for empty records"
  const NoBaseUrlMessage := "the SCSB API base url parameter is not defined; unable to instantiate SCSB Rest Client"
  const NoKeyMessage := "the SCSB API key parameter is not defined; unable to instantiate SCSB Rest Client"
  const SuccessFalseMessage := "the SCSB API returned a false success flag for hold request record: "
  const ScsbErrorMessage := "the SCSB API responded with an error while processing hold request record: "
  const ScsbApiErrorMessage := "the SCSB API responded with an error"
  const EddStreamErrorMessage := "unable to post failed EDD hold request record ("
  const StreamErrorMessage := "unable to post failed hold request record ("
  const StreamErrorMessageEnd := ") to results stream, received error from HoldRequestResult stream; exiting promise chain due to fatal error"

  /** The outcome reported for each kind of answer (`obj` of `postRecordToStream`). */
  function EddInput(item: HoldRequest): PostInput {
    PostInput(item.id, item.jobId, "", "")
  }

  function SuccessFalseInput(item: HoldRequest, res: ScsbResponse): PostInput {
    PostInput(item.id, item.jobId, SuccessFalseErrorType,
      SuccessFalseMessage + item.id + "; " + res.screenMessage.GetOr("undefined"))
  }

  function ScsbErrorInput(item: HoldRequest): PostInput {
    PostInput(item.id, item.jobId, ScsbApiErrorType,
      ScsbErrorMessage + item.id)
  }

  /** `err.response.status`, or nothing: a validation rejection has no response. */
  function WriteFailureStatus(f: PostFailure): int {
    match f
    case Invalid(_) => 0
    case TransportFailed(status) => status
  }

  /** The fatal error after an EDD or success-false outcome could not be written. */
  function StreamErrorWithStatus(item: HoldRequest, f: PostFailure): (e: ConsumerError)
    ensures e.errorType == ResultStreamErrorType
    ensures e.functionName == Some("postRecordToStream")
    ensures e.errorStatus.Some? <==> WriteFailureStatus(f) != 0
    ensures e.errorStatus.Some? ==> e.errorStatus.value == WriteFailureStatus(f)
  {
    Make(ResultStreamErrorType,
      EddStreamErrorMessage + item.id + StreamErrorMessageEnd,
      WriteFailureStatus(f), "postRecordToStream", Some("result stream error"))
  }

  /** The fatal error after an SCSB-error outcome could not be written; it carries
      no status. */
  function StreamErrorAfterScsbError(item: HoldRequest): (e: ConsumerError)
    ensures e.errorType == ResultStreamErrorType && e.errorStatus.None?
  {
    Make(ResultStreamErrorType,
      StreamErrorMessage + item.id + StreamErrorMessageEnd,
      0, "postRecordToStream", Some("result stream error"))
  }

  /** The fatal error for an SCSB rejection other than 404. */
  function ScsbApiError(f: ScsbFailure): (e: ConsumerError)
    requires f.Failure?
    ensures e.errorType == ScsbApiErrorType
    ensures e.errorStatus.Some? <==> f.statusCode.Some? && f.statusCode.value != 0
    ensures e.errorStatus.Some? ==> e.errorStatus == f.statusCode
  {
    Make(ScsbApiErrorType, ScsbApiErrorMessage,
      f.statusCode.GetOr(0), "postRecordToStream", Some("SCSB API error response"))
  }

  /** One record's processing: the request model posted to SCSB, the record as
      it leaves the step, the outcomes the stream accepted, and the error that
      stops the batch, if any. */
  datatype Step = Step(request: ScsbModel, item: HoldRequest, written: seq<OutcomeRecord>, abort: Option<ConsumerError>)

  function Post(obj: PostInput, defaults: StreamDefaults, answer: WriteAnswer): Result<Posted, PostFailure> {
    PostRecordToStream(obj, Js.Omitted, Js.Omitted, Js.Omitted, defaults, answer)
  }

  /** The outcome the callback reports to the result stream for an answer: an
      EDD success, a `success: false` response and a rejection each report one;
      a non-EDD success reports nothing. */
  function Outcome(item: HoldRequest, answer: ScsbAnswer): Option<PostInput> {
    match answer
    case Resolved(res) =>
      if res.success == Some(true) then
        if res.requestType == "EDD" then Some(EddInput(item)) else None
      else Some(SuccessFalseInput(item, res))
    case Rejected(_) => Some(ScsbErrorInput(item))
  }

  /** The record as the callback leaves it: a resolved answer is attached as
      `scsbResponse`, a rejection leaves it unchanged. */
  function Kept(item: HoldRequest, answer: ScsbAnswer): (r: HoldRequest)
    ensures r.id == item.id && r.jobId == item.jobId
    ensures answer.Resolved? ==> r.scsbResponse == Some(answer.response)
    ensures answer.Rejected? ==> r == item
    ensures r.(scsbResponse := item.scsbResponse) == item
  {
    if answer.Resolved? then item.(scsbResponse := Some(answer.response)) else item
  }

  /** What the callback does once its write to the stream has settled. */
  function AfterWrite(request: ScsbModel, item: HoldRequest, answer: ScsbAnswer,
                      posted: Result<Posted, PostFailure>): Step {
    match posted
    case Ok(p) =>
      Step(request, Kept(item, answer), [p.record],
           if answer.Rejected? && !Tolerated(answer.failure) then Some(ScsbApiError(answer.failure)) else None)
    case Err(f) =>
      Step(request, Kept(item, answer), [],
           Some(if answer.Resolved? then StreamErrorWithStatus(item, f) else StreamErrorAfterScsbError(item)))
  }

  /** The `mapSeries` callback for one record, given the SCSB client's answer
      and the stream's answer to the write it makes, if it makes one. A write
      that fails ends the batch with a result-stream error (with the stream's
      status after a resolved answer, without one after a rejection); after a
      rejection that is written, a failure other than 404 ends the batch with
      an SCSB API error. */
  function PostStep(item: HoldRequest, answer: ScsbAnswer, write: WriteAnswer,
                    defaults: StreamDefaults, locations: map<string, string>): Step
    requires !UnknownPickupLocation(item, locations)
  {
    var request := GenerateScsbModel(item, locations).value;
    match Outcome(item, answer)
    case None => Step(request, Kept(item, answer), [], None)
    case Some(obj) => AfterWrite(request, item, answer, Post(obj, defaults, write))
  }

  /** Whether the callback for a record ends the batch: it has an outcome to
      report and either the write fails or the answer is a rejection other
      than a falsy one or a 404. */
  predicate Fatal(item: HoldRequest, answer: ScsbAnswer, write: WriteAnswer, defaults: StreamDefaults) {
    && Outcome(item, answer).Some?
    && (Post(Outcome(item, answer).value, defaults, write).Err? || (answer.Rejected? && !Tolerated(answer.failure)))
  }

  /** The step stops the batch exactly when the record is fatal; it always
      posts the record's model and keeps the record as `Kept` says. */
  lemma StepAbortIffFatal(item: HoldRequest, answer: ScsbAnswer, write: WriteAnswer,
                          defaults: StreamDefaults, locations: map<string, string>)
    requires !UnknownPickupLocation(item, locations)
    ensures var s := PostStep(item, answer, write, defaults, locations);
      && (s.abort.Some? <==> Fatal(item, answer, write, defaults))
      && s.item == Kept(item, answer)
      && s.request == GenerateScsbModel(item, locations).value
      && (Outcome(item, answer).None? ==> s.written == [])
      && |s.written| <= 1
  {
  }

  /** Each kind of SCSB answer decides whether an outcome is written, whether
      the record stays, and whether the batch stops: a non-EDD success writes
      nothing; an EDD success writes one success outcome; `success: false` and a
      rejection each write one failure outcome; a failed write always stops the
      batch with a result-stream error, which takes precedence over an SCSB
      error; a rejection that is not a 404 stops the batch once its outcome is
      written. Every outcome written is about the record. */
  lemma PostStepOutcomes(item: HoldRequest, answer: ScsbAnswer, write: WriteAnswer,
                         defaults: StreamDefaults, locations: map<string, string>)
    requires !UnknownPickupLocation(item, locations)
    ensures var s := PostStep(item, answer, write, defaults, locations);
      Succeeded(answer) && !IsEdd(answer) ==> s.written == [] && s.abort.None?
    ensures var s := PostStep(item, answer, write, defaults, locations);
      IsEdd(answer) ==>
      (match Post(EddInput(item), defaults, write)
       case Ok(p) => s.written == [p.record] && s.abort.None? && p.record.success && p.record.error.None?
       case Err(f) => s.written == [] && s.abort == Some(StreamErrorWithStatus(item, f)))
    ensures var s := PostStep(item, answer, write, defaults, locations);
      answer.Resolved? && !Succeeded(answer) ==>
      (match Post(SuccessFalseInput(item, answer.response), defaults, write)
       case Ok(p) => s.written == [p.record] && s.abort.None? && !p.record.success
       case Err(f) => s.written == [] && s.abort == Some(StreamErrorWithStatus(item, f)))
    ensures var s := PostStep(item, answer, write, defaults, locations);
      answer.Rejected? ==>
      (match Post(ScsbErrorInput(item), defaults, write)
       case Ok(p) => s.written == [p.record] && !p.record.success &&
                      (s.abort.Some? <==> !Tolerated(answer.failure)) &&
                      (s.abort.Some? ==> s.abort.value == ScsbApiError(answer.failure))
       case Err(f) => s.written == [] && s.abort == Some(StreamErrorAfterScsbError(item)))
    ensures forall o :: o in PostStep(item, answer, write, defaults, locations).written ==> o.holdRequestId == item.id
  {
  }

  /** The oracle inputs cover every record and every record has a request model. */
  predicate OraclesCover(records: seq<HoldRequest>, answers: seq<ScsbAnswer>, writes: seq<WriteAnswer>,
                       locations: map<string, string>) {
    && |answers| == |records| && |writes| == |records|
    && forall i :: 0 <= i < |records| ==> !UnknownPickupLocation(records[i], locations)
  }

  /** The iteratee's result for each of `n` items, as if each were reached. */
  function Series(n: nat, iteratee: nat --> Step): seq<Step>
    requires forall i :: 0 <= i < n ==> iteratee.requires(i)
  {
    seq(n, i requires 0 <= i < n => iteratee(i))
  }

  /** The callback for every record. */
  function Steps(records: seq<HoldRequest>, answers: seq<ScsbAnswer>, writes: seq<WriteAnswer>,
                 defaults: StreamDefaults, locations: map<string, string>): seq<Step>
    requires OraclesCover(records, answers, writes, locations)
  {
    seq(|records|, i requires 0 <= i < |records| => PostStep(records[i], answers[i], writes[i], defaults, locations))
  }

  /** What the batch did: the request models posted to SCSB in order, the
      outcomes written to the result stream in order, and how it settled. */
  datatype Report = Report(requests: seq<ScsbModel>, written: seq<OutcomeRecord>, outcome: Result<seq<HoldRequest>, ConsumerError>)

  /** The report after one more step, the batch not having failed yet. */
  function Advance(prev: Report, s: Step): Report
    requires prev.outcome.Ok?
  {
    Report(prev.requests + [s.request], prev.written + s.written,
           if s.abort.Some? then Err(s.abort.value) else Ok(prev.outcome.value + [s.item]))
  }

  /** `mapSeries` over the first `n` steps: each step runs only while no earlier
      one has passed an error to its callback. */
  function Run(steps: seq<Step>, n: nat): Report
    requires n <= |steps|
  {
    if n == 0 then Report([], [], Ok([]))
    else
      var prev := Run(steps, n - 1);
      if prev.outcome.Err? then prev else Advance(prev, steps[n - 1])
  }

  function Requests(steps: seq<Step>): seq<ScsbModel> {
    seq(|steps|, i requires 0 <= i < |steps| => steps[i].request)
  }

  function Items(steps: seq<Step>): seq<HoldRequest> {
    seq(|steps|, i requires 0 <= i < |steps| => steps[i].item)
  }

  /** The outcomes the steps wrote, in order. */
  function AllWritten(steps: seq<Step>): seq<OutcomeRecord> {
    if |steps| == 0 then [] else AllWritten(steps[..|steps| - 1]) + steps[|steps| - 1].written
  }

  /** Once the batch has failed, later records change nothing. */
  lemma {:induction false} AbortIsFinal(steps: seq<Step>, i: nat, j: nat)
    requires i <= j <= |steps|
    requires Run(steps, i).outcome.Err?
    ensures Run(steps, j) == Run(steps, i)
    decreases j
  {
    if j > i {
      AbortIsFinal(steps, i, j - 1);
    }
  }

  /** Without a fatal error every record is posted, every outcome is written in
      record order, and the batch resolves with every record. */
  lemma {:induction false} RunWithoutAbort(steps: seq<Step>, n: nat)
    requires n <= |steps|
    requires forall i :: 0 <= i < n ==> steps[i].abort.None?
    ensures Run(steps, n) == Report(Requests(steps[..n]), AllWritten(steps[..n]), Ok(Items(steps[..n])))
  {
    if n > 0 {
      RunWithoutAbort(steps, n - 1);
      assert steps[..n][..n - 1] == steps[..n - 1];
      assert Requests(steps[..n]) == Requests(steps[..n - 1]) + [steps[n - 1].request];
      assert Items(steps[..n]) == Items(steps[..n - 1]) + [steps[n - 1].item];
    }
  }

  /** The first fatal error ends the batch: the records up to and including the
      failing one were posted and wrote their outcomes, later ones were not
      touched, and the batch rejects with that error. */
  lemma RunStopsAtFirstAbort(steps: seq<Step>, k: nat, n: nat)
    requires k < n <= |steps|
    requires steps[k].abort.Some? && forall i :: 0 <= i < k ==> steps[i].abort.None?
    ensures Run(steps, n) == Report(Requests(steps[..k + 1]), AllWritten(steps[..k + 1]), Err(steps[k].abort.value))
  {
    RunWithoutAbort(steps, k);
    assert steps[..k + 1][..k] == steps[..k];
    assert Requests(steps[..k + 1]) == Requests(steps[..k]) + [steps[k].request];
    AbortIsFinal(steps, k + 1, n);
  }

  /** The argument checks, in order, before any record is posted. */
  function CheckArguments(records: Option<seq<HoldRequest>>, scsbApiBaseUrl: string, scsbApiKey: string): Option<ConsumerError> {
    if records.None? then
      Some(Make("undefined-records-array-parameter", NotAnArrayMessage, 0, PostingFunctionName, Some("records")))
    else if |records.value| == 0 then
      Some(Make("empty-records-array", EmptyArrayMessage, 0, PostingFunctionName, Some("records")))
    else if scsbApiBaseUrl == "" then
      Some(Make("undefined-function-parameter", NoBaseUrlMessage, 0, PostingFunctionName, None))
    else if scsbApiKey == "" then
      Some(Make("undefined-function-parameter", NoKeyMessage, 0, PostingFunctionName, None))
    else None
  }

  /** The whole call: argument checks, then the loop over every record. */
  function Posting(records: Option<seq<HoldRequest>>, scsbApiBaseUrl: string, scsbApiKey: string,
                   answers: seq<ScsbAnswer>, writes: seq<WriteAnswer>,
                   defaults: StreamDefaults, locations: map<string, string>): Report
    requires records.Some? ==> OraclesCover(records.value, answers, writes, locations)
  {
    match CheckArguments(records, scsbApiBaseUrl, scsbApiKey)
    case Some(e) => Report([], [], Err(e))
    case None => Run(Steps(records.value, answers, writes, defaults, locations), |records.value|)
  }

  /** The argument checks come first and in order; when one fails nothing is
      posted to SCSB and nothing is written to the stream. */
  lemma ArgumentChecksFirst(records: Option<seq<HoldRequest>>, scsbApiBaseUrl: string, scsbApiKey: string,
                            answers: seq<ScsbAnswer>, writes: seq<WriteAnswer>,
                            defaults: StreamDefaults, locations: map<string, string>)
    requires records.Some? ==> OraclesCover(records.value, answers, writes, locations)
    ensures var c := CheckArguments(records, scsbApiBaseUrl, scsbApiKey);
      c.Some? <==> (records.None? || |records.value| == 0 || scsbApiBaseUrl == "" || scsbApiKey == "")
    ensures var c := CheckArguments(records, scsbApiBaseUrl, scsbApiKey);
      c.Some? ==> c.value.errorType == (if records.None? then "undefined-records-array-parameter"
                                        else if |records.value| == 0 then "empty-records-array"
                                        else "undefined-function-parameter")
    ensures var c := CheckArguments(records, scsbApiBaseUrl, scsbApiKey);
      c.Some? && records.Some? && |records.value| > 0 ==>
      c.value.errorMessage == (if scsbApiBaseUrl == "" then NoBaseUrlMessage else NoKeyMessage)
    ensures var c := CheckArguments(records, scsbApiBaseUrl, scsbApiKey);
      c.Some? ==> Posting(records, scsbApiBaseUrl, scsbApiKey, answers, writes, defaults, locations) == Report([], [], Err(c.value))
  {
    var c := CheckArguments(records, scsbApiBaseUrl, scsbApiKey);
    if c.Some? {
      if records.None? {
        ConstructFields(Some(Settings("undefined-records-array-parameter", NotAnArrayMessage, 0, "", PostingFunctionName, Some("records"))), true);
      } else if |records.value| == 0 {
        ConstructFields(Some(Settings("empty-records-array", EmptyArrayMessage, 0, "", PostingFunctionName, Some("records"))), true);
      } else if scsbApiBaseUrl == "" {
        ConstructFields(Some(Settings("undefined-function-parameter", NoBaseUrlMessage, 0, "", PostingFunctionName, None)), true);
      } else {
        ConstructFields(Some(Settings("undefined-function-parameter", NoKeyMessage, 0, "", PostingFunctionName, None)), true);
      }
    }
  }

  /** When no record is fatal the batch resolves with every record, in order,
      each carrying its SCSB response when one was received, after posting
      every record's model in order. */
  lemma PostingResolvesWithEveryRecord(records: seq<HoldRequest>, scsbApiBaseUrl: string, scsbApiKey: string,
                                       answers: seq<ScsbAnswer>, writes: seq<WriteAnswer>,
                                       defaults: StreamDefaults, locations: map<string, string>)
    requires OraclesCover(records, answers, writes, locations)
    requires |records| > 0 && scsbApiBaseUrl != "" && scsbApiKey != ""
    requires forall i :: 0 <= i < |records| ==> !Fatal(records[i], answers[i], writes[i], defaults)
    ensures var r := Posting(Some(records), scsbApiBaseUrl, scsbApiKey, answers, writes, defaults, locations);
      && r.outcome.Ok? && |r.outcome.value| == |records|
      && forall i :: 0 <= i < |records| ==> r.outcome.value[i] == Kept(records[i], answers[i])
    ensures var r := Posting(Some(records), scsbApiBaseUrl, scsbApiKey, answers, writes, defaults, locations);
      && |r.requests| == |records|
      && forall i :: 0 <= i < |records| ==> r.requests[i] == GenerateScsbModel(records[i], locations).value
  {
    var steps := Steps(records, answers, writes, defaults, locations);
    forall i | 0 <= i < |records|
      ensures steps[i].abort.None?
      ensures steps[i].item == Kept(records[i], answers[i])
      ensures steps[i].request == GenerateScsbModel(records[i], locations).value
    {
      StepAbortIffFatal(records[i], answers[i], writes[i], defaults, locations);
    }
    RunWithoutAbort(steps, |records|);
    assert steps[..|records|] == steps;
  }

  /** The first fatal record ends the batch with that record's error: the
      records before it and the record itself were posted in order, each wrote
      at most one outcome, and the records after it were never posted. */
  lemma PostingRejectsAtFirstFatal(records: seq<HoldRequest>, scsbApiBaseUrl: string, scsbApiKey: string,
                                   answers: seq<ScsbAnswer>, writes: seq<WriteAnswer>,
                                   defaults: StreamDefaults, locations: map<string, string>, k: nat)
    requires OraclesCover(records, answers, writes, locations)
    requires scsbApiBaseUrl != "" && scsbApiKey != ""
    requires k < |records| && Fatal(records[k], answers[k], writes[k], defaults)
    requires forall i :: 0 <= i < k ==> !Fatal(records[i], answers[i], writes[i], defaults)
    ensures var r := Posting(Some(records), scsbApiBaseUrl, scsbApiKey, answers, writes, defaults, locations);
      && r.outcome == Err(PostStep(records[k], answers[k], writes[k], defaults, locations).abort.value)
      && |r.written| <= k + 1
    ensures var r := Posting(Some(records), scsbApiBaseUrl, scsbApiKey, answers, writes, defaults, locations);
      && |r.requests| == k + 1
      && forall i :: 0 <= i <= k ==> r.requests[i] == GenerateScsbModel(records[i], locations).value
  {
    var steps := Steps(records, answers, writes, defaults, locations);
    StepsUpToFirstFatal(records, answers, writes, defaults, locations, k);
    RunStopsAtFirstAbort(steps, k, |records|);
    WrittenAtMostOnePerStep(steps[..k + 1]);
  }

  lemma StepsUpToFirstFatal(records: seq<HoldRequest>, answers: seq<ScsbAnswer>, writes: seq<WriteAnswer>,
                            defaults: StreamDefaults, locations: map<string, string>, k: nat)
    requires OraclesCover(records, answers, writes, locations)
    requires k < |records| && Fatal(records[k], answers[k], writes[k], defaults)
    requires forall i :: 0 <= i < k ==> !Fatal(records[i], answers[i], writes[i], defaults)
    ensures var steps := Steps(records, answers, writes, defaults, locations);
      forall i :: 0 <= i <= k ==>
        && (steps[i].abort.Some? <==> i == k)
        && steps[i].request == GenerateScsbModel(records[i], locations).value
        && |steps[i].written| <= 1
  {
    var steps := Steps(records, answers, writes, defaults, locations);
    forall i | 0 <= i <= k
      ensures steps[i].abort.Some? <==> i == k
      ensures steps[i].request == GenerateScsbModel(records[i], locations).value
      ensures |steps[i].written| <= 1
    {
      StepAbortIffFatal(records[i], answers[i], writes[i], defaults, locations);
    }
  }

  /** Each step writes at most one outcome, so the batch writes at most one
      per step. */
  lemma {:induction false} WrittenAtMostOnePerStep(steps: seq<Step>)
    requires forall i :: 0 <= i < |steps| ==> |steps[i].written| <= 1
    ensures |AllWritten(steps)| <= |steps|
  {
    if |steps| > 0 {
      WrittenAtMostOnePerStep(steps[..|steps| - 1]);
    }
  }

  /** `async.mapSeries(items, iteratee, done)` where the iteratee passes on a
      `Step`: the items are visited one after another, the first error passed
      to a callback stops the iteration and is handed to `done`, otherwise
      `done` receives every item's result in order. */
  method MapSeries(n: nat, iteratee: nat --> Step) returns (report: Report)
    requires forall i :: 0 <= i < n ==> iteratee.requires(i)
    ensures report == Run(Series(n, iteratee), n)
  {
    ghost var steps := Series(n, iteratee);
    var requests: seq<ScsbModel> := [];
    var written: seq<OutcomeRecord> := [];
    var results: seq<HoldRequest> := [];
    var failure: Option<ConsumerError> := None;
    var i := 0;
    while i < n && failure.None?
      invariant 0 <= i <= n
      invariant Run(steps, i) == Report(requests, written, if failure.Some? then Err(failure.value) else Ok(results))
      decreases n - i
    {
      var step := iteratee(i);
      requests := requests + [step.request];
      written := written + step.written;
      if step.abort.Some? {
        failure := step.abort;
      } else {
        results := results + [step.item];
      }
      i := i + 1;
    }
    if failure.Some? {
      AbortIsFinal(steps, i, n);
    }
    report := Report(requests, written, if failure.Some? then Err(failure.value) else Ok(results));
  }

  /** `handlePostingRecords(records, scsbApiBaseUrl, scsbApiKey)`. */
  method HandlePostingRecords(records: Option<seq<HoldRequest>>, scsbApiBaseUrl: string, scsbApiKey: string,
                              answers: seq<ScsbAnswer>, writes: seq<WriteAnswer>,
                              defaults: StreamDefaults, locations: map<string, string>)
      returns (report: Report)
    requires records.Some? ==> OraclesCover(records.value, answers, writes, locations)
    ensures report == Posting(records, scsbApiBaseUrl, scsbApiKey, answers, writes, defaults, locations)
  {
    var invalid := CheckArguments(records, scsbApiBaseUrl, scsbApiKey);
    if invalid.Some? {
      return Report([], [], Err(invalid.value));
    }
    var rs := records.value;
    report := MapSeries(|rs|, i requires 0 <= i < |rs| => PostStep(rs[i], answers[i], writes[i], defaults, locations));
    assert Series(|rs|, i requires 0 <= i < |rs| => PostStep(rs[i], answers[i], writes[i], defaults, locations))
        == Steps(rs, answers, writes, defaults, locations);
  }

  // ---------------------------------------------------------------------------
  // As written, every call to `postRecordToStream` omits `schemaName`, whose
  // default throws (`ResultStream.PostRecordToStreamAsWritten`). The throw
  // happens inside a promise handler: in the `.then` branches the outer
  // `.catch` receives it and writes again, which throws again; in the `.catch`
  // branch it rejects a promise nobody handles. Either way `callback` is never
  // called for that record and the batch never settles.

  /** The callback as written: None when it never calls `callback`. */
  function PostStepAsWritten(item: HoldRequest, answer: ScsbAnswer, write: WriteAnswer,
                             cachedStreamName: string, cachedDataApiBase: string,
                             locations: map<string, string>): Option<Step>
    requires !UnknownPickupLocation(item, locations)
  {
    var request := GenerateScsbModel(item, locations).value;
    match Outcome(item, answer)
    case None => Some(Step(request, Kept(item, answer), [], None))
    case Some(obj) =>
      match PostRecordToStreamAsWritten(obj, Js.Omitted, Js.Omitted, Js.Omitted, cachedStreamName, cachedDataApiBase, write)
      case Threw => None
      case Returned(posted) => Some(AfterWrite(request, item, answer, posted))
  }

  /** `mapSeries` when a callback may never be called: None once a reached
      record's callback is never called. */
  function RunAsWritten(steps: seq<Option<Step>>, n: nat): Option<Report>
    requires n <= |steps|
  {
    if n == 0 then Some(Report([], [], Ok([])))
    else
      match RunAsWritten(steps, n - 1)
      case None => None
      case Some(prev) =>
        if prev.outcome.Err? then Some(prev)
        else if steps[n - 1].None? then None
        else Some(Advance(prev, steps[n - 1].value))
  }

  function StepsAsWritten(records: seq<HoldRequest>, answers: seq<ScsbAnswer>, writes: seq<WriteAnswer>,
                          cachedStreamName: string, cachedDataApiBase: string,
                          locations: map<string, string>): seq<Option<Step>>
    requires OraclesCover(records, answers, writes, locations)
  {
    seq(|records|, i requires 0 <= i < |records| =>
      PostStepAsWritten(records[i], answers[i], writes[i], cachedStreamName, cachedDataApiBase, locations))
  }

  /** The callback as written returns exactly when the record needs no write,
      and then agrees with the corrected one whatever the defaults. */
  lemma StepAsWritten(item: HoldRequest, answer: ScsbAnswer, write: WriteAnswer,
                      cachedStreamName: string, cachedDataApiBase: string,
                      defaults: StreamDefaults, locations: map<string, string>)
    requires !UnknownPickupLocation(item, locations)
    ensures var s := PostStepAsWritten(item, answer, write, cachedStreamName, cachedDataApiBase, locations);
      && (s.None? <==> Outcome(item, answer).Some?)
      && (s.Some? ==> s.value.abort.None?)
      && (s.Some? ==> s.value == PostStep(item, answer, write, defaults, locations))
  {
  }

  /** As written, a batch whose callbacks all return (no record needed a
      write, so none stopped the batch) settles exactly as the corrected one. */
  lemma {:induction false} RunAsWrittenWithoutThrow(steps: seq<Option<Step>>, fixed: seq<Step>, n: nat)
    requires n <= |steps| == |fixed|
    requires forall i :: 0 <= i < n ==> steps[i] == Some(fixed[i]) && fixed[i].abort.None?
    ensures RunAsWritten(steps, n) == Some(Run(fixed, n))
    ensures Run(fixed, n).outcome.Ok?
  {
    if n > 0 {
      RunAsWrittenWithoutThrow(steps, fixed, n - 1);
    }
  }

  /** As written, the batch never settles once it reaches a record whose
      callback is never called. */
  lemma {:induction false} RunAsWrittenHangs(steps: seq<Option<Step>>, k: nat, n: nat)
    requires k < n <= |steps| && steps[k].None?
    requires forall i :: 0 <= i < k ==> steps[i].Some? && steps[i].value.abort.None?
    ensures RunAsWritten(steps, n).None?
    decreases n
  {
    if n == k + 1 {
      RunAsWrittenReaches(steps, k);
    } else {
      RunAsWrittenHangs(steps, k, n - 1);
    }
  }

  /** As written, callbacks that all return and stop nothing leave the batch
      pending with no error. */
  lemma {:induction false} RunAsWrittenReaches(steps: seq<Option<Step>>, k: nat)
    requires k <= |steps|
    requires forall i :: 0 <= i < k ==> steps[i].Some? && steps[i].value.abort.None?
    ensures RunAsWritten(steps, k).Some? && RunAsWritten(steps, k).value.outcome.Ok?
  {
    if k > 0 {
      RunAsWrittenReaches(steps, k - 1);
    }
  }

  /** As written, a record's callback never calls back exactly when the record
      needs a result-stream write, and a callback that does call back never
      stops the batch; with `RunAsWrittenHangs`, the batch never settles once it
      reaches such a record. */
  lemma StepsAsWrittenShape(records: seq<HoldRequest>, answers: seq<ScsbAnswer>, writes: seq<WriteAnswer>,
                            cachedStreamName: string, cachedDataApiBase: string, locations: map<string, string>)
    requires OraclesCover(records, answers, writes, locations)
    ensures var asWritten := StepsAsWritten(records, answers, writes, cachedStreamName, cachedDataApiBase, locations);
      forall i :: 0 <= i < |records| ==>
        && (asWritten[i].None? <==> Outcome(records[i], answers[i]).Some?)
        && (asWritten[i].Some? ==> asWritten[i].value.abort.None?)
  {
    var asWritten := StepsAsWritten(records, answers, writes, cachedStreamName, cachedDataApiBase, locations);
    forall i | 0 <= i < |records|
      ensures asWritten[i].None? <==> Outcome(records[i], answers[i]).Some?
      ensures asWritten[i].Some? ==> asWritten[i].value.abort.None?
    {
      StepAsWritten(records[i], answers[i], writes[i], cachedStreamName, cachedDataApiBase, StreamDefaults("", "", ""), locations);
    }
  }

  /** Where a callback as written calls back, it does what the corrected one
      does; with `RunAsWrittenWithoutThrow`, a batch with no record needing a
      write settles as the corrected one. */
  lemma StepsAsWrittenAgree(records: seq<HoldRequest>, answers: seq<ScsbAnswer>, writes: seq<WriteAnswer>,
                            cachedStreamName: string, cachedDataApiBase: string,
                            defaults: StreamDefaults, locations: map<string, string>)
    requires OraclesCover(records, answers, writes, locations)
    ensures var asWritten := StepsAsWritten(records, answers, writes, cachedStreamName, cachedDataApiBase, locations);
      var fixed := Steps(records, answers, writes, defaults, locations);
      forall i :: 0 <= i < |records| && asWritten[i].Some? ==> asWritten[i] == Some(fixed[i])
  {
    var asWritten := StepsAsWritten(records, answers, writes, cachedStreamName, cachedDataApiBase, locations);
    var fixed := Steps(records, answers, writes, defaults, locations);
    forall i | 0 <= i < |records| && asWritten[i].Some?
      ensures asWritten[i] == Some(fixed[i])
    {
      StepAsWritten(records[i], answers[i], writes[i], cachedStreamName, cachedDataApiBase, defaults, locations);
    }
  }

  /** The input that shows it: a batch whose first record is an EDD request
      that SCSB accepted never settles as written, while the corrected
      consumer writes its success outcome and resolves with the record. */
  lemma EddBatchNeverSettlesAsWritten(item: HoldRequest, response: ScsbResponse,
                                      cachedStreamName: string, cachedDataApiBase: string,
                                      defaults: StreamDefaults, locations: map<string, string>)
    requires !UnknownPickupLocation(item, locations) && item.id != ""
    requires response.success == Some(true) && response.requestType == "EDD"
    requires defaults.streamName != "" && defaults.schemaName != "" && defaults.nyplDataApiBase != ""
    ensures RunAsWritten(StepsAsWritten([item], [Resolved(response)], [Written], cachedStreamName, cachedDataApiBase, locations), 1).None?
    ensures Posting(Some([item]), "https://scsb.example", "key", [Resolved(response)], [Written], defaults, locations).outcome
         == Ok([item.(scsbResponse := Some(response))])
  {
    var answer := Resolved(response);
    assert Outcome(item, answer) == Some(EddInput(item));
    CorrectedDefaultsPost(EddInput(item), defaults);
    assert !Fatal(item, answer, Written, defaults);
    PostingResolvesWithEveryRecord([item], "https://scsb.example", "key", [answer], [Written], defaults, locations);
    var r := Posting(Some([item]), "https://scsb.example", "key", [answer], [Written], defaults, locations);
    assert r.outcome.value == [Kept(item, answer)];
    StepAsWritten(item, answer, Written, cachedStreamName, cachedDataApiBase, defaults, locations);
    RunAsWrittenHangs(StepsAsWritten([item], [answer], [Written], cachedStreamName, cachedDataApiBase, locations), 0, 1);
  }
}
