/** `ResultStreamHelper.postRecordToStream`: validate the arguments, build the
    outcome record for the HoldRequestResult stream and hand it to the streams
    client. The client's `write` is an oracle answer. */
module ResultStream {
  import opened Wrappers
  import Js
  import opened ConsumerErrors

  /** The `obj` argument; falsy members are "". */
  datatype PostInput = PostInput(holdRequestId: string, jobId: string, errorType: string, errorMessage: string)

  datatype OutcomeError = OutcomeError(type_: string, message: string)

  /** The object written to the result stream (`objectToBePosted`); `jobId` None
      is `null`. */
  datatype OutcomeRecord = OutcomeRecord(
    holdRequestId: string,
    jobId: Option<string>,
    success: bool,
    error: Option<OutcomeError>)

  /** The values the three optional parameters default to when omitted. */
  datatype StreamDefaults = StreamDefaults(streamName: string, schemaName: string, nyplDataApiBase: string)

  /** How the streams client's `write` settles. `responseStatus` is the failure's
      `response.status`, 0 when it has none. */
  datatype WriteAnswer = Written | WriteFailed(responseStatus: int)

  /** The value a failed validation names: the first of these that is falsy. */
  datatype Missing = MissingHoldRequestId | MissingStreamName | MissingSchemaName | MissingNyplDataApiBase

  /** Why a post did not reach the stream: a validation rejection (its error is
      `Rejection(missing)`) or a failed write. */
  datatype PostFailure =
    | Invalid(missing: Missing)
    | TransportFailed(responseStatus: int)

  /** The destination of a successful write. */
  datatype Posted = Posted(streamName: string, schemaName: string, nyplDataApiBase: string, record: OutcomeRecord)

  const FunctionName := "postRecordToStream"
  const MissingIdMessage := "the holdRequestId object property from the object parameter is not defined, unable to post record to stream"
  const MissingStreamMessage := "the streamName parameter used to post results is undefined"
  const MissingSchemaMessage := "the schemaName parameter used to post results is undefined"
  const MissingBaseMessage := "the nyplDataApiBase parameter used to post results is undefined"

  /** The `undefined-function-parameter` error a validation failure rejects with. */
  function Rejection(m: Missing): ConsumerError {
    Make("undefined-function-parameter",
      match m
      case MissingHoldRequestId => MissingIdMessage
      case MissingStreamName => MissingStreamMessage
      case MissingSchemaName => MissingSchemaMessage
      case MissingNyplDataApiBase => MissingBaseMessage,
      0, FunctionName, None)
  }

  /** Every rejection is an `undefined-function-parameter` error of
      `postRecordToStream` without a status, and the four messages differ. */
  lemma RejectionFields(m: Missing)
    ensures Rejection(m).errorType == "undefined-function-parameter"
    ensures Rejection(m).functionName == Some(FunctionName)
    ensures Rejection(m).errorStatus.None?
    ensures forall m' :: Rejection(m').errorMessage == Rejection(m).errorMessage ==> m' == m
  {
    forall m' {
      ConstructFields(Some(Settings("undefined-function-parameter", Rejection(m').errorMessage, 0, "", FunctionName, None)), true);
    }
    ConstructFields(Some(Settings("undefined-function-parameter", Rejection(m).errorMessage, 0, "", FunctionName, None)), true);
  }

  /** The posted object: a failure outcome exactly when both `errorType` and
      `errorMessage` are truthy. */
  function BuildOutcome(obj: PostInput): (r: OutcomeRecord)
    ensures r.holdRequestId == obj.holdRequestId
    ensures r.jobId == Js.IfTruthy(obj.jobId)
    ensures !r.success <==> (obj.errorType != "" && obj.errorMessage != "")
    ensures r.error.Some? <==> !r.success
    ensures r.error.Some? ==> r.error.value == OutcomeError(obj.errorType, obj.errorMessage)
  {
    OutcomeRecord(
      obj.holdRequestId,
      Js.IfTruthy(obj.jobId),
      !(obj.errorType != "" && obj.errorMessage != ""),
      if obj.errorType != "" && obj.errorMessage != "" then Some(OutcomeError(obj.errorType, obj.errorMessage)) else None)
  }

  /** The validation chain, then the object to be posted and where it goes. */
  function Prepare(obj: PostInput, streamName: Js.Arg, schemaName: Js.Arg, nyplDataApiBase: Js.Arg,
                   defaults: StreamDefaults): Result<Posted, Missing>
  {
    var stream := Js.ArgOr(streamName, defaults.streamName);
    var schema := Js.ArgOr(schemaName, defaults.schemaName);
    var base := Js.ArgOr(nyplDataApiBase, defaults.nyplDataApiBase);
    if obj.holdRequestId == "" then
      Err(MissingHoldRequestId)
    else if stream == "" then
      Err(MissingStreamName)
    else if schema == "" then
      Err(MissingSchemaName)
    else if base == "" then
      Err(MissingNyplDataApiBase)
    else
      Ok(Posted(stream, schema, base, BuildOutcome(obj)))
  }

  /** `postRecordToStream(obj, streamName, schemaName, nyplDataApiBase)`. */
  function PostRecordToStream(obj: PostInput, streamName: Js.Arg, schemaName: Js.Arg, nyplDataApiBase: Js.Arg,
                              defaults: StreamDefaults, answer: WriteAnswer): Result<Posted, PostFailure>
  {
    match Prepare(obj, streamName, schemaName, nyplDataApiBase, defaults)
    case Err(m) => Err(Invalid(m))
    case Ok(p) => if answer.Written? then Ok(p) else Err(TransportFailed(answer.responseStatus))
  }

  /** The arguments are checked in a fixed order, a failure names the first
      missing value, and only valid arguments reach the stream. */
  lemma ValidationOrder(obj: PostInput, streamName: Js.Arg, schemaName: Js.Arg, nyplDataApiBase: Js.Arg,
                        defaults: StreamDefaults, answer: WriteAnswer)
    ensures var r := PostRecordToStream(obj, streamName, schemaName, nyplDataApiBase, defaults, answer);
      var stream := Js.ArgOr(streamName, defaults.streamName);
      var schema := Js.ArgOr(schemaName, defaults.schemaName);
      var base := Js.ArgOr(nyplDataApiBase, defaults.nyplDataApiBase);
      && (r.Err? && r.error.Invalid? <==> (obj.holdRequestId == "" || stream == "" || schema == "" || base == ""))
      && (r.Err? && r.error.Invalid? ==>
            r.error.missing ==
              if obj.holdRequestId == "" then MissingHoldRequestId
              else if stream == "" then MissingStreamName
              else if schema == "" then MissingSchemaName
              else MissingNyplDataApiBase)
      && (r.Ok? <==> (obj.holdRequestId != "" && stream != "" && schema != "" && base != "" && answer.Written?))
      && (r.Ok? ==> r.value == Posted(stream, schema, base, BuildOutcome(obj)))
  {
  }

  /** A default is used only for an omitted (`undefined`) argument; a passed
      `null` or `''` is rejected rather than replaced. */
  lemma DefaultsOnlyWhenOmitted(obj: PostInput, defaults: StreamDefaults, answer: WriteAnswer)
    requires obj.holdRequestId != ""
    requires defaults.streamName != "" && defaults.schemaName != "" && defaults.nyplDataApiBase != ""
    ensures PostRecordToStream(obj, Js.Omitted, Js.Omitted, Js.Omitted, defaults, answer).Ok? <==> answer.Written?
    ensures PostRecordToStream(obj, Js.Passed(""), Js.Omitted, Js.Omitted, defaults, answer).Err?
    ensures PostRecordToStream(obj, Js.Omitted, Js.Passed(""), Js.Omitted, defaults, answer).Err?
    ensures PostRecordToStream(obj, Js.Omitted, Js.Omitted, Js.Passed(""), defaults, answer).Err?
  {
  }

  /** An `errorType` without a message still yields a success record. */
  lemma TypeWithoutMessageIsSuccess(id: string, jobId: string, errorType: string)
    ensures BuildOutcome(PostInput(id, jobId, errorType, "")).success
    ensures BuildOutcome(PostInput(id, jobId, errorType, "")).error.None?
  {
  }

  // ---------------------------------------------------------------------------
  // As written, the default for `schemaName` calls `CACHE.getResultSchemaName()`,
  // a getter the CACHE module does not define: evaluating that default throws a
  // TypeError synchronously, before any validation.

  /** Whether the call throws instead of returning a promise. */
  datatype Call<T> = Threw | Returned(value: T)

  /** `postRecordToStream` as written: the defaults for `streamName` and
      `nyplDataApiBase` come from the cache's getters; the one for `schemaName`
      throws. */
  function PostRecordToStreamAsWritten(obj: PostInput, streamName: Js.Arg, schemaName: Js.Arg, nyplDataApiBase: Js.Arg,
                                       cachedStreamName: string, cachedDataApiBase: string,
                                       answer: WriteAnswer): (r: Call<Result<Posted, PostFailure>>)
    ensures r.Threw? <==> schemaName.Omitted?
  {
    if schemaName.Omitted? then Threw
    else Returned(PostRecordToStream(obj, streamName, schemaName, nyplDataApiBase,
                                     StreamDefaults(cachedStreamName, "", cachedDataApiBase), answer))
  }

  /** The input that shows it: the call with only `obj`, as every caller in the
      consumer makes it, throws whatever the cache holds. */
  lemma OmittedSchemaNameThrows(obj: PostInput, cachedStreamName: string, cachedDataApiBase: string, answer: WriteAnswer)
    ensures PostRecordToStreamAsWritten(obj, Js.Omitted, Js.Omitted, Js.Omitted, cachedStreamName, cachedDataApiBase, answer).Threw?
    ensures PostRecordToStreamAsWritten(PostInput("123", "", "", ""), Js.Passed("streamName"), Js.Omitted, Js.Passed("apiBaseUrl"),
                                        cachedStreamName, cachedDataApiBase, answer).Threw?
  {
  }

  /** With a schema name available as a default, the omitted-arguments call
      validates and posts. */
  lemma CorrectedDefaultsPost(obj: PostInput, defaults: StreamDefaults)
    requires obj.holdRequestId != ""
    requires defaults.streamName != "" && defaults.schemaName != "" && defaults.nyplDataApiBase != ""
    ensures PostRecordToStream(obj, Js.Omitted, Js.Omitted, Js.Omitted, defaults, Written)
         == Ok(Posted(defaults.streamName, defaults.schemaName, defaults.nyplDataApiBase, BuildOutcome(obj)))
  {
  }
}
