# Hold request consumer — a Dafny model

This project models the core of the NYPL hold request consumer. The consumer
reads a batch of hold requests and sorts them by holding location:

- A record whose item location code starts with `rc` (either case) is a ReCAP
  (offsite) hold. It goes to the SCSB API one record at a time.
- Every other record is an on-site hold. It goes to the on-site hold request
  service.

For every ReCAP record, the consumer writes an outcome to the HoldRequestResult
stream. It writes an EDD confirmation, an SCSB "success false" outcome, or an
SCSB API error. The batch stops at the first fatal error.

The model covers:

- the `HoldRequestConsumerError` value and its defaults;
- the process-wide `CACHE` object and the records holder;
- `ResultStreamHelper.postRecordToStream`, with its argument checks and the
  outcome object;
- the pure parts of `SCSBApiHelper`: the institution codes, `generateSCSBModel`
  and `getSCSBDebugInfo`;
- `SCSBApiHelper.handlePostingRecords`, the `async.mapSeries` loop over the
  ReCAP records;
- the two dispatchers (`src/helpers` and `src/dispatchers`) and
  `OnSiteHoldRequestHelper`;
- `ApiServiceHelper`:
  - the constructor, headers and parameter check;
  - `processBatchRequest`, `groupRecordsBy` and `generateRecordApiUrlsArray`;
  - `getOAuthToken`.

Every remote call is a parameter of the model. This covers the SCSB client's
answer, the stream write's answer, the GETs of `processBatchRequest` and the
OAuth POST. Each answer is given as a value: what the call resolved with, or
how it failed. Where the code loops while updating state, the model is a
`method` with loop invariants, proved equal to a specification function. Where
the code updates an object in place, the model is a `class`.

Modules and files:

| file | module | models |
|---|---|---|
| `wrappers.dfy` | `Wrappers` | Option and Result |
| `js.dfy` | `Js` | optional arguments, truthiness, ASCII case mapping, `split`, `join` |
| `consumer_error.dfy` | `ConsumerErrors` | `src/models/HoldRequestConsumerError.js` |
| `consumer_model.dfy` | `ConsumerModel` | `src/models/HoldRequestConsumerModel.js` |
| `globals.dfy` | `Globals` | `src/globals/index.js` |
| `records.dfy` | `Records` | the hold request record and its nested objects |
| `result_stream.dfy` | `ResultStream` | `src/helpers/ResultStreamHelper.js` |
| `scsb_api.dfy` | `ScsbApi` | the pure functions of `src/helpers/SCSBApiHelper.js` |
| `scsb_posting.dfy` | `ScsbPosting` | `SCSBApiHelper.handlePostingRecords` |
| `dispatch_helper.dfy` | `HoldRequestDispatcher` | `src/helpers/HoldRequestDispatcher.js` |
| `dispatchers.dfy` | `Dispatchers` | `src/dispatchers/HoldRequestDispatcher.js` |
| `onsite.dfy` | `OnSite` | `src/helpers/OnSiteHoldRequestHelper.js` |
| `api_service.dfy` | `ApiService` | `src/helpers/ApiServiceHelper.js` |

## Model

| member | source | states |
|---|---|---|
| Js.ArgOr | src/helpers/ApiServiceHelper.js:7 | A parameter declared with a default takes the passed value, and the default only when the argument is omitted (`undefined`). |
| Js.IfTruthy | src/helpers/ResultStreamHelper.js:59 | `x \|\| null` keeps a string exactly when it is non-empty. |
| Js.Upper | src/helpers/SCSBApiHelper.js:235 | `toUpperCase` keeps the length and upper-cases each character. |
| Js.Lower | src/helpers/HoldRequestDispatcher.js:45 | `toLowerCase` (and the `/i` flag) keeps the length and lower-cases each character. |
| Js.UntilDash | src/helpers/SCSBApiHelper.js:235 | The text before the first `-` is a dash-free prefix, followed by a dash or by the end of the string. |
| ConsumerErrors.ConstructFields | src/models/HoldRequestConsumerError.js:2-31 | The name and the flag are constant. Type and message fall back to `hold-request-consumer-error` and `An error occurred`. Status, hold request id and function name are set exactly when truthy. The details are the settings' `error`. |
| ConsumerErrors.WithoutNewIsNew | src/models/HoldRequestConsumerError.js:3-5 | Calling without `new` builds the same error as calling with `new`. |
| ConsumerErrors.MissingSettingsAreEmpty | src/models/HoldRequestConsumerError.js:7 | Missing settings behave as `{}`: every optional field is absent and both defaults apply. |
| ConsumerErrors.RebuildIsIdentity | src/models/HoldRequestConsumerError.js:9-31 | Building an error from the fields of an error it built gives the same error, so no field is lost or altered. |
| ConsumerModel.HoldRequestConsumerModel.constructor | src/models/HoldRequestConsumerModel.js:4-9 | A new model holds `null` records. |
| ConsumerModel.HoldRequestConsumerModel.GetRecords | src/models/HoldRequestConsumerModel.js:11-13 | Returns the records held and changes nothing. |
| ConsumerModel.HoldRequestConsumerModel.SetRecords | src/models/HoldRequestConsumerModel.js:15-17 | Replaces the records held with the given ones. |
| ConsumerModel.SetRecordsOverwrites | src/models/HoldRequestConsumerModel.js:9-17 | A fresh model reads `null`; after two `setRecords` calls it reads the second value. |
| Globals.Cache.constructor | src/globals/index.js:2-8 | The initial cache: a `null` token and every configuration string empty. |
| Globals.Cache.GetAccessToken | src/globals/index.js:9-11 | Returns the cached token. |
| Globals.Cache.SetAccessToken | src/globals/index.js:12-14 | Replaces the token and leaves the other five entries unchanged. |
| Globals.Cache.GetNyplDataApiBaseUrl | src/globals/index.js:15-17 | Returns the data API base URL. |
| Globals.Cache.SetNyplDataApiBaseUrl | src/globals/index.js:18-20 | Replaces that URL only. |
| Globals.Cache.GetSchemaName | src/globals/index.js:21-23 | Returns the hold request schema name. |
| Globals.Cache.SetSchemaName | src/globals/index.js:24-26 | Replaces that name only. |
| Globals.Cache.GetResultStreamName | src/globals/index.js:27-29 | Returns the result stream name. |
| Globals.Cache.SetResultStreamName | src/globals/index.js:30-32 | Replaces that name only. |
| Globals.Cache.GetSCSBApiBaseUrl | src/globals/index.js:33-35 | Returns the SCSB API base URL. |
| Globals.Cache.SetSCSBApiBaseUrl | src/globals/index.js:36-38 | Replaces that URL only. |
| Globals.Cache.GetSCSBApiKey | src/globals/index.js:39-41 | Returns the SCSB API key. |
| Globals.Cache.SetSCSBApiKey | src/globals/index.js:42-44 | Replaces that key only. |
| Globals.LastWriteWins | src/globals/index.js:9-44 | Every getter returns the last value set through its setter. Setters of other entries do not disturb it. |
| ResultStream.RejectionFields | src/helpers/ResultStreamHelper.js:16-54 | Every validation rejection is an `undefined-function-parameter` error of `postRecordToStream` without a status. Its message names the argument that failed, one message per argument. |
| ResultStream.BuildOutcome | src/helpers/ResultStreamHelper.js:58-70 | The posted object keeps the hold request id, and the job id when truthy. It is a failure exactly when both the error type and the error message are given, and then it carries both. |
| ResultStream.ValidationOrder | src/helpers/ResultStreamHelper.js:7-72 | The arguments are checked in order: hold request id, stream name, schema name, data API base. The first falsy one rejects. Otherwise the result is the stream write's answer for the built object, at the given stream and schema. |
| ResultStream.DefaultsOnlyWhenOmitted | src/helpers/ResultStreamHelper.js:9-54 | An omitted argument takes the cached default. A passed empty string is not replaced by the default, and it rejects. |
| ResultStream.TypeWithoutMessageIsSuccess | src/helpers/ResultStreamHelper.js:61-70 | An error type without a message still yields a success record with a `null` error. |
| ResultStream.PostRecordToStreamAsWritten | src/helpers/ResultStreamHelper.js:9-11 | As written, the call throws exactly when `schemaName` is omitted. |
| ResultStream.OmittedSchemaNameThrows | src/helpers/ResultStreamHelper.js:10 | As written, the one-argument call that every caller makes throws. Passing the schema name avoids the throw. |
| ResultStream.CorrectedDefaultsPost | src/helpers/ResultStreamHelper.js:7-72 | With a cached schema name, the one-argument call writes the built object to the default stream. |
| ScsbApi.GetInstitutionCode | src/helpers/SCSBApiHelper.js:230-241 | A code is returned exactly for `recap-…` and `sierra-nypl`. `sierra-nypl` gives `NYPL`, and no code contains a dash. |
| ScsbApi.RecapInstitutionCode | src/helpers/SCSBApiHelper.js:234-236 | `recap-<x>` followed by nothing or by a dash gives `<x>` upper-cased. |
| ScsbApi.ScsbRequestType | src/helpers/SCSBApiHelper.js:253-259 | `hold` in any case gives `RETRIEVAL`. Any other type, EDD included, is upper-cased. |
| ScsbApi.LastBarcode | src/helpers/SCSBApiHelper.js:267-270 | The patron barcode is present exactly when the barcode array is non-empty, and it is the array's last entry. |
| ScsbApi.GenerateScsbModel | src/helpers/SCSBApiHelper.js:242-286 | No model is built exactly when the pickup location lookup throws. |
| ScsbApi.ScsbModelFields | src/helpers/SCSBApiHelper.js:242-287 | Field by field: `NYPL` is always the requesting institution. The tracking id is the record id when a job id is present. The request type, owning institution, barcodes, call number and delivery location follow their sources when those are truthy. |
| ScsbApi.EddFieldsCopiedWhenTruthy | src/helpers/SCSBApiHelper.js:289-325 | Each EDD field is the record's value, copied only when that value is truthy. Without delivery data, no EDD field is set. |
| ScsbApi.HoldIsRetrievalInAnyCase | src/helpers/SCSBApiHelper.js:254-258 | `hold`, `HOLD` and `Hold` give `RETRIEVAL`; `edd` gives `EDD`. |
| ScsbApi.ScsbModelReadsOnlyItsFields | src/helpers/SCSBApiHelper.js:242-327 | Two records that agree on the fields `generateSCSBModel` reads give the same model. |
| ScsbApi.GetScsbDebugInfo | src/helpers/SCSBApiHelper.js:201-229 | A missing response gives `{}`. `success` is copied whenever it is an own property, even when false. Each other field is copied when it is truthy. |
| ScsbApi.DebugInfoEmptyIff | src/helpers/SCSBApiHelper.js:201-229 | The summary is `{}` exactly when the response has no `success` and no truthy field. A `success: false` response is not summarised as `{}`. |
| ScsbPosting.StreamErrorWithStatus | src/helpers/SCSBApiHelper.js:102-148 | A failed EDD or success-false write is a `hold-request-result-stream-error` of `postRecordToStream`. It carries a status exactly when the failed write had a truthy response status, and then it is that status. |
| ScsbPosting.StreamErrorAfterScsbError | src/helpers/SCSBApiHelper.js:187-192 | A failed write after an SCSB error is a `hold-request-result-stream-error` without a status. |
| ScsbPosting.ScsbApiError | src/helpers/SCSBApiHelper.js:171-178 | An SCSB rejection other than 404 is an `scsb-api-error`. It carries a status exactly when the rejection has a truthy status code, and then it is that code. |
| ScsbPosting.Kept | src/helpers/SCSBApiHelper.js:73 | The record keeps its id and job id. A resolved answer is attached as `scsbResponse`, and no other field changes. A rejection leaves the record unchanged. |
| ScsbPosting.StepAbortIffFatal | src/helpers/SCSBApiHelper.js:64-195 | A record's callback stops the batch exactly when the record is fatal. It always posts the record's request model. |
| ScsbPosting.PostStepOutcomes | src/helpers/SCSBApiHelper.js:71-195 | The answer decides the step. A successful non-EDD answer writes nothing. An EDD answer writes a success, and success false writes `scsb-api-response-success-false`. A rejection writes `scsb-api-error`, and every write names the record. |
| ScsbPosting.AbortIsFinal | src/helpers/SCSBApiHelper.js:64-197 | Once the series has failed, later records change nothing. |
| ScsbPosting.RunWithoutAbort | src/helpers/SCSBApiHelper.js:64-197 | Without a fatal step, every request is posted and every outcome written, in order. The batch resolves with every record. |
| ScsbPosting.RunStopsAtFirstAbort | src/helpers/SCSBApiHelper.js:64-197 | The first fatal step ends the series with its error. Nothing after it is posted or written. |
| ScsbPosting.ArgumentChecksFirst | src/helpers/SCSBApiHelper.js:13-57 | The checks run in order: records missing, records empty, base URL, key. A failed check rejects before anything is posted or written. |
| ScsbPosting.PostingResolvesWithEveryRecord | src/helpers/SCSBApiHelper.js:59-198 | Without a fatal record, the batch resolves with every record in order, each with its SCSB answer attached. Every record's request model is posted. |
| ScsbPosting.PostingRejectsAtFirstFatal | src/helpers/SCSBApiHelper.js:59-198 | The first fatal record rejects the batch with that record's error. Only the records up to it are posted. |
| ScsbPosting.StepsUpToFirstFatal | src/helpers/SCSBApiHelper.js:64-195 | Up to the first fatal record, exactly that record's step aborts, and each step posts its record's model. |
| ScsbPosting.WrittenAtMostOnePerStep | src/helpers/SCSBApiHelper.js:82-159 | Each record writes at most one outcome, so a batch writes at most one per record. |
| ScsbPosting.MapSeries | src/helpers/SCSBApiHelper.js:64-197 | The `async.mapSeries` loop computes the series specification: run each step in order and stop at the first error. |
| ScsbPosting.HandlePostingRecords | src/helpers/SCSBApiHelper.js:10-200 | The whole call is the argument checks followed by the series over every record. |
| ScsbPosting.StepAsWritten | src/helpers/SCSBApiHelper.js:82-164 | As written, a callback returns exactly when its record needs no write, and then it does what the corrected callback does. |
| ScsbPosting.RunAsWrittenWithoutThrow | src/helpers/SCSBApiHelper.js:64-197 | As written, a series whose callbacks all return, and none of them fail, settles as the corrected series does. |
| ScsbPosting.RunAsWrittenHangs | src/helpers/SCSBApiHelper.js:64-197 | As written, the series never settles once it reaches a callback that never calls back. |
| ScsbPosting.RunAsWrittenReaches | src/helpers/SCSBApiHelper.js:64 | As written, callbacks that all return leave the series running and not failed. |
| ScsbPosting.StepsAsWrittenShape | src/helpers/SCSBApiHelper.js:82-164 | As written, a record's callback never calls back exactly when the record has an outcome to write. |
| ScsbPosting.StepsAsWrittenAgree | src/helpers/SCSBApiHelper.js:64-195 | Where a callback as written calls back, it equals the corrected one. |
| ScsbPosting.EddBatchNeverSettlesAsWritten | src/helpers/SCSBApiHelper.js:76-93 | As written, a successful EDD record never settles its batch. The corrected batch resolves with that record. |
| HoldRequestDispatcher.IsOffsiteIffRcPrefix | src/helpers/HoldRequestDispatcher.js:45 | A record is ReCAP exactly when its location code starts with `r` then `c`, in either case. |
| HoldRequestDispatcher.SortRecords | src/helpers/HoldRequestDispatcher.js:44-49 | The reduce computes the two groups: the ReCAP records and the on-site records. |
| HoldRequestDispatcher.SortPartitions | src/helpers/HoldRequestDispatcher.js:44-49 | The two groups together are a permutation of the input. |
| HoldRequestDispatcher.SortMembership | src/helpers/HoldRequestDispatcher.js:45-46 | The ReCAP group holds exactly the `rc` records, and the on-site group exactly the others. |
| HoldRequestDispatcher.SortAppend | src/helpers/HoldRequestDispatcher.js:44-49 | Sorting a concatenation concatenates the sorts, so each group keeps the input order. |
| HoldRequestDispatcher.MergeAsWritten | src/helpers/HoldRequestDispatcher.js:34-42 | As written, the merge resolves exactly when both sides resolve. Every rejection is the TypeError of the `.catch` handler's destructuring. |
| HoldRequestDispatcher.Merge | src/helpers/HoldRequestDispatcher.js:34-38 | The intended merge resolves exactly when both sides resolve. A rejection is one side's own rejection. |
| HoldRequestDispatcher.DispatchRecords | src/helpers/HoldRequestDispatcher.js:6-43 | Sorts the records and calls each backend whose group is non-empty, then merges. It returns both the as-written result and the intended one. |
| HoldRequestDispatcher.CallsCoverRecords | src/helpers/HoldRequestDispatcher.js:15-32 | A backend is called at most once, with its whole non-empty group, the ReCAP call first. The calls carry every record once. |
| HoldRequestDispatcher.GroupNonEmptyIff | src/helpers/HoldRequestDispatcher.js:16-26 | A group is posted exactly when some record belongs to it. |
| HoldRequestDispatcher.DispatchResult | src/helpers/HoldRequestDispatcher.js:15-42 | The call resolves exactly when each called backend resolves. It then resolves with the ReCAP results followed by the on-site results, an empty group contributing nothing. Otherwise it rejects with the reason of the first backend that rejected, the ReCAP one first. |
| HoldRequestDispatcher.DispatchAsWrittenDropsReason | src/helpers/HoldRequestDispatcher.js:34-42 | As written, the call resolves as intended and rejects exactly when the intended call does, but always with the TypeError and never with the backend's error. |
| HoldRequestDispatcher.BackendErrorLostAsWritten | src/helpers/HoldRequestDispatcher.js:39-42 | As written, one ReCAP record whose backend rejects with its own error gives a TypeError. As intended, the call rejects with that error. |
| Dispatchers.HandlePostingRecords | src/dispatchers/HoldRequestDispatcher.js:6-46 | Builds one resolution per non-empty group. It returns both the positional merge as written and the intended merge, the same as the helper dispatcher's. |
| Dispatchers.ResolutionsPerGroup | src/dispatchers/HoldRequestDispatcher.js:20-35 | There is one resolution per non-empty group, the ReCAP one first. |
| Dispatchers.MergeAsWrittenWithBothGroups | src/dispatchers/HoldRequestDispatcher.js:37-45 | With both groups non-empty, the positional merge settles exactly as the helper dispatcher's as written. Whenever the intended result resolves, it is that result. |
| Dispatchers.MergeAsWrittenRejectsOneGroup | src/dispatchers/HoldRequestDispatcher.js:37-45 | As written, a batch of one on-site record rejects even though its backend resolves. The corrected merge resolves with that backend's results. |
| OnSite.GenerateModel | src/helpers/OnSiteHoldRequestHelper.js:12-30 | Each of the seven fields of the model is the record's field of the same name. |
| OnSite.GenerateModelProjects | src/helpers/OnSiteHoldRequestHelper.js:12-30 | The model is the record's seven listed fields. Two records give the same model exactly when they agree on those fields, and no other field matters. |
| OnSite.PostingMapsRecords | src/helpers/OnSiteHoldRequestHelper.js:2-11 | There is one request per record, in order, sent to `on-site-hold-request-service` with the given URL and key. Posting a concatenation concatenates the requests. |
| ApiService.NewApiServiceHelper | src/helpers/ApiServiceHelper.js:7-16 | Each passed argument is stored as given. An omitted argument is `''`, except that an omitted grant type is `client_credentials`. |
| ApiService.RequiredParamsIff | src/helpers/ApiServiceHelper.js:28-31 | The settings are valid exactly when URL, client id, secret and scope are non-empty. The grant type plays no part, and a no-argument instance is never valid. |
| ApiService.ConstructApiHeaders | src/helpers/ApiServiceHelper.js:18-26 | The timeout is 10000. The content type is the one passed, `application/json` when omitted. |
| ApiService.HeadersCarryToken | src/helpers/ApiServiceHelper.js:22 | The authorization is `Bearer ` followed by the token, from which the token is recovered unchanged. An omitted token gives the bare prefix. |
| ApiService.FailureErrorFields | src/helpers/ApiServiceHelper.js:82-421 | A failure with a response keeps that response's status and the "outside the 2xx range" message. A failure without a response reports 500. Type and function name are the given ones. |
| ApiService.BatchCheckOrder | src/helpers/ApiServiceHelper.js:35-63 | The batch checks fail exactly when the token, the URL array or the type is empty, checked in that order and each with its own error type. |
| ApiService.BatchErrorFields | src/helpers/ApiServiceHelper.js:82-183 | The error type names the service (`item-service-api` or `patron-service-api`), and the status follows the failure. |
| ApiService.FirstFailure | src/helpers/ApiServiceHelper.js:82-116 | Finds the first failed GET, if any, and no earlier GET failed. None means no GET failed. |
| ApiService.FlattenAppend | src/helpers/ApiServiceHelper.js:119-185 | Flattening a concatenation flattens each part in turn. |
| ApiService.FlattenMembership | src/helpers/ApiServiceHelper.js:119-185 | A value is in the flattened array exactly when it is in one of the per-request arrays. |
| ApiService.BatchOutcome | src/helpers/ApiServiceHelper.js:65-190 | Past the checks, a rejection carries the error of some failed GET. The batch resolves exactly when the type is handled and every GET returned data, and then with the flattened data. It never settles when the type is unhandled, or when no GET failed but one returned no data. |
| ApiService.BatchRequestsShape | src/helpers/ApiServiceHelper.js:35-131 | A failed check sends nothing. Otherwise there is one GET per entry, in order, to that entry's item or patron URL, with the bearer token. |
| ApiService.SourceProperty | src/helpers/ApiServiceHelper.js:225 | `record['nyplSource']` is the record's source. |
| ApiService.MatchingMembership | src/helpers/ApiServiceHelper.js:342-346 | The records matching a key value are exactly the input records with that value. |
| ApiService.GroupingKeys | src/helpers/ApiServiceHelper.js:342-346 | The keys listed are exactly the keys present, each listed once. |
| ApiService.GroupingGroups | src/helpers/ApiServiceHelper.js:342-346 | Each group is the records with that key, in input order. A key is present exactly when some record has it. |
| ApiService.GroupingShape | src/helpers/ApiServiceHelper.js:342-348 | The grouping is well formed: keys listed once, groups non-empty and holding exactly their matching records. |
| ApiService.GroupCheckOrder | src/helpers/ApiServiceHelper.js:318-340 | `groupRecordsBy` throws exactly when records are missing, records are empty or the key is empty, in that order. |
| ApiService.GroupRecordsBy | src/helpers/ApiServiceHelper.js:315-349 | The checks and the reduce loop compute the grouping specification. |
| ApiService.UrlsCheckOrder | src/helpers/ApiServiceHelper.js:195-223 | The URL builder rejects exactly when the base URL is empty, records are missing or records are empty, in that order. |
| ApiService.GroupingNonEmpty | src/helpers/ApiServiceHelper.js:227-235 | A non-empty batch has at least one group, so the empty-grouping rejection cannot happen. |
| ApiService.AppendGroupIds | src/helpers/ApiServiceHelper.js:260-294 | The inner loop as written appends the usable records' ids. A comma follows each id that is not at the last index. The patron URL is the last usable record's, or the one carried in. |
| ApiService.PushEntries | src/helpers/ApiServiceHelper.js:237-306 | The outer loop as written computes the as-written entries: one per source, in key order. |
| ApiService.GenerateRecordApiUrlsArray | src/helpers/ApiServiceHelper.js:193-309 | The whole builder as written: the checks, the grouping by source, then the entries. |
| ApiService.UnusableRecordErrorType | src/helpers/ApiServiceHelper.js:262-283 | A record without an id is `empty-object-property-record`. A record with an id but no patron is `empty-object-property-patron`. |
| ApiService.FirstUnusable | src/helpers/ApiServiceHelper.js:260-283 | Finds the first record without an id or a patron, if any. None means every record is usable. |
| ApiService.IntendedUrlsReject | src/helpers/ApiServiceHelper.js:260-283 | The intended builder rejects exactly when some record lacks an id or a patron. The error returned is that of the first such record in input order. |
| ApiService.GroupIdsJoin | src/helpers/ApiServiceHelper.js:287-293 | With every record usable, the appended ids are the group's ids joined by commas, with a comma after them while records remain. |
| ApiService.EntriesAgree | src/helpers/ApiServiceHelper.js:237-306 | With every record usable, every entry as written is the intended one. |
| ApiService.UrlsAgreeWhenUsable | src/helpers/ApiServiceHelper.js:193-309 | With every record usable, the code as written resolves as intended. Each source gets its ids joined by commas and its last record's patron URL. |
| ApiService.PairGrouping | src/helpers/ApiServiceHelper.js:342-346 | Two records from one source form one group, in order. |
| ApiService.PairEntryAsWritten | src/helpers/ApiServiceHelper.js:260-303 | As written, a usable record followed by one without an id builds an item URL ending in a comma. |
| ApiService.TrailingCommaAsWritten | src/helpers/ApiServiceHelper.js:262-292 | As written, that pair resolves with a trailing-comma item URL. The intended builder rejects it with `empty-object-property-record`. |
| ApiService.OAuthErrorFields | src/helpers/ApiServiceHelper.js:384-421 | Every token failure is an `oauth-service-error` whose status follows the failure. A failure without a message gets the default message. |
| ApiService.TokenShortCircuit | src/helpers/ApiServiceHelper.js:360-423 | Invalid settings reject even with a cached token, and post nothing. A cached token resolves without a POST. Otherwise one POST goes to the OAuth URL with the four settings. |
| ApiService.TokenFromAnswer | src/helpers/ApiServiceHelper.js:369-421 | After a POST, the token resolves exactly when the service returned one, and with that token. A missing token and a failure reject with their own error types. |
| ApiService.MissingTokenAsWritten | src/helpers/ApiServiceHelper.js:372-421 | As written, a response without a token rejects as `oauth-service-error` with status 500 and the default message. As intended, it rejects as `missing-access-token-from-oauth-service`. |
| ApiService.TokenAsWrittenAgrees | src/helpers/ApiServiceHelper.js:351-424 | For every other input, the code as written and the intended reading agree. |

## Left out

- I/O is not modelled: the SCSB REST client, the streams client, `axios`, and
  the Kinesis handler in `index.js`. Each call's answer is a parameter.
- The logger (`src/helpers/Logger.js`) and the debug `console.log` are not
  modelled.
- `src/models/SCSBModel.js`, `src/helpers/HoldingLocationHelper.js` and the
  `getItemData` scaffold are not part of this model. The `bySierraLocation`
  table is a parameter map from location to ReCAP code.
- Concurrency is not modelled:
  - `async.map` in `processBatchRequest` and `Promise.all` in the dispatchers
    run their calls in parallel.
  - Where several calls fail, the model reports the failure with the lowest
    index. The real code reports whichever fails first in time.
- Values are simplified:
  - Falsy values (`undefined`, `null`, `''`) of string fields are all `""`.
  - `toUpperCase` and `toLowerCase` are ASCII only.
  - An error's `error` details are kept as a label, not as the nested object.
- `Object.keys` order: JavaScript lists integer-like keys first. The model keeps
  the source keys in insertion order.
- The ordering of the group keys by first appearance is not stated as a
  lemma.
- The TypeErrors the code would throw are outside the model's preconditions:
  - a non-array `urlsArray` in `processBatchRequest`;
  - a record without an `item` in `sortRecords`, and in the `src/dispatchers`
    reduce;
  - an unknown pickup location in `generateSCSBModel`.
- `item['scsbResponse'] = result` mutates the caller's record. The model
  returns the updated record instead, so aliasing is not modelled.
- The per-record rejection inside the inner `forEach` of
  `generateRecordApiUrlsArray` is discarded in the source. The corrected
  builder models the intended rejection; see Findings.
- ApiService.IntendedUrlsReject: the corrected builder reports the first
  unusable record in input order. A fix inside the source's loops would visit
  the records group by group, and so would report the first one in group
  order. The two can differ: for records `a` (source 1), `b` (source 2,
  unusable) and `c` (source 1, unusable), input order names `b` and group
  order names `c`.
- The TypeError a dispatcher's `.catch` handler throws is one marker value;
  its message is not modelled.
- The empty-decoded-records check (src/helpers/ApiServiceHelper.js:245-257)
  cannot fail for a group built by `groupRecordsBy`, so it is not modelled.
- ScsbPosting.EddBatchNeverSettlesAsWritten: states the hang for a one-record
  batch. For longer batches the statement is split:
  - ScsbPosting.StepsAsWrittenShape finds the first record that needs a write;
  - ScsbPosting.RunAsWrittenHangs shows that the series never settles there.
  The whole-records composition is not a single lemma.

## Findings

| source | as written | input that shows it | evidently intended | confidence | as-written member | corrected member |
|---|---|---|---|---|---|---|
| src/helpers/ResultStreamHelper.js:10 | The default for `schemaName` calls `CACHE.getResultSchemaName()`, which src/globals/index.js does not define (it has `getSchemaName`). Omitting `schemaName` throws a TypeError. Every call in SCSBApiHelper.js omits it, and the throw happens inside a promise callback, so `callback` is never called and the batch never settles. The TypeError is an unhandled rejection, which on Node 15 and later may end the process instead. | A batch of one successful EDD record (ScsbPosting.EddBatchNeverSettlesAsWritten) | The cached schema name is used as the default, so the outcome is written and the batch resolves | high, not executed | ResultStream.OmittedSchemaNameThrows, ScsbPosting.EddBatchNeverSettlesAsWritten | ResultStream.CorrectedDefaultsPost, ScsbPosting.PostingResolvesWithEveryRecord |
| src/dispatchers/HoldRequestDispatcher.js:20-45 | A resolution is pushed only for a non-empty group, but the merge spreads `resolutions[0]` and `resolutions[1]` by position. With one group empty it spreads `undefined` and rejects. | One record whose location code is `mal` (no ReCAP records) | Resolve with the on-site results, as src/helpers/HoldRequestDispatcher.js does | high, not executed | Dispatchers.MergeAsWrittenRejectsOneGroup | Dispatchers.HandlePostingRecords, HoldRequestDispatcher.DispatchResult |
| src/helpers/ApiServiceHelper.js:262-292 | The `Promise.reject(...)` returned from the `forEach` callback is discarded. A record without an id or patron is skipped, and the preceding id keeps its comma. The patron URL also carries over from earlier records and groups. The discarded rejection is itself an unhandled rejection. | Two records of one source, the second without an id (ApiService.TrailingCommaAsWritten) | Reject with `empty-object-property-record` or `empty-object-property-patron` | high, not executed | ApiService.TrailingCommaAsWritten | ApiService.IntendedUrlsReject, ApiService.UrlsAgreeWhenUsable |
| src/helpers/HoldRequestDispatcher.js:39-42 | When a backend rejects, `Promise.all` rejects with that backend's error. The `.catch` handler destructures it as an array; an error is not iterable, so the handler throws a TypeError and the backend's `HoldRequestConsumerError` is lost. src/dispatchers/HoldRequestDispatcher.js:42-45 does the same. | One ReCAP record whose SCSB posting rejects, for example with an empty API key (HoldRequestDispatcher.BackendErrorLostAsWritten) | Reject with the backend's own error | medium, not executed | HoldRequestDispatcher.BackendErrorLostAsWritten, HoldRequestDispatcher.DispatchAsWrittenDropsReason | HoldRequestDispatcher.DispatchResult, HoldRequestDispatcher.DispatchRecords |
| src/helpers/ApiServiceHelper.js:377-421 | The rejection for a missing `access_token` is raised inside `.then`, so the following `.catch` receives it. The catch has neither `response` nor `request`, so it rejects as `oauth-service-error`, status 500, and the error's `.message`, which is undefined, falls back to the default message. | A 2xx OAuth response without `access_token` (ApiService.MissingTokenAsWritten) | Reject with `missing-access-token-from-oauth-service` | high, not executed | ApiService.MissingTokenAsWritten | ApiService.TokenFromAnswer, ApiService.TokenAsWrittenAgrees |
