/** `ApiServiceHelper`: the OAuth settings an instance is built with, the headers
    and batch GET requests it sends to the Item and Patron services, the grouping
    of hold requests by source, the per-source URLs built from that grouping, and
    the OAuth token request with its cached-token short cut. The HTTP transport is
    not modelled: each request's answer is a parameter. */
module ApiService {
  import opened Wrappers
  import Js
  import opened Records
  import opened ConsumerErrors

  // ---------------------------------------------------------------------------
  // The instance
  // ---------------------------------------------------------------------------

  /** The fields the constructor sets; no method changes them afterwards. */
  datatype ApiServiceHelper = ApiServiceHelper(
    oauthUrl: string,
    clientId: string,
    clientSecret: string,
    scope: string,
    grantType: string)

  const DefaultGrantType := "client_credentials"

  /** `ApiServiceHelper(url, clientId, clientSecret, scope, grantType)`, with or
      without `new` (the call without `new` re-invokes itself with it, passing
      the same arguments, so both build the same instance). */
  function NewApiServiceHelper(url: Js.Arg, clientId: Js.Arg, clientSecret: Js.Arg, scope: Js.Arg,
                               grantType: Js.Arg): (h: ApiServiceHelper)
    ensures url.Passed? ==> h.oauthUrl == url.value
    ensures clientId.Passed? ==> h.clientId == clientId.value
    ensures clientSecret.Passed? ==> h.clientSecret == clientSecret.value
    ensures scope.Passed? ==> h.scope == scope.value
    ensures grantType.Passed? ==> h.grantType == grantType.value
    ensures grantType.Omitted? ==> h.grantType == DefaultGrantType
    ensures url.Omitted? ==> h.oauthUrl == ""
    ensures clientId.Omitted? ==> h.clientId == ""
    ensures clientSecret.Omitted? ==> h.clientSecret == ""
    ensures scope.Omitted? ==> h.scope == ""
  {
    ApiServiceHelper(Js.ArgOr(url, ""), Js.ArgOr(clientId, ""), Js.ArgOr(clientSecret, ""),
                     Js.ArgOr(scope, ""), Js.ArgOr(grantType, DefaultGrantType))
  }

  /** `areRequiredParamsValid()`: none of the four OAuth settings is `''`. */
  predicate AreRequiredParamsValid(h: ApiServiceHelper) {
    !(h.oauthUrl == "" || h.clientId == "" || h.clientSecret == "" || h.scope == "")
  }

  /** An instance is usable exactly when the URL, the client id, the client secret
      and the scope were all passed non-empty; the grant type plays no part, and
      an instance built with no arguments is never usable. */
  lemma RequiredParamsIff(url: Js.Arg, clientId: Js.Arg, clientSecret: Js.Arg, scope: Js.Arg, grantType: Js.Arg)
    ensures AreRequiredParamsValid(NewApiServiceHelper(url, clientId, clientSecret, scope, grantType)) <==>
      && url.Passed? && url.value != ""
      && clientId.Passed? && clientId.value != ""
      && clientSecret.Passed? && clientSecret.value != ""
      && scope.Passed? && scope.value != ""
    ensures forall g: Js.Arg ::
      AreRequiredParamsValid(NewApiServiceHelper(url, clientId, clientSecret, scope, g)) ==
      AreRequiredParamsValid(NewApiServiceHelper(url, clientId, clientSecret, scope, grantType))
    ensures !AreRequiredParamsValid(NewApiServiceHelper(Js.Omitted, Js.Omitted, Js.Omitted, Js.Omitted, Js.Omitted))
  {
  }

  // ---------------------------------------------------------------------------
  // Headers
  // ---------------------------------------------------------------------------

  /** The request configuration `constructApiHeaders` returns. */
  datatype ApiHeaders = ApiHeaders(contentType: string, authorization: string, timeout: int)

  const BearerPrefix := "Bearer "
  const JsonContentType := "application/json"

  /** `constructApiHeaders(token = '', contentType = 'application/json')`. */
  function ConstructApiHeaders(token: Js.Arg, contentType: Js.Arg): (r: ApiHeaders)
    ensures r.timeout == 10000
    ensures contentType.Omitted? ==> r.contentType == JsonContentType
    ensures contentType.Passed? ==> r.contentType == contentType.value
  {
    ApiHeaders(Js.ArgOr(contentType, JsonContentType), BearerPrefix + Js.ArgOr(token, ""), 10000)
  }

  /** The authorization header is a bearer header from which the token passed is
      recovered unchanged; an omitted token gives the bare prefix. */
  lemma HeadersCarryToken(token: Js.Arg, contentType: Js.Arg)
    ensures var a := ConstructApiHeaders(token, contentType).authorization;
      && Js.HasPrefix(a, BearerPrefix)
      && a[|BearerPrefix|..] == Js.ArgOr(token, "")
    ensures token.Omitted? ==> ConstructApiHeaders(token, contentType).authorization == BearerPrefix
  {
    var a := ConstructApiHeaders(token, contentType).authorization;
    assert a[..|BearerPrefix|] == BearerPrefix;
  }

  // ---------------------------------------------------------------------------
  // HTTP failures and the errors built from them
  // ---------------------------------------------------------------------------

  /** How an HTTP call failed: the server answered outside 2xx (`error.response`),
      no answer came (`error.request`), or the request was never made (only
      `error.message` is available; "" when it has none). */
  datatype HttpFailure = ResponseFailure(status: int) | NoResponse | SetupFailure(message: string)

  /** The status reported for a failure: the response's own, otherwise 500. */
  function FailureStatus(f: HttpFailure): int {
    match f
    case ResponseFailure(status) => status
    case _ => 500
  }

  /** The three-way error construction shared by the batch requests and the OAuth
      request. The attached `error` object is kept as a label: "response" for the
      response summary, "request" for the pending request. */
  function FailureError(errorType: string, outsideRangeMessage: string, noResponseMessage: string,
                        functionName: string, f: HttpFailure): ConsumerError
  {
    match f
    case ResponseFailure(status) => Make(errorType, outsideRangeMessage, status, functionName, Some("response"))
    case NoResponse => Make(errorType, noResponseMessage, 500, functionName, Some("request"))
    case SetupFailure(message) => Make(errorType, message, 500, functionName, None)
  }

  /** A failure that carries a response keeps that response's status (a falsy
      status leaves the field off); every other failure reports 500. The error
      type and function name are the caller's, and the message is the one for
      the kind of failure. */
  lemma FailureErrorFields(errorType: string, outsideRangeMessage: string, noResponseMessage: string,
                           functionName: string, f: HttpFailure)
    requires errorType != "" && outsideRangeMessage != "" && noResponseMessage != "" && functionName != ""
    ensures var e := FailureError(errorType, outsideRangeMessage, noResponseMessage, functionName, f);
      && e.errorType == errorType
      && e.functionName == Some(functionName)
      && (e.errorStatus.Some? <==> FailureStatus(f) != 0)
      && (e.errorStatus.Some? ==> e.errorStatus.value == FailureStatus(f))
      && (f.NoResponse? || f.SetupFailure? ==> e.errorStatus == Some(500))
      && e.errorMessage == (match f
                            case ResponseFailure(_) => outsideRangeMessage
                            case NoResponse => noResponseMessage
                            case SetupFailure(m) => if m != "" then m else DefaultMessage)
  {
    match f
    case ResponseFailure(status) =>
      ConstructFields(Some(Settings(errorType, outsideRangeMessage, status, "", functionName, Some("response"))), false);
    case NoResponse =>
      ConstructFields(Some(Settings(errorType, noResponseMessage, 500, "", functionName, Some("request"))), false);
    case SetupFailure(m) =>
      ConstructFields(Some(Settings(errorType, m, 500, "", functionName, None)), false);
  }

  // ---------------------------------------------------------------------------
  // processBatchRequest
  // ---------------------------------------------------------------------------

  /** One entry of the array `generateRecordApiUrlsArray` resolves with. */
  datatype UrlEntry = UrlEntry(nyplSource: string, itemApi: string, patronBarcodeApi: string, data: seq<HoldRequest>)

  /** The two services a batch can be sent to; any other `type` is not handled. */
  datatype BatchType = ItemApi | PatronBarcodeApi

  function BatchTypeOf(type_: string): Option<BatchType> {
    if type_ == "itemApi" then Some(ItemApi)
    else if type_ == "patronBarcodeApi" then Some(PatronBarcodeApi)
    else None
  }

  /** A GET request, with its URL and its two headers. */
  datatype GetRequest = GetRequest(url: string, contentType: string, authorization: string)

  /** What one GET led to: a response whose `data.data` is truthy (an array of
      results), a response without it, or a failure. */
  datatype FetchAnswer<T> = Data(data: seq<T>) | NoData | FetchFailed(failure: HttpFailure)

  /** A promise that settles with a value or a rejection, or never settles. */
  datatype Eventually<T> = Pending | Settles(result: Result<T, ConsumerError>)

  const BatchFunction := "processBatchRequest"
  const UndefinedTokenType := "undefined-token-parameter"
  const EmptyUrlsType := "empty-urls-array-parameter"
  const UndefinedTypeType := "undefined-type-parameter"

  /** The argument checks of `processBatchRequest`, first failure wins. */
  function BatchCheck(urlsCount: nat, token: string, type_: string): Option<ConsumerError> {
    if token == "" then
      Some(Make(UndefinedTokenType, "the token parameter is not defined or empty", 0, BatchFunction, None))
    else if urlsCount == 0 then
      Some(Make(EmptyUrlsType, "the urls array parameter is empty", 0, BatchFunction, None))
    else if type_ == "" then
      Some(Make(UndefinedTypeType, "the type parameter is not defined or empty", 0, BatchFunction, None))
    else None
  }

  /** The checks run in the order token, URL array, type. */
  lemma BatchCheckOrder(urlsCount: nat, token: string, type_: string)
    ensures BatchCheck(urlsCount, token, type_).Some? <==> token == "" || urlsCount == 0 || type_ == ""
    ensures BatchCheck(urlsCount, token, type_).Some? ==>
      BatchCheck(urlsCount, token, type_).value.errorType ==
        (if token == "" then UndefinedTokenType else if urlsCount == 0 then EmptyUrlsType else UndefinedTypeType)
    ensures BatchCheck(urlsCount, token, type_).Some? ==>
      BatchCheck(urlsCount, token, type_).value.functionName == Some(BatchFunction)
  {
    if token == "" {
      ConstructFields(Some(Settings(UndefinedTokenType, "the token parameter is not defined or empty", 0, "", BatchFunction, None)), false);
    } else if urlsCount == 0 {
      ConstructFields(Some(Settings(EmptyUrlsType, "the urls array parameter is empty", 0, "", BatchFunction, None)), false);
    } else if type_ == "" {
      ConstructFields(Some(Settings(UndefinedTypeType, "the type parameter is not defined or empty", 0, "", BatchFunction, None)), false);
    }
  }

  /** The rejection built from a failed batch GET. */
  function BatchError(t: BatchType, f: HttpFailure): ConsumerError {
    match t
    case ItemApi =>
      FailureError("item-service-api", "received a status outside of the 2xx range from Item Service",
                   "request was made, no response from Item Service", BatchFunction, f)
    case PatronBarcodeApi =>
      FailureError("patron-service-api", "received a status outside of the 2xx range from Patron Service",
                   "request was made, no response from Patron Service", BatchFunction, f)
  }

  /** The error type names the service, and the status follows the failure. */
  lemma BatchErrorFields(t: BatchType, f: HttpFailure)
    ensures BatchError(t, f).errorType == (if t.ItemApi? then "item-service-api" else "patron-service-api")
    ensures BatchError(t, f).errorStatus.Some? <==> FailureStatus(f) != 0
    ensures BatchError(t, f).errorStatus.Some? ==> BatchError(t, f).errorStatus.value == FailureStatus(f)
  {
    match t
    case ItemApi =>
      FailureErrorFields("item-service-api", "received a status outside of the 2xx range from Item Service",
                         "request was made, no response from Item Service", BatchFunction, f);
    case PatronBarcodeApi =>
      FailureErrorFields("patron-service-api", "received a status outside of the 2xx range from Patron Service",
                         "request was made, no response from Patron Service", BatchFunction, f);
  }

  /** The GET requests `processBatchRequest` sends, one per URL entry in order;
      none when an argument check fails or the type is not handled. */
  function BatchRequests(urlsArray: seq<UrlEntry>, token: string, type_: string): seq<GetRequest> {
    if BatchCheck(|urlsArray|, token, type_).Some? || BatchTypeOf(type_).None? then []
    else
      var t := BatchTypeOf(type_).value;
      seq(|urlsArray|, i requires 0 <= i < |urlsArray| =>
        GetRequest(if t.ItemApi? then urlsArray[i].itemApi else urlsArray[i].patronBarcodeApi,
                   JsonContentType, BearerPrefix + token))
  }

  /** The index of the first failed answer, if any. */
  function FirstFailure<T>(answers: seq<FetchAnswer<T>>): (r: Option<nat>)
    ensures r.Some? ==> r.value < |answers| && answers[r.value].FetchFailed?
    ensures r.Some? ==> forall j :: 0 <= j < r.value ==> !answers[j].FetchFailed?
    ensures r.None? <==> forall j :: 0 <= j < |answers| ==> !answers[j].FetchFailed?
  {
    if |answers| == 0 then None
    else if answers[0].FetchFailed? then Some(0)
    else match FirstFailure(answers[1..])
      case None => None
      case Some(k) => Some(k + 1)
  }

  predicate AllData<T>(answers: seq<FetchAnswer<T>>) {
    forall i :: 0 <= i < |answers| ==> answers[i].Data?
  }

  /** The per-request result arrays, in request order. */
  function Datas<T>(answers: seq<FetchAnswer<T>>): seq<seq<T>>
    requires AllData(answers)
  {
    seq(|answers|, i requires 0 <= i < |answers| => answers[i].data)
  }

  /** `[].concat.apply([], results)`: one level of flattening. */
  function Flatten<T>(ss: seq<seq<T>>): seq<T> {
    if |ss| == 0 then [] else ss[0] + Flatten(ss[1..])
  }

  /** Flattening a concatenation flattens each part in turn. */
  lemma {:induction false} FlattenAppend<T>(a: seq<seq<T>>, b: seq<seq<T>>)
    ensures Flatten(a + b) == Flatten(a) + Flatten(b)
  {
    if |a| == 0 {
      assert a + b == b;
    } else {
      assert (a + b)[1..] == a[1..] + b;
      FlattenAppend(a[1..], b);
    }
  }

  /** Every result of every request is in the flattened array, and nothing else
      is, and its length is the sum of the parts'. */
  lemma {:induction false} FlattenMembership<T>(ss: seq<seq<T>>, x: T)
    ensures x in Flatten(ss) <==> exists i :: 0 <= i < |ss| && x in ss[i]
  {
    if |ss| > 0 {
      FlattenMembership(ss[1..], x);
      if x in Flatten(ss[1..]) {
        var i :| 0 <= i < |ss[1..]| && x in ss[1..][i];
        assert x in ss[i + 1];
      }
      if exists i :: 0 <= i < |ss| && x in ss[i] {
        var i :| 0 <= i < |ss| && x in ss[i];
        if i > 0 {
          assert x in ss[1..][i - 1];
        }
      }
    }
  }

  /** `processBatchRequest(urlsArray, token, type)`, `answers[i]` being what the
      GET for `urlsArray[i]` led to. `async.map` calls back on the first error,
      so any failure rejects (the model takes the first failure by position;
      which failure is first in time is not modelled); without failures, a
      response lacking `data.data` never calls back and the batch never
      settles. An unhandled type never settles either. */
  function ProcessBatchRequest<T>(urlsArray: seq<UrlEntry>, token: string, type_: string,
                                  answers: seq<FetchAnswer<T>>): Eventually<seq<T>>
    requires |answers| == |urlsArray|
  {
    match BatchCheck(|urlsArray|, token, type_)
    case Some(e) => Settles(Err(e))
    case None =>
      match BatchTypeOf(type_)
      case None => Pending
      case Some(t) =>
        match FirstFailure(answers)
        case Some(i) => Settles(Err(BatchError(t, answers[i].failure)))
        case None => if AllData(answers) then Settles(Ok(Flatten(Datas(answers)))) else Pending
  }

  /** The outcomes of a batch whose arguments pass the checks: a rejection comes
      from one of the failed requests, with that service's error; a resolution
      happens exactly when every request answered with data and is those data
      flattened in request order; otherwise the promise never settles, which
      happens exactly for an unhandled type or a data-less answer without any
      failure. */
  lemma BatchOutcome<T>(urlsArray: seq<UrlEntry>, token: string, type_: string, answers: seq<FetchAnswer<T>>)
    requires |answers| == |urlsArray|
    requires BatchCheck(|urlsArray|, token, type_).None?
    ensures var r := ProcessBatchRequest(urlsArray, token, type_, answers);
      r.Settles? && r.result.Err? ==>
        && BatchTypeOf(type_).Some?
        && exists i :: 0 <= i < |answers| && answers[i].FetchFailed? &&
                       r.result.error == BatchError(BatchTypeOf(type_).value, answers[i].failure)
    ensures var r := ProcessBatchRequest(urlsArray, token, type_, answers);
      r.Settles? && r.result.Ok? <==> BatchTypeOf(type_).Some? && AllData(answers)
    ensures var r := ProcessBatchRequest(urlsArray, token, type_, answers);
      r.Settles? && r.result.Ok? ==> r.result.value == Flatten(Datas(answers))
    ensures var r := ProcessBatchRequest(urlsArray, token, type_, answers);
      r.Pending? <==> BatchTypeOf(type_).None? ||
                      ((forall i :: 0 <= i < |answers| ==> !answers[i].FetchFailed?) &&
                       exists i :: 0 <= i < |answers| && answers[i].NoData?)
  {
  }

  /** A failed argument check rejects without sending anything; otherwise one
      bearer-authorised JSON GET goes to each entry's URL for the type, in
      order. */
  lemma BatchRequestsShape(urlsArray: seq<UrlEntry>, token: string, type_: string)
    ensures BatchCheck(|urlsArray|, token, type_).Some? ==> BatchRequests(urlsArray, token, type_) == []
    ensures BatchCheck(|urlsArray|, token, type_).None? && BatchTypeOf(type_).Some? ==>
      var rs := BatchRequests(urlsArray, token, type_);
      && |rs| == |urlsArray|
      && forall i :: 0 <= i < |rs| ==>
           && rs[i].url == (if type_ == "itemApi" then urlsArray[i].itemApi else urlsArray[i].patronBarcodeApi)
           && rs[i].contentType == JsonContentType
           && rs[i].authorization == ConstructApiHeaders(Js.Passed(token), Js.Omitted).authorization
  {
  }

  // ---------------------------------------------------------------------------
  // groupRecordsBy
  // ---------------------------------------------------------------------------

  /** The object `groupRecordsBy` returns: its keys in insertion order, and the
      array under each. */
  datatype Grouped = Grouped(keys: seq<string>, groups: map<string, seq<HoldRequest>>)

  /** The keys listed are the keys present, each listed once, each group
      non-empty. */
  predicate WellFormed(g: Grouped) {
    && (forall k :: k in g.keys ==> k in g.groups)
    && (forall k :: k in g.groups ==> k in g.keys)
    && (forall i, j :: 0 <= i < j < |g.keys| ==> g.keys[i] != g.keys[j])
    && (forall k :: k in g.groups ==> |g.groups[k]| > 0)
  }

  /** `record['nyplSource']` is the record's source. */
  lemma SourceProperty(r: HoldRequest)
    ensures Property(r, SourceKey) == r.nyplSource
  {
  }

  /** The reduce over `records`: each record is pushed onto the array under its
      `record[key]`, a new key being added after the existing ones. */
  function Grouping(records: seq<HoldRequest>, key: string): Grouped {
    if |records| == 0 then Grouped([], map[])
    else
      var g := Grouping(records[..|records| - 1], key);
      var last := records[|records| - 1];
      var k := Property(last, key);
      if k in g.groups then Grouped(g.keys, g.groups[k := g.groups[k] + [last]])
      else Grouped(g.keys + [k], g.groups[k := [last]])
  }

  /** The records whose `record[key]` is `k`, in input order. */
  function Matching(records: seq<HoldRequest>, key: string, k: string): seq<HoldRequest> {
    if |records| == 0 then []
    else
      var last := records[|records| - 1];
      Matching(records[..|records| - 1], key, k) + (if Property(last, key) == k then [last] else [])
  }

  lemma {:induction false} MatchingMembership(records: seq<HoldRequest>, key: string, k: string)
    ensures forall r :: r in Matching(records, key, k) <==> r in records && Property(r, key) == k
  {
    if |records| > 0 {
      MatchingMembership(records[..|records| - 1], key, k);
      assert records == records[..|records| - 1] + [records[|records| - 1]];
    }
  }

  /** The keys listed are exactly the keys present, each listed once. */
  lemma {:induction false} GroupingKeys(records: seq<HoldRequest>, key: string)
    ensures forall k :: k in Grouping(records, key).keys ==> k in Grouping(records, key).groups
    ensures forall k :: k in Grouping(records, key).groups ==> k in Grouping(records, key).keys
    ensures forall i, j :: 0 <= i < j < |Grouping(records, key).keys| ==>
      Grouping(records, key).keys[i] != Grouping(records, key).keys[j]
  {
    if |records| > 0 {
      var init := records[..|records| - 1];
      GroupingKeys(init, key);
      var g0 := Grouping(init, key);
      var lk := Property(records[|records| - 1], key);
      if lk !in g0.groups {
        var keys := g0.keys + [lk];
        assert lk !in g0.keys;
        assert forall i :: 0 <= i < |g0.keys| ==> keys[i] == g0.keys[i] && keys[i] in g0.groups;
        assert keys[|g0.keys|] == lk;
      }
    }
  }

  /** Each record lands in exactly the group named by its `record[key]`, every
      group keeps the input order, and a key is present exactly when some
      record has it. */
  lemma {:induction false} GroupingGroups(records: seq<HoldRequest>, key: string)
    ensures forall k :: k in Grouping(records, key).groups ==> Grouping(records, key).groups[k] == Matching(records, key, k)
    ensures forall k :: k in Grouping(records, key).groups <==> |Matching(records, key, k)| > 0
  {
    if |records| > 0 {
      var init := records[..|records| - 1];
      var last := records[|records| - 1];
      GroupingGroups(init, key);
      var g0 := Grouping(init, key);
      var g := Grouping(records, key);
      var lk := Property(last, key);
      forall k | k in g.groups
        ensures g.groups[k] == Matching(records, key, k)
      {
        if k == lk && lk !in g0.groups {
          assert |Matching(init, key, k)| == 0;
        }
      }
    }
  }

  /** The grouping is well formed: with `GroupingKeys`, every group is
      non-empty. */
  lemma GroupingShape(records: seq<HoldRequest>, key: string)
    ensures WellFormed(Grouping(records, key))
    ensures forall k :: k in Grouping(records, key).groups ==> Grouping(records, key).groups[k] == Matching(records, key, k)
    ensures forall k :: k in Grouping(records, key).groups <==> |Matching(records, key, k)| > 0
  {
    GroupingKeys(records, key);
    GroupingGroups(records, key);
  }

  const GroupFunction := "groupRecordsBy"

  /** The checks `groupRecordsBy` throws for, first failure wins: records
      missing, records empty, key empty. */
  function GroupCheck(records: Option<seq<HoldRequest>>, key: string): Option<ConsumerError> {
    if records.None? then
      Some(Make("undefined-records-array-parameter", "the records array is not defined", 0, GroupFunction, None))
    else if |records.value| == 0 then
      Some(Make("empty-records-array-parameter", "the records array is empty", 0, GroupFunction, None))
    else if key == "" then
      Some(Make("undefined-key-parameter", "the key parameter is not defined or empty", 0, GroupFunction, None))
    else None
  }

  lemma GroupCheckOrder(records: Option<seq<HoldRequest>>, key: string)
    ensures GroupCheck(records, key).Some? <==> records.None? || |records.value| == 0 || key == ""
    ensures GroupCheck(records, key).Some? ==>
      GroupCheck(records, key).value.errorType ==
        (if records.None? then "undefined-records-array-parameter"
         else if |records.value| == 0 then "empty-records-array-parameter"
         else "undefined-key-parameter")
  {
    if records.None? {
      ConstructFields(Some(Settings("undefined-records-array-parameter", "the records array is not defined", 0, "", GroupFunction, None)), false);
    } else if |records.value| == 0 {
      ConstructFields(Some(Settings("empty-records-array-parameter", "the records array is empty", 0, "", GroupFunction, None)), false);
    } else if key == "" {
      ConstructFields(Some(Settings("undefined-key-parameter", "the key parameter is not defined or empty", 0, "", GroupFunction, None)), false);
    }
  }

  /** What `groupRecordsBy(records, key)` throws or returns. */
  function GroupRecords(records: Option<seq<HoldRequest>>, key: string): Result<Grouped, ConsumerError> {
    match GroupCheck(records, key)
    case Some(e) => Err(e)
    case None => Ok(Grouping(records.value, key))
  }

  /** `groupRecordsBy(records, key)`: the checks, then the reduce that pushes
      each record onto its group. */
  method GroupRecordsBy(records: Option<seq<HoldRequest>>, key: string) returns (r: Result<Grouped, ConsumerError>)
    ensures r == GroupRecords(records, key)
  {
    var check := GroupCheck(records, key);
    if check.Some? {
      return Err(check.value);
    }
    var rs := records.value;
    var keys: seq<string> := [];
    var groups: map<string, seq<HoldRequest>> := map[];
    var i := 0;
    while i < |rs|
      invariant 0 <= i <= |rs|
      invariant Grouping(rs[..i], key) == Grouped(keys, groups)
    {
      assert rs[..i + 1][..i] == rs[..i] && rs[..i + 1][i] == rs[i];
      var k := Property(rs[i], key);
      if k !in groups {
        keys := keys + [k];
        groups := groups[k := []];
      }
      assert [] + [rs[i]] == [rs[i]];
      groups := groups[k := groups[k] + [rs[i]]];
      i := i + 1;
    }
    assert rs[..i] == rs;
    return Ok(Grouped(keys, groups));
  }

  // ---------------------------------------------------------------------------
  // generateRecordApiUrlsArray
  // ---------------------------------------------------------------------------

  const UrlsFunction := "setItemApiUrlToRecord"
  const SourceKey := "nyplSource"

  /** The checks `generateRecordApiUrlsArray` rejects for, first failure wins:
      base URL empty, records missing, records empty. */
  function UrlsCheck(records: Option<seq<HoldRequest>>, baseApiUrl: string): Option<ConsumerError> {
    if baseApiUrl == "" then
      Some(Make("undefined-base-api-url-parameter", "the baseApiUrl parameter is not defined or empty", 0, UrlsFunction, None))
    else if records.None? then
      Some(Make("undefined-records-array-parameter", "the records array parameter is not defined", 0, UrlsFunction, None))
    else if |records.value| == 0 then
      Some(Make("empty-records-array-parameter", "the records array parameter is empty", 0, UrlsFunction, None))
    else None
  }

  lemma UrlsCheckOrder(records: Option<seq<HoldRequest>>, baseApiUrl: string)
    ensures UrlsCheck(records, baseApiUrl).Some? <==> baseApiUrl == "" || records.None? || |records.value| == 0
    ensures UrlsCheck(records, baseApiUrl).Some? ==>
      UrlsCheck(records, baseApiUrl).value.errorType ==
        (if baseApiUrl == "" then "undefined-base-api-url-parameter"
         else if records.None? then "undefined-records-array-parameter"
         else "empty-records-array-parameter")
  {
    if baseApiUrl == "" {
      ConstructFields(Some(Settings("undefined-base-api-url-parameter", "the baseApiUrl parameter is not defined or empty", 0, "", UrlsFunction, None)), false);
    } else if records.None? {
      ConstructFields(Some(Settings("undefined-records-array-parameter", "the records array parameter is not defined", 0, "", UrlsFunction, None)), false);
    } else if |records.value| == 0 {
      ConstructFields(Some(Settings("empty-records-array-parameter", "the records array parameter is empty", 0, "", UrlsFunction, None)), false);
    }
  }

  /** The rejection for an empty grouping; it cannot happen once the records
      are non-empty (`GroupingNonEmpty`). */
  function EmptyGroupedError(): ConsumerError {
    Make("empty-grouped-records-object", "the groupedRecords object is empty, could not iterate over object keys",
         0, UrlsFunction, None)
  }

  /** A non-empty batch always has at least one group. */
  lemma GroupingNonEmpty(records: seq<HoldRequest>, key: string)
    requires |records| > 0
    ensures |Grouping(records, key).keys| > 0
  {
    GroupingShape(records, key);
    var k := Property(records[0], key);
    MatchingMembership(records, key, k);
    assert records[0] in Matching(records, key, k);
  }

  /** A record the item and patron URLs can be built from. */
  predicate UsableRecord(r: HoldRequest) {
    r.record != "" && r.patron != ""
  }

  /** The ids the inner loop has appended after the first `n` records of a group,
      as written: an unusable record is skipped (its rejection is discarded),
      while a usable one appends its id and, unless it sits last in the group, a
      comma. */
  function GroupIdsAsWritten(group: seq<HoldRequest>, n: nat): string
    requires n <= |group|
  {
    if n == 0 then ""
    else
      var r := group[n - 1];
      GroupIdsAsWritten(group, n - 1) + (if UsableRecord(r) then r.record + (if |group| != n then "," else "") else "")
  }

  /** `patronBarcodeApiUrl` after the first `n` records of a group, as written:
      the URL of the last usable one, or the value it held before the group
      (it is never reset). */
  function PatronUrlAsWritten(group: seq<HoldRequest>, n: nat, carried: string, patronBase: string): string
    requires n <= |group|
  {
    if n == 0 then carried
    else if UsableRecord(group[n - 1]) then patronBase + "/" + group[n - 1].patron + "/barcode"
    else PatronUrlAsWritten(group, n - 1, carried, patronBase)
  }

  /** The array pushed to and the patron URL carried, after the first `n` groups. */
  datatype UrlState = UrlState(entries: seq<UrlEntry>, patronUrl: string)

  function EntriesAsWritten(g: Grouped, baseApiUrl: string, n: nat): UrlState
    requires WellFormed(g) && n <= |g.keys|
  {
    if n == 0 then UrlState([], "")
    else
      var prev := EntriesAsWritten(g, baseApiUrl, n - 1);
      var key := g.keys[n - 1];
      var group := g.groups[key];
      var patronUrl := PatronUrlAsWritten(group, |group|, prev.patronUrl, baseApiUrl + "patrons");
      var itemUrl := (baseApiUrl + "items?id=") + GroupIdsAsWritten(group, |group|) + "&nyplSource=" + key;
      UrlState(prev.entries + [UrlEntry(key, itemUrl, patronUrl, group)], patronUrl)
  }

  /** What `generateRecordApiUrlsArray(records, baseApiUrl)` settles with, as
      written. */
  function UrlsArrayAsWritten(records: Option<seq<HoldRequest>>, baseApiUrl: string): Result<seq<UrlEntry>, ConsumerError> {
    match UrlsCheck(records, baseApiUrl)
    case Some(e) => Err(e)
    case None =>
      var g := Grouping(records.value, SourceKey);
      GroupingShape(records.value, SourceKey);
      if |g.keys| == 0 then Err(EmptyGroupedError())
      else Ok(EntriesAsWritten(g, baseApiUrl, |g.keys|).entries)
  }

  /** The inner `forEach` over one group, as written: for each usable record,
      set the patron URL and append the id and, unless last, a comma; an
      unusable record's rejection is returned from the callback and lost. */
  method AppendGroupIds(group: seq<HoldRequest>, itemApiUrlBase: string, patronBarcodeApiUrlBase: string,
                        carried: string)
      returns (itemApiUrl: string, patronBarcodeApiUrl: string)
    ensures itemApiUrl == itemApiUrlBase + GroupIdsAsWritten(group, |group|)
    ensures patronBarcodeApiUrl == PatronUrlAsWritten(group, |group|, carried, patronBarcodeApiUrlBase)
  {
    itemApiUrl, patronBarcodeApiUrl := itemApiUrlBase, carried;
    var j := 0;
    while j < |group|
      invariant 0 <= j <= |group|
      invariant itemApiUrl == itemApiUrlBase + GroupIdsAsWritten(group, j)
      invariant patronBarcodeApiUrl == PatronUrlAsWritten(group, j, carried, patronBarcodeApiUrlBase)
    {
      if group[j].record != "" && group[j].patron != "" {
        patronBarcodeApiUrl := patronBarcodeApiUrlBase + "/" + group[j].patron + "/barcode";
        itemApiUrl := itemApiUrl + group[j].record;
        if |group| != j + 1 {
          itemApiUrl := itemApiUrl + ",";
        }
      }
      j := j + 1;
    }
  }

  /** The outer `forEach` over the sources, as written: build each source's
      entry, carry the patron URL over to the next source and reset the item
      URL. */
  method PushEntries(g: Grouped, baseApiUrl: string) returns (itemApiUrlsArray: seq<UrlEntry>)
    requires WellFormed(g)
    ensures itemApiUrlsArray == EntriesAsWritten(g, baseApiUrl, |g.keys|).entries
  {
    var itemApiUrlBase := baseApiUrl + "items?id=";
    var patronBarcodeApiUrlBase := baseApiUrl + "patrons";
    itemApiUrlsArray := [];
    var patronBarcodeApiUrl := "";
    var i := 0;
    while i < |g.keys|
      invariant 0 <= i <= |g.keys|
      invariant EntriesAsWritten(g, baseApiUrl, i) == UrlState(itemApiUrlsArray, patronBarcodeApiUrl)
    {
      var key := g.keys[i];
      var group := g.groups[key];
      var itemApiUrl;
      itemApiUrl, patronBarcodeApiUrl := AppendGroupIds(group, itemApiUrlBase, patronBarcodeApiUrlBase, patronBarcodeApiUrl);
      itemApiUrl := itemApiUrl + "&nyplSource=" + key;
      itemApiUrlsArray := itemApiUrlsArray + [UrlEntry(key, itemApiUrl, patronBarcodeApiUrl, group)];
      i := i + 1;
    }
  }

  /** `generateRecordApiUrlsArray(records, baseApiUrl)` as written: the checks,
      the grouping by source, then one entry per source. */
  method GenerateRecordApiUrlsArray(records: Option<seq<HoldRequest>>, baseApiUrl: string)
      returns (r: Result<seq<UrlEntry>, ConsumerError>)
    ensures r == UrlsArrayAsWritten(records, baseApiUrl)
  {
    var check := UrlsCheck(records, baseApiUrl);
    if check.Some? {
      return Err(check.value);
    }
    var grouped := GroupRecordsBy(records, SourceKey);
    var g := grouped.value;
    GroupingShape(records.value, SourceKey);
    if |g.keys| == 0 {
      return Err(EmptyGroupedError());
    }
    var entries := PushEntries(g, baseApiUrl);
    return Ok(entries);
  }

  // The evidently intended URL builder: an unusable record rejects the batch.

  /** The rejection an unusable record was meant to cause. */
  function UnusableRecordError(r: HoldRequest): ConsumerError {
    if r.record == "" then
      Make("empty-object-property-record", "the record object key within the item id is not defined", 0, UrlsFunction, Some("record"))
    else
      Make("empty-object-property-patron", "the patron object key within the patron id is not defined", 0, UrlsFunction, Some("record"))
  }

  lemma UnusableRecordErrorType(r: HoldRequest)
    ensures UnusableRecordError(r).errorType ==
      (if r.record == "" then "empty-object-property-record" else "empty-object-property-patron")
  {
    if r.record == "" {
      ConstructFields(Some(Settings("empty-object-property-record", "the record object key within the item id is not defined", 0, "", UrlsFunction, Some("record"))), false);
    } else {
      ConstructFields(Some(Settings("empty-object-property-patron", "the patron object key within the patron id is not defined", 0, "", UrlsFunction, Some("record"))), false);
    }
  }

  /** The index of the first unusable record, if any. */
  function FirstUnusable(records: seq<HoldRequest>): (r: Option<nat>)
    ensures r.Some? ==> r.value < |records| && !UsableRecord(records[r.value])
    ensures r.Some? ==> forall j :: 0 <= j < r.value ==> UsableRecord(records[j])
    ensures r.None? <==> forall j :: 0 <= j < |records| ==> UsableRecord(records[j])
  {
    if |records| == 0 then None
    else if !UsableRecord(records[0]) then Some(0)
    else match FirstUnusable(records[1..])
      case None => None
      case Some(k) => Some(k + 1)
  }

  /** The item ids of a group, in order. */
  function Ids(group: seq<HoldRequest>): seq<string> {
    seq(|group|, i requires 0 <= i < |group| => group[i].record)
  }

  /** One source's entry: the group's ids joined by commas, and the patron URL
      of the group's last record. */
  function SourceEntry(key: string, group: seq<HoldRequest>, baseApiUrl: string): UrlEntry
    requires |group| > 0
  {
    UrlEntry(key, (baseApiUrl + "items?id=") + Js.Join(Ids(group), ",") + "&nyplSource=" + key,
             (baseApiUrl + "patrons") + "/" + group[|group| - 1].patron + "/barcode", group)
  }

  function SourceEntries(g: Grouped, baseApiUrl: string, n: nat): seq<UrlEntry>
    requires WellFormed(g) && n <= |g.keys|
  {
    seq(n, i requires 0 <= i < n => SourceEntry(g.keys[i], g.groups[g.keys[i]], baseApiUrl))
  }

  /** `generateRecordApiUrlsArray` as evidently intended: after the same checks,
      the first unusable record rejects the batch; otherwise one entry per
      source. */
  function GenerateRecordApiUrls(records: Option<seq<HoldRequest>>, baseApiUrl: string): Result<seq<UrlEntry>, ConsumerError> {
    match UrlsCheck(records, baseApiUrl)
    case Some(e) => Err(e)
    case None =>
      match FirstUnusable(records.value)
      case Some(i) => Err(UnusableRecordError(records.value[i]))
      case None =>
        var g := Grouping(records.value, SourceKey);
        GroupingShape(records.value, SourceKey);
        Ok(SourceEntries(g, baseApiUrl, |g.keys|))
  }

  /** Past the checks, the intended builder rejects exactly when some record
      has an empty id or an empty patron, with the error of the first such
      record in input order, naming which of the two it lacks. */
  lemma IntendedUrlsReject(records: seq<HoldRequest>, baseApiUrl: string)
    requires baseApiUrl != "" && |records| > 0
    ensures GenerateRecordApiUrls(Some(records), baseApiUrl).Err? <==>
      exists i :: 0 <= i < |records| && !UsableRecord(records[i])
    ensures GenerateRecordApiUrls(Some(records), baseApiUrl).Err? ==>
      exists i :: 0 <= i < |records| && !UsableRecord(records[i]) &&
        (forall j :: 0 <= j < i ==> UsableRecord(records[j])) &&
        GenerateRecordApiUrls(Some(records), baseApiUrl).error == UnusableRecordError(records[i]) &&
        GenerateRecordApiUrls(Some(records), baseApiUrl).error.errorType ==
          (if records[i].record == "" then "empty-object-property-record" else "empty-object-property-patron")
  {
    match FirstUnusable(records)
    case Some(i) => UnusableRecordErrorType(records[i]);
    case None =>
  }

  /** With every record usable, the ids the inner loop appends are the group's
      ids joined by commas, followed by a comma while records remain. */
  lemma {:induction false} GroupIdsJoin(group: seq<HoldRequest>, n: nat)
    requires forall i :: 0 <= i < |group| ==> UsableRecord(group[i])
    requires 0 < n <= |group|
    ensures GroupIdsAsWritten(group, n) == Js.Join(Ids(group)[..n], ",") + (if n < |group| then "," else "")
  {
    var ids := Ids(group);
    if n == 1 {
      assert ids[..1] == [group[0].record];
      assert GroupIdsAsWritten(group, 0) == "";
    } else {
      GroupIdsJoin(group, n - 1);
      assert ids[..n] == ids[..n - 1] + [group[n - 1].record];
      Js.JoinSnoc(ids[..n - 1], group[n - 1].record, ",");
    }
  }

  /** With every record usable, each source's entry as written is the intended
      one. */
  lemma {:induction false} EntriesAgree(g: Grouped, baseApiUrl: string, n: nat)
    requires WellFormed(g) && n <= |g.keys|
    requires forall k, i :: k in g.groups && 0 <= i < |g.groups[k]| ==> UsableRecord(g.groups[k][i])
    ensures EntriesAsWritten(g, baseApiUrl, n).entries == SourceEntries(g, baseApiUrl, n)
  {
    if n > 0 {
      EntriesAgree(g, baseApiUrl, n - 1);
      var key := g.keys[n - 1];
      var group := g.groups[key];
      var prev := EntriesAsWritten(g, baseApiUrl, n - 1);
      GroupIdsJoin(group, |group|);
      assert Ids(group)[..|group|] == Ids(group);
      assert GroupIdsAsWritten(group, |group|) == Js.Join(Ids(group), ",") + "" == Js.Join(Ids(group), ",");
      assert UsableRecord(group[|group| - 1]);
      assert PatronUrlAsWritten(group, |group|, prev.patronUrl, baseApiUrl + "patrons")
          == (baseApiUrl + "patrons") + "/" + group[|group| - 1].patron + "/barcode";
      assert SourceEntries(g, baseApiUrl, n) == SourceEntries(g, baseApiUrl, n - 1) + [SourceEntry(g.keys[n - 1], group, baseApiUrl)];
    }
  }

  /** When no record is unusable the code as written already does what was
      intended: one entry per source, whose item URL joins the group's ids by
      commas and whose patron URL is that of the group's last record. */
  lemma UrlsAgreeWhenUsable(records: seq<HoldRequest>, baseApiUrl: string)
    requires baseApiUrl != "" && |records| > 0
    requires forall i :: 0 <= i < |records| ==> UsableRecord(records[i])
    ensures UrlsArrayAsWritten(Some(records), baseApiUrl) == GenerateRecordApiUrls(Some(records), baseApiUrl)
    ensures GenerateRecordApiUrls(Some(records), baseApiUrl).Ok?
  {
    var g := Grouping(records, SourceKey);
    GroupingShape(records, SourceKey);
    GroupingNonEmpty(records, SourceKey);
    forall k, i | k in g.groups && 0 <= i < |g.groups[k]|
      ensures UsableRecord(g.groups[k][i])
    {
      MatchingMembership(records, SourceKey, k);
      assert g.groups[k][i] in Matching(records, SourceKey, k);
    }
    EntriesAgree(g, baseApiUrl, |g.keys|);
  }

  /** Two records from one source form one group, in order. */
  lemma PairGrouping(a: HoldRequest, b: HoldRequest)
    requires a.nyplSource == b.nyplSource
    ensures Grouping([a, b], SourceKey) == Grouped([a.nyplSource], map[a.nyplSource := [a, b]])
  {
    SourceProperty(a);
    SourceProperty(b);
    assert [a, b][..1] == [a];
    assert [a][..0] == [];
    assert Grouping([a], SourceKey) == Grouped([a.nyplSource], map[a.nyplSource := [a]]);
    assert [a] + [b] == [a, b];
  }

  /** The entry built, as written, for a usable record followed by one without
      an id. */
  lemma PairEntryAsWritten(a: HoldRequest, b: HoldRequest, baseApiUrl: string)
    requires UsableRecord(a) && b.record == ""
    ensures var g := Grouped([a.nyplSource], map[a.nyplSource := [a, b]]);
      WellFormed(g) &&
      EntriesAsWritten(g, baseApiUrl, 1).entries ==
        [UrlEntry(a.nyplSource, (baseApiUrl + "items?id=") + (a.record + ",") + "&nyplSource=" + a.nyplSource,
                  (baseApiUrl + "patrons") + "/" + a.patron + "/barcode", [a, b])]
  {
    assert GroupIdsAsWritten([a, b], 0) == "";
    assert GroupIdsAsWritten([a, b], 1) == "" + (a.record + ",") == a.record + ",";
    assert GroupIdsAsWritten([a, b], 2) == (a.record + ",") + "" == a.record + ",";
    var pb := baseApiUrl + "patrons";
    assert PatronUrlAsWritten([a, b], 2, "", pb) == PatronUrlAsWritten([a, b], 1, "", pb);
  }

  /** The input that shows it: a source whose second record has no id. As
      written the rejection is lost and the item URL keeps the comma written
      after the first id (`items?id=1,&nyplSource=...`); as intended the batch
      rejects. */
  lemma TrailingCommaAsWritten(a: HoldRequest, b: HoldRequest, baseApiUrl: string)
    requires baseApiUrl != ""
    requires UsableRecord(a) && b.record == "" && a.nyplSource == b.nyplSource
    ensures UrlsArrayAsWritten(Some([a, b]), baseApiUrl) ==
      Ok([UrlEntry(a.nyplSource, (baseApiUrl + "items?id=") + (a.record + ",") + "&nyplSource=" + a.nyplSource,
                   (baseApiUrl + "patrons") + "/" + a.patron + "/barcode", [a, b])])
    ensures GenerateRecordApiUrls(Some([a, b]), baseApiUrl).Err?
    ensures GenerateRecordApiUrls(Some([a, b]), baseApiUrl).error.errorType == "empty-object-property-record"
  {
    PairGrouping(a, b);
    PairEntryAsWritten(a, b, baseApiUrl);
    assert UrlsCheck(Some([a, b]), baseApiUrl).None?;
    assert UrlsArrayAsWritten(Some([a, b]), baseApiUrl) == Ok(EntriesAsWritten(Grouping([a, b], SourceKey), baseApiUrl, 1).entries);
    assert !UsableRecord([a, b][1]);
    assert FirstUnusable([a, b]) == Some(1);
    UnusableRecordErrorType(b);
  }

  // ---------------------------------------------------------------------------
  // getOAuthToken
  // ---------------------------------------------------------------------------

  /** The form body posted to the OAuth service. */
  datatype AuthConfig = AuthConfig(clientId: string, clientSecret: string, grantType: string, scope: string)

  datatype OAuthPost = OAuthPost(url: string, body: AuthConfig)

  /** What the token POST led to: a response whose `data.access_token` is the
      given string ("" when missing or falsy), or a failure. */
  datatype OAuthAnswer = AccessToken(token: string) | OAuthFailed(failure: HttpFailure)

  /** The POST made, if any, and what the returned promise settles with. */
  datatype TokenRequest = TokenRequest(post: Option<OAuthPost>, result: Result<string, ConsumerError>)

  const TokenFunction := "getOAuthToken"
  const MissingParamsType := "missing-constructor-required-params"
  const MissingTokenType := "missing-access-token-from-oauth-service"
  const OAuthErrorType := "oauth-service-error"

  function MissingParamsError(): ConsumerError {
    Make(MissingParamsType, "OAuth required parameters are not defined", 0, TokenFunction, None)
  }

  function MissingTokenError(): ConsumerError {
    Make(MissingTokenType, "missing access_token value from OAuth Service", 0, TokenFunction, None)
  }

  /** The `.catch` handler's rejection for a failure. */
  function OAuthError(f: HttpFailure): ConsumerError {
    FailureError(OAuthErrorType, "received a status outside of the 2xx range",
                 "request was made, no response from OAuth Service", TokenFunction, f)
  }

  lemma OAuthErrorFields(f: HttpFailure)
    ensures OAuthError(f).errorType == OAuthErrorType
    ensures OAuthError(f).errorStatus.Some? <==> FailureStatus(f) != 0
    ensures OAuthError(f).errorStatus.Some? ==> OAuthError(f).errorStatus.value == FailureStatus(f)
    ensures f == SetupFailure("") ==> OAuthError(f).errorMessage == DefaultMessage
  {
    FailureErrorFields(OAuthErrorType, "received a status outside of the 2xx range",
                       "request was made, no response from OAuth Service", TokenFunction, f);
  }

  /** The shape shared by both readings of `getOAuthToken(cachedToken)`: invalid
      settings reject before anything else, a truthy cached token resolves
      without a request, otherwise the settings are posted and `posted` is what
      the request chain settles with. */
  function RequestToken(h: ApiServiceHelper, cachedToken: string, posted: Result<string, ConsumerError>): TokenRequest {
    if !AreRequiredParamsValid(h) then TokenRequest(None, Err(MissingParamsError()))
    else if cachedToken != "" then TokenRequest(None, Ok(cachedToken))
    else TokenRequest(Some(OAuthPost(h.oauthUrl, AuthConfig(h.clientId, h.clientSecret, h.grantType, h.scope))), posted)
  }

  /** The chain as written: the `.then` handler's rejection for a missing token
      is caught by the `.catch` handler, which finds neither `response` nor
      `request` on it and reads its `message`, which the consumer's error does
      not have. */
  function PostedAsWritten(answer: OAuthAnswer): Result<string, ConsumerError> {
    match answer
    case AccessToken(t) => if t != "" then Ok(t) else Err(OAuthError(SetupFailure("")))
    case OAuthFailed(f) => Err(OAuthError(f))
  }

  /** The chain as evidently intended: a missing token rejects with its own
      error. */
  function Posted(answer: OAuthAnswer): Result<string, ConsumerError> {
    match answer
    case AccessToken(t) => if t != "" then Ok(t) else Err(MissingTokenError())
    case OAuthFailed(f) => Err(OAuthError(f))
  }

  function GetOAuthTokenAsWritten(h: ApiServiceHelper, cachedToken: string, answer: OAuthAnswer): TokenRequest {
    RequestToken(h, cachedToken, PostedAsWritten(answer))
  }

  /** `getOAuthToken(cachedToken)`, `answer` being what the POST led to. */
  function GetOAuthToken(h: ApiServiceHelper, cachedToken: string, answer: OAuthAnswer): TokenRequest {
    RequestToken(h, cachedToken, Posted(answer))
  }

  /** Invalid settings reject even when a token is cached, and post nothing; a
      truthy cached token is returned as is and nothing is posted; otherwise
      exactly one POST of the client credentials, grant type and scope goes to
      the OAuth URL. */
  lemma TokenShortCircuit(h: ApiServiceHelper, cachedToken: string, answer: OAuthAnswer)
    ensures var t := GetOAuthToken(h, cachedToken, answer);
      !AreRequiredParamsValid(h) ==> t.post.None? && t.result.Err? && t.result.error.errorType == MissingParamsType
    ensures var t := GetOAuthToken(h, cachedToken, answer);
      AreRequiredParamsValid(h) && cachedToken != "" ==> t.post.None? && t.result == Ok(cachedToken)
    ensures var t := GetOAuthToken(h, cachedToken, answer);
      AreRequiredParamsValid(h) && cachedToken == "" ==>
        t.post == Some(OAuthPost(h.oauthUrl, AuthConfig(h.clientId, h.clientSecret, h.grantType, h.scope)))
  {
    ConstructFields(Some(Settings(MissingParamsType, "OAuth required parameters are not defined", 0, "", TokenFunction, None)), false);
  }

  /** After a POST, the token resolves exactly when the service returned a
      non-empty one; a missing token and a failure reject with their own error
      types, a failure keeping its response status or reporting 500. */
  lemma TokenFromAnswer(h: ApiServiceHelper, answer: OAuthAnswer)
    requires AreRequiredParamsValid(h)
    ensures var t := GetOAuthToken(h, "", answer);
      t.result.Ok? <==> answer.AccessToken? && answer.token != ""
    ensures var t := GetOAuthToken(h, "", answer);
      t.result.Ok? ==> t.result.value == answer.token
    ensures var t := GetOAuthToken(h, "", answer);
      answer == AccessToken("") ==> t.result.error.errorType == MissingTokenType
    ensures var t := GetOAuthToken(h, "", answer);
      answer.OAuthFailed? ==>
        && t.result.error.errorType == OAuthErrorType
        && (t.result.error.errorStatus.Some? <==> FailureStatus(answer.failure) != 0)
        && (t.result.error.errorStatus.Some? ==> t.result.error.errorStatus.value == FailureStatus(answer.failure))
  {
    match answer
    case AccessToken(_) =>
      ConstructFields(Some(Settings(MissingTokenType, "missing access_token value from OAuth Service", 0, "", TokenFunction, None)), false);
    case OAuthFailed(f) =>
      OAuthErrorFields(f);
  }

  /** The input that shows it: a response without `access_token`. As written it
      rejects as an OAuth service error with status 500 and the default
      message; as intended it rejects with the missing-token error, without a
      status. */
  lemma MissingTokenAsWritten(h: ApiServiceHelper)
    requires AreRequiredParamsValid(h)
    ensures var e := GetOAuthTokenAsWritten(h, "", AccessToken("")).result.error;
      e.errorType == OAuthErrorType && e.errorStatus == Some(500) && e.errorMessage == DefaultMessage
    ensures var e := GetOAuthToken(h, "", AccessToken("")).result.error;
      e.errorType == MissingTokenType && e.errorStatus.None?
  {
    OAuthErrorFields(SetupFailure(""));
    ConstructFields(Some(Settings(MissingTokenType, "missing access_token value from OAuth Service", 0, "", TokenFunction, None)), false);
  }

  /** For every other answer the two readings agree. */
  lemma TokenAsWrittenAgrees(h: ApiServiceHelper, cachedToken: string, answer: OAuthAnswer)
    requires answer != AccessToken("") || cachedToken != "" || !AreRequiredParamsValid(h)
    ensures GetOAuthTokenAsWritten(h, cachedToken, answer) == GetOAuthToken(h, cachedToken, answer)
  {
  }
}
