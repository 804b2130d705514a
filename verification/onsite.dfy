/** `OnSiteHoldRequestHelper`: project each on-site hold request onto the fields
    the on-site hold request service takes, and hand the requests to the HTTP
    helper (whose own behaviour is not part of this model). */
module OnSite {
  import opened Wrappers
  import opened Records

  /** The object `generateModel` returns: exactly these seven fields. */
  datatype OnSiteModel = OnSiteModel(
    patron: string,
    nyplSource: string,
    record: string,
    pickupLocation: string,
    neededBy: string,
    numberOfCopies: int,
    docDeliveryData: Option<DocDelivery>)

  /** `generateModel(record)`: each of the seven fields is the record's field of
      the same name. */
  function GenerateModel(r: HoldRequest): (m: OnSiteModel)
    ensures m.patron == r.patron && m.nyplSource == r.nyplSource && m.record == r.record
    ensures m.pickupLocation == r.pickupLocation && m.neededBy == r.neededBy
    ensures m.numberOfCopies == r.numberOfCopies && m.docDeliveryData == r.docDeliveryData
  {
    OnSiteModel(r.patron, r.nyplSource, r.record, r.pickupLocation, r.neededBy, r.numberOfCopies, r.docDeliveryData)
  }

  /** The seven fields are copied unchanged and nothing else is read: two
      records give the same model exactly when they agree on those fields,
      whatever their other fields (`requestType`, `additionalNotes`, the item,
      ...) hold. */
  lemma GenerateModelProjects(a: HoldRequest, b: HoldRequest)
    ensures GenerateModel(a) == GenerateModel(b) <==>
      && a.patron == b.patron && a.nyplSource == b.nyplSource && a.record == b.record
      && a.pickupLocation == b.pickupLocation && a.neededBy == b.neededBy
      && a.numberOfCopies == b.numberOfCopies && a.docDeliveryData == b.docDeliveryData
    ensures GenerateModel(a.(id := b.id, jobId := b.jobId, requestType := b.requestType,
                             additionalNotes := b.additionalNotes, item := b.item,
                             patronInfo := b.patronInfo, scsbResponse := b.scsbResponse))
         == GenerateModel(a)
  {
  }

  /** `apiData` for the on-site backend. */
  datatype ApiData = ApiData(apiBaseUrl: string, apiKey: string)

  /** The call to `apiData.apiHelper.handleHttpAsyncRequests`. */
  datatype AsyncRequests = AsyncRequests(requests: seq<OnSiteModel>, serviceName: string, apiBaseUrl: string, apiKey: string)

  const ServiceName := "on-site-hold-request-service"

  /** `handlePostingRecords(records, apiData)`: the call it delegates to; the
      promise it returns is that call's. */
  function HandlePostingRecords(records: seq<HoldRequest>, apiData: ApiData): AsyncRequests {
    AsyncRequests(seq(|records|, i requires 0 <= i < |records| => GenerateModel(records[i])),
                  ServiceName, apiData.apiBaseUrl, apiData.apiKey)
  }

  /** One request per record, in record order, for the on-site service, with
      the given base URL and key; posting a concatenation posts the requests
      of each part in turn. */
  lemma PostingMapsRecords(records: seq<HoldRequest>, more: seq<HoldRequest>, apiData: ApiData)
    ensures var call := HandlePostingRecords(records, apiData);
      && |call.requests| == |records|
      && (forall i :: 0 <= i < |records| ==> call.requests[i] == GenerateModel(records[i]))
      && call.serviceName == "on-site-hold-request-service"
      && call.apiBaseUrl == apiData.apiBaseUrl && call.apiKey == apiData.apiKey
    ensures HandlePostingRecords(records + more, apiData).requests
         == HandlePostingRecords(records, apiData).requests + HandlePostingRecords(more, apiData).requests
  {
  }
}
