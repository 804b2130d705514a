/** The decoded, enriched hold-request record and the SCSB response attached to it.
    String fields hold "" where the record's value is falsy (absent, `null`, `''`). */
module Records {
  import opened Wrappers

  datatype Item = Item(barcode: string, callNumber: string, locationCode: string)

  /** `patronInfo.barCodes`; None when it is not an array. */
  datatype PatronInfo = PatronInfo(barCodes: Option<seq<string>>)

  /** Electronic document delivery (EDD) details. */
  datatype DocDelivery = DocDelivery(
    emailAddress: string,
    chapterTitle: string,
    startPage: string,
    endPage: string,
    author: string,
    issue: string,
    volume: string,
    requestNotes: string)

  /** What the SCSB REST client resolves with. `success` is None when the response
      has no own `success` property; `screenMessage` is None when it is absent. */
  datatype ScsbResponse = ScsbResponse(
    success: Option<bool>,
    screenMessage: Option<string>,
    requestType: string,
    requestingInstitution: string,
    deliveryLocation: string,
    itemBarcodes: Option<seq<string>>)

  datatype HoldRequest = HoldRequest(
    id: string,
    jobId: string,
    patron: string,
    nyplSource: string,
    requestType: string,
    record: string,
    pickupLocation: string,
    neededBy: string,
    numberOfCopies: int,
    docDeliveryData: Option<DocDelivery>,
    additionalNotes: string,
    item: Option<Item>,
    patronInfo: Option<PatronInfo>,
    scsbResponse: Option<ScsbResponse>)

  /** `record[key]` as an object key: the field's value, or "undefined" for a
      property the record does not have. */
  function Property(r: HoldRequest, key: string): string {
    if key == "id" then r.id
    else if key == "jobId" then r.jobId
    else if key == "patron" then r.patron
    else if key == "nyplSource" then r.nyplSource
    else if key == "requestType" then r.requestType
    else if key == "record" then r.record
    else if key == "pickupLocation" then r.pickupLocation
    else if key == "neededBy" then r.neededBy
    else "undefined"
  }
}
