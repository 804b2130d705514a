/** The pure parts of `SCSBApiHelper`: the institution-code mapping, the SCSB
    request model built from a hold request, and the debug summary of an SCSB
    response. */
module ScsbApi {
  import opened Wrappers
  import Js
  import opened Records

  /** `getInstitutionCode`: a partner code `recap-<x>` becomes `<X>`, the
      uppercased second dash-segment; `sierra-nypl` becomes `NYPL`; anything
      else has no code (`undefined`). */
  function GetInstitutionCode(nyplCode: string): (r: Option<string>)
    ensures r.Some? <==> Js.HasPrefix(nyplCode, "recap-") || nyplCode == "sierra-nypl"
    ensures nyplCode == "sierra-nypl" ==> r == Some("NYPL")
    ensures r.Some? ==> '-' !in r.value
  {
    if Js.HasPrefix(nyplCode, "recap-") then
      assert nyplCode[5] == "recap-"[5];
      Some(Js.Upper(Js.SecondDashSegment(nyplCode)))
    else if nyplCode == "sierra-nypl" then Some("NYPL")
    else None
  }

  /** `recap-cul` gives `CUL`, `recap-pul-x` gives `PUL`: the segment after
      `recap-` up to the next dash, uppercased. */
  lemma RecapInstitutionCode(x: string, rest: string)
    requires '-' !in x
    requires rest == [] || rest[0] == '-'
    ensures GetInstitutionCode("recap-" + x + rest) == Some(Js.Upper(x))
  {
    var code := "recap-" + x + rest;
    assert code[..6] == "recap-";
    assert code == "recap" + ("-" + x + rest);
    Js.UntilDashOfPrefix("recap", "-" + x + rest);
    assert code[6..] == x + rest;
    Js.UntilDashOfPrefix(x, rest);
  }

  /** The request model posted to SCSB's `requestItem`. A None field is a
      property the model does not have (or holds `undefined`). */
  datatype ScsbModel = ScsbModel(
    requestingInstitution: string,
    trackingId: Option<string>,
    requestType: Option<string>,
    itemOwningInstitution: Option<string>,
    patronBarcode: Option<string>,
    itemBarcodes: Option<seq<string>>,
    callNumber: Option<string>,
    deliveryLocation: Option<string>,
    emailAddress: Option<string>,
    chapterTitle: Option<string>,
    startPage: Option<string>,
    endPage: Option<string>,
    author: Option<string>,
    issue: Option<string>,
    volume: Option<string>,
    requestNotes: Option<string>)

  /** The SCSB request type for a truthy `requestType`, with the source's own
      test: upper-cased when it is `edd` or anything but `hold` (in any case). */
  function ScsbRequestType(requestType: string): (r: string)
    ensures Js.Lower(requestType) == "hold" ==> r == "RETRIEVAL"
    ensures Js.Lower(requestType) != "hold" ==> r == Js.Upper(requestType)
  {
    if Js.Lower(requestType) == "edd" || Js.Lower(requestType) != "hold" then Js.Upper(requestType)
    else "RETRIEVAL"
  }

  /** `bySierraLocation[pickupLocation].recapLocation.code` would throw. */
  predicate UnknownPickupLocation(request: HoldRequest, locations: map<string, string>) {
    request.pickupLocation != "" && request.pickupLocation !in locations
  }

  /** The patron barcode SCSB gets: the last of a non-empty `barCodes` array. */
  function LastBarcode(info: Option<PatronInfo>): (r: Option<string>)
    ensures r.Some? <==> info.Some? && info.value.barCodes.Some? && |info.value.barCodes.value| > 0
    ensures r.Some? ==> r.value == info.value.barCodes.value[|info.value.barCodes.value| - 1]
  {
    if info.Some? && info.value.barCodes.Some? && |info.value.barCodes.value| > 0 then
      var codes := info.value.barCodes.value;
      Some(codes[|codes| - 1])
    else None
  }

  /** `generateSCSBModel(object)`; None when the pickup-location lookup throws.
      `locations` is the `by-sierra-location` table, pickup location to ReCAP
      delivery code. */
  function GenerateScsbModel(request: HoldRequest, locations: map<string, string>): (r: Option<ScsbModel>)
    ensures r.None? <==> UnknownPickupLocation(request, locations)
  {
    if UnknownPickupLocation(request, locations) then None
    else
      var item := request.item;
      var edd := request.docDeliveryData;
      Some(ScsbModel(
        "NYPL",
        if request.jobId != "" then Some(request.id) else None,
        if request.requestType != "" then Some(ScsbRequestType(request.requestType)) else None,
        if request.nyplSource != "" then GetInstitutionCode(request.nyplSource) else None,
        LastBarcode(request.patronInfo),
        if item.Some? && item.value.barcode != "" then Some([item.value.barcode]) else None,
        if item.Some? then Js.IfTruthy(item.value.callNumber) else None,
        if request.pickupLocation != "" then Some(locations[request.pickupLocation]) else None,
        if edd.Some? then Js.IfTruthy(edd.value.emailAddress) else None,
        if edd.Some? then Js.IfTruthy(edd.value.chapterTitle) else None,
        if edd.Some? then Js.IfTruthy(edd.value.startPage) else None,
        if edd.Some? then Js.IfTruthy(edd.value.endPage) else None,
        if edd.Some? then Js.IfTruthy(edd.value.author) else None,
        if edd.Some? then Js.IfTruthy(edd.value.issue) else None,
        if edd.Some? then Js.IfTruthy(edd.value.volume) else None,
        if edd.Some? then Js.IfTruthy(edd.value.requestNotes) else None))
  }

  /** The model field by field: NYPL is always the requesting institution; the
      tracking id is the record id when there is a job id; `hold` in any case is
      a retrieval and any other request type is uppercased; the owning
      institution comes from the record's source; the patron barcode is the last
      one; the item barcode is wrapped in an array; the delivery location is
      looked up. */
  lemma ScsbModelFields(request: HoldRequest, locations: map<string, string>)
    requires !UnknownPickupLocation(request, locations)
    ensures var m := GenerateScsbModel(request, locations).value;
      && m.requestingInstitution == "NYPL"
      && (m.trackingId.Some? <==> request.jobId != "")
      && (m.trackingId.Some? ==> m.trackingId.value == request.id)
      && (m.requestType.Some? <==> request.requestType != "")
      && (m.requestType.Some? ==> m.requestType.value == ScsbRequestType(request.requestType))
      && (request.nyplSource != "" ==> m.itemOwningInstitution == GetInstitutionCode(request.nyplSource))
      && (request.nyplSource == "" ==> m.itemOwningInstitution.None?)
      && m.patronBarcode == LastBarcode(request.patronInfo)
      && (m.itemBarcodes.Some? <==> request.item.Some? && request.item.value.barcode != "")
      && (m.itemBarcodes.Some? ==> m.itemBarcodes.value == [request.item.value.barcode])
      && (m.callNumber.Some? <==> request.item.Some? && request.item.value.callNumber != "")
      && (m.callNumber.Some? ==> m.callNumber.value == request.item.value.callNumber)
      && (m.deliveryLocation.Some? <==> request.pickupLocation != "")
      && (m.deliveryLocation.Some? ==> m.deliveryLocation.value == locations[request.pickupLocation])
  {
  }

  /** The EDD fields of the model: each one is the record's value, copied only
      when truthy, and none of them without `docDeliveryData`. */
  lemma EddFieldsCopiedWhenTruthy(request: HoldRequest, locations: map<string, string>)
    requires !UnknownPickupLocation(request, locations)
    ensures var m := GenerateScsbModel(request, locations).value;
      && (request.docDeliveryData.None? ==>
            m.emailAddress.None? && m.chapterTitle.None? && m.startPage.None? && m.endPage.None? &&
            m.author.None? && m.issue.None? && m.volume.None? && m.requestNotes.None?)
      && (request.docDeliveryData.Some? ==> var d := request.docDeliveryData.value;
            m.emailAddress == Js.IfTruthy(d.emailAddress) && m.chapterTitle == Js.IfTruthy(d.chapterTitle) &&
            m.startPage == Js.IfTruthy(d.startPage) && m.endPage == Js.IfTruthy(d.endPage) &&
            m.author == Js.IfTruthy(d.author) && m.issue == Js.IfTruthy(d.issue) &&
            m.volume == Js.IfTruthy(d.volume) && m.requestNotes == Js.IfTruthy(d.requestNotes))
  {
  }

  /** `hold`, `HOLD` and `Hold` are all retrievals; `edd` is `EDD`. */
  lemma HoldIsRetrievalInAnyCase()
    ensures ScsbRequestType("hold") == "RETRIEVAL"
    ensures ScsbRequestType("HOLD") == "RETRIEVAL"
    ensures ScsbRequestType("Hold") == "RETRIEVAL"
    ensures ScsbRequestType("edd") == "EDD"
  {
    assert Js.Lower("HOLD") == "hold";
    assert Js.Lower("Hold") == "hold";
    assert Js.Lower("edd") == "edd";
    assert Js.Upper("edd") == "EDD";
  }

  /** The model reads nothing but the fields listed in `generateSCSBModel`: the
      patron id, the record id, the needed-by date, the number of copies, the
      notes and any earlier SCSB response make no difference. */
  lemma ScsbModelReadsOnlyItsFields(a: HoldRequest, b: HoldRequest, locations: map<string, string>)
    requires a.id == b.id && a.jobId == b.jobId && a.requestType == b.requestType && a.nyplSource == b.nyplSource
    requires a.patronInfo == b.patronInfo && a.item == b.item && a.pickupLocation == b.pickupLocation
    requires a.docDeliveryData == b.docDeliveryData
    ensures GenerateScsbModel(a, locations) == GenerateScsbModel(b, locations)
  {
  }

  /** `getSCSBDebugInfo(response)`: None fields are left off the request. */
  datatype DebugInfo = DebugInfo(
    success: Option<bool>,
    screenMessage: Option<string>,
    requestType: Option<string>,
    requestingInstitution: Option<string>,
    deliveryLocation: Option<string>,
    itemBarcodes: Option<seq<string>>)

  const EmptyDebugInfo := DebugInfo(None, None, None, None, None, None)

  /** `success` is copied whenever it is an own property, even when false; the
      other fields only when truthy (an array always is). No argument is `{}`. */
  function GetScsbDebugInfo(response: Option<ScsbResponse>): (r: DebugInfo)
    ensures response.None? ==> r == EmptyDebugInfo
    ensures response.Some? ==> var res := response.value;
      && r.success == res.success
      && (r.screenMessage.Some? <==> res.screenMessage.Some? && res.screenMessage.value != "")
      && (r.screenMessage.Some? ==> r.screenMessage == res.screenMessage)
      && r.requestType == Js.IfTruthy(res.requestType)
      && r.requestingInstitution == Js.IfTruthy(res.requestingInstitution)
      && r.deliveryLocation == Js.IfTruthy(res.deliveryLocation)
      && r.itemBarcodes == res.itemBarcodes
  {
    match response
    case None => EmptyDebugInfo
    case Some(res) =>
      DebugInfo(
        res.success,
        if res.screenMessage.Some? && res.screenMessage.value != "" then res.screenMessage else None,
        Js.IfTruthy(res.requestType),
        Js.IfTruthy(res.requestingInstitution),
        Js.IfTruthy(res.deliveryLocation),
        res.itemBarcodes)
  }

  /** The summary is `{}` exactly when the response has no own `success` and no
      truthy listed field; `{success: false}` alone gives `{success: false}`. */
  lemma DebugInfoEmptyIff(res: ScsbResponse)
    ensures GetScsbDebugInfo(Some(res)) == EmptyDebugInfo <==>
      && res.success.None?
      && (res.screenMessage.None? || res.screenMessage.value == "")
      && res.requestType == "" && res.requestingInstitution == "" && res.deliveryLocation == ""
      && res.itemBarcodes.None?
    ensures GetScsbDebugInfo(Some(ScsbResponse(Some(false), None, "", "", "", None))) == DebugInfo(Some(false), None, None, None, None, None)
  {
  }
}
