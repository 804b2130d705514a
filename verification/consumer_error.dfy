/** The consumer's own error value, `HoldRequestConsumerError`. Every rejection the
    consumer produces is one of these. */
module ConsumerErrors {
  import opened Wrappers
  import Js

  /** The `settings` object. Falsy members are written "" / 0 / None. The `error`
      member is some object the caller attached; the model keeps only a label
      naming what was attached (an object is always truthy). */
  datatype Settings = Settings(
    type_: string,
    message: string,
    status: int,
    holdRequestId: string,
    functionName: string,
    error: Option<string>)

  const NoSettings := Settings("", "", 0, "", "", None)

  datatype ConsumerError = ConsumerError(
    name: string,
    errorType: string,
    errorMessage: string,
    errorStatus: Option<int>,
    holdRequestId: Option<string>,
    functionName: Option<string>,
    errorDetails: Option<string>,
    isHoldRequestConsumerError: bool)

  const DefaultType := "hold-request-consumer-error"
  const DefaultMessage := "An error occurred"

  /** `HoldRequestConsumerError(settings)`, called with `new` or without it
      (`viaNew`); `None` is a `null` or `undefined` settings argument. */
  function Construct(settings: Option<Settings>, viaNew: bool): (e: ConsumerError)
    decreases !viaNew
  {
    if !viaNew then Construct(settings, true)
    else
      var s := settings.GetOr(NoSettings);
      ConsumerError(
        "HoldRequestConsumerError",
        if s.type_ != "" then s.type_ else DefaultType,
        if s.message != "" then s.message else DefaultMessage,
        if s.status != 0 then Some(s.status) else None,
        Js.IfTruthy(s.holdRequestId),
        Js.IfTruthy(s.functionName),
        s.error,
        true)
  }

  /** The value built from `settings`: name and flag are constant; type and
      message fall back to their defaults when falsy; status, hold request id,
      function name and details are present only when truthy. */
  lemma ConstructFields(settings: Option<Settings>, viaNew: bool)
    ensures Construct(settings, viaNew).name == "HoldRequestConsumerError"
    ensures Construct(settings, viaNew).isHoldRequestConsumerError
    ensures var e := Construct(settings, viaNew); var s := settings.GetOr(NoSettings);
      && e.errorType == (if s.type_ != "" then s.type_ else DefaultType)
      && e.errorMessage == (if s.message != "" then s.message else DefaultMessage)
      && (e.errorStatus.Some? <==> s.status != 0)
      && (e.errorStatus.Some? ==> e.errorStatus.value == s.status)
      && e.holdRequestId == Js.IfTruthy(s.holdRequestId)
      && e.functionName == Js.IfTruthy(s.functionName)
      && e.errorDetails == s.error
  {
  }

  /** The call shape used throughout the consumer: `HoldRequestConsumerError({...})`
      without `new`. */
  function Make(type_: string, message: string, status: int, functionName: string, error: Option<string>): (e: ConsumerError)
  {
    Construct(Some(Settings(type_, message, status, "", functionName, error)), false)
  }

  /** The settings that describe an existing error. */
  function SettingsOf(e: ConsumerError): Settings {
    Settings(
      e.errorType, e.errorMessage, e.errorStatus.GetOr(0),
      e.holdRequestId.GetOr(""), e.functionName.GetOr(""), e.errorDetails)
  }

  /** Calling without `new` gives the same value as calling with it. */
  lemma WithoutNewIsNew(settings: Option<Settings>)
    ensures Construct(settings, false) == Construct(settings, true)
  {
  }

  /** `null`/`undefined` settings behave as `{}`. */
  lemma MissingSettingsAreEmpty(viaNew: bool)
    ensures Construct(None, viaNew) == Construct(Some(NoSettings), viaNew)
    ensures Construct(None, viaNew).errorType == DefaultType
    ensures Construct(None, viaNew).errorMessage == DefaultMessage
    ensures Construct(None, viaNew).errorStatus.None?
    ensures Construct(None, viaNew).holdRequestId.None?
    ensures Construct(None, viaNew).functionName.None?
    ensures Construct(None, viaNew).errorDetails.None?
  {
  }

  /** Building an error again from the fields of one it already built gives it
      back: the defaults and the optional fields are a fixed point. */
  lemma RebuildIsIdentity(settings: Option<Settings>, viaNew: bool)
    ensures Construct(Some(SettingsOf(Construct(settings, viaNew))), viaNew) == Construct(settings, viaNew)
  {
    var e := Construct(settings, viaNew);
    ConstructFields(settings, viaNew);
    ConstructFields(Some(SettingsOf(e)), viaNew);
    assert e.errorType != "";
    assert e.errorMessage != "";
  }
}
