/** `HoldRequestConsumerModel`: a holder for the batch of records being processed. */
module ConsumerModel {
  import opened Wrappers

  /** `records` is `null` (None) until the first `setRecords`. */
  class HoldRequestConsumerModel<T> {
    var records: Option<T>

    constructor ()
      ensures records == None
    {
      records := None;
    }

    method GetRecords() returns (r: Option<T>)
      ensures r == records
    {
      r := records;
    }

    method SetRecords(r: T)
      modifies this`records
      ensures records == Some(r)
    {
      records := Some(r);
    }
  }

  /** Nothing set yet reads as `null`; a later `setRecords` overwrites an earlier
      one. */
  method SetRecordsOverwrites<T>(first: T, second: T) returns (before: Option<T>, after: Option<T>)
    ensures before == None && after == Some(second)
  {
    var m := new HoldRequestConsumerModel<T>();
    before := m.GetRecords();
    m.SetRecords(first);
    m.SetRecords(second);
    after := m.GetRecords();
  }
}
