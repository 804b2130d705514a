/** `src/helpers/HoldRequestDispatcher.js`: sort the records by holding location
    into ReCAP (SCSB) and on-site holds, post each non-empty group to its
    backend, and concatenate what the two backends resolve with. */
module HoldRequestDispatcher {
  import Js
  import opened Records
  import opened ConsumerErrors

  /** `/^rc/i.test(record.item.location.code)`; `locationCode` is
      `item.location.code`. */
  predicate IsOffsite(r: HoldRequest)
    requires r.item.Some?
  {
    Js.HasPrefix(Js.Lower(r.item.value.locationCode), "rc")
  }

  /** The regular expression's meaning: the code starts with `r` and then `c`,
      each in either case. */
  lemma IsOffsiteIffRcPrefix(r: HoldRequest)
    requires r.item.Some?
    ensures var code := r.item.value.locationCode;
      IsOffsite(r) <==> |code| >= 2 && (code[0] == 'r' || code[0] == 'R') && (code[1] == 'c' || code[1] == 'C')
  {
    var code := r.item.value.locationCode;
    var low := Js.Lower(code);
    if |code| >= 2 {
      assert low[..2] == [low[0], low[1]];
    }
  }

  /** Every record has an item; the source reads `record.item.location.code`
      without a guard. */
  predicate HasItems(records: seq<HoldRequest>) {
    forall i :: 0 <= i < |records| ==> records[i].item.Some?
  }

  /** The ReCAP records, in input order. */
  function Offsite(records: seq<HoldRequest>): seq<HoldRequest>
    requires HasItems(records)
  {
    if |records| == 0 then []
    else
      var last := records[|records| - 1];
      Offsite(records[..|records| - 1]) + (if IsOffsite(last) then [last] else [])
  }

  /** The on-site records, in input order. */
  function OnSite(records: seq<HoldRequest>): seq<HoldRequest>
    requires HasItems(records)
  {
    if |records| == 0 then []
    else
      var last := records[|records| - 1];
      OnSite(records[..|records| - 1]) + (if IsOffsite(last) then [] else [last])
  }

  /** `sortRecords(records)`: the reduce that pushes each record onto `scsb` or
      `onSite`. */
  method SortRecords(records: seq<HoldRequest>) returns (scsb: seq<HoldRequest>, onSite: seq<HoldRequest>)
    requires HasItems(records)
    ensures scsb == Offsite(records) && onSite == OnSite(records)
  {
    scsb, onSite := [], [];
    var i := 0;
    while i < |records|
      invariant 0 <= i <= |records|
      invariant scsb == Offsite(records[..i]) && onSite == OnSite(records[..i])
    {
      assert records[..i + 1][..i] == records[..i];
      if IsOffsite(records[i]) {
        scsb := scsb + [records[i]];
      } else {
        onSite := onSite + [records[i]];
      }
      i := i + 1;
    }
    assert records[..i] == records;
  }

  /** Every record lands in exactly one group: together the groups are the
      input. */
  lemma {:induction false} SortPartitions(records: seq<HoldRequest>)
    requires HasItems(records)
    ensures |Offsite(records)| + |OnSite(records)| == |records|
    ensures multiset(Offsite(records)) + multiset(OnSite(records)) == multiset(records)
  {
    if |records| > 0 {
      var init := records[..|records| - 1];
      var last := records[|records| - 1];
      SortPartitions(init);
      assert records == init + [last];
    }
  }

  /** The ReCAP group holds exactly the records with an `rc` code, the on-site
      group exactly the others. */
  lemma {:induction false} SortMembership(records: seq<HoldRequest>)
    requires HasItems(records)
    ensures forall r :: r in Offsite(records) <==> r in records && IsOffsite(r)
    ensures forall r :: r in OnSite(records) <==> r in records && !IsOffsite(r)
  {
    if |records| > 0 {
      var init := records[..|records| - 1];
      var last := records[|records| - 1];
      SortMembership(init);
      assert records == init + [last];
    }
  }

  /** Sorting a concatenation sorts each part and keeps the parts in order, so
      each group keeps the input order. */
  lemma {:induction false} SortAppend(a: seq<HoldRequest>, b: seq<HoldRequest>)
    requires HasItems(a) && HasItems(b)
    ensures HasItems(a + b)
    ensures Offsite(a + b) == Offsite(a) + Offsite(b)
    ensures OnSite(a + b) == OnSite(a) + OnSite(b)
    decreases |b|
  {
    if |b| > 0 {
      var b' := b[..|b| - 1];
      assert (a + b)[..|a + b| - 1] == a + b';
      SortAppend(a, b');
    } else {
      assert a + b == a;
    }
  }

  /** Why a promise rejected: a backend's own error, or the TypeError thrown
      when a value that is not an array (an error object) is destructured as
      one. */
  datatype Reason = BackendError(error: ConsumerError) | NotIterable

  /** What a backend's promise settles to: an array of results, or a rejection. */
  datatype Settled<T> = Resolved(value: seq<T>) | Rejected(reason: Reason)

  /** A backend call, with the records it was given. */
  datatype Call = ScsbCall(records: seq<HoldRequest>) | OnSiteCall(records: seq<HoldRequest>)

  /** The resolution for one group: the backend's answer when the group is
      non-empty, `Promise.resolve([])` otherwise. */
  function Side<T>(group: seq<HoldRequest>, post: seq<HoldRequest> -> Settled<T>): Settled<T> {
    if |group| > 0 then post(group) else Resolved([])
  }

  /** `Promise.all([scsb, onSite])` with its `.then` and `.catch` as written: the
      spread of both arrays when both resolve; otherwise the `.catch` receives
      the rejection reason and destructures it as `[scsb, onSite]`, which
      throws a TypeError, so the backend's own error is lost. */
  function MergeAsWritten<T>(scsb: Settled<T>, onSite: Settled<T>): (r: Settled<T>)
    ensures r.Resolved? <==> scsb.Resolved? && onSite.Resolved?
    ensures r.Rejected? ==> r.reason == NotIterable
  {
    if scsb.Resolved? && onSite.Resolved? then Resolved(scsb.value + onSite.value) else Rejected(NotIterable)
  }

  /** The merge as evidently intended: the two arrays spread in order, or the
      rejection `Promise.all` settles with, which is a backend's own reason (the
      ReCAP side's when both reject). */
  function Merge<T>(scsb: Settled<T>, onSite: Settled<T>): (r: Settled<T>)
    ensures r.Resolved? <==> scsb.Resolved? && onSite.Resolved?
    ensures r.Rejected? ==> r == scsb || r == onSite
  {
    if scsb.Rejected? then scsb
    else if onSite.Rejected? then onSite
    else Resolved(scsb.value + onSite.value)
  }

  /** `dispatchRecords(records, apiData)` as written, the backends being the
      functions the groups are posted with. */
  function DispatchAsWritten<T>(records: seq<HoldRequest>, postScsb: seq<HoldRequest> -> Settled<T>,
                                postOnSite: seq<HoldRequest> -> Settled<T>): Settled<T>
    requires HasItems(records)
  {
    MergeAsWritten(Side(Offsite(records), postScsb), Side(OnSite(records), postOnSite))
  }

  /** `dispatchRecords(records, apiData)` as evidently intended: a backend's
      rejection is passed on. */
  function Dispatch<T>(records: seq<HoldRequest>, postScsb: seq<HoldRequest> -> Settled<T>,
                       postOnSite: seq<HoldRequest> -> Settled<T>): Settled<T>
    requires HasItems(records)
  {
    Merge(Side(Offsite(records), postScsb), Side(OnSite(records), postOnSite))
  }

  /** The calls `dispatchRecords` makes, in order. */
  function Calls(records: seq<HoldRequest>): seq<Call>
    requires HasItems(records)
  {
    (if |Offsite(records)| > 0 then [ScsbCall(Offsite(records))] else []) +
    (if |OnSite(records)| > 0 then [OnSiteCall(OnSite(records))] else [])
  }

  /** `dispatchRecords`: sort, call each backend whose group is non-empty, then
      merge; `asWritten` is what the source's `.then`/`.catch` settle with,
      `result` what the intended merge settles with. */
  method DispatchRecords<T>(records: seq<HoldRequest>, postScsb: seq<HoldRequest> -> Settled<T>,
                            postOnSite: seq<HoldRequest> -> Settled<T>)
      returns (calls: seq<Call>, asWritten: Settled<T>, result: Settled<T>)
    requires HasItems(records)
    ensures calls == Calls(records)
    ensures asWritten == DispatchAsWritten(records, postScsb, postOnSite)
    ensures result == Dispatch(records, postScsb, postOnSite)
  {
    var scsb, onSite := SortRecords(records);
    calls := [];
    var scsbResolution: Settled<T> := Resolved([]);
    if |scsb| > 0 {
      calls := calls + [ScsbCall(scsb)];
      scsbResolution := postScsb(scsb);
    }
    var onSiteResolution: Settled<T> := Resolved([]);
    if |onSite| > 0 {
      calls := calls + [OnSiteCall(onSite)];
      onSiteResolution := postOnSite(onSite);
    }
    asWritten := MergeAsWritten(scsbResolution, onSiteResolution);
    result := Merge(scsbResolution, onSiteResolution);
  }

  /** Each backend is called at most once, with its whole group, and only when
      that group is non-empty; the ReCAP call comes first; the calls together
      carry every record once. */
  lemma CallsCoverRecords(records: seq<HoldRequest>)
    requires HasItems(records)
    ensures |Calls(records)| <= 2
    ensures forall c :: c in Calls(records) ==> c == ScsbCall(Offsite(records)) || c == OnSiteCall(OnSite(records))
    ensures forall c :: c in Calls(records) ==> |c.records| > 0
    ensures ScsbCall(Offsite(records)) in Calls(records) <==> exists r :: r in records && IsOffsite(r)
    ensures OnSiteCall(OnSite(records)) in Calls(records) <==> exists r :: r in records && !IsOffsite(r)
    ensures |Calls(records)| == 2 ==> Calls(records)[0].ScsbCall? && Calls(records)[1].OnSiteCall?
    ensures var cs := Calls(records);
      (if |cs| == 0 then 0 else if |cs| == 1 then |cs[0].records| else |cs[0].records| + |cs[1].records|) == |records|
  {
    CallsShape(records);
    GroupNonEmptyIff(records);
    SortPartitions(records);
  }

  /** The calls in terms of the group lengths alone. */
  lemma CallsShape(records: seq<HoldRequest>)
    requires HasItems(records)
    ensures |Calls(records)| <= 2
    ensures forall c :: c in Calls(records) ==> c == ScsbCall(Offsite(records)) || c == OnSiteCall(OnSite(records))
    ensures forall c :: c in Calls(records) ==> |c.records| > 0
    ensures ScsbCall(Offsite(records)) in Calls(records) <==> |Offsite(records)| > 0
    ensures OnSiteCall(OnSite(records)) in Calls(records) <==> |OnSite(records)| > 0
    ensures |Calls(records)| == 2 ==> Calls(records)[0].ScsbCall? && Calls(records)[1].OnSiteCall?
    ensures var cs := Calls(records);
      (if |cs| == 0 then 0 else if |cs| == 1 then |cs[0].records| else |cs[0].records| + |cs[1].records|)
      == |Offsite(records)| + |OnSite(records)|
  {
  }

  /** A group is non-empty exactly when some record belongs to it. */
  lemma GroupNonEmptyIff(records: seq<HoldRequest>)
    requires HasItems(records)
    ensures |Offsite(records)| > 0 <==> exists r :: r in records && IsOffsite(r)
    ensures |OnSite(records)| > 0 <==> exists r :: r in records && !IsOffsite(r)
  {
    SortMembership(records);
    var scsb, onSite := Offsite(records), OnSite(records);
    if |scsb| > 0 {
      assert scsb[0] in scsb;
    }
    if |onSite| > 0 {
      assert onSite[0] in onSite;
    }
  }

  /** When both sides resolve, the result is the ReCAP results followed by the
      on-site results, an empty group contributing nothing; otherwise it
      rejects with the reason of the first backend that rejected. */
  lemma DispatchResult<T>(records: seq<HoldRequest>, postScsb: seq<HoldRequest> -> Settled<T>,
                          postOnSite: seq<HoldRequest> -> Settled<T>)
    requires HasItems(records)
    ensures var r := Dispatch(records, postScsb, postOnSite);
      r.Resolved? <==> (|Offsite(records)| > 0 ==> postScsb(Offsite(records)).Resolved?) &&
                       (|OnSite(records)| > 0 ==> postOnSite(OnSite(records)).Resolved?)
    ensures var r := Dispatch(records, postScsb, postOnSite);
      r.Resolved? ==>
        r.value == (if |Offsite(records)| > 0 then postScsb(Offsite(records)).value else []) +
                   (if |OnSite(records)| > 0 then postOnSite(OnSite(records)).value else [])
    ensures var r := Dispatch(records, postScsb, postOnSite);
      r.Rejected? ==>
        r == (if |Offsite(records)| > 0 && postScsb(Offsite(records)).Rejected? then postScsb(Offsite(records))
              else postOnSite(OnSite(records)))
  {
  }

  /** As written, the call settles like the intended one when it resolves, and
      rejects exactly when the intended one does, but always with the
      TypeError of the `.catch` handler's destructuring. */
  lemma DispatchAsWrittenDropsReason<T>(records: seq<HoldRequest>, postScsb: seq<HoldRequest> -> Settled<T>,
                                        postOnSite: seq<HoldRequest> -> Settled<T>)
    requires HasItems(records)
    ensures DispatchAsWritten(records, postScsb, postOnSite).Rejected? <==> Dispatch(records, postScsb, postOnSite).Rejected?
    ensures DispatchAsWritten(records, postScsb, postOnSite).Rejected? ==>
      DispatchAsWritten(records, postScsb, postOnSite).reason == NotIterable
    ensures Dispatch(records, postScsb, postOnSite).Resolved? ==>
      DispatchAsWritten(records, postScsb, postOnSite) == Dispatch(records, postScsb, postOnSite)
  {
  }

  /** The input that shows it: one ReCAP record whose backend rejects with its
      own error. As written the call rejects with a TypeError instead; as
      intended it rejects with the backend's error. */
  lemma BackendErrorLostAsWritten<T>(r: HoldRequest, e: ConsumerError,
                                     postScsb: seq<HoldRequest> -> Settled<T>,
                                     postOnSite: seq<HoldRequest> -> Settled<T>)
    requires r.item.Some? && r.item.value.locationCode == "rc2ma"
    requires postScsb([r]) == Rejected(BackendError(e))
    ensures HasItems([r])
    ensures DispatchAsWritten([r], postScsb, postOnSite) == Rejected(NotIterable)
    ensures Dispatch([r], postScsb, postOnSite) == Rejected(BackendError(e))
  {
    IsOffsiteIffRcPrefix(r);
    assert IsOffsite(r);
    assert [r][..0] == [];
    assert Offsite([r]) == [r] && OnSite([r]) == [];
  }
}
