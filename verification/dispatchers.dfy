/** `src/dispatchers/HoldRequestDispatcher.js`: the same sort as the helper, but
    the resolutions list holds one promise per non-empty group, and the merge
    reads its first two entries by position. */
module Dispatchers {
  import opened Records
  import opened HoldRequestDispatcher

  /** `resolutions` after the two conditional pushes: the ReCAP answer when that
      group is non-empty, then the on-site answer when that group is non-empty. */
  function Resolutions<T>(records: seq<HoldRequest>, postScsb: seq<HoldRequest> -> Settled<T>,
                          postOnSite: seq<HoldRequest> -> Settled<T>): seq<Settled<T>>
    requires HasItems(records)
  {
    (if |Offsite(records)| > 0 then [postScsb(Offsite(records))] else []) +
    (if |OnSite(records)| > 0 then [postOnSite(OnSite(records))] else [])
  }

  /** `Promise.all(resolutions)` then `[...resolutions[0], ...resolutions[1]]`,
      as written: spreading a missing entry (`undefined`) throws, and the
      `.catch` then destructures that error, or a backend's, and throws a
      TypeError, so the call rejects unless there are two resolved entries. */
  function PositionalMergeAsWritten<T>(resolutions: seq<Settled<T>>): Settled<T> {
    if exists i :: 0 <= i < |resolutions| && resolutions[i].Rejected? then Rejected(NotIterable)
    else if |resolutions| < 2 then Rejected(NotIterable)
    else Resolved(resolutions[0].value + resolutions[1].value)
  }

  /** `handlePostingRecords(records, apiData)`: sort and push one resolution per
      non-empty group. `asWritten` is the positional merge of those
      resolutions; `result` is the intended merge of each resolution into the
      side it came from, an empty group contributing `[]`. */
  method HandlePostingRecords<T>(records: seq<HoldRequest>, postScsb: seq<HoldRequest> -> Settled<T>,
                                 postOnSite: seq<HoldRequest> -> Settled<T>)
      returns (resolutions: seq<Settled<T>>, asWritten: Settled<T>, result: Settled<T>)
    requires HasItems(records)
    ensures resolutions == Resolutions(records, postScsb, postOnSite)
    ensures asWritten == PositionalMergeAsWritten(Resolutions(records, postScsb, postOnSite))
    ensures result == Dispatch(records, postScsb, postOnSite)
  {
    var scsb, onSite := SortRecords(records);
    resolutions := [];
    var scsbResults: Settled<T> := Resolved([]);
    if |scsb| > 0 {
      scsbResults := postScsb(scsb);
      resolutions := resolutions + [scsbResults];
    }
    var onSiteResults: Settled<T> := Resolved([]);
    if |onSite| > 0 {
      onSiteResults := postOnSite(onSite);
      resolutions := resolutions + [onSiteResults];
    }
    asWritten := PositionalMergeAsWritten(resolutions);
    result := Merge(scsbResults, onSiteResults);
  }

  /** One resolution per non-empty group, the ReCAP one first. */
  lemma ResolutionsPerGroup<T>(records: seq<HoldRequest>, postScsb: seq<HoldRequest> -> Settled<T>,
                               postOnSite: seq<HoldRequest> -> Settled<T>)
    requires HasItems(records)
    ensures var rs := Resolutions(records, postScsb, postOnSite);
      |rs| == (if |Offsite(records)| > 0 then 1 else 0) + (if |OnSite(records)| > 0 then 1 else 0)
    ensures var rs := Resolutions(records, postScsb, postOnSite);
      |Offsite(records)| > 0 ==> rs[0] == postScsb(Offsite(records))
    ensures var rs := Resolutions(records, postScsb, postOnSite);
      |OnSite(records)| > 0 ==> rs[|rs| - 1] == postOnSite(OnSite(records))
  {
  }

  /** With both groups non-empty, the positional merge settles as the helper
      dispatcher's does: the ReCAP results followed by the on-site results,
      the intended result whenever that resolves. */
  lemma MergeAsWrittenWithBothGroups<T>(records: seq<HoldRequest>, postScsb: seq<HoldRequest> -> Settled<T>,
                                        postOnSite: seq<HoldRequest> -> Settled<T>)
    requires HasItems(records)
    requires |Offsite(records)| > 0 && |OnSite(records)| > 0
    ensures PositionalMergeAsWritten(Resolutions(records, postScsb, postOnSite)) == DispatchAsWritten(records, postScsb, postOnSite)
    ensures Dispatch(records, postScsb, postOnSite).Resolved? ==>
      PositionalMergeAsWritten(Resolutions(records, postScsb, postOnSite)) == Dispatch(records, postScsb, postOnSite)
  {
    var rs := Resolutions(records, postScsb, postOnSite);
    assert rs == [postScsb(Offsite(records)), postOnSite(OnSite(records))];
    if postScsb(Offsite(records)).Rejected? {
      assert rs[0].Rejected?;
    } else if postOnSite(OnSite(records)).Rejected? {
      assert rs[1].Rejected?;
    }
  }

  /** The input that shows it: a batch whose records are all on-site (one record
      with a non-`rc` code) rejects as written even though the on-site backend
      resolves, while the intended merge resolves with that backend's results. */
  lemma MergeAsWrittenRejectsOneGroup<T>(r: HoldRequest, results: seq<T>,
                                         postScsb: seq<HoldRequest> -> Settled<T>,
                                         postOnSite: seq<HoldRequest> -> Settled<T>)
    requires r.item.Some? && r.item.value.locationCode == "mal"
    requires postOnSite([r]) == Resolved(results)
    ensures HasItems([r])
    ensures PositionalMergeAsWritten(Resolutions([r], postScsb, postOnSite)) == Rejected(NotIterable)
    ensures Dispatch([r], postScsb, postOnSite) == Resolved(results)
  {
    IsOffsiteIffRcPrefix(r);
    assert !IsOffsite(r);
    assert [r][..0] == [];
    assert Offsite([r]) == [] && OnSite([r]) == [r];
    assert Resolutions([r], postScsb, postOnSite) == [Resolved(results)];
    assert [] + results == results;
  }
}
