/**
 * What `get_chart_data` promises its template, stated over the
 * specification `ChartDataOf` that `LookerReport.GetChartData` is proved to
 * compute.
 */
module ChartProperties {
  import opened Wrappers
  import opened Calendar
  import opened Domains
  import opened RecordStore
  import opened Grouping
  import opened LookerReports

  /**
   * Without a group field the chart is the single row `'All'` with the
   * record count, and as its sum the overall sum (`0.0` when the store
   * gives no row or no value) or the count again without a value field,
   * and the line has one point per period row; if either query fails, all
   * five lists are empty.
   */
  lemma UngroupedChart(def: ReportDefinition, today: Date, parse: string -> Option<Domain>, store: Store, extra: Domain)
    requires def.groupField == ""
    ensures var dom := QueryDomain(def, today, parse, extra);
      var data := ChartDataOf(def, today, parse, store, extra);
      && (store.searchCount(dom, true).None? ==> data == EmptyChart)
      && (def.valueField != "" && store.readGroup(dom, [def.valueField], []).None? ==> data == EmptyChart)
      && (store.searchCount(dom, true).Some? && (def.valueField == "" || store.readGroup(dom, [def.valueField], []).Some?) ==>
            var rows := SeriesRows(def, dom, store);
            && |data.lineLabels| == |data.lineValues| == |rows|
            && forall i :: 0 <= i < |rows| ==>
                 data.lineLabels[i] == rows[i].period && data.lineValues[i] == LineValue(rows[i], def.valueField != ""))
      && (store.searchCount(dom, true).Some? && def.valueField == "" ==>
            && data.labels == ["All"]
            && data.countValues == [store.searchCount(dom, true).value]
            && data.sumValues == [store.searchCount(dom, true).value as real])
      && (store.searchCount(dom, true).Some? && def.valueField != "" && store.readGroup(dom, [def.valueField], []).Some? ==>
            var rows := store.readGroup(dom, [def.valueField], []).value;
            && data.labels == ["All"]
            && data.countValues == [store.searchCount(dom, true).value]
            && data.sumValues == [if rows == [] || rows[0].value.None? then 0.0 else rows[0].value.value])
  {
  }

  /**
   * With a group field a failing query never empties the chart: the bars
   * are the top groups of whatever the grouped queries gave (no rows for a
   * failed one), and the line has one point per period row, in store
   * order: its period, and its sum (`None` read as 0.0) or its count.
   */
  lemma GroupedChartNeverEmptiedByFailure(def: ReportDefinition, today: Date, parse: string -> Option<Domain>,
                                          store: Store, extra: Domain)
    requires def.groupField != ""
    ensures var dom := QueryDomain(def, today, parse, extra);
      var rows := SeriesRows(def, dom, store);
      var data := ChartDataOf(def, today, parse, store, extra);
      var top := TopN(GroupEntries(def, dom, store), def.limit, def.valueField != "");
      && data.labels == CaptionsOf(top) && data.countValues == CountsOf(top) && data.sumValues == SumsOf(top)
      && |data.lineLabels| == |data.lineValues| == |rows|
      && forall i :: 0 <= i < |rows| ==>
           data.lineLabels[i] == rows[i].period && data.lineValues[i] == LineValue(rows[i], def.valueField != "")
  {
  }

  /**
   * The sum a group carries after the join: its own count without a value
   * field; with one, the value of the last grouped-sum row with its group
   * id (`None` or zero read as 0.0), or 0.0 when no sum row has its id.
   */
  predicate JoinedSum(g: GroupRow, sumRows: seq<GroupRow>, hasValue: bool, s: real) {
    && (!hasValue ==> s == CountOf(g) as real)
    && (hasValue && (forall j :: 0 <= j < |sumRows| ==> JoinId(sumRows[j].key) != JoinId(g.key)) ==> s == 0.0)
    && (forall j :: (&& hasValue && 0 <= j < |sumRows| && JoinId(sumRows[j].key) == JoinId(g.key)
                     && forall k :: j < k < |sumRows| ==> JoinId(sumRows[k].key) != JoinId(g.key)) ==>
          s == SumValue(sumRows[j]))
  }

  /** Each entry of the full answer carries the joined sum of its grouped-count row. */
  lemma EntryJoinsSum(def: ReportDefinition, dom: Domain, store: Store, k: int)
    requires def.groupField != "" && 0 <= k < |CountRows(def, dom, store)|
    ensures var g := CountRows(def, dom, store)[k];
      var e := GroupEntries(def, dom, store)[k];
      && e.caption == Label(g.key) && e.count == CountOf(g)
      && JoinedSum(g, SumRows(def, dom, store), def.valueField != "", e.sum)
  {
    var g := CountRows(def, dom, store)[k];
    SumMapOfLastRow(SumRows(def, dom, store), JoinId(g.key));
  }

  /**
   * Pass-through case: with no positive limit, or no more groups than the
   * limit, the chart lists every grouped-count row in query order, labelled
   * and counted as the store gave it, with its joined sum.
   */
  lemma {:induction false} ChartKeepsAllGroups(def: ReportDefinition, today: Date, parse: string -> Option<Domain>,
                                               store: Store, extra: Domain)
    requires def.groupField != ""
    requires var dom := QueryDomain(def, today, parse, extra);
      def.limit <= 0 || |CountRows(def, dom, store)| <= def.limit
    ensures var dom := QueryDomain(def, today, parse, extra);
      var groups := CountRows(def, dom, store);
      var data := ChartDataOf(def, today, parse, store, extra);
      && |data.labels| == |groups|
      && forall i :: 0 <= i < |groups| ==>
           && data.labels[i] == Label(groups[i].key) && data.countValues[i] == CountOf(groups[i])
           && JoinedSum(groups[i], SumRows(def, dom, store), def.valueField != "", data.sumValues[i])
  {
    var dom := QueryDomain(def, today, parse, extra);
    TopNKeepsOrder(GroupEntries(def, dom, store), def.limit, def.valueField != "");
    forall i | 0 <= i < |CountRows(def, dom, store)|
      ensures JoinedSum(CountRows(def, dom, store)[i], SumRows(def, dom, store), def.valueField != "",
                        GroupEntries(def, dom, store)[i].sum)
    {
      EntryJoinsSum(def, dom, store, i);
    }
  }

  /** A bar is some grouped-count row: its label and count, and the row's joined sum. */
  predicate BarJoinsSum(caption: string, count: nat, sum: real,
                        groups: seq<GroupRow>, sumRows: seq<GroupRow>, hasValue: bool)
  {
    exists k ::
      && 0 <= k < |groups|
      && caption == Label(groups[k].key) && count == CountOf(groups[k])
      && JoinedSum(groups[k], sumRows, hasValue, sum)
  }

  /** Every bar `i` of the three parallel lists joins its sum. */
  predicate BarsJoinSums(labels: seq<string>, counts: seq<nat>, sums: seq<real>,
                         groups: seq<GroupRow>, sumRows: seq<GroupRow>, hasValue: bool)
    requires |labels| == |counts| == |sums|
  {
    forall i :: 0 <= i < |sums| ==> BarJoinsSum(labels[i], counts[i], sums[i], groups, sumRows, hasValue)
  }

  /** Every entry of the full answer joins its sum: its own grouped-count row is the witness. */
  lemma AllEntriesJoinSums(def: ReportDefinition, dom: Domain, store: Store)
    requires def.groupField != ""
    ensures var all := GroupEntries(def, dom, store);
      BarsJoinSums(CaptionsOf(all), CountsOf(all), SumsOf(all),
                   CountRows(def, dom, store), SumRows(def, dom, store), def.valueField != "")
  {
    var all := GroupEntries(def, dom, store);
    var groups := CountRows(def, dom, store);
    var sumRows := SumRows(def, dom, store);
    forall i | 0 <= i < |all|
      ensures BarJoinsSum(CaptionsOf(all)[i], CountsOf(all)[i], SumsOf(all)[i], groups, sumRows, def.valueField != "")
    {
      EntryJoinsSum(def, dom, store, i);
      assert 0 <= i < |groups|;
    }
  }

  /** Any entries drawn from joined entries (a sub-multiset of them) are joined as well. */
  lemma SubEntriesJoinSums(all: seq<Entry>, top: seq<Entry>, groups: seq<GroupRow>, sumRows: seq<GroupRow>, hasValue: bool)
    requires multiset(top) <= multiset(all)
    requires BarsJoinSums(CaptionsOf(all), CountsOf(all), SumsOf(all), groups, sumRows, hasValue)
    ensures BarsJoinSums(CaptionsOf(top), CountsOf(top), SumsOf(top), groups, sumRows, hasValue)
  {
    forall i | 0 <= i < |top|
      ensures BarJoinsSum(CaptionsOf(top)[i], CountsOf(top)[i], SumsOf(top)[i], groups, sumRows, hasValue)
    {
      assert top[i] in multiset(top);
      assert top[i] in all;
      var j :| 0 <= j < |all| && all[j] == top[i];
      assert CaptionsOf(all)[j] == top[i].caption && CountsOf(all)[j] == top[i].count && SumsOf(all)[j] == top[i].sum;
      assert BarJoinsSum(CaptionsOf(all)[j], CountsOf(all)[j], SumsOf(all)[j], groups, sumRows, hasValue);
    }
  }

  /** The entries kept by the top-N cut join their sums as the full answer does. */
  lemma KeptEntriesJoinSums(def: ReportDefinition, dom: Domain, store: Store)
    requires def.groupField != ""
    ensures var top := TopN(GroupEntries(def, dom, store), def.limit, def.valueField != "");
      BarsJoinSums(CaptionsOf(top), CountsOf(top), SumsOf(top),
                   CountRows(def, dom, store), SumRows(def, dom, store), def.valueField != "")
  {
    var all := GroupEntries(def, dom, store);
    AllEntriesJoinSums(def, dom, store);
    SubEntriesJoinSums(all, TopN(all, def.limit, def.valueField != ""),
                       CountRows(def, dom, store), SumRows(def, dom, store), def.valueField != "");
  }

  /**
   * The sum/count join, truncated or not: every bar of a grouped chart is
   * some grouped-count row, with that row's label and count and its joined
   * sum.
   */
  lemma ChartJoinsSums(def: ReportDefinition, today: Date, parse: string -> Option<Domain>,
                       store: Store, extra: Domain)
    requires def.groupField != ""
    ensures var dom := QueryDomain(def, today, parse, extra);
      var data := ChartDataOf(def, today, parse, store, extra);
      BarsJoinSums(data.labels, data.countValues, data.sumValues,
                   CountRows(def, dom, store), SumRows(def, dom, store), def.valueField != "")
  {
    GroupedChartNeverEmptiedByFailure(def, today, parse, store, extra);
    KeptEntriesJoinSums(def, QueryDomain(def, today, parse, extra), store);
  }

  /**
   * Truncating case: with a positive limit smaller than the number of
   * groups, the chart has exactly `limit` groups, ordered by decreasing
   * sum (with a value field) or count, each one a group of the full
   * answer, and no dropped group ranks above a kept one.
   */
  lemma ChartTruncatesToTopGroups(def: ReportDefinition, today: Date, parse: string -> Option<Domain>,
                                  store: Store, extra: Domain)
    requires def.groupField != ""
    requires var dom := QueryDomain(def, today, parse, extra);
      def.limit > 0 && |CountRows(def, dom, store)| > def.limit
    ensures var dom := QueryDomain(def, today, parse, extra);
      var all := GroupEntries(def, dom, store);
      var data := ChartDataOf(def, today, parse, store, extra);
      var bySum := def.valueField != "";
      var kept := TopN(all, def.limit, bySum);
      && |data.labels| == |data.countValues| == |data.sumValues| == def.limit
      && (forall i, j :: 0 <= i < j < def.limit ==>
            if bySum then data.sumValues[i] >= data.sumValues[j] else data.countValues[i] >= data.countValues[j])
      && (forall i :: 0 <= i < def.limit ==> kept[i] in all && data.labels[i] == kept[i].caption)
      && (forall d, k :: d in multiset(all) - multiset(kept) && 0 <= k < def.limit ==> Key(d, bySum) <= Key(kept[k], bySum))
  {
    var dom := QueryDomain(def, today, parse, extra);
    var all := GroupEntries(def, dom, store);
    var bySum := def.valueField != "";
    var kept := TopN(all, def.limit, bySum);
    TopNTruncates(all, def.limit, bySum);
    forall i | 0 <= i < def.limit ensures kept[i] in all {
      assert kept[i] in multiset(kept);
    }
  }

  /**
   * Without a value field every sum equals its count, whether or not the
   * groups were truncated.
   */
  lemma ChartSumIsCountWithoutValueField(def: ReportDefinition, today: Date, parse: string -> Option<Domain>,
                                         store: Store, extra: Domain)
    requires def.groupField != "" && def.valueField == ""
    ensures var data := ChartDataOf(def, today, parse, store, extra);
      forall i :: 0 <= i < |data.sumValues| ==> i < |data.countValues| && data.sumValues[i] == data.countValues[i] as real
  {
    var dom := QueryDomain(def, today, parse, extra);
    var all := GroupEntries(def, dom, store);
    var kept := TopN(all, def.limit, false);
    assert forall e :: e in all ==> e.sum == e.count as real;
    if def.limit > 0 && |all| > def.limit {
      TopNTruncates(all, def.limit, false);
      forall i | 0 <= i < |kept| ensures kept[i].sum == kept[i].count as real {
        assert kept[i] in multiset(kept);
      }
    }
  }
}
