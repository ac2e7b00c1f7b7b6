/**
 * The lead report (`looker_studio.report`, always over `crm.lead`): its
 * stored definition, the chart aggregation, the KPI block, the detail
 * listing and the auto-generated description.
 */
module LookerReports {
  import opened Wrappers
  import opened Calendar
  import opened Domains
  import opened RecordStore
  import opened Grouping
  import opened Kpis
  import opened Descriptions

  /** The settings of a report that its computations read. */
  datatype ReportDefinition = ReportDefinition(
    domain: string,
    groupField: string,
    valueField: string,
    chartType: ChartType,
    limit: int,
    timeFilter: TimeFilter,
    dateFrom: Option<Date>,
    dateTo: Option<Date>,
    successDomain: string)

  /** The domain every query of a report runs with. */
  function QueryDomain(def: ReportDefinition, today: Date, parse: string -> Option<Domain>, extra: Domain): Domain {
    EffectiveDomain(def.domain, parse, TimeDomain(def.timeFilter, def.dateFrom, def.dateTo, today), extra)
  }

  // ---------------------------------------------------------------------
  // Chart data
  // ---------------------------------------------------------------------

  /** The five parallel lists handed to the charts. */
  datatype ChartData = ChartData(
    labels: seq<string>,
    countValues: seq<nat>,
    sumValues: seq<real>,
    lineLabels: seq<string>,
    lineValues: seq<real>)

  const EmptyChart := ChartData([], [], [], [], [])

  /** The bar/pie part of the chart: labels, counts and sums. */
  datatype Bars = Bars(labels: seq<string>, counts: seq<nat>, sums: seq<real>)

  function CaptionsOf(es: seq<Entry>): (r: seq<string>)
    ensures |r| == |es| && forall i :: 0 <= i < |es| ==> r[i] == es[i].caption
  {
    seq(|es|, i requires 0 <= i < |es| => es[i].caption)
  }

  function CountsOf(es: seq<Entry>): (r: seq<nat>)
    ensures |r| == |es| && forall i :: 0 <= i < |es| ==> r[i] == es[i].count
  {
    seq(|es|, i requires 0 <= i < |es| => es[i].count)
  }

  function SumsOf(es: seq<Entry>): (r: seq<real>)
    ensures |r| == |es| && forall i :: 0 <= i < |es| ==> r[i] == es[i].sum
  {
    seq(|es|, i requires 0 <= i < |es| => es[i].sum)
  }

  /** The grouped-count rows; a failed query contributes no rows. */
  function CountRows(def: ReportDefinition, dom: Domain, store: Store): seq<GroupRow> {
    store.readGroup(dom, [def.groupField], [def.groupField]).GetOr([])
  }

  /** The grouped-sum rows; a failed query contributes no rows. */
  function SumRows(def: ReportDefinition, dom: Domain, store: Store): seq<GroupRow> {
    store.readGroup(dom, [def.groupField, def.valueField], [def.groupField]).GetOr([])
  }

  /** The sum map: filled from the grouped-sum rows only when a value field is set. */
  function SumMapFor(def: ReportDefinition, dom: Domain, store: Store): map<GroupId, real> {
    if def.valueField != "" then SumMapOf(SumRows(def, dom, store)) else map[]
  }

  /** All groups of the chart, joined and labelled, in query order and untruncated. */
  function GroupEntries(def: ReportDefinition, dom: Domain, store: Store): seq<Entry> {
    EntriesOf(CountRows(def, dom, store), SumMapFor(def, dom, store), def.valueField != "")
  }

  /**
   * The bar part: the top groups when a group field is set; otherwise one
   * `'All'` row with the record count and the overall sum (or the count
   * again without a value field). Only the ungrouped queries are outside
   * an inner `try`, so only they can fail the whole chart (`None`).
   */
  function BarsOf(def: ReportDefinition, dom: Domain, store: Store): (r: Option<Bars>)
    ensures def.groupField != "" ==> r.Some?
    ensures r.Some? ==> |r.value.labels| == |r.value.counts| == |r.value.sums|
  {
    var hasValue := def.valueField != "";
    if def.groupField != "" then
      var top := TopN(GroupEntries(def, dom, store), def.limit, hasValue);
      Some(Bars(CaptionsOf(top), CountsOf(top), SumsOf(top)))
    else
      match store.searchCount(dom, true)
      case None => None
      case Some(total) =>
        if !hasValue then Some(Bars(["All"], [total], [total as real]))
        else
          match store.readGroup(dom, [def.valueField], [])
          case None => None
          case Some(rows) => Some(Bars(["All"], [total], [if rows == [] then 0.0 else SumValue(rows[0])]))
  }

  /** The fields the time-series query reads. */
  function SeriesFields(valueField: string): seq<string> {
    if valueField != "" then ["create_date", valueField] else ["create_date"]
  }

  /** The time-series rows, grouped by creation month; a failed query contributes no rows. */
  function SeriesRows(def: ReportDefinition, dom: Domain, store: Store): seq<PeriodRow> {
    store.readSeries(dom, SeriesFields(def.valueField), "create_date:month").GetOr([])
  }

  /** One point of the line: the period's sum (`None` or 0 read as 0.0) or its count. */
  function LineValue(row: PeriodRow, hasValue: bool): real {
    if hasValue then row.value.GetOr(0.0) else row.count.GetOr(0) as real
  }

  function PeriodsOf(rows: seq<PeriodRow>): (r: seq<string>)
    ensures |r| == |rows| && forall i :: 0 <= i < |rows| ==> r[i] == rows[i].period
  {
    seq(|rows|, i requires 0 <= i < |rows| => rows[i].period)
  }

  function LineValuesOf(rows: seq<PeriodRow>, hasValue: bool): (r: seq<real>)
    ensures |r| == |rows| && forall i :: 0 <= i < |rows| ==> r[i] == LineValue(rows[i], hasValue)
  {
    seq(|rows|, i requires 0 <= i < |rows| => LineValue(rows[i], hasValue))
  }

  /**
   * `get_chart_data` as a whole: the bar part, then the line part; when the
   * bar part fails every list is empty.
   */
  function ChartDataOf(def: ReportDefinition, today: Date, parse: string -> Option<Domain>,
                       store: Store, extra: Domain): (r: ChartData)
    ensures |r.labels| == |r.countValues| == |r.sumValues|
    ensures |r.lineLabels| == |r.lineValues|
    ensures var bars := BarsOf(def, QueryDomain(def, today, parse, extra), store);
      && (bars.None? ==> r == EmptyChart)
      && (bars.Some? ==>
            && r.labels == bars.value.labels && r.countValues == bars.value.counts && r.sumValues == bars.value.sums
            && r.lineLabels == PeriodsOf(SeriesRows(def, QueryDomain(def, today, parse, extra), store))
            && r.lineValues == LineValuesOf(SeriesRows(def, QueryDomain(def, today, parse, extra), store), def.valueField != ""))
  {
    var dom := QueryDomain(def, today, parse, extra);
    match BarsOf(def, dom, store)
    case None => EmptyChart
    case Some(bars) =>
      var rows := SeriesRows(def, dom, store);
      ChartData(bars.labels, bars.counts, bars.sums, PeriodsOf(rows), LineValuesOf(rows, def.valueField != ""))
  }

  /** `get_chart_data`: one line label and one line value per period row, in the store's order. */
  method BuildSeries(rows: seq<PeriodRow>, hasValue: bool) returns (lineLabels: seq<string>, lineValues: seq<real>)
    ensures lineLabels == PeriodsOf(rows) && lineValues == LineValuesOf(rows, hasValue)
  {
    lineLabels, lineValues := [], [];
    for i := 0 to |rows|
      invariant |lineLabels| == |lineValues| == i
      invariant forall k :: 0 <= k < i ==> lineLabels[k] == rows[k].period && lineValues[k] == LineValue(rows[k], hasValue)
    {
      lineLabels := lineLabels + [rows[i].period];
      if hasValue {
        lineValues := lineValues + [rows[i].value.GetOr(0.0)];
      } else {
        lineValues := lineValues + [rows[i].count.GetOr(0) as real];
      }
    }
  }

  /** `get_chart_data`: the grouped bar part; both of its queries fall back to no rows on failure. */
  method GroupedBars(def: ReportDefinition, dom: Domain, store: Store) returns (bars: Bars)
    requires def.groupField != ""
    ensures BarsOf(def, dom, store) == Some(bars)
  {
    var hasValue := def.valueField != "";
    var groups := store.readGroup(dom, [def.groupField], [def.groupField]).GetOr([]);
    var sumMap: map<GroupId, real> := map[];
    if hasValue {
      var grpSum := store.readGroup(dom, [def.groupField, def.valueField], [def.groupField]).GetOr([]);
      sumMap := BuildSumMap(grpSum);
    }
    assert sumMap == SumMapFor(def, dom, store);
    var entries := BuildEntries(groups, sumMap, hasValue);
    assert entries == GroupEntries(def, dom, store);
    entries := TopN(entries, def.limit, hasValue);
    var labels, counts, sums := Columns(entries);
    assert labels == CaptionsOf(entries) && counts == CountsOf(entries) && sums == SumsOf(entries);
    bars := Bars(labels, counts, sums);
  }

  /** `get_chart_data`: the single `'All'` row; a failing query fails the chart. */
  method UngroupedBars(def: ReportDefinition, dom: Domain, store: Store) returns (bars: Option<Bars>)
    requires def.groupField == ""
    ensures bars == BarsOf(def, dom, store)
  {
    var total := store.searchCount(dom, true);
    if total.None? {
      return None;
    }
    if def.valueField == "" {
      return Some(Bars(["All"], [total.value], [total.value as real]));
    }
    var rows := store.readGroup(dom, [def.valueField], []);
    if rows.None? {
      return None;
    }
    var totalSum := if rows.value == [] then 0.0 else SumValue(rows.value[0]);
    bars := Some(Bars(["All"], [total.value], [totalSum]));
  }

  // ---------------------------------------------------------------------
  // KPIs
  // ---------------------------------------------------------------------

  datatype KpiSet = KpiSet(
    leadCount: nat,
    oppCount: nat,
    totalOpps: nat,
    forecast: Option<real>,
    wonRate: real,
    lostRate: real,
    conversionRate: real)

  function LeadDomain(dom: Domain): Domain { dom + [Leaf("type", "=", VText("lead"))] }
  function OppDomain(dom: Domain): Domain { dom + [Leaf("type", "=", VText("opportunity"))] }
  function LostDomain(dom: Domain): Domain {
    dom + [Leaf("type", "=", VText("opportunity")), Leaf("active", "=", VBool(false))]
  }
  function WonDomain(dom: Domain): Domain { OppDomain(dom) + [Leaf("stage_id.is_won", "=", VBool(true))] }

  // ---------------------------------------------------------------------
  // Detail listing
  // ---------------------------------------------------------------------

  predicate Distinct(s: seq<string>) {
    forall i, j :: 0 <= i < j < |s| ==> s[i] != s[j]
  }

  const LeadDetailFields: seq<string> := ["name", "partner_id", "user_id", "stage_id", "expected_revenue",
    "probability", "create_date", "type", "active", "lost_reason_id"]

  lemma LeadDetailFieldsDistinct()
    ensures Distinct(LeadDetailFields)
  {
  }

  /**
   * The fields a detail listing reads: the fixed list, plus the group
   * field when it is set, not listed yet and a field of the model.
   */
  function DetailFields(base: seq<string>, groupField: string, modelFields: set<string>): (r: seq<string>)
    ensures r == base || r == base + [groupField]
    ensures r != base <==> groupField != "" && groupField !in base && groupField in modelFields
    ensures Distinct(base) ==> Distinct(r)
  {
    if groupField != "" && groupField !in base && groupField in modelFields then base + [groupField] else base
  }

  /** `self.limit or 100`: an unset (zero) limit reads 100 records; any other limit is passed on. */
  function DetailLimit(limit: int): (r: int)
    ensures r != 0
    ensures limit != 0 ==> r == limit
    ensures limit == 0 ==> r == 100
  {
    if limit != 0 then limit else 100
  }

  // ---------------------------------------------------------------------
  // The report record
  // ---------------------------------------------------------------------

  class LookerReport {
    var name: string
    var domain: string
    var groupField: string
    var valueField: string
    var chartType: ChartType
    var limit: int
    var timeFilter: TimeFilter
    var dateFrom: Option<Date>
    var dateTo: Option<Date>
    var description: string
    var successDomain: string

    /**
     * A new report with the field defaults (a bar chart, limit 1000, this
     * year); the stored computed description is filled on creation.
     */
    constructor (name: string)
      ensures this.name == name && chartType == Bar && limit == 1000 && timeFilter == ThisYear
      ensures domain == "" && groupField == "" && valueField == "" && successDomain == ""
      ensures dateFrom.None? && dateTo.None?
      ensures description == DescriptionText(Bar, "", "", "", ThisYear, map[])
      ensures description == "Biểu đồ cột so sánh Số lượng giữa các ."
    {
      this.name := name;
      domain, groupField, valueField, successDomain := "", "", "", "";
      chartType, limit, timeFilter := Bar, 1000, ThisYear;
      dateFrom, dateTo := None, None;
      description := DescriptionText(Bar, "", "", "", ThisYear, map[]);
    }

    function Definition(): ReportDefinition
      reads this
    {
      ReportDefinition(domain, groupField, valueField, chartType, limit, timeFilter, dateFrom, dateTo, successDomain)
    }

    /**
     * `_compute_description`: store the sentence for the chart type, with
     * the filter note when a filter text is set; nothing else changes.
     */
    method ComputeDescription(labels: map<string, string>)
      modifies this`description
      ensures description == DescriptionText(chartType, groupField, valueField, domain, timeFilter, labels)
    {
      var timeLabel := TimeFilterLabel(timeFilter);
      var groupLabel := FieldLabel(groupField, labels);
      var valueLabel := if valueField != "" then FieldLabel(valueField, labels) else "Số lượng";
      var desc := "";
      if chartType == Pie {
        desc := "Biểu đồ tròn thể hiện tỷ lệ phân bố " + valueLabel + " theo " + groupLabel + ".";
      } else if chartType == Bar {
        desc := "Biểu đồ cột so sánh " + valueLabel + " giữa các " + groupLabel + ".";
      } else if chartType == Line {
        desc := "Biểu đồ đường thể hiện xu hướng biến động của " + valueLabel + " theo " + timeLabel + ".";
      }
      if domain != "" {
        desc := desc + FilteredNote;
      }
      description := desc;
    }

    /**
     * `get_chart_data`: resolve the domain, join and truncate the groups
     * (or build the single `'All'` row), then read the monthly line.
     */
    method GetChartData(today: Date, parse: string -> Option<Domain>, store: Store, extra: Domain)
      returns (data: ChartData)
      ensures data == ChartDataOf(Definition(), today, parse, store, extra)
      ensures |data.labels| == |data.countValues| == |data.sumValues|
      ensures |data.lineLabels| == |data.lineValues|
    {
      var def := Definition();
      var dom := EvalDomain(domain, parse) + TimeDomain(timeFilter, dateFrom, dateTo, today);
      if |extra| > 0 {
        dom := dom + extra;
      }
      assert dom == QueryDomain(def, today, parse, extra);
      var bars: Option<Bars>;
      if groupField != "" {
        var grouped := GroupedBars(def, dom, store);
        bars := Some(grouped);
      } else {
        bars := UngroupedBars(def, dom, store);
      }
      if bars.None? {
        return EmptyChart;
      }
      var series := store.readSeries(dom, SeriesFields(valueField), "create_date:month").GetOr([]);
      assert series == SeriesRows(def, dom, store);
      var lineLabels, lineValues := BuildSeries(series, valueField != "");
      data := ChartData(bars.value.labels, bars.value.counts, bars.value.sums, lineLabels, lineValues);
    }

    /**
     * `get_kpi_data`: lead, active-opportunity, lost-opportunity (inactive
     * records included) and won counts, the forecast revenue, and the
     * rates. Its store calls are not guarded, so any failing call fails the
     * whole block.
     */
    function KpiData(today: Date, parse: string -> Option<Domain>, store: Store, extra: Domain): (r: Option<KpiSet>)
      reads this
      ensures var dom := QueryDomain(Definition(), today, parse, extra);
        r.Some? <==>
          && store.searchCount(LeadDomain(dom), true).Some?
          && store.searchCount(OppDomain(dom), true).Some?
          && store.searchCount(LostDomain(dom), false).Some?
          && store.readGroup(OppDomain(dom), ["expected_revenue"], []).Some?
          && store.searchCount(WonDomain(dom), true).Some?
      ensures var dom := QueryDomain(Definition(), today, parse, extra);
        r.Some? ==>
          && r.value.leadCount == store.searchCount(LeadDomain(dom), true).value
          && r.value.oppCount == store.searchCount(OppDomain(dom), true).value
          && r.value.totalOpps == r.value.oppCount + store.searchCount(LostDomain(dom), false).value
      ensures var dom := QueryDomain(Definition(), today, parse, extra);
        r.Some? ==>
          var rates := RatesOf(r.value.leadCount, r.value.oppCount,
                               store.searchCount(LostDomain(dom), false).value,
                               store.searchCount(WonDomain(dom), true).value);
          r.value.wonRate == rates.won && r.value.lostRate == rates.lost && r.value.conversionRate == rates.conversion
      ensures var dom := QueryDomain(Definition(), today, parse, extra);
        r.Some? ==>
          var rows := store.readGroup(OppDomain(dom), ["expected_revenue"], []).value;
          r.value.forecast == (if rows == [] then Some(0.0) else rows[0].value)
      ensures r.Some? && r.value.totalOpps == 0 ==> r.value.wonRate == 0.0 && r.value.lostRate == 0.0
      ensures r.Some? ==> 0.0 <= r.value.lostRate <= 100.0 && 0.0 <= r.value.conversionRate <= 100.0 && 0.0 <= r.value.wonRate
      ensures r.Some? && r.value.leadCount + r.value.totalOpps == 0 ==> r.value.conversionRate == 0.0
      ensures var dom := QueryDomain(Definition(), today, parse, extra);
        r.Some? && store.searchCount(WonDomain(dom), true).value <= r.value.oppCount
        ==> r.value.wonRate + r.value.lostRate <= 100.0
    {
      var dom := QueryDomain(Definition(), today, parse, extra);
      var leads := store.searchCount(LeadDomain(dom), true);
      var active := store.searchCount(OppDomain(dom), true);
      var lost := store.searchCount(LostDomain(dom), false);
      var forecastRows := store.readGroup(OppDomain(dom), ["expected_revenue"], []);
      var won := store.searchCount(WonDomain(dom), true);
      if leads.None? || active.None? || lost.None? || forecastRows.None? || won.None? then None
      else
        var rates := RatesOf(leads.value, active.value, lost.value, won.value);
        var forecast := if forecastRows.value == [] then Some(0.0) else forecastRows.value[0].value;
        var kpis := Some(KpiSet(leads.value, active.value, active.value + lost.value, forecast,
                                rates.won, rates.lost, rates.conversion));
        if won.value <= active.value then
          WonAndLostAtMostAll(leads.value, active.value, lost.value, won.value);
          kpis
        else kpis
    }

    /**
     * `get_detail_data`: up to `limit` (100 when unset) leads, inactive ones
     * included, newest first, with the detail fields; an unguarded store
     * call, so a failure fails the listing.
     */
    function DetailData(today: Date, parse: string -> Option<Domain>, store: Store, extra: Domain,
                        modelFields: set<string>): (r: Option<seq<Record>>)
      reads this
      ensures exists fields: seq<string>, lim: int ::
        && r == store.searchRead(QueryDomain(Definition(), today, parse, extra), fields, lim, "create_date desc", false)
        && |LeadDetailFields| <= |fields| <= |LeadDetailFields| + 1
        && fields[..|LeadDetailFields|] == LeadDetailFields
        && Distinct(fields)
        && (|fields| > |LeadDetailFields| <==>
              groupField != "" && groupField !in LeadDetailFields && groupField in modelFields)
        && (|fields| > |LeadDetailFields| ==> fields[|LeadDetailFields|] == groupField)
        && lim != 0 && (limit != 0 ==> lim == limit) && (limit == 0 ==> lim == 100)
    {
      LeadDetailFieldsDistinct();
      store.searchRead(QueryDomain(Definition(), today, parse, extra),
                       DetailFields(LeadDetailFields, groupField, modelFields),
                       DetailLimit(limit), "create_date desc", false)
    }
  }
}
