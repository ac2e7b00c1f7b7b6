/**
 * The activity report (`looker_studio.activity_report`, over
 * `mail.activity`): activity totals, a breakdown by activity type, an
 * optional grouping, and a detail listing in which activities attached to
 * leads are enriched with the lead's salesperson.
 */
module ActivityReports {
  import opened Wrappers
  import opened Calendar
  import opened Domains
  import opened RecordStore
  import opened Grouping
  import opened LookerReports

  /** The settings of an activity report; the engine never changes them. */
  datatype ActivityReport = ActivityReport(
    domain: string,
    groupField: string,
    limit: int,
    timeFilter: TimeFilter,
    dateFrom: Option<Date>,
    dateTo: Option<Date>)

  /** The filter text, then the time window; activity queries take no extra predicates. */
  function ActivityDomain(rep: ActivityReport, today: Date, parse: string -> Option<Domain>): Domain {
    EffectiveDomain(rep.domain, parse, TimeDomain(rep.timeFilter, rep.dateFrom, rep.dateTo, today), [])
  }

  /** The filter domain and the time window, joined as `_eval_domain() + _get_time_domain()`. */
  lemma ActivityDomainJoins(rep: ActivityReport, today: Date, parse: string -> Option<Domain>)
    ensures ActivityDomain(rep, today, parse)
      == EvalDomain(rep.domain, parse) + TimeDomain(rep.timeFilter, rep.dateFrom, rep.dateTo, today)
  {
  }

  // ---------------------------------------------------------------------
  // get_data
  // ---------------------------------------------------------------------

  datatype TypeCount = TypeCount(name: string, count: nat)

  /** The result of `get_data`; `failed` marks the error answer with its zero total and empty lists. */
  datatype ActivityData = ActivityData(
    total: nat,
    typeCounts: seq<TypeCount>,
    labels: seq<string>,
    values: seq<nat>,
    failed: bool)

  const FailedData := ActivityData(0, [], [], [], true)

  /**
   * One activity-type card: `g['activity_type_id'][1]` for a truthy key
   * (the display name of a pair; the second character of a text, failing
   * when it has none), `'Undefined'` for a falsy key, with `g['__count']`,
   * failing when the row has no count.
   */
  function TypeCountOf(row: GroupRow): (r: Option<TypeCount>)
    ensures row.count.None? ==> r.None?
    ensures row.count.Some? && row.key.Pair? ==> r == Some(TypeCount(row.key.name, row.count.value))
    ensures row.count.Some? && !Truthy(row.key) ==> r == Some(TypeCount("Undefined", row.count.value))
  {
    var name: Option<string> :=
      match row.key
      case Pair(_, n) => Some(n)
      case Scalar(t) => if t == "" then Some("Undefined") else if |t| > 1 then Some([t[1]]) else None
      case Falsy => Some("Undefined");
    if name.None? || row.count.None? then None else Some(TypeCount(name.value, row.count.value))
  }

  /** The cards of all rows, in order; one failing row fails them all. */
  function TypeCountsOf(rows: seq<GroupRow>): (r: Option<seq<TypeCount>>)
    ensures r.Some? ==> |r.value| == |rows|
    ensures r.Some? && rows != [] ==> Some(r.value[|rows| - 1]) == TypeCountOf(rows[|rows| - 1])
  {
    if rows == [] then Some([])
    else
      var init := TypeCountsOf(rows[..|rows| - 1]);
      var last := TypeCountOf(rows[|rows| - 1]);
      if init.None? || last.None? then None else Some(init.value + [last.value])
  }

  /**
   * `type_counts` has one card per grouped row, in order, exactly when no
   * row fails.
   */
  lemma {:induction false} TypeCountsOnePerRow(rows: seq<GroupRow>)
    ensures TypeCountsOf(rows).Some? <==> forall i :: 0 <= i < |rows| ==> TypeCountOf(rows[i]).Some?
    ensures TypeCountsOf(rows).Some? ==>
      && |TypeCountsOf(rows).value| == |rows|
      && forall i :: 0 <= i < |rows| ==> Some(TypeCountsOf(rows).value[i]) == TypeCountOf(rows[i])
  {
    if rows != [] {
      var init := rows[..|rows| - 1];
      TypeCountsOnePerRow(init);
      assert forall i :: 0 <= i < |init| ==> init[i] == rows[i];
    }
  }

  /** Labels and counts of the optional grouping: `g.get('__count', 0)` per row. */
  function GroupLabels(rows: seq<GroupRow>): (r: seq<string>)
    ensures |r| == |rows| && forall i :: 0 <= i < |rows| ==> r[i] == Label(rows[i].key)
  {
    seq(|rows|, i requires 0 <= i < |rows| => Label(rows[i].key))
  }

  function GroupCounts(rows: seq<GroupRow>): (r: seq<nat>)
    ensures |r| == |rows| && forall i :: 0 <= i < |rows| ==> r[i] == CountOf(rows[i])
  {
    seq(|rows|, i requires 0 <= i < |rows| => CountOf(rows[i]))
  }

  /** `get_data` on a resolved domain `dom`: any failure inside its `try` gives the error answer. */
  function DataOn(groupField: string, dom: Domain, store: Store): ActivityData {
    match store.searchCount(dom, true)
    case None => FailedData
    case Some(total) =>
      match store.readGroup(dom, ["activity_type_id"], ["activity_type_id"])
      case None => FailedData
      case Some(typeRows) =>
        match TypeCountsOf(typeRows)
        case None => FailedData
        case Some(cards) =>
          if groupField == "" then ActivityData(total, cards, [], [], false)
          else
            match store.readGroup(dom, [groupField], [groupField])
            case None => FailedData
            case Some(groups) => ActivityData(total, cards, GroupLabels(groups), GroupCounts(groups), false)
  }

  /** `get_data` as a whole, on the report's own domain. */
  function ActivityDataOf(rep: ActivityReport, today: Date, parse: string -> Option<Domain>, store: Store): (r: ActivityData)
    ensures |r.labels| == |r.values|
    ensures r.failed ==> r == FailedData
    ensures !r.failed ==> store.searchCount(ActivityDomain(rep, today, parse), true) == Some(r.total)
    ensures store.searchCount(ActivityDomain(rep, today, parse), true).None? ==> r.failed
    ensures rep.groupField == "" ==> r.labels == [] && r.values == []
  {
    DataOn(rep.groupField, ActivityDomain(rep, today, parse), store)
  }

  /**
   * What `get_data` answers: the error answer exactly when the count, the
   * breakdown by activity type, a type card or the optional grouping
   * fails; otherwise the activity count, one card per activity type in
   * query order (its display name, or `'Undefined'` for activities without
   * a type, with its count), and one label and count per group.
   */
  lemma {:induction false} ActivityDataAnswers(rep: ActivityReport, today: Date, parse: string -> Option<Domain>, store: Store)
    ensures var dom := ActivityDomain(rep, today, parse);
      var data := ActivityDataOf(rep, today, parse, store);
      && (data.failed <==>
            || store.searchCount(dom, true).None?
            || store.readGroup(dom, ["activity_type_id"], ["activity_type_id"]).None?
            || (exists i :: 0 <= i < |store.readGroup(dom, ["activity_type_id"], ["activity_type_id"]).value|
                  && TypeCountOf(store.readGroup(dom, ["activity_type_id"], ["activity_type_id"]).value[i]).None?)
            || (rep.groupField != "" && store.readGroup(dom, [rep.groupField], [rep.groupField]).None?))
      && (data.failed ==> data == FailedData)
      && (!data.failed ==>
            var rows := store.readGroup(dom, ["activity_type_id"], ["activity_type_id"]).value;
            && data.total == store.searchCount(dom, true).value
            && |data.typeCounts| == |rows|
            && (forall i :: 0 <= i < |rows| ==>
                  && rows[i].count.Some?
                  && data.typeCounts[i].count == rows[i].count.value
                  && (rows[i].key.Pair? ==> data.typeCounts[i].name == rows[i].key.name)
                  && (!Truthy(rows[i].key) ==> data.typeCounts[i].name == "Undefined"))
            && (rep.groupField == "" ==> data.labels == [] && data.values == [])
            && (rep.groupField != "" ==>
                  var groups := store.readGroup(dom, [rep.groupField], [rep.groupField]).value;
                  && |data.labels| == |data.values| == |groups|
                  && forall i :: 0 <= i < |groups| ==>
                       data.labels[i] == Label(groups[i].key) && data.values[i] == CountOf(groups[i])))
  {
    var dom := ActivityDomain(rep, today, parse);
    var typeRows := store.readGroup(dom, ["activity_type_id"], ["activity_type_id"]);
    if typeRows.Some? {
      var rows := typeRows.value;
      TypeCountsOnePerRow(rows);
      if TypeCountsOf(rows).Some? {
        forall i | 0 <= i < |rows|
          ensures rows[i].count.Some? && TypeCountsOf(rows).value[i].count == rows[i].count.value
        {
          assert Some(TypeCountsOf(rows).value[i]) == TypeCountOf(rows[i]);
        }
      }
    }
  }

  /** `get_data`: build the type cards, one row at a time; a failing row fails them all. */
  method BuildTypeCounts(rows: seq<GroupRow>) returns (cards: Option<seq<TypeCount>>)
    ensures cards == TypeCountsOf(rows)
  {
    var acc: seq<TypeCount> := [];
    for i := 0 to |rows|
      invariant TypeCountsOf(rows[..i]) == Some(acc)
    {
      assert rows[..i + 1][..i] == rows[..i];
      var card := TypeCountOf(rows[i]);
      if card.None? {
        TypeCountsOnePerRow(rows);
        return None;
      }
      acc := acc + [card.value];
    }
    assert rows[..|rows|] == rows;
    cards := Some(acc);
  }

  /** `get_data`: one label and one count per group row. */
  method BuildGroupColumns(groups: seq<GroupRow>) returns (labels: seq<string>, values: seq<nat>)
    ensures labels == GroupLabels(groups) && values == GroupCounts(groups)
  {
    labels, values := [], [];
    for i := 0 to |groups|
      invariant |labels| == |values| == i
      invariant forall k :: 0 <= k < i ==> labels[k] == Label(groups[k].key) && values[k] == CountOf(groups[k])
    {
      labels := labels + [Label(groups[i].key)];
      values := values + [CountOf(groups[i])];
    }
  }

  /**
   * `get_data`: count the activities, build one card per activity type
   * and, with a group field, one label and count per group.
   */
  method GetData(rep: ActivityReport, today: Date, parse: string -> Option<Domain>, store: Store)
    returns (data: ActivityData)
    ensures data == ActivityDataOf(rep, today, parse, store)
    ensures |data.labels| == |data.values|
    ensures data.failed ==> data == FailedData
  {
    var dom := EvalDomain(rep.domain, parse) + TimeDomain(rep.timeFilter, rep.dateFrom, rep.dateTo, today);
    ActivityDomainJoins(rep, today, parse);
    var total := store.searchCount(dom, true);
    if total.None? {
      return FailedData;
    }
    var typeRows := store.readGroup(dom, ["activity_type_id"], ["activity_type_id"]);
    if typeRows.None? {
      return FailedData;
    }
    var cards := BuildTypeCounts(typeRows.value);
    if cards.None? {
      return FailedData;
    }
    if rep.groupField == "" {
      return ActivityData(total.value, cards.value, [], [], false);
    }
    var groups := store.readGroup(dom, [rep.groupField], [rep.groupField]);
    if groups.None? {
      return FailedData;
    }
    var labels, values := BuildGroupColumns(groups.value);
    data := ActivityData(total.value, cards.value, labels, values, false);
    assert data == DataOn(rep.groupField, dom, store);
  }

  // ---------------------------------------------------------------------
  // get_detail_data
  // ---------------------------------------------------------------------

  const ActivityDetailFields: seq<string> := ["res_name", "activity_type_id", "summary", "date_deadline",
    "user_id", "state", "res_model", "res_id"]

  /** `r.get('res_model') == 'crm.lead'` */
  predicate IsLeadRecord(r: Record) {
    "res_model" in r && r["res_model"] == VText("crm.lead")
  }

  /** `[r['res_id'] for r in records if ...]`: fails when a lead record lacks `res_id`. */
  function LeadIds(recs: seq<Record>): (r: Option<seq<Val>>)
    ensures r.None? <==> exists i :: 0 <= i < |recs| && IsLeadRecord(recs[i]) && "res_id" !in recs[i]
    ensures r.Some? ==> |r.value| <= |recs|
  {
    if recs == [] then Some([])
    else
      var init := LeadIds(recs[..|recs| - 1]);
      var r := recs[|recs| - 1];
      if init.None? then None
      else if !IsLeadRecord(r) then init
      else if "res_id" !in r then None
      else Some(init.value + [r["res_id"]])
  }

  /** Every lead record's `res_id` is among the collected lead ids, and only those are. */
  lemma {:induction false} LeadIdsCollected(recs: seq<Record>)
    ensures LeadIds(recs).Some? ==> forall r :: r in recs && IsLeadRecord(r) ==> "res_id" in r && r["res_id"] in LeadIds(recs).value
    ensures LeadIds(recs).Some? ==> forall v :: v in LeadIds(recs).value ==>
      exists r :: r in recs && IsLeadRecord(r) && "res_id" in r && r["res_id"] == v
    ensures LeadIds(recs) == Some([]) <== forall r :: r in recs ==> !IsLeadRecord(r)
  {
    if recs != [] {
      var init := recs[..|recs| - 1];
      LeadIdsCollected(init);
      assert recs == init + [recs[|recs| - 1]];
    }
  }

  /** `{l.id: l.user_id.name for l in leads}`, where `leadUser` reads a lead's salesperson name. */
  function LeadMap(ids: seq<Val>, leadUser: Val -> Val): (m: map<Val, Val>)
    ensures forall v :: v in m <==> v in ids
    ensures forall v :: v in ids ==> m[v] == leadUser(v)
  {
    map v | v in ids :: leadUser(v)
  }

  /**
   * The enrichment of one record: a record whose `res_model` is
   * `crm.lead` gains (or has replaced) its `salesperson` key, looked up by
   * `res_id` in the lead map (`None` when absent); every other key and
   * every other record are untouched.
   */
  function EnrichRecord(r: Record, leadMap: map<Val, Val>): (e: Record)
    ensures !IsLeadRecord(r) ==> e == r
    ensures IsLeadRecord(r) ==> e.Keys == r.Keys + {"salesperson"}
    ensures forall k :: k in r && k != "salesperson" ==> e[k] == r[k]
    ensures IsLeadRecord(r) && "res_id" in r && r["res_id"] in leadMap ==> e["salesperson"] == leadMap[r["res_id"]]
  {
    if IsLeadRecord(r) then
      var sales := if "res_id" in r && r["res_id"] in leadMap then leadMap[r["res_id"]] else VNone;
      r["salesperson" := sales]
    else r
  }

  /** `get_detail_data`: enrich the records in place, one at a time. */
  method Enrich(a: array<Record>, leadMap: map<Val, Val>)
    modifies a
    ensures forall i :: 0 <= i < a.Length ==> a[i] == EnrichRecord(old(a[i]), leadMap)
  {
    for i := 0 to a.Length
      invariant forall k :: 0 <= k < i ==> a[k] == EnrichRecord(old(a[k]), leadMap)
      invariant forall k :: i <= k < a.Length ==> a[k] == old(a[k])
    {
      if IsLeadRecord(a[i]) {
        var sales := if "res_id" in a[i] && a[i]["res_id"] in leadMap then leadMap[a[i]["res_id"]] else VNone;
        a[i] := a[i]["salesperson" := sales];
      }
    }
  }

  /** Every record of a listing, enriched. */
  function EnrichAll(recs: seq<Record>, leadMap: map<Val, Val>): (out: seq<Record>)
    ensures |out| == |recs| && forall i :: 0 <= i < |recs| ==> out[i] == EnrichRecord(recs[i], leadMap)
  {
    seq(|recs|, i requires 0 <= i < |recs| => EnrichRecord(recs[i], leadMap))
  }

  /** The listing is copied into an array that `Enrich` updates in place. */
  method EnrichRecords(recs: seq<Record>, leadMap: map<Val, Val>) returns (out: seq<Record>)
    ensures out == EnrichAll(recs, leadMap)
  {
    var a := new Record[|recs|](i requires 0 <= i < |recs| => recs[i]);
    Enrich(a, leadMap);
    out := a[..];
  }

  /** `get_detail_data` as a whole; a failure inside its `try` gives no records. */
  function ActivityDetailOf(rep: ActivityReport, today: Date, parse: string -> Option<Domain>, store: Store,
                            modelFields: set<string>, leadUser: Val -> Val): (out: seq<Record>)
    ensures var fields := DetailFields(ActivityDetailFields, rep.groupField, modelFields);
      var found := store.searchRead(ActivityDomain(rep, today, parse), fields, DetailLimit(rep.limit), "date_deadline asc", true);
      && (found.None? ==> out == [])
      && (found.Some? && LeadIds(found.value).None? ==> out == [])
      && (found.Some? && LeadIds(found.value).Some? ==> |out| == |found.value|)
      && (found.Some? && LeadIds(found.value) == Some([]) ==> out == found.value)
  {
    var fields := DetailFields(ActivityDetailFields, rep.groupField, modelFields);
    match store.searchRead(ActivityDomain(rep, today, parse), fields, DetailLimit(rep.limit), "date_deadline asc", true)
    case None => []
    case Some(recs) =>
      match LeadIds(recs)
      case None => []
      case Some(ids) =>
        if ids == [] then recs
        else EnrichAll(recs, LeadMap(ids, leadUser))
  }

  /**
   * `get_detail_data`: read the activities (nearest deadline first), collect
   * the ids of the leads they are attached to, and enrich those records
   * with the lead's salesperson.
   */
  method GetDetailData(rep: ActivityReport, today: Date, parse: string -> Option<Domain>, store: Store,
                       modelFields: set<string>, leadUser: Val -> Val) returns (records: seq<Record>)
    ensures records == ActivityDetailOf(rep, today, parse, store, modelFields, leadUser)
  {
    var dom := EvalDomain(rep.domain, parse) + TimeDomain(rep.timeFilter, rep.dateFrom, rep.dateTo, today);
    ActivityDomainJoins(rep, today, parse);
    var fields := DetailFields(ActivityDetailFields, rep.groupField, modelFields);
    var found := store.searchRead(dom, fields, DetailLimit(rep.limit), "date_deadline asc", true);
    if found.None? {
      return [];
    }
    var recs := found.value;
    var ids := LeadIds(recs);
    if ids.None? {
      return [];
    }
    records := recs;
    if ids.value != [] {
      records := EnrichRecords(recs, LeadMap(ids.value, leadUser));
    }
  }

  /** The enriched form of a listing whose lead ids were collected. */
  function EnrichedListing(recs: seq<Record>, ids: seq<Val>, leadUser: Val -> Val): seq<Record> {
    if ids == [] then recs else EnrichAll(recs, LeadMap(ids, leadUser))
  }

  /**
   * On a listing alone: enrichment keeps the number and order of the
   * records, leaves the records not attached to a lead as read, and gives
   * each lead record exactly the `salesperson` key, holding that lead's
   * salesperson.
   */
  lemma EnrichedListingTouchesLeads(recs: seq<Record>, leadUser: Val -> Val)
    requires LeadIds(recs).Some?
    ensures var out := EnrichedListing(recs, LeadIds(recs).value, leadUser);
      && |out| == |recs|
      && (forall i :: 0 <= i < |recs| && !IsLeadRecord(recs[i]) ==> out[i] == recs[i])
      && (forall i :: 0 <= i < |recs| && IsLeadRecord(recs[i]) ==>
            && out[i].Keys == recs[i].Keys + {"salesperson"}
            && "res_id" in recs[i]
            && out[i]["salesperson"] == leadUser(recs[i]["res_id"])
            && forall k :: k in recs[i] && k != "salesperson" ==> out[i][k] == recs[i][k])
  {
    LeadIdsCollected(recs);
    var ids := LeadIds(recs).value;
    forall i | 0 <= i < |recs| && IsLeadRecord(recs[i])
      ensures "res_id" in recs[i] && recs[i]["res_id"] in LeadMap(ids, leadUser)
    {
      assert recs[i] in recs;
    }
  }

  /**
   * The enrichment keeps the number and order of the records; a record not
   * attached to a lead is returned as read, and one attached to a lead
   * gains exactly the `salesperson` key, holding that lead's salesperson.
   */
  lemma EnrichmentOnlyTouchesLeads(rep: ActivityReport, today: Date, parse: string -> Option<Domain>, store: Store,
                                   modelFields: set<string>, leadUser: Val -> Val)
    requires var fields := DetailFields(ActivityDetailFields, rep.groupField, modelFields);
      var found := store.searchRead(ActivityDomain(rep, today, parse), fields, DetailLimit(rep.limit), "date_deadline asc", true);
      found.Some? && LeadIds(found.value).Some?
    ensures var fields := DetailFields(ActivityDetailFields, rep.groupField, modelFields);
      var recs := store.searchRead(ActivityDomain(rep, today, parse), fields, DetailLimit(rep.limit), "date_deadline asc", true).value;
      var out := ActivityDetailOf(rep, today, parse, store, modelFields, leadUser);
      && |out| == |recs|
      && (forall i :: 0 <= i < |recs| && !IsLeadRecord(recs[i]) ==> out[i] == recs[i])
      && (forall i :: 0 <= i < |recs| && IsLeadRecord(recs[i]) ==>
            && out[i].Keys == recs[i].Keys + {"salesperson"}
            && "res_id" in recs[i]
            && out[i]["salesperson"] == leadUser(recs[i]["res_id"])
            && forall k :: k in recs[i] && k != "salesperson" ==> out[i][k] == recs[i][k])
  {
    var fields := DetailFields(ActivityDetailFields, rep.groupField, modelFields);
    var recs := store.searchRead(ActivityDomain(rep, today, parse), fields, DetailLimit(rep.limit), "date_deadline asc", true).value;
    assert ActivityDetailOf(rep, today, parse, store, modelFields, leadUser)
      == EnrichedListing(recs, LeadIds(recs).value, leadUser);
    EnrichedListingTouchesLeads(recs, leadUser);
  }
}
