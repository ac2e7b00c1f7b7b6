/**
 * The record store the reports query, seen only through the answers it
 * gives. Each query is a partial function: `None` stands for a call that
 * raised. Grouping order, period formatting and access rules are the
 * store's business and are not modelled.
 */
module RecordStore {
  import opened Wrappers
  import opened Domains

  /**
   * The value a grouped query reports for its group-by field: an
   * `(id, display name)` pair for a reference field, the raw text for a
   * char or selection field, or `False` for records with no value.
   */
  datatype GroupKey = Pair(id: int, name: string) | Scalar(text: string) | Falsy

  /** Python truthiness of a group key: `False` and the empty string are falsy. */
  predicate Truthy(k: GroupKey) {
    k.Pair? || (k.Scalar? && k.text != "")
  }

  /**
   * One row of a grouped query: the group key, the aggregated value field
   * (`None` when absent, `None` or `False`) and the `__count` entry.
   */
  datatype GroupRow = GroupRow(key: GroupKey, value: Option<real>, count: Option<nat>)

  /** One row of a query grouped by creation period, with the period's label. */
  datatype PeriodRow = PeriodRow(period: string, value: Option<real>, count: Option<nat>)

  /** A record as `search_read` returns it: field name to value. */
  type Record = map<string, Val>

  /**
   * The store's queries, each one bound to the searched model:
   * `readGroup(domain, fields, groupby)`, `readSeries(domain, fields, period)`,
   * `searchCount(domain, activeTest)` and
   * `searchRead(domain, fields, limit, order, activeTest)`.
   */
  datatype Store = Store(
    readGroup: (Domain, seq<string>, seq<string>) -> Option<seq<GroupRow>>,
    readSeries: (Domain, seq<string>, string) -> Option<seq<PeriodRow>>,
    searchCount: (Domain, bool) -> Option<nat>,
    searchRead: (Domain, seq<string>, int, string, bool) -> Option<seq<Record>>)

  /** `g.get('__count', 0)` */
  function CountOf(row: GroupRow): nat {
    row.count.GetOr(0)
  }
}
