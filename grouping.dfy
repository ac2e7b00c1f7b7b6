/**
 * The group aggregator of `get_chart_data`: joins grouped counts with
 * grouped sums by group id, labels each group, keeps the top N groups with
 * a stable descending sort, and splits the result into parallel columns.
 */
module Grouping {
  import opened Wrappers
  import opened RecordStore

  /** The key a group is joined on: a reference id, a raw text, or `False`. */
  datatype GroupId = RefId(id: int) | TextId(text: string) | NoId

  /** One group of the chart, before it is split into columns. */
  datatype Entry = Entry(gid: GroupId, caption: string, count: nat, sum: real)

  /** `key[0] if isinstance(key, (list, tuple)) else key` */
  function JoinId(k: GroupKey): (g: GroupId)
    ensures k.Pair? <==> g.RefId?
    ensures k.Pair? ==> g.id == k.id
    ensures k.Scalar? ==> g == TextId(k.text)
    ensures k.Falsy? <==> g == NoId
  {
    match k
    case Pair(id, _) => RefId(id)
    case Scalar(t) => TextId(t)
    case Falsy => NoId
  }

  /**
   * Two group keys join exactly when they are the same kind of key with
   * the same id (for pairs, whatever the display names) or the same text.
   */
  lemma JoinIdIdentifiesGroup(a: GroupKey, b: GroupKey)
    ensures JoinId(a) == JoinId(b) <==>
      || (a.Pair? && b.Pair? && a.id == b.id)
      || (a.Scalar? && b.Scalar? && a.text == b.text)
      || (a.Falsy? && b.Falsy?)
  {
  }

  /**
   * The display label of a group: a pair's display name, a truthy key
   * itself, and `'Undefined'` for a falsy key.
   */
  function Label(k: GroupKey): (l: string)
    ensures !Truthy(k) ==> l == "Undefined"
    ensures k.Pair? ==> l == k.name
    ensures k.Scalar? && Truthy(k) ==> l == k.text
  {
    match k
    case Pair(_, name) => name
    case Scalar(t) => if t != "" then t else "Undefined"
    case Falsy => "Undefined"
  }

  /** `g.get(value_field) or 0.0` */
  function SumValue(row: GroupRow): real {
    row.value.GetOr(0.0)
  }

  /**
   * The `sum_map` dictionary built from the grouped-sum rows: each row
   * stores its value under its group id, a later row overwriting an
   * earlier one.
   */
  function SumMapOf(rows: seq<GroupRow>): (sums: map<GroupId, real>)
    ensures forall i :: 0 <= i < |rows| ==> JoinId(rows[i].key) in sums
    ensures rows != [] ==> sums[JoinId(rows[|rows| - 1].key)] == SumValue(rows[|rows| - 1])
  {
    if rows == [] then map[]
    else
      var last := rows[|rows| - 1];
      SumMapOf(rows[..|rows| - 1])[JoinId(last.key) := SumValue(last)]
  }

  /**
   * A group id is in the sum map exactly when some sum row carries it, and
   * it then maps to the value of the last such row.
   */
  lemma {:induction false} SumMapOfLastRow(rows: seq<GroupRow>, gid: GroupId)
    ensures gid in SumMapOf(rows) <==> exists i :: 0 <= i < |rows| && JoinId(rows[i].key) == gid
    ensures forall i :: (0 <= i < |rows| && JoinId(rows[i].key) == gid
                         && forall j :: i < j < |rows| ==> JoinId(rows[j].key) != gid)
                        ==> gid in SumMapOf(rows) && SumMapOf(rows)[gid] == SumValue(rows[i])
  {
    if rows != [] {
      var n := |rows| - 1;
      var init := rows[..n];
      SumMapOfLastRow(init, gid);
      assert forall i :: 0 <= i < n ==> init[i] == rows[i];
      if JoinId(rows[n].key) != gid {
        assert (exists i :: 0 <= i < |rows| && JoinId(rows[i].key) == gid)
          ==> (exists i :: 0 <= i < n && JoinId(init[i].key) == gid);
      }
    }
  }

  /** `get_chart_data`: fill `sum_map` one grouped-sum row at a time. */
  method BuildSumMap(rows: seq<GroupRow>) returns (sums: map<GroupId, real>)
    ensures sums == SumMapOf(rows)
  {
    sums := map[];
    var i := 0;
    while i < |rows|
      invariant 0 <= i <= |rows|
      invariant sums == SumMapOf(rows[..i])
    {
      assert rows[..i + 1][..i] == rows[..i];
      sums := sums[JoinId(rows[i].key) := SumValue(rows[i])];
      i := i + 1;
    }
    assert rows[..|rows|] == rows;
  }

  /**
   * The chart entry of one grouped-count row: its join id, its label, its
   * `__count`, and its sum looked up in the sum map, defaulting to `0.0`
   * when a value field is set and to the count otherwise.
   */
  function EntryOf(row: GroupRow, sums: map<GroupId, real>, hasValue: bool): (e: Entry)
    ensures e.gid == JoinId(row.key) && e.caption == Label(row.key) && e.count == CountOf(row)
    ensures JoinId(row.key) in sums ==> e.sum == sums[JoinId(row.key)]
    ensures JoinId(row.key) !in sums && hasValue ==> e.sum == 0.0
    ensures JoinId(row.key) !in sums && !hasValue ==> e.sum == CountOf(row) as real
  {
    var gid := JoinId(row.key);
    var sval := if gid in sums then sums[gid] else if hasValue then 0.0 else CountOf(row) as real;
    Entry(gid, Label(row.key), CountOf(row), sval)
  }

  /** `get_chart_data`: one entry per grouped-count row, in query order. */
  method BuildEntries(groups: seq<GroupRow>, sums: map<GroupId, real>, hasValue: bool)
    returns (entries: seq<Entry>)
    ensures |entries| == |groups|
    ensures forall i :: 0 <= i < |groups| ==> entries[i] == EntryOf(groups[i], sums, hasValue)
  {
    entries := [];
    var i := 0;
    while i < |groups|
      invariant 0 <= i <= |groups|
      invariant |entries| == i
      invariant forall k :: 0 <= k < i ==> entries[k] == EntryOf(groups[k], sums, hasValue)
    {
      entries := entries + [EntryOf(groups[i], sums, hasValue)];
      i := i + 1;
    }
  }

  /** The entries of a whole query answer. */
  function EntriesOf(groups: seq<GroupRow>, sums: map<GroupId, real>, hasValue: bool): (es: seq<Entry>)
    ensures |es| == |groups|
    ensures forall i :: 0 <= i < |groups| ==> es[i] == EntryOf(groups[i], sums, hasValue)
  {
    seq(|groups|, i requires 0 <= i < |groups| => EntryOf(groups[i], sums, hasValue))
  }

  // ---------------------------------------------------------------------
  // Top-N: `sorted(entries, key=..., reverse=True)[:limit]`
  // ---------------------------------------------------------------------

  /** The sort key: the sum when a value field is set, the count otherwise. */
  function Key(e: Entry, bySum: bool): real {
    if bySum then e.sum else e.count as real
  }

  ghost predicate SortedDesc(s: seq<Entry>, bySum: bool) {
    forall i, j :: 0 <= i < j < |s| ==> Key(s[i], bySum) >= Key(s[j], bySum)
  }

  /** The entries of `s` whose key is `v`, in the order of `s`. */
  function WithKey(s: seq<Entry>, v: real, bySum: bool): seq<Entry> {
    if s == [] then []
    else (if Key(s[0], bySum) == v then [s[0]] else []) + WithKey(s[1..], v, bySum)
  }

  /**
   * Insert `x`, which came before every element of `s`, into the
   * descending sequence `s`: ahead of the first element whose key is not
   * larger, so that it stays ahead of the elements with an equal key.
   */
  function InsertDesc(x: Entry, s: seq<Entry>, bySum: bool): (r: seq<Entry>)
    ensures |r| == |s| + 1
  {
    if s == [] || Key(s[0], bySum) <= Key(x, bySum) then [x] + s
    else [s[0]] + InsertDesc(x, s[1..], bySum)
  }

  /** Insertion adds exactly the one element. */
  lemma {:induction false} InsertDescPermutes(x: Entry, s: seq<Entry>, bySum: bool)
    ensures multiset(InsertDesc(x, s, bySum)) == multiset{x} + multiset(s)
  {
    if s == [] || Key(s[0], bySum) <= Key(x, bySum) {
      assert InsertDesc(x, s, bySum) == [x] + s;
    } else {
      var t := InsertDesc(x, s[1..], bySum);
      assert InsertDesc(x, s, bySum) == [s[0]] + t;
      InsertDescPermutes(x, s[1..], bySum);
      assert s == [s[0]] + s[1..];
      assert multiset(s) == multiset{s[0]} + multiset(s[1..]);
    }
  }

  /** Python's stable `sorted(..., reverse=True)` on the sort key. */
  function SortDesc(s: seq<Entry>, bySum: bool): (r: seq<Entry>)
    ensures |r| == |s|
    ensures multiset(r) == multiset(s)
  {
    if s == [] then []
    else
      var t := SortDesc(s[1..], bySum);
      InsertDescPermutes(s[0], t, bySum);
      assert s == [s[0]] + s[1..];
      InsertDesc(s[0], t, bySum)
  }

  /** An insertion keeps every key under a bound that `x` and all of `s` respect. */
  lemma {:induction false} InsertDescBounded(x: Entry, s: seq<Entry>, b: real, bySum: bool)
    requires Key(x, bySum) <= b
    requires forall i :: 0 <= i < |s| ==> Key(s[i], bySum) <= b
    ensures forall i :: 0 <= i < |InsertDesc(x, s, bySum)| ==> Key(InsertDesc(x, s, bySum)[i], bySum) <= b
  {
    if s != [] && Key(s[0], bySum) > Key(x, bySum) {
      var t := InsertDesc(x, s[1..], bySum);
      InsertDescBounded(x, s[1..], b, bySum);
      var r := [s[0]] + t;
      assert InsertDesc(x, s, bySum) == r;
      forall i | 0 < i < |r| ensures Key(r[i], bySum) <= b {
        assert r[i] == t[i - 1];
      }
    }
  }

  lemma {:induction false} InsertDescSorted(x: Entry, s: seq<Entry>, bySum: bool)
    requires SortedDesc(s, bySum)
    ensures SortedDesc(InsertDesc(x, s, bySum), bySum)
  {
    if s != [] && Key(s[0], bySum) > Key(x, bySum) {
      var tail := s[1..];
      assert forall i, j :: 0 <= i < j < |tail| ==> tail[i] == s[i + 1] && tail[j] == s[j + 1];
      assert forall i :: 0 <= i < |tail| ==> tail[i] == s[i + 1];
      InsertDescSorted(x, tail, bySum);
      InsertDescBounded(x, tail, Key(s[0], bySum), bySum);
      var t := InsertDesc(x, tail, bySum);
      var r := [s[0]] + t;
      assert InsertDesc(x, s, bySum) == r;
      forall i, j | 0 <= i < j < |r| ensures Key(r[i], bySum) >= Key(r[j], bySum) {
        assert r[j] == t[j - 1];
        if i > 0 {
          assert r[i] == t[i - 1];
        }
      }
    }
  }

  /** `WithKey` of a sequence with a known first element. */
  lemma WithKeyCons(e: Entry, rest: seq<Entry>, v: real, bySum: bool)
    ensures WithKey([e] + rest, v, bySum) == (if Key(e, bySum) == v then [e] else []) + WithKey(rest, v, bySum)
  {
    assert ([e] + rest)[0] == e && ([e] + rest)[1..] == rest;
  }

  /**
   * Among the entries of one key, the inserted element comes first; the
   * others keep their order. This holds for any `s`: `x` only passes
   * elements with a strictly larger key.
   */
  lemma {:induction false} InsertDescWithKey(x: Entry, s: seq<Entry>, v: real, bySum: bool)
    ensures WithKey(InsertDesc(x, s, bySum), v, bySum)
      == (if Key(x, bySum) == v then [x] else []) + WithKey(s, v, bySum)
  {
    var r := InsertDesc(x, s, bySum);
    if s == [] || Key(s[0], bySum) <= Key(x, bySum) {
      assert r == [x] + s;
      WithKeyCons(x, s, v, bySum);
    } else {
      var t := InsertDesc(x, s[1..], bySum);
      assert r == [s[0]] + t;
      assert s == [s[0]] + s[1..];
      InsertDescWithKey(x, s[1..], v, bySum);
      WithKeyCons(s[0], t, v, bySum);
      WithKeyCons(s[0], s[1..], v, bySum);
      var rest := WithKey(s[1..], v, bySum);
      if Key(x, bySum) == v {
        assert WithKey(t, v, bySum) == [x] + rest;
        assert WithKey(r, v, bySum) == [x] + rest;
        assert WithKey(s, v, bySum) == rest;
      } else if Key(s[0], bySum) == v {
        assert WithKey(r, v, bySum) == [s[0]] + rest;
        assert WithKey(s, v, bySum) == [s[0]] + rest;
      } else {
        assert WithKey(r, v, bySum) == rest;
      }
    }
  }

  /**
   * The sort is a stable descending sort: the result is ordered by
   * decreasing key, and lists the entries of each key value in their
   * original order (its contract adds that it is a permutation).
   */
  lemma {:induction false} SortDescIsStable(s: seq<Entry>, bySum: bool)
    ensures SortedDesc(SortDesc(s, bySum), bySum)
    ensures forall v :: WithKey(SortDesc(s, bySum), v, bySum) == WithKey(s, v, bySum)
  {
    if s != [] {
      var t := SortDesc(s[1..], bySum);
      SortDescIsStable(s[1..], bySum);
      InsertDescSorted(s[0], t, bySum);
      forall v ensures WithKey(SortDesc(s, bySum), v, bySum) == WithKey(s, v, bySum) {
        InsertDescWithKey(s[0], t, v, bySum);
      }
    }
  }

  /** The entries with a given key in a prefix are a prefix of those in the whole. */
  lemma {:induction false} WithKeyOfPrefix(s: seq<Entry>, n: nat, v: real, bySum: bool)
    requires n <= |s|
    ensures WithKey(s[..n], v, bySum) <= WithKey(s, v, bySum)
  {
    if n > 0 {
      WithKeyOfPrefix(s[1..], n - 1, v, bySum);
      assert s[..n][1..] == s[1..][..n - 1];
    }
  }

  /** `int(limit) if limit and int(limit) > 0 else 0` */
  function LimitN(limit: int): nat {
    if limit > 0 then limit else 0
  }

  /**
   * `get_chart_data`: when a positive limit is exceeded, keep the first
   * `limit` entries of the stable descending sort; otherwise keep the
   * entries as they are.
   */
  function TopN(entries: seq<Entry>, limit: int, bySum: bool): (r: seq<Entry>)
    ensures |r| == (if limit > 0 && |entries| > limit then limit else |entries|)
    ensures multiset(r) <= multiset(entries)
  {
    var n := LimitN(limit);
    if n > 0 && |entries| > n then
      var sorted := SortDesc(entries, bySum);
      assert sorted == sorted[..n] + sorted[n..];
      sorted[..n]
    else entries
  }

  /** In a descending sequence, nothing after the first `n` entries outranks any of them. */
  lemma SuffixBelowPrefix(s: seq<Entry>, n: nat, bySum: bool)
    requires SortedDesc(s, bySum) && n <= |s|
    ensures multiset(s[..n]) <= multiset(s)
    ensures forall d, k :: d in multiset(s) - multiset(s[..n]) && 0 <= k < n ==> Key(d, bySum) <= Key(s[k], bySum)
  {
    assert s == s[..n] + s[n..];
    assert multiset(s) == multiset(s[..n]) + multiset(s[n..]);
    forall d, k | d in multiset(s) - multiset(s[..n]) && 0 <= k < n
      ensures Key(d, bySum) <= Key(s[k], bySum)
    {
      assert d in multiset(s[n..]);
      var j :| 0 <= j < |s[n..]| && s[n..][j] == d;
      assert s[n + j] == d;
    }
  }

  /**
   * The truncating case: exactly `limit` entries, in decreasing key order,
   * all taken from the input, and no dropped entry with a larger key than
   * a kept one.
   */
  lemma TopNTruncates(entries: seq<Entry>, limit: int, bySum: bool)
    requires limit > 0 && |entries| > limit
    ensures |TopN(entries, limit, bySum)| == limit
    ensures SortedDesc(TopN(entries, limit, bySum), bySum)
    ensures multiset(TopN(entries, limit, bySum)) <= multiset(entries)
    ensures forall d, k :: d in multiset(entries) - multiset(TopN(entries, limit, bySum)) && 0 <= k < limit
                          ==> Key(d, bySum) <= Key(TopN(entries, limit, bySum)[k], bySum)
  {
    var sorted := SortDesc(entries, bySum);
    SortDescIsStable(entries, bySum);
    SuffixBelowPrefix(sorted, limit, bySum);
    var r := sorted[..limit];
    assert TopN(entries, limit, bySum) == r;
    assert forall i :: 0 <= i < limit ==> r[i] == sorted[i];
  }

  /**
   * Ties keep query order under truncation: for each key value, the kept
   * entries with that key are the first entries with that key in the input.
   */
  lemma TopNIsStable(entries: seq<Entry>, limit: int, bySum: bool, v: real)
    ensures WithKey(TopN(entries, limit, bySum), v, bySum) <= WithKey(entries, v, bySum)
  {
    if limit > 0 && |entries| > limit {
      SortDescIsStable(entries, bySum);
      WithKeyOfPrefix(SortDesc(entries, bySum), limit, v, bySum);
    }
  }

  /** The pass-through case: no positive limit, or no more groups than it. */
  lemma TopNKeepsOrder(entries: seq<Entry>, limit: int, bySum: bool)
    requires limit <= 0 || |entries| <= limit
    ensures TopN(entries, limit, bySum) == entries
  {
  }

  /** `get_chart_data`: split the entries into the three parallel chart columns. */
  method Columns(entries: seq<Entry>) returns (labels: seq<string>, counts: seq<nat>, sums: seq<real>)
    ensures |labels| == |counts| == |sums| == |entries|
    ensures forall i :: 0 <= i < |entries| ==>
      labels[i] == entries[i].caption && counts[i] == entries[i].count && sums[i] == entries[i].sum
  {
    labels, counts, sums := [], [], [];
    for i := 0 to |entries|
      invariant |labels| == |counts| == |sums| == i
      invariant forall k :: 0 <= k < i ==>
        labels[k] == entries[k].caption && counts[k] == entries[k].count && sums[k] == entries[k].sum
    {
      labels := labels + [entries[i].caption];
      counts := counts + [entries[i].count];
      sums := sums + [entries[i].sum];
    }
  }
}
