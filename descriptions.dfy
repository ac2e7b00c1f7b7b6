/**
 * Human-readable text of a lead report: field labels from the field
 * metadata, the auto-generated chart descriptions, and the lists of fields
 * offered for grouping and for summing.
 */
module Descriptions {
  import opened Wrappers
  import opened Domains

  datatype ChartType = Bar | Line | Pie | NoChart

  /** `part` occurs in `s` at position `k`. */
  predicate MentionsAt(s: string, part: string, k: int) {
    0 <= k <= |s| - |part| && s[k..k + |part|] == part
  }

  /** `part` occurs somewhere in `s`. */
  ghost predicate Mentions(s: string, part: string) {
    exists k :: MentionsAt(s, part, k)
  }

  predicate StartsWith(s: string, prefix: string) {
    |prefix| <= |s| && s[..|prefix|] == prefix
  }

  predicate EndsWith(s: string, suffix: string) {
    |suffix| <= |s| && s[|s| - |suffix|..] == suffix
  }

  /** A concatenation starts with its left part and ends with its right part. */
  lemma Affixes(p: string, q: string)
    ensures StartsWith(p + q, p) && EndsWith(p + q, q)
  {
    assert (p + q)[..|p|] == p;
    assert (p + q)[|p + q| - |q|..] == q;
  }

  /** The two slots and the trailing note of a sentence template `a x mid y . note`. */
  lemma TemplateSlots(a: string, x: string, mid: string, y: string, note: string)
    ensures Mentions(a + x + mid + y + "." + note, x)
    ensures Mentions(a + x + mid + y + "." + note, y)
    ensures EndsWith(a + x + mid + y + "." + note, note)
  {
    var r := a + x + mid + y + "." + note;
    assert r[|a|..|a| + |x|] == x;
    assert MentionsAt(r, x, |a|);
    assert r[|a| + |x| + |mid|..|a| + |x| + |mid| + |y|] == y;
    assert MentionsAt(r, y, |a| + |x| + |mid|);
  }

  /**
   * `_crm_field_label`: the field's description from the field metadata
   * `labels`, falling back to the technical name when there is none, and
   * the empty text for no field.
   */
  function FieldLabel(field: string, labels: map<string, string>): (r: string)
    ensures r == "" <==> field == ""
    ensures field != "" && field in labels && labels[field] != "" ==> r == labels[field]
    ensures field != "" && (field !in labels || labels[field] == "") ==> r == field
  {
    if field == "" then ""
    else if field in labels && labels[field] != "" then labels[field]
    else field
  }

  /** The display text of the time-filter selection, or `'thời gian'` when unset. */
  function TimeFilterLabel(filter: TimeFilter): (r: string)
    ensures r != ""
  {
    match filter
    case Last3Months => "3 tháng gần nhất"
    case Last6Months => "6 tháng gần nhất"
    case ThisYear => "Năm nay"
    case Custom => "Tùy chọn"
    case Unset => "thời gian"
  }

  /** `_build_pie_description`: names the group field's label when one is set. */
  function PieDescription(groupField: string, labels: map<string, string>): (r: string)
    ensures groupField != "" ==> Mentions(r, FieldLabel(groupField, labels))
    ensures groupField != "" ==>
      StartsWith(r, "Phân bố khách hàng tiềm năng theo ") && EndsWith(r, FieldLabel(groupField, labels) + ".")
    ensures groupField == "" ==> r == "Phân bố khách hàng tiềm năng."
  {
    var g := FieldLabel(groupField, labels);
    if groupField != "" then
      TemplateSlots("Phân bố khách hàng tiềm năng theo ", g, "", "", "");
      Affixes("Phân bố khách hàng tiềm năng theo ", g + ".");
      assert "Phân bố khách hàng tiềm năng theo " + g + "" + "" + "." + ""
        == "Phân bố khách hàng tiềm năng theo " + g + ".";
      "Phân bố khách hàng tiềm năng theo " + g + "."
    else "Phân bố khách hàng tiềm năng."
  }

  /**
   * `_build_bar_description`: a total of the value field by the group field,
   * a count by the group field, or a generic sentence without a group field.
   */
  function BarDescription(groupField: string, valueField: string, labels: map<string, string>): (r: string)
    ensures groupField != "" ==> Mentions(r, FieldLabel(groupField, labels))
    ensures groupField != "" && valueField != "" ==> Mentions(r, FieldLabel(valueField, labels))
    ensures groupField != "" && valueField != "" ==>
      StartsWith(r, "Tổng " + FieldLabel(valueField, labels) + " theo ") && EndsWith(r, FieldLabel(groupField, labels) + ".")
    ensures groupField != "" && valueField == "" ==>
      StartsWith(r, "Số lượng khách hàng tiềm năng theo ") && EndsWith(r, FieldLabel(groupField, labels) + ".")
    ensures groupField == "" ==> r == "Giá trị theo danh mục."
  {
    var g := FieldLabel(groupField, labels);
    var v := FieldLabel(valueField, labels);
    if groupField != "" && valueField != "" then
      TemplateSlots("Tổng ", v, " theo ", g, "");
      assert "Tổng " + v + " theo " + g + "." == ("Tổng " + v + " theo ") + (g + ".");
      Affixes("Tổng " + v + " theo ", g + ".");
      assert "Tổng " + v + " theo " + g + "." + "" == "Tổng " + v + " theo " + g + ".";
      "Tổng " + v + " theo " + g + "."
    else if groupField != "" then
      TemplateSlots("Số lượng khách hàng tiềm năng theo ", g, "", "", "");
      Affixes("Số lượng khách hàng tiềm năng theo ", g + ".");
      assert "Số lượng khách hàng tiềm năng theo " + g + "" + "" + "." + ""
        == "Số lượng khách hàng tiềm năng theo " + g + ".";
      "Số lượng khách hàng tiềm năng theo " + g + "."
    else "Giá trị theo danh mục."
  }

  const FilterApplied := " (có áp dụng bộ lọc)"

  /**
   * `_build_line_description`: a success-percentage trend when a success
   * domain is set, else a trend of the value field or of the count, by the
   * time filter, noting an applied filter.
   */
  function LineDescription(domain: string, filter: TimeFilter, successDomain: string, valueField: string,
                           labels: map<string, string>): (r: string)
    ensures Mentions(r, TimeFilterLabel(filter))
    ensures domain != "" <==> EndsWith(r, FilterApplied + ".")
    ensures successDomain == "" && valueField != "" ==> Mentions(r, FieldLabel(valueField, labels))
    ensures successDomain != "" ==> StartsWith(r, "Xu hướng tỷ lệ phần trăm khách hàng tiềm năng theo ")
    ensures successDomain == "" && valueField != "" ==> StartsWith(r, "Xu hướng tổng " + FieldLabel(valueField, labels) + " theo ")
    ensures successDomain == "" && valueField == "" ==> StartsWith(r, "Xu hướng số lượng khách hàng tiềm năng theo ")
    ensures EndsWith(r, TimeFilterLabel(filter) + (if domain != "" then FilterApplied else "") + ".")
  {
    var part := if domain != "" then FilterApplied else "";
    var t := TimeFilterLabel(filter);
    var v := FieldLabel(valueField, labels);
    TimeFilterLabelEnd(filter);
    if successDomain != "" then
      LineShape("Xu hướng tỷ lệ phần trăm khách hàng tiềm năng theo ", t, part);
      "Xu hướng tỷ lệ phần trăm khách hàng tiềm năng theo " + t + part + "."
    else if valueField != "" then
      LineShape("Xu hướng tổng " + v + " theo ", t, part);
      MentionsHead("Xu hướng tổng ", v, " theo ", t, part);
      "Xu hướng tổng " + v + " theo " + t + part + "."
    else
      LineShape("Xu hướng số lượng khách hàng tiềm năng theo ", t, part);
      "Xu hướng số lượng khách hàng tiềm năng theo " + t + part + "."
  }

  lemma MentionsHead(a: string, x: string, mid: string, t: string, part: string)
    ensures Mentions(a + x + mid + t + part + ".", x)
  {
    var r := a + x + mid + t + part + ".";
    assert r[|a|..|a| + |x|] == x;
    assert MentionsAt(r, x, |a|);
  }

  /** The time label and the filter note sit at the end of a line description. */
  lemma LineShape(head: string, t: string, part: string)
    requires t != "" && t[|t| - 1] != ')'
    requires part == "" || part == FilterApplied
    ensures Mentions(head + t + part + ".", t)
    ensures part != "" <==> EndsWith(head + t + part + ".", FilterApplied + ".")
    ensures StartsWith(head + t + part + ".", head) && EndsWith(head + t + part + ".", t + part + ".")
  {
    var r := head + t + part + ".";
    assert r == head + (t + part + ".");
    Affixes(head, t + part + ".");
    assert r[|head|..|head| + |t|] == t;
    assert MentionsAt(r, t, |head|);
    if part == "" {
      assert r[|r| - 2] == t[|t| - 1];
    } else {
      assert r[|r| - |FilterApplied + "."|..] == FilterApplied + ".";
    }
  }

  /** Each time filter has its own selection text, and only the unset filter reads `'thời gian'`. */
  lemma TimeFilterLabelsDistinct(f: TimeFilter, g: TimeFilter)
    ensures TimeFilterLabel(f) == TimeFilterLabel(g) <==> f == g
    ensures TimeFilterLabel(f) == "thời gian" <==> f == Unset
  {
  }

  lemma TimeFilterLabelEnd(filter: TimeFilter)
    ensures TimeFilterLabel(filter)[|TimeFilterLabel(filter)| - 1] != ')'
  {
  }

  const FilteredNote := " (Dữ liệu đã được lọc)."

  /**
   * The description text `_compute_description` stores: a sentence chosen
   * by chart type (none for an unset type) naming the value label
   * (`'Số lượng'`, a count, without a value field) and the group label or
   * the time label, followed by a note when a filter text is set.
   */
  function DescriptionText(chart: ChartType, groupField: string, valueField: string, domain: string,
                           filter: TimeFilter, labels: map<string, string>): (r: string)
    ensures domain != "" ==> EndsWith(r, FilteredNote)
    ensures chart == NoChart ==> r == (if domain != "" then FilteredNote else "")
    ensures chart != NoChart ==> Mentions(r, if valueField != "" then FieldLabel(valueField, labels) else "Số lượng")
    ensures chart in {Bar, Pie} ==> Mentions(r, FieldLabel(groupField, labels))
    ensures chart == Line ==> Mentions(r, TimeFilterLabel(filter))
  {
    var timeLabel := TimeFilterLabel(filter);
    var groupLabel := FieldLabel(groupField, labels);
    var valueLabel := if valueField != "" then FieldLabel(valueField, labels) else "Số lượng";
    var note := if domain != "" then FilteredNote else "";
    var head := match chart
      case Pie => "Biểu đồ tròn thể hiện tỷ lệ phân bố "
      case Bar => "Biểu đồ cột so sánh "
      case Line => "Biểu đồ đường thể hiện xu hướng biến động của "
      case NoChart => "";
    var mid := if chart == Bar then " giữa các " else " theo ";
    var second := if chart == Line then timeLabel else groupLabel;
    if chart == NoChart then
      assert note[|note| - |note|..] == note;
      note
    else
      TemplateSlots(head, valueLabel, mid, second, note);
      head + valueLabel + mid + second + "." + note
  }

  /**
   * The sentence `DescriptionText` gives for each chart type: it opens with
   * the type's own wording and the value label (`'Số lượng'` without a
   * value field), and closes with the group label (bar, pie) or the time
   * label (line), a full stop, and the note exactly when a filter text is
   * set.
   */
  lemma DescriptionTextShape(chart: ChartType, groupField: string, valueField: string, domain: string,
                             filter: TimeFilter, labels: map<string, string>)
    ensures var r := DescriptionText(chart, groupField, valueField, domain, filter, labels);
      var valueLabel := if valueField != "" then FieldLabel(valueField, labels) else "Số lượng";
      var note := if domain != "" then FilteredNote else "";
      && (chart == Pie ==> StartsWith(r, "Biểu đồ tròn thể hiện tỷ lệ phân bố " + valueLabel + " theo "))
      && (chart == Bar ==> StartsWith(r, "Biểu đồ cột so sánh " + valueLabel + " giữa các "))
      && (chart == Line ==> StartsWith(r, "Biểu đồ đường thể hiện xu hướng biến động của " + valueLabel + " theo "))
      && (chart in {Bar, Pie} ==> EndsWith(r, FieldLabel(groupField, labels) + "." + note))
      && (chart == Line ==> EndsWith(r, TimeFilterLabel(filter) + "." + note))
  {
    var valueLabel := if valueField != "" then FieldLabel(valueField, labels) else "Số lượng";
    var note := if domain != "" then FilteredNote else "";
    var groupLabel := FieldLabel(groupField, labels);
    match chart
    case Pie => SentenceAffixes("Biểu đồ tròn thể hiện tỷ lệ phân bố ", valueLabel, " theo ", groupLabel, note);
    case Bar => SentenceAffixes("Biểu đồ cột so sánh ", valueLabel, " giữa các ", groupLabel, note);
    case Line =>
      SentenceAffixes("Biểu đồ đường thể hiện xu hướng biến động của ", valueLabel, " theo ", TimeFilterLabel(filter), note);
    case NoChart =>
  }

  /** A template sentence starts with its head, first slot and middle, and ends with its second slot and note. */
  lemma SentenceAffixes(head: string, x: string, mid: string, y: string, note: string)
    ensures StartsWith(head + x + mid + y + "." + note, head + x + mid)
    ensures EndsWith(head + x + mid + y + "." + note, y + "." + note)
  {
    assert head + x + mid + y + "." + note == (head + x + mid) + (y + "." + note);
    Affixes(head + x + mid, y + "." + note);
  }

  // ---------------------------------------------------------------------
  // Field choices offered by the report form
  // ---------------------------------------------------------------------

  /** A field of the lead model as the field metadata lists it. */
  datatype FieldMeta = FieldMeta(name: string, ttype: string, description: string)

  /** A selection option: technical name and shown text. */
  type Choice = (string, string)

  const GroupCandidates: seq<string> := ["stage_id", "user_id", "team_id", "partner_id", "company_id", "country_id"]
  const ValueCandidates: seq<string> := ["expected_revenue", "planned_revenue", "probability"]
  const GroupTypes: set<string> := {"char", "selection", "many2one"}
  const NumericTypes: set<string> := {"integer", "float", "monetary"}

  /** The first metadata entry with the given name (a search with `limit=1`). */
  function Find(fields: seq<FieldMeta>, name: string): (r: Option<FieldMeta>)
    ensures r.Some? ==> r.value in fields && r.value.name == name
    ensures r.None? ==> forall f :: f in fields ==> f.name != name
  {
    if fields == [] then None
    else if fields[0].name == name then Some(fields[0])
    else Find(fields[1..], name)
  }

  /** `(f.name, f.field_description or f.name)` */
  function ChoiceOf(f: FieldMeta): Choice {
    (f.name, if f.description != "" then f.description else f.name)
  }

  /** Is the candidate field found and, when `checkType` holds, of an accepted type? */
  predicate Accepts(f: Option<FieldMeta>, types: set<string>, checkType: bool) {
    f.Some? && (!checkType || f.value.ttype in types)
  }

  /** The choices for the preferred candidate names, in candidate order. */
  function Preferred(names: seq<string>, fields: seq<FieldMeta>, types: set<string>, checkType: bool): seq<Choice> {
    if names == [] then []
    else
      var f := Find(fields, names[|names| - 1]);
      Preferred(names[..|names| - 1], fields, types, checkType)
        + (if Accepts(f, types, checkType) then [ChoiceOf(f.value)] else [])
  }

  /** The choices for every field of an accepted type, in metadata order. */
  function Fallback(fields: seq<FieldMeta>, types: set<string>): seq<Choice> {
    if fields == [] then []
    else
      var f := fields[|fields| - 1];
      Fallback(fields[..|fields| - 1], types) + (if f.ttype in types then [ChoiceOf(f)] else [])
  }

  function ChoicesOf(names: seq<string>, fields: seq<FieldMeta>, types: set<string>, checkType: bool): seq<Choice> {
    var preferred := Preferred(names, fields, types, checkType);
    if preferred != [] then preferred else Fallback(fields, types)
  }

  /**
   * `_get_crm_group_fields` and `_get_crm_value_fields`: offer the preferred candidates that exist (and, for
   * value fields, are numeric); when none does, offer every field of an
   * accepted type.
   */
  method FieldChoices(names: seq<string>, fields: seq<FieldMeta>, types: set<string>, checkType: bool)
    returns (res: seq<Choice>)
    ensures res == ChoicesOf(names, fields, types, checkType)
  {
    res := [];
    for i := 0 to |names|
      invariant res == Preferred(names[..i], fields, types, checkType)
    {
      assert names[..i + 1][..i] == names[..i];
      var f := Find(fields, names[i]);
      if Accepts(f, types, checkType) {
        res := res + [ChoiceOf(f.value)];
      }
    }
    assert names[..|names|] == names;
    if res == [] {
      for i := 0 to |fields|
        invariant res == Fallback(fields[..i], types)
      {
        assert fields[..i + 1][..i] == fields[..i];
        if fields[i].ttype in types {
          res := res + [ChoiceOf(fields[i])];
        }
      }
      assert fields[..|fields|] == fields;
    }
  }

  /**
   * Every preferred choice is a candidate name that exists, of an accepted
   * type when checked; and every accepted candidate is offered.
   */
  lemma {:induction false} PreferredAreCandidates(names: seq<string>, fields: seq<FieldMeta>, types: set<string>, checkType: bool)
    ensures forall c :: c in Preferred(names, fields, types, checkType) ==>
      c.0 in names && exists f :: f in fields && ChoiceOf(f) == c && (checkType ==> f.ttype in types)
    ensures forall n :: n in names && Accepts(Find(fields, n), types, checkType) ==>
      ChoiceOf(Find(fields, n).value) in Preferred(names, fields, types, checkType)
    ensures Preferred(names, fields, types, checkType) == [] <==>
      forall n :: n in names ==> !Accepts(Find(fields, n), types, checkType)
  {
    if names != [] {
      var init := names[..|names| - 1];
      PreferredAreCandidates(init, fields, types, checkType);
      assert names == init + [names[|names| - 1]];
    }
  }

  /** Every fallback choice is a field of an accepted type, and every such field is offered. */
  lemma {:induction false} FallbackAreTyped(fields: seq<FieldMeta>, types: set<string>)
    ensures forall c :: c in Fallback(fields, types) ==> exists f :: f in fields && ChoiceOf(f) == c && f.ttype in types
    ensures forall f :: f in fields && f.ttype in types ==> ChoiceOf(f) in Fallback(fields, types)
    ensures Fallback(fields, types) == [] <==> forall f :: f in fields ==> f.ttype !in types
  {
    if fields != [] {
      var init := fields[..|fields| - 1];
      FallbackAreTyped(init, types);
      assert fields == init + [fields[|fields| - 1]];
    }
  }

  /**
   * The value-field choices are numeric fields of the lead model; the
   * preferred revenue and probability fields are offered whenever one of
   * them exists and is numeric, and the list is empty only when the model
   * has no numeric field at all.
   */
  lemma ValueChoicesAreNumeric(fields: seq<FieldMeta>)
    ensures forall c :: c in ChoicesOf(ValueCandidates, fields, NumericTypes, true) ==>
      exists f :: f in fields && ChoiceOf(f) == c && f.ttype in NumericTypes
    ensures forall n :: n in ValueCandidates && Accepts(Find(fields, n), NumericTypes, true) ==>
      ChoiceOf(Find(fields, n).value) in ChoicesOf(ValueCandidates, fields, NumericTypes, true)
    ensures ChoicesOf(ValueCandidates, fields, NumericTypes, true) == [] <==>
      forall f :: f in fields ==> f.ttype !in NumericTypes
  {
    PreferredAreCandidates(ValueCandidates, fields, NumericTypes, true);
    FallbackAreTyped(fields, NumericTypes);
    if Preferred(ValueCandidates, fields, NumericTypes, true) != [] {
      var c := Preferred(ValueCandidates, fields, NumericTypes, true)[0];
      assert c in Preferred(ValueCandidates, fields, NumericTypes, true);
    }
  }

  /**
   * The group-by choices are the existing preferred reference fields
   * (whatever their type), else every char, selection or reference field;
   * the fallback is used exactly when no preferred field exists.
   */
  lemma GroupChoicesFallBack(fields: seq<FieldMeta>)
    ensures var r := ChoicesOf(GroupCandidates, fields, GroupTypes, false);
      && (r == Fallback(fields, GroupTypes) <== forall n :: n in GroupCandidates ==> Find(fields, n).None?)
      && ((exists n :: n in GroupCandidates && Find(fields, n).Some?) ==>
            forall c :: c in r ==> c.0 in GroupCandidates)
  {
    PreferredAreCandidates(GroupCandidates, fields, GroupTypes, false);
  }
}
