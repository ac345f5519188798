/**
 * The chart-configuration validator shared by both drafts of the upload form.
 *
 * Each draft declares its rules as a zod object schema: one array rule for the
 * selected `columns` (and, in the later draft, for `xAxes` and `yAxes`) and a
 * presence rule for `chartType`. This module evaluates such a schema the way
 * zod's object, array and string parsers do: the fields in declaration order,
 * for an array first its length bounds and then each element, and for a string
 * first its minimum and then its maximum length. Every failed check becomes one
 * issue, and issues are grouped per field in the order they were raised.
 */
module Schema {

  datatype Option<T> = None | Some(value: T)

  /** Length bounds on each string inside an array: `z.string().min(n).max(m)`. */
  datatype StringRule = StringRule(least: nat, most: Option<nat>)

  /** A cardinality bound on an array together with its fixed error message. */
  datatype Limit = Limit(bound: nat, message: string)

  /** `z.array(element).min(least.bound, least.message).max(...)`. */
  datatype ArrayRule = ArrayRule(element: StringRule, least: Limit, most: Option<Limit>)

  /**
   * A whole form schema: the `columns` array rule, the message raised when
   * `chartType` is absent, and the rule shared by `xAxes` and `yAxes` when the
   * schema declares those fields at all.
   */
  datatype FormSchema = FormSchema(columns: ArrayRule, chartTypeRequired: string, axes: Option<ArrayRule>)

  /**
   * The values the form submits. `chartType` is `None` when the field was never
   * given a value (undefined), which is different from the empty string.
   */
  datatype FormValues = FormValues(columns: seq<string>, chartType: Option<string>, xAxes: seq<string>, yAxes: seq<string>)

  /** One failed check: `index` is the element position for a per-element failure. */
  datatype Issue = Issue(index: Option<nat>, message: string)

  datatype Verdict = Valid | Invalid(errors: map<string, seq<Issue>>)

  // Field names, as the schemas spell them.
  const ColumnsField := "columns"
  const ChartTypeField := "chartType"
  const XAxesField := "xAxes"
  const YAxesField := "yAxes"

  /** Decimal rendering of a natural number, as it appears in zod's default messages. */
  function Decimal(n: nat): (r: string)
    ensures |r| > 0
    ensures forall k :: 0 <= k < |r| ==> '0' <= r[k] <= '9'
  {
    var digit := ['0' + (n % 10) as char];
    if n < 10 then digit else Decimal(n / 10) + digit
  }

  function TooShortMessage(n: nat): (r: string) {
    "String must contain at least " + Decimal(n) + " character(s)"
  }

  function TooLongMessage(n: nat): (r: string) {
    "String must contain at most " + Decimal(n) + " character(s)"
  }

  /** The element messages the two drafts' string rules can raise, spelled out. */
  lemma LengthMessages()
    ensures TooShortMessage(1) == "String must contain at least 1 character(s)"
    ensures TooShortMessage(2) == "String must contain at least 2 character(s)"
    ensures TooLongMessage(10) == "String must contain at most 10 character(s)"
  {
    assert Decimal(10) == Decimal(1) + ['0'];
  }

  /** Reference meaning of a string rule: the length lies within the bounds. */
  predicate StringOk(rule: StringRule, s: string) {
    rule.least <= |s| && (rule.most.Some? ==> |s| <= rule.most.value)
  }

  /** Reference meaning of an array's cardinality bounds. */
  predicate CountOk(rule: ArrayRule, n: nat) {
    rule.least.bound <= n && (rule.most.Some? ==> n <= rule.most.value.bound)
  }

  /** Reference meaning of an array rule: bounds hold and every element passes. */
  predicate ArrayOk(rule: ArrayRule, items: seq<string>) {
    CountOk(rule, |items|) && forall i :: 0 <= i < |items| ==> StringOk(rule.element, items[i])
  }

  /** The issues a string element at position `i` raises. */
  function StringIssues(rule: StringRule, s: string, i: nat): (r: seq<Issue>)
    ensures r == [] <==> StringOk(rule, s)
    ensures forall k :: 0 <= k < |r| ==> r[k].index == Some(i)
    ensures |s| < rule.least ==> |r| > 0 && r[0] == Issue(Some(i), TooShortMessage(rule.least))
    ensures rule.least <= |s| && rule.most.Some? && |s| > rule.most.value ==> r == [Issue(Some(i), TooLongMessage(rule.most.value))]
  {
    (if |s| < rule.least then [Issue(Some(i), TooShortMessage(rule.least))] else [])
    + (if rule.most.Some? && |s| > rule.most.value then [Issue(Some(i), TooLongMessage(rule.most.value))] else [])
  }

  /** The issues raised by the elements of `items`, element by element. */
  function ElementIssues(rule: StringRule, items: seq<string>): (r: seq<Issue>)
  {
    if items == [] then []
    else ElementIssues(rule, items[..|items| - 1]) + StringIssues(rule, items[|items| - 1], |items| - 1)
  }

  /** The issues the length bounds of an array raise, lower bound first. */
  function CountIssues(rule: ArrayRule, n: nat): (r: seq<Issue>)
    ensures r == [] <==> CountOk(rule, n)
    ensures forall k :: 0 <= k < |r| ==> r[k].index == None
  {
    (if n < rule.least.bound then [Issue(None, rule.least.message)] else [])
    + (if rule.most.Some? && n > rule.most.value.bound then [Issue(None, rule.most.value.message)] else [])
  }

  function ArrayIssues(rule: ArrayRule, items: seq<string>): (r: seq<Issue>) {
    CountIssues(rule, |items|) + ElementIssues(rule.element, items)
  }

  function ChartTypeIssues(schema: FormSchema, chartType: Option<string>): (r: seq<Issue>) {
    if chartType.None? then [Issue(None, schema.chartTypeRequired)] else []
  }

  /** The issues of the `xAxes` or `yAxes` field; none when the schema has no such field. */
  function AxisIssues(schema: FormSchema, items: seq<string>): (r: seq<Issue>) {
    if schema.axes.Some? then ArrayIssues(schema.axes.value, items) else []
  }

  /** Adds a field's issues to the error map when there are any. */
  function Record(errors: map<string, seq<Issue>>, field: string, issues: seq<Issue>): (r: map<string, seq<Issue>>)
    ensures field in r <==> field in errors || issues != []
    ensures issues != [] ==> r[field] == issues
    ensures forall f :: f != field ==> (f in r <==> f in errors) && (f in r ==> r[f] == errors[f])
    ensures issues == [] && field in errors ==> r[field] == errors[field]
  {
    if issues == [] then errors else errors[field := issues]
  }

  /** The issues a verdict reports for one field (none for a valid verdict). */
  function ErrorsOf(r: Verdict, field: string): (issues: seq<Issue>) {
    if r.Invalid? && field in r.errors then r.errors[field] else []
  }

  /**
   * Validates the whole form at once. The verdict is `Valid` exactly when no
   * field raises an issue; otherwise it maps each failing field, and only those,
   * to its issues in the order they were raised.
   */
  function Validate(schema: FormSchema, v: FormValues): (r: Verdict)
    ensures ErrorsOf(r, ColumnsField) == ArrayIssues(schema.columns, v.columns)
    ensures ErrorsOf(r, ChartTypeField) == ChartTypeIssues(schema, v.chartType)
    ensures ErrorsOf(r, XAxesField) == AxisIssues(schema, v.xAxes)
    ensures ErrorsOf(r, YAxesField) == AxisIssues(schema, v.yAxes)
    ensures r.Valid? <==>
      ArrayIssues(schema.columns, v.columns) == [] && ChartTypeIssues(schema, v.chartType) == []
      && AxisIssues(schema, v.xAxes) == [] && AxisIssues(schema, v.yAxes) == []
    ensures r.Invalid? ==> forall f :: f in r.errors ==> f in {ColumnsField, ChartTypeField, XAxesField, YAxesField} && r.errors[f] != []
  {
    var errors :=
      Record(Record(Record(Record(map[],
        ColumnsField, ArrayIssues(schema.columns, v.columns)),
        ChartTypeField, ChartTypeIssues(schema, v.chartType)),
        XAxesField, AxisIssues(schema, v.xAxes)),
        YAxesField, AxisIssues(schema, v.yAxes));
    if errors == map[] then Valid else Invalid(errors)
  }

  /**
   * The element checks raise exactly the issues of the individual elements:
   * every issue comes from the element at the position it names, and every
   * issue of every element is raised.
   */
  lemma {:induction false} ElementIssuesExact(rule: StringRule, items: seq<string>)
    ensures forall k :: 0 <= k < |ElementIssues(rule, items)| ==>
      var issue := ElementIssues(rule, items)[k];
      issue.index.Some? && issue.index.value < |items|
      && issue in StringIssues(rule, items[issue.index.value], issue.index.value)
    ensures forall i, issue :: 0 <= i < |items| && issue in StringIssues(rule, items[i], i) ==>
      issue in ElementIssues(rule, items)
  {
    if items != [] {
      var n := |items| - 1;
      var front := items[..n];
      ElementIssuesExact(rule, front);
      var prev := ElementIssues(rule, front);
      var last := StringIssues(rule, items[n], n);
      assert ElementIssues(rule, items) == prev + last;
      forall i | 0 <= i < n
        ensures StringIssues(rule, items[i], i) == StringIssues(rule, front[i], i)
      {
        assert items[i] == front[i];
      }
    }
  }

  /** The element checks raise nothing exactly when every element passes. */
  lemma ElementIssuesEmpty(rule: StringRule, items: seq<string>)
    ensures ElementIssues(rule, items) == [] <==> forall i :: 0 <= i < |items| ==> StringOk(rule, items[i])
  {
    ElementIssuesExact(rule, items);
    if ElementIssues(rule, items) != [] {
      var issue := ElementIssues(rule, items)[0];
      assert !StringOk(rule, items[issue.index.value]);
    }
    forall i | 0 <= i < |items| && !StringOk(rule, items[i])
      ensures ElementIssues(rule, items) != []
    {
      assert StringIssues(rule, items[i], i)[0] in ElementIssues(rule, items);
    }
  }

  /** An array field raises nothing exactly when its bounds hold and every element passes. */
  lemma ArrayIssuesEmpty(rule: ArrayRule, items: seq<string>)
    ensures ArrayIssues(rule, items) == [] <==> ArrayOk(rule, items)
  {
    ElementIssuesEmpty(rule.element, items);
  }

  /**
   * When an array is too short, the first issue of its field is the rule's
   * lower-bound message; when it is too long, the upper-bound message.
   */
  lemma ArrayFirstIssue(rule: ArrayRule, items: seq<string>)
    ensures |items| < rule.least.bound ==> ArrayIssues(rule, items)[0] == Issue(None, rule.least.message)
    ensures rule.most.Some? && |items| > rule.most.value.bound && rule.least.bound <= |items| ==>
      ArrayIssues(rule, items)[0] == Issue(None, rule.most.value.message)
  {
  }

  /** The verdict of a schema in terms of the reference predicates alone. */
  lemma ValidateMeaning(schema: FormSchema, v: FormValues)
    ensures Validate(schema, v).Valid? <==>
      ArrayOk(schema.columns, v.columns) && v.chartType.Some?
      && (schema.axes.Some? ==> ArrayOk(schema.axes.value, v.xAxes) && ArrayOk(schema.axes.value, v.yAxes))
  {
    ArrayIssuesEmpty(schema.columns, v.columns);
    if schema.axes.Some? {
      ArrayIssuesEmpty(schema.axes.value, v.xAxes);
      ArrayIssuesEmpty(schema.axes.value, v.yAxes);
    }
  }

  /** A schema without axis fields ignores whatever the axis values hold. */
  lemma AxesIgnoredWithoutRule(schema: FormSchema, v: FormValues, xAxes: seq<string>, yAxes: seq<string>)
    requires schema.axes.None?
    ensures Validate(schema, v) == Validate(schema, v.(xAxes := xAxes, yAxes := yAxes))
  {
  }
}
