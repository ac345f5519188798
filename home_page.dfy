/**
 * The earlier draft of the upload form (`HomePage`): a two-field schema with
 * lower bounds only, a default for `columns` alone, and a file handler that
 * parses without resetting the form.
 */
module HomePage {
  import opened Schema
  import opened Ingest

  const AtLeastTwoColumns := "Please select at least two columns."
  const ChartTypeRequired := "Please select a chart type."

  /** The draft's `FormSchema`: no upper bounds and no axis fields. */
  const PageSchema: FormSchema := FormSchema(
    ArrayRule(StringRule(2, None), Limit(2, AtLeastTwoColumns), None),
    ChartTypeRequired,
    None)

  /** The form's `defaultValues`: `chartType` is left undefined. */
  const DefaultValues := FormValues([], None, [], [])

  /** What the draft's schema accepts, written directly from its bounds. */
  predicate ConfigOk(v: FormValues) {
    && 2 <= |v.columns| && (forall i :: 0 <= i < |v.columns| ==> 2 <= |v.columns[i]|)
    && v.chartType.Some?
  }

  /** The schema accepts exactly the configurations within the draft's bounds. */
  lemma ValidIff(v: FormValues)
    ensures Validate(PageSchema, v).Valid? <==> ConfigOk(v)
  {
    ValidateMeaning(PageSchema, v);
  }

  /** Fewer than two selected columns are reported first with the lower-bound message. */
  lemma ColumnCountMessage(v: FormValues)
    ensures |v.columns| < 2 ==> ErrorsOf(Validate(PageSchema, v), ColumnsField)[0] == Issue(None, AtLeastTwoColumns)
    ensures |v.columns| >= 2 ==> forall k :: 0 <= k < |ErrorsOf(Validate(PageSchema, v), ColumnsField)| ==>
      ErrorsOf(Validate(PageSchema, v), ColumnsField)[k].index.Some?
  {
    ArrayFirstIssue(PageSchema.columns, v.columns);
    ElementIssuesExact(PageSchema.columns.element, v.columns);
  }

  /**
   * A selected column name of fewer than two characters puts an issue naming its
   * position on `columns`; no name is too long.
   */
  lemma ColumnNameLength(v: FormValues, i: nat)
    requires i < |v.columns|
    ensures |v.columns[i]| < 2 ==> Issue(Some(i), TooShortMessage(2)) in ErrorsOf(Validate(PageSchema, v), ColumnsField)
    ensures |v.columns[i]| >= 2 ==> forall issue :: issue in ErrorsOf(Validate(PageSchema, v), ColumnsField) ==> issue.index != Some(i)
  {
    ElementIssuesExact(PageSchema.columns.element, v.columns);
    var own := StringIssues(PageSchema.columns.element, v.columns[i], i);
    if |v.columns[i]| < 2 {
      assert own[0] in ElementIssues(PageSchema.columns.element, v.columns);
    }
  }

  /** The axis values play no part: the schema does not declare those fields. */
  lemma AxesIgnored(v: FormValues, xAxes: seq<string>, yAxes: seq<string>)
    ensures Validate(PageSchema, v) == Validate(PageSchema, v.(xAxes := xAxes, yAxes := yAxes))
    ensures ErrorsOf(Validate(PageSchema, v), XAxesField) == [] && ErrorsOf(Validate(PageSchema, v), YAxesField) == []
  {
    AxesIgnoredWithoutRule(PageSchema, v, xAxes, yAxes);
  }

  /**
   * The default values fail on both fields: no columns are selected and the
   * chart type was never given a value.
   */
  lemma DefaultsVerdict()
    ensures Validate(PageSchema, DefaultValues) == Invalid(map[
      ColumnsField := [Issue(None, AtLeastTwoColumns)],
      ChartTypeField := [Issue(None, ChartTypeRequired)]])
  {
    var r := Validate(PageSchema, DefaultValues);
    assert ArrayIssues(PageSchema.columns, []) == [Issue(None, AtLeastTwoColumns)];
    assert r.errors.Keys == {ColumnsField, ChartTypeField};
  }

  /** The component's state: the parsed rows and column list, and the two form values. */
  class Page {
    var data: seq<Row>
    var columns: seq<string>
    var selectedColumns: seq<string>
    var chartType: Option<string>

    /** The values the form would submit; this draft has no axis fields. */
    function Values(): (r: FormValues)
      reads this
    {
      FormValues(selectedColumns, chartType, [], [])
    }

    /** The options every multi-select of the form offers, recomputed from the column list. */
    function MultiSelectOptions(): (r: seq<SelectOption>)
      requires Valid()
      reads this
      ensures forall i, j :: 0 <= i < j < |r| ==> r[i].value != r[j].value
    {
      SelectOptions(columns)
    }

    /** The column list never names a column twice. */
    ghost predicate Valid()
      reads this
    {
      Distinct(columns)
    }

    constructor ()
      ensures Valid()
      ensures data == [] && columns == [] && Values() == DefaultValues
    {
      data, columns := [], [];
      selectedColumns, chartType := [], None;
    }

    /**
     * The first half of `handleFileChange`: a parse starts when a file is
     * present, and nothing of the component's state changes either way.
     */
    method SelectFile(present: bool) returns (parsing: bool)
      requires Valid()
      ensures Valid()
      ensures parsing == present
    {
      parsing := present;
    }

    /**
     * The parser's completion callback: the rows replace `data`, and the first
     * row's keys replace `columns` when there is a first row. The form values
     * are left alone.
     */
    method CompleteParse(rows: seq<Row>)
      requires Valid()
      modifies this
      ensures Valid()
      ensures data == rows
      ensures |rows| > 0 ==> columns == rows[0].keys
      ensures rows == [] ==> columns == old(columns)
      ensures Values() == old(Values())
    {
      data := rows;
      columns := ParsedColumns(columns, rows);
    }

    /**
     * The handler run to completion: `None` stands for no file, `Some(rows)`
     * for a file the parser turns into `rows`. The selections made for the
     * previous file are kept, so their verdict is the same as before the
     * upload, even when they name columns the new file does not have.
     */
    method HandleFileChange(file: Option<seq<Row>>)
      requires Valid()
      modifies this
      ensures Valid()
      ensures file.None? ==> data == old(data) && columns == old(columns)
      ensures file.Some? ==> data == file.value
      ensures file.Some? && |file.value| > 0 ==> columns == file.value[0].keys
      ensures file == Some([]) ==> columns == old(columns)
      ensures Values() == old(Values())
      ensures Validate(PageSchema, Values()) == old(Validate(PageSchema, Values()))
    {
      var parsing := SelectFile(file.Some?);
      if parsing {
        CompleteParse(file.value);
      }
    }

    /** Picking the `k`-th entry of the chart-type list. */
    method PickChartType(k: nat)
      requires k < |ChartTypes| && Valid()
      modifies this`chartType
      ensures Valid()
      ensures chartType == Some(ChartTypes[k].value)
      ensures chartType.value in {"bar", "line", "pie"}
    {
      chartType := Some(ChartTypes[k].value);
    }

    /** The multi-select reporting its new selection for `columns`. */
    method ChooseColumns(selection: seq<string>)
      requires Valid()
      modifies this`selectedColumns
      ensures Valid()
      ensures selectedColumns == selection
    {
      selectedColumns := selection;
    }

    /**
     * Submitting: the current values are validated, and the submission goes
     * through exactly when they lie within the draft's bounds.
     */
    method Submit() returns (verdict: Verdict)
      ensures verdict == Validate(PageSchema, Values())
      ensures verdict.Valid? <==> ConfigOk(Values())
      ensures verdict.Invalid? ==> verdict.errors != map[]
    {
      verdict := Validate(PageSchema, Values());
      ValidIff(Values());
    }
  }
}
