/**
 * The later draft of the upload form (`CSVForm`): a four-field schema with
 * upper bounds, default values for every field, and a file handler that resets
 * the form before it starts parsing.
 */
module CsvForm {
  import opened Schema
  import opened Ingest
  import HomePage

  const AtLeastTwoColumns := "Please select at least two columns."
  const AtLeastOneAxis := "Please select at least one axis."
  const AtMostTenAxis := "Please select at most ten axis."
  const ChartTypeRequired := "Please select a chart type."

  /** The draft's `FormSchema`. */
  const CsvSchema: FormSchema := FormSchema(
    ArrayRule(StringRule(2, Some(10)), Limit(2, AtLeastTwoColumns), Some(Limit(10, AtMostTenAxis))),
    ChartTypeRequired,
    Some(ArrayRule(StringRule(1, Some(10)), Limit(1, AtLeastOneAxis), Some(Limit(10, AtMostTenAxis)))))

  /** The form's `defaultValues`, which `form.reset` also restores. */
  const DefaultValues := FormValues([], Some(""), [], [])

  /** What the draft's schema accepts, written directly from its bounds. */
  predicate ConfigOk(v: FormValues) {
    && 2 <= |v.columns| <= 10 && (forall i :: 0 <= i < |v.columns| ==> 2 <= |v.columns[i]| <= 10)
    && v.chartType.Some?
    && 1 <= |v.xAxes| <= 10 && (forall i :: 0 <= i < |v.xAxes| ==> 1 <= |v.xAxes[i]| <= 10)
    && 1 <= |v.yAxes| <= 10 && (forall i :: 0 <= i < |v.yAxes| ==> 1 <= |v.yAxes[i]| <= 10)
  }

  /** The schema accepts exactly the configurations within the draft's bounds. */
  lemma ValidIff(v: FormValues)
    ensures Validate(CsvSchema, v).Valid? <==> ConfigOk(v)
  {
    ValidateMeaning(CsvSchema, v);
  }

  /**
   * Too few selected columns are reported first with the lower-bound message,
   * too many with the upper-bound message; a count within the bounds raises no
   * issue on the field itself, only ones that name an element.
   */
  lemma ColumnCountMessages(v: FormValues)
    ensures |v.columns| < 2 ==> ErrorsOf(Validate(CsvSchema, v), ColumnsField)[0] == Issue(None, AtLeastTwoColumns)
    ensures |v.columns| > 10 ==> ErrorsOf(Validate(CsvSchema, v), ColumnsField)[0] == Issue(None, AtMostTenAxis)
    ensures 2 <= |v.columns| <= 10 ==> forall k :: 0 <= k < |ErrorsOf(Validate(CsvSchema, v), ColumnsField)| ==>
      ErrorsOf(Validate(CsvSchema, v), ColumnsField)[k].index.Some?
  {
    ArrayFirstIssue(CsvSchema.columns, v.columns);
    ElementIssuesExact(CsvSchema.columns.element, v.columns);
  }

  /** Each axis field is reported when it holds no entry or more than ten. */
  lemma AxisCountMessages(v: FormValues)
    ensures |v.xAxes| == 0 ==> ErrorsOf(Validate(CsvSchema, v), XAxesField)[0] == Issue(None, AtLeastOneAxis)
    ensures |v.xAxes| > 10 ==> ErrorsOf(Validate(CsvSchema, v), XAxesField)[0] == Issue(None, AtMostTenAxis)
    ensures |v.yAxes| == 0 ==> ErrorsOf(Validate(CsvSchema, v), YAxesField)[0] == Issue(None, AtLeastOneAxis)
    ensures |v.yAxes| > 10 ==> ErrorsOf(Validate(CsvSchema, v), YAxesField)[0] == Issue(None, AtMostTenAxis)
  {
    ArrayFirstIssue(CsvSchema.axes.value, v.xAxes);
    ArrayFirstIssue(CsvSchema.axes.value, v.yAxes);
  }

  /**
   * A selected column name shorter than two or longer than ten characters puts
   * an issue naming its position, with zod's length message, on `columns`.
   */
  lemma ColumnNameLength(v: FormValues, i: nat)
    requires i < |v.columns| && (|v.columns[i]| < 2 || |v.columns[i]| > 10)
    ensures Validate(CsvSchema, v).Invalid?
    ensures Issue(Some(i), if |v.columns[i]| < 2 then TooShortMessage(2) else TooLongMessage(10))
      in ErrorsOf(Validate(CsvSchema, v), ColumnsField)
  {
    ElementIssuesExact(CsvSchema.columns.element, v.columns);
    var own := StringIssues(CsvSchema.columns.element, v.columns[i], i);
    assert own[0] in ElementIssues(CsvSchema.columns.element, v.columns);
  }

  /**
   * An axis entry, of `xAxes` or of `yAxes`, that is empty or longer than ten
   * characters is reported at its position on its own field.
   */
  lemma AxisNameLength(v: FormValues, i: nat)
    ensures i < |v.xAxes| && (|v.xAxes[i]| == 0 || |v.xAxes[i]| > 10) ==>
      Validate(CsvSchema, v).Invalid? &&
      Issue(Some(i), if |v.xAxes[i]| == 0 then TooShortMessage(1) else TooLongMessage(10))
        in ErrorsOf(Validate(CsvSchema, v), XAxesField)
    ensures i < |v.yAxes| && (|v.yAxes[i]| == 0 || |v.yAxes[i]| > 10) ==>
      Validate(CsvSchema, v).Invalid? &&
      Issue(Some(i), if |v.yAxes[i]| == 0 then TooShortMessage(1) else TooLongMessage(10))
        in ErrorsOf(Validate(CsvSchema, v), YAxesField)
  {
    var rule := CsvSchema.axes.value.element;
    ElementIssuesExact(rule, v.xAxes);
    ElementIssuesExact(rule, v.yAxes);
    if i < |v.xAxes| && !StringOk(rule, v.xAxes[i]) {
      assert StringIssues(rule, v.xAxes[i], i)[0] in ElementIssues(rule, v.xAxes);
    }
    if i < |v.yAxes| && !StringOk(rule, v.yAxes[i]) {
      assert StringIssues(rule, v.yAxes[i], i)[0] in ElementIssues(rule, v.yAxes);
    }
  }

  /**
   * `chartType` is reported only when it is absent; any string passes, the
   * empty default and strings outside the picker's list included.
   */
  lemma ChartTypeOnlyPresence(v: FormValues)
    ensures ErrorsOf(Validate(CsvSchema, v), ChartTypeField) == if v.chartType.None? then [Issue(None, ChartTypeRequired)] else []
  {
  }

  /**
   * The default values fail only on the three arrays, each with its lower-bound
   * message; the empty chart type passes.
   */
  lemma DefaultsVerdict()
    ensures Validate(CsvSchema, DefaultValues) == Invalid(map[
      ColumnsField := [Issue(None, AtLeastTwoColumns)],
      XAxesField := [Issue(None, AtLeastOneAxis)],
      YAxesField := [Issue(None, AtLeastOneAxis)]])
  {
    var r := Validate(CsvSchema, DefaultValues);
    assert ArrayIssues(CsvSchema.columns, []) == [Issue(None, AtLeastTwoColumns)];
    assert AxisIssues(CsvSchema, []) == [Issue(None, AtLeastOneAxis)];
    assert r.errors.Keys == {ColumnsField, XAxesField, YAxesField};
  }

  /** Whatever this draft accepts, the earlier draft's schema accepts as well. */
  lemma StricterThanHomePage(v: FormValues)
    ensures Validate(CsvSchema, v).Valid? ==> Validate(HomePage.PageSchema, v).Valid?
  {
    ValidIff(v);
    HomePage.ValidIff(v);
  }

  /**
   * The converse fails: any selection of more than ten well-formed columns is
   * rejected here and accepted by the earlier draft.
   */
  lemma ManyColumnsSplitDrafts(v: FormValues)
    requires |v.columns| > 10 && v.chartType.Some?
    requires forall i :: 0 <= i < |v.columns| ==> 2 <= |v.columns[i]| <= 10
    ensures Validate(CsvSchema, v).Invalid?
    ensures Validate(HomePage.PageSchema, v).Valid?
  {
    ValidIff(v);
    HomePage.ValidIff(v);
  }

  /**
   * The component's state: the parsed rows and column list, and the four form
   * values.
   */
  class Form {
    var data: seq<Row>
    var columns: seq<string>
    var selectedColumns: seq<string>
    var chartType: Option<string>
    var xAxes: seq<string>
    var yAxes: seq<string>

    /** The values the form would submit. */
    function Values(): (r: FormValues)
      reads this
    {
      FormValues(selectedColumns, chartType, xAxes, yAxes)
    }

    /** The options every multi-select of the form offers, recomputed from the column list. */
    function MultiSelectOptions(): (r: seq<SelectOption>)
      requires Valid()
      reads this
      ensures forall i, j :: 0 <= i < j < |r| ==> r[i].value != r[j].value
    {
      SelectOptions(columns)
    }

    /** The column list never names a column twice. */
    ghost predicate Valid()
      reads this
    {
      Distinct(columns)
    }

    constructor ()
      ensures Valid()
      ensures data == [] && columns == [] && Values() == DefaultValues
    {
      data, columns := [], [];
      selectedColumns, chartType, xAxes, yAxes := [], Some(""), [], [];
    }

    /**
     * The first half of `handleFileChange`: with no file nothing happens; with
     * a file the form values go back to their defaults and a parse starts.
     */
    method SelectFile(present: bool) returns (parsing: bool)
      requires Valid()
      modifies this
      ensures Valid()
      ensures parsing == present
      ensures data == old(data) && columns == old(columns)
      ensures present ==> Values() == DefaultValues
      ensures !present ==> Values() == old(Values())
    {
      parsing := present;
      if present {
        selectedColumns, chartType, xAxes, yAxes := [], Some(""), [], [];
      }
    }

    /**
     * The parser's completion callback: the rows replace `data`, and the first
     * row's keys replace `columns` when there is a first row. The form values
     * are left alone.
     */
    method CompleteParse(rows: seq<Row>)
      requires Valid()
      modifies this
      ensures Valid()
      ensures data == rows
      ensures |rows| > 0 ==> columns == rows[0].keys
      ensures rows == [] ==> columns == old(columns)
      ensures Values() == old(Values())
    {
      data := rows;
      columns := ParsedColumns(columns, rows);
    }

    /**
     * The handler run to completion: `None` stands for no file, `Some(rows)`
     * for a file the parser turns into `rows`. After an upload the form is back
     * at its defaults, so no earlier selection survives and it does not validate.
     */
    method HandleFileChange(file: Option<seq<Row>>)
      requires Valid()
      modifies this
      ensures Valid()
      ensures file.None? ==> data == old(data) && columns == old(columns) && Values() == old(Values())
      ensures file.Some? ==> data == file.value
      ensures file.Some? && |file.value| > 0 ==> columns == file.value[0].keys
      ensures file == Some([]) ==> columns == old(columns)
      ensures file.Some? ==> Values() == DefaultValues && Validate(CsvSchema, Values()).Invalid?
    {
      var parsing := SelectFile(file.Some?);
      if parsing {
        CompleteParse(file.value);
        DefaultsVerdict();
      }
    }

    /** Picking the `k`-th entry of the chart-type list. */
    method PickChartType(k: nat)
      requires k < |ChartTypes| && Valid()
      modifies this`chartType
      ensures Valid()
      ensures chartType == Some(ChartTypes[k].value)
      ensures chartType.value in {"bar", "line", "pie"}
    {
      chartType := Some(ChartTypes[k].value);
    }

    /** A multi-select reporting its new selection for `columns`. */
    method ChooseColumns(selection: seq<string>)
      requires Valid()
      modifies this`selectedColumns
      ensures Valid()
      ensures selectedColumns == selection
    {
      selectedColumns := selection;
    }

    /** A multi-select reporting its new selection for `xAxes`. */
    method ChooseXAxes(selection: seq<string>)
      requires Valid()
      modifies this`xAxes
      ensures Valid()
      ensures xAxes == selection
    {
      xAxes := selection;
    }

    /** A multi-select reporting its new selection for `yAxes`. */
    method ChooseYAxes(selection: seq<string>)
      requires Valid()
      modifies this`yAxes
      ensures Valid()
      ensures yAxes == selection
    {
      yAxes := selection;
    }

    /**
     * Submitting: the current values are validated, and the submission goes
     * through exactly when they lie within the draft's bounds.
     */
    method Submit() returns (verdict: Verdict)
      ensures verdict == Validate(CsvSchema, Values())
      ensures verdict.Valid? <==> ConfigOk(Values())
      ensures verdict.Invalid? ==> verdict.errors != map[]
    {
      verdict := Validate(CsvSchema, Values());
      ValidIff(Values());
    }
  }
}
