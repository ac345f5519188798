# Chart-configuration form: a Dafny model

The repository is a small web page for charting data. The user uploads a CSV
file. A parser library turns the file into rows, and the page takes its column
list from the keys of the first row. The user then picks a chart type and
several columns in a form. A zod schema validates the form values on submit.

The form exists in two drafts:

- `src/components/custom/csv-form.tsx` (`CSVForm`) is the later draft. Its
  schema has four fields (`columns`, `chartType`, `xAxes`, `yAxes`), each array
  with a lower and an upper bound. Choosing a file resets the form before the
  parse starts.
- `src/app/page.tsx` (`HomePage`) is the earlier draft. Its schema has only
  `columns` and `chartType`, and it has lower bounds only. Choosing a file never
  resets the form.

The model has four modules:

- `Schema` (`schema.dfy`) is one validator parametrised by the schema's bounds
  and messages. It evaluates a schema the way zod does: fields in declaration
  order; for an array, its length bounds first and then each element; for a
  string, its minimum before its maximum. Each failed check is an `Issue`
  carrying its message and, for a per-element failure, the element's position.
  A `Verdict` is either `Valid` or maps each failing field, and only those, to
  its issues in the order they were raised. `StringOk`, `CountOk` and `ArrayOk`
  are independent reference definitions of what each rule accepts, and the
  lemmas connect the issue lists to them.
- `Ingest` (`ingest.dfy`) holds what both drafts share about an upload. A `Row`
  is a parsed record: distinct keys in enumeration order and one cell per key.
  `ParsedColumns` gives the column list after a parse. `SelectOptions` gives
  the multi-select options. `ChartTypes` is the chart-type list.
- `CsvForm` (`csv_form.dfy`) and `HomePage` (`home_page.dfy`) each instantiate
  the schema with their draft's constants. Each has a class holding the
  component state (`data`, `columns` and the form values) whose methods are the
  file handler, the parser's completion callback, the chart-type picker, the
  multi-select callbacks and submit.

Behaviour of the code that the model keeps as written:

- No schema checks that a selected name is in the current column list.
  Selections that became stale after an upload still validate.
- `chartType` is any string, not an enumeration. In `CSVForm` the empty default
  passes.
- The array messages are the source's own, "Please select at most ten axis."
  included.
- The completion callback has no request-id guard, so the last completion wins.
- A parse that yields no rows leaves the column list unchanged; it does not
  fall back to the header.
- The callback also tests that the first row is truthy. A parsed record is
  always an object, so the model tests only that a first row exists.
- Only `CSVForm` resets the selections on re-upload. `HomePage` keeps them.

## Model

| member | source | states |
|---|---|---|
| `Schema.StringIssues` | src/components/custom/csv-form.tsx:47 | an element raises no issue exactly when its length is within the rule's bounds; a too-short element raises zod's "at least N character(s)" message first, a too-long one only the "at most N character(s)" message; every issue names the element's position |
| `Schema.LengthMessages` | src/components/custom/csv-form.tsx:47 | the per-element messages are zod's defaults with the bound written out: "String must contain at least 1 character(s)", "... at least 2 ...", "String must contain at most 10 character(s)" |
| `Schema.CountIssues` | src/components/custom/csv-form.tsx:48-49 | an array's length raises no issue exactly when it is within the bounds; its issues name no position |
| `Schema.Validate` | src/components/custom/csv-form.tsx:45-61 | the verdict's issues for each field are that field's rule issues, in order; `Valid` exactly when no field raises one; an invalid verdict names only schema fields, each with at least one issue |
| `Schema.ElementIssuesExact` | src/components/custom/csv-form.tsx:53-60 | the element checks raise exactly the issues of the individual elements: each issue comes from the element at the position it names, and every issue of every element appears |
| `Schema.ElementIssuesEmpty` | src/app/page.tsx:47 | the element checks raise nothing exactly when every element satisfies the string rule |
| `Schema.ArrayIssuesEmpty` | src/components/custom/csv-form.tsx:57-60 | an array field raises nothing exactly when its length bounds hold and every element passes |
| `Schema.ArrayFirstIssue` | src/app/page.tsx:46-48 | a too-short array's first issue is the rule's lower-bound message; a too-long one (not too short) gets the upper-bound message first |
| `Schema.ValidateMeaning` | src/app/page.tsx:45-52 | a schema accepts exactly when `columns` satisfies its rule, `chartType` is present and, if the schema has axis fields, both axis arrays satisfy theirs |
| `Schema.AxesIgnoredWithoutRule` | src/app/page.tsx:49-52 | a schema without axis fields gives the same verdict whatever the axis values are |
| `Ingest.ParsedColumns` | src/components/custom/csv-form.tsx:104-107 | after a parse with at least one row, the column list is the first row's key sequence, in its order; after a parse with no rows it is the current list; a distinct column list stays distinct |
| `Ingest.SelectOptions` | src/components/custom/csv-form.tsx:66-73 | one option per column, same length and order, each with label and value equal to the column name |
| `Ingest.OptionValuesRoundTrip` | src/app/page.tsx:58-61 | reading the values back off the options gives the column list unchanged |
| `CsvForm.ValidIff` | src/components/custom/csv-form.tsx:45-61 | the draft's schema accepts exactly when there are 2..10 columns, each 2..10 characters, `chartType` is present, and 1..10 X and Y axes, each 1..10 characters |
| `CsvForm.ColumnCountMessages` | src/components/custom/csv-form.tsx:46-49 | fewer than two columns: first issue "Please select at least two columns."; more than ten: first issue "Please select at most ten axis."; with 2..10, every issue on the field names an element |
| `CsvForm.AxisCountMessages` | src/components/custom/csv-form.tsx:53-60 | an empty X or Y axis list gets "Please select at least one axis." first; more than ten entries get "Please select at most ten axis." first |
| `CsvForm.ColumnNameLength` | src/components/custom/csv-form.tsx:47 | a column name shorter than 2 or longer than 10 characters makes the form invalid and puts the matching length message, at its position, on `columns` |
| `CsvForm.AxisNameLength` | src/components/custom/csv-form.tsx:53-60 | an empty or over-long entry of `xAxes` or of `yAxes` makes the form invalid and is reported at its position on its own field with the matching length message |
| `CsvForm.ChartTypeOnlyPresence` | src/components/custom/csv-form.tsx:50-52 | `chartType` is reported, with "Please select a chart type.", exactly when absent; every string passes, the empty default included |
| `CsvForm.DefaultsVerdict` | src/components/custom/csv-form.tsx:77-82 | the default values are rejected on `columns`, `xAxes` and `yAxes` with their lower-bound messages, and not on `chartType` |
| `CsvForm.StricterThanHomePage` | src/components/custom/csv-form.tsx:45-61 | every configuration this draft accepts is accepted by the earlier draft's schema too |
| `CsvForm.ManyColumnsSplitDrafts` | src/app/page.tsx:46-48 | more than ten well-formed columns with a chart type: rejected by this draft, accepted by the earlier one, which has no upper bound |
| `CsvForm.Form.MultiSelectOptions` | src/components/custom/csv-form.tsx:66-73 | the options offered are those of the current column list, and no two carry the same value, since the column list has no repeated name |
| `CsvForm.Form.constructor` | src/components/custom/csv-form.tsx:64-83 | empty data and column list; form values at their defaults |
| `CsvForm.Form.SelectFile` | src/components/custom/csv-form.tsx:85-98 | a parse starts exactly when a file is present; with a file the four form values become `[]`, `""`, `[]`, `[]`; without one nothing changes; data and columns untouched |
| `CsvForm.Form.CompleteParse` | src/components/custom/csv-form.tsx:101-107 | `data` becomes the rows; `columns` becomes the first row's keys if there is a row, else stays; form values untouched; columns stay distinct |
| `CsvForm.Form.HandleFileChange` | src/components/custom/csv-form.tsx:85-110 | with no file nothing changes; after an upload parsed to completion, the data and columns follow the parse, the values are the defaults and the form no longer validates |
| `CsvForm.Form.PickChartType` | src/components/custom/csv-form.tsx:195-199 | picking an entry of the list sets `chartType` to its value, which is "bar", "line" or "pie" |
| `CsvForm.Form.ChooseColumns` | src/components/custom/csv-form.tsx:241-250 | the multi-select's reported selection becomes the `columns` value |
| `CsvForm.Form.ChooseXAxes` | src/components/custom/csv-form.tsx:276-285 | the multi-select's reported selection becomes the `xAxes` value |
| `CsvForm.Form.ChooseYAxes` | src/components/custom/csv-form.tsx:309-318 | the multi-select's reported selection becomes the `yAxes` value |
| `CsvForm.Form.Submit` | src/components/custom/csv-form.tsx:135 | the verdict is the draft schema's verdict on the current values, so every message lemma above applies to it; the submission goes through exactly when those values are within the draft's bounds; a rejected one reports at least one field |
| `HomePage.ValidIff` | src/app/page.tsx:45-52 | the draft's schema accepts exactly when there are at least 2 columns, each at least 2 characters, and `chartType` is present; no upper bounds |
| `HomePage.ColumnCountMessage` | src/app/page.tsx:46-48 | fewer than two columns: first issue "Please select at least two columns."; with two or more, no count issue at all |
| `HomePage.ColumnNameLength` | src/app/page.tsx:47 | a column name shorter than 2 characters is reported at its position with the "at least 2" message; a longer name, however long, raises nothing at its position |
| `HomePage.AxesIgnored` | src/app/page.tsx:45-52 | the verdict does not depend on axis values and never reports `xAxes` or `yAxes` |
| `HomePage.DefaultsVerdict` | src/app/page.tsx:84-89 | the default values (columns `[]`, chart type absent) are rejected on `columns` and on `chartType` with "Please select a chart type." |
| `HomePage.Page.MultiSelectOptions` | src/app/page.tsx:58-61 | the options offered are those of the current column list, and no two carry the same value, since the column list has no repeated name |
| `HomePage.Page.constructor` | src/app/page.tsx:55-56 | empty data and column list; form values at their defaults |
| `HomePage.Page.SelectFile` | src/app/page.tsx:67-70 | a parse starts exactly when a file is present; the method changes no state either way |
| `HomePage.Page.CompleteParse` | src/app/page.tsx:72-79 | `data` becomes the rows; `columns` becomes the first row's keys if there is a row, else stays; form values untouched; columns stay distinct |
| `HomePage.Page.HandleFileChange` | src/app/page.tsx:67-82 | data and columns follow the parse as above; the form values and their verdict are exactly what they were before the upload |
| `HomePage.Page.PickChartType` | src/app/page.tsx:185-189 | picking an entry of the list sets `chartType` to its value, which is "bar", "line" or "pie" |
| `HomePage.Page.ChooseColumns` | src/app/page.tsx:122-125 | the multi-select's reported selection becomes the `columns` value |
| `HomePage.Page.Submit` | src/app/page.tsx:112 | the verdict is the draft schema's verdict on the current values, so every message lemma above applies to it; the submission goes through exactly when those values are within the draft's bounds; a rejected one reports at least one field |

## Left out

- The CSV parsing (`Papa.parse`) is a library call. Its result is the
  `rows` argument of `CompleteParse` and `HandleFileChange`. Quoting, duplicate
  headers, type conversion and the parser's own error list are not modelled.
  Cell values are strings.
- The order in which `Object.keys` lists the first row's keys, including
  integer-like keys coming first, is not modelled. A row's key order is taken
  as given.
- Asynchronous completion is not modelled. `SelectFile` and `CompleteParse`
  are separate calls, and nothing orders two completions against each other.
  `HandleFileChange` is the case where the parse completes before anything
  else happens.
- Values of the wrong type are not modelled: an array field that is missing,
  or a `chartType` that is neither absent nor a string. The form always
  supplies arrays, so zod's "Required" and "Expected …" type messages never
  arise from the modelled inputs.
- On success the model returns `Valid` without the parsed value zod hands to
  `onSubmit`. `onSubmit` only logs that value to the console.
- react-hook-form's choice of which issue to show beside each field (the first
  one per path) is not modelled. The model keeps every issue zod raises.
- String lengths are `seq<char>` lengths, not UTF-16 code units.
- Rendering is not modelled. This covers the chart-type button's label lookup
  (`chartTypes.find`), the Popover/Command/MultiSelect markup, `maxCount={3}`,
  `ThemeToggle` and the console logging in `useEffect`. It is presentation
  only.
- src/components/uploadthing-upload-button.tsx, src/components/custom/header.tsx,
  prettier.config.js and api/index.py are not part of this model. They hold
  upload transport, static markup, formatter settings and hello-world routes.
