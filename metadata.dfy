/**
 * The row-to-record conversion every handler's `convert_*_metadata_to_dict`
 * performs: a header row of labels, a dictionary from lower-cased label to
 * field name, one record per data row below the header, text values
 * stripped, NaN values kept as None, and the required fields checked cell by
 * cell, the first missing one ending the conversion.
 *
 * The handlers differ only in their constants, gathered in a `Policy`: the
 * dictionary, the header row (0 or 1), the required fields with their check
 * and message, whether values are stripped, and whether an empty table is
 * rejected up front.
 */
module Metadata {
  import opened Wrappers
  import opened Text
  import opened Sheet

  /** One converted row: field name to the (cleaned) cell it came from. */
  type Record = map<string, Cell>

  /** How a required field is checked: `pd.isna(v)`, or `pd.isna(v) or v.strip() == ""`. */
  datatype Check = NaNOnly | NaNOrBlank

  /** The message appended to the buffer for a missing field. */
  datatype Missing =
    | Fixed(text: string)      // e.g. "Units is missing\n"
    | Numbered(prefix: string) // prefix + "<row + 1>.\n"

  datatype Required = Required(field: string, check: Check, message: Missing)

  datatype Policy = Policy(
    labels: map<string, string>,
    headerRow: nat,
    required: seq<Required>,
    strip: bool,
    rejectEmpty: bool)

  datatype ConvertError =
    | EmptyTable                    // "The input DataFrame is empty."
    | NoHeaderRow(size: nat)        // arr[headerRow] out of bounds
    | HeaderNotText                 // .lower() on a NaN header cell
    | FieldMissing(message: string) // a required cell failed its check

  /** The records of the rows converted so far, and the error that stopped the conversion. */
  datatype Conversion = Conversion(records: seq<Record>, error: Option<ConvertError>)

  /** `labels.get(header.lower(), '')`. */
  function FieldOf(p: Policy, header: string): (f: string)
    ensures f == "" || f in p.labels.Values
  {
    var k := Lower(header);
    if k in p.labels then p.labels[k] else ""
  }

  predicate Fails(check: Check, v: Cell) {
    v.None? || (check == NaNOrBlank && Strip(v.value) == "")
  }

  function MissingText(m: Missing, row: nat): string {
    match m
    case Fixed(text) => text
    case Numbered(prefix) => prefix + NatToString(row + 1) + ".\n"
  }

  /** The message of the first required field named `field` whose check `v` fails. */
  function MissingCheck(required: seq<Required>, field: string, v: Cell, row: nat): (r: Option<string>)
    ensures r.None? <==> forall k :: 0 <= k < |required| && required[k].field == Lower(field) ==> !Fails(required[k].check, v)
    ensures r.Some? ==> exists k :: 0 <= k < |required| && r.value == MissingText(required[k].message, row)
  {
    if |required| == 0 then None
    else
      var q := required[0];
      if Lower(field) == q.field && Fails(q.check, v) then Some(MissingText(q.message, row))
      else
        var rest := MissingCheck(required[1..], field, v, row);
        assert forall k :: 1 <= k < |required| ==> required[k] == required[1..][k - 1];
        rest
  }

  /** The value stored for a cell: text stripped when the policy strips, NaN kept as None. */
  function Clean(p: Policy, v: Cell): Cell {
    if p.strip && v.Some? then Some(Strip(v.value)) else v
  }

  /** One cell of a data row: the NaN-header error, the required check, then the store. */
  function ColumnStep(p: Policy, key: Cell, v: Cell, row: nat, acc: Record): Result<Record, ConvertError> {
    if key.None? then Failure(HeaderNotText)
    else
      var field := FieldOf(p, key.value);
      match MissingCheck(p.required, field, v, row)
      case Some(m) => Failure(FieldMissing(m))
      case None => Success(if field != "" then acc[field := Clean(p, v)] else acc)
  }

  /** The record built from the first n cells of a data row. */
  function RowRecord(p: Policy, keys: seq<Cell>, values: seq<Cell>, row: nat, n: nat): Result<Record, ConvertError>
    requires n <= |keys| <= |values|
  {
    if n == 0 then Success(map[])
    else
      match RowRecord(p, keys, values, row, n - 1)
      case Failure(e) => Failure(e)
      case Success(acc) => ColumnStep(p, keys[n - 1], values[n - 1], row, acc)
  }

  function Header(p: Policy, t: Table): seq<Cell>
    requires p.headerRow < |t|
  {
    t[p.headerRow]
  }

  /** The complete record of data row r, or the error it raises. */
  function RecordOf(p: Policy, t: Table, r: nat): Result<Record, ConvertError>
    requires Rectangular(t) && p.headerRow < r < |t|
  {
    RowRecord(p, Header(p, t), t[r], r, |Header(p, t)|)
  }

  /** Conversion of the data rows below the header and above n. */
  function ConvertRows(p: Policy, t: Table, n: nat): Conversion
    requires Rectangular(t) && p.headerRow < |t| && n <= |t|
  {
    if n <= p.headerRow + 1 then Conversion([], None)
    else
      var prev := ConvertRows(p, t, n - 1);
      if prev.error.Some? then prev
      else
        match RecordOf(p, t, n - 1)
        case Failure(e) => Conversion(prev.records, Some(e))
        case Success(rec) => Conversion(prev.records + [rec], None)
  }

  /** What convert_*_metadata_to_dict produces for a table. */
  function Convert(p: Policy, t: Table): Conversion
    requires Rectangular(t)
  {
    if p.rejectEmpty && (|t| == 0 || Width(t) == 0) then Conversion([], Some(EmptyTable))
    else if |t| <= p.headerRow then Conversion([], Some(NoHeaderRow(|t|)))
    else ConvertRows(p, t, |t|)
  }

  /** An error raised before the header row is read: the handler's list is left as it was. */
  predicate Early(c: Conversion) {
    c.error.Some? && (c.error.value.EmptyTable? || c.error.value.NoHeaderRow?)
  }

  /** `str(e)` of the exception for an error other than a missing field. */
  function ErrorText(p: Policy, e: ConvertError): string {
    match e
    case EmptyTable => "The input DataFrame is empty."
    case NoHeaderRow(size) =>
      "index " + NatToString(p.headerRow) + " is out of bounds for axis 0 with size " + NatToString(size)
    case HeaderNotText => "'float' object has no attribute 'lower'"
    case FieldMissing(m) => m
  }

  /**
   * The buffer after a failed conversion. A missing field appends its message
   * and raises the whole buffer, so the `except` clause appends the buffer a
   * second time behind its prefix.
   */
  function ConvertFailureLog(buffer: string, prefix: string, p: Policy, e: ConvertError): (r: string)
    ensures buffer <= r && |r| > |buffer| + |prefix| && r[|r| - 1] == '\n'
  {
    match e
    case FieldMissing(m) => var b := buffer + m; b + prefix + b + "\n"
    case _ => buffer + prefix + ErrorText(p, e) + "\n"
  }

  // ------------------------------------------------------------ methods

  /** The inner loop over the columns of one data row. */
  method MapRow(p: Policy, keys: seq<Cell>, values: seq<Cell>, row: nat) returns (r: Result<Record, ConvertError>)
    requires |keys| <= |values|
    ensures r == RowRecord(p, keys, values, row, |keys|)
  {
    var rec: Record := map[];
    var col := 0;
    while col < |keys|
      invariant 0 <= col <= |keys|
      invariant RowRecord(p, keys, values, row, col) == Success(rec)
    {
      var step := ColumnStep(p, keys[col], values[col], row, rec);
      if step.Failure? {
        RowRecordStaysFailed(p, keys, values, row, col + 1, |keys|);
        return step;
      }
      rec := step.value;
      col := col + 1;
    }
    return Success(rec);
  }

  /** The conversion loop: one record per data row, stopping at the first error. */
  method ConvertTable(p: Policy, t: Table) returns (records: seq<Record>, error: Option<ConvertError>)
    requires Rectangular(t)
    ensures Conversion(records, error) == Convert(p, t)
  {
    if p.rejectEmpty && (|t| == 0 || Width(t) == 0) {
      return [], Some(EmptyTable);
    }
    if |t| <= p.headerRow {
      return [], Some(NoHeaderRow(|t|));
    }
    var keys := t[p.headerRow];
    records := [];
    error := None;
    var row := p.headerRow + 1;
    while row < |t|
      invariant p.headerRow + 1 <= row <= |t|
      invariant Conversion(records, None) == ConvertRows(p, t, row)
    {
      var r := MapRow(p, keys, t[row], row);
      if r.Failure? {
        ConvertRowsStaysFailed(p, t, row + 1, |t|);
        return records, Some(r.error);
      }
      records := records + [r.value];
      row := row + 1;
    }
  }

  // ------------------------------------------------------------- lemmas

  lemma {:induction false} RowRecordStaysFailed(p: Policy, keys: seq<Cell>, values: seq<Cell>, row: nat, n: nat, m: nat)
    requires n <= m <= |keys| <= |values|
    requires RowRecord(p, keys, values, row, n).Failure?
    ensures RowRecord(p, keys, values, row, m) == RowRecord(p, keys, values, row, n)
    decreases m
  {
    if m > n {
      RowRecordStaysFailed(p, keys, values, row, n, m - 1);
    }
  }

  lemma {:induction false} ConvertRowsStaysFailed(p: Policy, t: Table, n: nat, m: nat)
    requires Rectangular(t) && p.headerRow < |t| && n <= m <= |t|
    requires ConvertRows(p, t, n).error.Some?
    ensures ConvertRows(p, t, m) == ConvertRows(p, t, n)
    decreases m
  {
    if m > n {
      ConvertRowsStaysFailed(p, t, n, m - 1);
    }
  }

  /**
   * The conversion keeps one record per data row, in row order, up to the
   * first row that fails; that row adds no record and its error is reported.
   */
  lemma {:induction false} ConvertRowsShape(p: Policy, t: Table, n: nat)
    requires Rectangular(t) && p.headerRow < |t| && n <= |t|
    ensures var c := ConvertRows(p, t, n);
      && (c.error.None? ==> |c.records| == if n <= p.headerRow + 1 then 0 else n - p.headerRow - 1)
      && (c.error.Some? ==>
            p.headerRow + 1 + |c.records| < n
            && RecordOf(p, t, p.headerRow + 1 + |c.records|) == Failure(c.error.value))
      && (forall a :: 0 <= a < |c.records| ==>
            p.headerRow + 1 + a < n && RecordOf(p, t, p.headerRow + 1 + a) == Success(c.records[a]))
      && forall r :: p.headerRow < r < n && RecordOf(p, t, r).Failure? ==>
            c.error.Some? && |c.records| <= r - p.headerRow - 1
    decreases n
  {
    if n > p.headerRow + 1 {
      ConvertRowsShape(p, t, n - 1);
    }
  }

  /** A failure in any column of a row makes the whole row fail. */
  lemma {:induction false} RowRecordFailsAt(p: Policy, keys: seq<Cell>, values: seq<Cell>, row: nat, j: nat, n: nat)
    requires j < n <= |keys| <= |values|
    requires forall acc :: ColumnStep(p, keys[j], values[j], row, acc).Failure?
    ensures RowRecord(p, keys, values, row, n).Failure?
    decreases n
  {
    if n - 1 > j {
      RowRecordFailsAt(p, keys, values, row, j, n - 1);
    }
  }

  /**
   * A data row whose required cell is NaN (or blank, for the blank-checking
   * fields) ends the conversion with an error, at that row or before it, and
   * adds no record for it.
   */
  lemma MissingRequiredFieldIsReported(p: Policy, t: Table, r: nat, j: nat, k: nat)
    requires Rectangular(t) && p.headerRow < r < |t| && j < Width(t)
    requires Header(p, t)[j].Some? && k < |p.required|
    requires p.required[k].field == Lower(FieldOf(p, Header(p, t)[j].value))
    requires Fails(p.required[k].check, t[r][j])
    ensures Convert(p, t).error.Some?
    ensures |Convert(p, t).records| <= r - p.headerRow - 1
  {
    RowRecordFailsAt(p, Header(p, t), t[r], r, j, |Header(p, t)|);
    assert RecordOf(p, t, r).Failure?;
    ConvertRowsShape(p, t, |t|);
    assert Convert(p, t) == ConvertRows(p, t, |t|);
  }

  /** The message of a missing field names the failing row's position in the sheet. */
  lemma {:induction false} MissingMessageNamesRow(p: Policy, t: Table, m: string)
    requires Rectangular(t) && Convert(p, t).error == Some(FieldMissing(m))
    ensures var r := p.headerRow + 1 + |Convert(p, t).records|;
      r < |t| && exists k :: 0 <= k < |p.required| && m == MissingText(p.required[k].message, r)
  {
    assert p.headerRow < |t| && Convert(p, t) == ConvertRows(p, t, |t|);
    ConvertRowsShape(p, t, |t|);
    var r := p.headerRow + 1 + |Convert(p, t).records|;
    assert RecordOf(p, t, r) == Failure(FieldMissing(m));
    RowFailureMessage(p, Header(p, t), t[r], r, |Header(p, t)|, m);
  }

  /** A data row fails only on a NaN header or a missing field, never with an early error. */
  lemma {:induction false} RowRecordNotEarly(p: Policy, keys: seq<Cell>, values: seq<Cell>, row: nat, n: nat)
    requires n <= |keys| <= |values|
    ensures var r := RowRecord(p, keys, values, row, n);
      r.Failure? ==> r.error.HeaderNotText? || r.error.FieldMissing?
    decreases n
  {
    if n > 0 {
      RowRecordNotEarly(p, keys, values, row, n - 1);
    }
  }

  /**
   * The whole-sheet conversion: an empty sheet (when the policy rejects it)
   * or one without its header row fails before any record; otherwise every
   * data row below the header yields its record, in order, or the first
   * failing row stops it.
   */
  lemma ConvertOutcome(p: Policy, t: Table)
    requires Rectangular(t)
    ensures var c := Convert(p, t);
      && (Early(c) <==> (p.rejectEmpty && (|t| == 0 || Width(t) == 0)) || |t| <= p.headerRow)
      && (Early(c) ==> c.records == [])
      && (c.error.None? ==>
            p.headerRow < |t| && |c.records| == |t| - p.headerRow - 1
            && forall a :: 0 <= a < |c.records| ==> RecordOf(p, t, p.headerRow + 1 + a) == Success(c.records[a]))
  {
    if !(p.rejectEmpty && (|t| == 0 || Width(t) == 0)) && |t| > p.headerRow {
      ConvertRowsShape(p, t, |t|);
      var c := ConvertRows(p, t, |t|);
      if c.error.Some? {
        var r := p.headerRow + 1 + |c.records|;
        RowRecordNotEarly(p, Header(p, t), t[r], r, |Header(p, t)|);
      }
    }
  }

  lemma {:induction false} RowFailureMessage(p: Policy, keys: seq<Cell>, values: seq<Cell>, row: nat, n: nat, m: string)
    requires n <= |keys| <= |values|
    requires RowRecord(p, keys, values, row, n) == Failure(FieldMissing(m))
    ensures exists k :: 0 <= k < |p.required| && m == MissingText(p.required[k].message, row)
    decreases n
  {
    var prev := RowRecord(p, keys, values, row, n - 1);
    if prev.Failure? {
      RowFailureMessage(p, keys, values, row, n - 1, m);
    } else {
      var field := FieldOf(p, keys[n - 1].value);
      var check := MissingCheck(p.required, field, values[n - 1], row);
      assert check == Some(m);
    }
  }

  /**
   * Every field of a converted record is a field of the dictionary, and it
   * holds the cleaned cell of a column whose header maps to it; every
   * required field the record holds passed its check.
   */
  lemma {:induction false} RowRecordFields(p: Policy, keys: seq<Cell>, values: seq<Cell>, row: nat, n: nat, rec: Record)
    requires n <= |keys| <= |values|
    requires RowRecord(p, keys, values, row, n) == Success(rec)
    ensures forall f :: f in rec ==> f in p.labels.Values
    ensures forall f :: f in rec ==> exists j :: (0 <= j < n && keys[j].Some? && FieldOf(p, keys[j].value) == f
      && rec[f] == Clean(p, values[j]) && MissingCheck(p.required, f, values[j], row).None?)
    ensures forall j :: 0 <= j < n ==> keys[j].Some? && (FieldOf(p, keys[j].value) != "" ==> FieldOf(p, keys[j].value) in rec)
    decreases n
  {
    if n > 0 {
      var prev := RowRecord(p, keys, values, row, n - 1);
      assert prev.Success?;
      RowRecordFields(p, keys, values, row, n - 1, prev.value);
    }
  }

  /** A required field present in a converted record passed its check. */
  lemma RequiredFieldPresent(p: Policy, keys: seq<Cell>, values: seq<Cell>, row: nat, rec: Record, k: nat)
    requires |keys| <= |values| && k < |p.required|
    requires RowRecord(p, keys, values, row, |keys|) == Success(rec)
    requires Lower(p.required[k].field) == p.required[k].field && p.required[k].field in rec
    ensures rec[p.required[k].field].Some?
    ensures p.required[k].check == NaNOrBlank ==> Strip(rec[p.required[k].field].value) != ""
  {
    var f := p.required[k].field;
    RowRecordFields(p, keys, values, row, |keys|, rec);
    var j :| 0 <= j < |keys| && keys[j].Some? && FieldOf(p, keys[j].value) == f
      && rec[f] == Clean(p, values[j]) && MissingCheck(p.required, f, values[j], row).None?;
    assert !Fails(p.required[k].check, values[j]);
    StripIdempotent(values[j].value);
  }
}
