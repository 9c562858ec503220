/**
 * `scripts/core/handlers/parameter_handler.py`: the raw variant of the
 * parameter conversion. The header is the second row of the metadata sheet,
 * its labels are looked up case-insensitively in the parameter dictionary,
 * and the mapped cells are copied as they are: nothing is stripped, NaN
 * stays NaN, and no field is required. The result replaces the handler's
 * list only once the whole sheet is converted.
 */
module ParameterHandler {
  import opened Wrappers
  import opened Text
  import opened Sheet
  import opened Metadata
  import opened Remote
  import ParameterCreation

  /** The same dictionary as the parameter sheet, with no check and no cleaning. */
  const RawPolicy := Policy(ParameterCreation.ParameterLabels, 1, [], false, false)

  const AutomatePrefix := "Error while automating parameter: "
  const ExtractPrefix := "Error while extracting parameter data: "
  const ConvertPrefix := "Error while converting parameter metadata to dict: "

  /** Without required fields, a row converts exactly when every header cell it reaches is text. */
  lemma {:induction false} RawRowSucceeds(keys: seq<Cell>, values: seq<Cell>, row: nat, n: nat)
    requires n <= |keys| <= |values|
    ensures RowRecord(RawPolicy, keys, values, row, n).Success? <==> forall j :: 0 <= j < n ==> keys[j].Some?
    decreases n
  {
    if n > 0 {
      RawRowSucceeds(keys, values, row, n - 1);
    }
  }

  /**
   * A record copied from a data row under a header of text labels: each of
   * its fields holds, unchanged, the cell of a column whose label maps to
   * it, and every mapped column is present.
   */
  ghost predicate CopiedFrom(header: seq<Cell>, values: seq<Cell>, rec: Record)
    requires |header| <= |values|
  {
    && (forall f :: f in rec ==>
          (exists j :: 0 <= j < |header| && header[j].Some? && FieldOf(RawPolicy, header[j].value) == f && rec[f] == values[j]))
    && (forall j :: 0 <= j < |header| ==>
          header[j].Some? && (FieldOf(RawPolicy, header[j].value) != "" ==> FieldOf(RawPolicy, header[j].value) in rec))
  }

  /**
   * The raw conversion of a table: with fewer than two rows the header row
   * is missing; a header with a NaN label fails on the first data row, so no
   * record is kept; otherwise there is exactly one record per row from the
   * third on, and each of its fields holds, unchanged, the cell of a column
   * whose label maps to it, every mapped column being present.
   */
  lemma RawConversion(t: Table)
    requires Rectangular(t)
    ensures var c := Convert(RawPolicy, t);
      && (|t| < 2 ==> c.error == Some(NoHeaderRow(|t|)))
      && (|t| == 2 ==> c == Conversion([], None))
      && (|t| > 2 ==> (c.error.None? <==> forall j :: 0 <= j < |t[1]| ==> t[1][j].Some?))
      && (|t| >= 2 && c.error.Some? ==> c.error == Some(HeaderNotText) && c.records == [])
      && (c.error.None? ==> |t| >= 2 && |c.records| == |t| - 2)
      && (c.error.None? ==> forall a :: 0 <= a < |c.records| ==> CopiedFrom(t[1], t[a + 2], c.records[a]))
  {
    var c := Convert(RawPolicy, t);
    if |t| >= 2 {
      assert c == ConvertRows(RawPolicy, t, |t|);
      ConvertRowsShape(RawPolicy, t, |t|);
      if |t| > 2 {
        RawRowSucceeds(t[1], t[2], 2, |t[1]|);
        if c.error.None? {
          assert RecordOf(RawPolicy, t, 2).Success?;
        } else {
          RawConversionFails(t);
        }
      }
      if c.error.None? {
        RawRecordsCopied(t);
      }
    }
  }

  /** A failed raw conversion of a sheet with data rows failed on its header, before any record. */
  lemma RawConversionFails(t: Table)
    requires Rectangular(t) && |t| > 2 && Convert(RawPolicy, t).error.Some?
    ensures Convert(RawPolicy, t).error == Some(HeaderNotText) && Convert(RawPolicy, t).records == []
  {
    var c := Convert(RawPolicy, t);
    assert c == ConvertRows(RawPolicy, t, |t|);
    ConvertRowsShape(RawPolicy, t, |t|);
    var r := 2 + |c.records|;
    RawRowSucceeds(t[1], t[r], r, |t[1]|);
    var j :| 0 <= j < |t[1]| && t[1][j].None?;
    RawRowSucceeds(t[1], t[2], 2, |t[1]|);
    assert RecordOf(RawPolicy, t, 2).Failure?;
    RowRecordFailsAt(RawPolicy, t[1], t[r], r, j, |t[1]|);
    HeaderFailure(t[1], t[r], r, |t[1]|);
  }

  /** Every record of a successful raw conversion is copied from its row. */
  lemma RawRecordsCopied(t: Table)
    requires Rectangular(t) && Convert(RawPolicy, t).error.None?
    ensures |t| >= 2 && |Convert(RawPolicy, t).records| == |t| - 2
    ensures forall a :: 0 <= a < |Convert(RawPolicy, t).records| ==> CopiedFrom(t[1], t[a + 2], Convert(RawPolicy, t).records[a])
  {
    var c := Convert(RawPolicy, t);
    assert c == ConvertRows(RawPolicy, t, |t|);
    ConvertRowsShape(RawPolicy, t, |t|);
    forall a | 0 <= a < |c.records|
      ensures CopiedFrom(t[1], t[a + 2], c.records[a])
    {
      RowRecordFields(RawPolicy, t[1], t[a + 2], a + 2, |t[1]|, c.records[a]);
    }
  }

  /** The only error a raw row can raise is the NaN header. */
  lemma {:induction false} HeaderFailure(keys: seq<Cell>, values: seq<Cell>, row: nat, n: nat)
    requires n <= |keys| <= |values|
    requires RowRecord(RawPolicy, keys, values, row, n).Failure?
    ensures RowRecord(RawPolicy, keys, values, row, n) == Failure(HeaderNotText)
    decreases n
  {
    if RowRecord(RawPolicy, keys, values, row, n - 1).Failure? {
      HeaderFailure(keys, values, row, n - 1);
    }
  }

  /** The class attributes of `AppConstants`, with their sheet names. */
  const AppConstants: map<string, string> := map[
    "parameter_category" := "parameter category", "parameter_groups" := "parameter group",
    "parameter" := "parameter", "unit_sheet" := "unit", "unit_groups_sheet" := "unit group",
    "hierarchy" := "hierarchy", "asset_model" := "asset model", "industry" := "industry"]

  /** Python's message for a class attribute that is not defined. */
  function MissingAttribute(owner: string, name: string): string {
    "type object '" + owner + "' has no attribute '" + name + "'"
  }

  /** `AppConstants.<name>`: the attribute's value, or the `AttributeError` it raises. */
  function AppConstantsAttribute(name: string): (r: Result<string, string>)
    ensures r.Success? <==> name in AppConstants
    ensures r.Failure? ==> r.error == MissingAttribute("AppConstants", name)
  {
    if name in AppConstants then Success(AppConstants[name]) else Failure(MissingAttribute("AppConstants", name))
  }

  /** No sheet name is defined under `metadata_sheet`. */
  lemma MetadataSheetUndefined()
    ensures AppConstantsAttribute("metadata_sheet") == Failure(MissingAttribute("AppConstants", "metadata_sheet"))
  {
    assert "metadata_sheet" !in AppConstants.Keys;
  }

  class AppHandler {
    /** `self.parameter_metadata`: the converted rows of the last successful conversion. */
    var parameterMetadata: seq<Record>
    var responseMessages: string

    constructor(responseMessages: string)
      ensures this.responseMessages == responseMessages && parameterMetadata == []
    {
      this.responseMessages := responseMessages;
      parameterMetadata := [];
    }

    /** extract_parameter_data: the groups stitched back together, or pandas' error for no group. */
    method ExtractParameterData(groups: seq<seq<nat>>, df: Table) returns (r: Result<Table, string>)
      requires forall g, k :: 0 <= g < |groups| && 0 <= k < |groups[g]| ==> groups[g][k] < |df|
      modifies this
      ensures parameterMetadata == old(parameterMetadata)
      ensures |groups| > 0 ==> r == Success(Stitch(df, groups)) && responseMessages == old(responseMessages)
      ensures |groups| == 0 ==>
        responseMessages == old(responseMessages) + ExtractPrefix + NoObjectsToConcatenate + "\n"
        && r == Failure(responseMessages)
    {
      var extracted := ExtractGroups(df, groups, NoObjectsToConcatenate);
      if extracted.Failure? {
        responseMessages := responseMessages + ExtractPrefix + extracted.error + "\n";
        return Failure(responseMessages);
      }
      return extracted;
    }

    /**
     * convert_parameter_metadata_to_dict (raw mapping): the list is built
     * aside and replaces the handler's list only when every row converted.
     */
    method ConvertParameterMetadataToDict(df: Table) returns (err: Option<string>)
      requires Rectangular(df)
      modifies this
      ensures var c := Convert(RawPolicy, df);
        && (c.error.None? ==>
              err.None? && parameterMetadata == c.records && responseMessages == old(responseMessages))
        && (c.error.Some? ==>
              parameterMetadata == old(parameterMetadata)
              && responseMessages == ConvertFailureLog(old(responseMessages), ConvertPrefix, RawPolicy, c.error.value)
              && err == Some(responseMessages))
    {
      var records, error := ConvertTable(RawPolicy, df);
      if error.Some? {
        responseMessages := ConvertFailureLog(responseMessages, ConvertPrefix, RawPolicy, error.value);
        return Some(responseMessages);
      }
      parameterMetadata := records;
      return None;
    }

    /** The `except` clause of automate_parameter. */
    method Fail(e: string)
      modifies this
      ensures responseMessages == old(responseMessages) + AutomatePrefix + e + "\n"
      ensures parameterMetadata == old(parameterMetadata)
    {
      responseMessages := responseMessages + AutomatePrefix + e + "\n";
    }

    /**
     * automate_parameter as written: the sheet name is read from an
     * attribute `AppConstants` does not define, so the lookup raises before
     * the workbook is touched; the `except` clause reports the error, the
     * metadata stays as it was, and the run fails whatever the sheet holds.
     */
    method AutomateParameter() returns (ok: bool)
      modifies this
      ensures !ok
      ensures parameterMetadata == old(parameterMetadata)
      ensures responseMessages == old(responseMessages) + AutomatePrefix + MissingAttribute("AppConstants", "metadata_sheet") + "\n"
    {
      var sheetName := AppConstantsAttribute("metadata_sheet");
      MetadataSheetUndefined();
      Fail(sheetName.error);
      return false;
    }

    /**
     * automate_parameter once the metadata sheet can be named: extraction
     * and conversion; the update step only reads the payload template. It
     * succeeds exactly when the sheet has rows and converts, and the list
     * then holds the sheet's records and nothing else; on failure the list
     * is left as it was and the buffer ends with the re-reported error.
     */
    method AutomateParameterFromSheet(df: Table) returns (ok: bool)
      requires Normalised(df)
      modifies this
      ensures ok <==> |df| > 0 && Convert(RawPolicy, df).error.None?
      ensures ok ==> parameterMetadata == Convert(RawPolicy, df).records && responseMessages == old(responseMessages)
      ensures !ok ==> parameterMetadata == old(parameterMetadata)
      ensures |df| == 0 ==>
        var b := old(responseMessages) + ExtractPrefix + NoObjectsToConcatenate + "\n";
        responseMessages == b + AutomatePrefix + b + "\n"
      ensures |df| > 0 && Convert(RawPolicy, df).error.Some? ==>
        var b := ConvertFailureLog(old(responseMessages), ConvertPrefix, RawPolicy, Convert(RawPolicy, df).error.value);
        responseMessages == b + AutomatePrefix + b + "\n"
    {
      var groups := GroupMergedRows(df, 0);
      var extracted := ExtractParameterData(groups, df);
      ExtractGroupingOfTable(df, 0, groups, NoObjectsToConcatenate);
      if extracted.Failure? {
        Fail(extracted.error);
        return false;
      }
      var err := ConvertParameterMetadataToDict(extracted.value);
      if err.Some? {
        Fail(err.value);
        return false;
      }
      return true;
    }
  }
}
