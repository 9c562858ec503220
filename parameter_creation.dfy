/**
 * `scripts/core/handlers/parameter_creation.py`: the Parameter sheet (header
 * on its second row) becomes one record per parameter; every record's name
 * is searched on the platform, and the records are created only when none
 * of the searches found anything. As written, the automation stops before
 * that decision on a call to a method the class does not define.
 */
module ParameterCreation {
  import opened Wrappers
  import opened Text
  import opened Sheet
  import opened Metadata
  import opened Remote

  /** `ParameterConstants.meta_data_mapping`. */
  const ParameterLabels: map<string, string> := map[
    "parameter name" := "tag_name",
    "description" := "description",
    "data source" := "system_tag_label",
    "data type" := "data_type_name",
    "ui input type" := "tag_type_name",
    "parameter label" := "tag_label",
    "unit" := "unit_name",
    "parameter group" := "tag_group_name",
    "parameter category" := "parameter_category",
    "numeric limit" := "numeric_limit",
    "string length" := "string_length",
    "default value" := "basic",
    "input required" := "required"]

  const ParameterPolicy := Policy(
    ParameterLabels, 1,
    [Required("tag_name", NaNOnly, Fixed("Parameter is missing\n"))],
    true, true)

  /** A row of the parameter search (`bodyContent`). */
  datatype ParameterRow = ParameterRow(tagName: string)

  /** The fields of `ParameterConstants.parameter_json` that create_parameter writes. */
  datatype ParameterPayload = ParameterPayload(tagName: Cell, description: Cell)

  /** The payload posted for one record, fields read with `.get(key, '')`. */
  function PayloadOf(rec: Record): (p: ParameterPayload)
    ensures p.tagName == (if "tag_name" in rec then rec["tag_name"] else Some(""))
    ensures p.description == (if "description" in rec then rec["description"] else Some(""))
  {
    ParameterPayload(GetOr(rec, "tag_name"), GetOr(rec, "description"))
  }

  /**
   * The payloads of create_parameter, one per record in order. Both fields
   * of the shared copy are overwritten for every record, so nothing carries
   * over from one record to the next.
   */
  function Payloads(records: seq<Record>): (ps: seq<ParameterPayload>)
    ensures |ps| == |records| && forall k :: 0 <= k < |records| ==> ps[k] == PayloadOf(records[k])
  {
    seq(|records|, k requires 0 <= k < |records| => PayloadOf(records[k]))
  }

  /** The parameters found on the platform for the records, searched by name. */
  function Found(records: seq<Record>, search: string -> Response<ParameterRow>): Searched<ParameterRow> {
    SearchRun(Queries(records, "tag_name"), search, |records|)
  }

  /**
   * The existence check finds nothing exactly when every record has a
   * searchable name and the platform answers each search with no row.
   */
  lemma NothingFoundIffEverySearchEmpty(records: seq<Record>, search: string -> Response<ParameterRow>)
    requires Found(records, search).stop.SearchDone?
    ensures Found(records, search).hits == [] <==>
      forall k :: 0 <= k < |records| ==>
        Query(records[k], "tag_name").Success? && |search(Query(records[k], "tag_name").value).body| == 0
  {
    NoHitsIffEveryBodyEmpty(Queries(records, "tag_name"), search, |records|);
  }

  /** A record posted by create_parameter carries its own name and description. */
  lemma PostedUnderOwnName(records: seq<Record>, save: ParameterPayload -> nat, k: nat)
    requires k < |Posted(Payloads(records), save)|
    ensures "tag_name" in records[k] ==> Posted(Payloads(records), save)[k].tagName == records[k]["tag_name"]
    ensures "description" in records[k] ==> Posted(Payloads(records), save)[k].description == records[k]["description"]
  {
    assert Posted(Payloads(records), save) <= Payloads(records);
  }

  const AutomatePrefix := "Error while automating parameter: "
  const ExtractPrefix := "Error while extracting parameter data: "
  const ConvertPrefix := "Error while converting parameter metadata to dict: "
  const SavePrefix := "Error while updating the parameter data: "
  const ExistsMessage := "Parameter exists"

  /** `str(e)` of the AttributeError raised by `self.get_data_type()`. */
  const NoDataTypeMethod := "'ParameterCreationHandler' object has no attribute 'get_data_type'"

  /** The buffer after the sheet half fails: no group to stitch, or a row that does not convert. */
  function LoadFailLog(before: string, df: Table): string
    requires Rectangular(df)
  {
    var c := Convert(ParameterPolicy, df);
    if |df| == 0 then before + ExtractPrefix + NoObjectsToConcatenate + "\n"
    else if c.error.Some? then ConvertFailureLog(before, ConvertPrefix, ParameterPolicy, c.error.value)
    else before
  }

  /** The buffer after the lookup loop stops early. */
  function SearchFailLog(before: string, stop: SearchStop): string {
    if stop.SearchRejected? then before + "Failed to fetch parameter data. " + StatusReport(stop.status, stop.text) + "\n"
    else before
  }

  /** The buffer after create_parameter is refused with `status`. */
  function RejectLog(before: string, status: nat): string {
    var b := before + "Failed to fetch parameter data\n";
    b + SavePrefix + HttpErrorText(status, b) + "\n"
  }

  class ParameterCreationHandler {
    var parameterList: seq<Record>
    var responseMessages: string
    /** Every payload posted to the save endpoint, in order. */
    ghost var posts: seq<ParameterPayload>

    constructor(responseMessages: string)
      ensures this.responseMessages == responseMessages
      ensures parameterList == [] && posts == []
    {
      this.responseMessages := responseMessages;
      parameterList := [];
      posts := [];
    }

    /** extract_parameter_data: the groups stitched back together, or pandas' error for no group. */
    method ExtractParameterData(groups: seq<seq<nat>>, df: Table) returns (r: Result<Table, string>)
      requires forall g, k :: 0 <= g < |groups| && 0 <= k < |groups[g]| ==> groups[g][k] < |df|
      modifies this
      ensures parameterList == old(parameterList) && posts == old(posts)
      ensures |groups| > 0 ==> r == Success(Stitch(df, groups)) && responseMessages == old(responseMessages)
      ensures |groups| == 0 ==>
        responseMessages == old(responseMessages) + ExtractPrefix + NoObjectsToConcatenate + "\n"
        && r == Failure(responseMessages)
    {
      var extracted := ExtractGroups(df, groups, NoObjectsToConcatenate);
      if extracted.Failure? {
        responseMessages := responseMessages + ExtractPrefix + extracted.error + "\n";
        return Failure(responseMessages);
      }
      return extracted;
    }

    /**
     * convert_parameter_metadata_to_dict: the header is the second row; once
     * it is read the list is reset, so it then holds exactly the rows
     * converted before any error.
     */
    method ConvertParameterMetadataToDict(df: Table) returns (err: Option<string>)
      requires Rectangular(df)
      modifies this
      ensures var c := Convert(ParameterPolicy, df);
        && (Early(c) ==> parameterList == old(parameterList))
        && (!Early(c) ==> parameterList == c.records)
        && posts == old(posts)
        && (c.error.None? ==> err.None? && responseMessages == old(responseMessages))
        && (c.error.Some? ==>
              responseMessages == ConvertFailureLog(old(responseMessages), ConvertPrefix, ParameterPolicy, c.error.value)
              && err == Some(responseMessages))
    {
      var records, error := ConvertTable(ParameterPolicy, df);
      if error.None? || !Early(Conversion(records, error)) {
        parameterList := records;
      }
      if error.Some? {
        responseMessages := ConvertFailureLog(responseMessages, ConvertPrefix, ParameterPolicy, error.value);
        return Some(responseMessages);
      }
      return None;
    }

    /**
     * check_parameter: the first parameter found for each record's name. A
     * refused search is reported before the loop stops; a record whose name
     * is None stops it without a message.
     */
    method CheckParameter(search: string -> Response<ParameterRow>) returns (hits: seq<ParameterRow>, err: Option<string>)
      modifies this
      ensures var s := Found(parameterList, search);
        && parameterList == old(parameterList) && posts == old(posts) && hits == s.hits
        && (s.stop.SearchDone? ==> err.None? && responseMessages == old(responseMessages))
        && (!s.stop.SearchDone? ==> responseMessages == SearchFailLog(old(responseMessages), s.stop) && err == Some(responseMessages))
    {
      var stop;
      hits, stop := SearchEach(Queries(parameterList, "tag_name"), search);
      if stop.SearchDone? {
        err := None;
      } else {
        responseMessages := SearchFailLog(responseMessages, stop);
        err := Some(responseMessages);
      }
    }

    /**
     * create_parameter: every record's payload, posted in order until the
     * first non-200 status, which is reported with that status.
     */
    method CreateParameter(save: ParameterPayload -> nat) returns (err: Option<string>)
      modifies this
      ensures var payloads := Payloads(parameterList);
        && parameterList == old(parameterList)
        && posts == old(posts) + Posted(payloads, save)
        && (FirstRejection(payloads, save).None? ==> err.None? && responseMessages == old(responseMessages))
        && (FirstRejection(payloads, save).Some? ==>
              responseMessages == RejectLog(old(responseMessages), FirstRejection(payloads, save).value)
              && err == Some(responseMessages))
    {
      var sent, rejected := PostEach(Payloads(parameterList), save);
      posts := posts + sent;
      if rejected.Some? {
        responseMessages := RejectLog(responseMessages, rejected.value);
        return Some(responseMessages);
      }
      return None;
    }

    /**
     * The create-or-exists decision of automate_parameter_creation: every
     * record is created when the search found no parameter at all; a single
     * hit means nothing is posted and "Parameter exists" is appended.
     */
    method CreateOrReport(hits: seq<ParameterRow>, save: ParameterPayload -> nat) returns (err: Option<string>)
      modifies this
      ensures parameterList == old(parameterList)
      ensures hits != [] ==> err.None? && posts == old(posts) && responseMessages == old(responseMessages) + ExistsMessage
      ensures hits == [] ==>
        var payloads := Payloads(parameterList);
        && posts == old(posts) + Posted(payloads, save)
        && (FirstRejection(payloads, save).None? ==> err.None? && responseMessages == old(responseMessages))
        && (FirstRejection(payloads, save).Some? ==>
              responseMessages == RejectLog(old(responseMessages), FirstRejection(payloads, save).value)
              && err == Some(responseMessages))
    {
      if hits == [] {
        err := CreateParameter(save);
      } else {
        responseMessages := responseMessages + ExistsMessage;
        err := None;
      }
    }

    /** The `except` clause of automate_parameter_creation. */
    method Fail(e: string)
      modifies this
      ensures responseMessages == old(responseMessages) + AutomatePrefix + e + "\n"
      ensures parameterList == old(parameterList) && posts == old(posts)
    {
      responseMessages := responseMessages + AutomatePrefix + e + "\n";
    }

    /** The sheet half of automate_parameter_creation. */
    method LoadSheet(df: Table) returns (err: Option<string>)
      requires Normalised(df)
      modifies this
      ensures posts == old(posts)
      ensures err.None? <==> |df| > 0 && Convert(ParameterPolicy, df).error.None?
      ensures parameterList ==
        if |df| == 0 || Early(Convert(ParameterPolicy, df)) then old(parameterList) else Convert(ParameterPolicy, df).records
      ensures err.None? ==> responseMessages == old(responseMessages)
      ensures err.Some? ==> responseMessages == LoadFailLog(old(responseMessages), df) && err == Some(responseMessages)
    {
      var groups := GroupMergedRows(df, 0);
      var extracted := ExtractParameterData(groups, df);
      ExtractGroupingOfTable(df, 0, groups, NoObjectsToConcatenate);
      if extracted.Failure? {
        return Some(extracted.error);
      }
      err := ConvertParameterMetadataToDict(extracted.value);
    }

    /**
     * automate_parameter_creation as written: whatever the sheet and the
     * platform hold, it never reaches the decision, because
     * `self.get_data_type()` raises first. Nothing is ever posted, and a
     * sheet that loads and searches cleanly ends with that AttributeError
     * reported.
     */
    method AutomateParameterCreation(df: Table, search: string -> Response<ParameterRow>, save: ParameterPayload -> nat)
      returns (ok: bool)
      requires Normalised(df)
      modifies this
      ensures !ok && posts == old(posts)
      ensures parameterList ==
        if |df| == 0 || Early(Convert(ParameterPolicy, df)) then old(parameterList) else Convert(ParameterPolicy, df).records
      ensures !(|df| > 0 && Convert(ParameterPolicy, df).error.None?) ==>
        var b := LoadFailLog(old(responseMessages), df); responseMessages == b + AutomatePrefix + b + "\n"
      ensures |df| > 0 && Convert(ParameterPolicy, df).error.None? ==>
        var found := Found(parameterList, search);
        && (!found.stop.SearchDone? ==>
              var b := SearchFailLog(old(responseMessages), found.stop); responseMessages == b + AutomatePrefix + b + "\n")
        && (found.stop.SearchDone? ==> responseMessages == old(responseMessages) + AutomatePrefix + NoDataTypeMethod + "\n")
    {
      var err := LoadSheet(df);
      if err.Some? {
        Fail(err.value);
        return false;
      }
      var hits;
      hits, err := CheckParameter(search);
      if err.Some? {
        Fail(err.value);
        return false;
      }
      Fail(NoDataTypeMethod);
      return false;
    }

    /**
     * automate_parameter_creation without the call to the undefined
     * `get_data_type`: when it succeeds, the records were created exactly
     * when no record's name was found on the platform.
     */
    method AutomateParameterCreationWithoutDataType(df: Table, search: string -> Response<ParameterRow>, save: ParameterPayload -> nat)
      returns (ok: bool)
      requires Normalised(df)
      modifies this
      ensures parameterList ==
        if |df| == 0 || Early(Convert(ParameterPolicy, df)) then old(parameterList) else Convert(ParameterPolicy, df).records
      ensures !(|df| > 0 && Convert(ParameterPolicy, df).error.None?) ==>
        !ok && posts == old(posts)
        && var b := LoadFailLog(old(responseMessages), df); responseMessages == b + AutomatePrefix + b + "\n"
      ensures |df| > 0 && Convert(ParameterPolicy, df).error.None? ==>
        var found := Found(parameterList, search);
        var payloads := Payloads(parameterList);
        var creates := found.stop.SearchDone? && found.hits == [];
        && (ok <==> found.stop.SearchDone? && (creates ==> FirstRejection(payloads, save).None?))
        && (!creates ==> posts == old(posts))
        && (!found.stop.SearchDone? ==>
              var b := SearchFailLog(old(responseMessages), found.stop); responseMessages == b + AutomatePrefix + b + "\n")
        && (found.stop.SearchDone? && found.hits != [] ==> responseMessages == old(responseMessages) + ExistsMessage)
        && (creates ==>
              posts == old(posts) + Posted(payloads, save)
              && (FirstRejection(payloads, save).None? ==> posts == old(posts) + payloads && responseMessages == old(responseMessages))
              && (FirstRejection(payloads, save).Some? ==>
                    var b := RejectLog(old(responseMessages), FirstRejection(payloads, save).value);
                    responseMessages == b + AutomatePrefix + b + "\n"))
    {
      var err := LoadSheet(df);
      if err.Some? {
        Fail(err.value);
        return false;
      }
      var hits;
      hits, err := CheckParameter(search);
      if err.Some? {
        Fail(err.value);
        return false;
      }
      PostedStopsAtFirstRejection(Payloads(parameterList), save);
      err := CreateOrReport(hits, save);
      if err.Some? {
        Fail(err.value);
        return false;
      }
      return true;
    }
  }
}
