/**
 * `scripts/core/handlers/parameter_category.py`: the Parameter Category
 * sheet becomes one record per category (the list is reset on every
 * conversion); the platform is searched for each category by name, and
 * when the names differ in either direction every record is posted, each
 * through a fresh copy of the payload template.
 */
module ParameterCategory {
  import opened Wrappers
  import opened Text
  import opened Sheet
  import opened Metadata
  import opened Remote

  /** `ParameterConstants.parameter_category_meta_data`. */
  const CategoryLabels: map<string, string> :=
    map["parameter category name" := "tag_category_name", "description" := "description", "icon" := "tag_category_icon"]

  const CategoryPolicy := Policy(
    CategoryLabels, 0,
    [Required("tag_category_name", NaNOnly, Fixed("Parameter Category is missing\n"))],
    true, true)

  /** A row of the category search (`bodyContent`). */
  datatype CategoryRow = CategoryRow(tagCategoryName: string)

  /** The fields of `ParameterConstants.parameter_category_json` that the handler writes. */
  datatype CategoryPayload = CategoryPayload(tagCategoryName: Cell, description: Cell, tagCategoryIcon: Cell)

  /** The payload posted for one record: every field read with `.get(key, '')`. */
  function PayloadOf(rec: Record): (p: CategoryPayload)
    ensures p.tagCategoryName == (if "tag_category_name" in rec then rec["tag_category_name"] else Some(""))
    ensures p.description == (if "description" in rec then rec["description"] else Some(""))
    ensures p.tagCategoryIcon == (if "tag_category_icon" in rec then rec["tag_category_icon"] else Some(""))
  {
    CategoryPayload(GetOr(rec, "tag_category_name"), GetOr(rec, "description"), GetOr(rec, "tag_category_icon"))
  }

  /**
   * The payloads of create_parameter_category, one per record in order.
   * All three fields are overwritten for every record, so the copy of the
   * template shared by the loop carries nothing from one record to the next.
   */
  function Payloads(records: seq<Record>): (ps: seq<CategoryPayload>)
    ensures |ps| == |records| && forall k :: 0 <= k < |records| ==> ps[k] == PayloadOf(records[k])
  {
    seq(|records|, k requires 0 <= k < |records| => PayloadOf(records[k]))
  }

  /** A record whose category name was on the sheet is posted under that name. */
  lemma PostedUnderOwnName(records: seq<Record>, save: CategoryPayload -> nat, k: nat)
    requires k < |Posted(Payloads(records), save)|
    ensures "tag_category_name" in records[k] ==> Posted(Payloads(records), save)[k].tagCategoryName == records[k]["tag_category_name"]
  {
    assert Posted(Payloads(records), save) <= Payloads(records);
  }

  const AutomatePrefix := "Error while automating parameter: "
  const ExtractPrefix := "Error while extracting parameter data: "
  const ConvertPrefix := "Error while converting parameter metadata to dict: "
  const SavePrefix := "Error while updating the parameter data: "
  const UpdatedMessage := "Updated Parameter Category Information"
  const ExistsMessage := "Parameter Category Information Exists"

  /** Every failed save raises HTTP 502, whatever the platform answered. */
  const BadGateway: nat := 502

  /** The buffer after the sheet half fails: no group to stitch, or a row that does not convert. */
  function LoadFailLog(before: string, df: Table): string
    requires Rectangular(df)
  {
    var c := Convert(CategoryPolicy, df);
    if |df| == 0 then before + ExtractPrefix + NoObjectsToConcatenate + "\n"
    else if c.error.Some? then ConvertFailureLog(before, ConvertPrefix, CategoryPolicy, c.error.value)
    else before
  }

  /** The buffer after the lookup loop stops early. */
  function SearchFailLog(before: string, stop: SearchStop): string {
    if stop.SearchRejected? then before + "Failed to fetch parameter data. " + StatusReport(stop.status, stop.text) + "\n"
    else before
  }

  /** The buffer after a save is refused. */
  function SaveFailLog(before: string): string {
    var b := before + "Failed to fetch parameter data\n";
    b + SavePrefix + HttpErrorText(BadGateway, b) + "\n"
  }

  /** `[c["tag_category_name"].lower() for c in parameter_category_data]`. */
  function ExistingNames(rows: seq<CategoryRow>): (names: seq<string>)
    ensures |names| == |rows| && forall k :: 0 <= k < |rows| ==> names[k] == Lower(rows[k].tagCategoryName)
  {
    seq(|rows|, k requires 0 <= k < |rows| => Lower(rows[k].tagCategoryName))
  }

  /** The categories found on the platform for the records. */
  function Found(records: seq<Record>, search: string -> Response<CategoryRow>): Searched<CategoryRow> {
    SearchRun(Queries(records, "tag_category_name"), search, |records|)
  }

  class ParameterCategoryHandler {
    var parameterList: seq<Record>
    var responseMessages: string
    /** Every payload posted to the save endpoint, in order. */
    ghost var posts: seq<CategoryPayload>

    constructor(responseMessages: string)
      ensures this.responseMessages == responseMessages
      ensures parameterList == [] && posts == []
    {
      this.responseMessages := responseMessages;
      parameterList := [];
      posts := [];
    }

    /** extract_parameter_data: the groups stitched back together, or pandas' error for no group. */
    method ExtractParameterData(groups: seq<seq<nat>>, df: Table) returns (r: Result<Table, string>)
      requires forall g, k :: 0 <= g < |groups| && 0 <= k < |groups[g]| ==> groups[g][k] < |df|
      modifies this
      ensures parameterList == old(parameterList) && posts == old(posts)
      ensures |groups| > 0 ==> r == Success(Stitch(df, groups)) && responseMessages == old(responseMessages)
      ensures |groups| == 0 ==>
        responseMessages == old(responseMessages) + ExtractPrefix + NoObjectsToConcatenate + "\n"
        && r == Failure(responseMessages)
    {
      var extracted := ExtractGroups(df, groups, NoObjectsToConcatenate);
      if extracted.Failure? {
        responseMessages := responseMessages + ExtractPrefix + extracted.error + "\n";
        return Failure(responseMessages);
      }
      return extracted;
    }

    /**
     * convert_parameter_metadata_to_dict: once the header row is read the
     * list is reset, so it then holds exactly the rows converted before any
     * error; an empty table leaves it as it was.
     */
    method ConvertParameterMetadataToDict(df: Table) returns (err: Option<string>)
      requires Rectangular(df)
      modifies this
      ensures var c := Convert(CategoryPolicy, df);
        && (Early(c) ==> parameterList == old(parameterList))
        && (!Early(c) ==> parameterList == c.records)
        && posts == old(posts)
        && (c.error.None? ==> err.None? && responseMessages == old(responseMessages))
        && (c.error.Some? ==>
              responseMessages == ConvertFailureLog(old(responseMessages), ConvertPrefix, CategoryPolicy, c.error.value)
              && err == Some(responseMessages))
    {
      var records, error := ConvertTable(CategoryPolicy, df);
      if error.None? || !Early(Conversion(records, error)) {
        parameterList := records;
      }
      if error.Some? {
        responseMessages := ConvertFailureLog(responseMessages, ConvertPrefix, CategoryPolicy, error.value);
        return Some(responseMessages);
      }
      return None;
    }

    /** check_parameter_categories: the first category found for each record's name. */
    method CheckParameterCategories(search: string -> Response<CategoryRow>) returns (hits: seq<CategoryRow>, err: Option<string>)
      modifies this
      ensures var s := Found(parameterList, search);
        && parameterList == old(parameterList) && posts == old(posts) && hits == s.hits
        && (s.stop.SearchDone? ==> err.None? && responseMessages == old(responseMessages))
        && (!s.stop.SearchDone? ==> responseMessages == SearchFailLog(old(responseMessages), s.stop) && err == Some(responseMessages))
    {
      var stop;
      hits, stop := SearchEach(Queries(parameterList, "tag_category_name"), search);
      if stop.SearchDone? {
        err := None;
      } else {
        responseMessages := SearchFailLog(responseMessages, stop);
        err := Some(responseMessages);
      }
    }

    /**
     * create_parameter_category: the payload of every record, posted in
     * order until the first non-200 status, which is reported as a 502.
     */
    method CreateParameterCategory(save: CategoryPayload -> nat) returns (err: Option<string>)
      modifies this
      ensures var payloads := Payloads(parameterList);
        && parameterList == old(parameterList)
        && posts == old(posts) + Posted(payloads, save)
        && (FirstRejection(payloads, save).None? ==> err.None? && responseMessages == old(responseMessages))
        && (FirstRejection(payloads, save).Some? ==>
              responseMessages == SaveFailLog(old(responseMessages)) && err == Some(responseMessages))
    {
      var sent, rejected := PostEach(Payloads(parameterList), save);
      posts := posts + sent;
      if rejected.Some? {
        responseMessages := SaveFailLog(responseMessages);
        return Some(responseMessages);
      }
      return None;
    }

    /** The `except` clause of automate_parameter_category. */
    method Fail(e: string)
      modifies this
      ensures responseMessages == old(responseMessages) + AutomatePrefix + e + "\n"
      ensures parameterList == old(parameterList) && posts == old(posts)
    {
      responseMessages := responseMessages + AutomatePrefix + e + "\n";
    }

    /** The sheet half of automate_parameter_category. */
    method LoadSheet(df: Table) returns (err: Option<string>)
      requires Normalised(df)
      modifies this
      ensures posts == old(posts)
      ensures err.None? <==> |df| > 0 && Convert(CategoryPolicy, df).error.None?
      ensures parameterList ==
        if |df| == 0 || Early(Convert(CategoryPolicy, df)) then old(parameterList) else Convert(CategoryPolicy, df).records
      ensures err.None? ==> responseMessages == old(responseMessages)
      ensures err.Some? ==> responseMessages == LoadFailLog(old(responseMessages), df) && err == Some(responseMessages)
    {
      var groups := GroupMergedRows(df, 0);
      var extracted := ExtractParameterData(groups, df);
      ExtractGroupingOfTable(df, 0, groups, NoObjectsToConcatenate);
      if extracted.Failure? {
        return Some(extracted.error);
      }
      err := ConvertParameterMetadataToDict(extracted.value);
    }

    /** The platform half of automate_parameter_category. */
    method Synchronise(search: string -> Response<CategoryRow>, save: CategoryPayload -> nat) returns (err: Option<string>)
      modifies this
      ensures parameterList == old(parameterList)
      ensures var found := Found(parameterList, search);
        var names := LowerFields(parameterList, "tag_category_name");
        var existing := ExistingNames(found.hits);
        var payloads := Payloads(parameterList);
        var creates := found.stop.SearchDone? && names.Success? && !SameNames(names.value, existing);
        && (err.None? <==> found.stop.SearchDone? && names.Success? && (creates ==> FirstRejection(payloads, save).None?))
        && (!creates ==> posts == old(posts))
        && (!found.stop.SearchDone? ==>
              responseMessages == SearchFailLog(old(responseMessages), found.stop) && err == Some(responseMessages))
        && (found.stop.SearchDone? && names.Failure? ==>
              responseMessages == old(responseMessages) && err == Some(FaultText(names.error)))
        && (found.stop.SearchDone? && names.Success? && SameNames(names.value, existing) ==>
              responseMessages == old(responseMessages) + ExistsMessage)
        && (creates ==>
              posts == old(posts) + Posted(payloads, save)
              && (FirstRejection(payloads, save).None? ==>
                    posts == old(posts) + payloads && responseMessages == old(responseMessages) + UpdatedMessage)
              && (FirstRejection(payloads, save).Some? ==>
                    responseMessages == SaveFailLog(old(responseMessages)) && err == Some(responseMessages)))
    {
      var hits;
      hits, err := CheckParameterCategories(search);
      if err.Some? {
        return err;
      }
      var existing := ExistingNames(hits);
      var names := LowerFields(parameterList, "tag_category_name");
      if names.Failure? {
        return Some(FaultText(names.error));
      }
      var added := ListDifference(names.value, existing);
      var removed := ListDifference(existing, names.value);
      NoDifferenceIffSameNames(names.value, existing);
      if added != [] || removed != [] {
        err := CreateAndReport(save);
      } else {
        responseMessages := responseMessages + ExistsMessage;
      }
    }

    /** The creating branch of automate_parameter_category: every payload is posted, then the update is reported. */
    method CreateAndReport(save: CategoryPayload -> nat) returns (err: Option<string>)
      modifies this
      ensures parameterList == old(parameterList)
      ensures var payloads := Payloads(parameterList);
        && posts == old(posts) + Posted(payloads, save)
        && (err.None? <==> FirstRejection(payloads, save).None?)
        && (FirstRejection(payloads, save).None? ==>
              posts == old(posts) + payloads && responseMessages == old(responseMessages) + UpdatedMessage)
        && (FirstRejection(payloads, save).Some? ==>
              responseMessages == SaveFailLog(old(responseMessages)) && err == Some(responseMessages))
    {
      err := CreateParameterCategory(save);
      if err.Some? {
        return err;
      }
      PostedStopsAtFirstRejection(Payloads(parameterList), save);
      responseMessages := responseMessages + UpdatedMessage;
    }

    /**
     * automate_parameter_category. When it succeeds the list holds the
     * sheet's records; every record's payload was posted exactly when the
     * sheet's names and the names found differ in some direction.
     */
    method AutomateParameterCategory(df: Table, search: string -> Response<CategoryRow>, save: CategoryPayload -> nat)
      returns (ok: bool)
      requires Normalised(df)
      modifies this
      ensures var loaded := |df| > 0 && Convert(CategoryPolicy, df).error.None?;
        && parameterList ==
             (if |df| == 0 || Early(Convert(CategoryPolicy, df)) then old(parameterList) else Convert(CategoryPolicy, df).records)
        && (!loaded ==>
              !ok && posts == old(posts)
              && var b := LoadFailLog(old(responseMessages), df); responseMessages == b + AutomatePrefix + b + "\n")
      ensures |df| > 0 && Convert(CategoryPolicy, df).error.None? ==>
        var found := Found(parameterList, search);
        var names := LowerFields(parameterList, "tag_category_name");
        var existing := ExistingNames(found.hits);
        var payloads := Payloads(parameterList);
        var creates := found.stop.SearchDone? && names.Success? && !SameNames(names.value, existing);
        && (ok <==> found.stop.SearchDone? && names.Success? && (creates ==> FirstRejection(payloads, save).None?))
        && (!creates ==> posts == old(posts))
        && (!found.stop.SearchDone? ==>
              var b := SearchFailLog(old(responseMessages), found.stop); responseMessages == b + AutomatePrefix + b + "\n")
        && (found.stop.SearchDone? && names.Failure? ==>
              responseMessages == old(responseMessages) + AutomatePrefix + FaultText(names.error) + "\n")
        && (found.stop.SearchDone? && names.Success? && SameNames(names.value, existing) ==>
              responseMessages == old(responseMessages) + ExistsMessage)
        && (creates ==>
              posts == old(posts) + Posted(payloads, save)
              && (FirstRejection(payloads, save).None? ==>
                    posts == old(posts) + payloads && responseMessages == old(responseMessages) + UpdatedMessage)
              && (FirstRejection(payloads, save).Some? ==>
                    var b := SaveFailLog(old(responseMessages)); responseMessages == b + AutomatePrefix + b + "\n"))
    {
      var err := LoadSheet(df);
      if err.Some? {
        Fail(err.value);
        return false;
      }
      err := Synchronise(search, save);
      if err.Some? {
        Fail(err.value);
        return false;
      }
      return true;
    }
  }
}
