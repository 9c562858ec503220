/**
 * `scripts/core/handlers/unit_groups.py`: the Unit Groups sheet is read,
 * grouped on its first column and converted to one record per unit group;
 * the platform is searched for each group by name, and when the names on
 * the sheet and the names found differ in either direction, every record is
 * posted through the shared module-level payload template.
 */
module UnitGroups {
  import opened Wrappers
  import opened Text
  import opened Sheet
  import opened Metadata
  import opened Remote

  /** `UnitConstants.unit_group_meta_data`. */
  const UnitGroupLabels: map<string, string> :=
    map["unit group name" := "unit_group_name", "description" := "description"]

  const UnitGroupPolicy := Policy(
    UnitGroupLabels, 0,
    [Required("unit_group_name", NaNOnly, Fixed("Unit Group Name is missing\n"))],
    true, true)

  /** A row of the unit group listing (`bodyContent`). */
  datatype UnitGroupRow = UnitGroupRow(unitGroupName: string)

  /** The fields of `UnitConstants.unit_groups_payload` that the handler writes. */
  datatype UnitGroupPayload = UnitGroupPayload(unitGroupName: Cell, description: Cell)

  /** `UnitConstants.unit_groups_payload`: one dictionary shared by every save, never copied. */
  class UnitGroupTemplate {
    var payload: UnitGroupPayload

    constructor()
      ensures payload == UnitGroupPayload(Some(""), Some(""))
    {
      payload := UnitGroupPayload(Some(""), Some(""));
    }
  }

  /** The two assignments into the template for one record; a missing key stops after the first. */
  function Fill(tpl: UnitGroupPayload, rec: Record): (r: (UnitGroupPayload, Option<Fault>)) {
    if "unit_group_name" !in rec then (tpl, Some(KeyMissing("unit_group_name")))
    else
      var named := tpl.(unitGroupName := rec["unit_group_name"]);
      if "description" !in rec then (named, Some(KeyMissing("description")))
      else (named.(description := rec["description"]), None)
  }

  /** The template, the payloads posted and how the create loop ended, after n records. */
  datatype SaveRun = SaveRun(template: UnitGroupPayload, sent: seq<UnitGroupPayload>, stop: SaveStop)

  function CreateRun(tpl: UnitGroupPayload, records: seq<Record>, save: UnitGroupPayload -> nat, n: nat): (s: SaveRun)
    requires n <= |records|
    ensures |s.sent| <= n
  {
    if n == 0 then SaveRun(tpl, [], Saved)
    else
      var prev := CreateRun(tpl, records, save, n - 1);
      if !prev.stop.Saved? then prev else FillAndSave(prev, records[n - 1], save)
  }

  /** One pass of the create_unit loop: fill the shared template from the record, then post it. */
  function FillAndSave(prev: SaveRun, rec: Record, save: UnitGroupPayload -> nat): (r: SaveRun)
    ensures r.template == Fill(prev.template, rec).0
    ensures r.sent == prev.sent || r.sent == prev.sent + [r.template]
    ensures r.stop.Saved? <==> r.sent == prev.sent + [r.template] && save(r.template) == OK
    ensures r.stop.SaveFault? <==> r.sent == prev.sent
  {
    var (filled, fault) := Fill(prev.template, rec);
    if fault.Some? then SaveRun(filled, prev.sent, SaveFault(fault.value))
    else if save(filled) != OK then SaveRun(filled, prev.sent + [filled], SaveRejected(save(filled)))
    else SaveRun(filled, prev.sent + [filled], Saved)
  }

  /** A run that has not stopped goes on with the next record. */
  lemma CreateRunNext(tpl: UnitGroupPayload, records: seq<Record>, save: UnitGroupPayload -> nat, n: nat)
    requires n < |records| && CreateRun(tpl, records, save, n).stop.Saved?
    ensures CreateRun(tpl, records, save, n + 1) == FillAndSave(CreateRun(tpl, records, save, n), records[n], save)
  {
  }

  /**
   * Reusing one template leaks nothing between records: every payload the
   * loop posts carries exactly the name and description of its own record,
   * in record order, and only a rejection or a missing key stops the loop.
   */
  lemma {:induction false} CreateRunPostsOwnRecord(tpl: UnitGroupPayload, records: seq<Record>, save: UnitGroupPayload -> nat, n: nat)
    requires n <= |records|
    ensures var s := CreateRun(tpl, records, save, n);
      && (forall k :: 0 <= k < |s.sent| ==>
            "unit_group_name" in records[k] && "description" in records[k]
            && s.sent[k] == UnitGroupPayload(records[k]["unit_group_name"], records[k]["description"]))
      && (s.stop.Saved? ==> |s.sent| == n && forall k :: 0 <= k < n ==> save(s.sent[k]) == OK)
      && (s.stop.SaveRejected? ==> |s.sent| > 0 && save(s.sent[|s.sent| - 1]) == s.stop.status != OK)
    decreases n
  {
    if n > 0 {
      CreateRunPostsOwnRecord(tpl, records, save, n - 1);
    }
  }

  lemma {:induction false} CreateRunStaysStopped(tpl: UnitGroupPayload, records: seq<Record>, save: UnitGroupPayload -> nat, n: nat, m: nat)
    requires n <= m <= |records| && !CreateRun(tpl, records, save, n).stop.Saved?
    ensures CreateRun(tpl, records, save, m) == CreateRun(tpl, records, save, n)
    decreases m
  {
    if m > n {
      CreateRunStaysStopped(tpl, records, save, n, m - 1);
    }
  }

  const AutomatePrefix := "Error while automating unit: "
  const ExtractPrefix := "Error while extracting unit data: "
  const ConvertPrefix := "Error while converting unit metadata to dict: "
  const SavePrefix := "Error while updating the unit data: "

  function CreatedMessage(names: seq<string>): string {
    "Created unit groups Information: " + ListRepr(names) + "\n"
  }

  function ExistsMessage(existing: seq<string>): string {
    "Unit groups Information Exists: " + ListRepr(existing) + "\n"
  }

  /** The buffer after the sheet half fails: no group to stitch, or a row that does not convert. */
  function LoadFailLog(before: string, df: Table): string
    requires Rectangular(df)
  {
    var c := Convert(UnitGroupPolicy, df);
    if |df| == 0 then before + ExtractPrefix + NoObjectsToConcatenate + "\n"
    else if c.error.Some? then ConvertFailureLog(before, ConvertPrefix, UnitGroupPolicy, c.error.value)
    else before
  }

  /** The buffer after the lookup loop stops early. */
  function SearchFailLog(before: string, stop: SearchStop): string {
    if stop.SearchRejected? then before + "Failed to fetch unit group data. " + StatusReport(stop.status, stop.text) + "\n"
    else before
  }

  /** The buffer after the create loop stops early. */
  function SaveFailLog(before: string, stop: SaveStop): string {
    match stop
    case Saved => before
    case SaveRejected(status) =>
      var b := before + "Failed to fetch unit data\n";
      b + SavePrefix + HttpErrorText(status, b) + "\n"
    case SaveFault(f) => before + SavePrefix + FaultText(f) + "\n"
  }

  /** `[g["unit_group_name"].lower() for g in unit_category_data]`. */
  function ExistingNames(rows: seq<UnitGroupRow>): (names: seq<string>)
    ensures |names| == |rows| && forall k :: 0 <= k < |rows| ==> names[k] == Lower(rows[k].unitGroupName)
  {
    seq(|rows|, k requires 0 <= k < |rows| => Lower(rows[k].unitGroupName))
  }

  /** The unit groups found on the platform for the records. */
  function Found(records: seq<Record>, search: string -> Response<UnitGroupRow>): Searched<UnitGroupRow> {
    SearchRun(Queries(records, "unit_group_name"), search, |records|)
  }

  class UnitGroupsHandler {
    var unitList: seq<Record>
    var responseMessages: string
    const template: UnitGroupTemplate
    /** Every payload posted to the save endpoint, in order. */
    ghost var posts: seq<UnitGroupPayload>

    constructor(template: UnitGroupTemplate, responseMessages: string)
      ensures this.template == template && this.responseMessages == responseMessages
      ensures unitList == [] && posts == []
    {
      this.template := template;
      this.responseMessages := responseMessages;
      unitList := [];
      posts := [];
    }

    /** extract_unit_data: the groups stitched back together, or pandas' error for no group. */
    method ExtractUnitData(groups: seq<seq<nat>>, df: Table) returns (r: Result<Table, string>)
      requires forall g, k :: 0 <= g < |groups| && 0 <= k < |groups[g]| ==> groups[g][k] < |df|
      modifies this
      ensures unitList == old(unitList) && posts == old(posts)
      ensures |groups| > 0 ==> r == Success(Stitch(df, groups)) && responseMessages == old(responseMessages)
      ensures |groups| == 0 ==>
        responseMessages == old(responseMessages) + ExtractPrefix + NoObjectsToConcatenate + "\n"
        && r == Failure(responseMessages)
    {
      var extracted := ExtractGroups(df, groups, NoObjectsToConcatenate);
      if extracted.Failure? {
        responseMessages := responseMessages + ExtractPrefix + extracted.error + "\n";
        return Failure(responseMessages);
      }
      return extracted;
    }

    /** convert_unit_metadata_to_dict: records are appended to the list, which is never reset. */
    method ConvertUnitMetadataToDict(df: Table) returns (err: Option<string>)
      requires Rectangular(df)
      modifies this
      ensures var c := Convert(UnitGroupPolicy, df);
        && unitList == old(unitList) + c.records
        && posts == old(posts)
        && (c.error.None? ==> err.None? && responseMessages == old(responseMessages))
        && (c.error.Some? ==>
              responseMessages == ConvertFailureLog(old(responseMessages), ConvertPrefix, UnitGroupPolicy, c.error.value)
              && err == Some(responseMessages))
    {
      var records, error := ConvertTable(UnitGroupPolicy, df);
      unitList := unitList + records;
      if error.Some? {
        responseMessages := ConvertFailureLog(responseMessages, ConvertPrefix, UnitGroupPolicy, error.value);
        return Some(responseMessages);
      }
      return None;
    }

    /** list_unit_group_exits: the first listed group for each record's name. */
    method ListUnitGroupExits(search: string -> Response<UnitGroupRow>) returns (hits: seq<UnitGroupRow>, err: Option<string>)
      modifies this
      ensures var s := Found(unitList, search);
        && unitList == old(unitList) && posts == old(posts) && hits == s.hits
        && (s.stop.SearchDone? ==> err.None? && responseMessages == old(responseMessages))
        && (!s.stop.SearchDone? ==> responseMessages == SearchFailLog(old(responseMessages), s.stop) && err == Some(responseMessages))
    {
      var stop;
      hits, stop := SearchEach(Queries(unitList, "unit_group_name"), search);
      if stop.SearchDone? {
        err := None;
      } else {
        responseMessages := SearchFailLog(responseMessages, stop);
        err := Some(responseMessages);
      }
    }

    /** create_unit: every record written into the shared template and posted, until one fails. */
    method CreateUnit(save: UnitGroupPayload -> nat) returns (err: Option<string>)
      modifies this, template
      ensures var s := CreateRun(old(template.payload), unitList, save, |unitList|);
        && unitList == old(unitList)
        && template.payload == s.template
        && posts == old(posts) + s.sent
        && (s.stop.Saved? ==> err.None? && responseMessages == old(responseMessages))
        && (!s.stop.Saved? ==> responseMessages == SaveFailLog(old(responseMessages), s.stop) && err == Some(responseMessages))
    {
      ghost var tpl0 := template.payload;
      ghost var records := unitList;
      ghost var posts0 := posts;
      ghost var run := SaveRun(tpl0, [], Saved);
      for i := 0 to |unitList|
        invariant unitList == records && responseMessages == old(responseMessages)
        invariant run == CreateRun(tpl0, records, save, i)
        invariant run.stop.Saved? && template.payload == run.template && posts == posts0 + run.sent
      {
        var stop;
        stop, run := PostRecord(i, save, tpl0, run, posts0);
        if !stop.Saved? {
          CreateRunStaysStopped(tpl0, records, save, i + 1, |records|);
          responseMessages := SaveFailLog(responseMessages, stop);
          return Some(responseMessages);
        }
      }
      return None;
    }

    /** One pass of the create_unit loop: fill the shared template from record i and post it. */
    method PostRecord(i: nat, save: UnitGroupPayload -> nat,
                      ghost tpl0: UnitGroupPayload, ghost run: SaveRun, ghost posts0: seq<UnitGroupPayload>)
      returns (stop: SaveStop, ghost next: SaveRun)
      requires i < |unitList| && run == CreateRun(tpl0, unitList, save, i) && run.stop.Saved?
      requires template.payload == run.template && posts == posts0 + run.sent
      modifies this, template
      ensures unitList == old(unitList) && responseMessages == old(responseMessages)
      ensures next == CreateRun(tpl0, unitList, save, i + 1) && stop == next.stop
      ensures template.payload == next.template && posts == posts0 + next.sent
    {
      CreateRunNext(tpl0, unitList, save, i);
      next := FillAndSave(run, unitList[i], save);
      var (filled, fault) := Fill(template.payload, unitList[i]);
      template.payload := filled;
      if fault.Some? {
        return SaveFault(fault.value), next;
      }
      var status := save(template.payload);
      posts := posts + [template.payload];
      if status != OK {
        return SaveRejected(status), next;
      }
      return Saved, next;
    }

    /** The `except` clause of automate_unit_groups. */
    method Fail(e: string)
      modifies this
      ensures responseMessages == old(responseMessages) + AutomatePrefix + e + "\n"
      ensures unitList == old(unitList) && posts == old(posts)
    {
      responseMessages := responseMessages + AutomatePrefix + e + "\n";
    }

    /**
     * The sheet half of automate_unit_groups: group the rows on the first
     * column, stitch the groups together and convert them to records.
     */
    method LoadSheet(df: Table) returns (err: Option<string>)
      requires Normalised(df)
      modifies this
      ensures posts == old(posts)
      ensures err.None? <==> |df| > 0 && Convert(UnitGroupPolicy, df).error.None?
      ensures unitList == old(unitList) + (if |df| > 0 then Convert(UnitGroupPolicy, df).records else [])
      ensures err.None? ==> responseMessages == old(responseMessages)
      ensures err.Some? ==> responseMessages == LoadFailLog(old(responseMessages), df) && err == Some(responseMessages)
    {
      var groups := GroupMergedRows(df, 0);
      var extracted := ExtractUnitData(groups, df);
      ExtractGroupingOfTable(df, 0, groups, NoObjectsToConcatenate);
      if extracted.Failure? {
        return Some(extracted.error);
      }
      err := ConvertUnitMetadataToDict(extracted.value);
    }

    /**
     * The platform half of automate_unit_groups: look the groups up, compare
     * the names both ways, and post every record when they differ.
     */
    method Synchronise(search: string -> Response<UnitGroupRow>, save: UnitGroupPayload -> nat) returns (err: Option<string>)
      modifies this, template
      ensures unitList == old(unitList)
      ensures var found := Found(unitList, search);
        var names := LowerFields(unitList, "unit_group_name");
        var existing := ExistingNames(found.hits);
        var run := CreateRun(old(template.payload), unitList, save, |unitList|);
        && (err.None? <==> found.stop.SearchDone? && names.Success? && (SameNames(names.value, existing) || run.stop.Saved?))
        && (!found.stop.SearchDone? ==>
              posts == old(posts) && template.payload == old(template.payload)
              && responseMessages == SearchFailLog(old(responseMessages), found.stop) && err == Some(responseMessages))
        && (found.stop.SearchDone? && names.Failure? ==>
              posts == old(posts) && template.payload == old(template.payload)
              && responseMessages == old(responseMessages) && err == Some(FaultText(names.error)))
        && (found.stop.SearchDone? && names.Success? && SameNames(names.value, existing) ==>
              posts == old(posts) && template.payload == old(template.payload)
              && responseMessages == old(responseMessages) + ExistsMessage(existing))
        && (found.stop.SearchDone? && names.Success? && !SameNames(names.value, existing) ==>
              posts == old(posts) + run.sent && template.payload == run.template
              && (run.stop.Saved? ==>
                    |posts| == |old(posts)| + |unitList| && responseMessages == old(responseMessages) + CreatedMessage(names.value))
              && (!run.stop.Saved? ==> responseMessages == SaveFailLog(old(responseMessages), run.stop) && err == Some(responseMessages)))
    {
      var hits;
      hits, err := ListUnitGroupExits(search);
      if err.Some? {
        return err;
      }
      var existing := ExistingNames(hits);
      var names := LowerFields(unitList, "unit_group_name");
      if names.Failure? {
        return Some(FaultText(names.error));
      }
      var added := ListDifference(names.value, existing);
      var removed := ListDifference(existing, names.value);
      NoDifferenceIffSameNames(names.value, existing);
      if added != [] || removed != [] {
        err := CreateAndReport(names.value, save);
      } else {
        responseMessages := responseMessages + ExistsMessage(existing);
      }
    }

    /** The creating branch of automate_unit_groups: every record is posted, then the sheet's names are reported. */
    method CreateAndReport(names: seq<string>, save: UnitGroupPayload -> nat) returns (err: Option<string>)
      modifies this, template
      ensures unitList == old(unitList)
      ensures var run := CreateRun(old(template.payload), unitList, save, |unitList|);
        && posts == old(posts) + run.sent && template.payload == run.template
        && (err.None? <==> run.stop.Saved?)
        && (run.stop.Saved? ==> |posts| == |old(posts)| + |unitList| && responseMessages == old(responseMessages) + CreatedMessage(names))
        && (!run.stop.Saved? ==> responseMessages == SaveFailLog(old(responseMessages), run.stop) && err == Some(responseMessages))
    {
      err := CreateUnit(save);
      if err.Some? {
        return err;
      }
      CreateRunPostsOwnRecord(old(template.payload), unitList, save, |unitList|);
      responseMessages := responseMessages + CreatedMessage(names);
    }

    /**
     * automate_unit_groups. When it succeeds, the sheet's records were added
     * to the list, and the groups were all posted exactly when the sheet's
     * names and the names found differ in some direction; otherwise nothing
     * was posted and the existing names were reported.
     */
    method AutomateUnitGroups(df: Table, search: string -> Response<UnitGroupRow>, save: UnitGroupPayload -> nat)
      returns (ok: bool)
      requires Normalised(df)
      modifies this, template
      ensures var loaded := |df| > 0 && Convert(UnitGroupPolicy, df).error.None?;
        && unitList == old(unitList) + (if |df| > 0 then Convert(UnitGroupPolicy, df).records else [])
        && (!loaded ==>
              !ok && posts == old(posts) && template.payload == old(template.payload)
              && var b := LoadFailLog(old(responseMessages), df); responseMessages == b + AutomatePrefix + b + "\n")
      ensures |df| > 0 && Convert(UnitGroupPolicy, df).error.None? ==>
        var found := Found(unitList, search);
        var names := LowerFields(unitList, "unit_group_name");
        var existing := ExistingNames(found.hits);
        var run := CreateRun(old(template.payload), unitList, save, |unitList|);
        && (ok <==> found.stop.SearchDone? && names.Success? && (SameNames(names.value, existing) || run.stop.Saved?))
        && (!found.stop.SearchDone? ==>
              posts == old(posts) && template.payload == old(template.payload)
              && var b := SearchFailLog(old(responseMessages), found.stop); responseMessages == b + AutomatePrefix + b + "\n")
        && (found.stop.SearchDone? && names.Failure? ==>
              posts == old(posts) && template.payload == old(template.payload)
              && responseMessages == old(responseMessages) + AutomatePrefix + FaultText(names.error) + "\n")
        && (found.stop.SearchDone? && names.Success? && SameNames(names.value, existing) ==>
              posts == old(posts) && template.payload == old(template.payload)
              && responseMessages == old(responseMessages) + ExistsMessage(existing))
        && (found.stop.SearchDone? && names.Success? && !SameNames(names.value, existing) ==>
              posts == old(posts) + run.sent && template.payload == run.template
              && (run.stop.Saved? ==>
                    |posts| == |old(posts)| + |unitList| && responseMessages == old(responseMessages) + CreatedMessage(names.value))
              && (!run.stop.Saved? ==>
                    var b := SaveFailLog(old(responseMessages), run.stop); responseMessages == b + AutomatePrefix + b + "\n"))
    {
      var err := LoadSheet(df);
      if err.Some? {
        Fail(err.value);
        return false;
      }
      err := Synchronise(search, save);
      if err.Some? {
        Fail(err.value);
        return false;
      }
      return true;
    }
  }
}
