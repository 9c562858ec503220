/**
 * `scripts/core/handlers/units_handler.py`: the Units sheet becomes one
 * record per unit; units are looked up by name and the unit groups listed.
 * Creation needs both a unit difference and a unit-group difference, and
 * then posts every record once per listed group that the sheet names,
 * through the shared module-level payload template.
 */
module Units {
  import opened Wrappers
  import opened Text
  import opened Sheet
  import opened Metadata
  import opened Remote

  /** `UnitConstants.units_meta_data`. */
  const UnitLabels: map<string, string> :=
    map["name" := "name", "notation" := "notation", "unit group" := "unit_group_name"]

  const UnitPolicy := Policy(
    UnitLabels, 0,
    [Required("name", NaNOnly, Fixed("Units is missing\n"))],
    true, true)

  /** A row of the unit search (`bodyContent`). */
  datatype UnitRow = UnitRow(unit: string)

  /** An entry of the unit group listing (`data`). */
  datatype GroupOption = GroupOption(caption: string, value: string)

  /** The fields of `UnitConstants.units_payload` that the handler writes. */
  datatype UnitPayload = UnitPayload(name: Cell, notation: Cell, unitGroupName: Cell, unitGroupId: string)

  /** `UnitConstants.units_payload`: one dictionary shared by every save, never copied. */
  class UnitTemplate {
    var payload: UnitPayload

    constructor()
      ensures payload == UnitPayload(Some(""), Some(""), Some(""), "")
    {
      payload := UnitPayload(Some(""), Some(""), Some(""), "");
    }
  }

  /** The four assignments into the template for one record; a missing key stops where it occurs. */
  function Fill(tpl: UnitPayload, rec: Record, groupId: string): (UnitPayload, Option<Fault>) {
    if "name" !in rec then (tpl, Some(KeyMissing("name")))
    else
      var t1 := tpl.(name := rec["name"]);
      if "notation" !in rec then (t1, Some(KeyMissing("notation")))
      else
        var t2 := t1.(notation := rec["notation"]);
        if "unit_group_name" !in rec then (t2, Some(KeyMissing("unit_group_name")))
        else (t2.(unitGroupName := rec["unit_group_name"], unitGroupId := groupId), None)
  }

  datatype SaveRun = SaveRun(template: UnitPayload, sent: seq<UnitPayload>, stop: SaveStop)

  /** One create_unit call for the group `groupId`, over the first n records. */
  function CreateRun(tpl: UnitPayload, records: seq<Record>, groupId: string, save: UnitPayload -> nat, n: nat): (s: SaveRun)
    requires n <= |records|
    ensures |s.sent| <= n
  {
    if n == 0 then SaveRun(tpl, [], Saved)
    else
      var prev := CreateRun(tpl, records, groupId, save, n - 1);
      if !prev.stop.Saved? then prev else FillAndSave(prev, records[n - 1], groupId, save)
  }

  /** One pass of the create_unit loop: fill the shared template from the record, then post it. */
  function FillAndSave(prev: SaveRun, rec: Record, groupId: string, save: UnitPayload -> nat): (r: SaveRun)
    ensures r.template == Fill(prev.template, rec, groupId).0
    ensures r.sent == prev.sent || r.sent == prev.sent + [r.template]
    ensures r.stop.Saved? <==> r.sent == prev.sent + [r.template] && save(r.template) == OK
    ensures r.stop.SaveFault? <==> r.sent == prev.sent
  {
    var (filled, fault) := Fill(prev.template, rec, groupId);
    if fault.Some? then SaveRun(filled, prev.sent, SaveFault(fault.value))
    else if save(filled) != OK then SaveRun(filled, prev.sent + [filled], SaveRejected(save(filled)))
    else SaveRun(filled, prev.sent + [filled], Saved)
  }

  /** A run that has not stopped goes on with the next record. */
  lemma CreateRunNext(tpl: UnitPayload, records: seq<Record>, groupId: string, save: UnitPayload -> nat, n: nat)
    requires n < |records| && CreateRun(tpl, records, groupId, save, n).stop.Saved?
    ensures CreateRun(tpl, records, groupId, save, n + 1)
      == FillAndSave(CreateRun(tpl, records, groupId, save, n), records[n], groupId, save)
  {
  }

  lemma {:induction false} CreateRunStaysStopped(tpl: UnitPayload, records: seq<Record>, groupId: string, save: UnitPayload -> nat, n: nat, m: nat)
    requires n <= m <= |records| && !CreateRun(tpl, records, groupId, save, n).stop.Saved?
    ensures CreateRun(tpl, records, groupId, save, m) == CreateRun(tpl, records, groupId, save, n)
    decreases m
  {
    if m > n {
      CreateRunStaysStopped(tpl, records, groupId, save, n, m - 1);
    }
  }

  predicate HasUnitKeys(rec: Record) {
    "name" in rec && "notation" in rec && "unit_group_name" in rec
  }

  /** The payload a record is posted with under a group id. */
  function PayloadOf(rec: Record, groupId: string): UnitPayload
    requires HasUnitKeys(rec)
  {
    UnitPayload(rec["name"], rec["notation"], rec["unit_group_name"], groupId)
  }

  /** Every record, in order, under one group id. */
  function AllPayloads(records: seq<Record>, groupId: string): (ps: seq<UnitPayload>)
    requires forall k :: 0 <= k < |records| ==> HasUnitKeys(records[k])
    ensures |ps| == |records|
  {
    seq(|records|, k requires 0 <= k < |records| => PayloadOf(records[k], groupId))
  }

  /**
   * One create_unit call posts the records in order, each carrying its own
   * name, notation and group name and the group id of the call, whatever
   * the template held before; when it completes it has posted every record.
   */
  lemma {:induction false} CreateRunPostsEveryRecord(tpl: UnitPayload, records: seq<Record>, groupId: string, save: UnitPayload -> nat, n: nat)
    requires n <= |records|
    ensures var s := CreateRun(tpl, records, groupId, save, n);
      && (forall k :: 0 <= k < |s.sent| ==> HasUnitKeys(records[k]) && s.sent[k] == PayloadOf(records[k], groupId))
      && (s.stop.Saved? ==> |s.sent| == n)
      && (s.stop.SaveRejected? ==> |s.sent| > 0 && save(s.sent[|s.sent| - 1]) == s.stop.status != OK)
    decreases n
  {
    if n > 0 {
      CreateRunPostsEveryRecord(tpl, records, groupId, save, n - 1);
      CreateRunPostsStep(tpl, records, groupId, save, n);
    }
  }

  /** The inductive step of CreateRunPostsEveryRecord: its facts about n - 1 records carry over to n. */
  lemma CreateRunPostsStep(tpl: UnitPayload, records: seq<Record>, groupId: string, save: UnitPayload -> nat, n: nat)
    requires 0 < n <= |records|
    requires var s := CreateRun(tpl, records, groupId, save, n - 1);
      && (forall k :: 0 <= k < |s.sent| ==> HasUnitKeys(records[k]) && s.sent[k] == PayloadOf(records[k], groupId))
      && (s.stop.Saved? ==> |s.sent| == n - 1)
      && (s.stop.SaveRejected? ==> |s.sent| > 0 && save(s.sent[|s.sent| - 1]) == s.stop.status != OK)
    ensures var s := CreateRun(tpl, records, groupId, save, n);
      && (forall k :: 0 <= k < |s.sent| ==> HasUnitKeys(records[k]) && s.sent[k] == PayloadOf(records[k], groupId))
      && (s.stop.Saved? ==> |s.sent| == n)
      && (s.stop.SaveRejected? ==> |s.sent| > 0 && save(s.sent[|s.sent| - 1]) == s.stop.status != OK)
  {
    var prev := CreateRun(tpl, records, groupId, save, n - 1);
    var s := CreateRun(tpl, records, groupId, save, n);
    if prev.stop.Saved? {
      CreateRunPostsNext(tpl, records, groupId, save, n);
      if s.sent != prev.sent {
        forall k | 0 <= k < |s.sent|
          ensures HasUnitKeys(records[k]) && s.sent[k] == PayloadOf(records[k], groupId)
        {
          if k < |prev.sent| {
            assert s.sent[k] == prev.sent[k];
          }
        }
      }
    } else {
      assert s == prev;
    }
  }

  /** A run that has not stopped either faults at record n - 1 without posting or posts exactly its payload. */
  lemma CreateRunPostsNext(tpl: UnitPayload, records: seq<Record>, groupId: string, save: UnitPayload -> nat, n: nat)
    requires 0 < n <= |records| && CreateRun(tpl, records, groupId, save, n - 1).stop.Saved?
    ensures var prev := CreateRun(tpl, records, groupId, save, n - 1);
      var s := CreateRun(tpl, records, groupId, save, n);
      || (s.stop.SaveFault? && s.sent == prev.sent)
      || (HasUnitKeys(records[n - 1]) && s.sent == prev.sent + [PayloadOf(records[n - 1], groupId)]
          && (s.stop.Saved? <==> save(PayloadOf(records[n - 1], groupId)) == OK)
          && (s.stop.SaveRejected? ==> s.stop.status == save(PayloadOf(records[n - 1], groupId))))
  {
    CreateRunNext(tpl, records, groupId, save, n - 1);
    FillAndSavePostsRecord(CreateRun(tpl, records, groupId, save, n - 1), records[n - 1], groupId, save);
  }

  /** One pass either faults before posting or posts exactly the record's own payload. */
  lemma FillAndSavePostsRecord(prev: SaveRun, rec: Record, groupId: string, save: UnitPayload -> nat)
    ensures var s := FillAndSave(prev, rec, groupId, save);
      || (s.stop.SaveFault? && s.sent == prev.sent)
      || (HasUnitKeys(rec) && s.sent == prev.sent + [PayloadOf(rec, groupId)]
          && (s.stop.Saved? <==> save(PayloadOf(rec, groupId)) == OK)
          && (s.stop.SaveRejected? ==> s.stop.status == save(PayloadOf(rec, groupId))))
  {
  }

  /** The template, the payloads and the "Created Units" messages of the loop over listed groups. */
  datatype GroupsRun = GroupsRun(template: UnitPayload, sent: seq<UnitPayload>, stop: SaveStop, log: string)

  function CreatedMessage(caption: string): string {
    "Created Units: " + caption + "\n"
  }

  /** One pass of the loop over listed groups, from a run that has not stopped. */
  function WantedStep(tpl: UnitPayload, records: seq<Record>, g: GroupOption, wanted: seq<string>,
                      save: UnitPayload -> nat): GroupsRun
  {
    if Lower(g.caption) !in wanted then GroupsRun(tpl, [], Saved, "")
    else
      var s := CreateRun(tpl, records, g.value, save, |records|);
      GroupsRun(s.template, s.sent, s.stop, if s.stop.Saved? then CreatedMessage(g.caption) else "")
  }

  /** A run followed by one more pass. */
  function Then(a: GroupsRun, b: GroupsRun): GroupsRun {
    GroupsRun(b.template, a.sent + b.sent, b.stop, a.log + b.log)
  }

  /** The loop over the first n listed groups: create_unit for those the sheet names. */
  function GroupsCreateRun(tpl: UnitPayload, records: seq<Record>, groups: seq<GroupOption>, wanted: seq<string>,
                           save: UnitPayload -> nat, n: nat): GroupsRun
    requires n <= |groups|
  {
    if n == 0 then GroupsRun(tpl, [], Saved, "")
    else
      var prev := GroupsCreateRun(tpl, records, groups, wanted, save, n - 1);
      if !prev.stop.Saved? then prev
      else Then(prev, WantedStep(prev.template, records, groups[n - 1], wanted, save))
  }

  lemma {:induction false} GroupsCreateRunStaysStopped(tpl: UnitPayload, records: seq<Record>, groups: seq<GroupOption>, wanted: seq<string>,
                                                       save: UnitPayload -> nat, n: nat, m: nat)
    requires n <= m <= |groups| && !GroupsCreateRun(tpl, records, groups, wanted, save, n).stop.Saved?
    ensures GroupsCreateRun(tpl, records, groups, wanted, save, m) == GroupsCreateRun(tpl, records, groups, wanted, save, n)
    decreases m
  {
    if m > n {
      GroupsCreateRunStaysStopped(tpl, records, groups, wanted, save, n, m - 1);
    }
  }

  /** A run that has not stopped goes on with the next listed group. */
  lemma GroupsCreateRunNext(tpl: UnitPayload, records: seq<Record>, groups: seq<GroupOption>, wanted: seq<string>,
                            save: UnitPayload -> nat, n: nat)
    requires n < |groups| && GroupsCreateRun(tpl, records, groups, wanted, save, n).stop.Saved?
    ensures var prev := GroupsCreateRun(tpl, records, groups, wanted, save, n);
      GroupsCreateRun(tpl, records, groups, wanted, save, n + 1)
        == Then(prev, WantedStep(prev.template, records, groups[n], wanted, save))
  {
  }

  /** The payloads of a complete run: every record once for each listed group the sheet names, in listing order. */
  function Expected(records: seq<Record>, groups: seq<GroupOption>, wanted: seq<string>, n: nat): seq<UnitPayload>
    requires n <= |groups| && forall k :: 0 <= k < |records| ==> HasUnitKeys(records[k])
  {
    if n == 0 then []
    else
      Expected(records, groups, wanted, n - 1)
      + (if Lower(groups[n - 1].caption) in wanted then AllPayloads(records, groups[n - 1].value) else [])
  }

  /**
   * A run over the listed groups that completes has posted exactly every
   * record once per listed group whose lower-cased label the sheet names.
   */
  lemma {:induction false} GroupsCreateRunPostsExpected(tpl: UnitPayload, records: seq<Record>, groups: seq<GroupOption>, wanted: seq<string>,
                                                        save: UnitPayload -> nat, n: nat)
    requires n <= |groups| && forall k :: 0 <= k < |records| ==> HasUnitKeys(records[k])
    ensures var r := GroupsCreateRun(tpl, records, groups, wanted, save, n);
      r.stop.Saved? ==> r.sent == Expected(records, groups, wanted, n)
    decreases n
  {
    if n > 0 {
      GroupsCreateRunPostsExpected(tpl, records, groups, wanted, save, n - 1);
      var prev := GroupsCreateRun(tpl, records, groups, wanted, save, n - 1);
      var g := groups[n - 1];
      if prev.stop.Saved? && Lower(g.caption) in wanted {
        var s := CreateRun(prev.template, records, g.value, save, |records|);
        CreateRunPostsEveryRecord(prev.template, records, g.value, save, |records|);
        if s.stop.Saved? {
          assert s.sent == AllPayloads(records, g.value);
        }
      }
    }
  }

  const AutomatePrefix := "Error while automating unit: "
  const ExtractPrefix := "Error while extracting unit data: "
  const ConvertPrefix := "Error while converting unit metadata to dict: "
  const SavePrefix := "Error while updating the unit data: "

  /**
   * The messages after create_unit stopped: a rejected save first logs
   * "Failed to fetch unit data" and then reports the HTTPException whose
   * detail is the whole log so far; a fault reports the Python error.
   */
  function SaveLog(before: string, stop: SaveStop): (log: string)
    ensures stop.Saved? <==> log == before
  {
    match stop
    case Saved => before
    case SaveRejected(status) =>
      var b := before + "Failed to fetch unit data\n";
      b + SavePrefix + HttpErrorText(status, b) + "\n"
    case SaveFault(f) => before + SavePrefix + FaultText(f) + "\n"
  }

  /** The buffer after the sheet half fails: no group to stitch, or a row that does not convert. */
  function LoadFailLog(before: string, df: Table): string
    requires Rectangular(df)
  {
    var c := Convert(UnitPolicy, df);
    if |df| == 0 then before + ExtractPrefix + NoObjectsToConcatenate + "\n"
    else if c.error.Some? then ConvertFailureLog(before, ConvertPrefix, UnitPolicy, c.error.value)
    else before
  }

  /** The buffer after the unit lookup loop stops early. */
  function SearchFailLog(before: string, stop: SearchStop): string {
    if stop.SearchRejected? then before + "Failed to fetch unit group data. " + StatusReport(stop.status, stop.text) + "\n"
    else before
  }

  /** The buffer after the unit-group listing is refused. */
  function ListingFailLog(before: string, status: nat, text: string): string {
    before + "Failed to fetch unit data. " + StatusReport(status, text) + "\n"
  }

  /** `{g["unit"].lower() for g in unit_data}`, in first-occurrence order. */
  function ExistingUnits(rows: seq<UnitRow>): (names: seq<string>)
    ensures |names| == |rows| && forall k :: 0 <= k < |rows| ==> names[k] == Lower(rows[k].unit)
  {
    seq(|rows|, k requires 0 <= k < |rows| => Lower(rows[k].unit))
  }

  /** `{c["label"].lower() for c in unit_groups_data}`. */
  function ExistingGroups(groups: seq<GroupOption>): (names: seq<string>)
    ensures |names| == |groups| && forall k :: 0 <= k < |groups| ==> names[k] == Lower(groups[k].caption)
  {
    seq(|groups|, k requires 0 <= k < |groups| => Lower(groups[k].caption))
  }

  /** `{c["unit_group_name"].lower() for c in unit_list if c.get("unit_group_name")}`. */
  function SheetGroups(records: seq<Record>): (names: seq<string>)
    ensures forall x :: x in names <==>
      (exists k :: 0 <= k < |records| && "unit_group_name" in records[k]
        && Truthy(records[k]["unit_group_name"]) && x == Lower(records[k]["unit_group_name"].value))
  {
    if |records| == 0 then []
    else
      var last := records[|records| - 1];
      var init := SheetGroups(records[..|records| - 1]);
      assert forall k :: 0 <= k < |records| - 1 ==> records[..|records| - 1][k] == records[k];
      if "unit_group_name" in last && Truthy(last["unit_group_name"]) then init + [Lower(last["unit_group_name"].value)]
      else init
  }

  /** The units found on the platform for the records. */
  function Found(records: seq<Record>, search: string -> Response<UnitRow>): Searched<UnitRow> {
    SearchRun(Queries(records, "name"), search, |records|)
  }

  class UnitsHandler {
    var unitList: seq<Record>
    var responseMessages: string
    const template: UnitTemplate
    /** Every payload posted to the save endpoint, in order. */
    ghost var posts: seq<UnitPayload>

    constructor(template: UnitTemplate, responseMessages: string)
      ensures this.template == template && this.responseMessages == responseMessages
      ensures unitList == [] && posts == []
    {
      this.template := template;
      this.responseMessages := responseMessages;
      unitList := [];
      posts := [];
    }

    /** extract_unit_data: the groups stitched back together, or pandas' error for no group. */
    method ExtractUnitData(groups: seq<seq<nat>>, df: Table) returns (r: Result<Table, string>)
      requires forall g, k :: 0 <= g < |groups| && 0 <= k < |groups[g]| ==> groups[g][k] < |df|
      modifies this
      ensures unitList == old(unitList) && posts == old(posts)
      ensures |groups| > 0 ==> r == Success(Stitch(df, groups)) && responseMessages == old(responseMessages)
      ensures |groups| == 0 ==>
        responseMessages == old(responseMessages) + ExtractPrefix + NoObjectsToConcatenate + "\n"
        && r == Failure(responseMessages)
    {
      var extracted := ExtractGroups(df, groups, NoObjectsToConcatenate);
      if extracted.Failure? {
        responseMessages := responseMessages + ExtractPrefix + extracted.error + "\n";
        return Failure(responseMessages);
      }
      return extracted;
    }

    /** convert_unit_metadata_to_dict: records are appended to the list, which is never reset. */
    method ConvertUnitMetadataToDict(df: Table) returns (err: Option<string>)
      requires Rectangular(df)
      modifies this
      ensures var c := Convert(UnitPolicy, df);
        && unitList == old(unitList) + c.records
        && posts == old(posts)
        && (c.error.None? ==> err.None? && responseMessages == old(responseMessages))
        && (c.error.Some? ==>
              responseMessages == ConvertFailureLog(old(responseMessages), ConvertPrefix, UnitPolicy, c.error.value)
              && err == Some(responseMessages))
    {
      var records, error := ConvertTable(UnitPolicy, df);
      unitList := unitList + records;
      if error.Some? {
        responseMessages := ConvertFailureLog(responseMessages, ConvertPrefix, UnitPolicy, error.value);
        return Some(responseMessages);
      }
      return None;
    }

    /** check_unit: the first unit found for each record's name, in record order. */
    method CheckUnit(search: string -> Response<UnitRow>) returns (hits: seq<UnitRow>, err: Option<string>)
      modifies this
      ensures var s := Found(unitList, search);
        && unitList == old(unitList) && posts == old(posts) && hits == s.hits
        && (s.stop.SearchDone? ==> err.None? && responseMessages == old(responseMessages))
        && (!s.stop.SearchDone? ==> responseMessages == SearchFailLog(old(responseMessages), s.stop) && err == Some(responseMessages))
    {
      var stop;
      hits, stop := SearchEach(Queries(unitList, "name"), search);
      if stop.SearchDone? {
        err := None;
      } else {
        responseMessages := SearchFailLog(responseMessages, stop);
        err := Some(responseMessages);
      }
    }

    /**
     * list_unit_group: the listed groups, or `None` where the source returns
     * the tuple `(False, {})` for an empty listing.
     */
    method ListUnitGroup(listing: Response<GroupOption>) returns (groups: Option<seq<GroupOption>>, err: Option<string>)
      modifies this
      ensures unitList == old(unitList) && posts == old(posts)
      ensures listing.status == OK ==>
        (err.None? && responseMessages == old(responseMessages)
         && (groups.Some? <==> |listing.body| > 0) && (groups.Some? ==> groups.value == listing.body))
      ensures listing.status != OK ==>
        responseMessages == ListingFailLog(old(responseMessages), listing.status, listing.text) && err == Some(responseMessages)
    {
      if listing.status != OK {
        responseMessages := ListingFailLog(responseMessages, listing.status, listing.text);
        return None, Some(responseMessages);
      }
      if |listing.body| > 0 {
        return Some(listing.body), None;
      }
      return None, None;
    }

    /** create_unit(group): every record written into the shared template with the group's id, and posted. */
    method CreateUnit(group: GroupOption, save: UnitPayload -> nat) returns (err: Option<string>)
      modifies this, template
      ensures var s := CreateRun(old(template.payload), unitList, group.value, save, |unitList|);
        && unitList == old(unitList)
        && template.payload == s.template
        && posts == old(posts) + s.sent
        && responseMessages == SaveLog(old(responseMessages), s.stop)
        && (err.None? <==> s.stop.Saved?)
        && (err.Some? ==> err.value == responseMessages)
    {
      ghost var tpl0 := template.payload;
      ghost var records := unitList;
      ghost var posts0 := posts;
      ghost var run := SaveRun(tpl0, [], Saved);
      var stop := Saved;
      var i := 0;
      while i < |unitList| && stop.Saved?
        invariant i <= |unitList| && unitList == records && responseMessages == old(responseMessages)
        invariant run == CreateRun(tpl0, records, group.value, save, if stop.Saved? then i else |records|)
        invariant stop == run.stop && template.payload == run.template && posts == posts0 + run.sent
      {
        stop, run := PostRecord(i, group.value, save, tpl0, run, posts0);
        if !stop.Saved? {
          CreateRunStaysStopped(tpl0, records, group.value, save, i + 1, |records|);
        }
        i := i + 1;
      }
      err := ReportStop(stop);
    }

    /** The `except` clauses of create_unit: how the loop stopped, added to the buffer. */
    method ReportStop(stop: SaveStop) returns (err: Option<string>)
      modifies this
      ensures unitList == old(unitList) && posts == old(posts)
      ensures responseMessages == SaveLog(old(responseMessages), stop)
      ensures (err.None? <==> stop.Saved?) && (err.Some? ==> err.value == responseMessages)
    {
      if stop.Saved? {
        return None;
      }
      match stop {
        case SaveFault(f) =>
          responseMessages := responseMessages + SavePrefix + FaultText(f) + "\n";
        case SaveRejected(status) =>
          var b := responseMessages + "Failed to fetch unit data\n";
          responseMessages := b + SavePrefix + HttpErrorText(status, b) + "\n";
      }
      return Some(responseMessages);
    }

    /** One pass of the create_unit loop: fill the shared template from the record and post it. */
    method PostRecord(i: nat, groupId: string, save: UnitPayload -> nat,
                      ghost tpl0: UnitPayload, ghost run: SaveRun, ghost posts0: seq<UnitPayload>)
      returns (stop: SaveStop, ghost next: SaveRun)
      requires i < |unitList| && run == CreateRun(tpl0, unitList, groupId, save, i) && run.stop.Saved?
      requires template.payload == run.template && posts == posts0 + run.sent
      modifies this, template
      ensures unitList == old(unitList) && responseMessages == old(responseMessages)
      ensures next == CreateRun(tpl0, unitList, groupId, save, i + 1) && stop == next.stop
      ensures template.payload == next.template && posts == posts0 + next.sent
    {
      CreateRunNext(tpl0, unitList, groupId, save, i);
      next := FillAndSave(run, unitList[i], groupId, save);
      var (filled, fault) := Fill(template.payload, unitList[i], groupId);
      template.payload := filled;
      if fault.Some? {
        return SaveFault(fault.value), next;
      }
      var status := save(template.payload);
      posts := posts + [template.payload];
      if status != OK {
        return SaveRejected(status), next;
      }
      return Saved, next;
    }

    /**
     * One pass of the loop of automate_units: create_unit for the group when
     * the sheet names it, continuing the run of the passes before it.
     */
    method CreateIfWanted(g: GroupOption, wanted: seq<string>, save: UnitPayload -> nat,
                          ghost run: GroupsRun, ghost posts0: seq<UnitPayload>, ghost log0: string)
      returns (err: Option<string>, ghost next: GroupsRun)
      requires run.stop.Saved? && template.payload == run.template
      requires posts == posts0 + run.sent && responseMessages == log0 + run.log
      modifies this, template
      ensures next == Then(run, WantedStep(run.template, unitList, g, wanted, save))
      ensures unitList == old(unitList)
      ensures template.payload == next.template
      ensures posts == posts0 + next.sent
      ensures responseMessages == SaveLog(log0 + next.log, next.stop)
      ensures err.None? <==> next.stop.Saved?
      ensures err.Some? ==> err.value == responseMessages
    {
      err := None;
      next := run;
      if Lower(g.caption) in wanted {
        ghost var s := CreateRun(run.template, unitList, g.value, save, |unitList|);
        err := CreateUnit(g, save);
        next := GroupsRun(s.template, run.sent + s.sent, s.stop,
          if s.stop.Saved? then run.log + CreatedMessage(g.caption) else run.log);
        AppendTwice(posts0, run.sent, s.sent);
        AppendTwice(log0, run.log, CreatedMessage(g.caption));
        if err.None? {
          responseMessages := responseMessages + CreatedMessage(g.caption);
        }
      } else {
        assert run.sent + [] == run.sent && run.log + "" == run.log;
      }
    }

    /** The loop of automate_units over the listed groups, creating under each one the sheet names. */
    method CreateForListedGroups(groups: seq<GroupOption>, wanted: seq<string>, save: UnitPayload -> nat) returns (err: Option<string>)
      modifies this, template
      ensures var r := GroupsCreateRun(old(template.payload), unitList, groups, wanted, save, |groups|);
        && unitList == old(unitList)
        && template.payload == r.template
        && posts == old(posts) + r.sent
        && responseMessages == SaveLog(old(responseMessages) + r.log, r.stop)
        && (err.None? <==> r.stop.Saved?)
        && (err.Some? ==> err.value == responseMessages)
    {
      ghost var tpl0 := template.payload;
      ghost var records := unitList;
      ghost var log0 := responseMessages;
      ghost var posts0 := posts;
      ghost var run := GroupsRun(tpl0, [], Saved, "");
      for i := 0 to |groups|
        invariant unitList == records
        invariant run == GroupsCreateRun(tpl0, records, groups, wanted, save, i)
        invariant run.stop.Saved? && template.payload == run.template
        invariant posts == posts0 + run.sent && responseMessages == log0 + run.log
      {
        GroupsCreateRunNext(tpl0, records, groups, wanted, save, i);
        err, run := CreateIfWanted(groups[i], wanted, save, run, posts0, log0);
        if err.Some? {
          GroupsCreateRunStaysStopped(tpl0, records, groups, wanted, save, i + 1, |groups|);
          return err;
        }
      }
      return None;
    }

    /** The `except` clause of automate_units. */
    method Fail(e: string)
      modifies this
      ensures responseMessages == old(responseMessages) + AutomatePrefix + e + "\n"
      ensures unitList == old(unitList) && posts == old(posts)
    {
      responseMessages := responseMessages + AutomatePrefix + e + "\n";
    }

    /** The sheet half of automate_units: grouping, stitching and conversion. */
    method LoadSheet(df: Table) returns (err: Option<string>)
      requires Normalised(df)
      modifies this
      ensures posts == old(posts)
      ensures err.None? <==> |df| > 0 && Convert(UnitPolicy, df).error.None?
      ensures unitList == old(unitList) + (if |df| > 0 then Convert(UnitPolicy, df).records else [])
      ensures err.None? ==> responseMessages == old(responseMessages)
      ensures err.Some? ==> responseMessages == LoadFailLog(old(responseMessages), df) && err == Some(responseMessages)
    {
      var groups := GroupMergedRows(df, 0);
      var extracted := ExtractUnitData(groups, df);
      ExtractGroupingOfTable(df, 0, groups, NoObjectsToConcatenate);
      if extracted.Failure? {
        return Some(extracted.error);
      }
      err := ConvertUnitMetadataToDict(extracted.value);
    }

    /**
     * The platform half of automate_units: the two lookups, the unit and
     * unit-group comparisons, and the two-level gate.
     */
    method Synchronise(search: string -> Response<UnitRow>, listing: Response<GroupOption>, save: UnitPayload -> nat)
      returns (err: Option<string>)
      modifies this, template
      ensures unitList == old(unitList)
      ensures var found := Found(unitList, search);
        var names := LowerFields(unitList, "name");
        var existingUnits := ExistingUnits(found.hits);
        var existingGroups := ExistingGroups(listing.body);
        var sheetGroups := SheetGroups(unitList);
        var run := GroupsCreateRun(old(template.payload), unitList, listing.body, sheetGroups, save, |listing.body|);
        var reached := found.stop.SearchDone? && listing.status == OK && names.Success? && |listing.body| > 0;
        var creates := reached && !SameNames(names.value, existingUnits) && !SameNames(sheetGroups, existingGroups);
        && (err.None? <==> reached && (creates ==> run.stop.Saved?))
        && (!creates ==> posts == old(posts) && template.payload == old(template.payload))
        && (!found.stop.SearchDone? ==>
              responseMessages == SearchFailLog(old(responseMessages), found.stop) && err == Some(responseMessages))
        && (found.stop.SearchDone? && listing.status != OK ==>
              responseMessages == ListingFailLog(old(responseMessages), listing.status, listing.text) && err == Some(responseMessages))
        && (found.stop.SearchDone? && listing.status == OK && names.Failure? ==>
              responseMessages == old(responseMessages) && err == Some(FaultText(names.error)))
        && (found.stop.SearchDone? && listing.status == OK && names.Success? && |listing.body| == 0 ==>
              responseMessages == old(responseMessages) && err == Some(FaultText(BoolNotSubscriptable)))
        && (reached && SameNames(names.value, existingUnits) ==>
              responseMessages == old(responseMessages) + "Units Information Exists: " + SetRepr(existingUnits) + "\n")
        && (reached && !SameNames(names.value, existingUnits) && SameNames(sheetGroups, existingGroups) ==>
              responseMessages == old(responseMessages))
        && (creates ==>
              posts == old(posts) + run.sent && template.payload == run.template
              && responseMessages == SaveLog(old(responseMessages) + run.log, run.stop)
              && (err.Some? ==> err.value == responseMessages))
    {
      var hits;
      hits, err := CheckUnit(search);
      if err.Some? {
        return err;
      }
      var groups;
      groups, err := ListUnitGroup(listing);
      if err.Some? {
        return err;
      }
      var existingUnits := ExistingUnits(hits);
      var names := LowerFields(unitList, "name");
      if names.Failure? {
        return Some(FaultText(names.error));
      }
      if groups.None? {
        return Some(FaultText(BoolNotSubscriptable));
      }
      var existingGroups := ExistingGroups(groups.value);
      var sheetGroups := SheetGroups(unitList);
      var addedUnits := ListDifference(names.value, existingUnits);
      var removedUnits := ListDifference(existingUnits, names.value);
      var addedGroups := ListDifference(sheetGroups, existingGroups);
      var removedGroups := ListDifference(existingGroups, sheetGroups);
      NoDifferenceIffSameNames(names.value, existingUnits);
      NoDifferenceIffSameNames(sheetGroups, existingGroups);
      if addedUnits != [] || removedUnits != [] {
        if addedGroups != [] || removedGroups != [] {
          err := CreateForListedGroups(groups.value, sheetGroups, save);
        }
      } else {
        responseMessages := responseMessages + "Units Information Exists: " + SetRepr(existingUnits) + "\n";
      }
    }

    /**
     * automate_units. When it succeeds: with the same unit names on both
     * sides nothing is posted and the existing units are reported; with
     * different unit names but the same group names nothing is posted and
     * nothing is reported; with both different, every record is posted once
     * per listed group the sheet names.
     */
    method AutomateUnits(df: Table, search: string -> Response<UnitRow>, listing: Response<GroupOption>, save: UnitPayload -> nat)
      returns (ok: bool)
      requires Normalised(df)
      modifies this, template
      ensures var loaded := |df| > 0 && Convert(UnitPolicy, df).error.None?;
        && unitList == old(unitList) + (if |df| > 0 then Convert(UnitPolicy, df).records else [])
        && (!loaded ==>
              !ok && posts == old(posts) && template.payload == old(template.payload)
              && var b := LoadFailLog(old(responseMessages), df); responseMessages == b + AutomatePrefix + b + "\n")
      ensures |df| > 0 && Convert(UnitPolicy, df).error.None? ==>
        var found := Found(unitList, search);
        var names := LowerFields(unitList, "name");
        var existingUnits := ExistingUnits(found.hits);
        var existingGroups := ExistingGroups(listing.body);
        var sheetGroups := SheetGroups(unitList);
        var run := GroupsCreateRun(old(template.payload), unitList, listing.body, sheetGroups, save, |listing.body|);
        var reached := found.stop.SearchDone? && listing.status == OK && names.Success? && |listing.body| > 0;
        var creates := reached && !SameNames(names.value, existingUnits) && !SameNames(sheetGroups, existingGroups);
        && (ok <==> reached && (creates ==> run.stop.Saved?))
        && (!creates ==> posts == old(posts) && template.payload == old(template.payload))
        && (!found.stop.SearchDone? ==>
              var b := SearchFailLog(old(responseMessages), found.stop); responseMessages == b + AutomatePrefix + b + "\n")
        && (found.stop.SearchDone? && listing.status != OK ==>
              var b := ListingFailLog(old(responseMessages), listing.status, listing.text); responseMessages == b + AutomatePrefix + b + "\n")
        && (found.stop.SearchDone? && listing.status == OK && names.Failure? ==>
              responseMessages == old(responseMessages) + AutomatePrefix + FaultText(names.error) + "\n")
        && (found.stop.SearchDone? && listing.status == OK && names.Success? && |listing.body| == 0 ==>
              responseMessages == old(responseMessages) + AutomatePrefix + FaultText(BoolNotSubscriptable) + "\n")
        && (reached && SameNames(names.value, existingUnits) ==>
              responseMessages == old(responseMessages) + "Units Information Exists: " + SetRepr(existingUnits) + "\n")
        && (reached && !SameNames(names.value, existingUnits) && SameNames(sheetGroups, existingGroups) ==>
              responseMessages == old(responseMessages))
        && (creates ==>
              posts == old(posts) + run.sent && template.payload == run.template
              && var b := SaveLog(old(responseMessages) + run.log, run.stop);
              responseMessages == if run.stop.Saved? then b else b + AutomatePrefix + b + "\n")
    {
      var err := LoadSheet(df);
      if err.Some? {
        Fail(err.value);
        return false;
      }
      err := Synchronise(search, listing, save);
      if err.Some? {
        Fail(err.value);
        return false;
      }
      return true;
    }
  }
}
