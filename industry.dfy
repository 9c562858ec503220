/**
 * `scripts/core/handlers/industry_handler.py`: the Industry sheet becomes
 * one record per industry (appended to the handler's list); the industry
 * drop-down of the platform is fetched, and every sheet record whose name
 * is not yet listed is created, one POST per record, so a new name that
 * appears twice on the sheet is posted twice.
 */
module Industry {
  import opened Wrappers
  import opened Text
  import opened Sheet
  import opened Metadata
  import opened Remote

  /** `IndustryConstants.industry_meta_data`. */
  const IndustryLabels: map<string, string> := map["industry name" := "industry", "description" := "description"]

  const IndustryPolicy := Policy(
    IndustryLabels, 0,
    [Required("industry", NaNOrBlank, Numbered("Industry is missing in row number ")),
     Required("description", NaNOrBlank, Numbered("Description is missing in row number "))],
    true, true)

  /** An entry of the industry drop-down. */
  datatype IndustryOption = IndustryOption(industryCategoryName: string)

  /** The fields of `IndustryConstants.create_drop_down` that create_industry writes. */
  datatype IndustryPayload = IndustryPayload(industryCategoryName: Cell, description: Cell)

  /** The payload of one record, fields read with `.get(key, '')`. */
  function PayloadOf(rec: Record): (p: IndustryPayload)
    ensures p.industryCategoryName == (if "industry" in rec then rec["industry"] else Some(""))
    ensures p.description == (if "description" in rec then rec["description"] else Some(""))
  {
    IndustryPayload(GetOr(rec, "industry"), GetOr(rec, "description"))
  }

  function Payloads(records: seq<Record>): (ps: seq<IndustryPayload>)
    ensures |ps| == |records| && forall k :: 0 <= k < |records| ==> ps[k] == PayloadOf(records[k])
  {
    seq(|records|, k requires 0 <= k < |records| => PayloadOf(records[k]))
  }

  lemma PayloadsAppend(a: seq<Record>, b: seq<Record>)
    ensures Payloads(a + b) == Payloads(a) + Payloads(b)
  {
    assert forall k :: 0 <= k < |a| + |b| ==> Payloads(a + b)[k] == (Payloads(a) + Payloads(b))[k];
  }

  /** `[i["industry_category_name"].lower() for i in drop_down_data]`. */
  function ExistingIndustries(rows: seq<IndustryOption>): (names: seq<string>)
    ensures |names| == |rows| && forall k :: 0 <= k < |rows| ==> names[k] == Lower(rows[k].industryCategoryName)
  {
    seq(|rows|, k requires 0 <= k < |rows| => Lower(rows[k].industryCategoryName))
  }

  /** Something is created exactly when some sheet name is not on the platform. */
  lemma CreatesIffNewName(names: seq<string>, existing: seq<string>)
    ensures Without(names, existing) != [] <==> exists k :: 0 <= k < |names| && names[k] !in existing
  {
    WithoutMembers(names, existing);
    if Without(names, existing) != [] {
      assert Without(names, existing)[0] in Without(names, existing);
    }
  }

  const AutomatePrefix := "Error while automating industry: "
  const ExtractPrefix := "Error while extracting industry data: "
  const ConvertPrefix := "Error while converting Industry metadata to dict: "
  const CreatePrefix := "Error while creating industry drop down data: "
  const FetchPrefix := "Error while fetching industry drop down data: "

  function FailedFetch(status: nat, text: string): string {
    "Failed to fetch industry data. " + StatusReport(status, text) + "\n"
  }

  /** The buffer after create_industry is refused with a status and a response text. */
  function RejectLog(before: string, status: nat, text: string): string {
    var b := before + FailedFetch(status, text);
    b + CreatePrefix + HttpErrorText(status, b) + "\n"
  }

  /** The buffer after the drop-down listing is refused. */
  function FetchFailLog(before: string, status: nat, text: string): string {
    var b := before + FailedFetch(status, text);
    b + FetchPrefix + HttpErrorText(status, b) + "\n"
  }

  /** The buffer after the sheet half fails: no group to stitch, or a row that does not convert. */
  function LoadFailLog(before: string, df: Table): string
    requires Rectangular(df)
  {
    var c := Convert(IndustryPolicy, df);
    if |df| == 0 then before + ExtractPrefix + NoValidGroups + "\n"
    else if c.error.Some? then ConvertFailureLog(before, ConvertPrefix, IndustryPolicy, c.error.value)
    else before
  }

  /** The buffer after the creation loop is refused: the refusal of the last payload sent. */
  function CreateFailLog(before: string, sent: seq<IndustryPayload>, saveText: IndustryPayload -> string, save: IndustryPayload -> nat): string
    requires |sent| > 0
  {
    RejectLog(before, save(sent[|sent| - 1]), saveText(sent[|sent| - 1]))
  }

  function CreatedMessage(names: seq<string>): string {
    "Created Industry : " + ListRepr(names) + " "
  }

  function ExistsMessage(existing: seq<string>): string {
    "Industry Information Exists: " + ListRepr(existing) + " "
  }

  class IndustryHandler {
    var industryList: seq<Record>
    var responseMessages: string
    /** Every payload posted to the create endpoint, in order. */
    ghost var posts: seq<IndustryPayload>

    /** `response_messages or ""`. */
    constructor(responseMessages: Option<string>)
      ensures this.responseMessages == (if responseMessages.Some? then responseMessages.value else "")
      ensures industryList == [] && posts == []
    {
      this.responseMessages := if responseMessages.Some? then responseMessages.value else "";
      industryList := [];
      posts := [];
    }

    /** extract_industry_data: the groups stitched back together, or "No valid groups found." */
    method ExtractIndustryData(groups: seq<seq<nat>>, df: Table) returns (r: Result<Table, string>)
      requires forall g, k :: 0 <= g < |groups| && 0 <= k < |groups[g]| ==> groups[g][k] < |df|
      modifies this
      ensures industryList == old(industryList) && posts == old(posts)
      ensures |groups| > 0 ==> r == Success(Stitch(df, groups)) && responseMessages == old(responseMessages)
      ensures |groups| == 0 ==>
        responseMessages == old(responseMessages) + ExtractPrefix + NoValidGroups + "\n"
        && r == Failure(responseMessages)
    {
      var extracted := ExtractGroups(df, groups, NoValidGroups);
      if extracted.Failure? {
        responseMessages := responseMessages + ExtractPrefix + extracted.error + "\n";
        return Failure(responseMessages);
      }
      return extracted;
    }

    /**
     * convert_industry_metadata_to_dict: the list is not reset, so the rows
     * converted before any error are appended to what it held.
     */
    method ConvertIndustryMetadataToDict(df: Table) returns (err: Option<string>)
      requires Rectangular(df)
      modifies this
      ensures var c := Convert(IndustryPolicy, df);
        && industryList == old(industryList) + c.records
        && posts == old(posts)
        && (c.error.None? ==> err.None? && responseMessages == old(responseMessages))
        && (c.error.Some? ==>
              responseMessages == ConvertFailureLog(old(responseMessages), ConvertPrefix, IndustryPolicy, c.error.value)
              && err == Some(responseMessages))
    {
      var records, error := ConvertTable(IndustryPolicy, df);
      industryList := industryList + records;
      if error.Some? {
        responseMessages := ConvertFailureLog(responseMessages, ConvertPrefix, IndustryPolicy, error.value);
        return Some(responseMessages);
      }
      return None;
    }

    /**
     * get_drop_down_data: `(True, data)` for a non-empty listing and
     * `(False, {})` for an empty one; iterating the `{}` yields no entry.
     */
    method GetDropDownData(listing: Response<IndustryOption>) returns (found: bool, data: seq<IndustryOption>, err: Option<string>)
      modifies this
      ensures industryList == old(industryList) && posts == old(posts)
      ensures listing.status == OK ==>
        && err.None? && responseMessages == old(responseMessages)
        && (found <==> |listing.body| > 0) && data == listing.body
      ensures listing.status != OK ==>
        responseMessages == FetchFailLog(old(responseMessages), listing.status, listing.text) && err == Some(responseMessages)
    {
      if listing.status != OK {
        responseMessages := FetchFailLog(responseMessages, listing.status, listing.text);
        return false, [], Some(responseMessages);
      }
      if |listing.body| > 0 {
        return true, listing.body, None;
      }
      return false, [], None;
    }

    /** create_industry: one POST of the record's name and description. */
    method CreateIndustry(rec: Record, save: IndustryPayload -> nat, saveText: IndustryPayload -> string) returns (err: Option<string>)
      modifies this
      ensures var p := PayloadOf(rec);
        && industryList == old(industryList)
        && posts == old(posts) + [p]
        && (save(p) == OK ==> err.None? && responseMessages == old(responseMessages))
        && (save(p) != OK ==> responseMessages == RejectLog(old(responseMessages), save(p), saveText(p)) && err == Some(responseMessages))
    {
      var payload := PayloadOf(rec);
      var status := save(payload);
      posts := posts + [payload];
      if status != OK {
        responseMessages := RejectLog(responseMessages, status, saveText(payload));
        return Some(responseMessages);
      }
      return None;
    }

    /**
     * The creation loop of automate_industry: create_industry for every
     * record whose lower-cased name is in `added`, in sheet order, until
     * the first refusal.
     */
    method CreateForAdded(names: seq<string>, added: seq<string>, save: IndustryPayload -> nat, saveText: IndustryPayload -> string)
      returns (err: Option<string>)
      requires |names| == |industryList|
      modifies this
      ensures industryList == old(industryList)
      ensures var payloads := Payloads(Selected(industryList, names, added));
        var sent := Posted(payloads, save);
        && posts == old(posts) + sent
        && (FirstRejection(payloads, save).None? ==> err.None? && responseMessages == old(responseMessages))
        && (FirstRejection(payloads, save).Some? ==>
              |sent| > 0
              && responseMessages == RejectLog(old(responseMessages), save(sent[|sent| - 1]), saveText(sent[|sent| - 1]))
              && err == Some(responseMessages))
    {
      ghost var records := industryList;
      ghost var posts0 := posts;
      for i := 0 to |industryList|
        invariant industryList == records && responseMessages == old(responseMessages)
        invariant posts == posts0 + Payloads(Selected(records[..i], names[..i], added))
        invariant FirstRejection(Payloads(Selected(records[..i], names[..i], added)), save).None?
      {
        err := CreateIfSelected(i, names, added, save, saveText, posts0);
        if err.Some? {
          return err;
        }
      }
      assert records[..|records|] == records && names[..|names|] == names;
      PostedStopsAtFirstRejection(Payloads(Selected(records, names, added)), save);
      return None;
    }

    /**
     * One pass of the creation loop: record i is created when its name is
     * new, and a refusal leaves the state the whole loop ends in.
     */
    method CreateIfSelected(i: nat, names: seq<string>, added: seq<string>, save: IndustryPayload -> nat,
                            saveText: IndustryPayload -> string, ghost posts0: seq<IndustryPayload>)
      returns (err: Option<string>)
      requires |names| == |industryList| && i < |industryList|
      requires FirstRejection(Payloads(Selected(industryList[..i], names[..i], added)), save).None?
      requires posts == posts0 + Payloads(Selected(industryList[..i], names[..i], added))
      modifies this
      ensures industryList == old(industryList)
      ensures err.None? ==>
        var done := Payloads(Selected(industryList[..i + 1], names[..i + 1], added));
        && posts == posts0 + done && FirstRejection(done, save).None?
        && responseMessages == old(responseMessages)
      ensures err.Some? ==>
        var payloads := Payloads(Selected(industryList, names, added));
        var sent := Posted(payloads, save);
        && posts == posts0 + sent && FirstRejection(payloads, save).Some? && |sent| > 0
        && responseMessages == RejectLog(old(responseMessages), save(sent[|sent| - 1]), saveText(sent[|sent| - 1]))
        && err == Some(responseMessages)
    {
      if names[i] in added {
        err := CreateSelected(i, names, added, save, saveText, posts0);
      } else {
        ghost var records := industryList;
        SelectedStep(records, names, added, i);
        assert Selected(records[..i + 1], names[..i + 1], added) == Selected(records[..i], names[..i], added);
        err := None;
      }
    }

    /** The pass of the creation loop for a record whose name is new. */
    method CreateSelected(i: nat, names: seq<string>, added: seq<string>, save: IndustryPayload -> nat,
                          saveText: IndustryPayload -> string, ghost posts0: seq<IndustryPayload>)
      returns (err: Option<string>)
      requires |names| == |industryList| && i < |industryList| && names[i] in added
      requires FirstRejection(Payloads(Selected(industryList[..i], names[..i], added)), save).None?
      requires posts == posts0 + Payloads(Selected(industryList[..i], names[..i], added))
      modifies this
      ensures industryList == old(industryList)
      ensures err.None? ==>
        var done := Payloads(Selected(industryList[..i + 1], names[..i + 1], added));
        && posts == posts0 + done && FirstRejection(done, save).None?
        && responseMessages == old(responseMessages)
      ensures err.Some? ==>
        var payloads := Payloads(Selected(industryList, names, added));
        var sent := Posted(payloads, save);
        && posts == posts0 + sent && FirstRejection(payloads, save).Some? && |sent| > 0
        && responseMessages == RejectLog(old(responseMessages), save(sent[|sent| - 1]), saveText(sent[|sent| - 1]))
        && err == Some(responseMessages)
    {
      ghost var records := industryList;
      ghost var done := Payloads(Selected(records[..i], names[..i], added));
      err := CreateIndustry(industryList[i], save, saveText);
      AppendTwice(posts0, done, [PayloadOf(records[i])]);
      if err.None? {
        AcceptedAt(records, names, added, save, i);
      } else {
        RejectedAt(records, names, added, save, i);
      }
    }

    /** The `except` clause of automate_industry. */
    method Fail(e: string)
      modifies this
      ensures responseMessages == old(responseMessages) + AutomatePrefix + e + "\n"
      ensures industryList == old(industryList) && posts == old(posts)
    {
      responseMessages := responseMessages + AutomatePrefix + e + "\n";
    }

    /** The sheet half of automate_industry. */
    method LoadSheet(df: Table) returns (err: Option<string>)
      requires Normalised(df)
      modifies this
      ensures posts == old(posts)
      ensures err.None? <==> |df| > 0 && Convert(IndustryPolicy, df).error.None?
      ensures industryList == old(industryList) + (if |df| > 0 then Convert(IndustryPolicy, df).records else [])
      ensures err.None? ==> responseMessages == old(responseMessages)
      ensures err.Some? ==> responseMessages == LoadFailLog(old(responseMessages), df) && err == Some(responseMessages)
    {
      var groups := GroupMergedRows(df, 0);
      var extracted := ExtractIndustryData(groups, df);
      ExtractGroupingOfTable(df, 0, groups, NoValidGroups);
      if extracted.Failure? {
        return Some(extracted.error);
      }
      err := ConvertIndustryMetadataToDict(extracted.value);
    }

    /**
     * The platform half of automate_industry: when some sheet name is new,
     * every record carrying a new name is posted and the sheet's names are
     * reported as created; otherwise nothing is posted and the listed names
     * are reported.
     */
    method Synchronise(listing: Response<IndustryOption>, save: IndustryPayload -> nat, saveText: IndustryPayload -> string)
      returns (err: Option<string>)
      modifies this
      ensures industryList == old(industryList)
      ensures var existing := ExistingIndustries(listing.body);
        var names := LowerFields(industryList, "industry");
        var added := if names.Success? then Without(names.value, existing) else [];
        var payloads := if names.Success? then Payloads(Selected(industryList, names.value, added)) else [];
        var creates := listing.status == OK && names.Success? && added != [];
        && (err.None? <==> listing.status == OK && names.Success? && (creates ==> FirstRejection(payloads, save).None?))
        && (!creates ==> posts == old(posts))
        && (listing.status != OK ==>
              responseMessages == FetchFailLog(old(responseMessages), listing.status, listing.text) && err == Some(responseMessages))
        && (listing.status == OK && names.Failure? ==>
              responseMessages == old(responseMessages) && err == Some(FaultText(names.error)))
        && (listing.status == OK && names.Success? && added == [] ==>
              responseMessages == old(responseMessages) + ExistsMessage(existing))
        && (creates ==>
              var sent := Posted(payloads, save);
              && posts == old(posts) + sent
              && (FirstRejection(payloads, save).None? ==>
                    posts == old(posts) + payloads && responseMessages == old(responseMessages) + CreatedMessage(names.value))
              && (FirstRejection(payloads, save).Some? ==>
                    |sent| > 0 && responseMessages == CreateFailLog(old(responseMessages), sent, saveText, save)
                    && err == Some(responseMessages)))
    {
      var found, data;
      found, data, err := GetDropDownData(listing);
      if err.Some? {
        return err;
      }
      var existing := ExistingIndustries(data);
      var names := LowerFields(industryList, "industry");
      if names.Failure? {
        return Some(FaultText(names.error));
      }
      var added := ListDifference(names.value, existing);
      if added != [] {
        err := CreateAndReport(names.value, added, save, saveText);
      } else {
        responseMessages := responseMessages + ExistsMessage(existing);
      }
    }

    /** The creating branch of automate_industry: the records with a new name are posted, then the sheet's names are reported. */
    method CreateAndReport(names: seq<string>, added: seq<string>, save: IndustryPayload -> nat, saveText: IndustryPayload -> string)
      returns (err: Option<string>)
      requires |names| == |industryList|
      modifies this
      ensures industryList == old(industryList)
      ensures var payloads := Payloads(Selected(industryList, names, added));
        var sent := Posted(payloads, save);
        && posts == old(posts) + sent
        && (err.None? <==> FirstRejection(payloads, save).None?)
        && (FirstRejection(payloads, save).None? ==>
              posts == old(posts) + payloads && responseMessages == old(responseMessages) + CreatedMessage(names))
        && (FirstRejection(payloads, save).Some? ==>
              |sent| > 0 && responseMessages == CreateFailLog(old(responseMessages), sent, saveText, save)
              && err == Some(responseMessages))
    {
      err := CreateForAdded(names, added, save, saveText);
      if err.Some? {
        return err;
      }
      PostedStopsAtFirstRejection(Payloads(Selected(industryList, names, added)), save);
      responseMessages := responseMessages + CreatedMessage(names);
    }

    /** automate_industry. */
    method AutomateIndustry(df: Table, listing: Response<IndustryOption>, save: IndustryPayload -> nat, saveText: IndustryPayload -> string)
      returns (ok: bool)
      requires Normalised(df)
      modifies this
      ensures var loaded := |df| > 0 && Convert(IndustryPolicy, df).error.None?;
        && industryList == old(industryList) + (if |df| > 0 then Convert(IndustryPolicy, df).records else [])
        && (!loaded ==>
              !ok && posts == old(posts)
              && var b := LoadFailLog(old(responseMessages), df); responseMessages == b + AutomatePrefix + b + "\n")
      ensures |df| > 0 && Convert(IndustryPolicy, df).error.None? ==>
        var existing := ExistingIndustries(listing.body);
        var names := LowerFields(industryList, "industry");
        var added := if names.Success? then Without(names.value, existing) else [];
        var payloads := if names.Success? then Payloads(Selected(industryList, names.value, added)) else [];
        var creates := listing.status == OK && names.Success? && added != [];
        && (ok <==> listing.status == OK && names.Success? && (creates ==> FirstRejection(payloads, save).None?))
        && (!creates ==> posts == old(posts))
        && (listing.status != OK ==>
              var b := FetchFailLog(old(responseMessages), listing.status, listing.text); responseMessages == b + AutomatePrefix + b + "\n")
        && (listing.status == OK && names.Failure? ==>
              responseMessages == old(responseMessages) + AutomatePrefix + FaultText(names.error) + "\n")
        && (listing.status == OK && names.Success? && added == [] ==>
              responseMessages == old(responseMessages) + ExistsMessage(existing))
        && (creates ==>
              var sent := Posted(payloads, save);
              && posts == old(posts) + sent
              && (FirstRejection(payloads, save).None? ==>
                    posts == old(posts) + payloads && responseMessages == old(responseMessages) + CreatedMessage(names.value))
              && (FirstRejection(payloads, save).Some? ==>
                    |sent| > 0
                    && var b := CreateFailLog(old(responseMessages), sent, saveText, save); responseMessages == b + AutomatePrefix + b + "\n"))
    {
      var err := LoadSheet(df);
      if err.Some? {
        Fail(err.value);
        return false;
      }
      err := Synchronise(listing, save, saveText);
      if err.Some? {
        Fail(err.value);
        return false;
      }
      return true;
    }
  }

  /** An accepted create of an added record extends the accepted payloads by its own. */
  lemma AcceptedAt(records: seq<Record>, names: seq<string>, added: seq<string>, save: IndustryPayload -> nat, i: nat)
    requires |names| == |records| && i < |records| && names[i] in added
    requires FirstRejection(Payloads(Selected(records[..i], names[..i], added)), save).None?
    requires save(PayloadOf(records[i])) == OK
    ensures var done := Payloads(Selected(records[..i + 1], names[..i + 1], added));
      done == Payloads(Selected(records[..i], names[..i], added)) + [PayloadOf(records[i])]
      && FirstRejection(done, save).None?
  {
    var before := Payloads(Selected(records[..i], names[..i], added));
    var p := PayloadOf(records[i]);
    SelectedStep(records, names, added, i);
    PayloadsAppend(Selected(records[..i], names[..i], added), [records[i]]);
    assert Payloads([records[i]]) == [p];
    PostedAppend(before, [p], save);
    assert FirstRejection([p], save) == FirstRejection([p][1..], save);
  }

  /** A loop that has created the selected records before i and is refused at i has sent everything it will. */
  lemma RejectedAt(records: seq<Record>, names: seq<string>, added: seq<string>, save: IndustryPayload -> nat, i: nat)
    requires |names| == |records| && i < |records| && names[i] in added
    requires FirstRejection(Payloads(Selected(records[..i], names[..i], added)), save).None?
    requires save(PayloadOf(records[i])) != OK
    ensures var payloads := Payloads(Selected(records, names, added));
      var sent := Posted(payloads, save);
      && sent == Payloads(Selected(records[..i], names[..i], added)) + [PayloadOf(records[i])]
      && |sent| > 0 && sent[|sent| - 1] == PayloadOf(records[i])
      && FirstRejection(payloads, save) == Some(save(PayloadOf(records[i])))
  {
    var before := Selected(records[..i], names[..i], added);
    var rest := Selected(records[i + 1..], names[i + 1..], added);
    var p := PayloadOf(records[i]);
    SelectedStep(records, names, added, i);
    SelectedSplit(records, names, added, i + 1);
    assert Selected(records, names, added) == (before + [records[i]]) + rest;
    PayloadsAppend(before + [records[i]], rest);
    PayloadsAppend(before, [records[i]]);
    assert Payloads([records[i]]) == [p];
    assert FirstRejection([p], save) == Some(save(p));
    PostedAppend(Payloads(before), [p], save);
    PostedAppend(Payloads(before) + [p], Payloads(rest), save);
  }
}
