/**
 * `scripts/core/handlers/parameter_groups.py`: the Parameter Groups sheet
 * becomes one record per group (the list is reset on every conversion, and
 * a blank group name is reported with its row number). The groups and the
 * categories on the platform are each fetched with one request. Creation
 * needs a group name the platform lacks and a difference between the
 * category sets; the sheet's categories are then resolved against the
 * platform's, and every record is posted under the first resolved one.
 */
module ParameterGroups {
  import opened Wrappers
  import opened Text
  import opened Sheet
  import opened Metadata
  import opened Remote

  /** `ParameterConstants.parameter_groups_meta_data`. */
  const GroupLabels: map<string, string> :=
    map["parameter group name" := "tag_group_name", "description" := "description", "parameter category" := "category"]

  const GroupPolicy := Policy(
    GroupLabels, 0,
    [Required("tag_group_name", NaNOrBlank, Numbered("Parameter Group Name is missing in row number "))],
    true, true)

  /** An entry of the group listing (`data`). */
  datatype GroupRow = GroupRow(caption: string)

  /** An entry of the category listing (`data`): its label and its id. */
  datatype CategoryOption = CategoryOption(caption: string, value: string)

  /** The fields of `ParameterConstants.parameter_groups_json` that the handler writes. */
  datatype GroupPayload = GroupPayload(tagGroupName: Cell, description: Cell, category: Option<string>)

  // ------------------------------------------------------- category lookup

  /** The position of the first entry labelled `c`, ignoring case; `|listing|` when there is none. */
  function FirstIndex(listing: seq<CategoryOption>, c: string): (i: nat)
    ensures i <= |listing|
    ensures forall j :: 0 <= j < i ==> Lower(listing[j].caption) != Lower(c)
    ensures i < |listing| ==> Lower(listing[i].caption) == Lower(c)
  {
    if |listing| == 0 then 0
    else if Lower(listing[0].caption) == Lower(c) then 0
    else
      assert forall k :: 1 <= k < |listing| ==> listing[k] == listing[1..][k - 1];
      1 + FirstIndex(listing[1..], c)
  }

  /** `next(each for each in data if each["label"].lower() == c.lower())`, or None where it would raise. */
  function FirstMatch(listing: seq<CategoryOption>, c: string): (r: Option<CategoryOption>)
    ensures r.None? <==> forall k :: 0 <= k < |listing| ==> Lower(listing[k].caption) != Lower(c)
  {
    var i := FirstIndex(listing, c);
    if i < |listing| then Some(listing[i]) else None
  }

  /** The search of the generator expression, one entry at a time. */
  method FindCategory(listing: seq<CategoryOption>, c: string) returns (r: Option<CategoryOption>)
    ensures r == FirstMatch(listing, c)
  {
    var i := 0;
    while i < |listing|
      invariant i <= |listing|
      invariant FirstMatch(listing, c) == FirstMatch(listing[i..], c)
    {
      assert listing[i..][1..] == listing[i + 1..];
      if Lower(listing[i].caption) == Lower(c) {
        return Some(listing[i]);
      }
      i := i + 1;
    }
    return None;
  }

  /** The entries resolved for the first n categories, in category order. */
  function Resolved(cats: seq<string>, listing: seq<CategoryOption>, n: nat): (r: seq<CategoryOption>)
    requires n <= |cats|
    ensures |r| <= n
  {
    if n == 0 then []
    else
      var m := FirstMatch(listing, cats[n - 1]);
      Resolved(cats, listing, n - 1) + (if m.Some? then [m.value] else [])
  }

  /** The first n categories that have no entry, in category order. */
  function Unresolved(cats: seq<string>, listing: seq<CategoryOption>, n: nat): (r: seq<string>)
    requires n <= |cats|
    ensures |r| <= n
  {
    if n == 0 then []
    else
      Unresolved(cats, listing, n - 1) + (if FirstMatch(listing, cats[n - 1]).None? then [cats[n - 1]] else [])
  }

  /** Every category is either resolved or missing. */
  lemma {:induction false} ResolutionCounts(cats: seq<string>, listing: seq<CategoryOption>, n: nat)
    requires n <= |cats|
    ensures |Resolved(cats, listing, n)| + |Unresolved(cats, listing, n)| == n
  {
    if n > 0 {
      ResolutionCounts(cats, listing, n - 1);
    }
  }

  /** The missing categories are exactly those without an entry. */
  lemma {:induction false} UnresolvedMembers(cats: seq<string>, listing: seq<CategoryOption>, n: nat)
    requires n <= |cats|
    ensures forall x :: x in Unresolved(cats, listing, n) <==> (exists k :: 0 <= k < n && cats[k] == x) && FirstMatch(listing, x).None?
  {
    if n > 0 {
      UnresolvedMembers(cats, listing, n - 1);
      var prev := Unresolved(cats, listing, n - 1);
      assert Unresolved(cats, listing, n) == prev + (if FirstMatch(listing, cats[n - 1]).None? then [cats[n - 1]] else []);
      forall x
        ensures x in Unresolved(cats, listing, n) <==> (exists k :: 0 <= k < n && cats[k] == x) && FirstMatch(listing, x).None?
      {
        if (exists k :: 0 <= k < n && cats[k] == x) && FirstMatch(listing, x).None? {
          var k :| 0 <= k < n && cats[k] == x;
          if k < n - 1 {
            assert x in prev;
          }
        }
      }
    }
  }

  /** The resolved entries are exactly the first matches of the categories that have one. */
  lemma {:induction false} ResolvedMembers(cats: seq<string>, listing: seq<CategoryOption>, n: nat)
    requires n <= |cats|
    ensures forall o :: o in Resolved(cats, listing, n) <==> exists k :: 0 <= k < n && FirstMatch(listing, cats[k]) == Some(o)
  {
    if n > 0 {
      ResolvedMembers(cats, listing, n - 1);
    }
  }

  /** `{c["label"].lower() for c in data}`, in listing order. */
  function ExistingLabels(listing: seq<CategoryOption>): (names: seq<string>)
    ensures |names| == |listing| && forall k :: 0 <= k < |listing| ==> names[k] == Lower(listing[k].caption)
  {
    seq(|listing|, k requires 0 <= k < |listing| => Lower(listing[k].caption))
  }

  /** A category is among the listed labels exactly when the search finds an entry for it. */
  lemma ListedIffFound(listing: seq<CategoryOption>, c: string)
    ensures Lower(c) in ExistingLabels(listing) <==> FirstMatch(listing, c).Some?
  {
    var k := FirstIndex(listing, c);
    if k < |listing| {
      assert ExistingLabels(listing)[k] == Lower(c);
    }
  }

  /** The category-resolution loop of automate_parameter_groups. */
  method ResolveCategories(cats: seq<string>, listing: seq<CategoryOption>) returns (listData: seq<CategoryOption>, missing: seq<string>)
    ensures listData == Resolved(cats, listing, |cats|)
    ensures missing == Unresolved(cats, listing, |cats|)
  {
    var existingLabels := ExistingLabels(listing);
    listData := [];
    missing := [];
    for i := 0 to |cats|
      invariant listData == Resolved(cats, listing, i)
      invariant missing == Unresolved(cats, listing, i)
    {
      ListedIffFound(listing, cats[i]);
      if Lower(cats[i]) in existingLabels {
        var entry := FindCategory(listing, cats[i]);
        listData := listData + [entry.value];
      } else {
        missing := missing + [cats[i]];
      }
    }
  }

  // -------------------------------------------------------------- payloads

  /** `list_data[0].get('value') if list_data else None`. */
  function CategoryOf(listData: seq<CategoryOption>): (c: Option<string>)
    ensures c.Some? <==> |listData| > 0
    ensures c.Some? ==> c.value == listData[0].value
  {
    if |listData| > 0 then Some(listData[0].value) else None
  }

  /** The payload of create_parameter_groups for one record. */
  function PayloadOf(rec: Record, category: Option<string>): (p: GroupPayload)
    ensures p.tagGroupName == (if "tag_group_name" in rec then rec["tag_group_name"] else Some(""))
    ensures p.description == (if "description" in rec then rec["description"] else Some(""))
    ensures p.category == category
  {
    GroupPayload(GetOr(rec, "tag_group_name"), GetOr(rec, "description"), category)
  }

  /** One payload per record, every one under the same category. */
  function Payloads(records: seq<Record>, category: Option<string>): (ps: seq<GroupPayload>)
    ensures |ps| == |records| && forall k :: 0 <= k < |records| ==> ps[k] == PayloadOf(records[k], category)
  {
    seq(|records|, k requires 0 <= k < |records| => PayloadOf(records[k], category))
  }

  // -------------------------------------------------------------- messages

  const AutomatePrefix := "Error while automating parameter groups: "
  const ExtractPrefix := "Error while extracting parameter data: "
  const ConvertPrefix := "Error while converting parameter metadata to dict: "
  const SavePrefix := "Error while updating the parameter data: "

  /**
   * The messages after a rejected save: "Failed to fetch parameter data",
   * then the HTTPException whose detail is the whole log so far.
   */
  function RejectLog(before: string, status: nat): string {
    var b := before + "Failed to fetch parameter data\n";
    b + SavePrefix + HttpErrorText(status, b) + "\n"
  }

  /** The created message, which is logged with one newline and appended with two. */
  function CreatedMessage(names: seq<string>): string {
    "Created Parameter Groups Information: " + SetRepr(names) + "\n" + "\n"
  }

  function MissingMessage(missing: seq<string>): string {
    "Parameter Groups creation could not be completed due to missing Categories: " + Join(missing, ", ") + " \n"
  }

  function ExistsMessage(existing: seq<string>): string {
    "Parameter Groups Information Exists: " + SetRepr(existing) + " \n"
  }

  /** `{g["label"].lower() for g in parameter_groups_data}`. */
  function ExistingGroups(rows: seq<GroupRow>): (names: seq<string>)
    ensures |names| == |rows| && forall k :: 0 <= k < |rows| ==> names[k] == Lower(rows[k].caption)
  {
    seq(|rows|, k requires 0 <= k < |rows| => Lower(rows[k].caption))
  }

  /** `{c["category"].lower() for c in parameter_list if c.get("category")}`. */
  function SheetCategories(records: seq<Record>): (names: seq<string>)
    ensures forall x :: x in names <==>
      (exists k :: 0 <= k < |records| && "category" in records[k]
        && Truthy(records[k]["category"]) && x == Lower(records[k]["category"].value))
  {
    if |records| == 0 then []
    else
      var last := records[|records| - 1];
      var init := SheetCategories(records[..|records| - 1]);
      assert forall k :: 0 <= k < |records| - 1 ==> records[..|records| - 1][k] == records[k];
      if "category" in last && Truthy(last["category"]) then init + [Lower(last["category"].value)]
      else init
  }

  /**
   * The payloads of the creation branch when every save succeeds: with a
   * resolved category, every record under the first one; otherwise none.
   */
  function CreationSent(records: seq<Record>, cats: seq<string>, listing: seq<CategoryOption>): seq<GroupPayload> {
    var listData := Resolved(cats, listing, |cats|);
    if |listData| > 0 then Payloads(records, CategoryOf(listData)) else []
  }

  /** The messages of the creation branch: created (when anything resolved), then the missing categories. */
  function CreationLog(names: seq<string>, cats: seq<string>, listing: seq<CategoryOption>): string {
    var listData := Resolved(cats, listing, |cats|);
    var missing := Unresolved(cats, listing, |cats|);
    (if |listData| > 0 then CreatedMessage(names) else "")
    + (if |missing| > 0 then MissingMessage(missing) else "")
  }

  /** The payloads the creation branch tries to post: every record under the first resolved category. */
  function CreationPayloads(records: seq<Record>, cats: seq<string>, listing: seq<CategoryOption>): seq<GroupPayload> {
    Payloads(records, CategoryOf(Resolved(cats, listing, |cats|)))
  }

  /** The refused status that stops the creation branch, if any; nothing is posted when no category resolved. */
  function CreationRejection(records: seq<Record>, cats: seq<string>, listing: seq<CategoryOption>, save: GroupPayload -> nat): Option<nat> {
    if |Resolved(cats, listing, |cats|)| > 0 then FirstRejection(CreationPayloads(records, cats, listing), save) else None
  }

  /** What the creation branch posts, up to and including a refused payload. */
  function CreationPosted(records: seq<Record>, cats: seq<string>, listing: seq<CategoryOption>, save: GroupPayload -> nat): seq<GroupPayload> {
    if |Resolved(cats, listing, |cats|)| > 0 then Posted(CreationPayloads(records, cats, listing), save) else []
  }

  /** The buffer after the sheet half fails: no group to stitch, or a row that does not convert. */
  function LoadFailLog(before: string, df: Table): string
    requires Rectangular(df)
  {
    var c := Convert(GroupPolicy, df);
    if |df| == 0 then before + ExtractPrefix + NoObjectsToConcatenate + "\n"
    else if c.error.Some? then ConvertFailureLog(before, ConvertPrefix, GroupPolicy, c.error.value)
    else before
  }

  /** The buffer after a listing is refused. */
  function ListingFailLog(before: string, status: nat, text: string): string {
    before + "Failed to fetch parameter data. " + StatusReport(status, text) + "\n"
  }

  /** The position of the first category that has an entry; `|cats|` when none has. */
  function FirstResolvable(cats: seq<string>, listing: seq<CategoryOption>): (k: nat)
    ensures k <= |cats|
    ensures forall j :: 0 <= j < k ==> FirstMatch(listing, cats[j]).None?
    ensures k < |cats| ==> FirstMatch(listing, cats[k]).Some?
  {
    if |cats| == 0 then 0
    else if FirstMatch(listing, cats[0]).Some? then 0
    else
      assert forall j :: 1 <= j < |cats| ==> cats[j] == cats[1..][j - 1];
      1 + FirstResolvable(cats[1..], listing)
  }

  /** The resolved entries start with the entry of the first resolvable category. */
  lemma {:induction false} ResolvedStart(cats: seq<string>, listing: seq<CategoryOption>, n: nat)
    requires n <= |cats|
    ensures var k := FirstResolvable(cats, listing);
      && (n <= k ==> Resolved(cats, listing, n) == [])
      && (k < n ==> |Resolved(cats, listing, n)| > 0 && Resolved(cats, listing, n)[0] == FirstMatch(listing, cats[k]).value)
  {
    if n > 0 {
      ResolvedStart(cats, listing, n - 1);
      var k := FirstResolvable(cats, listing);
      var m := FirstMatch(listing, cats[n - 1]);
      assert Resolved(cats, listing, n) == Resolved(cats, listing, n - 1) + (if m.Some? then [m.value] else []);
      if n <= k {
        assert m.None?;
      } else if n - 1 == k {
        assert Resolved(cats, listing, n) == [m.value];
      } else {
        assert Resolved(cats, listing, n)[0] == Resolved(cats, listing, n - 1)[0];
      }
    }
  }

  /**
   * Nothing is posted when no sheet category has an entry on the platform;
   * otherwise every record is posted, in order, with its own name and
   * description, under the id of the first sheet category that has one.
   */
  lemma CreationPostsEveryRecordOrNone(records: seq<Record>, cats: seq<string>, listing: seq<CategoryOption>)
    ensures var k := FirstResolvable(cats, listing);
      var sent := CreationSent(records, cats, listing);
      && (k == |cats| ==> sent == [])
      && (k < |cats| ==>
            |sent| == |records|
            && forall i :: 0 <= i < |records| ==> sent[i] == PayloadOf(records[i], Some(FirstMatch(listing, cats[k]).value.value)))
  {
    ResolvedStart(cats, listing, |cats|);
  }

  class ParameterGroupsHandler {
    var parameterList: seq<Record>
    var responseMessages: string
    /** Every payload posted to the save endpoint, in order. */
    ghost var posts: seq<GroupPayload>

    /** `response_messages or ""`. */
    constructor(responseMessages: Option<string>)
      ensures this.responseMessages == (if responseMessages.Some? then responseMessages.value else "")
      ensures parameterList == [] && posts == []
    {
      this.responseMessages := if responseMessages.Some? then responseMessages.value else "";
      parameterList := [];
      posts := [];
    }

    /** extract_parameter_groups_data: the groups stitched back together, or pandas' error for no group. */
    method ExtractParameterGroupsData(groups: seq<seq<nat>>, df: Table) returns (r: Result<Table, string>)
      requires forall g, k :: 0 <= g < |groups| && 0 <= k < |groups[g]| ==> groups[g][k] < |df|
      modifies this
      ensures parameterList == old(parameterList) && posts == old(posts)
      ensures |groups| > 0 ==> r == Success(Stitch(df, groups)) && responseMessages == old(responseMessages)
      ensures |groups| == 0 ==>
        responseMessages == old(responseMessages) + ExtractPrefix + NoObjectsToConcatenate + "\n"
        && r == Failure(responseMessages)
    {
      var extracted := ExtractGroups(df, groups, NoObjectsToConcatenate);
      if extracted.Failure? {
        responseMessages := responseMessages + ExtractPrefix + extracted.error + "\n";
        return Failure(responseMessages);
      }
      return extracted;
    }

    /** convert_parameter_metadata_to_dict: the list is reset once the header row is read. */
    method ConvertParameterMetadataToDict(df: Table) returns (err: Option<string>)
      requires Rectangular(df)
      modifies this
      ensures var c := Convert(GroupPolicy, df);
        && (Early(c) ==> parameterList == old(parameterList))
        && (!Early(c) ==> parameterList == c.records)
        && posts == old(posts)
        && (c.error.None? ==> err.None? && responseMessages == old(responseMessages))
        && (c.error.Some? ==>
              responseMessages == ConvertFailureLog(old(responseMessages), ConvertPrefix, GroupPolicy, c.error.value)
              && err == Some(responseMessages))
    {
      var records, error := ConvertTable(GroupPolicy, df);
      if error.None? || !Early(Conversion(records, error)) {
        parameterList := records;
      }
      if error.Some? {
        responseMessages := ConvertFailureLog(responseMessages, ConvertPrefix, GroupPolicy, error.value);
        return Some(responseMessages);
      }
      return None;
    }

    /** check_parameter_groups: the listed groups; an empty listing reads as no group. */
    method CheckParameterGroups(listing: Response<GroupRow>) returns (rows: seq<GroupRow>, err: Option<string>)
      modifies this
      ensures parameterList == old(parameterList) && posts == old(posts)
      ensures listing.status == OK ==> err.None? && rows == listing.body && responseMessages == old(responseMessages)
      ensures listing.status != OK ==>
        responseMessages == ListingFailLog(old(responseMessages), listing.status, listing.text) && err == Some(responseMessages)
    {
      if listing.status != OK {
        responseMessages := ListingFailLog(responseMessages, listing.status, listing.text);
        return [], Some(responseMessages);
      }
      return listing.body, None;
    }

    /** list_parameter_category: the listed categories, or `None` where the source returns `(False, {})`. */
    method ListParameterCategory(listing: Response<CategoryOption>) returns (cats: Option<seq<CategoryOption>>, err: Option<string>)
      modifies this
      ensures parameterList == old(parameterList) && posts == old(posts)
      ensures listing.status == OK ==>
        (err.None? && responseMessages == old(responseMessages)
         && (cats.Some? <==> |listing.body| > 0) && (cats.Some? ==> cats.value == listing.body))
      ensures listing.status != OK ==>
        responseMessages == ListingFailLog(old(responseMessages), listing.status, listing.text) && err == Some(responseMessages)
    {
      if listing.status != OK {
        responseMessages := ListingFailLog(responseMessages, listing.status, listing.text);
        return None, Some(responseMessages);
      }
      if |listing.body| > 0 {
        return Some(listing.body), None;
      }
      return None, None;
    }

    /** create_parameter_groups: one record posted under the first resolved category. */
    method CreateParameterGroups(listData: seq<CategoryOption>, rec: Record, save: GroupPayload -> nat) returns (err: Option<string>)
      modifies this
      ensures var p := PayloadOf(rec, CategoryOf(listData));
        && parameterList == old(parameterList)
        && posts == old(posts) + [p]
        && (save(p) == OK ==> err.None? && responseMessages == old(responseMessages))
        && (save(p) != OK ==> responseMessages == RejectLog(old(responseMessages), save(p)) && err == Some(responseMessages))
    {
      var payload := PayloadOf(rec, CategoryOf(listData));
      var status := save(payload);
      posts := posts + [payload];
      if status != OK {
        responseMessages := RejectLog(responseMessages, status);
        return Some(responseMessages);
      }
      return None;
    }

    /** The loop of automate_parameter_groups calling create_parameter_groups for every record. */
    method CreateForEveryRecord(listData: seq<CategoryOption>, save: GroupPayload -> nat) returns (err: Option<string>)
      modifies this
      ensures var payloads := Payloads(parameterList, CategoryOf(listData));
        && parameterList == old(parameterList)
        && posts == old(posts) + Posted(payloads, save)
        && (FirstRejection(payloads, save).None? ==> err.None? && responseMessages == old(responseMessages))
        && (FirstRejection(payloads, save).Some? ==>
              responseMessages == RejectLog(old(responseMessages), FirstRejection(payloads, save).value)
              && err == Some(responseMessages))
    {
      ghost var records := parameterList;
      ghost var posts0 := posts;
      ghost var payloads := Payloads(records, CategoryOf(listData));
      for i := 0 to |parameterList|
        invariant parameterList == records && responseMessages == old(responseMessages)
        invariant posts == posts0 + payloads[..i]
        invariant Posted(payloads, save) == payloads[..i] + Posted(payloads[i..], save)
        invariant FirstRejection(payloads, save) == FirstRejection(payloads[i..], save)
      {
        err := PostNext(listData, save, i, payloads, posts0);
        if err.Some? {
          return err;
        }
      }
      PostedComplete(payloads, save);
      return None;
    }

    /** One pass of the creation loop: record i is posted, and a refusal leaves the state the whole loop ends in. */
    method PostNext(listData: seq<CategoryOption>, save: GroupPayload -> nat, i: nat,
                    ghost payloads: seq<GroupPayload>, ghost posts0: seq<GroupPayload>) returns (err: Option<string>)
      requires payloads == Payloads(parameterList, CategoryOf(listData)) && i < |parameterList|
      requires posts == posts0 + payloads[..i]
      requires Posted(payloads, save) == payloads[..i] + Posted(payloads[i..], save)
      requires FirstRejection(payloads, save) == FirstRejection(payloads[i..], save)
      modifies this
      ensures parameterList == old(parameterList)
      ensures err.None? ==>
        && responseMessages == old(responseMessages) && posts == posts0 + payloads[..i + 1]
        && Posted(payloads, save) == payloads[..i + 1] + Posted(payloads[i + 1..], save)
        && FirstRejection(payloads, save) == FirstRejection(payloads[i + 1..], save)
      ensures err.Some? ==>
        && posts == posts0 + Posted(payloads, save) && FirstRejection(payloads, save).Some?
        && responseMessages == RejectLog(old(responseMessages), FirstRejection(payloads, save).value)
        && err == Some(responseMessages)
    {
      err := CreateParameterGroups(listData, parameterList[i], save);
      if err.Some? {
        PostedUpToRejection(payloads, save, i);
      } else {
        PostedAdvance(payloads, save, i);
      }
      AppendTwice(posts0, payloads[..i], [payloads[i]]);
    }

    /** The `except` clause of automate_parameter_groups. */
    method Fail(e: string)
      modifies this
      ensures responseMessages == old(responseMessages) + AutomatePrefix + e + "\n"
      ensures parameterList == old(parameterList) && posts == old(posts)
    {
      responseMessages := responseMessages + AutomatePrefix + e + "\n";
    }

    /** The sheet half of automate_parameter_groups. */
    method LoadSheet(df: Table) returns (err: Option<string>)
      requires Normalised(df)
      modifies this
      ensures posts == old(posts)
      ensures err.None? <==> |df| > 0 && Convert(GroupPolicy, df).error.None?
      ensures parameterList ==
        if |df| == 0 || Early(Convert(GroupPolicy, df)) then old(parameterList) else Convert(GroupPolicy, df).records
      ensures err.None? ==> responseMessages == old(responseMessages)
      ensures err.Some? ==> responseMessages == LoadFailLog(old(responseMessages), df) && err == Some(responseMessages)
    {
      var groups := GroupMergedRows(df, 0);
      var extracted := ExtractParameterGroupsData(groups, df);
      ExtractGroupingOfTable(df, 0, groups, NoObjectsToConcatenate);
      if extracted.Failure? {
        return Some(extracted.error);
      }
      err := ConvertParameterMetadataToDict(extracted.value);
    }

    /** The resolved half of the creation branch: every record posted, then the created message. */
    method CreateResolved(listData: seq<CategoryOption>, names: seq<string>, save: GroupPayload -> nat)
      returns (err: Option<string>)
      modifies this
      ensures parameterList == old(parameterList)
      ensures var payloads := Payloads(parameterList, CategoryOf(listData));
        && posts == old(posts) + Posted(payloads, save)
        && (err.None? <==> FirstRejection(payloads, save).None?)
        && (err.None? ==> posts == old(posts) + payloads && responseMessages == old(responseMessages) + CreatedMessage(names))
        && (err.Some? ==>
              responseMessages == RejectLog(old(responseMessages), FirstRejection(payloads, save).value) && err == Some(responseMessages))
    {
      ghost var payloads := Payloads(parameterList, CategoryOf(listData));
      err := CreateForEveryRecord(listData, save);
      if err.Some? {
        return err;
      }
      PostedStopsAtFirstRejection(payloads, save);
      responseMessages := responseMessages + CreatedMessage(names);
    }

    /**
     * The branch of automate_parameter_groups taken for new group names and
     * differing category sets: resolve, create, report.
     */
    method CreateGroups(names: seq<string>, cats: seq<string>, listing: seq<CategoryOption>, save: GroupPayload -> nat)
      returns (err: Option<string>)
      modifies this
      ensures parameterList == old(parameterList)
      ensures posts == old(posts) + CreationPosted(parameterList, cats, listing, save)
      ensures err.None? <==> CreationRejection(parameterList, cats, listing, save).None?
      ensures err.None? ==> posts == old(posts) + CreationSent(parameterList, cats, listing)
      ensures err.None? ==> responseMessages == old(responseMessages) + CreationLog(names, cats, listing)
      ensures err.Some? ==>
        responseMessages == RejectLog(old(responseMessages), CreationRejection(parameterList, cats, listing, save).value)
        && err == Some(responseMessages)
    {
      var listData, missing := ResolveCategories(cats, listing);
      err := CreateAndReport(listData, missing, names, save);
    }

    /** The creation branch once the categories are resolved: create under the resolved ones, then report the missing ones. */
    method CreateAndReport(listData: seq<CategoryOption>, missing: seq<string>, names: seq<string>, save: GroupPayload -> nat)
      returns (err: Option<string>)
      modifies this
      ensures parameterList == old(parameterList)
      ensures var payloads := Payloads(parameterList, CategoryOf(listData));
        var rejected := |listData| > 0 && FirstRejection(payloads, save).Some?;
        && posts == old(posts) + (if |listData| > 0 then Posted(payloads, save) else [])
        && (err.None? <==> !rejected)
        && (rejected ==>
              responseMessages == RejectLog(old(responseMessages), FirstRejection(payloads, save).value) && err == Some(responseMessages))
      ensures err.None? ==> posts == old(posts) + (if |listData| > 0 then Payloads(parameterList, CategoryOf(listData)) else [])
      ensures err.None? ==>
        responseMessages == old(responseMessages)
          + ((if |listData| > 0 then CreatedMessage(names) else "") + (if |missing| > 0 then MissingMessage(missing) else ""))
    {
      ghost var log0 := responseMessages;
      ghost var payloads := Payloads(parameterList, CategoryOf(listData));
      ghost var rejected := |listData| > 0 && FirstRejection(payloads, save).Some?;
      if |listData| > 0 {
        err := CreateResolved(listData, names, save);
      } else {
        err := None;
        assert posts + [] == posts;
      }
      assert err.None? <==> !rejected;
      if err.None? {
        ReportMissing(missing, log0, if |listData| > 0 then CreatedMessage(names) else "");
      }
    }

    /** The report of the categories that had no entry, after what the branch logged so far. */
    method ReportMissing(missing: seq<string>, ghost log0: string, ghost created: string)
      requires responseMessages == log0 + created
      modifies this
      ensures parameterList == old(parameterList) && posts == old(posts)
      ensures responseMessages == log0 + (created + if |missing| > 0 then MissingMessage(missing) else "")
    {
      ghost var reported := if |missing| > 0 then MissingMessage(missing) else "";
      if |missing| > 0 {
        responseMessages := responseMessages + MissingMessage(missing);
      }
      AppendTwice(log0, created, reported);
    }

    /** The platform half of automate_parameter_groups: the two listings, the diffs and the gates. */
    method Synchronise(groupListing: Response<GroupRow>, categoryListing: Response<CategoryOption>, save: GroupPayload -> nat)
      returns (err: Option<string>)
      modifies this
      ensures parameterList == old(parameterList)
      ensures var names := LowerFields(parameterList, "tag_group_name");
        var existingGroups := ExistingGroups(groupListing.body);
        var existingCats := ExistingLabels(categoryListing.body);
        var sheetCats := SheetCategories(parameterList);
        var reached := groupListing.status == OK && categoryListing.status == OK && names.Success? && |categoryListing.body| > 0;
        var creates := reached && (exists x :: x in names.value && x !in existingGroups) && !SameNames(sheetCats, existingCats);
        var rejection := CreationRejection(parameterList, Dedup(sheetCats), categoryListing.body, save);
        && (err.None? <==> reached && (creates ==> rejection.None?))
        && (!creates ==> posts == old(posts))
        && (groupListing.status != OK ==>
              responseMessages == ListingFailLog(old(responseMessages), groupListing.status, groupListing.text) && err == Some(responseMessages))
        && (groupListing.status == OK && categoryListing.status != OK ==>
              responseMessages == ListingFailLog(old(responseMessages), categoryListing.status, categoryListing.text)
              && err == Some(responseMessages))
        && (groupListing.status == OK && categoryListing.status == OK && names.Failure? ==>
              responseMessages == old(responseMessages) && err == Some(FaultText(names.error)))
        && (groupListing.status == OK && categoryListing.status == OK && names.Success? && |categoryListing.body| == 0 ==>
              responseMessages == old(responseMessages) && err == Some(FaultText(BoolNotSubscriptable)))
        && (reached && (forall x :: x in names.value ==> x in existingGroups) ==>
              responseMessages == old(responseMessages) + ExistsMessage(existingGroups))
        && (reached && (exists x :: x in names.value && x !in existingGroups) && SameNames(sheetCats, existingCats) ==>
              responseMessages == old(responseMessages))
        && (creates ==>
              posts == old(posts) + CreationPosted(parameterList, Dedup(sheetCats), categoryListing.body, save)
              && (rejection.None? ==>
                    posts == old(posts) + CreationSent(parameterList, Dedup(sheetCats), categoryListing.body)
                    && responseMessages == old(responseMessages) + CreationLog(names.value, Dedup(sheetCats), categoryListing.body))
              && (rejection.Some? ==> responseMessages == RejectLog(old(responseMessages), rejection.value) && err == Some(responseMessages)))
    {
      var groupRows;
      groupRows, err := CheckParameterGroups(groupListing);
      if err.Some? {
        return err;
      }
      var listed;
      listed, err := ListParameterCategory(categoryListing);
      if err.Some? {
        return err;
      }
      var existingGroups := ExistingGroups(groupRows);
      var names := LowerFields(parameterList, "tag_group_name");
      if names.Failure? {
        return Some(FaultText(names.error));
      }
      if listed.None? {
        return Some(FaultText(BoolNotSubscriptable));
      }
      var existingCats := ExistingLabels(listed.value);
      var sheetCats := SheetCategories(parameterList);
      var addedGroups := ListDifference(names.value, existingGroups);
      var addedCats := ListDifference(sheetCats, existingCats);
      var removedCats := ListDifference(existingCats, sheetCats);
      WithoutMembers(names.value, existingGroups);
      NoDifferenceIffSameNames(sheetCats, existingCats);
      if addedGroups != [] {
        assert addedGroups[0] in addedGroups;
        if addedCats != [] || removedCats != [] {
          err := CreateGroups(names.value, Dedup(sheetCats), listed.value, save);
        }
      } else {
        responseMessages := responseMessages + ExistsMessage(existingGroups);
      }
    }

    /**
     * automate_parameter_groups. When it succeeds: with no new group name
     * nothing is posted and the existing groups are reported; with new
     * names but the same categories on both sides nothing is posted and
     * nothing is reported; otherwise the creation branch runs.
     */
    method AutomateParameterGroups(df: Table, groupListing: Response<GroupRow>, categoryListing: Response<CategoryOption>,
                                   save: GroupPayload -> nat) returns (ok: bool)
      requires Normalised(df)
      modifies this
      ensures var loaded := |df| > 0 && Convert(GroupPolicy, df).error.None?;
        && parameterList ==
             (if |df| == 0 || Early(Convert(GroupPolicy, df)) then old(parameterList) else Convert(GroupPolicy, df).records)
        && (!loaded ==>
              !ok && posts == old(posts)
              && var b := LoadFailLog(old(responseMessages), df); responseMessages == b + AutomatePrefix + b + "\n")
      ensures |df| > 0 && Convert(GroupPolicy, df).error.None? ==>
        var names := LowerFields(parameterList, "tag_group_name");
        var existingGroups := ExistingGroups(groupListing.body);
        var existingCats := ExistingLabels(categoryListing.body);
        var sheetCats := SheetCategories(parameterList);
        var reached := groupListing.status == OK && categoryListing.status == OK && names.Success? && |categoryListing.body| > 0;
        var creates := reached && (exists x :: x in names.value && x !in existingGroups) && !SameNames(sheetCats, existingCats);
        var rejection := CreationRejection(parameterList, Dedup(sheetCats), categoryListing.body, save);
        && (ok <==> reached && (creates ==> rejection.None?))
        && (!creates ==> posts == old(posts))
        && (groupListing.status != OK ==>
              var b := ListingFailLog(old(responseMessages), groupListing.status, groupListing.text);
              responseMessages == b + AutomatePrefix + b + "\n")
        && (groupListing.status == OK && categoryListing.status != OK ==>
              var b := ListingFailLog(old(responseMessages), categoryListing.status, categoryListing.text);
              responseMessages == b + AutomatePrefix + b + "\n")
        && (groupListing.status == OK && categoryListing.status == OK && names.Failure? ==>
              responseMessages == old(responseMessages) + AutomatePrefix + FaultText(names.error) + "\n")
        && (groupListing.status == OK && categoryListing.status == OK && names.Success? && |categoryListing.body| == 0 ==>
              responseMessages == old(responseMessages) + AutomatePrefix + FaultText(BoolNotSubscriptable) + "\n")
        && (reached && (forall x :: x in names.value ==> x in existingGroups) ==>
              responseMessages == old(responseMessages) + ExistsMessage(existingGroups))
        && (reached && (exists x :: x in names.value && x !in existingGroups) && SameNames(sheetCats, existingCats) ==>
              responseMessages == old(responseMessages))
        && (creates ==>
              posts == old(posts) + CreationPosted(parameterList, Dedup(sheetCats), categoryListing.body, save)
              && (rejection.None? ==>
                    posts == old(posts) + CreationSent(parameterList, Dedup(sheetCats), categoryListing.body)
                    && responseMessages == old(responseMessages) + CreationLog(names.value, Dedup(sheetCats), categoryListing.body))
              && (rejection.Some? ==>
                    var b := RejectLog(old(responseMessages), rejection.value); responseMessages == b + AutomatePrefix + b + "\n"))
    {
      var err := LoadSheet(df);
      if err.Some? {
        Fail(err.value);
        return false;
      }
      err := Synchronise(groupListing, categoryListing, save);
      if err.Some? {
        Fail(err.value);
        return false;
      }
      return true;
    }
  }
}
