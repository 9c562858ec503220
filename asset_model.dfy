/**
 * `scripts/core/handlers/asset_model.py`: the Asset Model sheet becomes one
 * record per asset model (header on the second row). The platform is
 * searched record by record until a search returns models; the names it
 * returns decide the routing. A record whose lower-cased name is not among
 * them is created: its basic information is posted (with the first
 * drop-down industry whose name matches), then its parameters. When some
 * returned name is not on the sheet, every other record is offered a next
 * version: with "increment version" set to yes, the basic information is
 * posted again for each returned model whose name equals the record's
 * exactly, carrying that model's id and version.
 *
 * The basic-information POST is modelled in full. What the parameter step
 * does after it (tag listings, `add_parameter`, the second save) is an
 * input `attach`: for a record and the saved model it gives `None` when
 * the step succeeds, or the text the step appended to the buffer before it
 * raised. The tag filtering that step relies on is modelled on its own.
 */
module AssetModel {
  import opened Wrappers
  import opened Text
  import opened Sheet
  import opened Metadata
  import opened Remote

  /** `AssetModelConstants.asset_model_metadata`. */
  const AssetLabels: map<string, string> := map[
    "asset model name" := "asset_model_name",
    "description" := "description",
    "industry" := "industry",
    "select type" := "select_type",
    "parameter group/parameter category" := "parameter_groups/parameter_category",
    "increment version" := "increment_version"]

  const AssetPolicy := Policy(
    AssetLabels, 1,
    [Required("asset_model_name", NaNOrBlank, Numbered("Asset Model Name is missing in row number ")),
     Required("description", NaNOrBlank, Numbered("Asset Model Description is missing in row number ")),
     Required("industry", NaNOrBlank, Numbered("Asset Model industry is missing in row number "))],
    true, true)

  const TagColumn := "parameter_groups/parameter_category"

  // ------------------------------------------------------------ platform data

  /** A row of the asset model listing (`data.tableData.bodyContent`). */
  datatype AssetModelEntry = AssetModelEntry(assetModelName: string, assetModelId: string, assetVersion: string)

  /** An entry of the industry drop-down. */
  datatype IndustryOption = IndustryOption(industryCategoryName: string, industryCategoryId: string)

  /** An entry of a tag listing: group or category name, and the id the caller keeps. */
  datatype TagOption = TagOption(name: string, id: string)

  /** The `data` of a basic-info payload; `incrementVersion` false means the key is absent. */
  datatype BasicInfo = BasicInfo(
    assetModelName: Cell, assetDescription: Cell, industry: string, industryCategoryId: string, incrementVersion: bool)

  /** The fields of `asset_model_creation_json` a basic-info POST carries (`key_type` is "basic_info"). */
  datatype BasicInfoPayload = BasicInfoPayload(assetModelId: string, assetVersion: string, assetModelName: Cell, data: BasicInfo)

  /** The `data` of a successful save: the created model. */
  datatype ModelRef = ModelRef(assetModelId: string, assetVersion: string)

  /** The answer to a basic-info POST; `data` is `None` when the response carries no (or an empty) `data`. */
  datatype SaveReply = SaveReply(status: nat, data: Option<ModelRef>)

  // ------------------------------------------------------------ messages

  const AutomatePrefix := "Error while automating asset model: "
  const ExtractPrefix := "Error while extracting asset model data: "
  const ConvertPrefix := "Error while converting Asset model metadata to dict: "
  const CreatePrefix := "Error while creating Asset model: "
  const BasicPrefix := "Error while creating Asset model basic info: "
  const ParameterPrefix := "Error while creating Asset model parameter: "
  const DropDownPrefix := "Error while fetching Asset model drop down data: "
  const GroupPrefix := "Error while fetching Asset model parameter group: "
  const CategoryPrefix := "Error while fetching Asset model parameter category: "
  const TagsPrefix := "Error while getting Asset model tags: "
  const Refused := "Failed to fetch asset model data\n"

  function FailedFetch(status: nat, text: string): string {
    "Failed to fetch asset model data. " + StatusReport(status, text) + "\n"
  }

  /** The buffer after the sheet half fails: no group to stitch, or a row that does not convert. */
  function LoadFailLog(before: string, df: Table): string
    requires Rectangular(df)
  {
    var c := Convert(AssetPolicy, df);
    if |df| == 0 then before + ExtractPrefix + NoValidGroups + "\n"
    else if c.error.Some? then ConvertFailureLog(before, ConvertPrefix, AssetPolicy, c.error.value)
    else before
  }

  /** The buffer after the existence check stops early. */
  function SearchFailLog(before: string, stop: SearchStop): string {
    if stop.SearchRejected? then before + FailedFetch(stop.status, stop.text) else before
  }

  /** An f-string of a cell: NaN prints as `None`. */
  function CellText(c: Cell): string {
    if c.Some? then c.value else "None"
  }

  function NotFound(industry: Cell): string {
    "Industry " + CellText(industry) + " not found\n"
  }

  function CreatedMessage(added: seq<string>): string {
    "Created Asset Model: " + ListRepr(added) + "\n"
  }

  function ExistsMessage(existing: seq<string>): string {
    "Asset Model Information Exists: " + ListRepr(existing) + "\n"
  }

  function Incremented(name: Cell): string {
    "Incremented the version of the Asset Model: " + CellText(name) + "\n"
  }

  // ------------------------------------------------- industry and tag lookup

  /** The first drop-down entry whose lower-cased name is `industry`. */
  function FirstIndustry(rows: seq<IndustryOption>, industry: string): (r: Option<IndustryOption>)
    ensures r.None? <==> forall k :: 0 <= k < |rows| ==> Lower(rows[k].industryCategoryName) != industry
    ensures r.Some? ==>
      exists k :: 0 <= k < |rows| && rows[k] == r.value && Lower(rows[k].industryCategoryName) == industry
        && forall j :: 0 <= j < k ==> Lower(rows[j].industryCategoryName) != industry
  {
    if |rows| == 0 then None
    else if Lower(rows[0].industryCategoryName) == industry then Some(rows[0])
    else
      var r := FirstIndustry(rows[1..], industry);
      assert forall k :: 1 <= k < |rows| ==> rows[k] == rows[1..][k - 1];
      r
  }

  /** The buffer after get_drop_down_data, and its result: the match, or the text of the error raised. */
  datatype Lookup = Lookup(buf: string, result: Result<Option<IndustryOption>, string>)

  function DropDown(b: string, rec: Record, listing: Response<IndustryOption>): Lookup {
    if listing.status != OK then
      var b1 := b + FailedFetch(listing.status, listing.text);
      var b2 := b1 + DropDownPrefix + HttpErrorText(listing.status, b1) + "\n";
      Lookup(b2, Failure(b2))
    else if |listing.body| == 0 then Lookup(b, Success(None))
    else
      match LowerField(rec, "industry")
      case Failure(f) => var b2 := b + DropDownPrefix + FaultText(f) + "\n"; Lookup(b2, Failure(b2))
      case Success(industry) => Lookup(b, Success(FirstIndustry(listing.body, industry)))
  }

  /** The tag names of a record, or the error reading its tag cell raises. */
  function TagCell(rec: Record): Result<seq<string>, Fault> {
    if TagColumn !in rec then Failure(KeyMissing(TagColumn))
    else if rec[TagColumn].None? then Failure(NoneHasNo("replace"))
    else Success(TagNames(rec[TagColumn].value))
  }

  /** `any(t.lower() == name.lower() for t in tags)`. */
  predicate Named(tags: seq<string>, name: string) {
    exists k :: 0 <= k < |tags| && Lower(tags[k]) == Lower(name)
  }

  /** The ids, in listing order, of the entries named by one of the tags. */
  function TagIds(rows: seq<TagOption>, tags: seq<string>): (ids: seq<string>)
    ensures |ids| <= |rows|
  {
    if |rows| == 0 then []
    else
      var n := |rows| - 1;
      TagIds(rows[..n], tags) + (if Named(tags, rows[n].name) then [rows[n].id] else [])
  }

  /** An id is kept exactly when some entry carrying it is named by one of the tags. */
  lemma {:induction false} TagIdsMembers(rows: seq<TagOption>, tags: seq<string>)
    ensures forall x :: x in TagIds(rows, tags) <==> exists k :: 0 <= k < |rows| && rows[k].id == x && Named(tags, rows[k].name)
  {
    if |rows| > 0 {
      var n := |rows| - 1;
      TagIdsMembers(rows[..n], tags);
      assert forall k :: 0 <= k < n ==> rows[..n][k] == rows[k];
    }
  }

  /** Keeping ids is monotone along the listing: an entry's id is kept exactly when the entry is named. */
  lemma TagIdsStep(rows: seq<TagOption>, tags: seq<string>, i: nat)
    requires i < |rows|
    ensures TagIds(rows[..i + 1], tags) == TagIds(rows[..i], tags) + (if Named(tags, rows[i].name) then [rows[i].id] else [])
  {
    assert rows[..i + 1][..i] == rows[..i];
  }

  // ------------------------------------------------------------ basic info

  /** The buffer and the basic-info POSTs made so far. */
  datatype State = State(posts: seq<BasicInfoPayload>, buf: string)

  /** A step that may raise: `error` is the text of the exception it raised. */
  datatype Step = Step(state: State, error: Option<string>)

  /** The outcome of create_asset_model_basic_info: the saved model (or `None`), or the error raised. */
  datatype Outcome = Outcome(state: State, result: Result<Option<ModelRef>, string>)

  /** An `except` clause that appends its prefix and the error, then raises the whole buffer. */
  function Raise(s: State, prefix: string, e: string): Step {
    var b := s.buf + prefix + e + "\n";
    Step(State(s.posts, b), Some(b))
  }

  function RaiseSaved(s: State, prefix: string, e: string): Outcome {
    var b := s.buf + prefix + e + "\n";
    Outcome(State(s.posts, b), Failure(b))
  }

  /** The basic-info payload of a record for a resolved industry, a model id and a version. */
  function PayloadFor(rec: Record, m: IndustryOption, id: string, version: string, increment: bool): (p: BasicInfoPayload)
    requires "asset_model_name" in rec && "description" in rec
  {
    BasicInfoPayload(id, version, rec["asset_model_name"],
      BasicInfo(rec["asset_model_name"], rec["description"], m.industryCategoryName, m.industryCategoryId, increment))
  }

  /**
   * The payload basic-info creation posts for a record, if it gets as far as
   * the POST: the record has a name and a description, the drop-down is
   * fetched and holds an entry matching the record's industry, and its
   * increment-version cell is text.
   */
  function BasicInfoFor(rec: Record, listing: Response<IndustryOption>, id: string, version: string): (p: Option<BasicInfoPayload>)
    ensures p.Some? ==>
      && p.value.assetModelId == id && p.value.assetVersion == version
      && "asset_model_name" in rec && p.value.assetModelName == rec["asset_model_name"]
      && p.value.data.assetModelName == rec["asset_model_name"]
      && "description" in rec && p.value.data.assetDescription == rec["description"]
      && (p.value.data.incrementVersion <==> LowerField(rec, "increment_version") == Success("yes"))
      && listing.status == OK && LowerField(rec, "industry").Success?
      && exists k :: 0 <= k < |listing.body|
           && Lower(listing.body[k].industryCategoryName) == LowerField(rec, "industry").value
           && p.value.data.industry == listing.body[k].industryCategoryName
           && p.value.data.industryCategoryId == listing.body[k].industryCategoryId
           && forall j :: 0 <= j < k ==> Lower(listing.body[j].industryCategoryName) != LowerField(rec, "industry").value
  {
    if "asset_model_name" !in rec || listing.status != OK || |listing.body| == 0 then None
    else match LowerField(rec, "industry")
      case Failure(_) => None
      case Success(industry) =>
        match FirstIndustry(listing.body, industry)
        case None => None
        case Some(m) =>
          if "description" !in rec then None
          else match LowerField(rec, "increment_version")
            case Failure(_) => None
            case Success(inc) => Some(PayloadFor(rec, m, id, version, inc == "yes"))
  }

  /** The same as a list of zero or one payloads. */
  function Posting(rec: Record, listing: Response<IndustryOption>, id: string, version: string): seq<BasicInfoPayload> {
    var p := BasicInfoFor(rec, listing, id, version);
    if p.Some? then [p.value] else []
  }

  /** create_asset_model_basic_info, step by step. */
  function BasicInfoStep(s: State, rec: Record, listing: Response<IndustryOption>, id: string, version: string,
                         save: BasicInfoPayload -> SaveReply): Outcome
  {
    if "asset_model_name" !in rec then RaiseSaved(s, BasicPrefix, FaultText(KeyMissing("asset_model_name")))
    else
      var d := DropDown(s.buf, rec, listing);
      var s1 := State(s.posts, d.buf);
      match d.result
      case Failure(e) => RaiseSaved(s1, BasicPrefix, e)
      case Success(None) =>
        if "industry" !in rec then RaiseSaved(s1, BasicPrefix, FaultText(KeyMissing("industry")))
        else
          var b := s1.buf + NotFound(rec["industry"]);
          RaiseSaved(State(s.posts, b), BasicPrefix, b)
      case Success(Some(m)) =>
        if "description" !in rec then RaiseSaved(s1, BasicPrefix, FaultText(KeyMissing("description")))
        else
          match LowerField(rec, "increment_version")
          case Failure(f) => RaiseSaved(s1, BasicPrefix, FaultText(f))
          case Success(inc) =>
            var p := PayloadFor(rec, m, id, version, inc == "yes");
            var reply := save(p);
            if reply.status != OK then
              var b := s1.buf + Refused;
              RaiseSaved(State(s.posts + [p], b), BasicPrefix, HttpErrorText(reply.status, b))
            else Outcome(State(s.posts + [p], s1.buf), Success(reply.data))
  }

  /**
   * What basic-info creation posts is the payload `BasicInfoFor` describes,
   * and nothing when it describes none; it succeeds exactly when that
   * payload is accepted, returns the saved model and leaves the buffer
   * alone, and otherwise raises the buffer it leaves.
   */
  lemma BasicInfoPosts(s: State, rec: Record, listing: Response<IndustryOption>, id: string, version: string,
                       save: BasicInfoPayload -> SaveReply)
    ensures var r := BasicInfoStep(s, rec, listing, id, version, save);
      var p := BasicInfoFor(rec, listing, id, version);
      && r.state.posts == s.posts + Posting(rec, listing, id, version)
      && (r.result.Success? <==> p.Some? && save(p.value).status == OK)
      && (r.result.Success? ==> r.result.value == save(p.value).data && r.state.buf == s.buf)
      && (r.result.Failure? ==> r.result.error == r.state.buf)
  {
  }

  /**
   * An industry the drop-down does not list is reported by name and stops
   * the creation, with nothing posted.
   */
  lemma UnknownIndustryIsReported(s: State, rec: Record, listing: Response<IndustryOption>, id: string, version: string,
                                  save: BasicInfoPayload -> SaveReply)
    requires "asset_model_name" in rec && "industry" in rec && rec["industry"].Some?
    requires listing.status == OK
    requires forall k :: 0 <= k < |listing.body| ==> Lower(listing.body[k].industryCategoryName) != Lower(rec["industry"].value)
    ensures var r := BasicInfoStep(s, rec, listing, id, version, save);
      var b := s.buf + "Industry " + rec["industry"].value + " not found\n";
      && r.state == State(s.posts, b + BasicPrefix + b + "\n")
      && r.result == Failure(r.state.buf)
  {
    assert LowerField(rec, "industry") == Success(Lower(rec["industry"].value));
    assert FirstIndustry(listing.body, Lower(rec["industry"].value)).None?;
    assert DropDown(s.buf, rec, listing) == Lookup(s.buf, Success(None));
    BasicInfoNotFound(s, rec, listing, id, version, save);
    assert NotFound(rec["industry"]) == "Industry " + rec["industry"].value + " not found\n";
  }

  /** A drop-down without a match makes basic-info creation raise the not-found message. */
  lemma BasicInfoNotFound(s: State, rec: Record, listing: Response<IndustryOption>, id: string, version: string,
                          save: BasicInfoPayload -> SaveReply)
    requires "asset_model_name" in rec && "industry" in rec
    requires DropDown(s.buf, rec, listing) == Lookup(s.buf, Success(None))
    ensures var b := s.buf + NotFound(rec["industry"]);
      BasicInfoStep(s, rec, listing, id, version, save) == RaiseSaved(State(s.posts, b), BasicPrefix, b)
  {
  }

  /** create_asset_model_parameters as far as it is modelled: the saved model is read, then `attach` runs. */
  function ParameterStep(s: State, rec: Record, saved: Option<ModelRef>, attach: (Record, ModelRef) -> Option<string>): Step {
    match saved
    case None =>
      var b := s.buf + ParameterPrefix + FaultText(NoneHasNo("get")) + "\n";
      Step(State(s.posts, b), Some(b))
    case Some(m) =>
      match attach(rec, m)
      case None => Step(s, None)
      case Some(t) => var b := s.buf + t; Step(State(s.posts, b), Some(b))
  }

  /** create_asset_model: basic info from a fresh payload, then the parameters. */
  function CreateStep(s: State, rec: Record, listing: Response<IndustryOption>, save: BasicInfoPayload -> SaveReply,
                      attach: (Record, ModelRef) -> Option<string>): Step
  {
    var r := BasicInfoStep(s, rec, listing, "", "", save);
    match r.result
    case Failure(e) => Raise(r.state, CreatePrefix, e)
    case Success(saved) =>
      var q := ParameterStep(r.state, rec, saved, attach);
      if q.error.Some? then Raise(q.state, CreatePrefix, q.error.value) else q
  }

  /**
   * A loop of automate_asset_model over the first n records: `step` runs on
   * each record that `take` marks, until one step raises; the raise ends the
   * loop with that step's state and error.
   */
  function Loop(s: State, records: seq<Record>, take: seq<bool>, step: (State, Record) -> Step, n: nat): Step
    requires |take| == |records| && n <= |records|
  {
    if n == 0 then Step(s, None)
    else
      var prev := Loop(s, records, take, step, n - 1);
      if prev.error.Some? || !take[n - 1] then prev else step(prev.state, records[n - 1])
  }

  /** Once a step has raised, the loop stays where it stopped. */
  lemma {:induction false} LoopStaysFailed(s: State, records: seq<Record>, take: seq<bool>, step: (State, Record) -> Step, m: nat, n: nat)
    requires |take| == |records| && m <= n <= |records| && Loop(s, records, take, step, m).error.Some?
    ensures Loop(s, records, take, step, n) == Loop(s, records, take, step, m)
    decreases n
  {
    if n > m {
      LoopStaysFailed(s, records, take, step, m, n - 1);
    }
  }

  /** For each name, whether it is (`want`) or is not (`!want`) in `added`. */
  function Marks(names: seq<string>, added: seq<string>, want: bool): (take: seq<bool>)
    ensures |take| == |names| && forall k :: 0 <= k < |names| ==> (take[k] <==> (names[k] in added) == want)
  {
    seq(|names|, k requires 0 <= k < |names| => (names[k] in added) == want)
  }

  function Creating(listing: Response<IndustryOption>, save: BasicInfoPayload -> SaveReply,
                    attach: (Record, ModelRef) -> Option<string>): (State, Record) -> Step
  {
    (st: State, rec: Record) => CreateStep(st, rec, listing, save, attach)
  }

  /** The loop of automate_asset_model over the first n records whose name is in `added`. */
  function CreateRun(s: State, records: seq<Record>, names: seq<string>, added: seq<string>, listing: Response<IndustryOption>,
                     save: BasicInfoPayload -> SaveReply, attach: (Record, ModelRef) -> Option<string>, n: nat): Step
    requires |names| == |records| && n <= |records|
  {
    Loop(s, records, Marks(names, added, true), Creating(listing, save, attach), n)
  }

  /** The payloads a creation loop posts when it goes through: one per selected record. */
  function Postings(recs: seq<Record>, listing: Response<IndustryOption>, id: string, version: string): seq<BasicInfoPayload> {
    if |recs| == 0 then []
    else Postings(recs[..|recs| - 1], listing, id, version) + Posting(recs[|recs| - 1], listing, id, version)
  }

  lemma CreateStepPosts(s: State, rec: Record, listing: Response<IndustryOption>, save: BasicInfoPayload -> SaveReply,
                        attach: (Record, ModelRef) -> Option<string>)
    ensures CreateStep(s, rec, listing, save, attach).state.posts == s.posts + Posting(rec, listing, "", "")
  {
    BasicInfoPosts(s, rec, listing, "", "", save);
  }

  /**
   * A creation loop that goes through has posted, in sheet order, the basic
   * information of exactly the records whose name is in `added`, each with
   * no model id and no version.
   */
  lemma {:induction false} CreateRunPosts(s: State, records: seq<Record>, names: seq<string>, added: seq<string>,
                                          listing: Response<IndustryOption>, save: BasicInfoPayload -> SaveReply,
                                          attach: (Record, ModelRef) -> Option<string>, n: nat)
    requires |names| == |records| && n <= |records|
    ensures var r := CreateRun(s, records, names, added, listing, save, attach, n);
      r.error.None? ==> r.state.posts == s.posts + Postings(Selected(records[..n], names[..n], added), listing, "", "")
  {
    if n > 0 {
      CreateRunPosts(s, records, names, added, listing, save, attach, n - 1);
      var prev := CreateRun(s, records, names, added, listing, save, attach, n - 1);
      if prev.error.None? && names[n - 1] in added {
        CreateRunTakes(s, records, names, added, listing, save, attach, n);
      } else {
        CreateRunSkips(s, records, names, added, listing, save, attach, n);
      }
    }
  }

  /** A failed loop stays failed, and a record not selected adds no step. */
  lemma CreateRunSkips(s: State, records: seq<Record>, names: seq<string>, added: seq<string>,
                       listing: Response<IndustryOption>, save: BasicInfoPayload -> SaveReply,
                       attach: (Record, ModelRef) -> Option<string>, n: nat)
    requires |names| == |records| && 0 < n <= |records|
    requires CreateRun(s, records, names, added, listing, save, attach, n - 1).error.Some? || names[n - 1] !in added
    ensures CreateRun(s, records, names, added, listing, save, attach, n) == CreateRun(s, records, names, added, listing, save, attach, n - 1)
    ensures names[n - 1] !in added ==> Selected(records[..n], names[..n], added) == Selected(records[..n - 1], names[..n - 1], added)
  {
    SelectedStep(records, names, added, n - 1);
  }

  /** The record at n - 1 is selected and the loop has gone through so far: its creation is the next step. */
  lemma CreateRunTakes(s: State, records: seq<Record>, names: seq<string>, added: seq<string>,
                       listing: Response<IndustryOption>, save: BasicInfoPayload -> SaveReply,
                       attach: (Record, ModelRef) -> Option<string>, n: nat)
    requires |names| == |records| && 0 < n <= |records| && names[n - 1] in added
    requires CreateRun(s, records, names, added, listing, save, attach, n - 1).error.None?
    requires CreateRun(s, records, names, added, listing, save, attach, n - 1).state.posts
      == s.posts + Postings(Selected(records[..n - 1], names[..n - 1], added), listing, "", "")
    ensures var r := CreateRun(s, records, names, added, listing, save, attach, n);
      r.state.posts == s.posts + Postings(Selected(records[..n], names[..n], added), listing, "", "")
  {
    var prev := CreateRun(s, records, names, added, listing, save, attach, n - 1);
    var sel := Selected(records[..n - 1], names[..n - 1], added);
    var rec := records[n - 1];
    SelectedStep(records, names, added, n - 1);
    assert Selected(records[..n], names[..n], added) == sel + [rec];
    calc {
      CreateRun(s, records, names, added, listing, save, attach, n).state.posts;
      { CreateRunNextPosts(s, records, names, added, listing, save, attach, n); }
      prev.state.posts + Posting(rec, listing, "", "");
      s.posts + Postings(sel, listing, "", "") + Posting(rec, listing, "", "");
      { AppendTwice(s.posts, Postings(sel, listing, "", ""), Posting(rec, listing, "", "")); }
      s.posts + (Postings(sel, listing, "", "") + Posting(rec, listing, "", ""));
      { PostingsAppend(sel, rec, listing, "", ""); }
      s.posts + Postings(sel + [rec], listing, "", "");
    }
  }

  /** The next creation step adds the posting of its own record. */
  lemma CreateRunNextPosts(s: State, records: seq<Record>, names: seq<string>, added: seq<string>,
                           listing: Response<IndustryOption>, save: BasicInfoPayload -> SaveReply,
                           attach: (Record, ModelRef) -> Option<string>, n: nat)
    requires |names| == |records| && 0 < n <= |records| && names[n - 1] in added
    requires CreateRun(s, records, names, added, listing, save, attach, n - 1).error.None?
    ensures CreateRun(s, records, names, added, listing, save, attach, n).state.posts
      == CreateRun(s, records, names, added, listing, save, attach, n - 1).state.posts + Posting(records[n - 1], listing, "", "")
  {
    CreateRunNext(s, records, names, added, listing, save, attach, n);
    CreateStepPosts(CreateRun(s, records, names, added, listing, save, attach, n - 1).state, records[n - 1], listing, save, attach);
  }

  /** A failed loop adds no step. */
  lemma CreateRunStopped(s: State, records: seq<Record>, names: seq<string>, added: seq<string>,
                         listing: Response<IndustryOption>, save: BasicInfoPayload -> SaveReply,
                         attach: (Record, ModelRef) -> Option<string>, n: nat)
    requires |names| == |records| && 0 < n <= |records|
    requires CreateRun(s, records, names, added, listing, save, attach, n - 1).error.Some? || names[n - 1] !in added
    ensures CreateRun(s, records, names, added, listing, save, attach, n) == CreateRun(s, records, names, added, listing, save, attach, n - 1)
  {
  }

  /** A selected record of a loop that has gone through so far is created next. */
  lemma CreateRunNext(s: State, records: seq<Record>, names: seq<string>, added: seq<string>,
                      listing: Response<IndustryOption>, save: BasicInfoPayload -> SaveReply,
                      attach: (Record, ModelRef) -> Option<string>, n: nat)
    requires |names| == |records| && 0 < n <= |records| && names[n - 1] in added
    requires CreateRun(s, records, names, added, listing, save, attach, n - 1).error.None?
    ensures CreateRun(s, records, names, added, listing, save, attach, n)
      == CreateStep(CreateRun(s, records, names, added, listing, save, attach, n - 1).state, records[n - 1], listing, save, attach)
  {
  }

  lemma PostingsAppend(recs: seq<Record>, rec: Record, listing: Response<IndustryOption>, id: string, version: string)
    ensures Postings(recs + [rec], listing, id, version) == Postings(recs, listing, id, version) + Posting(rec, listing, id, version)
  {
    assert (recs + [rec])[..|recs|] == recs;
  }

  lemma CreateRunStaysFailed(s: State, records: seq<Record>, names: seq<string>, added: seq<string>,
                                                listing: Response<IndustryOption>, save: BasicInfoPayload -> SaveReply,
                                                attach: (Record, ModelRef) -> Option<string>, m: nat, n: nat)
    requires |names| == |records| && m <= n <= |records|
    requires CreateRun(s, records, names, added, listing, save, attach, m).error.Some?
    ensures CreateRun(s, records, names, added, listing, save, attach, n) == CreateRun(s, records, names, added, listing, save, attach, m)
  {
    LoopStaysFailed(s, records, Marks(names, added, true), Creating(listing, save, attach), m, n);
  }

  // ------------------------------------------------------------ next version

  /** The record's name equals the listed model's name exactly (no case folding). */
  predicate SameModel(rec: Record, e: AssetModelEntry) {
    "asset_model_name" in rec && rec["asset_model_name"] == Some(e.assetModelName)
  }

  /** The loop of add_next_version over the first n listed models. */
  function NextVersionEntries(s: State, rec: Record, rows: seq<AssetModelEntry>, listing: Response<IndustryOption>,
                              save: BasicInfoPayload -> SaveReply, attach: (Record, ModelRef) -> Option<string>, n: nat): Step
    requires n <= |rows|
  {
    if n == 0 then Step(s, None)
    else
      var prev := NextVersionEntries(s, rec, rows, listing, save, attach, n - 1);
      var e := rows[n - 1];
      if prev.error.Some? then prev
      else if "asset_model_name" !in rec then Raise(prev.state, CreatePrefix, FaultText(KeyMissing("asset_model_name")))
      else if !SameModel(rec, e) then prev
      else
        var r := BasicInfoStep(prev.state, rec, listing, e.assetModelId, e.assetVersion, save);
        match r.result
        case Failure(x) => Raise(r.state, CreatePrefix, x)
        case Success(None) => Step(r.state, None)
        case Success(Some(m)) =>
          var q := ParameterStep(r.state, rec, Some(m), attach);
          if q.error.Some? then Raise(q.state, CreatePrefix, q.error.value)
          else Step(State(q.state.posts, q.state.buf + Incremented(rec["asset_model_name"])), None)
  }

  /** add_next_version: nothing unless the record's increment-version cell reads "yes" in any case. */
  function NextVersionStep(s: State, rec: Record, rows: seq<AssetModelEntry>, listing: Response<IndustryOption>,
                           save: BasicInfoPayload -> SaveReply, attach: (Record, ModelRef) -> Option<string>): Step
  {
    match LowerField(rec, "increment_version")
    case Failure(f) => Raise(s, CreatePrefix, FaultText(f))
    case Success(inc) =>
      if inc != "yes" then Step(s, None)
      else NextVersionEntries(s, rec, rows, listing, save, attach, |rows|)
  }

  /** The payloads posted for a record: one per listed model of exactly its name, with that model's id and version. */
  function VersionPostings(rec: Record, rows: seq<AssetModelEntry>, listing: Response<IndustryOption>): seq<BasicInfoPayload> {
    if |rows| == 0 then []
    else
      var e := rows[|rows| - 1];
      VersionPostings(rec, rows[..|rows| - 1], listing)
        + (if SameModel(rec, e) then Posting(rec, listing, e.assetModelId, e.assetVersion) else [])
  }

  function NextPostings(rec: Record, rows: seq<AssetModelEntry>, listing: Response<IndustryOption>): seq<BasicInfoPayload> {
    if LowerField(rec, "increment_version") == Success("yes") then VersionPostings(rec, rows, listing) else []
  }

  lemma {:induction false} NextVersionEntriesPosts(s: State, rec: Record, rows: seq<AssetModelEntry>, listing: Response<IndustryOption>,
                                                   save: BasicInfoPayload -> SaveReply, attach: (Record, ModelRef) -> Option<string>, n: nat)
    requires n <= |rows|
    ensures var r := NextVersionEntries(s, rec, rows, listing, save, attach, n);
      r.error.None? ==> r.state.posts == s.posts + VersionPostings(rec, rows[..n], listing)
  {
    if n > 0 {
      NextVersionEntriesPosts(s, rec, rows, listing, save, attach, n - 1);
      NextVersionEntriesStep(s, rec, rows, listing, save, attach, n);
      assert rows[..n][..n - 1] == rows[..n - 1];
    }
  }

  /** One listed model: a pass that goes through posts the record's basic information under that model, if it is the record's. */
  lemma NextVersionEntriesStep(s: State, rec: Record, rows: seq<AssetModelEntry>, listing: Response<IndustryOption>,
                               save: BasicInfoPayload -> SaveReply, attach: (Record, ModelRef) -> Option<string>, n: nat)
    requires 0 < n <= |rows|
    ensures var prev := NextVersionEntries(s, rec, rows, listing, save, attach, n - 1);
      var r := NextVersionEntries(s, rec, rows, listing, save, attach, n);
      var e := rows[n - 1];
      r.error.None? ==> (prev.error.None?
        && r.state.posts == prev.state.posts + (if SameModel(rec, e) then Posting(rec, listing, e.assetModelId, e.assetVersion) else []))
  {
    var prev := NextVersionEntries(s, rec, rows, listing, save, attach, n - 1);
    var e := rows[n - 1];
    if prev.error.None? && SameModel(rec, e) {
      BasicInfoPosts(prev.state, rec, listing, e.assetModelId, e.assetVersion, save);
    }
  }

  /**
   * A next-version call that goes through has posted nothing unless the
   * record asks for a new version, and then the basic information once per
   * listed model of exactly the record's name, carrying that model's id and
   * version.
   */
  lemma NextVersionPosts(s: State, rec: Record, rows: seq<AssetModelEntry>, listing: Response<IndustryOption>,
                         save: BasicInfoPayload -> SaveReply, attach: (Record, ModelRef) -> Option<string>)
    ensures var r := NextVersionStep(s, rec, rows, listing, save, attach);
      r.error.None? ==> r.state.posts == s.posts + NextPostings(rec, rows, listing)
  {
    if LowerField(rec, "increment_version") == Success("yes") {
      NextVersionEntriesPosts(s, rec, rows, listing, save, attach, |rows|);
      assert rows[..|rows|] == rows;
    }
  }

  /** Every payload a next version posts carries a listed model's id and version and the record's own name. */
  lemma {:induction false} VersionPostingsTargets(rec: Record, rows: seq<AssetModelEntry>, listing: Response<IndustryOption>)
    ensures forall p :: p in VersionPostings(rec, rows, listing) ==>
      exists k :: 0 <= k < |rows| && SameModel(rec, rows[k])
        && p.assetModelId == rows[k].assetModelId && p.assetVersion == rows[k].assetVersion
        && Some(rows[k].assetModelName) == p.assetModelName
  {
    if |rows| > 0 {
      var n := |rows| - 1;
      VersionPostingsTargets(rec, rows[..n], listing);
      assert forall k :: 0 <= k < n ==> rows[..n][k] == rows[k];
    }
  }

  lemma {:induction false} NextVersionEntriesStayFailed(s: State, rec: Record, rows: seq<AssetModelEntry>, listing: Response<IndustryOption>,
                                                        save: BasicInfoPayload -> SaveReply, attach: (Record, ModelRef) -> Option<string>,
                                                        m: nat, n: nat)
    requires m <= n <= |rows|
    requires NextVersionEntries(s, rec, rows, listing, save, attach, m).error.Some?
    ensures NextVersionEntries(s, rec, rows, listing, save, attach, n) == NextVersionEntries(s, rec, rows, listing, save, attach, m)
    decreases n
  {
    if n > m {
      NextVersionEntriesStayFailed(s, rec, rows, listing, save, attach, m, n - 1);
    }
  }

  /** The next-version loop of automate_asset_model over the first n records whose name is not in `added`. */
  function NextRun(s: State, records: seq<Record>, names: seq<string>, added: seq<string>, rows: seq<AssetModelEntry>,
                   listing: Response<IndustryOption>, save: BasicInfoPayload -> SaveReply,
                   attach: (Record, ModelRef) -> Option<string>, n: nat): Step
    requires |names| == |records| && n <= |records|
  {
    Loop(s, records, Marks(names, added, false), Versioning(rows, listing, save, attach), n)
  }

  function Versioning(rows: seq<AssetModelEntry>, listing: Response<IndustryOption>, save: BasicInfoPayload -> SaveReply,
                      attach: (Record, ModelRef) -> Option<string>): (State, Record) -> Step
  {
    (st: State, rec: Record) => NextVersionStep(st, rec, rows, listing, save, attach)
  }

  function AllNextPostings(records: seq<Record>, names: seq<string>, added: seq<string>, rows: seq<AssetModelEntry>,
                           listing: Response<IndustryOption>): seq<BasicInfoPayload>
    requires |names| == |records|
  {
    if |records| == 0 then []
    else
      var n := |records| - 1;
      AllNextPostings(records[..n], names[..n], added, rows, listing)
        + (if names[n] in added then [] else NextPostings(records[n], rows, listing))
  }

  lemma {:induction false} NextRunPosts(s: State, records: seq<Record>, names: seq<string>, added: seq<string>, rows: seq<AssetModelEntry>,
                                        listing: Response<IndustryOption>, save: BasicInfoPayload -> SaveReply,
                                        attach: (Record, ModelRef) -> Option<string>, n: nat)
    requires |names| == |records| && n <= |records|
    ensures var r := NextRun(s, records, names, added, rows, listing, save, attach, n);
      r.error.None? ==> r.state.posts == s.posts + AllNextPostings(records[..n], names[..n], added, rows, listing)
  {
    if n > 0 {
      NextRunPosts(s, records, names, added, rows, listing, save, attach, n - 1);
      NextRunStep(s, records, names, added, rows, listing, save, attach, n);
      assert records[..n][..n - 1] == records[..n - 1] && names[..n][..n - 1] == names[..n - 1];
    }
  }

  /** One record: a pass that goes through posts its next versions, unless its name is a new model. */
  lemma NextRunStep(s: State, records: seq<Record>, names: seq<string>, added: seq<string>, rows: seq<AssetModelEntry>,
                    listing: Response<IndustryOption>, save: BasicInfoPayload -> SaveReply,
                    attach: (Record, ModelRef) -> Option<string>, n: nat)
    requires |names| == |records| && 0 < n <= |records|
    ensures var prev := NextRun(s, records, names, added, rows, listing, save, attach, n - 1);
      var r := NextRun(s, records, names, added, rows, listing, save, attach, n);
      r.error.None? ==> (prev.error.None?
        && r.state.posts == prev.state.posts + (if names[n - 1] in added then [] else NextPostings(records[n - 1], rows, listing)))
  {
    var prev := NextRun(s, records, names, added, rows, listing, save, attach, n - 1);
    if prev.error.None? && names[n - 1] !in added {
      NextVersionPosts(prev.state, records[n - 1], rows, listing, save, attach);
    }
  }

  lemma NextRunStaysFailed(s: State, records: seq<Record>, names: seq<string>, added: seq<string>, rows: seq<AssetModelEntry>,
                                              listing: Response<IndustryOption>, save: BasicInfoPayload -> SaveReply,
                                              attach: (Record, ModelRef) -> Option<string>, m: nat, n: nat)
    requires |names| == |records| && m <= n <= |records|
    requires NextRun(s, records, names, added, rows, listing, save, attach, m).error.Some?
    ensures NextRun(s, records, names, added, rows, listing, save, attach, n) == NextRun(s, records, names, added, rows, listing, save, attach, m)
  {
    LoopStaysFailed(s, records, Marks(names, added, false), Versioning(rows, listing, save, attach), m, n);
  }

  // ------------------------------------------------------------ routing

  /** `[a["asset_model_name"].lower() for a in asset_model_data]`. */
  function ListedNames(rows: seq<AssetModelEntry>): (names: seq<string>)
    ensures |names| == |rows| && forall k :: 0 <= k < |rows| ==> names[k] == Lower(rows[k].assetModelName)
  {
    seq(|rows|, k requires 0 <= k < |rows| => Lower(rows[k].assetModelName))
  }

  /** The creation half of the routing, with its message. */
  function CreationHalf(s: State, records: seq<Record>, names: seq<string>, added: seq<string>, listing: Response<IndustryOption>,
                        save: BasicInfoPayload -> SaveReply, attach: (Record, ModelRef) -> Option<string>): Step
    requires |names| == |records|
  {
    if added == [] then Step(s, None)
    else
      var r := CreateRun(s, records, names, added, listing, save, attach, |records|);
      if r.error.Some? then r else Step(State(r.state.posts, r.state.buf + CreatedMessage(added)), None)
  }

  /**
   * What automate_asset_model does once it knows the sheet's lower-cased
   * names and the listed models: create the records whose name is not
   * listed, then, when some listed name is not on the sheet, offer every
   * other record a next version.
   */
  function Routing(s: State, records: seq<Record>, names: seq<string>, rows: seq<AssetModelEntry>,
                   listing: Response<IndustryOption>, save: BasicInfoPayload -> SaveReply,
                   attach: (Record, ModelRef) -> Option<string>): Step
    requires |names| == |records|
  {
    var existing := ListedNames(rows);
    var added := Without(names, existing);
    var c := CreationHalf(s, records, names, added, listing, save, attach);
    if c.error.Some? || Without(existing, names) == [] then c
    else NextRun(State(c.state.posts, c.state.buf + ExistsMessage(existing)), records, names, added, rows, listing, save, attach, |records|)
  }

  /**
   * The routing conditions in terms of the listing: a record is created
   * exactly when its name is not listed, and otherwise offered a next
   * version; the next-version half runs exactly when some listed name is
   * missing from the sheet.
   */
  lemma RoutingConditions(names: seq<string>, existing: seq<string>)
    ensures forall k :: 0 <= k < |names| ==> (names[k] in Without(names, existing) <==> names[k] !in existing)
    ensures Without(existing, names) != [] <==> exists k :: 0 <= k < |existing| && existing[k] !in names
  {
    WithoutMembers(names, existing);
    WithoutMembers(existing, names);
    if Without(existing, names) != [] {
      assert Without(existing, names)[0] in Without(existing, names);
    }
  }

  /**
   * A routing that goes through has posted the fresh basic information of
   * every record whose name is not listed (only if there is one), then the
   * next versions of the other records (only if some listed name is not on
   * the sheet), and nothing else.
   */
  lemma RoutingPosts(s: State, records: seq<Record>, names: seq<string>, rows: seq<AssetModelEntry>,
                     listing: Response<IndustryOption>, save: BasicInfoPayload -> SaveReply,
                     attach: (Record, ModelRef) -> Option<string>)
    requires |names| == |records|
    ensures var existing := ListedNames(rows);
      var added := Without(names, existing);
      var r := Routing(s, records, names, rows, listing, save, attach);
      r.error.None? ==>
        r.state.posts == s.posts
          + (if added != [] then Postings(Selected(records, names, added), listing, "", "") else [])
          + (if Without(existing, names) != [] then AllNextPostings(records, names, added, rows, listing) else [])
  {
    var existing := ListedNames(rows);
    var added := Without(names, existing);
    assert records[..|records|] == records && names[..|names|] == names;
    var c := CreationHalf(s, records, names, added, listing, save, attach);
    if added != [] {
      CreateRunPosts(s, records, names, added, listing, save, attach, |records|);
    }
    if c.error.None? && Without(existing, names) != [] {
      NextRunPosts(State(c.state.posts, c.state.buf + ExistsMessage(existing)), records, names, added, rows, listing, save, attach, |records|);
    }
  }

  // ------------------------------------------------------------ existence check

  /** The models check_asset_model_exits returns, and how its loop ended. */
  datatype Listing = Listing(rows: seq<AssetModelEntry>, stop: SearchStop)

  /** The body of the first search that returns models; the loop returns at once on it. */
  function FirstListing(queries: seq<Result<string, Fault>>, search: string -> Response<AssetModelEntry>): Listing {
    if |queries| == 0 then Listing([], SearchDone)
    else
      match queries[0]
      case Failure(f) => Listing([], SearchFault(f))
      case Success(q) =>
        var response := search(q);
        if response.status != OK then Listing([], SearchRejected(response.status, response.text))
        else if |response.body| > 0 then Listing(response.body, SearchDone)
        else FirstListing(queries[1..], search)
  }

  /** Every query before k was answered with no model. */
  ghost predicate AnsweredEmpty(queries: seq<Result<string, Fault>>, search: string -> Response<AssetModelEntry>, k: nat)
    requires k <= |queries|
  {
    forall j :: 0 <= j < k ==> queries[j].Success? && search(queries[j].value).status == OK && |search(queries[j].value).body| == 0
  }

  /**
   * A check that ends normally returns either the models of the first
   * search that finds any, every earlier search having found none, or no
   * model at all exactly when every search found none.
   */
  lemma {:induction false} FirstListingIsFirstAnswer(queries: seq<Result<string, Fault>>, search: string -> Response<AssetModelEntry>)
    ensures var l := FirstListing(queries, search);
      && (l.stop.SearchDone? && l.rows != [] ==>
            exists k :: 0 <= k < |queries| && AnsweredEmpty(queries, search, k) && queries[k].Success?
              && search(queries[k].value).status == OK && search(queries[k].value).body == l.rows)
      && (l.stop.SearchDone? && l.rows == [] <==> AnsweredEmpty(queries, search, |queries|))
    decreases |queries|
  {
    if |queries| > 0 {
      var rest := queries[1..];
      FirstListingIsFirstAnswer(rest, search);
      assert forall j :: 1 <= j < |queries| ==> queries[j] == rest[j - 1];
      var l := FirstListing(queries, search);
      if queries[0].Success? && search(queries[0].value).status == OK {
        if |search(queries[0].value).body| > 0 {
          assert AnsweredEmpty(queries, search, 0);
          assert !AnsweredEmpty(queries, search, |queries|);
        } else {
          assert AnsweredEmpty(queries, search, |queries|) <==> AnsweredEmpty(rest, search, |rest|);
          if l.stop.SearchDone? && l.rows != [] {
            var k :| 0 <= k < |rest| && AnsweredEmpty(rest, search, k) && rest[k].Success?
              && search(rest[k].value).status == OK && search(rest[k].value).body == l.rows;
            assert AnsweredEmpty(queries, search, k + 1);
          }
        }
      } else {
        assert !AnsweredEmpty(queries, search, |queries|);
      }
    }
  }

  // ------------------------------------------------------------ the handler

  class AssetModelHandler {
    var assetList: seq<Record>
    var responseMessages: string
    /** Every basic-info payload posted to the save endpoint, in order. */
    ghost var posts: seq<BasicInfoPayload>

    /** `response_messages or ""`. */
    constructor(responseMessages: Option<string>)
      ensures this.responseMessages == (if responseMessages.Some? then responseMessages.value else "")
      ensures assetList == [] && posts == []
    {
      this.responseMessages := if responseMessages.Some? then responseMessages.value else "";
      assetList := [];
      posts := [];
    }

    ghost function Now(): State
      reads this
    {
      State(posts, responseMessages)
    }

    /** extract_asset_data: the groups stitched back together, or "No valid groups found." */
    method ExtractAssetData(groups: seq<seq<nat>>, df: Table) returns (r: Result<Table, string>)
      requires forall g, k :: 0 <= g < |groups| && 0 <= k < |groups[g]| ==> groups[g][k] < |df|
      modifies this
      ensures assetList == old(assetList) && posts == old(posts)
      ensures |groups| > 0 ==> r == Success(Stitch(df, groups)) && responseMessages == old(responseMessages)
      ensures |groups| == 0 ==>
        responseMessages == old(responseMessages) + ExtractPrefix + NoValidGroups + "\n"
        && r == Failure(responseMessages)
    {
      var extracted := ExtractGroups(df, groups, NoValidGroups);
      if extracted.Failure? {
        responseMessages := responseMessages + ExtractPrefix + extracted.error + "\n";
        return Failure(responseMessages);
      }
      return extracted;
    }

    /**
     * convert_asset_metadata_to_dict: the list is reset once the header row
     * is read, so an error in a data row leaves the rows converted before it.
     */
    method ConvertAssetMetadataToDict(df: Table) returns (err: Option<string>)
      requires Rectangular(df)
      modifies this
      ensures var c := Convert(AssetPolicy, df);
        && (Early(c) ==> assetList == old(assetList))
        && (!Early(c) ==> assetList == c.records)
        && posts == old(posts)
        && (c.error.None? ==> err.None? && responseMessages == old(responseMessages))
        && (c.error.Some? ==>
              responseMessages == ConvertFailureLog(old(responseMessages), ConvertPrefix, AssetPolicy, c.error.value)
              && err == Some(responseMessages))
    {
      var records, error := ConvertTable(AssetPolicy, df);
      if error.None? || !Early(Conversion(records, error)) {
        assetList := records;
      }
      if error.Some? {
        responseMessages := ConvertFailureLog(responseMessages, ConvertPrefix, AssetPolicy, error.value);
        return Some(responseMessages);
      }
      return None;
    }

    /**
     * check_asset_model_exits: one search per record, by its stripped name;
     * the first search that finds models ends the loop with them. A refused
     * search is reported; a record whose name is NaN raises the buffer as it
     * stands.
     */
    method CheckAssetModelExits(search: string -> Response<AssetModelEntry>) returns (found: bool, rows: seq<AssetModelEntry>, err: Option<string>)
      modifies this
      ensures assetList == old(assetList) && posts == old(posts)
      ensures var l := FirstListing(Queries(assetList, "asset_model_name"), search);
        && (l.stop.SearchDone? ==> err.None? && rows == l.rows && (found <==> rows != []) && responseMessages == old(responseMessages))
        && (!l.stop.SearchDone? ==> responseMessages == SearchFailLog(old(responseMessages), l.stop) && err == Some(responseMessages))
    {
      ghost var queries := Queries(assetList, "asset_model_name");
      var i := 0;
      while i < |assetList|
        invariant 0 <= i <= |assetList| && |queries| == |assetList|
        invariant FirstListing(queries, search) == FirstListing(queries[i..], search)
      {
        var q := Query(assetList[i], "asset_model_name");
        assert q == queries[i];
        if q.Failure? {
          return false, [], Some(responseMessages);
        }
        var response := search(q.value);
        if response.status != OK {
          responseMessages := responseMessages + FailedFetch(response.status, response.text);
          return false, [], Some(responseMessages);
        }
        if |response.body| > 0 {
          return true, response.body, None;
        }
        assert queries[i..][1..] == queries[i + 1..];
        i := i + 1;
      }
      return false, [], None;
    }

    /** get_drop_down_data: the first entry matching the record's industry; nothing for an empty drop-down. */
    method GetDropDownData(rec: Record, listing: Response<IndustryOption>) returns (r: Result<Option<IndustryOption>, string>)
      modifies this
      ensures assetList == old(assetList) && posts == old(posts)
      ensures Lookup(responseMessages, r) == DropDown(old(responseMessages), rec, listing)
    {
      if listing.status != OK {
        var b := responseMessages + FailedFetch(listing.status, listing.text);
        responseMessages := b + DropDownPrefix + HttpErrorText(listing.status, b) + "\n";
        return Failure(responseMessages);
      }
      if |listing.body| == 0 {
        return Success(None);
      }
      var industry := LowerField(rec, "industry");
      if industry.Failure? {
        responseMessages := responseMessages + DropDownPrefix + FaultText(industry.error) + "\n";
        return Failure(responseMessages);
      }
      var i := 0;
      while i < |listing.body|
        invariant 0 <= i <= |listing.body|
        invariant FirstIndustry(listing.body, industry.value) == FirstIndustry(listing.body[i..], industry.value)
      {
        if Lower(listing.body[i].industryCategoryName) == industry.value {
          return Success(Some(listing.body[i]));
        }
        assert listing.body[i..][1..] == listing.body[i + 1..];
        i := i + 1;
      }
      return Success(None);
    }

    /**
     * get_asset_tag_group / get_asset_tag_category (and, with `{}` for the
     * `(False, {})`, get_tags_groups / get_tags_category): the ids of the
     * listed entries named in the record's tag cell, in listing order;
     * `None` for an empty listing.
     */
    method FetchTagIds(rec: Record, listing: Response<TagOption>, prefix: string) returns (r: Result<Option<seq<string>>, string>)
      modifies this
      ensures assetList == old(assetList) && posts == old(posts)
      ensures listing.status == OK && |listing.body| == 0 ==> r == Success(None) && responseMessages == old(responseMessages)
      ensures listing.status == OK && |listing.body| > 0 && TagCell(rec).Success? ==>
        r == Success(Some(TagIds(listing.body, TagCell(rec).value))) && responseMessages == old(responseMessages)
      ensures listing.status == OK && |listing.body| > 0 && TagCell(rec).Failure? ==>
        responseMessages == old(responseMessages) + prefix + FaultText(TagCell(rec).error) + "\n"
        && r == Failure(responseMessages)
      ensures listing.status != OK ==>
        var b := old(responseMessages) + FailedFetch(listing.status, listing.text);
        responseMessages == b + prefix + HttpErrorText(listing.status, b) + "\n" && r == Failure(responseMessages)
    {
      if listing.status != OK {
        var b := responseMessages + FailedFetch(listing.status, listing.text);
        responseMessages := b + prefix + HttpErrorText(listing.status, b) + "\n";
        return Failure(responseMessages);
      }
      if |listing.body| == 0 {
        return Success(None);
      }
      var tags := TagCell(rec);
      if tags.Failure? {
        responseMessages := responseMessages + prefix + FaultText(tags.error) + "\n";
        return Failure(responseMessages);
      }
      var ids := [];
      for i := 0 to |listing.body|
        invariant assetList == old(assetList) && posts == old(posts) && responseMessages == old(responseMessages)
        invariant ids == TagIds(listing.body[..i], tags.value)
      {
        TagIdsStep(listing.body, tags.value, i);
        if exists k :: 0 <= k < |tags.value| && Lower(tags.value[k]) == Lower(listing.body[i].name) {
          ids := ids + [listing.body[i].id];
        }
      }
      assert listing.body[..|listing.body|] == listing.body;
      return Success(Some(ids));
    }

    /** create_asset_model_basic_info. */
    method CreateAssetModelBasicInfo(rec: Record, listing: Response<IndustryOption>, id: string, version: string,
                                     save: BasicInfoPayload -> SaveReply) returns (r: Result<Option<ModelRef>, string>)
      modifies this
      ensures assetList == old(assetList)
      ensures Outcome(Now(), r) == BasicInfoStep(old(Now()), rec, listing, id, version, save)
    {
      if "asset_model_name" !in rec {
        responseMessages := responseMessages + BasicPrefix + FaultText(KeyMissing("asset_model_name")) + "\n";
        return Failure(responseMessages);
      }
      var drop := GetDropDownData(rec, listing);
      if drop.Failure? {
        responseMessages := responseMessages + BasicPrefix + drop.error + "\n";
        return Failure(responseMessages);
      }
      if drop.value.None? {
        if "industry" !in rec {
          responseMessages := responseMessages + BasicPrefix + FaultText(KeyMissing("industry")) + "\n";
          return Failure(responseMessages);
        }
        var b := responseMessages + NotFound(rec["industry"]);
        responseMessages := b + BasicPrefix + b + "\n";
        return Failure(responseMessages);
      }
      var m := drop.value.value;
      if "description" !in rec {
        responseMessages := responseMessages + BasicPrefix + FaultText(KeyMissing("description")) + "\n";
        return Failure(responseMessages);
      }
      var inc := LowerField(rec, "increment_version");
      if inc.Failure? {
        responseMessages := responseMessages + BasicPrefix + FaultText(inc.error) + "\n";
        return Failure(responseMessages);
      }
      var p := PayloadFor(rec, m, id, version, inc.value == "yes");
      var reply := save(p);
      posts := posts + [p];
      if reply.status != OK {
        var b := responseMessages + Refused;
        responseMessages := b + BasicPrefix + HttpErrorText(reply.status, b) + "\n";
        return Failure(responseMessages);
      }
      return Success(reply.data);
    }

    /** create_asset_model_parameters, as far as it is modelled. */
    method CreateAssetModelParameters(rec: Record, saved: Option<ModelRef>, attach: (Record, ModelRef) -> Option<string>)
      returns (err: Option<string>)
      modifies this
      ensures assetList == old(assetList)
      ensures Step(Now(), err) == ParameterStep(old(Now()), rec, saved, attach)
    {
      if saved.None? {
        responseMessages := responseMessages + ParameterPrefix + FaultText(NoneHasNo("get")) + "\n";
        return Some(responseMessages);
      }
      var t := attach(rec, saved.value);
      if t.Some? {
        responseMessages := responseMessages + t.value;
        return Some(responseMessages);
      }
      return None;
    }

    /** create_asset_model. */
    method CreateAssetModel(rec: Record, listing: Response<IndustryOption>, save: BasicInfoPayload -> SaveReply,
                            attach: (Record, ModelRef) -> Option<string>) returns (err: Option<string>)
      modifies this
      ensures assetList == old(assetList)
      ensures Step(Now(), err) == CreateStep(old(Now()), rec, listing, save, attach)
    {
      var r := CreateAssetModelBasicInfo(rec, listing, "", "", save);
      if r.Failure? {
        responseMessages := responseMessages + CreatePrefix + r.error + "\n";
        return Some(responseMessages);
      }
      err := CreateAssetModelParameters(rec, r.value, attach);
      if err.Some? {
        responseMessages := responseMessages + CreatePrefix + err.value + "\n";
        return Some(responseMessages);
      }
    }

    /** One listed model of add_next_version's loop. */
    method NextVersionOf(rec: Record, e: AssetModelEntry, listing: Response<IndustryOption>, save: BasicInfoPayload -> SaveReply,
                         attach: (Record, ModelRef) -> Option<string>) returns (err: Option<string>)
      requires "asset_model_name" in rec && SameModel(rec, e)
      modifies this
      ensures assetList == old(assetList)
      ensures var r := BasicInfoStep(old(Now()), rec, listing, e.assetModelId, e.assetVersion, save);
        Step(Now(), err) ==
          match r.result
          case Failure(x) => Raise(r.state, CreatePrefix, x)
          case Success(None) => Step(r.state, None)
          case Success(Some(m)) =>
            var q := ParameterStep(r.state, rec, Some(m), attach);
            if q.error.Some? then Raise(q.state, CreatePrefix, q.error.value)
            else Step(State(q.state.posts, q.state.buf + Incremented(rec["asset_model_name"])), None)
    {
      var r := CreateAssetModelBasicInfo(rec, listing, e.assetModelId, e.assetVersion, save);
      if r.Failure? {
        responseMessages := responseMessages + CreatePrefix + r.error + "\n";
        return Some(responseMessages);
      }
      if r.value.Some? {
        err := CreateAssetModelParameters(rec, r.value, attach);
        if err.Some? {
          responseMessages := responseMessages + CreatePrefix + err.value + "\n";
          return Some(responseMessages);
        }
        responseMessages := responseMessages + Incremented(rec["asset_model_name"]);
      }
      return None;
    }

    /**
     * add_next_version: for a record asking for a new version, the basic
     * information and parameters once per listed model of exactly its name,
     * the payload carrying that model's id and version.
     */
    method AddNextVersion(rec: Record, rows: seq<AssetModelEntry>, listing: Response<IndustryOption>,
                          save: BasicInfoPayload -> SaveReply, attach: (Record, ModelRef) -> Option<string>) returns (err: Option<string>)
      modifies this
      ensures assetList == old(assetList)
      ensures Step(Now(), err) == NextVersionStep(old(Now()), rec, rows, listing, save, attach)
    {
      var inc := LowerField(rec, "increment_version");
      if inc.Failure? {
        responseMessages := responseMessages + CreatePrefix + FaultText(inc.error) + "\n";
        return Some(responseMessages);
      }
      if inc.value != "yes" {
        return None;
      }
      ghost var s0 := Now();
      err := None;
      var i := 0;
      while i < |rows| && err.None?
        invariant i <= |rows| && assetList == old(assetList)
        invariant Step(Now(), err) == NextVersionEntries(s0, rec, rows, listing, save, attach, if err.None? then i else |rows|)
      {
        err := NextVersionPass(i, rec, rows, listing, save, attach, s0);
        i := i + 1;
      }
    }

    /** One pass of the loop of add_next_version over the listed models; an error ends the loop. */
    method NextVersionPass(i: nat, rec: Record, rows: seq<AssetModelEntry>, listing: Response<IndustryOption>,
                           save: BasicInfoPayload -> SaveReply, attach: (Record, ModelRef) -> Option<string>, ghost s0: State)
      returns (err: Option<string>)
      requires i < |rows| && Step(Now(), None) == NextVersionEntries(s0, rec, rows, listing, save, attach, i)
      modifies this
      ensures assetList == old(assetList)
      ensures Step(Now(), err) == NextVersionEntries(s0, rec, rows, listing, save, attach, if err.None? then i + 1 else |rows|)
    {
      if "asset_model_name" !in rec {
        responseMessages := responseMessages + CreatePrefix + FaultText(KeyMissing("asset_model_name")) + "\n";
        err := Some(responseMessages);
      } else if rec["asset_model_name"] == Some(rows[i].assetModelName) {
        err := NextVersionOf(rec, rows[i], listing, save, attach);
      } else {
        err := None;
      }
      if err.Some? {
        NextVersionEntriesStayFailed(s0, rec, rows, listing, save, attach, i + 1, |rows|);
      }
    }

    /** The creation loop of automate_asset_model. */
    method CreateForAdded(names: seq<string>, added: seq<string>, listing: Response<IndustryOption>,
                          save: BasicInfoPayload -> SaveReply, attach: (Record, ModelRef) -> Option<string>) returns (err: Option<string>)
      requires |names| == |assetList|
      modifies this
      ensures assetList == old(assetList)
      ensures Step(Now(), err) == CreateRun(old(Now()), assetList, names, added, listing, save, attach, |assetList|)
    {
      ghost var s0 := Now();
      err := None;
      var i := 0;
      while i < |assetList| && err.None?
        invariant i <= |assetList| && assetList == old(assetList)
        invariant Step(Now(), err) == CreateRun(s0, assetList, names, added, listing, save, attach, if err.None? then i else |assetList|)
      {
        err := CreateIfAdded(i, names, added, listing, save, attach, s0);
        if err.Some? {
          CreateRunStaysFailed(s0, assetList, names, added, listing, save, attach, i + 1, |assetList|);
        }
        i := i + 1;
      }
    }

    /** One pass of the creation loop: record i is created when its name is in `added`. */
    method CreateIfAdded(i: nat, names: seq<string>, added: seq<string>, listing: Response<IndustryOption>,
                         save: BasicInfoPayload -> SaveReply, attach: (Record, ModelRef) -> Option<string>, ghost s0: State)
      returns (err: Option<string>)
      requires |names| == |assetList| && i < |assetList|
      requires Step(Now(), None) == CreateRun(s0, assetList, names, added, listing, save, attach, i)
      modifies this
      ensures assetList == old(assetList)
      ensures Step(Now(), err) == CreateRun(s0, assetList, names, added, listing, save, attach, i + 1)
    {
      if names[i] in added {
        CreateRunNext(s0, assetList, names, added, listing, save, attach, i + 1);
        err := CreateAssetModel(assetList[i], listing, save, attach);
      } else {
        CreateRunStopped(s0, assetList, names, added, listing, save, attach, i + 1);
        err := None;
      }
    }

    /** The next-version loop of automate_asset_model. */
    method NextForListed(names: seq<string>, added: seq<string>, rows: seq<AssetModelEntry>, listing: Response<IndustryOption>,
                         save: BasicInfoPayload -> SaveReply, attach: (Record, ModelRef) -> Option<string>) returns (err: Option<string>)
      requires |names| == |assetList|
      modifies this
      ensures assetList == old(assetList)
      ensures Step(Now(), err) == NextRun(old(Now()), assetList, names, added, rows, listing, save, attach, |assetList|)
    {
      ghost var s0 := Now();
      for i := 0 to |assetList|
        invariant assetList == old(assetList)
        invariant Step(Now(), None) == NextRun(s0, assetList, names, added, rows, listing, save, attach, i)
      {
        if names[i] !in added {
          err := AddNextVersion(assetList[i], rows, listing, save, attach);
          if err.Some? {
            NextRunStaysFailed(s0, assetList, names, added, rows, listing, save, attach, i + 1, |assetList|);
            return err;
          }
        }
      }
      return None;
    }

    /** The routing part of automate_asset_model, given the sheet's names and the listed models. */
    method Route(names: seq<string>, rows: seq<AssetModelEntry>, listing: Response<IndustryOption>,
                 save: BasicInfoPayload -> SaveReply, attach: (Record, ModelRef) -> Option<string>) returns (err: Option<string>)
      requires |names| == |assetList|
      modifies this
      ensures assetList == old(assetList)
      ensures Step(Now(), err) == Routing(old(Now()), assetList, names, rows, listing, save, attach)
    {
      var existing := ListedNames(rows);
      var added := ListDifference(names, existing);
      var existingModel := ListDifference(existing, names);
      if added != [] {
        err := CreateForAdded(names, added, listing, save, attach);
        if err.Some? {
          return err;
        }
        responseMessages := responseMessages + CreatedMessage(added);
      }
      if existingModel != [] {
        responseMessages := responseMessages + ExistsMessage(existing);
        err := NextForListed(names, added, rows, listing, save, attach);
        return err;
      }
      return None;
    }

    /** The `except` clause of automate_asset_model. */
    method Fail(e: string)
      modifies this
      ensures responseMessages == old(responseMessages) + AutomatePrefix + e + "\n"
      ensures assetList == old(assetList) && posts == old(posts)
    {
      responseMessages := responseMessages + AutomatePrefix + e + "\n";
    }

    /** The sheet half of automate_asset_model. */
    method LoadSheet(df: Table) returns (err: Option<string>)
      requires Normalised(df)
      modifies this
      ensures posts == old(posts)
      ensures err.None? <==> |df| > 0 && Convert(AssetPolicy, df).error.None?
      ensures assetList == if |df| == 0 || Early(Convert(AssetPolicy, df)) then old(assetList) else Convert(AssetPolicy, df).records
      ensures err.None? ==> responseMessages == old(responseMessages)
      ensures err.Some? ==> responseMessages == LoadFailLog(old(responseMessages), df) && err == Some(responseMessages)
    {
      var groups := GroupMergedRows(df, 0);
      var extracted := ExtractAssetData(groups, df);
      ExtractGroupingOfTable(df, 0, groups, NoValidGroups);
      if extracted.Failure? {
        return Some(extracted.error);
      }
      err := ConvertAssetMetadataToDict(extracted.value);
    }

    /**
     * automate_asset_model: load the sheet, look the models up, and route
     * every record to creation or to a next version. When it goes through,
     * the records are those of the sheet and the basic-info POSTs are the
     * fresh ones of the records whose name is not listed, then the next
     * versions of the others.
     */
    method AutomateAssetModel(df: Table, search: string -> Response<AssetModelEntry>, listing: Response<IndustryOption>,
                              save: BasicInfoPayload -> SaveReply, attach: (Record, ModelRef) -> Option<string>) returns (ok: bool)
      requires Normalised(df)
      modifies this
      ensures var loaded := |df| > 0 && Convert(AssetPolicy, df).error.None?;
        && assetList == (if |df| == 0 || Early(Convert(AssetPolicy, df)) then old(assetList) else Convert(AssetPolicy, df).records)
        && (!loaded ==>
              !ok && posts == old(posts)
              && var b := LoadFailLog(old(responseMessages), df); responseMessages == b + AutomatePrefix + b + "\n")
      ensures |df| > 0 && Convert(AssetPolicy, df).error.None? ==>
        var l := FirstListing(Queries(assetList, "asset_model_name"), search);
        var names := LowerFields(assetList, "asset_model_name");
        && (ok <==> l.stop.SearchDone? && names.Success?
                    && Routing(old(Now()), assetList, names.value, l.rows, listing, save, attach).error.None?)
        && (!l.stop.SearchDone? ==>
              posts == old(posts)
              && var b := SearchFailLog(old(responseMessages), l.stop); responseMessages == b + AutomatePrefix + b + "\n")
        && (l.stop.SearchDone? && names.Failure? ==>
              posts == old(posts) && responseMessages == old(responseMessages) + AutomatePrefix + FaultText(names.error) + "\n")
        && (l.stop.SearchDone? && names.Success? ==>
              var r := Routing(old(Now()), assetList, names.value, l.rows, listing, save, attach);
              r.error.Some? ==> posts == r.state.posts && responseMessages == r.state.buf + AutomatePrefix + r.error.value + "\n")
      ensures ok ==>
        var l := FirstListing(Queries(assetList, "asset_model_name"), search);
        var names := LowerFields(assetList, "asset_model_name");
        && l.stop.SearchDone? && names.Success?
        && Step(Now(), None) == Routing(old(Now()), assetList, names.value, l.rows, listing, save, attach)
        && var existing := ListedNames(l.rows);
        var added := Without(names.value, existing);
        posts == old(posts)
          + (if added != [] then Postings(Selected(assetList, names.value, added), listing, "", "") else [])
          + (if Without(existing, names.value) != [] then AllNextPostings(assetList, names.value, added, l.rows, listing) else [])
    {
      var err := LoadSheet(df);
      if err.Some? {
        Fail(err.value);
        return false;
      }
      ghost var s0 := Now();
      var found, rows;
      found, rows, err := CheckAssetModelExits(search);
      if err.Some? {
        Fail(err.value);
        return false;
      }
      var names := LowerFields(assetList, "asset_model_name");
      if names.Failure? {
        Fail(FaultText(names.error));
        return false;
      }
      err := Route(names.value, rows, listing, save, attach);
      if err.Some? {
        Fail(err.value);
        return false;
      }
      RoutingPosts(s0, assetList, names.value, rows, listing, save, attach);
      return true;
    }
  }
}
