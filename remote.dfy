/**
 * What the handlers share around their remote calls: the response of an
 * endpoint, the per-record search loop that keeps the first hit of each
 * record, the POST loop that stops at the first rejected payload, the
 * list differences that decide whether anything must be created, and the
 * Python runtime errors a handler can meet in its own records.
 *
 * The endpoints themselves are parameters: a search is a function from the
 * filter text to the response the platform gives for it, a save is a
 * function from payload to status code.
 */
module Remote {
  import opened Wrappers
  import opened Text
  import opened Sheet
  import opened Metadata

  /** An HTTP response: status code, raw text and the decoded rows of its body. */
  datatype Response<T> = Response(status: nat, text: string, body: seq<T>)

  const OK: nat := 200

  /** Python errors raised by the handlers' own code on a malformed record. */
  datatype Fault =
    | KeyMissing(key: string)       // KeyError on record[key]
    | NoneHasNo(attribute: string)  // .lower() / .strip() / .get() on None
    | BoolNotSubscriptable          // indexing the `False` of a `(False, {})` result

  /** `str(e)` of a fault. */
  function FaultText(f: Fault): string {
    match f
    case KeyMissing(k) => Quote(k)
    case NoneHasNo(a) => "'NoneType' object has no attribute " + Quote(a)
    case BoolNotSubscriptable => "'bool' object is not subscriptable"
  }

  /** `str(HTTPException(status_code=status, detail=detail))`. */
  function HttpErrorText(status: nat, detail: string): string {
    NatToString(status) + ": " + detail
  }

  /** The "Status code: …, Response: …" part of the failed-fetch messages. */
  function StatusReport(status: nat, text: string): string {
    "Status code: " + NatToString(status) + ", Response: " + text
  }

  // ------------------------------------------------------ record fields

  /** `record.get(key, "").strip()`: the filter text of a search. */
  function Query(rec: Record, key: string): Result<string, Fault> {
    if key !in rec then Success("")
    else if rec[key].None? then Failure(NoneHasNo("strip"))
    else Success(Strip(rec[key].value))
  }

  /** `record.get(key, "")`: the payload value of a field. */
  function GetOr(rec: Record, key: string): Cell {
    if key in rec then rec[key] else Some("")
  }

  /** `record[key].lower()`. */
  function LowerField(rec: Record, key: string): Result<string, Fault> {
    if key !in rec then Failure(KeyMissing(key))
    else if rec[key].None? then Failure(NoneHasNo("lower"))
    else Success(Lower(rec[key].value))
  }

  /** `[r[key].lower() for r in records]`, or the first fault. */
  function LowerFields(records: seq<Record>, key: string): (r: Result<seq<string>, Fault>)
    ensures r.Success? ==> |r.value| == |records|
    ensures r.Success? ==> forall k :: 0 <= k < |records| ==> LowerField(records[k], key) == Success(r.value[k])
    ensures r.Failure? <==> exists k :: 0 <= k < |records| && LowerField(records[k], key).Failure?
  {
    if |records| == 0 then Success([])
    else
      match LowerField(records[0], key)
      case Failure(f) => Failure(f)
      case Success(x) =>
        var rest := LowerFields(records[1..], key);
        assert forall k :: 1 <= k < |records| ==> records[k] == records[1..][k - 1];
        if rest.Failure? then rest else Success([x] + rest.value)
  }

  // ---------------------------------------------------- list difference

  /** `[x for x in a if x not in b]`. */
  function Without(a: seq<string>, b: seq<string>): seq<string> {
    if |a| == 0 then []
    else Without(a[..|a| - 1], b) + (if a[|a| - 1] in b then [] else [a[|a| - 1]])
  }

  /** The difference loop of the automate methods. */
  method ListDifference(a: seq<string>, b: seq<string>) returns (r: seq<string>)
    ensures r == Without(a, b)
  {
    r := [];
    for i := 0 to |a|
      invariant r == Without(a[..i], b)
    {
      assert a[..i + 1][..i] == a[..i];
      if a[i] !in b {
        r := r + [a[i]];
      }
    }
    assert a[..|a|] == a;
  }

  /** An element is in the difference exactly when it is in a and not in b. */
  lemma {:induction false} WithoutMembers(a: seq<string>, b: seq<string>)
    ensures forall x :: x in Without(a, b) <==> x in a && x !in b
  {
    if |a| > 0 {
      var init := a[..|a| - 1];
      WithoutMembers(init, b);
      assert a == init + [a[|a| - 1]];
    }
  }

  /** `set(a) == set(b)`. */
  ghost predicate SameNames(a: seq<string>, b: seq<string>) {
    forall x :: x in a <==> x in b
  }

  /** Both differences are empty exactly when the two lists hold the same names. */
  lemma NoDifferenceIffSameNames(a: seq<string>, b: seq<string>)
    ensures (Without(a, b) == [] && Without(b, a) == []) <==> SameNames(a, b)
  {
    WithoutMembers(a, b);
    WithoutMembers(b, a);
    if Without(a, b) != [] {
      assert Without(a, b)[0] in Without(a, b);
    } else if Without(b, a) != [] {
      assert Without(b, a)[0] in Without(b, a);
    }
  }

  // --------------------------------------------------- record selection

  /** The records, in sheet order, whose lower-cased name (given alongside) is in `added`. */
  function Selected(records: seq<Record>, names: seq<string>, added: seq<string>): seq<Record>
    requires |names| == |records|
  {
    if |records| == 0 then []
    else
      var n := |records| - 1;
      Selected(records[..n], names[..n], added) + (if names[n] in added then [records[n]] else [])
  }

  lemma {:induction false} SelectedSplit(records: seq<Record>, names: seq<string>, added: seq<string>, m: nat)
    requires |names| == |records| && m <= |records|
    ensures Selected(records, names, added)
      == Selected(records[..m], names[..m], added) + Selected(records[m..], names[m..], added)
    decreases |records|
  {
    if |records| > m {
      var n := |records| - 1;
      SelectedSplit(records[..n], names[..n], added, m);
      assert records[..n][..m] == records[..m] && names[..n][..m] == names[..m];
      assert records[m..][..n - m] == records[..n][m..] && names[m..][..n - m] == names[..n][m..];
      assert records[m..][n - m] == records[n] && names[m..][n - m] == names[n];
    } else {
      assert records[..m] == records && names[..m] == names;
    }
  }

  /**
   * The records selected are exactly those that make up the difference: with
   * `added` holding the sheet names not listed on the platform, the selected
   * records carry, in order and duplicates included, exactly those names.
   */
  lemma {:induction false} SelectedAreAdded(records: seq<Record>, key: string, names: seq<string>, existing: seq<string>, added: seq<string>)
    requires |names| == |records|
    requires forall k :: 0 <= k < |records| ==> LowerField(records[k], key) == Success(names[k])
    requires forall k :: 0 <= k < |names| ==> (names[k] in added <==> names[k] !in existing)
    ensures var s := Selected(records, names, added);
      var w := Without(names, existing);
      |s| == |w| && forall i :: 0 <= i < |s| ==> LowerField(s[i], key) == Success(w[i])
    decreases |records|
  {
    if |records| > 0 {
      var n := |records| - 1;
      SelectedAreAdded(records[..n], key, names[..n], existing, added);
    }
  }

  /** One more record of the loop: selected exactly when its name is in `added`. */
  lemma SelectedStep(records: seq<Record>, names: seq<string>, added: seq<string>, i: nat)
    requires |names| == |records| && i < |records|
    ensures Selected(records[..i + 1], names[..i + 1], added)
      == Selected(records[..i], names[..i], added) + (if names[i] in added then [records[i]] else [])
  {
    assert records[..i + 1][..i] == records[..i] && names[..i + 1][..i] == names[..i];
  }

  // ----------------------------------------------------- search loops

  datatype SearchStop =
    | SearchDone
    | SearchRejected(status: nat, text: string) // a non-200 response
    | SearchFault(fault: Fault)                 // building the filter failed

  datatype Searched<R> = Searched(hits: seq<R>, stop: SearchStop)

  /** The first rows of the responses to the first n queries, until a query fails. */
  function SearchRun<R>(queries: seq<Result<string, Fault>>, search: string -> Response<R>, n: nat): (s: Searched<R>)
    requires n <= |queries|
    ensures |s.hits| <= n
  {
    if n == 0 then Searched([], SearchDone)
    else
      var prev := SearchRun(queries, search, n - 1);
      if !prev.stop.SearchDone? then prev
      else
        match queries[n - 1]
        case Failure(f) => Searched(prev.hits, SearchFault(f))
        case Success(q) =>
          var response := search(q);
          if response.status != OK then Searched(prev.hits, SearchRejected(response.status, response.text))
          else if |response.body| > 0 then Searched(prev.hits + [response.body[0]], SearchDone)
          else prev
  }

  /** The search loop of the check_* / list_* methods: one request per query, first row kept. */
  method SearchEach<R>(queries: seq<Result<string, Fault>>, search: string -> Response<R>) returns (hits: seq<R>, stop: SearchStop)
    ensures Searched(hits, stop) == SearchRun(queries, search, |queries|)
  {
    hits := [];
    stop := SearchDone;
    for i := 0 to |queries|
      invariant Searched(hits, SearchDone) == SearchRun(queries, search, i)
    {
      match queries[i]
      case Failure(f) =>
        SearchRunStaysStopped(queries, search, i + 1, |queries|);
        return hits, SearchFault(f);
      case Success(q) =>
        var response := search(q);
        if response.status != OK {
          SearchRunStaysStopped(queries, search, i + 1, |queries|);
          return hits, SearchRejected(response.status, response.text);
        }
        if |response.body| > 0 {
          hits := hits + [response.body[0]];
        }
    }
  }

  lemma {:induction false} SearchRunStaysStopped<R>(queries: seq<Result<string, Fault>>, search: string -> Response<R>, n: nat, m: nat)
    requires n <= m <= |queries| && !SearchRun(queries, search, n).stop.SearchDone?
    ensures SearchRun(queries, search, m) == SearchRun(queries, search, n)
    decreases m
  {
    if m > n {
      SearchRunStaysStopped(queries, search, n, m - 1);
    }
  }

  /** A query succeeds when its filter could be built and its response is 200. */
  predicate Answered<R>(query: Result<string, Fault>, search: string -> Response<R>) {
    query.Success? && search(query.value).status == OK
  }

  /**
   * The search loop finishes exactly when every query is answered, and each
   * row it keeps is the first row of the response to one of the queries.
   */
  lemma {:induction false} SearchRunOutcome<R>(queries: seq<Result<string, Fault>>, search: string -> Response<R>, n: nat)
    requires n <= |queries|
    ensures SearchRun(queries, search, n).stop.SearchDone? <==> forall k :: 0 <= k < n ==> Answered(queries[k], search)
    ensures forall h :: h in SearchRun(queries, search, n).hits ==>
      exists k :: 0 <= k < n && queries[k].Success? && |search(queries[k].value).body| > 0
        && h == search(queries[k].value).body[0]
    decreases n
  {
    if n > 0 {
      SearchRunOutcome(queries, search, n - 1);
    }
  }

  /**
   * A finished search loop kept no row at all exactly when every query was
   * answered with an empty body.
   */
  lemma {:induction false} NoHitsIffEveryBodyEmpty<R>(queries: seq<Result<string, Fault>>, search: string -> Response<R>, n: nat)
    requires n <= |queries| && SearchRun(queries, search, n).stop.SearchDone?
    ensures SearchRun(queries, search, n).hits == [] <==>
      forall k :: 0 <= k < n ==> queries[k].Success? && |search(queries[k].value).body| == 0
    decreases n
  {
    if n > 0 {
      NoHitsIffEveryBodyEmpty(queries, search, n - 1);
    }
  }

  /** The filters `record.get(key, "").strip()` of a list of records. */
  function Queries(records: seq<Record>, key: string): (q: seq<Result<string, Fault>>)
    ensures |q| == |records| && forall k :: 0 <= k < |records| ==> q[k] == Query(records[k], key)
  {
    seq(|records|, k requires 0 <= k < |records| => Query(records[k], key))
  }

  // ------------------------------------------------------- POST loops

  /** How a loop over shared-template saves ended. */
  datatype SaveStop = Saved | SaveRejected(status: nat) | SaveFault(fault: Fault)

  /** The payloads actually sent: all of them, or up to and including the first rejected one. */
  function Posted<P>(payloads: seq<P>, save: P -> nat): (sent: seq<P>)
    ensures sent <= payloads
  {
    if |payloads| == 0 then []
    else if save(payloads[0]) != OK then [payloads[0]]
    else [payloads[0]] + Posted(payloads[1..], save)
  }

  /** The status of the first rejected payload, if any. */
  function FirstRejection<P>(payloads: seq<P>, save: P -> nat): Option<nat> {
    if |payloads| == 0 then None
    else if save(payloads[0]) != OK then Some(save(payloads[0]))
    else FirstRejection(payloads[1..], save)
  }

  /**
   * The POST loop sends payloads in order and stops right after the first
   * non-200 status; without a rejection it sends them all.
   */
  lemma {:induction false} PostedStopsAtFirstRejection<P>(payloads: seq<P>, save: P -> nat)
    ensures var sent := Posted(payloads, save);
      && (FirstRejection(payloads, save).None? <==> forall k :: 0 <= k < |payloads| ==> save(payloads[k]) == OK)
      && (FirstRejection(payloads, save).None? ==> sent == payloads)
      && (FirstRejection(payloads, save).Some? ==>
            |sent| > 0 && save(sent[|sent| - 1]) == FirstRejection(payloads, save).value != OK)
      && forall k :: 0 <= k < |sent| - 1 ==> save(sent[k]) == OK
  {
    if |payloads| > 0 {
      PostedStopsAtFirstRejection(payloads[1..], save);
      assert forall k :: 1 <= k < |payloads| ==> payloads[k] == payloads[1..][k - 1];
    }
  }

  /**
   * The POST loop over two lists in a row: the second list is reached only
   * when every payload of the first was accepted.
   */
  lemma {:induction false} PostedAppend<P>(x: seq<P>, y: seq<P>, save: P -> nat)
    ensures FirstRejection(x, save).None? ==>
      Posted(x + y, save) == x + Posted(y, save) && FirstRejection(x + y, save) == FirstRejection(y, save)
    ensures FirstRejection(x, save).Some? ==>
      Posted(x + y, save) == Posted(x, save) && FirstRejection(x + y, save) == FirstRejection(x, save)
    decreases |x|
  {
    if |x| > 0 {
      assert (x + y)[0] == x[0] && (x + y)[1..] == x[1..] + y;
      PostedAppend(x[1..], y, save);
      assert x == [x[0]] + x[1..];
    } else {
      assert x + y == y;
    }
  }

  /** Appending to a log in two steps appends the two parts together. */
  lemma AppendTwice<T>(a: seq<T>, b: seq<T>, c: seq<T>)
    ensures a + b + c == a + (b + c)
  {
  }

  /** One step of the POST loop: the payload at i is sent, and the loop goes on only when it was accepted. */
  lemma PostedFrom<P>(payloads: seq<P>, save: P -> nat, i: nat)
    requires i < |payloads|
    ensures save(payloads[i]) != OK ==>
      Posted(payloads[i..], save) == [payloads[i]] && FirstRejection(payloads[i..], save) == Some(save(payloads[i]))
    ensures save(payloads[i]) == OK ==>
      Posted(payloads[i..], save) == [payloads[i]] + Posted(payloads[i + 1..], save)
      && FirstRejection(payloads[i..], save) == FirstRejection(payloads[i + 1..], save)
  {
    assert payloads[i..][1..] == payloads[i + 1..];
  }

  /** A POST loop that has sent payloads[..i] and is rejected at i has sent everything it will. */
  lemma PostedUpToRejection<P>(payloads: seq<P>, save: P -> nat, i: nat)
    requires i < |payloads| && save(payloads[i]) != OK
    requires Posted(payloads, save) == payloads[..i] + Posted(payloads[i..], save)
    requires FirstRejection(payloads, save) == FirstRejection(payloads[i..], save)
    ensures Posted(payloads, save) == payloads[..i] + [payloads[i]]
    ensures FirstRejection(payloads, save) == Some(save(payloads[i]))
  {
    PostedFrom(payloads, save, i);
  }

  /** A POST loop that has sent payloads[..i] and has payload i accepted goes on at i + 1. */
  lemma PostedAdvance<P>(payloads: seq<P>, save: P -> nat, i: nat)
    requires i < |payloads| && save(payloads[i]) == OK
    requires Posted(payloads, save) == payloads[..i] + Posted(payloads[i..], save)
    requires FirstRejection(payloads, save) == FirstRejection(payloads[i..], save)
    ensures payloads[..i + 1] == payloads[..i] + [payloads[i]]
    ensures Posted(payloads, save) == payloads[..i + 1] + Posted(payloads[i + 1..], save)
    ensures FirstRejection(payloads, save) == FirstRejection(payloads[i + 1..], save)
  {
    PostedFrom(payloads, save, i);
    var rest := Posted(payloads[i + 1..], save);
    assert payloads[..i + 1] == payloads[..i] + [payloads[i]];
    calc {
      Posted(payloads, save);
      payloads[..i] + Posted(payloads[i..], save);
      payloads[..i] + ([payloads[i]] + rest);
      { AppendTwice(payloads[..i], [payloads[i]], rest); }
      payloads[..i + 1] + rest;
    }
  }

  /** A POST loop that got through every payload sent them all, without a rejection. */
  lemma PostedComplete<P>(payloads: seq<P>, save: P -> nat)
    requires Posted(payloads, save) == payloads[..|payloads|] + Posted(payloads[|payloads|..], save)
    requires FirstRejection(payloads, save) == FirstRejection(payloads[|payloads|..], save)
    ensures Posted(payloads, save) == payloads && FirstRejection(payloads, save).None?
  {
    assert payloads[|payloads|..] == [];
    assert payloads[..|payloads|] == payloads;
  }

  /** The POST loop over freshly built payloads. */
  method PostEach<P>(payloads: seq<P>, save: P -> nat) returns (sent: seq<P>, rejected: Option<nat>)
    ensures sent == Posted(payloads, save) && rejected == FirstRejection(payloads, save)
  {
    sent := [];
    for i := 0 to |payloads|
      invariant sent == payloads[..i]
      invariant Posted(payloads, save) == sent + Posted(payloads[i..], save)
      invariant FirstRejection(payloads, save) == FirstRejection(payloads[i..], save)
    {
      var status := save(payloads[i]);
      if status != OK {
        PostedUpToRejection(payloads, save, i);
        return sent + [payloads[i]], Some(status);
      }
      PostedAdvance(payloads, save, i);
      sent := sent + [payloads[i]];
    }
    PostedComplete(payloads, save);
    return sent, None;
  }
}
