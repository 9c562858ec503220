/**
 * `scripts/utils/pagination_utils.py`: a listing is read page by page. Page
 * k asks for the rows from (k-1)*records up to k*records, written into the
 * caller's payload; pages are requested 1, 2, 3, … until one comes back
 * empty, and the bodies of the pages before it are returned in order. A
 * refused page ends the loop too, and then nothing is returned.
 */
module Pagination {
  import opened Wrappers
  import opened Remote

  /** The page fields of the caller's payload, updated in place; `records` is the page size. */
  class PagePayload {
    var page: int
    var startRow: int
    var endRow: int
    var records: int

    constructor(page: int, startRow: int, endRow: int, records: int)
      ensures this.page == page && this.startRow == startRow && this.endRow == endRow && this.records == records
    {
      this.page := page;
      this.startRow := startRow;
      this.endRow := endRow;
      this.records := records;
    }
  }

  /** What the platform sees of a page request. */
  datatype Window = Window(page: int, startRow: int, endRow: int, records: int)

  /** The window of page k for a page size. */
  function WindowOf(k: int, records: int): (w: Window)
    ensures w.page == k && w.records == records
    ensures w.endRow - w.startRow == records
    ensures k >= 1 && records >= 0 ==> 0 <= w.startRow <= w.endRow
  {
    Window(k, (k - 1) * records, k * records, records)
  }

  /** Consecutive pages tile the rows: each starts where the previous one ended. */
  lemma WindowsTile(k: int, records: int)
    ensures WindowOf(k + 1, records).startRow == WindowOf(k, records).endRow
    ensures WindowOf(1, records).startRow == 0
  {
  }

  /** A page that ends the loop: refused, or with an empty body. */
  predicate Stops<T>(r: Response<T>) {
    r.status != OK || |r.body| == 0
  }

  /** The bodies of pages 1..n, in page order. */
  function Bodies<T>(server: Window -> Response<T>, records: int, n: nat): seq<T> {
    if n == 0 then [] else Bodies(server, records, n - 1) + server(WindowOf(n, records)).body
  }

  /** A row is collected from the first n pages exactly when one of them carries it. */
  lemma {:induction false} BodiesMembers<T>(server: Window -> Response<T>, records: int, n: nat)
    ensures forall x :: x in Bodies(server, records, n) ==> exists j :: 1 <= j <= n && x in server(WindowOf(j, records)).body
    ensures forall j, x :: 1 <= j <= n && x in server(WindowOf(j, records)).body ==> x in Bodies(server, records, n)
  {
    if n > 0 {
      BodiesMembers(server, records, n - 1);
      forall x | x in Bodies(server, records, n)
        ensures exists j :: 1 <= j <= n && x in server(WindowOf(j, records)).body
      {
        if x !in server(WindowOf(n, records)).body {
          assert x in Bodies(server, records, n - 1);
        }
      }
    }
  }

  /** The rows of pages 1..n are those of pages 1..m followed by those of page m+1 and on. */
  lemma {:induction false} BodiesPrefix<T>(server: Window -> Response<T>, records: int, m: nat, n: nat)
    requires m <= n
    ensures Bodies(server, records, m) <= Bodies(server, records, n)
    ensures |Bodies(server, records, n)| >= |Bodies(server, records, m)| + (n - m)
      || exists j :: m < j <= n && |server(WindowOf(j, records)).body| == 0
    decreases n
  {
    if n > m {
      BodiesPrefix(server, records, m, n - 1);
    }
  }

  /** Page k is the first page that ends the loop. */
  predicate FirstStop<T>(server: Window -> Response<T>, records: int, k: int) {
    k >= 1 && Stops(server(WindowOf(k, records)))
    && forall j :: 1 <= j < k ==> !Stops(server(WindowOf(j, records)))
  }

  /** At most one page is the first to end the loop, so the outcome below is determined. */
  lemma FirstStopUnique<T>(server: Window -> Response<T>, records: int, a: int, b: int)
    requires FirstStop(server, records, a) && FirstStop(server, records, b)
    ensures a == b
  {
  }

  /** Some page ends the loop; without one the source requests pages forever. */
  ghost predicate Ends<T>(server: Window -> Response<T>, records: int) {
    exists k :: k >= 1 && Stops(server(WindowOf(k, records)))
  }

  /**
   * pagination_function: requests pages 1, 2, … with no gap until the first
   * that ends the loop, which is the page the payload is left holding. The
   * rows of the pages before it are returned in order when that page was an
   * empty answer; a refused page makes the result `None`.
   */
  method PaginationFunction<T>(payload: PagePayload, server: Window -> Response<T>) returns (results: Option<seq<T>>)
    requires Ends(server, payload.records)
    modifies payload
    ensures payload.records == old(payload.records)
    ensures FirstStop(server, payload.records, payload.page)
    ensures Window(payload.page, payload.startRow, payload.endRow, payload.records) == WindowOf(payload.page, payload.records)
    ensures results == (if server(WindowOf(payload.page, payload.records)).status == OK
                        then Some(Bodies(server, payload.records, payload.page - 1)) else None)
  {
    var collected: seq<T> := [];
    var page := 1;
    var endRecords := false;
    ghost var last :| last >= 1 && Stops(server(WindowOf(last, payload.records)));
    while !endRecords
      invariant payload.records == old(payload.records) && page >= 1
      invariant forall j :: 1 <= j < page - (if endRecords then 1 else 0) ==> !Stops(server(WindowOf(j, payload.records)))
      invariant !endRecords ==> page <= last && collected == Bodies(server, payload.records, page - 1)
      invariant endRecords ==> page >= 2
      invariant endRecords ==> Window(payload.page, payload.startRow, payload.endRow, payload.records) == WindowOf(page - 1, payload.records)
      invariant endRecords ==> |server(WindowOf(page - 1, payload.records)).body| == 0 && server(WindowOf(page - 1, payload.records)).status == OK
      invariant endRecords ==> collected == Bodies(server, payload.records, page - 2)
      decreases last - page + (if endRecords then 0 else 1)
    {
      payload.page := page;
      payload.startRow := (page - 1) * payload.records;
      payload.endRow := page * payload.records;
      var response := server(Window(payload.page, payload.startRow, payload.endRow, payload.records));
      if response.status != OK {
        return None;
      }
      if |response.body| > 0 {
        collected := collected + response.body;
      } else {
        endRecords := true;
      }
      page := page + 1;
    }
    return Some(collected);
  }
}
