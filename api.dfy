/** The HTTP gateway of the backend: the progress broadcast registry
    (`ConnectionManager`), job creation, the two read endpoints, and the two
    export endpoints up to the list of rows handed to the spreadsheet writer. */
module Api {
  import opened Common
  import opened Database
  import opened Scraper

  // ------------------------------------------------------------------
  // Broadcast registry
  // ------------------------------------------------------------------

  /** A connected WebSocket, by identity. */
  type Socket = nat

  /** The JSON object `send_progress` sends to every client. */
  datatype ProgressPayload = ProgressPayload(jobId: int, status: string, progress: int, message: string,
                                             timestamp: Timestamp)

  /** The position of the first occurrence of `c` in `s`. */
  function IndexOf(s: seq<Socket>, c: Socket): (k: nat)
    requires c in s
    ensures k < |s| && s[k] == c && c !in s[..k]
  {
    if s[0] == c then 0
    else
      var k := 1 + IndexOf(s[1..], c);
      assert s[..k] == [s[0]] + s[1..][..k - 1];
      k
  }

  lemma RemoveAtMultiset(s: seq<Socket>, k: nat)
    requires k < |s|
    ensures multiset(s[..k] + s[k + 1..]) == multiset(s) - multiset{s[k]}
  {
    assert s == s[..k] + [s[k]] + s[k + 1..];
  }

  /** `list.remove(c)` behind an `if c in list` guard: the first occurrence
      goes and everything else keeps its relative order. */
  function RemoveFirst(s: seq<Socket>, c: Socket): (r: seq<Socket>)
    ensures multiset(r) == multiset(s) - multiset{c}
    ensures c !in s ==> r == s
    ensures c in s ==> (|r| == |s| - 1 &&
                        forall i :: 0 <= i < |r| ==> r[i] == if i < IndexOf(s, c) then s[i] else s[i + 1])
  {
    if c in s then
      var k := IndexOf(s, c);
      RemoveAtMultiset(s, k);
      s[..k] + s[k + 1..]
    else
      s
  }

  /** What the `for connection in self.active_connections` loop does from
      position `i` on, when exactly the sends to `failing` raise: the list it
      leaves behind, and the sockets that received the payload, in order.
      Python's list iterator walks by position, so after a removal the socket
      that moves into the freed position is not visited in this broadcast. */
  function BroadcastFrom(conns: seq<Socket>, i: nat, failing: set<Socket>): (r: (seq<Socket>, seq<Socket>))
    decreases |conns| - i
  {
    if i >= |conns| then (conns, [])
    else if conns[i] in failing then BroadcastFrom(RemoveFirst(conns, conns[i]), i + 1, failing)
    else
      var rest := BroadcastFrom(conns, i + 1, failing);
      (rest.0, [conns[i]] + rest.1)
  }

  /** When no send fails, every socket from position `i` on receives the
      payload, in list order, and the list is left as it was. */
  lemma {:induction false} BroadcastAllHealthy(conns: seq<Socket>, i: nat, failing: set<Socket>)
    requires i <= |conns|
    requires forall k :: i <= k < |conns| ==> conns[k] !in failing
    ensures BroadcastFrom(conns, i, failing) == (conns, conns[i..])
    decreases |conns| - i
  {
    if i < |conns| {
      BroadcastAllHealthy(conns, i + 1, failing);
      assert conns[i..] == [conns[i]] + conns[i + 1..];
    }
  }

  /** Only failing sockets are removed: each healthy socket keeps every one of
      its occurrences, and the list only shrinks. */
  lemma {:induction false} BroadcastKeepsHealthy(conns: seq<Socket>, i: nat, failing: set<Socket>, c: Socket)
    requires c !in failing
    ensures multiset(BroadcastFrom(conns, i, failing).0)[c] == multiset(conns)[c]
    ensures multiset(BroadcastFrom(conns, i, failing).0) <= multiset(conns)
    decreases |conns| - i
  {
    if i < |conns| {
      if conns[i] in failing {
        BroadcastKeepsHealthy(RemoveFirst(conns, conns[i]), i + 1, failing, c);
      } else {
        BroadcastKeepsHealthy(conns, i + 1, failing, c);
      }
    }
  }

  /** The payload only reaches sockets that were connected and whose send did not fail. */
  lemma {:induction false} BroadcastDeliversToHealthy(conns: seq<Socket>, i: nat, failing: set<Socket>)
    ensures forall c :: c in BroadcastFrom(conns, i, failing).1 ==> c in conns && c !in failing
    decreases |conns| - i
  {
    if i < |conns| {
      if conns[i] in failing {
        var rest := RemoveFirst(conns, conns[i]);
        BroadcastDeliversToHealthy(rest, i + 1, failing);
        forall c | c in BroadcastFrom(conns, i, failing).1 ensures c in conns {
          assert c in multiset(rest);
        }
      } else {
        BroadcastDeliversToHealthy(conns, i + 1, failing);
      }
    }
  }

  /** No socket is connected twice (each `accept()` yields a new object). */
  predicate Distinct(s: seq<Socket>)
  {
    forall j, k :: 0 <= j < k < |s| ==> s[j] != s[k]
  }

  /** On a list without repeats, removing the socket at position `k` closes
      exactly that gap, and the list stays without repeats. */
  lemma RemoveDistinct(s: seq<Socket>, k: nat)
    requires Distinct(s) && k < |s|
    ensures RemoveFirst(s, s[k]) == s[..k] + s[k + 1..]
    ensures Distinct(s[..k] + s[k + 1..])
  {
    assert IndexOf(s, s[k]) == k;
  }

  /** A broadcast never adds a connection, whoever fails. */
  lemma {:induction false} BroadcastShrinks(conns: seq<Socket>, i: nat, failing: set<Socket>)
    ensures multiset(BroadcastFrom(conns, i, failing).0) <= multiset(conns)
    decreases |conns| - i
  {
    if i < |conns| {
      if conns[i] in failing {
        BroadcastShrinks(RemoveFirst(conns, conns[i]), i + 1, failing);
      } else {
        BroadcastShrinks(conns, i + 1, failing);
      }
    }
  }

  /** The loop's step over a failing socket on a list without repeats: the
      walk goes on over the list with that position closed. */
  lemma FailingStep(conns: seq<Socket>, i: nat, failing: set<Socket>)
    requires Distinct(conns) && i < |conns| && conns[i] in failing
    ensures Distinct(conns[..i] + conns[i + 1..])
    ensures BroadcastFrom(conns, i, failing) == BroadcastFrom(conns[..i] + conns[i + 1..], i + 1, failing)
  {
    RemoveDistinct(conns, i);
  }

  /** Which healthy sockets a broadcast reaches: a healthy socket at position
      `q` receives the payload whenever the loop gets to it, that is, when it is
      where the loop starts or its left neighbour's send succeeds. */
  lemma {:induction false} BroadcastReachesHealthy(conns: seq<Socket>, i: nat, failing: set<Socket>, q: nat)
    requires Distinct(conns) && i <= q < |conns|
    requires q == i || conns[q - 1] !in failing
    requires conns[q] !in failing
    ensures conns[q] in BroadcastFrom(conns, i, failing).1
    decreases |conns| - i, 1
  {
    if q == i {
      assert BroadcastFrom(conns, i, failing).1[0] == conns[q];
    } else if conns[i] in failing {
      ReachesPastFailing(conns, i, failing, q);
    } else {
      ReachesPastHealthy(conns, i, failing, q);
    }
  }

  /** `BroadcastReachesHealthy` when the walk first drops a failing socket. */
  lemma {:induction false} ReachesPastFailing(conns: seq<Socket>, i: nat, failing: set<Socket>, q: nat)
    requires Distinct(conns) && i < q < |conns|
    requires conns[q - 1] !in failing && conns[q] !in failing && conns[i] in failing
    ensures conns[q] in BroadcastFrom(conns, i, failing).1
    decreases |conns| - i, 0
  {
    var rest := conns[..i] + conns[i + 1..];
    FailingStep(conns, i, failing);
    assert rest[q - 1] == conns[q] && rest[q - 2] == conns[q - 1];
    BroadcastReachesHealthy(rest, i + 1, failing, q - 1);
  }

  /** `BroadcastReachesHealthy` when the walk first delivers to a healthy socket. */
  lemma {:induction false} ReachesPastHealthy(conns: seq<Socket>, i: nat, failing: set<Socket>, q: nat)
    requires Distinct(conns) && i < q < |conns|
    requires conns[q - 1] !in failing && conns[q] !in failing && conns[i] !in failing
    ensures conns[q] in BroadcastFrom(conns, i, failing).1
    decreases |conns| - i, 0
  {
    BroadcastReachesHealthy(conns, i + 1, failing, q);
  }

  /** A failing socket at the position where the walk starts is disconnected. */
  lemma FailingAtStartRemoved(conns: seq<Socket>, i: nat, failing: set<Socket>)
    requires Distinct(conns) && i < |conns| && conns[i] in failing
    ensures conns[i] !in BroadcastFrom(conns, i, failing).0
  {
    var rest := RemoveFirst(conns, conns[i]);
    assert multiset(rest)[conns[i]] == 0 by {
      RemoveDistinct(conns, i);
      assert conns[i] !in conns[..i] + conns[i + 1..];
    }
    BroadcastShrinks(rest, i + 1, failing);
  }

  /** A failing socket the loop visits is disconnected by this broadcast. */
  lemma {:induction false} BroadcastRemovesFailing(conns: seq<Socket>, i: nat, failing: set<Socket>, q: nat)
    requires Distinct(conns) && i <= q < |conns|
    requires q == i || conns[q - 1] !in failing
    requires conns[q] in failing
    ensures conns[q] !in BroadcastFrom(conns, i, failing).0
    decreases |conns| - i, 1
  {
    if q == i {
      FailingAtStartRemoved(conns, i, failing);
    } else if conns[i] in failing {
      RemovesPastFailing(conns, i, failing, q);
    } else {
      RemovesPastHealthy(conns, i, failing, q);
    }
  }

  /** `BroadcastRemovesFailing` when the walk first drops a failing socket. */
  lemma {:induction false} RemovesPastFailing(conns: seq<Socket>, i: nat, failing: set<Socket>, q: nat)
    requires Distinct(conns) && i < q < |conns|
    requires conns[q - 1] !in failing && conns[q] in failing && conns[i] in failing
    ensures conns[q] !in BroadcastFrom(conns, i, failing).0
    decreases |conns| - i, 0
  {
    var rest := conns[..i] + conns[i + 1..];
    FailingStep(conns, i, failing);
    assert rest[q - 1] == conns[q] && rest[q - 2] == conns[q - 1];
    BroadcastRemovesFailing(rest, i + 1, failing, q - 1);
  }

  /** `BroadcastRemovesFailing` when the walk first delivers to a healthy socket. */
  lemma {:induction false} RemovesPastHealthy(conns: seq<Socket>, i: nat, failing: set<Socket>, q: nat)
    requires Distinct(conns) && i < q < |conns|
    requires conns[q - 1] !in failing && conns[q] in failing && conns[i] !in failing
    ensures conns[q] !in BroadcastFrom(conns, i, failing).0
    decreases |conns| - i, 0
  {
    BroadcastRemovesFailing(conns, i + 1, failing, q);
  }

  /** The skipped neighbour: with `[a, b]` connected and only `a` failing,
      `a` is removed and `b`, although healthy, does not receive this payload. */
  lemma {:induction false} BroadcastSkipsNextAfterFailure(a: Socket, b: Socket, failing: set<Socket>)
    requires a in failing && b !in failing && a != b
    ensures BroadcastFrom([a, b], 0, failing) == ([b], [])
  {
    assert RemoveFirst([a, b], a) == [b];
    assert BroadcastFrom([b], 1, failing) == ([b], []);
  }

  /** `ConnectionManager`: the list of connected WebSockets. */
  class ConnectionManager {
    var activeConnections: seq<Socket>

    constructor ()
      ensures activeConnections == []
    {
      activeConnections := [];
    }

    /** `connect`: after `accept()`, the socket goes at the end. */
    method Connect(ws: Socket)
      modifies this
      ensures activeConnections == old(activeConnections) + [ws]
    {
      activeConnections := activeConnections + [ws];
    }

    /** `disconnect`: removes the socket if it is present, and otherwise does nothing. */
    method Disconnect(ws: Socket)
      modifies this
      ensures activeConnections == RemoveFirst(old(activeConnections), ws)
    {
      if ws in activeConnections {
        activeConnections := RemoveFirst(activeConnections, ws);
      }
    }

    /** `send_progress`: one payload stamped `now`, offered to every connection
        in list order; a connection whose send raises (those in `failing`) is
        disconnected on the spot. `sent` lists the sockets that received it. */
    method SendProgress(jobId: int, status: string, progress: int, message: string, now: Timestamp,
                        failing: set<Socket>)
      returns (payload: ProgressPayload, sent: seq<Socket>)
      modifies this
      ensures payload == ProgressPayload(jobId, status, progress, message, now)
      ensures (activeConnections, sent) == BroadcastFrom(old(activeConnections), 0, failing)
    {
      payload := ProgressPayload(jobId, status, progress, message, now);
      sent := [];
      var i := 0;
      assert sent + BroadcastFrom(activeConnections, 0, failing).1 == BroadcastFrom(activeConnections, 0, failing).1;
      while i < |activeConnections|
        invariant BroadcastFrom(old(activeConnections), 0, failing)
                  == (BroadcastFrom(activeConnections, i, failing).0, sent + BroadcastFrom(activeConnections, i, failing).1)
        decreases |activeConnections| - i
      {
        var connection := activeConnections[i];
        ghost var after := BroadcastFrom(activeConnections, i + 1, failing);
        if connection in failing {
          Disconnect(connection);
        } else {
          assert sent + ([connection] + after.1) == (sent + [connection]) + after.1;
          sent := sent + [connection];
        }
        i := i + 1;
      }
      assert sent + [] == sent;
    }
  }

  // ------------------------------------------------------------------
  // Responses
  // ------------------------------------------------------------------

  /** An `HTTPException`. */
  datatype HttpError = HttpError(statusCode: int, detail: string)

  const JobNotFound := HttpError(404, "Job not found")
  const NoExportData := HttpError(404, "No data found for this job")

  /** `ScrapedItemResponse`. */
  datatype ItemResponse = ItemResponse(
    id: nat,
    title: Option<string>,
    description: Option<string>,
    url: Option<string>,
    price: Option<string>,
    rating: Option<string>,
    date: Option<string>,
    additionalData: Dict)

  /** `ScrapingJobResponse`; `status` is the column's text. */
  datatype JobResponse = JobResponse(
    id: nat,
    query: string,
    status: string,
    maxResults: int,
    createdAt: Timestamp,
    completedAt: Option<Timestamp>,
    resultsCount: int,
    resultsFile: Option<string>,
    errorMessage: Option<string>,
    scrapedItems: seq<ItemResponse>)

  /** `json.loads(item.additional_data) if item.additional_data else {}`. */
  function ParsedAdditionalData(item: ScrapedItem): Dict
  {
    match item.additionalData
    case None => []
    case Some(d) => d
  }

  function ItemResponseOf(item: ScrapedItem): ItemResponse
  {
    ItemResponse(item.id, item.title, item.description, item.url, item.price, item.rating, item.date,
                 ParsedAdditionalData(item))
  }

  /** The response for a job row without its items (`scraped_items` left at `[]`). */
  function JobSummary(job: ScrapingJob): JobResponse
  {
    JobResponse(job.id, job.query, job.status.Name(), job.maxResults, job.createdAt, job.completedAt,
                job.resultsCount, job.resultsFile, job.errorMessage, [])
  }

  /** The response for a job row with `job.scraped_items`, each mapped by `ItemResponseOf`. */
  function JobResponseOf(job: ScrapingJob, items: seq<ScrapedItem>): JobResponse
  {
    var mine := JobItems(items, job.id);
    JobSummary(job).(scrapedItems := seq(|mine|, i requires 0 <= i < |mine| => ItemResponseOf(mine[i])))
  }

  /** What the executor stores for a sample item reads back unchanged: every
      column, and `additional_data` through `json.dumps` then `json.loads`. */
  lemma StoredItemReadsBack(jobId: nat, s: SampleItem, id: nat)
    ensures ItemResponseOf(ItemRow(jobId, s).(id := id))
            == ItemResponse(id, Some(s.title), Some(s.description), Some(s.url), Some(s.price),
                            Some(s.rating), Some(s.date), s.additionalData)
  {
  }

  // ------------------------------------------------------------------
  // Job creation
  // ------------------------------------------------------------------

  /** `ScrapingRequest`: `max_results` is `DefaultMaxResults` (15) when the body leaves it out. */
  datatype ScrapingRequest = ScrapingRequest(query: string, maxResults: Option<int>)

  function RequestMaxResults(request: ScrapingRequest): int
  {
    match request.maxResults
    case None => DefaultMaxResults
    case Some(m) => m
  }

  /** `start_scraping` up to the response: the row is inserted with the
      request's query and `max_results`, unchecked, and returned as stored. The
      background run it schedules is `Lifecycle.StartThenRun`. */
  method StartScraping(db: Store, request: ScrapingRequest, now: Timestamp) returns (resp: JobResponse)
    requires db.Valid()
    modifies db
    ensures db.Valid()
    ensures db.jobs == old(db.jobs) + [NewJob(|old(db.jobs)| + 1, request.query, Some(RequestMaxResults(request)), now)]
    ensures db.items == old(db.items)
    ensures resp == JobSummary(db.jobs[|db.jobs| - 1])
    ensures resp.id == |old(db.jobs)| + 1 && resp.query == request.query && resp.status == "pending"
    ensures resp.maxResults == RequestMaxResults(request) && resp.resultsCount == 0 && resp.createdAt == now
    ensures resp.completedAt.None? && resp.errorMessage.None? && resp.resultsFile.None? && resp.scrapedItems == []
    ensures old(Consistent(db.jobs, db.items)) ==> Consistent(db.jobs, db.items)
  {
    ghost var jobs0 := db.jobs;
    var job := db.InsertJob(request.query, Some(RequestMaxResults(request)), now);
    resp := JobSummary(job);
    if Consistent(jobs0, db.items) {
      NewJobKeepsConsistent(jobs0, db.items, job);
    }
  }

  /** Adding a fresh pending job leaves every job consistent with the items. */
  lemma NewJobKeepsConsistent(jobs: seq<ScrapingJob>, items: seq<ScrapedItem>, job: ScrapingJob)
    requires Consistent(jobs, items)
    requires forall i :: 0 <= i < |items| ==> 1 <= items[i].jobId <= |jobs|
    requires job == NewJob(|jobs| + 1, job.query, Some(job.maxResults), job.createdAt)
    ensures Consistent(jobs + [job], items)
  {
    JobItemsNoneOf(items, job.id);
    forall i | 0 <= i < |jobs + [job]| ensures JobConsistent((jobs + [job])[i], items) {
      if i < |jobs| {
        assert JobConsistent(jobs[i], items);
      }
    }
  }

  // ------------------------------------------------------------------
  // Read endpoints
  // ------------------------------------------------------------------

  /** `GET /api/scraping/jobs/{job_id}`. */
  function GetJobDetails(jobs: seq<ScrapingJob>, items: seq<ScrapedItem>, jobId: int): (r: Result<JobResponse, HttpError>)
    ensures r.Err? <==> FindJob(jobs, jobId).None?
    ensures r.Err? ==> r.error == HttpError(404, "Job not found")
    ensures r.Ok? ==> r.value.id == jobId && |r.value.scrapedItems| == |JobItems(items, jobId)|
  {
    match FindJob(jobs, jobId)
    case None => Err(JobNotFound)
    case Some(job) => Ok(JobResponseOf(job, items))
  }

  /** On the store, a job id is found exactly when it was handed out, and the
      response carries that row and, in table order, every item of that job. */
  lemma GetJobDetailsOnStore(jobs: seq<ScrapingJob>, items: seq<ScrapedItem>, jobId: int)
    requires JobIdsArePositions(jobs)
    ensures GetJobDetails(jobs, items, jobId).Ok? <==> 1 <= jobId <= |jobs|
    ensures GetJobDetails(jobs, items, jobId).Ok? ==>
              var resp := GetJobDetails(jobs, items, jobId).value;
              && resp.status == jobs[jobId - 1].status.Name()
              && resp.resultsCount == jobs[jobId - 1].resultsCount
              && resp.errorMessage == jobs[jobId - 1].errorMessage
              && forall i :: 0 <= i < |resp.scrapedItems| ==>
                   resp.scrapedItems[i] == ItemResponseOf(JobItems(items, jobId)[i])
  {
    FindJobByPosition(jobs, jobId);
  }

  /** On a consistent store, a completed job's response lists exactly
      `results_count` items (at least one), and a failed one lists none and
      carries its error. */
  lemma DetailsAgreeWithCount(jobs: seq<ScrapingJob>, items: seq<ScrapedItem>, jobId: int)
    requires JobIdsArePositions(jobs) && Consistent(jobs, items) && 1 <= jobId <= |jobs|
    ensures GetJobDetails(jobs, items, jobId).Ok?
    ensures var resp := GetJobDetails(jobs, items, jobId).value;
            && (resp.status == "completed" ==> resp.resultsCount == |resp.scrapedItems| > 0)
            && (resp.status == "failed" ==> resp.scrapedItems == [] && resp.errorMessage.Some?)
            && (resp.status in {"pending", "running"} ==> resp.scrapedItems == [] && resp.completedAt.None?)
  {
    FindJobByPosition(jobs, jobId);
    assert JobConsistent(jobs[jobId - 1], items);
  }

  /** Rows ordered by `created_at`, newest first. */
  ghost predicate NewestFirst(js: seq<ScrapingJob>)
  {
    forall i, j :: 0 <= i < j < |js| ==> js[i].createdAt >= js[j].createdAt
  }

  function InsertNewestFirst(job: ScrapingJob, js: seq<ScrapingJob>): (r: seq<ScrapingJob>)
    requires NewestFirst(js)
    ensures NewestFirst(r)
    ensures multiset(r) == multiset(js) + multiset{job}
  {
    if js == [] || job.createdAt >= js[0].createdAt then
      [job] + js
    else
      var rest := InsertNewestFirst(job, js[1..]);
      assert js == [js[0]] + js[1..];
      InsertBelowHead(job, js, rest);
      [js[0]] + rest
  }

  lemma InsertBelowHead(job: ScrapingJob, js: seq<ScrapingJob>, rest: seq<ScrapingJob>)
    requires js != [] && NewestFirst(js) && NewestFirst(rest)
    requires job.createdAt < js[0].createdAt
    requires multiset(rest) == multiset(js[1..]) + multiset{job}
    ensures NewestFirst([js[0]] + rest)
  {
    forall k | 0 <= k < |rest| ensures rest[k].createdAt <= js[0].createdAt {
      assert rest[k] in multiset(rest);
      if rest[k] != job {
        assert rest[k] in js[1..];
      }
    }
  }

  /** `ORDER BY created_at DESC` (an insertion sort; rows with equal
      timestamps may come back in any order from the database). */
  function SortNewestFirst(js: seq<ScrapingJob>): (r: seq<ScrapingJob>)
    ensures NewestFirst(r)
    ensures multiset(r) == multiset(js)
  {
    if js == [] then []
    else
      assert js == [js[0]] + js[1..];
      InsertNewestFirst(js[0], SortNewestFirst(js[1..]))
  }

  /** `GET /api/scraping/jobs`: every job, newest first, each with its items. */
  function GetUserJobs(jobs: seq<ScrapingJob>, items: seq<ScrapedItem>): (r: seq<JobResponse>)
    ensures |r| == |jobs|
    ensures forall i, j :: 0 <= i < j < |r| ==> r[i].createdAt >= r[j].createdAt
  {
    var sorted := SortNewestFirst(jobs);
    assert |sorted| == |multiset(jobs)|;
    seq(|sorted|, i requires 0 <= i < |sorted| => JobResponseOf(sorted[i], items))
  }

  /** The list holds every job's response and nothing else. */
  lemma GetUserJobsComplete(jobs: seq<ScrapingJob>, items: seq<ScrapedItem>)
    ensures forall k :: 0 <= k < |jobs| ==> JobResponseOf(jobs[k], items) in GetUserJobs(jobs, items)
    ensures forall i :: 0 <= i < |GetUserJobs(jobs, items)| ==>
              exists k :: 0 <= k < |jobs| && GetUserJobs(jobs, items)[i] == JobResponseOf(jobs[k], items)
  {
    var sorted := SortNewestFirst(jobs);
    var r := GetUserJobs(jobs, items);
    forall k | 0 <= k < |jobs| ensures JobResponseOf(jobs[k], items) in r {
      assert jobs[k] in multiset(sorted);
      var m :| 0 <= m < |sorted| && sorted[m] == jobs[k];
      assert r[m] == JobResponseOf(jobs[k], items);
    }
    forall i | 0 <= i < |r| ensures exists k :: 0 <= k < |jobs| && r[i] == JobResponseOf(jobs[k], items) {
      assert sorted[i] in multiset(jobs);
      var k :| 0 <= k < |jobs| && jobs[k] == sorted[i];
      assert r[i] == JobResponseOf(jobs[k], items);
    }
  }

  // ------------------------------------------------------------------
  // Export endpoints
  // ------------------------------------------------------------------

  /** `value or ''` for a nullable text column. */
  function OrEmpty(s: Option<string>): string
  {
    match s
    case None => ""
    case Some(v) => v
  }

  /** The six fixed columns of an export row, in order. */
  const FixedColumns: seq<string> := ["Title", "Description", "URL", "Price", "Rating", "Date"]

  /** No two fixed columns share a name: they differ in their first letter or their length. */
  lemma FixedColumnsDistinct()
    ensures forall i, j :: 0 <= i < j < |FixedColumns| ==> FixedColumns[i] != FixedColumns[j]
  {
    forall i, j | 0 <= i < j < |FixedColumns| ensures FixedColumns[i] != FixedColumns[j] {
      assert FixedColumns[i][0] != FixedColumns[j][0] || |FixedColumns[i]| != |FixedColumns[j]|;
    }
  }

  function FixedRow(item: ScrapedItem): (d: Dict)
    ensures IsDict(d) && Keys(d) == FixedColumns
  {
    var d := [ ("Title", JString(OrEmpty(item.title))),
               ("Description", JString(OrEmpty(item.description))),
               ("URL", JString(OrEmpty(item.url))),
               ("Price", JString(OrEmpty(item.price))),
               ("Rating", JString(OrEmpty(item.rating))),
               ("Date", JString(OrEmpty(item.date))) ];
    assert forall i :: 0 <= i < |d| ==> d[i].0 == FixedColumns[i];
    FixedColumnsDistinct();
    d
  }

  /** `{'Title': item.title or '', ..., 'Date': item.date or '', **additional_data}`. */
  function ExportRow(item: ScrapedItem): Dict
  {
    Spread(FixedRow(item), ParsedAdditionalData(item))
  }

  /** The columns of a row: the six fixed ones first, then the keys of
      `additional_data` that are not fixed column names, in their order. */
  lemma ExportRowColumns(item: ScrapedItem)
    requires IsDict(ParsedAdditionalData(item))
    ensures Keys(ExportRow(item)) == FixedColumns + Unseen(Keys(ParsedAdditionalData(item)), FixedColumns)
  {
    SpreadKeys(FixedRow(item), ParsedAdditionalData(item));
  }

  /** A fixed column shows its field, `''` for NULL or empty; no other column is fixed. */
  lemma FixedRowCell(item: ScrapedItem, column: string)
    ensures Lookup(FixedRow(item), column) ==
              if column == "Title" then Some(JString(OrEmpty(item.title)))
              else if column == "Description" then Some(JString(OrEmpty(item.description)))
              else if column == "URL" then Some(JString(OrEmpty(item.url)))
              else if column == "Price" then Some(JString(OrEmpty(item.price)))
              else if column == "Rating" then Some(JString(OrEmpty(item.rating)))
              else if column == "Date" then Some(JString(OrEmpty(item.date)))
              else None
  {
    var d := FixedRow(item);
    if column == "Title" {
      assert KeyIndex(d, column) == Some(0);
    } else if column == "Description" {
      assert KeyIndex(d, column) == Some(1);
    } else if column == "URL" {
      assert KeyIndex(d, column) == Some(2);
    } else if column == "Price" {
      assert KeyIndex(d, column) == Some(3);
    } else if column == "Rating" {
      assert KeyIndex(d, column) == Some(4);
    } else if column == "Date" {
      assert KeyIndex(d, column) == Some(5);
    } else {
      assert column !in FixedColumns;
    }
  }

  /** A key of `additional_data` shows its value, even over a fixed column of
      the same name; every other column reads from the fixed part. */
  lemma ExportRowCell(item: ScrapedItem, column: string)
    requires IsDict(ParsedAdditionalData(item))
    ensures var extra := ParsedAdditionalData(item);
            Lookup(ExportRow(item), column) ==
              if column in Keys(extra) then Lookup(extra, column) else Lookup(FixedRow(item), column)
  {
    SpreadLookup(FixedRow(item), ParsedAdditionalData(item), column);
  }

  /** The `data` list: one row per item, in item order. */
  function ExportRows(items: seq<ScrapedItem>): (rows: seq<Dict>)
    ensures |rows| == |items|
  {
    seq(|items|, i requires 0 <= i < |items| => ExportRow(items[i]))
  }

  /** The `for item in job.scraped_items: ... data.append(row)` loop. */
  method BuildExportRows(items: seq<ScrapedItem>) returns (data: seq<Dict>)
    ensures data == ExportRows(items)
    ensures forall i :: 0 <= i < |data| ==> data[i] == ExportRow(items[i])
  {
    data := [];
    for i := 0 to |items|
      invariant data == ExportRows(items[..i])
    {
      assert ExportRows(items[..i + 1]) == ExportRows(items[..i]) + [ExportRow(items[i])];
      data := data + [ExportRow(items[i])];
    }
    assert items[..|items|] == items;
  }

  datatype ExportFormat = Csv | Excel {
    function Extension(): string
    {
      match this
      case Csv => ".csv"
      case Excel => ".xlsx"
    }

    function MediaType(): string
    {
      match this
      case Csv => "text/csv"
      case Excel => "application/vnd.openxmlformats-officedocument.spreadsheetml.sheet"
    }
  }

  /** `f"scraping_job_{job_id}_{job.query.replace(' ', '_')}"` plus the extension. */
  function ExportFilename(jobId: nat, query: string, format: ExportFormat): (name: string)
    ensures ' ' !in name
  {
    var name := "scraping_job_" + NatToString(jobId) + "_" + ReplaceChar(query, ' ', '_') + format.Extension();
    assert forall i :: 0 <= i < |NatToString(jobId)| ==> IsDigit(NatToString(jobId)[i]);
    name
  }

  /** What an export endpoint hands to the spreadsheet writer and the response headers. */
  datatype Export = Export(rows: seq<Dict>, filename: string, mediaType: string)

  /** `export_job_csv` / `export_job_excel` up to the file bytes. */
  method ExportJob(jobs: seq<ScrapingJob>, items: seq<ScrapedItem>, jobId: int, format: ExportFormat)
    returns (r: Result<Export, HttpError>)
    ensures FindJob(jobs, jobId).None? ==> r == Err(HttpError(404, "Job not found"))
    ensures FindJob(jobs, jobId).Some? && JobItems(items, jobId) == [] ==>
              r == Err(HttpError(404, "No data found for this job"))
    ensures FindJob(jobs, jobId).Some? && JobItems(items, jobId) != [] ==>
              var job := FindJob(jobs, jobId).value;
              r == Ok(Export(ExportRows(JobItems(items, jobId)), ExportFilename(job.id, job.query, format),
                             format.MediaType()))
  {
    var found := FindJob(jobs, jobId);
    if found.None? {
      return Err(JobNotFound);
    }
    var job := found.value;
    var data := BuildExportRows(JobItems(items, job.id));
    if data == [] {
      return Err(NoExportData);
    }
    r := Ok(Export(data, ExportFilename(job.id, job.query, format), format.MediaType()));
  }

  /** On a consistent store a completed job always exports: it has items, and
      as many rows as its `results_count`. */
  lemma CompletedJobExports(jobs: seq<ScrapingJob>, items: seq<ScrapedItem>, jobId: int)
    requires JobIdsArePositions(jobs) && Consistent(jobs, items) && 1 <= jobId <= |jobs|
    requires jobs[jobId - 1].status == Completed
    ensures FindJob(jobs, jobId) == Some(jobs[jobId - 1])
    ensures JobItems(items, jobId) != []
    ensures |ExportRows(JobItems(items, jobId))| == jobs[jobId - 1].resultsCount
  {
    FindJobByPosition(jobs, jobId);
    assert JobConsistent(jobs[jobId - 1], items);
  }
}
