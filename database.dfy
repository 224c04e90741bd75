/** The two tables of the backend (`scraping_jobs`, `scraped_items`), their
    column defaults, the job-to-items relation, and an in-memory stand-in for
    the SQL session that the gateway and the executor write through. */
module Database {
  import opened Common

  /** An opaque point in time (`datetime.utcnow()`). */
  type Timestamp = int

  /** The four values the `status` column takes. */
  datatype Status = Pending | Running | Completed | Failed {
    /** The text stored in the column and sent to clients. */
    function Name(): string
    {
      match this
      case Pending => "pending"
      case Running => "running"
      case Completed => "completed"
      case Failed => "failed"
    }

    predicate IsTerminal() { this == Completed || this == Failed }
  }

  /** Reads a `status` column value back; anything else is not a status. */
  function ParseStatus(s: string): (r: Option<Status>)
    ensures r.Some? ==> r.value.Name() == s
  {
    if s == "pending" then Some(Pending)
    else if s == "running" then Some(Running)
    else if s == "completed" then Some(Completed)
    else if s == "failed" then Some(Failed)
    else None
  }

  lemma StatusNameRoundTrip(st: Status)
    ensures ParseStatus(st.Name()) == Some(st)
  {
  }

  /** A row of `scraping_jobs`. */
  datatype ScrapingJob = ScrapingJob(
    id: nat,
    query: string,
    status: Status,
    maxResults: int,
    createdAt: Timestamp,
    completedAt: Option<Timestamp>,
    resultsCount: int,
    resultsFile: Option<string>,
    errorMessage: Option<string>)

  /** A row of `scraped_items`. `additionalData` is the JSON text column:
      `None` stands for NULL or the empty text, `Some(d)` for the text
      `json.dumps(d)`, which reads back as `d`. */
  datatype ScrapedItem = ScrapedItem(
    id: nat,
    jobId: nat,
    title: Option<string>,
    description: Option<string>,
    url: Option<string>,
    price: Option<string>,
    rating: Option<string>,
    date: Option<string>,
    additionalData: Option<Dict>)

  /** The column default of `max_results`. The request schema and the submit
      page's slider start from the same value. */
  const DefaultMaxResults := 15

  /** A `ScrapingJob` inserted with only `query` (and `max_results` when
      given): every other column takes its default. */
  function NewJob(id: nat, query: string, maxResults: Option<int>, now: Timestamp): (j: ScrapingJob)
    ensures j.id == id && j.query == query && j.createdAt == now
    ensures j.status == Pending
    ensures j.maxResults == (if maxResults.Some? then maxResults.value else DefaultMaxResults)
    ensures j.resultsCount == 0
    ensures j.completedAt.None? && j.errorMessage.None? && j.resultsFile.None?
  {
    ScrapingJob(id, query, Pending,
                match maxResults case Some(m) => m case None => DefaultMaxResults,
                now, None, 0, None, None)
  }

  /** `db.query(ScrapingJob).filter(ScrapingJob.id == id).first()`. */
  function FindJob(jobs: seq<ScrapingJob>, id: int): (r: Option<ScrapingJob>)
    ensures r.Some? ==> r.value in jobs && r.value.id == id
    ensures r.None? ==> forall i :: 0 <= i < |jobs| ==> jobs[i].id != id
  {
    if jobs == [] then None else if jobs[0].id == id then Some(jobs[0]) else FindJob(jobs[1..], id)
  }

  /** Row ids are assigned 1, 2, 3, ... in insertion order and rows are never deleted. */
  ghost predicate JobIdsArePositions(jobs: seq<ScrapingJob>)
  {
    forall i :: 0 <= i < |jobs| ==> jobs[i].id == i + 1
  }

  lemma {:induction false} FindJobByPosition(jobs: seq<ScrapingJob>, id: int)
    requires JobIdsArePositions(jobs)
    ensures FindJob(jobs, id) == if 1 <= id <= |jobs| then Some(jobs[id - 1]) else None
  {
    if 1 <= id <= |jobs| {
      FindJobFirst(jobs, id - 1);
    }
  }

  lemma {:induction false} FindJobFirst(jobs: seq<ScrapingJob>, k: nat)
    requires k < |jobs|
    requires forall i :: 0 <= i < k ==> jobs[i].id != jobs[k].id
    ensures FindJob(jobs, jobs[k].id) == Some(jobs[k])
  {
    if k > 0 {
      FindJobFirst(jobs[1..], k - 1);
    }
  }

  /** `job.scraped_items`: the items whose `job_id` is the job's id, in table order. */
  function JobItems(items: seq<ScrapedItem>, jobId: nat): (r: seq<ScrapedItem>)
    ensures forall x :: x in r <==> x in items && x.jobId == jobId
    ensures |r| <= |items|
  {
    if items == [] then []
    else (if items[0].jobId == jobId then [items[0]] else []) + JobItems(items[1..], jobId)
  }

  lemma {:induction false} JobItemsAppend(a: seq<ScrapedItem>, b: seq<ScrapedItem>, jobId: nat)
    ensures JobItems(a + b, jobId) == JobItems(a, jobId) + JobItems(b, jobId)
  {
    if a != [] {
      assert (a + b)[1..] == a[1..] + b;
      JobItemsAppend(a[1..], b, jobId);
    } else {
      assert a + b == b;
    }
  }

  lemma {:induction false} JobItemsAllOf(b: seq<ScrapedItem>, jobId: nat)
    requires forall i :: 0 <= i < |b| ==> b[i].jobId == jobId
    ensures JobItems(b, jobId) == b
  {
    if b != [] {
      JobItemsAllOf(b[1..], jobId);
    }
  }

  lemma {:induction false} JobItemsNoneOf(b: seq<ScrapedItem>, jobId: nat)
    requires forall i :: 0 <= i < |b| ==> b[i].jobId != jobId
    ensures JobItems(b, jobId) == []
  {
    if b != [] {
      JobItemsNoneOf(b[1..], jobId);
    }
  }

  /** What each status implies about the rest of a job's row and its items,
      for jobs created by the gateway and driven by the executor. */
  ghost predicate JobConsistent(j: ScrapingJob, items: seq<ScrapedItem>)
  {
    var n := |JobItems(items, j.id)|;
    match j.status
    case Pending => j.completedAt.None? && j.errorMessage.None? && j.resultsCount == 0 && n == 0
    case Running => j.completedAt.None? && j.errorMessage.None? && j.resultsCount == 0 && n == 0
    case Completed => j.completedAt.Some? && j.errorMessage.None? && j.resultsCount == n && n > 0
    case Failed => j.completedAt.Some? && j.errorMessage.Some? && j.resultsCount == 0 && n == 0
  }

  ghost predicate Consistent(jobs: seq<ScrapingJob>, items: seq<ScrapedItem>)
  {
    forall i :: 0 <= i < |jobs| ==> JobConsistent(jobs[i], items)
  }

  /** On a consistent store, a job carries an error message exactly when it has failed. */
  lemma ErrorMessageIffFailed(jobs: seq<ScrapingJob>, items: seq<ScrapedItem>, i: nat)
    requires Consistent(jobs, items) && i < |jobs|
    ensures jobs[i].errorMessage.Some? <==> jobs[i].status == Failed
    ensures jobs[i].completedAt.Some? <==> jobs[i].status.IsTerminal()
  {
    assert JobConsistent(jobs[i], items);
  }

  /** The session: both tables, in insertion order. */
  class Store {
    var jobs: seq<ScrapingJob>
    var items: seq<ScrapedItem>

    ghost predicate Valid()
      reads this
    {
      && JobIdsArePositions(jobs)
      && (forall i :: 0 <= i < |items| ==> items[i].id == i + 1)
      && (forall i :: 0 <= i < |items| ==> 1 <= items[i].jobId <= |jobs|)
    }

    constructor ()
      ensures Valid() && jobs == [] && items == []
    {
      jobs := [];
      items := [];
    }

    /** `db.add(ScrapingJob(...)); db.commit(); db.refresh(job)`. */
    method InsertJob(query: string, maxResults: Option<int>, now: Timestamp) returns (job: ScrapingJob)
      requires Valid()
      modifies this
      ensures Valid()
      ensures job == NewJob(|old(jobs)| + 1, query, maxResults, now)
      ensures jobs == old(jobs) + [job] && items == old(items)
    {
      job := NewJob(|jobs| + 1, query, maxResults, now);
      jobs := jobs + [job];
    }

    /** `db.add(ScrapedItem(...))` followed by the commit that assigns its id. */
    method InsertItem(item: ScrapedItem) returns (stored: ScrapedItem)
      requires Valid() && 1 <= item.jobId <= |jobs|
      modifies this
      ensures Valid()
      ensures stored == item.(id := |old(items)| + 1)
      ensures items == old(items) + [stored] && jobs == old(jobs)
    {
      stored := item.(id := |items| + 1);
      items := items + [stored];
    }

    /** Committing changed columns of an existing job row. */
    method SaveJob(job: ScrapingJob)
      requires Valid() && 1 <= job.id <= |jobs|
      modifies this
      ensures Valid()
      ensures jobs == old(jobs)[job.id - 1 := job] && items == old(items)
    {
      jobs := jobs[job.id - 1 := job];
    }
  }
}
