/** The job executor (`EnhancedAIWebScraper.scrape_with_progress`) and the
    sample producer (`create_sample_data`) of the backend. */
module Scraper {
  import opened Common
  import opened Database

  // ------------------------------------------------------------------
  // Sample producer
  // ------------------------------------------------------------------

  /** One dictionary of `create_sample_data`'s list. */
  datatype SampleItem = SampleItem(
    title: string,
    description: string,
    url: string,
    price: string,
    rating: string,
    date: string,
    additionalData: Dict)

  /** What `create_sample_data` draws from outside: the successive
      `datetime.now().isoformat()` reads, one per entry of the list it builds
      (five for the iPhone list, the first two for the generic one), the two
      `random.randint(1000, 50000)` prices and the two ratings
      `random.uniform(3.5, 5.0)`, kept as tenths as `:.1f` prints them. */
  datatype Randomness = Randomness(
    now1: string, now2: string, now3: string, now4: string, now5: string,
    price1: nat, price2: nat, rating1: nat, rating2: nat)
  {
    /** The `k`-th clock read of the call, counting from 0. */
    function Now(k: nat): string
      requires k < 5
    {
      if k == 0 then now1 else if k == 1 then now2 else if k == 2 then now3
      else if k == 3 then now4 else now5
    }
  }

  /** `"iphone" in query.lower()`. */
  predicate IsIphoneQuery(query: string)
  {
    Occurs(Lower(query), "iphone")
  }

  function Text(s: string): Scalar { JString(s) }

  /** The `k`-th entry of the fixed iPhone list. */
  function IphoneItem(k: nat, date: string): SampleItem
    requires k < 5
  {
    if k == 0 then
      SampleItem("iPhone 15 128GB - Midnight",
        "Latest iPhone 15 with 48MP camera, USB-C, and Dynamic Island. Available in multiple colors.",
        "https://www.apple.com/iphone-15/", "₹79,900", "4.5/5", date,
        [("color", Text("Midnight")), ("storage", Text("128GB")), ("availability", Text("In Stock"))])
    else if k == 1 then
      SampleItem("iPhone 15 Plus 256GB - Blue",
        "iPhone 15 Plus with larger 6.7-inch display, longer battery life, and advanced camera system.",
        "https://www.apple.com/iphone-15-plus/", "₹89,900", "4.4/5", date,
        [("color", Text("Blue")), ("storage", Text("256GB")), ("availability", Text("In Stock"))])
    else if k == 2 then
      SampleItem("iPhone 15 Pro 128GB - Natural Titanium",
        "Pro model with titanium design, advanced camera system, and powerful A17 Pro chip.",
        "https://www.apple.com/iphone-15-pro/", "₹1,34,900", "4.6/5", date,
        [("color", Text("Natural Titanium")), ("storage", Text("128GB")), ("availability", Text("Limited Stock"))])
    else if k == 3 then
      SampleItem("iPhone 15 Pro Max 256GB - Black Titanium",
        "Largest iPhone with Pro Max features, titanium build, and professional camera capabilities.",
        "https://www.apple.com/iphone-15-pro-max/", "₹1,59,900", "4.7/5", date,
        [("color", Text("Black Titanium")), ("storage", Text("256GB")), ("availability", Text("Pre-order"))])
    else
      SampleItem("iPhone 15 512GB - Yellow (Amazon)",
        "iPhone 15 with maximum storage, available with exclusive Amazon offers and fast delivery.",
        "https://amazon.in/iphone-15-yellow", "₹99,900", "4.3/5", date,
        [("color", Text("Yellow")), ("storage", Text("512GB")), ("platform", Text("Amazon")), ("discount", Text("5% off"))])
  }

  /** The iPhone list: each entry is stamped by its own clock read, in list order. */
  function IphoneItems(rnd: Randomness): (r: seq<SampleItem>)
    ensures |r| == 5
    ensures forall k :: 0 <= k < 5 ==> r[k].date == rnd.Now(k)
  {
    seq(5, k requires 0 <= k < 5 => IphoneItem(k, rnd.Now(k)))
  }

  /** `f'{x:.1f}/5'` for a rating of `tenths` tenths. */
  function RatingText(tenths: nat): string
  {
    NatToString(tenths / 10) + "." + NatToString(tenths % 10) + "/5"
  }

  /** `'₹' + str(p)`. */
  function PriceText(p: nat): string
  {
    "₹" + NatToString(p)
  }

  /** The URL of the `n`-th generic result: `f'https://example{n}.com/{query.replace(" ", "-")}'`. */
  function ExampleUrl(n: nat, query: string): string
  {
    "https://example" + NatToString(n) + ".com/" + ReplaceChar(query, ' ', '-')
  }

  /** The generic list: two entries, stamped by the first and second clock reads. */
  function GenericItems(query: string, rnd: Randomness): (r: seq<SampleItem>)
    ensures |r| == 2
    ensures r[0].date == rnd.Now(0) && r[1].date == rnd.Now(1)
  {
    [ SampleItem("Search Result 1 for " + query,
        "Detailed information about " + query + " from a reliable source with comprehensive details.",
        ExampleUrl(1, query), PriceText(rnd.price1), RatingText(rnd.rating1), rnd.now1,
        [("source", Text("Example Site 1")), ("category", Text("General"))]),
      SampleItem("Search Result 2 for " + query,
        "Alternative option for " + query + " with different features and competitive pricing.",
        ExampleUrl(2, query), PriceText(rnd.price2), RatingText(rnd.rating2), rnd.now2,
        [("source", Text("Example Site 2")), ("category", Text("General"))])
    ]
  }

  /** Python's `s[:stop]` for an integer `stop` (negative counts from the end). */
  function SliceTo<T>(s: seq<T>, stop: int): (r: seq<T>)
    ensures |r| == if stop >= 0 then (if stop < |s| then stop else |s|)
                   else (if |s| + stop > 0 then |s| + stop else 0)
    ensures r == s[..|r|]
  {
    if stop >= 0 then (if stop < |s| then s[..stop] else s)
    else if |s| + stop > 0 then s[..|s| + stop]
    else []
  }

  function BaseItems(query: string, rnd: Randomness): seq<SampleItem>
  {
    if IsIphoneQuery(query) then IphoneItems(rnd) else GenericItems(query, rnd)
  }

  /** `create_sample_data(query, max_results)`. */
  function CreateSampleData(query: string, maxResults: int, rnd: Randomness): seq<SampleItem>
  {
    SliceTo(BaseItems(query, rnd), maxResults)
  }

  /** The result is the first items of the iPhone list or of the generic list,
      as many as `max_results` asks for (Python slice rules), never more than the list has. */
  lemma SampleDataShape(query: string, maxResults: int, rnd: Randomness)
    ensures var r := CreateSampleData(query, maxResults, rnd);
            var base := if IsIphoneQuery(query) then IphoneItems(rnd) else GenericItems(query, rnd);
            var n := |base|;
            && n == (if IsIphoneQuery(query) then 5 else 2)
            && r == base[..|r|]
            && |r| == (if maxResults >= 0 then (if maxResults < n then maxResults else n)
                       else (if n + maxResults > 0 then n + maxResults else 0))
  {
  }

  /** The generic results carry the query, with spaces turned into dashes, in their URL. */
  lemma GenericUrls(query: string, maxResults: int, rnd: Randomness, i: nat)
    requires !IsIphoneQuery(query)
    requires i < |CreateSampleData(query, maxResults, rnd)|
    ensures CreateSampleData(query, maxResults, rnd)[i].url
            == "https://example" + [DigitChar(i + 1)] + ".com/" + ReplaceChar(query, ' ', '-')
    ensures CreateSampleData(query, maxResults, rnd)[i].title == "Search Result " + [DigitChar(i + 1)] + " for " + query
  {
    var g := GenericItems(query, rnd);
    var r := SliceTo(g, maxResults);
    assert r == CreateSampleData(query, maxResults, rnd);
    assert r[i] == g[i];
    assert NatToString(i + 1) == [DigitChar(i + 1)];
    if i == 0 {
      assert g[0].url == ExampleUrl(1, query);
    } else {
      assert g[1].url == ExampleUrl(2, query);
    }
  }

  /** The sample list is empty exactly when `max_results` cuts everything off. */
  lemma SampleDataEmpty(query: string, maxResults: int, rnd: Randomness)
    ensures CreateSampleData(query, maxResults, rnd) == []
            <==> maxResults == 0 || maxResults <= -(if IsIphoneQuery(query) then 5 else 2)
  {
    var base := BaseItems(query, rnd);
    assert |base| == if IsIphoneQuery(query) then 5 else 2;
    var r := SliceTo(base, maxResults);
    assert r == [] <==> |r| == 0;
  }

  // ------------------------------------------------------------------
  // Job executor
  // ------------------------------------------------------------------

  /** How the browser-use agent behaves: it finishes, or raises while it is
      being created (line 53), or while it runs / reports its result (lines 59-60). */
  datatype AgentRun = Finished | RaisedOnCreate(error: string) | RaisedOnRun(error: string)

  /** One `progress_callback(job_id, status, progress, message)` call. */
  datatype ProgressEvent = ProgressEvent(jobId: nat, status: Status, progress: int, message: string)

  /** How a run ends: it returns the scraped data, or re-raises. */
  datatype RunResult = Returned(scrapedData: seq<SampleItem>) | Raised(error: string)

  const NoDataError := "No data could be extracted from the search results."

  /** What Python raises on `job.status = ...` when the job does not exist. */
  const MissingJobError := "'NoneType' object has no attribute 'status'"

  /** The exception text of a run that fails, or `None` when it succeeds. */
  function RunError(agent: AgentRun, scraped: seq<SampleItem>): (e: Option<string>)
    ensures e.None? <==> agent == Finished && scraped != []
  {
    match agent
    case RaisedOnCreate(m) => Some(m)
    case RaisedOnRun(m) => Some(m)
    case Finished => if scraped == [] then Some(NoDataError) else None
  }

  function Last<T>(s: seq<T>): T requires s != [] { s[|s| - 1] }

  /** The callback calls of one run, in order. */
  function RunEvents(jobId: nat, agent: AgentRun, scraped: seq<SampleItem>): (ev: seq<ProgressEvent>)
    ensures 2 <= |ev| <= 4
    ensures ev[0] == ProgressEvent(jobId, Running, 10, "Starting web scraping...")
    ensures forall i :: 0 <= i < |ev| ==> ev[i].jobId == jobId
    // exactly one terminal event, and it is the last one
    ensures forall i :: 0 <= i < |ev| - 1 ==> ev[i].status == Running
    ensures Last(ev).status.IsTerminal()
    // progress rises strictly up to a completion
    ensures forall i, j :: 0 <= i < j < |ev| && ev[j].status != Failed ==> ev[i].progress < ev[j].progress
    ensures Last(ev).status == Completed <==> RunError(agent, scraped).None?
    ensures Last(ev).status == Completed ==>
              Last(ev) == ProgressEvent(jobId, Completed, 100,
                                        "Successfully extracted " + NatToString(|scraped|) + " items!")
    ensures Last(ev).status == Failed ==>
              Last(ev) == ProgressEvent(jobId, Failed, 0, "Error: " + RunError(agent, scraped).value)
  {
    var started := ProgressEvent(jobId, Running, 10, "Starting web scraping...");
    var searching := ProgressEvent(jobId, Running, 30, "AI agent is searching and extracting data...");
    var processing := ProgressEvent(jobId, Running, 70, "Processing extracted data...");
    match agent
    case RaisedOnCreate(m) => [started, ProgressEvent(jobId, Failed, 0, "Error: " + m)]
    case RaisedOnRun(m) => [started, searching, ProgressEvent(jobId, Failed, 0, "Error: " + m)]
    case Finished =>
      if scraped == [] then [started, searching, processing, ProgressEvent(jobId, Failed, 0, "Error: " + NoDataError)]
      else [started, searching, processing,
            ProgressEvent(jobId, Completed, 100, "Successfully extracted " + NatToString(|scraped|) + " items!")]
  }

  /** `ScrapedItem(job_id=job_id, title=item_data.get('title'), ...)`: every
      column is present, and `additional_data` holds the item's dictionary. */
  function ItemRow(jobId: nat, s: SampleItem): ScrapedItem
  {
    ScrapedItem(0, jobId, Some(s.title), Some(s.description), Some(s.url), Some(s.price),
                Some(s.rating), Some(s.date), Some(s.additionalData))
  }

  /** The rows the success path adds, with the ids the commit assigns from `firstId` on. */
  function StoredItems(firstId: nat, jobId: nat, scraped: seq<SampleItem>): seq<ScrapedItem>
  {
    seq(|scraped|, k requires 0 <= k < |scraped| => ItemRow(jobId, scraped[k]).(id := firstId + k))
  }

  /** The job row at the end of a run. */
  function FinishedJob(job: ScrapingJob, agent: AgentRun, scraped: seq<SampleItem>, now: Timestamp): ScrapingJob
  {
    match RunError(agent, scraped)
    case None => job.(status := Completed, completedAt := Some(now), resultsCount := |scraped|)
    case Some(e) => job.(status := Failed, errorMessage := Some(e), completedAt := Some(now))
  }

  /** Running a pending job keeps every job's row in line with its items: on
      success `results_count` is the number of items attached to the job, and
      on failure no item is attached and `results_count` stays 0. */
  lemma RunKeepsConsistent(jobs: seq<ScrapingJob>, items: seq<ScrapedItem>, k: nat,
                           agent: AgentRun, scraped: seq<SampleItem>, now: Timestamp)
    requires JobIdsArePositions(jobs) && k < |jobs|
    requires Consistent(jobs, items) && jobs[k].status == Pending
    ensures var ok := RunError(agent, scraped).None?;
            var items' := items + (if ok then StoredItems(|items| + 1, k + 1, scraped) else []);
            var jobs' := jobs[k := FinishedJob(jobs[k], agent, scraped, now)];
            && Consistent(jobs', items')
            && (ok ==> jobs'[k].status == Completed && JobItems(items', k + 1) == StoredItems(|items| + 1, k + 1, scraped))
            && (!ok ==> jobs'[k].status == Failed && jobs'[k].errorMessage == RunError(agent, scraped))
  {
    var ok := RunError(agent, scraped).None?;
    var added := if ok then StoredItems(|items| + 1, k + 1, scraped) else [];
    var items' := items + added;
    var jobs' := jobs[k := FinishedJob(jobs[k], agent, scraped, now)];
    forall i | 0 <= i < |jobs'| ensures JobConsistent(jobs'[i], items') {
      assert JobConsistent(jobs[i], items);
      if i == k {
        FinishedJobConsistent(jobs[k], items, agent, scraped, now);
      } else {
        OtherJobUnaffected(jobs[i], items, added, k + 1);
      }
    }
    if ok {
      JobItemsAppend(items, added, k + 1);
      JobItemsAllOf(added, k + 1);
      assert JobItems(items, k + 1) == [] by { assert JobConsistent(jobs[k], items); }
    }
  }

  /** `RunKeepsConsistent`, stated on the tables `RunFound` leaves behind.
      `Execute` calls this rather than `RunKeepsConsistent` itself so that the
      instantiation happens here, on plain sequences, and not in the method's
      heap context, where proving it costs more than twice as much. */
  lemma RunEndsConsistent(jobs: seq<ScrapingJob>, items: seq<ScrapedItem>,
                          jobs': seq<ScrapingJob>, items': seq<ScrapedItem>, k: nat,
                          agent: AgentRun, scraped: seq<SampleItem>, now: Timestamp)
    requires JobIdsArePositions(jobs) && k < |jobs|
    requires Consistent(jobs, items) && jobs[k].status == Pending
    requires jobs' == jobs[k := FinishedJob(jobs[k], agent, scraped, now)]
    requires items' == items + (if RunError(agent, scraped).None? then StoredItems(|items| + 1, k + 1, scraped) else [])
    ensures Consistent(jobs', items')
  {
    RunKeepsConsistent(jobs, items, k, agent, scraped, now);
  }

  lemma FinishedJobConsistent(job: ScrapingJob, items: seq<ScrapedItem>,
                              agent: AgentRun, scraped: seq<SampleItem>, now: Timestamp)
    requires job.status == Pending && JobConsistent(job, items)
    ensures var ok := RunError(agent, scraped).None?;
            JobConsistent(FinishedJob(job, agent, scraped, now),
                          items + (if ok then StoredItems(|items| + 1, job.id, scraped) else []))
  {
    var ok := RunError(agent, scraped).None?;
    var added := if ok then StoredItems(|items| + 1, job.id, scraped) else [];
    JobItemsAppend(items, added, job.id);
    if ok { JobItemsAllOf(added, job.id); } else { JobItemsNoneOf(added, job.id); }
  }

  lemma OtherJobUnaffected(job: ScrapingJob, items: seq<ScrapedItem>, added: seq<ScrapedItem>, jobId: nat)
    requires JobConsistent(job, items) && job.id != jobId
    requires forall i :: 0 <= i < |added| ==> added[i].jobId == jobId
    ensures JobItems(items + added, job.id) == JobItems(items, job.id)
    ensures JobConsistent(job, items + added)
  {
    JobItemsAppend(items, added, job.id);
    JobItemsNoneOf(added, job.id);
  }

  /** `EnhancedAIWebScraper`; `trace` records the progress callback's calls. */
  class EnhancedAIWebScraper {
    var trace: seq<ProgressEvent>

    constructor ()
      ensures trace == []
    {
      trace := [];
    }

    /** `await progress_callback(...)` when a callback was passed. */
    method Notify(hasCallback: bool, ev: ProgressEvent)
      modifies this
      ensures trace == old(trace) + (if hasCallback then [ev] else [])
    {
      if hasCallback {
        trace := trace + [ev];
      }
    }

    /** The `except` block: mark the job failed, report, re-raise. */
    method RecordFailure(db: Store, job: ScrapingJob, error: string, hasCallback: bool, now: Timestamp)
      returns (r: RunResult)
      requires db.Valid() && 1 <= job.id <= |db.jobs|
      modifies this, db
      ensures db.Valid()
      ensures db.jobs == old(db.jobs)[job.id - 1 := job.(status := Failed, errorMessage := Some(error), completedAt := Some(now))]
      ensures db.items == old(db.items)
      ensures trace == old(trace) + (if hasCallback then [ProgressEvent(job.id, Failed, 0, "Error: " + error)] else [])
      ensures r == Raised(error)
    {
      db.SaveJob(job.(status := Failed, errorMessage := Some(error), completedAt := Some(now)));
      Notify(hasCallback, ProgressEvent(job.id, Failed, 0, "Error: " + error));
      r := Raised(error);
    }

    /** `scrape_with_progress(job_id, query, max_results, progress_callback)`,
        the agent's behaviour given by `agent`, `create_sample_data`'s draws by
        `rnd`, and `datetime.utcnow()` by `now`. */
    method ScrapeWithProgress(db: Store, jobId: nat, query: string, maxResults: int, hasCallback: bool,
                              agent: AgentRun, rnd: Randomness, now: Timestamp)
      returns (r: RunResult)
      requires db.Valid()
      modifies this, db
      ensures db.Valid()
      ensures !(1 <= jobId <= |old(db.jobs)|) ==>
                r == Raised(MissingJobError) && db.jobs == old(db.jobs) && db.items == old(db.items)
                && trace == old(trace)
      ensures 1 <= jobId <= |old(db.jobs)| ==>
                var scraped := CreateSampleData(query, maxResults, rnd);
                var err := RunError(agent, scraped);
                && db.jobs == old(db.jobs)[jobId - 1 := FinishedJob(old(db.jobs)[jobId - 1], agent, scraped, now)]
                && db.items == old(db.items) + (if err.None? then StoredItems(|old(db.items)| + 1, jobId, scraped) else [])
                && trace == old(trace) + (if hasCallback then RunEvents(jobId, agent, scraped) else [])
                && r == (if err.None? then Returned(scraped) else Raised(err.value))
      ensures (1 <= jobId <= |old(db.jobs)| && old(db.jobs[jobId - 1].status) == Pending
               && old(Consistent(db.jobs, db.items))) ==> Consistent(db.jobs, db.items)
    {
      r := Execute(db, jobId, hasCallback, agent, CreateSampleData(query, maxResults, rnd), now);
    }

    /** The body of `scrape_with_progress`, with the list that
        `create_sample_data` returns passed in as `scraped`. */
    method Execute(db: Store, jobId: nat, hasCallback: bool, agent: AgentRun,
                   scraped: seq<SampleItem>, now: Timestamp)
      returns (r: RunResult)
      requires db.Valid()
      modifies this, db
      ensures db.Valid()
      ensures !(1 <= jobId <= |old(db.jobs)|) ==>
                r == Raised(MissingJobError) && db.jobs == old(db.jobs) && db.items == old(db.items)
                && trace == old(trace)
      ensures 1 <= jobId <= |old(db.jobs)| ==>
                var err := RunError(agent, scraped);
                && db.jobs == old(db.jobs)[jobId - 1 := FinishedJob(old(db.jobs)[jobId - 1], agent, scraped, now)]
                && db.items == old(db.items) + (if err.None? then StoredItems(|old(db.items)| + 1, jobId, scraped) else [])
                && trace == old(trace) + (if hasCallback then RunEvents(jobId, agent, scraped) else [])
                && r == (if err.None? then Returned(scraped) else Raised(err.value))
      ensures (1 <= jobId <= |old(db.jobs)| && old(db.jobs[jobId - 1].status) == Pending
               && old(Consistent(db.jobs, db.items))) ==> Consistent(db.jobs, db.items)
    {
      FindJobByPosition(db.jobs, jobId);
      var found := FindJob(db.jobs, jobId);
      if found.None? {
        return Raised(MissingJobError);
      }
      ghost var jobs0, items0 := db.jobs, db.items;
      r := RunFound(db, found.value, hasCallback, agent, scraped, now);
      if jobs0[jobId - 1].status == Pending && Consistent(jobs0, items0) {
        RunEndsConsistent(jobs0, items0, db.jobs, db.items, jobId - 1, agent, scraped, now);
      }
    }

    /** `scrape_with_progress` once the job row `job0` has been found. */
    method RunFound(db: Store, job0: ScrapingJob, hasCallback: bool, agent: AgentRun,
                    scraped: seq<SampleItem>, now: Timestamp)
      returns (r: RunResult)
      requires db.Valid() && 1 <= job0.id <= |db.jobs| && db.jobs[job0.id - 1] == job0
      modifies this, db
      ensures db.Valid()
      ensures db.jobs == old(db.jobs)[job0.id - 1 := FinishedJob(job0, agent, scraped, now)]
      ensures RunError(agent, scraped).None? ==>
                db.items == old(db.items) + StoredItems(|old(db.items)| + 1, job0.id, scraped)
                && r == Returned(scraped)
      ensures RunError(agent, scraped).Some? ==>
                db.items == old(db.items) && r == Raised(RunError(agent, scraped).value)
      ensures trace == old(trace) + (if hasCallback then RunEvents(job0.id, agent, scraped) else [])
    {
      var job := job0.(status := Running);
      db.SaveJob(job);
      Notify(hasCallback, ProgressEvent(job0.id, Running, 10, "Starting web scraping..."));
      if agent.RaisedOnCreate? {
        r := RecordFailure(db, job, agent.error, hasCallback, now);
      } else {
        r := RunAgent(db, job, hasCallback, agent, scraped, now);
      }
    }

    /** From `agent.run()` on, for an agent that was created: the callback
        calls after the first one. */
    method RunAgent(db: Store, job: ScrapingJob, hasCallback: bool, agent: AgentRun,
                    scraped: seq<SampleItem>, now: Timestamp)
      returns (r: RunResult)
      requires db.Valid() && 1 <= job.id <= |db.jobs| && !agent.RaisedOnCreate?
      modifies this, db
      ensures db.Valid()
      ensures db.jobs == old(db.jobs)[job.id - 1 := FinishedJob(job, agent, scraped, now)]
      ensures RunError(agent, scraped).None? ==>
                db.items == old(db.items) + StoredItems(|old(db.items)| + 1, job.id, scraped)
                && r == Returned(scraped)
      ensures RunError(agent, scraped).Some? ==>
                db.items == old(db.items) && r == Raised(RunError(agent, scraped).value)
      ensures trace == old(trace) + (if hasCallback then RunEvents(job.id, agent, scraped)[1..] else [])
    {
      Notify(hasCallback, ProgressEvent(job.id, Running, 30, "AI agent is searching and extracting data..."));
      if agent.RaisedOnRun? {
        r := RecordFailure(db, job, agent.error, hasCallback, now);
        return;
      }
      Notify(hasCallback, ProgressEvent(job.id, Running, 70, "Processing extracted data..."));
      if |scraped| > 0 {
        r := Succeed(db, job, scraped, hasCallback, now);
      } else {
        r := RecordFailure(db, job, NoDataError, hasCallback, now);
      }
    }

    /** The success path: store the items, complete the job, report 100. */
    method Succeed(db: Store, job: ScrapingJob, scraped: seq<SampleItem>, hasCallback: bool, now: Timestamp)
      returns (r: RunResult)
      requires db.Valid() && 1 <= job.id <= |db.jobs|
      modifies this, db
      ensures db.Valid()
      ensures db.jobs == old(db.jobs)[job.id - 1 := job.(status := Completed, completedAt := Some(now), resultsCount := |scraped|)]
      ensures db.items == old(db.items) + StoredItems(|old(db.items)| + 1, job.id, scraped)
      ensures trace == old(trace) + (if hasCallback then [ProgressEvent(job.id, Completed, 100,
                                       "Successfully extracted " + NatToString(|scraped|) + " items!")] else [])
      ensures r == Returned(scraped)
    {
      SaveItems(db, job.id, scraped);
      db.SaveJob(job.(status := Completed, completedAt := Some(now), resultsCount := |scraped|));
      Notify(hasCallback, ProgressEvent(job.id, Completed, 100,
                                        "Successfully extracted " + NatToString(|scraped|) + " items!"));
      r := Returned(scraped);
    }

    /** The `for item_data in scraped_items: db.add(...)` loop and the commit
        that numbers the new rows. */
    method SaveItems(db: Store, jobId: nat, scraped: seq<SampleItem>)
      requires db.Valid() && 1 <= jobId <= |db.jobs|
      modifies db
      ensures db.Valid()
      ensures db.jobs == old(db.jobs)
      ensures db.items == old(db.items) + StoredItems(|old(db.items)| + 1, jobId, scraped)
    {
      ghost var items0 := db.items;
      var i := 0;
      while i < |scraped|
        invariant 0 <= i <= |scraped|
        invariant db.Valid() && db.jobs == old(db.jobs)
        invariant db.items == items0 + StoredItems(|items0| + 1, jobId, scraped[..i])
      {
        var _ := db.InsertItem(ItemRow(jobId, scraped[i]));
        assert StoredItems(|items0| + 1, jobId, scraped[..i + 1])
               == StoredItems(|items0| + 1, jobId, scraped[..i]) + [ItemRow(jobId, scraped[i]).(id := |items0| + 1 + i)];
        i := i + 1;
      }
      assert scraped[..i] == scraped;
    }
  }
}
