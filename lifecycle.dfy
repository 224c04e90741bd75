/** The pieces put together: a job created by the gateway and then run by
    the executor (the task `start_scraping` schedules runs after its response,
    with nothing interleaved), and the submit page following the progress
    events of that run. */
module Lifecycle {
  import opened Common
  import opened Database
  import opened Scraper
  import opened Api
  import opened ScrapingFormPage

  /** What the page receives for a progress callback call, with the
      broadcast's timestamp. */
  function PayloadOf(ev: ProgressEvent, stamp: Timestamp): ProgressPayload
  {
    ProgressPayload(ev.jobId, ev.status.Name(), ev.progress, ev.message, stamp)
  }

  function Payloads(evs: seq<ProgressEvent>, stamps: seq<Timestamp>): (ps: seq<ProgressPayload>)
    requires |stamps| == |evs|
    ensures |ps| == |evs|
  {
    seq(|evs|, i requires 0 <= i < |evs| => PayloadOf(evs[i], stamps[i]))
  }

  /** Handling `a` then `b` is handling `a + b`. */
  lemma {:induction false} EventsConcat(s: FormState, a: seq<ProgressPayload>, b: seq<ProgressPayload>)
    ensures EventsReceived(s, a + b) == EventsReceived(EventsReceived(s, a), b)
    decreases |a|
  {
    if a != [] {
      assert (a + b)[0] == a[0];
      assert (a + b)[1..] == a[1..] + b;
      EventsConcat(EventReceived(s, a[0]), a[1..], b);
    } else {
      assert a + b == b;
    }
  }

  /** Non-terminal payloads of the current job only move the progress bar:
      the last one's progress and message are shown, nothing else changes. */
  lemma {:induction false} RunningPayloads(s: FormState, ps: seq<ProgressPayload>)
    requires JobIdTruthy(s.currentJobId) && ps != []
    requires forall i :: 0 <= i < |ps| ==> ps[i].jobId == s.currentJobId.value && ps[i].status == "running"
    ensures EventsReceived(s, ps) == s.(progress := Last(ps).progress, progressMessage := Last(ps).message)
    decreases |ps|
  {
    var t := EventReceived(s, ps[0]);
    if |ps| > 1 {
      RunningPayloads(t, ps[1..]);
    }
  }

  /** A page waiting on job `id` that receives the last events of that job's
      run (from any point on, since the socket may open after the first ones)
      ends with `loading` off: on success it has navigated to `/job/{id}` and
      shows 100 and the item count; on failure it shows `Error: ...` with the
      progress bar back at 0. */
  lemma ClientFollowsRun(s: FormState, id: nat, agent: AgentRun, scraped: seq<SampleItem>,
                         stamps: seq<Timestamp>, k: nat)
    requires s.currentJobId == Some(id) && id != 0
    requires |stamps| == |RunEvents(id, agent, scraped)| && k < |stamps|
    ensures var evs := RunEvents(id, agent, scraped);
            var end := EventsReceived(s, Payloads(evs, stamps)[k..]);
            && !end.loading
            && end.currentJobId == s.currentJobId && end.query == s.query && end.maxResults == s.maxResults
            && (RunError(agent, scraped).None? ==>
                  && end.navigatedTo == Some("/job/" + NatToString(id))
                  && end.progress == 100
                  && end.progressMessage == "Successfully extracted " + NatToString(|scraped|) + " items!"
                  && end.error == s.error)
            && (RunError(agent, scraped).Some? ==>
                  && end.error == "Error: " + RunError(agent, scraped).value
                  && end.progress == 0
                  && end.navigatedTo == s.navigatedTo)
  {
    var evs := RunEvents(id, agent, scraped);
    var all := Payloads(evs, stamps);
    RunPayloadsShape(id, agent, scraped, stamps);
    var ps := all[k..];
    forall i | 0 <= i < |ps| - 1 ensures ps[i].jobId == id && ps[i].status == "running" {
      assert ps[i] == all[k + i];
    }
    assert Last(ps) == Last(all);
    LastPayloadDecides(s, ps);
    var mid := if |ps| > 1 then s.(progress := ps[|ps| - 2].progress, progressMessage := ps[|ps| - 2].message) else s;
    TerminalPayload(mid, id, agent, scraped, stamps[|evs| - 1]);
  }

  /** A stream of `running` payloads for the current job followed by one more:
      the page ends as the last payload leaves the state the others produced. */
  lemma LastPayloadDecides(s: FormState, ps: seq<ProgressPayload>)
    requires JobIdTruthy(s.currentJobId) && ps != []
    requires forall i :: 0 <= i < |ps| - 1 ==> ps[i].jobId == s.currentJobId.value && ps[i].status == "running"
    ensures EventsReceived(s, ps)
            == EventReceived(if |ps| > 1 then s.(progress := ps[|ps| - 2].progress, progressMessage := ps[|ps| - 2].message)
                             else s,
                             Last(ps))
  {
    var n := |ps|;
    if n > 1 {
      var front := ps[..n - 1];
      RunningPayloads(s, front);
      EventsConcat(s, front, [ps[n - 1]]);
      assert ps == front + [ps[n - 1]];
    }
  }

  /** The payloads of one run: all but the last are `running` ones for its job,
      and the last carries the run's terminal event. */
  lemma RunPayloadsShape(id: nat, agent: AgentRun, scraped: seq<SampleItem>, stamps: seq<Timestamp>)
    requires |stamps| == |RunEvents(id, agent, scraped)|
    ensures var evs := RunEvents(id, agent, scraped);
            var ps := Payloads(evs, stamps);
            && (forall i :: 0 <= i < |ps| - 1 ==> ps[i].jobId == id && ps[i].status == "running")
            && Last(ps) == PayloadOf(Last(evs), stamps[|evs| - 1])
  {
    var evs := RunEvents(id, agent, scraped);
    var ps := Payloads(evs, stamps);
    forall i | 0 <= i < |ps| - 1 ensures ps[i].jobId == id && ps[i].status == "running" {
      assert ps[i] == PayloadOf(evs[i], stamps[i]);
      assert evs[i].status == Running;
    }
  }

  /** A page whose socket misses the run's last payload (it opened after the
      whole run was broadcast, or the broadcast skipped it) is still waiting:
      the payloads it did receive, `all[j..k]` with `k` short of the end, only
      move the progress bar, and `loading`, the error and the navigation stay
      as they were. */
  lemma ClientMissesTerminal(s: FormState, id: nat, agent: AgentRun, scraped: seq<SampleItem>,
                             stamps: seq<Timestamp>, j: nat, k: nat)
    requires s.currentJobId == Some(id) && id != 0
    requires |stamps| == |RunEvents(id, agent, scraped)| && j <= k < |stamps|
    ensures var all := Payloads(RunEvents(id, agent, scraped), stamps);
            var end := EventsReceived(s, all[j..k]);
            && end.loading == s.loading && end.error == s.error && end.navigatedTo == s.navigatedTo
            && end.currentJobId == s.currentJobId && end.query == s.query && end.maxResults == s.maxResults
            && (j == k ==> end == s)
            && (j < k ==> end.progress == all[k - 1].progress && end.progressMessage == all[k - 1].message)
  {
    var all := Payloads(RunEvents(id, agent, scraped), stamps);
    RunPayloadsShape(id, agent, scraped, stamps);
    var ps := all[j..k];
    if j < k {
      forall i | 0 <= i < |ps| ensures ps[i].jobId == id && ps[i].status == "running" {
        assert ps[i] == all[j + i];
      }
      RunningPayloads(s, ps);
    }
  }

  /** The terminal payload of a run, received by a page waiting on its job. */
  lemma TerminalPayload(mid: FormState, id: nat, agent: AgentRun, scraped: seq<SampleItem>, stamp: Timestamp)
    requires mid.currentJobId == Some(id) && id != 0
    ensures var end := EventReceived(mid, PayloadOf(Last(RunEvents(id, agent, scraped)), stamp));
            && !end.loading
            && end.currentJobId == mid.currentJobId && end.query == mid.query && end.maxResults == mid.maxResults
            && (RunError(agent, scraped).None? ==>
                  && end.navigatedTo == Some("/job/" + NatToString(id))
                  && end.progress == 100
                  && end.progressMessage == "Successfully extracted " + NatToString(|scraped|) + " items!"
                  && end.error == mid.error)
            && (RunError(agent, scraped).Some? ==>
                  && end.error == "Error: " + RunError(agent, scraped).value
                  && end.progress == 0
                  && end.navigatedTo == mid.navigatedTo)
  {
  }

  /** `start_scraping` followed by its background run. The new job ends
      completed with one stored item per sample item, or failed with the run's
      error and no items; reading it back reports the same; and a consistent
      store stays consistent. */
  method StartThenRun(db: Store, scraper: EnhancedAIWebScraper, request: ScrapingRequest,
                      created: Timestamp, agent: AgentRun, rnd: Randomness, finished: Timestamp)
    returns (resp: JobResponse, r: RunResult)
    requires db.Valid()
    modifies db, scraper
    ensures db.Valid()
    ensures resp.id == |old(db.jobs)| + 1 && resp.status == "pending"
    ensures var scraped := CreateSampleData(request.query, RequestMaxResults(request), rnd);
            && scraper.trace == old(scraper.trace) + RunEvents(resp.id, agent, scraped)
            && (RunError(agent, scraped).None? <==> r == Returned(scraped))
    ensures old(Consistent(db.jobs, db.items)) ==>
              && Consistent(db.jobs, db.items)
              && ReadsBackFinished(db.jobs, db.items, resp.id, agent,
                                   CreateSampleData(request.query, RequestMaxResults(request), rnd))
  {
    resp := StartScraping(db, request, created);
    r := RunScheduled(db, scraper, resp.id, request.query, RequestMaxResults(request), agent, rnd, finished);
  }

  /** The task `start_scraping` scheduled for the pending job `id`, with the
      progress callback passed. */
  method RunScheduled(db: Store, scraper: EnhancedAIWebScraper, id: nat, query: string, maxResults: int,
                      agent: AgentRun, rnd: Randomness, finished: Timestamp)
    returns (r: RunResult)
    requires db.Valid() && 1 <= id <= |db.jobs| && db.jobs[id - 1].status == Pending
    modifies db, scraper
    ensures db.Valid()
    ensures var scraped := CreateSampleData(query, maxResults, rnd);
            && scraper.trace == old(scraper.trace) + RunEvents(id, agent, scraped)
            && (RunError(agent, scraped).None? <==> r == Returned(scraped))
    ensures old(Consistent(db.jobs, db.items)) ==>
              && Consistent(db.jobs, db.items)
              && ReadsBackFinished(db.jobs, db.items, id, agent, CreateSampleData(query, maxResults, rnd))
  {
    ghost var job0 := db.jobs[id - 1];
    r := scraper.ScrapeWithProgress(db, id, query, maxResults, true, agent, rnd, finished);
    if old(Consistent(db.jobs, db.items)) {
      FinishedJobReadBack(db.jobs, db.items, id, job0, agent, CreateSampleData(query, maxResults, rnd), finished);
    }
  }

  /** `GET /api/scraping/jobs/{id}` reports the outcome of a run: completed
      with `results_count` and the item list both the number of sample items,
      or failed with the run's error and no items. */
  ghost predicate ReadsBackFinished(jobs: seq<ScrapingJob>, items: seq<ScrapedItem>, id: nat,
                                    agent: AgentRun, scraped: seq<SampleItem>)
  {
    var details := GetJobDetails(jobs, items, id);
    && details.Ok?
    && (RunError(agent, scraped).None? ==>
          details.value.status == "completed" && details.value.resultsCount == |scraped|
          && |details.value.scrapedItems| == |scraped|)
    && (RunError(agent, scraped).Some? ==>
          details.value.status == "failed" && details.value.errorMessage == RunError(agent, scraped)
          && details.value.scrapedItems == [])
  }

  /** Reading back a job the executor has finished reports its outcome. */
  lemma FinishedJobReadBack(jobs: seq<ScrapingJob>, items: seq<ScrapedItem>, id: nat, job0: ScrapingJob,
                            agent: AgentRun, scraped: seq<SampleItem>, now: Timestamp)
    requires JobIdsArePositions(jobs) && Consistent(jobs, items) && 1 <= id <= |jobs|
    requires jobs[id - 1] == FinishedJob(job0, agent, scraped, now)
    ensures ReadsBackFinished(jobs, items, id, agent, scraped)
  {
    DetailsAgreeWithCount(jobs, items, id);
    GetJobDetailsOnStore(jobs, items, id);
  }
}
