/** The job page of the frontend: the status colour, the name a download
    is saved under, and the conditions that decide what the page shows. */
module JobDetailsPage {
  import opened Common
  import opened Database
  import opened Api

  /** `getStatusColor`. */
  function StatusColor(status: string): (color: string)
    ensures color == "success" <==> status == "completed"
    ensures color == "warning" <==> status == "running"
    ensures color == "error" <==> status == "failed"
    ensures color == "default" <==> status !in {"completed", "running", "failed"}
  {
    if status == "completed" then "success"
    else if status == "running" then "warning"
    else if status == "failed" then "error"
    else "default"
  }

  /** Of the four statuses the backend stores, only `pending` falls to the default colour. */
  lemma StatusColorOfStatus(st: Status)
    ensures StatusColor(st.Name()) == match st
                                      case Pending => "default"
                                      case Running => "warning"
                                      case Completed => "success"
                                      case Failed => "error"
  {
  }

  // ------------------------------------------------------------------
  // Download names
  // ------------------------------------------------------------------

  /** `s.replace(/\s+/g, '_')`: each maximal run of white space becomes one `_`. */
  function CollapseWhitespace(s: string): (r: string)
    ensures forall i :: 0 <= i < |r| ==> !IsJsWhitespace(r[i])
    ensures |r| <= |s|
    decreases |s|
  {
    if s == [] then []
    else if IsJsWhitespace(s[0]) then
      var k := LeadingWhitespace(s);
      assert k > 0;
      "_" + CollapseWhitespace(s[k..])
    else
      [s[0]] + CollapseWhitespace(s[1..])
  }

  /** Text without white space is left as it is. */
  lemma {:induction false} CollapseWithoutWhitespace(s: string)
    requires forall i :: 0 <= i < |s| ==> !IsJsWhitespace(s[i])
    ensures CollapseWhitespace(s) == s
  {
    if s != [] {
      CollapseWithoutWhitespace(s[1..]);
    }
  }

  /** Sanitising twice is sanitising once. */
  lemma CollapseIdempotent(s: string)
    ensures CollapseWhitespace(CollapseWhitespace(s)) == CollapseWhitespace(s)
  {
    CollapseWithoutWhitespace(CollapseWhitespace(s));
  }

  /** The only white space is the plain space, and no two spaces are adjacent. */
  predicate SingleSpacesOnly(s: string)
  {
    && (forall i :: 0 <= i < |s| && IsJsWhitespace(s[i]) ==> s[i] == ' ')
    && (forall i :: 0 <= i < |s| - 1 ==> !(s[i] == ' ' && s[i + 1] == ' '))
  }

  /** On such text the page's run-collapsing and the server's per-space
      replacement give the same result. */
  lemma {:induction false} CollapseAgreesWithServer(s: string)
    requires SingleSpacesOnly(s)
    ensures CollapseWhitespace(s) == ReplaceChar(s, ' ', '_')
  {
    if s != [] {
      assert SingleSpacesOnly(s[1..]);
      if IsJsWhitespace(s[0]) {
        assert LeadingWhitespace(s) == 1 by {
          if |s| > 1 {
            assert !IsJsWhitespace(s[1]);
            assert LeadingWhitespace(s[1..]) == 0;
          }
        }
      }
      CollapseAgreesWithServer(s[1..]);
    }
  }

  /** The name the page saves an export under: `scraping_job_${jobId}_${query.replace(/\s+/g, '_')}`
      plus the extension, where `jobId` is the route parameter's text. */
  function DownloadFilename(routeJobId: string, query: string, format: ExportFormat): (name: string)
    ensures forall i :: 0 <= i < |name| && IsJsWhitespace(name[i]) ==> name[i] in routeJobId
  {
    var q := CollapseWhitespace(query);
    var name := "scraping_job_" + routeJobId + "_" + q + format.Extension();
    assert forall i :: |"scraping_job_" + routeJobId + "_"| <= i < |"scraping_job_" + routeJobId + "_" + q| ==>
             name[i] == q[i - |"scraping_job_" + routeJobId + "_"|];
    name
  }

  /** For the route `/job/{id}` and a query with single spaces only, the page
      saves under the name the server puts in its header. */
  lemma DownloadFilenameMatchesServer(id: nat, query: string, format: ExportFormat)
    requires SingleSpacesOnly(query)
    ensures DownloadFilename(NatToString(id), query, format) == ExportFilename(id, query, format)
  {
    CollapseAgreesWithServer(query);
  }

  /** Dropping the first character shortens the collapsed text by at most one. */
  lemma CollapseStep(s: string)
    requires s != []
    ensures |CollapseWhitespace(s)| <= 1 + |CollapseWhitespace(s[1..])|
  {
    if IsJsWhitespace(s[0]) && |s| > 1 && IsJsWhitespace(s[1]) {
      var k := LeadingWhitespace(s);
      assert k == 1 + LeadingWhitespace(s[1..]);
      assert s[1..][k - 1..] == s[k..];
    }
  }

  /** Text starting with two white-space characters collapses to something shorter. */
  lemma CollapsePairAtHead(s: string)
    requires |s| >= 2 && IsJsWhitespace(s[0]) && IsJsWhitespace(s[1])
    ensures |CollapseWhitespace(s)| < |s|
  {
    assert LeadingWhitespace(s) == 1 + LeadingWhitespace(s[1..]);
    assert LeadingWhitespace(s[1..]) >= 1;
  }

  /** Two adjacent white-space characters collapse into one `_`, so the text gets shorter. */
  lemma {:induction false} CollapseShortens(s: string, i: nat)
    requires i + 1 < |s| && IsJsWhitespace(s[i]) && IsJsWhitespace(s[i + 1])
    ensures |CollapseWhitespace(s)| < |s|
  {
    if i == 0 {
      CollapsePairAtHead(s);
    } else {
      CollapseStep(s);
      assert s[1..][i - 1] == s[i] && s[1..][i] == s[i + 1];
      CollapseShortens(s[1..], i - 1);
    }
  }

  /** The converse of `DownloadFilenameMatchesServer`: whenever the query has
      white space other than single spaces, the page's name differs from the
      server's. A tab or other white space survives in the server's name, and
      a run of two shortens the page's. */
  lemma DownloadDiffersUnlessSingleSpaces(id: nat, query: string, format: ExportFormat)
    requires !SingleSpacesOnly(query)
    ensures DownloadFilename(NatToString(id), query, format) != ExportFilename(id, query, format)
  {
    var page := DownloadFilename(NatToString(id), query, format);
    var server := ExportFilename(id, query, format);
    var prefix := "scraping_job_" + NatToString(id) + "_";
    if i :| 0 <= i < |query| && IsJsWhitespace(query[i]) && query[i] != ' ' {
      var r := ReplaceChar(query, ' ', '_');
      assert server == prefix + r + format.Extension();
      assert server[|prefix| + i] == r[i] == query[i];
      assert IsJsWhitespace(server[|prefix| + i]);
      assert forall j :: 0 <= j < |page| ==> !IsJsWhitespace(page[j]) by {
        assert AllDigits(NatToString(id));
      }
    } else {
      var i :| 0 <= i < |query| - 1 && query[i] == ' ' && query[i + 1] == ' ';
      CollapseShortens(query, i);
      assert |page| < |server|;
    }
  }

  /** Repeated spaces make the two names differ: the page saves `a_b` where the server says `a__b`. */
  lemma DownloadFilenameDiffersOnDoubleSpace(id: nat, format: ExportFormat)
    ensures CollapseWhitespace("a  b") == "a_b" && ReplaceChar("a  b", ' ', '_') == "a__b"
    ensures DownloadFilename(NatToString(id), "a  b", format) != ExportFilename(id, "a  b", format)
  {
    assert LeadingWhitespace("  b") == 2 by {
      assert LeadingWhitespace(" b") == 1 by { assert LeadingWhitespace("b") == 0; }
    }
    assert "  b"[2..] == "b";
    assert |DownloadFilename(NatToString(id), "a  b", format)| + 1 == |ExportFilename(id, "a  b", format)|;
  }

  // ------------------------------------------------------------------
  // Display conditions
  // ------------------------------------------------------------------

  /** `item.title || `Item ${index + 1}``. */
  function ItemHeading(item: ItemResponse, index: nat): (h: string)
    ensures item.title.Some? && item.title.value != "" ==> h == item.title.value
    ensures item.title.None? || item.title.value == "" ==> h == "Item " + NatToString(index + 1)
  {
    match item.title
    case Some(t) => if t != "" then t else "Item " + NatToString(index + 1)
    case None => "Item " + NatToString(index + 1)
  }

  /** Untitled cards at different positions get different headings. */
  lemma FallbackHeadingsDistinct(a: ItemResponse, i: nat, b: ItemResponse, j: nat)
    requires a.title.None? || a.title.value == ""
    requires b.title.None? || b.title.value == ""
    requires i != j
    ensures ItemHeading(a, i) != ItemHeading(b, j)
  {
    if ItemHeading(a, i) == ItemHeading(b, j) {
      assert "Item " + NatToString(i + 1) == "Item " + NatToString(j + 1);
      assert NatToString(i + 1) == ("Item " + NatToString(i + 1))[5..];
      assert NatToString(j + 1) == ("Item " + NatToString(j + 1))[5..];
      NatToStringInjective(i + 1, j + 1);
    }
  }

  /** `job.scraped_items && job.scraped_items.length > 0`: the export buttons and the result grid. */
  predicate ShowsResults(job: JobResponse)
  {
    |job.scrapedItems| > 0
  }

  /** `job.status === 'completed' && (!job.scraped_items || job.scraped_items.length === 0)`. */
  predicate ShowsNoResultsNotice(job: JobResponse)
  {
    job.status == "completed" && |job.scrapedItems| == 0
  }

  /** `job.error_message && ...`: an empty message shows no alert. */
  predicate ShowsErrorAlert(job: JobResponse)
  {
    job.errorMessage.Some? && job.errorMessage.value != ""
  }

  /** `job.completed_at && ...`. */
  predicate ShowsCompletedAt(job: JobResponse)
  {
    job.completedAt.Some?
  }

  /** For a job read from a consistent store the notice "no results" never
      shows, a completed job always shows its results, the completion time
      shows exactly for finished jobs, and an error alert only for a failed
      job whose message is not empty. */
  lemma DisplayOnConsistentStore(jobs: seq<ScrapingJob>, items: seq<ScrapedItem>, jobId: int)
    requires JobIdsArePositions(jobs) && Consistent(jobs, items) && 1 <= jobId <= |jobs|
    ensures GetJobDetails(jobs, items, jobId).Ok?
    ensures var job := GetJobDetails(jobs, items, jobId).value;
            && !ShowsNoResultsNotice(job)
            && (job.status == "completed" ==> ShowsResults(job))
            && (ShowsResults(job) ==> job.status == "completed")
            && (ShowsCompletedAt(job) <==> job.status in {"completed", "failed"})
            && (ShowsErrorAlert(job) <==> job.status == "failed" && job.errorMessage.value != "")
  {
    DetailsAgreeWithCount(jobs, items, jobId);
    FindJobByPosition(jobs, jobId);
    assert JobConsistent(jobs[jobId - 1], items);
  }

  /** What the page renders from its `loading`, `error` and `job` state. */
  datatype PageView = Spinner | FetchError(message: string) | NotFoundNotice | Details(job: JobResponse)

  function Render(loading: bool, error: string, job: Option<JobResponse>): (v: PageView)
    ensures v.Details? ==> !loading && error == "" && job == Some(v.job)
    ensures v == NotFoundNotice <==> !loading && error == "" && job.None?
  {
    if loading then Spinner
    else if error != "" then FetchError(error)
    else match job
      case None => NotFoundNotice
      case Some(j) => Details(j)
  }

  /** `fetchJobDetails`: the response becomes `job`, any failure the error
      text, and `loading` ends either way. */
  function PageAfterFetch(r: Result<JobResponse, HttpError>): PageView
  {
    Render(false, if r.Err? then "Failed to fetch job details" else "",
           if r.Ok? then Some(r.value) else None)
  }

  /** `handleExportCSV` / `handleExportExcel` on the details view: a failed
      request sets the format's error text, which then replaces the details;
      a successful one leaves the page as it was. */
  function PageAfterExport(job: JobResponse, r: Result<Export, HttpError>, format: ExportFormat): (v: PageView)
    ensures r.Ok? <==> v == Details(job)
    ensures r.Err? ==> v == FetchError(if format == Csv then "Failed to export CSV" else "Failed to export Excel")
  {
    var error := if r.Ok? then "" else match format
      case Csv => "Failed to export CSV"
      case Excel => "Failed to export Excel";
    Render(false, error, Some(job))
  }

  /** An unknown id shows the fetch error, never the "Job not found" notice:
      the notice is unreachable once the fetch has finished. */
  lemma UnknownJobShowsFetchError(jobs: seq<ScrapingJob>, items: seq<ScrapedItem>, jobId: int)
    ensures PageAfterFetch(GetJobDetails(jobs, items, jobId)) != NotFoundNotice
    ensures FindJob(jobs, jobId).None? ==>
              PageAfterFetch(GetJobDetails(jobs, items, jobId)) == FetchError("Failed to fetch job details")
    ensures FindJob(jobs, jobId).Some? ==>
              PageAfterFetch(GetJobDetails(jobs, items, jobId)) == Details(GetJobDetails(jobs, items, jobId).value)
  {
  }
}
