# Scrape-job lifecycle of the AI web scraper, in Dafny

This project models the core of a small web-scraping service. A FastAPI
backend creates scrape jobs, runs them in the background and stores the
results in SQLite. A React frontend submits a query, follows the progress
over a WebSocket, and shows and exports the finished job.

The model covers:

- **the two tables** (`database.dfy`). `scraping_jobs` and `scraped_items` are
  datatypes, with the column defaults and the job-to-items relation. The SQL
  session is a `Store` class whose `jobs` and `items` sequences the gateway
  and the executor write through. Ids are positions: the tables are
  autoincrement and nothing is deleted. `Consistent` is the invariant tying a
  job's status to its other columns and to its items.
- **the executor** (`scraper.dfy`):
  - `create_sample_data` is a choice between the fixed iPhone list and the two
    generic results, cut with Python's slice rules.
  - `scrape_with_progress` is a method of the `EnhancedAIWebScraper` class. It
    moves the job `pending → running → completed | failed`, stores the items,
    and records each progress-callback call in a `trace` field. The agent is an
    oracle (`AgentRun`): it finishes, raises while it is being created, or
    raises while it runs. The run is proved against `RunEvents`, `FinishedJob`
    and `StoredItems`: the callback calls of one run, the final job row, and
    the rows that get stored.
- **the gateway** (`api.dfy`):
  - the `ConnectionManager` broadcast registry. `send_progress` walks the list
    by position and removes a socket whose send raises, so the socket that
    moves into the freed position is skipped in that broadcast (`BroadcastFrom`).
    On a list without repeats, a socket the walk reaches gets the payload if
    its send succeeds and is disconnected if it raises; a socket whose left
    neighbour raised is not reached.
  - `start_scraping`, `get_job_details` (404 for an unknown id) and
    `get_user_jobs` (newest first).
  - the export endpoints, up to the row dictionaries, the empty-export 404 and
    the download file name. Rows are ordered dictionaries, and
    `{..., **additional_data}` is modelled key by key.
- **the submit page** (`scraping_form.dfy`). `ScrapingForm` is a class holding
  the component's React state, plus the open subscription and a mounted flag.
  Each handler is proved against a pure function of the old state
  (`Submitted`, `SubmitSucceeded`, `SubmitFailed`, `EventReceived`).
- **the job page** (`job_details.dfy`): the status colour, the file name the
  page saves a download under, the item heading, and the display conditions.
- **the pieces put together** (`lifecycle.dfy`). A job is created and then run.
  Reading it back reports what the run did. A page waiting on that job whose
  socket receives the run's last payload ends in the state that payload
  dictates; a page that misses it (its socket opened after the run was
  broadcast, or the broadcast skipped it) keeps waiting.

`common.dfy` holds the shared pieces:

- `Option` and `Result`;
- Python's `replace` and `lower`, and JavaScript's `trim` and white space;
- decimal printing with its parser;
- an insertion-ordered string-keyed dictionary for JSON objects.

Where the code and its description differ, the model follows the code:

- `disconnect` inside the broadcast loop skips the next socket;
- an unknown job id makes `scrape_with_progress` raise before its `try`
  block, leaving the store untouched and making no callback;
- the job page's "Job not found" notice cannot be reached, because a failed
  fetch sets the error text.

## Model

| member | source | states |
|---|---|---|
| Common.ReplaceChar | backend/app/main.py:211 | `s.replace(x, y)` for single characters: same length, and each position holds `y` exactly where `s` held `x`, otherwise the original character |
| Common.Lower | backend/app/scraper.py:124 | `query.lower()`: same length, and each character is lower-cased on its own |
| Common.Occurs | backend/app/scraper.py:124 | the `in` scan returns true exactly when the pattern occurs at some position of the text |
| Common.Trim | frontend/src/pages/ScrapingForm.js:163 | `query.trim()` is empty exactly when the query is all white space; otherwise it neither starts nor ends with white space |
| Common.NatToString | backend/app/main.py:211 | `str(job_id)` is a non-empty string of decimal digits with no leading zero |
| Common.ParseNatToString | backend/app/main.py:211 | reading the decimal text of an id back gives the id (the two halves of a round trip) |
| Common.NatToStringInjective | frontend/src/pages/JobDetails.js:227 | different numbers print differently |
| Common.SpreadLookup | backend/app/main.py:187-195 | in `{**d, **e}` a key of `e` reads `e`'s value and every other key reads `d`'s |
| Common.SpreadKeys | backend/app/main.py:187-195 | the keys of `{**d, **e}` are `d`'s keys in place, followed by `e`'s new keys in `e`'s order |
| Common.SpreadIsDict | backend/app/main.py:187-195 | spreading into a dictionary gives a dictionary: no key appears twice |
| Database.ParseStatus | backend/app/database.py:18 | only the four status texts parse, and a parsed status prints back as the same text |
| Database.StatusNameRoundTrip | backend/app/database.py:18 | every status survives being written to the column and read back |
| Database.NewJob | backend/app/database.py:13-26 | a new row has the given id, query and creation time, status `pending`, `max_results` defaulting to 15, `results_count` 0, and no `completed_at`, error or file |
| Database.FindJob | backend/app/main.py:139 | `filter(id == job_id).first()` returns a row of the table with that id, or nothing when no row has it |
| Database.FindJobByPosition | backend/app/database.py:16 | on a table whose ids are the row positions, the lookup finds row `id` exactly when `1 <= id <= n` |
| Database.JobItems | backend/app/database.py:26-41 | `job.scraped_items` holds exactly the items whose `job_id` is the job's id |
| Database.JobItemsAppend | backend/app/database.py:26-41 | the relation over two appended tables is the relation over each, in order |
| Database.ErrorMessageIffFailed | backend/app/scraper.py:87-109 | on a consistent store, a job has an error message exactly when it failed, and a completion time exactly when it is terminal |
| Database.Store.constructor | backend/app/database.py:51 | the tables start empty and well formed |
| Database.Store.InsertJob | backend/app/main.py:67-73 | the new row is `NewJob` with the next id, appended at the end; items unchanged |
| Database.Store.InsertItem | backend/app/scraper.py:74-84 | the item is appended with the next id; jobs unchanged |
| Database.Store.SaveJob | backend/app/scraper.py:32-33 | the committed row replaces the row with its id; nothing else changes |
| Scraper.IphoneItems | backend/app/scraper.py:124-171 | the iPhone list has five entries, each stamped by its own `datetime.now()` read, in list order |
| Scraper.GenericItems | backend/app/scraper.py:172-193 | the generic list has two entries, stamped by the first and the second clock read |
| Scraper.CreateSampleData | backend/app/scraper.py:118-196 | reference definition of `create_sample_data`: the base list chosen by `"iphone" in query.lower()`, sliced by `[:max_results]`; `SampleDataShape`, `GenericUrls` and `SampleDataEmpty` state its properties |
| Scraper.SliceTo | backend/app/scraper.py:196 | `s[:stop]` is a prefix of `s`, of length `min(stop, len)` for a non-negative stop and `max(len + stop, 0)` for a negative one |
| Scraper.SampleDataShape | backend/app/scraper.py:118-196 | the result is a prefix of the 5-item iPhone list when `"iphone"` occurs in the lower-cased query, and of the 2-item generic list otherwise, with Python's slice length |
| Scraper.GenericUrls | backend/app/scraper.py:176-187 | generic result `N` has the title `Search Result N for <query>` and the URL `https://exampleN.com/` followed by the query with spaces turned into dashes |
| Scraper.SampleDataEmpty | backend/app/scraper.py:196 | the sample list is empty exactly when `max_results` is 0 or cuts off the whole list from the end |
| Scraper.RunError | backend/app/scraper.py:53-102 | a run fails exactly when the agent raises or the sample list is empty, and the error is the agent's message or "No data could be extracted from the search results." |
| Scraper.RunEvents | backend/app/scraper.py:35-112 | a run makes 2 to 4 callback calls for its job. The first is `(running, 10)` and every one but the last is `running`. The last is the only terminal one: `(completed, 100, "Successfully extracted N items!")` exactly when the run succeeds, otherwise `(failed, 0, "Error: <e>")`. Progress rises strictly up to a completion |
| Scraper.StoredItems | backend/app/scraper.py:73-84 | reference definition of the rows the `db.add` loop stores: one per sample item, in order, attached to the job, with consecutive ids; `SaveItems` is proved against it |
| Scraper.FinishedJob | backend/app/scraper.py:87-109 | reference definition of the row a run leaves: completed with `results_count = len(scraped_items)` and a completion time, or failed with the error and a completion time and the count untouched; `FinishedJobConsistent` and `ScrapeWithProgress` are stated against it |
| Scraper.RunKeepsConsistent | backend/app/scraper.py:73-109 | running a pending job of a consistent store keeps it consistent. On success the job is completed and its items are exactly the stored rows; on failure it is failed with the run's error |
| Scraper.FinishedJobConsistent | backend/app/scraper.py:87-109 | the finished row agrees with its items: `results_count` is the number stored on success, and on failure there are none and `results_count` is left as it was |
| Scraper.OtherJobUnaffected | backend/app/scraper.py:73-84 | items stored for one job leave every other job's item list exactly as it was, so that job stays consistent |
| Scraper.EnhancedAIWebScraper.constructor | backend/app/scraper.py:18-24 | a new scraper has made no callback calls |
| Scraper.EnhancedAIWebScraper.Notify | backend/app/scraper.py:35-36 | the event is recorded exactly when a callback was passed |
| Scraper.EnhancedAIWebScraper.RecordFailure | backend/app/scraper.py:104-114 | the `except` block marks the row failed with `str(e)` and a completion time, leaves items and `results_count` untouched, reports `(failed, 0, "Error: e")` and re-raises `e` |
| Scraper.EnhancedAIWebScraper.ScrapeWithProgress | backend/app/scraper.py:26-116 | for an unknown id it raises without changes. Otherwise the job row becomes `FinishedJob`, the items grow by `StoredItems` exactly on success, the callback calls are `RunEvents`, and the call returns the sample list or raises the run's error. A consistent store stays consistent |
| Scraper.EnhancedAIWebScraper.Execute | backend/app/scraper.py:26-116 | the same, for any list `create_sample_data` may return |
| Scraper.EnhancedAIWebScraper.RunFound | backend/app/scraper.py:31-60 | once the row is found: the row is marked running, the question is whether the agent could be created, and the row, items, calls and result are as for the whole run |
| Scraper.EnhancedAIWebScraper.RunAgent | backend/app/scraper.py:55-114 | from `agent.run()` on: the row, items and result of the whole run, and the callback calls after the first one |
| Scraper.EnhancedAIWebScraper.Succeed | backend/app/scraper.py:73-100 | the success path stores one row per sample item, completes the job with `results_count = len(scraped_items)`, reports `(completed, 100, ...)` and returns the list |
| Scraper.EnhancedAIWebScraper.SaveItems | backend/app/scraper.py:73-90 | the `db.add` loop appends exactly `StoredItems`: one row per sample item, in order, each attached to the job, with consecutive ids; jobs unchanged |
| Api.RemoveFirst | backend/app/main.py:37-39 | `list.remove(c)` under `if c in list`: the first occurrence goes, the rest keep their order, and an absent socket leaves the list unchanged |
| Api.BroadcastFrom | backend/app/main.py:51-55 | reference definition of the broadcast loop: a walk by position that removes a socket whose send raises, so the socket moving into its place is not visited; `SendProgress` is proved against it and the `Broadcast...` lemmas state its properties |
| Api.BroadcastAllHealthy | backend/app/main.py:51-55 | when no send raises, every connection receives the payload in list order and the list is unchanged |
| Api.BroadcastKeepsHealthy | backend/app/main.py:51-55 | a broadcast removes only failing sockets: a healthy socket keeps all its occurrences, and the list only shrinks |
| Api.BroadcastDeliversToHealthy | backend/app/main.py:51-55 | the payload reaches only sockets that were connected and whose send did not raise |
| Api.BroadcastShrinks | backend/app/main.py:51-55 | a broadcast never adds a connection, whichever sends fail |
| Api.RemoveDistinct | backend/app/main.py:37-39 | on a list without repeats, removing the socket at a position closes exactly that gap and leaves no repeats |
| Api.BroadcastReachesHealthy | backend/app/main.py:51-55 | on a list without repeats, a healthy socket receives the payload whenever the loop reaches it: it is where the walk starts or its left neighbour's send did not raise |
| Api.BroadcastRemovesFailing | backend/app/main.py:51-55 | on a list without repeats, a failing socket the loop reaches (under the same condition) is no longer connected afterwards |
| Api.BroadcastSkipsNextAfterFailure | backend/app/main.py:51-55 | removing a failing socket inside the `for` loop skips its healthy neighbour: with `[a, b]` and `a` failing, `a` is removed and `b` receives nothing |
| Api.ConnectionManager.constructor | backend/app/main.py:30-31 | no connection at the start |
| Api.ConnectionManager.Connect | backend/app/main.py:33-35 | the socket goes at the end of the list |
| Api.ConnectionManager.Disconnect | backend/app/main.py:37-39 | the list loses the socket's first occurrence if it has one, and is otherwise unchanged |
| Api.ConnectionManager.SendProgress | backend/app/main.py:41-55 | one payload `{job_id, status, progress, message, timestamp}`; the list left behind and the sockets reached are those of the positional walk `BroadcastFrom` |
| Api.ItemResponseOf | backend/app/main.py:144-154 | reference definition of one `ScrapedItemResponse`: every column copied, `additional_data` parsed, `{}` when empty or NULL; `StoredItemReadsBack` states what it reads back |
| Api.JobResponseOf | backend/app/main.py:144-169 | reference definition of `ScrapingJobResponse`: the row's fields and the job's items, each through `ItemResponseOf`; `GetJobDetails`, `GetJobDetailsOnStore` and `GetUserJobs` are stated against it |
| Api.StoredItemReadsBack | backend/app/main.py:144-156 | an item the executor stores reads back with every column, and `additional_data` has the mapping that was dumped |
| Api.StartScraping | backend/app/main.py:61-95 | one `NewJob` row is appended with the request's query and `max_results` (15 when left out), unchecked. The response is that row: id `n + 1`, status `pending`, count 0, no completion time, error or items. A consistent store stays consistent |
| Api.NewJobKeepsConsistent | backend/app/main.py:67-73 | adding a fresh pending job keeps every job consistent with the items |
| Api.GetJobDetails | backend/app/main.py:134-169 | the response is a 404 "Job not found" exactly when no row has the id; otherwise it has that id and one entry per item of the job |
| Api.GetJobDetailsOnStore | backend/app/main.py:139-156 | on the store an id is found exactly when it was handed out. The response carries that row's status, count and error, and the job's items in table order, each with `additional_data` parsed |
| Api.DetailsAgreeWithCount | backend/app/main.py:139-169 | on a consistent store, a completed job lists exactly `results_count` items (at least one), a failed job lists none and has an error, and an unfinished job lists none and has no completion time |
| Api.InsertNewestFirst | backend/app/main.py:101 | inserting into a list ordered newest first keeps it ordered and adds exactly that row |
| Api.SortNewestFirst | backend/app/main.py:101 | `ORDER BY created_at DESC` returns a permutation of the rows ordered newest first |
| Api.GetUserJobs | backend/app/main.py:97-132 | one response per job, ordered by `created_at` descending |
| Api.GetUserJobsComplete | backend/app/main.py:101-130 | every job's response is in the list, and every entry is some job's response |
| Api.FixedRow | backend/app/main.py:187-193 | the fixed part of a row is a dictionary with the keys Title, Description, URL, Price, Rating, Date, in that order |
| Api.ExportRowColumns | backend/app/main.py:187-195 | a row's columns are the six fixed ones, then the keys of `additional_data` that are not fixed names, in their order |
| Api.FixedRowCell | backend/app/main.py:188-193 | each fixed column shows its field, `''` for NULL; no other column is fixed |
| Api.ExportRowCell | backend/app/main.py:186-195 | a key of `additional_data` shows its value, overriding a fixed column of the same name; any other column reads from the fixed part |
| Api.ExportRow | backend/app/main.py:187-195 | reference definition of one export row: the six fixed columns spread with `additional_data`; `ExportRowColumns` and `ExportRowCell` state its columns and cells |
| Api.ExportRows | backend/app/main.py:184-196 | exactly one row per item |
| Api.BuildExportRows | backend/app/main.py:184-196 | the appending loop builds one row per item, in item order, each being that item's `ExportRow` |
| Api.ExportFilename | backend/app/main.py:211 | `scraping_job_{id}_{query with ' ' → '_'}` plus `.csv` or `.xlsx` contains no space |
| Api.ExportJob | backend/app/main.py:172-213 | an unknown id gives 404 "Job not found", and a job with no items gives 404 "No data found for this job". Otherwise the export has that job's rows, the file name and the media type of the format |
| Api.CompletedJobExports | backend/app/main.py:198-199 | on a consistent store a completed job never hits the empty-export 404, and exports as many rows as its `results_count` |
| JobDetailsPage.StatusColor | frontend/src/pages/JobDetails.js:43-50 | `success` exactly for `completed`, `warning` exactly for `running`, `error` exactly for `failed`, and `default` for every other text |
| JobDetailsPage.StatusColorOfStatus | frontend/src/pages/JobDetails.js:43-50 | of the four stored statuses only `pending` gets the default colour |
| JobDetailsPage.CollapseWhitespace | frontend/src/pages/JobDetails.js:65 | `replace(/\s+/g, '_')` leaves no white space and never lengthens the text |
| JobDetailsPage.CollapseWithoutWhitespace | frontend/src/pages/JobDetails.js:65 | text without white space is unchanged |
| JobDetailsPage.CollapseIdempotent | frontend/src/pages/JobDetails.js:65 | sanitising twice is sanitising once |
| JobDetailsPage.CollapseAgreesWithServer | frontend/src/pages/JobDetails.js:65 | on text whose only white space is single spaces, the page's run-collapsing equals the server's per-space replacement |
| JobDetailsPage.DownloadFilename | frontend/src/pages/JobDetails.js:65 | the saved name has white space only where the route's `jobId` text has it |
| JobDetailsPage.DownloadFilenameMatchesServer | frontend/src/pages/JobDetails.js:84 | for the route `/job/{id}` and a query with single spaces only, the page saves under the server's file name |
| JobDetailsPage.CollapseShortens | frontend/src/pages/JobDetails.js:65 | two adjacent white-space characters make the collapsed text shorter than the original |
| JobDetailsPage.DownloadDiffersUnlessSingleSpaces | frontend/src/pages/JobDetails.js:65 | the converse of the match: whenever the query has two adjacent spaces or any white space other than a space, the page's name differs from the server's. With `DownloadFilenameMatchesServer`, the names agree exactly on single-space queries |
| JobDetailsPage.DownloadFilenameDiffersOnDoubleSpace | frontend/src/pages/JobDetails.js:65 | an instance: for the query `a  b` the page saves `..._a_b` where the server names `..._a__b` |
| JobDetailsPage.ItemHeading | frontend/src/pages/JobDetails.js:227 | a card's heading is its title when it is non-empty, and `Item {index + 1}` otherwise |
| JobDetailsPage.FallbackHeadingsDistinct | frontend/src/pages/JobDetails.js:227 | untitled cards at different positions get different headings |
| JobDetailsPage.DisplayOnConsistentStore | frontend/src/pages/JobDetails.js:149-309 | for a job read from a consistent store, the "no results" notice never shows. Results show exactly for completed jobs, the completion time exactly for finished ones, and the error alert exactly for failed jobs with a non-empty message |
| JobDetailsPage.Render | frontend/src/pages/JobDetails.js:94-110 | the details show only once loading has ended with no error and a job; the "Job not found" notice shows exactly when there is no job and no error |
| JobDetailsPage.PageAfterFetch | frontend/src/pages/JobDetails.js:32-41 | reference definition of the page after `fetchJobDetails`: loading off, the response as the job, or "Failed to fetch job details"; `UnknownJobShowsFetchError` states its outcome |
| JobDetailsPage.PageAfterExport | frontend/src/pages/JobDetails.js:56-91 | after an export the details stay exactly when the request succeeded; a failure sets "Failed to export CSV" or "Failed to export Excel", which replaces the details |
| JobDetailsPage.UnknownJobShowsFetchError | frontend/src/pages/JobDetails.js:32-41 | after the fetch an unknown id shows "Failed to fetch job details" and a known one shows the response; the "Job not found" notice never shows |
| ScrapingFormPage.Submitted | frontend/src/pages/ScrapingForm.js:69-72 | reference definition of the synchronous updates of `handleSubmit`; `SubmitDisablesButton` states them and `ScrapingForm.Submit` is proved against it |
| ScrapingFormPage.SubmitSucceeded | frontend/src/pages/ScrapingForm.js:83 | reference definition of `setCurrentJobId(response.data.id)`; `ScrapingForm.SubmitOk` is proved against it |
| ScrapingFormPage.SubmitFailed | frontend/src/pages/ScrapingForm.js:84-87 | reference definition of the `catch` block; `SubmitFailureReenables` states it and `ScrapingForm.SubmitErr` is proved against it |
| ScrapingFormPage.EventReceived | frontend/src/pages/ScrapingForm.js:38-51 | reference definition of `onmessage`; `OtherJobsIgnored` and `MatchingEventOverwrites` state it and `ScrapingForm.OnEvent` is proved against it |
| ScrapingFormPage.CanSubmit | frontend/src/pages/ScrapingForm.js:163 | the button is enabled exactly when not loading and the query is not all white space |
| ScrapingFormPage.SubmitDisablesButton | frontend/src/pages/ScrapingForm.js:69-72 | submitting clears the error, restarts progress at 0 with "Initializing...", disables the button and keeps the request fields |
| ScrapingFormPage.SubmitFailureReenables | frontend/src/pages/ScrapingForm.js:84-87 | a failed POST always leaves an error to show (the server's `detail` when non-empty), and enables the button again exactly when the query is not blank |
| ScrapingFormPage.OtherJobsIgnored | frontend/src/pages/ScrapingForm.js:41 | payloads for another job, or with no current job, change no state |
| ScrapingFormPage.MatchingEventOverwrites | frontend/src/pages/ScrapingForm.js:41-51 | a matching payload overwrites progress and message unchecked, ends loading exactly on `completed` or `failed`, and keeps the job id, query and slider |
| ScrapingFormPage.ScrapingForm.constructor | frontend/src/pages/ScrapingForm.js:21-27 | the initial state: empty query, 15 results, not loading, no job and no socket |
| ScrapingFormPage.ScrapingForm.SetQuery | frontend/src/pages/ScrapingForm.js:122-124 | typing changes the query only while not loading |
| ScrapingFormPage.ScrapingForm.PickExample | frontend/src/pages/ScrapingForm.js:186 | clicking an example sets the query only while not loading |
| ScrapingFormPage.ScrapingForm.SetMaxResults | frontend/src/pages/ScrapingForm.js:135-143 | the slider changes `maxResults` only while not loading, and it stays one of 5, 10, ..., 50 |
| ScrapingFormPage.ScrapingForm.Submit | frontend/src/pages/ScrapingForm.js:67-81 | the state becomes `Submitted` of the old state, and the request carries the old query and slider value |
| ScrapingFormPage.ScrapingForm.SubmitOk | frontend/src/pages/ScrapingForm.js:83 | the current job becomes the returned id, and the effect keeps exactly one socket for that id when it is truthy |
| ScrapingFormPage.ScrapingForm.SubmitErr | frontend/src/pages/ScrapingForm.js:84-87 | the state becomes `SubmitFailed` of the old state; the subscription is unchanged |
| ScrapingFormPage.ScrapingForm.OnEvent | frontend/src/pages/ScrapingForm.js:38-53 | a message on the open socket updates the state as `EventReceived` says; with no socket nothing changes |
| ScrapingFormPage.ScrapingForm.Unmount | frontend/src/pages/ScrapingForm.js:60-64 | the cleanup closes the socket and leaves the state as it was |
| Lifecycle.RunningPayloads | frontend/src/pages/ScrapingForm.js:41-51 | a stream of `running` payloads for the current job only moves the progress bar to the last one's value and message |
| Lifecycle.ClientFollowsRun | frontend/src/pages/ScrapingForm.js:38-53 | a page waiting on a job that receives any suffix of that job's payloads ends with loading off. On success it has navigated to `/job/{id}` and shows 100 and the item count; on failure it shows `Error: ...` with progress 0 |
| Lifecycle.RunPayloadsShape | backend/app/main.py:42-48 | the payloads broadcast for one run are `running` ones for its job, except the last, which carries the run's terminal event |
| Lifecycle.LastPayloadDecides | frontend/src/pages/ScrapingForm.js:41-51 | after `running` payloads for the current job, the page ends as the last payload leaves the state they produced |
| Lifecycle.ClientMissesTerminal | frontend/src/pages/ScrapingForm.js:38-53 | a page that receives payloads of the run but not the last one keeps `loading`, its error and its navigation; only the progress bar moves, to the last payload received |
| Lifecycle.TerminalPayload | frontend/src/pages/ScrapingForm.js:45-51 | the run's last payload ends loading, and navigates on success or sets the error on failure |
| Lifecycle.StartThenRun | backend/app/main.py:61-95 | creating a job and running it makes the callback calls `RunEvents` for the new id and returns the sample list exactly when the run succeeds. A consistent store stays consistent and reads the outcome back |
| Lifecycle.RunScheduled | backend/app/main.py:76-83 | the scheduled run of a pending job with the broadcast as callback: the same, for that job |
| Lifecycle.FinishedJobReadBack | backend/app/main.py:139-169 | reading back a job the executor finished reports `completed` with as many items as were sampled, or `failed` with the run's error and no items |

## Left out

- The browser-use `Agent`, `ChatGoogle` and the API-key check are foreign calls. The agent is an oracle (`AgentRun`), and the task prompt and the agent's result, which is ignored, are not modelled.
- SQLAlchemy sessions, `commit`, `refresh` and `get_db` are replaced by the `Store` class. Transactions and rollback are not modelled.
- pandas and openpyxl output, and the Excel "Job Info" sheet: the model stops at the list of row dictionaries it would hand over.
- `json.dumps` and `json.loads` are an identity on the mapping. Values are JSON scalars (string, integer, boolean, null); nested values and floats are not modelled.
- FastAPI routing, CORS, response headers beyond the file name, the `/ws` receive loop and the root endpoint are transport. axios and WebSocket construction are too.
- `asyncio.create_task` scheduling: a run happens after `start_scraping` has responded, with nothing interleaved. Concurrent runs are not modelled.
- Clocks and randomness are parameters. `create_sample_data` reads the clock once per entry, and each read is a separate parameter.
  - Times are opaque integers.
  - The prices and ratings are arbitrary naturals. Ratings are in tenths, as `:.1f` prints them.
- Scraper.GenericItems: does not constrain the prices to 1000-50000 or the ratings to 3.5-5.0, because the values drawn are parameters.
- Common.Lower: lower-cases ASCII letters only. Python also maps a few non-ASCII characters into ASCII: the Kelvin sign becomes `k`, and U+0130 becomes `i` followed by a combining dot. Neither can complete `iphone`, so the test is exact.
- Api.SortNewestFirst: does not fix the order of jobs with equal `created_at`, which the database leaves open.
- Scraper.EnhancedAIWebScraper.ScrapeWithProgress: the trace of callback calls is kept apart from the broadcast. `start_scraping` passes `manager.send_progress`, whose send errors are swallowed, so the callback is taken never to raise.
- Scraper.EnhancedAIWebScraper.RunFound: commits the `running` row before the first callback, but its contract states only the row the run ends with.
- ScrapingFormPage.ScrapingForm.SetMaxResults: requires one of the values the slider can produce (5 to 50 in steps of 5), since no other value reaches the handler.
- ScrapingFormPage.ScrapingForm.SubmitOk: state updates after the component unmounts are dropped, as React ignores them.
- Api.ExportRowColumns: requires `additional_data` to have distinct keys, as every JSON object that `json.loads` returns has.
- The job-to-items relation (`job.scraped_items`) has no `order_by` and `job_id` no index, so SQLite returns the items in its scan order; the model reads them in insertion (table) order, which is what `GetJobDetailsOnStore` and `ExportRows` mean by item order.
- Rendering is not modelled: MUI layout, `formatDate`, and the browser's download mechanics (object URLs, anchor clicks). The requests of the fetch and export handlers of the job page are I/O; their outcome on the page state is modelled (`PageAfterFetch`, `PageAfterExport`).
- frontend/src/App.js, frontend/src/components/Navbar.js and frontend/src/pages/Dashboard.js are routing and rendering. Dashboard's status colours duplicate `getStatusColor`. backend/start_server.py and backend/app/models.py are configuration and schemas; their field shapes are used.
