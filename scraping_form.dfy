/** The submit page of the frontend (`ScrapingForm`): its React state, the
    submit handler with both outcomes of the POST, the WebSocket message
    handler, and the effect that keeps one subscription per current job. */
module ScrapingFormPage {
  import opened Common
  import opened Database
  import opened Api

  /** The component's `useState` values. `navigatedTo` is the last path passed
      to `navigate`, if any. */
  datatype FormState = FormState(
    query: string,
    maxResults: int,
    loading: bool,
    progress: int,
    progressMessage: string,
    error: string,
    currentJobId: Option<nat>,
    navigatedTo: Option<string>)

  /** The initial `useState` arguments. */
  const InitialForm := FormState("", DefaultMaxResults, false, 0, "", "", None, None)

  /** The values the slider (`min={5} max={50} step={5}`) can produce. */
  predicate IsSliderValue(v: int)
  {
    5 <= v <= 50 && v % 5 == 0
  }

  /** `if (currentJobId)`: `null` and `0` are falsy. */
  predicate JobIdTruthy(id: Option<nat>)
  {
    id.Some? && id.value != 0
  }

  /** The submit button is enabled: `!(loading || !query.trim())`. */
  function CanSubmit(s: FormState): (b: bool)
    ensures b <==> !s.loading && !AllWhitespace(s.query)
  {
    !(s.loading || Trim(s.query) == [])
  }

  /** The synchronous part of `handleSubmit`, before the POST. */
  function Submitted(s: FormState): FormState
  {
    s.(error := "", loading := true, progress := 0, progressMessage := "Initializing...")
  }

  /** The request body `handleSubmit` sends. */
  function RequestOf(s: FormState): ScrapingRequest
  {
    ScrapingRequest(s.query, Some(s.maxResults))
  }

  /** `setCurrentJobId(response.data.id)`. */
  function SubmitSucceeded(s: FormState, id: nat): FormState
  {
    s.(currentJobId := Some(id))
  }

  /** The `catch` block: `err.response?.data?.detail || 'Failed to start scraping'`. */
  function SubmitFailed(s: FormState, detail: Option<string>): FormState
  {
    s.(loading := false,
       error := if detail.Some? && detail.value != "" then detail.value else "Failed to start scraping")
  }

  /** `ws.onmessage` for a parsed payload, while the socket of `currentJobId` is open. */
  function EventReceived(s: FormState, p: ProgressPayload): FormState
  {
    if !JobIdTruthy(s.currentJobId) || p.jobId != s.currentJobId.value then s
    else
      var t := s.(progress := p.progress, progressMessage := p.message);
      if p.status == "completed" then
        t.(loading := false, navigatedTo := Some("/job/" + NatToString(s.currentJobId.value)))
      else if p.status == "failed" then
        t.(loading := false, error := p.message)
      else
        t
  }

  /** A stream of payloads, handled in order. */
  function EventsReceived(s: FormState, ps: seq<ProgressPayload>): FormState
    decreases |ps|
  {
    if ps == [] then s else EventsReceived(EventReceived(s, ps[0]), ps[1..])
  }

  /** Submitting disables the button until an outcome arrives, clears the old
      error and restarts the progress bar; the query and the slider are kept. */
  lemma SubmitDisablesButton(s: FormState)
    ensures !CanSubmit(Submitted(s))
    ensures Submitted(s).error == "" && Submitted(s).progress == 0
    ensures Submitted(s).progressMessage == "Initializing..."
    ensures RequestOf(Submitted(s)) == RequestOf(s)
  {
  }

  /** A failed POST always leaves an error to show, and enables the button
      again exactly when the query is not blank. */
  lemma SubmitFailureReenables(s: FormState, detail: Option<string>)
    ensures SubmitFailed(Submitted(s), detail).error != ""
    ensures CanSubmit(SubmitFailed(Submitted(s), detail)) <==> !AllWhitespace(s.query)
    ensures detail.Some? && detail.value != "" ==> SubmitFailed(Submitted(s), detail).error == detail.value
  {
  }

  /** A payload for another job, or one that arrives with no current job, changes nothing. */
  lemma {:induction false} OtherJobsIgnored(s: FormState, ps: seq<ProgressPayload>)
    requires forall i :: 0 <= i < |ps| ==> !JobIdTruthy(s.currentJobId) || ps[i].jobId != s.currentJobId.value
    ensures EventsReceived(s, ps) == s
    decreases |ps|
  {
    if ps != [] {
      assert EventReceived(s, ps[0]) == s;
      OtherJobsIgnored(s, ps[1..]);
    }
  }

  /** A matching payload overwrites progress and message with no ordering
      check (a `failed` payload sets progress back to 0), and only a terminal
      status ends `loading`. */
  lemma MatchingEventOverwrites(s: FormState, p: ProgressPayload)
    requires JobIdTruthy(s.currentJobId) && p.jobId == s.currentJobId.value
    ensures EventReceived(s, p).progress == p.progress
    ensures EventReceived(s, p).progressMessage == p.message
    ensures EventReceived(s, p).loading == (s.loading && p.status != "completed" && p.status != "failed")
    ensures EventReceived(s, p).currentJobId == s.currentJobId
    ensures EventReceived(s, p).query == s.query && EventReceived(s, p).maxResults == s.maxResults
  {
  }

  /** `ScrapingForm`. `subscription` is the job id captured by the open
      WebSocket's handler; `mounted` is false after the component unmounts. */
  class ScrapingForm {
    var query: string
    var maxResults: int
    var loading: bool
    var progress: int
    var progressMessage: string
    var error: string
    var currentJobId: Option<nat>
    var navigatedTo: Option<string>
    var subscription: Option<nat>
    var mounted: bool

    function State(): FormState
      reads this
    {
      FormState(query, maxResults, loading, progress, progressMessage, error, currentJobId, navigatedTo)
    }

    /** The slider holds one of its values, and the effect keeps exactly one
        socket open, for the current job, while the id is truthy and the
        component is mounted. */
    ghost predicate Valid()
      reads this
    {
      && IsSliderValue(maxResults)
      && subscription == (if mounted && JobIdTruthy(currentJobId) then Some(currentJobId.value) else None)
    }

    constructor ()
      ensures Valid() && State() == InitialForm && mounted && subscription.None?
    {
      query := "";
      maxResults := DefaultMaxResults;
      loading := false;
      progress := 0;
      progressMessage := "";
      error := "";
      currentJobId := None;
      navigatedTo := None;
      subscription := None;
      mounted := true;
    }

    /** Typing in the query field, which is disabled while loading. */
    method SetQuery(q: string)
      requires Valid()
      modifies this
      ensures Valid() && subscription == old(subscription) && mounted == old(mounted)
      ensures State() == if old(loading) then old(State()) else old(State()).(query := q)
    {
      if !loading {
        query := q;
      }
    }

    /** Clicking an example card: `!loading && setQuery(example)`. */
    method PickExample(example: string)
      requires Valid()
      modifies this
      ensures Valid() && subscription == old(subscription) && mounted == old(mounted)
      ensures State() == if old(loading) then old(State()) else old(State()).(query := example)
    {
      if !loading {
        query := example;
      }
    }

    /** Moving the slider, which is disabled while loading. */
    method SetMaxResults(v: int)
      requires Valid() && IsSliderValue(v)
      modifies this
      ensures Valid() && subscription == old(subscription) && mounted == old(mounted)
      ensures State() == if old(loading) then old(State()) else old(State()).(maxResults := v)
    {
      if !loading {
        maxResults := v;
      }
    }

    /** `handleSubmit` up to the POST, which carries `request`. The handler
        itself has no guard; the disabled button is `CanSubmit`. */
    method Submit() returns (request: ScrapingRequest)
      requires Valid()
      modifies this
      ensures Valid() && subscription == old(subscription) && mounted == old(mounted)
      ensures State() == Submitted(old(State()))
      ensures request == ScrapingRequest(old(query), Some(old(maxResults)))
    {
      error := "";
      loading := true;
      progress := 0;
      progressMessage := "Initializing...";
      request := ScrapingRequest(query, Some(maxResults));
    }

    /** The POST returned job `id`; the effect then closes any old socket and
        subscribes for the new id. Updates after unmounting are dropped. */
    method SubmitOk(id: nat)
      requires Valid()
      modifies this
      ensures Valid() && mounted == old(mounted)
      ensures State() == if old(mounted) then SubmitSucceeded(old(State()), id) else old(State())
      ensures old(mounted) ==> subscription == (if id != 0 then Some(id) else None)
    {
      if mounted {
        currentJobId := Some(id);
        subscription := if id != 0 then Some(id) else None;
      }
    }

    /** The POST failed, with the server's `detail` when it sent one. */
    method SubmitErr(detail: Option<string>)
      requires Valid()
      modifies this
      ensures Valid() && subscription == old(subscription) && mounted == old(mounted)
      ensures State() == if old(mounted) then SubmitFailed(old(State()), detail) else old(State())
    {
      if mounted {
        loading := false;
        error := if detail.Some? && detail.value != "" then detail.value else "Failed to start scraping";
      }
    }

    /** A message on the open socket; with no socket nothing arrives. */
    method OnEvent(p: ProgressPayload)
      requires Valid()
      modifies this
      ensures Valid() && subscription == old(subscription) && mounted == old(mounted)
      ensures State() == if old(mounted) then EventReceived(old(State()), p) else old(State())
    {
      if subscription.Some? && p.jobId == subscription.value {
        progress := p.progress;
        progressMessage := p.message;
        if p.status == "completed" {
          loading := false;
          navigatedTo := Some("/job/" + NatToString(subscription.value));
        } else if p.status == "failed" {
          loading := false;
          error := p.message;
        }
      }
    }

    /** The effect's cleanup on unmount closes the socket. */
    method Unmount()
      requires Valid()
      modifies this
      ensures Valid() && !mounted && subscription.None? && State() == old(State())
    {
      mounted := false;
      subscription := None;
    }
  }
}
