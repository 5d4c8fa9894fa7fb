// ProcessAnalysisRequest: what one delivered message does to the analysis table,
// the cache and the outbox, for every way in which the calls it makes can end.
module SubscriberService {
  import opened Prelude
  import opened AnalysisTable
  import opened AnalysisStore
  import O = OutboxTable

  datatype Result = Success(contentHash: string) | Failure(code: string)

  datatype Fetched = Fetched(page: Page, fetchTime: nat)

  // How the calls of one request end, in the order they are made.
  datatype Calls = Calls(
    event: Option<O.EventId>,                            // GetByAggregateID
    processed: Outcome, processedAt: Time,               // MarkProcessed
    started: Outcome,                                    // UpdateStatus
    dropStarted: bool,                                   // cache Delete
    fetched: Option<Fetched>,
    failed: Outcome, failedAt: Time, error: string,      // MarkFailed
    dropFailed: bool,                                    // cache Delete
    checked: bool, duplicate: Option<Uuid>,              // FindByContentHash
    analyzed: bool,                                      // Analyze
    inaccessible: seq<string>, processingTime: nat,      // CheckAccessibility, clocks
    saved: Outcome, savedAt: Time,                       // Update
    found: bool,                                         // Find
    stored: bool,                                        // cache Set
    timed: Outcome, timedAt: Time, durationMs: int,      // UpdateCompletionDuration
    completed: Outcome, completedAt: Time,               // MarkCompleted
    dropCompleted: bool)                                 // cache Delete

  datatype World = World(rows: Rows, views: map<Uuid, View>, events: O.Rows)

  // Where a request ends: what it leaves behind and what it reports.
  datatype End = End(world: World, result: Result)

  // What the database owes its callers.
  ghost predicate Truthful(env: Env, w: World, id: Uuid, c: Calls) {
    && (c.event.Some? ==> c.event.value in w.events && w.events[c.event.value].event.aggregateId == id)
    && (c.fetched.Some? && c.checked ==>
          Answers(StatusTable(w.rows, id, InProgress), env.hash(c.fetched.value.page.html), c.duplicate))
  }

  /******* The specification *******/

  function OriginOf(content: Fetched, c: Calls): Origin {
    Origin(content.page, c.inaccessible, content.fetchTime, c.processingTime)
  }

  // What Update stores: the source's size and results under the fetched hash, or
  // a fresh analysis.
  function NewContent(env: Env, rows: Rows, content: Fetched, c: Calls): Content {
    if c.duplicate.Some? && c.duplicate.value in rows && rows[c.duplicate.value].content.Some? then
      rows[c.duplicate.value].content.value.(hash := env.hash(content.page.html))
    else
      ContentOf(env, OriginOf(content, c))
  }

  function Changed(w: World, outcome: Outcome, rows: Rows): World {
    if outcome.Applied() then w.(rows := rows) else w
  }

  function Dropped(w: World, id: Uuid, dropped: bool): World {
    if dropped then w.(views := w.views - {id}) else w
  }

  // Update, and then the row as it is now put into the cache.
  function Saved(caching: bool, w: World, id: Uuid, content: Content, c: Calls): World {
    var w' := Changed(w, c.saved, ContentTable(w.rows, id, content, c.savedAt));
    if caching && c.saved.Done? && c.found && c.stored && id in w'.rows then
      w'.(views := w'.views[id := ViewOf(w'.rows[id])])
    else
      w'
  }

  // From UpdateCompletionDuration on.
  function Closed(caching: bool, w: World, id: Uuid, eventId: O.EventId, hash: string, c: Calls): End {
    var timed := Changed(w, c.timed, DurationTable(w.rows, id, c.durationMs, c.timedAt));
    if !c.timed.Done? then
      End(timed, Failure("DURATION_UPDATE_ERROR"))
    else
      var completed := if c.completed.Applied() && eventId in timed.events
        then timed.(events := timed.events[eventId := O.CompletedRow(timed.events[eventId], c.completedAt)]) else timed;
      if !c.completed.Done? then
        End(completed, Failure("OUTBOX_ERROR"))
      else
        End(Dropped(completed, id, caching && c.dropCompleted), Success(hash))
  }

  // From the fetch on.
  function Worked(env: Env, caching: bool, w: World, id: Uuid, eventId: O.EventId, c: Calls): End {
    if c.fetched.None? then
      var failed := Changed(w, c.failed, ErrorTable(w.rows, id, c.error, c.failedAt));
      End(Dropped(failed, id, caching && c.failed.Done? && c.dropFailed), Failure("FETCH_ERROR"))
    else if !c.checked then
      End(w, Failure("DUPLICATE_CHECK_ERROR"))
    else if c.duplicate.None? && !c.analyzed then
      End(w, Failure("ANALYSIS_ERROR"))
    else
      var saved := Saved(caching, w, id, NewContent(env, w.rows, c.fetched.value, c), c);
      if !c.saved.Done? then
        End(saved, Failure(if c.duplicate.Some? then "COPY_RESULTS_ERROR" else "ANALYSIS_ERROR"))
      else
        Closed(caching, saved, id, eventId, env.hash(c.fetched.value.page.html), c)
  }

  // With the row in progress and the cache emptied.
  function AfterStart(caching: bool, w: World, id: Uuid, c: Calls): World
    requires c.event.Some? && c.event.value in w.events
  {
    var events := w.events[c.event.value := O.ProcessedRow(w.events[c.event.value], c.processedAt)];
    Dropped(World(StatusTable(w.rows, id, InProgress), w.views, events), id, caching && c.dropStarted)
  }

  function Handled(env: Env, caching: bool, w: World, id: Uuid, c: Calls): End {
    if c.event.None? || c.event.value !in w.events then
      End(w, Failure("OUTBOX_ERROR"))
    else
      var processed := if c.processed.Applied()
        then w.(events := w.events[c.event.value := O.ProcessedRow(w.events[c.event.value], c.processedAt)]) else w;
      if !c.processed.Done? then
        End(processed, Failure("OUTBOX_ERROR"))
      else if !c.started.Done? then
        End(Changed(processed, c.started, StatusTable(processed.rows, id, InProgress)), Failure("STATUS_UPDATE_ERROR"))
      else
        Worked(env, caching, AfterStart(caching, w, id, c), id, c.event.value, c)
  }

  /******* The service *******/

  class Service {
    const analyses: AnalysisRepository
    const outbox: O.OutboxRepository
    const cache: CacheRepository?
    const env: Env

    constructor (analyses: AnalysisRepository, outbox: O.OutboxRepository, cache: CacheRepository?, env: Env)
      ensures this.analyses == analyses && this.outbox == outbox && this.cache == cache && this.env == env
    {
      this.analyses := analyses;
      this.outbox := outbox;
      this.cache := cache;
      this.env := env;
    }

    function Caches(): set<object> {
      if cache == null then {} else {cache}
    }

    function TheWorld(): World
      reads analyses, outbox, Caches()
    {
      World(analyses.rows, if cache == null then map[] else cache.views, outbox.rows)
    }

    method ProcessAnalysisRequest(id: Uuid, c: Calls) returns (result: Result)
      requires Truthful(env, TheWorld(), id, c)
      modifies analyses, outbox, Caches()
      ensures End(TheWorld(), result) == Handled(env, cache != null, old(TheWorld()), id, c)
    {
      if c.event.None? {
        return Failure("OUTBOX_ERROR");
      }
      var eventId := c.event.value;
      var ok := outbox.MarkProcessed(eventId, c.processedAt, c.processed);
      if !ok {
        return Failure("OUTBOX_ERROR");
      }
      ok := analyses.UpdateStatus(id, InProgress, c.started);
      if !ok {
        return Failure("STATUS_UPDATE_ERROR");
      }
      if cache != null {
        cache.Delete(id, c.dropStarted);
      }
      result := Work(id, eventId, c);
    }

    // From the fetch to the stored results.
    method Work(id: Uuid, eventId: O.EventId, c: Calls) returns (result: Result)
      requires eventId in outbox.rows
      requires c.fetched.Some? && c.checked ==> Answers(analyses.rows, env.hash(c.fetched.value.page.html), c.duplicate)
      modifies analyses, outbox, Caches()
      ensures End(TheWorld(), result) == Worked(env, cache != null, old(TheWorld()), id, eventId, c)
    {
      if c.fetched.None? {
        var marked := analyses.MarkFailed(id, c.error, c.failedAt, c.failed);
        if marked && cache != null {
          cache.Delete(id, c.dropFailed);
        }
        return Failure("FETCH_ERROR");
      }
      var content := c.fetched.value;
      var contentHash := env.hash(content.page.html);
      if !c.checked {
        return Failure("DUPLICATE_CHECK_ERROR");
      }
      var existing := analyses.FindByContentHash(contentHash, c.duplicate);
      if existing.Some? {
        var copied := CopyAnalysisResults(id, contentHash, existing.value, c);
        if !copied {
          return Failure("COPY_RESULTS_ERROR");
        }
      } else {
        var analyzed := PerformFullAnalysis(id, contentHash, content, c);
        if !analyzed {
          return Failure("ANALYSIS_ERROR");
        }
      }
      result := Close(id, eventId, contentHash, c);
    }

    method Close(id: Uuid, eventId: O.EventId, contentHash: string, c: Calls) returns (result: Result)
      requires eventId in outbox.rows
      modifies analyses, outbox, Caches()
      ensures End(TheWorld(), result) == Closed(cache != null, old(TheWorld()), id, eventId, contentHash, c)
    {
      var ok := analyses.UpdateCompletionDuration(id, c.durationMs, c.timedAt, c.timed);
      if !ok {
        return Failure("DURATION_UPDATE_ERROR");
      }
      ok := outbox.MarkCompleted(eventId, c.completedAt, c.completed);
      if !ok {
        return Failure("OUTBOX_ERROR");
      }
      if cache != null {
        cache.Delete(id, c.dropCompleted);
      }
      return Success(contentHash);
    }

    method CopyAnalysisResults(id: Uuid, contentHash: string, source: Row, c: Calls) returns (ok: bool)
      requires source.content.Some?
      modifies analyses, Caches()
      ensures ok == c.saved.Done?
      ensures TheWorld() == Saved(cache != null, old(TheWorld()), id, source.content.value.(hash := contentHash), c)
    {
      ok := analyses.Update(id, Content(contentHash, source.content.value.size, source.content.value.results),
          c.savedAt, c.saved);
      if !ok || cache == null {
        return;
      }
      var analysis := analyses.Find(id, c.found);
      if analysis.Some? {
        cache.Set(id, ViewOf(analysis.value), c.stored);
      }
    }

    // The analysis itself, up to the results that are stored.
    method Analyze(contentHash: string, content: Fetched, c: Calls) returns (newContent: Content)
      ensures newContent == ContentOf(env, OriginOf(content, c)).(hash := contentHash)
      ensures newContent.hash == contentHash
      ensures Describes(env, Origin(content.page, c.inaccessible, content.fetchTime, c.processingTime),
                        newContent.(hash := env.hash(content.page.html)))
    {
      var page := content.page;
      var links := env.links(page.html, page.url);
      var inaccessibleLinks := [];
      if page.options.checkLinks && |links.external| > 0 {
        inaccessibleLinks := c.inaccessible;
      }
      var results := AnalysisData(
        env.htmlVersion(page.html),
        env.title(page.html),
        if page.options.includeHeadings then env.headings(page.html) else NO_HEADINGS,
        Links(links.internal, |links.external|, inaccessibleLinks),
        if page.options.detectForms then env.forms(page.html, page.url) else NO_FORMS,
        content.fetchTime,
        c.processingTime);
      return Content(contentHash, |page.html|, results);
    }

    method PerformFullAnalysis(id: Uuid, contentHash: string, content: Fetched, c: Calls) returns (ok: bool)
      modifies analyses, Caches()
      ensures ok == (c.analyzed && c.saved.Done?)
      ensures TheWorld() == if c.analyzed
        then Saved(cache != null, old(TheWorld()), id, ContentOf(env, OriginOf(content, c)).(hash := contentHash), c)
        else old(TheWorld())
      ensures c.analyzed && c.saved.Applied() && id in old(analyses.rows) ==>
        && id in analyses.rows && analyses.rows[id].status == Completed && analyses.rows[id].content.Some?
        && analyses.rows[id].completedAt == Some(c.savedAt)
        && var stored := analyses.rows[id].content.value;
        && stored.hash == contentHash
        && Describes(env, Origin(content.page, c.inaccessible, content.fetchTime, c.processingTime),
                     stored.(hash := env.hash(content.page.html)))
    {
      if !c.analyzed {
        return false;
      }
      var newContent := Analyze(contentHash, content, c);
      ok := analyses.Update(id, newContent, c.savedAt, c.saved);
      if !ok || cache == null {
        return;
      }
      var analysis := analyses.Find(id, c.found);
      if analysis.Some? {
        cache.Set(id, ViewOf(analysis.value), c.stored);
      }
    }
  }

  /******* The cache afterwards *******/

  // The cache has nothing for the ID, or what the row is now.
  predicate Coherent(w: World, id: Uuid) {
    id in w.views ==> id in w.rows && w.views[id] == ViewOf(w.rows[id])
  }

  predicate DeletesSucceed(c: Calls) {
    c.dropStarted && c.dropFailed && c.dropCompleted
  }

  // A row whose message has not been delivered before.
  predicate Fresh(w: World, id: Uuid) {
    id in w.rows ==> w.rows[id].status == Requested && w.rows[id].duration.None?
  }

  predicate Begins(w: World, c: Calls) {
    c.event.Some? && c.event.value in w.events && c.processed.Done?
  }

  predicate Saves(w: World, c: Calls) {
    && Begins(w, c) && c.started.Done? && c.fetched.Some? && c.checked
    && (c.duplicate.None? ==> c.analyzed)
  }

  // The cache is filled before the duration is written and emptied only after the
  // event is completed; in between the row moves on.
  predicate LeavesStale(caching: bool, w: World, id: Uuid, c: Calls) {
    caching && id in w.rows &&
    (|| (Begins(w, c) && c.started.Unacknowledged? && id in w.views && w.rows[id].status != InProgress)
     || (&& Saves(w, c) && c.saved.Done? && c.found && c.stored
         && (c.timed.Unacknowledged? || (c.timed.Done? && !c.completed.Done?))
         && (w.rows[id].duration != Some(c.durationMs) || c.savedAt != c.timedAt)))
  }

  predicate ClosesStale(caching: bool, w: World, id: Uuid, c: Calls) {
    && caching && id in w.rows && id in w.views && (c.timed.Unacknowledged? || (c.timed.Done? && !c.completed.Done?))
    && (w.rows[id].duration != Some(c.durationMs) || w.rows[id].completedAt != Some(c.timedAt))
  }

  lemma ClosedStale(caching: bool, w: World, id: Uuid, eventId: O.EventId, hash: string, c: Calls)
    requires Coherent(w, id) && DeletesSucceed(c) && (!caching ==> w.views == map[])
    ensures var world := Closed(caching, w, id, eventId, hash, c).world;
      Coherent(world, id) <==> !ClosesStale(caching, w, id, c)
  {
  }

  lemma WorkedStale(env: Env, caching: bool, w: World, id: Uuid, eventId: O.EventId, c: Calls)
    requires id !in w.views && DeletesSucceed(c) && (!caching ==> w.views == map[])
    ensures var world := Worked(env, caching, w, id, eventId, c).world;
      var stale :=
        && caching && id in w.rows && c.fetched.Some? && c.checked && (c.duplicate.None? ==> c.analyzed)
        && c.saved.Done? && c.found && c.stored && (c.timed.Unacknowledged? || (c.timed.Done? && !c.completed.Done?))
        && (w.rows[id].duration != Some(c.durationMs) || c.savedAt != c.timedAt);
      Coherent(world, id) <==> !stale
  {
    if c.fetched.Some? {
      var saved := Saved(caching, w, id, NewContent(env, w.rows, c.fetched.value, c), c);
      ClosedStale(caching, saved, id, eventId, env.hash(c.fetched.value.page.html), c);
    }
  }

  // With deletes that succeed, the cache is coherent on every exit but these, on
  // first and on repeated deliveries: what was cached has another status, duration
  // or completion time than the row has by then.
  lemma StaleExactlyWhen(env: Env, caching: bool, w: World, id: Uuid, c: Calls)
    requires Coherent(w, id) && DeletesSucceed(c) && (!caching ==> w.views == map[])
    ensures Coherent(Handled(env, caching, w, id, c).world, id) <==> !LeavesStale(caching, w, id, c)
  {
    if Begins(w, c) && c.started.Done? {
      WorkedStale(env, caching, AfterStart(caching, w, id, c), id, c.event.value, c);
    }
  }

  predicate ErrorsHaveNoEffect(c: Calls) {
    && !c.processed.Unacknowledged? && !c.started.Unacknowledged? && !c.failed.Unacknowledged?
    && !c.saved.Unacknowledged? && !c.timed.Unacknowledged? && !c.completed.Unacknowledged?
  }

  // If a failed statement changes nothing, a first delivery ends with a stale view
  // in one case only: everything went well until MarkCompleted failed.
  lemma OneStaleExit(env: Env, caching: bool, w: World, id: Uuid, c: Calls)
    requires Coherent(w, id) && DeletesSucceed(c) && (!caching ==> w.views == map[])
    requires ErrorsHaveNoEffect(c) && Fresh(w, id)
    ensures !Coherent(Handled(env, caching, w, id, c).world, id) <==>
      && caching && id in w.rows && Saves(w, c) && c.saved.Done? && c.found && c.stored
      && c.timed.Done? && c.completed.Rejected?
  {
    StaleExactlyWhen(env, caching, w, id, c);
  }

  /******* What the result says *******/

  // Closing keeps status and content.
  lemma ClosedRow(caching: bool, w: World, id: Uuid, eventId: O.EventId, hash: string, c: Calls)
    requires id in w.rows
    ensures var end := Closed(caching, w, id, eventId, hash, c);
      && id in end.world.rows
      && end.world.rows[id].status == w.rows[id].status && end.world.rows[id].content == w.rows[id].content
      && (end.result.Success? <==> c.timed.Done? && c.completed.Done?)
      && (end.result.Success? ==> var was := w.rows[id];
            end.world.rows[id] == Row(was.url, was.createdAt, was.status, was.content, Some(c.timedAt),
                Some(c.durationMs), was.error, was.lockVersion + 1))
  {
  }

  lemma ClosedEvent(caching: bool, w: World, id: Uuid, eventId: O.EventId, hash: string, c: Calls)
    requires eventId in w.events
    ensures var end := Closed(caching, w, id, eventId, hash, c);
      end.result.Success? ==>
        && end.result.contentHash == hash
        && eventId in end.world.events && end.world.events[eventId] == O.CompletedRow(w.events[eventId], c.completedAt)
  {
  }

  lemma SuccessMeans(env: Env, caching: bool, w: World, id: Uuid, c: Calls)
    requires Truthful(env, w, id, c) && id in w.rows
    ensures Handled(env, caching, w, id, c).result.Success? <==>
      Saves(w, c) && c.saved.Done? && c.timed.Done? && c.completed.Done?
    ensures var end := Handled(env, caching, w, id, c);
      end.result.Success? ==>
        && id in end.world.rows && c.event.Some? && c.event.value in end.world.events
        && var row, event := end.world.rows[id], end.world.events[c.event.value];
        && row.content.Some? && row.content.value.hash == end.result.contentHash
        && row == Row(w.rows[id].url, w.rows[id].createdAt, Completed, row.content, Some(c.timedAt), Some(c.durationMs),
                      w.rows[id].error, w.rows[id].lockVersion + 3)
        && var was := w.events[c.event.value];
        && was.event.aggregateId == id
        && event == O.OutboxRow(was.event, was.status, was.retryCount, was.errorDetails, was.nextRetryAt,
             O.Timeline(was.times.startedAt, was.times.publishedAt, Some(c.processedAt), Some(c.completedAt)))
  {
    if Saves(w, c) && c.saved.Done? {
      var begun := AfterStart(caching, w, id, c);
      var content := c.fetched.value;
      var saved := Saved(caching, begun, id, NewContent(env, begun.rows, content, c), c);
      ClosedRow(caching, saved, id, c.event.value, env.hash(content.page.html), c);
      ClosedEvent(caching, saved, id, c.event.value, env.hash(content.page.html), c);
    }
  }

  // The code that is reported: that of the first call that failed.
  lemma ResultMeans(env: Env, caching: bool, w: World, id: Uuid, c: Calls)
    ensures Handled(env, caching, w, id, c).result ==
      if !Begins(w, c) then Failure("OUTBOX_ERROR")
      else if !c.started.Done? then Failure("STATUS_UPDATE_ERROR")
      else if c.fetched.None? then Failure("FETCH_ERROR")
      else if !c.checked then Failure("DUPLICATE_CHECK_ERROR")
      else if c.duplicate.Some? && !c.saved.Done? then Failure("COPY_RESULTS_ERROR")
      else if c.duplicate.None? && !(c.analyzed && c.saved.Done?) then Failure("ANALYSIS_ERROR")
      else if !c.timed.Done? then Failure("DURATION_UPDATE_ERROR")
      else if !c.completed.Done? then Failure("OUTBOX_ERROR")
      else Success(env.hash(c.fetched.value.page.html))
  {
  }

  // A page that cannot be fetched: the row keeps whatever content it had, says why
  // and when, and leaves the cache if that was recorded.
  lemma FetchFailureMeans(env: Env, caching: bool, w: World, id: Uuid, c: Calls)
    requires id in w.rows && Begins(w, c) && c.started.Done? && c.fetched.None? && c.failed.Applied()
    ensures var end, was := Handled(env, caching, w, id, c), w.rows[id];
      && end.result == Failure("FETCH_ERROR") && id in end.world.rows
      && end.world.rows[id] == Row(was.url, was.createdAt, Failed, was.content, Some(c.failedAt), was.duration,
           Some(c.error), was.lockVersion + 2)
      && (caching && (c.dropStarted || (c.failed.Done? && c.dropFailed)) ==> id !in end.world.views)
  {
  }

  lemma SavedContent(env: Env, caching: bool, w: World, id: Uuid, eventId: O.EventId, c: Calls)
    requires id in w.rows && c.fetched.Some? && c.checked && (c.duplicate.None? ==> c.analyzed) && c.saved.Applied()
    ensures var end := Worked(env, caching, w, id, eventId, c);
      && id in end.world.rows && end.world.rows[id].status == Completed
      && end.world.rows[id].content == Some(NewContent(env, w.rows, c.fetched.value, c))
  {
    var saved := Saved(caching, w, id, NewContent(env, w.rows, c.fetched.value, c), c);
    ClosedRow(caching, saved, id, eventId, env.hash(c.fetched.value.page.html), c);
  }

  // Another row that is completed with the fetched content's hash.
  predicate Twin(env: Env, w: World, id: Uuid, page: Page, other: Uuid) {
    && other in w.rows && other != id && w.rows[other].status == Completed
    && w.rows[other].content.Some? && w.rows[other].content.value.hash == env.hash(page.html)
  }

  // Results are copied from a completed analysis of content with the same hash, if
  // there is one, and computed from the fetched page if there is none.
  lemma ContentMeans(env: Env, caching: bool, w: World, id: Uuid, c: Calls) returns (other: Uuid)
    requires Truthful(env, w, id, c) && id in w.rows && Saves(w, c) && c.saved.Applied()
    ensures var end := Handled(env, caching, w, id, c);
      && id in end.world.rows && end.world.rows[id].content.Some?
      && var page, stored := c.fetched.value.page, end.world.rows[id].content.value;
      && stored.hash == env.hash(page.html)
      && ((exists twin :: Twin(env, w, id, page, twin)) ==>
            Twin(env, w, id, page, other) && w.rows[other].content == Some(stored))
      && ((forall twin :: !Twin(env, w, id, page, twin)) ==>
            Describes(env, Origin(page, c.inaccessible, c.fetched.value.fetchTime, c.processingTime), stored))
  {
    var begun := AfterStart(caching, w, id, c);
    SavedContent(env, caching, begun, id, c.event.value, c);
    assert forall twin | Twin(env, w, id, c.fetched.value.page, twin) ::
        Matches(begun.rows[twin], env.hash(c.fetched.value.page.html));
    assert c.duplicate.Some? ==> Twin(env, w, id, c.fetched.value.page, c.duplicate.value);
    other := if c.duplicate.Some? then c.duplicate.value else id;
  }

  lemma WorkedStatus(env: Env, caching: bool, w: World, id: Uuid, eventId: O.EventId, c: Calls)
    requires id in w.rows
    ensures var end := Worked(env, caching, w, id, eventId, c);
      && id in end.world.rows
      && end.world.rows[id].status ==
           if c.fetched.None? then (if c.failed.Applied() then Failed else w.rows[id].status)
           else if c.checked && (c.duplicate.None? ==> c.analyzed) && c.saved.Applied() then Completed
           else w.rows[id].status
  {
    if c.fetched.Some? && c.checked && (c.duplicate.None? ==> c.analyzed) {
      if c.saved.Applied() { SavedContent(env, caching, w, id, eventId, c); }
    }
  }

  // The status a request leaves: completed once results were stored, failed if the
  // fetch failed and that was recorded, and otherwise in progress, for good unless
  // the message is delivered again.
  lemma StatusAtExit(env: Env, caching: bool, w: World, id: Uuid, c: Calls)
    requires id in w.rows
    ensures var end := Handled(env, caching, w, id, c);
      && id in end.world.rows
      && end.world.rows[id].status ==
           if !Begins(w, c) || !c.started.Applied() then w.rows[id].status
           else if Saves(w, c) && c.saved.Applied() then Completed
           else if c.started.Done? && c.fetched.None? && c.failed.Applied() then Failed
           else InProgress
  {
    if Begins(w, c) && c.started.Done? {
      WorkedStatus(env, caching, AfterStart(caching, w, id, c), id, c.event.value, c);
    }
  }

  // No row, view or event but the request's own differs.
  ghost predicate SameElsewhere(w: World, w': World, id: Uuid, eventId: Option<O.EventId>) {
    && (forall other | other != id :: other in w.rows <==> other in w'.rows)
    && (forall other | other != id && other in w.rows :: w'.rows[other] == w.rows[other])
    && (forall other | other != id :: other in w.views <==> other in w'.views)
    && (forall other | other != id && other in w.views :: w'.views[other] == w.views[other])
    && w'.events.Keys == w.events.Keys
    && (forall e | e in w.events && eventId != Some(e) :: w'.events[e] == w.events[e])
  }

  lemma ElsewhereAgain(w: World, w': World, w'': World, id: Uuid, eventId: Option<O.EventId>)
    requires SameElsewhere(w, w', id, eventId) && SameElsewhere(w', w'', id, eventId)
    ensures SameElsewhere(w, w'', id, eventId)
  {
  }

  lemma SavedElsewhere(caching: bool, w: World, id: Uuid, content: Content, c: Calls, eventId: O.EventId)
    ensures SameElsewhere(w, Saved(caching, w, id, content, c), id, Some(eventId))
  {
  }

  lemma WorkedElsewhere(env: Env, caching: bool, w: World, id: Uuid, eventId: O.EventId, c: Calls)
    requires eventId in w.events
    ensures SameElsewhere(w, Worked(env, caching, w, id, eventId, c).world, id, Some(eventId))
  {
    if c.fetched.Some? && c.checked && (c.duplicate.None? ==> c.analyzed) {
      var hash, content := env.hash(c.fetched.value.page.html), NewContent(env, w.rows, c.fetched.value, c);
      var saved := Saved(caching, w, id, content, c);
      SavedElsewhere(caching, w, id, content, c, eventId);
      ClosedElsewhere(caching, saved, id, eventId, hash, c);
      ElsewhereAgain(w, saved, Closed(caching, saved, id, eventId, hash, c).world, id, Some(eventId));
    }
  }

  lemma ClosedElsewhere(caching: bool, w: World, id: Uuid, eventId: O.EventId, hash: string, c: Calls)
    requires eventId in w.events
    ensures SameElsewhere(w, Closed(caching, w, id, eventId, hash, c).world, id, Some(eventId))
  {
  }

  lemma OnlyItsOwn(env: Env, caching: bool, w: World, id: Uuid, c: Calls)
    ensures SameElsewhere(w, Handled(env, caching, w, id, c).world, id, c.event)
  {
    if Begins(w, c) && c.started.Done? {
      var begun := AfterStart(caching, w, id, c);
      assert SameElsewhere(w, begun, id, c.event);
      WorkedElsewhere(env, caching, begun, id, c.event.value, c);
    }
  }
}
