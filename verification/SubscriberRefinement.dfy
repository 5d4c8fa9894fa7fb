// ProcessAnalysisRequest alone is one agent's path through AnalysisPipeline, so
// what holds over the runs of the pipeline holds of it too.
module SubscriberRefinement {
  import opened Prelude
  import opened AnalysisTable
  import opened AnalysisStore
  import opened AnalysisPipeline
  import opened SubscriberService

  ghost predicate Reaches(env: Env, s: State, s': State) {
    exists r: Run :: Steps(env, r) && r.states[0] == s && r.states[|r.labels|] == s'
  }

  lemma ReachesSelf(env: Env, s: State)
    ensures Reaches(env, s, s)
  {
    var r := Run([s], []);
    assert Steps(env, r) && r.states[|r.labels|] == s;
  }

  lemma ReachesNext(env: Env, s: State, s': State, s'': State, l: Label)
    requires Reaches(env, s, s') && Next(env, s', s'', l)
    ensures Reaches(env, s, s'')
  {
    var r :| Steps(env, r) && r.states[0] == s && r.states[|r.labels|] == s';
    var r' := Run(r.states + [s''], r.labels + [l]);
    forall i | 0 <= i < |r'.labels|
      ensures Next(env, r'.states[i], r'.states[i + 1], r'.labels[i])
    {
      if i < |r.labels| {
        assert r'.states[i] == r.states[i] && r'.states[i + 1] == r.states[i + 1];
      }
    }
    assert Steps(env, r') && r'.states[0] == s && r'.states[|r'.labels|] == s'';
  }

  // The two models show the same table and the same cache.
  ghost predicate Agree(s: State, w: World) {
    && s.cache == w.views
    && (forall id :: id in w.rows <==> id in s.entries)
    && (forall id | id in w.rows :: id in s.entries && w.rows[id] == s.entries[id].row)
  }

  function After(s: State, a: Agent, id: Uuid, row: Row, next: Role): State
    requires id in s.entries
  {
    s.(entries := s.entries[id := Rewritten(s.entries[id], row)], agents := s.agents[a := next])
  }

  ghost predicate At(s: State, a: Agent, p: Role) {
    p.id in s.entries && a in s.agents && s.agents[a] == p
  }

  lemma CloseRun(env: Env, caching: bool, s0: State, s: State, a: Agent, w: World, id: Uuid, eventId: Uuid,
      hash: string, c: Calls) returns (s': State)
    requires Reaches(env, s0, s) && Agree(s, w) && At(s, a, Timing(id))
    ensures Reaches(env, s0, s') && Agree(s', Closed(caching, w, id, eventId, hash, c).world)
  {
    s' := s;
    if c.timed.Applied() {
      s' := After(s, a, id, DurationRow(s.entries[id].row, c.durationMs, c.timedAt), Closing(id));
      ReachesNext(env, s0, s, s', DurationStep(a, c.durationMs, c.timedAt));
      if c.timed.Done? && c.completed.Done? {
        var deleted := caching && c.dropCompleted;
        var s1 := s';
        s' := s1.(cache := if deleted then s1.cache - {id} else s1.cache, agents := s1.agents - {a});
        ReachesNext(env, s0, s1, s', CacheDeleteStep(a, deleted));
      }
    }
  }

  lemma FillRun(env: Env, caching: bool, s0: State, s: State, a: Agent, w: World, id: Uuid, c: Calls)
    returns (s': State)
    requires Reaches(env, s0, s) && Agree(s, w) && At(s, a, Refreshing(id))
    ensures Reaches(env, s0, s') && At(s', a, Timing(id))
    ensures Agree(s', if caching && c.found && c.stored && id in w.rows
      then w.(views := w.views[id := ViewOf(w.rows[id])]) else w)
  {
    if caching && c.found {
      var view := ViewOf(s.entries[id].row);
      var s1 := s.(agents := s.agents[a := Storing(id, view)]);
      ReachesNext(env, s0, s, s1, RefreshStep(a, true));
      s' := s1.(cache := if c.stored then s1.cache[id := view] else s1.cache, agents := s1.agents[a := Timing(id)]);
      ReachesNext(env, s0, s1, s', CacheSetStep(a, c.stored));
    } else {
      s' := s.(agents := s.agents[a := Timing(id)]);
      ReachesNext(env, s0, s, s', RefreshStep(a, false));
    }
  }

  lemma SaveRun(env: Env, s0: State, s: State, a: Agent, w: World, id: Uuid, page: Page, content: Content, c: Calls)
    returns (s': State)
    requires Reaches(env, s0, s) && Agree(s, w) && At(s, a, Saving(id, page, content)) && c.saved.Applied()
    ensures Reaches(env, s0, s') && At(s', a, Refreshing(id))
    ensures Agree(s', w.(rows := ContentTable(w.rows, id, content, c.savedAt)))
  {
    s' := After(s, a, id, ContentRow(s.entries[id].row, content, c.savedAt), Refreshing(id));
    ReachesNext(env, s0, s, s', UpdateStep(a, c.savedAt));
  }

  lemma CheckRun(env: Env, s0: State, s: State, a: Agent, w: World, id: Uuid, c: Calls) returns (s': State)
    requires Reaches(env, s0, s) && Agree(s, w)
    requires c.fetched.Some? && At(s, a, Checking(id, c.fetched.value.page)) && (c.duplicate.None? ==> c.analyzed)
    requires Answers(w.rows, env.hash(c.fetched.value.page.html), c.duplicate)
    ensures Reaches(env, s0, s') && Agree(s', w)
    ensures At(s', a, Saving(id, c.fetched.value.page, NewContent(env, w.rows, c.fetched.value, c)))
  {
    var page := c.fetched.value.page;
    var content := NewContent(env, w.rows, c.fetched.value, c);
    if c.duplicate.Some? {
      s' := s.(agents := s.agents[a := Saving(id, page, content)]);
      ReachesNext(env, s0, s, s', CheckStep(a, c.duplicate));
    } else {
      var s1 := s.(agents := s.agents[a := Analyzing(id, page)]);
      ReachesNext(env, s0, s, s1, CheckStep(a, None));
      var o := OriginOf(c.fetched.value, c);
      s' := s1.(produced := s1.produced[ContentOf(env, o) := o], agents := s1.agents[a := Saving(id, page, content)]);
      ReachesNext(env, s0, s1, s', AnalyzeStep(a, o));
    }
  }

  lemma FailRun(env: Env, caching: bool, s0: State, s: State, a: Agent, w: World, id: Uuid, eventId: Uuid, c: Calls)
    returns (s': State)
    requires Reaches(env, s0, s) && Agree(s, w) && At(s, a, Fetching(id)) && c.fetched.None?
    ensures Reaches(env, s0, s') && Agree(s', Worked(env, caching, w, id, eventId, c).world)
  {
    var s1 := s.(agents := s.agents[a := Failing(id)]);
    ReachesNext(env, s0, s, s1, FetchStep(a, None));
    s' := s1;
    if c.failed.Applied() {
      var s2 := After(s1, a, id, ErrorRow(s.entries[id].row, c.error, c.failedAt), Cleaning(id));
      ReachesNext(env, s0, s1, s2, MarkFailedStep(a, c.error, c.failedAt));
      s' := s2;
      if c.failed.Done? {
        var deleted := caching && c.dropFailed;
        s' := s2.(cache := if deleted then s2.cache - {id} else s2.cache, agents := s2.agents - {a});
        ReachesNext(env, s0, s2, s', CacheDeleteStep(a, deleted));
      }
    }
  }

  lemma WorkRun(env: Env, caching: bool, s0: State, s: State, a: Agent, w: World, id: Uuid, eventId: Uuid, c: Calls)
    returns (s': State)
    requires Reaches(env, s0, s) && Agree(s, w) && At(s, a, Fetching(id))
    requires c.fetched.Some? && c.checked ==> Answers(w.rows, env.hash(c.fetched.value.page.html), c.duplicate)
    ensures Reaches(env, s0, s') && Agree(s', Worked(env, caching, w, id, eventId, c).world)
  {
    if c.fetched.None? {
      s' := FailRun(env, caching, s0, s, a, w, id, eventId, c);
    } else if !c.checked || (c.duplicate.None? && !c.analyzed) {
      s' := s;
    } else {
      var page := c.fetched.value.page;
      var s1 := s.(agents := s.agents[a := Checking(id, page)]);
      ReachesNext(env, s0, s, s1, FetchStep(a, Some(page)));
      var s2 := CheckRun(env, s0, s1, a, w, id, c);
      var content := NewContent(env, w.rows, c.fetched.value, c);
      if c.saved.Applied() {
        var s3 := SaveRun(env, s0, s2, a, w, id, page, content, c);
        var saved := w.(rows := ContentTable(w.rows, id, content, c.savedAt));
        if c.saved.Done? {
          var s4 := FillRun(env, caching, s0, s3, a, saved, id, c);
          s' := CloseRun(env, caching, s0, s4, a, Saved(caching, w, id, content, c), id, eventId, env.hash(page.html),
              c);
        } else {
          s' := s3;
        }
      } else {
        s' := s2;
      }
    }
  }

  // Whatever the calls of a request come to, the pipeline can take the agent that
  // got the message to exactly the table and cache the request leaves.
  lemma ProcessIsRun(env: Env, caching: bool, s: State, a: Agent, w: World, id: Uuid, c: Calls) returns (s': State)
    requires Agree(s, w) && At(s, a, Started(id)) && Truthful(env, w, id, c)
    ensures Reaches(env, s, s') && Agree(s', Handled(env, caching, w, id, c).world)
  {
    ReachesSelf(env, s);
    s' := s;
    if Begins(w, c) && c.started.Applied() {
      var s1 := After(s, a, id, StatusRow(s.entries[id].row, InProgress), Invalidating(id));
      ReachesNext(env, s, s, s1, UpdateStatusStep(a));
      s' := s1;
      if c.started.Done? {
        var deleted := caching && c.dropStarted;
        var s2 := s1.(cache := if deleted then s1.cache - {id} else s1.cache, agents := s1.agents[a := Fetching(id)]);
        ReachesNext(env, s, s1, s2, CacheDeleteStep(a, deleted));
        s' := WorkRun(env, caching, s, s2, a, AfterStart(caching, w, id, c), id, c.event.value, c);
      }
    }
  }

  /******* Copied headings *******/

  // A subscriber up to the check for duplicates; nobody else moves.
  function Begun(s: State, a: Agent, id: Uuid, page: Page): State
    requires id in s.entries
  {
    After(s, a, id, StatusRow(s.entries[id].row, InProgress), Checking(id, page))
  }

  lemma BeginRun(env: Env, s0: State, s: State, a: Agent, id: Uuid, page: Page)
    requires Reaches(env, s0, s) && At(s, a, Started(id))
    ensures Reaches(env, s0, Begun(s, a, id, page))
  {
    var s1 := After(s, a, id, StatusRow(s.entries[id].row, InProgress), Invalidating(id));
    ReachesNext(env, s0, s, s1, UpdateStatusStep(a));
    var s2 := s1.(agents := s1.agents[a := Fetching(id)]);
    ReachesNext(env, s0, s1, s2, CacheDeleteStep(a, false));
    var s3 := s2.(agents := s2.agents[a := Checking(id, page)]);
    ReachesNext(env, s0, s2, s3, FetchStep(a, Some(page)));
    assert s3 == Begun(s, a, id, page);
  }

  // Two analyses requested, and each message delivered once.
  lemma TwoRequests(env: Env, id1: Uuid, id2: Uuid) returns (s: State)
    requires id1 != id2
    ensures Reaches(env, INIT, s) && At(s, 2, Started(id1)) && At(s, 3, Started(id2))
    ensures forall id | id in s.entries :: (id == id1 || id == id2) && s.entries[id].row.status == Requested
  {
    var row := RequestedRow("", 0);
    var e := Entry(row, {ViewOf(row)}, 0, None);
    ReachesSelf(env, INIT);
    var s1 := INIT.(entries := map[id1 := e], agents := map[0 := Caching(id1, ViewOf(row))]);
    ReachesNext(env, INIT, INIT, s1, StartStep(0, id1, "", 0));
    var s2 := s1.(entries := s1.entries[id2 := e], agents := s1.agents[1 := Caching(id2, ViewOf(row))]);
    ReachesNext(env, INIT, s1, s2, StartStep(1, id2, "", 0));
    var s3 := s2.(entries := s2.entries[id1 := e.(deliveries := 1, worker := Some(2))],
        agents := s2.agents[2 := Started(id1)]);
    ReachesNext(env, INIT, s2, s3, DeliverStep(2, id1));
    s := s3.(entries := s3.entries[id2 := e.(deliveries := 1, worker := Some(3))],
        agents := s3.agents[3 := Started(id2)]);
    ReachesNext(env, INIT, s3, s, DeliverStep(3, id2));
  }

  // The first of them analysed in full and stored.
  lemma AnalyzeFirst(env: Env, s: State, id1: Uuid, id2: Uuid, o: Origin) returns (s': State)
    requires id1 != id2 && Reaches(env, INIT, s) && At(s, 2, Started(id1)) && At(s, 3, Started(id2))
    requires forall id | id in s.entries :: (id == id1 || id == id2) && s.entries[id].row.status == Requested
    ensures Reaches(env, INIT, s') && At(s', 3, Started(id2)) && id1 in s'.entries
    ensures s'.entries[id1].row.status == Completed && s'.entries[id1].row.content == Some(ContentOf(env, o))
  {
    BeginRun(env, INIT, s, 2, id1, o.page);
    var s1 := Begun(s, 2, id1, o.page);
    var s2 := s1.(agents := s1.agents[2 := Analyzing(id1, o.page)]);
    ReachesNext(env, INIT, s1, s2, CheckStep(2, None));
    var content := ContentOf(env, o);
    var s3 := s2.(produced := s2.produced[content := o], agents := s2.agents[2 := Saving(id1, o.page, content)]);
    ReachesNext(env, INIT, s2, s3, AnalyzeStep(2, o));
    s' := After(s3, 2, id1, ContentRow(s3.entries[id1].row, content, 1), Refreshing(id1));
    ReachesNext(env, INIT, s3, s', UpdateStep(2, 1));
  }

  // Two requests for the same content, the first without headings, the second with:
  // the pipeline can come to the point where the second is to be stored, and what is
  // stored then has no headings although the page has some.
  lemma CopiedHeadingsCanDiffer(env: Env, id1: Uuid, id2: Uuid, first: Origin, second: Origin)
    returns (s: State, s': State)
    requires id1 != id2 && first.page.html == second.page.html && env.headings(second.page.html) != NO_HEADINGS
    requires !first.page.options.includeHeadings && second.page.options.includeHeadings
    ensures Reaches(env, INIT, s) && Next(env, s, s', UpdateStep(3, 2))
    ensures 3 in s.agents && s.agents[3].Saving? && s.agents[3].id == id2 && s.agents[3].page == second.page
    ensures id2 in s'.entries && s'.entries[id2].row.content.Some?
    ensures s'.entries[id2].row.content.value.results.headings == NO_HEADINGS != ContentOf(env, second).results.headings
  {
    var s1 := TwoRequests(env, id1, id2);
    var s2 := AnalyzeFirst(env, s1, id1, id2, first);
    BeginRun(env, INIT, s2, 3, id2, second.page);
    var s3 := Begun(s2, 3, id2, second.page);
    var content := ContentOf(env, first);
    s := s3.(agents := s3.agents[3 := Saving(id2, second.page, content)]);
    assert s3.entries[id1] == s2.entries[id1];
    ReachesNext(env, INIT, s3, s, CheckStep(3, Some(id1)));
    s' := After(s, 3, id2, ContentRow(s.entries[id2].row, content, 2), Refreshing(id2));
  }
}
