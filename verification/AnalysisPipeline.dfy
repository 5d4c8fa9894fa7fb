// API requests, readers and any number of subscribers working on the analysis
// table and the cache at once. Each database statement, cache call and fetch is
// one atomic step; whoever acts may stop at any point, which also covers every
// call that fails without effect.
module AnalysisPipeline {
  import opened Prelude
  import opened AnalysisTable

  type Agent = nat

  datatype Role =
    | Caching(id: Uuid, view: View)                      // StartAnalysis, after its commit
    | Missed(id: Uuid)                                   // FetchAnalysis: not in the cache
    | Filling(id: Uuid, view: View)
    | Returned(id: Uuid, view: View)
    | Started(id: Uuid)                                  // ProcessAnalysisRequest, from here on
    | Invalidating(id: Uuid)
    | Fetching(id: Uuid)
    | Failing(id: Uuid)
    | Cleaning(id: Uuid)
    | Checking(id: Uuid, page: Page)
    | Analyzing(id: Uuid, page: Page)
    | Saving(id: Uuid, page: Page, content: Content)
    | Refreshing(id: Uuid)
    | Storing(id: Uuid, view: View)
    | Timing(id: Uuid)
    | Closing(id: Uuid)
  {
    predicate Subscribes() {
      !Caching? && !Missed? && !Filling? && !Returned?
    }
  }

  // A row with its history: the views of all its states since the commit, how
  // often its message was delivered, and to whom last.
  datatype Entry = Entry(row: Row, past: set<View>, deliveries: nat, worker: Option<Agent>)

  datatype State = State(
    entries: map<Uuid, Entry>,
    cache: map<Uuid, View>,
    produced: map<Content, Origin>,                      // history: what full analyses produced
    agents: map<Agent, Role>)

  const INIT: State := State(map[], map[], map[], map[])

  /******* Steps *******/

  function Rewritten(e: Entry, row: Row): Entry {
    e.(row := row, past := e.past + {ViewOf(row)})
  }

  predicate Acts(s: State, a: Agent) {
    a in s.agents && s.agents[a].id in s.entries
  }

  predicate OnlyAgents(s: State, s': State) {
    s'.entries == s.entries && s'.cache == s.cache && s'.produced == s.produced
  }

  predicate StartAnalysis(s: State, s': State, a: Agent, id: Uuid, url: string, createdAt: Time) {
    && a !in s.agents && id !in s.entries
    && var row := RequestedRow(url, createdAt);
    && s'.entries == s.entries[id := Entry(row, {ViewOf(row)}, 0, None)]
    && s'.agents == s.agents[a := Caching(id, ViewOf(row))]
    && s'.cache == s.cache && s'.produced == s.produced
  }

  predicate Read(s: State, s': State, a: Agent, id: Uuid, hit: bool) {
    && a !in s.agents
    && (hit ==> id in s.cache)
    && OnlyAgents(s, s')
    && s'.agents == s.agents[a := if hit then Returned(id, s.cache[id]) else Missed(id)]
  }

  predicate ReadRow(s: State, s': State, a: Agent) {
    && Acts(s, a) && s.agents[a].Missed?
    && OnlyAgents(s, s')
    && var id := s.agents[a].id;
    s'.agents == s.agents[a := Filling(id, ViewOf(s.entries[id].row))]
  }

  // cacheRepo.Set, by whoever has a view to store; a failure is only logged.
  predicate CacheSet(s: State, s': State, a: Agent, stored: bool) {
    && a in s.agents && (s.agents[a].Caching? || s.agents[a].Filling? || s.agents[a].Storing?)
    && s'.entries == s.entries && s'.produced == s.produced
    && var id, view := s.agents[a].id, s.agents[a].view;
    && s'.cache == (if stored then s.cache[id := view] else s.cache)
    && s'.agents == if s.agents[a].Filling? then s.agents[a := Returned(id, view)]
                    else if s.agents[a].Storing? then s.agents[a := Timing(id)]
                    else s.agents - {a}
  }

  // An entry expires.
  predicate Evict(s: State, s': State, id: Uuid) {
    s' == s.(cache := s.cache - {id})
  }

  predicate Deliver(s: State, s': State, a: Agent, id: Uuid) {
    && a !in s.agents && id in s.entries
    && var e := s.entries[id];
    && s'.entries == s.entries[id := e.(deliveries := e.deliveries + 1, worker := Some(a))]
    && s'.agents == s.agents[a := Started(id)]
    && s'.cache == s.cache && s'.produced == s.produced
  }

  // A statement of the subscriber on its row.
  predicate Writes(s: State, s': State, a: Agent, row: Row, next: Role)
    requires Acts(s, a)
  {
    && var id := s.agents[a].id;
    && s'.entries == s.entries[id := Rewritten(s.entries[id], row)]
    && s'.agents == s.agents[a := next]
    && s'.cache == s.cache && s'.produced == s.produced
  }

  predicate UpdateStatus(s: State, s': State, a: Agent) {
    && Acts(s, a) && s.agents[a].Started?
    && var id := s.agents[a].id;
    Writes(s, s', a, StatusRow(s.entries[id].row, InProgress), Invalidating(id))
  }

  // cacheRepo.Delete; a failure is only logged.
  predicate CacheDelete(s: State, s': State, a: Agent, deleted: bool) {
    && a in s.agents && (s.agents[a].Invalidating? || s.agents[a].Cleaning? || s.agents[a].Closing?)
    && s'.entries == s.entries && s'.produced == s.produced
    && var id := s.agents[a].id;
    && s'.cache == (if deleted then s.cache - {id} else s.cache)
    && s'.agents == if s.agents[a].Invalidating? then s.agents[a := Fetching(id)] else s.agents - {a}
  }

  predicate Fetch(s: State, s': State, a: Agent, page: Option<Page>) {
    && a in s.agents && s.agents[a].Fetching?
    && OnlyAgents(s, s')
    && var id := s.agents[a].id;
    s'.agents == s.agents[a := if page.Some? then Checking(id, page.value) else Failing(id)]
  }

  predicate MarkFailed(s: State, s': State, a: Agent, error: string, now: Time) {
    && Acts(s, a) && s.agents[a].Failing?
    && var id := s.agents[a].id;
    Writes(s, s', a, ErrorRow(s.entries[id].row, error, now), Cleaning(id))
  }

  // FindByContentHash and what checkDuplicateContent's caller does with the answer.
  predicate Check(env: Env, s: State, s': State, a: Agent, answer: Option<Uuid>) {
    && a in s.agents && s.agents[a].Checking?
    && OnlyAgents(s, s')
    && var Checking(id, page) := s.agents[a];
    && var hash := env.hash(page.html);
    match answer
    case None =>
      && (forall other | other in s.entries :: !Matches(s.entries[other].row, hash))
      && s'.agents == s.agents[a := Analyzing(id, page)]
    case Some(source) =>
      && source in s.entries && Matches(s.entries[source].row, hash)
      && var found := s.entries[source].row.content.value;
      && s'.agents == s.agents[a := Saving(id, page, Content(hash, found.size, found.results))]
  }

  predicate Analyze(env: Env, s: State, s': State, a: Agent, o: Origin) {
    && a in s.agents && s.agents[a].Analyzing?
    && o.page == s.agents[a].page
    && s'.entries == s.entries && s'.cache == s.cache
    && var Analyzing(id, page) := s.agents[a];
    && s'.produced == s.produced[ContentOf(env, o) := o]
    && s'.agents == s.agents[a := Saving(id, page, ContentOf(env, o))]
  }

  predicate Update(s: State, s': State, a: Agent, now: Time) {
    && Acts(s, a) && s.agents[a].Saving?
    && var Saving(id, _, content) := s.agents[a];
    Writes(s, s', a, ContentRow(s.entries[id].row, content, now), Refreshing(id))
  }

  // Find for the cache; without a cache, or if Find fails, the cache is not filled.
  predicate Refresh(s: State, s': State, a: Agent, found: bool) {
    && Acts(s, a) && s.agents[a].Refreshing?
    && OnlyAgents(s, s')
    && var id := s.agents[a].id;
    s'.agents == s.agents[a := if found then Storing(id, ViewOf(s.entries[id].row)) else Timing(id)]
  }

  predicate UpdateCompletionDuration(s: State, s': State, a: Agent, durationMs: int, now: Time) {
    && Acts(s, a) && s.agents[a].Timing?
    && var id := s.agents[a].id;
    Writes(s, s', a, DurationRow(s.entries[id].row, durationMs, now), Closing(id))
  }

  predicate Stop(s: State, s': State, a: Agent) {
    OnlyAgents(s, s') && s'.agents == s.agents - {a}
  }

  datatype Label =
    | StartStep(a: Agent, id: Uuid, url: string, createdAt: Time)
    | ReadStep(a: Agent, id: Uuid, hit: bool)
    | ReadRowStep(a: Agent)
    | CacheSetStep(a: Agent, stored: bool)
    | EvictStep(id: Uuid)
    | DeliverStep(a: Agent, id: Uuid)
    | UpdateStatusStep(a: Agent)
    | CacheDeleteStep(a: Agent, deleted: bool)
    | FetchStep(a: Agent, page: Option<Page>)
    | MarkFailedStep(a: Agent, error: string, now: Time)
    | CheckStep(a: Agent, answer: Option<Uuid>)
    | AnalyzeStep(a: Agent, o: Origin)
    | UpdateStep(a: Agent, now: Time)
    | RefreshStep(a: Agent, found: bool)
    | DurationStep(a: Agent, durationMs: int, now: Time)
    | StopStep(a: Agent)

  predicate Next(env: Env, s: State, s': State, l: Label) {
    match l
    case StartStep(a, id, url, createdAt) => StartAnalysis(s, s', a, id, url, createdAt)
    case ReadStep(a, id, hit) => Read(s, s', a, id, hit)
    case ReadRowStep(a) => ReadRow(s, s', a)
    case CacheSetStep(a, stored) => CacheSet(s, s', a, stored)
    case EvictStep(id) => Evict(s, s', id)
    case DeliverStep(a, id) => Deliver(s, s', a, id)
    case UpdateStatusStep(a) => UpdateStatus(s, s', a)
    case CacheDeleteStep(a, deleted) => CacheDelete(s, s', a, deleted)
    case FetchStep(a, page) => Fetch(s, s', a, page)
    case MarkFailedStep(a, error, now) => MarkFailed(s, s', a, error, now)
    case CheckStep(a, answer) => Check(env, s, s', a, answer)
    case AnalyzeStep(a, o) => Analyze(env, s, s', a, o)
    case UpdateStep(a, now) => Update(s, s', a, now)
    case RefreshStep(a, found) => Refresh(s, s', a, found)
    case DurationStep(a, durationMs, now) => UpdateCompletionDuration(s, s', a, durationMs, now)
    case StopStep(a) => Stop(s, s', a)
  }

  datatype Run = Run(states: seq<State>, labels: seq<Label>)

  ghost predicate Steps(env: Env, r: Run) {
    && |r.states| == |r.labels| + 1
    && forall i | 0 <= i < |r.labels| :: Next(env, r.states[i], r.states[i + 1], r.labels[i])
  }

  ghost predicate FromInit(env: Env, r: Run) {
    Steps(env, r) && r.states[0] == INIT
  }

  /******* The invariant *******/

  predicate EntryOk(produced: map<Content, Origin>, e: Entry) {
    && ViewOf(e.row) in e.past
    && (e.row.content.Some? ==> e.row.content.value in produced)
  }

  // A view is one that the row really had.
  predicate Authentic(entries: map<Uuid, Entry>, id: Uuid, view: View) {
    id in entries && view in entries[id].past
  }

  predicate RoleOk(env: Env, entries: map<Uuid, Entry>, produced: map<Content, Origin>, p: Role) {
    && (p.Caching? || p.Filling? || p.Returned? || p.Storing? ==> Authentic(entries, p.id, p.view))
    && (p.Saving? ==> p.content in produced && p.content.hash == env.hash(p.page.html))
    && (p.Subscribes() ==> p.id in entries)
  }

  ghost predicate Inv(env: Env, s: State) {
    && (forall id | id in s.entries :: EntryOk(s.produced, s.entries[id]))
    && (forall id | id in s.cache :: Authentic(s.entries, id, s.cache[id]))
    && (forall a | a in s.agents :: RoleOk(env, s.entries, s.produced, s.agents[a]))
    && (forall c | c in s.produced :: c == ContentOf(env, s.produced[c]))
  }

  // Histories only grow.
  ghost predicate Grows(s: State, s': State) {
    && (forall id | id in s.entries :: id in s'.entries && s.entries[id].past <= s'.entries[id].past)
    && (forall c | c in s.produced :: c in s'.produced)
  }

  lemma StepGrows(env: Env, s: State, s': State, l: Label)
    requires Next(env, s, s', l)
    ensures Grows(s, s')
  {
  }

  lemma EntriesKept(env: Env, s: State, s': State, l: Label)
    requires Inv(env, s) && Next(env, s, s', l)
    ensures forall id | id in s'.entries :: EntryOk(s'.produced, s'.entries[id])
  {
  }

  lemma CacheKept(env: Env, s: State, s': State, l: Label)
    requires Inv(env, s) && Next(env, s, s', l) && Grows(s, s')
    ensures forall id | id in s'.cache :: Authentic(s'.entries, id, s'.cache[id])
  {
  }

  lemma BystanderStep(env: Env, s: State, s': State, l: Label, b: Agent)
    requires Next(env, s, s', l) && b in s'.agents && (l.EvictStep? || l.a != b)
    ensures b in s.agents && s'.agents[b] == s.agents[b]
  {
  }

  // Steps that hand a view on, and all others.
  predicate ShowsView(l: Label) {
    l.StartStep? || l.ReadStep? || l.ReadRowStep? || l.CacheSetStep? || l.RefreshStep?
  }

  lemma ViewerRoleKept(env: Env, s: State, s': State, l: Label)
    requires Inv(env, s) && Next(env, s, s', l) && Grows(s, s') && ShowsView(l) && l.a in s'.agents
    ensures RoleOk(env, s'.entries, s'.produced, s'.agents[l.a])
  {
    assert l.a in s.agents ==> RoleOk(env, s.entries, s.produced, s.agents[l.a]);
  }

  lemma WorkerRoleKept(env: Env, s: State, s': State, l: Label)
    requires Inv(env, s) && Next(env, s, s', l) && Grows(s, s') && !ShowsView(l) && !l.EvictStep? && l.a in s'.agents
    ensures RoleOk(env, s'.entries, s'.produced, s'.agents[l.a])
  {
    assert l.a in s.agents ==> RoleOk(env, s.entries, s.produced, s.agents[l.a]);
  }

  lemma ActorRoleKept(env: Env, s: State, s': State, l: Label)
    requires Inv(env, s) && Next(env, s, s', l) && Grows(s, s') && !l.EvictStep? && l.a in s'.agents
    ensures RoleOk(env, s'.entries, s'.produced, s'.agents[l.a])
  {
    if ShowsView(l) { ViewerRoleKept(env, s, s', l); } else { WorkerRoleKept(env, s, s', l); }
  }

  lemma RolesKept(env: Env, s: State, s': State, l: Label)
    requires Inv(env, s) && Next(env, s, s', l) && Grows(s, s')
    ensures forall a | a in s'.agents :: RoleOk(env, s'.entries, s'.produced, s'.agents[a])
  {
    forall a | a in s'.agents
      ensures RoleOk(env, s'.entries, s'.produced, s'.agents[a])
    {
      if l.EvictStep? || l.a != a {
        BystanderStep(env, s, s', l, a);
        assert RoleOk(env, s.entries, s.produced, s.agents[a]);
      } else {
        ActorRoleKept(env, s, s', l);
      }
    }
  }

  lemma ProducedStep(env: Env, s: State, s': State, l: Label, c: Content)
    requires Next(env, s, s', l) && c in s'.produced
    ensures || (c in s.produced && s'.produced[c] == s.produced[c])
            || (l.AnalyzeStep? && c == ContentOf(env, l.o) && s'.produced[c] == l.o)
  {
  }

  lemma ProducedKept(env: Env, s: State, s': State, l: Label)
    requires Inv(env, s) && Next(env, s, s', l)
    ensures forall c | c in s'.produced :: c == ContentOf(env, s'.produced[c])
  {
    forall c | c in s'.produced
      ensures c == ContentOf(env, s'.produced[c])
    {
      ProducedStep(env, s, s', l, c);
    }
  }

  lemma InvKept(env: Env, s: State, s': State, l: Label)
    requires Inv(env, s) && Next(env, s, s', l)
    ensures Inv(env, s')
  {
    StepGrows(env, s, s', l);
    EntriesKept(env, s, s', l);
    CacheKept(env, s, s', l);
    RolesKept(env, s, s', l);
    ProducedKept(env, s, s', l);
  }

  lemma {:induction false} RunInv(env: Env, r: Run, i: nat)
    requires FromInit(env, r) && i < |r.states|
    ensures Inv(env, r.states[i])
    decreases i
  {
    if i > 0 {
      RunInv(env, r, i - 1);
      assert Next(env, r.states[i - 1], r.states[i], r.labels[i - 1]);
      InvKept(env, r.states[i - 1], r.states[i], r.labels[i - 1]);
    }
  }

  /******* Every value read was once true *******/

  predicate WasRow(s: State, id: Uuid, view: View) {
    id in s.entries && ViewOf(s.entries[id].row) == view
  }

  lemma PastStep(env: Env, s: State, s': State, l: Label, id: Uuid, view: View)
    requires Next(env, s, s', l) && Authentic(s'.entries, id, view)
    ensures Authentic(s.entries, id, view) || WasRow(s', id, view)
  {
  }

  // The history of a row is the history of the run.
  lemma {:induction false} PastIsReal(env: Env, r: Run, i: nat, id: Uuid, view: View) returns (j: nat)
    requires FromInit(env, r) && i < |r.states| && Authentic(r.states[i].entries, id, view)
    ensures j <= i && WasRow(r.states[j], id, view)
    decreases i
  {
    assert i > 0;
    assert Next(env, r.states[i - 1], r.states[i], r.labels[i - 1]);
    PastStep(env, r.states[i - 1], r.states[i], r.labels[i - 1], id, view);
    if Authentic(r.states[i - 1].entries, id, view) {
      j := PastIsReal(env, r, i - 1, id, view);
    } else {
      j := i;
    }
  }

  // Whatever readers, writers and invalidations interleave, a value in the cache
  // is the view of a state the row was in at some earlier point of the run.
  lemma CachedWasReal(env: Env, r: Run, i: nat, id: Uuid) returns (j: nat)
    requires FromInit(env, r) && i < |r.states| && id in r.states[i].cache
    ensures j <= i && WasRow(r.states[j], id, r.states[i].cache[id])
  {
    RunInv(env, r, i);
    j := PastIsReal(env, r, i, id, r.states[i].cache[id]);
  }

  // And so is every value FetchAnalysis returns.
  lemma ReturnedWasReal(env: Env, r: Run, i: nat, a: Agent) returns (j: nat)
    requires FromInit(env, r) && i < |r.states|
    requires a in r.states[i].agents && r.states[i].agents[a].Returned?
    ensures j <= i && WasRow(r.states[j], r.states[i].agents[a].id, r.states[i].agents[a].view)
  {
    RunInv(env, r, i);
    var p := r.states[i].agents[a];
    assert RoleOk(env, r.states[i].entries, r.states[i].produced, p);
    j := PastIsReal(env, r, i, p.id, p.view);
  }

  /******* Every stored result was produced by a full analysis *******/

  lemma {:induction false} ProducedIsReal(env: Env, r: Run, i: nat, c: Content) returns (j: nat)
    requires FromInit(env, r) && i < |r.states| && c in r.states[i].produced
    ensures j < i && r.labels[j].AnalyzeStep? && c == ContentOf(env, r.labels[j].o)
    decreases i
  {
    assert i > 0;
    assert Next(env, r.states[i - 1], r.states[i], r.labels[i - 1]);
    ProducedStep(env, r.states[i - 1], r.states[i], r.labels[i - 1], c);
    if c in r.states[i - 1].produced {
      j := ProducedIsReal(env, r, i - 1, c);
    } else {
      j := i - 1;
    }
  }

  // Hash, size and results of a row come together from one full analysis that
  // took place in the run, through however many copies.
  lemma ContentWasAnalyzed(env: Env, r: Run, i: nat, id: Uuid) returns (j: nat)
    requires FromInit(env, r) && i < |r.states|
    requires id in r.states[i].entries && r.states[i].entries[id].row.content.Some?
    ensures j < i && r.labels[j].AnalyzeStep?
      && Describes(env, r.labels[j].o, r.states[i].entries[id].row.content.value)
  {
    RunInv(env, r, i);
    var e := r.states[i].entries[id];
    assert EntryOk(r.states[i].produced, e);
    j := ProducedIsReal(env, r, i, e.row.content.value);
  }

  // Without hash collisions, what Update stores for a fetched page, copied or not,
  // agrees with a fresh analysis of that page: HTML version, title and size
  // always, headings exactly when the analysis it came from looked for them as
  // this request does, or the page has none.
  lemma StoredMatchesPage(env: Env, r: Run, i: nat, anew: Origin) returns (j: nat)
    requires CollisionFree(env.hash) && FromInit(env, r) && i < |r.labels| && r.labels[i].UpdateStep?
    requires r.labels[i].a in r.states[i].agents && r.states[i].agents[r.labels[i].a].Saving?
    requires anew.page == r.states[i].agents[r.labels[i].a].page
    ensures j < i && r.labels[j].AnalyzeStep?
    ensures var id := r.states[i].agents[r.labels[i].a].id;
      && id in r.states[i + 1].entries && r.states[i + 1].entries[id].row.content.Some?
      && var stored, expected, source := r.states[i + 1].entries[id].row.content.value, ContentOf(env, anew),
          r.labels[j].o;
      && Describes(env, source, stored) && Describes(env, anew, expected) && source.page.html == anew.page.html
      && stored.hash == expected.hash && stored.size == expected.size
      && stored.results.htmlVersion == expected.results.htmlVersion && stored.results.title == expected.results.title
      && (stored.results.headings == expected.results.headings <==>
            || source.page.options.includeHeadings == anew.page.options.includeHeadings
            || env.headings(anew.page.html) == NO_HEADINGS)
  {
    RunInv(env, r, i);
    var p := r.states[i].agents[r.labels[i].a];
    assert RoleOk(env, r.states[i].entries, r.states[i].produced, p);
    j := ProducedIsReal(env, r, i, p.content);
    assert Next(env, r.states[i], r.states[i + 1], r.labels[i]);
  }

  /******* A status moves forward only *******/

  predicate Forward(x: AnalysisStatus, y: AnalysisStatus) {
    x == y || (x == Requested && y == InProgress) || (x == InProgress && (y == Completed || y == Failed))
  }

  function StatusAt(p: Role): AnalysisStatus
    requires p.Subscribes()
  {
    if p.Started? then Requested
    else if p.Cleaning? then Failed
    else if p.Refreshing? || p.Storing? || p.Timing? || p.Closing? then Completed
    else InProgress
  }

  // As long as a row's message was delivered once, one subscriber at most works
  // on it, and the status tells how far it has got.
  predicate SoleWorker(entries: map<Uuid, Entry>, a: Agent, p: Role) {
    p.Subscribes() && p.id in entries && entries[p.id].deliveries <= 1 ==>
      && entries[p.id].deliveries == 1
      && entries[p.id].worker == Some(a)
      && entries[p.id].row.status == StatusAt(p)
  }

  ghost predicate Orderly(s: State) {
    && (forall a | a in s.agents :: SoleWorker(s.entries, a, s.agents[a]))
    && (forall id | id in s.entries && s.entries[id].deliveries == 0 :: s.entries[id].row.status == Requested)
  }

  // What one statement of the subscriber a does to the row it works on.
  predicate Wrote(s: State, s': State, a: Agent, id: Uuid) {
    && id in s.entries && id in s'.entries && a in s.agents && a in s'.agents
    && var e, e', p, p' := s.entries[id], s'.entries[id], s.agents[a], s'.agents[a];
    && p.Subscribes() && p'.Subscribes() && p.id == id && p'.id == id
    && e'.deliveries == e.deliveries && e'.worker == e.worker
    && (e.row.status == StatusAt(p) ==> e'.row.status == StatusAt(p') && Forward(e.row.status, e'.row.status))
  }

  predicate Delivered(s: State, s': State, a: Agent, id: Uuid) {
    && id in s.entries && id in s'.entries && a !in s.agents && a in s'.agents
    && s'.entries[id] == s.entries[id].(deliveries := s.entries[id].deliveries + 1, worker := Some(a))
    && s'.agents[a] == Started(id)
  }

  predicate IsWrite(l: Label) {
    l.UpdateStatusStep? || l.MarkFailedStep? || l.UpdateStep? || l.DurationStep?
  }

  lemma WriteStep(env: Env, s: State, s': State, l: Label, id: Uuid)
    requires Next(env, s, s', l) && id in s.entries && IsWrite(l)
    ensures id in s'.entries && (s'.entries[id] == s.entries[id] || Wrote(s, s', l.a, id))
  {
  }

  lemma OtherStep(env: Env, s: State, s': State, l: Label, id: Uuid)
    requires Next(env, s, s', l) && id in s.entries && !IsWrite(l)
    ensures id in s'.entries
    ensures s'.entries[id] == s.entries[id] || (l.DeliverStep? && l.id == id && Delivered(s, s', l.a, id))
  {
  }

  lemma EntryStep(env: Env, s: State, s': State, l: Label, id: Uuid)
    requires Next(env, s, s', l) && id in s.entries
    ensures id in s'.entries
    ensures || s'.entries[id] == s.entries[id]
            || (l.DeliverStep? && l.id == id && Delivered(s, s', l.a, id))
            || (!l.EvictStep? && Wrote(s, s', l.a, id))
  {
    if IsWrite(l) { WriteStep(env, s, s', l, id); } else { OtherStep(env, s, s', l, id); }
  }

  lemma NewEntry(env: Env, s: State, s': State, l: Label, id: Uuid)
    requires Next(env, s, s', l) && id in s'.entries && id !in s.entries
    ensures s'.entries[id].deliveries == 0 && s'.entries[id].row.status == Requested
  {
  }

  // A subscriber that acts without writing to its row.
  lemma ActorStep(env: Env, s: State, s': State, l: Label)
    requires Next(env, s, s', l) && !l.EvictStep? && l.a in s'.agents && s'.agents[l.a].Subscribes()
    ensures var id := s'.agents[l.a].id;
      || (l.DeliverStep? && Delivered(s, s', l.a, id))
      || Wrote(s, s', l.a, id)
      || (&& s'.entries == s.entries && l.a in s.agents
          && s.agents[l.a].Subscribes() && s.agents[l.a].id == id
              && StatusAt(s.agents[l.a]) == StatusAt(s'.agents[l.a]))
  {
  }

  lemma RowMovesForward(env: Env, s: State, s': State, l: Label, id: Uuid)
    requires Orderly(s) && Next(env, s, s', l) && id in s.entries
    ensures id in s'.entries && s.entries[id].deliveries <= s'.entries[id].deliveries
    ensures s'.entries[id].deliveries <= 1 ==> Forward(s.entries[id].row.status, s'.entries[id].row.status)
    ensures s'.entries[id].deliveries == 0 ==> s'.entries[id].row.status == Requested
  {
    EntryStep(env, s, s', l, id);
    if s'.entries[id] != s.entries[id] && !l.EvictStep? && Wrote(s, s', l.a, id) {
      assert SoleWorker(s.entries, l.a, s.agents[l.a]);
    }
  }

  lemma BystanderKept(env: Env, s: State, s': State, l: Label, b: Agent)
    requires Inv(env, s) && Orderly(s) && Next(env, s, s', l) && b in s'.agents && (l.EvictStep? || l.a != b)
    ensures SoleWorker(s'.entries, b, s'.agents[b])
  {
    BystanderStep(env, s, s', l, b);
    var p := s.agents[b];
    if p.Subscribes() {
      assert RoleOk(env, s.entries, s.produced, p) && SoleWorker(s.entries, b, p);
      EntryStep(env, s, s', l, p.id);
      if !l.EvictStep? && Wrote(s, s', l.a, p.id) {
        assert SoleWorker(s.entries, l.a, s.agents[l.a]);
      }
    }
  }

  lemma ActorKept(env: Env, s: State, s': State, l: Label)
    requires Inv(env, s) && Orderly(s) && Next(env, s, s', l) && !l.EvictStep? && l.a in s'.agents
    ensures SoleWorker(s'.entries, l.a, s'.agents[l.a])
  {
    if s'.agents[l.a].Subscribes() {
      ActorStep(env, s, s', l);
      assert l.a in s.agents ==> SoleWorker(s.entries, l.a, s.agents[l.a]);
      assert l.a in s.agents ==> RoleOk(env, s.entries, s.produced, s.agents[l.a]);
    }
  }

  lemma OrderlyKept(env: Env, s: State, s': State, l: Label)
    requires Inv(env, s) && Orderly(s) && Next(env, s, s', l)
    ensures Orderly(s')
  {
    forall b | b in s'.agents
      ensures SoleWorker(s'.entries, b, s'.agents[b])
    {
      if l.EvictStep? || l.a != b { BystanderKept(env, s, s', l, b); } else { ActorKept(env, s, s', l); }
    }
    forall id | id in s'.entries && s'.entries[id].deliveries == 0
      ensures s'.entries[id].row.status == Requested
    {
      if id in s.entries { RowMovesForward(env, s, s', l, id); } else { NewEntry(env, s, s', l, id); }
    }
  }

  lemma {:induction false} RunOrderly(env: Env, r: Run, i: nat)
    requires FromInit(env, r) && i < |r.states|
    ensures Inv(env, r.states[i]) && Orderly(r.states[i])
    decreases i
  {
    RunInv(env, r, i);
    if i > 0 {
      RunOrderly(env, r, i - 1);
      assert Next(env, r.states[i - 1], r.states[i], r.labels[i - 1]);
      OrderlyKept(env, r.states[i - 1], r.states[i], r.labels[i - 1]);
    }
  }

  // requested, in progress, then completed or failed.
  function Stage(x: AnalysisStatus): nat {
    match x
    case Requested => 0
    case InProgress => 1
    case Completed => 2
    case Failed => 2
  }

  // Deliveries are only counted up, and until the second one the status moves forward.
  predicate Advances(x: map<Uuid, Entry>, y: map<Uuid, Entry>, id: Uuid) {
    id in x ==>
      && id in y && x[id].deliveries <= y[id].deliveries
      && (y[id].deliveries <= 1 ==>
            x[id].row.status == y[id].row.status || Stage(x[id].row.status) < Stage(y[id].row.status))
  }

  lemma AdvancesAt(env: Env, r: Run, i: nat, id: Uuid)
    requires FromInit(env, r) && i < |r.labels|
    ensures Advances(r.states[i].entries, r.states[i + 1].entries, id)
  {
    RunOrderly(env, r, i);
    assert Next(env, r.states[i], r.states[i + 1], r.labels[i]);
    if id in r.states[i].entries {
      RowMovesForward(env, r.states[i], r.states[i + 1], r.labels[i], id);
    }
  }

  lemma {:induction false} AdvancesFar(states: seq<State>, i: nat, j: nat, id: Uuid)
    requires i <= j < |states|
    requires forall k | 0 <= k < |states| - 1 :: Advances(states[k].entries, states[k + 1].entries, id)
    ensures Advances(states[i].entries, states[j].entries, id)
    decreases j
  {
    if i < j {
      AdvancesFar(states, i, j - 1, id);
      assert Advances(states[j - 1].entries, states[j - 1 + 1].entries, id);
    }
  }

  // If a row's message has been delivered at most once by j, then up to j its
  // status never went back, and once completed or failed it stayed so.
  lemma StatusMovesForward(env: Env, r: Run, i: nat, j: nat, id: Uuid)
    requires FromInit(env, r) && i <= j < |r.states| && id in r.states[i].entries
    ensures id in r.states[j].entries
    ensures r.states[j].entries[id].deliveries <= 1 ==>
      var x, y := r.states[i].entries[id].row.status, r.states[j].entries[id].row.status;
      x == y || Stage(x) < Stage(y)
  {
    forall k | 0 <= k < |r.states| - 1
      ensures Advances(r.states[k].entries, r.states[k + 1].entries, id)
    {
      AdvancesAt(env, r, k, id);
    }
    AdvancesFar(r.states, i, j, id);
  }

  // The bound on deliveries is needed: from any state whatever, one more delivery
  // takes a completed or failed row back to in progress in two steps.
  lemma RedeliveryGoesBack(env: Env, s: State, id: Uuid, a: Agent) returns (s1: State, s2: State)
    requires Inv(env, s) && Orderly(s) && id in s.entries && a !in s.agents
    requires s.entries[id].row.status == Completed || s.entries[id].row.status == Failed
    ensures Next(env, s, s1, DeliverStep(a, id)) && Next(env, s1, s2, UpdateStatusStep(a))
    ensures id in s2.entries && s2.entries[id].row.status == InProgress && s2.entries[id].deliveries >= 2
  {
    var e := s.entries[id];
    var e1 := e.(deliveries := e.deliveries + 1, worker := Some(a));
    s1 := s.(entries := s.entries[id := e1], agents := s.agents[a := Started(id)]);
    s2 := s1.(
      entries := s1.entries[id := Rewritten(e1, StatusRow(e1.row, InProgress))],
          agents := s1.agents[a := Invalidating(id)]);
  }
}
