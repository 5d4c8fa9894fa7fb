// StartAnalysis as one caller runs it: two inserts in one transaction, and then
// the cache. Run alone it is one transaction's path through Allocation.
module StartAnalysis {
  import opened Prelude
  import opened OutboxTable
  import opened Allocation
  import opened AnalysisStore
  import AnalysisTable
  import Decimal
  import Urls

  // How the calls of one StartAnalysis end.
  datatype Calls = Calls(
    begun: bool,
    version: Option<int>,                                // SELECT MAX, None if it fails
    rowInserted: bool,
    createdAt: Time,
    eventInserted: bool,
    committed: Outcome,
    stored: bool)                                        // cache Set

  class Database {
    var analyses: map<Uuid, Saved>
    var events: map<Uuid, OutboxRow>

    constructor ()
      ensures analyses == map[] && events == map[]
    {
      analyses, events := map[], map[];
    }
  }

  predicate Taken(analyses: map<Uuid, Saved>, id: Uuid, row: Saved) {
    exists other :: other in analyses && Clash(id, row, other, analyses[other])
  }

  function NewSaved(env: Env, url: string, options: AnalysisOptions, c: Calls): Saved
    requires env.normalize(url).Some? && c.version.Some?
  {
    Saved(url, env.normalize(url).value, c.version.value, c.createdAt, options)
  }

  // The transaction gets as far as its commit.
  predicate Commits(env: Env, analyses: map<Uuid, Saved>, events: map<Uuid, OutboxRow>, url: string,
      options: AnalysisOptions, c: Calls) {
    && c.begun && env.normalize(url).Some? && c.version.Some? && c.rowInserted && c.eventInserted
    && var row := NewSaved(env, url, options, c);
    && var id := AnalysisId(row.normalized, row.version);
    && !Taken(analyses, id, row)
    && EventIdFor(env, id, row.createdAt) !in events
  }

  function Started(env: Env, analyses: map<Uuid, Saved>, events: map<Uuid, OutboxRow>, url: string,
      options: AnalysisOptions, c: Calls)
    : (map<Uuid, Saved>, map<Uuid, OutboxRow>)
  {
    if !Commits(env, analyses, events, url, options, c) then (analyses, events)
    else
      var row := NewSaved(env, url, options, c);
      var id := AnalysisId(row.normalized, row.version);
      (analyses[id := row], events[EventIdFor(env, id, row.createdAt) := EventRow(env, id, row)])
  }

  // What the cache is given: the row as it was inserted.
  function NewView(url: string, createdAt: Time): AnalysisTable.View {
    AnalysisTable.ViewOf(AnalysisTable.RequestedRow(url, createdAt))
  }

  class Service {
    const db: Database
    const cache: CacheRepository
    const env: Env

    constructor (db: Database, cache: CacheRepository, env: Env)
      ensures this.db == db && this.cache == cache && this.env == env
    {
      this.db, this.cache, this.env := db, cache, env;
    }

    method Run(url: string, options: AnalysisOptions, c: Calls) returns (id: Option<Uuid>)
      requires c.version.Some? ==> NextVersion(db.analyses, url, c.version.value)
      modifies db, cache
      ensures (db.analyses, db.events) == if c.committed.Applied()
        then Started(env, old(db.analyses), old(db.events), url, options, c) else (old(db.analyses), old(db.events))
      ensures id.Some? <==> Commits(env, old(db.analyses), old(db.events), url, options, c) && c.committed.Done?
      ensures cache.views == if id.Some? && c.stored then old(cache.views)[id.value := NewView(url, c.createdAt)]
        else old(cache.views)
      // What was asked for is what is stored, queued and cached.
      ensures id.Some? ==> c.version.Some? && id.value in db.analyses && var row := db.analyses[id.value];
        && row.url == url && row.options == options && row.createdAt == c.createdAt
        && Some(row.normalized) == env.normalize(url) && row.version == c.version.value
        && id.value == V5(AnalysisNamespace, row.normalized + "::v" + Decimal.Print(row.version))
        && exists e :: e in db.events && e !in old(db.events) && Asks(env, id.value, row, db.events[e])
      ensures id.Some? && c.stored ==> id.value in cache.views && var view := cache.views[id.value];
        && view.url == url && view.createdAt == c.createdAt && view.status == AnalysisTable.Requested
        && view.content == None && view.completedAt == None && view.duration == None && view.error == None
    {
      if !c.begun || env.normalize(url).None? || c.version.None? {
        return None;
      }
      var row := Saved(url, env.normalize(url).value, c.version.value, c.createdAt, options);
      var analysisId := AnalysisId(row.normalized, row.version);
      if !c.rowInserted || Taken(db.analyses, analysisId, row) {
        return None;
      }
      var event := EventRow(env, analysisId, row);
      var eventId := EventIdFor(env, analysisId, row.createdAt);
      if !c.eventInserted || eventId in db.events {
        return None;
      }
      if c.committed.Applied() {
        db.analyses := db.analyses[analysisId := row];
        db.events := db.events[eventId := event];
        assert eventId in db.events && Asks(env, analysisId, row, db.events[eventId]);
      }
      if !c.committed.Done? {
        return None;
      }
      cache.Set(analysisId, NewView(url, c.createdAt), c.stored);
      return Some(analysisId);
    }
  }

  // The state with t the only transaction.
  function With(s: State, t: Tx, x: Transaction): State {
    s.(txs := map[t := x])
  }

  lemma InsertsAreSteps(env: Env, s: State, t: Tx, url: string, options: AnalysisOptions, c: Calls)
    requires Commits(env, s.analyses, s.events, url, options, c)
    ensures var row := NewSaved(env, url, options, c);
      var id := AnalysisId(row.normalized, row.version);
      var eventId, event := EventIdFor(env, id, row.createdAt), EventRow(env, id, row);
      && InsertRow(With(s, t, Versioned(url, row.normalized, options, row.version)), With(s, t, RowInserted(id, row)),
          t, c.createdAt)
      && InsertEvent(env, With(s, t, RowInserted(id, row)), With(s, t, BothInserted(id, row, eventId, event)), t)
  {
    var row := NewSaved(env, url, options, c);
    var id := AnalysisId(row.normalized, row.version);
    assert forall other | other in s.analyses :: !Clash(id, row, other, s.analyses[other]);
  }

  lemma CommitIsStep(s: State, t: Tx, id: Uuid, row: Saved, eventId: Uuid, event: OutboxRow)
    ensures Commit(With(s, t, BothInserted(id, row, eventId, event)),
                   State(s.analyses[id := row], s.events[eventId := event], map[]), t)
  {
    assert map[t := BothInserted(id, row, eventId, event)] - {t} == map[];
  }

  // Alone, a transaction that gets as far as its commit is five steps of
  // Allocation from any state in which nothing else runs.
  lemma StartIsRun(env: Env, s: State, t: Tx, url: string, options: AnalysisOptions, c: Calls)
    returns (states: seq<State>)
    requires s.txs == map[] && c.version.Some? && NextVersion(s.analyses, url, c.version.value)
    requires Commits(env, s.analyses, s.events, url, options, c)
    ensures |states| == 6 && states[0] == s
    ensures Begin(env, states[0], states[1], t, url, options)
    ensures ReadVersion(states[1], states[2], t, c.version.value)
    ensures InsertRow(states[2], states[3], t, c.createdAt)
    ensures InsertEvent(env, states[3], states[4], t)
    ensures Commit(states[4], states[5], t)
    ensures (states[5].analyses, states[5].events) == Started(env, s.analyses, s.events, url, options, c)
      && states[5].txs == map[]
  {
    var row := NewSaved(env, url, options, c);
    var id := AnalysisId(row.normalized, row.version);
    var eventId, event := EventIdFor(env, id, row.createdAt), EventRow(env, id, row);
    var s1 := With(s, t, Begun(url, row.normalized, options));
    var s2 := With(s, t, Versioned(url, row.normalized, options, row.version));
    var s3 := With(s, t, RowInserted(id, row));
    var s4 := With(s, t, BothInserted(id, row, eventId, event));
    InsertsAreSteps(env, s, t, url, options, c);
    CommitIsStep(s, t, id, row, eventId, event);
    states := [s, s1, s2, s3, s4, State(s.analyses[id := row], s.events[eventId := event], map[])];
  }

  // In a state of a run, with no other transaction open and no call failing, a
  // request gets as far as its commit if and only if every row of the URL's normal
  // form was stored under the same spelling.
  lemma OnlySpellingMatters(env: Env, r: Run, i: nat, url: string, options: AnalysisOptions, c: Calls)
    requires Sound(env) && FromInit(env, r) && i < |r.states| && r.states[i].txs == map[]
    requires c.begun && c.rowInserted && c.eventInserted && env.normalize(url).Some?
    requires c.version.Some? && NextVersion(r.states[i].analyses, url, c.version.value)
    ensures Commits(env, r.states[i].analyses, r.states[i].events, url, options, c)
      <==> SameSpelling(env, r.states[i].analyses, url)
  {
    var s := r.states[i];
    var row := NewSaved(env, url, options, c);
    RunInv(env, r, i);
    VersionsGapFree(env, r, i, url, row.normalized);
    NextFollows(env, s.analyses, url, c.version.value);
    TakenExactlyWhen(env, s.analyses, Versioned(url, row.normalized, options, row.version), c.createdAt);
    if !Taken(s.analyses, AnalysisId(row.normalized, row.version), row) {
      EventIsNew(env, s, AnalysisId(row.normalized, row.version), c.createdAt);
    }
  }

  lemma TakenExactlyWhen(env: Env, analyses: map<Uuid, Saved>, x: Transaction, createdAt: Time)
    requires x.Versioned? && TxOk(env, analyses, x) && x.version == |RowsOfUrl(analyses, x.url)| + 1
    requires forall id | id in analyses :: RowOk(env, analyses, id, analyses[id])
    requires GapFree(analyses, x.url, x.normalized)
    ensures !Taken(analyses, AnalysisId(x.normalized, x.version), RowOf(x, createdAt))
      <==> SameSpelling(env, analyses, x.url)
  {
    var id := AnalysisId(x.normalized, x.version);
    assert forall other | other in analyses ::
      Clash(id, RowOf(x, createdAt), other, analyses[other]) == Clash(id, RowOf(x, 0), other, analyses[other]);
    assert StillNext(analyses, x) <==> SameSpelling(env, analyses, x.url);
    if SameSpelling(env, analyses, x.url) {
      NextKeyIsFree(env, analyses, x);
    } else if KeyFree(analyses, x) {
      FreeKeyIsNext(env, analyses, x);
    }
  }

  predicate SameSpelling(env: Env, analyses: map<Uuid, Saved>, url: string) {
    forall id | id in analyses && Some(analyses[id].normalized) == env.normalize(url) :: analyses[id].url == url
  }

  // The version that was read is one more than the number of rows.
  lemma NextFollows(env: Env, analyses: map<Uuid, Saved>, url: string, v: int)
    requires env.normalize(url).Some? && NextVersion(analyses, url, v)
    requires forall id | id in analyses :: RowOk(env, analyses, id, analyses[id])
    requires GapFree(analyses, url, env.normalize(url).value)
    ensures Follows(env, analyses, url, env.normalize(url).value, v) && v == |RowsOfUrl(analyses, url)| + 1
  {
    var normalized, n := env.normalize(url).value, |RowsOfUrl(analyses, url)|;
    assert Committed(analyses, url, normalized, n) <==> 1 <= n;
    if v > 1 {
      var id :| id in analyses && analyses[id].url == url && analyses[id].version == v - 1;
      assert RowOk(env, analyses, id, analyses[id]);
      assert Committed(analyses, url, normalized, v - 1);
    }
    assert 1 <= v;
    assert !Committed(analyses, url, normalized, v);
  }

  /******* A second spelling *******/

  // NewNormalizedURL on a raw URL, given how URLs are parsed and printed.
  function Normalizer(parse: string -> Option<Urls.Url>, show: Urls.Url -> string): string -> Option<string> {
    raw => if parse(raw).None? then None else Some(show(Urls.Normalized(parse(raw).value)))
  }

  // The same address, once bare and once with an explicit port, a slash and a
  // fragment.
  predicate TwoSpellings(parse: string -> Option<Urls.Url>, scheme: string, host: string, a: string, b: string) {
    && (scheme == "http" || scheme == "https") && !Urls.HasDefaultPort(scheme, Urls.Lower(host))
    && parse(a) == Some(Urls.Url(scheme, "", host, "", "", ""))
    && parse(b) == Some(Urls.Url(scheme, "", host + Urls.DefaultPort(scheme), "/", "", "top"))
  }

  lemma OneNormalForm(parse: string -> Option<Urls.Url>, show: Urls.Url -> string, scheme: string, host: string,
      a: string, b: string)
    requires TwoSpellings(parse, scheme, host, a, b)
    ensures Normalizer(parse, show)(a).Some? && Normalizer(parse, show)(a) == Normalizer(parse, show)(b)
  {
    Urls.SpellingsAgree(scheme, "", host, "", "top");
  }

  predicate NoCallFails(c: Calls) {
    c.begun && c.version.Some? && c.rowInserted && c.eventInserted && c.committed.Done?
  }

  lemma FirstRun(env: Env, a: string, options: AnalysisOptions) returns (r: Run)
    requires env.normalize(a).Some?
    ensures FromInit(env, r) && |r.states| == 6
    ensures r.states[5].txs == map[]
    ensures exists id ::
      id in r.states[5].analyses && r.states[5].analyses[id].url == a
          && Some(r.states[5].analyses[id].normalized) == env.normalize(a)
  {
    var c := Calls(true, Some(1), true, 0, true, Done, false);
    var states := StartIsRun(env, INIT, 0, a, options, c);
    r := Run(states, [BeginStep(0, a, options), ReadVersionStep(0, 1), InsertRowStep(0, 0), InsertEventStep(0),
        CommitStep(0)]);
    var row := NewSaved(env, a, options, c);
    assert r.states[5].analyses[AnalysisId(row.normalized, row.version)] == row;
  }

  // Once an address was analysed under one spelling, a request for the other does
  // not commit, although no call fails.
  lemma SecondSpellingLockedOut(env: Env, parse: string -> Option<Urls.Url>, show: Urls.Url -> string,
                                scheme: string, host: string, a: string, b: string, options: AnalysisOptions)
    returns (r: Run)
    requires Sound(env) && env.normalize(a) == Normalizer(parse, show)(a)
      && env.normalize(b) == Normalizer(parse, show)(b)
    requires a != b && TwoSpellings(parse, scheme, host, a, b)
    ensures FromInit(env, r) && |r.states| == 6 && r.states[5].txs == map[]
    ensures exists id :: id in r.states[5].analyses && r.states[5].analyses[id].url == a
    ensures forall c | NoCallFails(c) && NextVersion(r.states[5].analyses, b, c.version.value) ::
      !Commits(env, r.states[5].analyses, r.states[5].events, b, options, c)
  {
    OneNormalForm(parse, show, scheme, host, a, b);
    r := FirstRun(env, a, options);
    assert !SameSpelling(env, r.states[5].analyses, b);
    forall c | NoCallFails(c) && NextVersion(r.states[5].analyses, b, c.version.value)
      ensures !Commits(env, r.states[5].analyses, r.states[5].events, b, options, c)
    {
      OnlySpellingMatters(env, r, 5, b, options, c);
    }
  }
}
