// FetchAnalysis: the read-through cache.
module ApplicationService {
  import opened Prelude
  import opened AnalysisTable
  import opened AnalysisStore
  import P = AnalysisPipeline
  import opened SubscriberRefinement
  import S = SubscriberService

  // Which of the calls of one FetchAnalysis succeed.
  datatype Calls = Calls(cached: bool, found: bool, stored: bool)

  class Service {
    const analyses: AnalysisRepository
    const cache: CacheRepository

    constructor (analyses: AnalysisRepository, cache: CacheRepository)
      ensures this.analyses == analyses && this.cache == cache
    {
      this.analyses := analyses;
      this.cache := cache;
    }

    method FetchAnalysis(id: Uuid, c: Calls) returns (analysis: Option<View>)
      modifies cache
      ensures (analysis, cache.views) == Fetched(analyses.rows, old(cache.views), id, c)
      // From the cache, which is then left alone; or from the table, and then cached.
      ensures c.cached && id in old(cache.views) ==>
        analysis == Some(old(cache.views)[id]) && cache.views == old(cache.views)
      ensures !(c.cached && id in old(cache.views)) ==>
        && (analysis.Some? <==> c.found && id in analyses.rows)
        && (analysis.Some? ==> Shows(analysis.value, analyses.rows[id]))
        && (analysis.Some? && c.stored ==> id in cache.views && cache.views[id] == analysis.value)
        && (analysis.None? || !c.stored ==> cache.views == old(cache.views))
      ensures forall other | other != id :: other in cache.views <==> other in old(cache.views)
      ensures forall other | other != id && other in cache.views :: cache.views[other] == old(cache.views)[other]
    {
      analysis := cache.Find(id, c.cached);
      if analysis.Some? {
        return;
      }
      var row := analyses.Find(id, c.found);
      if row.None? {
        return None;
      }
      cache.Set(id, ViewOf(row.value), c.stored);
      return Some(ViewOf(row.value));
    }
  }

  // The fields of the row, but for its lock version.
  predicate Shows(view: View, row: Row) {
    && view.url == row.url && view.createdAt == row.createdAt && view.status == row.status
    && view.content == row.content && view.completedAt == row.completedAt
    && view.duration == row.duration && view.error == row.error
  }

  // What is returned, and the cache afterwards.
  function Fetched(rows: Rows, views: map<Uuid, View>, id: Uuid, c: Calls): (Option<View>, map<Uuid, View>) {
    if c.cached && id in views then (Some(views[id]), views)
    else if !c.found || id !in rows then (None, views)
    else (Some(ViewOf(rows[id])), if c.stored then views[id := ViewOf(rows[id])] else views)
  }

  // A fetch that nothing interleaves with keeps the cache coherent for every ID,
  // and returns the current row whenever the cache was coherent; after a miss the
  // cache has that row, if the call to store it succeeded.
  lemma FetchKeepsCoherent(w: S.World, id: Uuid, other: Uuid, c: Calls)
    requires S.Coherent(w, id) && S.Coherent(w, other)
    ensures var (analysis, views) := Fetched(w.rows, w.views, id, c);
      && S.Coherent(w.(views := views), other)
      && (analysis.Some? ==> id in w.rows && Shows(analysis.value, w.rows[id]))
      && (analysis.Some? && (c.stored || (c.cached && id in w.views)) ==> id in views && views[id] == analysis.value)
      && (analysis.None? <==> !(c.cached && id in w.views) && !(c.found && id in w.rows))
  {
  }

  // It is one reader's path through AnalysisPipeline.
  lemma FetchIsRun(env: Env, s: P.State, a: P.Agent, w: S.World, id: Uuid, c: Calls) returns (s': P.State)
    requires Agree(s, w) && a !in s.agents
    ensures var (analysis, views) := Fetched(w.rows, w.views, id, c);
      && Reaches(env, s, s') && Agree(s', w.(views := views))
      && (analysis.Some? ==> a in s'.agents && s'.agents[a] == P.Returned(id, analysis.value))
  {
    ReachesSelf(env, s);
    if c.cached && id in w.views {
      s' := s.(agents := s.agents[a := P.Returned(id, s.cache[id])]);
      ReachesNext(env, s, s, s', P.ReadStep(a, id, true));
    } else {
      var s1 := s.(agents := s.agents[a := P.Missed(id)]);
      ReachesNext(env, s, s, s1, P.ReadStep(a, id, false));
      s' := s1;
      if c.found && id in w.rows {
        var view := ViewOf(w.rows[id]);
        var s2 := s1.(agents := s1.agents[a := P.Filling(id, view)]);
        ReachesNext(env, s, s1, s2, P.ReadRowStep(a));
        s' := s2.(
          cache := if c.stored then s2.cache[id := view] else s2.cache,
          agents := s2.agents[a := P.Returned(id, view)]);
        ReachesNext(env, s, s2, s', P.CacheSetStep(a, c.stored));
      }
    }
  }
}
