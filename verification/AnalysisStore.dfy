// The repository over the analysis table and the cache in front of it, as objects
// whose methods change them in place. Every update has only "WHERE id" and does
// not look at the number of rows it changed.
module AnalysisStore {
  import opened Prelude
  import opened AnalysisTable

  type Rows = map<Uuid, Row>

  function StatusTable(rows: Rows, id: Uuid, status: AnalysisStatus): Rows {
    if id in rows then rows[id := StatusRow(rows[id], status)] else rows
  }

  function ContentTable(rows: Rows, id: Uuid, content: Content, now: Time): Rows {
    if id in rows then rows[id := ContentRow(rows[id], content, now)] else rows
  }

  function DurationTable(rows: Rows, id: Uuid, durationMs: int, now: Time): Rows {
    if id in rows then rows[id := DurationRow(rows[id], durationMs, now)] else rows
  }

  function ErrorTable(rows: Rows, id: Uuid, error: string, now: Time): Rows {
    if id in rows then rows[id := ErrorRow(rows[id], error, now)] else rows
  }

  // What FindByContentHash may answer: the match completed last, if there is one.
  ghost predicate Answers(rows: Rows, hash: string, answer: Option<Uuid>) {
    match answer
    case None =>
      forall id | id in rows :: !Matches(rows[id], hash)
    case Some(source) =>
      && source in rows && Matches(rows[source], hash)
      && forall id | id in rows && Matches(rows[id], hash) :: !CompletedLater(rows[id], rows[source])
  }

  predicate CompletedLater(a: Row, b: Row) {
    a.completedAt.Some? && b.completedAt.Some? && a.completedAt.value > b.completedAt.value
  }

  class AnalysisRepository {
    var rows: Rows

    constructor ()
      ensures rows == map[]
    {
      rows := map[];
    }

    method Find(id: Uuid, ok: bool) returns (found: Option<Row>)
      ensures found == if ok && id in rows then Some(rows[id]) else None
    {
      found := if ok && id in rows then Some(rows[id]) else None;
    }

    method FindByContentHash(hash: string, answer: Option<Uuid>) returns (found: Option<Row>)
      requires Answers(rows, hash, answer)
      ensures found.Some? <==> exists id :: id in rows && Matches(rows[id], hash)
      ensures found.Some? ==> answer.Some? && found.value == rows[answer.value]
      // A completed row with that hash, none of which was completed later.
      ensures found.Some? ==>
        && found.value.status == Completed && found.value.content.Some?
        && found.value.content.value.hash == hash
      ensures found.Some? ==> forall id | id in rows && Matches(rows[id], hash) ::
        found.value.completedAt.None? || rows[id].completedAt.None?
            || rows[id].completedAt.value <= found.value.completedAt.value
      ensures found.None? ==> forall id | id in rows && rows[id].content.Some?
        && rows[id].content.value.hash == hash :: rows[id].status != Completed
    {
      found := if answer.Some? then Some(rows[answer.value]) else None;
    }

    method UpdateStatus(id: Uuid, status: AnalysisStatus, outcome: Outcome) returns (ok: bool)
      modifies this
      ensures ok == outcome.Done?
      ensures rows == if outcome.Applied() then StatusTable(old(rows), id, status) else old(rows)
      ensures outcome.Applied() && id in old(rows) ==> var row := old(rows)[id];
        && id in rows
        && rows[id] == Row(row.url, row.createdAt, status, row.content, row.completedAt, row.duration, row.error,
             row.lockVersion + 1)
    {
      if outcome.Applied() && id in rows {
        rows := rows[id := rows[id].(status := status, lockVersion := rows[id].lockVersion + 1)];
      }
      ok := outcome.Done?;
    }

    method Update(id: Uuid, content: Content, now: Time, outcome: Outcome) returns (ok: bool)
      modifies this
      ensures ok == outcome.Done?
      ensures rows == if outcome.Applied() then ContentTable(old(rows), id, content, now) else old(rows)
      ensures outcome.Applied() && id in old(rows) ==> var row := old(rows)[id];
        && id in rows
        && rows[id] == Row(row.url, row.createdAt, Completed, Some(content), Some(now), row.duration, row.error,
             row.lockVersion + 1)
    {
      if outcome.Applied() && id in rows {
        rows := rows[id := rows[id].(
          content := Some(content),
          status := Completed,
          completedAt := Some(now),
          lockVersion := rows[id].lockVersion + 1)];
      }
      ok := outcome.Done?;
    }

    method UpdateCompletionDuration(id: Uuid, durationMs: int, now: Time, outcome: Outcome) returns (ok: bool)
      modifies this
      ensures ok == outcome.Done?
      ensures rows == if outcome.Applied() then DurationTable(old(rows), id, durationMs, now) else old(rows)
      ensures outcome.Applied() && id in old(rows) ==> var row := old(rows)[id];
        && id in rows
        && rows[id] == Row(row.url, row.createdAt, row.status, row.content, Some(now), Some(durationMs), row.error,
             row.lockVersion + 1)
    {
      if outcome.Applied() && id in rows {
        rows := rows[id := rows[id].(
          duration := Some(durationMs),
          completedAt := Some(now),
          lockVersion := rows[id].lockVersion + 1)];
      }
      ok := outcome.Done?;
    }

    method MarkFailed(id: Uuid, error: string, now: Time, outcome: Outcome) returns (ok: bool)
      modifies this
      ensures ok == outcome.Done?
      ensures rows == if outcome.Applied() then ErrorTable(old(rows), id, error, now) else old(rows)
      ensures outcome.Applied() && id in old(rows) ==> var row := old(rows)[id];
        && id in rows
        && rows[id] == Row(row.url, row.createdAt, Failed, row.content, Some(now), row.duration, Some(error),
             row.lockVersion + 1)
    {
      if outcome.Applied() && id in rows {
        rows := rows[id := rows[id].(
          status := Failed,
          error := Some(error),
          completedAt := Some(now),
          lockVersion := rows[id].lockVersion + 1)];
      }
      ok := outcome.Done?;
    }
  }

  // The cache. Callers only log its errors, so all that matters of a call is
  // whether it took effect.
  class CacheRepository {
    var views: map<Uuid, View>

    constructor ()
      ensures views == map[]
    {
      views := map[];
    }

    method Find(id: Uuid, ok: bool) returns (found: Option<View>)
      ensures found == if ok && id in views then Some(views[id]) else None
    {
      found := if ok && id in views then Some(views[id]) else None;
    }

    method Set(id: Uuid, view: View, stored: bool)
      modifies this
      ensures views == if stored then old(views)[id := view] else old(views)
    {
      if stored {
        views := views[id := view];
      }
    }

    method Delete(id: Uuid, deleted: bool)
      modifies this
      ensures views == if deleted then old(views) - {id} else old(views)
    {
      if deleted {
        views := views - {id};
      }
    }
  }
}
