// The outbox event as the domain layer sees it: the same fields, but every
// transition is guarded. The repository's statements are not.
module OutboxDomain {
  import opened Prelude
  import opened OutboxTable

  /******* The guards *******/

  predicate CanPublish(row: OutboxRow) {
    row.status == Processing
  }

  predicate CanProcess(row: OutboxRow) {
    row.status == Published
  }

  predicate CanComplete(row: OutboxRow) {
    row.times.processedAt.Some?
  }

  predicate CanFail(row: OutboxRow) {
    row.retryCount < row.event.maxRetries
  }

  class OutboxEvent {
    var row: OutboxRow

    constructor (row: OutboxRow)
      ensures this.row == row
    {
      this.row := row;
    }

    predicate CanRetry()
      reads this
      ensures CanRetry() <==> CanFail(row)
    {
      row.retryCount < row.event.maxRetries
    }

    method MarkPublished(publishedAt: Time) returns (ok: bool)
      modifies this
      ensures ok <==> CanPublish(old(row))
      ensures row == if ok then PublishedRow(old(row), publishedAt) else old(row)
      ensures old(row).status == Processing ==> var was := old(row);
        row == OutboxRow(was.event, Published, was.retryCount, was.errorDetails, was.nextRetryAt,
            Timeline(was.times.startedAt, Some(publishedAt), was.times.processedAt, was.times.completedAt))
    {
      if row.status != Processing {
        return false;
      }
      row := row.(status := Published, times := row.times.(publishedAt := Some(publishedAt)));
      return true;
    }

    method MarkProcessed(processedAt: Time) returns (ok: bool)
      modifies this
      ensures ok <==> CanProcess(old(row))
      ensures row == if ok then ProcessedRow(old(row), processedAt) else old(row)
      ensures old(row).status == Published ==> var was := old(row);
        row == OutboxRow(was.event, was.status, was.retryCount, was.errorDetails, was.nextRetryAt,
            Timeline(was.times.startedAt, was.times.publishedAt, Some(processedAt), was.times.completedAt))
    {
      if row.status != Published {
        return false;
      }
      row := row.(times := row.times.(processedAt := Some(processedAt)));
      return true;
    }

    method MarkCompleted(completedAt: Time) returns (ok: bool)
      modifies this
      ensures ok <==> CanComplete(old(row))
      ensures row == if ok then CompletedRow(old(row), completedAt) else old(row)
      ensures old(row).times.processedAt.Some? ==> var was := old(row);
        row == OutboxRow(was.event, was.status, was.retryCount, was.errorDetails, was.nextRetryAt,
            Timeline(was.times.startedAt, was.times.publishedAt, was.times.processedAt, Some(completedAt)))
    {
      if row.times.processedAt == None {
        return false;
      }
      row := row.(times := row.times.(completedAt := Some(completedAt)));
      return true;
    }

    method MarkFailed(error: string, nextRetryAt: Time) returns (ok: bool)
      modifies this
      ensures ok <==> CanFail(old(row))
      ensures row == if ok then FailedRow(old(row), error, nextRetryAt) else old(row)
      ensures old(row).retryCount < old(row).event.maxRetries ==> var was := old(row);
        row == OutboxRow(was.event, Failed, was.retryCount + 1, Some(error), Some(nextRetryAt), was.times)
    {
      if row.retryCount >= row.event.maxRetries {
        return false;
      }
      row := row.(status := Failed, errorDetails := Some(error), nextRetryAt := Some(nextRetryAt));
      row := row.(retryCount := row.retryCount + 1);
      return true;
    }
  }
}
