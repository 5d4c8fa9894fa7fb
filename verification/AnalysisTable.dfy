// The analysis table: its rows, the statements run on them, and what the API and
// the cache show of a row.
module AnalysisTable {
  import opened Prelude
  import OutboxTable

  datatype AnalysisStatus = Requested | InProgress | Completed | Failed

  datatype Headings = Headings(h1: nat, h2: nat, h3: nat, h4: nat, h5: nat, h6: nat)

  const NO_HEADINGS := Headings(0, 0, 0, 0, 0, 0)

  // What the analyzer finds in a page; the list of external links is not part of
  // the JSON form.
  datatype PageLinks = PageLinks(internal: nat, external: seq<string>)

  datatype Links = Links(internal: nat, external: nat, inaccessible: seq<string>)

  datatype Forms = Forms(total: nat, login: nat)

  const NO_FORMS := Forms(0, 0)

  datatype AnalysisData = AnalysisData(
    htmlVersion: string, title: string, headings: Headings, links: Links, forms: Forms, fetchTime: nat,
        processingTime: nat)

  // content_hash, content_size and results: one statement writes all three.
  datatype Content = Content(hash: string, size: nat, results: AnalysisData)

  datatype Row = Row(
    url: string, createdAt: Time, status: AnalysisStatus, content: Option<Content>,
    completedAt: Option<Time>, duration: Option<int>, error: Option<string>, lockVersion: int)

  // An analysis as FetchAnalysis returns it and the cache stores it: lock_version
  // is not part of its JSON form.
  datatype View = View(
    url: string, createdAt: Time, status: AnalysisStatus, content: Option<Content>,
    completedAt: Option<Time>, duration: Option<int>, error: Option<string>)

  function ViewOf(row: Row): View {
    View(row.url, row.createdAt, row.status, row.content, row.completedAt, row.duration, row.error)
  }

  function RequestedRow(url: string, createdAt: Time): Row {
    Row(url, createdAt, Requested, None, None, None, None, 1)
  }

  // UpdateStatus
  function StatusRow(row: Row, status: AnalysisStatus): Row {
    row.(status := status, lockVersion := row.lockVersion + 1)
  }

  // Update
  function ContentRow(row: Row, content: Content, now: Time): Row {
    row.(status := Completed, content := Some(content), completedAt := Some(now), lockVersion := row.lockVersion + 1)
  }

  // UpdateCompletionDuration
  function DurationRow(row: Row, durationMs: int, now: Time): Row {
    row.(duration := Some(durationMs), completedAt := Some(now), lockVersion := row.lockVersion + 1)
  }

  // MarkFailed
  function ErrorRow(row: Row, error: string, now: Time): Row {
    row.(status := Failed, error := Some(error), completedAt := Some(now), lockVersion := row.lockVersion + 1)
  }

  // FindByContentHash: completed rows with that hash and results.
  predicate Matches(row: Row, hash: string) {
    row.status == Completed && row.content.Some? && row.content.value.hash == hash
  }

  /******* Analysing a page *******/

  datatype Page = Page(html: string, url: string, options: OutboxTable.AnalysisOptions)

  // The hash, and what the HTML library finds in a page.
  datatype Env = Env(
    hash: string -> string,
    htmlVersion: string -> string,
    title: string -> string,
    headings: string -> Headings,
    links: (string, string) -> PageLinks,
    forms: (string, string) -> Forms)

  // One run of performFullAnalysis: the page, and what its clocks and the link
  // checker contributed.
  datatype Origin = Origin(page: Page, inaccessible: seq<string>, fetchTime: nat, processingTime: nat)

  function FullAnalysis(env: Env, o: Origin): AnalysisData {
    var p := o.page;
    var links := env.links(p.html, p.url);
    AnalysisData(
      env.htmlVersion(p.html),
      env.title(p.html),
      if p.options.includeHeadings then env.headings(p.html) else NO_HEADINGS,
      Links(links.internal, |links.external|,
            if p.options.checkLinks && links.external != [] then o.inaccessible else []),
      if p.options.detectForms then env.forms(p.html, p.url) else NO_FORMS,
      o.fetchTime,
      o.processingTime)
  }

  function ContentOf(env: Env, o: Origin): Content {
    Content(env.hash(o.page.html), |o.page.html|, FullAnalysis(env, o))
  }

  // What one full analysis says of its page, field by field.
  predicate Describes(env: Env, o: Origin, content: Content) {
    var Page(html, url, options) := o.page;
    var AnalysisData(htmlVersion, title, headings, links, forms, fetchTime, processingTime) := content.results;
    && content.hash == env.hash(html) && content.size == |html|
    && htmlVersion == env.htmlVersion(html) && title == env.title(html)
    && (options.includeHeadings ==> headings == env.headings(html))
    && (!options.includeHeadings ==> headings == Headings(0, 0, 0, 0, 0, 0))
    && links.internal == env.links(html, url).internal && links.external == |env.links(html, url).external|
    && (options.checkLinks && links.external > 0 ==> links.inaccessible == o.inaccessible)
    && (!options.checkLinks || links.external == 0 ==> links.inaccessible == [])
    && (options.detectForms ==> forms == env.forms(html, url))
    && (!options.detectForms ==> forms == Forms(0, 0))
    && fetchTime == o.fetchTime && processingTime == o.processingTime
  }

  ghost predicate CollisionFree(hash: string -> string) {
    forall x, y :: hash(x) == hash(y) ==> x == y
  }
}
