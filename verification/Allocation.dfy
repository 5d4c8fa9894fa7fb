// Concurrent StartAnalysis transactions: each reads the next version of its URL,
// inserts an analysis row and an outbox event, and commits both or neither.
// Transactions run at READ COMMITTED: a read sees committed rows only, and an
// insert waits for a rival that holds the same key.
module Allocation {
  import opened Prelude
  import opened OutboxTable
  import opened Names
  import Decimal

  type Tx = nat

  // What the model takes from outside: the URL's normal form (None when it does
  // not parse), the printed form of a UUID, and the seconds of a time stamp.
  datatype Env = Env(normalize: string -> Option<string>, show: Uuid -> string, unix: Time -> int, maxRetries: int)

  // Printed UUIDs are told apart, and are made of hexadecimal digits and hyphens.
  ghost predicate Sound(env: Env) {
    && (forall a, b :: env.show(a) == env.show(b) ==> a == b)
    && (forall a :: ':' !in env.show(a))
  }

  datatype Saved = Saved(url: string, normalized: string, version: int, createdAt: Time, options: AnalysisOptions)

  function AnalysisId(normalized: string, version: int): Uuid {
    V5(AnalysisNamespace, AnalysisName(normalized, version))
  }

  const EVENT_TYPE := "analysis.requested"

  function EventIdFor(env: Env, aggregateId: Uuid, createdAt: Time): Uuid {
    V5(OutboxNamespace, EventName(env.show(aggregateId), EVENT_TYPE, env.unix(createdAt)))
  }

  // The event built for a saved row: its payload names the row's ID.
  function EventRow(env: Env, id: Uuid, row: Saved): OutboxRow {
    NewRow(Payload(id, row.url, row.options, Normal, row.createdAt), EVENT_TYPE, env.maxRetries)
  }

  datatype Transaction =
    | Begun(url: string, normalized: string, options: AnalysisOptions)
    | Versioned(url: string, normalized: string, options: AnalysisOptions, version: int)
    | RowInserted(id: Uuid, row: Saved)
    | BothInserted(id: Uuid, row: Saved, eventId: Uuid, event: OutboxRow)
  {
    predicate HasRow() {
      RowInserted? || BothInserted?
    }
  }

  datatype State = State(analyses: map<Uuid, Saved>, events: map<Uuid, OutboxRow>, txs: map<Tx, Transaction>)

  const INIT: State := State(map[], map[], map[])

  /******* Keys *******/

  // Primary key, and the unique key on (url, version).
  predicate Clash(id: Uuid, row: Saved, id': Uuid, row': Saved) {
    id == id' || (row.url == row'.url && row.version == row'.version)
  }

  // SELECT COALESCE(MAX(version), 0) + 1 ... WHERE url
  ghost predicate NextVersion(analyses: map<Uuid, Saved>, url: string, v: int) {
    && (forall id | id in analyses && analyses[id].url == url :: analyses[id].version < v)
    && (|| (exists id :: id in analyses && analyses[id].url == url && analyses[id].version == v - 1)
        || (v == 1 && forall id | id in analyses :: analyses[id].url != url))
  }

  /******* Steps *******/

  predicate Begin(env: Env, s: State, s': State, t: Tx, url: string, options: AnalysisOptions) {
    && t !in s.txs
    && env.normalize(url).Some?
    && s' == s.(txs := s.txs[t := Begun(url, env.normalize(url).value, options)])
  }

  ghost predicate ReadVersion(s: State, s': State, t: Tx, v: int) {
    && t in s.txs && s.txs[t].Begun?
    && NextVersion(s.analyses, s.txs[t].url, v)
    && s' == s.(txs := s.txs[t := Versioned(s.txs[t].url, s.txs[t].normalized, s.txs[t].options, v)])
  }

  // The row that transaction t inserts.
  function RowOf(x: Transaction, createdAt: Time): Saved
    requires x.Versioned?
  {
    Saved(x.url, x.normalized, x.version, createdAt, x.options)
  }

  // A clash with a committed row is a unique violation; a clash with a row of a
  // running transaction blocks, so the step is not enabled.
  ghost predicate InsertRow(s: State, s': State, t: Tx, createdAt: Time) {
    && t in s.txs && s.txs[t].Versioned?
    && var row := RowOf(s.txs[t], createdAt);
    && var id := AnalysisId(row.normalized, row.version);
    && (forall u | u in s.txs && s.txs[u].HasRow() :: !Clash(id, row, s.txs[u].id, s.txs[u].row))
    && (forall other | other in s.analyses :: !Clash(id, row, other, s.analyses[other]))
    && s' == s.(txs := s.txs[t := RowInserted(id, row)])
  }

  ghost predicate Violation(s: State, s': State, t: Tx, createdAt: Time) {
    && t in s.txs && s.txs[t].Versioned?
    && var row := RowOf(s.txs[t], createdAt);
    && var id := AnalysisId(row.normalized, row.version);
    && (exists other :: other in s.analyses && Clash(id, row, other, s.analyses[other]))
    && s' == s.(txs := s.txs - {t})
  }

  ghost predicate EventKeyFree(s: State, eventId: Uuid) {
    && eventId !in s.events
    && forall u | u in s.txs && s.txs[u].BothInserted? :: s.txs[u].eventId != eventId
  }

  ghost predicate InsertEvent(env: Env, s: State, s': State, t: Tx) {
    && t in s.txs && s.txs[t].RowInserted?
    && var RowInserted(id, row) := s.txs[t];
    && var eventId := EventIdFor(env, id, row.createdAt);
    && EventKeyFree(s, eventId)
    && s' == s.(txs := s.txs[t := BothInserted(id, row, eventId, EventRow(env, id, row))])
  }

  predicate Commit(s: State, s': State, t: Tx) {
    && t in s.txs && s.txs[t].BothInserted?
    && var BothInserted(id, row, eventId, event) := s.txs[t];
    && s'.analyses == s.analyses[id := row]
    && s'.events == s.events[eventId := event]
    && s'.txs == s.txs - {t}
  }

  predicate Abort(s: State, s': State, t: Tx) {
    t in s.txs && s' == s.(txs := s.txs - {t})
  }

  datatype Label =
    | BeginStep(t: Tx, url: string, options: AnalysisOptions)
    | ReadVersionStep(t: Tx, v: int)
    | InsertRowStep(t: Tx, createdAt: Time)
    | ViolationStep(t: Tx, createdAt: Time)
    | InsertEventStep(t: Tx)
    | CommitStep(t: Tx)
    | AbortStep(t: Tx)

  ghost predicate Next(env: Env, s: State, s': State, l: Label) {
    match l
    case BeginStep(t, url, options) => Begin(env, s, s', t, url, options)
    case ReadVersionStep(t, v) => ReadVersion(s, s', t, v)
    case InsertRowStep(t, createdAt) => InsertRow(s, s', t, createdAt)
    case ViolationStep(t, createdAt) => Violation(s, s', t, createdAt)
    case InsertEventStep(t) => InsertEvent(env, s, s', t)
    case CommitStep(t) => Commit(s, s', t)
    case AbortStep(t) => Abort(s, s', t)
  }

  datatype Run = Run(states: seq<State>, labels: seq<Label>)

  ghost predicate FromInit(env: Env, r: Run) {
    && |r.states| == |r.labels| + 1
    && r.states[0] == INIT
    && forall i | 0 <= i < |r.labels| :: Next(env, r.states[i], r.states[i + 1], r.labels[i])
  }

  /******* The invariant *******/

  // Version v of the URL is committed.
  predicate Committed(analyses: map<Uuid, Saved>, url: string, normalized: string, v: int) {
    var id := AnalysisId(normalized, v);
    id in analyses && analyses[id].url == url && analyses[id].version == v && analyses[id].normalized == normalized
  }

  // The version follows on one that is committed, or is the first.
  predicate Follows(env: Env, analyses: map<Uuid, Saved>, url: string, normalized: string, v: int) {
    && env.normalize(url) == Some(normalized)
    && v >= 1
    && (v == 1 || Committed(analyses, url, normalized, v - 1))
  }

  predicate RowOk(env: Env, analyses: map<Uuid, Saved>, id: Uuid, row: Saved) {
    && id == AnalysisId(row.normalized, row.version)
    && Follows(env, analyses, row.url, row.normalized, row.version)
  }

  predicate TxOk(env: Env, analyses: map<Uuid, Saved>, x: Transaction) {
    match x
    case Begun(url, normalized, _) => env.normalize(url) == Some(normalized)
    case Versioned(url, normalized, _, v) => Follows(env, analyses, url, normalized, v)
    case RowInserted(id, row) => id !in analyses && RowOk(env, analyses, id, row)
    case BothInserted(id, row, eventId, event) =>
      && id !in analyses && RowOk(env, analyses, id, row)
      && eventId == EventIdFor(env, id, row.createdAt)
      && event == EventRow(env, id, row)
  }

  ghost predicate Rivals(txs: map<Tx, Transaction>) {
    forall t, u | t in txs && u in txs && txs[t].HasRow() && txs[u].HasRow() && txs[t].id == txs[u].id :: t == u
  }

  // Rows and events belong together, one to one.
  ghost predicate Paired(env: Env, s: State) {
    && (forall id | id in s.analyses ::
          var eventId := EventIdFor(env, id, s.analyses[id].createdAt);
          eventId in s.events && s.events[eventId] == EventRow(env, id, s.analyses[id]))
    && (forall e | e in s.events ::
          && s.events[e].event.aggregateId in s.analyses
          && e == EventIdFor(env, s.events[e].event.aggregateId, s.analyses[s.events[e].event.aggregateId].createdAt))
  }

  ghost predicate Inv(env: Env, s: State) {
    && (forall id | id in s.analyses :: RowOk(env, s.analyses, id, s.analyses[id]))
    && (forall t | t in s.txs :: TxOk(env, s.analyses, s.txs[t]))
    && Rivals(s.txs)
    && Paired(env, s)
  }

  // MAX(version) + 1 over the rows of a URL follows on a committed version.
  lemma NextVersionFollows(env: Env, analyses: map<Uuid, Saved>, url: string, normalized: string, v: int)
    requires forall id | id in analyses :: RowOk(env, analyses, id, analyses[id])
    requires env.normalize(url) == Some(normalized) && NextVersion(analyses, url, v)
    ensures Follows(env, analyses, url, normalized, v)
  {
    if v != 1 {
      var id :| id in analyses && analyses[id].url == url && analyses[id].version == v - 1;
      assert RowOk(env, analyses, id, analyses[id]);
    }
  }

  lemma ReadKeeps(env: Env, s: State, s': State, t: Tx, v: int)
    requires Inv(env, s) && ReadVersion(s, s', t, v)
    ensures Inv(env, s')
  {
    assert TxOk(env, s.analyses, s.txs[t]);
    NextVersionFollows(env, s.analyses, s.txs[t].url, s.txs[t].normalized, v);
  }

  lemma InsertRowKeeps(env: Env, s: State, s': State, t: Tx, createdAt: Time)
    requires Inv(env, s) && InsertRow(s, s', t, createdAt)
    ensures Inv(env, s')
  {
  }

  lemma InsertEventKeeps(env: Env, s: State, s': State, t: Tx)
    requires Inv(env, s) && InsertEvent(env, s, s', t)
    ensures Inv(env, s')
  {
  }

  lemma FollowsStays(env: Env, analyses: map<Uuid, Saved>, id: Uuid, row: Saved, url: string, n: string, v: int)
    requires id !in analyses && Follows(env, analyses, url, n, v)
    ensures Follows(env, analyses[id := row], url, n, v)
  {
    assert v > 1 ==> AnalysisId(n, v - 1) != id;
  }

  lemma TxStays(env: Env, analyses: map<Uuid, Saved>, id: Uuid, row: Saved, x: Transaction)
    requires id !in analyses && TxOk(env, analyses, x) && (x.HasRow() ==> x.id != id)
    ensures TxOk(env, analyses[id := row], x)
  {
    match x
    case Begun(_, _, _) =>
    case Versioned(url, normalized, _, v) => FollowsStays(env, analyses, id, row, url, normalized, v);
    case RowInserted(_, own) => FollowsStays(env, analyses, id, row, own.url, own.normalized, own.version);
    case BothInserted(_, own, _, _) => FollowsStays(env, analyses, id, row, own.url, own.normalized, own.version);
  }

  lemma CommitKeepsRows(env: Env, s: State, s': State, t: Tx)
    requires Inv(env, s) && Commit(s, s', t)
    ensures forall id | id in s'.analyses :: RowOk(env, s'.analyses, id, s'.analyses[id])
  {
    assert TxOk(env, s.analyses, s.txs[t]);
    var id, row := s.txs[t].id, s.txs[t].row;
    forall other | other in s'.analyses
      ensures RowOk(env, s'.analyses, other, s'.analyses[other])
    {
      var own := s'.analyses[other];
      assert other != id ==> RowOk(env, s.analyses, other, own);
      FollowsStays(env, s.analyses, id, row, own.url, own.normalized, own.version);
    }
  }

  lemma CommitKeepsTxs(env: Env, s: State, s': State, t: Tx)
    requires Inv(env, s) && Commit(s, s', t)
    ensures forall u | u in s'.txs :: TxOk(env, s'.analyses, s'.txs[u])
  {
    assert TxOk(env, s.analyses, s.txs[t]);
    forall u | u in s'.txs
      ensures TxOk(env, s'.analyses, s'.txs[u])
    {
      assert TxOk(env, s.analyses, s.txs[u]);
      TxStays(env, s.analyses, s.txs[t].id, s.txs[t].row, s.txs[u]);
    }
  }

  // Distinct aggregates never share an event ID.
  lemma EventIdsDiffer(env: Env, a: Uuid, createdAt: Time, a': Uuid, createdAt': Time)
    requires Sound(env) && EventIdFor(env, a, createdAt) == EventIdFor(env, a', createdAt')
    ensures a == a'
  {
    EventNameInjective(env.show(a), EVENT_TYPE, env.unix(createdAt), env.show(a'), EVENT_TYPE, env.unix(createdAt'));
  }

  lemma EventIsNew(env: Env, s: State, id: Uuid, createdAt: Time)
    requires Sound(env) && Paired(env, s) && id !in s.analyses
    ensures EventIdFor(env, id, createdAt) !in s.events
  {
    var e := EventIdFor(env, id, createdAt);
    if e in s.events {
      var a := s.events[e].event.aggregateId;
      EventIdsDiffer(env, id, createdAt, a, s.analyses[a].createdAt);
    }
  }

  lemma CommitKeepsPairs(env: Env, s: State, s': State, t: Tx)
    requires Sound(env) && Paired(env, s) && Commit(s, s', t) && TxOk(env, s.analyses, s.txs[t])
    ensures Paired(env, s')
  {
    EventIsNew(env, s, s.txs[t].id, s.txs[t].row.createdAt);
  }

  lemma CommitKeeps(env: Env, s: State, s': State, t: Tx)
    requires Sound(env) && Inv(env, s) && Commit(s, s', t)
    ensures Inv(env, s')
  {
    assert TxOk(env, s.analyses, s.txs[t]);
    CommitKeepsRows(env, s, s', t);
    CommitKeepsTxs(env, s, s', t);
    CommitKeepsPairs(env, s, s', t);
  }

  lemma BeginKeeps(env: Env, s: State, s': State, t: Tx, url: string, options: AnalysisOptions)
    requires Inv(env, s) && Begin(env, s, s', t, url, options)
    ensures Inv(env, s')
  {
  }

  lemma EndKeeps(env: Env, s: State, s': State, t: Tx)
    requires Inv(env, s) && Abort(s, s', t)
    ensures Inv(env, s')
  {
  }

  lemma InvKept(env: Env, s: State, s': State, l: Label)
    requires Sound(env) && Inv(env, s) && Next(env, s, s', l)
    ensures Inv(env, s')
  {
    match l
    case BeginStep(t, url, options) => BeginKeeps(env, s, s', t, url, options);
    case ViolationStep(t, _) => EndKeeps(env, s, s', t);
    case AbortStep(t) => EndKeeps(env, s, s', t);
    case ReadVersionStep(t, v) => ReadKeeps(env, s, s', t, v);
    case InsertRowStep(t, createdAt) => InsertRowKeeps(env, s, s', t, createdAt);
    case InsertEventStep(t) => InsertEventKeeps(env, s, s', t);
    case CommitStep(t) => CommitKeeps(env, s, s', t);
  }

  lemma {:induction false} RunInv(env: Env, r: Run, i: nat)
    requires Sound(env) && FromInit(env, r) && i < |r.states|
    ensures Inv(env, r.states[i])
    decreases i
  {
    if i > 0 {
      RunInv(env, r, i - 1);
      assert Next(env, r.states[i - 1], r.states[i], r.labels[i - 1]);
      InvKept(env, r.states[i - 1], r.states[i], r.labels[i - 1]);
    }
  }

  /******* Versions *******/

  ghost function RowsOfUrl(analyses: map<Uuid, Saved>, url: string): set<Uuid> {
    set id | id in analyses && analyses[id].url == url
  }

  lemma {:induction false} AllEarlierCommitted(env: Env, rows: map<Uuid, Saved>, url: string, n: string, v: int, k: int)
    requires forall id | id in rows :: RowOk(env, rows, id, rows[id])
    requires Committed(rows, url, n, v) && 1 <= k <= v
    ensures Committed(rows, url, n, k)
    decreases v - k
  {
    if k < v {
      var id := AnalysisId(n, v);
      assert RowOk(env, rows, id, rows[id]);
      AllEarlierCommitted(env, rows, url, n, v - 1, k);
    }
  }

  ghost function IdsUpTo(normalized: string, n: nat): set<Uuid> {
    if n == 0 then {} else IdsUpTo(normalized, n - 1) + {AnalysisId(normalized, n)}
  }

  lemma VersionsDiffer(normalized: string, k: int, n: int)
    requires k != n
    ensures AnalysisId(normalized, k) != AnalysisId(normalized, n)
  {
    if AnalysisName(normalized, k) == AnalysisName(normalized, n) {
      AnalysisNameInjective(normalized, k, normalized, n);
    }
  }

  lemma {:induction false} IdsUpToHas(normalized: string, n: nat, id: Uuid)
    ensures id in IdsUpTo(normalized, n) <==> exists k :: 1 <= k <= n && id == AnalysisId(normalized, k)
  {
    if n > 0 {
      IdsUpToHas(normalized, n - 1, id);
    }
  }

  lemma {:induction false} IdsUpToAre(normalized: string, n: nat)
    ensures |IdsUpTo(normalized, n)| == n
    ensures forall id :: id in IdsUpTo(normalized, n) <==> exists k :: 1 <= k <= n && id == AnalysisId(normalized, k)
  {
    if n > 0 {
      IdsUpToAre(normalized, n - 1);
      forall k | 1 <= k < n ensures AnalysisId(normalized, k) != AnalysisId(normalized, n) {
        VersionsDiffer(normalized, k, n);
      }
    }
    forall id ensures id in IdsUpTo(normalized, n) <==> exists k :: 1 <= k <= n && id == AnalysisId(normalized, k) {
      IdsUpToHas(normalized, n, id);
    }
  }

  // With n rows, the versions of a URL are exactly 1..n.
  ghost predicate GapFree(analyses: map<Uuid, Saved>, url: string, normalized: string) {
    forall v :: Committed(analyses, url, normalized, v) <==> 1 <= v <= |RowsOfUrl(analyses, url)|
  }

  lemma RowsAreGapFree(env: Env, analyses: map<Uuid, Saved>, url: string, normalized: string)
    requires forall id | id in analyses :: RowOk(env, analyses, id, analyses[id])
    requires env.normalize(url) == Some(normalized)
    ensures GapFree(analyses, url, normalized)
  {
    var rows := RowsOfUrl(analyses, url);
    forall v ensures Committed(analyses, url, normalized, v) <==> 1 <= v <= |rows| {
      if Committed(analyses, url, normalized, v) {
        assert RowOk(env, analyses, AnalysisId(normalized, v), analyses[AnalysisId(normalized, v)]);
        IdsUpToAre(normalized, v);
        forall id | id in IdsUpTo(normalized, v) ensures id in rows {
          var k :| 1 <= k <= v && id == AnalysisId(normalized, k);
          AllEarlierCommitted(env, analyses, url, normalized, v, k);
        }
        SubsetSize(IdsUpTo(normalized, v), rows);
      } else if 1 <= v {
        IdsUpToAre(normalized, v - 1);
        forall id | id in rows ensures id in IdsUpTo(normalized, v - 1) {
          var row := analyses[id];
          assert RowOk(env, analyses, id, row);
          if row.version >= v {
            AllEarlierCommitted(env, analyses, url, normalized, row.version, v);
          }
        }
        SubsetSize(rows, IdsUpTo(normalized, v - 1));
      }
    }
  }

  // The committed versions of every raw URL are exactly 1..n, one row each.
  lemma VersionsGapFree(env: Env, r: Run, i: nat, url: string, normalized: string)
    requires Sound(env) && FromInit(env, r) && i < |r.states| && env.normalize(url) == Some(normalized)
    ensures GapFree(r.states[i].analyses, url, normalized)
    ensures forall id | id in RowsOfUrl(r.states[i].analyses, url) ::
      id == AnalysisId(normalized, r.states[i].analyses[id].version)
  {
    RunInv(env, r, i);
    var s := r.states[i];
    forall id | id in s.analyses ensures RowOk(env, s.analyses, id, s.analyses[id]) {}
    RowsAreGapFree(env, s.analyses, url, normalized);
  }

  // The ID comes from the normalised URL, the version is counted per raw URL: so
  // only one spelling of a normalised URL ever gets rows.
  lemma OneSpelling(env: Env, r: Run, i: nat, a: Uuid, b: Uuid)
    requires Sound(env) && FromInit(env, r) && i < |r.states|
    requires a in r.states[i].analyses && b in r.states[i].analyses
    requires r.states[i].analyses[a].normalized == r.states[i].analyses[b].normalized
    ensures r.states[i].analyses[a].url == r.states[i].analyses[b].url
  {
    RunInv(env, r, i);
    var s := r.states[i];
    assert RowOk(env, s.analyses, a, s.analyses[a]) && RowOk(env, s.analyses, b, s.analyses[b]);
    AllEarlierCommitted(env, s.analyses, s.analyses[a].url, s.analyses[a].normalized, s.analyses[a].version, 1);
    AllEarlierCommitted(env, s.analyses, s.analyses[b].url, s.analyses[b].normalized, s.analyses[b].version, 1);
  }

  // No committed row has the key of the row that the transaction is to insert.
  ghost predicate KeyFree(analyses: map<Uuid, Saved>, x: Transaction)
    requires x.Versioned?
  {
    forall other | other in analyses :: !Clash(AnalysisId(x.normalized, x.version), RowOf(x, 0), other, analyses[other])
  }

  // The version is still the next one of its URL, and no other spelling has taken
  // the normalised URL.
  ghost predicate StillNext(analyses: map<Uuid, Saved>, x: Transaction)
    requires x.Versioned?
  {
    && x.version == |RowsOfUrl(analyses, x.url)| + 1
    && forall other | other in analyses && analyses[other].normalized == x.normalized :: analyses[other].url == x.url
  }

  lemma FreeKeyIsNext(env: Env, analyses: map<Uuid, Saved>, x: Transaction)
    requires x.Versioned? && TxOk(env, analyses, x)
    requires forall id | id in analyses :: RowOk(env, analyses, id, analyses[id])
    requires GapFree(analyses, x.url, x.normalized) && KeyFree(analyses, x)
    ensures StillNext(analyses, x)
  {
    assert !Committed(analyses, x.url, x.normalized, x.version);
    forall other | other in analyses && analyses[other].normalized == x.normalized
      ensures analyses[other].url == x.url
    {
      var row := analyses[other];
      assert RowOk(env, analyses, other, row);
      AllEarlierCommitted(env, analyses, row.url, row.normalized, row.version, 1);
      if x.version > 1 {
        AllEarlierCommitted(env, analyses, x.url, x.normalized, x.version - 1, 1);
      }
    }
  }

  lemma NextKeyIsFree(env: Env, analyses: map<Uuid, Saved>, x: Transaction)
    requires x.Versioned? && TxOk(env, analyses, x)
    requires forall id | id in analyses :: RowOk(env, analyses, id, analyses[id])
    requires GapFree(analyses, x.url, x.normalized) && StillNext(analyses, x)
    ensures KeyFree(analyses, x)
  {
    assert !Committed(analyses, x.url, x.normalized, x.version);
    forall other | other in analyses && analyses[other].url == x.url ensures analyses[other].version != x.version {
      assert RowOk(env, analyses, other, analyses[other]);
    }
    var id := AnalysisId(x.normalized, x.version);
    if id in analyses {
      var row := analyses[id];
      assert RowOk(env, analyses, id, row);
      AnalysisNameInjective(x.normalized, x.version, row.normalized, row.version);
    }
  }

  // The unique keys let a transaction's row in exactly when its version is still
  // the next one of its URL and no other spelling of the URL has rows; otherwise
  // it is aborted.
  lemma InsertSucceedsIff(env: Env, r: Run, i: nat, t: Tx)
    requires Sound(env) && FromInit(env, r) && i < |r.states|
    requires t in r.states[i].txs && r.states[i].txs[t].Versioned?
    ensures KeyFree(r.states[i].analyses, r.states[i].txs[t]) <==> StillNext(r.states[i].analyses, r.states[i].txs[t])
  {
    var s := r.states[i];
    RunInv(env, r, i);
    assert TxOk(env, s.analyses, s.txs[t]);
    VersionsGapFree(env, r, i, s.txs[t].url, s.txs[t].normalized);
    if KeyFree(s.analyses, s.txs[t]) {
      FreeKeyIsNext(env, s.analyses, s.txs[t]);
    } else if StillNext(s.analyses, s.txs[t]) {
      NextKeyIsFree(env, s.analyses, s.txs[t]);
    }
  }

  /******* Rows and events *******/

  // The event that a row asks to be analysed by, column by column: not yet claimed,
  // and with all that the subscriber needs to know of the request.
  predicate Asks(env: Env, id: Uuid, row: Saved, event: OutboxRow) {
    && event.event.aggregateId == id && event.event.payload.analysisId == id
    && event.event.payload.url == row.url && event.event.payload.options == row.options
    && event.event.payload.createdAt == row.createdAt && event.event.createdAt == row.createdAt
    && event.event.payload.priority == Normal && event.event.priority == Normal
    && event.event.eventType == "analysis.requested" && event.event.maxRetries == env.maxRetries
    && event.status == Pending && event.retryCount == 0
    && event.errorDetails == None && event.nextRetryAt == None
    && event.times == Timeline(None, None, None, None)
  }

  lemma EventNameIs(a: string, d: string)
    ensures a + "::" + "analysis.requested" + "::" + d == a + "::analysis.requested::" + d
  {
    assert "::analysis.requested::" == "::" + "analysis.requested" + "::";
  }

  // Committed rows and events are in bijection through aggregate_id: each row has
  // an event that asks for just what the row was saved with, so the event that
  // GetByAggregateID looks for exists and is the only one.
  lemma RowsAndEventsPaired(env: Env, r: Run, i: nat, id: Uuid)
    requires Sound(env) && FromInit(env, r) && i < |r.states| && id in r.states[i].analyses
    ensures var s := r.states[i];
      exists e :: e in s.events && Asks(env, id, s.analyses[id], s.events[e])
        && e == V5(OutboxNamespace,
                   env.show(id) + "::analysis.requested::" + Decimal.Print(env.unix(s.analyses[id].createdAt)))
        && forall e' | e' in s.events && s.events[e'].event.aggregateId == id :: e' == e
    ensures forall e | e in r.states[i].events :: r.states[i].events[e].event.aggregateId in r.states[i].analyses
  {
    RunInv(env, r, i);
    var s := r.states[i];
    var e := EventIdFor(env, id, s.analyses[id].createdAt);
    assert e in s.events && s.events[e] == EventRow(env, id, s.analyses[id]);
    assert Asks(env, id, s.analyses[id], s.events[e]);
    EventNameIs(env.show(id), Decimal.Print(env.unix(s.analyses[id].createdAt)));
  }

  // The URL and the options that a transaction carries from its beginning.
  predicate Carries(x: Transaction, url: string, options: AnalysisOptions) {
    match x
    case Begun(u, _, o) => u == url && o == options
    case Versioned(u, _, o, _) => u == url && o == options
    case RowInserted(_, row) => row.url == url && row.options == options
    case BothInserted(_, row, _, _) => row.url == url && row.options == options
  }

  predicate Begins(l: Label, url: string, options: AnalysisOptions) {
    l.BeginStep? && l.url == url && l.options == options
  }

  lemma CarriesStep(env: Env, s: State, s': State, l: Label, t: Tx, url: string, options: AnalysisOptions)
    requires Next(env, s, s', l) && t in s'.txs && Carries(s'.txs[t], url, options)
    ensures Begins(l, url, options) || (t in s.txs && Carries(s.txs[t], url, options))
  {
  }

  lemma {:induction false} CarriedFromBegin(env: Env, r: Run, i: nat, t: Tx, url: string, options: AnalysisOptions)
    returns (j: nat)
    requires FromInit(env, r) && i < |r.states| && t in r.states[i].txs && Carries(r.states[i].txs[t], url, options)
    ensures j < i && Begins(r.labels[j], url, options)
    decreases i
  {
    assert i > 0;
    assert Next(env, r.states[i - 1], r.states[i], r.labels[i - 1]);
    CarriesStep(env, r.states[i - 1], r.states[i], r.labels[i - 1], t, url, options);
    if Begins(r.labels[i - 1], url, options) {
      j := i - 1;
    } else {
      j := CarriedFromBegin(env, r, i - 1, t, url, options);
    }
  }

  lemma RowStep(env: Env, s: State, s': State, l: Label, id: Uuid)
    requires Next(env, s, s', l) && id in s'.analyses
    ensures || (id in s.analyses && s.analyses[id] == s'.analyses[id])
            || (l.CommitStep? && l.t in s.txs && Carries(s.txs[l.t], s'.analyses[id].url, s'.analyses[id].options))
  {
  }

  // Every committed row has the URL and the options of some request of the run; by
  // RowsAndEventsPaired its event does too.
  lemma {:induction false} RowsWereRequested(env: Env, r: Run, i: nat, id: Uuid) returns (j: nat)
    requires FromInit(env, r) && i < |r.states| && id in r.states[i].analyses
    ensures j < i && r.labels[j].BeginStep?
    ensures r.labels[j].url == r.states[i].analyses[id].url && r.labels[j].options == r.states[i].analyses[id].options
    decreases i
  {
    assert i > 0;
    var s, s', l := r.states[i - 1], r.states[i], r.labels[i - 1];
    assert Next(env, s, s', l);
    RowStep(env, s, s', l, id);
    if id in s.analyses && s.analyses[id] == s'.analyses[id] {
      j := RowsWereRequested(env, r, i - 1, id);
    } else {
      j := CarriedFromBegin(env, r, i - 1, l.t, s'.analyses[id].url, s'.analyses[id].options);
    }
  }

  // The insert of the event never meets its own primary key.
  lemma EventInsertNeverClashes(env: Env, r: Run, i: nat, t: Tx)
    requires Sound(env) && FromInit(env, r) && i < |r.states|
    requires t in r.states[i].txs && r.states[i].txs[t].RowInserted?
    ensures EventKeyFree(r.states[i], EventIdFor(env, r.states[i].txs[t].id, r.states[i].txs[t].row.createdAt))
  {
    RunInv(env, r, i);
    var s := r.states[i];
    var id, createdAt := s.txs[t].id, s.txs[t].row.createdAt;
    assert TxOk(env, s.analyses, s.txs[t]);
    EventIsNew(env, s, id, createdAt);
    forall u | u in s.txs && s.txs[u].BothInserted? && s.txs[u].eventId == EventIdFor(env, id, createdAt)
      ensures false
    {
      assert TxOk(env, s.analyses, s.txs[u]);
      EventIdsDiffer(env, id, createdAt, s.txs[u].id, s.txs[u].row.createdAt);
    }
  }
}
