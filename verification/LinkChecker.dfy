// Checking the external links of a page: the filter in front, and the checks that
// run at once behind a semaphore.
module LinkChecker {
  import opened Prelude

  datatype LinkType = Internal | External

  datatype Link = Link(url: string, linkType: LinkType)

  datatype InaccessibleLink = InaccessibleLink(url: string, statusCode: int, error: string)

  // What a check of one URL comes to behind the circuit breaker.
  datatype Response = CircuitOpen | Failed(error: string) | Answered(statusCode: int, status: string)

  const CIRCUIT_OPEN_ERROR := "Service temporarily unavailable (circuit breaker open)"

  function Verdict(link: Link, response: Response): Option<InaccessibleLink> {
    match response
    case CircuitOpen => Some(InaccessibleLink(link.url, 503, CIRCUIT_OPEN_ERROR))
    case Failed(error) => Some(InaccessibleLink(link.url, 0, error))
    case Answered(code, status) => if code >= 400 then Some(InaccessibleLink(link.url, code, status)) else None
  }

  /******* The filter *******/

  // The first external link with its URL, and a URL that parses.
  predicate Wanted(links: seq<Link>, parses: string -> bool, i: nat)
    requires i < |links|
  {
    && links[i].linkType == External
    && parses(links[i].url)
    && forall j | 0 <= j < i :: !(links[j].linkType == External && links[j].url == links[i].url)
  }

  function Wanteds(links: seq<Link>, parses: string -> bool, n: nat): seq<Link>
    requires n <= |links|
  {
    if n == 0 then []
    else Wanteds(links, parses, n - 1) + if Wanted(links, parses, n - 1) then [links[n - 1]] else []
  }

  method FilterExternalLinks(links: seq<Link>, parses: string -> bool) returns (externalLinks: seq<Link>)
    ensures externalLinks == Wanteds(links, parses, |links|)
  {
    externalLinks := [];
    var seen: set<string> := {};
    var i := 0;
    while i < |links|
      invariant 0 <= i <= |links|
      invariant forall url ::
        url in seen <==> exists j :: 0 <= j < i && links[j].linkType == External && links[j].url == url
      invariant externalLinks == Wanteds(links, parses, i)
    {
      var link := links[i];
      i := i + 1;
      if link.linkType == Internal {
        continue;
      }
      if link.url in seen {
        continue;
      }
      seen := seen + {link.url};
      if !parses(link.url) {
        continue;
      }
      externalLinks := externalLinks + [link];
    }
  }

  // Where each kept link comes from: positions in the input, in input order.
  lemma {:induction false} KeepsOrder(links: seq<Link>, parses: string -> bool, n: nat) returns (at: seq<nat>)
    requires n <= |links|
    ensures |at| == |Wanteds(links, parses, n)|
    ensures forall k | 0 <= k < |at| ::
      at[k] < n && Wanted(links, parses, at[k]) && Wanteds(links, parses, n)[k] == links[at[k]]
    ensures forall k, l | 0 <= k < l < |at| :: at[k] < at[l]
    ensures forall i | 0 <= i < n && Wanted(links, parses, i) :: i in at
  {
    at := [];
    if n > 0 {
      at := KeepsOrder(links, parses, n - 1);
      if Wanted(links, parses, n - 1) {
        at := at + [n - 1];
      }
    }
  }

  // No URL twice, nothing but parseable external URLs, and each of those once.
  lemma FilterIsExact(links: seq<Link>, parses: string -> bool)
    ensures var kept := Wanteds(links, parses, |links|);
      && (forall k, l | 0 <= k < l < |kept| :: kept[k].url != kept[l].url)
      && (forall k | 0 <= k < |kept| :: kept[k] in links && kept[k].linkType == External && parses(kept[k].url))
      && (forall i | 0 <= i < |links| && links[i].linkType == External && parses(links[i].url) ::
            exists k :: 0 <= k < |kept| && kept[k].url == links[i].url)
  {
    var kept := Wanteds(links, parses, |links|);
    var at := KeepsOrder(links, parses, |links|);
    forall i | 0 <= i < |links| && links[i].linkType == External && parses(links[i].url)
      ensures exists k :: 0 <= k < |kept| && kept[k].url == links[i].url
    {
      var first := FirstOf(links, i);
      assert Wanted(links, parses, first);
      var k :| 0 <= k < |at| && at[k] == first;
      assert kept[k].url == links[i].url;
    }
  }

  lemma {:induction false} FirstOf(links: seq<Link>, i: nat) returns (first: nat)
    requires i < |links| && links[i].linkType == External
    ensures first <= i && links[first].linkType == External && links[first].url == links[i].url
    ensures forall j | 0 <= j < first :: !(links[j].linkType == External && links[j].url == links[i].url)
  {
    if j :| 0 <= j < i && links[j].linkType == External && links[j].url == links[i].url {
      first := FirstOf(links, j);
    } else {
      first := i;
    }
  }

  // What CheckAccessibility hands to the checks: at most maxLinks, from the front.
  method LinksToCheck(links: seq<Link>, parses: string -> bool, maxLinks: nat) returns (toCheck: seq<Link>)
    ensures toCheck <= Wanteds(links, parses, |links|)
    ensures var n := |Wanteds(links, parses, |links|)|;
      |toCheck| == if n > maxLinks then maxLinks else n
  {
    if |links| == 0 {
      return [];
    }
    toCheck := FilterExternalLinks(links, parses);
    if |toCheck| > maxLinks {
      toCheck := toCheck[..maxLinks];
    }
  }

  /******* The checks *******/

  // One goroutine a link.
  datatype Phase =
    | Waiting                                            // to put its token into the semaphore
    | Checking
    | Reporting(response: Response)                      // to append to the result, under the lock
    | Leaving(response: Response)                        // to take its token out
    | Gone(response: Response)
  {
    predicate HoldsToken() {
      Checking? || Reporting? || Leaving?
    }

    predicate Checked() {
      Reporting? || Leaving? || Gone?
    }

    function StepsLeft(): nat {
      match this
      case Waiting => 4
      case Checking => 3
      case Reporting(_) => 2
      case Leaving(_) => 1
      case Gone(_) => 0
    }
  }

  datatype Checks = Checks(
    phases: seq<Phase>,
    tokens: nat,
    inaccessible: seq<InaccessibleLink>,
    performed: seq<nat>)                                 // history: the links checked, by position

  datatype Step = Acquire(i: nat) | Perform(i: nat, response: Response) | Report(i: nat) | Release(i: nat)

  function Start(links: seq<Link>): Checks {
    Checks(seq(|links|, _ => Waiting), 0, [], [])
  }

  predicate Next(links: seq<Link>, maxConcurrent: nat, s: Checks, s': Checks, step: Step) {
    && |s.phases| == |links| && step.i < |links|
    && var i := step.i;
    match step
    case Acquire(_) =>
      && s.phases[i].Waiting? && s.tokens < maxConcurrent
      && s' == s.(phases := s.phases[i := Checking], tokens := s.tokens + 1)
    case Perform(_, response) =>
      && s.phases[i].Checking?
      && var verdict := Verdict(links[i], response);
      && s' == s.(
                 phases := s.phases[i := if verdict.Some? then Reporting(response) else Leaving(response)],
                 performed := s.performed + [i])
    case Report(_) =>
      && s.phases[i].Reporting?
      && var verdict := Verdict(links[i], s.phases[i].response);
      && verdict.Some?
      && s' == s.(
                 phases := s.phases[i := Leaving(s.phases[i].response)],
                 inaccessible := s.inaccessible + [verdict.value])
    case Release(_) =>
      && s.phases[i].Leaving? && s.tokens > 0
      && s' == s.(phases := s.phases[i := Gone(s.phases[i].response)], tokens := s.tokens - 1)
  }

  predicate Finished(s: Checks) {
    forall i | 0 <= i < |s.phases| :: s.phases[i].Gone?
  }

  function Tokens(phases: seq<Phase>): nat {
    if phases == [] then 0 else Tokens(phases[..|phases| - 1]) + if phases[|phases| - 1].HoldsToken() then 1 else 0
  }

  function StepsLeft(phases: seq<Phase>): nat {
    if phases == [] then 0 else StepsLeft(phases[..|phases| - 1]) + phases[|phases| - 1].StepsLeft()
  }

  // What the goroutines have reported so far.
  function Reported(links: seq<Link>, phases: seq<Phase>): multiset<InaccessibleLink>
    requires |links| == |phases|
  {
    if phases == [] then multiset{}
    else
      var n := |phases| - 1;
      Reported(links[..n], phases[..n]) + ReportOf(links[n], phases[n])
  }

  function ReportOf(link: Link, p: Phase): multiset<InaccessibleLink> {
    if p.Leaving? || p.Gone? then VerdictOf(link, p.response) else multiset{}
  }

  function VerdictOf(link: Link, response: Response): multiset<InaccessibleLink> {
    var verdict := Verdict(link, response);
    if verdict.Some? then multiset{verdict.value} else multiset{}
  }

  lemma ReportedLast(links: seq<Link>, phases: seq<Phase>, n: nat)
    requires |links| == |phases| == n + 1
    ensures Reported(links, phases) == Reported(links[..n], phases[..n]) + ReportOf(links[n], phases[n])
  {
  }

  // Each link is checked at most once, and has been when its goroutine is past it.
  ghost predicate PerformedOk(phases: seq<Phase>, performed: seq<nat>) {
    && (forall i | 0 <= i < |phases| :: i in performed <==> phases[i].Checked())
    && (forall k, l | 0 <= k < l < |performed| :: performed[k] != performed[l])
    && (forall k | 0 <= k < |performed| :: performed[k] < |phases|)
  }

  ghost predicate Inv(links: seq<Link>, maxConcurrent: nat, s: Checks) {
    && |s.phases| == |links|
    && s.tokens == Tokens(s.phases) <= maxConcurrent
    && multiset(s.inaccessible) == Reported(links, s.phases)
    && PerformedOk(s.phases, s.performed)
  }

  lemma {:induction false} TokensUpdate(phases: seq<Phase>, i: nat, p: Phase)
    requires i < |phases|
    ensures Tokens(phases[i := p]) + (if phases[i].HoldsToken() then 1 else 0)
      == Tokens(phases) + (if p.HoldsToken() then 1 else 0)
  {
    var n := |phases| - 1;
    if i < n {
      TokensUpdate(phases[..n], i, p);
      assert phases[i := p][..n] == phases[..n][i := p];
    } else {
      assert phases[i := p][..n] == phases[..n];
    }
  }

  lemma {:induction false} StepsLeftUpdate(phases: seq<Phase>, i: nat, p: Phase)
    requires i < |phases|
    ensures StepsLeft(phases[i := p]) + phases[i].StepsLeft() == StepsLeft(phases) + p.StepsLeft()
  {
    var n := |phases| - 1;
    if i < n {
      StepsLeftUpdate(phases[..n], i, p);
      assert phases[i := p][..n] == phases[..n][i := p];
    } else {
      assert phases[i := p][..n] == phases[..n];
    }
  }

  lemma Swapped(a: multiset<InaccessibleLink>, b: multiset<InaccessibleLink>, c: multiset<InaccessibleLink>)
    ensures a + b + c == a + c + b
  {
  }

  lemma AddNothing(a: multiset<InaccessibleLink>, b: multiset<InaccessibleLink>, c: multiset<InaccessibleLink>)
    requires b == multiset{}
    ensures a + c == (a + b) + c
  {
  }

  // A goroutine that had reported nothing adds what it reports now.
  lemma {:induction false} ReportedUpdate(links: seq<Link>, phases: seq<Phase>, i: nat, p: Phase)
    requires i < |phases| == |links| && ReportOf(links[i], phases[i]) == multiset{}
    ensures Reported(links, phases[i := p]) == Reported(links, phases) + ReportOf(links[i], p)
    decreases |phases|
  {
    var n := |phases| - 1;
    ReportedLast(links, phases, n);
    ReportedLast(links, phases[i := p], n);
    var front := Reported(links[..n], phases[..n]);
    if i < n {
      ReportedUpdate(links[..n], phases[..n], i, p);
      assert phases[i := p][..n] == phases[..n][i := p];
      Swapped(front, ReportOf(links[i], p), ReportOf(links[n], phases[n]));
    } else {
      assert phases[i := p][..n] == phases[..n];
      AddNothing(front, ReportOf(links[n], phases[n]), ReportOf(links[n], p));
    }
  }

  lemma {:induction false} ReportedSame(links: seq<Link>, phases: seq<Phase>, i: nat, p: Phase)
    requires i < |phases| == |links| && ReportOf(links[i], phases[i]) == ReportOf(links[i], p)
    ensures Reported(links, phases[i := p]) == Reported(links, phases)
    decreases |phases|
  {
    var n := |phases| - 1;
    ReportedLast(links, phases, n);
    ReportedLast(links, phases[i := p], n);
    if i < n {
      ReportedSame(links[..n], phases[..n], i, p);
      assert phases[i := p][..n] == phases[..n][i := p];
    } else {
      assert phases[i := p][..n] == phases[..n];
    }
  }

  lemma {:induction false} StartValues(links: seq<Link>)
    ensures var s := Start(links);
      Tokens(s.phases) == 0 && Reported(links, s.phases) == multiset{} && StepsLeft(s.phases) == 4 * |links|
    decreases |links|
  {
    if links != [] {
      var n := |links| - 1;
      StartValues(links[..n]);
      assert Start(links).phases[..n] == Start(links[..n]).phases;
    }
  }

  lemma PerformedKept(links: seq<Link>, maxConcurrent: nat, s: Checks, s': Checks, step: Step)
    requires PerformedOk(s.phases, s.performed) && Next(links, maxConcurrent, s, s', step)
    ensures PerformedOk(s'.phases, s'.performed)
  {
    if step.Perform? {
      assert s'.performed[|s.performed|] == step.i;
      assert step.i !in s.performed;
      assert forall i :: i in s'.performed <==> i in s.performed || i == step.i;
    }
  }

  lemma AppendOne(xs: seq<InaccessibleLink>, x: InaccessibleLink)
    ensures multiset(xs + [x]) == multiset(xs) + multiset{x}
  {
  }

  lemma ReportAdds(links: seq<Link>, phases: seq<Phase>, inaccessible: seq<InaccessibleLink>, i: nat, p: Phase,
      x: InaccessibleLink)
    requires i < |phases| == |links| && ReportOf(links[i], phases[i]) == multiset{}
      && ReportOf(links[i], p) == multiset{x}
    requires multiset(inaccessible) == Reported(links, phases)
    ensures multiset(inaccessible + [x]) == Reported(links, phases[i := p])
  {
    AppendOne(inaccessible, x);
    ReportedUpdate(links, phases, i, p);
  }

  // Only a Report step adds to the result, and it adds its own verdict.
  lemma OneReports(links: seq<Link>, maxConcurrent: nat, s: Checks, s': Checks, step: Step)
    requires Next(links, maxConcurrent, s, s', step)
    ensures |s.phases| == |s'.phases| == |links| && s'.phases == s.phases[step.i := s'.phases[step.i]]
    ensures !step.Report? ==>
      && s'.inaccessible == s.inaccessible
      && ReportOf(links[step.i], s.phases[step.i]) == ReportOf(links[step.i], s'.phases[step.i])
    ensures step.Report? ==>
      && s.phases[step.i].Reporting? && Verdict(links[step.i], s.phases[step.i].response).Some?
      && var verdict := Verdict(links[step.i], s.phases[step.i].response).value;
      && s'.inaccessible == s.inaccessible + [verdict]
      && ReportOf(links[step.i], s.phases[step.i]) == multiset{}
          && ReportOf(links[step.i], s'.phases[step.i]) == multiset{verdict}
  {
  }

  lemma ReportedKept(links: seq<Link>, s: Checks, s': Checks, i: nat, reports: bool)
    requires i < |s.phases| == |s'.phases| == |links| && s'.phases == s.phases[i := s'.phases[i]]
    requires multiset(s.inaccessible) == Reported(links, s.phases)
    requires !reports ==>
      s'.inaccessible == s.inaccessible && ReportOf(links[i], s.phases[i]) == ReportOf(links[i], s'.phases[i])
    requires reports ==>
      && s.phases[i].Reporting? && Verdict(links[i], s.phases[i].response).Some?
      && var verdict := Verdict(links[i], s.phases[i].response).value;
      && s'.inaccessible == s.inaccessible + [verdict]
      && ReportOf(links[i], s.phases[i]) == multiset{} && ReportOf(links[i], s'.phases[i]) == multiset{verdict}
    ensures multiset(s'.inaccessible) == Reported(links, s'.phases)
  {
    if reports {
      ReportAdds(links, s.phases, s.inaccessible, i, s'.phases[i], Verdict(links[i], s.phases[i].response).value);
    } else {
      ReportedSame(links, s.phases, i, s'.phases[i]);
    }
  }

  lemma InvKept(links: seq<Link>, maxConcurrent: nat, s: Checks, s': Checks, step: Step)
    requires Inv(links, maxConcurrent, s) && Next(links, maxConcurrent, s, s', step)
    ensures Inv(links, maxConcurrent, s')
    ensures StepsLeft(s'.phases) < StepsLeft(s.phases)
  {
    TokensUpdate(s.phases, step.i, s'.phases[step.i]);
    StepsLeftUpdate(s.phases, step.i, s'.phases[step.i]);
    PerformedKept(links, maxConcurrent, s, s', step);
    OneReports(links, maxConcurrent, s, s', step);
    ReportedKept(links, s, s', step.i, step.Report?);
  }

  /******* Runs *******/

  datatype Run = Run(states: seq<Checks>, steps: seq<Step>)

  ghost predicate IsRun(links: seq<Link>, maxConcurrent: nat, r: Run) {
    && |r.states| == |r.steps| + 1
    && r.states[0] == Start(links)
    && forall k | 0 <= k < |r.steps| :: Next(links, maxConcurrent, r.states[k], r.states[k + 1], r.steps[k])
  }

  lemma StepAt(links: seq<Link>, maxConcurrent: nat, r: Run, k: nat)
    requires IsRun(links, maxConcurrent, r) && k < |r.steps| && Inv(links, maxConcurrent, r.states[k])
    ensures Inv(links, maxConcurrent, r.states[k + 1])
      && StepsLeft(r.states[k + 1].phases) < StepsLeft(r.states[k].phases)
  {
    InvKept(links, maxConcurrent, r.states[k], r.states[k + 1], r.steps[k]);
  }

  lemma StartInv(links: seq<Link>, maxConcurrent: nat)
    ensures Inv(links, maxConcurrent, Start(links)) && StepsLeft(Start(links).phases) == 4 * |links|
  {
    StartValues(links);
  }

  ghost predicate StepKeeps(links: seq<Link>, maxConcurrent: nat, s: Checks, s': Checks) {
    Inv(links, maxConcurrent, s) ==> Inv(links, maxConcurrent, s') && StepsLeft(s'.phases) < StepsLeft(s.phases)
  }

  lemma {:induction false} InvAlong(links: seq<Link>, maxConcurrent: nat, states: seq<Checks>, k: nat)
    requires k < |states| && Inv(links, maxConcurrent, states[0])
    requires forall j | 0 <= j < |states| - 1 :: StepKeeps(links, maxConcurrent, states[j], states[j + 1])
    ensures Inv(links, maxConcurrent, states[k]) && k + StepsLeft(states[k].phases) <= StepsLeft(states[0].phases)
    decreases k
  {
    if k > 0 {
      InvAlong(links, maxConcurrent, states, k - 1);
      assert StepKeeps(links, maxConcurrent, states[k - 1], states[k - 1 + 1]);
    }
  }

  lemma RunInv(links: seq<Link>, maxConcurrent: nat, r: Run, k: nat)
    requires IsRun(links, maxConcurrent, r) && k < |r.states|
    ensures Inv(links, maxConcurrent, r.states[k])
    ensures k + StepsLeft(r.states[k].phases) <= 4 * |links|
  {
    StartInv(links, maxConcurrent);
    forall j | 0 <= j < |r.states| - 1
      ensures StepKeeps(links, maxConcurrent, r.states[j], r.states[j + 1])
    {
      if Inv(links, maxConcurrent, r.states[j]) { StepAt(links, maxConcurrent, r, j); }
    }
    InvAlong(links, maxConcurrent, r.states, k);
  }

  function InFlight(phases: seq<Phase>): nat {
    if phases == [] then 0 else InFlight(phases[..|phases| - 1]) + if phases[|phases| - 1].Checking? then 1 else 0
  }

  lemma {:induction false} InFlightHoldTokens(phases: seq<Phase>)
    ensures InFlight(phases) <= Tokens(phases)
  {
    if phases != [] {
      InFlightHoldTokens(phases[..|phases| - 1]);
    }
  }

  // At no time are more than maxConcurrent checks in flight, no link is ever
  // checked twice, and every run ends within four steps a link.
  lemma ChecksAreBounded(links: seq<Link>, maxConcurrent: nat, r: Run, k: nat)
    requires IsRun(links, maxConcurrent, r) && k < |r.states|
    ensures InFlight(r.states[k].phases) <= maxConcurrent
    ensures forall x, y | 0 <= x < y < |r.states[k].performed| :: r.states[k].performed[x] != r.states[k].performed[y]
    ensures |r.steps| <= 4 * |links|
  {
    RunInv(links, maxConcurrent, r, k);
    RunInv(links, maxConcurrent, r, |r.steps|);
    InFlightHoldTokens(r.states[k].phases);
  }

  // The inaccessible links, given what each check came to.
  function Expected(links: seq<Link>, responses: seq<Response>): multiset<InaccessibleLink>
    requires |links| == |responses|
  {
    if links == [] then multiset{}
    else
      var n := |links| - 1;
      Expected(links[..n], responses[..n]) + VerdictOf(links[n], responses[n])
  }

  // What is reported of a link: that its circuit is open, that it could not be
  // reached, or a status of 400 or more; nothing of any other.
  predicate Tells(x: InaccessibleLink, link: Link, response: Response) {
    x.url == link.url &&
    match response
    case CircuitOpen =>
      x.statusCode == 503 && x.error == "Service temporarily unavailable (circuit breaker open)"
    case Failed(error) => x.statusCode == 0 && x.error == error
    case Answered(code, status) => code >= 400 && x.statusCode == code && x.error == status
  }

  ghost predicate ToldOf(links: seq<Link>, responses: seq<Response>, x: InaccessibleLink)
    requires |links| == |responses|
  {
    exists i :: 0 <= i < |links| && Tells(x, links[i], responses[i])
  }

  lemma VerdictMeans(x: InaccessibleLink, link: Link, response: Response)
    ensures x in VerdictOf(link, response) <==> Tells(x, link, response)
  {
  }

  lemma ToldLast(links: seq<Link>, responses: seq<Response>, x: InaccessibleLink, n: nat)
    requires |links| == |responses| == n + 1
    ensures ToldOf(links, responses, x) <==> ToldOf(links[..n], responses[..n], x) || Tells(x, links[n], responses[n])
  {
    assert forall i | 0 <= i < n :: links[..n][i] == links[i] && responses[..n][i] == responses[i];
    if ToldOf(links[..n], responses[..n], x) {
      var i :| 0 <= i < n && Tells(x, links[..n][i], responses[..n][i]);
      assert Tells(x, links[i], responses[i]);
    }
  }

  lemma ExpectedFront(links: seq<Link>, responses: seq<Response>, n: nat)
    requires |links| == |responses| == n + 1
    ensures Expected(links, responses) == Expected(links[..n], responses[..n]) + VerdictOf(links[n], responses[n])
  {
  }

  lemma {:induction false} ExpectedMeans(links: seq<Link>, responses: seq<Response>, x: InaccessibleLink, n: nat)
    requires |links| == |responses| == n
    ensures x in Expected(links, responses) <==> ToldOf(links, responses, x)
    decreases n
  {
    if n > 0 {
      ExpectedMeans(links[..n - 1], responses[..n - 1], x, n - 1);
      ExpectedFront(links, responses, n - 1);
      ToldLast(links, responses, x, n - 1);
      VerdictMeans(x, links[n - 1], responses[n - 1]);
    }
  }

  lemma ExpectedLast(links: seq<Link>, front: seq<Response>, response: Response)
    requires |links| == |front| + 1
    ensures Expected(links, front + [response])
      == Expected(links[..|front|], front) + VerdictOf(links[|front|], response)
  {
    assert (front + [response])[..|front|] == front;
  }

  lemma EndLast(links: seq<Link>, phases: seq<Phase>, front: seq<Response>, n: nat)
    requires |links| == |phases| == n + 1 && |front| == n && phases[n].Gone?
    requires Reported(links[..n], phases[..n]) == Expected(links[..n], front)
    ensures Reported(links, phases) == Expected(links, front + [phases[n].response])
  {
    ReportedLast(links, phases, n);
    ExpectedLast(links, front, phases[n].response);
  }

  lemma {:induction false} ReportedInTheEnd(links: seq<Link>, phases: seq<Phase>, n: nat)
    returns (responses: seq<Response>)
    requires |links| == |phases| == n && forall i | 0 <= i < n :: phases[i].Gone?
    ensures |responses| == n && Reported(links, phases) == Expected(links, responses)
    ensures forall i | 0 <= i < n :: responses[i] == phases[i].response
  {
    responses := [];
    if n > 0 {
      var front := ReportedInTheEnd(links[..n - 1], phases[..n - 1], n - 1);
      responses := front + [phases[n - 1].response];
      EndLast(links, phases, front, n - 1);
    }
  }

  // When wg.Wait returns, every link has been checked and the result holds exactly
  // the inaccessible ones, each once, in whatever order they came in.
  lemma ResultIsExact(links: seq<Link>, maxConcurrent: nat, r: Run) returns (responses: seq<Response>)
    requires IsRun(links, maxConcurrent, r) && Finished(r.states[|r.steps|])
    ensures |responses| == |links|
    ensures multiset(r.states[|r.steps|].inaccessible) == Expected(links, responses)
    ensures forall x :: x in r.states[|r.steps|].inaccessible <==> ToldOf(links, responses, x)
    ensures forall i | 0 <= i < |links| :: i in r.states[|r.steps|].performed
    ensures forall i | 0 <= i < |links| :: exists k :: 0 <= k < |r.steps| && r.steps[k] == Perform(i, responses[i])
  {
    var s := r.states[|r.steps|];
    RunInv(links, maxConcurrent, r, |r.steps|);
    responses := ReportedInTheEnd(links, s.phases, |links|);
    forall x ensures x in s.inaccessible <==> ToldOf(links, responses, x) {
      assert x in s.inaccessible <==> x in multiset(s.inaccessible);
      ExpectedMeans(links, responses, x, |links|);
    }
    forall i | 0 <= i < |links|
      ensures exists k :: 0 <= k < |r.steps| && r.steps[k] == Perform(i, responses[i])
    {
      var k := WasPerformed(links, maxConcurrent, r, |r.steps|, i);
      assert r.steps[k] == Perform(i, responses[i]);
    }
  }

  lemma {:induction false} WasPerformed(links: seq<Link>, maxConcurrent: nat, r: Run, n: nat, i: nat) returns (k: nat)
    requires IsRun(links, maxConcurrent, r) && n < |r.states| && i < |links|
    requires |r.states[n].phases| == |links| && r.states[n].phases[i].Checked()
    ensures k < n && r.steps[k] == Perform(i, r.states[n].phases[i].response)
    decreases n
  {
    assert n > 0;
    var s := r.states[n - 1];
    assert Next(links, maxConcurrent, s, r.states[n], r.steps[n - 1]);
    if s.phases[i].Checked() {
      k := WasPerformed(links, maxConcurrent, r, n - 1, i);
    } else {
      k := n - 1;
    }
  }

  ghost predicate Stuck(links: seq<Link>, maxConcurrent: nat, s: Checks) {
    forall s', step :: !Next(links, maxConcurrent, s, s', step)
  }

  lemma {:induction false} SomeToken(phases: seq<Phase>) returns (i: nat)
    requires Tokens(phases) > 0
    ensures i < |phases| && phases[i].HoldsToken()
  {
    var n := |phases| - 1;
    if phases[n].HoldsToken() {
      i := n;
    } else {
      i := SomeToken(phases[..n]);
    }
  }

  lemma CanStep(links: seq<Link>, maxConcurrent: nat, s: Checks) returns (s': Checks, step: Step)
    requires Inv(links, maxConcurrent, s) && !Finished(s) && maxConcurrent >= 1
    requires forall i | 0 <= i < |links| && s.phases[i].Reporting? :: Verdict(links[i], s.phases[i].response).Some?
    ensures Next(links, maxConcurrent, s, s', step)
  {
    if s.tokens > 0 {
      var i := SomeToken(s.phases);
      match s.phases[i]
      case Checking =>
        step := Perform(i, CircuitOpen);
        s' := s.(phases := s.phases[i := Reporting(CircuitOpen)], performed := s.performed + [i]);
      case Reporting(response) =>
        step := Report(i);
        s' := s.(phases := s.phases[i := Leaving(response)],
                 inaccessible := s.inaccessible + [Verdict(links[i], response).value]);
      case Leaving(response) =>
        step := Release(i);
        s' := s.(phases := s.phases[i := Gone(response)], tokens := s.tokens - 1);
    } else {
      var i :| 0 <= i < |s.phases| && !s.phases[i].Gone?;
      NoToken(s.phases, i);
      step := Acquire(i);
      s' := s.(phases := s.phases[i := Checking], tokens := s.tokens + 1);
    }
  }

  lemma {:induction false} NoToken(phases: seq<Phase>, i: nat)
    requires Tokens(phases) == 0 && i < |phases|
    ensures !phases[i].HoldsToken()
  {
    if i < |phases| - 1 {
      NoToken(phases[..|phases| - 1], i);
    }
  }

  lemma {:induction false} ReportersHaveSomething(links: seq<Link>, maxConcurrent: nat, r: Run, k: nat)
    requires IsRun(links, maxConcurrent, r) && k < |r.states|
    ensures |r.states[k].phases| == |links|
    ensures forall i | 0 <= i < |links| && r.states[k].phases[i].Reporting? ::
      Verdict(links[i], r.states[k].phases[i].response).Some?
    decreases k
  {
    if k > 0 {
      ReportersHaveSomething(links, maxConcurrent, r, k - 1);
      assert Next(links, maxConcurrent, r.states[k - 1], r.states[k], r.steps[k - 1]);
    }
  }

  // checkLinks returns, whatever the interleaving, if and only if the semaphore
  // has room for one token or there is nothing to check.
  lemma NeverStuckExactlyWhen(links: seq<Link>, maxConcurrent: nat)
    ensures (forall r: Run | IsRun(links, maxConcurrent, r) && Stuck(links, maxConcurrent, r.states[|r.steps|]) ::
      Finished(r.states[|r.steps|]))
       <==> maxConcurrent >= 1 || links == []
  {
    if maxConcurrent >= 1 || links == [] {
      forall r: Run | IsRun(links, maxConcurrent, r) && Stuck(links, maxConcurrent, r.states[|r.steps|])
        ensures Finished(r.states[|r.steps|])
      {
        RunInv(links, maxConcurrent, r, |r.steps|);
        ReportersHaveSomething(links, maxConcurrent, r, |r.steps|);
        if !Finished(r.states[|r.steps|]) {
          var s', step := CanStep(links, maxConcurrent, r.states[|r.steps|]);
          assert false;
        }
      }
    } else {
      var r := Run([Start(links)], []);
      StartValues(links);
      assert IsRun(links, maxConcurrent, r) && Stuck(links, maxConcurrent, r.states[|r.steps|]);
      assert !r.states[|r.steps|].phases[0].Gone?;
    }
  }
}
