// Collecting the links of a page, and sorting them for the analysis.
module LinkExtractor {
  import opened Prelude
  import opened LinkChecker

  // An href resolved against the page's address.
  datatype Target = Target(url: string, host: string)

  predicate HasPrefix(s: string, prefix: string) {
    prefix <= s
  }

  predicate Skipped(href: string, target: Target) {
    || target.url == ""
    || HasPrefix(href, "#")
    || HasPrefix(href, "javascript:")
    || HasPrefix(href, "mailto:")
    || HasPrefix(href, "tel:")
  }

  // The href leads somewhere: it is not empty and it parses.
  predicate Leads(hrefs: seq<string>, resolve: string -> Option<Target>, i: nat)
    requires i < |hrefs|
  {
    hrefs[i] != "" && resolve(hrefs[i]).Some?
  }

  // It leads to a URL that no href before it leads to.
  predicate First(hrefs: seq<string>, resolve: string -> Option<Target>, i: nat)
    requires i < |hrefs|
  {
    && Leads(hrefs, resolve, i)
    && forall j | 0 <= j < i && Leads(hrefs, resolve, j) :: resolve(hrefs[j]).value.url != resolve(hrefs[i]).value.url
  }

  predicate Kept(hrefs: seq<string>, resolve: string -> Option<Target>, i: nat)
    requires i < |hrefs|
  {
    First(hrefs, resolve, i) && !Skipped(hrefs[i], resolve(hrefs[i]).value)
  }

  function LinkTo(target: Target, host: string): Link {
    Link(target.url, if target.host == host then Internal else External)
  }

  function Collected(hrefs: seq<string>, host: string, resolve: string -> Option<Target>, n: nat): seq<Link>
    requires n <= |hrefs|
  {
    if n == 0 then []
    else Collected(hrefs, host, resolve, n - 1)
         + if Kept(hrefs, resolve, n - 1) then [LinkTo(resolve(hrefs[n - 1]).value, host)] else []
  }

  method ExtractLinks(hrefs: seq<string>, host: string, resolve: string -> Option<Target>) returns (links: seq<Link>)
    ensures links == Collected(hrefs, host, resolve, |hrefs|)
  {
    links := [];
    var seen: set<string> := {};
    var i := 0;
    while i < |hrefs|
      invariant 0 <= i <= |hrefs|
      invariant forall url ::
        url in seen <==> exists j :: 0 <= j < i && Leads(hrefs, resolve, j) && resolve(hrefs[j]).value.url == url
      invariant links == Collected(hrefs, host, resolve, i)
    {
      var href := hrefs[i];
      i := i + 1;
      if href == "" || resolve(href).None? {
        continue;
      }
      var target := resolve(href).value;
      if target.url in seen {
        continue;
      }
      seen := seen + {target.url};
      if Skipped(href, target) {
        continue;
      }
      links := links + [Link(target.url, if target.host == host then Internal else External)];
    }
  }

  lemma {:induction false} CollectedFrom(hrefs: seq<string>, host: string, resolve: string -> Option<Target>, n: nat)
    returns (at: seq<nat>)
    requires n <= |hrefs|
    ensures |at| == |Collected(hrefs, host, resolve, n)|
    ensures forall k | 0 <= k < |at| :: at[k] < n && Kept(hrefs, resolve, at[k])
    ensures forall k | 0 <= k < |at| ::
      Kept(hrefs, resolve, at[k]) && Collected(hrefs, host, resolve, n)[k] == LinkTo(resolve(hrefs[at[k]]).value, host)
    ensures forall k, l | 0 <= k < l < |at| :: at[k] < at[l]
    ensures forall i | 0 <= i < n && Kept(hrefs, resolve, i) :: i in at
  {
    at := [];
    if n > 0 {
      at := CollectedFrom(hrefs, host, resolve, n - 1);
      if Kept(hrefs, resolve, n - 1) {
        at := at + [n - 1];
      }
    }
  }

  predicate DistinctUrls(links: seq<Link>) {
    forall k, l | 0 <= k < l < |links| :: links[k].url != links[l].url
  }

  lemma NoUrlTwice(hrefs: seq<string>, host: string, resolve: string -> Option<Target>)
    ensures DistinctUrls(Collected(hrefs, host, resolve, |hrefs|))
  {
    var links := Collected(hrefs, host, resolve, |hrefs|);
    var at := CollectedFrom(hrefs, host, resolve, |hrefs|);
    forall k, l | 0 <= k < l < |links|
      ensures links[k].url != links[l].url
    {
      assert First(hrefs, resolve, at[l]) && Leads(hrefs, resolve, at[k]);
    }
  }

  // The href stays on the page, runs a script, or is for mail or the telephone.
  predicate NoPage(href: string) {
    || (|href| >= 1 && href[0] == '#')
    || (|href| >= 11 && href[..11] == "javascript:")
    || (|href| >= 7 && href[..7] == "mailto:")
    || (|href| >= 4 && href[..4] == "tel:")
  }

  lemma SkippedMeans(href: string, target: Target)
    ensures Skipped(href, target) <==> target.url == "" || NoPage(href)
  {
    assert "#" <= href ==> href[0] == "#"[0];
    assert |href| >= 1 && href[0] == '#' ==> href[..1] == "#";
  }

  // Whether a URL that the page links to is reported is decided by the first href
  // that leads to it alone: an href that is skipped hides all later links to the
  // same URL, as "#top" hides the page's own address with that fragment.
  lemma FirstHrefDecides(hrefs: seq<string>, host: string, resolve: string -> Option<Target>, i: nat)
    requires i < |hrefs| && hrefs[i] != "" && resolve(hrefs[i]).Some?
    requires forall j | 0 <= j < i && hrefs[j] != "" && resolve(hrefs[j]).Some? ::
      resolve(hrefs[j]).value.url != resolve(hrefs[i]).value.url
    ensures var links, target := Collected(hrefs, host, resolve, |hrefs|), resolve(hrefs[i]).value;
      && ((exists k :: 0 <= k < |links| && links[k].url == target.url) <==> target.url != "" && !NoPage(hrefs[i]))
      && (Link(target.url, Internal) in links <==> target.url != "" && !NoPage(hrefs[i]) && target.host == host)
      && (Link(target.url, External) in links <==> target.url != "" && !NoPage(hrefs[i]) && target.host != host)
  {
    assert First(hrefs, resolve, i);
    SkippedMeans(hrefs[i], resolve(hrefs[i]).value);
    var links, target := Collected(hrefs, host, resolve, |hrefs|), resolve(hrefs[i]).value;
    var at := CollectedFrom(hrefs, host, resolve, |hrefs|);
    if k :| 0 <= k < |links| && links[k].url == target.url {
      assert Leads(hrefs, resolve, at[k]);
      assert at[k] == i;
    }
    if !Skipped(hrefs[i], target) {
      assert Kept(hrefs, resolve, i) && i in at;
      var k :| 0 <= k < |at| && at[k] == i;
      assert links[k] == LinkTo(target, host);
    }
  }

  /******* Sorting *******/

  function Externals(links: seq<Link>): seq<Link> {
    if links == [] then []
    else
      var n := |links| - 1;
      Externals(links[..n]) + if links[n].linkType == External then [links[n]] else []
  }

  lemma ExternalsNext(links: seq<Link>, n: nat)
    requires n < |links|
    ensures Externals(links[..n + 1])
         == Externals(links[..n]) + if links[n].linkType == External then [links[n]] else []
  {
    assert links[..n + 1][..n] == links[..n];
  }

  // The external links stand in the order of the page.
  lemma {:induction false} ExternalsInOrder(links: seq<Link>, n: nat) returns (at: seq<nat>)
    requires n <= |links|
    ensures |at| == |Externals(links[..n])|
    ensures forall k | 0 <= k < |at| ::
      at[k] < n && links[at[k]].linkType == External && Externals(links[..n])[k] == links[at[k]]
    ensures forall k, l | 0 <= k < l < |at| :: at[k] < at[l]
    ensures forall i | 0 <= i < n && links[i].linkType == External :: i in at
  {
    at := [];
    if n > 0 {
      at := ExternalsInOrder(links, n - 1);
      ExternalsNext(links, n - 1);
      if links[n - 1].linkType == External {
        at := at + [n - 1];
      }
    }
  }

  method SortLinks(links: seq<Link>) returns (internalCount: nat, externalCount: nat, externalLinks: seq<Link>)
    ensures externalLinks == Externals(links)
    ensures externalCount == |externalLinks| && internalCount + externalCount == |links|
  {
    internalCount, externalCount, externalLinks := 0, 0, [];
    for i := 0 to |links|
      invariant externalLinks == Externals(links[..i])
      invariant externalCount == |externalLinks| && internalCount + externalCount == i
    {
      assert links[..i + 1][..i] == links[..i];
      match links[i].linkType
      case Internal =>
        internalCount := internalCount + 1;
      case External =>
        externalCount := externalCount + 1;
        externalLinks := externalLinks + [links[i]];
    }
    assert links[..|links|] == links;
  }

  function Parsing(links: seq<Link>, parses: string -> bool): seq<Link> {
    if links == [] then []
    else
      var n := |links| - 1;
      Parsing(links[..n], parses) + if parses(links[n].url) then [links[n]] else []
  }

  lemma {:induction false} ExternalsDistinct(links: seq<Link>)
    requires DistinctUrls(links)
    ensures DistinctUrls(Externals(links))
    ensures forall k | 0 <= k < |Externals(links)| ::
      Externals(links)[k] in links && Externals(links)[k].linkType == External
  {
    if links != [] {
      ExternalsDistinct(links[..|links| - 1]);
    }
  }

  lemma {:induction false} WantedsAreParsing(links: seq<Link>, parses: string -> bool, n: nat)
    requires DistinctUrls(links) && n <= |links| && forall k | 0 <= k < |links| :: links[k].linkType == External
    ensures Wanteds(links, parses, n) == Parsing(links[..n], parses)
  {
    if n > 0 {
      WantedsAreParsing(links, parses, n - 1);
      assert links[..n][..n - 1] == links[..n - 1];
    }
  }

  // What the link checker's filter removes from an analysed page are the URLs that
  // do not parse, and nothing else: the types and duplicates it looks for are gone.
  lemma FilterOnlyParses(hrefs: seq<string>, host: string, resolve: string -> Option<Target>, parses: string -> bool)
    ensures var links := Externals(Collected(hrefs, host, resolve, |hrefs|));
      Wanteds(links, parses, |links|) == Parsing(links, parses)
  {
    var links := Externals(Collected(hrefs, host, resolve, |hrefs|));
    NoUrlTwice(hrefs, host, resolve);
    ExternalsDistinct(Collected(hrefs, host, resolve, |hrefs|));
    WantedsAreParsing(links, parses, |links|);
    assert links[..|links|] == links;
  }
}
