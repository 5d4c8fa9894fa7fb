// NewNormalizedURL on URLs that are already parsed into their parts. Lower-casing
// is modelled on ASCII letters.
module Urls {

  datatype Url = Url(scheme: string, user: string, host: string, path: string, query: string, fragment: string)

  function LowerChar(c: char): char {
    if 'A' <= c <= 'Z' then c - 'A' + 'a' else c
  }

  function Lower(s: string): (l: string)
    ensures |l| == |s|
    ensures forall i | 0 <= i < |s| :: l[i] == LowerChar(s[i])
  {
    seq(|s|, i requires 0 <= i < |s| => LowerChar(s[i]))
  }

  predicate HasSuffix(s: string, suffix: string) {
    |suffix| <= |s| && s[|s| - |suffix|..] == suffix
  }

  // The port that may be left out: 80 for http, 443 for https.
  function DefaultPort(scheme: string): string {
    if scheme == "http" then ":80" else if scheme == "https" then ":443" else ""
  }

  predicate HasDefaultPort(scheme: string, host: string) {
    DefaultPort(scheme) != "" && HasSuffix(host, DefaultPort(scheme))
  }

  method LastIndex(s: string, c: char) returns (k: int)
    ensures -1 <= k < |s|
    ensures k >= 0 ==> s[k] == c
    ensures forall i | k < i < |s| :: s[i] != c
  {
    k := |s| - 1;
    while k >= 0 && s[k] != c
      invariant -1 <= k < |s|
      invariant forall i | k < i < |s| :: s[i] != c
    {
      k := k - 1;
    }
  }

  function NormalHost(scheme: string, host: string): string {
    if HasDefaultPort(scheme, host) then host[..|host| - |DefaultPort(scheme)|] else host
  }

  function Normalized(u: Url): Url {
    var scheme := Lower(if u.scheme == "" then "https" else u.scheme);
    Url(scheme, u.user, NormalHost(scheme, Lower(u.host)), if u.path == "/" then "" else u.path, u.query, "")
  }

  // The parts are rewritten in place, and the host is cut at its last colon.
  class NormalizedUrl {
    var url: Url

    constructor (rawUrl: Url)
      ensures url == Normalized(rawUrl)
    {
      url := rawUrl;
      new;
      if url.scheme == "" {
        url := url.(scheme := "https");
      }
      url := url.(scheme := Lower(url.scheme));
      url := url.(host := Lower(url.host));
      if (url.scheme == "http" && HasSuffix(url.host, ":80"))
          || (url.scheme == "https" && HasSuffix(url.host, ":443")) {
        var k := LastIndex(url.host, ':');
        assert HasDefaultPort(url.scheme, url.host);
        PortStartsAtLastColon(url.scheme, url.host, k);
        url := url.(host := url.host[..k]);
      }
      if url.path == "/" {
        url := url.(path := "");
      }
      url := url.(fragment := "");
    }
  }

  // The normal form part by part: user and query stay, and only the default port of
  // the scheme is taken from the host.
  lemma NormalForm(u: Url)
    ensures var n, host := Normalized(u), Lower(u.host);
      && n.user == u.user && n.query == u.query && n.fragment == ""
      && n.path == (if u.path == "/" then "" else u.path)
      && n.scheme == (if u.scheme == "" then "https" else Lower(u.scheme))
      && host ==
           if n.scheme == "http" && HasSuffix(host, ":80") then n.host + ":80"
           else if n.scheme == "https" && HasSuffix(host, ":443") then n.host + ":443"
           else n.host
  {
    assert Lower("https") == "https";
    var n, host := Normalized(u), Lower(u.host);
    if HasDefaultPort(n.scheme, host) {
      assert host == n.host + DefaultPort(n.scheme);
    }
  }

  lemma PortStartsAtLastColon(scheme: string, host: string, k: int)
    requires HasDefaultPort(scheme, host) && -1 <= k < |host|
    requires (k >= 0 ==> host[k] == ':') && forall i | k < i < |host| :: host[i] != ':'
    ensures k == |host| - |DefaultPort(scheme)|
  {
    var port := DefaultPort(scheme);
    var start := |host| - |port|;
    assert host[start..] == port;
    assert forall i | 0 <= i < |port| :: host[start + i] == port[i];
    assert host[start] == ':';
  }

  lemma LowerIdempotent(s: string)
    ensures Lower(Lower(s)) == Lower(s)
  {
  }

  function LowerScheme(u: Url): string {
    Lower(if u.scheme == "" then "https" else u.scheme)
  }

  // The default port is there twice exactly if cutting it once leaves it there.
  lemma CutOnce(host: string, p: string)
    requires HasSuffix(host, p)
    ensures HasSuffix(host[..|host| - |p|], p) <==> HasSuffix(host, p + p)
  {
    var cut := host[..|host| - |p|];
    assert host == cut + p;
    if HasSuffix(cut, p) {
      assert cut == cut[..|cut| - |p|] + p;
      assert host == cut[..|cut| - |p|] + (p + p);
    }
    if HasSuffix(host, p + p) {
      var front := host[..|host| - |p + p|];
      assert host == front + (p + p);
      assert host == (front + p) + p;
      assert cut == front + p;
    }
  }

  lemma TwiceIsOnce(host: string, p: string)
    requires HasSuffix(host, p + p)
    ensures HasSuffix(host, p)
  {
    assert host[|host| - |p|..] == (p + p)[|p|..] == p;
  }

  // Normalising twice changes nothing more, unless the host ends in the default
  // port of its scheme twice over.
  lemma NormalizedTwice(u: Url)
    ensures var p := DefaultPort(LowerScheme(u));
      Normalized(Normalized(u)) == Normalized(u) <==> p == "" || !HasSuffix(Lower(u.host), p + p)
  {
    var n, host, p := Normalized(u), Lower(u.host), DefaultPort(LowerScheme(u));
    LowerIdempotent(if u.scheme == "" then "https" else u.scheme);
    LowerIdempotent(u.host);
    assert Lower(n.host) == n.host;
    assert n.scheme == LowerScheme(u) && n.scheme != "";
    if p != "" {
      if HasSuffix(host, p + p) { TwiceIsOnce(host, p); }
      if HasSuffix(host, p) { CutOnce(host, p); }
    }
  }

  lemma DoublePortIsNotNormal()
    ensures var u := Url("http", "", "a:80:80", "", "", ""); Normalized(Normalized(u)) != Normalized(u)
  {
    var u := Url("http", "", "a:80:80", "", "", "");
    assert Lower("http") == "http" && Lower("a:80:80") == "a:80:80" && Lower("a:80") == "a:80";
    assert "a:80:80"[4..] == ":80" && "a:80:80"[..4] == "a:80" && "a:80"[1..] == ":80";
  }

  // Spellings that differ only in letter case, an explicit default port, a bare
  // slash for the path or a fragment have one normal form.
  lemma SpellingsAgree(scheme: string, user: string, host: string, query: string, fragment: string)
    requires scheme == "http" || scheme == "https"
    ensures Normalized(Url(scheme, user, host + DefaultPort(scheme), "/", query, fragment)).host == Lower(host)
    ensures !HasDefaultPort(scheme, Lower(host)) ==>
      Normalized(Url(scheme, user, host + DefaultPort(scheme), "/", query, fragment))
          == Normalized(Url(scheme, user, host, "", query, ""))
  {
    var port := DefaultPort(scheme);
    assert Lower(scheme) == scheme && Lower(port) == port;
    assert Lower(host + port) == Lower(host) + port;
    assert (Lower(host) + port)[|host|..] == port && (Lower(host) + port)[..|host|] == Lower(host);
  }
}
