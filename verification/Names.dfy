// The names that version 5 UUIDs are computed from.
module Names {
  import Decimal

  function AnalysisName(normalizedUrl: string, version: int): string {
    normalizedUrl + "::v" + Decimal.Print(version)
  }

  function EventName(aggregateId: string, eventType: string, unixSeconds: int): string {
    aggregateId + "::" + eventType + "::" + Decimal.Print(unixSeconds)
  }

  // A string is split in only one way at the last occurrence of a character.
  lemma SplitAtLast(a: string, b: string, a': string, b': string, c: char)
    requires a + [c] + b == a' + [c] + b' && c !in b && c !in b'
    ensures a == a' && b == b'
  {
    var s := a + [c] + b;
    assert s[|a|] == c && s[|a'|] == c;
    assert s[..|a|] == a && s[..|a'|] == a';
    assert s[|a| + 1..] == b && s[|a'| + 1..] == b';
  }

  lemma VersionsAgree(u: string, d: string, u': string, d': string)
    requires u + "::v" + d == u' + "::v" + d' && 'v' !in d && 'v' !in d'
    ensures u == u' && d == d'
  {
    assert "::v" == "::" + ['v'];
    assert u + "::v" + d == (u + "::") + ['v'] + d && u' + "::v" + d' == (u' + "::") + ['v'] + d';
    SplitAtLast(u + "::", d, u' + "::", d', 'v');
    assert (u + "::")[..|u|] == u && (u' + "::")[..|u'|] == u';
  }

  lemma AnalysisNameInjective(u: string, v: int, u': string, v': int)
    requires AnalysisName(u, v) == AnalysisName(u', v')
    ensures u == u' && v == v'
  {
    Decimal.PrintAvoids(v, 'v');
    Decimal.PrintAvoids(v', 'v');
    VersionsAgree(u, Decimal.Print(v), u', Decimal.Print(v'));
    Decimal.PrintInjective(v, v');
  }

  // And in only one way at the first.
  lemma SplitAtFirst(a: string, b: string, a': string, b': string, c: char)
    requires a + [c] + b == a' + [c] + b' && c !in a && c !in a'
    ensures a == a' && b == b'
  {
    var s := a + [c] + b;
    assert s[|a|] == c && s[|a'|] == c;
    assert s[..|a|] == a && s[..|a'|] == a';
    assert forall i | 0 <= i < |a| :: s[i] != c;
    assert forall i | 0 <= i < |a'| :: s[i] != c;
    assert s[|a| + 1..] == b && s[|a'| + 1..] == b';
  }

  lemma Regrouped(a: string, t: string, d: string)
    ensures a + "::" + t + "::" + d == (a + [':'] + (":" + t + ":")) + [':'] + d
  {
    assert "::" == [':'] + ":" && "::" == ":" + [':'];
  }

  lemma HeadsAgree(a: string, t: string, a': string, t': string)
    requires ':' !in a && ':' !in a'
    requires a + [':'] + (":" + t + ":") == a' + [':'] + (":" + t' + ":")
    ensures a == a' && t == t'
  {
    var rest, rest' := ":" + t + ":", ":" + t' + ":";
    SplitAtFirst(a, rest, a', rest', ':');
    assert rest[1..|rest| - 1] == t && rest'[1..|rest'| - 1] == t';
  }

  // Printed UUIDs contain hexadecimal digits and hyphens only; the event type may
  // be anything.
  lemma EventNameInjective(a: string, t: string, n: int, a': string, t': string, n': int)
    requires ':' !in a && ':' !in a' && EventName(a, t, n) == EventName(a', t', n')
    ensures a == a' && t == t' && n == n'
  {
    var d, d' := Decimal.Print(n), Decimal.Print(n');
    Decimal.PrintAvoids(n, ':');
    Decimal.PrintAvoids(n', ':');
    Regrouped(a, t, d);
    Regrouped(a', t', d');
    SplitAtLast(a + [':'] + (":" + t + ":"), d, a' + [':'] + (":" + t' + ":"), d', ':');
    HeadsAgree(a, t, a', t');
    Decimal.PrintInjective(n, n');
  }
}
