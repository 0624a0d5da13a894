/**
 * The two strings the dispatcher composes for every call: the route key
 * that names the call's rate-limit bucket, and the URL it fetches.
 */
module Routes {
  import opened Http

  /** The bucket name, `${method}/${endpoint}`. */
  function RouteKey(m: Method, endpoint: string): string {
    m.Name() + "/" + endpoint
  }

  /** The address fetched, `${baseURL}/${version}/${endpoint}`. */
  function Url(baseURL: string, version: string, endpoint: string): string {
    baseURL + "/" + version + "/" + endpoint
  }

  /** The position of the first '/' in `s`, or |s| when there is none. */
  function FirstSlash(s: string): (i: nat)
    ensures i <= |s|
    ensures forall j :: 0 <= j < i ==> s[j] != '/'
    ensures i < |s| ==> s[i] == '/'
  {
    if s == [] || s[0] == '/' then 0 else 1 + FirstSlash(s[1..])
  }

  lemma {:induction false} FirstSlashOfJoin(a: string, b: string)
    requires '/' !in a
    ensures FirstSlash(a + "/" + b) == |a|
  {
    if a != [] {
      assert (a + "/" + b)[1..] == a[1..] + "/" + b;
      assert a[0] in a;
      FirstSlashOfJoin(a[1..], b);
    }
  }

  /** Joining with "/" after a slash-free prefix can be undone: the first slash marks the join. */
  lemma SplitAtFirstSlash(a: string, b: string, c: string, d: string)
    requires '/' !in a && '/' !in c
    ensures a + "/" + b == c + "/" + d <==> a == c && b == d
  {
    var s, t := a + "/" + b, c + "/" + d;
    if s == t {
      FirstSlashOfJoin(a, b);
      FirstSlashOfJoin(c, d);
      assert a == s[..|a|] && c == t[..|c|];
      assert b == s[|a| + 1..] && d == t[|c| + 1..];
    }
  }

  /** Two calls share a bucket name exactly when they have the same method and endpoint. */
  lemma RouteKeyInjective(m1: Method, e1: string, m2: Method, e2: string)
    ensures RouteKey(m1, e1) == RouteKey(m2, e2) <==> m1 == m2 && e1 == e2
  {
    SplitAtFirstSlash(m1.Name(), e1, m2.Name(), e2);
    if m1.Name() == m2.Name() {
      assert m1 == m2;
    }
  }

  /** Under one base URL, a URL determines the version and the endpoint when versions have no slash. */
  lemma UrlInjective(baseURL: string, v1: string, e1: string, v2: string, e2: string)
    requires '/' !in v1 && '/' !in v2
    ensures Url(baseURL, v1, e1) == Url(baseURL, v2, e2) <==> v1 == v2 && e1 == e2
  {
    var prefix := baseURL + "/";
    assert Url(baseURL, v1, e1) == prefix + (v1 + "/" + e1);
    assert Url(baseURL, v2, e2) == prefix + (v2 + "/" + e2);
    if Url(baseURL, v1, e1) == Url(baseURL, v2, e2) {
      var u := Url(baseURL, v1, e1);
      assert u[|prefix|..] == v1 + "/" + e1;
      assert u[|prefix|..] == v2 + "/" + e2;
    }
    SplitAtFirstSlash(v1, e1, v2, e2);
  }
}
