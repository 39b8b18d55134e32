/** Repository identities and the dispatch key that the store, the handles and
    the recovery loop all share. */
module RepoKey {

  datatype Option<+T> = None | Some(value: T)

  datatype Repo = Repo(platform: string, fullName: string) {
    function Key(): string {
      platform + ":" + fullName
    }
  }

  /** Position of the first colon, or |s| when there is none. */
  function FirstColon(s: string): (n: nat)
    ensures n <= |s|
    ensures ':' !in s[..n]
    ensures n < |s| ==> s[n] == ':'
  {
    if s == [] || s[0] == ':' then 0
    else
      var n := 1 + FirstColon(s[1..]);
      assert s[..n] == [s[0]] + s[1..][..n - 1];
      n
  }

  /** strings.SplitN(key, ":", 2): the recovery loop skips a key that does not
      split into two parts. */
  function SplitKey(key: string): (r: Option<Repo>)
    ensures r.None? <==> ':' !in key
    ensures r.Some? ==> r.value.Key() == key && ':' !in r.value.platform
  {
    var n := FirstColon(key);
    if n == |key| then
      assert key == key[..n];
      None
    else
      assert key == key[..n] + ":" + key[n + 1..];
      Some(Repo(key[..n], key[n + 1..]))
  }

  /** A colon-free prefix ends exactly at the first colon. */
  lemma FirstColonAfter(p: string, rest: string)
    requires ':' !in p
    ensures FirstColon(p + ":" + rest) == |p|
  {
    var s := p + ":" + rest;
    assert forall k :: 0 <= k < |p| ==> s[k] == p[k];
    assert s[|p|] == ':';
  }

  /** Recovery rebuilds exactly the repo that was queued, whatever colons its
      full name holds, if and only if the platform name has no colon. */
  lemma SplitKeyRoundTrip(r: Repo)
    ensures SplitKey(r.Key()) == Some(r) <==> ':' !in r.platform
  {
    if ':' !in r.platform {
      FirstColonAfter(r.platform, r.fullName);
      var key := r.Key();
      assert key[..|r.platform|] == r.platform;
      assert key[|r.platform| + 1..] == r.fullName;
      assert key[|r.platform|] == ':';
    }
  }

  /** Colon-free platform names make the key unique per repo. */
  lemma KeyInjective(a: Repo, b: Repo)
    requires ':' !in a.platform && ':' !in b.platform
    ensures a.Key() == b.Key() <==> a == b
  {
    SplitKeyRoundTrip(a);
    SplitKeyRoundTrip(b);
  }

  /** Whatever the platform name holds, recovery rebuilds the one repo with a
      colon-free platform name that has the key. That is another repo as soon as
      the platform name holds a colon: the two share one lock. */
  lemma ColonPlatformsCollide(r: Repo, other: Repo)
    ensures var rebuilt := SplitKey(r.Key()).value;
            && rebuilt.Key() == r.Key() && ':' !in rebuilt.platform
            && (rebuilt != r <==> ':' in r.platform)
            && (other.Key() == r.Key() && ':' !in other.platform ==> other == rebuilt)
  {
    assert ':' in r.Key();
    SplitKeyRoundTrip(r);
    SplitKeyRoundTrip(other);
  }
}
