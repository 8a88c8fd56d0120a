/** The etcd key layout: how the publisher renders keys and how both caches read them back. */
module Keys {
  import opened Prelude

  const MANIFESTS_PREFIX := "/onezox/manifests/"
  const ACTIVE_PREFIX := "/onezox/active/"

  function ManifestKeyText(ref: string, version: string): string {
    MANIFESTS_PREFIX + (ref + ("/" + version))
  }

  function ActiveKeyText(ref: string): string {
    ACTIVE_PREFIX + ref
  }

  /** Splits at the first slash. */
  function SplitAtSlash(s: string): (r: Option<(string, string)>)
    ensures r.None? <==> '/' !in s
    ensures r.Some? ==> s == r.value.0 + ("/" + r.value.1) && '/' !in r.value.0
  {
    if s == "" then None
    else if s[0] == '/' then
      assert s == "" + ("/" + s[1..]);
      Some(("", s[1..]))
    else
      assert s == [s[0]] + s[1..];
      match SplitAtSlash(s[1..])
      case None => None
      case Some((a, b)) =>
        assert s == ([s[0]] + a) + ("/" + b);
        Some(([s[0]] + a, b))
  }

  datatype Key = ManifestKey(ref: string, version: string) | ActiveKey(ref: string) | OtherKey

  /** The rest of `key` after `prefix`. */
  function Strip(key: string, prefix: string): Option<string> {
    if prefix <= key then Some(key[|prefix|..]) else None
  }

  /** What a put on `key` concerns; empty parts are skipped. */
  function ParseKey(key: string): Key {
    match Strip(key, MANIFESTS_PREFIX)
    case Some(rest) =>
      (match SplitAtSlash(rest)
       case Some((ref, version)) => if ref != "" && version != "" then ManifestKey(ref, version) else OtherKey
       case None => OtherKey)
    case None =>
      match Strip(key, ACTIVE_PREFIX)
      case Some(ref) => if ref != "" then ActiveKey(ref) else OtherKey
      case None => OtherKey
  }

  lemma {:induction false} SplitIsFirst(a: string, b: string)
    ensures SplitAtSlash(a + ("/" + b)) == Some((a, b)) <==> '/' !in a
  {
    var s := a + ("/" + b);
    assert s[|a|] == '/';
    var r := SplitAtSlash(s).value;
    if '/' !in a {
      assert s[|r.0|] == '/';
      assert forall i | 0 <= i < |r.0| :: s[i] == r.0[i] && r.0[i] in r.0;
      assert forall i | 0 <= i < |a| :: s[i] == a[i] && a[i] in a;
      assert |r.0| == |a|;
      assert r.0 == s[..|a|] == a;
      assert r.1 == s[|a| + 1..] == b;
    }
  }

  lemma StripRendered(prefix: string, rest: string)
    ensures Strip(prefix + rest, prefix) == Some(rest)
  {
  }

  /** A published manifest key reads back as its own parts exactly for non-empty parts and a slash-free model. */
  lemma ManifestKeyRoundTrip(ref: string, version: string)
    ensures ParseKey(ManifestKeyText(ref, version)) == ManifestKey(ref, version) <==>
            ref != "" && version != "" && '/' !in ref
  {
    StripRendered(MANIFESTS_PREFIX, ref + ("/" + version));
    SplitIsFirst(ref, version);
  }

  lemma ActiveKeyRoundTrip(ref: string)
    ensures ParseKey(ActiveKeyText(ref)) == ActiveKey(ref) <==> ref != ""
  {
    StripRendered(ACTIVE_PREFIX, ref);
    assert ActiveKeyText(ref)[8] == 'a' && MANIFESTS_PREFIX[8] == 'm';
  }

  /** Two different publications never share a key. */
  lemma ManifestKeysDistinct(r1: string, v1: string, r2: string, v2: string)
    requires '/' !in r1 && '/' !in r2
    requires ManifestKeyText(r1, v1) == ManifestKeyText(r2, v2)
    ensures r1 == r2 && v1 == v2
  {
    StripRendered(MANIFESTS_PREFIX, r1 + ("/" + v1));
    StripRendered(MANIFESTS_PREFIX, r2 + ("/" + v2));
    SplitIsFirst(r1, v1);
    SplitIsFirst(r2, v2);
  }
}
