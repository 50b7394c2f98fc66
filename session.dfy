/**
 * The controller's session data: the record the host persists for it, the
 * local token cache, the order in which a saved token is accepted, and the
 * profile-version text.
 *
 * Timestamps are integer seconds on one clock.
 */
module Session {
  import opened Common

  /**
   * The host-persisted custom data, by the keys the controller reads:
   * `access_token`, `expires` and `prof_ver`. An absent key is None.
   */
  datatype CustomData = CustomData(accessToken: Option<string>, expires: Option<int>, profVer: Option<string>)

  /** The decoded local token cache: its `access_token` and `expires` keys. */
  datatype CacheFile = CacheFile(accessToken: Option<string>, expires: Option<int>)

  /** Where token resolution found a usable saved token, or that a PIN exchange is needed. */
  datatype Resolution = FromDatabase(token: string) | FromCache(token: string, expires: int) | NeedPin

  /**
   * The saved-token part of token resolution: the host's record first, then
   * the cache file. A stored token with no expiry is used anyway; a stored
   * expiry is still good AT the expiry second, a cached one is not.
   */
  function ResolveToken(custom: Option<CustomData>, cache: Option<CacheFile>, now: int): (r: Resolution)
    ensures custom.Some? && custom.value.accessToken.Some? && custom.value.expires.None? ==>
      r == FromDatabase(custom.value.accessToken.value)
    ensures custom.Some? && custom.value.accessToken.Some? && custom.value.expires.Some? ==>
      (r.FromDatabase? <==> now <= custom.value.expires.value)
    ensures r.FromDatabase? ==> custom.Some? && custom.value.accessToken == Some(r.token)
    ensures r.FromCache? <==>
      !r.FromDatabase? && cache.Some? && cache.value.accessToken.Some? && cache.value.expires.Some?
      && now < cache.value.expires.value
    ensures r.FromCache? ==> cache == Some(CacheFile(Some(r.token), Some(r.expires)))
  {
    if custom.Some? && custom.value.accessToken.Some? && (custom.value.expires.None? || !(now > custom.value.expires.value)) then
      FromDatabase(custom.value.accessToken.value)
    else if cache.Some? && cache.value.accessToken.Some? && cache.value.expires.Some? && now < cache.value.expires.value then
      FromCache(cache.value.accessToken.value, cache.value.expires.value)
    else
      NeedPin
  }

  /** A token the host's record holds is never passed over for the cache file, whatever the cache holds. */
  lemma DatabaseFirst(custom: Option<CustomData>, cache: Option<CacheFile>, other: Option<CacheFile>, now: int)
    requires ResolveToken(custom, cache, now).FromDatabase?
    ensures ResolveToken(custom, other, now) == ResolveToken(custom, cache, now)
  {
  }

  /** The profile-version file's text with every line break removed. */
  function StripNewlines(s: string): (r: string)
    ensures '\n' !in r
    ensures |r| <= |s|
    ensures forall c :: c != '\n' ==> (c in r <==> c in s)
    ensures '\n' !in s ==> r == s
    ensures multiset(r) == multiset(s)['\n' := 0]
    decreases |s|
  {
    if |s| == 0 then ""
    else
      assert s == [s[0]] + s[1..];
      if s[0] == '\n' then StripNewlines(s[1..])
      else [s[0]] + StripNewlines(s[1..])
  }

  /** Stripping works piecewise, so the kept characters stay in their order. */
  lemma {:induction false} StripNewlinesAppend(a: string, b: string)
    ensures StripNewlines(a + b) == StripNewlines(a) + StripNewlines(b)
    decreases |a|
  {
    if |a| > 0 {
      assert (a + b)[0] == a[0] && (a + b)[1..] == a[1..] + b;
      StripNewlinesAppend(a[1..], b);
    } else {
      assert a + b == b;
    }
  }

  /** Stripping twice is stripping once. */
  lemma StripNewlinesIdempotent(s: string)
    ensures StripNewlines(StripNewlines(s)) == StripNewlines(s)
  {
  }
}
