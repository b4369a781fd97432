/** The Range-request policy render_content applies before the live fetch
    (byte ranges as in section 2.1 of RFC 7233). Only a configured proxy makes
    it act: an open range from byte 0 is stripped and later re-added, any other
    range bypasses the proxy and may earn a ping of its own. */
module RangePolicy {
  import opened LiveTypes
  import opened DedupCache

  /** What extract_range() returns: the target URL, the first byte, the last
      byte when one was given, and whether a 206 answer is expected */
  datatype RangeRes = RangeRes(url: Url, start: int, end: Option<int>, use206: bool)

  /** Python's `not end`: no end given, or an end of 0 */
  predicate EndIsFalsy(end: Option<int>) {
    end.None? || end.value == 0
  }

  /** The `bytes=0-` request the proxy is trusted with once its range is gone */
  predicate OpenFromZero(rr: RangeRes) {
    rr.start == 0 && EndIsFalsy(rr.end) && rr.use206
  }

  /** The four locals render_content settles before fetching */
  datatype Decision = Decision(ignoreProxies: bool, readdRange: bool, url: Option<Url>, cacheKey: Option<Key>)

  function Decide(proxySet: bool, rangeres: Option<RangeRes>, cache: set<Key>, fingerprint: Url -> Key): (d: Decision)
    ensures d.readdRange <==> proxySet && rangeres.Some? && OpenFromZero(rangeres.value)
    ensures d.ignoreProxies <==> proxySet && rangeres.Some? && !OpenFromZero(rangeres.value)
    ensures d.url == if proxySet && rangeres.Some? then Some(rangeres.value.url) else None
    ensures d.cacheKey == if d.ignoreProxies then CheckUrlCache(cache, fingerprint, rangeres.value.url) else None
    ensures !(d.readdRange && d.cacheKey.Some?)
  {
    if proxySet && rangeres.Some? then
      var rr := rangeres.value;
      if OpenFromZero(rr) then Decision(false, true, Some(rr.url), None)
      else Decision(true, false, Some(rr.url), CheckUrlCache(cache, fingerprint, rr.url))
    else Decision(false, false, None, None)
  }

  /** An explicit end of 0 (`bytes=0-0`) is falsy in Python, so it is handled
      like `bytes=0-`: the range is stripped and the whole body fetched */
  lemma ZeroEndCountsAsOpen(url: Url, cache: set<Key>, fingerprint: Url -> Key)
    ensures Decide(true, Some(RangeRes(url, 0, Some(0), true)), cache, fingerprint).readdRange
  {
  }
}
