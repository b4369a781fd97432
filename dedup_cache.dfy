/** The ping dedup cache: a set of URL fingerprints, each meaning "this URL has
    been pinged through the proxy". The check and the mark are two separate
    steps: the check happens while the request is rendered, the mark only when
    the response body has been drained. */
module DedupCache {
  import opened LiveTypes

  predicate IsHexDigest(k: string) {
    |k| == 32 && forall i :: 0 <= i < |k| ==> k[i] in "0123456789abcdef"
  }

  /** An MD5 hex digest; never empty, so always truthy */
  type Key = k: string | IsHexDigest(k) witness "00000000000000000000000000000000"

  /** _check_url_cache(url): the URL's fingerprint when it is not yet marked,
      None when it is. Reads the cache and never changes it. */
  function CheckUrlCache(cache: set<Key>, fingerprint: Url -> Key, url: Url): (r: Option<Key>)
    ensures r.None? <==> fingerprint(url) in cache
    ensures r.Some? ==> r.value == fingerprint(url) && r.value !in cache
  {
    var key := fingerprint(url);
    if key in cache then None else Some(key)
  }

  /** The cache after do_ping: the key is marked before the request goes out
      and deleted again when the request raises */
  function MarkPinged(cache: set<Key>, key: Key, pingOk: bool): (r: set<Key>)
    ensures key in r <==> pingOk
    ensures forall k :: k != key ==> (k in r <==> k in cache)
  {
    var marked := cache + {key};
    if pingOk then marked else marked - {key}
  }

  /** After a successful ping the URL is skipped; after a failed one it is
      offered again */
  lemma CheckAfterPing(cache: set<Key>, fingerprint: Url -> Key, url: Url, pingOk: bool)
    ensures CheckUrlCache(MarkPinged(cache, fingerprint(url), pingOk), fingerprint, url)
            == if pingOk then None else Some(fingerprint(url))
  {
  }

  /** A failed ping deletes the key even when another response's ping had
      already marked it: the reservation is not owned by the ping that made it */
  lemma FailedPingDropsEarlierMark(cache: set<Key>, key: Key)
    requires key in cache
    ensures key !in MarkPinged(cache, key, false)
    ensures MarkPinged(cache, key, false) == cache - {key}
  {
  }

  /** One request for a URL whose response is fully drained (so that its
      ping, if any, ran) before the next request arrives */
  datatype Visit = Visit(url: Url, pingOk: bool)

  /** The visits that issued a ping, in order, when each one is checked and
      drained before the next */
  function PingsIssued(cache: set<Key>, fingerprint: Url -> Key, visits: seq<Visit>): seq<Visit>
    decreases |visits|
  {
    if visits == [] then []
    else
      var v := visits[0];
      match CheckUrlCache(cache, fingerprint, v.url)
      case None => PingsIssued(cache, fingerprint, visits[1..])
      case Some(k) => [v] + PingsIssued(MarkPinged(cache, k, v.pingOk), fingerprint, visits[1..])
  }

  /** How many of the pings succeeded for URLs with fingerprint key */
  function SucceededFor(pings: seq<Visit>, fingerprint: Url -> Key, key: Key): nat {
    if pings == [] then 0
    else (if fingerprint(pings[0].url) == key && pings[0].pingOk then 1 else 0)
         + SucceededFor(pings[1..], fingerprint, key)
  }

  /** With requests served one after another, each fingerprint gets at most one
      successful ping, and none when it was marked to begin with */
  lemma {:induction false} AtMostOneSuccessfulPing(cache: set<Key>, fingerprint: Url -> Key, visits: seq<Visit>, key: Key)
    ensures SucceededFor(PingsIssued(cache, fingerprint, visits), fingerprint, key) <= if key in cache then 0 else 1
    decreases |visits|
  {
    if visits != [] {
      var v := visits[0];
      var rest := visits[1..];
      match CheckUrlCache(cache, fingerprint, v.url)
      case None =>
        AtMostOneSuccessfulPing(cache, fingerprint, rest, key);
      case Some(k) =>
        var cache' := MarkPinged(cache, k, v.pingOk);
        AtMostOneSuccessfulPing(cache', fingerprint, rest, key);
        var pings := [v] + PingsIssued(cache', fingerprint, rest);
        assert pings[1..] == PingsIssued(cache', fingerprint, rest);
    }
  }
}
