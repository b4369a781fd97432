# Live rewrite handler: request policy

This project models pywb's live-web `RewriteHandler` (in `pywb/webapp/live_rewrite_handler.py`) and proves properties of the model. The handler fetches a resource from the live web. Before it fetches, it applies a Range-request policy for a configured upstream proxy. After it fetches, it may chain a "ping" onto the end of the response body. The ping is a second, proxied request that lets a recording proxy capture the whole resource. A dedup cache of URL fingerprints keeps a URL from being pinged again once a ping for it has succeeded, for requests served one after another. The cache is checked when a response is rendered but marked only when its body is drained, so two responses rendered before either is drained both ping (`LiveRewrite.OverlappingRequestsBothPing`), and a failed ping is retried.

The modules follow the handler's structure:

- `LiveTypes` holds the shared values: the request environment, header lists, URLs, Python truthiness, and the failures that can escape.
- `PyBuiltins` models the Python 2 built-ins the handler leans on: `int()` on a header value, `str.format` with one positional field, and ASCII `lower()`.
- `HttpHeaders` models the mutable status-and-headers container and its case-insensitive `get_header`.
- `DedupCache` models `_check_url_cache` and the effect of `do_ping` on the cache.
- `RangePolicy` models the range decision of `render_content`.
- `VideoInfo` models `get_video_info`.
- `ResponseAssembly` models the live cookie and the re-added range.
- `LiveRewrite` holds `Render`, the pure specification of `render_content`. It also holds the `RewriteHandler` class, whose methods are proved against `Render`: `HandleRequest`, `RenderContent`, `MakeResponse`, `AddProxyPing`, `DoPing`, `WrapBuffGen`.

Collaborators whose code is not part of this model are inputs, given as values or functions:

- the live fetcher (`LiveRewriter.fetch_request`);
- `extract_range`, `extract_referrer_wburl_str` and `WbUrl` parsing;
- `StatusAndHeaders.add_range`;
- the youtube-dl extractor and `HttpsUrlRewriter.remove_https`;
- the outcome of each outgoing network request.

`hashlib.md5(url).hexdigest()` is an abstract fingerprint function into 32-character lower-case hex strings.

The response body generator is modelled by the number of `next()` calls its consumer makes. The first `|gen|` calls yield the fetched chunks. The call after that runs `do_ping` once and ends the stream. A consumer that stops early never triggers the ping.

Behaviours of the code that the proofs make explicit:

- A Range end of `0` is falsy in Python. So `bytes=0-0` is handled like `bytes=0-`: the range is stripped and the full length is re-added (`RangePolicy.ZeroEndCountsAsOpen`).
- When the range must be re-added and the response has no Content-Length header, `int(None)` raises TypeError. Only ValueError is caught, so the whole request fails (`ResponseAssembly.MissingLengthRaises`).
- A failed ping deletes the key, even when the key was already marked by another response (`DedupCache.FailedPingDropsEarlierMark`).
- The GET of a ping is guarded. The video-info request that follows it when there is a referrer (:175-178) is not guarded, and `wrap_buff_gen` re-raises it (:183-186), so its failure reaches the consumer after the last chunk (`LiveRewrite.PingFailure`, `LiveRewrite.RewriteHandler.WrapBuffGen`).
- A `vi_` request is answered by `get_video_info` alone (:67-68). `handle_request` (:50-61) wraps every exception `render_content` raises, so an extraction failure in metadata mode also becomes the `400 Bad Live Resource` exception.
- The fetcher is handed the request's own environment (:106) and may write into it. The cookie (:129) and the referrer a ping captures (:150) are read from the environment as the fetcher left it.

## Model

| member | source | states |
|---|---|---|
| PyBuiltins.ParseInt | pywb/webapp/live_rewrite_handler.py:114 | a string `int()` accepts holds a digit, and a negative result needs a minus sign in it |
| PyBuiltins.ParseDecimal | pywb/webapp/live_rewrite_handler.py:114 | `int()` reads back every decimal numeral as the number it denotes |
| PyBuiltins.ParseNegativeDigits | pywb/webapp/live_rewrite_handler.py:114 | `int()` reads a minus sign followed by digits as the negated number |
| PyBuiltins.RejectsStrayCharacter | pywb/webapp/live_rewrite_handler.py:113-117 | `int()` raises ValueError on any string holding a character that is not whitespace, a sign or a digit |
| PyBuiltins.Format | pywb/webapp/live_rewrite_handler.py:131 | formatting the cookie template can fail only on a brace in the template |
| PyBuiltins.FormatLiteral | pywb/webapp/live_rewrite_handler.py:131 | a cookie template without braces formats to itself |
| PyBuiltins.FormatOneField | pywb/webapp/live_rewrite_handler.py:131 | a template with one `{0}` field formats to the timestamp spliced in at that place |
| PyBuiltins.FormatStrayBrace | pywb/webapp/live_rewrite_handler.py:131 | in the modelled `format` (fields other than `{0}` are out of scope), a `{` that opens neither `{{` nor `{0}` is rejected |
| HttpHeaders.FindHeader | pywb/webapp/live_rewrite_handler.py:112 | the lookup answers None exactly when no header has the name (ignoring ASCII case); otherwise it gives the value of the first header with that name |
| HttpHeaders.FindAfterAppend | pywb/webapp/live_rewrite_handler.py:112 | appending a header changes a lookup only when no earlier header answered it |
| HttpHeaders.StatusHeaders.GetHeader | pywb/webapp/live_rewrite_handler.py:112 | the lookup answers None exactly when no header in the container has the name (ignoring ASCII case), and otherwise the value of the first header with that name |
| HttpHeaders.StatusHeaders.Append | pywb/webapp/live_rewrite_handler.py:132 | the header list becomes the old list plus the new header, and the status line is kept |
| HttpHeaders.StatusHeaders.Replace | pywb/webapp/live_rewrite_handler.py:115 | the container takes on the head computed by `add_range` |
| DedupCache.CheckUrlCache | pywb/webapp/live_rewrite_handler.py:136-147 | the result is None exactly when the URL's fingerprint is marked; otherwise it is that fingerprint |
| DedupCache.MarkPinged | pywb/webapp/live_rewrite_handler.py:159-172 | after a ping the key is marked exactly when the GET succeeded, and every other key is as before |
| DedupCache.CheckAfterPing | pywb/webapp/live_rewrite_handler.py:144-172 | after a successful ping the URL is skipped; after a failed one it is offered again |
| DedupCache.FailedPingDropsEarlierMark | pywb/webapp/live_rewrite_handler.py:159-172 | a failed ping removes the key even when it was marked before the ping |
| DedupCache.AtMostOneSuccessfulPing | pywb/webapp/live_rewrite_handler.py:99-100 | for requests served one after another, each fingerprint gets at most one successful ping, and none when it was marked to begin with |
| RangePolicy.Decide | pywb/webapp/live_rewrite_handler.py:77-100 | with a proxy and a range: an open range from 0 with a 206 sets the re-add flag; any other range bypasses the proxy and takes the cache's key; otherwise neither happens; the two outcomes exclude each other |
| RangePolicy.ZeroEndCountsAsOpen | pywb/webapp/live_rewrite_handler.py:91 | an explicit end of 0 counts as an open range |
| VideoInfo.OrRequestUrl | pywb/webapp/live_rewrite_handler.py:196-200 | a falsy URL argument defaults to the request's URL |
| VideoInfo.GetVideoInfo | pywb/webapp/live_rewrite_handler.py:192-222 | success gives a 200 text response of the youtube-dl type whose body is the extracted metadata for the resolved video URL; a PUTMETA push of that body to the https-stripped info URL happens exactly when a proxy is set; it fails exactly when extraction fails or a needed push fails |
| ResponseAssembly.CookieHeader | pywb/webapp/live_rewrite_handler.py:128-132 | a Set-Cookie header is produced exactly when the template and the CDX record are truthy, with the formatted timestamp as its value; a missing timestamp, a non-record CDX or a bad template raises |
| ResponseAssembly.DefaultCookieValue | pywb/webapp/live_rewrite_handler.py:29 | the default cookie is `pywb.timestamp=<ts>; max-age=60` |
| ResponseAssembly.ReaddRange | pywb/webapp/live_rewrite_handler.py:111-117 | a missing Content-Length raises TypeError; a malformed one leaves the head as it was; a numeral n adds the range (0, n, n) |
| ResponseAssembly.Assemble | pywb/webapp/live_rewrite_handler.py:109-117 | the head fails exactly when the cookie step raises or a range must be re-added and Content-Length is missing (then with TypeError); without a range the status line and fetched headers are kept as a prefix |
| ResponseAssembly.AssemblePreservesHeaders | pywb/webapp/live_rewrite_handler.py:124-134 | without a range to re-add, the fetched status line and headers are kept in order, and one header follows them exactly when a cookie is due |
| ResponseAssembly.FullRangeRestored | pywb/webapp/live_rewrite_handler.py:111-115 | a numeric Content-Length n gets the range 0..n re-added, even with the cookie appended before it |
| ResponseAssembly.MissingLengthRaises | pywb/webapp/live_rewrite_handler.py:111-114 | with the range to re-add, a missing Content-Length fails the request with TypeError |
| ResponseAssembly.MalformedLengthIgnored | pywb/webapp/live_rewrite_handler.py:113-117 | a malformed Content-Length leaves the head as the cookie step left it |
| LiveRewrite.Referrer | pywb/webapp/live_rewrite_handler.py:150 | the referrer is REL_REFERER exactly when the environment holds it as a string |
| LiveRewrite.EnvAfterFetch | pywb/webapp/live_rewrite_handler.py:102-109 | after the fetch the request's environment is the one the fetcher left, or the one it was handed when it raised |
| LiveRewrite.Render | pywb/webapp/live_rewrite_handler.py:66-122 | only `vi_` requests give the metadata answer; a failure before the fetch is a referrer parse failure or a missing HTTP_RANGE; after the fetch the request holds the fetched URL and the environment the fetcher left, and a served body carries the fetched chunks |
| LiveRewrite.WithReferrer | pywb/webapp/live_rewrite_handler.py:73-75 | a truthy referrer wb_url is parsed into REL_REFERER; a parse failure raises; otherwise the environment is unchanged |
| LiveRewrite.StripRange | pywb/webapp/live_rewrite_handler.py:91-94 | HTTP_RANGE is deleted only for a stripped range, and deleting a missing HTTP_RANGE raises KeyError |
| LiveRewrite.PingFor | pywb/webapp/live_rewrite_handler.py:119-120 | a body is wrapped exactly when a key was obtained, with that key, the range URL and the referrer read at wrapping time |
| LiveRewrite.VideoModeDispatch | pywb/webapp/live_rewrite_handler.py:67-68 | a `vi_` request is answered by `get_video_info` alone, whatever the cache holds |
| LiveRewrite.NoRangePolicy | pywb/webapp/live_rewrite_handler.py:84-107 | without a proxy or a range, the request is fetched with its URL and post-referrer environment through the proxy settings, ends with the environment the fetcher left, and its body is not wrapped |
| LiveRewrite.OpenRangeStripped | pywb/webapp/live_rewrite_handler.py:90-117 | `bytes=0-` through a proxy refetches the range URL without HTTP_RANGE, through the proxy, with no ping, and serves the head with the range re-added; it raises KeyError when HTTP_RANGE is absent |
| LiveRewrite.PartialRangeGoesDirect | pywb/webapp/live_rewrite_handler.py:95-100 | any other range through a proxy bypasses the proxy, keeps the URL, hands the environment over unchanged, and is wrapped exactly when the URL is not yet marked, with the referrer the fetcher left in the environment |
| LiveRewrite.OverlappingRequestsBothPing | pywb/webapp/live_rewrite_handler.py:99-100 | two requests for the same unmarked partial range, both rendered before either body is drained, both carry a ping with the same key |
| LiveRewrite.SecondRequestAfterPing | pywb/webapp/live_rewrite_handler.py:99-100 | once a first response's ping has succeeded, a second request for the same partial range is served without a ping; after a failure it gets one with the same key |
| LiveRewrite.LoadFailure | pywb/webapp/live_rewrite_handler.py:21-23 | the exception carries the URL, the message that names the URL, and the status `400 Bad Live Resource` |
| LiveRewrite.PingFailure | pywb/webapp/live_rewrite_handler.py:174-178 | a ping raises exactly when a referrer was captured and the video-info request for it fails, and then with that failure (an extraction or push failure) |
| LiveRewrite.RewriteHandler.constructor | pywb/webapp/live_rewrite_handler.py:35-48 | the proxy and cookie template are read from the config (the cookie defaulting to LIVE_COOKIE), the cache starts empty, and no ping has been sent |
| LiveRewrite.RewriteHandler.HandleRequest | pywb/webapp/live_rewrite_handler.py:50-61 | the request raises exactly when the rendering fails, with the URL the request holds after the failure; otherwise the rendering is served |
| LiveRewrite.RewriteHandler.RenderContent | pywb/webapp/live_rewrite_handler.py:66-122 | the result, the fetch issued and the request's new environment and URL are those of `Render` |
| LiveRewrite.RewriteHandler.ApplyRangePolicy | pywb/webapp/live_rewrite_handler.py:77-100 | the locals agree with `Decide`, and the request's environment and URL are updated as `StripRange` and the re-add flag say |
| LiveRewrite.RewriteHandler.BuildResponse | pywb/webapp/live_rewrite_handler.py:109-122 | the response carries the assembled head and the fetched body, wrapped exactly as `PingFor` says; any failure of assembly is raised |
| LiveRewrite.RewriteHandler.MakeResponse | pywb/webapp/live_rewrite_handler.py:124-134 | the cookie is appended as `CookieHeader` says, or its failure is raised with the headers untouched |
| LiveRewrite.RewriteHandler.AddProxyPing | pywb/webapp/live_rewrite_handler.py:149-190 | the body keeps its chunks and gains the ping, with the referrer read at wrapping time |
| LiveRewrite.RewriteHandler.DoPing | pywb/webapp/live_rewrite_handler.py:152-178 | the cache becomes `MarkPinged` of the old cache, one proxied GET is logged, and it raises exactly what `PingFailure` says |
| LiveRewrite.RewriteHandler.WrapBuffGen | pywb/webapp/live_rewrite_handler.py:179-187 | the consumer receives the chunks it asked for; the ping is sent exactly once when the generator is drained and never before; the cache changes only then; the consumer receives exactly the ping's failure, re-raised |
| LiveRewrite.RewriteHandler.ConsumeBody | pywb/webapp/live_rewrite_handler.py:189 | a plain body yields its chunks, never pings and never raises; a drained wrapped body sends its ping once, updates the cache and re-raises the ping's failure |

## Left out

- Network I/O: the proxied GET of a ping, the PUTMETA push and the live fetch are modelled only by their outcomes (succeeded or raised). Their headers (`Connection: close`), `verify=False` and the proxy dictionaries are not modelled.
- `LiveRewriter.fetch_request`, `HeadInsertView`, the URL rewriter and the (always empty) live request headers are not modelled beyond the fetch arguments the handler decides: URL, environment, and whether proxies are ignored.
- `YoutubeDLWrapper` and the lazy construction of `self.youtubedl` are not modelled. The extractor is an input function, and `json.dumps` is folded into its answer.
- MD5 is an abstract fingerprint function, and collisions between URLs are possible in the model as in the code.
- `create_cache` is a set with no expiry or eviction. A cache of None and an empty cache are the same set, since both hold no keys.
- `extract_range`, `extract_referrer_wburl_str`, `WbUrl`, `add_range` and `remove_https` are inputs. The model assumes two things about helpers whose code is not part of this model: `get_header` returns the first header whose name matches without regard to ASCII case, and `text_response` answers `200 OK`.
- PyBuiltins.Format: a template holding any replacement field other than `{0}` (`{}`, `{0!r}`, `{0:>5}`, `{name}`) is treated as raising.
- A `REL_REFERER` value that is not a string is treated as no referrer.
- Concurrency: thread-level interleaving inside one call (two threads inside `render_content` or `do_ping` at once) is not modelled; each method runs to completion. Requests rendered and drained in any order are expressible, and `DedupCache.AtMostOneSuccessfulPing` covers only requests served one after another.
- Traceback printing in `handle_request`, route wiring and `__str__` are left out.
- PyBuiltins.ParseInt does not model the conversion to Python 2 `long` on overflow, since integers are unbounded here.
- LiveRewrite.EnvAfterFetch: a fetch that raises is taken to leave the environment as it was handed over; writes the fetcher makes before raising are not modelled, since the request then fails as a whole.
- The ping captures the request's URL as a value when the body is wrapped. Nothing in the handler changes it afterwards.
