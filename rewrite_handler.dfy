/** RewriteHandler: the live-fetch request pipeline. It dispatches metadata
    requests, applies the range policy, asks the live fetcher for the resource,
    assembles the response headers and, when the URL earned a dedup key, chains
    a ping onto the end of the response body.

    Render is the specification of render_content as a function of the request
    state, the handler's settings and cache, and the collaborators' answers;
    RenderContent and HandleRequest are proved against it. */
module LiveRewrite {
  import opened LiveTypes
  import opened PyBuiltins
  import opened HttpHeaders
  import opened DedupCache
  import opened RangePolicy
  import opened VideoInfo
  import opened ResponseAssembly

  /** The wb_url modifier that selects the video-metadata answer */
  const VideoMod: string := "vi_"

  /** What the handler reads from its configuration, and the fingerprint
      function standing for the MD5 hex digest of a URL */
  datatype Settings = Settings(proxy: Option<string>, liveCookie: string, fingerprint: Url -> Key)

  /** The answers of everything render_content calls but does not define */
  datatype RequestIO = RequestIO(
    refWbUrlStr: Option<string>,              // wbrequest.extract_referrer_wburl_str()
    parseWbUrl: string -> Option<Url>,        // WbUrl(s).url; None when WbUrl raises
    rangeres: Option<RangeRes>,               // wbrequest.extract_range()
    fetch: FetchRequest -> Option<FetchResult>, // LiveRewriter.fetch_request; None when it raises
    addRange: (Head, int, int, int) -> Head,  // StatusAndHeaders.add_range
    video: VideoWorld)                        // get_video_info's collaborators

  /** The arguments of the live fetch that the core decides */
  datatype FetchRequest = FetchRequest(url: Url, env: Env, ignoreProxies: bool)

  /** The fetcher's answer: head, a finite body generator, the rewritten flag,
      and the request environment as the fetcher left it (it is handed the
      request's own env dict and may write into it, e.g. its live CDX record
      under pywb.cdx) */
  datatype FetchResult = FetchResult(head: Head, gen: seq<Chunk>, isRewritten: bool, env: Env)

  /** The request environment once the fetch is over; a fetch that raises is
      taken to leave it as it was handed over */
  function EnvAfterFetch(io: RequestIO, sent: FetchRequest): (env: Env)
    ensures io.fetch(sent).Some? ==> env == io.fetch(sent).value.env
    ensures io.fetch(sent).None? ==> env == sent.env
  {
    if io.fetch(sent).Some? then io.fetch(sent).value.env else sent.env
  }

  /** What do_ping captures: the key, the range URL, the referrer read at
      wrapping time, and the request's URL (the default for get_video_info) */
  datatype PingTask = PingTask(key: Key, url: Url, referrer: Option<Url>, requestUrl: Url)

  /** A response body: the chunks the generator yields, and the ping chained
      after the last one when the body was wrapped */
  datatype Body = Body(chunks: seq<Chunk>, onDrained: Option<PingTask>)

  /** The request state render_content reads and writes */
  datatype RequestState = RequestState(env: Env, url: Url, mod: string)

  /** The outcome of render_content, with the request state it leaves behind */
  datatype Rendering =
    | Video(reply: Result<VideoReply>)
    | LiveFailed(failure: Failure, env: Env, url: Url, issued: Option<FetchRequest>)
    | LiveServed(env: Env, url: Url, request: FetchRequest, head: Head, body: Body)
  {
    predicate Failed() {
      (Video? && reply.Err?) || LiveFailed?
    }
  }

  predicate ProxySet(s: Settings) {
    Truthy(s.proxy)
  }

  /** env.get('REL_REFERER') when it holds a string */
  function Referrer(env: Env): (r: Option<Url>)
    ensures r.Some? <==> "REL_REFERER" in env && env["REL_REFERER"].Text?
    ensures r.Some? ==> r.value == env["REL_REFERER"].text
  {
    match EnvGet(env, "REL_REFERER")
    case Some(Text(t)) => Some(t)
    case _ => None
  }

  /** The environment after the referrer step (:73-75) */
  function WithReferrer(env: Env, refWbUrlStr: Option<string>, parse: string -> Option<Url>): (r: Result<Env>)
    ensures !Truthy(refWbUrlStr) ==> r == Ok(env)
    ensures Truthy(refWbUrlStr) && parse(refWbUrlStr.value).None? ==> r == Err(BadWbUrl)
    ensures Truthy(refWbUrlStr) && parse(refWbUrlStr.value).Some? ==>
      r == Ok(env["REL_REFERER" := Text(parse(refWbUrlStr.value).value)])
  {
    if Truthy(refWbUrlStr) then
      match parse(refWbUrlStr.value)
      case None => Err(BadWbUrl)
      case Some(u) => Ok(env["REL_REFERER" := Text(u)])
    else Ok(env)
  }

  /** The environment after the range step: `del env['HTTP_RANGE']` for a
      stripped range, which raises KeyError when the header is absent */
  function StripRange(env: Env, d: Decision): (r: Result<Env>)
    ensures !d.readdRange ==> r == Ok(env)
    ensures d.readdRange ==> (r.Err? <==> "HTTP_RANGE" !in env)
    ensures d.readdRange && r.Ok? ==> r.value == env - {"HTTP_RANGE"}
    ensures r.Err? ==> r.failure == KeyError("HTTP_RANGE")
  {
    if !d.readdRange then Ok(env)
    else if "HTTP_RANGE" in env then Ok(env - {"HTTP_RANGE"})
    else Err(KeyError("HTTP_RANGE"))
  }

  /** The ping a response is wrapped with, if any (:119-120, :150) */
  function PingFor(d: Decision, env: Env, requestUrl: Url): (p: Option<PingTask>)
    requires d.cacheKey.Some? ==> d.url.Some?
    ensures p.Some? <==> d.cacheKey.Some?
    ensures p.Some? ==> p.value == PingTask(d.cacheKey.value, d.url.value, Referrer(env), requestUrl)
  {
    // a hex digest is never empty, so `if cache_key` is a presence test
    if d.cacheKey.Some? && d.cacheKey.value != "" then
      Some(PingTask(d.cacheKey.value, d.url.value, Referrer(env), requestUrl))
    else None
  }

  /** render_content, as a function of the state it reads */
  function Render(s: Settings, cache: set<Key>, rq: RequestState, io: RequestIO): (r: Rendering)
    ensures r.Video? <==> rq.mod == VideoMod
    ensures r.LiveFailed? && r.issued.None? ==> r.failure == BadWbUrl || r.failure == KeyError("HTTP_RANGE")
    ensures r.LiveFailed? && r.issued.Some? ==> r.url == r.issued.value.url && r.env == EnvAfterFetch(io, r.issued.value)
    ensures r.LiveServed? ==>
      r.url == r.request.url && io.fetch(r.request).Some?
      && r.env == io.fetch(r.request).value.env && r.body.chunks == io.fetch(r.request).value.gen
  {
    if rq.mod == VideoMod then Video(GetVideoInfo(s.proxy, rq.url, None, None, io.video))
    else match WithReferrer(rq.env, io.refWbUrlStr, io.parseWbUrl)
      case Err(f) => LiveFailed(f, rq.env, rq.url, None)
      case Ok(env1) =>
        var d := Decide(ProxySet(s), io.rangeres, cache, s.fingerprint);
        var url := if d.readdRange then d.url.value else rq.url;
        match StripRange(env1, d)
        case Err(f) => LiveFailed(f, env1, url, None)
        case Ok(env2) =>
          var sent := FetchRequest(url, env2, d.ignoreProxies);
          match io.fetch(sent)
          case None => LiveFailed(FetchFailed, env2, url, Some(sent))
          case Some(fetched) =>
            // the fetcher worked on the request's own env dict
            var env3 := fetched.env;
            match Assemble(fetched.head, s.liveCookie, env3, d.readdRange, io.addRange)
            case Err(f) => LiveFailed(f, env3, url, Some(sent))
            case Ok(head) => LiveServed(env3, url, sent, head, Body(fetched.gen, PingFor(d, env3, url)))
  }

  /** A `vi_` request is answered by get_video_info alone: no range handling,
      no cache lookup, no live fetch */
  lemma VideoModeDispatch(s: Settings, cache: set<Key>, rq: RequestState, io: RequestIO)
    requires rq.mod == VideoMod
    ensures Render(s, cache, rq, io) == Video(GetVideoInfo(s.proxy, rq.url, None, None, io.video))
    ensures forall cache' :: Render(s, cache', rq, io) == Render(s, cache, rq, io)
  {
  }

  /** Without a proxy, or without a range, the request goes to the fetcher as
      it came (bar the referrer), through the proxy settings, unwrapped */
  lemma NoRangePolicy(s: Settings, cache: set<Key>, rq: RequestState, io: RequestIO)
    requires rq.mod != VideoMod && (!ProxySet(s) || io.rangeres.None?)
    requires WithReferrer(rq.env, io.refWbUrlStr, io.parseWbUrl).Ok?
    ensures var env1 := WithReferrer(rq.env, io.refWbUrlStr, io.parseWbUrl).value;
      match Render(s, cache, rq, io)
      case LiveServed(env, url, sent, _, body) =>
        sent == FetchRequest(rq.url, env1, false) && env == EnvAfterFetch(io, sent) && url == rq.url
        && body.onDrained.None?
      case LiveFailed(_, env, url, sent) =>
        sent == Some(FetchRequest(rq.url, env1, false)) && env == EnvAfterFetch(io, sent.value) && url == rq.url
      case Video(_) => false
  {
  }

  /** `bytes=0-` through a proxy: the URL becomes the range's URL, HTTP_RANGE
      leaves the environment, the proxy is kept, no ping is chained, and the
      head is assembled with the range re-added */
  lemma OpenRangeStripped(s: Settings, cache: set<Key>, rq: RequestState, io: RequestIO)
    requires rq.mod != VideoMod && ProxySet(s) && io.rangeres.Some? && OpenFromZero(io.rangeres.value)
    requires WithReferrer(rq.env, io.refWbUrlStr, io.parseWbUrl).Ok?
    ensures var env1 := WithReferrer(rq.env, io.refWbUrlStr, io.parseWbUrl).value;
      var url := io.rangeres.value.url;
      var out := Render(s, cache, rq, io);
      ("HTTP_RANGE" !in env1 ==> out == LiveFailed(KeyError("HTTP_RANGE"), env1, url, None))
      && ("HTTP_RANGE" in env1 ==> var sent := FetchRequest(url, env1 - {"HTTP_RANGE"}, false);
            (out.LiveServed? || out.LiveFailed?) && out.url == url && out.env == EnvAfterFetch(io, sent)
            && (out.LiveServed? ==>
                  (out.request == sent && out.body.onDrained.None?
                   && Assemble(io.fetch(sent).value.head, s.liveCookie, io.fetch(sent).value.env, true, io.addRange)
                      == Ok(out.head)))
            && (out.LiveFailed? ==> out.issued == Some(sent)))
  {
  }

  /** Any other range through a proxy bypasses it, keeps the URL and hands the
      environment over unchanged, and is wrapped with a ping exactly when the URL is not marked yet */
  lemma PartialRangeGoesDirect(s: Settings, cache: set<Key>, rq: RequestState, io: RequestIO)
    requires rq.mod != VideoMod && ProxySet(s) && io.rangeres.Some? && !OpenFromZero(io.rangeres.value)
    requires WithReferrer(rq.env, io.refWbUrlStr, io.parseWbUrl).Ok?
    ensures var env1 := WithReferrer(rq.env, io.refWbUrlStr, io.parseWbUrl).value;
      var rr := io.rangeres.value;
      match Render(s, cache, rq, io)
      case LiveServed(env, url, sent, _, body) =>
        sent == FetchRequest(rq.url, env1, true) && env == EnvAfterFetch(io, sent) && url == rq.url
        && (body.onDrained.Some? <==> s.fingerprint(rr.url) !in cache)
        && (body.onDrained.Some? ==> body.onDrained.value == PingTask(s.fingerprint(rr.url), rr.url, Referrer(env), rq.url))
      case LiveFailed(_, env, url, sent) =>
        sent == Some(FetchRequest(rq.url, env1, true)) && env == EnvAfterFetch(io, sent.value) && url == rq.url
      case Video(_) => false
  {
  }

  /** The check happens at render time and the mark only once a body is
      drained: two requests for the same unmarked partial range that are both
      rendered before either body is drained both carry a ping, with the same
      key, so the URL is pinged twice */
  lemma OverlappingRequestsBothPing(s: Settings, cache: set<Key>, rq: RequestState, io: RequestIO,
                                    rq2: RequestState, io2: RequestIO)
    requires Render(s, cache, rq, io).LiveServed? && Render(s, cache, rq2, io2).LiveServed?
    requires ProxySet(s) && io.rangeres.Some? && io2.rangeres.Some? && !OpenFromZero(io.rangeres.value)
    requires io2.rangeres.value.url == io.rangeres.value.url && !OpenFromZero(io2.rangeres.value)
    requires s.fingerprint(io.rangeres.value.url) !in cache
    ensures var first := Render(s, cache, rq, io).body.onDrained;
      var second := Render(s, cache, rq2, io2).body.onDrained;
      first.Some? && second.Some? && first.value.key == second.value.key
  {
    var url := io.rangeres.value.url;
    assert Decide(ProxySet(s), io.rangeres, cache, s.fingerprint).cacheKey == Some(s.fingerprint(url));
    assert Decide(ProxySet(s), io2.rangeres, cache, s.fingerprint).cacheKey == Some(s.fingerprint(url));
  }

  /** The dedup cache at work across two requests for the same partial range:
      once the first response's body has been drained and its ping succeeded,
      the second is served without a ping; after a failed ping it gets one */
  lemma SecondRequestAfterPing(s: Settings, cache: set<Key>, rq: RequestState, io: RequestIO,
                               rq2: RequestState, io2: RequestIO, pingOk: bool)
    requires Render(s, cache, rq, io).LiveServed? && Render(s, cache, rq, io).body.onDrained.Some?
    requires rq2.mod != VideoMod && io2.rangeres.Some? && io.rangeres.Some?
    requires io2.rangeres.value.url == io.rangeres.value.url && !OpenFromZero(io2.rangeres.value)
    requires Render(s, MarkPinged(cache, Render(s, cache, rq, io).body.onDrained.value.key, pingOk), rq2, io2).LiveServed?
    ensures var first := Render(s, cache, rq, io).body.onDrained.value;
      var second := Render(s, MarkPinged(cache, first.key, pingOk), rq2, io2).body.onDrained;
      if pingOk then second.None? else second.Some? && second.value.key == first.key
  {
    var url := io.rangeres.value.url;
    var d := Decide(ProxySet(s), io.rangeres, cache, s.fingerprint);
    assert d.cacheKey == Some(s.fingerprint(url));
    var first := Render(s, cache, rq, io).body.onDrained.value;
    assert first.key == s.fingerprint(url);
    var cache' := MarkPinged(cache, first.key, pingOk);
    CheckAfterPing(cache, s.fingerprint, url, pingOk);
    var d2 := Decide(ProxySet(s), io2.rangeres, cache', s.fingerprint);
    assert d2.cacheKey == CheckUrlCache(cache', s.fingerprint, url);
  }

  /** A request with its wb_url: the environment and the URL are updated in place */
  class WbRequest {
    var env: Env
    var url: Url
    const mod: string

    constructor (env: Env, url: Url, mod: string)
      ensures State() == RequestState(env, url, mod)
    {
      this.env := env;
      this.url := url;
      this.mod := mod;
    }

    function State(): RequestState
      reads this
    {
      RequestState(env, url, mod)
    }
  }

  /** A live response: its header container and its (possibly wrapped) body */
  class WbResponse {
    const statusHeaders: StatusHeaders
    var body: Body

    constructor (statusHeaders: StatusHeaders, body: Body)
      ensures this.statusHeaders == statusHeaders && this.body == body
    {
      this.statusHeaders := statusHeaders;
      this.body := body;
    }
  }

  datatype Rendered = VideoText(reply: VideoReply) | Live(response: WbResponse)

  datatype LiveResourceException = LiveResourceException(msg: string, url: Url) {
    function Status(): string {
      "400 Bad Live Resource"
    }
  }

  /** The exception handle_request raises for the URL the request holds at
      the time of the failure */
  function LoadFailure(url: Url): (e: LiveResourceException)
    ensures e.url == url && e.msg == "Could not load the url from the live web: " + url
    ensures e.Status() == "400 Bad Live Resource"
  {
    LiveResourceException("Could not load the url from the live web: " + url, url)
  }

  datatype Handled = Served(rendered: Rendered) | Raised(exc: LiveResourceException)

  /** The network outcomes a ping meets: whether the proxied GET raises, and
      the collaborators of the video-info ping */
  datatype PingWorld = PingWorld(getOk: bool, video: VideoWorld)

  /** What a ping raises: only the unguarded video-info request, made when a
      referrer was captured, can fail out of do_ping */
  function PingFailure(proxy: Option<string>, task: PingTask, w: PingWorld): (f: Option<Failure>)
    ensures f.Some? <==> Truthy(task.referrer)
                         && GetVideoInfo(proxy, task.requestUrl, task.referrer, Some(task.url), w.video).Err?
    ensures f.Some? ==> f.value == GetVideoInfo(proxy, task.requestUrl, task.referrer, Some(task.url), w.video).failure
    ensures f.Some? ==> f.value == ExtractFailed || f.value == PushFailed
  {
    if Truthy(task.referrer) then
      var reply := GetVideoInfo(proxy, task.requestUrl, task.referrer, Some(task.url), w.video);
      if reply.Err? then Some(reply.failure) else None
    else None
  }

  class RewriteHandler {
    const settings: Settings
    /** The fingerprints of URLs marked as pinged (self._cache; None and an
        empty cache hold the same keys) */
    var cache: set<Key>
    /** The proxied GETs issued so far, one per do_ping run */
    ghost var pingsSent: seq<PingTask>

    constructor (config: map<string, string>, fingerprint: Url -> Key)
      ensures settings == Settings(
        if "proxyhostport" in config then Some(config["proxyhostport"]) else None,
        if "live-cookie" in config then config["live-cookie"] else DefaultLiveCookie,
        fingerprint)
      ensures cache == {} && pingsSent == []
    {
      settings := Settings(
        if "proxyhostport" in config then Some(config["proxyhostport"]) else None,
        if "live-cookie" in config then config["live-cookie"] else DefaultLiveCookie,
        fingerprint);
      cache := {};
      pingsSent := [];
    }

    /** render_content wrapped so that every failure becomes a LiveResourceException */
    method HandleRequest(req: WbRequest, io: RequestIO) returns (h: Handled, issued: Option<FetchRequest>)
      modifies req
      ensures var out := Render(settings, cache, old(req.State()), io);
        (h.Raised? <==> out.Failed())
        && (h.Raised? ==> h.exc == LoadFailure(req.url))
        && match out
           case Video(reply) =>
             issued == None && req.State() == old(req.State()) && (reply.Ok? ==> h == Served(VideoText(reply.value)))
           case LiveFailed(_, env, url, sent) =>
             issued == sent && req.env == env && req.url == url
           case LiveServed(env, url, sent, head, body) =>
             issued == Some(sent) && req.env == env && req.url == url
             && h.Served? && h.rendered.Live? && fresh(h.rendered.response) && fresh(h.rendered.response.statusHeaders)
             && h.rendered.response.statusHeaders.View() == head && h.rendered.response.body == body
    {
      var r;
      r, issued := RenderContent(req, io);
      if r.Ok? {
        h := Served(r.value);
      } else {
        h := Raised(LoadFailure(req.url));
      }
    }

    method RenderContent(req: WbRequest, io: RequestIO) returns (r: Result<Rendered>, issued: Option<FetchRequest>)
      modifies req
      ensures var out := Render(settings, cache, old(req.State()), io);
        match out
        case Video(reply) =>
          issued == None && req.State() == old(req.State())
          && (match reply case Ok(v) => r == Ok(VideoText(v)) case Err(f) => r == Err(f))
        case LiveFailed(f, env, url, sent) =>
          r == Err(f) && issued == sent && req.env == env && req.url == url
        case LiveServed(env, url, sent, head, body) =>
          issued == Some(sent) && req.env == env && req.url == url
          && r.Ok? && r.value.Live? && fresh(r.value.response) && fresh(r.value.response.statusHeaders)
          && r.value.response.statusHeaders.View() == head && r.value.response.body == body
    {
      issued := None;
      ghost var rq0 := req.State();
      if req.mod == VideoMod {
        var reply := GetVideoInfo(settings.proxy, req.url, None, None, io.video);
        if reply.Ok? {
          r := Ok(VideoText(reply.value));
        } else {
          r := Err(reply.failure);
        }
        return;
      }

      // head_insert_func and the (empty) request headers reach the fetcher
      // untouched and are not modelled
      if Truthy(io.refWbUrlStr) {
        var refUrl := io.parseWbUrl(io.refWbUrlStr.value);
        if refUrl.None? {
          r := Err(BadWbUrl);
          return;
        }
        req.env := req.env["REL_REFERER" := Text(refUrl.value)];
      }
      ghost var env1 := req.env;
      assert WithReferrer(rq0.env, io.refWbUrlStr, io.parseWbUrl) == Ok(env1);

      var d, stripped := ApplyRangePolicy(req, io);
      if stripped.Err? {
        r := Err(stripped.failure);
        return;
      }

      var sent := FetchRequest(req.url, req.env, d.ignoreProxies);
      issued := Some(sent);
      var fetched := io.fetch(sent);
      if fetched.None? {
        r := Err(FetchFailed);
        return;
      }
      // whatever the fetcher wrote into env is what the rest of render_content reads
      req.env := fetched.value.env;

      var resp := BuildResponse(req, io, d, fetched.value);
      if resp.Err? {
        r := Err(resp.failure);
        return;
      }
      r := Ok(Live(resp.value));
    }

    /** The range step of render_content (:77-100): decide the proxy bypass,
        the range URL, the re-add flag and the dedup key, and strip HTTP_RANGE
        from a `bytes=0-` request */
    method ApplyRangePolicy(req: WbRequest, io: RequestIO) returns (d: Decision, stripped: Result<Env>)
      modifies req
      ensures d == Decide(ProxySet(settings), io.rangeres, cache, settings.fingerprint)
      ensures stripped == StripRange(old(req.env), d)
      ensures req.env == if stripped.Ok? then stripped.value else old(req.env)
      ensures req.url == if d.readdRange then d.url.value else old(req.url)
    {
      var ignoreProxies := false;
      var url: Option<Url> := None;
      var readdRange := false;
      var cacheKey: Option<Key> := None;

      if ProxySet(settings) && io.rangeres.Some? {
        var rr := io.rangeres.value;
        url := Some(rr.url);
        if OpenFromZero(rr) {
          // a `bytes=0-` request: drop the range and still go through the proxy
          req.url := rr.url;
          if "HTTP_RANGE" !in req.env {
            d, stripped := Decision(false, true, url, None), Err(KeyError("HTTP_RANGE"));
            return;
          }
          req.env := req.env - {"HTTP_RANGE"};
          readdRange := true;
        } else {
          // any other range: bypass the proxy, and ping it later if the URL is new
          ignoreProxies := true;
          cacheKey := CheckUrlCache(cache, settings.fingerprint, rr.url);
        }
      }
      d, stripped := Decision(ignoreProxies, readdRange, url, cacheKey), Ok(req.env);
    }

    /** The response step of render_content (:104-122): the cookie, the
        re-added range and the ping wrapper, on the fetched head and body */
    method BuildResponse(req: WbRequest, io: RequestIO, d: Decision, fetched: FetchResult)
      returns (r: Result<WbResponse>)
      requires d.cacheKey.Some? ==> d.url.Some?
      ensures match Assemble(fetched.head, settings.liveCookie, req.env, d.readdRange, io.addRange)
        case Err(f) => r == Err(f)
        case Ok(head) =>
          r.Ok? && fresh(r.value) && fresh(r.value.statusHeaders)
          && r.value.statusHeaders.View() == head
          && r.value.body == Body(fetched.gen, PingFor(d, req.env, req.url))
    {
      var sh := new StatusHeaders(fetched.head);
      var made := MakeResponse(req, sh, fetched.gen);
      if made.Err? {
        r := Err(made.failure);
        return;
      }
      var resp := made.value;
      ghost var cookie := CookieHeader(settings.liveCookie, req.env).value;
      ghost var withCookie := WithCookie(fetched.head, cookie);
      assert sh.View() == withCookie;

      if d.readdRange {
        var contentLength := sh.GetHeader("Content-Length");
        if contentLength.None? {
          // int(None) raises TypeError, which only ValueError's handler would have spared
          r := Err(TypeError);
          assert ReaddRange(withCookie, io.addRange) == Err(TypeError);
          return;
        }
        var n := ParseInt(contentLength.value);
        if n.Some? {
          sh.Replace(io.addRange(sh.View(), 0, n.value, n.value));
        }
        assert ReaddRange(withCookie, io.addRange) == Ok(sh.View());
      }
      assert Assemble(fetched.head, settings.liveCookie, req.env, d.readdRange, io.addRange) == Ok(sh.View());

      if d.cacheKey.Some? && d.cacheKey.value != "" {
        AddProxyPing(d.cacheKey.value, d.url.value, req, resp);
      }
      r := Ok(resp);
    }

    /** _make_response: append the live cookie when there is a CDX record */
    method MakeResponse(req: WbRequest, sh: StatusHeaders, gen: seq<Chunk>) returns (r: Result<WbResponse>)
      modifies sh
      ensures match CookieHeader(settings.liveCookie, req.env)
        case Err(f) => r == Err(f) && sh.View() == old(sh.View())
        case Ok(cookie) =>
          r.Ok? && fresh(r.value) && r.value.statusHeaders == sh && r.value.body == Body(gen, None)
          && sh.View() == WithCookie(old(sh.View()), cookie)
    {
      if settings.liveCookie != "" {
        var cdx := EnvGet(req.env, "pywb.cdx");
        if EnvTruthy(cdx) {
          if cdx.value.Text? {
            r := Err(TypeError);
            return;
          }
          var fields := cdx.value.fields;
          if "timestamp" !in fields {
            r := Err(KeyError("timestamp"));
            return;
          }
          var value := Format(settings.liveCookie, fields["timestamp"]);
          if value.None? {
            r := Err(FormatError);
            return;
          }
          sh.Append(Header("Set-Cookie", value.value));
        }
      }
      var resp := new WbResponse(sh, Body(gen, None));
      r := Ok(resp);
    }

    /** _add_proxy_ping: wrap the body so that the ping runs once it is drained */
    method AddProxyPing(key: Key, url: Url, req: WbRequest, resp: WbResponse)
      modifies resp
      ensures resp.body == Body(old(resp.body.chunks), Some(PingTask(key, url, Referrer(req.env), req.url)))
    {
      var referrer := Referrer(req.env);
      resp.body := Body(resp.body.chunks, Some(PingTask(key, url, referrer, req.url)));
    }

    /** do_ping: mark the key, issue the proxied GET (unmarking on failure),
        then ping the video info when there is a referrer */
    method DoPing(task: PingTask, w: PingWorld) returns (raised: Option<Failure>)
      modifies this`cache, this`pingsSent
      ensures cache == MarkPinged(old(cache), task.key, w.getOk)
      ensures pingsSent == old(pingsSent) + [task]
      ensures raised == PingFailure(settings.proxy, task, w)
    {
      // mark as pinged before the request goes out
      cache := cache + {task.key};
      pingsSent := pingsSent + [task];
      if !w.getOk {
        cache := cache - {task.key};
      }
      raised := None;
      if Truthy(task.referrer) {
        // not guarded: a failure here escapes the body generator
        var reply := GetVideoInfo(settings.proxy, task.requestUrl, task.referrer, Some(task.url), w.video);
        if reply.Err? {
          raised := Some(reply.failure);
        }
      }
    }

    /** wrap_buff_gen, driven by a consumer that calls next() `pulls` times:
        the first |gen| calls re-yield the chunks, the next one runs do_ping,
        re-raises what it raised, and ends the stream; a consumer that stops
        earlier never triggers the ping */
    method WrapBuffGen(gen: seq<Chunk>, pulls: nat, task: PingTask, w: PingWorld)
      returns (yielded: seq<Chunk>, raised: Option<Failure>)
      modifies this`cache, this`pingsSent
      ensures yielded == if pulls <= |gen| then gen[..pulls] else gen
      ensures pingsSent == old(pingsSent) + (if pulls > |gen| then [task] else [])
      ensures cache == if pulls > |gen| then MarkPinged(old(cache), task.key, w.getOk) else old(cache)
      ensures raised == if pulls > |gen| then PingFailure(settings.proxy, task, w) else None
    {
      yielded, raised := [], None;
      var i := 0;
      while i < |gen| && i < pulls
        invariant 0 <= i <= |gen| && i <= pulls
        invariant yielded == gen[..i]
        invariant raised.None? && cache == old(cache) && pingsSent == old(pingsSent)
      {
        yielded := yielded + [gen[i]];
        i := i + 1;
      }
      if pulls > |gen| {
        raised := DoPing(task, w);
      }
    }

    /** Serving a body: a plain one yields its chunks and nothing else; a
        wrapped one goes through wrap_buff_gen */
    method ConsumeBody(body: Body, pulls: nat, w: PingWorld) returns (yielded: seq<Chunk>, raised: Option<Failure>)
      modifies this`cache, this`pingsSent
      ensures yielded == if pulls <= |body.chunks| then body.chunks[..pulls] else body.chunks
      ensures var pings := body.onDrained.Some? && pulls > |body.chunks|;
        && pingsSent == old(pingsSent) + (if pings then [body.onDrained.value] else [])
        && cache == (if pings then MarkPinged(old(cache), body.onDrained.value.key, w.getOk) else old(cache))
        && raised == (if pings then PingFailure(settings.proxy, body.onDrained.value, w) else None)
    {
      if body.onDrained.Some? {
        yielded, raised := WrapBuffGen(body.chunks, pulls, body.onDrained.value, w);
      } else {
        yielded := if pulls <= |body.chunks| then body.chunks[..pulls] else body.chunks;
        raised := None;
      }
    }
  }
}
