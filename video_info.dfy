/** get_video_info: the metadata-mode answer. The extractor, the https
    stripping and the PUTMETA push are outside collaborators, given as a
    VideoWorld; the model keeps the URL defaulting, the content type, the
    push's target and payload, and which failures escape. */
module VideoInfo {
  import opened LiveTypes

  const YoutubeDlType: string := "application/vnd.youtube-dl_formats+json"

  /** The non-standard verb that pushes metadata to the proxy */
  const PutMeta: string := "PUTMETA"

  datatype VideoWorld = VideoWorld(
    extract: Url -> Option<string>,  // the extractor's JSON document for a URL; None when it raises
    removeHttps: Url -> Url,         // HttpsUrlRewriter.remove_https
    pushOk: bool)                    // whether the PUTMETA request completes without raising

  /** An outgoing push request: verb, target, body and Content-Type */
  datatype Push = Push(verb: string, url: Url, data: string, contentType: string)

  /** The text response, with the push the call sent on the way (if any) */
  datatype VideoReply = VideoReply(status: string, contentType: string, body: string, push: Option<Push>)

  /** `if not u: u = wbrequest.wb_url.url` */
  function OrRequestUrl(given: Option<Url>, requestUrl: Url): (u: Url)
    ensures Truthy(given) ==> u == given.value
    ensures !Truthy(given) ==> u == requestUrl
  {
    if Truthy(given) then given.value else requestUrl
  }

  function GetVideoInfo(proxy: Option<string>, requestUrl: Url, infoUrl: Option<Url>, videoUrl: Option<Url>,
                        w: VideoWorld): (r: Result<VideoReply>)
    ensures r.Ok? ==> r.value.status == "200 OK" && r.value.contentType == YoutubeDlType
    ensures r.Ok? ==> Some(r.value.body) == w.extract(OrRequestUrl(videoUrl, requestUrl))
    ensures r.Ok? ==> (r.value.push.Some? <==> Truthy(proxy))
    ensures r.Ok? && r.value.push.Some? ==>
      r.value.push.value == Push(PutMeta, w.removeHttps(OrRequestUrl(infoUrl, requestUrl)), r.value.body, YoutubeDlType)
    ensures r.Err? <==> w.extract(OrRequestUrl(videoUrl, requestUrl)).None? || (Truthy(proxy) && !w.pushOk)
    ensures r.Err? ==> r.failure == if w.extract(OrRequestUrl(videoUrl, requestUrl)).None? then ExtractFailed else PushFailed
  {
    var video := OrRequestUrl(videoUrl, requestUrl);
    var info := OrRequestUrl(infoUrl, requestUrl);
    match w.extract(video)
    case None => Err(ExtractFailed)
    case Some(metadata) =>
      if Truthy(proxy) then
        if w.pushOk then Ok(VideoReply("200 OK", YoutubeDlType, metadata, Some(Push(PutMeta, w.removeHttps(info), metadata, YoutubeDlType))))
        else Err(PushFailed)
      else Ok(VideoReply("200 OK", YoutubeDlType, metadata, None))
  }
}
