/** Values shared by the live-rewrite request pipeline: URLs, WSGI environment
    values, HTTP headers, and the exceptions a request can raise. */
module LiveTypes {

  datatype Option<+T> = None | Some(value: T)

  type Url = string

  /** One piece of a response body, as a body generator yields it */
  type Chunk = string

  /** A value held in the request environment: a string (HTTP_RANGE,
      REL_REFERER) or a record such as the CDX line stored under pywb.cdx */
  datatype EnvValue = Text(text: string) | Record(fields: map<string, string>)

  type Env = map<string, EnvValue>

  datatype Header = Header(name: string, value: string)

  /** A status line with its ordered header list (pywb's StatusAndHeaders) */
  datatype Head = Head(statusline: string, headers: seq<Header>)

  /** The exceptions that can escape render_content */
  datatype Failure =
    | KeyError(key: string)  // a dict lookup or `del` on a missing key
    | TypeError              // int(None), or a str indexed by a field name
    | FormatError            // str.format on a template it rejects
    | BadWbUrl               // WbUrl(...) rejected the referrer
    | FetchFailed            // the live fetch raised
    | ExtractFailed          // the video-metadata extractor raised
    | PushFailed             // the PUTMETA push raised

  datatype Result<+T> = Ok(value: T) | Err(failure: Failure)

  /** Python truthiness of an optional string: present and non-empty */
  predicate Truthy(s: Option<string>) {
    s.Some? && s.value != ""
  }

  /** env.get(key) */
  function EnvGet(env: Env, key: string): Option<EnvValue> {
    if key in env then Some(env[key]) else None
  }

  /** Python truthiness of an environment value: a non-empty string or record */
  predicate EnvTruthy(v: Option<EnvValue>) {
    match v
    case None => false
    case Some(Text(t)) => t != ""
    case Some(Record(m)) => |m| > 0
  }
}
