/** The header work done on a fetched response: the optional Set-Cookie
    carrying the archival timestamp, and the re-added range of a stripped
    `bytes=0-` request. The range header itself is built by an outside helper
    (add_range), given as a function. */
module ResponseAssembly {
  import opened LiveTypes
  import opened PyBuiltins
  import opened HttpHeaders

  /** The default live-cookie template, `pywb.timestamp={0}; max-age=60`, written
      around its one field */
  const DefaultLiveCookie: string := "pywb.timestamp=" + "{0}" + "; max-age=60"

  /** The timestamp field of the CDX record under pywb.cdx, when there is one */
  function CdxTimestamp(env: Env): Option<string> {
    match EnvGet(env, "pywb.cdx")
    case Some(Record(fields)) => if "timestamp" in fields then Some(fields["timestamp"]) else None
    case _ => None
  }

  /** The Set-Cookie header _make_response appends, or None, or what it raises */
  function CookieHeader(liveCookie: string, env: Env): (r: Result<Option<Header>>)
    ensures r.Ok? ==> (r.value.Some? <==> liveCookie != "" && EnvTruthy(EnvGet(env, "pywb.cdx")))
    ensures r.Ok? && r.value.Some? ==>
      r.value.value.name == "Set-Cookie" && CdxTimestamp(env).Some?
      && Format(liveCookie, CdxTimestamp(env).value) == Some(r.value.value.value)
    ensures r.Err? ==> liveCookie != "" && EnvTruthy(EnvGet(env, "pywb.cdx"))
    ensures liveCookie != "" && EnvTruthy(EnvGet(env, "pywb.cdx")) && EnvGet(env, "pywb.cdx").value.Record? ==>
      (r.Err? <==> CdxTimestamp(env).None? || Format(liveCookie, CdxTimestamp(env).value).None?)
  {
    if liveCookie == "" then Ok(None)
    else
      var cdx := EnvGet(env, "pywb.cdx");
      if !EnvTruthy(cdx) then Ok(None)
      else match cdx.value
        case Text(_) => Err(TypeError)  // a str cannot be indexed by 'timestamp'
        case Record(fields) =>
          if "timestamp" !in fields then Err(KeyError("timestamp"))
          else match Format(liveCookie, fields["timestamp"])
            case None => Err(FormatError)
            case Some(value) => Ok(Some(Header("Set-Cookie", value)))
  }

  /** With the default template the cookie is `pywb.timestamp=<ts>; max-age=60` */
  lemma DefaultCookieValue(ts: string)
    ensures Format(DefaultLiveCookie, ts) == Some("pywb.timestamp=" + ts + "; max-age=60")
  {
    var p, q := "pywb.timestamp=", "; max-age=60";
    assert NoBraces(p) by {
      forall i | 0 <= i < |p| ensures p[i] != '{' && p[i] != '}' { }
    }
    assert NoBraces(q) by {
      forall i | 0 <= i < |q| ensures q[i] != '{' && q[i] != '}' { }
    }
    FormatOneField(p, q, ts);
  }

  /** The range re-added after a stripped `bytes=0-` fetch: int() of the
      Content-Length header, then add_range(0, n, n). A ValueError leaves the
      head as it was; a missing header makes int(None) raise TypeError. */
  function ReaddRange(head: Head, addRange: (Head, int, int, int) -> Head): (r: Result<Head>)
    ensures r.Err? <==> FindHeader(head.headers, "Content-Length").None?
    ensures r.Err? ==> r.failure == TypeError
    ensures r.Ok? && ParseInt(FindHeader(head.headers, "Content-Length").value).None? ==> r.value == head
    ensures r.Ok? && ParseInt(FindHeader(head.headers, "Content-Length").value).Some? ==>
      var n := ParseInt(FindHeader(head.headers, "Content-Length").value).value;
      r.value == addRange(head, 0, n, n)
  {
    match FindHeader(head.headers, "Content-Length")
    case None => Err(TypeError)
    case Some(contentLength) =>
      match ParseInt(contentLength)
      case None => Ok(head)
      case Some(n) => Ok(addRange(head, 0, n, n))
  }

  /** The head with the cookie (if any) appended */
  function WithCookie(head: Head, cookie: Option<Header>): Head {
    if cookie.Some? then Head(head.statusline, head.headers + [cookie.value]) else head
  }

  /** Everything render_content does to the fetched head */
  function Assemble(head: Head, liveCookie: string, env: Env, readdRange: bool,
                    addRange: (Head, int, int, int) -> Head): (r: Result<Head>)
    ensures r.Err? <==> (CookieHeader(liveCookie, env).Err?
      || (readdRange && FindHeader(WithCookie(head, CookieHeader(liveCookie, env).value).headers, "Content-Length").None?))
    ensures r.Err? && CookieHeader(liveCookie, env).Ok? ==> r.failure == TypeError
    ensures r.Ok? && !readdRange ==> r.value.statusline == head.statusline && head.headers <= r.value.headers
  {
    match CookieHeader(liveCookie, env)
    case Err(f) => Err(f)
    case Ok(cookie) =>
      var h := WithCookie(head, cookie);
      if readdRange then ReaddRange(h, addRange) else Ok(h)
  }

  /** Without a range to restore, the fetched headers keep their order and
      values and at most the cookie follows them */
  lemma {:induction false} AssemblePreservesHeaders(head: Head, liveCookie: string, env: Env,
                                                    addRange: (Head, int, int, int) -> Head)
    requires Assemble(head, liveCookie, env, false, addRange).Ok?
    ensures var h := Assemble(head, liveCookie, env, false, addRange).value;
      h.statusline == head.statusline && |head.headers| <= |h.headers| <= |head.headers| + 1
      && h.headers[..|head.headers|] == head.headers
      && (|h.headers| == |head.headers| + 1 <==> liveCookie != "" && EnvTruthy(EnvGet(env, "pywb.cdx")))
  {
    var cookie := CookieHeader(liveCookie, env).value;
    if cookie.Some? {
      assert (head.headers + [cookie.value])[..|head.headers|] == head.headers;
    }
  }

  /** A `bytes=0-` fetch that reports its length as a numeral gets the full
      range 0..n re-added; the cookie appended before it cannot hide the
      Content-Length header */
  lemma FullRangeRestored(head: Head, liveCookie: string, env: Env,
                          addRange: (Head, int, int, int) -> Head, n: nat)
    requires FindHeader(head.headers, "Content-Length") == Some(Decimal(n))
    requires CookieHeader(liveCookie, env).Ok?
    ensures Assemble(head, liveCookie, env, true, addRange)
            == Ok(addRange(WithCookie(head, CookieHeader(liveCookie, env).value), 0, n, n))
  {
    var cookie := CookieHeader(liveCookie, env).value;
    if cookie.Some? {
      FindAfterAppend(head.headers, cookie.value, "Content-Length");
    }
    ParseDecimal(n);
  }

  /** A fetch that reports no Content-Length fails the whole request once the
      range has to be restored */
  lemma MissingLengthRaises(head: Head, liveCookie: string, env: Env,
                            addRange: (Head, int, int, int) -> Head)
    requires FindHeader(head.headers, "Content-Length").None?
    requires CookieHeader(liveCookie, env).Ok?
    ensures Assemble(head, liveCookie, env, true, addRange) == Err(TypeError)
  {
    var cookie := CookieHeader(liveCookie, env).value;
    if cookie.Some? {
      assert |Lower("Set-Cookie")| != |Lower("Content-Length")|;
      FindAfterAppend(head.headers, cookie.value, "Content-Length");
    }
  }

  /** A malformed Content-Length leaves the head as the cookie step left it */
  lemma MalformedLengthIgnored(head: Head, liveCookie: string, env: Env,
                               addRange: (Head, int, int, int) -> Head, junk: string, i: nat)
    requires FindHeader(head.headers, "Content-Length") == Some(junk)
    requires i < |junk| && !IsDigit(junk[i]) && !IsSpace(junk[i]) && junk[i] != '+' && junk[i] != '-'
    requires CookieHeader(liveCookie, env).Ok?
    ensures Assemble(head, liveCookie, env, true, addRange) == Ok(WithCookie(head, CookieHeader(liveCookie, env).value))
  {
    var cookie := CookieHeader(liveCookie, env).value;
    if cookie.Some? {
      FindAfterAppend(head.headers, cookie.value, "Content-Length");
    }
    RejectsStrayCharacter(junk, i);
  }
}
