/** The response header container the handler works on: a status line and an
    ordered header list that render_content appends to and re-reads. */
module HttpHeaders {
  import opened LiveTypes
  import opened PyBuiltins

  /** Header lookups compare names without regard to ASCII case */
  predicate NameIs(h: Header, name: string) {
    Lower(h.name) == Lower(name)
  }

  /** get_header(name): the value of the first header called name, if any */
  function FindHeader(headers: seq<Header>, name: string): (r: Option<string>)
    ensures r.None? <==> forall i :: 0 <= i < |headers| ==> !NameIs(headers[i], name)
    ensures r.Some? ==> exists i :: 0 <= i < |headers| && NameIs(headers[i], name) && headers[i].value == r.value
                                  && forall j :: 0 <= j < i ==> !NameIs(headers[j], name)
  {
    if headers == [] then None
    else if NameIs(headers[0], name) then Some(headers[0].value)
    else
      var r := FindHeader(headers[1..], name);
      assert forall i :: 1 <= i < |headers| ==> headers[i] == headers[1..][i - 1];
      r
  }

  /** Appending a header changes a lookup only when nothing earlier answered it */
  lemma {:induction false} FindAfterAppend(headers: seq<Header>, h: Header, name: string)
    ensures FindHeader(headers + [h], name) ==
      if FindHeader(headers, name).Some? then FindHeader(headers, name)
      else if NameIs(h, name) then Some(h.value)
      else None
  {
    if headers == [] {
      assert headers + [h] == [h];
      assert [h][1..] == [];
    } else {
      FindAfterAppend(headers[1..], h, name);
      assert (headers + [h])[1..] == headers[1..] + [h];
    }
  }

  /** pywb's StatusAndHeaders: mutable, shared by the fetch result and the response */
  class StatusHeaders {
    var statusline: string
    var headers: seq<Header>

    constructor (head: Head)
      ensures View() == head
    {
      statusline := head.statusline;
      headers := head.headers;
    }

    function View(): Head
      reads this
    {
      Head(statusline, headers)
    }

    /** get_header(name): the first header called name, ignoring ASCII case */
    function GetHeader(name: string): (r: Option<string>)
      reads this
      ensures r.None? <==> forall i :: 0 <= i < |headers| ==> !NameIs(headers[i], name)
      ensures r.Some? ==> exists i :: 0 <= i < |headers| && NameIs(headers[i], name) && headers[i].value == r.value
                                    && forall j :: 0 <= j < i ==> !NameIs(headers[j], name)
    {
      FindHeader(headers, name)
    }

    /** headers.append(h) */
    method Append(h: Header)
      modifies this
      ensures headers == old(headers) + [h]
      ensures statusline == old(statusline)
    {
      headers := headers + [h];
    }

    /** Takes on the status line and headers an outside helper computed */
    method Replace(head: Head)
      modifies this
      ensures View() == head
    {
      statusline := head.statusline;
      headers := head.headers;
    }
  }
}
