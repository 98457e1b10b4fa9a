/**
 * The state of one Git HTTP request (`HTTPGitRequest`): the pending response headers, the
 * pending cache headers, and the way they are written to the host's response object.
 */
module GitRequest {
  import opened Wrappers
  import opened PyStrings

  type Header = (string, string)

  /** A status as handed to the host: the numeric code and the reason phrase. */
  datatype Status = Status(code: int, reason: string)

  datatype StatusError = MalformedStatusLine

  /** The protocol handler class registered for a service name. */
  datatype ServiceHandler = UploadPackHandler | ReceivePackHandler | CustomHandler(name: string)

  /** Service name to handler class; a `None` value refuses the service like a missing key. */
  type HandlerTable = map<string, Option<ServiceHandler>>

  // Status lines of dulwich's web module, written as the code with its space, then the reason.
  const HTTP_OK := "200 " + "OK"
  const HTTP_NOT_FOUND := "404 " + "Not Found"
  const HTTP_FORBIDDEN := "403 " + "Forbidden"
  const HTTP_ERROR := "500 " + "Internal Server Error"

  const NO_CACHE_HEADERS: seq<Header> := [
    ("Expires", "Fri, 01 Jan 1980 00:00:00 GMT"),
    ("Pragma", "no-cache"),
    ("Cache-Control", "no-cache, max-age=0, must-revalidate")
  ]

  /** A status line written as code, one space, reason. */
  function FormatStatus(s: Status): (r: string)
  {
    IntToString(s.code) + " " + s.reason
  }

  /**
   * `code, reason = status.split(' ', 1)` followed by `int(code)`: the line is cut at its first
   * space; a line without a space or with a code that is not an integer raises `ValueError`.
   */
  function SplitStatus(line: string): (r: Result<Status, StatusError>)
    ensures ' ' !in line ==> r == Failure(MalformedStatusLine)
    ensures r.Success? ==> EndsWith(line, " " + r.value.reason) && ' ' !in line[..|line| - |r.value.reason| - 1]
  {
    match IndexOf(line, ' ')
    case None => Failure(MalformedStatusLine)
    case Some(i) =>
      match ParseInt(line[..i])
      case None => Failure(MalformedStatusLine)
      case Some(code) =>
        assert line[i + 1..] == line[|line| - |line[i + 1..]|..];
        Success(Status(code, line[i + 1..]))
  }

  /** Splitting a formatted status line gives back its code and its whole reason, spaces included. */
  lemma StatusRoundTrip(s: Status)
    ensures SplitStatus(FormatStatus(s)) == Success(s)
  {
    ParseIntRoundTrip(s.code);
    var code := IntToString(s.code);
    var line := FormatStatus(s);
    assert line[..|code|] == code;
    assert line[|code|] == ' ';
    assert IndexOf(line, ' ') == Some(|code|);
    assert line[|code| + 1..] == s.reason;
  }

  /** The decimal text of a three-digit code. */
  lemma ThreeDigits(n: nat)
    requires 100 <= n < 1000
    ensures IntToString(n) == [('0' as int + n / 100) as char, ('0' as int + n / 10 % 10) as char, ('0' as int + n % 10) as char]
  {
    assert NatToString(n / 10) == NatToString(n / 100) + [('0' as int + n / 10 % 10) as char];
  }

  /** Each status line the gateway uses splits into the expected code and reason. */
  lemma OkStatusLine()
    ensures SplitStatus(HTTP_OK) == Success(Status(200, "OK"))
  {
    OkLineFormat();
    StatusRoundTrip(Status(200, "OK"));
  }

  lemma OkLineFormat()
    ensures HTTP_OK == FormatStatus(Status(200, "OK"))
  {
    ThreeDigits(200);
    assert IntToString(200) + " " == "200 ";
  }

  lemma NotFoundStatusLine()
    ensures SplitStatus(HTTP_NOT_FOUND) == Success(Status(404, "Not Found"))
  {
    NotFoundLineFormat();
    StatusRoundTrip(Status(404, "Not Found"));
  }

  lemma NotFoundLineFormat()
    ensures HTTP_NOT_FOUND == FormatStatus(Status(404, "Not Found"))
  {
    ThreeDigits(404);
    assert IntToString(404) + " " == "404 ";
  }

  lemma ForbiddenStatusLine()
    ensures SplitStatus(HTTP_FORBIDDEN) == Success(Status(403, "Forbidden"))
  {
    ForbiddenLineFormat();
    StatusRoundTrip(Status(403, "Forbidden"));
  }

  lemma ForbiddenLineFormat()
    ensures HTTP_FORBIDDEN == FormatStatus(Status(403, "Forbidden"))
  {
    ThreeDigits(403);
    assert IntToString(403) + " " == "403 ";
  }

  lemma ErrorStatusLine()
    ensures SplitStatus(HTTP_ERROR) == Success(Status(500, "Internal Server Error"))
  {
    ErrorLineFormat();
    StatusRoundTrip(Status(500, "Internal Server Error"));
  }

  lemma ErrorLineFormat()
    ensures HTTP_ERROR == FormatStatus(Status(500, "Internal Server Error"))
  {
    ThreeDigits(500);
    assert IntToString(500) + " " == "500 ";
  }

  /** The `Content-Type` header `respond` adds, or nothing when no content type is given. */
  function ContentTypeHeader(contentType: string): (r: seq<Header>)
  {
    if contentType == "" then [] else [("Content-Type", contentType)]
  }

  /** The whole header block `respond` writes, in the order it writes it. */
  function HeaderBlock(pending: seq<Header>, extra: seq<Header>, contentType: string, cache: seq<Header>): (r: seq<Header>)
    ensures |r| == |pending| + |extra| + |ContentTypeHeader(contentType)| + |cache|
    ensures r[..|pending|] == pending
  {
    pending + extra + ContentTypeHeader(contentType) + cache
  }

  /**
   * The block starts with the pending headers, then the extra ones, then the content type
   * when one is given, and ends with the cache headers.
   */
  lemma HeaderBlockOrder(pending: seq<Header>, extra: seq<Header>, contentType: string, cache: seq<Header>)
    ensures var r := HeaderBlock(pending, extra, contentType, cache);
      && |r| == |pending| + |extra| + (if contentType == "" then 0 else 1) + |cache|
      && r[..|pending|] == pending
      && r[|pending|..|pending| + |extra|] == extra
      && (contentType != "" ==> r[|pending| + |extra|] == ("Content-Type", contentType))
      && r[|r| - |cache|..] == cache
  {
  }

  /** With no extra headers and no cache headers, the block is the pending headers and the content type. */
  lemma HeaderBlockPlain(pending: seq<Header>, contentType: string)
    requires contentType != ""
    ensures HeaderBlock(pending, [], contentType, []) == pending + [("Content-Type", contentType)]
  {
    assert pending + [] == pending;
    assert ContentTypeHeader(contentType) + [] == [("Content-Type", contentType)];
  }

  /** With no extra headers, the block is the pending headers, the content type and the cache headers. */
  lemma HeaderBlockCached(pending: seq<Header>, contentType: string, cache: seq<Header>)
    requires contentType != ""
    ensures HeaderBlock(pending, [], contentType, cache) == pending + ([("Content-Type", contentType)] + cache)
  {
    assert pending + [] == pending;
    assert pending + [("Content-Type", contentType)] + cache == pending + ([("Content-Type", contentType)] + cache);
  }

  /** The host response object: the log of headers set on it, and the last status set. */
  class HostResponse {
    var sentHeaders: seq<Header>
    var status: Option<Status>

    constructor ()
      ensures sentHeaders == [] && status == None
    {
      sentHeaders := [];
      status := None;
    }

    method SetHeader(name: string, value: string)
      modifies this
      ensures sentHeaders == old(sentHeaders) + [(name, value)]
      ensures status == old(status)
    {
      sentHeaders := sentHeaders + [(name, value)];
    }

    method SetStatus(code: int, reason: string)
      modifies this
      ensures status == Some(Status(code, reason))
      ensures sentHeaders == old(sentHeaders)
    {
      status := Some(Status(code, reason));
    }
  }

  /** The host request: its method, the names still to traverse, and its response. */
  class HostRequest {
    const requestMethod: string
    var nameStack: seq<string>
    const response: HostResponse

    constructor (requestMethod: string, nameStack: seq<string>, response: HostResponse)
      ensures this.requestMethod == requestMethod && this.nameStack == nameStack && this.response == response
    {
      this.requestMethod := requestMethod;
      this.nameStack := nameStack;
      this.response := response;
    }
  }

  class HTTPGitRequest {
    const request: HostRequest
    const dumb: bool
    const handlers: HandlerTable
    var headers: seq<Header>
    var cacheHeaders: seq<Header>

    constructor (request: HostRequest, dumb: bool, handlers: HandlerTable)
      ensures this.request == request && this.dumb == dumb && this.handlers == handlers
      ensures headers == [] && cacheHeaders == []
    {
      this.request := request;
      this.dumb := dumb;
      this.handlers := handlers;
      headers := [];
      cacheHeaders := [];
    }

    /** `add_header`: one more pending header, after those already there. */
    method AddHeader(name: string, value: string)
      modifies this`headers
      ensures headers == old(headers) + [(name, value)]
    {
      headers := headers + [(name, value)];
    }

    /**
     * `respond`: extends the pending headers by the extra headers, the content type and the
     * cache headers, sets every pending header on the host response in order, then splits the
     * status line and sets the status. A malformed status line fails after the headers are set.
     * An empty `contentType` stands for Python's `None`.
     */
    method Respond(status: string, contentType: string, extra: seq<Header>) returns (r: Result<Status, StatusError>)
      modifies this`headers, request.response
      ensures headers == HeaderBlock(old(headers), extra, contentType, cacheHeaders)
      ensures request.response.sentHeaders == old(request.response.sentHeaders) + headers
      ensures r == SplitStatus(status)
      ensures request.response.status == if r.Success? then Some(r.value) else old(request.response.status)
    {
      if |extra| > 0 {
        headers := headers + extra;
      }
      assert headers == old(headers) + extra;
      if contentType != "" {
        headers := headers + [("Content-Type", contentType)];
      }
      assert headers == old(headers) + extra + ContentTypeHeader(contentType);
      headers := headers + cacheHeaders;
      var block := headers;
      var response := request.response;
      for i := 0 to |block|
        invariant response.sentHeaders == old(response.sentHeaders) + block[..i]
        invariant response.status == old(response.status)
        invariant headers == block
      {
        response.SetHeader(block[i].0, block[i].1);
        assert block[..i + 1] == block[..i] + [block[i]];
      }
      assert block[..|block|] == block;
      r := SplitStatus(status);
      if r.Success? {
        response.SetStatus(r.value.code, r.value.reason);
      }
    }

    /**
     * `not_found`: drops the cache headers, responds 404 with `text/plain`, and returns the
     * message as the body.
     */
    method NotFound(message: string) returns (body: string)
      modifies this`headers, this`cacheHeaders, request.response
      ensures body == message
      ensures cacheHeaders == []
      ensures headers == old(headers) + [("Content-Type", "text/plain")]
      ensures request.response.sentHeaders == old(request.response.sentHeaders) + headers
      ensures request.response.status == Some(Status(404, "Not Found"))
    {
      cacheHeaders := [];
      NotFoundStatusLine();
      HeaderBlockPlain(headers, "text/plain");
      var _ := Respond(HTTP_NOT_FOUND, "text/plain", []);
      body := message;
    }

    /**
     * `forbidden`: drops the cache headers, responds 403 with `text/plain`, and returns the
     * message as the body.
     */
    method Forbidden(message: string) returns (body: string)
      modifies this`headers, this`cacheHeaders, request.response
      ensures body == message
      ensures cacheHeaders == []
      ensures headers == old(headers) + [("Content-Type", "text/plain")]
      ensures request.response.sentHeaders == old(request.response.sentHeaders) + headers
      ensures request.response.status == Some(Status(403, "Forbidden"))
    {
      cacheHeaders := [];
      ForbiddenStatusLine();
      HeaderBlockPlain(headers, "text/plain");
      var _ := Respond(HTTP_FORBIDDEN, "text/plain", []);
      body := message;
    }

    /**
     * `error`: drops the cache headers, responds 500 with `text/plain`, and returns the
     * message as the body.
     */
    method Error(message: string) returns (body: string)
      modifies this`headers, this`cacheHeaders, request.response
      ensures body == message
      ensures cacheHeaders == []
      ensures headers == old(headers) + [("Content-Type", "text/plain")]
      ensures request.response.sentHeaders == old(request.response.sentHeaders) + headers
      ensures request.response.status == Some(Status(500, "Internal Server Error"))
    {
      cacheHeaders := [];
      ErrorStatusLine();
      HeaderBlockPlain(headers, "text/plain");
      var _ := Respond(HTTP_ERROR, "text/plain", []);
      body := message;
    }

    /** `nocache`: the cache headers become exactly the three no-cache headers. */
    method NoCache()
      modifies this`cacheHeaders
      ensures cacheHeaders == NO_CACHE_HEADERS
    {
      cacheHeaders := NO_CACHE_HEADERS;
    }

    /**
     * `cache_forever`: the cache headers become the current date, an expiry one year later and
     * a public one-year `Cache-Control`. The clock reading and the HTTP date formatting are
     * parameters.
     */
    method CacheForever(now: int, formatDate: int -> string)
      modifies this`cacheHeaders
      ensures cacheHeaders == CacheForeverHeaders(now, formatDate)
    {
      cacheHeaders := CacheForeverHeaders(now, formatDate);
    }
  }

  /** The headers of `cache_forever`, given the clock reading and the HTTP date formatter. */
  function CacheForeverHeaders(now: int, formatDate: int -> string): (r: seq<Header>)
  {
    [("Date", formatDate(now)), ("Expires", formatDate(now + 31536000)), ("Cache-Control", "public, max-age=31536000")]
  }

  /**
   * The two cache policies never mix: each header set carries its own `Cache-Control` value
   * and not the other's.
   */
  lemma CachePoliciesExclusive(now: int, formatDate: int -> string)
    ensures ("Cache-Control", "no-cache, max-age=0, must-revalidate") in NO_CACHE_HEADERS
    ensures ("Cache-Control", "no-cache, max-age=0, must-revalidate") !in CacheForeverHeaders(now, formatDate)
    ensures ("Cache-Control", "public, max-age=31536000") in CacheForeverHeaders(now, formatDate)
    ensures ("Cache-Control", "public, max-age=31536000") !in NO_CACHE_HEADERS
  {
    var forever := CacheForeverHeaders(now, formatDate);
    assert forever[2] == ("Cache-Control", "public, max-age=31536000");
    assert NO_CACHE_HEADERS[2] == ("Cache-Control", "no-cache, max-age=0, must-revalidate");
    assert forever[2].1 != NO_CACHE_HEADERS[2].1 by {
      assert forever[2].1[0] != NO_CACHE_HEADERS[2].1[0];
    }
  }
}
