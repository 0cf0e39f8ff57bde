/**
 * The request layer: a fluent builder that fills in a request's settings, and
 * `execute`, which assembles the wire request, hands it to the shared client
 * and fills `status`, `content` and `text` from the response, absorbing every
 * exception on the way.
 *
 * The shared client (its interceptors, retries, timeouts and cookie jar) is the
 * parameter `transport`; URL parsing is the parameter `urlOk`; the byte and
 * decompression helpers are the functions of a `Codecs` value. Each of them may
 * throw, which is a `Failure` carrying the exception.
 */
module RequestLayer {
  import opened Wrappers
  import opened KeyValues
  import opened RequestConfig

  /** A Java `byte`. */
  type JavaByte = b: int | -128 <= b < 128

  const MarkdownType: string := "text/x-markdown; charset=utf-8"
  const JsonType: string := "application/json; charset=utf-8"

  /** A request body: a string with its media type, or URL-form fields. */
  datatype Body = Text(mediaType: string, payload: string) | Form(fields: seq<Entry>)

  /** The request handed to the client. A GET request has no body. */
  datatype WireRequest =
    | GetRequest(url: string, headers: seq<Entry>)
    | PostRequest(url: string, body: Body, headers: seq<Entry>)

  /** A thrown exception: an `IOException` (whose message may be null) or any other. */
  datatype Thrown = IOException(message: Option<string>) | OtherException

  /** A response: its status code and the bytes its body stream would yield. */
  datatype Response = Response(code: int, stream: seq<JavaByte>)

  /**
   * The byte helpers `execute` relies on; their internals are not part of this
   * model. The first three may throw or return null, and the inflaters are
   * handed the content as it is, null included.
   */
  datatype Codecs = Codecs(
    drain: seq<JavaByte> -> Result<Option<seq<JavaByte>>, Thrown>,          // reads a body stream to its end
    zlib: Option<seq<JavaByte>> -> Result<Option<seq<JavaByte>>, Thrown>,   // zlib inflate
    gzip: Option<seq<JavaByte>> -> Result<Option<string>, Thrown>,          // gzip inflate, to text
    chars: seq<JavaByte> -> string)                                         // `new String(bytes)`

  /** The three fields a caller reads after `execute`. */
  datatype Outputs = Outputs(status: int, content: Option<seq<JavaByte>>, text: Option<string>)

  /** How the response bytes become text. */
  datatype DecodeMode = ZlibMode | GzipMode | RawMode

  /** The zlib flag takes precedence over the gzip flag; with neither the bytes are read as they are. */
  function ModeOf(c: Config): (m: DecodeMode)
    ensures m == ZlibMode <==> c.isZlibDecompress
    ensures m == GzipMode <==> !c.isZlibDecompress && c.isGZipDecompress
    ensures m == RawMode <==> !c.isZlibDecompress && !c.isGZipDecompress
  {
    if c.isZlibDecompress then ZlibMode else if c.isGZipDecompress then GzipMode else RawMode
  }

  /** Whether building the wire request gets through without an exception. */
  predicate CanAssemble(c: Config, urlOk: string -> bool)
    ensures c.verb == GET ==> (CanAssemble(c, urlOk) <==> c.url.Some? && urlOk(c.url.value))
  {
    c.url.Some? && urlOk(c.url.value)
    && (c.verb == POST ==>
          if c.postMethod == MapData then c.dataMap.Some? else c.dataString.Some?)
  }

  /** `req` is a wire request that `c` produces, for some order of the map keys. */
  ghost predicate Assembles(c: Config, req: WireRequest)
    ensures Assembles(c, req) ==> (req.GetRequest? <==> c.verb == GET)
  {
    c.url.Some? && req.url == c.url.value
    && (if c.header.Some? then ListsMap(req.headers, c.header.value) else req.headers == [])
    && match c.verb
       case GET => req.GetRequest?
       case POST =>
         req.PostRequest? &&
         match c.postMethod
         case StringData => c.dataString.Some? && req.body == Text(MarkdownType, c.dataString.value)
         case JsonData => c.dataString.Some? && req.body == Text(JsonType, c.dataString.value)
         case MapData => c.dataMap.Some? && req.body.Form? && ListsMap(req.body.fields, c.dataMap.value)
  }

  /** The two catch clauses: an `IOException`'s message becomes the text; any other exception changes nothing. */
  function Caught(o: Outputs, e: Thrown): (r: Outputs)
    ensures r.status == o.status && r.content == o.content
    ensures e.OtherException? ==> r == o
  {
    match e
    case IOException(message) => o.(text := message)
    case OtherException => o
  }

  /**
   * The text made from the drained content, or the exception that making it
   * throws. Only the gzip helper can yield a null text; reading raw bytes
   * fails only on null content.
   */
  function DecodeText(mode: DecodeMode, content: Option<seq<JavaByte>>, codecs: Codecs): (r: Result<Option<string>, Thrown>)
    ensures mode == RawMode ==> (r.Success? <==> content.Some?)
    ensures mode != GzipMode && r.Success? ==> r.value.Some?
  {
    match mode
    case ZlibMode =>
      (match codecs.zlib(content)
       case Failure(e) => Failure(e)
       case Success(None) => Failure(OtherException)   // `new String(null)`
       case Success(Some(inflated)) => Success(Some(codecs.chars(inflated))))
    case GzipMode => codecs.gzip(content)
    case RawMode =>
      (match content
       case None => Failure(OtherException)            // `new String(null)`
       case Some(bytes) => Success(Some(codecs.chars(bytes))))
  }

  /**
   * The outputs after the client answered with `outcome`: the status is set
   * first, then the content, then the text; the first exception stops the
   * sequence and is caught.
   */
  function Settle(o: Outputs, mode: DecodeMode, outcome: Result<Response, Thrown>, codecs: Codecs): (r: Outputs)
    ensures outcome.Failure? ==> r.status == o.status && r.content == o.content
    ensures outcome.Success? ==> r.status == outcome.value.code
  {
    match outcome
    case Failure(e) => Caught(o, e)
    case Success(resp) =>
      var withStatus := o.(status := resp.code);
      match codecs.drain(resp.stream)
      case Failure(e) => Caught(withStatus, e)
      case Success(drained) =>
        var withContent := withStatus.(content := drained);
        match DecodeText(mode, drained, codecs)
        case Failure(e) => Caught(withContent, e)
        case Success(t) => withContent.(text := t)
  }

  /** The exception the exchange throws once the request is built, if any. */
  function Raised(mode: DecodeMode, outcome: Result<Response, Thrown>, codecs: Codecs): Option<Thrown>
  {
    if outcome.Failure? then Some(outcome.error)
    else if codecs.drain(outcome.value.stream).Failure? then Some(codecs.drain(outcome.value.stream).error)
    else
      var decoded := DecodeText(mode, codecs.drain(outcome.value.stream).value, codecs);
      if decoded.Failure? then Some(decoded.error) else None
  }

  /**
   * Nothing escapes `execute`: when nothing is thrown the text is the decoded
   * body; an `IOException` leaves its message as the text; any other exception
   * leaves the text as it was. The status is the response's whenever there is
   * a response, and the content is the drained bytes whenever draining worked.
   */
  lemma ErrorAbsorption(o: Outputs, mode: DecodeMode, outcome: Result<Response, Thrown>, codecs: Codecs)
    ensures var r, e := Settle(o, mode, outcome, codecs), Raised(mode, outcome, codecs);
      && (e.None? ==>
            (outcome.Success? && codecs.drain(outcome.value.stream).Success?
             && Success(r.text) == DecodeText(mode, codecs.drain(outcome.value.stream).value, codecs)))
      && (e == Some(OtherException) ==> r.text == o.text)
      && (e.Some? && e.value.IOException? ==> r.text == e.value.message)
      && (outcome.Success? ==> r.status == outcome.value.code)
      && (outcome.Failure? ==> r.status == o.status && r.content == o.content)
      && (outcome.Success? && codecs.drain(outcome.value.stream).Success? ==>
            r.content == codecs.drain(outcome.value.stream).value)
      && (outcome.Success? && codecs.drain(outcome.value.stream).Failure? ==> r.content == o.content)
  {
  }

  /** A request built with `get()` last sends no body, whatever payload was set before. */
  lemma GetSendsNoBody(c: Config, req: WireRequest)
    requires c.verb == GET && Assembles(c, req)
    ensures req.GetRequest?
  {
  }

  /** A map body carries every key of the data map exactly once, with its value. */
  lemma FormCarriesMap(c: Config, req: WireRequest)
    requires c.verb == POST && c.postMethod == MapData && Assembles(c, req)
    ensures req.PostRequest? && req.body.Form?
    ensures ToMap(req.body.fields) == c.dataMap.value
    ensures |req.body.fields| == |c.dataMap.value|
  {
    ParseBack(req.body.fields, c.dataMap.value);
    ListedOncePerKey(req.body.fields, c.dataMap.value);
  }

  /** Headers are one per entry of the header map, and none without a map. */
  lemma HeadersCarryMap(c: Config, req: WireRequest)
    requires Assembles(c, req)
    ensures c.header.None? ==> req.headers == []
    ensures c.header.Some? ==> ToMap(req.headers) == c.header.value && |req.headers| == |c.header.value|
  {
    if c.header.Some? {
      ParseBack(req.headers, c.header.value);
      ListedOncePerKey(req.headers, c.header.value);
    }
  }

  /** After a chain of builder calls the decode mode is that of the last `zlib()` or `gzip()`. */
  lemma ModeAfterCalls(calls: seq<Call>, last: Call, rest: seq<Call>)
    requires IsDecompressCall(last)
    requires forall i :: 0 <= i < |rest| ==> !IsDecompressCall(rest[i])
    ensures ModeOf(Replay(Initial, calls + [last] + rest)) == if last.Zlib? then ZlibMode else GzipMode
  {
    LastDecompressCallWins(Initial, calls, last, rest);
  }

  /** The fluent builder. Every setter overwrites its fields and returns the builder itself. */
  class Builder {
    var verb: Verb
    var url: Option<string>
    var header: Option<map<string, string>>
    var dataMap: Option<map<string, string>>
    var dataString: Option<string>
    var postMethod: PostMethod
    var isZlibDecompress: bool
    var isGZipDecompress: bool

    function Settings(): Config
      reads this
    {
      Config(verb, url, header, dataMap, dataString, postMethod, isZlibDecompress, isGZipDecompress)
    }

    ghost predicate Valid()
      reads this
    {
      Exclusive(Settings())
    }

    constructor ()
      ensures Settings() == Initial && Valid()
    {
      verb, url, header, dataMap, dataString := GET, Some(""), None, None, None;
      postMethod, isZlibDecompress, isGZipDecompress := MapData, false, false;
    }

    method Url(u: Option<string>) returns (self: Builder)
      requires Valid()
      modifies this
      ensures self == this && Valid()
      ensures url == u
      ensures Settings() == Apply(old(Settings()), Call.Url(u))
    {
      url := u;
      self := this;
    }

    /** Sets only the method; a payload set earlier stays. */
    method Get() returns (self: Builder)
      requires Valid()
      modifies this
      ensures self == this && Valid()
      ensures verb == GET
      ensures Settings() == Apply(old(Settings()), Call.Get)
    {
      verb := GET;
      self := this;
    }

    method Header(h: Option<map<string, string>>) returns (self: Builder)
      requires Valid()
      modifies this
      ensures self == this && Valid()
      ensures header == h
      ensures Settings() == Apply(old(Settings()), Call.Header(h))
    {
      header := h;
      self := this;
    }

    /** `post(String)`: a string body sent as markdown text. */
    method PostString(data: Option<string>) returns (self: Builder)
      requires Valid()
      modifies this
      ensures self == this && Valid()
      ensures verb == POST && postMethod == StringData && dataString == data
      ensures Settings() == Apply(old(Settings()), Call.PostString(data))
    {
      verb := POST;
      postMethod := StringData;
      dataString := data;
      self := this;
    }

    method Json(data: Option<string>) returns (self: Builder)
      requires Valid()
      modifies this
      ensures self == this && Valid()
      ensures verb == POST && postMethod == JsonData && dataString == data
      ensures Settings() == Apply(old(Settings()), Call.Json(data))
    {
      verb := POST;
      postMethod := JsonData;
      dataString := data;
      self := this;
    }

    /** `post(Map)`: a form body. */
    method PostMap(data: Option<map<string, string>>) returns (self: Builder)
      requires Valid()
      modifies this
      ensures self == this && Valid()
      ensures verb == POST && postMethod == MapData && dataMap == data
      ensures Settings() == Apply(old(Settings()), Call.PostMap(data))
    {
      verb := POST;
      postMethod := MapData;
      dataMap := data;
      self := this;
    }

    method Zlib() returns (self: Builder)
      requires Valid()
      modifies this
      ensures self == this && Valid()
      ensures isZlibDecompress && !isGZipDecompress
      ensures Settings() == Apply(old(Settings()), Call.Zlib)
    {
      isZlibDecompress := true;
      isGZipDecompress := false;
      self := this;
    }

    method Gzip() returns (self: Builder)
      requires Valid()
      modifies this
      ensures self == this && Valid()
      ensures !isZlibDecompress && isGZipDecompress
      ensures Settings() == Apply(old(Settings()), Call.Gzip)
    {
      isZlibDecompress := false;
      isGZipDecompress := true;
      self := this;
    }

    /** A fresh request with every setting copied and no outputs yet. */
    method Build() returns (r: Requests)
      requires Valid()
      ensures fresh(r)
      ensures r.Settings() == Settings() && Exclusive(r.Settings())
      ensures r.Observed() == Outputs(0, None, None)
    {
      r := new Requests();
      r.verb := verb;
      r.url := url;
      r.dataMap := dataMap;
      r.dataString := dataString;
      r.header := header;
      r.postMethod := postMethod;
      r.isGZipDecompress := isGZipDecompress;
      r.isZlibDecompress := isZlibDecompress;
    }
  }

  /** A built request and, once executed, its response fields. */
  class Requests {
    var text: Option<string>
    var content: Option<seq<JavaByte>>
    var status: int

    var verb: Verb
    var url: Option<string>
    var header: Option<map<string, string>>
    var dataMap: Option<map<string, string>>
    var dataString: Option<string>
    var postMethod: PostMethod
    var isZlibDecompress: bool
    var isGZipDecompress: bool

    function Settings(): Config
      reads this
    {
      Config(verb, url, header, dataMap, dataString, postMethod, isZlibDecompress, isGZipDecompress)
    }

    function Observed(): Outputs
      reads this
    {
      Outputs(status, content, text)
    }

    /** The private constructor: the field initialisers only. */
    constructor ()
      ensures Settings() == Initial && Observed() == Outputs(0, None, None)
    {
      text, content, status := None, None, 0;
      verb, url, header, dataMap, dataString := GET, Some(""), None, None, None;
      postMethod, isZlibDecompress, isGZipDecompress := MapData, false, false;
    }

    /**
     * The first half of `execute`: URL, then method and body, then headers.
     * `None` stands for the non-I/O exception thrown by a URL the client
     * rejects or by a missing payload.
     */
    method AssembleRequest(urlOk: string -> bool) returns (r: Option<WireRequest>)
      ensures r.Some? <==> CanAssemble(Settings(), urlOk)
      ensures r.Some? ==> Assembles(Settings(), r.value)
    {
      if url.None? || !urlOk(url.value) {
        return None;
      }
      var body: Option<Body> := None;
      if verb == POST {
        if postMethod == StringData {
          if dataString.None? {
            return None;
          }
          body := Some(Text(MarkdownType, dataString.value));
        } else if postMethod == MapData {
          if dataMap.None? {
            return None;
          }
          var fields := Entries(dataMap.value);
          body := Some(Form(fields));
        } else if postMethod == JsonData {
          if dataString.None? {
            return None;
          }
          body := Some(Text(JsonType, dataString.value));
        }
      }
      var headers: seq<Entry> := [];
      if header.Some? {
        headers := Entries(header.value);
      }
      if verb == GET {
        r := Some(GetRequest(url.value, headers));
      } else {
        r := Some(PostRequest(url.value, body.value, headers));
      }
    }

    /** The catch clauses of `execute`. */
    method Catch(e: Thrown)
      modifies this`text
      ensures Observed() == Caught(old(Observed()), e)
    {
      if e.IOException? {
        text := e.message;
      }
    }

    /**
     * Sends the request and fills the outputs; never throws and always returns
     * this object. `sent` is the request the client received, if assembling it
     * did not throw.
     */
    method Execute(urlOk: string -> bool, transport: WireRequest -> Result<Response, Thrown>, codecs: Codecs)
      returns (self: Requests, sent: Option<WireRequest>)
      modifies this`status, this`content, this`text
      ensures self == this
      ensures sent.Some? <==> CanAssemble(Settings(), urlOk)
      ensures sent.Some? ==> Assembles(Settings(), sent.value)
      ensures sent.None? ==> Observed() == old(Observed())
      ensures sent.Some? ==>
        Observed() == Settle(old(Observed()), ModeOf(Settings()), transport(sent.value), codecs)
    {
      self := this;
      sent := AssembleRequest(urlOk);
      if sent.None? {
        return;
      }
      var outcome := transport(sent.value);
      if outcome.Failure? {
        Catch(outcome.error);
        return;
      }
      status := outcome.value.code;
      var drained := codecs.drain(outcome.value.stream);
      if drained.Failure? {
        Catch(drained.error);
        return;
      }
      content := drained.value;
      if isZlibDecompress {
        var inflated := codecs.zlib(drained.value);
        if inflated.Failure? {
          Catch(inflated.error);
          return;
        }
        if inflated.value.None? {
          Catch(OtherException);
          return;
        }
        text := Some(codecs.chars(inflated.value.value));
      } else if isGZipDecompress {
        var inflated := codecs.gzip(drained.value);
        if inflated.Failure? {
          Catch(inflated.error);
          return;
        }
        text := inflated.value;
      } else {
        if drained.value.None? {
          Catch(OtherException);
          return;
        }
        text := Some(codecs.chars(drained.value.value));
      }
    }
  }
}
