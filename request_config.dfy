/**
 * The configuration a request is built from, and the builder calls that set
 * it. Every setter overwrites fields, so the last call of a kind wins.
 */
module RequestConfig {
  import opened Wrappers

  /** The source's `GET = 0` and `POST = 1`. */
  datatype Verb = GET | POST

  /** The source's `STRING_DATA = 0`, `MAP_DATA = 1` and `JSON_DATA = 2`. */
  datatype PostMethod = StringData | MapData | JsonData

  /** The fields shared by the builder and the built request. */
  datatype Config = Config(
    verb: Verb,
    url: Option<string>,
    header: Option<map<string, string>>,
    dataMap: Option<map<string, string>>,
    dataString: Option<string>,
    postMethod: PostMethod,
    isZlibDecompress: bool,
    isGZipDecompress: bool)

  /** The field initialisers: GET, an empty URL, no header, no payload, MAP_DATA, no decompression. */
  const Initial: Config := Config(GET, Some(""), None, None, None, MapData, false, false)

  /** At most one decompression flag is set. */
  predicate Exclusive(c: Config)
  {
    !(c.isZlibDecompress && c.isGZipDecompress)
  }

  /** One setter call on the builder, with its argument (Java `null` is `None`). */
  datatype Call =
    | Url(u: Option<string>)
    | Get
    | Header(h: Option<map<string, string>>)
    | PostString(s: Option<string>)
    | Json(j: Option<string>)
    | PostMap(m: Option<map<string, string>>)
    | Zlib
    | Gzip

  /** The effect of one setter on the configuration. */
  function Apply(c: Config, call: Call): (r: Config)
    ensures Exclusive(c) ==> Exclusive(r)
    ensures !call.Url? ==> r.url == c.url
  {
    match call
    case Url(u) => c.(url := u)
    case Get => c.(verb := GET)
    case Header(h) => c.(header := h)
    case PostString(s) => c.(verb := POST, postMethod := StringData, dataString := s)
    case Json(j) => c.(verb := POST, postMethod := JsonData, dataString := j)
    case PostMap(m) => c.(verb := POST, postMethod := MapData, dataMap := m)
    case Zlib => c.(isZlibDecompress := true, isGZipDecompress := false)
    case Gzip => c.(isZlibDecompress := false, isGZipDecompress := true)
  }

  /** A chain of setter calls, first to last. */
  function Replay(c: Config, calls: seq<Call>): (r: Config)
    ensures (forall i :: 0 <= i < |calls| ==> !calls[i].Url?) ==> r.url == c.url
    decreases |calls|
  {
    if calls == [] then c else Replay(Apply(c, calls[0]), calls[1..])
  }

  lemma {:induction false} ReplayAppend(c: Config, xs: seq<Call>, ys: seq<Call>)
    ensures Replay(c, xs + ys) == Replay(Replay(c, xs), ys)
    decreases |xs|
  {
    if xs == [] {
      assert xs + ys == ys;
    } else {
      assert (xs + ys)[0] == xs[0] && (xs + ys)[1..] == xs[1..] + ys;
      ReplayAppend(Apply(c, xs[0]), xs[1..], ys);
    }
  }

  /** No chain of setter calls ever sets both decompression flags. */
  lemma {:induction false} NeverBothDecompress(c: Config, calls: seq<Call>)
    requires Exclusive(c)
    ensures Exclusive(Replay(c, calls))
    decreases |calls|
  {
    if calls != [] {
      NeverBothDecompress(Apply(c, calls[0]), calls[1..]);
    }
  }

  predicate IsDecompressCall(call: Call)
  {
    call.Zlib? || call.Gzip?
  }

  /** Calls that set the method or the body kind. */
  predicate IsMethodCall(call: Call)
  {
    call.Get? || call.PostString? || call.Json? || call.PostMap?
  }

  /** Calls other than `zlib()` and `gzip()` leave both flags alone. */
  lemma {:induction false} OtherCallsKeepDecompress(c: Config, rest: seq<Call>)
    requires forall i :: 0 <= i < |rest| ==> !IsDecompressCall(rest[i])
    ensures Replay(c, rest).isZlibDecompress == c.isZlibDecompress
    ensures Replay(c, rest).isGZipDecompress == c.isGZipDecompress
    decreases |rest|
  {
    if rest != [] {
      OtherCallsKeepDecompress(Apply(c, rest[0]), rest[1..]);
    }
  }

  /** The last `zlib()` or `gzip()` call decides the decompression mode; exactly one flag is set. */
  lemma LastDecompressCallWins(c: Config, calls: seq<Call>, last: Call, rest: seq<Call>)
    requires IsDecompressCall(last)
    requires forall i :: 0 <= i < |rest| ==> !IsDecompressCall(rest[i])
    ensures Replay(c, calls + [last] + rest).isZlibDecompress == last.Zlib?
    ensures Replay(c, calls + [last] + rest).isGZipDecompress == last.Gzip?
  {
    ReplayAppend(c, calls + [last], rest);
    ReplayAppend(c, calls, [last]);
    OtherCallsKeepDecompress(Replay(c, calls + [last]), rest);
  }

  /** The fields that decide the body: verb, body kind and both payloads. */
  function BodyFields(c: Config): (Verb, PostMethod, Option<string>, Option<map<string, string>>)
  {
    (c.verb, c.postMethod, c.dataString, c.dataMap)
  }

  lemma {:induction false} OtherCallsKeepBody(c: Config, rest: seq<Call>)
    requires forall i :: 0 <= i < |rest| ==> !IsMethodCall(rest[i])
    ensures BodyFields(Replay(c, rest)) == BodyFields(c)
    decreases |rest|
  {
    if rest != [] {
      OtherCallsKeepBody(Apply(c, rest[0]), rest[1..]);
    }
  }

  /**
   * The last method or body call decides what is sent: `get()` sets only the
   * method and keeps any payload set earlier; `post(String)`, `json` and
   * `post(Map)` select POST, their body kind and their payload.
   */
  lemma LastMethodCallWins(c: Config, calls: seq<Call>, last: Call, rest: seq<Call>)
    requires IsMethodCall(last)
    requires forall i :: 0 <= i < |rest| ==> !IsMethodCall(rest[i])
    ensures var r, before := Replay(c, calls + [last] + rest), Replay(c, calls);
      match last
      case Get => r.verb == GET && r.postMethod == before.postMethod
        && r.dataString == before.dataString && r.dataMap == before.dataMap
      case PostString(s) => r.verb == POST && r.postMethod == StringData && r.dataString == s
        && r.dataMap == before.dataMap
      case Json(j) => r.verb == POST && r.postMethod == JsonData && r.dataString == j
        && r.dataMap == before.dataMap
      case PostMap(m) => r.verb == POST && r.postMethod == MapData && r.dataMap == m
        && r.dataString == before.dataString
      case _ => false
  {
    ReplayAppend(c, calls + [last], rest);
    ReplayAppend(c, calls, [last]);
    OtherCallsKeepBody(Replay(c, calls + [last]), rest);
  }
}
