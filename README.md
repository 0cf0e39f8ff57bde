# Request layer of pe-protector-moe, modelled in Dafny

This project models `Requests`, the HTTP request layer of the app. It has three parts:

- **Cookie scope policy.** One process-wide cookie slot.
  - A response from a host containing `login` replaces the slot wholesale.
  - Requests to hosts containing `passport` or `login` get no cookies.
  - Every other host gets the slot.
  - `clearCookie` empties the slot.
- **Builder.** A fluent, mutable record of request settings: method, URL, headers, string or map payload, body kind, and the zlib and gzip flags. Each setter overwrites its fields and returns the builder, so the last call wins. `build` copies every setting into a fresh `Requests`.
- **`execute`.** It does these steps in order:
  1. It assembles the wire request: a GET has no body; a string body is sent as markdown text, a JSON body as JSON, and a map body as form fields, one per key. There is one header per entry of the header map.
  2. It hands the request to the shared client.
  3. It fills `status`, then `content` (the drained body bytes), then `text` (zlib-inflated if the zlib flag is set, else gzip-inflated if the gzip flag is set, else the raw bytes read as a string).
  4. It catches every exception. An `IOException` leaves its message in `text`; any other exception leaves `text` as it was. `execute` always returns the object itself.

Files:

- `wrappers.dfy`: `Option` (a Java reference that may be null) and `Result` (a value, or the exception a call throws).
- `cookie_scope.dfy`: module `CookieScope`. `Contains` (Java's `String.contains`) is proved equal to a substring-occurrence definition. The `CookieJar` class holds the slot. Lemmas over sequences of jar events state the clear-until-login property.
- `key_values.dfy`: module `KeyValues`. `Entries` is the loop over a map's key set. `ToMap` parses the entries back into a map. The lemmas prove the round trip and one entry per key.
- `request_config.dfy`: module `RequestConfig`. `Config` holds the settings and `Call` is one setter call. `Apply` and `Replay` give the effect of setter calls. The lemmas prove that the last call wins and that the two decompression flags are never both set.
- `requests.dfy`: module `RequestLayer`. It holds the wire request, the exception and codec parameters, `Settle` (what the response does to the outputs), and the classes `Builder` and `Requests` with `AssembleRequest` and `Execute`.

Things outside the source file are parameters:

- `transport` stands for the shared client: its interceptors, retries and timeouts. It is a fixed function from the wire request to a response or a thrown exception. It does not read or write the cookie slot (see "## Left out").
- `urlOk` is the client's URL check. A rejected URL throws a non-I/O exception.
- `Codecs` holds the four byte helpers: draining the body stream, zlib inflate, gzip inflate, and `new String(bytes)`. Each of the first three may throw or return null. Drained content that is null is stored as null, and it is handed as null to the inflaters. Reading it raw throws a non-I/O exception (`new String(null)`).

Where the design description and the code differ, the model follows the code:

- The description calls a built request immutable and single-use. In the code the builder is mutable and `execute` may run again on the same object. Each run starts from the outputs the last run left.
- The description says a transport error leaves the status "unset or a sentinel". In the code the status keeps its previous value (0 on a fresh request). If the exception happens after the response arrived (while draining or decoding), the status is already the response's.
- The description says a decode error is "captured". In the code only an `IOException`'s message reaches `text`. Any other exception, including a null result from zlib inflate passed to `new String`, leaves `text` untouched.

## Model

| member | source | states |
|---|---|---|
| `CookieScope.ContainsMeansOccurs` | app/src/main/java/moe/protector/pe/util/Requests.java:53 | The host test `contains` holds exactly when the marker occurs as a contiguous substring of the host (both directions). |
| `CookieScope.Contains` | app/src/main/java/moe/protector/pe/util/Requests.java:53 | Java's `String.contains` on the host. A marker longer than the host never occurs in it. |
| `CookieScope.Saved` | app/src/main/java/moe/protector/pe/util/Requests.java:43-47 | The slot after a response is either the response's cookies or the old slot, never a merge of the two. |
| `CookieScope.Loaded` | app/src/main/java/moe/protector/pe/util/Requests.java:50-57 | A request gets either no cookies or the whole slot, never part of it. |
| `CookieScope.CookieJar.constructor` | app/src/main/java/moe/protector/pe/util/Requests.java:39 | The cookie slot starts as an empty list. |
| `CookieScope.CookieJar.SaveFromResponse` | app/src/main/java/moe/protector/pe/util/Requests.java:43-47 | For a host containing `login` the slot becomes exactly the response's cookies, with nothing merged. For any other host the slot is unchanged. |
| `CookieScope.CookieJar.LoadForRequest` | app/src/main/java/moe/protector/pe/util/Requests.java:50-57 | A host containing `passport` or `login` gets an empty list whatever the slot holds. Every other host gets the slot's current contents. The slot is never changed. |
| `CookieScope.CookieJar.ClearCookie` | app/src/main/java/moe/protector/pe/util/Requests.java:220-222 | The slot is empty afterwards. |
| `CookieScope.NonLoginEventsKeepStore` | app/src/main/java/moe/protector/pe/util/Requests.java:43-47 | Any number of responses from hosts without `login` leave the slot as it was. |
| `CookieScope.EmptyStaysEmpty` | app/src/main/java/moe/protector/pe/util/Requests.java:43-47 | An empty slot stays empty through any events that contain no login-host response. |
| `CookieScope.ClearedUntilLogin` | app/src/main/java/moe/protector/pe/util/Requests.java:220-222 | After a clear, every host gets no cookies until the next login-host response, whatever the slot held before. |
| `CookieScope.LoginCookiesNotEchoed` | app/src/main/java/moe/protector/pe/util/Requests.java:43-56 | Cookies captured from a login host are never sent back to that host. Every host that is not withheld receives exactly them. |
| `KeyValues.Entries` | app/src/main/java/moe/protector/pe/util/Requests.java:176-178 | The loop over a map's key set yields every binding of the map exactly once, in some order. The same loop adds the headers at lines 188-190. |
| `KeyValues.ParseBack` | app/src/main/java/moe/protector/pe/util/Requests.java:175-179 | Reading the listed entries back into a map recovers the original map exactly, regardless of order. |
| `KeyValues.ListsParsed` | app/src/main/java/moe/protector/pe/util/Requests.java:175-179 | Conversely, a list of entries with distinct keys lists exactly the map it parses to. |
| `KeyValues.ListedOncePerKey` | app/src/main/java/moe/protector/pe/util/Requests.java:176-178 | A list of a map's bindings is exactly as long as the map: one entry per key. |
| `RequestConfig.Apply` | app/src/main/java/moe/protector/pe/util/Requests.java:96-142 | One setter call keeps the decompression flags exclusive. Only `url()` changes the URL. |
| `RequestConfig.Replay` | app/src/main/java/moe/protector/pe/util/Requests.java:96-142 | A chain of setter calls without `url()` keeps the URL it started with. |
| `RequestConfig.NeverBothDecompress` | app/src/main/java/moe/protector/pe/util/Requests.java:132-142 | No chain of setter calls sets both the zlib and the gzip flag. |
| `RequestConfig.OtherCallsKeepDecompress` | app/src/main/java/moe/protector/pe/util/Requests.java:96-130 | Setters other than `zlib` and `gzip` never touch the decompression flags. |
| `RequestConfig.LastDecompressCallWins` | app/src/main/java/moe/protector/pe/util/Requests.java:132-142 | After the last `zlib()` or `gzip()` call, exactly that call's flag is set and the other is clear. |
| `RequestConfig.OtherCallsKeepBody` | app/src/main/java/moe/protector/pe/util/Requests.java:132-142 | `url` (lines 96-99), `header` (lines 106-109), `zlib` and `gzip` never touch the method, the body kind or either payload. |
| `RequestConfig.LastMethodCallWins` | app/src/main/java/moe/protector/pe/util/Requests.java:101-130 | The last method or body call decides the method, the body kind and the payload. `get()` changes only the method. `post(String)` gives POST with `STRING_DATA`, `json` gives `JSON_DATA` and `post(Map)` gives `MAP_DATA`, each with its own payload, and the other payload is kept. |
| `RequestLayer.CanAssemble` | app/src/main/java/moe/protector/pe/util/Requests.java:161-191 | A GET assembles exactly when the URL is accepted, whatever payloads are set. |
| `RequestLayer.Assembles` | app/src/main/java/moe/protector/pe/util/Requests.java:161-191 | An assembled request is a body-less GET exactly when the method is GET. |
| `RequestLayer.Caught` | app/src/main/java/moe/protector/pe/util/Requests.java:209-216 | A caught exception never changes the status or the content. A non-I/O exception changes nothing at all. |
| `RequestLayer.DecodeText` | app/src/main/java/moe/protector/pe/util/Requests.java:201-207 | Reading raw bytes succeeds exactly when the content is non-null. Only the gzip path can yield a null text. |
| `RequestLayer.Settle` | app/src/main/java/moe/protector/pe/util/Requests.java:195-216 | When the client throws, the status and content keep their old values. When it answers, the status is the response's code. |
| `RequestLayer.ModeOf` | app/src/main/java/moe/protector/pe/util/Requests.java:201-207 | Decode precedence: zlib if the zlib flag is set, else gzip if the gzip flag is set, else raw bytes. |
| `RequestLayer.ModeAfterCalls` | app/src/main/java/moe/protector/pe/util/Requests.java:132-142 | After any chain of builder calls, `execute` decodes with the mode of the last `zlib()` or `gzip()` call. |
| `RequestLayer.ErrorAbsorption` | app/src/main/java/moe/protector/pe/util/Requests.java:195-217 | If nothing is thrown, `text` is the decoded body. An `IOException` leaves its message in `text`, and any other exception leaves `text` as it was. The status is the response's whenever a response arrived, and the content is the drained bytes whenever draining succeeded. |
| `RequestLayer.GetSendsNoBody` | app/src/main/java/moe/protector/pe/util/Requests.java:164-166 | A GET request carries no body, even if a payload was set earlier. |
| `RequestLayer.FormCarriesMap` | app/src/main/java/moe/protector/pe/util/Requests.java:173-180 | A map body has exactly one field per key of the data map, with that key's value, and parses back to the data map. |
| `RequestLayer.HeadersCarryMap` | app/src/main/java/moe/protector/pe/util/Requests.java:187-191 | There are no headers without a header map. With one, there is one header per entry and the headers parse back to the map. |
| `RequestLayer.Builder.constructor` | app/src/main/java/moe/protector/pe/util/Requests.java:85-94 | Initial settings: GET, empty URL, no header, no payloads, `MAP_DATA`, both flags clear. |
| `RequestLayer.Builder.Url` | app/src/main/java/moe/protector/pe/util/Requests.java:96-99 | Only the URL changes. The builder itself is returned. |
| `RequestLayer.Builder.Get` | app/src/main/java/moe/protector/pe/util/Requests.java:101-104 | Only the method changes, to GET. Earlier payloads and the body kind stay. |
| `RequestLayer.Builder.Header` | app/src/main/java/moe/protector/pe/util/Requests.java:106-109 | Only the header map changes. |
| `RequestLayer.Builder.PostString` | app/src/main/java/moe/protector/pe/util/Requests.java:111-116 | The method becomes POST, the body kind `STRING_DATA` and the string payload the argument. Nothing else changes. |
| `RequestLayer.Builder.Json` | app/src/main/java/moe/protector/pe/util/Requests.java:118-123 | The method becomes POST, the body kind `JSON_DATA` and the string payload the argument. Nothing else changes. |
| `RequestLayer.Builder.PostMap` | app/src/main/java/moe/protector/pe/util/Requests.java:125-130 | The method becomes POST, the body kind `MAP_DATA` and the map payload the argument. The string payload is kept. |
| `RequestLayer.Builder.Zlib` | app/src/main/java/moe/protector/pe/util/Requests.java:132-136 | The zlib flag is set and the gzip flag cleared. Nothing else changes, and the flags stay exclusive. |
| `RequestLayer.Builder.Gzip` | app/src/main/java/moe/protector/pe/util/Requests.java:138-142 | The gzip flag is set and the zlib flag cleared. Nothing else changes, and the flags stay exclusive. |
| `RequestLayer.Builder.Build` | app/src/main/java/moe/protector/pe/util/Requests.java:144-155 | The result is a fresh request with every setting copied unchanged. It has status 0, and null content and text. |
| `RequestLayer.Requests.constructor` | app/src/main/java/moe/protector/pe/util/Requests.java:31-37 | A new request has the default settings, status 0, and null content and text. |
| `RequestLayer.Requests.AssembleRequest` | app/src/main/java/moe/protector/pe/util/Requests.java:161-191 | Assembly succeeds exactly when the URL is accepted and the selected payload is non-null. The result then has the URL, no body for GET, a markdown or JSON text body or a form with every data-map key once for POST, and one header per header-map entry. |
| `RequestLayer.Requests.Catch` | app/src/main/java/moe/protector/pe/util/Requests.java:209-216 | An `IOException` sets `text` to its message, which may be null. Any other exception changes nothing. |
| `RequestLayer.Requests.Execute` | app/src/main/java/moe/protector/pe/util/Requests.java:159-218 | `execute` returns the object itself and never throws. If assembly throws, no output changes. Otherwise the request sent is the assembled one, and the outputs are `Settle` of the client's outcome: status, then content, then decoded text, with the first exception caught. |

## Left out

- The HTTP client itself, which is OkHttp with its read, connect and write timeouts and its connection pool. It performs network I/O in a foreign library, so `Execute` takes its outcome from the `transport` parameter.
- `HeaderInterceptor`, `LoggingInterceptor` and `RetryInterceptor(3)` are not part of this model. Their sources are not available, so default-header precedence and the retry count cannot be stated against code. They sit inside `transport`.
- `Encode.ioToByteArray`, `Encode.zlib_decompress` and `Encode.gzipUncompress` are not part of this model. They are the `drain`, `zlib` and `gzip` functions of a `Codecs` value. Each may throw or return null, and the inflaters receive null content as null. Inflate itself is not modelled.
- `new String(bytes)` decodes with the platform charset. It is the `chars` function of `Codecs`.
- `MediaType.parse`, `RequestBody.create` and `FormBody` URL-encoding are library internals. A body is a tagged value: a media-type string with the payload, or a list of key/value pairs. `RequestBody.create` with a null string is taken to throw a non-I/O exception, as dereferencing null does.
- Header-name and value validation by the client's request builder is not modelled. An invalid header would throw a non-I/O exception during assembly.
- Null keys or values inside the header map or the data map are not modelled. Maps are from strings to strings; only the map reference itself may be null.
- `HttpUrl.host()` is not modelled: the cookie operations take the host string directly.
- `Log.e` and `printStackTrace` are logging side effects only. The model assumes logging never throws, including `Log.e` with a null message.
- The cookie jar's part in `execute` is not modelled. The client calls `loadForRequest` before sending and `saveFromResponse` after a response. `Execute` neither reads nor changes a `CookieJar`, and the response does not depend on the cookies attached. The cookie policy is modelled on its own in `CookieScope`.
- Aliasing of the header map and the data map is not modelled. `header(Map)` and `post(Map)` keep the caller's map by reference, `build()` copies the references, and `execute` reads the maps only when it runs. In the source, a later change to the caller's map shows up in the request. The model's `Builder.Header`, `Builder.PostMap` and `Builder.Build` store value snapshots instead.
- Unsynchronised concurrent access to the static cookie slot is not modelled. The slot is modelled single-threaded.
- Aliasing of the cookie list is not modelled. The source stores and hands out list objects by reference and `clearCookie` clears the current list object in place. The model treats the slot as a value, so clearing always empties it, and no list that is handed out can change afterwards. A list object supplied by the HTTP library that refuses `clear()` is therefore not modelled.
- `CookieScope.CookieJar.LoadForRequest`: the null-slot branch returns an empty list. It cannot be reached: the slot starts as a list and saves store the list they are given, so the model's slot is a non-null sequence.
- Cookie attributes (domain, path, expiry) are not modelled: the policy never inspects them.
- `app/src/main/java/ink/z31/liverprotector/bean/TaskBean.java` is not part of this model. It is a data holder with no logic.
