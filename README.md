# Prominent-colours service: a Dafny model

The service takes an image, given by URL or as base64 data, and returns its
most prominent colours as hex strings. It keeps a memo cache so that an
identical request can skip the work. This project models its core:

- The **bounded image validator** inside `FindProminentColors`. It picks a
  reader by upload type, then reads a 512-byte header with `io.CopyN`. It
  sniffs the header's content type, reads up to `M-512` more bytes, and
  finally probes for one further byte. Each stage's failure is a typed error.
- **`ProminentColorsFinderHandler`**, with the state it shares with other
  requests (`class App`, field `cache`). It covers the colour-count clamp,
  the cache lookup, the deferred store and the deferred response writer
  that picks status 200 or 500.
- The helpers of `img/image.go`: `TopColors`, the advisory Content-Type
  check of `GetReaderFromURL`, and `GetReaderFromBase64Data`, which never
  fails.

Files: `wrappers.dfy` (Option, Result), `text.dfy` (`strings.HasPrefix`,
`strconv.Itoa`), `io.dfy` (a reader over a fixed stream and `io.CopyN`),
`img.dfy`, `app.dfy`.

Each reader is a `Stream`: the bytes it will deliver, followed by how it
ends on every later read (`io.EOF` or a read error, such as a corrupt
base64 quantum). `IO.Reader` is that reader as an object with a cursor.
`FindColors` is the closure of `app/app.go:155-198`, written as a method
that grows `bufr` through two `CopyN` calls on a fresh `Reader` and then
probes one byte into `ioutil.Discard`. It is
proved equal to the function `ColorsOf`. `ColorsOf` is built from
`Resolve` (the reader switch) and `ReadBounded` (the reads), and the
lemmas are stated over those functions.

Foreign code is passed in as the fields of `App.Env`, each an arbitrary
total function:
- `http.DetectContentType`
- the base64 decoder
- the caching HTTP client
- `image.Decode` together with `prominentcolor.KmeansWithAll` (it may fail)
- `ColorItem.AsString`
- `hashstructure.Hash` (it may fail)

The JSON decoder is represented by its outcome, which is the
handler's input. A Go panic that `net/http` recovers from is the reply
`Aborted`: the connection is dropped and nothing is written.

Behaviour of the code that the model keeps as it is:
- A stream shorter than 512 bytes is not sniffed. It is rejected with
  `other_error`, because `io.CopyN` reports a short copy. The message is
  `EOF`, or the read error's text when the stream ends with one (for
  example malformed base64).
- A read error after the header and before the limit is reported as
  `size_too_large_error` (`BrokenStreamReportedAsSize`). A read error
  right after exactly the limit is not reported at all: the stream is
  accepted (`ReadErrorAtLimitAccepted`).
- A size limit below 512 bytes acts as 512, through `Limit`.
- The cache is never read back (see Findings). The deferred store runs
  on every path that reaches it, because the `inCache` tested at line 111
  is never assigned.
- `class App` implements the handler as written (`Serve`). `ServeIntended`
  is the corrected handler, and the intended properties are proved about it.

## Model

| member | source | states |
|---|---|---|
| `IO.CopyOutcome` | app/app.go:174-187 | `io.CopyN`: the chunk is the next bytes of the stream, at most n of them. The error is nil exactly when n bytes remained or n <= 0. Otherwise it is the stream's own end (EOF or read error), reached after the chunk. |
| `IO.Reader.CopyN` | app/app.go:174-187 | The reader's cursor advances by exactly the bytes copied, and the result is `CopyOutcome` at the old cursor. |
| `IO.Reader.constructor` | app/app.go:156-172 | A fresh reader has handed out nothing. |
| `Img.HexColorsAt` | img/image.go:18-24 | The reference conversion keeps the length, and element i is `AsString(input[i])`. |
| `Img.TopColors` | img/image.go:19-24 | The append loop returns one string per item, element i is `AsString(prominentColors[i])` (order kept, empty gives empty), and it equals `HexColors`. |
| `Img.GetReaderFromURL` | img/image.go:56-72 | A failed fetch gives no reader and the client's error. Otherwise the body is always returned. The error is nil exactly when the Content-Type is empty or starts with `image/`; else it is `<type> may not be an image`. |
| `Img.GetReaderFromBase64Data` | img/image.go:50-53 | Never returns an error; the reader is the decoder over the input. |
| `Img.HexColors` | img/image.go:18-24 | Reference definition of `TopColors`; its properties are stated by `Img.HexColorsAt`. |
| `App.IsImage` | app/app.go:178-179 | The sniffed type starts with `image/`; used by `ReadBounded` and `Acceptable`. |
| `App.LimitMessage` | app/app.go:182-190 | The `%dmb is the limit ...` text with `maxRequestBodySize>>20` as a floor division; it appears in the messages fixed by `App.OversizeRejected` and `App.BrokenStreamReportedAsSize`. |
| `App.ReadBounded` | app/app.go:171-190 | The validator's reads as a function of the stream. Its properties are `App.ReadBoundedAcceptsIff` (against `Acceptable`), the four stage lemmas `App.ShortStreamRejected`, `App.NonImageRejected`, `App.OversizeRejected`, `App.BrokenStreamReportedAsSize`, and `App.ReadBoundedConsumption`. |
| `App.Acceptable` | app/app.go:171-191 | The independent description of the streams the validator lets through, related to `ReadBounded` by `App.ReadBoundedAcceptsIff`. |
| `App.Resolve` | app/app.go:156-170 | The reader switch by upload type. Its properties are `App.ResolveCases`, `App.UnknownTypeRejectedUnread` and `App.FileUploadRejected`. |
| `App.ColorsOf` | app/app.go:155-198 | The closure's result and bytes consumed. Its properties are `App.FindProminentColorsContract` and `App.FindProminentColorsConsumption`; `App.FindColors` is proved equal to it. |
| `App.CreateAppError` | app/app.go:215-221 | The Error record from a message and a type; `App.FindProminentColorsContract` and `App.IntendedDecodeFailureIs500` state which messages and types reach the response. |
| `App.ResponseFor` | app/app.go:200-206 | The response of `FindProminentColors`. Its properties are `App.FindProminentColorsContract`; `App.FindProminentColors` is proved equal to it. |
| `App.Int64` | app/app.go:116 | `int(uid)` as a two's-complement reinterpretation on a 64-bit platform; part of `CacheKey`. |
| `App.CacheKey` | app/app.go:125 | `strconv.Itoa(int(uid))`, the key used by both lookup and store; `App.CacheKeyInjective` states it is injective. |
| `App.Normalize` | app/app.go:104-106 | The request with its count replaced by `EffectiveCount`; its properties are those of `App.EffectiveCount`. |
| `App.Serve` | app/app.go:62-135 | The handler as written. Its properties are `App.DecodeFailureAborts`, `App.CacheHitAborts`, `App.CacheNeverHits`, `App.RepeatedRequestRecomputes`, `App.StoreRule` and `App.StatusRule`; `App.App.ProminentColorsFinderHandler` is proved equal to it. |
| `App.DecodeError` | app/app.go:99 | The serialization error the corrected handler sends for a refused body (`App.IntendedDecodeFailureIs500`). |
| `App.ServeIntended` | app/app.go:62-135 | The handler as evidently intended. Its properties are `App.IntendedDecodeFailureIs500`, `App.IntendedHitServesCache` and `App.IntendedRepeatIsCached`. |
| `App.OnlyHexLists` | app/app.go:116 | Every cached value is a `[]string`, the one type line 116 stores; preserved by `App.CacheNeverHits` and kept by `App.App.Valid`. |
| `App.App.Valid` | app/app.go:54-60 | The application's cache satisfies `OnlyHexLists`; the constructor establishes it and the handler preserves it. |
| `App.Limit` | app/app.go:182-190 | The size the validator lets through: `M`, except that a limit below 512 acts as 512 because the header is always read whole. Used by `App.Acceptable`, `App.OversizeRejected` and `App.ReadBoundedConsumption`. |
| `App.ErrorType.Name` | app/app.go:23-34 | The wire string of each error type; `App.ErrorTypeNamesDistinct` states that the five are distinct. |
| `IO.ReadError.Message` | app/app.go:174-184 | `err.Error()` of a read error, `EOF` for `io.EOF`; the message `App.ShortStreamRejected` and `App.BrokenStreamReportedAsSize` put into the response. |
| `Text.HasPrefix` | app/app.go:179 | `strings.HasPrefix`, as used here and at img/image.go:67; `App.IsImage` and `Img.GetReaderFromURL` rest on it. |
| `Text.Digits` | app/app.go:184 | The decimal digits of a natural number: at least one, each in `0`-`9`, and exactly one for numbers below 10. |
| `Text.Decimal` | app/app.go:189 | `strconv.Itoa` and `%d`, as used here, at line 184 and for the cache key at lines 116 and 125; `Text.DecimalInjective` states it is injective. |
| `Text.DigitsInjective` | app/app.go:116-125 | Distinct natural numbers have distinct digit strings, proved by induction on the number; the base of `App.CacheKeyInjective`. |
| `Text.DecimalSign` | app/app.go:116-125 | A rendering starts with `-` exactly for a negative number. |
| `Text.DecimalInjective` | app/app.go:116-125 | Distinct integers render differently, so the cache key of line 116 and 125 keeps fingerprints apart. |
| `App.ErrorTypeNamesDistinct` | app/app.go:23-34 | The five error-type strings are pairwise distinct. |
| `App.ReadBoundedAcceptsIff` | app/app.go:171-191 | The validator accepts a stream exactly when it holds 512 to `Limit(M)` bytes, its header sniffs as an image, and it ends with EOF unless it fills the limit exactly. It then buffers the whole stream and consumes exactly that. |
| `App.ShortStreamRejected` | app/app.go:173-177 | Fewer than 512 bytes give `ErrOthers` with the stream's end message (`EOF` or its read error), whatever the bytes are. |
| `App.NonImageRejected` | app/app.go:178-181 | A non-image header gives `ErrUnknownDataFormat` with `<type> may not be image`. Exactly 512 bytes are consumed, so no size check is reached. |
| `App.OversizeRejected` | app/app.go:182-190 | An image stream longer than the limit gives `ErrSizeTooLarge` with the MB-limit message, after exactly limit+1 bytes. |
| `App.ReadErrorAtLimitAccepted` | app/app.go:182-190 | A stream that ends with a read error right after exactly `Limit(M)` bytes is accepted and buffered whole: the second `CopyN` returns nil and the probe's error is ignored. |
| `App.BrokenStreamReportedAsSize` | app/app.go:182-185 | A read error between the header and the limit gives `ErrSizeTooLarge`, prefixed with the read error's text. |
| `App.ReadBoundedConsumption` | app/app.go:172-190 | At most limit+1 bytes are consumed, never more than the stream holds, and at most M+1 when M >= 512. |
| `App.UnknownTypeRejectedUnread` | app/app.go:157-170 | A type other than `url` or `base64` gives `ErrOthers` with `requested type <t> is not implemented for http requests`, and 0 bytes are consumed. |
| `App.FileUploadRejected` | app/app.go:168-169 | `file-upload` falls into that default case. |
| `App.ResolveCases` | app/app.go:157-167 | Base64 always opens its decoded stream. A URL opens exactly when the fetch succeeds and the header check passes, and then yields the body. A failed fetch fails with `ErrOthers` and the client's error text. A refused Content-Type fails with `ErrOthers` and `<type> may not be an image`. |
| `App.ExtractorFailureReported` | app/app.go:192-195 | When the extractor fails on an acceptable stream, the response has no colours and the Error is `ErrOthers` with the extractor's own message. |
| `App.FindProminentColorsContract` | app/app.go:192-221 | The response has no error exactly when a reader opens, its stream is acceptable and the extractor succeeds on the whole stream; its colours are then `TopColors` of the extractor's result. On failure there are no colours, and the Error is `CreateAppError` of the failing stage's message and kind, which is never `no_error` or `serialization_error`. |
| `App.FindProminentColorsConsumption` | app/app.go:155-198 | The pipeline consumes at most limit+1 bytes, and none when no reader opens. |
| `App.FindColors` | app/app.go:155-198 | The imperative closure returns exactly `ColorsOf`'s result and consumption. |
| `App.FindProminentColors` | app/app.go:150-207 | Builds exactly `ResponseFor` and reports the bytes consumed. |
| `App.CacheKeyInjective` | app/app.go:114-125 | `strconv.Itoa(int(uid))` maps distinct 64-bit fingerprints to distinct keys. |
| `App.EffectiveCount` | app/app.go:104-106 | 0 or more than the maximum becomes the maximum. Any other value, negatives included, is kept. The result never exceeds the maximum. |
| `App.EffectiveCountIdempotent` | app/app.go:104-106 | Clamping twice equals clamping once. |
| `App.Lookup` | app/app.go:124-127 | A hit happens exactly when the key holds a non-empty `[]ColorItem`, and yields it. |
| `App.DeferredStore` | app/app.go:110-120 | It faults exactly when not in cache, hashing succeeds and response is nil. It adds at most the request's key, and changes nothing when `inCache` is set or hashing fails. |
| `App.WriteResponse` | app/app.go:67-84 | A nil response aborts. Otherwise the body is sent: 500 with no headers exactly when it has an error, else 200 with the CORS and JSON headers. |
| `App.DecodeFailureAborts` | app/app.go:65-101 | A body that fails to decode is never answered, and the cache is untouched. |
| `App.CacheHitAborts` | app/app.go:122-130 | A non-empty `[]ColorItem` entry for the request's key drops the connection, and the cache is untouched. |
| `App.CacheNeverHits` | app/app.go:114-127 | Caches holding only `[]string` values stay that way. Under that invariant every decoded request runs `FindProminentColors` and is answered from its response. |
| `App.RepeatedRequestRecomputes` | app/app.go:108-134 | From an empty cache, the same request twice runs `FindProminentColors` twice, also when the collaborators answer differently the second time; the second reply is the one computed then. |
| `App.StoreRule` | app/app.go:108-120 | A written reply stores its colours under the fingerprint's key exactly when hashing succeeded, error is nil and colours are non-empty; otherwise the cache is unchanged. A dropped connection stores nothing. |
| `App.StatusRule` | app/app.go:75-81 | A written reply is 500 exactly when it carries an error. Otherwise it is 200 with the CORS and JSON headers. |
| `App.LookupIntended` | app/app.go:124-127 | Corrected lookup: a hit happens exactly when the key holds a non-empty `[]string`, of the type that is stored. |
| `App.IntendedDecodeFailureIs500` | app/app.go:92-100 | Corrected handler: every request gets a reply. A refused body gets 500 with `serialization_error`, and the cache is unchanged. |
| `App.IntendedHitServesCache` | app/app.go:122-130 | Corrected handler: a cached non-empty entry is sent with 200, the cache is unchanged, and the collaborators other than the hash are not consulted. |
| `App.IntendedRepeatIsCached` | app/app.go:108-134 | Corrected handler: after colours were sent, the same request gets the same reply from the cache without running `FindProminentColors`. |
| `App.App.constructor` | main.go:44-49 | The application starts with the given settings and an empty cache, so `Valid()` holds. |
| `App.App.ProminentColorsFinderHandler` | app/app.go:62-135 | The method's reply and new cache are exactly those of `Serve` on the old cache, and it keeps `Valid()`, so a running application never reads its cache back. |

## Left out

- JSON decoding and encoding: the decoder's outcome is the handler's input, and the reply carries the response record rather than its bytes. The marshal-failure path (app/app.go:68-73) is not modelled.
- The request-body `LimitReader`/`TeeReader`, draining the body, and the asynchronous logging goroutine (app/app.go:89-97): I/O and concurrency.
- Logging of hash failures (app/app.go:118): output only.
- go-cache expiry and locking: entries never expire in the model, and requests are handled one at a time. The cached-repeat lemmas therefore describe requests made within the TTL.
- Network fetch and the disk-cache transport (img/image.go:56-61), `http.DetectContentType`, base64 decoding, `image.Decode` with `prominentcolor.KmeansWithAll` (img/image.go:27-40), `ColorItem.AsString` and `hashstructure.Hash`: foreign libraries, passed in as arbitrary functions.
- Any bound on the number of colours returned relative to the requested count: it depends on the extractor, which is opaque here.
- CacheKey: assumes a 64-bit `int`. On a 32-bit platform `int(uid)` at app/app.go:116 and 125 keeps only the low 32 bits, so distinct fingerprints can share a key and `CacheKeyInjective` would not hold.
- `GetReaderFromFile` (img/image.go:43-47): unused file I/O.
- Closing readers, and the response body leaked when `GetReaderFromURL` returns one together with an error: resource release is not modelled.
- Headers that `net/http` adds by itself, such as a sniffed Content-Type on the 500 path: the model records only the headers the handler sets.
- 64-bit overflow of `maxRequestBodySize - 512` and of the `<< 20` in main.go: sizes are unbounded integers.
- main.go's flags, router, CORS middleware and timeouts.
- app/app_test.go needs a local file and the network, and asserts only status 200.

## Findings

| source | as written | input that shows it | evidently intended | confidence | as-written member | corrected member |
|---|---|---|---|---|---|---|
| app/app.go:65-99 | `response` is still a nil pointer when decoding fails. Line 99 and the deferred writer (line 75) dereference it, so the handler panics and the client gets no reply. | a request body that is not JSON, e.g. `{` | HTTP 500 with a `serialization_error` | high; not executed | `App.DecodeFailureAborts` | `App.IntendedDecodeFailureIs500` |
| app/app.go:116-127 | The store saves `response.ProminentColors`, a `[]string`. The lookup asserts `[]prominentcolor.ColorItem`, so it never succeeds and every request recomputes. | the same valid request sent twice | the second request is answered from the cache without running `FindProminentColors` | high; not executed | `App.RepeatedRequestRecomputes` | `App.IntendedRepeatIsCached` |
| app/app.go:108-128 | On a hit, line 128 assigns through the nil `response`. The `inCache` of line 125 also shadows the one the deferred store tests at line 111, so a hit would be stored again. | a shared cache already holding a non-empty `[]ColorItem` under the request's key | 200 with the cached colours, and nothing stored | medium; not executed | `App.CacheHitAborts` | `App.IntendedHitServesCache` |
