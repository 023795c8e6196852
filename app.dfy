/**
  app/app.go: the request and response records, the bounded image
  validator inside FindProminentColors, and ProminentColorsFinderHandler
  with its shared memo cache.

  The libraries the package calls are parameters, gathered in Env:
  http.DetectContentType, the base64 decoder, the caching HTTP client,
  image decoding with k-means clustering, ColorItem.AsString and
  hashstructure.Hash. JSON decoding of the request is represented by its
  outcome (the decoded body or the decoder's error message).
 */
module App {
  import opened Wrappers
  import opened Text
  import opened IO
  import opened Img

  /** ErrorType and its constants; Name() is the string sent as "type". */
  datatype ErrorType = ErrNone | ErrSerialization | ErrSizeTooLarge | ErrUnknownDataFormat | ErrOthers {
    function Name(): string {
      match this
      case ErrNone => "no_error"
      case ErrSerialization => "serialization_error"
      case ErrSizeTooLarge => "size_too_large_error"
      case ErrUnknownDataFormat => "unknown_data_format_error"
      case ErrOthers => "other_error"
    }
  }

  /** A client can tell every kind of error apart from the "type" string alone. */
  lemma ErrorTypeNamesDistinct(a: ErrorType, b: ErrorType)
    requires a.Name() == b.Name()
    ensures a == b
  {
  }

  datatype Error = Error(message: string, errorType: ErrorType)

  /** CreateAppError(err, typ), with err given by its Error() text. */
  function CreateAppError(message: string, typ: ErrorType): Error {
    Error(message, typ)
  }

  /** The UploadType values; any other string may arrive in a request. */
  const ImgURL: string := "url"
  const ImgBase64: string := "base64"
  const ImgUpload: string := "file-upload"

  datatype HandleImgRequestBody = HandleImgRequestBody(uploadType: string, value: string, prominentColors: int)

  /**
    The response record. The response is built only by TopColors or left
    unset, so an empty colour list is Go's nil slice (sent as null).
   */
  datatype HandleImgResponseBody = HandleImgResponseBody(prominentColors: seq<string>, error: Option<Error>)

  newtype uint64 = x: int | 0 <= x < 0x1_0000_0000_0000_0000

  /** The foreign capabilities the package relies on. */
  datatype Env = Env(
    detectContentType: seq<byte> -> string,
    decodeBase64: string -> Stream,
    get: Fetcher,
    extract: Extractor,
    asString: ColorItem -> string,
    hash: HandleImgRequestBody -> Option<uint64>)

  // ---------------------------------------------------------------------
  // FindProminentColors
  // ---------------------------------------------------------------------

  /** The (ErrorType, error) pair the inner closure returns on failure. */
  datatype Failure = Failure(kind: ErrorType, message: string)

  const HeaderBufLen: int := 512
  const MiB: int := 0x10_0000

  /** "%dmb is the limit ...", with maxRequestBodySize>>20 (a floor division). */
  function LimitMessage(maxSize: int): string {
    Decimal(maxSize / MiB) + "mb is the limit of the acceptable image size"
  }

  /** The sniffed type names an image. */
  predicate IsImage(contentType: string) {
    HasPrefix(contentType, "image/")
  }

  /**
    The buffered bytes or the stage's failure, and how many bytes the
    validator took from the reader.
   */
  datatype Buffered = Buffered(outcome: Result<seq<byte>, Failure>, consumed: nat)

  /**
    Lines 171-190 as a function of the stream: a 512-byte header, the
    sniff, up to maxSize-512 more bytes, then a one-byte probe.
   */
  function ReadBounded(s: Stream, maxSize: int, detect: seq<byte> -> string): Buffered {
    var head := CopyOutcome(s, 0, HeaderBufLen);
    if head.err.Some? then
      Buffered(Err(Failure(ErrOthers, head.err.value.Message())), |head.chunk|)
    else
      var detected := detect(head.chunk);
      if !IsImage(detected) then
        Buffered(Err(Failure(ErrUnknownDataFormat, detected + " may not be image")), HeaderBufLen)
      else
        var rest := CopyOutcome(s, HeaderBufLen, maxSize - HeaderBufLen);
        var read := HeaderBufLen + |rest.chunk|;
        if rest.err.Some? && rest.err.value != EOF then
          Buffered(Err(Failure(ErrSizeTooLarge, rest.err.value.Message() + " " + LimitMessage(maxSize))), read)
        else
          var probe := CopyOutcome(s, read, 1);
          if probe.err.None? then
            Buffered(Err(Failure(ErrSizeTooLarge, LimitMessage(maxSize))), read + 1)
          else
            Buffered(Ok(head.chunk + rest.chunk), read)
  }

  /**
    The size the validator lets through: maxSize, except that the header
    is always read whole, so a limit below 512 acts as 512.
   */
  function Limit(maxSize: int): int {
    if maxSize < HeaderBufLen then HeaderBufLen else maxSize
  }

  /**
    The independent description of an accepted stream: at least a header,
    at most the limit, an image header, and a normal end unless the stream
    fills the limit exactly (then the probe alone sees its end).
   */
  predicate Acceptable(s: Stream, maxSize: int, detect: seq<byte> -> string) {
    && HeaderBufLen <= |s.data| <= Limit(maxSize)
    && IsImage(detect(s.data[..HeaderBufLen]))
    && (s.end == EOF || |s.data| == Limit(maxSize))
  }

  /** The validator accepts exactly the acceptable streams, and then buffers all of it. */
  lemma ReadBoundedAcceptsIff(s: Stream, maxSize: int, detect: seq<byte> -> string)
    ensures ReadBounded(s, maxSize, detect).outcome.Ok? <==> Acceptable(s, maxSize, detect)
    ensures ReadBounded(s, maxSize, detect).outcome.Ok? ==>
      ReadBounded(s, maxSize, detect).outcome.value == s.data
      && ReadBounded(s, maxSize, detect).consumed == |s.data|
  {
    if |s.data| >= HeaderBufLen && IsImage(detect(s.data[..HeaderBufLen])) {
      var rest := CopyOutcome(s, HeaderBufLen, maxSize - HeaderBufLen);
      assert s.data[..HeaderBufLen] + rest.chunk == s.data[..HeaderBufLen + |rest.chunk|];
    }
  }

  /** A stream shorter than the header fails with ErrOthers carrying how it ended (io.EOF or its read error). */
  lemma ShortStreamRejected(s: Stream, maxSize: int, detect: seq<byte> -> string)
    requires |s.data| < HeaderBufLen
    ensures ReadBounded(s, maxSize, detect) == Buffered(Err(Failure(ErrOthers, s.end.Message())), |s.data|)
  {
  }

  /** A header that does not sniff as an image fails before any size check, after exactly 512 bytes. */
  lemma NonImageRejected(s: Stream, maxSize: int, detect: seq<byte> -> string)
    requires |s.data| >= HeaderBufLen
    requires !IsImage(detect(s.data[..HeaderBufLen]))
    ensures ReadBounded(s, maxSize, detect) ==
      Buffered(Err(Failure(ErrUnknownDataFormat, detect(s.data[..HeaderBufLen]) + " may not be image")), HeaderBufLen)
  {
  }

  /** An image stream longer than the limit is refused by the probe, after exactly limit+1 bytes. */
  lemma OversizeRejected(s: Stream, maxSize: int, detect: seq<byte> -> string)
    requires |s.data| > Limit(maxSize)
    requires IsImage(detect(s.data[..HeaderBufLen]))
    ensures ReadBounded(s, maxSize, detect) ==
      Buffered(Err(Failure(ErrSizeTooLarge, LimitMessage(maxSize))), Limit(maxSize) + 1)
  {
  }

  /**
    A read error after the header and before the limit is reported as
    ErrSizeTooLarge (line 183 classifies every non-EOF error that way).
   */
  lemma BrokenStreamReportedAsSize(s: Stream, maxSize: int, detect: seq<byte> -> string)
    requires HeaderBufLen <= |s.data| < Limit(maxSize)
    requires s.end.Failed?
    requires IsImage(detect(s.data[..HeaderBufLen]))
    ensures ReadBounded(s, maxSize, detect) ==
      Buffered(Err(Failure(ErrSizeTooLarge, s.end.message + " " + LimitMessage(maxSize))), |s.data|)
  {
  }

  /** The validator never takes more than limit+1 bytes, nor more than the stream holds. */
  lemma ReadBoundedConsumption(s: Stream, maxSize: int, detect: seq<byte> -> string)
    ensures ReadBounded(s, maxSize, detect).consumed <= Limit(maxSize) + 1
    ensures ReadBounded(s, maxSize, detect).consumed <= |s.data|
    ensures maxSize >= HeaderBufLen ==> ReadBounded(s, maxSize, detect).consumed <= maxSize + 1
  {
  }

  /** Lines 156-170: the reader chosen by the upload type, or the failure. */
  function Resolve(h: HandleImgRequestBody, cacheDir: string, env: Env): Result<Stream, Failure> {
    if h.uploadType == ImgURL then
      var src := GetReaderFromURL(h.value, cacheDir, env.get);
      if src.err.Some? then Err(Failure(ErrOthers, src.err.value)) else Ok(src.reader.value)
    else if h.uploadType == ImgBase64 then
      var src := GetReaderFromBase64Data(h.value, env.decodeBase64);
      if src.err.Some? then Err(Failure(ErrOthers, src.err.value)) else Ok(src.reader.value)
    else
      Err(Failure(ErrOthers, "requested type " + h.uploadType + " is not implemented for http requests"))
  }

  /** What the closure of lines 155-198 computes, and how many bytes it read. */
  datatype Attempt = Attempt(result: Result<seq<string>, Failure>, consumed: nat)

  function ColorsOf(h: HandleImgRequestBody, maxSize: int, cacheDir: string, env: Env): Attempt {
    match Resolve(h, cacheDir, env)
    case Err(f) => Attempt(Err(f), 0)
    case Ok(s) =>
      var read := ReadBounded(s, maxSize, env.detectContentType);
      match read.outcome
      case Err(f) => Attempt(Err(f), read.consumed)
      case Ok(payload) =>
        match env.extract(payload, h.prominentColors)
        case Err(e) => Attempt(Err(Failure(ErrOthers, e)), read.consumed)
        case Ok(items) => Attempt(Ok(HexColors(items, env.asString)), read.consumed)
  }

  /** Lines 200-206: the failure becomes the response's Error, success its colours. */
  function ResponseFor(h: HandleImgRequestBody, maxSize: int, cacheDir: string, env: Env): HandleImgResponseBody {
    match ColorsOf(h, maxSize, cacheDir, env).result
    case Err(f) => HandleImgResponseBody([], Some(CreateAppError(f.message, f.kind)))
    case Ok(colors) => HandleImgResponseBody(colors, None)
  }

  /** An upload type other than "url" and "base64" fails with ErrOthers before anything is read. */
  lemma UnknownTypeRejectedUnread(h: HandleImgRequestBody, maxSize: int, cacheDir: string, env: Env)
    requires h.uploadType != ImgURL && h.uploadType != ImgBase64
    ensures ColorsOf(h, maxSize, cacheDir, env) ==
      Attempt(Err(Failure(ErrOthers, "requested type " + h.uploadType + " is not implemented for http requests")), 0)
  {
  }

  /** "file-upload" is one of those types. */
  lemma FileUploadRejected(value: string, n: int, maxSize: int, cacheDir: string, env: Env)
    ensures ColorsOf(HandleImgRequestBody(ImgUpload, value, n), maxSize, cacheDir, env).result ==
      Err(Failure(ErrOthers, "requested type " + ImgUpload + " is not implemented for http requests"))
  {
  }

  /** Base64 data always yields its decoded stream; a URL yields the body unless the fetch or the header check fails. */
  lemma ResolveCases(h: HandleImgRequestBody, cacheDir: string, env: Env)
    ensures h.uploadType == ImgBase64 ==> Resolve(h, cacheDir, env) == Ok(env.decodeBase64(h.value))
    ensures h.uploadType == ImgURL ==>
      var resp := env.get(h.value, cacheDir);
      (Resolve(h, cacheDir, env).Ok? <==>
        resp.Ok? && (resp.value.contentType == "" || HasPrefix(resp.value.contentType, "image/")))
      && (Resolve(h, cacheDir, env).Ok? ==> Resolve(h, cacheDir, env).value == resp.value.body)
      && (resp.Err? ==> Resolve(h, cacheDir, env) == Err(Failure(ErrOthers, resp.error)))
      && (resp.Ok? && resp.value.contentType != "" && !HasPrefix(resp.value.contentType, "image/") ==>
            Resolve(h, cacheDir, env) == Err(Failure(ErrOthers, resp.value.contentType + " may not be an image")))
  {
  }

  /**
    The net contract of FindProminentColors: it succeeds exactly when a
    reader opens, its stream is acceptable and the extractor succeeds on
    the whole stream; the colours are then the extractor's, through
    TopColors. On failure there are no colours, and the Error carries the
    failing stage's kind, never ErrNone or ErrSerialization.
   */
  lemma FindProminentColorsContract(h: HandleImgRequestBody, maxSize: int, cacheDir: string, env: Env)
    ensures
      var r := ResponseFor(h, maxSize, cacheDir, env);
      var src := Resolve(h, cacheDir, env);
      && (r.error.None? <==>
            && src.Ok?
            && Acceptable(src.value, maxSize, env.detectContentType)
            && env.extract(src.value.data, h.prominentColors).Ok?)
      && (r.error.None? ==>
            r.prominentColors == HexColors(env.extract(src.value.data, h.prominentColors).value, env.asString))
      && (r.error.Some? ==>
            && r.prominentColors == []
            && r.error.value == CreateAppError(ColorsOf(h, maxSize, cacheDir, env).result.error.message,
                                               ColorsOf(h, maxSize, cacheDir, env).result.error.kind)
            && r.error.value.errorType in {ErrOthers, ErrUnknownDataFormat, ErrSizeTooLarge})
  {
    var src := Resolve(h, cacheDir, env);
    if src.Ok? {
      ReadBoundedAcceptsIff(src.value, maxSize, env.detectContentType);
    }
  }

  /**
    A failure of the extractor on an acceptable stream is sent as
    ErrOthers with the extractor's own message, and no colours.
   */
  lemma ExtractorFailureReported(h: HandleImgRequestBody, maxSize: int, cacheDir: string, env: Env)
    requires Resolve(h, cacheDir, env).Ok?
    requires Acceptable(Resolve(h, cacheDir, env).value, maxSize, env.detectContentType)
    requires env.extract(Resolve(h, cacheDir, env).value.data, h.prominentColors).Err?
    ensures ResponseFor(h, maxSize, cacheDir, env) ==
      HandleImgResponseBody([], Some(Error(env.extract(Resolve(h, cacheDir, env).value.data, h.prominentColors).error, ErrOthers)))
  {
    ReadBoundedAcceptsIff(Resolve(h, cacheDir, env).value, maxSize, env.detectContentType);
  }

  /**
    A stream that ends with a read error right after exactly the limit is
    accepted: the second CopyN is satisfied and the probe's error is not nil.
   */
  lemma ReadErrorAtLimitAccepted(s: Stream, maxSize: int, detect: seq<byte> -> string)
    requires |s.data| == Limit(maxSize)
    requires s.end.Failed?
    requires IsImage(detect(s.data[..HeaderBufLen]))
    ensures ReadBounded(s, maxSize, detect) == Buffered(Ok(s.data), |s.data|)
  {
    ReadBoundedAcceptsIff(s, maxSize, detect);
  }

  /** Whatever the request, at most limit+1 bytes are taken from the reader, and none when no reader opens. */
  lemma FindProminentColorsConsumption(h: HandleImgRequestBody, maxSize: int, cacheDir: string, env: Env)
    ensures ColorsOf(h, maxSize, cacheDir, env).consumed <= Limit(maxSize) + 1
    ensures Resolve(h, cacheDir, env).Err? ==> ColorsOf(h, maxSize, cacheDir, env).consumed == 0
  {
    if Resolve(h, cacheDir, env).Ok? {
      ReadBoundedConsumption(Resolve(h, cacheDir, env).value, maxSize, env.detectContentType);
    }
  }

  /**
    The closure of lines 155-198 against a reader object: bufr grows by
    each io.CopyN; the probe byte is discarded.
   */
  method FindColors(h: HandleImgRequestBody, maxRequestBodySize: int, cacheDir: string, env: Env)
    returns (colors: seq<string>, errTyp: ErrorType, err: Option<string>, ghost consumed: nat)
    ensures ColorsOf(h, maxRequestBodySize, cacheDir, env).consumed == consumed
    ensures ColorsOf(h, maxRequestBodySize, cacheDir, env).result ==
      if err.Some? then Err(Failure(errTyp, err.value)) else Ok(colors)
  {
    colors, errTyp, err, consumed := [], ErrNone, None, 0;
    var src := Resolve(h, cacheDir, env);
    if src.Err? {
      errTyp, err := src.error.kind, Some(src.error.message);
      return;
    }
    var imgReader := new Reader(src.value);
    var bufr: seq<byte> := [];
    var chunk, e := imgReader.CopyN(HeaderBufLen);
    bufr := bufr + chunk;
    assert bufr == chunk;
    consumed := imgReader.pos;
    if e.Some? {
      errTyp, err := ErrOthers, Some(e.value.Message());
      return;
    }
    var detected := env.detectContentType(bufr);
    if !IsImage(detected) {
      errTyp, err := ErrUnknownDataFormat, Some(detected + " may not be image");
      return;
    }
    chunk, e := imgReader.CopyN(maxRequestBodySize - HeaderBufLen);
    bufr := bufr + chunk;
    consumed := imgReader.pos;
    if e.Some? && e.value != EOF {
      errTyp, err := ErrSizeTooLarge, Some(e.value.Message() + " " + LimitMessage(maxRequestBodySize));
      return;
    }
    var discarded, probeErr := imgReader.CopyN(1);
    consumed := imgReader.pos;
    if probeErr.None? {
      errTyp, err := ErrSizeTooLarge, Some(LimitMessage(maxRequestBodySize));
      return;
    }
    match env.extract(bufr, h.prominentColors)
    case Err(m) =>
      errTyp, err := ErrOthers, Some(m);
    case Ok(prominentColors) =>
      colors := TopColors(prominentColors, env.asString);
  }

  /** FindProminentColors: the response for the request, and the bytes taken from the reader. */
  method FindProminentColors(h: HandleImgRequestBody, maxRequestBodySize: int, cacheDir: string, env: Env)
    returns (response: HandleImgResponseBody, ghost consumed: nat)
    ensures response == ResponseFor(h, maxRequestBodySize, cacheDir, env)
    ensures consumed == ColorsOf(h, maxRequestBodySize, cacheDir, env).consumed
  {
    var colors, errTyp, err;
    colors, errTyp, err, consumed := FindColors(h, maxRequestBodySize, cacheDir, env);
    if err.Some? {
      response := HandleImgResponseBody([], Some(CreateAppError(err.value, errTyp)));
    } else {
      response := HandleImgResponseBody(colors, None);
    }
  }

  // ---------------------------------------------------------------------
  // ProminentColorsFinderHandler and the memo cache
  // ---------------------------------------------------------------------

  /**
    The dynamic type of a value held in the go-cache (an interface{}):
    a []string or a []prominentcolor.ColorItem.
   */
  datatype CacheValue = HexList(hex: seq<string>) | ItemList(items: seq<ColorItem>)

  type Cache = map<string, CacheValue>

  /** int(uid) on a 64-bit platform: two's-complement reinterpretation. */
  function Int64(u: uint64): int {
    if u < 0x8000_0000_0000_0000 then u as int else u as int - 0x1_0000_0000_0000_0000
  }

  /** strconv.Itoa(int(uid)), the cache key of a fingerprint. */
  function CacheKey(uid: uint64): string {
    Decimal(Int64(uid))
  }

  /** Distinct fingerprints never share a cache key. */
  lemma CacheKeyInjective(u: uint64, v: uint64)
    requires CacheKey(u) == CacheKey(v)
    ensures u == v
  {
    DecimalInjective(Int64(u), Int64(v));
  }

  /**
    Lines 104-106: 0 (the field left out of the JSON) and anything above
    the maximum become the maximum; every other value, a negative one
    included, is kept.
   */
  function EffectiveCount(requested: int, maxColors: int): (n: int)
    ensures n <= maxColors
    ensures requested == 0 || requested > maxColors ==> n == maxColors
    ensures 1 <= requested <= maxColors ==> n == requested
    ensures requested < 0 && requested <= maxColors ==> n == requested
  {
    if requested == 0 || requested > maxColors then maxColors else requested
  }

  /** Clamping an already clamped count changes nothing. */
  lemma EffectiveCountIdempotent(requested: int, maxColors: int)
    ensures EffectiveCount(EffectiveCount(requested, maxColors), maxColors) == EffectiveCount(requested, maxColors)
  {
  }

  function Normalize(body: HandleImgRequestBody, maxColors: int): HandleImgRequestBody {
    body.(prominentColors := EffectiveCount(body.prominentColors, maxColors))
  }

  /**
    Lines 125-127 as written: Get, then the assertion to
    []prominentcolor.ColorItem, then the non-empty check.
   */
  function Lookup(cache: Cache, key: string): (r: Option<seq<ColorItem>>)
    ensures r.Some? <==> key in cache && cache[key].ItemList? && |cache[key].items| > 0
    ensures r.Some? ==> r.value == cache[key].items
  {
    if key in cache && cache[key].ItemList? && |cache[key].items| > 0 then Some(cache[key].items) else None
  }

  /**
    The deferred store of lines 110-120, on the response pointer (None for
    nil). The result is None when the closure dereferences a nil response
    (a panic): that happens only when hashing succeeded.
   */
  function DeferredStore(inCache: bool, cache: Cache, req: HandleImgRequestBody,
                         response: Option<HandleImgResponseBody>,
                         hash: HandleImgRequestBody -> Option<uint64>): (r: Option<Cache>)
    ensures r.None? <==> !inCache && hash(req).Some? && response.None?
    ensures r.Some? ==> r.value.Keys <= cache.Keys + (if hash(req).Some? then {CacheKey(hash(req).value)} else {})
    ensures r.Some? && (inCache || hash(req).None?) ==> r.value == cache
  {
    if inCache then Some(cache)
    else match hash(req)
      case None => Some(cache)
      case Some(uid) =>
        if response.None? then None
        else if response.value.error.None? && |response.value.prominentColors| > 0 then
          Some(cache[CacheKey(uid) := HexList(response.value.prominentColors)])
        else Some(cache)
  }

  /** What reaches the client: a status, the headers the handler sets, and the body; or a dropped connection. */
  datatype Reply = Written(status: int, headers: seq<(string, string)>, body: HandleImgResponseBody) | Aborted

  const StatusOK: int := 200
  const StatusInternalServerError: int := 500
  const CorsJsonHeaders: seq<(string, string)> :=
    [("Access-Control-Allow-Origin", "*"), ("Content-Type", "application/json")]

  /**
    The deferred writer of lines 67-84. A nil response marshals as null,
    but line 75 then dereferences it: the handler panics and net/http
    drops the connection.
   */
  function WriteResponse(response: Option<HandleImgResponseBody>): (r: Reply)
    ensures r.Aborted? <==> response.None?
    ensures r.Written? ==> r.body == response.value
    ensures r.Written? ==> (r.status == StatusInternalServerError <==> r.body.error.Some?)
    ensures r.Written? ==> (r.status == StatusOK <==> r.body.error.None?)
    ensures r.Written? && r.status == StatusOK ==> r.headers == CorsJsonHeaders
    ensures r.Written? && r.status == StatusInternalServerError ==> r.headers == []
  {
    match response
    case None => Aborted
    case Some(b) =>
      if b.error.Some? then Written(StatusInternalServerError, [], b) else Written(StatusOK, CorsJsonHeaders, b)
  }

  datatype Config = Config(maxBodySizeInBytes: int, maxProminentColors: int, diskCacheDir: string)

  /** One request's effect: the reply, the new cache, and whether FindProminentColors ran. */
  datatype Served = Served(reply: Reply, cache: Cache, computed: bool)

  /**
    ProminentColorsFinderHandler as written, on the decoder's outcome.
    `response` starts as a nil pointer; the outer inCache is never set,
    because line 125 declares a new one.
   */
  function Serve(config: Config, cache: Cache, decoded: Result<HandleImgRequestBody, string>, env: Env): Served {
    match decoded
    case Err(_) =>
      // line 99 assigns through the nil response; the deferred writer then faults too
      Served(WriteResponse(None), cache, false)
    case Ok(body) =>
      var req := Normalize(body, config.maxProminentColors);
      var hit := if env.hash(req).Some? then Lookup(cache, CacheKey(env.hash(req).value)) else None;
      // on a hit, line 128 assigns through the nil response, so FindProminentColors never runs
      var response := if hit.Some? then None else Some(ResponseFor(req, config.maxBodySizeInBytes, config.diskCacheDir, env));
      var stored := DeferredStore(false, cache, req, response, env.hash);
      if stored.None? then Served(Aborted, cache, false)
      else Served(WriteResponse(response), stored.value, hit.None?)
  }

  /** A body the decoder refuses never gets a reply: the connection is dropped and the cache is untouched. */
  lemma DecodeFailureAborts(config: Config, cache: Cache, e: string, env: Env)
    ensures Serve(config, cache, Err(e), env) == Served(Aborted, cache, false)
  {
  }

  /** A cache entry holding a non-empty []ColorItem for the request's key drops the connection too. */
  lemma CacheHitAborts(config: Config, cache: Cache, body: HandleImgRequestBody, env: Env)
    requires env.hash(Normalize(body, config.maxProminentColors)).Some?
    requires Lookup(cache, CacheKey(env.hash(Normalize(body, config.maxProminentColors)).value)).Some?
    ensures Serve(config, cache, Ok(body), env) == Served(Aborted, cache, false)
  {
  }

  /** Every value in the cache is a []string, the only type this handler stores. */
  ghost predicate OnlyHexLists(cache: Cache) {
    forall k :: k in cache ==> cache[k].HexList?
  }

  /**
    The handler preserves OnlyHexLists, and under it every decoded request
    runs FindProminentColors and is answered from its response: the
    assertion at line 126 never succeeds, so the cache is never read.
   */
  lemma CacheNeverHits(config: Config, cache: Cache, decoded: Result<HandleImgRequestBody, string>, env: Env)
    requires OnlyHexLists(cache)
    ensures OnlyHexLists(Serve(config, cache, decoded, env).cache)
    ensures decoded.Ok? ==>
      var req := Normalize(decoded.value, config.maxProminentColors);
      && Serve(config, cache, decoded, env).computed
      && Serve(config, cache, decoded, env).reply ==
           WriteResponse(Some(ResponseFor(req, config.maxBodySizeInBytes, config.diskCacheDir, env)))
  {
    if decoded.Ok? {
      var req := Normalize(decoded.value, config.maxProminentColors);
      if env.hash(req).Some? {
        var key := CacheKey(env.hash(req).value);
        assert key in cache ==> cache[key].HexList?;
      }
    }
  }

  /**
    Starting from an empty cache, the same request twice runs
    FindProminentColors twice: the second reply is whatever the
    collaborators answer then, not the first reply.
   */
  lemma RepeatedRequestRecomputes(config: Config, body: HandleImgRequestBody, env: Env, later: Env)
    requires later.hash == env.hash
    ensures
      var req := Normalize(body, config.maxProminentColors);
      var first := Serve(config, map[], Ok(body), env);
      var second := Serve(config, first.cache, Ok(body), later);
      && first.computed && second.computed
      && second.reply == WriteResponse(Some(ResponseFor(req, config.maxBodySizeInBytes, config.diskCacheDir, later)))
  {
    var first := Serve(config, map[], Ok(body), env);
    CacheNeverHits(config, map[], Ok(body), env);
    CacheNeverHits(config, first.cache, Ok(body), later);
  }

  /**
    Lines 108-120: a reply that is written leaves the cache as it was,
    except that a clean, non-empty response with a fingerprint is stored
    under that fingerprint's key; a dropped connection stores nothing.
   */
  lemma StoreRule(config: Config, cache: Cache, decoded: Result<HandleImgRequestBody, string>, env: Env)
    ensures
      var s := Serve(config, cache, decoded, env);
      && (s.reply.Aborted? ==> s.cache == cache)
      && (s.reply.Written? ==>
            var req := Normalize(decoded.value, config.maxProminentColors);
            var b := s.reply.body;
            s.cache == if env.hash(req).Some? && b.error.None? && |b.prominentColors| > 0
                       then cache[CacheKey(env.hash(req).value) := HexList(b.prominentColors)]
                       else cache)
  {
  }

  /** Lines 75-81: a written reply is 500 exactly when it carries an error, otherwise 200 with the JSON and CORS headers. */
  lemma StatusRule(config: Config, cache: Cache, decoded: Result<HandleImgRequestBody, string>, env: Env)
    ensures
      var r := Serve(config, cache, decoded, env).reply;
      r.Written? ==>
        && (r.status == StatusInternalServerError <==> r.body.error.Some?)
        && (r.status == StatusOK <==> r.body.error.None?)
        && (r.status == StatusOK ==> r.headers == CorsJsonHeaders)
  {
  }

  // The handler as evidently intended: `response` allocated up front, the
  // lookup asserting the type that is stored ([]string), and the outer
  // inCache set on a hit so that nothing is stored again.

  function LookupIntended(cache: Cache, key: string): (r: Option<seq<string>>)
    ensures r.Some? <==> key in cache && cache[key].HexList? && |cache[key].hex| > 0
    ensures r.Some? ==> r.value == cache[key].hex
  {
    if key in cache && cache[key].HexList? && |cache[key].hex| > 0 then Some(cache[key].hex) else None
  }

  function DecodeError(e: string): Error {
    CreateAppError("could not decode request body, failed with '" + e + "'", ErrSerialization)
  }

  function ServeIntended(config: Config, cache: Cache, decoded: Result<HandleImgRequestBody, string>, env: Env): Served {
    match decoded
    case Err(e) =>
      Served(WriteResponse(Some(HandleImgResponseBody([], Some(DecodeError(e))))), cache, false)
    case Ok(body) =>
      var req := Normalize(body, config.maxProminentColors);
      var hit := if env.hash(req).Some? then LookupIntended(cache, CacheKey(env.hash(req).value)) else None;
      if hit.Some? then
        var response := Some(HandleImgResponseBody(hit.value, None));
        Served(WriteResponse(response), DeferredStore(true, cache, req, response, env.hash).value, false)
      else
        var response := Some(ResponseFor(req, config.maxBodySizeInBytes, config.diskCacheDir, env));
        Served(WriteResponse(response), DeferredStore(false, cache, req, response, env.hash).value, true)
  }

  /** Intended: every request gets a reply written, a refused body a 500 with a serialization error. */
  lemma IntendedDecodeFailureIs500(config: Config, cache: Cache, decoded: Result<HandleImgRequestBody, string>, env: Env)
    ensures ServeIntended(config, cache, decoded, env).reply.Written?
    ensures decoded.Err? ==>
      ServeIntended(config, cache, decoded, env) ==
        Served(Written(StatusInternalServerError, [], HandleImgResponseBody([], Some(DecodeError(decoded.error)))), cache, false)
    ensures decoded.Err? ==> DecodeError(decoded.error).errorType.Name() == "serialization_error"
  {
  }

  /**
    Intended: a non-empty entry for the request's key is sent with status
    200, no collaborator other than the hash is consulted, and the cache is
    left as it was.
   */
  lemma IntendedHitServesCache(config: Config, cache: Cache, body: HandleImgRequestBody, env: Env, other: Env)
    requires other.hash == env.hash
    requires env.hash(Normalize(body, config.maxProminentColors)).Some?
    requires LookupIntended(cache, CacheKey(env.hash(Normalize(body, config.maxProminentColors)).value)).Some?
    ensures
      var hex := LookupIntended(cache, CacheKey(env.hash(Normalize(body, config.maxProminentColors)).value)).value;
      && ServeIntended(config, cache, Ok(body), env) ==
           Served(Written(StatusOK, CorsJsonHeaders, HandleImgResponseBody(hex, None)), cache, false)
      && ServeIntended(config, cache, Ok(body), other) == ServeIntended(config, cache, Ok(body), env)
  {
  }

  /**
    Intended: once a request has been answered with colours, the same
    request is answered again with the same reply from the cache, without
    running FindProminentColors, whatever the collaborators now do.
   */
  lemma IntendedRepeatIsCached(config: Config, cache: Cache, body: HandleImgRequestBody, env: Env, later: Env)
    requires later.hash == env.hash
    requires env.hash(Normalize(body, config.maxProminentColors)).Some?
    requires
      var r := ServeIntended(config, cache, Ok(body), env).reply;
      r.Written? && r.body.error.None? && |r.body.prominentColors| > 0
    ensures
      var first := ServeIntended(config, cache, Ok(body), env);
      var second := ServeIntended(config, first.cache, Ok(body), later);
      second == Served(first.reply, first.cache, false)
  {
    var first := ServeIntended(config, cache, Ok(body), env);
    var req := Normalize(body, config.maxProminentColors);
    var key := CacheKey(env.hash(req).value);
    assert first.cache[key] == HexList(first.reply.body.prominentColors);
    IntendedHitServesCache(config, first.cache, body, later, later);
  }

  /** The service's state: its settings and the shared cache (go-cache without expiry). */
  class App {
    const maxBodySizeInBytes: int
    const maxProminentColors: int
    const diskCacheDir: string
    var cache: Cache

    function Settings(): Config {
      Config(maxBodySizeInBytes, maxProminentColors, diskCacheDir)
    }

    /** The cache holds only what this handler stores, so it is never read back. */
    ghost predicate Valid()
      reads this
    {
      OnlyHexLists(cache)
    }

    constructor (maxBodySizeInBytes: int, maxProminentColors: int, diskCacheDir: string)
      ensures Settings() == Config(maxBodySizeInBytes, maxProminentColors, diskCacheDir)
      ensures cache == map[]
      ensures Valid()
    {
      this.maxBodySizeInBytes := maxBodySizeInBytes;
      this.maxProminentColors := maxProminentColors;
      this.diskCacheDir := diskCacheDir;
      cache := map[];
    }

    /**
      ProminentColorsFinderHandler, with its deferred calls run at the end
      in reverse order of registration.
     */
    method ProminentColorsFinderHandler(decoded: Result<HandleImgRequestBody, string>, env: Env) returns (reply: Reply)
      requires Valid()
      modifies this
      ensures Valid()
      ensures reply == Serve(Settings(), old(cache), decoded, env).reply
      ensures cache == Serve(Settings(), old(cache), decoded, env).cache
    {
      var response: Option<HandleImgResponseBody> := None;
      if decoded.Err? {
        // response.Error = ... on a nil pointer: panic, then the deferred writer
        reply := WriteResponse(response);
        return;
      }
      var handleImgRequestBody := decoded.value;
      if handleImgRequestBody.prominentColors == 0 || handleImgRequestBody.prominentColors > maxProminentColors {
        handleImgRequestBody := handleImgRequestBody.(prominentColors := maxProminentColors);
      }
      var inCache := false;
      var h := env.hash(handleImgRequestBody);
      var panicked := false;
      if h.Some? {
        var cachedProminentColors := Lookup(cache, CacheKey(h.value));
        if cachedProminentColors.Some? {
          // response.ProminentColors = ... on a nil pointer: panic
          panicked := true;
        }
      }
      if !panicked {
        var r, consumed := FindProminentColors(handleImgRequestBody, maxBodySizeInBytes, diskCacheDir, env);
        response := Some(r);
      }
      CacheNeverHits(Settings(), cache, decoded, env);
      // deferred store, then deferred writer; a panic in the store leaves the writer to fault on the nil response
      var stored := DeferredStore(inCache, cache, handleImgRequestBody, response, env.hash);
      if stored.Some? {
        cache := stored.value;
        reply := WriteResponse(response);
      } else {
        reply := Aborted;
      }
    }
  }
}
