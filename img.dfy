/**
  img/image.go: where image bytes come from, and the conversion of colour
  clusters to hex strings. The HTTP client with its disk cache, the base64
  decoder, the image codecs with the k-means clustering, and
  ColorItem.AsString belong to other libraries; they are parameters here.
 */
module Img {
  import opened Wrappers
  import opened Text
  import opened IO

  /** prominentcolor.ColorItem: a cluster centre and the number of pixels in it. */
  datatype ColorItem = ColorItem(r: nat, g: nat, b: nat, cnt: int)

  /**
    GetProminentColorsFromReader: image.Decode followed by
    prominentcolor.KmeansWithAll(n, ...) over the buffered bytes; either
    step may fail with an error message.
   */
  type Extractor = (seq<byte>, int) -> Result<seq<ColorItem>, string>

  /** Reference definition of TopColors: AsString applied to each item, in order. */
  function HexColors(items: seq<ColorItem>, asString: ColorItem -> string): seq<string> {
    if items == [] then [] else [asString(items[0])] + HexColors(items[1..], asString)
  }

  lemma {:induction false} HexColorsAt(items: seq<ColorItem>, asString: ColorItem -> string)
    ensures |HexColors(items, asString)| == |items|
    ensures forall i :: 0 <= i < |items| ==> HexColors(items, asString)[i] == asString(items[i])
  {
    if items != [] {
      HexColorsAt(items[1..], asString);
    }
  }

  /**
    TopColors: one hex string per cluster, in the extractor's order (by
    prominence). An empty input gives the empty (nil) slice.
   */
  method TopColors(prominentColors: seq<ColorItem>, asString: ColorItem -> string) returns (colorsInHex: seq<string>)
    ensures |colorsInHex| == |prominentColors|
    ensures forall i :: 0 <= i < |prominentColors| ==> colorsInHex[i] == asString(prominentColors[i])
    ensures colorsInHex == HexColors(prominentColors, asString)
  {
    colorsInHex := [];
    for i := 0 to |prominentColors|
      invariant |colorsInHex| == i
      invariant forall k :: 0 <= k < i ==> colorsInHex[k] == asString(prominentColors[k])
    {
      colorsInHex := colorsInHex + [asString(prominentColors[i])];
    }
    HexColorsAt(prominentColors, asString);
  }

  /**
    The reply of the caching HTTP client: the Content-Type header ("" when
    the header is absent) and the body.
   */
  datatype HttpResponse = HttpResponse(contentType: string, body: Stream)

  /** The client's Get(url) through a disk cache in cacheDir; it may fail with a message. */
  type Fetcher = (string, string) -> Result<HttpResponse, string>

  /** An opener's two results: the reader (None for nil) and the error (None for nil). */
  datatype Opened = Opened(reader: Option<Stream>, err: Option<string>)

  /**
    GetReaderFromURL: a failed fetch gives no reader and the client's error.
    Otherwise the body is returned in every case, and an error is added
    exactly when a Content-Type header is present and is not an image type.
   */
  function GetReaderFromURL(url: string, cacheDir: string, get: Fetcher): (r: Opened)
    ensures get(url, cacheDir).Err? ==> r == Opened(None, Some(get(url, cacheDir).error))
    ensures get(url, cacheDir).Ok? ==> r.reader == Some(get(url, cacheDir).value.body)
    ensures get(url, cacheDir).Ok? ==>
      var contentType := get(url, cacheDir).value.contentType;
      && (r.err.None? <==> contentType == "" || HasPrefix(contentType, "image/"))
      && (r.err.Some? ==> r.err.value == contentType + " may not be an image")
  {
    match get(url, cacheDir)
    case Err(e) => Opened(None, Some(e))
    case Ok(resp) =>
      var contentType := resp.contentType;
      if contentType != "" && !HasPrefix(contentType, "image/") then
        Opened(Some(resp.body), Some(contentType + " may not be an image"))
      else
        Opened(Some(resp.body), None)
  }

  /**
    GetReaderFromBase64Data: wraps a streaming decoder and never fails;
    malformed input shows up only as the decoded stream's read error.
   */
  function GetReaderFromBase64Data(data: string, decode: string -> Stream): (r: Opened)
    ensures r.err.None?
    ensures r.reader == Some(decode(data))
  {
    Opened(Some(decode(data)), None)
  }
}
