/** The guards in front of the stock-image provider calls
    (app/apps/stocks/manager.py): page and limit clamping for searches and
    the provider whitelist for downloads. The HTTP calls themselves are
    inputs. */
module StocksManager {
  import opened Results
  import opened PyText
  import opened PyValue

  datatype StockBaseImage = StockBaseImage(url: string, width: int, height: int)
  datatype StockImage = StockImage(id: int, original: StockBaseImage, preview: StockBaseImage)

  /** A stock manager. The base class has no provider and does not
      implement `get_search_params`/`get_row`; provider subclasses do. */
  datatype StockImageManager = StockImageManager(
    provider: Option<string>,
    baseUrl: string,
    implementsSearch: bool)

  /** `BaseStockImageManager()`. */
  const BaseManager := StockImageManager(None, "", false)

  /** `max(1, page)`. */
  function ClampPage(page: int): (r: int)
    ensures 1 <= r
    ensures 1 <= page ==> r == page
    ensures page < 1 ==> r == 1
  {
    if page < 1 then 1 else page
  }

  const MaxLimit := 20

  /** `max(1, min(20, limit))`. */
  function ClampLimit(limit: int): (r: int)
    ensures 1 <= r <= MaxLimit
    ensures 1 <= limit <= MaxLimit ==> r == limit
    ensures limit < 1 ==> r == 1
    ensures MaxLimit < limit ==> r == MaxLimit
  {
    var capped := if limit < MaxLimit then limit else MaxLimit;
    if capped < 1 then 1 else capped
  }

  /** Clamping twice is clamping once. */
  lemma ClampIdempotent(page: int, limit: int)
    ensures ClampPage(ClampPage(page)) == ClampPage(page)
    ensures ClampLimit(ClampLimit(limit)) == ClampLimit(limit)
  {
  }

  datatype SearchParams = SearchParams(q: string, page: int, limit: int)

  /** `search`, with the provider's response rows (None: the response has
      no "data" key) and the per-row conversion (None: it raised) as inputs.
      The base manager raises before any request. */
  function Search(
    m: StockImageManager, q: string, page: int, limit: int,
    data: Option<seq<Dict>>, getRow: Dict -> Option<StockImage>): (r: Result<(SearchParams, seq<StockImage>)>)
    ensures !m.implementsSearch ==> r == Err(NotImplementedError)
    ensures m.implementsSearch && data.None? ==> r == Err(KeyError("data"))
    ensures r.Ok? ==>
              && r.value.0 == SearchParams(q, ClampPage(page), ClampLimit(limit))
              && data.Some?
              && |r.value.1| == |data.value|
              && forall i :: 0 <= i < |data.value| ==> Some(r.value.1[i]) == getRow(data.value[i])
    ensures m.implementsSearch && data.Some? ==>
              (r.Ok? <==> forall i :: 0 <= i < |data.value| ==> getRow(data.value[i]).Some?)
  {
    if !m.implementsSearch then Err(NotImplementedError)
    else
      var params := SearchParams(q, ClampPage(page), ClampLimit(limit));
      match data
      case None => Err(KeyError("data"))
      case Some(rows) =>
        match ConvertRows(rows, getRow)
        case None => Err(NetworkError)
        case Some(images) => Ok((params, images))
  }

  /** `asyncio.gather` over the rows: all conversions, in order, or failure. */
  function ConvertRows(rows: seq<Dict>, getRow: Dict -> Option<StockImage>): (r: Option<seq<StockImage>>)
    ensures r.Some? <==> forall i :: 0 <= i < |rows| ==> getRow(rows[i]).Some?
    ensures r.Some? ==> |r.value| == |rows| && forall i :: 0 <= i < |rows| ==> Some(r.value[i]) == getRow(rows[i])
    decreases |rows|
  {
    if |rows| == 0 then Some([])
    else
      match getRow(rows[0])
      case None => None
      case Some(image) =>
        match ConvertRows(rows[1..], getRow)
        case None =>
          assert !(forall i :: 0 <= i < |rows| - 1 ==> getRow(rows[1..][i]).Some?);
          None
        case Some(rest) => Some([image] + rest)
  }

  /** The providers the download service accepts. */
  const Providers: seq<string> := [
    "shutterstock", "adobestock", "freepik", "alamy", "depositphotos",
    "dreamstime", "envato_elements", "istockphoto", "123rf", "vecteezy",
    "vectorstock", "yellowimages", "motionarray"
  ]

  const DownloadUrl := "https://decodl.net/api/product/dev"

  datatype DownloadRequest = DownloadRequest(
    url: string,
    authorization: string,
    appKey: string,
    code: string,
    providerName: string)

  /** `download`: a provider outside the whitelist (including none at all)
      raises before any request; otherwise the request posts the code as a
      string together with the provider name. */
  function Download(m: StockImageManager, code: int, appKey: string, appSecret: string): (r: Result<DownloadRequest>)
    ensures r.Err? <==> (m.provider.None? || m.provider.value !in Providers)
    ensures r.Err? ==> r.error == NotImplementedError
    ensures r.Ok? ==>
              && r.value.url == DownloadUrl
              && Some(r.value.providerName) == m.provider
              && ParseInt(r.value.code) == Some(code)
              && r.value.authorization == "Bearer " + appSecret
              && r.value.appKey == appKey
  {
    if m.provider.None? || m.provider.value !in Providers then Err(NotImplementedError)
    else
      ParseIntToString(code);
      Ok(DownloadRequest(DownloadUrl, "Bearer " + appSecret, appKey, IntToString(code), m.provider.value))
  }

  /** The base manager can neither search nor download. */
  lemma BaseManagerRaises(q: string, page: int, limit: int, data: Option<seq<Dict>>,
                          getRow: Dict -> Option<StockImage>, code: int, appKey: string, appSecret: string)
    ensures Search(BaseManager, q, page, limit, data, getRow) == Err(NotImplementedError)
    ensures Download(BaseManager, code, appKey, appSecret) == Err(NotImplementedError)
  {
  }
}
