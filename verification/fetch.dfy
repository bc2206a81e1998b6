/**
 * `fetch_tian_news`: one POST to the news provider for a category, and the
 * check of the decoded reply that decides between the provider's news list
 * and the empty list. The HTTP exchange itself is not modelled: its result is
 * given as a `Response`.
 */
module Fetch {
  import opened Optional
  import opened Text
  import opened Json

  /** How many items each request asks for (`num=50`). */
  const PageSize: nat := 50

  /** The form-encoded POST the job sends: endpoint, API key and page size. */
  datatype Request = Request(url: string, key: string, num: nat)

  /** The provider's address, before the category. */
  const ApiBase: string := "https://apis.tianapi.com/"

  /** The path after the category. */
  const IndexPath: string := "/index"

  /**
   * The request for one news category: the category's index endpoint, the
   * API key and the page size. The category can be read back from the URL.
   */
  function NewsRequest(category: string, key: string): (r: Request)
    ensures r.key == key && r.num == PageSize
    ensures StartsWith(r.url, ApiBase) && EndsWith(r.url, IndexPath)
    ensures |r.url| == |ApiBase| + |category| + |IndexPath|
    ensures r.url[|ApiBase|..|r.url| - |IndexPath|] == category
  {
    var url := ApiBase + category + IndexPath;
    assert url[..|ApiBase|] == ApiBase;
    assert url[|url| - |IndexPath|..] == IndexPath;
    assert url[|ApiBase|..|url| - |IndexPath|] == category;
    Request(url, key, PageSize)
  }

  /**
   * What came back: `Failed` when the POST or `resp.json()` raised (network
   * error, timeout, a body that is not JSON), otherwise the decoded body.
   */
  datatype Response = Failed | Decoded(data: Json)

  /**
   * The reply the job accepts: a dict whose `code` equals 200, whose `result`
   * is a dict holding `newslist`, and whose news list has a length.
   */
  predicate Accepted(resp: Response) {
    && resp.Decoded?
    && resp.data.Obj?
    && "code" in resp.data.fields
    && resp.data.fields["code"] == Num(200.0)
    && "result" in resp.data.fields
    && resp.data.fields["result"].Obj?
    && "newslist" in resp.data.fields["result"].fields
    && Len(resp.data.fields["result"].fields["newslist"]).Value?
  }

  /**
   * The body of `fetch_tian_news` after the POST, step by step as Python
   * evaluates it: `data.get("code") == 200`, then the truth of
   * `data.get("result")`, then `"newslist" in data["result"]`, then
   * `data["result"]["newslist"]` and the `len` of it in the log line. Any
   * exception on the way, and any failed test, gives `[]`.
   *
   * Whatever the reply, the result is the reply's news list when the reply is
   * accepted and the empty list otherwise.
   */
  function FetchNews(resp: Response): (list: Json)
    ensures Accepted(resp) ==> list == resp.data.fields["result"].fields["newslist"]
    ensures !Accepted(resp) ==> list == Arr([])
  {
    match resp
    case Failed => Arr([])
    case Decoded(data) =>
      match Get(data, "code")
      case Raised => Arr([])
      case Value(code) =>
        if code != Some(Num(200.0)) then Arr([])
        else
          match Get(data, "result")
          case Raised => Arr([])
          case Value(result) =>
            if result.None? || !Truthy(result.value) then Arr([])
            else
              match Index(data, "result")
              case Raised => Arr([])
              case Value(r) =>
                match In("newslist", r)
                case Raised => Arr([])
                case Value(found) =>
                  if !found then Arr([])
                  else
                    match Index(r, "newslist")
                    case Raised => Arr([])
                    case Value(list) =>
                      match Len(list)
                      case Raised => Arr([])
                      case Value(_) => list
  }
}
