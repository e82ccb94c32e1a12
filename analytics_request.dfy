/**
 * `AnalyticsRequest`: a GET request to the legacy analytics host whose URL
 * carries the parameters as a query string. The query-string encoder
 * (`QueryStringFactory`) is not part of this model and is a parameter.
 */
module Networking {
  import opened Wrappers
  import opened Strings

  const Host := "https://q.stripe.com"

  /** HTTP 429 Too Many Requests (section 4 of RFC 6585). */
  const HttpTooManyRequests := 429

  datatype Method = Get | Post | Delete

  datatype MimeType = Form | MultipartForm | Json

  /** The parameters, whose values may be null, as a map. */
  type Params = map<string, Option<string>>

  datatype AnalyticsRequest = AnalyticsRequest(params: Params, headers: map<string, string>)

  /** The query string of the request: the encoder applied to the parameters alone. */
  function Query(r: AnalyticsRequest, queryString: Params -> string): string
  {
    queryString(r.params)
  }

  function RequestMethod(r: AnalyticsRequest): Method
  {
    Get
  }

  function RequestMimeType(r: AnalyticsRequest): MimeType
  {
    Form
  }

  /** The integers of the closed range `lo..hi`, in increasing order. */
  function IntRange(lo: int, hi: int): (r: seq<int>)
    ensures |r| == if lo <= hi then hi - lo + 1 else 0
    ensures forall k :: 0 <= k < |r| ==> r[k] == lo + k
    decreases hi - lo
  {
    if lo > hi then [] else [lo] + IntRange(lo + 1, hi)
  }

  /** `HTTP_TOO_MANY_REQUESTS..HTTP_TOO_MANY_REQUESTS`. */
  function RetryResponseCodes(r: AnalyticsRequest): (codes: seq<int>)
    ensures forall c :: c in codes <==> c == HttpTooManyRequests
  {
    IntRange(HttpTooManyRequests, HttpTooManyRequests)
  }

  /** `listOfNotNull`: the present values, in order. */
  function ListOfNotNull(xs: seq<Option<string>>): (r: seq<string>)
    ensures |r| <= |xs|
    ensures forall s :: s in r <==> Some(s) in xs
  {
    if xs == [] then []
    else (match xs[0] case Some(s) => [s] case None => []) + ListOfNotNull(xs[1..])
  }

  /** `listOfNotNull(HOST, query.takeIf { it.isNotEmpty() }).joinToString("?")`. */
  function Url(r: AnalyticsRequest, queryString: Params -> string): (url: string)
    ensures Host <= url
    ensures Query(r, queryString) == "" ==> url == Host
    ensures Query(r, queryString) != "" ==> url == Host + "?" + Query(r, queryString)
  {
    var q := Query(r, queryString);
    var tail: Option<string> := if q != "" then Some(q) else None;
    var parts := ListOfNotNull([Some(Host), tail]);
    assert parts == [Host] + ListOfNotNull([tail]) by {
      assert [Some(Host), tail][1..] == [tail];
    }
    assert ListOfNotNull([tail]) == (if q != "" then [q] else []) by {
      assert [tail][1..] == [];
    }
    assert q != "" ==> parts == [Host, q] && Join(parts, '?') == Host + "?" + Join([q], '?');
    assert q == "" ==> parts == [Host];
    Join(parts, '?')
  }

  /** Exactly one code is retried, 429. */
  lemma OnlyTooManyRequestsIsRetried(r: AnalyticsRequest)
    ensures RetryResponseCodes(r) == [429]
    ensures forall c :: c in RetryResponseCodes(r) <==> c == HttpTooManyRequests
  {
  }

  /**
   * When the query holds no `?`, the URL splits at its one `?` into the host
   * and the query: the separator is inserted once and the query is kept
   * intact.
   */
  lemma UrlSplitsIntoHostAndQuery(r: AnalyticsRequest, queryString: Params -> string)
    requires Query(r, queryString) != ""
    requires '?' !in Query(r, queryString)
    ensures Split(Url(r, queryString), '?') == [Host, Query(r, queryString)]
  {
    var parts := [Host, Query(r, queryString)];
    assert Join(parts, '?') == Url(r, queryString) by {
      assert parts[1..] == [Query(r, queryString)];
    }
    SplitJoin(parts, '?');
  }

  /** The URL, method and MIME type depend on the parameters alone, never on the headers. */
  lemma RequestDependsOnParamsOnly(r1: AnalyticsRequest, r2: AnalyticsRequest, queryString: Params -> string)
    requires r1.params == r2.params
    ensures Url(r1, queryString) == Url(r2, queryString)
    ensures RequestMethod(r1) == RequestMethod(r2) == Get
    ensures RequestMimeType(r1) == RequestMimeType(r2) == Form
  {
  }
}
