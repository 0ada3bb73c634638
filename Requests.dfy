/**
 * The parts of a request that makeRequest decides before it hands the
 * request to cURL: the header list, whether the data goes in the body or in
 * the query string, and the record of everything that is sent.
 */
module Requests {
  import opened Wrappers
  import opened Values
  import opened Parameters
  import opened Errors

  /** The `$data` argument: nothing, an XML document as text, or an array of query fields. */
  datatype Data = Null | Text(text: string) | Fields(fields: Params)

  const ContentType := "application/xml"

  /** PHP `empty($data)`: null, "" or "0", or an array without entries. */
  predicate IsEmptyData(d: Data)
  {
    match d
    case Null => true
    case Text(t) => EmptyString(t)
    case Fields(fs) => fs == []
  }

  /** The methods whose data is sent as the request body. */
  predicate SendsBody(httpMethod: string)
  {
    httpMethod in ["POST", "PUT", "DELETE"]
  }

  /**
   * A request makeRequest can build: `http_build_query` only takes an array,
   * so non-empty text data never goes with GET.
   */
  predicate Buildable(httpMethod: string, data: Data)
  {
    !(httpMethod == "GET" && data.Text? && !IsEmptyData(data))
  }

  /** The header lines: the caller's, in order, then content type, date and authorization. */
  function RequestHeaders(caller: seq<string>, contentType: string, date: string, authorization: string): (hs: seq<string>)
    ensures |hs| == |caller| + 3
    ensures hs[..|caller|] == caller
    ensures hs[|caller|..] == ["Content-type: " + contentType, "X-BOL-Date: " + date,
                               "X-BOL-Authorization: " + authorization]
  {
    caller + ["Content-type: " + contentType, "X-BOL-Date: " + date, "X-BOL-Authorization: " + authorization]
  }

  /** The request body: the data, for POST, PUT and DELETE with data that is not null. */
  function Body(httpMethod: string, data: Data): (b: Option<Data>)
    ensures b.Some? <==> SendsBody(httpMethod) && !data.Null?
    ensures b.Some? ==> b.value == data
  {
    if SendsBody(httpMethod) && data != Null then Some(data) else None
  }

  /** The query fields appended to the URL: a GET's non-empty field array. */
  function Query(httpMethod: string, data: Data): (q: Option<Params>)
    requires Buildable(httpMethod, data)
    ensures q.Some? <==> httpMethod == "GET" && data.Fields? && data.fields != []
    ensures q.Some? ==> q.value == data.fields
  {
    if SendsBody(httpMethod) && data != Null then None
    else if httpMethod == "GET" && !IsEmptyData(data) then Some(data.fields)
    else None
  }

  /** Data never goes both in the body and in the query string, and only non-empty data goes anywhere. */
  lemma BodyOrQuery(httpMethod: string, data: Data)
    requires Buildable(httpMethod, data)
    ensures Body(httpMethod, data).None? || Query(httpMethod, data).None?
    ensures Query(httpMethod, data).Some? ==> !IsEmptyData(data)
    ensures data.Null? ==> Body(httpMethod, data).None? && Query(httpMethod, data).None?
  {
  }

  /** Everything the client hands to cURL. The URL is the one without the query string. */
  datatype HttpRequest = HttpRequest(
    httpMethod: string,
    url: string,
    query: Option<Params>,
    headers: seq<string>,
    body: Option<Data>,
    verifyTls: bool,
    captureHeaders: bool)

  /**
   * What comes back: the cURL error number, the HTTP status, the body, the
   * header lines in the order the callback sees them, and the body parsed
   * as an error document.
   */
  datatype TransportResult = TransportResult(
    errno: int,
    status: int,
    body: string,
    headerLines: seq<string>,
    errorDocument: ErrorDocument)
}
