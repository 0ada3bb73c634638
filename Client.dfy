/**
 * The client object: its keys, the test-mode and TLS switches, the latched
 * header-capture flag and the captured response headers, with makeRequest
 * and the resource methods whose request building is modelled.
 *
 * The clock and the network are parameters: each request takes the date
 * string it is signed with and a function `send` from the request handed to
 * cURL to what comes back.
 */
module Client {
  import opened Wrappers
  import opened Text
  import opened Values
  import opened Signature
  import opened Endpoints
  import opened Parameters
  import opened Errors
  import opened Requests
  import opened Headers

  const OrdersAccept := "Accept: application/vnd.orders-v2.1+xml"
  const ShipmentsAccept := "Accept: application/vnd.shipments-v2.1+xml"

  /** `isset($xs[0]) ? $xs[0] : null` on a parsed collection. */
  function FirstOrNone<T>(xs: seq<T>): (r: Option<T>)
    ensures r.None? <==> |xs| == 0
    ensures r.Some? ==> r.value == xs[0] && r.value in xs
  {
    if |xs| == 0 then None else Some(xs[0])
  }

  /** A reductions download: the file's contents and the name the server gave it ("" when none). */
  datatype ReductionList = ReductionList(contents: string, filename: string)

  class Client {
    const publicKey: string
    const privateKey: string
    /** HMAC-SHA256 keyed with its first argument, encoded as base64. */
    const mac: (string, string) -> string

    var testMode: bool
    var skipSslVerification: bool
    var parseHeaders: bool
    var responseHeaders: HeaderMap

    constructor (publicKey: string, privateKey: string, mac: (string, string) -> string)
      ensures this.publicKey == publicKey && this.privateKey == privateKey && this.mac == mac
      ensures !testMode && !skipSslVerification && !parseHeaders && responseHeaders == map[]
    {
      this.publicKey := publicKey;
      this.privateKey := privateKey;
      this.mac := mac;
      testMode := false;
      skipSslVerification := false;
      parseHeaders := false;
      responseHeaders := map[];
    }

    method SetTestMode(mode: bool)
      modifies this`testMode
      ensures testMode == mode
    {
      testMode := mode;
    }

    method SetSkipSslVerification(mode: bool := true)
      modifies this`skipSslVerification
      ensures skipSslVerification == mode
    {
      skipSslVerification := mode;
    }

    /** getSignature: the canonical string is built line by line, then keyed-hashed and prefixed. */
    method GetSignature(httpMethod: string, contentType: string, date: string, endpoint: string)
      returns (signature: string)
      ensures signature == AuthorizationValue(publicKey, mac(privateKey, SignatureBase(httpMethod, contentType, date, endpoint)))
      ensures StartsWith(signature, publicKey + ":")
    {
      var base := httpMethod + "\n\n";
      base := base + contentType + "\n";
      base := base + date + "\n";
      base := base + "x-bol-date:" + date + "\n";
      base := base + endpoint;
      signature := publicKey + ":" + mac(privateKey, base);
      AuthorizationValueParts(publicKey, mac(privateKey, base));
    }

    /**
     * What makeRequest hands to cURL: the URL on the selected host, the
     * caller's headers and the three fixed ones, the signature over the
     * URL's path, the body or query the method and data call for, and the
     * TLS and header-capture switches.
     */
    function RequestFor(httpMethod: string, endpoint: string, data: Data, headers: seq<string>, date: string): (r: HttpRequest)
      reads this`testMode, this`skipSslVerification, this`parseHeaders
      requires Buildable(httpMethod, data)
      ensures r.httpMethod == httpMethod
      ensures r.url == BaseUrl(testMode) + endpoint
      ensures |r.headers| == |headers| + 3 && r.headers[..|headers|] == headers
      ensures r.headers[|headers|] == "Content-type: " + ContentType
      ensures r.headers[|headers| + 1] == "X-BOL-Date: " + date
      ensures r.headers[|headers| + 2]
           == "X-BOL-Authorization: "
            + AuthorizationValue(publicKey, mac(privateKey, SignatureBase(httpMethod, ContentType, date, SignedEndpoint(r.url, endpoint))))
      ensures |endpoint| > 0 && endpoint[0] == '/' ==>
                SignedEndpoint(r.url, endpoint) == ReplaceControlChars(endpoint[..IndexOfAny(endpoint, PathEnd)])
      ensures r.body.Some? <==> SendsBody(httpMethod) && !data.Null?
      ensures r.body.Some? ==> r.body.value == data
      ensures r.query.Some? <==> httpMethod == "GET" && data.Fields? && data.fields != []
      ensures r.query.Some? ==> r.query.value == data.fields
      ensures r.verifyTls == !skipSslVerification
      ensures r.captureHeaders == parseHeaders
    {
      var url := UrlFromEndpoint(testMode, endpoint);
      assert |endpoint| > 0 && endpoint[0] == '/' ==>
               SignedEndpoint(url, endpoint) == ReplaceControlChars(endpoint[..IndexOfAny(endpoint, PathEnd)]) by {
        if |endpoint| > 0 && endpoint[0] == '/' {
          SignedEndpointStripsQuery(testMode, endpoint);
        }
      }
      var authorization := AuthorizationValue(publicKey, mac(privateKey, SignatureBase(httpMethod, ContentType, date, SignedEndpoint(url, endpoint))));
      var hs := RequestHeaders(headers, ContentType, date, authorization);
      assert hs[|headers|..][2] == hs[|headers| + 2];
      HttpRequest(httpMethod, url, Query(httpMethod, data), hs, Body(httpMethod, data), !skipSslVerification, parseHeaders)
    }

    /** The header callback: one line as cURL reports it. */
    method CaptureHeaderLine(line: string)
      modifies this`responseHeaders
      ensures responseHeaders == CaptureLine(old(responseHeaders), line)
    {
      if HasColon(line) {
        var parts := Split(line, ':');
        SplitFirstTwo(line, ':');
        responseHeaders := responseHeaders[parts[0] := parts[1]];
      }
    }

    /** cURL calls the header callback once per header line, in order. */
    method CaptureHeaderLines(lines: seq<string>)
      modifies this`responseHeaders
      ensures responseHeaders == Captured(old(responseHeaders), lines)
    {
      var i := 0;
      while i < |lines|
        invariant 0 <= i <= |lines|
        invariant responseHeaders == Captured(old(responseHeaders), lines[..i])
      {
        CaptureHeaderLine(lines[i]);
        assert lines[..i + 1][..i] == lines[..i];
        i := i + 1;
      }
      assert lines[..i] == lines;
    }

    /**
     * makeRequest: build and send the request, let the header callback see
     * every header line when capture is on, then classify the result. The
     * body is returned as it came; an outcome other than NoError stands for
     * the exception the client throws.
     */
    method MakeRequest(httpMethod: string, endpoint: string, date: string, send: HttpRequest -> TransportResult,
                       data: Data := Null, headers: seq<string> := [])
      returns (outcome: Outcome, body: string, sent: HttpRequest)
      requires Buildable(httpMethod, data)
      modifies this`responseHeaders
      ensures sent == RequestFor(httpMethod, endpoint, data, headers, date)
      ensures outcome == Classify(send(sent).errno, send(sent).status, send(sent).body, send(sent).errorDocument)
      ensures body == send(sent).body
      ensures responseHeaders == if parseHeaders then Captured(old(responseHeaders), send(sent).headerLines)
                                 else old(responseHeaders)
    {
      var url := UrlFromEndpoint(testMode, endpoint);
      var signedEndpoint := SignedEndpoint(url, endpoint);
      var signature := GetSignature(httpMethod, ContentType, date, signedEndpoint);
      var allHeaders := RequestHeaders(headers, ContentType, date, signature);
      sent := HttpRequest(httpMethod, url, Query(httpMethod, data), allHeaders, Body(httpMethod, data),
                          !skipSslVerification, parseHeaders);
      var response := send(sent);
      if parseHeaders {
        CaptureHeaderLines(response.headerLines);
      }
      outcome := Classify(response.errno, response.status, response.body, response.errorDocument);
      body := response.body;
    }

    /** getOrder: a GET without data; the first parsed order, or none. */
    method GetOrder<T>(orderId: string, date: string, send: HttpRequest -> TransportResult, parse: string -> seq<T>)
      returns (outcome: Outcome, order: Option<T>, sent: HttpRequest)
      modifies this`responseHeaders
      ensures sent == RequestFor("GET", "/services/rest/orders/" + ApiVersion + "/" + orderId, Null, [OrdersAccept], date)
      ensures outcome == Classify(send(sent).errno, send(sent).status, send(sent).body, send(sent).errorDocument)
      ensures order == if outcome.NoError? then FirstOrNone(parse(send(sent).body)) else None
      ensures responseHeaders == if parseHeaders then Captured(old(responseHeaders), send(sent).headerLines)
                                 else old(responseHeaders)
    {
      var body;
      outcome, body, sent := MakeRequest("GET", "/services/rest/orders/" + ApiVersion + "/" + orderId, date, send,
                                         headers := [OrdersAccept]);
      order := if outcome.NoError? then FirstOrNone(parse(body)) else None;
    }

    /** getShipments: `page`, `fulfilment-method` and, when given, `order-id`, as the query. */
    method GetShipments(date: string, send: HttpRequest -> TransportResult,
                        page: int := 1, fulfilmentMethod: string := "FBR", orderId: Option<string> := None)
      returns (outcome: Outcome, body: string, sent: HttpRequest)
      modifies this`responseHeaders
      ensures sent == RequestFor("GET", "/services/rest/shipments/" + ApiVersion,
                                 Fields(ShipmentQuery(page, fulfilmentMethod, orderId)), [ShipmentsAccept], date)
      ensures sent.query == Some(ShipmentQuery(page, fulfilmentMethod, orderId))
      ensures outcome == Classify(send(sent).errno, send(sent).status, send(sent).body, send(sent).errorDocument)
      ensures body == send(sent).body
      ensures responseHeaders == if parseHeaders then Captured(old(responseHeaders), send(sent).headerLines)
                                 else old(responseHeaders)
    {
      var params := ShipmentParameters(page, fulfilmentMethod, orderId);
      outcome, body, sent := MakeRequest("GET", "/services/rest/shipments/" + ApiVersion, date, send,
                                         Fields(params), [ShipmentsAccept]);
    }

    /** getCommission: `Condition` and `price` when truthy; with neither, the URL has no query. */
    method GetCommission(ean: string, date: string, send: HttpRequest -> TransportResult,
                         condition: Value := Bool(false), price: Value := Bool(false))
      returns (outcome: Outcome, body: string, sent: HttpRequest)
      modifies this`responseHeaders
      ensures sent == RequestFor("GET", "/commission/" + OfferApiVersion + "/" + ean,
                                 Fields(CommissionQuery(condition, price)), [], date)
      ensures sent.query.None? <==> !Truthy(condition) && !Truthy(price)
      ensures outcome == Classify(send(sent).errno, send(sent).status, send(sent).body, send(sent).errorDocument)
      ensures body == send(sent).body
      ensures responseHeaders == if parseHeaders then Captured(old(responseHeaders), send(sent).headerLines)
                                 else old(responseHeaders)
    {
      var params := CommissionParameters(condition, price);
      outcome, body, sent := MakeRequest("GET", "/commission/" + OfferApiVersion + "/" + ean, date, send,
                                         Fields(params));
    }

    /** getOwnOffers: `filter` only when it is not empty in PHP's sense. */
    method GetOwnOffers(date: string, send: HttpRequest -> TransportResult, filter: string := "")
      returns (outcome: Outcome, body: string, sent: HttpRequest)
      modifies this`responseHeaders
      ensures sent == RequestFor("GET", "/offers/" + OfferApiVersion + "/export", Fields(OwnOffersQuery(filter)), [], date)
      ensures sent.query == if EmptyString(filter) then None else Some([Param("filter", Str(filter))])
      ensures outcome == Classify(send(sent).errno, send(sent).status, send(sent).body, send(sent).errorDocument)
      ensures body == send(sent).body
      ensures responseHeaders == if parseHeaders then Captured(old(responseHeaders), send(sent).headerLines)
                                 else old(responseHeaders)
    {
      var params := OwnOffersParameters(filter);
      outcome, body, sent := MakeRequest("GET", "/offers/" + OfferApiVersion + "/export", date, send,
                                         Fields(params));
    }

    /**
     * getOwnOffersResult: the export URL the API reported, with both base
     * URLs deleted, requested on the host the client is set to.
     */
    method GetOwnOffersResult(date: string, send: HttpRequest -> TransportResult, path: string := "")
      returns (outcome: Outcome, body: string, sent: HttpRequest)
      modifies this`responseHeaders
      ensures sent == RequestFor("GET", StripBaseUrls(path), Null, [], date)
      ensures forall rest :: NoOccurrence(rest, TestUrl) && NoOccurrence(rest, LiveUrl) &&
                             (path == TestUrl + rest || path == LiveUrl + rest) ==>
                               sent.url == BaseUrl(testMode) + rest
      ensures outcome == Classify(send(sent).errno, send(sent).status, send(sent).body, send(sent).errorDocument)
      ensures body == send(sent).body
      ensures responseHeaders == if parseHeaders then Captured(old(responseHeaders), send(sent).headerLines)
                                 else old(responseHeaders)
    {
      var endpoint := StripBaseUrls(path);
      outcome, body, sent := MakeRequest("GET", endpoint, date, send);
      forall rest | NoOccurrence(rest, TestUrl) && NoOccurrence(rest, LiveUrl) &&
                    (path == TestUrl + rest || path == LiveUrl + rest)
        ensures sent.url == BaseUrl(testMode) + rest
      {
        StripBaseUrlsOfUrl(path == TestUrl + rest, rest);
      }
    }

    /** getSingleOffer: the condition goes in the URL but is not signed. */
    method GetSingleOffer(ean: string, date: string, send: HttpRequest -> TransportResult,
                          condition: Value := Bool(false))
      returns (outcome: Outcome, body: string, sent: HttpRequest)
      modifies this`responseHeaders
      ensures sent == RequestFor("GET", SingleOfferEndpoint(ean, condition), Null, [], date)
      ensures '?' !in ean && '#' !in ean ==>
                sent.headers[2] == "X-BOL-Authorization: "
                                 + AuthorizationValue(publicKey, mac(privateKey, SignatureBase("GET", ContentType, date, "/offers/" + OfferApiVersion + "/" + ReplaceControlChars(ean))))
      ensures outcome == Classify(send(sent).errno, send(sent).status, send(sent).body, send(sent).errorDocument)
      ensures body == send(sent).body
      ensures responseHeaders == if parseHeaders then Captured(old(responseHeaders), send(sent).headerLines)
                                 else old(responseHeaders)
    {
      outcome, body, sent := MakeRequest("GET", SingleOfferEndpoint(ean, condition), date, send);
      if '?' !in ean && '#' !in ean {
        SingleOfferSignedPath(testMode, ean, condition);
      }
    }

    /** getInventory: `page` always, the filters as the builder decides. */
    method GetInventory(date: string, send: HttpRequest -> TransportResult, page: int := 1,
                        quantity: Option<Value> := None, stock: Option<string> := None,
                        state: Option<string> := None, query: Option<string> := None)
      returns (outcome: Outcome, body: string, sent: HttpRequest)
      modifies this`responseHeaders
      ensures sent == RequestFor("GET", "/services/rest/inventory",
                                 Fields(InventoryQuery(page, quantity, stock, state, query)), [], date)
      ensures sent.query == Some(InventoryQuery(page, quantity, stock, state, query))
      ensures outcome == Classify(send(sent).errno, send(sent).status, send(sent).body, send(sent).errorDocument)
      ensures body == send(sent).body
      ensures responseHeaders == if parseHeaders then Captured(old(responseHeaders), send(sent).headerLines)
                                 else old(responseHeaders)
    {
      var params := InventoryParameters(page, quantity, stock, state, query);
      outcome, body, sent := MakeRequest("GET", "/services/rest/inventory", date, send, Fields(params));
    }

    /**
     * getReductions: switch header capture on for good, request the list and
     * name it after the `Content-Disposition` header now captured.
     */
    method GetReductions(date: string, send: HttpRequest -> TransportResult)
      returns (outcome: Outcome, list: Option<ReductionList>, sent: HttpRequest)
      modifies this`parseHeaders, this`responseHeaders
      ensures parseHeaders
      ensures sent.captureHeaders
      ensures sent == RequestFor("GET", "/reductions", Null, [], date)
      ensures outcome == Classify(send(sent).errno, send(sent).status, send(sent).body, send(sent).errorDocument)
      ensures responseHeaders == Captured(old(responseHeaders), send(sent).headerLines)
      ensures list == if outcome.NoError? then Some(ReductionList(send(sent).body, ReductionFilename(responseHeaders)))
                      else None
    {
      parseHeaders := true;
      var body;
      outcome, body, sent := MakeRequest("GET", "/reductions", date, send);
      list := if outcome.NoError? then Some(ReductionList(body, ReductionFilename(responseHeaders))) else None;
    }
  }
}
