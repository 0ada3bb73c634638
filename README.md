# bol.com Plaza API client: request building and error classification

A Dafny model of the core of `BolPlazaClient`, the PHP client for the bol.com
Plaza (marketplace) API. The model covers what the client decides before and
after a request goes over the wire:

- **Signature** — the canonical string that is signed (method, an empty line,
  content type, date, an `x-bol-date:` line, path) and the
  `X-BOL-Authorization` value `publicKey:digest`. HMAC-SHA256 (RFC 2104 over
  FIPS 180-4) followed by base64 (RFC 4648, section 4) is the client's `mac`
  parameter, so only the canonical string and the header shape are proved.
- **Endpoints** — choice of the live or test base URL, the path that PHP's
  `parse_url` finds in the URL (that path, without any `?query` and with its
  control characters replaced by `_`, is what gets signed), the single-offer endpoint with its `?condition=`, and the
  stripping of both base URLs from an export path.
- **Parameters** — PHP's ordered arrays as sequences of key/value pairs with
  `$params[key] = value` semantics, and the builders of `getShipments`,
  `getCommission`, `getOwnOffers` and `getInventory`. Each builder is a
  method that grows the array step by step. It is proved equal to a
  specification function, and lemmas state which keys appear, in which
  order, and with which values.
- **Requests** — the header list (the caller's headers, then `Content-type`,
  `X-BOL-Date`, `X-BOL-Authorization`) and the choice between a body (POST,
  PUT, DELETE with data that is not null) and a query string (GET with
  non-empty data).
- **Errors** — `checkForErrors` as a function to an outcome: `NoError`,
  `Transport(errno)`, `RateLimit` or `Api(message, code)`. The rules are:
  - A transport error comes first.
  - Any status in 200..226 is success.
  - 409 is the rate limit.
  - Otherwise a non-empty body is searched for a `ServiceError`, then a
    `ValidationError`, then `ErrorCode`, then `errorCode`.

  The nested checks are proved equal to a flat first-match rule table. An
  error code is read with PHP's `(int)` conversion of a string, and that
  conversion is proved to read back every integer PHP prints.
- **Headers** — once capture is on, the header callback stores every
  response line that holds a colon. The key is the text before the first
  colon. The value is the second piece of `explode(":", line)`, so it stops
  at the next colon and keeps its leading space and line end. The reductions
  filename is the first `\w+\.\w+` match in `Content-Disposition`, modelled
  as a leftmost-longest match and proved to be that.
- **Client** — a class holding the keys, `testMode`, `skipSslVerification`,
  the `parseHeaders` flag and the `responseHeaders` map.
  - `MakeRequest` builds the request, runs the header callback over every
    header line when capture is on, and classifies the result.
  - `GetReductions` latches `parseHeaders`: no method resets it, so every
    later request on the same client captures headers too.
  - A header captured earlier stays in the map when a later response does not
    send it (`Headers.CapturedUntouched`).
  - Header names are compared exactly, so `content-disposition` in lower case
    is a different key from `Content-Disposition`.

The clock and the network are parameters. Each request takes the date string
it is signed with, and a function `send` from the request handed to cURL to
the transport result. The result holds the cURL error number, the status, the
body, the header lines and the body's parsed error document.

## Model

| member | source | states |
|---|---|---|
| `Signature.SignatureBaseLines` | src/BolPlazaClient.php:654-658 | the canonical string splits at newlines into exactly the method, "", the content type, the date, `x-bol-date:` + date and the path |
| `Signature.SignatureBaseInjective` | src/BolPlazaClient.php:654-658 | for parts without newlines, equal canonical strings mean equal method, content type, date and path |
| `Signature.SignatureBaseJoin` | src/BolPlazaClient.php:654-658 | the five `.=` steps build exactly the six lines joined with newlines |
| `Signature.AuthorizationValueParts` | src/BolPlazaClient.php:660 | the header value starts with the public key and ':'; for a key without ':' and a base64 digest it splits into exactly key and digest |
| `Client.Client.GetSignature` | src/BolPlazaClient.php:652-663 | the step-by-step `.=` accumulation yields `publicKey:` followed by the mac of the canonical string with the private key |
| `Endpoints.UrlFromEndpoint` | src/BolPlazaClient.php:634-641 | the URL starts with the base URL of the selected mode and ends with the endpoint, with nothing in between |
| `Endpoints.HostHasNoDelimiter` | src/BolPlazaClient.php:31-32 | each base URL is the scheme followed by a host that holds no '/', '?' or '#' |
| `Endpoints.ReplaceControlChars` | src/BolPlazaClient.php:579-580 | `parse_url` keeps the length of a component and replaces each control character (codes 0-31 and 127) by '_', leaving every other character |
| `Endpoints.ReplaceControlCharsNone` | src/BolPlazaClient.php:579-580 | a component without control characters is reported unchanged |
| `Endpoints.ReplaceControlCharsAppend` | src/BolPlazaClient.php:579-580 | the replacement of a concatenation is the concatenation of the replacements |
| `Endpoints.UrlPathAfterHost` | src/BolPlazaClient.php:579-580 | the path `parse_url` reports for a URL on either host depends only on the endpoint: from its first '/', '?' or '#' to its first '?' or '#', with control characters as '_' |
| `Endpoints.SignedEndpointStripsQuery` | src/BolPlazaClient.php:579-582 | for an endpoint starting with '/', the signed path is the endpoint up to its first '?' or '#', with control characters as '_' |
| `Endpoints.SignedPathOfQueryEndpoint` | src/BolPlazaClient.php:579-582 | a path followed by a `?query` is signed as the path alone, with control characters as '_' |
| `Endpoints.SignedEndpointWithoutPath` | src/BolPlazaClient.php:580 | when the URL has no path (the endpoint is empty or starts with '?'), the endpoint as given is signed |
| `Endpoints.SingleOfferSignedPath` | src/BolPlazaClient.php:308-314 | the single-offer request is signed over `/offers/v2/{ean}` whatever the condition, with control characters in the EAN as '_' |
| `Endpoints.OfferPathReplaced` | src/BolPlazaClient.php:310-312 | the fixed `/offers/v2/` prefix survives the control-character replacement, so only the EAN can change |
| `Endpoints.TestUrlNotInLive` | src/BolPlazaClient.php:31-32 | the test base URL cannot start inside the live base URL |
| `Endpoints.StripBaseUrlsOfUrl` | src/BolPlazaClient.php:368-369 | an export URL on either host comes back as its remainder once both base URLs are deleted |
| `Endpoints.StripBaseUrlsOfPath` | src/BolPlazaClient.php:368-369 | a path mentioning neither base URL is left unchanged |
| `Text.IndexOfAny` | src/BolPlazaClient.php:579-580 | the first index holding one of the given characters, or the length when there is none |
| `Text.Split` | src/BolPlazaClient.php:611 | `explode` gives at least one piece, and no piece holds the separator |
| `Text.JoinSplit` | src/BolPlazaClient.php:611 | joining the pieces of `explode` with the separator gives back the string |
| `Text.SplitJoin` | src/BolPlazaClient.php:611 | splitting a join of separator-free pieces gives back the pieces |
| `Text.SplitFirstTwo` | src/BolPlazaClient.php:610-611 | a line holding ':' has at least two pieces: up to the first ':' and from there to the next ':' |
| `Text.RemoveAll` | src/BolPlazaClient.php:368-369 | `str_replace` with an empty replacement never lengthens the string |
| `Text.RemoveAllAbsent` | src/BolPlazaClient.php:368-369 | a string without the pattern is left as it is |
| `Text.RemoveAllKeepsPrefix` | src/BolPlazaClient.php:368-369 | a prefix in which the pattern does not start is kept, and only the rest is searched |
| `Text.WordEnd` | src/BolPlazaClient.php:403 | the end of the longest run of `\w` characters from a position |
| `Text.WordEndAt` | src/BolPlazaClient.php:403 | a run of word characters followed by a non-word character ends exactly there |
| `Text.MatchAtSound` | src/BolPlazaClient.php:403 | a match found at a position is a file name (`\w+\.\w+`) that cannot be extended to the right |
| `Text.MatchAtComplete` | src/BolPlazaClient.php:403 | every position where some file name starts yields a match |
| `Text.FirstMatchFrom` | src/BolPlazaClient.php:403 | the leftmost position with a match, and no match before it |
| `Text.FirstFileNameEmptyIff` | src/BolPlazaClient.php:403-404 | nothing is found exactly when no substring is a file name |
| `Text.FirstFileNameIsLeftmostLongest` | src/BolPlazaClient.php:403-404 | the result is a file name occurring in the string, not extendable to the right, with no file name starting further left |
| `Text.FirstFileNameAt` | src/BolPlazaClient.php:403-404 | the position where the match starts, with the match occurring there, not extendable, and no file name starting before it |
| `Values.StringToIntOfPhpString` | src/BolPlazaClient.php:692 | `(int)` of the string PHP prints for an integer is that integer |
| `Values.DigitsRead` | src/BolPlazaClient.php:692 | a digit string reads as its decimal value |
| `Values.NegativeDigitsRead` | src/BolPlazaClient.php:692 | a minus sign and digits read as the negated value |
| `Values.NatToStringDigits` | src/BolPlazaClient.php:312 | the decimal form of a natural number is a non-empty digit string whose value is that number |
| `Values.SkipSpace` | src/BolPlazaClient.php:692 | exactly the leading white space is skipped: every skipped character is white space, and what remains is a suffix that starts with none |
| `Values.DigitRun` | src/BolPlazaClient.php:692 | the longest run of digits at the start of a string |
| `Parameters.Keys` | src/BolPlazaClient.php:123-130 | one key per entry, in order |
| `Parameters.LookupFindsFirst` | src/BolPlazaClient.php:123-130 | a key is found exactly when it is among the keys, and then with the value of its first entry |
| `Parameters.Put` | src/BolPlazaClient.php:128-129 | `$params[key] = v` makes key map to v and leaves every other key; an existing key keeps its place, a new one goes last |
| `Parameters.KeysAppend` | src/BolPlazaClient.php:430-443 | the keys of a concatenation are the keys of the parts |
| `Parameters.LookupAppend` | src/BolPlazaClient.php:430-443 | a lookup in a concatenation finds the key in the first part that holds it |
| `Parameters.PutNew` | src/BolPlazaClient.php:430-443 | setting a key that is not yet set appends it |
| `Parameters.EntryKeysLookup` | src/BolPlazaClient.php:430-443 | an optional entry has its key exactly when present, with its value |
| `Parameters.SetWhen` | src/BolPlazaClient.php:431-442 | one `if (...) $params[key] = v;` step adds that entry at the end exactly when its condition holds |
| `Parameters.ShipmentParameters` | src/BolPlazaClient.php:123-130 | the getShipments builder yields its specification |
| `Parameters.ShipmentQueryContents` | src/BolPlazaClient.php:123-130 | `page` and `fulfilment-method` always, in that order, then `order-id` exactly when given, each with its value |
| `Parameters.CommissionParameters` | src/BolPlazaClient.php:330-336 | the getCommission builder yields its specification |
| `Parameters.CommissionQueryContents` | src/BolPlazaClient.php:330-336 | `Condition` and then `price`, each exactly when truthy, with the value given |
| `Parameters.OwnOffersParameters` | src/BolPlazaClient.php:350-354 | the getOwnOffers builder yields its specification |
| `Parameters.OwnOffersQueryContents` | src/BolPlazaClient.php:350-354 | no parameter for a filter that is "" or "0", otherwise exactly `filter` |
| `Parameters.InventoryParameters` | src/BolPlazaClient.php:430-443 | the getInventory builder yields its specification |
| `Parameters.KeysAfterEntries` | src/BolPlazaClient.php:430-443 | the keys of `page` followed by four optional entries |
| `Parameters.LookupAfterEntries` | src/BolPlazaClient.php:430-443 | a lookup after four optional entries finds the first part that holds the key |
| `Parameters.InventoryQueryKeys` | src/BolPlazaClient.php:430-443 | `page` first, then `quantity`, `stock`, `state`, `query` in that order, each exactly when non-null (`stock` and `state` only when whitelisted), and no other key |
| `Parameters.InventoryQueryValues` | src/BolPlazaClient.php:430-443 | `page` holds the integer page, and each optional key holds the value given when it is sent |
| `Requests.RequestHeaders` | src/BolPlazaClient.php:584-588 | the caller's headers in their order, followed by exactly the content type, date and authorization lines |
| `Requests.Body` | src/BolPlazaClient.php:598-599 | a body is sent exactly for POST, PUT and DELETE with data that is not null, and it is the data |
| `Requests.Query` | src/BolPlazaClient.php:600-601 | a query string is sent exactly for GET with a non-empty field array, and it holds those fields |
| `Requests.BodyOrQuery` | src/BolPlazaClient.php:598-602 | data never goes both in the body and in the query, and null data goes nowhere |
| `Errors.BodyError` | src/BolPlazaClient.php:686-709 | no error exactly when none of the four forms reports one; otherwise the first form, in the order ServiceError, ValidationError, ErrorCode, errorCode, that reports one; a flat code reports only when present with text other than "" and "0" |
| `Errors.Classify` | src/BolPlazaClient.php:676-712 | Transport exactly when the error number is non-zero, carrying it; RateLimit exactly for 409 without transport error; Api exactly for a failing status other than 409 with a body that is not empty and reports an error; success for every status in 200..226 |
| `Errors.FirstApplicableSkips` | src/BolPlazaClient.php:676-712 | rules that do not apply can be skipped in the first-match table |
| `Errors.ClassifyFollowsTable` | src/BolPlazaClient.php:676-712 | the nested checks give the same outcome as the flat first-match rule table on every input |
| `Errors.RuleTableSearched` | src/BolPlazaClient.php:685-709 | once a failing non-409 status has a non-empty body, the transport and rate-limit rules do not apply, the remaining four rules are the four error forms in order, and the outcome is the body's error or success |
| `Errors.ServiceErrorWins` | src/BolPlazaClient.php:688-694 | a service error decides the outcome whatever the other forms hold |
| `Errors.ClassifyExamples` | src/BolPlazaClient.php:678-711 | 200 is success, a transport error wins over the status, 409 is the rate limit, a body "0" counts as empty, an `ErrorCode` that is empty or "0" and an `errorCode` of "0" are ignored |
| `Errors.ServiceErrorExample` | src/BolPlazaClient.php:688-694 | a 500 response whose service error carries any message and a printed integer code yields exactly that message and code |
| `Errors.ValidationErrorExample` | src/BolPlazaClient.php:696-702 | a service group without an entry falls through to the validation error, whose message and printed integer code are reported |
| `Headers.HeaderKey` | src/BolPlazaClient.php:611-612 | the key of a captured line is the text before its first colon |
| `Headers.HeaderValue` | src/BolPlazaClient.php:611-612 | the value is the text after the first colon up to the next colon or the end, and holds no colon |
| `Headers.CaptureLine` | src/BolPlazaClient.php:610-613 | a line with a colon sets its key to its value and keeps every other header; any other line changes nothing |
| `Headers.CaptureOfLine` | src/BolPlazaClient.php:610-613 | `name:value` is captured under the name; the value is cut at any further colon |
| `Headers.StatusLineIgnored` | src/BolPlazaClient.php:610 | the status line holds no colon and is not captured |
| `Headers.CapturedKeys` | src/BolPlazaClient.php:608-616 | after a response the keys are the earlier keys plus the key of every line with a colon |
| `Headers.CapturedLastWins` | src/BolPlazaClient.php:612 | a header sent several times keeps the value of its last line |
| `Headers.CapturedUntouched` | src/BolPlazaClient.php:608-616 | a header no line sets keeps its earlier presence and value |
| `Headers.ReductionFilename` | src/BolPlazaClient.php:401-407 | the filename is "" or a file name; "" when `Content-Disposition` was not captured, and otherwise the first `\w+\.\w+` match of its value (leftmost-longest by `Text.FirstFileNameIsLeftmostLongest`, "" exactly when there is none by `Text.FirstFileNameEmptyIff`) |
| `Client.FirstOrNone` | src/BolPlazaClient.php:111 | none exactly for an empty collection, otherwise its first element |
| `Client.Client.constructor` | src/BolPlazaClient.php:55-59 | keys stored; test mode, TLS skipping and header capture off; no headers captured |
| `Client.Client.SetTestMode` | src/BolPlazaClient.php:65-68 | sets the test mode and nothing else |
| `Client.Client.SetSkipSslVerification` | src/BolPlazaClient.php:74-77 | sets TLS skipping to the given mode, true by default, and nothing else |
| `Client.Client.RequestFor` | src/BolPlazaClient.php:574-607 | the URL on the selected host; caller headers and the three fixed ones; the signature over the URL's path, which for an absolute endpoint is the endpoint without its query and with control characters as '_'; a body exactly as the method and data call for, and then the data itself; a query exactly for GET with non-empty fields, and then those fields; TLS verification unless skipped; capture as flagged |
| `Client.Client.CaptureHeaderLine` | src/BolPlazaClient.php:609-615 | the callback updates the captured map as `CaptureLine` says |
| `Client.Client.CaptureHeaderLines` | src/BolPlazaClient.php:608-616 | after cURL has called the callback on every header line in order, the map is `Captured` of the old map and those lines |
| `Client.Client.MakeRequest` | src/BolPlazaClient.php:572-625 | the request sent is `RequestFor`'s; the outcome classifies what came back; the headers are captured over all header lines exactly when capture is on |
| `Client.Client.GetOrder` | src/BolPlazaClient.php:102-112 | GET of the order's URL with the orders Accept header; the first parsed order on success, none otherwise |
| `Client.Client.GetShipments` | src/BolPlazaClient.php:121-136 | GET with the shipments Accept header and the built parameters as the query; page 1, method FBR and no order id by default |
| `Client.Client.GetCommission` | src/BolPlazaClient.php:327-341 | GET with the built parameters; no query string when neither condition nor price is truthy; both default to false |
| `Client.Client.GetOwnOffers` | src/BolPlazaClient.php:348-359 | GET of the export endpoint, with `filter` as the only query field unless the filter is empty; the filter defaults to "" |
| `Client.Client.GetOwnOffersResult` | src/BolPlazaClient.php:366-372 | a reported export URL on either host is requested on the client's own host with the same remainder; the path defaults to "" |
| `Client.Client.GetSingleOffer` | src/BolPlazaClient.php:308-319 | the condition is part of the URL but not of the signed path; the condition defaults to false |
| `Client.Client.GetInventory` | src/BolPlazaClient.php:427-448 | GET of the inventory endpoint with the built parameters, never without a query; page 1 and no filters by default |
| `Client.Client.GetReductions` | src/BolPlazaClient.php:396-409 | capture is switched on and stays on; the headers of this response are captured; on success the list carries the body and the filename read from the captured headers |

## Left out

- CurlHttpRequest and cURL itself: the transport is the `send` parameter. The timeout, the user agent and `CURLOPT_HEADER` are fixed options without logic and are not modelled. TLS skipping is kept as a flag on the request.
- HMAC-SHA256 and base64: they are the client's `mac` parameter, with no body.
- `gmdate`: the date string is a parameter of every request.
- `http_build_query`: its percent-encoding is not modelled. The request keeps the ordered query fields separately from the URL.
- The SimpleXML parse of an error body (`parseXmlResponse`) is an `ErrorDocument` supplied with the transport result. A body that fails to parse is not modelled. An `ErrorCode` or `errorCode` element with child elements, which SimpleXML's `empty()` treats as non-empty whatever its text, is not modelled: a flat code is taken to be text only.
- Values.StringToInt: does not model PHP's clamping of out-of-range numbers to the 64-bit integer range, nor the exponent and leading-decimal forms PHP 8 accepts in numeric strings.
- Floats: the untyped parameters (`condition`, `price`, `quantity`) are booleans, integers or strings.
- PHP's loose comparison: only the string/integer cases the client meets are modelled. The status is compared as an integer. `in_array` on methods compares strings.
- Client.Client.MakeRequest: its `$method = 'GET'` default is not modelled, because a required `$endpoint` follows it and PHP can never use it; the defaults of `$data` and `$headers` are kept. The method also requires that a GET never carries non-empty text data, because `http_build_query` only accepts an array and PHP 8 throws a TypeError for a string. No caller in the client sends text with GET.
- `parse_url` is modelled for `https://host` URLs whose endpoint has no user info or port. Both base URLs are of this form. An endpoint that adds `@` or `:port` text right after the host is not covered. The control-character replacement `parse_url` applies to the path is modelled.
- The `(int)` cast of the inventory page is taken as already done. The page is an integer.
- BolPlazaDataParser's `createEntityFromResponse` and `createCollectionFromResponse`, and the entity classes: they are not part of this model. The facade methods return the body and the outcome. `GetOrder` takes the collection parser as a parameter.
- The other facade methods (getOrders, getReturnItems, getPayments, handleReturnItem, cancelOrderItem, changeTransport, processShipment, getProcessStatus, the offer upsert and delete methods, getLatestReductionsFilename and the inbound methods): each one only fixes an endpoint and hands fixed data to `makeRequest`, which is modelled.
- Header capture during a request that fails part-way: the model feeds the callback every header line of the transport result.
