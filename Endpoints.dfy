/**
 * Endpoint handling of the client: base-URL selection by test mode
 * (getUrlFromEndpoint), the path that is signed (the `path` component that
 * `parse_url` finds, falling back to the endpoint), the single-offer endpoint
 * with its optional query, and the stripping of either base URL from an
 * export path (getOwnOffersResult).
 */
module Endpoints {
  import opened Wrappers
  import opened Text
  import opened Values

  const Scheme := "https://"
  const LiveHost := "plazaapi.bol.com"
  const TestHost := "test-plazaapi.bol.com"
  const LiveUrl := Scheme + LiveHost
  const TestUrl := Scheme + TestHost
  const ApiVersion := "v2"
  const OfferApiVersion := "v2"

  function Host(testMode: bool): string
  {
    if testMode then TestHost else LiveHost
  }

  /** The base URL the client talks to. */
  function BaseUrl(testMode: bool): string
  {
    if testMode then TestUrl else LiveUrl
  }

  /** The absolute URL of an endpoint: the selected base URL followed by the endpoint. */
  function UrlFromEndpoint(testMode: bool, endpoint: string): (url: string)
    ensures StartsWith(url, BaseUrl(testMode))
    ensures |url| == |BaseUrl(testMode)| + |endpoint|
    ensures url[|url| - |endpoint|..] == endpoint
  {
    BaseUrl(testMode) + endpoint
  }

  /** The characters that end the authority part of a URL. */
  const AuthorityEnd := {'/', '?', '#'}
  /** The characters that end the path part of a URL. */
  const PathEnd := {'?', '#'}

  /** A control character in the C locale's sense: code 0 to 31, or 127. */
  predicate IsControl(c: char)
  {
    c as int < 32 || c as int == 127
  }

  /** `parse_url` replaces every control character of a component it reports with '_'. */
  function ReplaceControlChars(s: string): (r: string)
    ensures |r| == |s|
    ensures forall k {:trigger r[k]} :: 0 <= k < |s| ==> r[k] == if IsControl(s[k]) then '_' else s[k]
  {
    seq(|s|, k requires 0 <= k < |s| => if IsControl(s[k]) then '_' else s[k])
  }

  /** A string without control characters is reported as it is. */
  lemma ReplaceControlCharsNone(s: string)
    requires forall k :: 0 <= k < |s| ==> !IsControl(s[k])
    ensures ReplaceControlChars(s) == s
  {
  }

  /** The replacement works character by character, so it can be done piece by piece. */
  lemma ReplaceControlCharsAppend(a: string, b: string)
    ensures ReplaceControlChars(a + b) == ReplaceControlChars(a) + ReplaceControlChars(b)
  {
    var l := ReplaceControlChars(a + b);
    var r := ReplaceControlChars(a) + ReplaceControlChars(b);
    forall k | 0 <= k < |l|
      ensures l[k] == r[k]
    {
      if k < |a| {
        assert (a + b)[k] == a[k];
      } else {
        assert (a + b)[k] == b[k - |a|];
      }
    }
  }

  /**
   * The `path` component that PHP's `parse_url` reports for an https URL:
   * the authority runs to the first '/', '?' or '#', the path from there to
   * the first '?' or '#', with its control characters replaced by '_'. An
   * empty path is not reported.
   */
  function UrlPath(url: string): Option<string>
  {
    if StartsWith(url, Scheme) then
      var rest := url[|Scheme|..];
      PathOf(rest[IndexOfAny(rest, AuthorityEnd)..])
    else None
  }

  /** The path that starts a URL's tail after the authority: up to the first '?' or '#'. */
  function PathOf(tail: string): Option<string>
  {
    var path := tail[..IndexOfAny(tail, PathEnd)];
    if path == "" then None else Some(ReplaceControlChars(path))
  }

  /** The endpoint that is signed: the URL's path if it has one, else the endpoint as given. */
  function SignedEndpoint(url: string, endpoint: string): string
  {
    match UrlPath(url)
    case Some(path) => path
    case None => endpoint
  }

  /** The host names of the two base URLs contain none of the characters that end an authority. */
  lemma HostHasNoDelimiter(testMode: bool)
    ensures BaseUrl(testMode) == Scheme + Host(testMode)
    ensures forall k :: 0 <= k < |Host(testMode)| ==> Host(testMode)[k] !in AuthorityEnd
  {
  }

  /** The path of an https URL is read from what follows the scheme. */
  lemma UrlPathOfScheme(rest: string)
    ensures UrlPath(Scheme + rest) == PathOf(rest[IndexOfAny(rest, AuthorityEnd)..])
  {
    var url := Scheme + rest;
    assert url[..|Scheme|] == Scheme;
    assert url[|Scheme|..] == rest;
  }

  /** The path `parse_url` finds in an https URL whose host holds no delimiter is read from the endpoint alone. */
  lemma UrlPathAfterHost(host: string, endpoint: string)
    requires forall k :: 0 <= k < |host| ==> host[k] !in AuthorityEnd
    ensures var tail := endpoint[IndexOfAny(endpoint, AuthorityEnd)..];
            var path := tail[..IndexOfAny(tail, PathEnd)];
            UrlPath(Scheme + host + endpoint) == if path == "" then None else Some(ReplaceControlChars(path))
    ensures UrlPath(Scheme + host + endpoint) == PathOf(endpoint[IndexOfAny(endpoint, AuthorityEnd)..])
  {
    var rest := host + endpoint;
    var i := IndexOfAny(endpoint, AuthorityEnd);
    var tail := endpoint[i..];
    assert Scheme + host + endpoint == Scheme + rest;
    assert rest[IndexOfAny(rest, AuthorityEnd)..] == tail by {
      IndexOfAnyAppend(host, endpoint, AuthorityEnd);
      assert rest[|host| + i..] == tail;
    }
    UrlPathOfScheme(rest);
    assert UrlPath(Scheme + host + endpoint) == PathOf(tail);
  }

  /**
   * For an endpoint that starts with '/', the signed path is the endpoint up
   * to its first '?' or '#', with control characters as '_': the query of
   * the request is never signed.
   */
  lemma SignedEndpointStripsQuery(testMode: bool, endpoint: string)
    requires |endpoint| > 0 && endpoint[0] == '/'
    ensures SignedEndpoint(UrlFromEndpoint(testMode, endpoint), endpoint)
         == ReplaceControlChars(endpoint[..IndexOfAny(endpoint, PathEnd)])
  {
    HostHasNoDelimiter(testMode);
    assert UrlFromEndpoint(testMode, endpoint) == Scheme + Host(testMode) + endpoint;
    UrlPathAfterHost(Host(testMode), endpoint);
    assert IndexOfAny(endpoint, AuthorityEnd) == 0;
    assert endpoint[0..] == endpoint;
    assert IndexOfAny(endpoint, PathEnd) > 0;
    assert PathOf(endpoint) == Some(ReplaceControlChars(endpoint[..IndexOfAny(endpoint, PathEnd)]));
  }

  /**
   * The signed path of `path + query`, for a path that starts with '/' and
   * holds no '?' or '#', and a query that is empty or starts with '?', is
   * `path` with its control characters as '_'; in particular it never
   * contains a '?'.
   */
  lemma SignedPathOfQueryEndpoint(testMode: bool, path: string, query: string)
    requires |path| > 0 && path[0] == '/' && '?' !in path && '#' !in path
    requires query == "" || query[0] == '?'
    ensures SignedEndpoint(UrlFromEndpoint(testMode, path + query), path + query) == ReplaceControlChars(path)
  {
    SignedEndpointStripsQuery(testMode, path + query);
    IndexOfAnyAppend(path, query, PathEnd);
    assert (path + query)[..|path|] == path;
  }

  /**
   * An endpoint that is empty or starts with the query is not given a path
   * by `parse_url`, so the endpoint itself is signed.
   */
  lemma SignedEndpointWithoutPath(testMode: bool, endpoint: string)
    requires endpoint == "" || endpoint[0] == '?'
    ensures SignedEndpoint(UrlFromEndpoint(testMode, endpoint), endpoint) == endpoint
  {
    HostHasNoDelimiter(testMode);
    UrlPathAfterHost(Host(testMode), endpoint);
    if endpoint != "" {
      assert IndexOfAny(endpoint, AuthorityEnd) == 0;
      assert endpoint[0..] == endpoint;
    }
  }

  /** The endpoint of one offer, with `?condition=` appended only for a truthy condition. */
  function SingleOfferEndpoint(ean: string, condition: Value): string
  {
    "/offers/" + OfferApiVersion + "/" + ean + (if Truthy(condition) then "?condition=" + ToPhpString(condition) else "")
  }

  /**
   * The signed path of a single-offer request is the offer's path without
   * the condition; control characters in the EAN are signed as '_'.
   */
  lemma SingleOfferSignedPath(testMode: bool, ean: string, condition: Value)
    requires '?' !in ean && '#' !in ean
    ensures SignedEndpoint(UrlFromEndpoint(testMode, SingleOfferEndpoint(ean, condition)), SingleOfferEndpoint(ean, condition))
         == "/offers/" + OfferApiVersion + "/" + ReplaceControlChars(ean)
  {
    var path := OfferPrefix + ean;
    var query := if Truthy(condition) then "?condition=" + ToPhpString(condition) else "";
    assert SingleOfferEndpoint(ean, condition) == path + query;
    assert '?' !in path && '#' !in path;
    SignedPathOfQueryEndpoint(testMode, path, query);
    OfferPathReplaced(ean);
  }

  const OfferPrefix := "/offers/" + OfferApiVersion + "/"

  /** The fixed part of an offer's path holds no control character. */
  lemma OfferPathReplaced(ean: string)
    ensures ReplaceControlChars(OfferPrefix + ean) == OfferPrefix + ReplaceControlChars(ean)
  {
    ReplaceControlCharsAppend(OfferPrefix, ean);
    ReplaceControlCharsNone(OfferPrefix);
  }

  /** getOwnOffersResult: delete every occurrence of the test base URL, then of the live one. */
  function StripBaseUrls(path: string): string
  {
    RemoveAll(RemoveAll(path, TestUrl), LiveUrl)
  }

  /** The live base URL cannot hold the start of an occurrence of the test base URL. */
  lemma TestUrlNotInLive(rest: string)
    ensures forall k :: 0 <= k < |LiveUrl| ==> !StartsWith((LiveUrl + rest)[k..], TestUrl)
  {
    assert LiveUrl == "https://plazaapi.bol.com";
    assert TestUrl[0] == 'h' && TestUrl[8] == 't' && |TestUrl| > 8;
    forall k | 0 <= k < |LiveUrl|
      ensures !StartsWith((LiveUrl + rest)[k..], TestUrl)
    {
    }
  }

  /**
   * An export URL on either host, whose remainder mentions neither base URL,
   * is turned back into that remainder.
   */
  lemma StripBaseUrlsOfUrl(testMode: bool, endpoint: string)
    requires NoOccurrence(endpoint, TestUrl) && NoOccurrence(endpoint, LiveUrl)
    ensures StripBaseUrls(UrlFromEndpoint(testMode, endpoint)) == endpoint
  {
    RemoveAllAbsent(endpoint, TestUrl);
    RemoveAllAbsent(endpoint, LiveUrl);
    if testMode {
      assert (TestUrl + endpoint)[|TestUrl|..] == endpoint;
      assert RemoveAll(TestUrl + endpoint, TestUrl) == endpoint;
    } else {
      TestUrlNotInLive(endpoint);
      RemoveAllKeepsPrefix(LiveUrl, endpoint, TestUrl);
      assert (LiveUrl + endpoint)[|LiveUrl|..] == endpoint;
    }
  }

  /** A path that mentions neither base URL is left as it is. */
  lemma StripBaseUrlsOfPath(path: string)
    requires NoOccurrence(path, TestUrl) && NoOccurrence(path, LiveUrl)
    ensures StripBaseUrls(path) == path
  {
    RemoveAllAbsent(path, TestUrl);
    RemoveAllAbsent(path, LiveUrl);
  }
}
