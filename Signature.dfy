/**
 * The request signature of the marketplace API (BolPlazaClient::getSignature):
 * a canonical newline-joined string over the method, content type, date and
 * path, keyed-hashed with the private key and prefixed with the public key.
 * HMAC-SHA256 followed by base64 is supplied by the caller as `mac`.
 */
module Signature {
  import opened Text

  /** The canonical string that is signed. */
  function SignatureBase(httpMethod: string, contentType: string, date: string, endpoint: string): string
  {
    httpMethod + "\n\n" + contentType + "\n" + date + "\n" + "x-bol-date:" + date + "\n" + endpoint
  }

  /** The value of the X-BOL-Authorization header: the public key, a colon and the digest. */
  function AuthorizationValue(publicKey: string, digest: string): string
  {
    publicKey + ":" + digest
  }

  predicate NoNewline(s: string)
  {
    '\n' !in s
  }

  /** The six lines of the canonical string, in order. */
  function SignatureLines(httpMethod: string, contentType: string, date: string, endpoint: string): seq<string>
  {
    [httpMethod, "", contentType, date, "x-bol-date:" + date, endpoint]
  }

  /** The canonical string is its lines joined with newlines. */
  lemma SignatureBaseJoin(httpMethod: string, contentType: string, date: string, endpoint: string)
    ensures Join(SignatureLines(httpMethod, contentType, date, endpoint), '\n')
         == SignatureBase(httpMethod, contentType, date, endpoint)
  {
    var nl := ['\n'];
    var l4 := "x-bol-date:" + date;
    JoinCons(l4, [endpoint], '\n');
    JoinCons(date, [l4, endpoint], '\n');
    JoinCons(contentType, [date, l4, endpoint], '\n');
    JoinCons("", [contentType, date, l4, endpoint], '\n');
    JoinCons(httpMethod, ["", contentType, date, l4, endpoint], '\n');
    assert "\n\n" == nl + nl;
    Regroup(httpMethod, contentType, date, "x-bol-date:", endpoint, nl, "\n\n");
  }

  /** The right-nested join of the six lines, regrouped as the left-nested `.=` accumulation. */
  lemma Regroup(m: string, c: string, d: string, x: string, e: string, nl: string, nn: string)
    requires nn == nl + nl
    ensures (m + nl) + (("" + nl) + ((c + nl) + ((d + nl) + ((x + d + nl) + e))))
         == m + nn + c + nl + d + nl + x + d + nl + e
  {
  }

  /**
   * The canonical string is exactly six lines: the method, an empty line, the
   * content type, the date, the `x-bol-date:` line and the path.
   */
  lemma SignatureBaseLines(httpMethod: string, contentType: string, date: string, endpoint: string)
    requires NoNewline(httpMethod) && NoNewline(contentType) && NoNewline(date) && NoNewline(endpoint)
    ensures Split(SignatureBase(httpMethod, contentType, date, endpoint), '\n')
         == [httpMethod, "", contentType, date, "x-bol-date:" + date, endpoint]
  {
    var lines := SignatureLines(httpMethod, contentType, date, endpoint);
    SignatureBaseJoin(httpMethod, contentType, date, endpoint);
    assert '\n' !in "x-bol-date:" + date;
    assert forall k :: 0 <= k < |lines| ==> '\n' !in lines[k];
    SplitJoin(lines, '\n');
  }

  /**
   * The canonical string determines what was signed: two requests whose parts
   * hold no newline share a canonical string only when method, content type,
   * date and path all agree.
   */
  lemma SignatureBaseInjective(m1: string, c1: string, d1: string, e1: string,
                               m2: string, c2: string, d2: string, e2: string)
    requires NoNewline(m1) && NoNewline(c1) && NoNewline(d1) && NoNewline(e1)
    requires NoNewline(m2) && NoNewline(c2) && NoNewline(d2) && NoNewline(e2)
    requires SignatureBase(m1, c1, d1, e1) == SignatureBase(m2, c2, d2, e2)
    ensures m1 == m2 && c1 == c2 && d1 == d2 && e1 == e2
  {
    SignatureBaseLines(m1, c1, d1, e1);
    SignatureBaseLines(m2, c2, d2, e2);
  }

  /** The alphabet of base64 (RFC 4648, section 4), padding included. */
  predicate IsBase64(s: string)
  {
    forall k :: 0 <= k < |s| ==>
      ('A' <= s[k] <= 'Z') || ('a' <= s[k] <= 'z') || ('0' <= s[k] <= '9') || s[k] in {'+', '/', '='}
  }

  /**
   * The authorization value always starts with the public key and a colon;
   * for a public key without a colon and a base64 digest, splitting the value
   * at its colons gives back exactly the public key and the digest.
   */
  lemma AuthorizationValueParts(publicKey: string, digest: string)
    ensures StartsWith(AuthorizationValue(publicKey, digest), publicKey + ":")
    ensures ':' !in publicKey && IsBase64(digest) ==>
              Split(AuthorizationValue(publicKey, digest), ':') == [publicKey, digest]
  {
    var v := AuthorizationValue(publicKey, digest);
    assert v[..|publicKey + ":"|] == publicKey + ":";
    if ':' !in publicKey && IsBase64(digest) {
      assert ':' !in digest;
      assert Join([publicKey, digest], ':') == v;
      SplitJoin([publicKey, digest], ':');
    }
  }
}
