/**
 * The classification of a finished request into success or one of the
 * client's exceptions: a transport failure, the rate-limit exception for
 * HTTP 409, or an API error read from the XML error body.
 */
module Errors {
  import opened Wrappers
  import opened Values

  /** One `ServiceError` or `ValidationError` element: its message and the text of its code. */
  datatype ErrorEntry = ErrorEntry(message: string, codeText: string)

  /** A `ServiceErrors` or `ValidationErrors` element, with its first child entry when it has one. */
  datatype ErrorGroup = ErrorGroup(first: Option<ErrorEntry>)

  /**
   * The parts of a parsed error body the client inspects:
   * the two grouped forms and the flat `ErrorCode`/`ErrorMessage` and
   * `errorCode`/`errorMessage` forms (a code that is absent is None, a
   * message that is absent is "").
   */
  datatype ErrorDocument = ErrorDocument(
    serviceErrors: Option<ErrorGroup>,
    validationErrors: Option<ErrorGroup>,
    upperCode: Option<string>,
    upperMessage: string,
    lowerCode: Option<string>,
    lowerMessage: string)

  /** What a request ends in: its body is returned, or one of the exceptions is thrown. */
  datatype Outcome =
    | NoError
    | Transport(errno: int)                  // BolPlazaClientException carrying the cURL error number
    | RateLimit                              // BolPlazaClientRateLimitException
    | Api(message: string, code: int)        // BolPlazaClientException with the API's message and code

  const RateLimitStatus := 409

  /** The status codes treated as success. */
  predicate InSuccessRange(status: int)
  {
    200 <= status <= 226
  }

  /**
   * PHP's `!empty()` on a SimpleXML element without children: the element is
   * present and its text is neither "" nor "0".
   */
  predicate NonEmptyCode(code: Option<string>)
  {
    code.Some? && !EmptyString(code.value)
  }

  function EntryError(e: ErrorEntry): Outcome
  {
    Api(e.message, StringToInt(e.codeText))
  }

  /** What each of the four forms reports, from the most to the least important. */
  function Reported(doc: ErrorDocument): (rs: seq<Option<Outcome>>)
    ensures |rs| == 4
  {
    [ if doc.serviceErrors.Some? && doc.serviceErrors.value.first.Some?
      then Some(EntryError(doc.serviceErrors.value.first.value)) else None,
      if doc.validationErrors.Some? && doc.validationErrors.value.first.Some?
      then Some(EntryError(doc.validationErrors.value.first.value)) else None,
      if NonEmptyCode(doc.upperCode)
      then Some(Api(doc.upperMessage, StringToInt(doc.upperCode.value))) else None,
      if NonEmptyCode(doc.lowerCode)
      then Some(Api(doc.lowerMessage, StringToInt(doc.lowerCode.value))) else None ]
  }

  /**
   * The error an unsuccessful response's body reports, checked in the
   * client's order: the first form that is present wins; None when no
   * form reports an error.
   */
  function BodyError(doc: ErrorDocument): (r: Option<Outcome>)
    ensures r.None? <==> forall k :: 0 <= k < 4 ==> Reported(doc)[k].None?
    ensures r.Some? ==> r.value.Api?
    ensures r.Some? ==> exists k :: 0 <= k < 4 && Reported(doc)[k] == r &&
                                    forall j :: 0 <= j < k ==> Reported(doc)[j].None?
  {
    var rs := Reported(doc);
    match doc.serviceErrors
    case Some(ErrorGroup(Some(e))) =>
      assert rs[0] == Some(EntryError(e));
      Some(EntryError(e))
    case _ =>
      assert rs[0].None?;
      match doc.validationErrors
      case Some(ErrorGroup(Some(e))) =>
        assert rs[1] == Some(EntryError(e));
        Some(EntryError(e))
      case _ =>
        assert rs[1].None?;
        if NonEmptyCode(doc.upperCode) then
          assert rs[2].Some?;
          Some(Api(doc.upperMessage, StringToInt(doc.upperCode.value)))
        else if NonEmptyCode(doc.lowerCode) then
          assert rs[2].None? && rs[3].Some?;
          Some(Api(doc.lowerMessage, StringToInt(doc.lowerCode.value)))
        else
          assert rs[2].None? && rs[3].None?;
          None
  }

  /**
   * checkForErrors: a transport error first, then a status outside the
   * success range, where 409 is the rate limit and otherwise a non-empty
   * body is searched for an error. Anything else is success.
   */
  function Classify(errno: int, status: int, body: string, doc: ErrorDocument): (r: Outcome)
    ensures r.Transport? <==> errno != 0
    ensures r.Transport? ==> r.errno == errno
    ensures r.RateLimit? <==> errno == 0 && status == RateLimitStatus
    ensures r.Api? <==> errno == 0 && !InSuccessRange(status) && status != RateLimitStatus
                        && !EmptyString(body) && BodyError(doc).Some?
    ensures r.Api? ==> Some(r) == BodyError(doc)
    ensures errno == 0 && InSuccessRange(status) ==> r.NoError?
  {
    if errno != 0 then Transport(errno)
    else if !InSuccessRange(status) then
      if status == RateLimitStatus then RateLimit
      else if !EmptyString(body) then
        match BodyError(doc)
        case Some(e) => e
        case None => NoError
      else NoError
    else NoError
  }

  /** A rule of the reference table: when it applies, and what it yields. */
  datatype Rule = Rule(applies: bool, outcome: Outcome)

  /** The outcome of the first rule that applies; success when none does. */
  function FirstApplicable(rules: seq<Rule>): Outcome
  {
    if rules == [] then NoError
    else if rules[0].applies then rules[0].outcome
    else FirstApplicable(rules[1..])
  }

  /**
   * The error handling as a flat table of rules in the order the client
   * tries them; the nested conditions of the source become conjunctions.
   */
  function RuleTable(errno: int, status: int, body: string, doc: ErrorDocument): seq<Rule>
  {
    var failed := errno == 0 && !InSuccessRange(status);
    var searched := failed && status != RateLimitStatus && !EmptyString(body);
    var rs := Reported(doc);
    [ Rule(errno != 0, Transport(errno)),
      Rule(failed && status == RateLimitStatus, RateLimit),
      Rule(searched && rs[0].Some?, OrSuccess(rs[0])),
      Rule(searched && rs[1].Some?, OrSuccess(rs[1])),
      Rule(searched && rs[2].Some?, OrSuccess(rs[2])),
      Rule(searched && rs[3].Some?, OrSuccess(rs[3])) ]
  }

  function OrSuccess(o: Option<Outcome>): Outcome
  {
    if o.Some? then o.value else NoError
  }

  lemma {:induction false} FirstApplicableSkips(rules: seq<Rule>, k: nat)
    requires k <= |rules|
    requires forall j :: 0 <= j < k ==> !rules[j].applies
    ensures FirstApplicable(rules) == FirstApplicable(rules[k..])
  {
    if k > 0 {
      assert !rules[0].applies;
      FirstApplicableSkips(rules[1..], k - 1);
      assert rules[1..][k - 1..] == rules[k..];
    }
  }

  /** The first rule that applies decides. */
  lemma FirstApplicableAt(rules: seq<Rule>, k: nat)
    requires k < |rules| && rules[k].applies
    requires forall j :: 0 <= j < k ==> !rules[j].applies
    ensures FirstApplicable(rules) == rules[k].outcome
  {
    FirstApplicableSkips(rules, k);
  }

  /** When no rule applies, the outcome is success. */
  lemma FirstApplicableNone(rules: seq<Rule>)
    requires forall j :: 0 <= j < |rules| ==> !rules[j].applies
    ensures FirstApplicable(rules) == NoError
  {
    FirstApplicableSkips(rules, |rules|);
  }

  /** The client's nested checks agree with the flat rule table on every input. */
  lemma ClassifyFollowsTable(errno: int, status: int, body: string, doc: ErrorDocument)
    ensures Classify(errno, status, body, doc) == FirstApplicable(RuleTable(errno, status, body, doc))
  {
    var rules := RuleTable(errno, status, body, doc);
    var failed := errno == 0 && !InSuccessRange(status);
    var searched := failed && status != RateLimitStatus && !EmptyString(body);
    if errno != 0 {
      FirstApplicableAt(rules, 0);
    } else if failed && status == RateLimitStatus {
      FirstApplicableAt(rules, 1);
    } else if !searched {
      FirstApplicableNone(rules);
    } else {
      RuleTableSearched(errno, status, body, doc);
      SearchedFollowsTable(rules, Reported(doc), BodyError(doc));
    }
  }

  /** Once the body is searched, the last four rules are the four forms, in order. */
  lemma RuleTableSearched(errno: int, status: int, body: string, doc: ErrorDocument)
    requires errno == 0 && !InSuccessRange(status) && status != RateLimitStatus && !EmptyString(body)
    ensures |RuleTable(errno, status, body, doc)| == 6
    ensures !RuleTable(errno, status, body, doc)[0].applies && !RuleTable(errno, status, body, doc)[1].applies
    ensures forall k :: 2 <= k < 6 ==>
              RuleTable(errno, status, body, doc)[k] == Rule(Reported(doc)[k - 2].Some?, OrSuccess(Reported(doc)[k - 2]))
    ensures Classify(errno, status, body, doc) == OrSuccess(BodyError(doc))
  {
  }

  /** Past the transport and rate-limit rules, the table picks what the body reports. */
  lemma SearchedFollowsTable(rules: seq<Rule>, rs: seq<Option<Outcome>>, r: Option<Outcome>)
    requires |rules| == 6 && |rs| == 4 && !rules[0].applies && !rules[1].applies
    requires forall k :: 2 <= k < 6 ==> rules[k] == Rule(rs[k - 2].Some?, OrSuccess(rs[k - 2]))
    requires r.None? <==> forall k :: 0 <= k < 4 ==> rs[k].None?
    requires r.Some? ==> exists k :: 0 <= k < 4 && rs[k] == r && forall j :: 0 <= j < k ==> rs[j].None?
    ensures FirstApplicable(rules) == OrSuccess(r)
  {
    if r.None? {
      FirstApplicableNone(rules);
    } else {
      var k :| 0 <= k < 4 && rs[k] == r && forall j :: 0 <= j < k ==> rs[j].None?;
      FirstApplicableAt(rules, k + 2);
    }
  }

  /** A later form never overrides an earlier one: a service error hides the others. */
  lemma ServiceErrorWins(e: ErrorEntry, doc: ErrorDocument)
    requires doc.serviceErrors == Some(ErrorGroup(Some(e)))
    ensures BodyError(doc) == Some(Api(e.message, StringToInt(e.codeText)))
    ensures forall other: ErrorDocument :: other.serviceErrors == doc.serviceErrors ==> BodyError(other) == BodyError(doc)
  {
  }

  /** Cases the client's documentation names. */
  lemma ClassifyExamples(doc: ErrorDocument)
    ensures Classify(0, 200, "<ok/>", doc) == NoError
    ensures Classify(7, 200, "", doc) == Transport(7)
    ensures Classify(0, 409, "<ServiceErrors/>", doc) == RateLimit
    ensures Classify(0, 500, "0", doc) == NoError
    ensures Classify(0, 404, "<e/>", ErrorDocument(None, None, Some(""), "m", None, "")) == NoError
    ensures Classify(0, 400, "<e/>", ErrorDocument(None, None, Some("0"), "m", None, "")) == NoError
    ensures Classify(0, 400, "<e/>", ErrorDocument(None, None, None, "", Some("0"), "m")) == NoError
  {
  }

  /** A failing response whose service error carries a printed integer code yields that message and code. */
  lemma ServiceErrorExample(message: string, code: int)
    ensures Classify(0, 500, "<e/>", ErrorDocument(Some(ErrorGroup(Some(ErrorEntry(message, ToPhpString(Int(code)))))), None, None, "", None, ""))
         == Api(message, code)
  {
    var e := ErrorEntry(message, ToPhpString(Int(code)));
    var doc := ErrorDocument(Some(ErrorGroup(Some(e))), None, None, "", None, "");
    assert BodyError(doc) == Some(EntryError(e));
    StringToIntOfPhpString(code);
  }

  /** A service group without an entry falls through to the validation errors. */
  lemma ValidationErrorExample(message: string, code: int)
    ensures Classify(0, 400, "<e/>", ErrorDocument(Some(ErrorGroup(None)), Some(ErrorGroup(Some(ErrorEntry(message, ToPhpString(Int(code)))))), None, "", None, ""))
         == Api(message, code)
  {
    var e := ErrorEntry(message, ToPhpString(Int(code)));
    var doc := ErrorDocument(Some(ErrorGroup(None)), Some(ErrorGroup(Some(e))), None, "", None, "");
    assert BodyError(doc) == Some(EntryError(e));
    StringToIntOfPhpString(code);
  }
}
