/**
 * The response-header callback the client installs once header capture is
 * switched on, and the reductions filename read from the captured
 * `Content-Disposition` header.
 */
module Headers {
  import opened Text

  /** The captured headers: the name before the first colon, the value after it. */
  type HeaderMap = map<string, string>

  const ContentDisposition := "Content-Disposition"

  /** A line takes part in capture exactly when it holds a colon. */
  predicate HasColon(line: string)
  {
    ':' in line
  }

  /** The key of a captured line: the first piece of `explode(":", line)`. */
  function HeaderKey(line: string): (key: string)
    requires HasColon(line)
    ensures key == line[..IndexOfAny(line, {':'})]
  {
    SplitFirstTwo(line, ':');
    Split(line, ':')[0]
  }

  /**
   * The value of a captured line: the second piece of `explode(":", line)`,
   * which stops at the next colon; leading white space and the line end are kept.
   */
  function HeaderValue(line: string): (value: string)
    requires HasColon(line)
    ensures var rest := line[IndexOfAny(line, {':'}) + 1..];
            value == rest[..IndexOfAny(rest, {':'})]
    ensures ':' !in value
  {
    SplitFirstTwo(line, ':');
    Split(line, ':')[1]
  }

  /** One call of the callback: a line with a colon sets its key; any other line changes nothing. */
  function CaptureLine(m: HeaderMap, line: string): (r: HeaderMap)
    ensures HasColon(line) ==> HeaderKey(line) in r && r[HeaderKey(line)] == HeaderValue(line)
    ensures HasColon(line) ==> r.Keys == m.Keys + {HeaderKey(line)}
    ensures !HasColon(line) ==> r == m
    ensures forall k :: k in m && (!HasColon(line) || k != HeaderKey(line)) ==> k in r && r[k] == m[k]
  {
    if HasColon(line) then m[HeaderKey(line) := HeaderValue(line)] else m
  }

  /** The headers captured after the callback has seen `lines`, in order, starting from `m`. */
  function Captured(m: HeaderMap, lines: seq<string>): HeaderMap
  {
    if lines == [] then m else CaptureLine(Captured(m, lines[..|lines| - 1]), lines[|lines| - 1])
  }

  /** The index of the last line holding a colon whose key is `key`, when there is one. */
  predicate IsLastFor(lines: seq<string>, key: string, p: int)
  {
    && 0 <= p < |lines|
    && HasColon(lines[p]) && HeaderKey(lines[p]) == key
    && forall q :: p < q < |lines| && HasColon(lines[q]) ==> HeaderKey(lines[q]) != key
  }

  predicate SetsKey(line: string, key: string)
  {
    HasColon(line) && HeaderKey(line) == key
  }

  /** The captured keys are the keys there were, plus the key of every line with a colon. */
  lemma {:induction false} CapturedKeys(m: HeaderMap, lines: seq<string>)
    ensures Captured(m, lines).Keys
         == m.Keys + set k | 0 <= k < |lines| && HasColon(lines[k]) :: HeaderKey(lines[k])
  {
    if lines != [] {
      var init := lines[..|lines| - 1];
      CapturedKeys(m, init);
      var last := lines[|lines| - 1];
      var before := set k | 0 <= k < |init| && HasColon(init[k]) :: HeaderKey(init[k]);
      var after := set k | 0 <= k < |lines| && HasColon(lines[k]) :: HeaderKey(lines[k]);
      assert after == before + (if HasColon(last) then {HeaderKey(last)} else {}) by {
        forall x | x in after
          ensures x in before + (if HasColon(last) then {HeaderKey(last)} else {})
        {
          var k :| 0 <= k < |lines| && HasColon(lines[k]) && HeaderKey(lines[k]) == x;
          if k < |init| {
            assert init[k] == lines[k];
          }
        }
        forall x | x in before
          ensures x in after
        {
          var k :| 0 <= k < |init| && HasColon(init[k]) && HeaderKey(init[k]) == x;
          assert lines[k] == init[k];
        }
      }
    }
  }

  /** A repeated header keeps the value of the last line that set it. */
  lemma {:induction false} CapturedLastWins(m: HeaderMap, lines: seq<string>, key: string, p: int)
    requires IsLastFor(lines, key, p)
    ensures key in Captured(m, lines)
    ensures Captured(m, lines)[key] == HeaderValue(lines[p])
  {
    var init := lines[..|lines| - 1];
    if p < |lines| - 1 {
      assert IsLastFor(init, key, p) by {
        forall q | p < q < |init| && HasColon(init[q])
          ensures HeaderKey(init[q]) != key
        {
          assert init[q] == lines[q];
        }
      }
      CapturedLastWins(m, init, key, p);
    }
  }

  /**
   * A header no line sets keeps whatever it held before: a header captured
   * by an earlier request survives a response that does not send it.
   */
  lemma {:induction false} CapturedUntouched(m: HeaderMap, lines: seq<string>, key: string)
    requires forall q :: 0 <= q < |lines| ==> !SetsKey(lines[q], key)
    ensures key in Captured(m, lines) <==> key in m
    ensures key in m ==> Captured(m, lines)[key] == m[key]
  {
    if lines != [] {
      var init := lines[..|lines| - 1];
      assert forall q :: 0 <= q < |init| ==> !SetsKey(init[q], key) by {
        forall q | 0 <= q < |init|
          ensures !SetsKey(init[q], key)
        {
          assert init[q] == lines[q];
        }
      }
      CapturedUntouched(m, init, key);
      assert !SetsKey(lines[|lines| - 1], key);
    }
  }

  /**
   * The filename getReductions reports: the first `\w+\.\w+` match in the
   * captured `Content-Disposition` value, or "" when that header was not
   * captured or holds no match.
   */
  function ReductionFilename(m: HeaderMap): (name: string)
    ensures name == "" || IsFileName(name)
    ensures ContentDisposition !in m ==> name == ""
    ensures ContentDisposition in m ==> name == FirstFileName(m[ContentDisposition])
  {
    if ContentDisposition in m then
      var v := m[ContentDisposition];
      if FirstFileName(v) != "" then FirstFileNameIsLeftmostLongest(v); FirstFileName(v)
      else ""
    else ""
  }

  /** The status line holds no colon and is not captured. */
  lemma StatusLineIgnored()
    ensures CaptureLine(map[], "HTTP/1.1 200 OK\r\n") == map[]
  {
    var l := "HTTP/1.1 200 OK\r\n";
    assert forall k :: 0 <= k < |l| ==> l[k] != ':';
  }

  /**
   * A line `name:value` whose name holds no colon is captured under that
   * name; the value is everything after the colon when it holds no further
   * colon, and otherwise only the text up to that colon.
   */
  lemma {:induction false} CaptureOfLine(name: string, value: string, tail: string)
    requires ':' !in name && ':' !in value
    ensures HasColon(name + [':'] + value + tail)
    ensures HeaderKey(name + [':'] + value + tail) == name
    ensures tail == [] || tail[0] == ':' ==> HeaderValue(name + [':'] + value + tail) == value
  {
    var l := name + [':'] + value + tail;
    assert l[|name|] == ':';
    assert l == name + ([':'] + value + tail);
    IndexOfAnyAppend(name, [':'] + value + tail, {':'});
    assert l[|name| + 1..] == value + tail;
    IndexOfAnyAppend(value, tail, {':'});
    assert (value + tail)[..|value|] == value;
  }
}
