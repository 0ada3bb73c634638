/**
 * The string operations the client relies on from PHP's library:
 * finding a character, `explode`, `str_replace` with an empty replacement,
 * and the leftmost match of the regular expression `\w+\.\w+`.
 * Strings are sequences of characters; no encoding is modelled.
 */
module Text {
  import opened Wrappers

  /** Index of the first character of `s` that lies in `cs`, or `|s|` when there is none. */
  function IndexOfAny(s: string, cs: set<char>): (i: nat)
    ensures i <= |s|
    ensures forall k :: 0 <= k < i ==> s[k] !in cs
    ensures i < |s| ==> s[i] in cs
  {
    if |s| == 0 then 0
    else if s[0] in cs then 0
    else 1 + IndexOfAny(s[1..], cs)
  }

  /** Characters of a prefix that holds none of `cs` are skipped over in one step. */
  lemma {:induction false} IndexOfAnyAppend(a: string, b: string, cs: set<char>)
    requires forall k :: 0 <= k < |a| ==> a[k] !in cs
    ensures IndexOfAny(a + b, cs) == |a| + IndexOfAny(b, cs)
  {
    if |a| > 0 {
      assert (a + b)[1..] == a[1..] + b;
      IndexOfAnyAppend(a[1..], b, cs);
    } else {
      assert a + b == b;
    }
  }

  /** PHP `explode(c, s)`: the pieces of `s` between the occurrences of `c`. */
  function Split(s: string, c: char): (parts: seq<string>)
    ensures |parts| >= 1
    ensures forall k :: 0 <= k < |parts| ==> c !in parts[k]
    decreases |s|
  {
    var i := IndexOfAny(s, {c});
    if i == |s| then [s] else [s[..i]] + Split(s[i + 1..], c)
  }

  /** PHP `implode(c, parts)`, the inverse of `Split`. */
  function Join(parts: seq<string>, c: char): string
  {
    if |parts| == 0 then ""
    else if |parts| == 1 then parts[0]
    else parts[0] + [c] + Join(parts[1..], c)
  }

  /** Joining a first piece before at least one more puts the separator after it. */
  lemma JoinCons(a: string, rest: seq<string>, c: char)
    requires rest != []
    ensures Join([a] + rest, c) == a + [c] + Join(rest, c)
  {
    assert ([a] + rest)[1..] == rest;
  }

  /** Joining the pieces of `explode` gives back the original string. */
  lemma {:induction false} JoinSplit(s: string, c: char)
    ensures Join(Split(s, c), c) == s
    decreases |s|
  {
    var i := IndexOfAny(s, {c});
    if i < |s| {
      var rest := Split(s[i + 1..], c);
      assert Split(s, c) == [s[..i]] + rest;
      JoinSplit(s[i + 1..], c);
      assert Join([s[..i]] + rest, c) == s[..i] + [c] + Join(rest, c) by {
        assert ([s[..i]] + rest)[1..] == rest;
      }
      assert s == s[..i] + [c] + s[i + 1..];
    }
  }

  /** The first piece of `explode` runs to the first `c`; when there is one, the rest is split after it. */
  lemma SplitHead(s: string, c: char)
    ensures Split(s, c)[0] == s[..IndexOfAny(s, {c})]
    ensures IndexOfAny(s, {c}) < |s| ==>
              Split(s, c) == [s[..IndexOfAny(s, {c})]] + Split(s[IndexOfAny(s, {c}) + 1..], c)
  {
    if IndexOfAny(s, {c}) == |s| {
      assert s[..|s|] == s;
    }
  }

  /**
   * A string holding `c` splits into at least two pieces: the text before
   * the first `c`, and the text from there to the next `c` or the end.
   */
  lemma SplitFirstTwo(s: string, c: char)
    requires c in s
    ensures |Split(s, c)| >= 2
    ensures Split(s, c)[0] == s[..IndexOfAny(s, {c})]
    ensures Split(s, c)[1] == s[IndexOfAny(s, {c}) + 1..][..IndexOfAny(s[IndexOfAny(s, {c}) + 1..], {c})]
  {
    var i := IndexOfAny(s, {c});
    var k :| 0 <= k < |s| && s[k] == c;
    assert i <= k;
    SplitHead(s, c);
    SplitHead(s[i + 1..], c);
  }

  /** Splitting a join of pieces that do not hold the separator gives back the pieces. */
  lemma {:induction false} SplitJoin(parts: seq<string>, c: char)
    requires |parts| >= 1
    requires forall k :: 0 <= k < |parts| ==> c !in parts[k]
    ensures Split(Join(parts, c), c) == parts
    decreases |parts|
  {
    var p := parts[0];
    if |parts| == 1 {
      IndexOfAnyAppend(p, "", {c});
      assert p + "" == p;
    } else {
      var rest := Join(parts[1..], c);
      var s := p + [c] + rest;
      IndexOfAnyAppend(p, [c] + rest, {c});
      assert s == p + ([c] + rest);
      assert IndexOfAny(s, {c}) == |p|;
      assert s[..|p|] == p;
      assert s[|p| + 1..] == rest;
      SplitJoin(parts[1..], c);
    }
  }

  predicate StartsWith(s: string, prefix: string)
  {
    |prefix| <= |s| && s[..|prefix|] == prefix
  }

  /** `pat` occurs nowhere in `s`. */
  predicate NoOccurrence(s: string, pat: string)
  {
    forall k :: 0 <= k <= |s| ==> !StartsWith(s[k..], pat)
  }

  /**
   * PHP `str_replace(pat, '', s)`: scans `s` from the left and deletes every
   * occurrence of `pat` it meets, without rescanning the text it has kept.
   * An empty `pat` leaves `s` as it is.
   */
  function RemoveAll(s: string, pat: string): (r: string)
    ensures |r| <= |s|
    decreases |s|
  {
    if pat == [] || s == [] then s
    else if StartsWith(s, pat) then RemoveAll(s[|pat|..], pat)
    else [s[0]] + RemoveAll(s[1..], pat)
  }

  /** A string in which `pat` does not occur is left unchanged. */
  lemma {:induction false} RemoveAllAbsent(s: string, pat: string)
    requires NoOccurrence(s, pat)
    ensures RemoveAll(s, pat) == s
    decreases |s|
  {
    if pat != [] && s != [] {
      assert !StartsWith(s[0..], pat);
      assert s[0..] == s;
      assert NoOccurrence(s[1..], pat) by {
        forall k | 0 <= k <= |s[1..]|
          ensures !StartsWith(s[1..][k..], pat)
        {
          assert s[1..][k..] == s[k + 1..];
        }
      }
      RemoveAllAbsent(s[1..], pat);
    }
  }

  /** A prefix `a` at none of whose positions `pat` starts is kept whole. */
  lemma {:induction false} RemoveAllKeepsPrefix(a: string, b: string, pat: string)
    requires forall k :: 0 <= k < |a| ==> !StartsWith((a + b)[k..], pat)
    ensures RemoveAll(a + b, pat) == a + RemoveAll(b, pat)
    decreases |a|
  {
    if pat == [] {
    } else if |a| == 0 {
      assert a + b == b;
    } else {
      assert (a + b)[0..] == a + b;
      assert (a + b)[1..] == a[1..] + b;
      forall k | 0 <= k < |a[1..]|
        ensures !StartsWith((a[1..] + b)[k..], pat)
      {
        assert (a[1..] + b)[k..] == (a + b)[k + 1..];
      }
      RemoveAllKeepsPrefix(a[1..], b, pat);
      assert a == [a[0]] + a[1..];
    }
  }

  /** A character that `\w` matches (PCRE without the Unicode flag). */
  predicate IsWordChar(ch: char)
  {
    ('a' <= ch <= 'z') || ('A' <= ch <= 'Z') || ('0' <= ch <= '9') || ch == '_'
  }

  predicate IsWord(w: string)
  {
    |w| > 0 && forall k :: 0 <= k < |w| ==> IsWordChar(w[k])
  }

  /** A whole match of `\w+\.\w+`: two words joined by one dot. */
  predicate IsFileName(t: string)
  {
    exists d :: 0 < d < |t| && t[d] == '.' && IsWord(t[..d]) && IsWord(t[d + 1..])
  }

  /** End of the run of word characters that starts at `i`. */
  function WordEnd(s: string, i: nat): (e: nat)
    requires i <= |s|
    ensures i <= e <= |s|
    ensures forall k :: i <= k < e ==> IsWordChar(s[k])
    ensures e < |s| ==> !IsWordChar(s[e])
    decreases |s| - i
  {
    if i < |s| && IsWordChar(s[i]) then WordEnd(s, i + 1) else i
  }

  /**
   * Where a match of `\w+\.\w+` that starts at `i` ends. Both `\w+` are
   * greedy; the first can only give up characters that are themselves
   * word characters, so it matches only when its whole run is followed by
   * a dot and a word character.
   */
  function MatchAt(s: string, i: nat): Option<nat>
    requires i <= |s|
  {
    if i < |s| && IsWordChar(s[i]) then
      var e := WordEnd(s, i);
      if e + 1 < |s| && s[e] == '.' && IsWordChar(s[e + 1]) then Some(WordEnd(s, e + 1)) else None
    else None
  }

  /** A match found at `i` is a file name that cannot be extended to the right. */
  lemma MatchAtSound(s: string, i: nat)
    requires i <= |s| && MatchAt(s, i).Some?
    ensures i < MatchAt(s, i).value <= |s|
    ensures IsFileName(s[i..MatchAt(s, i).value])
    ensures MatchAt(s, i).value == |s| || !IsWordChar(s[MatchAt(s, i).value])
  {
    var e := WordEnd(s, i);
    var f := WordEnd(s, e + 1);
    var t := s[i..f];
    var d := e - i;
    assert t[d] == '.';
    assert t[..d] == s[i..e];
    assert t[d + 1..] == s[e + 1..f];
    assert IsWord(t[..d]);
    assert IsWord(t[d + 1..]);
  }

  /** A run of word characters that stops at `m` ends there. */
  lemma {:induction false} WordEndAt(s: string, i: nat, m: nat)
    requires i <= m < |s|
    requires forall k :: i <= k < m ==> IsWordChar(s[k])
    requires !IsWordChar(s[m])
    ensures WordEnd(s, i) == m
    decreases m - i
  {
    if i < m {
      WordEndAt(s, i + 1, m);
    }
  }

  /** A file name `s[i..j]` read in `s`: a word run from `i`, the dot, then a word character. */
  lemma FileNameParts(s: string, i: nat, j: nat) returns (d: nat)
    requires i <= j <= |s| && IsFileName(s[i..j])
    ensures 0 < d && i + d + 1 < j
    ensures forall k :: i <= k < i + d ==> IsWordChar(s[k])
    ensures s[i + d] == '.' && IsWordChar(s[i + d + 1])
  {
    var t := s[i..j];
    d :| 0 < d < |t| && t[d] == '.' && IsWord(t[..d]) && IsWord(t[d + 1..]);
    var w := t[..d];
    forall k | i <= k < i + d
      ensures IsWordChar(s[k])
    {
      assert s[k] == w[k - i];
    }
    assert s[i + d + 1] == t[d + 1..][0];
  }

  /** Wherever a file name starts, the matcher finds a match. */
  lemma MatchAtComplete(s: string, i: nat, j: nat)
    requires i <= j <= |s| && IsFileName(s[i..j])
    ensures MatchAt(s, i).Some?
  {
    var d := FileNameParts(s, i, j);
    WordEndAt(s, i, i + d);
  }

  /** `t` occurs in `s` at position `i`. */
  predicate OccursAt(s: string, t: string, i: nat)
  {
    i + |t| <= |s| && s[i..i + |t|] == t
  }

  /** The leftmost position at or after `i` where a match starts, with the match's end. */
  function FirstMatchFrom(s: string, i: nat): (r: Option<(nat, nat)>)
    requires i <= |s|
    ensures r.None? ==> forall k :: i <= k <= |s| ==> MatchAt(s, k).None?
    ensures r.Some? ==> i <= r.value.0 <= |s| && MatchAt(s, r.value.0) == Some(r.value.1)
    ensures r.Some? ==> forall k :: i <= k < r.value.0 ==> MatchAt(s, k).None?
    decreases |s| - i
  {
    match MatchAt(s, i)
    case Some(f) => Some((i, f))
    case None => if i == |s| then None else FirstMatchFrom(s, i + 1)
  }

  /** `preg_match('/\w+\.\w+/', s)` followed by taking the whole match, or "" when nothing matches. */
  function FirstFileName(s: string): string
  {
    match FirstMatchFrom(s, 0)
    case Some((i, f)) => if i <= f <= |s| then s[i..f] else ""
    case None => ""
  }

  /** Nothing matches exactly when no substring of `s` is a file name. */
  lemma FirstFileNameEmptyIff(s: string)
    ensures FirstFileName(s) == "" <==> forall i, j :: 0 <= i <= j <= |s| ==> !IsFileName(s[i..j])
  {
    var r := FirstMatchFrom(s, 0);
    if r.None? {
      forall i, j | 0 <= i <= j <= |s|
        ensures !IsFileName(s[i..j])
      {
        if IsFileName(s[i..j]) {
          MatchAtComplete(s, i, j);
        }
      }
    } else {
      var (i, f) := r.value;
      MatchAtSound(s, i);
      assert FirstFileName(s) == s[i..f];
      assert IsFileName(s[i..f]);
    }
  }

  /** Where the matcher finds nothing, no file name starts. */
  lemma NoFileNameBefore(s: string, i: nat)
    requires i <= |s|
    requires forall k :: 0 <= k < i ==> MatchAt(s, k).None?
    ensures forall i', j :: 0 <= i' < i && i' <= j <= |s| ==> !IsFileName(s[i'..j])
  {
    forall i', j | 0 <= i' < i && i' <= j <= |s|
      ensures !IsFileName(s[i'..j])
    {
      if IsFileName(s[i'..j]) {
        MatchAtComplete(s, i', j);
      }
    }
  }

  /**
   * A match is the leftmost-longest file name in `s`: it occurs in `s`, no
   * file name starts further left, and it cannot be extended to the right.
   */
  lemma FirstFileNameIsLeftmostLongest(s: string)
    requires FirstFileName(s) != ""
    ensures IsFileName(FirstFileName(s))
    ensures exists i: nat ::
              && OccursAt(s, FirstFileName(s), i)
              && (i + |FirstFileName(s)| == |s| || !IsWordChar(s[i + |FirstFileName(s)|]))
              && forall i', j :: 0 <= i' < i && i' <= j <= |s| ==> !IsFileName(s[i'..j])
  {
    var i := FirstFileNameAt(s);
  }

  /** Where the first match starts, as a witness. */
  lemma FirstFileNameAt(s: string) returns (i: nat)
    requires FirstFileName(s) != ""
    ensures IsFileName(FirstFileName(s))
    ensures OccursAt(s, FirstFileName(s), i)
    ensures i + |FirstFileName(s)| == |s| || !IsWordChar(s[i + |FirstFileName(s)|])
    ensures forall i', j :: 0 <= i' < i && i' <= j <= |s| ==> !IsFileName(s[i'..j])
  {
    var r := FirstMatchFrom(s, 0);
    assert r.Some?;
    i := r.value.0;
    var f := r.value.1;
    MatchAtSound(s, i);
    var t := s[i..f];
    assert FirstFileName(s) == t;
    assert |t| == f - i;
    NoFileNameBefore(s, i);
  }
}
