/** Clean-up of user text: room names, descriptions and free text. Each
    sanitizer is a chain of `trim` and global regular-expression replacements;
    each replacement is written out here as a recursive function over the
    string, scanning left to right as the regular-expression engine does. */
module Sanitize {
  import opened Text

  predicate NoAngleBrackets(s: string) {
    forall k :: 0 <= k < |s| ==> s[k] != '<' && s[k] != '>'
  }

  /** Every whitespace character is a plain space and no two are adjacent. */
  predicate SingleSpaced(s: string) {
    && (forall k :: 0 <= k < |s| && IsWhitespace(s[k]) ==> s[k] == ' ')
    && (forall k :: 0 <= k < |s| - 1 ==> !(IsWhitespace(s[k]) && IsWhitespace(s[k + 1])))
  }

  /** `.replace(/\s+/g, ' ')`: each maximal run of whitespace becomes one space. */
  function CollapseWhitespace(s: string): (r: string)
    ensures |r| <= |s|
    ensures SingleSpaced(r)
    ensures r != [] <==> s != []
    ensures s != [] ==> (IsWhitespace(r[0]) <==> IsWhitespace(s[0]))
    decreases |s|
  {
    if s == [] then []
    else if IsWhitespace(s[0]) then [' '] + CollapseWhitespace(TrimStart(s))
    else [s[0]] + CollapseWhitespace(s[1..])
  }

  lemma SingleSpacedTail(s: string)
    requires s != [] && SingleSpaced(s)
    ensures SingleSpaced(s[1..])
    ensures IsWhitespace(s[0]) ==> s[0] == ' ' && (|s| > 1 ==> !IsWhitespace(s[1]))
  {
    assert forall k :: 0 <= k < |s| - 1 ==> s[1..][k] == s[k + 1];
  }

  /** A string that is already single-spaced has nothing to collapse. */
  lemma {:induction false} CollapseSingleSpaced(s: string)
    requires SingleSpaced(s)
    ensures CollapseWhitespace(s) == s
    decreases |s|
  {
    if s != [] {
      SingleSpacedTail(s);
      CollapseSingleSpaced(s[1..]);
      assert s == [s[0]] + s[1..];
      if IsWhitespace(s[0]) {
        TrimStartOfTrimmed(s[1..]);
        assert TrimStart(s) == s[1..];
      }
    }
  }

  /** `.replace(/[<>]/g, '')`. */
  function RemoveAngleBrackets(s: string): (r: string)
    ensures |r| <= |s|
    ensures NoAngleBrackets(r)
    ensures NoAngleBrackets(s) ==> r == s
  {
    if s == [] then []
    else if s[0] == '<' || s[0] == '>' then RemoveAngleBrackets(s[1..])
    else [s[0]] + RemoveAngleBrackets(s[1..])
  }

  /** `sanitizeRoomName`: trim, collapse whitespace runs, drop angle brackets. */
  function SanitizeRoomName(name: string): (r: string)
    ensures |r| <= |name|
    ensures NoAngleBrackets(r)
  {
    RemoveAngleBrackets(CollapseWhitespace(Trim(name)))
  }

  /** A name that is already clean comes back unchanged. */
  lemma SanitizeRoomNameKeepsCleanName(name: string)
    requires NoWhitespaceAtEnds(name) && SingleSpaced(name) && NoAngleBrackets(name)
    ensures SanitizeRoomName(name) == name
  {
    TrimOfTrimmed(name);
    CollapseSingleSpaced(name);
  }

  /** The number of newlines `s` starts with. */
  function LeadingNewlines(s: string): (n: nat)
    ensures n <= |s|
    ensures forall k :: 0 <= k < n ==> s[k] == '\n'
    ensures n < |s| ==> s[n] != '\n'
  {
    if s != [] && s[0] == '\n' then 1 + LeadingNewlines(s[1..]) else 0
  }

  predicate NoTripleNewline(s: string) {
    forall k :: 0 <= k < |s| - 2 ==> !(s[k] == '\n' && s[k + 1] == '\n' && s[k + 2] == '\n')
  }

  lemma NoTripleNewlineSuffix(s: string, m: nat)
    requires m <= |s| && NoTripleNewline(s)
    ensures NoTripleNewline(s[m..])
  {
    assert forall k :: 0 <= k < |s| - m ==> s[m..][k] == s[m + k];
  }

  lemma NoTripleNewlineCons(c: char, rest: string)
    requires c != '\n' && NoTripleNewline(rest)
    ensures NoTripleNewline([c] + rest)
  {
    var r := [c] + rest;
    forall k | 0 <= k < |r| - 2
      ensures !(r[k] == '\n' && r[k + 1] == '\n' && r[k + 2] == '\n')
    {
      if k > 0 {
        assert r[k] == rest[k - 1] && r[k + 1] == rest[k] && r[k + 2] == rest[k + 1];
      }
    }
  }

  /** At most two newlines followed by text that does not start with one
      leave no run of three. */
  lemma ShortRunThenRest(run: string, rest: string)
    requires |run| <= 2 && forall k :: 0 <= k < |run| ==> run[k] == '\n'
    requires NoTripleNewline(rest) && (rest == [] || rest[0] != '\n')
    ensures NoTripleNewline(run + rest)
  {
    var r := run + rest;
    forall k | 0 <= k < |r| - 2
      ensures !(r[k] == '\n' && r[k + 1] == '\n' && r[k + 2] == '\n')
    {
      if k >= |run| {
        assert r[k] == rest[k - |run|] && r[k + 1] == rest[k + 1 - |run|] && r[k + 2] == rest[k + 2 - |run|];
      } else {
        assert r[|run|] == rest[0];
      }
    }
  }

  lemma LongRunStartsTriple(s: string)
    requires LeadingNewlines(s) >= 3
    ensures |s| >= 3 && s[0] == '\n' && s[1] == '\n' && s[2] == '\n'
  {
  }

  /** In a string without three newlines in a row, the leading run is short
      and the rest of the string has no such run either. */
  lemma ShortLeadingRun(s: string)
    requires NoTripleNewline(s)
    ensures LeadingNewlines(s) < 3
    ensures NoTripleNewline(s[LeadingNewlines(s)..])
    ensures s[..LeadingNewlines(s)] + s[LeadingNewlines(s)..] == s
  {
    if LeadingNewlines(s) >= 3 {
      LongRunStartsTriple(s);
      assert false;
    }
    NoTripleNewlineSuffix(s, LeadingNewlines(s));
  }

  /** `.replace(/\n{3,}/g, '\n\n')`: each run of three or more newlines
      becomes two, and a string without such a run is unchanged. */
  function CollapseNewlines(s: string): (r: string)
    ensures |r| <= |s|
    ensures NoTripleNewline(r)
    ensures (r != [] && r[0] == '\n') <==> (s != [] && s[0] == '\n')
    ensures NoTripleNewline(s) ==> r == s
    decreases |s|
  {
    if s == [] then []
    else if s[0] == '\n' then
      var n := LeadingNewlines(s);
      var run := if n >= 3 then "\n\n" else s[..n];
      var rest := CollapseNewlines(s[n..]);
      assert forall k :: 0 <= k < |run| ==> run[k] == '\n';
      ShortRunThenRest(run, rest);
      assert NoTripleNewline(s) ==> run + rest == s by {
        if NoTripleNewline(s) {
          ShortLeadingRun(s);
        }
      }
      run + rest
    else
      var rest := CollapseNewlines(s[1..]);
      NoTripleNewlineCons(s[0], rest);
      assert NoTripleNewline(s) ==> [s[0]] + rest == s by {
        if NoTripleNewline(s) {
          NoTripleNewlineSuffix(s, 1);
        }
      }
      [s[0]] + rest
  }

  /** The position of the first `>` in `s`, if any. */
  function FirstClose(s: string): (j: int)
    ensures -1 <= j < |s|
    ensures j == -1 ==> forall k :: 0 <= k < |s| ==> s[k] != '>'
    ensures j >= 0 ==> s[j] == '>' && forall k :: 0 <= k < j ==> s[k] != '>'
  {
    if s == [] then -1
    else if s[0] == '>' then 0
    else var j := FirstClose(s[1..]); if j == -1 then -1 else j + 1
  }

  /** No `<` is followed, anywhere later, by a `>`. */
  predicate NoTagLeft(s: string) {
    forall i, j :: 0 <= i < j < |s| && s[i] == '<' ==> s[j] != '>'
  }

  lemma NoTagLeftTail(s: string)
    requires s != [] && NoTagLeft(s)
    ensures NoTagLeft(s[1..])
  {
    forall i, j | 0 <= i < j < |s| - 1 && s[1..][i] == '<'
      ensures s[1..][j] != '>'
    {
      assert s[1..][i] == s[i + 1] && s[1..][j] == s[j + 1];
    }
  }

  /** `.replace(/<[^>]*>/g, '')`: every `<` that has a `>` somewhere after it
      is removed together with everything up to and including the first such
      `>`. A `<` with no `>` after it ends the matching, and the rest of the
      string is kept; a string in which the expression matches nowhere is
      unchanged. */
  function StripTags(s: string): (r: string)
    ensures |r| <= |s|
    ensures NoTagLeft(r)
    ensures NoTagLeft(s) ==> r == s
    decreases |s|
  {
    if s == [] then []
    else if s[0] == '<' then
      var j := FirstClose(s);
      assert NoTagLeft(s) ==> j == -1;
      if j == -1 then s else StripTags(s[j + 1..])
    else
      var rest := StripTags(s[1..]);
      assert NoTagLeft(s) ==> [s[0]] + rest == s by {
        if NoTagLeft(s) {
          NoTagLeftTail(s);
          assert [s[0]] + s[1..] == s;
        }
      }
      assert NoTagLeft([s[0]] + rest) by {
        forall i, j | 0 <= i < j < 1 + |rest| && ([s[0]] + rest)[i] == '<'
          ensures ([s[0]] + rest)[j] != '>'
        {
          assert i > 0;
          assert ([s[0]] + rest)[i] == rest[i - 1] && ([s[0]] + rest)[j] == rest[j - 1];
        }
      }
      [s[0]] + rest
  }

  /** `sanitizeDescription`: trim, shorten newline runs, strip tags. */
  function SanitizeDescription(description: string): (r: string)
    ensures |r| <= |description|
    ensures NoTagLeft(r)
  {
    StripTags(CollapseNewlines(Trim(description)))
  }

  /** A description already trimmed, without three newlines in a row and
      without a tag comes back unchanged. */
  lemma SanitizeDescriptionKeepsCleanText(description: string)
    requires NoWhitespaceAtEnds(description) && NoTripleNewline(description) && NoTagLeft(description)
    ensures SanitizeDescription(description) == description
  {
    TrimOfTrimmed(description);
  }

  /** `.replace(/\0/g, '')`. */
  function RemoveNul(s: string): (r: string)
    ensures |r| <= |s|
    ensures forall k :: 0 <= k < |r| ==> r[k] != '\0'
    ensures (forall k :: 0 <= k < |s| ==> s[k] != '\0') ==> r == s
  {
    if s == [] then []
    else if s[0] == '\0' then RemoveNul(s[1..])
    else [s[0]] + RemoveNul(s[1..])
  }

  /** `sanitizeText`: trim and drop the null characters. */
  function SanitizeText(text: string): (r: string)
    ensures |r| <= |text|
    ensures forall k :: 0 <= k < |r| ==> r[k] != '\0'
  {
    RemoveNul(Trim(text))
  }

  /** Text already trimmed and without NUL characters comes back unchanged. */
  lemma SanitizeTextKeepsCleanText(text: string)
    requires NoWhitespaceAtEnds(text) && forall k :: 0 <= k < |text| ==> text[k] != '\0'
    ensures SanitizeText(text) == text
  {
    TrimOfTrimmed(text);
  }
}
