/** The free-text SMS parser: a message "LOCATION ROUTE" becomes a location and
    an upper-cased route code, or nothing at all.

    The Python code normalises whitespace with `' '.join(message.strip().split())`
    and then searches the regular expression
    `\b(\d+[A-Za-z]?|\d+[A-Za-z]\d*)\s*$`. Here the search is an explicit scan
    backwards over the trailing run of word characters, and `RegexMatch` below
    states the regular expression's own meaning so that the two can be proved to
    agree. Character classes are the ASCII ones. */
module SmsParser {
  import opened Wrappers
  import opened Text

  /** A successful parse: both parts are present and non-empty. */
  datatype Request = Request(location: string, route: string)

  // ---------------------------------------------------------------- whitespace

  /** Length of the leading run of non-whitespace characters. */
  function WordLength(s: string): (k: nat)
    ensures k <= |s| && NoSpace(s[..k])
    ensures k < |s| ==> IsSpace(s[k])
  {
    if s == [] || IsSpace(s[0]) then 0 else 1 + WordLength(s[1..])
  }

  /** `s.split()`: the maximal runs of non-whitespace characters, in order. */
  function Words(s: string): (ws: seq<string>)
    ensures forall i :: 0 <= i < |ws| ==> ws[i] != [] && NoSpace(ws[i])
    decreases |s|
  {
    if s == [] then []
    else if IsSpace(s[0]) then Words(s[1..])
    else
      var k := WordLength(s);
      [s[..k]] + Words(s[k..])
  }

  /** Text in the form `' '.join(words)` produces: no whitespace other than
      single spaces between non-space characters. */
  predicate IsNormalized(m: string) {
    && (m == [] || (!IsSpace(m[0]) && !IsSpace(m[|m| - 1])))
    && (forall i :: 0 <= i < |m| && IsSpace(m[i]) ==> m[i] == ' ')
    && (forall i :: 0 <= i < |m| - 1 ==> !DoubleSpaceAt(m, i))
  }

  predicate DoubleSpaceAt(m: string, i: int)
    requires 0 <= i < |m| - 1
  {
    m[i] == ' ' && m[i + 1] == ' '
  }

  predicate ValidWords(ws: seq<string>) {
    forall i :: 0 <= i < |ws| ==> ws[i] != [] && NoSpace(ws[i])
  }

  /** `' '.join(ws)`. */
  function Join(ws: seq<string>): (m: string)
    requires ValidWords(ws)
    ensures IsNormalized(m)
    ensures m == [] <==> ws == []
  {
    if ws == [] then []
    else if |ws| == 1 then ws[0]
    else
      var rest := Join(ws[1..]);
      var m := ws[0] + " " + rest;
      assert forall i :: 0 <= i < |ws[0]| ==> m[i] == ws[0][i];
      assert m[|ws[0]|] == ' ';
      assert forall i :: |ws[0]| < i < |m| ==> m[i] == rest[i - |ws[0]| - 1];
      forall i | 0 <= i < |m| - 1 ensures !DoubleSpaceAt(m, i) {
        if i > |ws[0]| { assert !DoubleSpaceAt(rest, i - |ws[0]| - 1); }
      }
      m
  }

  /** The normalised message: `' '.join(message.strip().split())`. */
  function Normalize(message: string): (m: string)
    ensures IsNormalized(m)
  {
    Join(Words(Strip(message)))
  }

  lemma {:induction false} WordLengthOfWord(w: string, rest: string)
    requires NoSpace(w)
    requires rest == [] || IsSpace(rest[0])
    ensures WordLength(w + rest) == |w|
  {
    if w != [] {
      assert (w + rest)[1..] == w[1..] + rest;
      WordLengthOfWord(w[1..], rest);
    }
  }

  lemma {:induction false} WordLengthAppend(s: string, t: string)
    requires WordLength(s) < |s|
    ensures WordLength(s + t) == WordLength(s)
  {
    if !IsSpace(s[0]) {
      assert (s + t)[1..] == s[1..] + t;
      WordLengthAppend(s[1..], t);
    }
  }

  /** The first word of a message that starts with one. */
  lemma WordsOfWordThen(w: string, rest: string)
    requires w != [] && NoSpace(w)
    requires rest == [] || IsSpace(rest[0])
    ensures Words(w + rest) == [w] + Words(rest)
  {
    var s := w + rest;
    WordLengthOfWord(w, rest);
    assert s[..|w|] == w;
    assert s[|w|..] == rest;
  }

  /** A leading whitespace character is dropped. */
  lemma WordsOfSpaceThen(c: char, rest: string)
    requires IsSpace(c)
    ensures Words([c] + rest) == Words(rest)
  {
    assert ([c] + rest)[1..] == rest;
  }

  /** Splitting undoes joining. */
  lemma {:induction false} WordsOfJoin(ws: seq<string>)
    requires ValidWords(ws)
    ensures Words(Join(ws)) == ws
  {
    if |ws| == 1 {
      WordsOfWordThen(ws[0], []);
      assert ws[0] + [] == ws[0];
    } else if |ws| > 1 {
      var rest := Join(ws[1..]);
      assert ws[0] + " " + rest == ws[0] + ([' '] + rest);
      WordsOfWordThen(ws[0], [' '] + rest);
      WordsOfSpaceThen(' ', rest);
      WordsOfJoin(ws[1..]);
    }
  }

  /** Leading whitespace does not change the words. */
  lemma {:induction false} WordsSkipLeading(ws: string, t: string)
    requires AllSpace(ws)
    ensures Words(ws + t) == Words(t)
  {
    if ws != [] {
      assert ws + t == [ws[0]] + (ws[1..] + t);
      WordsOfSpaceThen(ws[0], ws[1..] + t);
      WordsSkipLeading(ws[1..], t);
    } else {
      assert ws + t == t;
    }
  }

  /** Trailing whitespace does not change the words. */
  lemma {:induction false} WordsSkipTrailing(s: string, ws: string)
    requires AllSpace(ws)
    ensures Words(s + ws) == Words(s)
    decreases |s|
  {
    if s == [] {
      assert s + ws == ws + [];
      WordsSkipLeading(ws, []);
    } else if IsSpace(s[0]) {
      assert s + ws == [s[0]] + (s[1..] + ws);
      assert s == [s[0]] + s[1..];
      WordsOfSpaceThen(s[0], s[1..] + ws);
      WordsOfSpaceThen(s[0], s[1..]);
      WordsSkipTrailing(s[1..], ws);
    } else {
      var k := WordLength(s);
      var w, tail := s[..k], s[k..];
      assert s == w + tail;
      assert s + ws == w + (tail + ws);
      if k < |s| {
        WordsOfWordThen(w, tail);
        WordsOfWordThen(w, tail + ws);
        WordsSkipTrailing(tail, ws);
      } else {
        assert tail == [] && s == w && w + [] == w;
        WordsOfWordThen(w, []);
        WordsOfWordThen(w, ws);
        WordsSkipLeading(ws, []);
        assert ws + [] == ws;
      }
    }
  }

  /** A run of whitespace splits words exactly as a single space does. */
  lemma {:induction false} WordsCollapseRun(a: string, ws: string, b: string)
    requires ws != [] && AllSpace(ws)
    ensures Words(a + ws + b) == Words(a + " " + b)
    decreases |a|
  {
    if a == [] {
      assert a + ws + b == ws + b;
      assert a + " " + b == [' '] + b;
      WordsSkipLeading(ws, b);
      WordsOfSpaceThen(' ', b);
    } else if IsSpace(a[0]) {
      assert a + ws + b == [a[0]] + (a[1..] + ws + b);
      assert a + " " + b == [a[0]] + (a[1..] + " " + b);
      WordsOfSpaceThen(a[0], a[1..] + ws + b);
      WordsOfSpaceThen(a[0], a[1..] + " " + b);
      WordsCollapseRun(a[1..], ws, b);
    } else {
      var k := WordLength(a);
      var w, tail := a[..k], a[k..];
      assert a == w + tail;
      assert a + ws + b == w + (tail + ws + b);
      assert a + " " + b == w + (tail + " " + b);
      if k < |a| {
        WordsOfWordThen(w, tail + ws + b);
        WordsOfWordThen(w, tail + " " + b);
        WordsCollapseRun(tail, ws, b);
      } else {
        assert tail == [];
        assert tail + ws + b == ws + b;
        assert tail + " " + b == [' '] + b;
        WordsOfWordThen(w, ws + b);
        WordsOfWordThen(w, [' '] + b);
        WordsSkipLeading(ws, b);
        WordsOfSpaceThen(' ', b);
      }
    }
  }

  /** Whitespace at both ends does not change the words. */
  lemma WordsIgnoreEnds(lead: string, x: string, trail: string)
    requires AllSpace(lead) && AllSpace(trail)
    ensures Words(lead + x + trail) == Words(x)
  {
    assert lead + x + trail == lead + (x + trail);
    WordsSkipLeading(lead, x + trail);
    WordsSkipTrailing(x, trail);
  }

  /** Stripping before splitting changes nothing. */
  lemma WordsOfStrip(s: string)
    ensures Words(Strip(s)) == Words(s)
  {
    var lead, trail := StripSplits(s);
    WordsIgnoreEnds(lead, Strip(s), trail);
  }

  /** Normalising is idempotent. */
  lemma NormalizeIdempotent(s: string)
    ensures Normalize(Normalize(s)) == Normalize(s)
  {
    var m := Normalize(s);
    StripOfTrimmed(m);
    WordsOfJoin(Words(Strip(s)));
  }

  // ---------------------------------------------------------------- route token

  /** Start of the maximal run of word characters ending at `j`, found by
      scanning backwards. */
  function RunStart(m: string, j: nat): (r: nat)
    requires j <= |m|
    ensures r <= j
    ensures forall k :: r <= k < j ==> IsWordChar(m[k])
    ensures r == 0 || !IsWordChar(m[r - 1])
  {
    if j > 0 && IsWordChar(m[j - 1]) then RunStart(m, j - 1) else j
  }

  /** Length of the leading run of ASCII digits. */
  function LeadingDigits(t: string): (d: nat)
    ensures d <= |t| && AllDigits(t[..d])
    ensures d < |t| ==> !IsDigit(t[d])
  {
    if t != [] && IsDigit(t[0]) then 1 + LeadingDigits(t[1..]) else 0
  }

  /** A route code: digits, then optionally one ASCII letter followed by digits. */
  predicate IsRouteToken(t: string) {
    var d := LeadingDigits(t);
    d >= 1 && (d == |t| || (IsAsciiLetter(t[d]) && AllDigits(t[d + 1..])))
  }

  /** A route code as returned: a route token with no lower-case letter. */
  predicate IsRouteCode(r: string) {
    IsRouteToken(r) && forall i :: 0 <= i < |r| ==> !('a' <= r[i] <= 'z')
  }

  // ---------------------------------------------------------------- parse

  /** The parse of an already normalised message. */
  function ParseNormalized(m: string): (r: Option<Request>)
    ensures r.Some? ==> r.value.location != [] && r.value.route != []
    ensures r.Some? ==> |r.value.location| + |r.value.route| <= |m|
  {
    var j := RunStart(m, |m|);
    var token := m[j..];
    if !IsRouteToken(token) then None
    else
      var location := Strip(m[..j]);
      if location == [] then None else Some(Request(location, Upper(token)))
  }

  /** `parse_sms`: None for an empty message and whenever the route or the
      location is missing; otherwise the location and the upper-cased route. */
  function ParseSms(message: string): (r: Option<Request>)
    ensures message == [] ==> r == None
    ensures r.Some? ==> r.value.location != [] && r.value.route != []
    ensures r.Some? ==> IsRouteCode(r.value.route)
    ensures r.Some? ==> IsNormalized(r.value.location)
  {
    if message == [] then None
    else
      var r := ParseNormalized(Normalize(message));
      if r.Some? then
        var m := Normalize(message);
        var j := RunStart(m, |m|);
        UpperRouteCode(m[j..]);
        LocationNormalized(m, j);
        r
      else r
  }

  lemma UpperKeepsDigits(t: string)
    ensures LeadingDigits(Upper(t)) == LeadingDigits(t)
    ensures forall i :: 0 <= i < |t| ==> (IsDigit(Upper(t)[i]) <==> IsDigit(t[i]))
    ensures forall i :: 0 <= i < |t| ==> (IsAsciiLetter(Upper(t)[i]) <==> IsAsciiLetter(t[i]))
  {
    var u := Upper(t);
    var d := LeadingDigits(t);
    assert forall i :: 0 <= i < d ==> u[..d][i] == u[i] && t[..d][i] == t[i];
    DigitsBound(u, d);
  }

  lemma UpperRouteCode(t: string)
    requires IsRouteToken(t)
    ensures IsRouteCode(Upper(t))
  {
    UpperKeepsDigits(t);
    var u := Upper(t);
    var d := LeadingDigits(t);
    if d < |t| {
      assert forall i :: d + 1 <= i < |t| ==> u[d + 1..][i - d - 1] == u[i] && t[d + 1..][i - d - 1] == t[i];
    }
  }

  /** A prefix of normalised text that does not end in a space is normalised. */
  lemma NormalizedPrefix(m: string, k: nat)
    requires IsNormalized(m) && k <= |m|
    requires k == 0 || !IsSpace(m[k - 1])
    ensures IsNormalized(m[..k])
  {
    forall i | 0 <= i < k - 1 ensures !DoubleSpaceAt(m[..k], i) {
      assert !DoubleSpaceAt(m, i);
    }
  }

  /** The location is the normalised text before the token, less one space. */
  lemma LocationSplit(m: string, j: nat) returns (sep: string)
    requires IsNormalized(m) && j <= |m|
    ensures m[..j] == Strip(m[..j]) + sep
    ensures sep == [] || sep == " "
    ensures Strip(m[..j]) == m[..|Strip(m[..j])|]
  {
    var p := m[..j];
    assert TrimLeft(p) == p;
    var r := Strip(p);
    assert r == p[..|r|];
    sep := p[|r|..];
    assert AllSpace(sep);
    assert |sep| >= 2 ==> DoubleSpaceAt(m, |r|) by {
      if |sep| >= 2 { assert m[|r|] == sep[0] && m[|r| + 1] == sep[1]; }
    }
    if |sep| == 1 {
      assert sep[0] == m[|r|];
      assert sep == [' '];
    }
    assert p == r + sep;
  }

  lemma LocationNormalized(m: string, j: nat)
    requires IsNormalized(m) && j <= |m|
    ensures IsNormalized(Strip(m[..j]))
  {
    var sep := LocationSplit(m, j);
    PrefixNormalized(m, Strip(m[..j]));
  }

  /** A prefix of normalised text that does not end in whitespace is normalised. */
  lemma PrefixNormalized(m: string, r: string)
    requires IsNormalized(m) && |r| <= |m| && r == m[..|r|]
    requires r == [] || !IsSpace(r[|r| - 1])
    ensures IsNormalized(r)
  {
    assert r != [] ==> m[|r| - 1] == r[|r| - 1];
    NormalizedPrefix(m, |r|);
  }

  /** A suffix of normalised text that does not start with whitespace is
      normalised. */
  lemma NormalizedSuffix(m: string, k: nat)
    requires IsNormalized(m) && k <= |m|
    requires k == |m| || !IsSpace(m[k])
    ensures IsNormalized(m[k..])
  {
    var t := m[k..];
    assert forall i :: 0 <= i < |t| ==> t[i] == m[k + i];
    forall i | 0 <= i < |t| - 1 ensures !DoubleSpaceAt(t, i) {
      assert !DoubleSpaceAt(m, k + i);
    }
  }

  lemma DecomposeNormalized(m: string) returns (sep: string, token: string)
    requires IsNormalized(m)
    requires ParseNormalized(m).Some?
    ensures m == ParseNormalized(m).value.location + sep + token
    ensures sep == [] || sep == " "
    ensures token == m[RunStart(m, |m|)..] && IsRouteToken(token)
    ensures Upper(token) == ParseNormalized(m).value.route
  {
    var j := RunStart(m, |m|);
    token := m[j..];
    sep := LocationSplit(m, j);
    var r := ParseNormalized(m).value;
    assert r == Request(Strip(m[..j]), Upper(token));
    SliceThree(m, 0, j);
    assert m[0..] == m;
  }

  /** On success the normalised message is the location, at most one space, and
      the route exactly as typed, which is the whole trailing run of word
      characters. */
  lemma ParseDecomposition(message: string) returns (sep: string, token: string)
    requires ParseSms(message).Some?
    ensures Normalize(message) == ParseSms(message).value.location + sep + token
    ensures sep == [] || sep == " "
    ensures token == Normalize(message)[RunStart(Normalize(message), |Normalize(message)|)..]
    ensures IsRouteToken(token) && Upper(token) == ParseSms(message).value.route
  {
    var m := Normalize(message);
    assert ParseSms(message) == ParseNormalized(m);
    sep, token := DecomposeNormalized(m);
  }

  // ---------------------------------------------------------------- the regex

  /** `\b` at position i of m. */
  ghost predicate WordBoundary(m: string, i: int)
    requires 0 <= i <= |m|
  {
    (0 < i && IsWordChar(m[i - 1])) != (i < |m| && IsWordChar(m[i]))
  }

  /** The first alternative `\d+[A-Za-z]?`. */
  ghost predicate FirstAlternative(t: string) {
    exists k :: 1 <= k <= |t| && AllDigits(t[..k]) && (k == |t| || (k + 1 == |t| && IsAsciiLetter(t[k])))
  }

  /** The second alternative `\d+[A-Za-z]\d*`. */
  ghost predicate SecondAlternative(t: string) {
    exists k :: 1 <= k < |t| && AllDigits(t[..k]) && IsAsciiLetter(t[k]) && AllDigits(t[k + 1..])
  }

  /** The regular expression matches m with its group spanning m[i..e]: a word
      boundary before the group, one of the alternatives, then `\s*$`. */
  ghost predicate RegexMatch(m: string, i: int, e: int) {
    && 0 <= i <= e <= |m|
    && WordBoundary(m, i)
    && (FirstAlternative(m[i..e]) || SecondAlternative(m[i..e]))
    && AllSpace(m[e..])
  }

  /** The two alternatives together are exactly the route tokens. */
  lemma AlternativesAreRouteTokens(t: string)
    ensures FirstAlternative(t) || SecondAlternative(t) <==> IsRouteToken(t)
  {
    var d := LeadingDigits(t);
    if IsRouteToken(t) {
      if d == |t| {
        assert t[..d] == t;
        assert FirstAlternative(t);
      } else {
        assert AllDigits(t[..d]) && IsAsciiLetter(t[d]);
        if d + 1 == |t| {
          assert FirstAlternative(t);
        } else {
          assert SecondAlternative(t);
        }
      }
    }
    if FirstAlternative(t) {
      var k :| 1 <= k <= |t| && AllDigits(t[..k]) && (k == |t| || (k + 1 == |t| && IsAsciiLetter(t[k])));
      DigitsBound(t, k);
      assert d == k by { assert k < |t| ==> t[k] == t[k]; }
      if k < |t| { assert t[d + 1..] == []; }
    }
    if SecondAlternative(t) {
      var k :| 1 <= k < |t| && AllDigits(t[..k]) && IsAsciiLetter(t[k]) && AllDigits(t[k + 1..]);
      DigitsBound(t, k);
    }
  }

  /** A digit prefix followed by a non-digit is the whole leading digit run. */
  lemma DigitsBound(t: string, k: nat)
    requires k <= |t| && AllDigits(t[..k])
    requires k < |t| ==> !IsDigit(t[k])
    ensures LeadingDigits(t) == k
  {
    if k > 0 {
      assert t[1..][..k - 1] == t[..k][1..];
      DigitsBound(t[1..], k - 1);
    }
  }

  /** The run of word characters ending at |m| starts at exactly one place. */
  lemma RunStartUnique(m: string, i: nat)
    requires i <= |m|
    requires forall k :: i <= k < |m| ==> IsWordChar(m[k])
    requires i == 0 || !IsWordChar(m[i - 1])
    ensures RunStart(m, |m|) == i
  {
  }

  /** A group made of route-token characters ends in the normalised text only
      at its end, and starts only where the trailing word run starts. */
  lemma MatchIsTrailingRun(m: string, i: int, e: int)
    requires IsNormalized(m)
    requires RegexMatch(m, i, e)
    ensures i == RunStart(m, |m|) && e == |m|
  {
    assert e == |m|;
    var t := m[i..e];
    AlternativesAreRouteTokens(t);
    var d := LeadingDigits(t);
    forall k | i <= k < |m| ensures IsWordChar(m[k]) {
      assert m[k] == t[k - i];
      if k - i < d { assert t[..d][k - i] == t[k - i]; }
      else if k - i > d { assert t[d + 1..][k - i - d - 1] == t[k - i]; }
    }
    assert IsDigit(t[..d][0]);
    RunStartUnique(m, i);
  }

  /** On normalised text the regular expression matches exactly when the trailing
      run of word characters is a route token, and then its only match is that
      run, reaching the end of the text. So the backward scan finds what
      `re.search` finds. */
  lemma RegexAgreesWithScan(m: string)
    requires IsNormalized(m)
    ensures forall i, e :: RegexMatch(m, i, e) ==> i == RunStart(m, |m|) && e == |m|
    ensures (exists i, e :: RegexMatch(m, i, e)) <==> IsRouteToken(m[RunStart(m, |m|)..])
  {
    MatchesAreTheRun(m);
    RunMatchesWhenRoute(m);
    MatchMeansRoute(m);
  }

  lemma MatchesAreTheRun(m: string)
    requires IsNormalized(m)
    ensures forall i, e :: RegexMatch(m, i, e) ==> i == RunStart(m, |m|) && e == |m|
  {
    forall i, e | RegexMatch(m, i, e) ensures i == RunStart(m, |m|) && e == |m| {
      MatchIsTrailingRun(m, i, e);
    }
  }

  lemma RunMatchesWhenRoute(m: string)
    requires IsNormalized(m)
    ensures IsRouteToken(m[RunStart(m, |m|)..]) ==> exists i, e :: RegexMatch(m, i, e)
  {
    var j := RunStart(m, |m|);
    if IsRouteToken(m[j..]) {
      RegexMatchesAt(m, j);
    }
  }

  lemma MatchMeansRoute(m: string)
    requires IsNormalized(m)
    ensures (exists i, e :: RegexMatch(m, i, e)) ==> IsRouteToken(m[RunStart(m, |m|)..])
  {
    if exists i, e :: RegexMatch(m, i, e) {
      var i, e :| RegexMatch(m, i, e);
      MatchOfRouteToken(m, i, e);
    }
  }

  /** A route token that starts after a non-word character and reaches the end
      is a match of the expression. */
  lemma RegexMatchesAt(m: string, j: nat)
    requires j <= |m| && (j == 0 || !IsWordChar(m[j - 1]))
    requires IsRouteToken(m[j..])
    ensures RegexMatch(m, j, |m|)
  {
    var t := m[j..];
    AlternativesAreRouteTokens(t);
    RouteTokenChars(t);
    assert t[0] == m[j];
    assert WordBoundary(m, j);
    assert m[j..|m|] == t;
    assert AllSpace(m[|m|..]) by { assert m[|m|..] == []; }
  }

  /** Any match's group is a route token which is the trailing word run. */
  lemma MatchOfRouteToken(m: string, i: int, e: int)
    requires IsNormalized(m) && RegexMatch(m, i, e)
    ensures IsRouteToken(m[RunStart(m, |m|)..])
  {
    MatchIsTrailingRun(m, i, e);
    assert m[i..e] == m[RunStart(m, |m|)..];
    AlternativesAreRouteTokens(m[i..e]);
  }

  // ---------------------------------------------------------------- whitespace insensitivity

  /** The parse depends on the message only through its words. */
  lemma ParseThroughWords(message: string)
    ensures ParseSms(message) == ParseNormalized(Join(Words(message)))
  {
    if message != [] { WordsOfStrip(message); }
  }

  /** A run of whitespace parses like a single space. */
  lemma ParseCollapsesRuns(a: string, ws: string, b: string)
    requires ws != [] && AllSpace(ws)
    ensures ParseSms(a + ws + b) == ParseSms(a + " " + b)
  {
    ParseThroughWords(a + ws + b);
    ParseThroughWords(a + " " + b);
    WordsCollapseRun(a, ws, b);
  }

  /** Leading and trailing whitespace do not change the parse. */
  lemma ParseIgnoresEnds(lead: string, s: string, trail: string)
    requires AllSpace(lead) && AllSpace(trail)
    ensures ParseSms(lead + s + trail) == ParseSms(s)
  {
    ParseThroughWords(lead + s + trail);
    ParseThroughWords(s);
    WordsIgnoreEnds(lead, s, trail);
  }

  // ---------------------------------------------------------------- examples

  /** Normalised text is its own normal form. */
  lemma NormalizedIsFixed(m: string)
    requires IsNormalized(m)
    ensures Normalize(m) == m
  {
    StripOfTrimmed(m);
    JoinWordsOfNormalized(m);
  }

  lemma {:induction false} JoinWordsOfNormalized(m: string)
    requires IsNormalized(m)
    ensures ValidWords(Words(m)) && Join(Words(m)) == m
    decreases |m|
  {
    if m != [] {
      var k := WordLength(m);
      var w := m[..k];
      if k == |m| {
        assert m == w + [];
        WordsOfWordThen(w, []);
      } else {
        var rest := NormalizedAfterWord(m);
        JoinWordsOfNormalized(rest);
        WordsOfWordThen(w, [' '] + rest);
        WordsOfSpaceThen(' ', rest);
        JoinCons(w, Words(rest));
      }
    }
  }

  /** Joining a word before more words puts one space between them. */
  lemma JoinCons(w: string, ws: seq<string>)
    requires w != [] && NoSpace(w) && ValidWords(ws) && ws != []
    ensures ValidWords([w] + ws)
    ensures Join([w] + ws) == w + ([' '] + Join(ws))
  {
    var vs := [w] + ws;
    assert vs[0] == w && vs[1..] == ws;
  }

  /** After the first word of normalised text that has more, comes one space
      and normalised text again. */
  lemma NormalizedAfterWord(m: string) returns (rest: string)
    requires IsNormalized(m) && m != [] && WordLength(m) < |m|
    ensures m == m[..WordLength(m)] + ([' '] + rest)
    ensures rest != [] && IsNormalized(rest) && |rest| < |m|
  {
    var k := WordLength(m);
    assert m[k] == ' ';
    assert k < |m| - 1;
    assert !DoubleSpaceAt(m, k);
    rest := m[k + 1..];
    NormalizedSuffix(m, k + 1);
    assert m[k..] == [' '] + rest;
    SplitAt(m, k);
  }

  /** On normalised text the parse is the scan itself. */
  lemma ParseOfNormalized(m: string)
    requires m != [] && IsNormalized(m)
    ensures ParseSms(m) == ParseNormalized(m)
  {
    NormalizedIsFixed(m);
  }

  /** A route token is all word characters and starts with a digit. */
  lemma RouteTokenChars(t: string)
    requires IsRouteToken(t)
    ensures t != [] && IsDigit(t[0])
    ensures forall i :: 0 <= i < |t| ==> IsWordChar(t[i]) && !IsSpace(t[i])
  {
    var d := LeadingDigits(t);
    assert forall i :: 0 <= i < d ==> t[..d][i] == t[i];
    if d < |t| {
      assert forall i :: d + 1 <= i < |t| ==> t[d + 1..][i - d - 1] == t[i];
    }
  }

  /** Every normalised location followed by a space and a route token parses to
      that location and the upper-cased token. */
  lemma ParseOfLocationAndCode(location: string, token: string)
    requires location != [] && IsNormalized(location) && IsRouteToken(token)
    ensures ParseSms(location + " " + token) == Some(Request(location, Upper(token)))
  {
    RouteTokenChars(token);
    var m := location + " " + token;
    var j := LastWordStart(location, token);
    ParseOfNormalized(m);
    RunStartUnique(m, j);
    assert m[j..] == token;
    assert m[..j] == location + [' '];
    StripTrailingSpace(location, ' ');
  }

  /** A message whose last word is not a route token does not parse, whatever
      comes before it: trailing text after a code, or a number glued to letters. */
  lemma ParseOfLocationAndWord(location: string, word: string)
    requires location != [] && IsNormalized(location)
    requires word != [] && (forall i :: 0 <= i < |word| ==> IsWordChar(word[i]))
    requires !IsRouteToken(word)
    ensures ParseSms(location + " " + word) == None
  {
    var m := location + " " + word;
    var j := LastWordStart(location, word);
    ParseOfNormalized(m);
    RunStartUnique(m, j);
    assert m[j..] == word;
  }

  /** A route number alone has no location. */
  lemma ParseOfCodeAlone(token: string)
    requires IsRouteToken(token)
    ensures ParseSms(token) == None
  {
    RouteTokenChars(token);
    assert IsNormalized(token) by {
      forall i | 0 <= i < |token| - 1
        ensures !DoubleSpaceAt(token, i)
      {
      }
    }
    ParseOfNormalized(token);
    RunStartUnique(token, 0);
    assert token[..0] == [];
  }

  /** `location + " " + word` is normalised and its last word starts after
      the space. */
  lemma LastWordStart(location: string, word: string) returns (j: nat)
    requires location != [] && IsNormalized(location)
    requires word != [] && (forall i :: 0 <= i < |word| ==> IsWordChar(word[i]))
    ensures var m := location + " " + word;
      && IsNormalized(m) && j == |location| + 1 && j <= |m|
      && (forall k :: j <= k < |m| ==> IsWordChar(m[k]))
      && !IsWordChar(m[j - 1])
  {
    var m := location + " " + word;
    j := |location| + 1;
    assert forall i :: 0 <= i < |location| ==> m[i] == location[i];
    assert m[|location|] == ' ';
    assert forall i :: j <= i < |m| ==> m[i] == word[i - j];
    forall i | 0 <= i < |m| - 1
      ensures !DoubleSpaceAt(m, i)
    {
      if i < |location| - 1 {
        assert !DoubleSpaceAt(location, i);
      }
    }
  }

  /** A location followed by a route code. */
  lemma ExampleLocationAndRoute()
    ensures ParseSms("MG Road" + " " + "12A") == Some(Request("MG Road", "12A"))
  {
    assert IsNormalized("MG Road");
    assert IsRouteToken("12A");
    ParseOfLocationAndCode("MG Road", "12A");
    UpperOfCode();
  }

  lemma UpperOfCode()
    ensures Upper("12A") == "12A"
  {
  }

  /** Text after the route code leaves no code at the end. */
  lemma ExampleTrailingText()
    ensures ParseSms("12A" + " " + "stop") == None
  {
    assert IsNormalized("12A");
    assert LeadingDigits("stop") == 0;
    ParseOfLocationAndWord("12A", "stop");
  }

  /** A number glued to a word is not a route code: the word boundary fails. */
  lemma ExampleGluedNumber()
    ensures ParseSms("MG" + " " + "Road12") == None
  {
    assert IsNormalized("MG");
    assert LeadingDigits("Road12") == 0;
    ParseOfLocationAndWord("MG", "Road12");
  }

  /** Two letters in the code are one too many. */
  lemma ExampleTwoLetters()
    ensures ParseSms("Central" + " " + "12AB") == None
  {
    assert IsNormalized("Central");
    assert LeadingDigits("12AB") == 2;
    assert "12AB"[3..][0] == 'B';
    ParseOfLocationAndWord("Central", "12AB");
  }

  /** A route number alone has no location. */
  lemma ExampleRouteOnly()
    ensures ParseSms("12") == None
  {
    assert LeadingDigits("12") == 2;
    ParseOfCodeAlone("12");
  }
}
