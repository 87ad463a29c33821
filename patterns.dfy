/** The fixed regular expressions of the scrapers, each written out as an explicit scanner
    over ASCII text, and `re.search` / `re.findall` / "first pattern that matches" on top. */
module Patterns {
  import opened Wrappers
  import opened Text
  import opened Seqs

  datatype CharClass = UpperClass | LetterClass | SpaceClass | DigitClass | NotOpenParen

  predicate InClass(c: char, k: CharClass) {
    match k
    case UpperClass => IsUpper(c)
    case LetterClass => IsLetter(c)
    case SpaceClass => IsSpace(c)
    case DigitClass => IsDigit(c)
    case NotOpenParen => c != '('
  }

  /** The length of the longest run of class-`k` characters starting at `i`. */
  function RunLen(s: string, i: nat, k: CharClass): (n: nat)
    requires i <= |s|
    ensures i + n <= |s|
    ensures forall j :: i <= j < i + n ==> InClass(s[j], k)
    ensures i + n == |s| || !InClass(s[i + n], k)
    decreases |s| - i
  {
    if i < |s| && InClass(s[i], k) then 1 + RunLen(s, i + 1, k) else 0
  }

  /** A whitespace run is never longer than the run of characters other than `(`. */
  lemma {:induction false} SpacesBeforeParen(s: string, i: nat)
    requires i <= |s|
    ensures RunLen(s, i, SpaceClass) <= RunLen(s, i, NotOpenParen)
    decreases |s| - i
  {
    if i < |s| && IsSpace(s[i]) {
      SpacesBeforeParen(s, i + 1);
    }
  }

  function Min(a: nat, b: nat): nat { if a <= b then a else b }

  predicate LitAt(s: string, i: nat, lit: string) {
    i + |lit| <= |s| && s[i..i + |lit|] == lit
  }

  /** `lit`, written in lower case, occurs at `i` when case is ignored. */
  predicate LitAtIgnoringCase(s: string, i: nat, lit: string) {
    i + |lit| <= |s| && Lower(s[i..i + |lit|]) == lit
  }

  predicate DigitsAt(s: string, i: nat, n: nat) {
    i <= |s| && RunLen(s, i, DigitClass) >= n
  }

  /** Four digits, a dash, two digits, a dash, two digits. */
  predicate YmdAt(s: string, i: nat) {
    DigitsAt(s, i, 4) && LitAt(s, i + 4, "-") && DigitsAt(s, i + 5, 2) &&
    LitAt(s, i + 7, "-") && DigitsAt(s, i + 8, 2)
  }

  /** Two digits, a colon, two digits. */
  predicate HmAt(s: string, i: nat) {
    DigitsAt(s, i, 2) && LitAt(s, i + 2, ":") && DigitsAt(s, i + 3, 2)
  }

  /** The fixed patterns of the scrapers. `lo` and `hi` bound a run of letters. */
  datatype Pattern =
    | Word(lo: nat, hi: nat)       // a whole word of lo..hi capitals
    | Dollar(lo: nat, hi: nat)     // `$`, then lo..hi capitals ending a word
    | Paren(lo: nat, hi: nat)      // lo..hi capitals between `(` and `)`
    | Run(lo: nat, hi: nat)        // lo..hi capitals anywhere
    | ListVerb(lo: nat, hi: nat)   // "list", whitespace, lo..hi letters, ignoring case
    | ListName                     // "list", whitespace, the text up to the next `(`, ignoring case
    | DateTime                     // YYYY-MM-DD, whitespace, HH:MM
    | SlashDate                    // DD/DD/DDDD
    | TimeParenUtc                 // HH:MM, whitespace, "(UTC)"
    | AtTimeUtc                    // "at", whitespace, then HH:MM, whitespace, "UTC"
    | WillListOn                   // "will", whitespace, "list", any text on the line, "on", whitespace, YYYY-MM-DD

  /** A match: its group is `s[start..end]`, and a scan for further matches resumes at `next`. */
  datatype Span = Span(start: nat, end: nat, next: nat)

  function Group(s: string, m: Span): string
    requires m.start <= m.end <= |s|
  {
    s[m.start..m.end]
  }

  /** The end of "on", whitespace, YYYY-MM-DD at `p`, ignoring case. */
  function OnDateEnd(s: string, p: nat): (r: Option<nat>)
    requires p <= |s|
    ensures r.Some? ==> p < r.value <= |s|
  {
    if LitAtIgnoringCase(s, p, "on") then
      var w := RunLen(s, p + 2, SpaceClass);
      if 1 <= w && YmdAt(s, p + 2 + w) then Some(p + 12 + w) else None
    else None
  }

  /** A lazy "any text on this line, then a date after "on"": the nearest such date. */
  function LazyOnDate(s: string, p: nat): (r: Option<nat>)
    requires p <= |s|
    ensures r.Some? ==> p < r.value <= |s|
    decreases |s| - p
  {
    match OnDateEnd(s, p)
    case Some(e) => Some(e)
    case None => if p < |s| && s[p] != '\n' then LazyOnDate(s, p + 1) else None
  }

  /** A well-formed match found by a scan standing at `i`. */
  predicate SpanFrom(s: string, i: nat, r: Option<Span>) {
    r.Some? ==> i <= r.value.start <= r.value.end <= r.value.next <= |s| && i < r.value.next
  }

  /** `\b([A-Z]{lo,hi})\b` */
  function MatchWord(lo: nat, hi: nat, s: string, i: nat): (r: Option<Span>)
    requires i <= |s|
    ensures SpanFrom(s, i, r)
  {
    var n := RunLen(s, i, UpperClass);
    if 1 <= lo <= n <= hi && (i == 0 || !IsWordChar(s[i - 1])) &&
       (i + n == |s| || !IsWordChar(s[i + n]))
    then Some(Span(i, i + n, i + n)) else None
  }

  /** `\$([A-Z]{lo,hi})\b` */
  function MatchDollar(lo: nat, hi: nat, s: string, i: nat): (r: Option<Span>)
    requires i <= |s|
    ensures SpanFrom(s, i, r)
  {
    if LitAt(s, i, "$") then
      var n := RunLen(s, i + 1, UpperClass);
      if 1 <= lo <= n <= hi && (i + 1 + n == |s| || !IsWordChar(s[i + 1 + n]))
      then Some(Span(i + 1, i + 1 + n, i + 1 + n)) else None
    else None
  }

  /** `\(([A-Z]{lo,hi})\)` */
  function MatchParen(lo: nat, hi: nat, s: string, i: nat): (r: Option<Span>)
    requires i <= |s|
    ensures SpanFrom(s, i, r)
  {
    if LitAt(s, i, "(") then
      var n := RunLen(s, i + 1, UpperClass);
      if 1 <= lo <= n <= hi && LitAt(s, i + 1 + n, ")")
      then Some(Span(i + 1, i + 1 + n, i + 2 + n)) else None
    else None
  }

  /** `([A-Z]{lo,hi})`: greedy, so the group is at most `hi` of the capitals found. */
  function MatchRun(lo: nat, hi: nat, s: string, i: nat): (r: Option<Span>)
    requires i <= |s|
    ensures SpanFrom(s, i, r)
  {
    var n := RunLen(s, i, UpperClass);
    if 1 <= lo <= hi && lo <= n then Some(Span(i, i + Min(n, hi), i + Min(n, hi))) else None
  }

  /** `list\s+([A-Z]{lo,hi})` under IGNORECASE, where `[A-Z]` takes letters of either case. */
  function MatchListVerb(lo: nat, hi: nat, s: string, i: nat): (r: Option<Span>)
    requires i <= |s|
    ensures SpanFrom(s, i, r)
  {
    if LitAtIgnoringCase(s, i, "list") then
      var w := RunLen(s, i + 4, SpaceClass);
      var g := i + 4 + w;
      var n := RunLen(s, g, LetterClass);
      if 1 <= w && 1 <= lo <= hi && lo <= n then Some(Span(g, g + Min(n, hi), g + Min(n, hi)))
      else None
    else None
  }

  /** `list\s+([^(]+)\s*\(` under IGNORECASE. */
  function MatchListName(s: string, i: nat): (r: Option<Span>)
    requires i <= |s|
    ensures SpanFrom(s, i, r)
  {
    if LitAtIgnoringCase(s, i, "list") then
      var j := i + 4;
      var w := RunLen(s, j, SpaceClass);
      var q := j + RunLen(s, j, NotOpenParen);
      SpacesBeforeParen(s, j);
      if 1 <= w && q < |s| then
        // the name is everything up to the `(`; when only whitespace precedes the `(`,
        // `\s+` backtracks and the name is the last whitespace character
        if j + w < q then Some(Span(j + w, q, q + 1))
        else if 2 <= w then Some(Span(q - 1, q, q + 1))
        else None
      else None
    else None
  }

  /** `\d{4}-\d{2}-\d{2}\s+\d{2}:\d{2}` */
  function MatchDateTime(s: string, i: nat): (r: Option<Span>)
    requires i <= |s|
    ensures SpanFrom(s, i, r)
  {
    if YmdAt(s, i) then
      var w := RunLen(s, i + 10, SpaceClass);
      if 1 <= w && HmAt(s, i + 10 + w) then Some(Span(i, i + 15 + w, i + 15 + w)) else None
    else None
  }

  /** `\d{2}/\d{2}/\d{4}` */
  function MatchSlashDate(s: string, i: nat): (r: Option<Span>)
    requires i <= |s|
    ensures SpanFrom(s, i, r)
  {
    if DigitsAt(s, i, 2) && LitAt(s, i + 2, "/") && DigitsAt(s, i + 3, 2) &&
       LitAt(s, i + 5, "/") && DigitsAt(s, i + 6, 4)
    then Some(Span(i, i + 10, i + 10)) else None
  }

  /** `\d{2}:\d{2}\s+\(UTC\)` */
  function MatchTimeParenUtc(s: string, i: nat): (r: Option<Span>)
    requires i <= |s|
    ensures SpanFrom(s, i, r)
  {
    if HmAt(s, i) then
      var w := RunLen(s, i + 5, SpaceClass);
      if 1 <= w && LitAt(s, i + 5 + w, "(UTC)") then Some(Span(i, i + 10 + w, i + 10 + w)) else None
    else None
  }

  /** `at\s+(\d{2}:\d{2}\s+UTC)` */
  function MatchAtTimeUtc(s: string, i: nat): (r: Option<Span>)
    requires i <= |s|
    ensures SpanFrom(s, i, r)
  {
    if LitAt(s, i, "at") then
      var w1 := RunLen(s, i + 2, SpaceClass);
      var h := i + 2 + w1;
      if 1 <= w1 && HmAt(s, h) then
        var w2 := RunLen(s, h + 5, SpaceClass);
        if 1 <= w2 && LitAt(s, h + 5 + w2, "UTC") then Some(Span(h, h + 8 + w2, h + 8 + w2)) else None
      else None
    else None
  }

  /** `will\s+list.*?on\s+\d{4}-\d{2}-\d{2}` under IGNORECASE; `.` stops at a newline. */
  function MatchWillListOn(s: string, i: nat): (r: Option<Span>)
    requires i <= |s|
    ensures SpanFrom(s, i, r)
  {
    if LitAtIgnoringCase(s, i, "will") then
      var w := RunLen(s, i + 4, SpaceClass);
      if 1 <= w && LitAtIgnoringCase(s, i + 4 + w, "list") then
        match LazyOnDate(s, i + 8 + w)
        case Some(e) => Some(Span(i, e, e))
        case None => None
      else None
    else None
  }

  /** Whether pattern `p` matches starting exactly at `i`, and where. */
  function Match(p: Pattern, s: string, i: nat): (r: Option<Span>)
    requires i <= |s|
    ensures SpanFrom(s, i, r)
  {
    match p
    case Word(lo, hi) => MatchWord(lo, hi, s, i)
    case Dollar(lo, hi) => MatchDollar(lo, hi, s, i)
    case Paren(lo, hi) => MatchParen(lo, hi, s, i)
    case Run(lo, hi) => MatchRun(lo, hi, s, i)
    case ListVerb(lo, hi) => MatchListVerb(lo, hi, s, i)
    case ListName => MatchListName(s, i)
    case DateTime => MatchDateTime(s, i)
    case SlashDate => MatchSlashDate(s, i)
    case TimeParenUtc => MatchTimeParenUtc(s, i)
    case AtTimeUtc => MatchAtTimeUtc(s, i)
    case WillListOn => MatchWillListOn(s, i)
  }

  /** `j` is the leftmost place at or after `i` where `p` matches. */
  predicate Leftmost(p: Pattern, s: string, i: nat, j: nat) {
    i <= j <= |s| && Match(p, s, j).Some? && forall k :: i <= k < j ==> Match(p, s, k).None?
  }

  /** `re.search`: the group of the leftmost match at or after `i`. */
  function Search(p: Pattern, s: string, i: nat): Option<string>
    requires i <= |s|
    decreases |s| - i
  {
    match Match(p, s, i)
    case Some(m) => Some(Group(s, m))
    case None => if i < |s| then Search(p, s, i + 1) else None
  }

  /** `p` matches nowhere from `i` on. */
  predicate NoMatchFrom(p: Pattern, s: string, i: nat) {
    forall j :: i <= j <= |s| ==> Match(p, s, j).None?
  }

  /** The search fails exactly when the pattern matches nowhere from `i` on. */
  lemma SearchNone(p: Pattern, s: string, i: nat)
    requires i <= |s|
    ensures Search(p, s, i).None? <==> forall j :: i <= j <= |s| ==> Match(p, s, j).None?
  {
    SearchNoneFrom(p, s, i);
    assert NoMatchFrom(p, s, i) <==> forall j :: i <= j <= |s| ==> Match(p, s, j).None?;
  }

  lemma {:induction false} SearchNoneFrom(p: Pattern, s: string, i: nat)
    requires i <= |s|
    ensures Search(p, s, i).None? <==> NoMatchFrom(p, s, i)
    decreases |s| - i
  {
    SearchStep(p, s, i);
    NoMatchFromStep(p, s, i);
    if Match(p, s, i).None? && i < |s| {
      SearchNoneFrom(p, s, i + 1);
      assert Search(p, s, i) == Search(p, s, i + 1);
    }
  }

  /** One step of the search: a match at `i` is found; otherwise the search goes on at
      `i + 1`, or fails at the end of `s`. */
  lemma SearchStep(p: Pattern, s: string, i: nat)
    requires i <= |s|
    ensures Match(p, s, i).Some? ==> Search(p, s, i) == Some(Group(s, Match(p, s, i).value))
    ensures Match(p, s, i).None? && i < |s| ==> Search(p, s, i) == Search(p, s, i + 1)
    ensures Match(p, s, i).None? && i == |s| ==> Search(p, s, i).None?
  {
  }

  /** A match at `i` rules out `NoMatchFrom`; otherwise it holds from `i` exactly when it
      holds from `i + 1` (and always at the end of `s`). */
  lemma NoMatchFromStep(p: Pattern, s: string, i: nat)
    requires i <= |s|
    ensures Match(p, s, i).Some? ==> !NoMatchFrom(p, s, i)
    ensures Match(p, s, i).None? && i == |s| ==> NoMatchFrom(p, s, i)
    ensures Match(p, s, i).None? && i < |s| ==> (NoMatchFrom(p, s, i) <==> NoMatchFrom(p, s, i + 1))
  {
    if Match(p, s, i).None? && i < |s| && NoMatchFrom(p, s, i + 1) {
      assert forall j :: i + 1 <= j <= |s| ==> Match(p, s, j).None?;
      assert forall j :: i <= j <= |s| ==> Match(p, s, j).None?;
    }
  }

  /** A search that succeeds yields the group of the leftmost match. */
  lemma {:induction false} SearchLeftmost(p: Pattern, s: string, i: nat)
    requires i <= |s| && Search(p, s, i).Some?
    ensures exists j :: Leftmost(p, s, i, j) && Search(p, s, i).value == Group(s, Match(p, s, j).value)
    decreases |s| - i
  {
    SearchStep(p, s, i);
    if Match(p, s, i).Some? {
      assert Leftmost(p, s, i, i);
    } else {
      SearchLeftmost(p, s, i + 1);
      var j :| Leftmost(p, s, i + 1, j) && Search(p, s, i + 1).value == Group(s, Match(p, s, j).value);
      LeftmostStep(p, s, i, j);
    }
  }

  lemma LeftmostStep(p: Pattern, s: string, i: nat, j: nat)
    requires i < |s| && Match(p, s, i).None? && Leftmost(p, s, i + 1, j)
    ensures Leftmost(p, s, i, j)
  {
  }

  /** `re.findall`: the groups of the successive non-overlapping matches from `i` on. */
  function FindAll(p: Pattern, s: string, i: nat): seq<string>
    requires i <= |s|
    decreases |s| - i
  {
    if i == |s| then []
    else
      match Match(p, s, i)
      case Some(m) => [Group(s, m)] + FindAll(p, s, m.next)
      case None => FindAll(p, s, i + 1)
  }

  /** The patterns whose matches cannot start inside one another. */
  predicate NonOverlapping(p: Pattern) { p.Word? || p.Dollar? || p.Paren? }

  lemma NoMatchInside(p: Pattern, s: string, i: nat, j: nat)
    requires NonOverlapping(p) && i <= |s| && Match(p, s, i).Some?
    requires i < j < Match(p, s, i).value.next
    ensures Match(p, s, j).None?
  {
    var n := if p.Word? then RunLen(s, i, UpperClass) else RunLen(s, i + 1, UpperClass);
    if p.Word? {
      assert IsUpper(s[j - 1]);
    } else {
      assert s[j] != '$' && s[j] != '(' by {
        if j < i + 1 + n {
          assert IsUpper(s[j]);
        }
      }
    }
  }

  /** `findall` returns exactly the groups of all the places the pattern matches: the
      scan skips no match. */
  /** `t` is what `p` captures when it matches at `j`. */
  predicate MatchesAt(p: Pattern, s: string, j: nat, t: string) {
    j <= |s| && Match(p, s, j).Some? && t == Group(s, Match(p, s, j).value)
  }

  /** `re.findall` with a pattern whose matches cannot overlap: `t` is found exactly
      when `p` matches somewhere at or after `i` and captures `t` there. */
  lemma FindAllSpec(p: Pattern, s: string, i: nat, t: string)
    requires NonOverlapping(p) && i <= |s|
    ensures t in FindAll(p, s, i) <==>
            exists j :: i <= j < |s| && Match(p, s, j).Some? && t == Group(s, Match(p, s, j).value)
  {
    FindAllMatches(p, s, i, t);
    if t in FindAll(p, s, i) {
      var j :| i <= j < |s| && MatchesAt(p, s, j, t);
    }
    if exists j :: i <= j < |s| && Match(p, s, j).Some? && t == Group(s, Match(p, s, j).value) {
      var j :| i <= j < |s| && Match(p, s, j).Some? && t == Group(s, Match(p, s, j).value);
      assert MatchesAt(p, s, j, t);
      assert FoundFrom(p, s, i, t);
    }
  }

  /** `p` captures `t` somewhere at or after `i`. */
  predicate FoundFrom(p: Pattern, s: string, i: nat, t: string) {
    exists j :: i <= j < |s| && MatchesAt(p, s, j, t)
  }

  lemma {:induction false} FindAllMatches(p: Pattern, s: string, i: nat, t: string)
    requires NonOverlapping(p) && i <= |s|
    ensures t in FindAll(p, s, i) <==> FoundFrom(p, s, i, t)
    decreases |s| - i
  {
    if i < |s| {
      match Match(p, s, i)
      case Some(m) =>
        FindAllMatches(p, s, m.next, t);
        FindAllSkip(p, s, i, t);
        assert FindAll(p, s, i) == [Group(s, m)] + FindAll(p, s, m.next);
      case None =>
        FindAllMatches(p, s, i + 1, t);
        assert FindAll(p, s, i) == FindAll(p, s, i + 1);
        FindAllNoMatch(p, s, i, t);
    }
  }

  /** Where `p` does not match, the matches from `i` on are those from `i + 1` on. */
  lemma FindAllNoMatch(p: Pattern, s: string, i: nat, t: string)
    requires i < |s| && Match(p, s, i).None?
    ensures FoundFrom(p, s, i, t) <==> FoundFrom(p, s, i + 1, t)
  {
    if FoundFrom(p, s, i, t) {
      var j :| i <= j < |s| && MatchesAt(p, s, j, t);
      assert j != i;
      assert FoundFrom(p, s, i + 1, t);
    }
    if FoundFrom(p, s, i + 1, t) {
      var j :| i + 1 <= j < |s| && MatchesAt(p, s, j, t);
      assert FoundFrom(p, s, i, t);
    }
  }

  /** After a match at `i`, the next match starts at or after its end. */
  lemma FindAllSkip(p: Pattern, s: string, i: nat, t: string)
    requires NonOverlapping(p) && i < |s| && Match(p, s, i).Some?
    ensures FoundFrom(p, s, i, t) <==>
            t == Group(s, Match(p, s, i).value) || FoundFrom(p, s, Match(p, s, i).value.next, t)
  {
    var m := Match(p, s, i).value;
    if FoundFrom(p, s, i, t) {
      var j :| i <= j < |s| && MatchesAt(p, s, j, t);
      if j == i {
        assert t == Group(s, m);
      } else if j < m.next {
        NoMatchInside(p, s, i, j);
        assert false;
      } else {
        assert FoundFrom(p, s, m.next, t);
      }
    }
    if t == Group(s, m) {
      assert MatchesAt(p, s, i, t);
      assert FoundFrom(p, s, i, t);
    }
    if FoundFrom(p, s, m.next, t) {
      var j :| m.next <= j < |s| && MatchesAt(p, s, j, t);
      assert FoundFrom(p, s, i, t);
    }
  }

  predicate IsSymbol(t: string, lo: nat, hi: nat) { lo <= |t| <= hi && AllUpper(t) }

  /** The capitals patterns yield lo..hi capitals; `ListVerb` yields lo..hi letters. */
  lemma GroupShape(p: Pattern, s: string, i: nat)
    requires i <= |s| && Match(p, s, i).Some?
    requires p.Word? || p.Dollar? || p.Paren? || p.Run? || p.ListVerb?
    ensures p.lo <= |Group(s, Match(p, s, i).value)| <= p.hi
    ensures AllLetters(Group(s, Match(p, s, i).value))
    ensures !p.ListVerb? ==> AllUpper(Group(s, Match(p, s, i).value))
  {
  }

  /** The name `ListName` captures holds no `(`. */
  lemma ListNameGroupShape(s: string, i: nat)
    requires i <= |s| && Match(ListName, s, i).Some?
    ensures '(' !in Group(s, Match(ListName, s, i).value)
  {
    SpacesBeforeParen(s, i + 4);
  }

  /** "list" at `i`, ignoring case, then whitespace; `name` is the stripped text from after
      "list" up to the first `(`, which exists. */
  predicate ListNameAt(s: string, i: nat, name: string) {
    LitAtIgnoringCase(s, i, "list") && i + 4 < |s| && IsSpace(s[i + 4]) &&
    var q := i + 4 + RunLen(s, i + 4, NotOpenParen);
    q < |s| && s[q] == '(' && '(' !in s[i + 4..q] && name == Strip(s[i + 4..q])
  }

  /** The name group, stripped, is the stripped text between "list" and the first `(`:
      the whitespace `\s+` takes, or gives back, is removed by the strip either way. */
  lemma ListNameGroupAt(s: string, i: nat)
    requires i <= |s| && Match(ListName, s, i).Some?
    ensures ListNameAt(s, i, Strip(Group(s, Match(ListName, s, i).value)))
  {
    assert Match(ListName, s, i) == MatchListName(s, i);
    ListNameGroupOf(s, i);
  }

  lemma ListNameGroupOf(s: string, i: nat)
    requires i <= |s| && MatchListName(s, i).Some?
    ensures ListNameAt(s, i, Strip(Group(s, MatchListName(s, i).value)))
  {
    var m := MatchListName(s, i).value;
    ListNameSpan(s, i);
    NameBeforeParen(s, i, m.start, m.end);
    assert Group(s, m) == s[m.start..m.end];
  }

  /** After "list" and whitespace, a group from `g`, inside the leading whitespace, up to
      the first `(` strips to the stripped text between "list" and that `(`. */
  lemma NameBeforeParen(s: string, i: nat, g: nat, q: nat)
    requires LitAtIgnoringCase(s, i, "list") && i + 4 < |s| && IsSpace(s[i + 4])
    requires q == i + 4 + RunLen(s, i + 4, NotOpenParen) && q < |s|
    requires i + 4 <= g <= q && g <= i + 4 + RunLen(s, i + 4, SpaceClass)
    ensures ListNameAt(s, i, Strip(s[g..q]))
  {
    NoParenInRun(s, i + 4, q);
    StripAfterLeadingSpace(s, i + 4, g, q);
    AssembleListNameAt(s, i, q, Strip(s[g..q]));
  }

  lemma AssembleListNameAt(s: string, i: nat, q: nat, name: string)
    requires LitAtIgnoringCase(s, i, "list") && i + 4 < |s| && IsSpace(s[i + 4])
    requires q == i + 4 + RunLen(s, i + 4, NotOpenParen) && q < |s| && s[q] == '('
    requires '(' !in s[i + 4..q] && name == Strip(s[i + 4..q])
    ensures ListNameAt(s, i, name)
  {
  }

  /** Where the name group of a match at `i` lies. */
  lemma ListNameSpan(s: string, i: nat)
    requires i <= |s| && MatchListName(s, i).Some?
    ensures var m := MatchListName(s, i).value;
            LitAtIgnoringCase(s, i, "list") && i + 4 < |s| && IsSpace(s[i + 4]) &&
            m.end == i + 4 + RunLen(s, i + 4, NotOpenParen) && m.end < |s| &&
            i + 4 <= m.start <= m.end && m.start <= i + 4 + RunLen(s, i + 4, SpaceClass)
  {
    SpacesBeforeParen(s, i + 4);
  }

  /** Whitespace between `j` and `g` does not change the stripped text up to `q`. */
  lemma StripInfix(s: string, j: nat, g: nat, q: nat)
    requires j <= g <= q <= |s| && AllSpace(s[j..g])
    ensures Strip(s[j..q]) == Strip(s[g..q])
  {
    assert s[j..q] == s[j..g] + s[g..q];
    StripAfterSpaces(s[j..g], s[g..q]);
  }


  /** Leading whitespace does not change the stripped text. */
  lemma StripAfterLeadingSpace(s: string, j: nat, g: nat, q: nat)
    requires j <= g <= q <= |s| && g <= j + RunLen(s, j, SpaceClass)
    ensures Strip(s[g..q]) == Strip(s[j..q])
  {
    SpaceRun(s, j, g);
    StripInfix(s, j, g, q);
  }

  lemma NoParenInRun(s: string, j: nat, q: nat)
    requires j <= |s| && q == j + RunLen(s, j, NotOpenParen)
    ensures '(' !in s[j..q] && (q < |s| ==> s[q] == '(')
  {
    forall k | 0 <= k < q - j ensures s[j..q][k] != '(' {
      assert s[j..q][k] == s[j + k] && InClass(s[j + k], NotOpenParen);
    }
  }

  lemma SpaceRun(s: string, j: nat, g: nat)
    requires j <= |s| && j <= g <= j + RunLen(s, j, SpaceClass)
    ensures AllSpace(s[j..g])
  {
    forall k | 0 <= k < g - j ensures IsSpace(s[j..g][k]) {
      assert s[j..g][k] == s[j + k] && InClass(s[j + k], SpaceClass);
    }
  }

  lemma {:induction false} FindAllShape(p: Pattern, s: string, i: nat)
    requires i <= |s|
    requires p.Word? || p.Dollar? || p.Paren? || p.Run?
    ensures forall t :: t in FindAll(p, s, i) ==> IsSymbol(t, p.lo, p.hi)
    decreases |s| - i
  {
    if i < |s| {
      match Match(p, s, i)
      case Some(m) =>
        GroupShape(p, s, i);
        FindAllShape(p, s, m.next);
      case None =>
        FindAllShape(p, s, i + 1);
    }
  }

  /** The matches of each pattern in turn, concatenated: `tokens.extend(re.findall(p, text))`
      for each pattern `p`. */
  function AllMatches(patterns: seq<Pattern>, text: string): seq<string> {
    FlatMap(patterns, FindAllIn(text))
  }

  function FindAllIn(text: string): Pattern -> seq<string> {
    p => FindAll(p, text, 0)
  }

  lemma AllMatchesMember(patterns: seq<Pattern>, text: string, t: string)
    ensures t in AllMatches(patterns, text) <==>
            exists k :: 0 <= k < |patterns| && t in FindAll(patterns[k], text, 0)
  {
    FlatMapSpec(patterns, FindAllIn(text), t);
  }

  /** Patterns that capture a run of capitals. */
  predicate CapitalsPattern(p: Pattern) { p.Word? || p.Dollar? || p.Paren? || p.Run? }

  lemma AllMatchesUpper(patterns: seq<Pattern>, text: string, t: string)
    requires forall k :: 0 <= k < |patterns| ==> CapitalsPattern(patterns[k])
    requires t in AllMatches(patterns, text)
    ensures AllUpper(t)
  {
    AllMatchesMember(patterns, text, t);
    var k :| 0 <= k < |patterns| && t in FindAll(patterns[k], text, 0);
    FindAllShape(patterns[k], text, 0);
  }

  /** The group of the first pattern, in list order, that matches anywhere in `s`. */
  function FirstMatching(patterns: seq<Pattern>, s: string): Option<string> {
    if patterns == [] then None
    else if Search(patterns[0], s, 0).Some? then Search(patterns[0], s, 0)
    else FirstMatching(patterns[1..], s)
  }

  /** Nothing is found exactly when every pattern fails; otherwise the result is the
      search of the first pattern, in list order, that succeeds. */
  lemma {:induction false} FirstMatchingSpec(patterns: seq<Pattern>, s: string)
    ensures FirstMatching(patterns, s).None? <==>
              forall k :: 0 <= k < |patterns| ==> Search(patterns[k], s, 0).None?
    ensures FirstMatching(patterns, s).Some? ==>
              exists k :: 0 <= k < |patterns| && FirstMatching(patterns, s) == Search(patterns[k], s, 0) &&
                          forall j :: 0 <= j < k ==> Search(patterns[j], s, 0).None?
  {
    if patterns != [] && Search(patterns[0], s, 0).None? {
      FirstMatchingSpec(patterns[1..], s);
      assert forall k :: 1 <= k < |patterns| ==> patterns[k] == patterns[1..][k - 1];
      if FirstMatching(patterns, s).Some? {
        var k :| 0 <= k < |patterns[1..]| && FirstMatching(patterns[1..], s) == Search(patterns[1..][k], s, 0) &&
                 forall j :: 0 <= j < k ==> Search(patterns[1..][j], s, 0).None?;
        assert forall j :: 1 <= j < k + 1 ==> Search(patterns[j], s, 0).None?;
      }
    } else if patterns != [] {
      assert 0 < |patterns|;
    }
  }

  /** Trying the patterns in order and stopping at the first hit: the loop of both
      date extractors. */
  method SearchInOrder(patterns: seq<Pattern>, s: string) returns (r: Option<string>)
    ensures r == FirstMatching(patterns, s)
  {
    for k := 0 to |patterns|
      invariant forall j :: 0 <= j < k ==> Search(patterns[j], s, 0).None?
    {
      var m := Search(patterns[k], s, 0);
      if m.Some? {
        FirstMatchingAt(patterns, s, k);
        return m;
      }
    }
    FirstMatchingSpec(patterns, s);
    return None;
  }

  lemma {:induction false} FirstMatchingAt(patterns: seq<Pattern>, s: string, k: nat)
    requires k < |patterns| && Search(patterns[k], s, 0).Some?
    requires forall j :: 0 <= j < k ==> Search(patterns[j], s, 0).None?
    ensures FirstMatching(patterns, s) == Search(patterns[k], s, 0)
  {
    if k > 0 {
      FirstMatchingAt(patterns[1..], s, k - 1);
    }
  }
}
