/** ASCII text primitives shared by every scraper: the character classes the fixed
    regular expressions use, case mapping, substring search, `strip`, `split` and `join`. */
module Text {
  import opened Wrappers

  predicate IsUpper(c: char) { 'A' <= c <= 'Z' }
  predicate IsLower(c: char) { 'a' <= c <= 'z' }
  predicate IsLetter(c: char) { IsUpper(c) || IsLower(c) }
  predicate IsDigit(c: char) { '0' <= c <= '9' }

  /** A regular-expression word character over ASCII: letter, digit or underscore. */
  predicate IsWordChar(c: char) { IsLetter(c) || IsDigit(c) || c == '_' }

  /** The ASCII characters Python treats as whitespace, both in `\s` and in `str.strip`:
      space, tab to carriage return, and the four separators 0x1C to 0x1F. */
  predicate IsSpace(c: char) { c == ' ' || 9 <= c as int <= 13 || 28 <= c as int <= 31 }

  predicate AllUpper(s: string) { forall k :: 0 <= k < |s| ==> IsUpper(s[k]) }
  predicate AllLetters(s: string) { forall k :: 0 <= k < |s| ==> IsLetter(s[k]) }

  function LowerChar(c: char): char { if IsUpper(c) then (c as int + 32) as char else c }
  function UpperChar(c: char): char { if IsLower(c) then (c as int - 32) as char else c }

  /** `str.lower()` on ASCII text. */
  function Lower(s: string): (r: string)
    ensures |r| == |s|
    ensures forall i :: 0 <= i < |s| ==> r[i] == LowerChar(s[i])
  {
    if s == [] then [] else [LowerChar(s[0])] + Lower(s[1..])
  }

  /** `str.upper()` on ASCII text. */
  function Upper(s: string): (r: string)
    ensures |r| == |s|
    ensures forall i :: 0 <= i < |s| ==> r[i] == UpperChar(s[i])
  {
    if s == [] then [] else [UpperChar(s[0])] + Upper(s[1..])
  }

  predicate NoUpper(s: string) { forall k :: 0 <= k < |s| ==> !IsUpper(s[k]) }

  /** Lower-casing text without capitals changes nothing. */
  lemma LowerOfNoUpper(s: string)
    requires NoUpper(s)
    ensures Lower(s) == s
  {
  }

  lemma LowerAppend(a: string, b: string)
    ensures Lower(a + b) == Lower(a) + Lower(b)
  {
    assert forall i :: 0 <= i < |a + b| ==> Lower(a + b)[i] == (Lower(a) + Lower(b))[i];
  }

  lemma UpperOfLetters(s: string)
    requires AllLetters(s)
    ensures AllUpper(Upper(s))
  {
  }

  /** `pat in text` for strings. */
  predicate Contains(text: string, pat: string) {
    exists i :: 0 <= i <= |text| && pat <= text[i..]
  }

  /** Text that contains `pat` still contains it with anything put around it. */
  lemma ContainsInfix(pre: string, t: string, post: string, pat: string)
    requires Contains(t, pat)
    ensures Contains(pre + t + post, pat)
  {
    var i :| 0 <= i <= |t| && pat <= t[i..];
    var whole := pre + t + post;
    assert whole[|pre| + i..] == t[i..] + post;
    assert pat <= whole[|pre| + i..];
  }

  /** A character that does not occur in a text does not occur in a piece of it. */
  lemma AbsentFromInfix(text: string, pat: string, c: char)
    requires Contains(text, pat) && c !in text
    ensures c !in pat
  {
    var i :| 0 <= i <= |text| && pat <= text[i..];
    assert forall k :: 0 <= k < |pat| ==> pat[k] == text[i + k];
  }

  /** Keyword `k` of the list occurs in the text. */
  predicate KeywordAt(text: string, keywords: seq<string>, k: int) {
    0 <= k < |keywords| && Contains(text, keywords[k])
  }

  /** The keyword test, stated through KeywordAt. */
  lemma AnyKeywordAt(text: string, keywords: seq<string>)
    ensures AnyKeyword(text, keywords) <==> exists k :: KeywordAt(text, keywords, k)
  {
    if AnyKeyword(text, keywords) {
      var k :| 0 <= k < |keywords| && Contains(text, keywords[k]);
      assert KeywordAt(text, keywords, k);
    }
  }

  /** Python's `any(keyword in text for keyword in keywords)`. */
  function AnyKeyword(text: string, keywords: seq<string>): (r: bool)
    ensures r <==> exists k :: 0 <= k < |keywords| && Contains(text, keywords[k])
  {
    if keywords == [] then false
    else if Contains(text, keywords[0]) then true
    else
      var rest := AnyKeyword(text, keywords[1..]);
      assert forall k :: 1 <= k < |keywords| ==> keywords[k] == keywords[1..][k - 1];
      rest
  }

  /** The first name of `names`, in list order, that occurs in `text`: a loop over the
      names with an early return. */
  function FirstContained(text: string, names: seq<string>): (r: Option<string>)
    ensures r.None? <==> forall k :: 0 <= k < |names| ==> !Contains(text, names[k])
    ensures r.Some? ==> exists k :: 0 <= k < |names| && names[k] == r.value && Contains(text, r.value) &&
                                    forall j :: 0 <= j < k ==> !Contains(text, names[j])
  {
    if names == [] then None
    else if Contains(text, names[0]) then
      Some(names[0])
    else
      var rest := FirstContained(text, names[1..]);
      assert forall k :: 1 <= k < |names| ==> names[k] == names[1..][k - 1];
      rest
  }

  /** A case-insensitive keyword test is monotone: surrounding a matching text with more
      text never makes it stop matching. */
  lemma {:induction false} KeywordSearchGrows(keywords: seq<string>, t: string, pre: string, post: string)
    requires AnyKeyword(Lower(t), keywords)
    ensures AnyKeyword(Lower(pre + t + post), keywords)
  {
    var k :| 0 <= k < |keywords| && Contains(Lower(t), keywords[k]);
    LowerAppend(pre, t);
    LowerAppend(pre + t, post);
    ContainsInfix(Lower(pre), Lower(t), Lower(post), keywords[k]);
  }

  /** `str.lstrip()` */
  function TrimStart(s: string): (r: string)
    ensures |r| <= |s| && r == s[|s| - |r|..]
    ensures r == [] || !IsSpace(r[0])
    ensures forall k :: 0 <= k < |s| - |r| ==> IsSpace(s[k])
  {
    if s != [] && IsSpace(s[0]) then TrimStart(s[1..]) else s
  }

  /** `str.rstrip()` */
  function TrimEnd(s: string): (r: string)
    ensures |r| <= |s| && r == s[..|r|]
    ensures r == [] || !IsSpace(r[|r| - 1])
    ensures forall k :: |r| <= k < |s| ==> IsSpace(s[k])
  {
    if s != [] && IsSpace(s[|s| - 1]) then TrimEnd(s[..|s| - 1]) else s
  }

  /** `str.strip()`: the result neither starts nor ends with whitespace, and what was
      removed on either side was whitespace only. */
  function Strip(s: string): (r: string)
    ensures r == [] || (!IsSpace(r[0]) && !IsSpace(r[|r| - 1]))
    ensures Contains(s, r)
    ensures exists i :: StrippedAt(s, r, i)
  {
    var t := TrimStart(s);
    var r := TrimEnd(t);
    StripPieces(s, t, r, |s| - |t|);
    r
  }

  /** Every character of `t` is whitespace. */
  predicate AllSpace(t: string) {
    forall k :: 0 <= k < |t| ==> IsSpace(t[k])
  }

  /** `r` is the infix of `s` at `i`, and what lies before and after it is whitespace. */
  predicate StrippedAt(s: string, r: string, i: nat) {
    i + |r| <= |s| && r == s[i..i + |r|] && AllSpace(s[..i]) && AllSpace(s[i + |r|..])
  }

  /** Whitespace only before `t` and after `r` leaves `r` stripped out of `s`. */
  lemma StripPieces(s: string, t: string, r: string, i: nat)
    requires i + |t| == |s| && t == s[i..] && forall k :: 0 <= k < i ==> IsSpace(s[k])
    requires |r| <= |t| && r == t[..|r|] && forall k :: |r| <= k < |t| ==> IsSpace(t[k])
    ensures Contains(s, r) && StrippedAt(s, r, i)
  {
    LeadingSpace(s, i);
    TrailingSpace(s, t, r, i);
    assert r <= s[i..];
  }

  lemma LeadingSpace(s: string, i: nat)
    requires i <= |s| && forall k :: 0 <= k < i ==> IsSpace(s[k])
    ensures AllSpace(s[..i])
  {
    forall k | 0 <= k < i ensures IsSpace(s[..i][k]) {
      assert s[..i][k] == s[k];
    }
  }

  lemma TrailingSpace(s: string, t: string, r: string, i: nat)
    requires i + |t| == |s| && t == s[i..]
    requires |r| <= |t| && r == t[..|r|] && forall k :: |r| <= k < |t| ==> IsSpace(t[k])
    ensures r == s[i..i + |r|] && AllSpace(s[i + |r|..])
  {
    var tail := s[i + |r|..];
    forall k | 0 <= k < |tail| ensures IsSpace(tail[k]) {
      assert tail[k] == t[|r| + k];
    }
  }

  /** Whitespace in front of `b` changes neither `str.lstrip()` nor `str.strip()`. */
  lemma {:induction false} TrimStartAfterSpaces(a: string, b: string)
    requires AllSpace(a)
    ensures TrimStart(a + b) == TrimStart(b)
    decreases |a|
  {
    if a == [] {
      assert a + b == b;
    } else {
      assert (a + b)[0] == a[0] && (a + b)[1..] == a[1..] + b;
      assert TrimStart(a + b) == TrimStart(a[1..] + b);
      assert AllSpace(a[1..]) by {
        forall k | 0 <= k < |a| - 1 ensures IsSpace(a[1..][k]) {
          assert a[1..][k] == a[k + 1];
        }
      }
      TrimStartAfterSpaces(a[1..], b);
    }
  }

  lemma StripAfterSpaces(a: string, b: string)
    requires AllSpace(a)
    ensures Strip(a + b) == Strip(b)
  {
    TrimStartAfterSpaces(a, b);
  }

  /** `s.split(sep)[-1]`: the text after the last `sep`, or all of `s` when there is none. */
  function LastSegment(s: string, sep: char): (r: string)
    ensures |r| <= |s| && r == s[|s| - |r|..]
    ensures sep !in r
    ensures |r| < |s| ==> s[|s| - |r| - 1] == sep
    decreases |s|
  {
    if s == [] || s[|s| - 1] == sep then []
    else LastSegment(s[..|s| - 1], sep) + [s[|s| - 1]]
  }

  /** The text before the first `sep` (all of `s` when there is none). */
  function Before(s: string, sep: char): (r: string)
    ensures r <= s && sep !in r
    ensures |r| < |s| ==> s[|r|] == sep
  {
    if s == [] || s[0] == sep then [] else [s[0]] + Before(s[1..], sep)
  }

  /** A prefix free of `sep` that is followed by `sep` is the text before the first
      `sep`. */
  lemma BeforeOfPrefix(s: string, t: string, sep: char)
    requires t <= s && |t| < |s| && sep !in t && s[|t|] == sep
    ensures Before(s, sep) == t
  {
  }

  /** The text after the first `sep` (empty when there is none). */
  function After(s: string, sep: char): string {
    var b := Before(s, sep);
    if |b| < |s| then s[|b| + 1..] else []
  }

  /** Splitting at the first separator undoes joining with it, provided the left part is
      free of the separator. */
  lemma {:induction false} SplitJoined(a: string, b: string, sep: char)
    requires sep !in a
    ensures Before(a + [sep] + b, sep) == a
    ensures After(a + [sep] + b, sep) == b
  {
    if a != [] {
      assert (a + [sep] + b)[1..] == a[1..] + [sep] + b;
      SplitJoined(a[1..], b, sep);
    }
  }

  /** `"".join(f(x) for x in s)` */
  function ConcatMap<T>(s: seq<T>, f: T -> string): string {
    if s == [] then "" else f(s[0]) + ConcatMap(s[1..], f)
  }

  lemma {:induction false} ConcatMapAppend<T>(a: seq<T>, b: seq<T>, f: T -> string)
    ensures ConcatMap(a + b, f) == ConcatMap(a, f) + ConcatMap(b, f)
  {
    if a == [] {
      assert a + b == b;
    } else {
      ConcatMapAppend(a[1..], b, f);
      assert (a + b)[1..] == a[1..] + b;
    }
  }

  lemma ConcatMapSnoc<T>(s: seq<T>, x: T, f: T -> string)
    ensures ConcatMap(s + [x], f) == ConcatMap(s, f) + f(x)
  {
    ConcatMapAppend(s, [x], f);
    assert [x][1..] == [];
  }

  /** `sep.join(parts)` */
  function Join(parts: seq<string>, sep: string): string {
    if parts == [] then ""
    else if |parts| == 1 then parts[0]
    else parts[0] + sep + Join(parts[1..], sep)
  }
}
