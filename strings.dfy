/** Character classes and the few Python string operations the bot relies on:
    strip(), lower(), `in` on strings, slicing with an ellipsis, split() on one
    character and "\n".join(). */
module Strings {

  /** Python's str.isspace(): the characters strip() removes and `\s` matches. */
  predicate IsSpace(c: char) {
    || ('\U{9}' <= c <= '\U{d}')
    || ('\U{1c}' <= c <= '\U{20}')
    || c == '\U{85}' || c == '\U{a0}' || c == '\U{1680}'
    || ('\U{2000}' <= c <= '\U{200a}')
    || c == '\U{2028}' || c == '\U{2029}' || c == '\U{202f}' || c == '\U{205f}' || c == '\U{3000}'
  }

  /** `\d` restricted to the ASCII digits. */
  predicate IsDigit(c: char) {
    '0' <= c <= '9'
  }

  predicate IsAsciiLetter(c: char) {
    ('a' <= c <= 'z') || ('A' <= c <= 'Z')
  }

  predicate AllSpace(s: string) {
    forall i :: 0 <= i < |s| ==> IsSpace(s[i])
  }

  predicate AllDigits(s: string) {
    forall i :: 0 <= i < |s| ==> IsDigit(s[i])
  }

  /** A string that strip() leaves as it is. */
  predicate Stripped(s: string) {
    s == [] || (!IsSpace(s[0]) && !IsSpace(s[|s| - 1]))
  }

  /** The number of white-space characters strip() removes at the front. */
  function LeadingSpaces(s: string): (k: nat)
    ensures k <= |s| && AllSpace(s[..k])
    ensures k == |s| || !IsSpace(s[k])
  {
    if s != [] && IsSpace(s[0]) then
      var k := 1 + LeadingSpaces(s[1..]);
      assert forall i :: 1 <= i < k ==> s[i] == s[1..][..k - 1][i - 1];
      k
    else 0
  }

  /** The length of the run of non-white characters at the front of `s`. */
  function WordLength(s: string): (k: nat)
    ensures k <= |s|
  {
    if s != [] && !IsSpace(s[0]) then 1 + WordLength(s[1..]) else 0
  }

  /** The run is maximal: its characters are not white space, and the end or
      white space follows it. */
  lemma {:induction false} WordLengthRun(s: string)
    ensures forall i :: 0 <= i < WordLength(s) ==> !IsSpace(s[i])
    ensures WordLength(s) == |s| || IsSpace(s[WordLength(s)])
  {
    if s != [] && !IsSpace(s[0]) {
      WordLengthRun(s[1..]);
      assert forall i :: 1 <= i < WordLength(s) ==> s[i] == s[1..][i - 1];
    }
  }

  /** The first element of s.split(maxsplit=1): the leading white space is
      skipped and the word runs up to the next white space; "" when `s` is
      blank, where split() returns no element at all. */
  function FirstWord(s: string): (r: string)
    ensures |r| <= |s|
  {
    if s == [] then []
    else if IsSpace(s[0]) then FirstWord(s[1..])
    else s[..WordLength(s)]
  }

  /** The first word is the piece of `s` after its leading white space; its
      characters are not white space, and the end or white space follows it. */
  lemma {:induction false} FirstWordPiece(s: string)
    ensures var k, r := LeadingSpaces(s), FirstWord(s);
            && k + |r| <= |s| && r == s[k..k + |r|]
            && (forall i :: 0 <= i < |r| ==> !IsSpace(r[i]))
            && (k + |r| == |s| || IsSpace(s[k + |r|]))
  {
    if s != [] && IsSpace(s[0]) {
      FirstWordPiece(s[1..]);
      var k, r := LeadingSpaces(s), FirstWord(s);
      assert s[1..][k - 1..k - 1 + |r|] == s[k..k + |r|];
    } else if s != [] {
      WordLengthRun(s);
    }
  }

  /** White space, a word and then the end or white space: split() yields that word first. */
  lemma {:induction false} FirstWordOf(p: string, w: string, rest: string)
    requires AllSpace(p)
    requires w != [] && forall i :: 0 <= i < |w| ==> !IsSpace(w[i])
    requires rest == [] || IsSpace(rest[0])
    ensures FirstWord(p + w + rest) == w
  {
    if p != [] {
      assert (p + w + rest)[1..] == p[1..] + w + rest;
      FirstWordOf(p[1..], w, rest);
    } else {
      assert p + w + rest == w + rest;
      WordLengthOf(w, rest);
      assert (w + rest)[..|w|] == w;
    }
  }

  /** A word followed by the end or white space: the non-white run is that word. */
  lemma {:induction false} WordLengthOf(w: string, rest: string)
    requires forall i :: 0 <= i < |w| ==> !IsSpace(w[i])
    requires rest == [] || IsSpace(rest[0])
    ensures WordLength(w + rest) == |w|
  {
    if w != [] {
      assert (w + rest)[1..] == w[1..] + rest;
      WordLengthOf(w[1..], rest);
    } else {
      assert w + rest == rest;
    }
  }

  /** The converse of FirstWordOf: the first word sits after white space only,
      and the end or white space follows it. */
  lemma FirstWordShape(s: string)
    ensures var k, r := LeadingSpaces(s), FirstWord(s);
            && k + |r| <= |s|
            && AllSpace(s[..k])
            && s == s[..k] + r + s[k + |r|..]
            && (s[k + |r|..] == [] || IsSpace(s[k + |r|..][0]))
  {
    FirstWordPiece(s);
    var k, r := LeadingSpaces(s), FirstWord(s);
    var rest := s[k + |r|..];
    assert s == s[..k] + s[k..k + |r|] + rest;
    assert rest == [] || rest[0] == s[k + |r|];
  }

  /** Only a blank text has no first word. */
  lemma {:induction false} FirstWordBlank(s: string)
    ensures FirstWord(s) == [] <==> AllSpace(s)
  {
    if s != [] && IsSpace(s[0]) {
      FirstWordBlank(s[1..]);
      assert AllSpace(s) <==> AllSpace(s[1..]) by {
        assert forall i :: 1 <= i < |s| ==> s[i] == s[1..][i - 1];
      }
    }
  }

  /** lstrip(): `s` without its leading white space. */
  function TrimStart(s: string): (r: string)
    ensures |r| <= |s|
    ensures r == [] || !IsSpace(r[0])
  {
    if s != [] && IsSpace(s[0]) then TrimStart(s[1..]) else s
  }

  /** lstrip() removes a run of white space from the front and nothing else. */
  lemma {:induction false} TrimStartSuffix(s: string)
    ensures TrimStart(s) == s[|s| - |TrimStart(s)|..]
    ensures AllSpace(s[..|s| - |TrimStart(s)|])
  {
    if s != [] && IsSpace(s[0]) {
      TrimStartSuffix(s[1..]);
      var k := |s| - |TrimStart(s)|;
      assert s[1..][k - 1..] == s[k..];
      assert forall m :: 1 <= m < k ==> s[m] == s[1..][..k - 1][m - 1];
    }
  }

  /** rstrip(): `s` without its trailing white space. */
  function TrimEnd(s: string): (r: string)
    ensures |r| <= |s|
    ensures r == [] || !IsSpace(r[|r| - 1])
  {
    if s != [] && IsSpace(s[|s| - 1]) then TrimEnd(s[..|s| - 1]) else s
  }

  /** rstrip() removes a run of white space from the back and nothing else. */
  lemma {:induction false} TrimEndPrefix(s: string)
    ensures TrimEnd(s) == s[..|TrimEnd(s)|]
    ensures AllSpace(s[|TrimEnd(s)|..])
  {
    if s != [] && IsSpace(s[|s| - 1]) {
      var init := s[..|s| - 1];
      TrimEndPrefix(init);
      var n := |TrimEnd(s)|;
      assert init[..n] == s[..n];
      assert forall m :: n <= m < |s| - 1 ==> s[m] == init[n..][m - n];
    }
  }

  /** Python's strip() with no argument: the piece of `s` between its leading
      and its trailing white space. */
  function Strip(s: string): (r: string)
    ensures Stripped(r) && |r| <= |s|
  {
    StripEnds(s);
    TrimEnd(TrimStart(s))
  }

  /** The two trims leave no white space at either end. */
  lemma StripEnds(s: string)
    ensures Stripped(TrimEnd(TrimStart(s)))
  {
    var t := TrimStart(s);
    var r := TrimEnd(t);
    TrimEndPrefix(t);
    assert r != [] ==> r[0] == t[0];
  }

  /** A prefix of a suffix of `s` is a piece of `s`; what the suffix drops at
      the front and the prefix drops at the back is what lies around it. */
  lemma PrefixOfSuffix(s: string, t: string, r: string)
    requires |t| <= |s| && t == s[|s| - |t|..]
    requires |r| <= |t| && r == t[..|r|]
    ensures r == s[|s| - |t|..|s| - |t| + |r|]
    ensures s[|s| - |t| + |r|..] == t[|r|..]
  {
  }

  /** strip() returns a piece of its argument, with only white space around it. */
  lemma StripPiece(s: string)
    ensures var i := |s| - |TrimStart(s)|;
            && i + |Strip(s)| <= |s| && Strip(s) == s[i..i + |Strip(s)|]
            && AllSpace(s[..i]) && AllSpace(s[i + |Strip(s)|..])
  {
    var t := TrimStart(s);
    TrimStartSuffix(s);
    TrimEndPrefix(t);
    PrefixOfSuffix(s, t, TrimEnd(t));
  }

  /** Stripping a string without surrounding white space changes nothing. */
  lemma StripOfStripped(s: string)
    requires Stripped(s)
    ensures Strip(s) == s
  {
  }

  /** strip() is idempotent. */
  lemma StripIdempotent(s: string)
    ensures Strip(Strip(s)) == Strip(s)
  {
    StripOfStripped(Strip(s));
  }

  /** Everything strip() returns is a piece of its argument, so a character that
      does not occur in the argument does not occur in the result. */
  lemma StripKeepsOut(s: string, c: char)
    requires c !in s
    ensures c !in Strip(s)
  {
    var r, i := Strip(s), |s| - |TrimStart(s)|;
    StripPiece(s);
    forall k | 0 <= k < |r| ensures r[k] != c {
      assert r[k] == s[i + k];
    }
  }

  /** Python's str.lower() on ASCII letters and the basic Cyrillic capitals. */
  function LowerChar(c: char): (r: char)
    ensures 'A' <= c <= 'Z' ==> r as int == c as int + 32
    ensures !('A' <= c <= 'Z') && !('\U{410}' <= c <= '\U{42f}') && c != '\U{401}' ==> r == c
  {
    if 'A' <= c <= 'Z' then (c as int + 32) as char
    else if '\U{410}' <= c <= '\U{42f}' then (c as int + 32) as char
    else if c == '\U{401}' then '\U{451}'
    else c
  }

  function Lower(s: string): (r: string)
    ensures |r| == |s|
    ensures forall i :: 0 <= i < |s| ==> r[i] == LowerChar(s[i])
  {
    seq(|s|, i requires 0 <= i < |s| => LowerChar(s[i]))
  }

  /** Python's str.upper() on ASCII letters and the basic Cyrillic small letters. */
  function UpperChar(c: char): (r: char)
    ensures 'a' <= c <= 'z' ==> r as int == c as int - 32
    ensures !('a' <= c <= 'z') && !('\U{430}' <= c <= '\U{44f}') && c != '\U{451}' ==> r == c
  {
    if 'a' <= c <= 'z' then (c as int - 32) as char
    else if '\U{430}' <= c <= '\U{44f}' then (c as int - 32) as char
    else if c == '\U{451}' then '\U{401}'
    else c
  }

  function Upper(s: string): (r: string)
    ensures |r| == |s|
    ensures forall i :: 0 <= i < |s| ==> r[i] == UpperChar(s[i])
  {
    seq(|s|, i requires 0 <= i < |s| => UpperChar(s[i]))
  }

  /** lower() undoes upper() on the letters upper() changes. */
  lemma LowerUpperChar(c: char)
    requires ('a' <= c <= 'z') || ('\U{430}' <= c <= '\U{44f}') || c == '\U{451}'
    ensures LowerChar(UpperChar(c)) == c
  {
  }

  /** `w` occurs in `s` starting at position `i`. */
  predicate HasAt(s: string, i: nat, w: string) {
    i + |w| <= |s| && s[i..i + |w|] == w
  }

  /** Python's `w in s` on strings. */
  predicate Contains(s: string, w: string) {
    exists i: nat | i <= |s| :: HasAt(s, i, w)
  }

  predicate StartsWith(s: string, p: string) {
    |p| <= |s| && s[..|p|] == p
  }

  /** `s[:n] + '...' if len(s) > n else s`, the description cut the lists use. */
  function Truncate(s: string, n: nat): (r: string)
    ensures |s| <= n ==> r == s
    ensures |s| > n ==> |r| == n + 3 && r[..n] == s[..n] && r[n..] == "..."
    ensures |r| <= n + 3
  {
    if |s| > n then s[..n] + "..." else s
  }

  /** Python's s.split(c) for a one-character separator. */
  function SplitOn(s: string, c: char): (r: seq<string>)
    ensures |r| >= 1
    ensures forall k :: 0 <= k < |r| ==> c !in r[k]
  {
    if s == [] then [""]
    else
      var rest := SplitOn(s[1..], c);
      if s[0] == c then [""] + rest
      else [[s[0]] + rest[0]] + rest[1..]
  }

  /** A text without the separator is one piece. */
  lemma {:induction false} SplitOnNoSeparator(s: string, c: char)
    requires c !in s
    ensures SplitOn(s, c) == [s]
  {
    if s != [] {
      assert forall k :: 0 <= k < |s[1..]| ==> s[1..][k] == s[k + 1];
      SplitOnNoSeparator(s[1..], c);
      assert [s[0]] + s[1..] == s;
    }
  }

  /** Splitting `p + [c] + v` where `p` has no separator yields `p` first and then the pieces of `v`. */
  lemma {:induction false} SplitOnFirst(p: string, c: char, v: string)
    requires c !in p
    ensures SplitOn(p + [c] + v, c) == [p] + SplitOn(v, c)
  {
    if p == [] {
      assert p + [c] + v == [c] + v;
      assert ([c] + v)[1..] == v;
    } else {
      var s := p + [c] + v;
      assert s[1..] == p[1..] + [c] + v;
      assert forall k :: 0 <= k < |p[1..]| ==> p[1..][k] == p[k + 1];
      SplitOnFirst(p[1..], c, v);
      assert [p[0]] + p[1..] == p;
    }
  }

  /** s.split(c) has more than one piece exactly when `c` occurs in `s`. */
  lemma {:induction false} SplitOnCount(s: string, c: char)
    ensures |SplitOn(s, c)| >= 2 <==> c in s
  {
    if s != [] {
      SplitOnCount(s[1..], c);
      assert c in s <==> s[0] == c || c in s[1..];
    }
  }

  /** The first piece of s.split(c) is the longest prefix without `c`. */
  lemma {:induction false} SplitOnHead(s: string, c: char)
    ensures StartsWith(s, SplitOn(s, c)[0])
    ensures |SplitOn(s, c)[0]| < |s| ==> s[|SplitOn(s, c)[0]|] == c
  {
    if s != [] {
      SplitOnHead(s[1..], c);
    }
  }

  /** "\n".join(lines), or any other separator. */
  function Join(lines: seq<string>, sep: string): (r: string)
    ensures lines == [] ==> r == ""
    ensures |lines| == 1 ==> r == lines[0]
  {
    if lines == [] then ""
    else if |lines| == 1 then lines[0]
    else lines[0] + sep + Join(lines[1..], sep)
  }

  /** The joined text begins with the first line and ends with the last one. */
  lemma {:induction false} JoinEnds(lines: seq<string>, sep: string)
    requires |lines| >= 2
    ensures StartsWith(Join(lines, sep), lines[0] + sep)
    ensures |lines[|lines| - 1]| <= |Join(lines, sep)|
    ensures Join(lines, sep)[|Join(lines, sep)| - |lines[|lines| - 1]|..] == lines[|lines| - 1]
  {
    var j := Join(lines, sep);
    var rest := Join(lines[1..], sep);
    assert j == lines[0] + sep + rest;
    assert j[..|lines[0] + sep|] == lines[0] + sep;
    var last := lines[|lines| - 1];
    if |lines| == 2 {
      assert rest == lines[1];
    } else {
      JoinEnds(lines[1..], sep);
    }
    assert rest[|rest| - |last|..] == last;
    assert j[|j| - |last|..] == rest[|rest| - |last|..];
  }

  /** The texts `f` gives for the items of `xs`, one after another (`"".join(f(x) for x in xs)`). */
  function Concat<T>(xs: seq<T>, f: T -> string): string {
    if xs == [] then "" else Concat(xs[..|xs| - 1], f) + f(xs[|xs| - 1])
  }

  /** One more item adds its text at the end. */
  lemma ConcatStep<T>(xs: seq<T>, i: nat, f: T -> string)
    requires i < |xs|
    ensures Concat(xs[..i + 1], f) == Concat(xs[..i], f) + f(xs[i])
  {
    assert xs[..i + 1][..i] == xs[..i] && xs[..i + 1][i] == xs[i];
  }

  /** The texts of two runs of items are those of the first, then those of the second. */
  lemma {:induction false} ConcatAppend<T>(a: seq<T>, b: seq<T>, f: T -> string)
    ensures Concat(a + b, f) == Concat(a, f) + Concat(b, f)
  {
    if b != [] {
      var init := b[..|b| - 1];
      assert (a + b)[..|a + b| - 1] == a + init;
      assert (a + b)[|a + b| - 1] == b[|b| - 1];
      ConcatAppend(a, init, f);
      assert Concat(a + b, f) == (Concat(a, f) + Concat(init, f)) + f(b[|b| - 1]);
    } else {
      assert a + b == a;
    }
  }

  /** Each item's text sits in the whole text right after the texts of the
      items before it; the last item's text ends it. */
  lemma ConcatHas<T>(xs: seq<T>, k: nat, f: T -> string)
    requires k < |xs|
    ensures HasAt(Concat(xs, f), |Concat(xs[..k], f)|, f(xs[k]))
    ensures k == |xs| - 1 ==> |Concat(xs[..k], f)| + |f(xs[k])| == |Concat(xs, f)|
  {
    var a, b := xs[..k + 1], xs[k + 1..];
    assert xs == a + b;
    ConcatAppend(a, b, f);
    ConcatStep(xs, k, f);
    var whole := Concat(xs[..k], f) + f(xs[k]) + Concat(b, f);
    assert whole[|Concat(xs[..k], f)|..|Concat(xs[..k], f)| + |f(xs[k])|] == f(xs[k]);
    if k == |xs| - 1 {
      assert b == [];
    }
  }

  /** Appends the text of each item of `xs`, in order, to `text`: the loop of
      `text += f(x)` over a list. */
  method ConcatOnto<T>(text: string, xs: seq<T>, f: T -> string) returns (r: string)
    ensures r == text + Concat(xs, f)
  {
    r := text;
    var i := 0;
    while i < |xs|
      invariant 0 <= i <= |xs|
      invariant r == text + Concat(xs[..i], f)
    {
      ConcatStep(xs, i, f);
      r := r + f(xs[i]);
      i := i + 1;
    }
    assert xs[..i] == xs;
  }
}
