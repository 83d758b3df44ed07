/** The input checks of the lead form: the phone digit count, the email shape,
    and the inline length rules for the name and the description. */
module Validators {
  import opened Wrappers
  import opened Strings

  // ---------------------------------------------------------------- phone

  /** re.sub(r'\D', '', s): the digits of `s` in order. */
  function DigitsOf(s: string): (r: string)
    ensures AllDigits(r)
    ensures |r| <= |s|
  {
    if s == [] then ""
    else if IsDigit(s[|s| - 1]) then DigitsOf(s[..|s| - 1]) + [s[|s| - 1]]
    else DigitsOf(s[..|s| - 1])
  }

  /** The positions of `s` that hold a digit: the reference count for the phone rule. */
  function DigitPositions(s: string): set<nat> {
    set i: nat | i < |s| && IsDigit(s[i])
  }

  /** validate_phone: at least ten digits, whatever else the text holds. */
  predicate ValidatePhone(phone: string) {
    |DigitsOf(phone)| >= 10
  }

  /** Appending one character adds its position to the digit positions when it is a digit. */
  lemma DigitPositionsSnoc(t: string, c: char)
    ensures DigitPositions(t + [c]) == DigitPositions(t) + (if IsDigit(c) then {|t|} else {})
  {
    var s := t + [c];
    forall i: nat ensures i in DigitPositions(s) <==> i in DigitPositions(t) + (if IsDigit(c) then {|t|} else {}) {
      if i < |t| { assert s[i] == t[i]; }
      if i == |t| { assert s[i] == c; }
    }
  }

  /** The digits re.sub keeps are exactly as many as the digit positions of the text. */
  lemma {:induction false} DigitsOfCounts(s: string)
    ensures |DigitsOf(s)| == |DigitPositions(s)|
  {
    if s != [] {
      var t, c := s[..|s| - 1], s[|s| - 1];
      assert s == t + [c];
      DigitsOfCounts(t);
      DigitPositionsSnoc(t, c);
      assert |t| !in DigitPositions(t);
    }
  }

  /** validate_phone(s) holds exactly when `s` has at least ten digit characters. */
  lemma PhoneRule(s: string)
    ensures ValidatePhone(s) <==> |DigitPositions(s)| >= 10
  {
    DigitsOfCounts(s);
  }

  /** Keeping the digits of a concatenation keeps those of each part. */
  lemma {:induction false} DigitsOfAppend(a: string, b: string)
    ensures DigitsOf(a + b) == DigitsOf(a) + DigitsOf(b)
  {
    if b != [] {
      var ab := a + b;
      var b' := b[..|b| - 1];
      assert ab[..|ab| - 1] == a + b';
      assert ab[|ab| - 1] == b[|b| - 1];
      DigitsOfAppend(a, b');
    } else {
      assert a + b == a;
    }
  }

  /** A character that is not a digit does not change the outcome of the phone check. */
  lemma PhoneIgnoresNonDigit(a: string, c: char, b: string)
    requires !IsDigit(c)
    ensures ValidatePhone(a + [c] + b) == ValidatePhone(a + b)
  {
    DigitsOfAppend(a + [c], b);
    DigitsOfAppend(a, b);
    assert (a + [c])[..|a + [c]| - 1] == a;
  }

  // ---------------------------------------------------------------- email

  predicate LocalChar(c: char) {
    IsAsciiLetter(c) || IsDigit(c) || c == '.' || c == '_' || c == '%' || c == '+' || c == '-'
  }

  predicate DomainChar(c: char) {
    IsAsciiLetter(c) || IsDigit(c) || c == '.' || c == '-'
  }

  predicate AllLocal(s: string) {
    forall i :: 0 <= i < |s| ==> LocalChar(s[i])
  }

  predicate AllDomain(s: string) {
    forall i :: 0 <= i < |s| ==> DomainChar(s[i])
  }

  predicate AllLetters(s: string) {
    forall i :: 0 <= i < |s| ==> IsAsciiLetter(s[i])
  }

  /** The index of the first `c` in `s`. */
  function IndexOf(s: string, c: char): (r: Option<nat>)
    ensures r.None? <==> c !in s
    ensures r.Some? ==> r.value < |s| && s[r.value] == c
    ensures r.Some? ==> forall i :: 0 <= i < r.value ==> s[i] != c
  {
    if s == [] then None
    else if s[0] == c then Some(0)
    else
      match IndexOf(s[1..], c)
      case None => None
      case Some(k) => Some(k + 1)
  }

  /** The index of the last `c` in `s`. */
  function LastIndexOf(s: string, c: char): (r: Option<nat>)
    ensures r.None? <==> c !in s
    ensures r.Some? ==> r.value < |s| && s[r.value] == c
    ensures r.Some? ==> forall i :: r.value < i < |s| ==> s[i] != c
  {
    if s == [] then None
    else if s[|s| - 1] == c then Some(|s| - 1)
    else
      var t := s[..|s| - 1];
      match LastIndexOf(t, c)
      case None => None
      case Some(k) => Some(k)
  }

  /** `[a-zA-Z0-9.-]+\.[a-zA-Z]{2,}$` on the part after the '@': the top-level label
      follows the last dot. */
  predicate DomainMatches(r: string) {
    match LastIndexOf(r, '.')
    case None => false
    case Some(j) =>
      && j >= 1 && AllDomain(r[..j])
      && |r| - (j + 1) >= 2 && AllLetters(r[j + 1..])
  }

  /** The anchored pattern `^[a-zA-Z0-9._%+-]+@[a-zA-Z0-9.-]+\.[a-zA-Z]{2,}$`:
      neither side of the '@' may hold one, so the first '@' splits the text. */
  predicate EmailMatches(s: string) {
    match IndexOf(s, '@')
    case None => false
    case Some(k) => k >= 1 && AllLocal(s[..k]) && DomainMatches(s[k + 1..])
  }

  /** validate_email: the stripped text matches the pattern. */
  predicate ValidateEmail(email: string) {
    EmailMatches(Strip(email))
  }

  /** `s` is the local part `l`, an '@', the domain `d`, a dot and the top-level label `t`. */
  predicate ShapeParts(s: string, l: string, d: string, t: string) {
    && s == l + "@" + d + "." + t
    && |l| >= 1 && AllLocal(l)
    && |d| >= 1 && AllDomain(d)
    && |t| >= 2 && AllLetters(t)
  }

  /** The shape the pattern describes, L@D.T, as a reference definition. */
  ghost predicate EmailShape(s: string) {
    exists l, d, t :: ShapeParts(s, l, d, t)
  }

  /** Concatenation regrouped around the '@'. */
  lemma ShapeRegroup(l: string, d: string, t: string)
    ensures l + "@" + d + "." + t == l + "@" + (d + "." + t)
  {
    var x, y := l + "@" + d + "." + t, l + "@" + (d + "." + t);
    assert |x| == |y|;
    forall i | 0 <= i < |x| ensures x[i] == y[i] {
      if i > |l| { assert x[i] == (d + "." + t)[i - |l| - 1]; }
    }
  }

  /** Cutting a text around position `k` and gluing it back gives the text. */
  lemma CutAt(s: string, k: nat, c: char)
    requires k < |s| && s[k] == c
    ensures s == s[..k] + [c] + s[k + 1..]
  {
  }

  /** The first '@' of `l + "@" + r` is the one after `l` when `l` has none. */
  lemma FirstAtAfter(l: string, r: string)
    requires '@' !in l
    ensures IndexOf(l + "@" + r, '@') == Some(|l|)
  {
    var s := l + "@" + r;
    var k := IndexOf(s, '@').value;
    assert s[|l|] == '@';
  }

  /** The last dot of `d + "." + t` is the one before `t` when `t` has none. */
  lemma LastDotBefore(d: string, t: string)
    requires '.' !in t
    ensures LastIndexOf(d + "." + t, '.') == Some(|d|)
  {
    var r := d + "." + t;
    var j := LastIndexOf(r, '.').value;
    assert r[|d|] == '.';
  }

  /** The local part of a match: the text before its first '@'. */
  function LocalPart(s: string): string
    requires EmailMatches(s)
  {
    s[..IndexOf(s, '@').value]
  }

  /** The part of a match after its first '@'. */
  function AfterAt(s: string): string
    requires EmailMatches(s)
  {
    s[IndexOf(s, '@').value + 1..]
  }

  /** The pieces of a match carry the character classes of the pattern. */
  lemma MatchPieces(s: string)
    requires EmailMatches(s)
    ensures |LocalPart(s)| >= 1 && AllLocal(LocalPart(s)) && DomainMatches(AfterAt(s))
    ensures s == LocalPart(s) + "@" + AfterAt(s)
  {
    var k := IndexOf(s, '@').value;
    CutAt(s, k, '@');
  }

  /** A domain match splits at its last dot into a domain and a label of letters. */
  lemma DomainPieces(r: string)
    requires DomainMatches(r)
    ensures var j := LastIndexOf(r, '.').value;
            && |r[..j]| >= 1 && AllDomain(r[..j]) && |r[j + 1..]| >= 2 && AllLetters(r[j + 1..])
            && r == r[..j] + "." + r[j + 1..]
  {
    CutAt(r, LastIndexOf(r, '.').value, '.');
  }

  /** A match splits the text at its first '@' and the domain at its last dot. */
  lemma MatchesHasShape(s: string)
    requires EmailMatches(s)
    ensures EmailShape(s)
  {
    MatchPieces(s);
    var l, r := LocalPart(s), AfterAt(s);
    DomainPieces(r);
    var j := LastIndexOf(r, '.').value;
    var d, t := r[..j], r[j + 1..];
    ShapeRegroup(l, d, t);
    assert ShapeParts(s, l, d, t);
  }

  /** No local part holds an '@'. */
  lemma NoAtInLocal(l: string)
    requires AllLocal(l)
    ensures '@' !in l
  {
    forall i | 0 <= i < |l| ensures l[i] != '@' { assert LocalChar(l[i]); }
  }

  /** No top-level label holds a dot. */
  lemma NoDotInLetters(t: string)
    requires AllLetters(t)
    ensures '.' !in t
  {
    forall i | 0 <= i < |t| ensures t[i] != '.' { assert IsAsciiLetter(t[i]); }
  }

  /** A domain and a label of letters, joined by a dot, match the part after the '@'. */
  lemma DomainOf(d: string, t: string)
    requires |d| >= 1 && AllDomain(d) && |t| >= 2 && AllLetters(t)
    ensures DomainMatches(d + "." + t)
  {
    var r := d + "." + t;
    NoDotInLetters(t);
    LastDotBefore(d, t);
    assert r[..|d|] == d && r[|d| + 1..] == t;
  }

  /** Any text of the L@D.T shape is matched. */
  lemma ShapeMatches(s: string, l: string, d: string, t: string)
    requires ShapeParts(s, l, d, t)
    ensures EmailMatches(s)
  {
    var r := d + "." + t;
    ShapeRegroup(l, d, t);
    assert s == l + "@" + r;
    NoAtInLocal(l);
    FirstAtAfter(l, r);
    assert s[..|l|] == l && s[|l| + 1..] == r;
    DomainOf(d, t);
  }

  /** The first-'@', last-dot matcher accepts exactly the L@D.T shape. */
  lemma EmailMatchesShape(s: string)
    ensures EmailMatches(s) <==> EmailShape(s)
  {
    if EmailMatches(s) {
      MatchesHasShape(s);
    }
    if EmailShape(s) {
      var l, d, t :| ShapeParts(s, l, d, t);
      ShapeMatches(s, l, d, t);
    }
  }

  /** validate_email(e) holds exactly when strip(e) has the L@D.T shape. */
  lemma EmailRule(e: string)
    ensures ValidateEmail(e) <==> EmailShape(Strip(e))
  {
    EmailMatchesShape(Strip(e));
  }

  /** A text without any '@' is never an email. */
  lemma EmailNeedsAt(e: string)
    requires '@' !in e
    ensures !ValidateEmail(e)
  {
    StripKeepsOut(e, '@');
  }

  /** The smallest address the pattern admits. */
  lemma ShortestEmailAccepted()
    ensures ValidateEmail("a@b.co")
  {
    var s := "a@b.co";
    StripOfStripped(s);
    ShapeMatches(s, "a", "b", "co");
  }

  // ---------------------------------------------------------------- inline rules

  /** The name step's rule: at least two characters once stripped. */
  predicate NameAccepted(text: string) {
    |Strip(text)| >= 2
  }

  /** The description step's rule: at least ten characters once stripped. */
  predicate DescriptionAccepted(text: string) {
    |Strip(text)| >= 10
  }
}
