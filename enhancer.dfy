/** The description enhancer: it splits the client's text into sentences, picks
    the long ones as key points, classifies the project by keywords, flags
    urgency, looks for a budget, and renders everything as a sectioned report for
    the administrator. All matching runs on the lower-cased text. */
module Enhancer {
  import opened Wrappers
  import opened Strings
  import Decimal

  // ---------------------------------------------------------------- sentences

  predicate IsSentenceEnd(c: char) {
    c == '.' || c == '!' || c == '?' || c == ';'
  }

  /** The separator `[.!?;]\s+` starts at position `i`. */
  predicate BreakAt(s: string, i: nat) {
    i + 1 < |s| && IsSentenceEnd(s[i]) && IsSpace(s[i + 1])
  }

  /** `s` holds no separator. */
  ghost predicate NoBreak(s: string) {
    forall j: nat :: !BreakAt(s, j)
  }

  /** The leftmost separator at or after `i`. */
  function NextBreak(s: string, i: nat): (r: Option<nat>)
    ensures r.Some? ==> i <= r.value && BreakAt(s, r.value)
    ensures r.Some? ==> forall j: nat :: i <= j < r.value ==> !BreakAt(s, j)
    ensures r.None? ==> forall j: nat :: i <= j ==> !BreakAt(s, j)
    decreases |s| - i
  {
    if i + 1 >= |s| then None
    else if BreakAt(s, i) then Some(i)
    else NextBreak(s, i + 1)
  }

  /** re.split(r'[.!?;]\s+', s): the pieces between the separators, each
      separator taking the whole run of white space after its mark. */
  function Sentences(s: string): (r: seq<string>)
    ensures |r| >= 1
    ensures NoBreak(s) ==> r == [s]
    ensures forall k :: 0 <= k < |r| ==> NoBreak(r[k])
    decreases |s|
  {
    match NextBreak(s, 0)
    case None => [s]
    case Some(i) =>
      var e := i + 1 + LeadingSpaces(s[i + 1..]);
      NoBreakBefore(s, i);
      [s[..i]] + Sentences(s[e..])
  }

  /** The text before the leftmost separator holds none. */
  lemma NoBreakBefore(s: string, i: nat)
    requires i <= |s|
    requires forall j: nat :: j < i ==> !BreakAt(s, j)
    ensures NoBreak(s[..i])
  {
    forall j: nat ensures !BreakAt(s[..i], j) {
      if BreakAt(s[..i], j) {
        assert BreakAt(s, j);
      }
    }
  }

  /** A text with a separator splits into at least two pieces, the first of them
      the text before the leftmost separator. */
  lemma SentencesSplit(s: string, i: nat)
    requires BreakAt(s, i)
    requires forall j: nat :: j < i ==> !BreakAt(s, j)
    ensures |Sentences(s)| >= 2 && Sentences(s)[0] == s[..i]
  {
    assert NextBreak(s, 0) == Some(i);
  }

  /** The split, piece by piece: a text made of a piece without separators, a
      sentence mark, a run of white space and a rest that does not start with
      white space splits into that piece followed by the pieces of the rest.
      With `NoBreak(s) ==> Sentences(s) == [s]` this fixes every piece. */
  lemma SentencesFirst(a: string, m: char, w: string, b: string)
    requires NoBreak(a) && IsSentenceEnd(m)
    requires w != [] && AllSpace(w)
    requires b == [] || !IsSpace(b[0])
    ensures Sentences(a + [m] + w + b) == [a] + Sentences(b)
  {
    var s := a + [m] + w + b;
    PiecesOf(a, m, w, b);
    FirstBreakAfter(a, m, w + b);
    SentencesUnfold(s, |a|);
    SpaceRunLength(w, b);
  }

  /** One step of the split: the piece before the leftmost separator, then the
      split of what follows the separator's white-space run. */
  lemma SentencesUnfold(s: string, i: nat)
    requires NextBreak(s, 0) == Some(i)
    ensures Sentences(s) == [s[..i]] + Sentences(s[i + 1 + LeadingSpaces(s[i + 1..])..])
  {
    var e := i + 1 + LeadingSpaces(s[i + 1..]);
    var rest := Sentences(s[e..]);
    assert Sentences(s) == [s[..i]] + rest;
  }

  /** Where the parts of `a + [m] + w + b` sit. */
  lemma PiecesOf(a: string, m: char, w: string, b: string)
    ensures var s := a + [m] + w + b;
            && s == a + [m] + (w + b)
            && s[..|a|] == a && s[|a| + 1..] == w + b && s[|a| + 1 + |w|..] == b
  {
    var s := a + [m] + w + b;
    assert s == a + [m] + (w + b);
    assert s[|a| + 1..] == w + b;
    assert (w + b)[|w|..] == b;
  }

  /** The first separator of `a + [m] + t` is the mark `m`, when `a` has none
      and `t` starts with white space. */
  lemma FirstBreakAfter(a: string, m: char, t: string)
    requires NoBreak(a) && IsSentenceEnd(m)
    requires t != [] && IsSpace(t[0])
    ensures NextBreak(a + [m] + t, 0) == Some(|a|)
  {
    var s := a + [m] + t;
    var i := |a|;
    assert s[i] == m && s[i + 1] == t[0];
    assert BreakAt(s, i);
    forall j: nat | j < i ensures !BreakAt(s, j) {
      if j + 1 < i {
        assert s[j] == a[j] && s[j + 1] == a[j + 1];
        assert !BreakAt(a, j);
      } else {
        assert s[j + 1] == m;
      }
    }
  }

  /** `\s+` after the mark takes exactly the run `w`. */
  lemma SpaceRunLength(w: string, b: string)
    requires AllSpace(w)
    requires b == [] || !IsSpace(b[0])
    ensures LeadingSpaces(w + b) == |w|
  {
    var t := w + b;
    var k := LeadingSpaces(t);
    assert forall i :: 0 <= i < |w| ==> t[i] == w[i];
    assert |w| < |t| ==> t[|w|] == b[0];
  }

  /** The stripped pieces longer than five characters, in order. */
  function KeepLong(pieces: seq<string>): (r: seq<string>)
    ensures |r| <= |pieces|
    ensures forall k :: 0 <= k < |r| ==> |r[k]| > 5 && Stripped(r[k])
  {
    if pieces == [] then []
    else
      var rest := KeepLong(pieces[1..]);
      if |Strip(pieces[0])| > 5 then [Strip(pieces[0])] + rest else rest
  }

  /** extract_key_points. */
  function ExtractKeyPoints(description: string): seq<string> {
    KeepLong(Sentences(description))
  }

  /** Every piece whose stripped form is longer than five characters is a key point. */
  lemma {:induction false} KeepLongKeeps(pieces: seq<string>, k: nat)
    requires k < |pieces| && |Strip(pieces[k])| > 5
    ensures Strip(pieces[k]) in KeepLong(pieces)
  {
    if k > 0 {
      assert pieces[1..][k - 1] == pieces[k];
      KeepLongKeeps(pieces[1..], k - 1);
    }
  }

  /** Every key point is the stripped form of some piece. */
  lemma {:induction false} KeepLongFrom(pieces: seq<string>, x: string)
    requires x in KeepLong(pieces)
    ensures exists k :: 0 <= k < |pieces| && x == Strip(pieces[k])
  {
    if x != Strip(pieces[0]) {
      KeepLongFrom(pieces[1..], x);
      var k :| 0 <= k < |pieces[1..]| && x == Strip(pieces[1..][k]);
      assert pieces[k + 1] == pieces[1..][k];
    }
  }

  /** Filtering keeps the order of the pieces: it distributes over concatenation. */
  lemma {:induction false} KeepLongAppend(a: seq<string>, b: seq<string>)
    ensures KeepLong(a + b) == KeepLong(a) + KeepLong(b)
  {
    if a == [] {
      assert a + b == b;
    } else {
      assert (a + b)[0] == a[0] && (a + b)[1..] == a[1..] + b;
      KeepLongAppend(a[1..], b);
    }
  }

  // ---------------------------------------------------------------- keywords

  /** Some keyword of the list occurs in the text. */
  predicate Mentions(text: string, keywords: seq<string>) {
    exists k :: 0 <= k < |keywords| && Contains(text, keywords[k])
  }

  /** The keyword loop: true at the first keyword that occurs in the text. */
  function AnyKeyword(text: string, keywords: seq<string>): (b: bool)
    ensures b <==> Mentions(text, keywords)
  {
    if keywords == [] then false
    else if Contains(text, keywords[0]) then true
    else
      var b := AnyKeyword(text, keywords[1..]);
      assert Mentions(text, keywords[1..]) ==> Mentions(text, keywords) by {
        if Mentions(text, keywords[1..]) {
          var k :| 0 <= k < |keywords[1..]| && Contains(text, keywords[1..][k]);
          assert keywords[k + 1] == keywords[1..][k];
        }
      }
      assert Mentions(text, keywords) ==> Mentions(text, keywords[1..]) by {
        if Mentions(text, keywords) {
          var k :| 0 <= k < |keywords| && Contains(text, keywords[k]);
          assert k > 0 && keywords[1..][k - 1] == keywords[k];
        }
      }
      b
  }

  datatype Category = Category(name: string, keywords: seq<string>)

  /** The project types with their keywords, in declaration order. */
  const ProjectTypes: seq<Category> := [
    Category("Ремонт", ["ремонт", "renovation", "renovacija", "отделка", "finishing"]),
    Category("Строительство", ["строительство", "construction", "gradnja", "постройка", "build"]),
    Category("Сантехника", ["сантехника", "plumbing", "водопровод", "канализация", "pipes"]),
    Category("Электрика", ["электрика", "electrical", "električni", "проводка", "wiring"]),
    Category("Кровля", ["крыша", "кровля", "roof", "roofing", "кров"]),
    Category("Фасад", ["фасад", "facade", "fasada", "внешняя отделка"]),
    Category("Интерьер", ["интерьер", "interior", "дизайн", "design"]),
    Category("Ландшафт", ["ландшафт", "landscape", "участок", "garden", "yard"])
  ]

  /** The index of the first category from `from` on with a keyword in the text. */
  function FirstCategory(text: string, cats: seq<Category>, from: nat): (r: Option<nat>)
    ensures r.Some? ==> from <= r.value < |cats| && Mentions(text, cats[r.value].keywords)
    ensures r.Some? ==> forall j :: from <= j < r.value ==> !Mentions(text, cats[j].keywords)
    ensures r.None? ==> forall j :: from <= j < |cats| ==> !Mentions(text, cats[j].keywords)
    decreases |cats| - from
  {
    if from >= |cats| then None
    else if AnyKeyword(text, cats[from].keywords) then Some(from)
    else FirstCategory(text, cats, from + 1)
  }

  /** detect_project_type. */
  function DetectProjectType(description: string): Option<string> {
    match FirstCategory(Lower(description), ProjectTypes, 0)
    case None => None
    case Some(k) => Some(ProjectTypes[k].name)
  }

  /** The type is the first category, in declaration order, with a keyword in the
      lower-cased text; there is none exactly when no keyword of any category occurs. */
  lemma ProjectTypeIsFirstMatch(description: string, k: nat)
    requires k < |ProjectTypes|
    requires Mentions(Lower(description), ProjectTypes[k].keywords)
    requires forall j :: 0 <= j < k ==> !Mentions(Lower(description), ProjectTypes[j].keywords)
    ensures DetectProjectType(description) == Some(ProjectTypes[k].name)
  {
    assert FirstCategory(Lower(description), ProjectTypes, 0) == Some(k);
  }

  lemma NoProjectType(description: string)
    ensures DetectProjectType(description).None?
            <==> forall j :: 0 <= j < |ProjectTypes| ==> !Mentions(Lower(description), ProjectTypes[j].keywords)
  {
    var r := FirstCategory(Lower(description), ProjectTypes, 0);
    if r.Some? {
      assert Mentions(Lower(description), ProjectTypes[r.value].keywords);
    }
  }

  const UrgentKeywords: seq<string> :=
    ["срочно", "urgent", "hitno", "быстро", "quickly", "asap", "немедленно", "сегодня", "today", "danas"]

  const UrgentLabel := "🔴 Срочно"
  const NormalLabel := "⚪ Обычный приоритет"

  /** extract_urgency: never None; the urgent label exactly when an urgent keyword
      occurs in the lower-cased text. */
  function ExtractUrgency(description: string): (r: Option<string>)
    ensures r.Some?
    ensures r == Some(UrgentLabel) <==> Mentions(Lower(description), UrgentKeywords)
    ensures r == Some(NormalLabel) <==> !Mentions(Lower(description), UrgentKeywords)
  {
    if AnyKeyword(Lower(description), UrgentKeywords) then Some(UrgentLabel) else Some(NormalLabel)
  }

  // ---------------------------------------------------------------- budget

  /** The end of the run of digits starting at `i`. */
  function DigitRunEnd(s: string, i: nat): (e: nat)
    requires i <= |s|
    ensures i <= e <= |s| && AllDigits(s[i..e]) && (e == |s| || !IsDigit(s[e]))
    decreases |s| - i
  {
    if i < |s| && IsDigit(s[i]) then
      var e := DigitRunEnd(s, i + 1);
      assert forall k :: 0 <= k < e - i ==> s[i..e][k] == s[i + k];
      e
    else i
  }

  /** The end of the run of white space starting at `i`. */
  function SpaceRunEnd(s: string, i: nat): (e: nat)
    requires i <= |s|
    ensures i <= e <= |s| && (forall k :: i <= k < e ==> IsSpace(s[k])) && (e == |s| || !IsSpace(s[e]))
    decreases |s| - i
  {
    if i < |s| && IsSpace(s[i]) then SpaceRunEnd(s, i + 1) else i
  }

  /** The end of the run of ':' and white space starting at `i`. */
  function CueRunEnd(s: string, i: nat): (e: nat)
    requires i <= |s|
    ensures i <= e <= |s| && (e == |s| || (s[e] != ':' && !IsSpace(s[e])))
    decreases |s| - i
  {
    if i < |s| && (s[i] == ':' || IsSpace(s[i])) then CueRunEnd(s, i + 1) else i
  }

  /** The two shapes of budget pattern: `(\d+[\s,]?\d*)\s*<currency>` and
      `<cue>[:\s]+(\d+)`. */
  datatype BudgetPattern = Amount(currency: string) | Cue(word: string)

  const BudgetPatterns: seq<BudgetPattern> :=
    [Amount("€"), Amount("евро"), Amount("euro"), Cue("бюджет"), Cue("budget")]

  /** The group an amount pattern captures when the match starts at `i`. After the
      longest run of digits, the optional separator is taken first, then the digits
      after it; only if the currency does not follow is the match tried without it. */
  function AmountAt(s: string, currency: string, i: nat): Option<string>
    requires i <= |s|
  {
    if i == |s| || !IsDigit(s[i]) then None
    else
      var p := DigitRunEnd(s, i);
      if p < |s| && (IsSpace(s[p]) || s[p] == ',') && HasAt(s, SpaceRunEnd(s, DigitRunEnd(s, p + 1)), currency) then
        Some(s[i..DigitRunEnd(s, p + 1)])
      else if HasAt(s, SpaceRunEnd(s, p), currency) then Some(s[i..p])
      else None
  }

  /** The group a cue pattern captures when the match starts at `i`. */
  function CueAt(s: string, word: string, i: nat): Option<string>
    requires i <= |s|
  {
    if !HasAt(s, i, word) then None
    else
      var j := i + |word|;
      var k := CueRunEnd(s, j);
      if j < k < |s| && IsDigit(s[k]) then Some(s[k..DigitRunEnd(s, k)]) else None
  }

  function MatchAt(s: string, pat: BudgetPattern, i: nat): Option<string>
    requires i <= |s|
  {
    match pat
    case Amount(c) => AmountAt(s, c, i)
    case Cue(w) => CueAt(s, w, i)
  }

  /** Every captured group is a non-empty piece of the text starting with a digit. */
  lemma MatchAtGroup(s: string, pat: BudgetPattern, i: nat)
    requires i <= |s| && MatchAt(s, pat, i).Some?
    ensures var g := MatchAt(s, pat, i).value; g != [] && IsDigit(g[0]) && Contains(s, g)
  {
    match pat
    case Amount(c) =>
      var g := AmountAtGroup(s, c, i);
      assert HasAt(s, i, g);
    case Cue(w) =>
      var k := CueAtGroup(s, w, i);
      assert HasAt(s, k, CueAt(s, w, i).value);
  }

  /** An amount's group starts at the match: the digit run at `i`, maybe extended. */
  lemma AmountAtGroup(s: string, c: string, i: nat) returns (g: string)
    requires i <= |s| && AmountAt(s, c, i).Some?
    ensures g == AmountAt(s, c, i).value && g != [] && IsDigit(g[0]) && HasAt(s, i, g)
  {
    g := AmountAt(s, c, i).value;
    var p := DigitRunEnd(s, i);
    assert i < p;
    if p < |s| && (IsSpace(s[p]) || s[p] == ',') && HasAt(s, SpaceRunEnd(s, DigitRunEnd(s, p + 1)), c) {
      assert g == s[i..DigitRunEnd(s, p + 1)];
    } else {
      assert g == s[i..p];
    }
  }

  /** A cue's group is the digit run after the cue word and its ':'/space run. */
  lemma CueAtGroup(s: string, w: string, i: nat) returns (k: nat)
    requires i <= |s| && CueAt(s, w, i).Some?
    ensures var g := CueAt(s, w, i).value; g != [] && IsDigit(g[0]) && HasAt(s, k, g)
  {
    k := CueRunEnd(s, i + |w|);
    assert CueAt(s, w, i).value == s[k..DigitRunEnd(s, k)];
  }

  /** re.search: the leftmost start at or after `i` where the pattern matches. */
  function SearchFrom(s: string, pat: BudgetPattern, i: nat): (r: Option<nat>)
    requires i <= |s|
    ensures r.Some? ==> i <= r.value <= |s| && MatchAt(s, pat, r.value).Some?
    ensures r.Some? ==> forall j :: i <= j < r.value ==> MatchAt(s, pat, j).None?
    ensures r.None? ==> forall j :: i <= j <= |s| ==> MatchAt(s, pat, j).None?
    decreases |s| - i
  {
    if MatchAt(s, pat, i).Some? then Some(i)
    else if i == |s| then None
    else SearchFrom(s, pat, i + 1)
  }

  /** The group of the first pattern, in list order, that matches somewhere. */
  function FirstMention(s: string, pats: seq<BudgetPattern>): (r: Option<string>)
    ensures r.None? <==> forall k, j :: 0 <= k < |pats| && 0 <= j <= |s| ==> MatchAt(s, pats[k], j).None?
    ensures r.Some? ==> r.value != [] && IsDigit(r.value[0]) && Contains(s, r.value)
  {
    if pats == [] then None
    else
      match SearchFrom(s, pats[0], 0)
      case Some(j) =>
        MatchAtGroup(s, pats[0], j);
        MatchAt(s, pats[0], j)
      case None =>
        var r := FirstMention(s, pats[1..]);
        assert forall k :: 1 <= k < |pats| ==> pats[k] == pats[1..][k - 1];
        r
  }

  /** The group is that of the first pattern, in list order, that matches
      somewhere, taken at that pattern's leftmost match. */
  lemma {:induction false} FirstMentionIsFirstPattern(s: string, pats: seq<BudgetPattern>, k: nat)
    requires k < |pats| && SearchFrom(s, pats[k], 0).Some?
    requires forall j :: 0 <= j < k ==> SearchFrom(s, pats[j], 0).None?
    ensures FirstMention(s, pats) == MatchAt(s, pats[k], SearchFrom(s, pats[k], 0).value)
  {
    if k > 0 {
      assert SearchFrom(s, pats[0], 0).None?;
      var rest := pats[1..];
      assert rest[k - 1] == pats[k];
      assert forall j :: 0 <= j < k - 1 ==> rest[j] == pats[j + 1];
      FirstMentionIsFirstPattern(s, rest, k - 1);
    }
  }

  const BudgetPrefix := "💰 Упомянут бюджет: ~"

  /** extract_budget_mention: the prefix and the captured group of the first
      pattern that matches the lower-cased text; None when none matches. The group
      is a piece of the lower-cased text that starts with a digit. */
  function ExtractBudgetMention(description: string): (r: Option<string>)
    ensures r.None? <==>
              forall k, j :: 0 <= k < |BudgetPatterns| && 0 <= j <= |Lower(description)| ==>
                MatchAt(Lower(description), BudgetPatterns[k], j).None?
    ensures r.Some? ==> StartsWith(r.value, BudgetPrefix)
    ensures r.Some? ==> var g := r.value[|BudgetPrefix|..];
                        g != [] && IsDigit(g[0]) && Contains(Lower(description), g)
  {
    match FirstMention(Lower(description), BudgetPatterns)
    case None => None
    case Some(g) =>
      assert (BudgetPrefix + g)[|BudgetPrefix|..] == g;
      Some(BudgetPrefix + g)
  }

  /** The mention is the prefix and the group of the first budget pattern, in
      list order, that matches the lower-cased text, at its leftmost match. */
  lemma BudgetIsFirstPattern(description: string, k: nat)
    requires k < |BudgetPatterns| && SearchFrom(Lower(description), BudgetPatterns[k], 0).Some?
    requires forall j :: 0 <= j < k ==> SearchFrom(Lower(description), BudgetPatterns[j], 0).None?
    ensures var s := Lower(description);
            var g := MatchAt(s, BudgetPatterns[k], SearchFrom(s, BudgetPatterns[k], 0).value);
            g.Some? && ExtractBudgetMention(description) == Some(BudgetPrefix + g.value)
  {
    FirstMentionIsFirstPattern(Lower(description), BudgetPatterns, k);
  }

  /** On a text already in lower case, the mention is the prefix and the group. */
  lemma MentionOfLowercase(d: string, g: string)
    requires Lower(d) == d && FirstMention(d, BudgetPatterns) == Some(g)
    ensures ExtractBudgetMention(d) == Some(BudgetPrefix + g)
  {
  }

  lemma ThousandsGroup()
    ensures FirstMention("2 000€", BudgetPatterns) == Some("2 000")
  {
    var s := "2 000€";
    assert DigitRunEnd(s, 0) == 1;
    assert DigitRunEnd(s, 2) == 5;
    assert SpaceRunEnd(s, 5) == 5;
    assert HasAt(s, 5, "€");
    assert s[0..5] == "2 000";
    assert AmountAt(s, "€", 0) == Some("2 000");
    assert SearchFrom(s, BudgetPatterns[0], 0) == Some(0);
  }

  /** A space between the thousands stays inside the amount. */
  lemma BudgetWithThousandsSpace()
    ensures ExtractBudgetMention("2 000€") == Some(BudgetPrefix + "2 000")
  {
    assert Lower("2 000€") == "2 000€";
    ThousandsGroup();
    MentionOfLowercase("2 000€", "2 000");
  }

  lemma TrailingSpaceGroup()
    ensures FirstMention("100 €", BudgetPatterns) == Some("100 ")
  {
    var s := "100 €";
    assert DigitRunEnd(s, 0) == 3;
    assert DigitRunEnd(s, 4) == 4;
    assert SpaceRunEnd(s, 4) == 4;
    assert HasAt(s, 4, "€");
    assert s[0..4] == "100 ";
    assert AmountAt(s, "€", 0) == Some("100 ");
    assert SearchFrom(s, BudgetPatterns[0], 0) == Some(0);
  }

  /** The optional separator is taken even when no digits follow it, so the space
      before the currency ends up in the group. */
  lemma BudgetKeepsTrailingSpace()
    ensures ExtractBudgetMention("100 €") == Some(BudgetPrefix + "100 ")
  {
    assert Lower("100 €") == "100 €";
    TrailingSpaceGroup();
    MentionOfLowercase("100 €", "100 ");
  }

  // ---------------------------------------------------------------- report

  /** The dictionary structure_description returns. */
  datatype Structured = Structured(
    originalDescription: string,
    keyPoints: seq<string>,
    projectType: Option<string>,
    urgency: Option<string>,
    budget: Option<string>,
    clientName: string,
    clientPhone: string,
    clientEmail: Option<string>,
    analysisTimestamp: string)

  /** structure_description; `now` stands for datetime.now().isoformat(). */
  function StructureDescription(description: string, fullName: string, phone: string,
                                email: Option<string>, now: string): (r: Structured)
    ensures r.originalDescription == description
    ensures r.urgency.Some?
    ensures forall k :: 0 <= k < |r.keyPoints| ==> |r.keyPoints[k]| > 5
  {
    Structured(description, ExtractKeyPoints(description), DetectProjectType(description),
               ExtractUrgency(description), ExtractBudgetMention(description),
               fullName, phone, email, now)
  }

  /** Python truthiness of an optional string. */
  predicate Truthy(v: Option<string>) {
    v.Some? && v.value != ""
  }

  function Header(lang: string): string {
    if lang == "ru" then "📋 СТРУКТУРИРОВАННАЯ ЗАЯВКА"
    else if lang == "me" then "📋 STRUKTURIRANA PRIJAVA"
    else "📋 STRUCTURED REQUEST"
  }

  function KeyHeading(lang: string): string {
    if lang == "ru" then "✅ Ключевые требования:"
    else if lang == "me" then "✅ Ključni zahtjevi:"
    else "✅ Key Requirements:"
  }

  function OriginalHeading(lang: string): string {
    if lang == "ru" then "📝 Оригинальное описание клиента:"
    else if lang == "me" then "📝 Originalni opis klijenta:"
    else "📝 Original Client Description:"
  }

  /** The line of the point numbered `n`. */
  function PointLine(n: nat, point: string): string {
    "  " + Decimal.NatToString(n) + ". " + point
  }

  /** The numbered lines of `points`, the first one numbered `first`. */
  function PointLines(points: seq<string>, first: nat): (r: seq<string>)
    ensures |r| == |points|
    ensures forall i :: 0 <= i < |points| ==> r[i] == PointLine(first + i, points[i])
  {
    if points == [] then [] else [PointLine(first, points[0])] + PointLines(points[1..], first + 1)
  }

  lemma PointLinesSnoc(points: seq<string>, p: string, first: nat)
    ensures PointLines(points + [p], first) == PointLines(points, first) + [PointLine(first + |points|, p)]
  {
    var a, b := PointLines(points + [p], first), PointLines(points, first) + [PointLine(first + |points|, p)];
    assert |a| == |b|;
    forall i | 0 <= i < |a| ensures a[i] == b[i] {
      if i < |points| { assert (points + [p])[i] == points[i]; }
    }
  }

  /** One more point numbers one more line. */
  lemma PointLinesStep(points: seq<string>, i: nat)
    requires i < |points|
    ensures PointLines(points[..i + 1], 1) == PointLines(points[..i], 1) + [PointLine(i + 1, points[i])]
  {
    PointLinesSnoc(points[..i], points[i], 1);
    assert points[..i + 1] == points[..i] + [points[i]];
  }

  /** Two lines, the value and an empty one, when the value is truthy; nothing otherwise. */
  function Section(v: Option<string>, lead: string): (r: seq<string>)
    ensures |r| == (if Truthy(v) then 2 else 0)
    ensures Truthy(v) ==> r == [lead + v.value, ""]
  {
    if Truthy(v) then [lead + v.value, ""] else []
  }

  const TypeLabel := "🏗️ Тип проекта: "

  function KeySection(points: seq<string>, lang: string): seq<string> {
    if points == [] then [] else [KeyHeading(lang)] + PointLines(points, 1) + [""]
  }

  function Quoted(description: string): string {
    "\"" + description + "\""
  }

  /** The lines format_enhanced_description collects, in order. */
  function ReportLines(st: Structured, lang: string): seq<string> {
    [Header(lang), ""]
    + Section(st.projectType, TypeLabel)
    + Section(st.urgency, "")
    + Section(st.budget, "")
    + KeySection(st.keyPoints, lang)
    + [OriginalHeading(lang), Quoted(st.originalDescription)]
  }

  /** The size of a two-line section. */
  function Size(present: bool): nat {
    if present then 2 else 0
  }

  /** The report starts with the header and an empty line and ends with the
      original-description heading and the client's text in quotes; in between,
      each of the type, urgency and budget sections takes two lines exactly when
      its value is truthy, and the key points take their count plus two lines
      when there are any. */
  lemma ReportFrame(st: Structured, lang: string)
    ensures var l := ReportLines(st, lang);
            && |l| == 4 + Size(Truthy(st.projectType)) + Size(Truthy(st.urgency)) + Size(Truthy(st.budget))
                        + (if st.keyPoints == [] then 0 else |st.keyPoints| + 2)
            && l[0] == Header(lang) && l[1] == ""
            && l[|l| - 2] == OriginalHeading(lang)
            && l[|l| - 1] == Quoted(st.originalDescription)
  {
    ReportPieces(st, lang);
  }

  /** The budget line follows the type and urgency sections. */
  lemma ReportBudget(st: Structured, lang: string)
    requires Truthy(st.budget)
    ensures var l := ReportLines(st, lang);
            var at := 2 + Size(Truthy(st.projectType)) + Size(Truthy(st.urgency));
            at + 1 < |l| && l[at] == st.budget.value && l[at + 1] == ""
  {
    ReportPieces(st, lang);
    assert st.budget.value == "" + st.budget.value;
  }

  /** After the two-line sections comes the key-point heading and the points,
      numbered from 1 in their order. */
  lemma ReportKeyPoints(st: Structured, lang: string)
    requires st.keyPoints != []
    ensures var l := ReportLines(st, lang);
            var at := 2 + Size(Truthy(st.projectType)) + Size(Truthy(st.urgency)) + Size(Truthy(st.budget));
            && at + |st.keyPoints| + 1 < |l|
            && l[at] == KeyHeading(lang)
            && (forall i :: 0 <= i < |st.keyPoints| ==> l[at + 1 + i] == PointLine(i + 1, st.keyPoints[i]))
            && l[at + |st.keyPoints| + 1] == ""
  {
    ReportPieces(st, lang);
  }

  lemma ReportPieces(st: Structured, lang: string)
    ensures var l := ReportLines(st, lang);
            var t, u, b := Section(st.projectType, TypeLabel), Section(st.urgency, ""), Section(st.budget, "");
            var ks := KeySection(st.keyPoints, lang);
            && |t| == Size(Truthy(st.projectType)) && |u| == Size(Truthy(st.urgency)) && |b| == Size(Truthy(st.budget))
            && |l| == 4 + |t| + |u| + |b| + |ks|
            && l[0] == Header(lang) && l[1] == ""
            && l[|l| - 2] == OriginalHeading(lang) && l[|l| - 1] == Quoted(st.originalDescription)
            && (forall i :: 0 <= i < |b| ==> l[2 + |t| + |u| + i] == b[i])
            && (forall i :: 0 <= i < |ks| ==> l[2 + |t| + |u| + |b| + i] == ks[i])
            && |ks| == (if st.keyPoints == [] then 0 else |st.keyPoints| + 2)
            && (st.keyPoints != [] ==> ks[0] == KeyHeading(lang) && ks[|st.keyPoints| + 1] == "")
            && (forall i :: 0 <= i < |st.keyPoints| ==> ks[1 + i] == PointLine(i + 1, st.keyPoints[i]))
  {
    var t, u, b := Section(st.projectType, TypeLabel), Section(st.urgency, ""), Section(st.budget, "");
    var ks := KeySection(st.keyPoints, lang);
    assert ReportLines(st, lang) == [Header(lang), ""] + t + u + b + ks + [OriginalHeading(lang), Quoted(st.originalDescription)];
    SixParts([Header(lang), ""], t, u, b, ks, [OriginalHeading(lang), Quoted(st.originalDescription)]);
    KeySectionLayout(st.keyPoints, lang);
  }

  /** Indexing into six concatenated pieces. */
  lemma SixParts<T>(head: seq<T>, a: seq<T>, b: seq<T>, c: seq<T>, d: seq<T>, tail: seq<T>)
    requires |head| == 2 && |tail| == 2
    ensures var l := head + a + b + c + d + tail;
            && |l| == 4 + |a| + |b| + |c| + |d|
            && l[0] == head[0] && l[1] == head[1]
            && l[|l| - 2] == tail[0] && l[|l| - 1] == tail[1]
            && (forall i :: 0 <= i < |c| ==> l[2 + |a| + |b| + i] == c[i])
            && (forall i :: 0 <= i < |d| ==> l[2 + |a| + |b| + |c| + i] == d[i])
  {
  }

  lemma KeySectionLayout(points: seq<string>, lang: string)
    ensures var ks := KeySection(points, lang);
            && |ks| == (if points == [] then 0 else |points| + 2)
            && (points != [] ==> ks[0] == KeyHeading(lang) && ks[|points| + 1] == "")
            && (forall i :: 0 <= i < |points| ==> ks[1 + i] == PointLine(i + 1, points[i]))
  {
  }

  /** The numbering loop of format_enhanced_description: one line per point, numbered from 1. */
  method AppendPoints(lines: seq<string>, points: seq<string>) returns (out: seq<string>)
    ensures out == lines + PointLines(points, 1)
  {
    out := lines;
    var i := 0;
    while i < |points|
      invariant 0 <= i <= |points|
      invariant out == lines + PointLines(points[..i], 1)
    {
      PointLinesStep(points, i);
      out := out + [PointLine(i + 1, points[i])];
      i := i + 1;
    }
    assert points[..i] == points;
  }

  /** One optional section of format_enhanced_description: the value and an
      empty line, appended only when the value is truthy. */
  method AppendSection(lines: seq<string>, v: Option<string>, lead: string) returns (out: seq<string>)
    ensures out == lines + Section(v, lead)
  {
    out := lines;
    if Truthy(v) {
      out := out + [lead + v.value];
      out := out + [""];
    }
  }

  /** The key-point section: the heading, the numbered points and an empty
      line, appended only when there are points. */
  method AppendKeySection(lines: seq<string>, points: seq<string>, lang: string) returns (out: seq<string>)
    ensures out == lines + KeySection(points, lang)
  {
    out := lines;
    if points != [] {
      out := out + [KeyHeading(lang)];
      out := AppendPoints(out, points);
      out := out + [""];
    }
  }

  /** format_enhanced_description: the report lines, collected one append at a
      time, joined with newlines. */
  method FormatEnhancedDescription(st: Structured, lang: string) returns (text: string)
    ensures text == Join(ReportLines(st, lang), "\n")
  {
    var lines: seq<string> := [Header(lang)];
    lines := lines + [""];
    ghost var head := lines;
    lines := AppendSection(lines, st.projectType, TypeLabel);
    lines := AppendSection(lines, st.urgency, "");
    lines := AppendSection(lines, st.budget, "");
    lines := AppendKeySection(lines, st.keyPoints, lang);
    ghost var body := lines;
    lines := lines + [OriginalHeading(lang)];
    lines := lines + [Quoted(st.originalDescription)];
    assert head == [Header(lang), ""];
    assert lines == body + [OriginalHeading(lang), Quoted(st.originalDescription)];
    text := Join(lines, "\n");
  }

  /** enhance_lead_description: the structured report of the description. It
      never fails: the report always starts with the header line and ends with
      the client's text in double quotes. */
  method EnhanceLeadDescription(description: string, fullName: string, phone: string,
                                email: Option<string>, lang: string, now: string)
    returns (text: string)
    ensures text == Join(ReportLines(StructureDescription(description, fullName, phone, email, now), lang), "\n")
    ensures StartsWith(text, Header(lang) + "\n")
    ensures var q := Quoted(description); |q| <= |text| && text[|text| - |q|..] == q
  {
    var st := StructureDescription(description, fullName, phone, email, now);
    text := FormatEnhancedDescription(st, lang);
    ReportFrame(st, lang);
    JoinEnds(ReportLines(st, lang), "\n");
  }
}
