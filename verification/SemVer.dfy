// internal/version: parsing, printing and rebuilding semantic versions (Semantic
// Versioning 2.0.0, items 2, 9 and 10).
module SemVer {
  import opened Wrappers
  import opened Text
  import opened Regex

  // ---- the regular expression, piece by piece ----

  const DIGITS := set ch: char | '0' <= ch <= '9'
  const POSITIVE := set ch: char | '1' <= ch <= '9'
  const NON_DIGITS := set ch: char | 'a' <= ch <= 'z' || 'A' <= ch <= 'Z' || ch == '-'
  const ID_CHARS := DIGITS + NON_DIGITS

  const NUMBER := Alt(Class({'0'}), Cat(Class(POSITIVE), Star(Class(DIGITS))))
  const PRE_IDENT := Alt(NUMBER, Cat(Star(Class(DIGITS)), Cat(Class(NON_DIGITS), Star(Class(ID_CHARS)))))
  const BUILD_IDENT := Cat(Class(ID_CHARS), Star(Class(ID_CHARS)))

  // One or more items with dots between them.
  function Dotted(item: Re): Re {
    Cat(item, Star(Cat(Class({'.'}), item)))
  }

  // The five groups that the expression captures; an optional group that takes no part in
  // the match is empty.
  datatype Groups = Groups(major: string, minor: string, patch: string, pre: string, build: string)

  function CoreOf(m: Groups): string {
    m.major + "." + m.minor + "." + m.patch
  }

  function HeadOf(m: Groups): string {
    if m.pre == "" then CoreOf(m) else CoreOf(m) + "-" + m.pre
  }

  function Assemble(m: Groups): string {
    if m.build == "" then HeadOf(m) else HeadOf(m) + "+" + m.build
  }

  // s matches the whole expression with these groups.
  ghost predicate Submatches(s: string, m: Groups) {
    && Matches(NUMBER, m.major) && Matches(NUMBER, m.minor) && Matches(NUMBER, m.patch)
    && (m.pre == "" || Matches(Dotted(PRE_IDENT), m.pre))
    && (m.build == "" || Matches(Dotted(BUILD_IDENT), m.build))
    && s == Assemble(m)
  }

  // ---- deciding the pieces without searching ----

  predicate IsPreIdent(s: string) {
    s != "" && All(s, ID_CHARS) && (AllDigits(s) ==> IsNumeric(s))
  }

  predicate IsBuildIdent(s: string) {
    s != "" && All(s, ID_CHARS)
  }

  predicate IsPreRelease(s: string) {
    forall i :: 0 <= i < |Pieces(s)| ==> IsPreIdent(Pieces(s)[i])
  }

  predicate IsBuild(s: string) {
    forall i :: 0 <= i < |Pieces(s)| ==> IsBuildIdent(Pieces(s)[i])
  }

  lemma NumberLanguage(s: string)
    ensures Matches(NUMBER, s) <==> IsNumeric(s)
  {
    MatchClassStar(POSITIVE, DIGITS, s);
    if s != "" && s[0] in POSITIVE && All(s[1..], DIGITS) {
      assert s == [s[0]] + s[1..];
    }
  }

  lemma BuildIdentLanguage(s: string)
    ensures Matches(BUILD_IDENT, s) <==> IsBuildIdent(s)
  {
    MatchClassStar(ID_CHARS, ID_CHARS, s);
    if s != "" {
      assert s == [s[0]] + s[1..];
    }
  }

  // The first character that is not a digit.
  function DigitsEnd(s: string): (k: nat)
    ensures k <= |s| && (k < |s| ==> !IsDigit(s[k]))
    ensures forall p :: 0 <= p < k ==> IsDigit(s[p])
  {
    if s == "" || !IsDigit(s[0]) then 0 else 1 + DigitsEnd(s[1..])
  }

  const WORD := Cat(Star(Class(DIGITS)), Cat(Class(NON_DIGITS), Star(Class(ID_CHARS))))

  lemma WordLanguage(s: string)
    ensures Matches(WORD, s) <==> All(s, ID_CHARS) && !AllDigits(s)
  {
    if Matches(WORD, s) {
      WordChars(s);
    }
    if All(s, ID_CHARS) && !AllDigits(s) {
      var tail := Cat(Class(NON_DIGITS), Star(Class(ID_CHARS)));
      var k := DigitsEnd(s);
      MatchStarClass(DIGITS, s[..k]);
      MatchClassStar(NON_DIGITS, ID_CHARS, s[k..]);
      MatchCat(Star(Class(DIGITS)), tail, s[..k], s[k..]);
      assert s == s[..k] + s[k..];
    }
  }

  lemma WordChars(s: string)
    requires Matches(WORD, s)
    ensures All(s, ID_CHARS) && !AllDigits(s)
  {
    var tail := Cat(Class(NON_DIGITS), Star(Class(ID_CHARS)));
    var k :| 0 <= k <= |s| && Matches(Star(Class(DIGITS)), s[..k]) && Matches(tail, s[k..]);
    MatchStarClass(DIGITS, s[..k]);
    MatchClassStar(NON_DIGITS, ID_CHARS, s[k..]);
    assert s == s[..k] + [s[k]] + s[k..][1..];
    assert s[k] == s[k..][0];
  }

  // An identifier of a pre-release has letters, digits and '-', and no leading zero when it
  // is a number.
  lemma PreIdentExact(s: string)
    ensures IsPreIdent(s) <==>
              && |s| >= 1
              && (forall i :: 0 <= i < |s| ==> 'a' <= s[i] <= 'z' || 'A' <= s[i] <= 'Z' || '0' <= s[i] <= '9' || s[i] == '-')
              && (|s| >= 2 && s[0] == '0' ==> exists i :: 0 <= i < |s| && !('0' <= s[i] <= '9'))
  {}

  lemma BuildIdentExact(s: string)
    ensures IsBuildIdent(s) <==>
              && |s| >= 1
              && (forall i :: 0 <= i < |s| ==> 'a' <= s[i] <= 'z' || 'A' <= s[i] <= 'Z' || '0' <= s[i] <= '9' || s[i] == '-')
  {}

  lemma PreIdentLanguage(s: string)
    ensures Matches(PRE_IDENT, s) <==> IsPreIdent(s)
  {
    NumberLanguage(s);
    WordLanguage(s);
  }

  // ---- dotted lists ----

  ghost predicate NoDots(item: Re) {
    forall s: string :: Matches(item, s) ==> '.' !in s
  }

  ghost predicate AllMatch(item: Re, pieces: seq<string>) {
    forall i :: 0 <= i < |pieces| ==> Matches(item, pieces[i])
  }

  function MoreOf(item: Re): Re {
    Star(Cat(Class({'.'}), item))
  }

  // What follows the first item of a dotted list is nothing, or a dot, an item and more.
  lemma MoreSplit(item: Re, t: string) returns (b: string, u: string)
    requires t != "" && Matches(MoreOf(item), t)
    ensures t == "." + b + u && Matches(item, b) && Matches(MoreOf(item), u)
  {
    var step := Cat(Class({'.'}), item);
    var n :| 0 < n <= |t| && Matches(step, t[..n]) && Matches(Star(step), t[n..]);
    u := t[n..];
    var v := t[..n];
    var d :| 0 <= d <= |v| && Matches(Class({'.'}), v[..d]) && Matches(item, v[d..]);
    b := v[d..];
    assert v[..d] == ".";
    assert v == v[..d] + b;
  }

  // Texts with a dot before each.
  function DotEach(p: seq<string>): string {
    if p == [] then "" else "." + p[0] + DotEach(p[1..])
  }

  lemma {:induction false} MorePieces(item: Re, t: string) returns (p: seq<string>)
    requires Matches(MoreOf(item), t)
    ensures AllMatch(item, p) && DotEach(p) == t
    decreases |t|
  {
    p := [];
    if t != "" {
      var b, u := MoreSplit(item, t);
      var rest := MorePieces(item, u);
      p := [b] + rest;
      assert p[1..] == rest;
    }
  }

  lemma DotEachCons(a: string, p: seq<string>)
    requires p != []
    ensures a + DotEach(p) == a + "." + (p[0] + DotEach(p[1..]))
  {
    DotBetween(a, p[0], DotEach(p[1..]));
  }

  lemma DotBetween(a: string, b: string, rest: string)
    ensures a + ("." + b + rest) == a + "." + (b + rest)
  {}

  lemma {:induction false} PiecesOfDotEach(a: string, p: seq<string>)
    requires '.' !in a && forall i :: 0 <= i < |p| ==> '.' !in p[i]
    ensures Pieces(a + DotEach(p)) == [a] + p
    decreases |p|
  {
    if p == [] {
      PiecesCons(a, "");
      assert a + "" == a;
    } else {
      PiecesOfDotEach(p[0], p[1..]);
      DotEachCons(a, p);
      PiecesCons(a, p[0] + DotEach(p[1..]));
      assert [p[0]] + p[1..] == p;
    }
  }

  lemma SplitDotted(item: Re, s: string) returns (first: string, more: string)
    requires Matches(Dotted(item), s)
    ensures s == first + more && Matches(item, first) && Matches(MoreOf(item), more)
  {
    var k :| 0 <= k <= |s| && Matches(item, s[..k]) && Matches(MoreOf(item), s[k..]);
    first, more := s[..k], s[k..];
  }

  lemma DottedHasPieces(item: Re, s: string)
    requires NoDots(item) && Matches(Dotted(item), s)
    ensures AllMatch(item, Pieces(s))
  {
    var first, more := SplitDotted(item, s);
    var p := MorePieces(item, more);
    PiecesOfDotEach(first, p);
  }

  lemma {:induction false} JoinIsDotEach(p: seq<string>)
    requires p != []
    ensures Join(p) == p[0] + DotEach(p[1..])
  {
    if |p| > 1 {
      JoinIsDotEach(p[1..]);
      DotEachCons(p[0], p[1..]);
    }
  }

  lemma {:induction false} DotEachMatches(item: Re, p: seq<string>)
    requires AllMatch(item, p)
    ensures Matches(MoreOf(item), DotEach(p))
  {
    if p != [] {
      DotEachMatches(item, p[1..]);
      MatchCat(Class({'.'}), item, ".", p[0]);
      MatchMore(Cat(Class({'.'}), item), "." + p[0], DotEach(p[1..]));
    }
  }

  lemma MatchMore(body: Re, a: string, b: string)
    requires a != "" && Matches(body, a) && Matches(Star(body), b)
    ensures Matches(Star(body), a + b)
  {
    var t := a + b;
    assert t[..|a|] == a && t[|a|..] == b;
  }

  lemma PiecesMakeDotted(item: Re, s: string)
    requires AllMatch(item, Pieces(s))
    ensures Matches(Dotted(item), s)
  {
    JoinPieces(s);
    JoinIsDotEach(Pieces(s));
    DotEachMatches(item, Pieces(s)[1..]);
    MatchCat(item, MoreOf(item), Pieces(s)[0], DotEach(Pieces(s)[1..]));
  }

  // A dotted list is a text whose pieces between dots all match the item.
  lemma DottedLanguage(item: Re, s: string)
    requires NoDots(item)
    ensures Matches(Dotted(item), s) <==> AllMatch(item, Pieces(s))
  {
    if Matches(Dotted(item), s) {
      DottedHasPieces(item, s);
    }
    if AllMatch(item, Pieces(s)) {
      PiecesMakeDotted(item, s);
    }
  }

  // The pre-release group of the expression is exactly what IsPreRelease decides.
  lemma PreReleaseLanguage(s: string)
    ensures Matches(Dotted(PRE_IDENT), s) <==> IsPreRelease(s)
  {
    forall t: string | Matches(PRE_IDENT, t) ensures '.' !in t {
      PreIdentLanguage(t);
    }
    DottedLanguage(PRE_IDENT, s);
    forall i | 0 <= i < |Pieces(s)| ensures Matches(PRE_IDENT, Pieces(s)[i]) <==> IsPreIdent(Pieces(s)[i]) {
      PreIdentLanguage(Pieces(s)[i]);
    }
  }

  lemma BuildLanguage(s: string)
    ensures Matches(Dotted(BUILD_IDENT), s) <==> IsBuild(s)
  {
    forall t: string | Matches(BUILD_IDENT, t) ensures '.' !in t {
      BuildIdentLanguage(t);
    }
    DottedLanguage(BUILD_IDENT, s);
    forall i | 0 <= i < |Pieces(s)| ensures Matches(BUILD_IDENT, Pieces(s)[i]) <==> IsBuildIdent(Pieces(s)[i]) {
      BuildIdentLanguage(Pieces(s)[i]);
    }
  }

  // ---- finding the groups ----

  // The text before and after the first ch; no text after it when ch is missing.
  function CutAt(s: string, ch: char): (string, Option<string>) {
    var i := IndexOf(s, ch);
    if i == |s| then (s, None) else (s[..i], Some(s[i + 1..]))
  }

  function FindSubmatch(s: string): Option<Groups> {
    var (head, build) := CutAt(s, '+');
    var (core, pre) := CutAt(head, '-');
    var nums := Pieces(core);
    if |nums| == 3 && IsNumeric(nums[0]) && IsNumeric(nums[1]) && IsNumeric(nums[2])
       && (pre.None? || IsPreRelease(pre.value)) && (build.None? || IsBuild(build.value))
    then Some(Groups(nums[0], nums[1], nums[2], if pre.Some? then pre.value else "", if build.Some? then build.value else ""))
    else None
  }

  // Characters of a dotted list of identifiers.
  predicate IsDottedChars(s: string) {
    forall i :: 0 <= i < |s| ==> s[i] in ID_CHARS || s[i] == '.'
  }

  lemma {:induction false} PiecesChars(s: string)
    requires forall i :: 0 <= i < |Pieces(s)| ==> All(Pieces(s)[i], ID_CHARS)
    ensures IsDottedChars(s)
    decreases |s|
  {
    var i := IndexOf(s, '.');
    if i < |s| {
      assert Pieces(s)[1..] == Pieces(s[i + 1..]);
      PiecesChars(s[i + 1..]);
      assert s == s[..i] + "." + s[i + 1..];
      assert All(Pieces(s)[0], ID_CHARS);
    } else {
      assert All(Pieces(s)[0], ID_CHARS);
    }
  }

  lemma NoSeparators(s: string)
    ensures IsNumeric(s) ==> '+' !in s && '-' !in s && '.' !in s
    ensures IsPreRelease(s) ==> IsDottedChars(s) && s != "" && '+' !in s
    ensures IsBuild(s) ==> IsDottedChars(s) && s != ""
  {
    if IsPreRelease(s) || IsBuild(s) {
      PiecesChars(s);
      var first := Pieces(s)[0];
      assert first != "";
    }
  }

  // Cutting at a separator that the first part does not hold.
  lemma CutParts(a: string, ch: char, b: string)
    requires ch !in a
    ensures CutAt(a, ch) == (a, None) && CutAt(a + [ch] + b, ch) == (a, Some(b))
  {
    IndexOfEnd(a, ch, b);
    assert (a + [ch] + b)[..|a|] == a && (a + [ch] + b)[|a| + 1..] == b;
  }

  lemma CutAtParts(s: string, ch: char)
    ensures var (a, b) := CutAt(s, ch);
            ch !in a && s == (match b case None => a case Some(t) => a + [ch] + t)
  {
    var i := IndexOf(s, ch);
    if i < |s| {
      assert s == s[..i] + [ch] + s[i + 1..];
    }
  }

  lemma CorePieces(a: string, b: string, c: string)
    requires '.' !in a && '.' !in b && '.' !in c
    ensures Pieces(a + "." + b + "." + c) == [a, b, c]
  {
    var bc := b + "." + c;
    calc {
      Pieces(a + "." + b + "." + c);
      { ThreeTexts(a, b, c); }
      Pieces(a + "." + bc);
      { PiecesCons(a, bc); }
      [a] + Pieces(bc);
      { PiecesCons(b, c); }
      [a] + ([b] + Pieces(c));
      { PiecesCons(c, ""); }
      [a, b, c];
    }
  }

  lemma ThreeTexts(a: string, b: string, c: string)
    ensures a + "." + b + "." + c == a + "." + (b + "." + c)
  {}

  lemma CoreJoined(core: string)
    requires |Pieces(core)| == 3
    ensures core == Pieces(core)[0] + "." + Pieces(core)[1] + "." + Pieces(core)[2]
  {
    JoinPieces(core);
    JoinThree(Pieces(core)[0], Pieces(core)[1], Pieces(core)[2]);
    assert Pieces(core) == [Pieces(core)[0], Pieces(core)[1], Pieces(core)[2]];
  }

  lemma JoinThree(a: string, b: string, c: string)
    ensures Join([a, b, c]) == a + "." + b + "." + c
  {
    assert Join([c]) == c;
    assert Join([b, c]) == b + "." + c by {
      assert [b, c][1..] == [c];
    }
    assert Join([a, b, c]) == a + "." + (b + "." + c) by {
      assert [a, b, c][1..] == [b, c];
    }
  }

  // The groups as the deciders see them.
  predicate ValidGroups(m: Groups) {
    && IsNumeric(m.major) && IsNumeric(m.minor) && IsNumeric(m.patch)
    && (m.pre == "" || IsPreRelease(m.pre))
    && (m.build == "" || IsBuild(m.build))
  }

  lemma SubmatchesDecided(s: string, m: Groups)
    ensures Submatches(s, m) <==> ValidGroups(m) && s == Assemble(m)
  {
    NumberLanguage(m.major);
    NumberLanguage(m.minor);
    NumberLanguage(m.patch);
    PreReleaseLanguage(m.pre);
    BuildLanguage(m.build);
  }

  function Present(s: string): Option<string> {
    if s == "" then None else Some(s)
  }

  lemma HeadCuts(m: Groups)
    requires ValidGroups(m)
    ensures '+' !in HeadOf(m) && CutAt(HeadOf(m), '-') == (CoreOf(m), Present(m.pre))
    ensures Pieces(CoreOf(m)) == [m.major, m.minor, m.patch]
  {
    NoSeparators(m.major);
    NoSeparators(m.minor);
    NoSeparators(m.patch);
    NoSeparators(m.pre);
    CorePieces(m.major, m.minor, m.patch);
    CutParts(CoreOf(m), '-', m.pre);
  }

  lemma FindAssembled(m: Groups)
    requires ValidGroups(m)
    ensures FindSubmatch(Assemble(m)) == Some(m)
  {
    HeadCuts(m);
    BuildCuts(m);
  }

  lemma BuildCuts(m: Groups)
    requires '+' !in HeadOf(m)
    ensures CutAt(Assemble(m), '+') == (HeadOf(m), Present(m.build))
  {
    CutParts(HeadOf(m), '+', m.build);
  }

  lemma FoundAssembles(s: string)
    requires FindSubmatch(s).Some?
    ensures ValidGroups(FindSubmatch(s).value) && Assemble(FindSubmatch(s).value) == s
  {
    var m := FindSubmatch(s).value;
    NoSeparators(m.pre);
    NoSeparators(m.build);
    CutAtParts(s, '+');
    var head := CutAt(s, '+').0;
    CutAtParts(head, '-');
    CoreJoined(CutAt(head, '-').0);
    assert CutAt(head, '-').0 == CoreOf(m);
    assert head == HeadOf(m);
  }

  // Looking for the first '+', the first '-' and the dots finds the groups of a match and
  // finds nothing else: a text matches the expression with at most one choice of groups,
  // despite the '-' and '.' that a pre-release may hold.
  lemma FindSubmatchExact(s: string, m: Groups)
    ensures FindSubmatch(s) == Some(m) <==> Submatches(s, m)
  {
    SubmatchesDecided(s, m);
    if FindSubmatch(s) == Some(m) {
      FoundAssembles(s);
    }
    if ValidGroups(m) && s == Assemble(m) {
      FindAssembled(m);
    }
  }
}
