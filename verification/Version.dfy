// internal/version: the exported operations on version strings.
module Version {
  import opened Wrappers
  import opened Sequences
  import opened Text
  import opened Widths
  import opened SemVer

  // Consecutive characters.
  function Run(first: char, count: nat): string
    requires first as int + count <= 128
  {
    seq(count, i requires 0 <= i < count => (first as int + i) as char)
  }

  // The digits, the capital and small letters, '-' and '.'.
  const SEMANTIC_ALPHABET := Run('0', 10) + Run('A', 26) + Run('a', 26) + "-."

  datatype Parts = Parts(major: nat, minor: nat, patch: nat, preRelease: string, buildMetadata: string)

  datatype Field = Major | Minor | Patch | PreRelease | BuildMetadata
  datatype SemVerError = Malformed | OutOfRange(field: Field) | BadCharacter(field: Field)

  // strconv.ParseUint in base 10 for 32 bits.
  function ParseUint32(s: string): Option<nat> {
    if s != "" && AllDigits(s) && 0 <= DecimalValue(s) < TWO_TO_THE_32 then Some(DecimalValue(s)) else None
  }

  predicate InAlphabet(ch: char) { ch in SEMANTIC_ALPHABET }

  predicate CheckSemString(s: string) {
    forall i :: 0 <= i < |s| ==> InAlphabet(s[i])
  }

  function ParseSemVer(s: string): Result<Parts, SemVerError> {
    match FindSubmatch(s)
    case None => Err(Malformed)
    case Some(m) =>
      var major := ParseUint32(m.major);
      if major.None? then Err(OutOfRange(Major)) else
      var minor := ParseUint32(m.minor);
      if minor.None? then Err(OutOfRange(Minor)) else
      var patch := ParseUint32(m.patch);
      if patch.None? then Err(OutOfRange(Patch)) else
      if !CheckSemString(m.pre) then Err(BadCharacter(PreRelease)) else
      if !CheckSemString(m.build) then Err(BadCharacter(BuildMetadata)) else
      Ok(Parts(major.value, minor.value, patch.value, m.pre, m.build))
  }

  // The string that init assembles.
  function Print(v: Parts): string {
    FormatDecimal(v.major) + "." + FormatDecimal(v.minor) + "." + FormatDecimal(v.patch)
    + (if v.preRelease != "" then "-" + v.preRelease else "")
    + (if v.buildMetadata != "" then "+" + v.buildMetadata else "")
  }

  // uint32 numbers, and a pre-release and build that are valid or empty.
  predicate ValidParts(v: Parts) {
    && v.major < TWO_TO_THE_32 && v.minor < TWO_TO_THE_32 && v.patch < TWO_TO_THE_32
    && (v.preRelease == "" || IsPreRelease(v.preRelease))
    && (v.buildMetadata == "" || IsBuild(v.buildMetadata))
  }

  // ---- the alphabet ----

  lemma InLiteral(ch: char)
    requires ch in ID_CHARS || ch == '.'
    ensures InAlphabet(ch)
  {
    if IsDigit(ch) {
      assert SEMANTIC_ALPHABET[ch as int - '0' as int] == ch;
    } else if 'A' <= ch <= 'Z' {
      assert SEMANTIC_ALPHABET[ch as int - 'A' as int + 10] == ch;
    } else if 'a' <= ch <= 'z' {
      assert SEMANTIC_ALPHABET[ch as int - 'a' as int + 36] == ch;
    } else if ch == '-' {
      assert SEMANTIC_ALPHABET[62] == ch;
    } else {
      assert SEMANTIC_ALPHABET[63] == ch;
    }
  }

  // The alphabet is the letters, the digits, '-' and '.', and nothing else.
  lemma AlphabetExact(ch: char)
    ensures InAlphabet(ch) <==>
              'a' <= ch <= 'z' || 'A' <= ch <= 'Z' || '0' <= ch <= '9' || ch == '-' || ch == '.'
  {
    if 'a' <= ch <= 'z' || 'A' <= ch <= 'Z' || '0' <= ch <= '9' || ch == '-' || ch == '.' {
      InLiteral(ch);
    }
  }

  // Normalised text holds nothing but the alphabet.
  lemma NormalizedChars(s: string, i: nat)
    requires i < |Normalize(s)|
    ensures var ch := Normalize(s)[i];
            'a' <= ch <= 'z' || 'A' <= ch <= 'Z' || '0' <= ch <= '9' || ch == '-' || ch == '.'
  {
    NormalizePasses(s);
    AlphabetExact(Normalize(s)[i]);
  }

  // After a match of the regular expression the alphabet checks cannot fail.
  lemma AlphabetNeverFails(s: string)
    requires FindSubmatch(s).Some?
    ensures CheckSemString(FindSubmatch(s).value.pre) && CheckSemString(FindSubmatch(s).value.build)
  {
    var m := FindSubmatch(s).value;
    FoundAssembles(s);
    NoSeparators(m.pre);
    NoSeparators(m.build);
    forall i | 0 <= i < |m.pre| ensures InAlphabet(m.pre[i]) {
      InLiteral(m.pre[i]);
    }
    forall i | 0 <= i < |m.build| ensures InAlphabet(m.build[i]) {
      InLiteral(m.build[i]);
    }
  }

  // ---- parsing and printing undo each other ----

  function GroupsOf(v: Parts): Groups {
    Groups(FormatDecimal(v.major), FormatDecimal(v.minor), FormatDecimal(v.patch), v.preRelease, v.buildMetadata)
  }

  lemma PrintAssembles(v: Parts)
    ensures Print(v) == Assemble(GroupsOf(v))
  {
    var core := FormatDecimal(v.major) + "." + FormatDecimal(v.minor) + "." + FormatDecimal(v.patch);
    assert forall t: string :: t + "" == t;
    assert v.preRelease != "" ==> core + ("-" + v.preRelease) == core + "-" + v.preRelease;
    var head := if v.preRelease != "" then core + "-" + v.preRelease else core;
    assert v.buildMetadata != "" ==> head + ("+" + v.buildMetadata) == head + "+" + v.buildMetadata;
  }

  // Dots between the numbers, '-' before a pre-release, '+' before a build.
  lemma PrintExactly(v: Parts)
    ensures var core := FormatDecimal(v.major) + "." + FormatDecimal(v.minor) + "." + FormatDecimal(v.patch);
            Print(v) ==
            if v.preRelease == "" && v.buildMetadata == "" then core
            else if v.buildMetadata == "" then core + "-" + v.preRelease
            else if v.preRelease == "" then core + "+" + v.buildMetadata
            else core + "-" + v.preRelease + "+" + v.buildMetadata
  {
    PrintAssembles(v);
  }

  lemma PrintedParses(v: Parts)
    requires ValidParts(v)
    ensures ParseSemVer(Print(v)) == Ok(v)
  {
    ReadFormatted(v.major);
    ReadFormatted(v.minor);
    ReadFormatted(v.patch);
    PrintAssembles(v);
    FindAssembled(GroupsOf(v));
    AlphabetNeverFails(Print(v));
  }

  lemma ParsedNumber(s: string)
    requires IsNumeric(s) && ParseUint32(s).Some?
    ensures ParseUint32(s).value < TWO_TO_THE_32 && FormatDecimal(ParseUint32(s).value) == s
  {
    FormatRead(s);
  }

  lemma FoundValid(s: string)
    requires FindSubmatch(s).Some?
    ensures ValidGroups(FindSubmatch(s).value)
  {
    FoundAssembles(s);
  }

  lemma ParsedGroups(s: string)
    requires ParseSemVer(s).Ok?
    ensures ValidParts(ParseSemVer(s).value) && GroupsOf(ParseSemVer(s).value) == FindSubmatch(s).value
  {
    FoundValid(s);
    ParsedFrom(FindSubmatch(s).value, ParseSemVer(s).value);
  }

  lemma ParsedFrom(m: Groups, v: Parts)
    requires ValidGroups(m) && v.preRelease == m.pre && v.buildMetadata == m.build
    requires ParseUint32(m.major) == Some(v.major) && ParseUint32(m.minor) == Some(v.minor)
    requires ParseUint32(m.patch) == Some(v.patch)
    ensures ValidParts(v) && GroupsOf(v) == m
  {
    ParsedNumber(m.major);
    ParsedNumber(m.minor);
    ParsedNumber(m.patch);
  }

  lemma ParsedPrints(s: string)
    requires ParseSemVer(s).Ok?
    ensures ValidParts(ParseSemVer(s).value) && Print(ParseSemVer(s).value) == s
  {
    ParsedGroups(s);
    FoundAssembles(s);
    PrintAssembles(ParseSemVer(s).value);
  }

  // Parsing is the inverse of printing: a text parses to some parts exactly when they are
  // valid and the text is what they print as.
  lemma ParseExact(s: string, v: Parts)
    ensures ParseSemVer(s) == Ok(v) <==> ValidParts(v) && s == Print(v)
  {
    if ParseSemVer(s) == Ok(v) {
      ParsedPrints(s);
    }
    if ValidParts(v) && s == Print(v) {
      PrintedParses(v);
    }
  }

  // Parsing fails only for a text outside the expression or a number beyond 32 bits.
  lemma ParseErrorsExact(s: string)
    ensures ParseSemVer(s) == Err(Malformed) <==> forall m: Groups :: !Submatches(s, m)
    ensures ParseSemVer(s).Err? && ParseSemVer(s).error != Malformed <==>
              exists m: Groups :: Submatches(s, m)
                && (DecimalValue(m.major) >= TWO_TO_THE_32 || DecimalValue(m.minor) >= TWO_TO_THE_32
                    || DecimalValue(m.patch) >= TWO_TO_THE_32)
  {
    forall m: Groups ensures FindSubmatch(s) == Some(m) <==> Submatches(s, m) {
      FindSubmatchExact(s, m);
    }
    if FindSubmatch(s).Some? {
      var m := FindSubmatch(s).value;
      assert Submatches(s, m);
      FoundAssembles(s);
      AlphabetNeverFails(s);
      ValuePositive(m.major);
      ValuePositive(m.minor);
      ValuePositive(m.patch);
    }
  }

  // The first number beyond 32 bits is the one reported.
  lemma FieldErrorsExact(s: string, m: Groups)
    requires Submatches(s, m)
    ensures ParseSemVer(s) == Err(OutOfRange(Major)) <==> DecimalValue(m.major) > 4_294_967_295
    ensures ParseSemVer(s) == Err(OutOfRange(Minor)) <==>
              DecimalValue(m.major) <= 4_294_967_295 && DecimalValue(m.minor) > 4_294_967_295
    ensures ParseSemVer(s) == Err(OutOfRange(Patch)) <==>
              && DecimalValue(m.major) <= 4_294_967_295 && DecimalValue(m.minor) <= 4_294_967_295
              && DecimalValue(m.patch) > 4_294_967_295
  {
    FindSubmatchExact(s, m);
    FoundValid(s);
    AlphabetNeverFails(s);
    ValuePositive(m.major);
    ValuePositive(m.minor);
    ValuePositive(m.patch);
  }

  // ---- package state ----

  class Variables {
    var version: string
    var major: nat
    var minor: nat
    var patch: nat
    var preRelease: string
    var buildMetadata: string

    constructor (version: string)
      ensures this.version == version
    {
      this.version := version;
      major, minor, patch, preRelease, buildMetadata := 0, 0, 0, "", "";
    }

    function Current(): Parts
      reads this
    {
      Parts(major, minor, patch, preRelease, buildMetadata)
    }

    // init; `commit` is the commit ID that the build recorded, if any. The version string
    // always is what the variables print as.
    method Init(commit: string) returns (panicked: bool)
      modifies this
      ensures panicked <==> ParseSemVer(old(version)).Err?
      ensures !panicked ==>
                var p := ParseSemVer(old(version)).value;
                Current() == if p.buildMetadata == "" then p.(buildMetadata := commit) else p
      ensures !panicked ==> version == Print(Current())
    {
      var parsed := ParseSemVer(version);
      if parsed.Err? {
        return true;
      }
      ParsedPrints(version);
      major, minor, patch := parsed.value.major, parsed.value.minor, parsed.value.patch;
      preRelease, buildMetadata := parsed.value.preRelease, parsed.value.buildMetadata;
      if buildMetadata == "" {
        buildMetadata := commit;
        if buildMetadata != "" {
          version := FormatDecimal(major) + "." + FormatDecimal(minor) + "." + FormatDecimal(patch);
          assert version + "" == version;
          if preRelease != "" {
            version := version + ("-" + preRelease);
          }
          version := version + ("+" + buildMetadata);
        }
      }
      return false;
    }
  }

  // What init rebuilds parses again exactly when the commit ID is a valid build string, and
  // then to the same numbers and pre-release with that build.
  lemma RebuildExact(s: string, commit: string)
    requires ParseSemVer(s).Ok? && ParseSemVer(s).value.buildMetadata == "" && commit != ""
    ensures var rebuilt := ParseSemVer(s).value.(buildMetadata := commit);
            && (ParseSemVer(Print(rebuilt)).Ok? <==> IsBuild(commit))
            && (IsBuild(commit) ==> ParseSemVer(Print(rebuilt)) == Ok(rebuilt))
  {
    var p := ParseSemVer(s).value;
    var rebuilt := p.(buildMetadata := commit);
    ParsedPrints(s);
    if IsBuild(commit) {
      PrintedParses(rebuilt);
    } else {
      ReadFormatted(p.major);
      ReadFormatted(p.minor);
      ReadFormatted(p.patch);
      HeadCuts(GroupsOf(p));
      PrintAssembles(rebuilt);
      CutParts(HeadOf(GroupsOf(rebuilt)), '+', commit);
      assert HeadOf(GroupsOf(rebuilt)) == HeadOf(GroupsOf(p));
      assert CutAt(Print(rebuilt), '+').1 == Some(commit);
    }
  }

  // ---- NormalizeString ----

  function Normalize(s: string): string {
    Filter(InAlphabet, s)
  }

  method NormalizeString(str: string) returns (result: string)
    ensures result == Normalize(str)
  {
    result := "";
    for i := 0 to |str|
      invariant result == Normalize(str[..i])
    {
      assert str[..i + 1][..i] == str[..i];
      if str[i] in SEMANTIC_ALPHABET {
        result := result + [str[i]];
      }
    }
    assert str[..|str|] == str;
  }

  // Normalised text passes the check, and exactly the texts that pass are left as they are.
  lemma {:induction false} NormalizePasses(s: string)
    ensures CheckSemString(Normalize(s)) && |Normalize(s)| <= |s|
    ensures CheckSemString(s) <==> Normalize(s) == s
  {
    if s != "" {
      var n := |s| - 1;
      NormalizePasses(s[..n]);
      assert s == s[..n] + [s[n]];
      if InAlphabet(s[n]) {
        assert (Normalize(s[..n]) + [s[n]])[..|Normalize(s[..n])|] == Normalize(s[..n]);
      }
    }
  }

  // Normalising is idempotent and works part by part.
  lemma NormalizeLaws(a: string, b: string)
    ensures Normalize(Normalize(a)) == Normalize(a)
    ensures Normalize(a + b) == Normalize(a) + Normalize(b)
  {
    NormalizePasses(a);
    NormalizePasses(Normalize(a));
    FilterConcat(InAlphabet, a, b);
  }
}
