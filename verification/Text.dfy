// Searching, splitting and decimal numbers in text.
module Text {

  // The first position of ch, or |s|.
  function IndexOf(s: string, ch: char): (i: nat)
    ensures i <= |s| && (i < |s| ==> s[i] == ch)
    ensures forall p :: 0 <= p < i ==> s[p] != ch
  {
    if s == "" || s[0] == ch then 0 else 1 + IndexOf(s[1..], ch)
  }

  // IndexOf finds the separator that ends a text free of it.
  lemma IndexOfEnd(a: string, ch: char, b: string)
    requires ch !in a
    ensures IndexOf(a, ch) == |a|
    ensures IndexOf(a + [ch] + b, ch) == |a|
  {
    var s := a + [ch] + b;
    assert s[|a|] == ch;
    assert forall p :: 0 <= p < |a| ==> s[p] == a[p];
  }

  // The parts of a text between dots.
  function Pieces(s: string): (p: seq<string>)
    ensures p != []
    decreases |s|
  {
    var i := IndexOf(s, '.');
    if i == |s| then [s] else [s[..i]] + Pieces(s[i + 1..])
  }

  function Join(p: seq<string>): string
    requires p != []
  {
    if |p| == 1 then p[0] else p[0] + "." + Join(p[1..])
  }

  // Joining the pieces gives the text back, and no piece holds a dot.
  lemma {:induction false} JoinPieces(s: string)
    ensures Join(Pieces(s)) == s
    ensures forall i :: 0 <= i < |Pieces(s)| ==> '.' !in Pieces(s)[i]
    decreases |s|
  {
    var i := IndexOf(s, '.');
    if i < |s| {
      JoinPieces(s[i + 1..]);
      assert Pieces(s)[1..] == Pieces(s[i + 1..]);
      assert s == s[..i] + "." + s[i + 1..];
    }
  }

  lemma PiecesCons(a: string, rest: string)
    requires '.' !in a
    ensures Pieces(a) == [a] && Pieces(a + "." + rest) == [a] + Pieces(rest)
  {
    IndexOfEnd(a, '.', rest);
    assert (a + "." + rest)[|a| + 1..] == rest && (a + "." + rest)[..|a|] == a;
  }

  // ---- decimal numbers ----

  predicate IsDigit(ch: char) { '0' <= ch <= '9' }

  predicate AllDigits(s: string) {
    forall i :: 0 <= i < |s| ==> IsDigit(s[i])
  }

  // A number without leading zeros.
  predicate IsNumeric(s: string) {
    s != "" && AllDigits(s) && (s[0] == '0' ==> s == "0")
  }

  function DigitValue(ch: char): int {
    ch as int - '0' as int
  }

  function DecimalValue(s: string): int {
    if s == "" then 0 else DecimalValue(s[..|s| - 1]) * 10 + DigitValue(s[|s| - 1])
  }

  function DigitOf(d: int): char
    requires 0 <= d < 10
  {
    ('0' as int + d) as char
  }

  // The verb %d for a number that is not negative.
  function FormatDecimal(n: nat): (s: string)
    ensures s != ""
  {
    if n < 10 then [DigitOf(n)] else FormatDecimal(n / 10) + [DigitOf(n % 10)]
  }

  // Reading is base ten.
  lemma ReadSnoc(s: string, ch: char)
    ensures DecimalValue(s + [ch]) == 10 * DecimalValue(s) + (ch as int - 48)
  {
    assert (s + [ch])[..|s|] == s;
  }

  // Formatting yields a number without leading zeros that reads back as the original.
  lemma {:induction false} ReadFormatted(n: nat)
    ensures IsNumeric(FormatDecimal(n)) && DecimalValue(FormatDecimal(n)) == n
    ensures n > 0 ==> FormatDecimal(n)[0] != '0'
  {
    if n >= 10 {
      ReadFormatted(n / 10);
      var s := FormatDecimal(n);
      assert s[..|s| - 1] == FormatDecimal(n / 10);
    } else {
      var s := FormatDecimal(n);
      assert s[..0] == "";
      assert DecimalValue(s) == DecimalValue(s[..0]) * 10 + DigitValue(s[0]);
    }
  }

  lemma {:induction false} ValuePositive(s: string)
    requires s != "" && AllDigits(s)
    ensures DecimalValue(s) >= 0 && (s[0] != '0' ==> DecimalValue(s) > 0)
  {
    if |s| > 1 {
      ValuePositive(s[..|s| - 1]);
    } else {
      assert DecimalValue(s[..0]) == 0;
    }
  }

  // Formatting undoes reading for numbers without leading zeros.
  lemma {:induction false} FormatRead(s: string)
    requires IsNumeric(s)
    ensures DecimalValue(s) >= 0 && FormatDecimal(DecimalValue(s)) == s
  {
    ValuePositive(s);
    var n := |s| - 1;
    if n > 0 {
      ValuePositive(s[..n]);
      FormatRead(s[..n]);
      var v, d := DecimalValue(s[..n]), DigitValue(s[n]);
      assert v > 0 && 0 <= d < 10 && (v * 10 + d) / 10 == v && (v * 10 + d) % 10 == d;
      assert s == s[..n] + [s[n]];
    } else {
      assert DecimalValue(s) == DecimalValue(s[..0]) * 10 + DigitValue(s[0]) && s[..0] == "";
      assert s == [s[0]];
    }
  }
}
