// Regular expressions by the language they denote.
module Regex {

  datatype Re = Class(chars: set<char>) | Cat(first: Re, second: Re) | Alt(left: Re, right: Re) | Star(body: Re)

  // s is in the language of r.
  ghost predicate Matches(r: Re, s: string)
    decreases r, |s|
  {
    match r
    case Class(chars) => |s| == 1 && s[0] in chars
    case Cat(first, second) => exists k :: 0 <= k <= |s| && Matches(first, s[..k]) && Matches(second, s[k..])
    case Alt(left, right) => Matches(left, s) || Matches(right, s)
    case Star(body) => s == "" || exists k :: 0 < k <= |s| && Matches(body, s[..k]) && Matches(r, s[k..])
  }

  predicate All(s: string, chars: set<char>) {
    forall i :: 0 <= i < |s| ==> s[i] in chars
  }

  lemma MatchCat(first: Re, second: Re, a: string, b: string)
    requires Matches(first, a) && Matches(second, b)
    ensures Matches(Cat(first, second), a + b)
  {
    var s := a + b;
    assert s[..|a|] == a && s[|a|..] == b;
  }

  // Repeating a class accepts exactly the texts over it.
  lemma {:induction false} MatchStarClass(chars: set<char>, s: string)
    ensures Matches(Star(Class(chars)), s) <==> All(s, chars)
    decreases |s|
  {
    var r := Star(Class(chars));
    if s != "" {
      MatchStarClass(chars, s[1..]);
      if All(s, chars) {
        assert Matches(Class(chars), s[..1]) && Matches(r, s[1..]);
      }
      if Matches(r, s) {
        var k :| 0 < k <= |s| && Matches(Class(chars), s[..k]) && Matches(r, s[k..]);
        assert s == [s[0]] + s[1..];
      }
    }
  }

  // One character of a class, then any of another.
  lemma MatchClassStar(head: set<char>, tail: set<char>, s: string)
    ensures Matches(Cat(Class(head), Star(Class(tail))), s) <==> s != "" && s[0] in head && All(s[1..], tail)
  {
    var r := Cat(Class(head), Star(Class(tail)));
    if Matches(r, s) {
      var k :| 0 <= k <= |s| && Matches(Class(head), s[..k]) && Matches(Star(Class(tail)), s[k..]);
      MatchStarClass(tail, s[1..]);
    }
    if s != "" && s[0] in head && All(s[1..], tail) {
      MatchStarClass(tail, s[1..]);
      MatchCat(Class(head), Star(Class(tail)), s[..1], s[1..]);
      assert s == s[..1] + s[1..];
    }
  }
}
