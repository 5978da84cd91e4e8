// rpc/types.go: node identities and their hexadecimal text.
module Rpc {
  import opened Wrappers

  type byte = b: int | 0 <= b < 256

  // A node identity is 33 bytes long.
  type NodeID = u: seq<byte> | |u| == 33 witness seq(33, _ => 0)

  const HEX_DIGITS := "0123456789abcdef"

  // ---- encoding/hex ----

  function HexDigit(n: int): char
    requires 0 <= n < 16
  {
    HEX_DIGITS[n]
  }

  // The value of one hexadecimal digit; both letter cases are read.
  function HexValue(ch: char): (r: Option<int>)
    ensures r.Some? ==> 0 <= r.value < 16
  {
    if '0' <= ch <= '9' then Some(ch as int - '0' as int)
    else if 'a' <= ch <= 'f' then Some(ch as int - 'a' as int + 10)
    else if 'A' <= ch <= 'F' then Some(ch as int - 'A' as int + 10)
    else None
  }

  function HexEncode(bytes: seq<byte>): string
  {
    if bytes == [] then ""
    else [HexDigit(bytes[0] / 16), HexDigit(bytes[0] % 16)] + HexEncode(bytes[1..])
  }

  function HexDecode(s: string): Option<seq<byte>>
  {
    if s == "" then Some([])
    else if |s| == 1 then None
    else
      match (HexValue(s[0]), HexValue(s[1]), HexDecode(s[2..]))
      case (Some(hi), Some(lo), Some(rest)) => Some([(hi * 16 + lo) as byte] + rest)
      case _ => None
  }

  function ToLower(ch: char): char
  {
    if 'A' <= ch <= 'Z' then (ch as int - 'A' as int + 'a' as int) as char else ch
  }

  function LowerCase(s: string): string
  {
    seq(|s|, i requires 0 <= i < |s| => ToLower(s[i]))
  }

  lemma HexDigitValue(n: int)
    requires 0 <= n < 16
    ensures HexValue(HexDigit(n)) == Some(n)
    ensures ToLower(HexDigit(n)) == HexDigit(n) && HexDigit(n) != ':'
  {}

  lemma HexValueDigit(ch: char)
    requires HexValue(ch).Some?
    ensures HexDigit(HexValue(ch).value) == ToLower(ch)
  {}

  // A byte and its two halves.
  lemma Halves(b: int, hi: int, lo: int)
    requires 0 <= b < 256 && 0 <= hi < 16 && 0 <= lo < 16
    ensures b == hi * 16 + lo <==> hi == b / 16 && lo == b % 16
  {}

  // Decoding a text that starts with two digits.
  lemma DecodeCons(hi: char, lo: char, t: string, rest: seq<byte>)
    requires HexValue(hi).Some? && HexValue(lo).Some? && HexDecode(t) == Some(rest)
    ensures HexDecode([hi, lo] + t) == Some([(HexValue(hi).value * 16 + HexValue(lo).value) as byte] + rest)
  {
    assert ([hi, lo] + t)[2..] == t;
  }

  lemma EncodeCons(b: byte, rest: seq<byte>)
    ensures HexEncode([b] + rest) == [HexDigit(b / 16), HexDigit(b % 16)] + HexEncode(rest)
  {
    assert ([b] + rest)[1..] == rest;
  }

  // Decoding undoes encoding for every byte string; the text has two digits a byte.
  lemma {:induction false} DecodeEncode(bytes: seq<byte>)
    ensures |HexEncode(bytes)| == 2 * |bytes|
    ensures HexDecode(HexEncode(bytes)) == Some(bytes)
  {
    if bytes != [] {
      var b, rest := bytes[0], bytes[1..];
      DecodeEncode(rest);
      HexDigitValue(b / 16);
      HexDigitValue(b % 16);
      Halves(b, b / 16, b % 16);
      DecodeCons(HexDigit(b / 16), HexDigit(b % 16), HexEncode(rest), rest);
      assert bytes == [b] + rest;
    }
  }

  // The digits of each byte stand in order, the high one first.
  lemma {:induction false} EncodedDigits(bytes: seq<byte>, i: nat)
    requires i < |bytes|
    ensures |HexEncode(bytes)| == 2 * |bytes|
    ensures HexEncode(bytes)[2 * i] == "0123456789abcdef"[bytes[i] / 16]
    ensures HexEncode(bytes)[2 * i + 1] == "0123456789abcdef"[bytes[i] % 16]
  {
    DecodeEncode(bytes);
    if i > 0 {
      EncodedDigits(bytes[1..], i - 1);
    }
  }

  lemma EncodeByte(b: byte, rest: seq<byte>, hi: char, lo: char)
    requires HexValue(hi).Some? && HexValue(lo).Some?
    requires b == HexValue(hi).value * 16 + HexValue(lo).value
    ensures HexEncode([b] + rest) == [ToLower(hi), ToLower(lo)] + HexEncode(rest)
  {
    HexValueDigit(hi);
    HexValueDigit(lo);
    Halves(b, HexValue(hi).value, HexValue(lo).value);
    EncodeCons(b, rest);
  }

  // Encoding what was decoded gives the input back in lower case.
  lemma {:induction false} EncodeDecode(s: string)
    requires HexDecode(s).Some?
    ensures HexEncode(HexDecode(s).value) == LowerCase(s)
  {
    if s != "" {
      EncodeDecode(s[2..]);
      var rest := HexDecode(s[2..]).value;
      EncodeByte(HexDecode(s).value[0], rest, s[0], s[1]);
      assert HexDecode(s).value == [HexDecode(s).value[0]] + rest;
      LowerCaseTail(s);
    }
  }

  lemma LowerCaseTail(s: string)
    requires |s| >= 2
    ensures LowerCase(s) == [ToLower(s[0]), ToLower(s[1])] + LowerCase(s[2..])
  {}

  // Hexadecimal text names a byte string uniquely: one record file per payment hash,
  // one peer per node ID.
  lemma HexInjective(a: seq<byte>, b: seq<byte>)
    ensures HexEncode(a) == HexEncode(b) <==> a == b
  {
    DecodeEncode(a);
    DecodeEncode(b);
  }

  // NodeID.String
  function NodeIDString(u: NodeID): string
  {
    HexEncode(u)
  }

  // What FromString reads, or None for its two errors.
  function ParseNodeID(s: string): Option<NodeID>
  {
    match HexDecode(s)
    case Some(h) => if |h| == 33 then Some(h) else None
    case None => None
  }

  // The receiver of FromString.
  class NodeIDVar {
    var u: NodeID

    constructor ()
      ensures u == seq(33, _ => 0)
    {
      u := seq(33, _ => 0);
    }

    method FromString(s: string) returns (ok: bool)
      modifies this
      ensures ok <==> ParseNodeID(s).Some?
      ensures ok ==> u == ParseNodeID(s).value && NodeIDString(u) == LowerCase(s)
      ensures !ok ==> u == old(u)
    {
      var h := HexDecode(s);
      if h.None? || |h.value| != 33 {
        return false;
      }
      EncodeDecode(s);
      u := h.value;
      return true;
    }
  }

  // FromString(String(u)) is u.
  lemma NodeIDRoundTrip(u: NodeID)
    ensures ParseNodeID(NodeIDString(u)) == Some(u)
  {
    DecodeEncode(u);
  }

  // Parsing accepts a text exactly when lower-casing it gives the text of some node ID,
  // and the node ID it yields is that one.
  lemma ParseNodeIDExact(s: string, u: NodeID)
    ensures ParseNodeID(s) == Some(u) <==> LowerCase(s) == NodeIDString(u)
  {
    if ParseNodeID(s) == Some(u) {
      EncodeDecode(s);
    }
    if LowerCase(s) == NodeIDString(u) {
      DecodeEncode(u);
      DecodeLower(s);
    }
  }

  // Decoding does not depend on letter case.
  lemma {:induction false} DecodeLower(s: string)
    ensures HexDecode(LowerCase(s)) == HexDecode(s)
  {
    if |s| >= 2 {
      DecodeLower(s[2..]);
      assert LowerCase(s)[2..] == LowerCase(s[2..]);
      HexValueLower(s[0]);
      HexValueLower(s[1]);
    }
  }

  lemma HexValueLower(ch: char)
    ensures HexValue(ToLower(ch)) == HexValue(ch)
    ensures ToLower(ch) as int == if 65 <= ch as int <= 90 then ch as int + 32 else ch as int
  {}
}
