// server/util.go: channel points as text, "<transaction hash>:<output index>".
module ChannelPoints {
  import opened Wrappers
  import opened Rpc
  import opened Text
  import opened Widths

  // The funding transaction as bytes or as text, if set.
  datatype FundingTxid = TxidBytes(bytes: seq<byte>) | TxidStr(str: string) | NoTxid
  datatype ChannelPoint = ChannelPoint(fundingTxid: FundingTxid, outputIndex: nat)

  function Reverse<T>(s: seq<T>): seq<T> {
    seq(|s|, i requires 0 <= i < |s| => s[|s| - 1 - i])
  }

  // chainhash.Hash.String: hashes are written last byte first.
  function HashString(h: seq<byte>): string {
    HexEncode(Reverse(h))
  }

  // chainhash.NewHashFromStr: short texts stand for hashes with leading zeros.
  function NewHashFromStr(s: string): (h: Option<seq<byte>>)
    ensures h.Some? ==> |h.value| == 32
  {
    if |s| > 64 then None
    else
      match HexDecode(if |s| % 2 == 0 then s else "0" + s)
      case None => None
      case Some(bytes) => if |bytes| > 32 then None else Some(Reverse(Padded(bytes)))
  }

  // strconv.Atoi with 64-bit integers.
  function Atoi(s: string): Option<int> {
    var signed := s != "" && (s[0] == '-' || s[0] == '+');
    var digits := if signed then s[1..] else s;
    if digits == "" || !AllDigits(digits) then None
    else
      var v := if s[0] == '-' then -DecimalValue(digits) else DecimalValue(digits);
      if -TWO_TO_THE_63 <= v < TWO_TO_THE_63 then Some(v) else None
  }

  function ParseStrChannelPoint(s: string): Option<ChannelPoint> {
    var p := IndexOf(s, ':');
    if p == |s| then None
    else
      match Atoi(s[p + 1..])
      case None => None
      case Some(idx) => Some(ChannelPoint(TxidStr(s[..p]), AsUint32(idx)))
  }

  function FmtChannelPoint(cp: ChannelPoint): Option<string> {
    var txid := match cp.fundingTxid
                case TxidBytes(bytes) => Some(bytes)
                case TxidStr(str) => NewHashFromStr(str)
                case NoTxid => Some([]);
    if txid.None? || |txid.value| != 32 then None
    else Some(HashString(txid.value) + ":" + FormatDecimal(cp.outputIndex))
  }

  // A written number is read back, modulo the width of an output index.
  lemma ParseFormatted(txid: string, n: nat)
    requires ':' !in txid && n < TWO_TO_THE_63
    ensures ParseStrChannelPoint(txid + ":" + FormatDecimal(n)) == Some(ChannelPoint(TxidStr(txid), AsUint32(n)))
  {
    var s := txid + ":" + FormatDecimal(n);
    ReadFormatted(n);
    IndexOfEnd(txid, ':', FormatDecimal(n));
    assert s[..|txid|] == txid && s[|txid| + 1..] == FormatDecimal(n);
    assert IsDigit(FormatDecimal(n)[0]);
  }

  lemma {:induction false} HexHasNoColon(bytes: seq<byte>)
    ensures ':' !in HexEncode(bytes)
  {
    if bytes != [] {
      HexHasNoColon(bytes[1..]);
      HexDigitValue(bytes[0] / 16);
      HexDigitValue(bytes[0] % 16);
    }
  }

  // The text of a hash starts with its last byte and ends with its first.
  lemma HashTextReversed(h: seq<byte>, i: nat)
    requires i < |h|
    ensures |HashString(h)| == 2 * |h|
    ensures HashString(h)[2 * i] == "0123456789abcdef"[h[|h| - 1 - i] / 16]
    ensures HashString(h)[2 * i + 1] == "0123456789abcdef"[h[|h| - 1 - i] % 16]
  {
    EncodedDigits(Reverse(h), i);
  }

  // A short text is read as a hash with zeros for its leading digits, which are last in bytes.
  lemma ShortHash(bytes: seq<byte>, i: nat)
    requires |bytes| <= 32 && i < 32
    ensures var h := NewHashFromStr(HexEncode(bytes));
            h.Some? && |h.value| == 32 && h.value[i] == if i < |bytes| then bytes[|bytes| - 1 - i] else 0
  {
    ReadPadded(bytes);
    PaddedAt(bytes, i);
  }

  function Padded(bytes: seq<byte>): seq<byte>
    requires |bytes| <= 32
  {
    seq(32 - |bytes|, _ => 0) + bytes
  }

  lemma ReadPadded(bytes: seq<byte>)
    requires |bytes| <= 32
    ensures NewHashFromStr(HexEncode(bytes)) == Some(Reverse(Padded(bytes)))
  {
    DecodeEncode(bytes);
    ReadEven(HexEncode(bytes), bytes);
  }

  lemma ReadEven(s: string, bytes: seq<byte>)
    requires |s| == 2 * |bytes| <= 64 && HexDecode(s) == Some(bytes)
    ensures NewHashFromStr(s) == Some(Reverse(Padded(bytes)))
  {}

  lemma PaddedAt(bytes: seq<byte>, i: nat)
    requires |bytes| <= 32 && i < 32
    ensures |Reverse(Padded(bytes))| == 32
    ensures Reverse(Padded(bytes))[i] == if i < |bytes| then bytes[|bytes| - 1 - i] else 0
  {}

  // An odd text is read with a zero in front; too long ones and foreign characters are refused.
  lemma HashReadable(s: string)
    ensures NewHashFromStr(s).Some? <==> |s| <= 64 && forall i :: 0 <= i < |s| ==> HexValue(s[i]).Some?
    ensures |s| % 2 == 1 ==> NewHashFromStr(s) == if |s| > 64 then None else NewHashFromStr("0" + s)
  {
    var even := if |s| % 2 == 0 then s else "0" + s;
    HexReadable(even);
    assert |s| % 2 == 1 ==> even[0] == '0' && even[1..] == s;
    assert (forall i :: 0 <= i < |s| ==> HexValue(s[i]).Some?) <==> (forall i :: 0 <= i < |even| ==> HexValue(even[i]).Some?);
  }

  lemma {:induction false} HexReadable(s: string)
    requires |s| % 2 == 0
    ensures HexDecode(s).Some? <==> forall i :: 0 <= i < |s| ==> HexValue(s[i]).Some?
    ensures HexDecode(s).Some? ==> |HexDecode(s).value| == |s| / 2
  {
    if s != "" {
      HexReadable(s[2..]);
      assert forall i :: 2 <= i < |s| ==> s[i] == s[2..][i - 2];
    }
  }

  // A number is read from digits with an optional sign, if it fits an int64.
  lemma AtoiExact(digits: string)
    requires digits != "" && AllDigits(digits)
    ensures var v := DecimalValue(digits);
            && v >= 0
            && Atoi(digits) == Atoi("+" + digits) == (if v <= 9_223_372_036_854_775_807 then Some(v) else None)
            && Atoi("-" + digits) == (if v <= 9_223_372_036_854_775_808 then Some(-v) else None)
  {
    ValuePositive(digits);
    assert ("+" + digits)[1..] == digits && ("-" + digits)[1..] == digits;
    assert IsDigit(digits[0]);
  }

  lemma AtoiRefuses(s: string)
    requires Atoi(s).Some?
    ensures exists digits :: digits != "" && AllDigits(digits) && s in {digits, "+" + digits, "-" + digits}
  {
    if s[0] == '-' || s[0] == '+' {
      var digits := s[1..];
      assert s == [s[0]] + digits;
    }
  }

  // Formatting fails exactly without a readable hash.
  lemma FormatExact(txid: FundingTxid, index: nat)
    ensures FmtChannelPoint(ChannelPoint(txid, index)).Some? <==>
              match txid
              case TxidBytes(bytes) => |bytes| == 32
              case TxidStr(str) => NewHashFromStr(str).Some?
              case NoTxid => false
  {}

  // The text of a hash names that hash.
  lemma HashRoundTrip(h: seq<byte>)
    requires |h| == 32
    ensures |HashString(h)| == 64 && ':' !in HashString(h) && NewHashFromStr(HashString(h)) == Some(h)
  {
    var r := Reverse(h);
    DecodeEncode(r);
    HexHasNoColon(r);
    assert seq(0, _ => 0) + r == r;
    assert Reverse(r) == h;
  }

  // A hash formats alike as bytes and as text.
  lemma FormatHash(h: seq<byte>, index: nat)
    requires |h| == 32
    ensures FmtChannelPoint(ChannelPoint(TxidBytes(h), index)) == Some(HashString(h) + ":" + FormatDecimal(index))
    ensures FmtChannelPoint(ChannelPoint(TxidStr(HashString(h)), index)) == Some(HashString(h) + ":" + FormatDecimal(index))
  {
    HashRoundTrip(h);
  }

  lemma HashHasNoColon(h: seq<byte>)
    ensures ':' !in HashString(h)
  {
    HexHasNoColon(Reverse(h));
  }

  lemma ParseFormattedIndex(txid: string, index: nat)
    requires ':' !in txid && index < TWO_TO_THE_32
    ensures ParseStrChannelPoint(txid + ":" + FormatDecimal(index)) == Some(ChannelPoint(TxidStr(txid), index))
  {
    ParseFormatted(txid, index);
    FitsUint32(index);
  }

  lemma FitsUint32(i: int)
    requires 0 <= i < TWO_TO_THE_32
    ensures AsUint32(i) == i
  {}

  // For every 32-byte hash and uint32 index: parsing the formatted channel point recovers
  // the hash text and the index, and formatting that again gives the same string.
  lemma ChannelPointRoundTrip(h: seq<byte>, index: nat)
    requires |h| == 32 && index < TWO_TO_THE_32
    ensures var s := HashString(h) + ":" + FormatDecimal(index);
            && FmtChannelPoint(ChannelPoint(TxidBytes(h), index)) == Some(s)
            && ParseStrChannelPoint(s) == Some(ChannelPoint(TxidStr(HashString(h)), index))
            && FmtChannelPoint(ChannelPoint(TxidStr(HashString(h)), index)) == Some(s)
  {
    FormatHash(h, index);
    HashHasNoColon(h);
    ParseFormattedIndex(HashString(h), index);
  }

  predicate IsPointText(s: string, h: seq<byte>, index: nat) {
    |h| == 32 && index < TWO_TO_THE_32 && s == HashString(h) + ":" + FormatDecimal(index)
  }

  predicate Survives(s: string) {
    var cp := ParseStrChannelPoint(s);
    cp.Some? && FmtChannelPoint(cp.value) == Some(s)
  }

  lemma SurvivorIsPointText(s: string)
    requires Survives(s)
    ensures exists h: seq<byte>, index: nat :: IsPointText(s, h, index)
  {
    var cp := ParseStrChannelPoint(s).value;
    var h := NewHashFromStr(cp.fundingTxid.str).value;
    assert IsPointText(s, h, cp.outputIndex);
  }

  // Formatting what was parsed gives the text back exactly for the texts of hashes and
  // indexes; others parse too, with signs, leading zeros, short hashes or large indexes.
  lemma FormatOfParsedExact(s: string)
    ensures Survives(s) <==> exists h: seq<byte>, index: nat :: IsPointText(s, h, index)
  {
    if Survives(s) {
      SurvivorIsPointText(s);
    }
    forall h: seq<byte>, index: nat | IsPointText(s, h, index) ensures Survives(s) {
      ChannelPointRoundTrip(h, index);
    }
  }
}
