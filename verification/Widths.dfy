// The integer widths of the program and the conversions between them.
module Widths {

  const TWO_TO_THE_32 := 0x1_0000_0000
  const TWO_TO_THE_63 := 0x8000_0000_0000_0000
  const TWO_TO_THE_64 := 0x1_0000_0000_0000_0000

  // The conversions uint32(i), int64(u) and uint64(i).
  function AsUint32(i: int): int {
    i % TWO_TO_THE_32
  }

  function AsInt64(u: int): int {
    var w := u % TWO_TO_THE_64;
    if w < TWO_TO_THE_63 then w else w - TWO_TO_THE_64
  }

  function AsUint64(i: int): int {
    i % TWO_TO_THE_64
  }

  // Each conversion yields the one value of its type that is congruent to its argument.
  lemma ConversionsExact(i: int)
    ensures 0 <= AsUint32(i) <= 4_294_967_295 && (AsUint32(i) - i) % 4_294_967_296 == 0
    ensures 0 <= AsUint64(i) <= 18_446_744_073_709_551_615 && (AsUint64(i) - i) % 18_446_744_073_709_551_616 == 0
    ensures -9_223_372_036_854_775_808 <= AsInt64(i) <= 9_223_372_036_854_775_807
    ensures (AsInt64(i) - i) % 18_446_744_073_709_551_616 == 0
  {}
}
