// server/chanscore.go: the activity score whose order decides which channels close.
// Scores are exact rationals here.
module ChanScore {
  import opened Wrappers
  import opened Widths

  // One hour in nanoseconds.
  const HOUR := 3_600_000_000_000

  datatype Panic = LifetimeNotPositive | SizeNotPositive

  function Hours(lifetime: int): (h: int)
    requires lifetime > 0
    ensures h >= 1
  {
    if lifetime / HOUR <= 0 then 1 else lifetime / HOUR
  }

  function Score(sent: int, size: int, lifetime: int): real
    requires size > 0 && lifetime > 0
  {
    sent as real / size as real / Hours(lifetime) as real
  }

  function ChannelActivity(sent: int, size: int, lifetime: int): Result<real, Panic> {
    if lifetime <= 0 then Err(LifetimeNotPositive)
    else if size <= 0 then Err(SizeNotPositive)
    else Ok(Score(sent, size, lifetime))
  }

  // The lifetime of a channel: a uint32 subtraction, then an int64 multiplication.
  function Lifetime(blockHeight: int, openHeight: int, blockTime: int): int {
    AsInt64(AsUint32(blockHeight - openHeight) * blockTime)
  }

  // For every pair of uint32 heights: channelActivity panics exactly on a channel without
  // capacity or with a lifetime that is zero or has wrapped to a negative one. While the
  // product stays within int64 that is a channel confirmed at the block height; the lifetime
  // is then exact for a channel confirmed at or before that height, and one confirmed after
  // it passes for a channel about 2^32 blocks old.
  lemma NoPanicExactly(blockHeight: int, openHeight: int, blockTime: int, sent: int, size: int)
    requires 0 <= openHeight < TWO_TO_THE_32 && 0 <= blockHeight < TWO_TO_THE_32 && 0 < blockTime
    ensures var blocks := if openHeight <= blockHeight then blockHeight - openHeight
                          else TWO_TO_THE_32 - (openHeight - blockHeight);
            var lifetime := Lifetime(blockHeight, openHeight, blockTime);
            && (ChannelActivity(sent, size, lifetime).Ok? <==>
                  size > 0 && 0 < blocks * blockTime % TWO_TO_THE_64 < TWO_TO_THE_63)
            && (blocks * blockTime < TWO_TO_THE_63 ==>
                  && lifetime == blocks * blockTime
                  && (ChannelActivity(sent, size, lifetime).Ok? <==> size > 0 && openHeight != blockHeight))
  {
    var blocks := if openHeight <= blockHeight then blockHeight - openHeight
                  else TWO_TO_THE_32 - (openHeight - blockHeight);
    assert AsUint32(blockHeight - openHeight) == blocks;
    if blocks > 0 {
      Products(1, 1, blocks, blockTime);
    }
  }

  // A score is the share of the capacity sent per whole hour of 3600 seconds, counting at
  // least one hour.
  lemma ScoreMeaning(sent: int, size: int, lifetime: int, hours: int, rest: int)
    requires size > 0 && lifetime > 0
    requires lifetime == hours * 3_600 * 1_000_000_000 + rest && 0 <= rest < 3_600 * 1_000_000_000
    ensures Hours(lifetime) == if hours >= 1 then hours else 1
    ensures Score(sent, size, lifetime) * size as real * (if hours >= 1 then hours else 1) as real == sent as real
  {
    assert lifetime / HOUR == hours;
    var perSize, h := sent as real / size as real, Hours(lifetime) as real;
    assert perSize / h * h == perSize && perSize * size as real == sent as real;
    assert perSize / h * size as real * h == perSize / h * h * size as real;
  }

  // ---- the order of scores ----

  lemma ScaleOrder(u: real, v: real, w: real)
    requires w > 0.0
    ensures u < v <==> u * w < v * w
  {}

  lemma QuotientOrder(p: real, q: real, r: real, s: real)
    requires q > 0.0 && s > 0.0
    ensures p / q < r / s <==> p * s < r * q
  {
    var u, v := p / q, r / s;
    assert p == u * q && r == v * s;
    assert q * s > 0.0;
    ScaleOrder(u, v, q * s);
    assert u * (q * s) == p * s && v * (q * s) == r * q;
  }

  lemma NestedQuotient(p: real, q: real, h: real)
    requires q > 0.0 && h > 0.0
    ensures q * h > 0.0 && p / q / h == p / (q * h)
  {
    var u := p / q / h;
    assert u * h == p / q && (p / q) * q == p;
    assert u * (q * h) == p;
  }

  // A score is one quotient.
  lemma ScoreQuotient(sent: int, size: int, lifetime: int)
    requires size > 0 && lifetime > 0
    ensures size * Hours(lifetime) > 0
    ensures Score(sent, size, lifetime) == sent as real / (size * Hours(lifetime)) as real
  {
    NestedQuotient(sent as real, size as real, Hours(lifetime) as real);
    assert (size * Hours(lifetime)) as real == size as real * Hours(lifetime) as real;
  }

  lemma IntQuotientOrder(p: int, q: int, r: int, s: int)
    requires q > 0 && s > 0
    ensures p as real / q as real < r as real / s as real <==> p * s < r * q
  {
    QuotientOrder(p as real, q as real, r as real, s as real);
    assert (p * s) as real == p as real * s as real && (r * q) as real == r as real * q as real;
  }

  // Comparing scores is comparing integers cross-multiplied.
  lemma ScoreOrder(sent: int, size: int, lifetime: int, sent': int, size': int, lifetime': int)
    requires size > 0 && lifetime > 0 && size' > 0 && lifetime' > 0
    ensures Score(sent, size, lifetime) < Score(sent', size', lifetime') <==>
            sent * (size' * Hours(lifetime')) < sent' * (size * Hours(lifetime))
  {
    ScoreQuotient(sent, size, lifetime);
    ScoreQuotient(sent', size', lifetime');
    IntQuotientOrder(sent, size * Hours(lifetime), sent', size' * Hours(lifetime'));
  }

  // More atoms sent never lower a score; more capacity or a longer lifetime never raise it.
  lemma ScoreMonotone(sent: int, size: int, lifetime: int, sent': int, size': int, lifetime': int)
    requires 0 <= sent <= sent' && 0 < size' <= size && 0 < lifetime' <= lifetime
    ensures Score(sent, size, lifetime) <= Score(sent', size', lifetime')
  {
    ScoreOrder(sent', size', lifetime', sent, size, lifetime);
    assert Hours(lifetime') <= Hours(lifetime);
    Products(size', Hours(lifetime'), size, Hours(lifetime));
    Products(sent, size' * Hours(lifetime'), sent', size * Hours(lifetime));
  }

  lemma Products(a: int, b: int, a': int, b': int)
    requires 0 <= a <= a' && 0 <= b <= b'
    ensures 0 <= a * b <= a' * b'
  {
    assert a * b <= a * b' <= a' * b';
  }
}
