/** The size of the InnoDB buffer pool: three quarters of the memory request, in whole megabytes, in 64-bit arithmetic. */
module BufferPool {
  import opened Api
  import opened Names

  const TWO_63 := 0x8000_0000_0000_0000
  const TWO_64 := 0x1_0000_0000_0000_0000
  const MEGABYTE := 1024 * 1024

  /** The int64 that a product of two int64 values wraps to. */
  function Wrap(x: int): int64 {
    (x + TWO_63) % TWO_64 - TWO_63
  }

  /** There is one such int64. */
  lemma WrapUnique(x: int, y: int64)
    ensures Wrap(x) == y <==> (x - y) % 18446744073709551616 == 0
  {
  }

  /** Division that truncates toward zero. */
  function Quotient(a: int, b: int): (q: int)
    requires b > 0
    ensures a >= 0 ==> b * q <= a < b * (q + 1)
    ensures a <= 0 ==> b * (q - 1) < a <= b * q
  {
    if a >= 0 then a / b else -((-a) / b)
  }

  function Megabytes(memory: int64): int {
    Quotient(Quotient(Wrap(memory * 75), 100), MEGABYTE)
  }

  /** The rendering of a signed number, as `%d` prints it. */
  function Signed(n: int): string {
    if n >= 0 then Decimal(n) else "-" + Decimal(-n)
  }

  function CalculateInnodbBufferPoolSize(memory: int64): string {
    Signed(Megabytes(memory)) + "M"
  }

  /** The largest request whose product still fits. */
  const LIMIT := 122978293824730344

  /** The number of whole megabytes, of 1048576 bytes, in three quarters of the request. */
  ghost predicate IsShare(megabytes: int, memory: int) {
    megabytes * 104857600 <= 75 * memory < (megabytes + 1) * 104857600
  }

  lemma FloorTwice(x: int)
    requires x >= 0
    ensures var m := Quotient(Quotient(x, 100), MEGABYTE); m * MEGABYTE * 100 <= x < (m + 1) * MEGABYTE * 100
  {
  }

  lemma WrapFits(x: int)
    requires 0 <= x < TWO_63
    ensures Wrap(x) == x
  {
  }

  lemma WrapLosesTurns(x: int)
    requires TWO_63 <= x
    ensures Wrap(x) <= x - TWO_64
  {
  }

  /** The result is the share of the memory request exactly when the 64-bit product does not wrap. */
  lemma ShareIffFits(memory: int64)
    requires memory >= 0
    ensures IsShare(Megabytes(memory), memory) <==> memory <= LIMIT
  {
    var x := memory * 75;
    if memory <= LIMIT {
      WrapFits(x);
      FloorTwice(x);
    } else {
      WrapLosesTurns(x);
      var w := Wrap(x);
      if w >= 0 {
        FloorTwice(w);
      }
      assert Megabytes(memory) * MEGABYTE * 100 <= w + MEGABYTE * 100 * 2;
    }
  }

  lemma SharesGrow(memory: int64, more: int64)
    requires 0 <= memory <= more <= LIMIT
    ensures Megabytes(memory) <= Megabytes(more)
  {
    ShareIffFits(memory);
    ShareIffFits(more);
  }

  /** One byte more than the limit and the setting is negative. */
  lemma LimitIsTight()
    ensures Megabytes(LIMIT + 1) < 0 && CalculateInnodbBufferPoolSize(LIMIT + 1)[0] == '-'
  {
    assert Wrap((LIMIT + 1) * 75) == (LIMIT + 1) * 75 - TWO_64;
  }

  /** Up to the limit the text is a numeral followed by M, and the numeral is the share. */
  lemma RenderedShare(memory: int64)
    requires 0 <= memory <= LIMIT
    ensures var s := CalculateInnodbBufferPoolSize(memory); var digits := s[..|s| - 1];
            s[|s| - 1] == 'M' && Canonical(digits) && IsShare(Value(digits), memory)
  {
    ShareIffFits(memory);
    var m := Megabytes(memory);
    ValueOfDecimal(m);
    DecimalCanonical(m);
    assert CalculateInnodbBufferPoolSize(memory)[..|Decimal(m)|] == Decimal(m);
  }

  /** Whatever the request, the text shows the number that was computed: a minus if it is negative, its numeral, and M. */
  lemma RenderedSigned(memory: int64)
    ensures var s, m := CalculateInnodbBufferPoolSize(memory), Megabytes(memory);
            var digits := if m < 0 then s[1..|s| - 1] else s[..|s| - 1];
            && s[|s| - 1] == 'M' && Canonical(digits)
            && s == (if m < 0 then "-" else "") + digits + "M"
            && Value(digits) == if m < 0 then -m else m
  {
    hide Megabytes;
    var m := Megabytes(memory);
    var n := if m < 0 then -m else m;
    ValueOfDecimal(n);
    DecimalCanonical(n);
    assert CalculateInnodbBufferPoolSize(memory) == (if m < 0 then "-" else "") + Decimal(n) + "M";
  }
}
