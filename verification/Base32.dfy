/**
  base32Encode and base32Decode (src/common/crypto.ts), after section 6 of RFC 4648 without padding.

  The accumulator `value` is never masked: the sources let it wrap at 32 bits. It is kept here as its
  unsigned 32-bit pattern, which is all that shifting and masking look at; the bitwise or adds, because its
  operands share no bit. Beside it runs an unbounded accumulator that never loses a bit.
 */
module Base32 {
  import opened Wrappers
  import opened Characters
  import opened Powers

  type Byte = b: nat | b < 256
  type Bits = seq<bool>

  const WORD := 0x1_0000_0000
  const ALPHABET := "ABCDEFGHIJKLMNOPQRSTUVWXYZ234567"

  // ---------------------------------------------------------------- bits of numbers

  /** The n low bits of v, most significant first. */
  function LowBits(v: nat, n: nat): (s: Bits)
    ensures |s| == n
  {
    if n == 0 then [] else LowBits(v / 2, n - 1) + [v % 2 == 1]
  }

  function Zeros(n: nat): (s: Bits) {
    seq(n, i => false)
  }

  /** Shifting right: halve n times. */
  function Shr(v: nat, n: nat): (w: nat) {
    if n == 0 then v else Shr(v / 2, n - 1)
  }

  /** Numbers that agree modulo 2^m have the same m low bits. */
  lemma {:induction false} LowBitsCongruent(v: nat, w: nat, q: int, m: nat, n: nat)
    requires n <= m && v == w + Pow2(m) * q
    ensures LowBits(v, n) == LowBits(w, n)
  {
    if n > 0 {
      var x := Pow2(m - 1) * q;
      assert v == w + 2 * x;
      LowBitsCongruent(v / 2, w / 2, q, m - 1, n - 1);
    }
  }

  /** Wrapping at 2^m leaves the m low bits alone. */
  lemma {:induction false} LowBitsWrap(v: nat, m: nat, n: nat)
    requires n <= m
    ensures LowBits(v % Pow2(m), n) == LowBits(v, n)
  {
    var p := Pow2(m);
    assert v == v % p + p * (v / p);
    LowBitsCongruent(v, v % p, v / p, m, n);
  }

  lemma {:induction false} LowBitsAppend(v: nat, n: nat, b: nat, k: nat)
    requires b < Pow2(k)
    ensures LowBits(v * Pow2(k) + b, n + k) == LowBits(v, n) + LowBits(b, k)
  {
    if k > 0 {
      var p := Pow2(k - 1);
      assert v * Pow2(k) + b == 2 * (v * p) + b;
      assert (2 * (v * p) + b) / 2 == v * p + b / 2 && (2 * (v * p) + b) % 2 == b % 2;
      LowBitsAppend(v, n, b / 2, k - 1);
    } else {
      assert LowBits(v, n) + [] == LowBits(v, n);
    }
  }

  lemma {:induction false} LowBitsSplit(v: nat, n: nat, k: nat)
    requires k <= n
    ensures LowBits(v, n)[..k] == LowBits(Shr(v, n - k), k)
    ensures LowBits(v, n)[k..] == LowBits(v, n - k)
    decreases n - k
  {
    if k < n { LowBitsSplit(v / 2, n - 1, k); }
  }

  lemma {:induction false} LowBitsInjective(v: nat, w: nat, n: nat)
    requires v < Pow2(n) && w < Pow2(n) && LowBits(v, n) == LowBits(w, n)
    ensures v == w
  {
    if n > 0 {
      var s, t := LowBits(v, n), LowBits(w, n);
      assert s[n - 1] == (v % 2 == 1) && t[n - 1] == (w % 2 == 1);
      assert LowBits(v / 2, n - 1) == s[..n - 1] && LowBits(w / 2, n - 1) == t[..n - 1];
      LowBitsInjective(v / 2, w / 2, n - 1);
    }
  }

  lemma {:induction false} LowBitsZero(n: nat)
    ensures LowBits(0, n) == Zeros(n)
  {
    if n > 0 { LowBitsZero(n - 1); }
  }

  // ---------------------------------------------------------------- bits of texts

  /** The concatenated k-bit digits. */
  function Expand(ds: seq<nat>, k: nat): (s: Bits) {
    if ds == [] then [] else Expand(ds[..|ds| - 1], k) + LowBits(ds[|ds| - 1], k)
  }

  lemma {:induction false} ExpandLength(bytes: seq<nat>)
    ensures |Expand(bytes, 8)| == 8 * |bytes|
  {
    if bytes != [] { ExpandLength(bytes[..|bytes| - 1]); }
  }

  lemma {:induction false} ExpandSnoc(ds: seq<nat>, d: nat, k: nat)
    ensures Expand(ds + [d], k) == Expand(ds, k) + LowBits(d, k)
  {
    assert (ds + [d])[..|ds|] == ds;
  }

  lemma SplitAlike(a: Bits, b: Bits, c: Bits, d: Bits)
    requires |b| == |d| && a + b == c + d
    ensures a == c && b == d
  {
    var s := a + b;
    assert |a| == |c|;
    assert a == s[..|a|] && c == s[..|a|] && b == s[|a|..] && d == s[|a|..];
  }

  lemma {:induction false} ExpandInjective(ds: seq<nat>, es: seq<nat>, k: nat)
    requires |ds| == |es| && Expand(ds, k) == Expand(es, k)
    requires forall i | 0 <= i < |ds| :: ds[i] < Pow2(k) && es[i] < Pow2(k)
    ensures ds == es
  {
    if ds != [] {
      var n := |ds| - 1;
      SplitAlike(Expand(ds[..n], k), LowBits(ds[n], k), Expand(es[..n], k), LowBits(es[n], k));
      ExpandInjective(ds[..n], es[..n], k);
      LowBitsInjective(ds[n], es[n], k);
      assert ds == ds[..n] + [ds[n]] && es == es[..n] + [es[n]];
    }
  }

  // ---------------------------------------------------------------- symbols

  predicate IsSymbol(c: char) {
    'A' <= c <= 'Z' || '2' <= c <= '7'
  }

  /** The position of a symbol in the alphabet. */
  function IndexOf(c: char): (d: nat)
    requires IsSymbol(c)
    ensures d < 32
  {
    if c >= 'A' then c as int - 'A' as int else 26 + (c as int - '2' as int)
  }

  /** The symbol at a position of the alphabet. */
  function Symbol(d: nat): (c: char)
    requires d < 32
    ensures IsSymbol(c) && IndexOf(c) == d
  {
    if d < 26 then ('A' as int + d) as char else ('2' as int + d - 26) as char
  }

  lemma AlphabetSpelled(d: nat)
    requires d < 32
    ensures |ALPHABET| == 32 && ALPHABET[d] == Symbol(d)
  {
  }

  predicate AllSymbols(t: string) {
    forall i | 0 <= i < |t| :: IsSymbol(t[i])
  }

  function Digits(t: string): (ds: seq<nat>)
    requires AllSymbols(t)
  {
    seq(|t|, i requires 0 <= i < |t| => IndexOf(t[i]))
  }

  /** Section 6 of RFC 4648 without padding characters: the bits of the input, filled up with fewer than
      five zero bits, five to a symbol. */
  ghost predicate IsEncoding(buf: seq<Byte>, t: string) {
    AllSymbols(t) && exists pad: nat | pad < 5 :: Expand(Digits(t), 5) == Expand(buf, 8) + Zeros(pad)
  }

  /** The whole bytes among the bits of the symbols; fewer than eight bits are left over. */
  ghost predicate IsDecoding(t: string, buf: seq<Byte>) {
    AllSymbols(t) && exists rest: Bits | |rest| < 8 :: Expand(buf, 8) + rest == Expand(Digits(t), 5)
  }

  // ---------------------------------------------------------------- the two loops

  lemma KnownPowers()
    ensures Pow2(5) == 32 && Pow2(8) == 256 && Pow2(32) == WORD
  {
    assert Pow2(4) == 16 && Pow2(5) == 32 && Pow2(8) == 256;
    assert Pow2(12) == 0x1000 && Pow2(16) == 0x1_0000 && Pow2(20) == 0x10_0000 && Pow2(24) == 0x100_0000;
    assert Pow2(28) == 0x1000_0000;
  }

  /** Appending a digit on 32 bits: the pending bits grow by those of the digit as long as they fit. */
  lemma Shifted(value: nat, bits: nat, d: nat, k: nat)
    requires d < Pow2(k) && bits + k <= 32
    ensures LowBits((value * Pow2(k) + d) % WORD, bits + k) == LowBits(value, bits) + LowBits(d, k)
  {
    KnownPowers();
    LowBitsWrap(value * Pow2(k) + d, 32, bits + k);
    LowBitsAppend(value, bits, d, k);
  }

  lemma Glue(a: Bits, b: Bits, c: Bits, x: Bits)
    requires a + b == x
    ensures a + (b + c) == x + c
  {
  }

  /** Taking the topmost k pending bits as a digit moves them to the output. */
  lemma Taken(ds: seq<nat>, value: nat, bits: nat, k: nat, d: nat)
    requires k <= bits && LowBits(d, k) == LowBits(Shr(value, bits - k), k)
    ensures Expand(ds + [d], k) + LowBits(value, bits - k) == Expand(ds, k) + LowBits(value, bits)
  {
    ExpandSnoc(ds, d, k);
    LowBitsSplit(value, bits, k);
    Glue(Expand(ds, k), LowBits(d, k), LowBits(value, bits - k), Expand(ds + [d], k));
    assert LowBits(value, bits) == LowBits(d, k) + LowBits(value, bits - k);
  }

  lemma DigitsSnoc(t: string, c: char)
    requires AllSymbols(t) && IsSymbol(c)
    ensures AllSymbols(t + [c]) && Digits(t + [c]) == Digits(t) + [IndexOf(c)]
  {
  }

  /** The digits as one number: what an accumulator that never loses a bit holds. */
  function Number(ds: seq<nat>, k: nat): (n: nat) {
    if ds == [] then 0 else Number(ds[..|ds| - 1], k) * Pow2(k) + ds[|ds| - 1]
  }

  lemma {:induction false} NumberSnoc(ds: seq<nat>, i: nat, k: nat)
    requires i < |ds|
    ensures Number(ds[..i + 1], k) == Number(ds[..i], k) * Pow2(k) + ds[i]
  {
    assert ds[..i + 1][..i] == ds[..i];
  }

  /** The 32-bit accumulator is the unbounded one wrapped. */
  ghost predicate Wraps(value: nat, whole: nat) {
    value == whole % WORD
  }

  lemma Remainder(x: nat, q: nat, r: nat)
    requires x == q * WORD + r && r < WORD
    ensures x % WORD == r
  {
  }

  lemma ByteWraps(value: nat, whole: nat, b: nat)
    requires Wraps(value, whole) && b < 256
    ensures (value * 256) % WORD + b == (value * 256 + b) % WORD == (whole * 256 + b) % WORD
  {
    var high, low := value / 0x100_0000, value % 0x100_0000;
    Remainder(value * 256, high, low * 256);
    Remainder(value * 256 + b, high, low * 256 + b);
    Remainder(whole * 256 + b, whole / WORD * 256 + high, low * 256 + b);
  }

  lemma SymbolWraps(value: nat, whole: nat, d: nat)
    requires Wraps(value, whole) && d < 32
    ensures (value * 32) % WORD + d == (value * 32 + d) % WORD == (whole * 32 + d) % WORD
  {
    var high, low := value / 0x800_0000, value % 0x800_0000;
    Remainder(value * 32, high, low * 32);
    Remainder(value * 32 + d, high, low * 32 + d);
    Remainder(whole * 32 + d, whole / WORD * 32 + high, low * 32 + d);
  }

  lemma {:induction false} ShiftWraps(value: nat, whole: nat, d: nat, k: nat)
    requires Wraps(value, whole) && (k == 5 || k == 8) && d < Pow2(k)
    ensures (value * Pow2(k)) % WORD + d == (value * Pow2(k) + d) % WORD == (whole * Pow2(k) + d) % WORD
  {
    KnownPowers();
    if k == 5 { SymbolWraps(value, whole, d); } else { ByteWraps(value, whole, d); }
  }

  /** Append a digit to the accumulator: the wrapped one follows the unbounded one. */
  method ShiftIn(value: nat, ghost whole: nat, ghost bits: nat, d: nat, k: nat) returns (next: nat)
    requires Wraps(value, whole) && (k == 5 || k == 8) && d < Pow2(k) && bits + k <= 32
    ensures Wraps(next, whole * Pow2(k) + d)
    ensures LowBits(next, bits + k) == LowBits(value, bits) + LowBits(d, k)
  {
    next := (value * Pow2(k)) % WORD + d;
    ShiftWraps(value, whole, d, k);
    Shifted(value, bits, d, k);
  }

  /** As long as they lie within 32 bits, the k bits above bit n are those of the unbounded accumulator. */
  lemma {:induction false} SameDigit(value: nat, whole: nat, n: nat, k: nat, m: nat)
    requires Wraps(value, whole) && n + k <= 32 && m == Pow2(k)
    ensures Shr(value, n) % m == Shr(whole, n) % m
  {
    KnownPowers();
    LowBitsWrap(whole, 32, n + k);
    LowBitsSplit(value, n + k, k);
    LowBitsSplit(whole, n + k, k);
    LowBitsWrap(Shr(value, n), k, k);
    LowBitsWrap(Shr(whole, n), k, k);
    LowBitsInjective(Shr(value, n) % m, Shr(whole, n) % m, k);
  }

  // ---------------------------------------------------------------- encoding

  /** The encoder with an unbounded accumulator: what it has written, what it holds, how many bits pend. */
  datatype Writer = Writer(out: string, whole: nat, bits: nat)

  function Drained(w: Writer): (d: Writer)
    decreases w.bits
  {
    if w.bits < 5 then w
    else Drained(Writer(w.out + [Symbol(Shr(w.whole, w.bits - 5) % 32)], w.whole, w.bits - 5))
  }

  function Written(buf: seq<Byte>): (w: Writer) {
    if buf == [] then Writer("", 0, 0)
    else
      var n := |buf| - 1;
      var w := Written(buf[..n]);
      Drained(Writer(w.out, Number(buf, 8), w.bits + 8))
  }

  function Finished(w: Writer): (t: string) {
    if 0 < w.bits < 5 then w.out + [Symbol((w.whole * Pow2(5 - w.bits)) % 32)] else w.out
  }

  /** The bits written and the bits pending. */
  ghost function BitsSoFar(out: string, value: nat, bits: nat): (s: Bits)
    requires AllSymbols(out)
  {
    Expand(Digits(out), 5) + LowBits(value, bits)
  }

  lemma {:induction false} DigitArrives(ds: seq<nat>, i: nat, k: nat, written: Bits, pending: Bits, pending': Bits)
    requires i < |ds| && written + pending == Expand(ds[..i], k) && pending' == pending + LowBits(ds[i], k)
    ensures written + pending' == Expand(ds[..i + 1], k)
  {
    Glue(written, pending, LowBits(ds[i], k), Expand(ds[..i], k));
    assert ds[..i + 1] == ds[..i] + [ds[i]];
    ExpandSnoc(ds[..i], ds[i], k);
  }

  /** The next byte joins the pending bits. */
  lemma ByteArrives(buf: seq<Byte>, i: nat, out: string, value: nat, next: nat, bits: nat)
    requires i < |buf| && AllSymbols(out) && BitsSoFar(out, value, bits) == Expand(buf[..i], 8)
    requires LowBits(next, bits + 8) == LowBits(value, bits) + LowBits(buf[i], 8)
    ensures BitsSoFar(out, next, bits + 8) == Expand(buf[..i + 1], 8)
  {
    DigitArrives(buf, i, 8, Expand(Digits(out), 5), LowBits(value, bits), LowBits(next, bits + 8));
  }

  lemma {:induction false} NothingPending(buf: seq<Byte>, out: string, value: nat)
    requires AllSymbols(out) && BitsSoFar(out, value, 0) == Expand(buf, 8)
    ensures IsEncoding(buf, out)
  {
    assert Expand(Digits(out), 5) == Expand(buf, 8) + Zeros(0);
  }

  lemma SymbolTaken(acc: string, value: nat, bits: nat, d: nat)
    requires AllSymbols(acc) && bits >= 5 && d < 32 && LowBits(d, 5) == LowBits(Shr(value, bits - 5), 5)
    ensures AllSymbols(acc + [Symbol(d)])
    ensures BitsSoFar(acc + [Symbol(d)], value, bits - 5) == BitsSoFar(acc, value, bits)
  {
    Taken(Digits(acc), value, bits, 5, d);
    DigitsSnoc(acc, Symbol(d));
  }

  /** The five bits above bit n are the same in both accumulators and are read as they stand. */
  lemma {:induction false} FiveBits(value: nat, whole: nat, n: nat)
    requires Wraps(value, whole) && n + 5 <= 32
    ensures Shr(value, n) % 32 == Shr(whole, n) % 32
    ensures LowBits(Shr(value, n) % 32, 5) == LowBits(Shr(value, n), 5)
  {
    KnownPowers();
    LowBitsWrap(Shr(value, n), 5, 5);
    SameDigit(value, whole, n, 5, 32);
  }

  /** Write the topmost five pending bits as one symbol. */
  method TakeSymbol(acc: string, value: nat, ghost whole: nat, bits: nat) returns (out: string)
    requires AllSymbols(acc) && Wraps(value, whole) && 5 <= bits <= 32
    ensures out == acc + [Symbol(Shr(whole, bits - 5) % 32)] && AllSymbols(out)
    ensures BitsSoFar(out, value, bits - 5) == BitsSoFar(acc, value, bits)
  {
    var d := Shr(value, bits - 5) % 32;
    FiveBits(value, whole, bits - 5);
    SymbolTaken(acc, value, bits, d);
    AlphabetSpelled(d);
    out := acc + [ALPHABET[d]];
  }

  /** Write symbols until fewer than five bits are pending. */
  method Drain(acc: string, value: nat, ghost whole: nat, pending: nat) returns (out: string, bits: nat)
    requires AllSymbols(acc) && Wraps(value, whole) && pending <= 32
    ensures bits < 5 && AllSymbols(out)
    ensures BitsSoFar(out, value, bits) == BitsSoFar(acc, value, pending)
    ensures Writer(out, whole, bits) == Drained(Writer(acc, whole, pending))
  {
    out, bits := acc, pending;
    while bits >= 5
      invariant AllSymbols(out) && bits <= 32
      invariant BitsSoFar(out, value, bits) == BitsSoFar(acc, value, pending)
      invariant Drained(Writer(out, whole, bits)) == Drained(Writer(acc, whole, pending))
    {
      out := TakeSymbol(out, value, whole, bits);
      bits := bits - 5;
    }
  }

  /** The encoder after i bytes: it agrees with the unbounded one, and no bit is lost. */
  ghost predicate Encoded(buf: seq<Byte>, i: nat, out: string, value: nat, bits: nat)
    requires i <= |buf|
  {
    && bits < 5 && Wraps(value, Number(buf[..i], 8))
    && Written(buf[..i]) == Writer(out, Number(buf[..i], 8), bits)
    && AllSymbols(out) && BitsSoFar(out, value, bits) == Expand(buf[..i], 8)
  }

  /** The encoder with the wrapping accumulator writes what the one with the unbounded accumulator writes,
      and that is the encoding of the input. */
  method Encode(buf: seq<Byte>) returns (out: string)
    ensures out == Finished(Written(buf))
    ensures IsEncoding(buf, out)
  {
    var bits, value := 0, 0;
    out := "";
    for i := 0 to |buf|
      invariant Encoded(buf, i, out, value, bits)
    {
      out, value, bits := EncodeByte(buf, i, out, value, bits);
    }
    assert buf[..|buf|] == buf;
    if bits > 0 {
      out := Flush(buf, out, value, bits);
    } else {
      NothingPending(buf, out, value);
    }
  }

  /** One byte of the input: append it, then write whole symbols. */
  method EncodeByte(buf: seq<Byte>, i: nat, acc: string, value: nat, pending: nat)
    returns (out: string, next: nat, bits: nat)
    requires i < |buf| && Encoded(buf, i, acc, value, pending)
    ensures Encoded(buf, i + 1, out, next, bits)
  {
    next := ShiftByte(buf, i, value, pending);
    ByteArrives(buf, i, acc, value, next, pending);
    assert buf[..i + 1][..i] == buf[..i];
    out, bits := Drain(acc, next, Number(buf[..i + 1], 8), pending + 8);
  }

  /** Append the next byte to the accumulator. */
  method ShiftByte(buf: seq<Byte>, i: nat, value: nat, ghost bits: nat) returns (next: nat)
    requires i < |buf| && Wraps(value, Number(buf[..i], 8)) && bits < 5
    ensures Wraps(next, Number(buf[..i + 1], 8))
    ensures LowBits(next, bits + 8) == LowBits(value, bits) + LowBits(buf[i], 8)
  {
    KnownPowers();
    NumberSnoc(buf, i, 8);
    next := ShiftIn(value, Number(buf[..i], 8), bits, buf[i], 8);
  }

  lemma LowFive(x: nat, q: nat)
    ensures (x + WORD * q) % 32 == x % 32 && x % WORD % 32 == x % 32
  {
    Residue(x + WORD * q, x / 32 + 0x800_0000 * q, x % 32);
    Residue(x % WORD, x / 32 - 0x800_0000 * (x / WORD), x % 32);
  }

  lemma Residue(y: nat, a: int, r: nat)
    requires y == 32 * a + r && r < 32
    ensures y % 32 == r
  {
  }

  lemma LastWraps(value: nat, whole: nat, m: nat)
    requires Wraps(value, whole) && (m == 2 || m == 4 || m == 8 || m == 16)
    ensures (value * m) % WORD % 32 == (whole * m) % 32
  {
    var q := whole / WORD;
    if m == 2 {
      LowFive(value * 2, q * 2);
    } else if m == 4 {
      LowFive(value * 4, q * 4);
    } else if m == 8 {
      LowFive(value * 8, q * 8);
    } else {
      LowFive(value * 16, q * 16);
    }
  }

  /** The pending bits, filled up with zero bits to a last symbol. */
  method LastSymbol(value: nat, ghost whole: nat, bits: nat) returns (d: nat)
    requires 0 < bits < 5 && Wraps(value, whole)
    ensures d < 32 && LowBits(d, 5) == LowBits(value, bits) + Zeros(5 - bits)
    ensures d == (whole * Pow2(5 - bits)) % 32
  {
    KnownPowers();
    assert Pow2(1) == 2 && Pow2(2) == 4 && Pow2(3) == 8 && Pow2(4) == 16;
    ghost var shifted := (value * Pow2(5 - bits)) % WORD;
    d := (value * Pow2(5 - bits)) % WORD % 32;
    LastWraps(value, whole, Pow2(5 - bits));
    LowBitsWrap(shifted, 5, 5);
    Shifted(value, bits, 0, 5 - bits);
    LowBitsZero(5 - bits);
  }

  lemma {:induction false} LastSymbolEncodes(buf: seq<Byte>, out: string, pending: Bits, pad: nat, d: nat)
    requires AllSymbols(out) && d < 32 && pad < 5
    requires Expand(Digits(out), 5) + pending == Expand(buf, 8) && LowBits(d, 5) == pending + Zeros(pad)
    ensures IsEncoding(buf, out + [Symbol(d)])
  {
    var t := out + [Symbol(d)];
    DigitsSnoc(out, Symbol(d));
    ExpandSnoc(Digits(out), d, 5);
    Glue(Expand(Digits(out), 5), pending, Zeros(pad), Expand(buf, 8));
    assert Expand(Digits(t), 5) == Expand(buf, 8) + Zeros(pad);
  }

  method Flush(ghost buf: seq<Byte>, out: string, value: nat, bits: nat) returns (t: string)
    requires 0 < bits < 5 && AllSymbols(out) && BitsSoFar(out, value, bits) == Expand(buf, 8)
    requires Wraps(value, Number(buf, 8))
    ensures IsEncoding(buf, t)
    ensures t == Finished(Writer(out, Number(buf, 8), bits))
  {
    var d := LastSymbol(value, Number(buf, 8), bits);
    LastSymbolEncodes(buf, out, LowBits(value, bits), 5 - bits, d);
    AlphabetSpelled(d);
    t := out + [ALPHABET[d]];
  }

  // ---------------------------------------------------------------- decoding

  function WithoutSpaces(s: string): (t: string) {
    if s == [] then [] else (if IsSpace(s[0]) then [] else [s[0]]) + WithoutSpaces(s[1..])
  }

  function WithoutPadding(s: string): (t: string) {
    if s != [] && s[|s| - 1] == '=' then WithoutPadding(s[..|s| - 1]) else s
  }

  /** toUpperCase of one character, as far as the alphabet is concerned: the ten characters outside ASCII that
      become ASCII letters are spelled out, and every other one becomes something with a character outside
      the alphabet, as it is itself. */
  function Upper(c: char): (t: string) {
    var u := c as int;
    if 'a' <= c <= 'z' then [(u - 32) as char]
    else if u == 0xDF then "SS"
    else if u == 0x131 then "I"
    else if u == 0x17F then "S"
    else if u == 0xFB00 then "FF"
    else if u == 0xFB01 then "FI"
    else if u == 0xFB02 then "FL"
    else if u == 0xFB03 then "FFI"
    else if u == 0xFB04 then "FFL"
    else if u == 0xFB05 || u == 0xFB06 then "ST"
    else [c]
  }

  function UpperAll(s: string): (t: string) {
    if s == [] then [] else Upper(s[0]) + UpperAll(s[1..])
  }

  function Cleaned(s: string): (t: string) {
    UpperAll(WithoutPadding(WithoutSpaces(s)))
  }

  lemma {:induction false} SymbolsStay(t: string)
    requires AllSymbols(t)
    ensures WithoutSpaces(t) == t && UpperAll(t) == t
  {
    if t != [] {
      assert IsSymbol(t[0]) && t == [t[0]] + t[1..];
      SymbolsStay(t[1..]);
    }
  }

  lemma CleanedSymbols(t: string)
    requires AllSymbols(t)
    ensures Cleaned(t) == t
  {
    SymbolsStay(t);
    if t != [] { assert IsSymbol(t[|t| - 1]); }
  }

  /** c is the symbol d, or its lower-case letter. */
  predicate Types(c: char, d: char) {
    c == d || ('A' <= d <= 'Z' && c as int == d as int + 32)
  }

  /** s is the symbols of t, typed in either case, with spaces anywhere and with padding at the end. */
  predicate TypedAs(s: string, t: string) {
    if s == [] then t == []
    else if IsSpace(s[0]) then TypedAs(s[1..], t)
    else if t == [] then s[0] == '=' && TypedAs(s[1..], t)
    else Types(s[0], t[0]) && TypedAs(s[1..], t[1..])
  }

  /** Without its spaces, a typed text is the symbols in either case and then padding. */
  lemma {:induction false} TypedWithoutSpaces(s: string, t: string)
    requires AllSymbols(t) && TypedAs(s, t)
    ensures var u := WithoutSpaces(s);
            && |t| <= |u| && (forall i | 0 <= i < |t| :: Types(u[i], t[i]))
            && (forall i | |t| <= i < |u| :: u[i] == '=')
    decreases |s|
  {
    if s != [] {
      if IsSpace(s[0]) {
        TypedWithoutSpaces(s[1..], t);
      } else if t == [] {
        TypedWithoutSpaces(s[1..], t);
      } else {
        assert t == [t[0]] + t[1..];
        TypedWithoutSpaces(s[1..], t[1..]);
      }
    }
  }

  lemma {:induction false} PaddingGoes(u: string, n: nat)
    requires n <= |u| && (forall i | n <= i < |u| :: u[i] == '=') && (n > 0 ==> u[n - 1] != '=')
    ensures WithoutPadding(u) == u[..n]
    decreases |u|
  {
    if |u| > n {
      assert u[..|u| - 1][..n] == u[..n];
      PaddingGoes(u[..|u| - 1], n);
    } else {
      assert u[..n] == u;
    }
  }

  lemma {:induction false} UpperIs(u: string, t: string)
    requires |u| == |t| && AllSymbols(t) && forall i | 0 <= i < |t| :: Types(u[i], t[i])
    ensures UpperAll(u) == t
  {
    if t != [] {
      assert IsSymbol(t[0]) && t == [t[0]] + t[1..];
      UpperIs(u[1..], t[1..]);
    }
  }

  /** Spaces, trailing padding and the case of letters make no difference. */
  lemma {:induction false} TypedIsCleaned(s: string, t: string)
    requires AllSymbols(t) && TypedAs(s, t)
    ensures Cleaned(s) == t
  {
    TypedWithoutSpaces(s, t);
    var u := WithoutSpaces(s);
    if t != [] { assert IsSymbol(t[|t| - 1]) && Types(u[|t| - 1], t[|t| - 1]); }
    PaddingGoes(u, |t|);
    UpperIs(u[..|t|], t);
  }

  /** The decoder with an unbounded accumulator. */
  datatype Reader = Reader(out: seq<Byte>, whole: nat, bits: nat)

  function TakenFrom(r: Reader): (r': Reader) {
    if r.bits < 8 then r else Reader(r.out + [Shr(r.whole, r.bits - 8) % 256], r.whole, r.bits - 8)
  }

  function Read(ds: seq<nat>): (r: Reader) {
    if ds == [] then Reader([], 0, 0)
    else
      var r := Read(ds[..|ds| - 1]);
      TakenFrom(Reader(r.out, Number(ds, 5), r.bits + 5))
  }

  datatype Error = InvalidCharacter

  lemma DigitsPrefix(t: string, i: nat)
    requires i < |t| && AllSymbols(t[..i]) && IsSymbol(t[i])
    ensures AllSymbols(t[..i + 1])
    ensures Digits(t[..i + 1]) == Digits(t[..i]) + [IndexOf(t[i])]
    ensures Digits(t[..i + 1])[..i] == Digits(t[..i]) && Digits(t[..i + 1])[i] == IndexOf(t[i])
  {
    assert t[..i + 1] == t[..i] + [t[i]];
    DigitsSnoc(t[..i], t[i]);
  }

  /** The next symbol joins the pending bits. */
  lemma SymbolArrives(t: string, i: nat, written: Bits, pending: Bits, pending': Bits)
    requires i < |t| && AllSymbols(t[..i]) && IsSymbol(t[i]) && written + pending == Expand(Digits(t[..i]), 5)
    requires pending' == pending + LowBits(IndexOf(t[i]), 5)
    ensures AllSymbols(t[..i + 1]) && written + pending' == Expand(Digits(t[..i + 1]), 5)
  {
    DigitsPrefix(t, i);
    var ds := Digits(t[..i + 1]);
    DigitArrives(ds, i, 5, written, pending, pending');
    assert ds[..i + 1] == ds;
  }

  /** Write the topmost eight pending bits as a byte, if there are that many. */
  method TakeByte(acc: seq<Byte>, value: nat, ghost whole: nat, pending: nat) returns (out: seq<Byte>, bits: nat)
    requires pending < 16 && Wraps(value, whole)
    ensures bits < 8
    ensures Expand(out, 8) + LowBits(value, bits) == Expand(acc, 8) + LowBits(value, pending)
    ensures Reader(out, whole, bits) == TakenFrom(Reader(acc, whole, pending))
  {
    out, bits := acc, pending;
    if bits >= 8 {
      KnownPowers();
      var d := Shr(value, bits - 8) % 256;
      LowBitsWrap(Shr(value, bits - 8), 8, 8);
      SameDigit(value, whole, bits - 8, 8, 256);
      Taken(out, value, bits, 8, d);
      out := out + [d];
      bits := bits - 8;
    }
  }

  /** Append the next symbol's digit to the accumulator. */
  method ShiftSymbol(t: string, i: nat, value: nat, ghost bits: nat) returns (next: nat)
    requires i < |t| && AllSymbols(t[..i]) && IsSymbol(t[i]) && bits < 8
    requires Wraps(value, Number(Digits(t[..i]), 5))
    ensures AllSymbols(t[..i + 1]) && Wraps(next, Number(Digits(t[..i + 1]), 5))
    ensures LowBits(next, bits + 5) == LowBits(value, bits) + LowBits(IndexOf(t[i]), 5)
  {
    KnownPowers();
    DigitsPrefix(t, i);
    ghost var ds := Digits(t[..i + 1]);
    assert ds[..i + 1] == ds;
    NumberSnoc(ds, i, 5);
    next := ShiftIn(value, Number(Digits(t[..i]), 5), bits, IndexOf(t[i]), 5);
  }

  /** The decoder with the wrapping accumulator accepts exactly the texts that clean up to symbols and reads
      what the one with the unbounded accumulator reads: the whole bytes among the bits. */
  method Decode(s: string) returns (r: Result<seq<Byte>, Error>)
    ensures r.Ok? <==> AllSymbols(Cleaned(s))
    ensures r.Ok? ==> r.value == Read(Digits(Cleaned(s))).out
    ensures r.Ok? ==> IsDecoding(Cleaned(s), r.value)
  {
    var t := Cleaned(s);
    var bits, value := 0, 0;
    var out: seq<Byte> := [];
    for i := 0 to |t|
      invariant bits < 8 && AllSymbols(t[..i]) && Wraps(value, Number(Digits(t[..i]), 5))
      invariant Read(Digits(t[..i])) == Reader(out, Number(Digits(t[..i]), 5), bits)
      invariant Expand(out, 8) + LowBits(value, bits) == Expand(Digits(t[..i]), 5)
    {
      if !IsSymbol(t[i]) {
        return Err(InvalidCharacter);
      }
      var next := ShiftSymbol(t, i, value, bits);
      SymbolArrives(t, i, Expand(out, 8), LowBits(value, bits), LowBits(next, bits + 5));
      DigitsPrefix(t, i);
      value := next;
      out, bits := TakeByte(out, value, Number(Digits(t[..i + 1]), 5), bits + 5);
    }
    assert t[..|t|] == t;
    assert |LowBits(value, bits)| < 8;
    return Ok(out);
  }

  // ---------------------------------------------------------------- round trip

  /** Whatever decodes an encoding of buf is buf, for every byte string of every length. */
  lemma DecodingInvertsEncoding(buf: seq<Byte>, t: string, r: seq<Byte>)
    requires IsEncoding(buf, t) && IsDecoding(t, r)
    ensures r == buf
  {
    var pad: nat :| pad < 5 && Expand(Digits(t), 5) == Expand(buf, 8) + Zeros(pad);
    var rest: Bits :| |rest| < 8 && Expand(r, 8) + rest == Expand(Digits(t), 5);
    var all := Expand(Digits(t), 5);
    ExpandLength(buf);
    ExpandLength(r);
    assert |all| == 8 * |buf| + pad == 8 * |r| + |rest|;
    assert Expand(r, 8) == all[..8 * |r|] && Expand(buf, 8) == all[..8 * |buf|];
    KnownPowers();
    ExpandInjective(r, buf, 8);
  }

  method RoundTrip(buf: seq<Byte>) returns (r: Result<seq<Byte>, Error>)
    ensures r == Ok(buf)
  {
    var t := Encode(buf);
    r := Decode(t);
    CleanedSymbols(t);
    DecodingInvertsEncoding(buf, t, r.value);
  }

  /** However the encoding is typed, it decodes to the input. */
  method TypedRoundTrip(buf: seq<Byte>, typed: string) returns (t: string, r: Result<seq<Byte>, Error>)
    ensures IsEncoding(buf, t)
    ensures TypedAs(typed, t) ==> r == Ok(buf)
  {
    t := Encode(buf);
    r := Decode(typed);
    if TypedAs(typed, t) {
      TypedIsCleaned(typed, t);
      DecodingInvertsEncoding(buf, t, r.value);
    }
  }
}
