/** The agent principal: FNV-1a over the bytes of `session:<id>`, computed in 64
    bits, truncated to 56 and printed in hexadecimal. */
module Principal {

  type Byte = x: int | 0 <= x < 256

  const MOD_64 := 0x1_0000_0000_0000_0000
  const MOD_56 := 0x100_0000_0000_0000
  const FNV_PRIME := 0x100_0000_01B3
  const FNV_OFFSET := 0xCBF2_9CE4_8422_2325

  /** Bitwise exclusive or. */
  function Xor(a: nat, b: nat): nat {
    if a == 0 && b == 0 then 0 else 2 * Xor(a / 2, b / 2) + (a % 2 + b % 2) % 2
  }

  /** The recurrence of the source, wrapping at 64 bits. */
  function Fold64(hash: nat, bytes: seq<Byte>): nat {
    if bytes == [] then hash
    else (Xor(Fold64(hash, bytes[..|bytes| - 1]), bytes[|bytes| - 1]) * FNV_PRIME) % MOD_64
  }

  /** One step of the recurrence on the ring of 56-bit numbers. */
  function Step(hash: nat, b: Byte): (next: nat)
    ensures next < MOD_56
  {
    (Xor(hash, b) * FNV_PRIME) % MOD_56
  }

  function Fold(hash: nat, bytes: seq<Byte>): nat {
    if bytes == [] then hash else Step(Fold(hash, bytes[..|bytes| - 1]), bytes[|bytes| - 1])
  }

  function Fnv1a56(bytes: seq<Byte>): (hash: nat)
    ensures hash < MOD_56
  {
    FoldInRing(FNV_OFFSET % MOD_56, bytes);
    Fold(FNV_OFFSET % MOD_56, bytes)
  }

  lemma FoldInRing(hash: nat, bytes: seq<Byte>)
    requires hash < MOD_56
    ensures Fold(hash, bytes) < MOD_56
  {
  }

  /** The loop of the source: wrap at 64 bits, mask at the end. */
  method Fnv1a56Masked(bytes: seq<Byte>) returns (masked: nat)
    ensures masked == Fnv1a56(bytes)
  {
    var hash := FNV_OFFSET;
    var k := 0;
    while k < |bytes|
      invariant 0 <= k <= |bytes|
      invariant hash == Fold64(FNV_OFFSET, bytes[..k]) < MOD_64
    {
      assert bytes[..k + 1][..k] == bytes[..k];
      hash := Xor(hash, bytes[k]);
      hash := (hash * FNV_PRIME) % MOD_64;
      k := k + 1;
    }
    assert bytes[..k] == bytes;
    masked := hash % MOD_56;
    TruncationCommutes(FNV_OFFSET, bytes);
  }

  // ---- Exclusive or --------------------------------------------------------

  function Pow2(k: nat): (p: nat)
    ensures p > 0
  {
    if k == 0 then 1 else 2 * Pow2(k - 1)
  }

  lemma XorParts(a: nat, b: nat)
    ensures Xor(a, b) / 2 == Xor(a / 2, b / 2) && Xor(a, b) % 2 == (a % 2 + b % 2) % 2
  {
  }

  lemma Halves(x: nat, y: nat)
    requires x / 2 == y / 2 && x % 2 == y % 2
    ensures x == y
  {
  }

  /** It cancels itself. */
  lemma {:induction false} XorCancels(a: nat, b: nat)
    ensures Xor(Xor(a, b), b) == a
  {
    hide Xor;
    XorNothing();
    if a != 0 || b != 0 {
      XorCancels(a / 2, b / 2);
      XorParts(a, b);
      XorParts(Xor(a, b), b);
      Halves(Xor(Xor(a, b), b), a);
    }
  }

  /** It works bit by bit, so it commutes with dropping high bits. */
  lemma {:induction false} XorLow(a: nat, b: nat, k: nat)
    ensures Xor(a, b) % Pow2(k) == Xor(a % Pow2(k), b % Pow2(k))
    decreases k
  {
    hide Xor;
    if k == 0 {
      assert Xor(a, b) % 1 == 0 && a % 1 == 0 && b % 1 == 0;
      XorNothing();
    } else {
      var p := Pow2(k - 1);
      XorLow(a / 2, b / 2, k - 1);
      LowBits(a, p);
      LowBits(b, p);
      LowBits(Xor(a, b), p);
      XorParts(a, b);
      XorParts(a % (2 * p), b % (2 * p));
      Halves(Xor(a, b) % (2 * p), Xor(a % (2 * p), b % (2 * p)));
    }
  }

  lemma XorNothing()
    ensures Xor(0, 0) == 0
  {
  }

  lemma LowBits(a: nat, p: nat)
    requires p > 0
    ensures a % (2 * p) == 2 * ((a / 2) % p) + a % 2
    ensures (a % (2 * p)) / 2 == (a / 2) % p && (a % (2 * p)) % 2 == a % 2
  {
    var q, r := (a / 2) / p, (a / 2) % p;
    assert a / 2 == q * p + r;
    assert q * (2 * p) == 2 * (q * p);
    EuclidUnique(a, 2 * p, q, 2 * r + a % 2);
  }

  lemma EuclidUnique(a: nat, m: nat, q: nat, r: nat)
    requires m > 0 && a == q * m + r && r < m
    ensures a % m == r && a / m == q
  {
    var q', r' := a / m, a % m;
    assert a == q' * m + r' && r' < m;
    if q' > q {
      MulGap(q', q, m);
    } else if q' < q {
      MulGap(q, q', m);
    }
  }

  lemma {:induction false} MulGap(a: nat, b: nat, m: nat)
    requires a > b
    ensures a * m >= b * m + m
    decreases a
  {
    assert a * m == (a - 1) * m + m;
    if a > b + 1 {
      MulGap(a - 1, b, m);
    }
  }

  lemma {:induction false} XorZero(a: nat)
    ensures Xor(a, 0) == a
  {
    if a > 0 {
      XorZero(a / 2);
    }
  }

  lemma XorBy4(a: nat, b: nat)
    ensures Xor(a, b) / 4 == Xor(a / 4, b / 4)
  {
    hide Xor;
    XorParts(a, b);
    XorParts(a / 2, b / 2);
  }

  lemma XorBy16(a: nat, b: nat)
    ensures Xor(a, b) / 16 == Xor(a / 16, b / 16)
  {
    hide Xor;
    XorBy4(a, b);
    XorBy4(a / 4, b / 4);
  }

  lemma XorHigh(a: nat, b: Byte)
    ensures Xor(a, b) / 256 == a / 256
  {
    hide Xor;
    var x, y := a / 16, b / 16;
    XorBy16(a, b);
    XorBy16(x, y);
    By256(a);
    By256(b);
    By256(Xor(a, b));
    XorZero(x / 16);
  }

  lemma By256(n: nat)
    ensures n / 256 == n / 16 / 16
  {
  }

  /** Mixing in a byte changes the low byte only. */
  lemma XorByte(a: nat, b: Byte)
    ensures Xor(a, b) == a / 256 * 256 + Xor(a % 256, b)
  {
    hide Xor, Pow2;
    Pow2Of8();
    XorLow(a, b, 8);
    XorHigh(a, b);
    assert b % 256 == b;
  }

  lemma Pow2Of8()
    ensures Pow2(8) == 256
  {
    assert Pow2(4) == 16;
    Pow2Adds(4, 4);
  }

  lemma XorBelow(a: nat, b: nat)
    requires a < MOD_56 && b < MOD_56
    ensures Xor(a, b) < MOD_56
  {
    hide Xor, Pow2;
    Pow2Of56();
    XorLow(a, b, 56);
    assert a % MOD_56 == a && b % MOD_56 == b;
  }

  lemma Pow2Of56()
    ensures Pow2(56) == MOD_56
  {
    Pow2Of8();
    Pow2Adds(8, 8);
    Pow2Adds(16, 8);
    Pow2Adds(24, 8);
    Pow2Adds(32, 8);
    Pow2Adds(40, 8);
    Pow2Adds(48, 8);
  }

  lemma {:induction false} Pow2Adds(j: nat, k: nat)
    ensures Pow2(j + k) == Pow2(j) * Pow2(k)
    decreases k
  {
    if k > 0 {
      Pow2Adds(j, k - 1);
    }
  }

  // ---- Truncating at the end or at every step ------------------------------

  lemma ModMul(a: nat, b: nat)
    ensures ((a % MOD_56) * b) % MOD_56 == (a * b) % MOD_56
  {
    var q, r := a / MOD_56, a % MOD_56;
    var q', r' := r * b / MOD_56, r * b % MOD_56;
    Distribute(MOD_56 * q, r, b);
    Reorder(q, b);
    assert a * b == (q * b + q') * MOD_56 + r';
    EuclidUnique(a * b, MOD_56, q * b + q', r');
  }

  lemma Reorder(q: nat, b: nat)
    ensures MOD_56 * q * b == MOD_56 * (q * b)
  {
  }

  lemma Distribute(x: int, y: int, b: int)
    ensures (x + y) * b == x * b + y * b
  {
  }

  lemma StepLow(hash: nat, b: Byte)
    ensures ((Xor(hash, b) * FNV_PRIME) % MOD_64) % MOD_56 == Step(hash % MOD_56, b)
  {
    hide Xor, Pow2;
    var x := Xor(hash, b);
    Pow2Of56();
    XorLow(hash, b, 56);
    ByteFits(b);
    ModMul(x, FNV_PRIME);
    Narrow(x * FNV_PRIME);
  }

  lemma ByteFits(b: Byte)
    ensures b % MOD_56 == b
  {
  }

  lemma Narrow(y: nat)
    ensures (y % MOD_64) % MOD_56 == y % MOD_56
  {
    var q, r := y / MOD_64, y % MOD_64;
    assert y == MOD_56 * (256 * q) + r;
  }

  /** Masking the 64-bit hash once at the end gives the recurrence run entirely
      on 56-bit numbers. */
  lemma {:induction false} TruncationCommutes(hash: nat, bytes: seq<Byte>)
    ensures Fold64(hash, bytes) % MOD_56 == Fold(hash % MOD_56, bytes)
  {
    if bytes != [] {
      var n := |bytes| - 1;
      TruncationCommutes(hash, bytes[..n]);
      StepLow(Fold64(hash, bytes[..n]), bytes[n]);
    }
  }

  // ---- Every step is a bijection -------------------------------------------

  /** The inverse of the prime, which is odd, modulo 2^56. */
  const INVERSE := 0x965057aff6957b

  function Unstep(hash: nat, b: Byte): nat {
    Xor((hash * INVERSE) % MOD_56, b)
  }

  lemma InverseCancels(x: nat)
    requires x < MOD_56
    ensures (((x * FNV_PRIME) % MOD_56) * INVERSE) % MOD_56 == x
    ensures (((x * INVERSE) % MOD_56) * FNV_PRIME) % MOD_56 == x
  {
    ModMul(x * FNV_PRIME, INVERSE);
    ModMul(x * INVERSE, FNV_PRIME);
    Reassociate(x);
  }

  lemma Reassociate(x: nat)
    requires x < MOD_56
    ensures (x * FNV_PRIME * INVERSE) % MOD_56 == x
    ensures (x * INVERSE * FNV_PRIME) % MOD_56 == x
  {
    var q := FNV_PRIME * INVERSE / MOD_56;
    assert FNV_PRIME * INVERSE == MOD_56 * q + 1;
    assert x * FNV_PRIME * INVERSE == MOD_56 * (x * q) + x;
    assert x * INVERSE * FNV_PRIME == MOD_56 * (x * q) + x;
  }

  /** For each byte the step is a bijection on the 56-bit numbers, and for each
      number it sends different bytes to different numbers. */
  lemma StepIsBijective(hash: nat, b: Byte)
    requires hash < MOD_56
    ensures Unstep(Step(hash, b), b) == hash
    ensures Unstep(hash, b) < MOD_56 && Step(Unstep(hash, b), b) == hash
    ensures forall c: Byte :: Step(hash, c) == Step(hash, b) ==> c == b
  {
    XorBelow(hash, b);
    InverseCancels(Xor(hash, b));
    XorCancels(hash, b);
    var x := (hash * INVERSE) % MOD_56;
    XorBelow(x, b);
    XorCancels(x, b);
    InverseCancels(hash);
    forall c: Byte | Step(hash, c) == Step(hash, b)
      ensures c == b
    {
      XorBelow(hash, c);
      InverseCancels(Xor(hash, c));
      XorCommutes(hash, b);
      XorCommutes(hash, c);
      XorCancels(b, hash);
      XorCancels(c, hash);
    }
  }

  lemma {:induction false} XorCommutes(a: nat, b: nat)
    ensures Xor(a, b) == Xor(b, a)
  {
    if a != 0 || b != 0 {
      XorCommutes(a / 2, b / 2);
    }
  }

  /** A common suffix neither makes nor removes a collision. */
  lemma {:induction false} SuffixKeepsDifference(g: nat, h: nat, suffix: seq<Byte>)
    requires g < MOD_56 && h < MOD_56
    ensures Fold(g, suffix) == Fold(h, suffix) <==> g == h
  {
    if suffix != [] {
      var n := |suffix| - 1;
      SuffixKeepsDifference(g, h, suffix[..n]);
      FoldInRing(g, suffix[..n]);
      FoldInRing(h, suffix[..n]);
      StepIsBijective(Fold(g, suffix[..n]), suffix[n]);
      StepIsBijective(Fold(h, suffix[..n]), suffix[n]);
    }
  }

  lemma {:induction false} FoldAppend(hash: nat, x: seq<Byte>, y: seq<Byte>)
    ensures Fold(hash, x + y) == Fold(Fold(hash, x), y)
    decreases |y|
  {
    hide Step;
    if y == [] {
      assert x + y == x;
    } else {
      var n := |y| - 1;
      FoldAppend(hash, x, y[..n]);
      assert (x + y)[..|x| + n] == x + y[..n];
    }
  }

  // ---- The principal -------------------------------------------------------

  function HexDigit(n: nat): char
    requires n < 16
  {
    "0123456789abcdef"[n]
  }

  function Hex(n: nat): (text: string)
    ensures text != ""
  {
    if n < 16 then [HexDigit(n)] else Hex(n / 16) + [HexDigit(n % 16)]
  }

  lemma {:induction false} HexInjective(m: nat, n: nat)
    requires Hex(m) == Hex(n)
    ensures m == n
  {
    hide Hex, HexDigit;
    HexEnds(m);
    HexEnds(n);
    DigitInjective(m % 16, n % 16);
    if m >= 16 {
      HexInjective(m / 16, n / 16);
    }
  }

  lemma HexEnds(n: nat)
    ensures Hex(n)[|Hex(n)| - 1] == HexDigit(n % 16)
    ensures |Hex(n)| == 1 <==> n < 16
    ensures n >= 16 ==> Hex(n)[..|Hex(n)| - 1] == Hex(n / 16)
  {
  }

  lemma DigitInjective(m: nat, n: nat)
    requires m < 16 && n < 16 && HexDigit(m) == HexDigit(n)
    ensures m == n
  {
  }

  lemma {:induction false} HexLength(n: nat, digits: nat)
    requires digits > 0 && n < Pow2(4 * digits)
    ensures |Hex(n)| <= digits
    ensures forall c | c in Hex(n) :: c in "0123456789abcdef"
    decreases digits
  {
    if n >= 16 {
      assert Pow2(4) == 16;
      assert digits > 1;
      Pow2Adds(4 * (digits - 1), 4);
      HexLength(n / 16, digits - 1);
    }
  }

  /** The bytes of `session:`. */
  const SESSION: seq<Byte> := [115, 101, 115, 115, 105, 111, 110, 58]

  function MintAgentId(session: seq<Byte>): string {
    "agent:" + Hex(Fnv1a56(SESSION + session))
  }

  /** A principal is `agent:` and at most 14 hexadecimal digits, and says exactly
      the hash. */
  lemma PrincipalIsItsHash(s: seq<Byte>, t: seq<Byte>)
    ensures |MintAgentId(s)| <= |"agent:"| + 14
    ensures forall c | c in MintAgentId(s)[6..] :: c in "0123456789abcdef"
    ensures MintAgentId(s) == MintAgentId(t) <==> Fnv1a56(SESSION + s) == Fnv1a56(SESSION + t)
  {
    hide Fold, Hex;
    Pow2Of56();
    HexLength(Fnv1a56(SESSION + s), 14);
    assert MintAgentId(s)[6..] == Hex(Fnv1a56(SESSION + s));
    assert MintAgentId(t)[6..] == Hex(Fnv1a56(SESSION + t));
    if MintAgentId(s) == MintAgentId(t) {
      HexInjective(Fnv1a56(SESSION + s), Fnv1a56(SESSION + t));
    }
  }

  /** Two session ids that differ in exactly one byte never share a principal. */
  lemma OneByteApart(before: seq<Byte>, x: Byte, y: Byte, suffix: seq<Byte>)
    requires x != y
    ensures MintAgentId(before + [x] + suffix) != MintAgentId(before + [y] + suffix)
  {
    hide Step, Hex, Fnv1a56;
    var start := FNV_OFFSET % MOD_56;
    var head := Fold(start, SESSION + before);
    FoldInRing(start, SESSION + before);
    Splits(before, x, suffix);
    Splits(before, y, suffix);
    StepIsBijective(head, x);
    SuffixKeepsDifference(Step(head, x), Step(head, y), suffix);
    PrincipalIsItsHash(before + [x] + suffix, before + [y] + suffix);
  }

  lemma Splits(before: seq<Byte>, x: Byte, suffix: seq<Byte>)
    ensures Fnv1a56(SESSION + (before + [x] + suffix))
         == Fold(Step(Fold(FNV_OFFSET % MOD_56, SESSION + before), x), suffix)
  {
    hide Step;
    var start := FNV_OFFSET % MOD_56;
    var head := SESSION + before;
    assert SESSION + (before + [x] + suffix) == (head + [x]) + suffix;
    FoldAppend(start, head + [x], suffix);
    assert (head + [x])[..|head|] == head;
  }

  /** The published 64-bit vectors of the empty text and of `a`, truncated. */
  lemma PublishedVectors()
    ensures Fnv1a56([]) == 0xF2_9CE4_8422_2325
    ensures Fnv1a56([97]) == 0x63_DC4C_8601_EC8C
  {
    hide Fold, Xor, Fnv1a56, Step;
    OffsetLow();
    FoldNone(FNV_OFFSET % MOD_56);
    FoldOne(0xF2_9CE4_8422_2325, 97);
    XorByte(0xF2_9CE4_8422_2325, 97);
    XorOf0x25And97();
    assert Xor(0xF2_9CE4_8422_2325, 97) == 0xF2_9CE4_8422_2344;
    Fnv1a56Is([]);
    Fnv1a56Is([97]);
  }

  lemma Fnv1a56Is(bytes: seq<Byte>)
    ensures Fnv1a56(bytes) == Fold(FNV_OFFSET % MOD_56, bytes)
  {
    hide Fold;
  }

  lemma OffsetLow()
    ensures FNV_OFFSET % MOD_56 == 0xF2_9CE4_8422_2325
  {
  }

  lemma FoldNone(hash: nat)
    ensures Fold(hash, []) == hash
  {
  }

  lemma FoldOne(hash: nat, b: Byte)
    ensures Fold(hash, [b]) == (Xor(hash, b) * FNV_PRIME) % MOD_56
  {
    hide Xor;
    assert [b][..0] == [];
    FoldNone(hash);
  }

  lemma XorOf0x25And97()
    ensures Xor(0x25, 97) == 0x44
  {
    assert Xor(0x2, 6) == 4;
    assert Xor(0x4, 12) == 8;
    assert Xor(0x9, 24) == 0x11;
  }
}
