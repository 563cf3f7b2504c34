/**
 Who hosts what (`src/cluster/placement.rs`): rendezvous placement over the agreed member set, scored
 with 64-bit FNV-1a (section 2 of draft-eastlake-fnv). Words are naturals below 2^64 with the
 wrap-around written out; text is its UTF-8 bytes.
 */
module Placement {
  import opened Wrappers
  import opened Ordered

  const WORD: nat := 0x1_0000_0000_0000_0000
  const OFFSET: nat := 0xcbf2_9ce4_8422_2325
  const PRIME: nat := 0x0000_0100_0000_01b3
  const SEPARATOR: nat := 0xff

  // ---- The hash -----------------------------------------------------------------------------------------

  /** Bitwise exclusive or. */
  function Xor(a: nat, b: nat): nat {
    if a == 0 && b == 0 then 0
    else 2 * Xor(a / 2, b / 2) + (if a % 2 == b % 2 then 0 else 1)
  }

  lemma XorOneBit(a: nat, s: nat, b: nat, t: nat)
    requires s < 2 && t < 2
    ensures Xor(2 * a + s, 2 * b + t) == 2 * Xor(a, b) + (if s == t then 0 else 1)
  {
    assert (2 * a + s) / 2 == a && (2 * b + t) / 2 == b && (2 * a + s) % 2 == s && (2 * b + t) % 2 == t;
  }

  lemma XorTwiceOneBit(a: nat, s: nat, b: nat, t: nat)
    requires s < 2 && t < 2 && Xor(Xor(a, b), b) == a && Xor(b, Xor(b, a)) == a
    ensures var x, y := 2 * a + s, 2 * b + t; Xor(Xor(x, y), y) == x && Xor(y, Xor(y, x)) == x
  {
    var bit := if s == t then 0 else 1;
    XorOneBit(a, s, b, t);
    XorOneBit(Xor(a, b), bit, b, t);
    XorOneBit(b, t, a, s);
    XorOneBit(b, t, Xor(b, a), bit);
  }

  lemma {:induction false} XorUndoes(a: nat, b: nat)
    ensures Xor(Xor(a, b), b) == a
    ensures Xor(b, Xor(b, a)) == a
  {
    if a != 0 || b != 0 {
      XorUndoes(a / 2, b / 2);
      XorTwiceOneBit(a / 2, a % 2, b / 2, b % 2);
    } else {
      assert Xor(0, 0) == 0;
    }
  }

  function Pow2(k: nat): nat {
    if k == 0 then 1 else 2 * Pow2(k - 1)
  }

  lemma {:induction false} XorStaysBelow(a: nat, b: nat, k: nat)
    requires a < Pow2(k) && b < Pow2(k)
    ensures Xor(a, b) < Pow2(k)
  {
    if k > 0 && (a != 0 || b != 0) {
      XorStaysBelow(a / 2, b / 2, k - 1);
    }
  }

  function TimesPrime(x: nat): nat {
    x * PRIME % WORD
  }

  /** The prime times this is one, modulo 2^64: multiplying by it undoes the wrapping multiplication. */
  const INVERSE: nat := 0xce96_5057_aff6_957b
  const CARRY: nat := PRIME * INVERSE / WORD

  lemma MultipleFallsAway(x: nat, k: int)
    requires x < WORD
    ensures (x + k * WORD) % WORD == x
  {
  }

  lemma MultiplyingIsReversible(x: nat)
    requires x < WORD
    ensures TimesPrime(x) * INVERSE % WORD == x
  {
    assert PRIME * INVERSE == 1 + CARRY * WORD;
    var q := x * PRIME / WORD;
    assert x * PRIME == q * WORD + TimesPrime(x);
    assert TimesPrime(x) * INVERSE == x + (x * CARRY - q * INVERSE) * WORD;
    MultipleFallsAway(x, x * CARRY - q * INVERSE);
  }

  function Eat(hash: nat, byte: nat): nat {
    TimesPrime(Xor(hash, byte))
  }

  /** A step forgets nothing: neither about the hash so far nor about the byte. */
  lemma EatIsInjective(h1: nat, b1: nat, h2: nat, b2: nat)
    requires h1 < WORD && h2 < WORD && b1 < 256 && b2 < 256 && Eat(h1, b1) == Eat(h2, b2)
    ensures h1 == h2 ==> b1 == b2
    ensures b1 == b2 ==> h1 == h2
  {
    XorFitsAWord(h1, b1);
    XorFitsAWord(h2, b2);
    MultiplyingIsReversible(Xor(h1, b1));
    MultiplyingIsReversible(Xor(h2, b2));
    XorUndoes(h1, b1);
    XorUndoes(h2, b2);
    XorUndoes(b1, h1);
    XorUndoes(b2, h2);
  }

  lemma XorFitsAWord(h: nat, b: nat)
    requires h < WORD && b < 256
    ensures Xor(h, b) < WORD
  {
    WordIsPow2();
    XorStaysBelow(h, b, 64);
  }

  lemma WordIsPow2()
    ensures Pow2(64) == WORD
  {
    assert Pow2(8) == 256;
    DoublePow2(8);
    DoublePow2(16);
    DoublePow2(32);
  }

  lemma DoublePow2(k: nat)
    ensures Pow2(2 * k) == Pow2(k) * Pow2(k)
  {
    SumPow2(k, k);
  }

  lemma {:induction false} SumPow2(j: nat, k: nat)
    ensures Pow2(j + k) == Pow2(j) * Pow2(k)
  {
    if j > 0 {
      SumPow2(j - 1, k);
    }
  }

  predicate AreBytes(s: seq<nat>) {
    forall i :: 0 <= i < |s| ==> s[i] < 256
  }

  function Hash(seed: nat, bytes: seq<nat>): (r: nat)
    ensures seed < WORD ==> r < WORD
  {
    if bytes == [] then seed else Eat(Hash(seed, bytes[..|bytes| - 1]), bytes[|bytes| - 1])
  }

  lemma {:induction false} HashOfTwo(seed: nat, a: seq<nat>, b: seq<nat>)
    ensures Hash(seed, a + b) == Hash(Hash(seed, a), b)
  {
    if b == [] {
      assert a + b == a;
    } else {
      assert (a + b)[..|a + b| - 1] == a + b[..|b| - 1];
      HashOfTwo(seed, a, b[..|b| - 1]);
    }
  }

  /** So a whole hash is reversible: the same bytes never bring two hashes together. */
  lemma {:induction false} HashIsInjectiveInTheSeed(s1: nat, s2: nat, bytes: seq<nat>)
    requires s1 < WORD && s2 < WORD && AreBytes(bytes) && Hash(s1, bytes) == Hash(s2, bytes)
    ensures s1 == s2
  {
    if bytes != [] {
      var front, last := bytes[..|bytes| - 1], bytes[|bytes| - 1];
      EatIsInjective(Hash(s1, front), last, Hash(s2, front), last);
      HashIsInjectiveInTheSeed(s1, s2, front);
    }
  }

  ghost predicate DifferOnlyAt(a: seq<nat>, b: seq<nat>, k: nat) {
    |a| == |b| && k < |a| && a[k] != b[k] && forall i :: 0 <= i < |a| && i != k ==> a[i] == b[i]
  }

  /** Streams that differ in exactly one byte never hash alike. */
  lemma OneByteApartNeverCollides(seed: nat, a: seq<nat>, b: seq<nat>, k: nat)
    requires seed < WORD && AreBytes(a) && AreBytes(b) && DifferOnlyAt(a, b, k)
    ensures Hash(seed, a) != Hash(seed, b)
  {
    var left, right := a[..k], a[k + 1..];
    assert b[..k] == left && b[k + 1..] == right;
    assert a == left + [a[k]] + right && b == left + [b[k]] + right;
    HashOfTwo(seed, left + [a[k]], right);
    HashOfTwo(seed, left + [b[k]], right);
    assert (left + [a[k]])[..k] == left && (left + [b[k]])[..k] == left;
    if Hash(seed, a) == Hash(seed, b) {
      HashIsInjectiveInTheSeed(Hash(seed, left + [a[k]]), Hash(seed, left + [b[k]]), right);
      EatIsInjective(Hash(seed, left), a[k], Hash(seed, left), b[k]);
    }
  }

  // ---- The standard's own values --------------------------------------------------------------------------

  /** Two numbers side by side, bit by bit, below a common rest of the first. */
  datatype Bits = Rest | Bits(high: Bits, x: nat, y: nat)

  function BitsOf(x: nat, y: nat, k: nat): Bits {
    if k == 0 then Rest else Bits(BitsOf(x / 2, y / 2, k - 1), x % 2, y % 2)
  }

  function FirstOf(rest: nat, bits: Bits): nat {
    match bits
    case Rest => rest
    case Bits(high, x, _) => 2 * FirstOf(rest, high) + x
  }

  function SecondOf(bits: Bits): nat {
    match bits
    case Rest => 0
    case Bits(high, _, y) => 2 * SecondOf(high) + y
  }

  /** A bit of the result is set exactly where the two differ. */
  function Differing(rest: nat, bits: Bits): nat {
    match bits
    case Rest => rest
    case Bits(high, x, y) => 2 * Differing(rest, high) + (if x == y then 0 else 1)
  }

  lemma {:induction false} XorWithNothing(a: nat)
    ensures Xor(a, 0) == a
  {
    if a > 0 {
      XorWithNothing(a / 2);
    }
  }

  predicate AreBits(bits: Bits) {
    bits.Rest? || (bits.x < 2 && bits.y < 2 && AreBits(bits.high))
  }

  /** `Xor` sets a bit exactly where its arguments differ, and keeps the rest. */
  lemma {:induction false} XorIsDiffering(rest: nat, bits: Bits)
    requires AreBits(bits)
    ensures Xor(FirstOf(rest, bits), SecondOf(bits)) == Differing(rest, bits)
  {
    match bits
    case Rest => XorWithNothing(rest);
    case Bits(high, x, y) =>
      XorIsDiffering(rest, high);
      XorOneBit(FirstOf(rest, high), x, SecondOf(high), y);
  }

  function Shifted(rest: nat, k: nat): nat {
    if k == 0 then rest else 2 * Shifted(rest, k - 1)
  }

  lemma {:induction false} BitsOfBoth(rest: nat, x: nat, y: nat, k: nat)
    requires x < Pow2(k) && y < Pow2(k)
    ensures AreBits(BitsOf(x, y, k))
    ensures FirstOf(rest, BitsOf(x, y, k)) == Shifted(rest, k) + x && SecondOf(BitsOf(x, y, k)) == y
    decreases k
  {
    if k > 0 {
      BitsOfBoth(rest, x / 2, y / 2, k - 1);
    }
  }

  lemma {:induction false} DifferingAboveRest(rest: nat, bits: Bits, k: nat)
    requires FirstOf(rest, bits) == Shifted(rest, k) + FirstOf(0, bits) && Height(bits) == k
    ensures Differing(rest, bits) == Shifted(rest, k) + Differing(0, bits)
    decreases k
  {
    if k > 0 {
      DifferingAboveRest(rest, bits.high, k - 1);
    }
  }

  function Height(bits: Bits): nat {
    if bits.Rest? then 0 else Height(bits.high) + 1
  }

  lemma {:induction false} HeightOf(x: nat, y: nat, k: nat)
    ensures Height(BitsOf(x, y, k)) == k
  {
    if k > 0 {
      HeightOf(x / 2, y / 2, k - 1);
    }
  }

  lemma ShiftedOn(rest: nat, k: nat)
    ensures Shifted(rest, k + 4) == 16 * Shifted(rest, k)
  {
    assert Shifted(rest, k + 1) == 2 * Shifted(rest, k);
    assert Shifted(rest, k + 2) == 2 * Shifted(rest, k + 1);
    assert Shifted(rest, k + 3) == 2 * Shifted(rest, k + 2);
  }

  lemma EightIsAByte(rest: nat)
    ensures Shifted(rest, 8) == 256 * rest && Pow2(8) == 256
  {
    ShiftedOn(rest, 0);
    ShiftedOn(rest, 4);
  }

  lemma XorLowByte(hash: nat, low: nat, byte: nat)
    requires byte < 256 && low == hash % 256
    ensures Xor(hash, byte) == hash - low + Differing(0, BitsOf(low, byte, 8))
  {
    var rest, bits := hash / 256, BitsOf(low, byte, 8);
    EightIsAByte(rest);
    EightIsAByte(0);
    BitsOfBoth(rest, low, byte, 8);
    BitsOfBoth(0, low, byte, 8);
    HeightOf(low, byte, 8);
    XorIsDiffering(rest, bits);
    DifferingAboveRest(rest, bits, 8);
  }

  function Bit(x: nat, y: nat): nat {
    if x % 2 == y % 2 then 0 else 1
  }

  /** The exclusive or of two numbers below sixteen, written out. */
  function Nibble(x: nat, y: nat): nat {
    8 * Bit(x / 8, y / 8) + 4 * Bit(x / 4, y / 4) + 2 * Bit(x / 2, y / 2) + Bit(x, y)
  }

  lemma FourBits(x: nat, y: nat, k: nat)
    ensures Differing(0, BitsOf(x, y, k + 4)) == 16 * Differing(0, BitsOf(x / 16, y / 16, k)) + Nibble(x, y)
  {
    assert x / 2 / 2 == x / 4 && x / 4 / 2 == x / 8 && x / 8 / 2 == x / 16;
    assert y / 2 / 2 == y / 4 && y / 4 / 2 == y / 8 && y / 8 / 2 == y / 16;
    OneBit(x / 8, y / 8, k);
    OneBit(x / 4, y / 4, k + 1);
    OneBit(x / 2, y / 2, k + 2);
    OneBit(x, y, k + 3);
  }

  lemma OneBit(x: nat, y: nat, k: nat)
    ensures Differing(0, BitsOf(x, y, k + 1)) == 2 * Differing(0, BitsOf(x / 2, y / 2, k)) + Bit(x, y)
  {
  }

  lemma SameBit(a: nat, x: nat, c: nat, y: nat)
    ensures Bit(2 * a + x, 2 * c + y) == Bit(x, y)
  {
  }

  lemma OnlyTheLowDigits(a: nat, b: nat, c: nat, d: nat)
    ensures Nibble(16 * a + b, 16 * c + d) == Nibble(b, d)
  {
    assert (16 * a + b) / 8 == 2 * a + b / 8 && (16 * c + d) / 8 == 2 * c + d / 8;
    assert (16 * a + b) / 4 == 4 * a + b / 4 && (16 * c + d) / 4 == 4 * c + d / 4;
    assert (16 * a + b) / 2 == 8 * a + b / 2 && (16 * c + d) / 2 == 8 * c + d / 2;
    SameBit(a, b / 8, c, d / 8);
    SameBit(2 * a, b / 4, 2 * c, d / 4);
    SameBit(4 * a, b / 2, 4 * c, d / 2);
    SameBit(8 * a, b, 8 * c, d);
  }

  lemma TwoNibbles(a: nat, b: nat, c: nat, d: nat, x: nat, y: nat, k: nat)
    requires a < 16 && b < 16 && c < 16 && d < 16 && x == 16 * a + b && y == 16 * c + d
    ensures Differing(0, BitsOf(x, y, k + 8)) == 16 * (16 * Differing(0, BitsOf(0, 0, k)) + Nibble(a, c)) + Nibble(b, d)
  {
    assert x / 16 == a && y / 16 == c && a / 16 == 0 && c / 16 == 0;
    FourBits(x, y, k + 4);
    FourBits(a, c, k);
    OnlyTheLowDigits(a, b, c, d);
  }

  lemma AByteIsTwoNibbles(a: nat, b: nat, c: nat, d: nat, x: nat, y: nat)
    requires a < 16 && b < 16 && c < 16 && d < 16 && x == 16 * a + b && y == 16 * c + d
    ensures Differing(0, BitsOf(x, y, 8)) == 16 * Nibble(a, c) + Nibble(b, d)
  {
    TwoNibbles(a, b, c, d, x, y, 0);
  }

  /** One step, with the low byte of the hash and the byte it takes in each as two hexadecimal digits. */
  lemma EatsTo(hash: nat, byte: nat, rest: nat, a: nat, b: nat, c: nat, d: nat)
    requires a < 16 && b < 16 && c < 16 && d < 16 && hash == 256 * rest + 16 * a + b && byte == 16 * c + d
    ensures Eat(hash, byte) == TimesPrime(256 * rest + 16 * Nibble(a, c) + Nibble(b, d))
  {
    var low := 16 * a + b;
    XorLowByte(hash, low, byte);
    AByteIsTwoNibbles(a, b, c, d, low, byte);
  }

  lemma FiveNibbles()
    ensures Nibble(0x2, 0x6) == 0x4 && Nibble(0x5, 0x1) == 0x4 && Nibble(0x5, 0x6) == 0x3
    ensures Nibble(0xd, 0x6) == 0xb && Nibble(0x9, 0xf) == 0x6
  {
  }

  lemma ThreeProducts()
    ensures TimesPrime(0xcbf29ce484222344) == 0xaf63dc4c8601ec8c
    ensures TimesPrime(0xcbf29ce484222343) == 0xaf63db4c8601ead9
    ensures TimesPrime(0xaf63db4c8601eab6) == 0x08985907b541d342
  {
  }

  lemma EatsOn(h: nat, byte: nat, rest: nat, a: nat, b: nat, c: nat, d: nat, hi: nat, lo: nat)
    requires a < 16 && b < 16 && c < 16 && d < 16 && h == 256 * rest + 16 * a + b && byte == 16 * c + d
    requires Nibble(a, c) == hi && Nibble(b, d) == lo
    ensures Eat(h, byte) == TimesPrime(256 * rest + 16 * hi + lo)
  {
    EatsTo(h, byte, rest, a, b, c, d);
  }

  lemma EatsA(h: nat, byte: nat)
    requires h == 0xcbf29ce484222325 && byte == 0x61
    ensures Eat(h, byte) == 0xaf63dc4c8601ec8c
  {
    FiveNibbles();
    ThreeProducts();
    EatsOn(h, byte, 0xcbf29ce4842223, 0x2, 0x5, 0x6, 0x1, 0x4, 0x4);
  }

  lemma EatsF(h: nat, byte: nat)
    requires h == 0xcbf29ce484222325 && byte == 0x66
    ensures Eat(h, byte) == 0xaf63db4c8601ead9
  {
    FiveNibbles();
    ThreeProducts();
    EatsOn(h, byte, 0xcbf29ce4842223, 0x2, 0x5, 0x6, 0x6, 0x4, 0x3);
  }

  lemma EatsO(h: nat, byte: nat)
    requires h == 0xaf63db4c8601ead9 && byte == 0x6f
    ensures Eat(h, byte) == 0x08985907b541d342
  {
    FiveNibbles();
    ThreeProducts();
    EatsOn(h, byte, 0xaf63db4c8601ea, 0xd, 0x9, 0x6, 0xf, 0xb, 0x6);
  }

  /** FNV-1a of nothing, of "a" and of "fo", as the standard tabulates them. */
  lemma TheStandardsValues()
    ensures Hash(OFFSET, []) == 0xcbf29ce484222325
    ensures Hash(OFFSET, [0x61]) == 0xaf63dc4c8601ec8c
    ensures Hash(OFFSET, [0x66, 0x6f]) == 0x08985907b541d342
  {
    var h := OFFSET;
    HashOneMore(h, [], 0x61);
    HashOneMore(h, [], 0x66);
    HashOneMore(h, [0x66], 0x6f);
    assert [] + [0x61] == [0x61] && [] + [0x66] == [0x66] && [0x66] + [0x6f] == [0x66, 0x6f];
    EatsA(h, 0x61);
    EatsF(h, 0x66);
    EatsO(Eat(h, 0x66), 0x6f);
  }

  // ---- What is hashed -------------------------------------------------------------------------------------

  function Digits(n: nat, count: nat): (bytes: seq<nat>)
    ensures |bytes| == count && AreBytes(bytes)
  {
    if count == 0 then [] else Digits(n / 256, count - 1) + [n % 256]
  }

  function Pow256(k: nat): nat {
    if k == 0 then 1 else 256 * Pow256(k - 1)
  }

  lemma {:induction false} DigitsAreInjective(a: nat, b: nat, count: nat)
    requires a < Pow256(count) && b < Pow256(count) && Digits(a, count) == Digits(b, count)
    ensures a == b
  {
    if count > 0 {
      var x, y := Digits(a, count), Digits(b, count);
      assert x[..count - 1] == Digits(a / 256, count - 1) && y[..count - 1] == Digits(b / 256, count - 1);
      assert x[count - 1] == a % 256 && y[count - 1] == b % 256;
      DigitsAreInjective(a / 256, b / 256, count - 1);
    }
  }

  /** A node id as its eight big-endian bytes. */
  function BeBytes(node: nat): (bytes: seq<nat>)
    ensures |bytes| == 8 && AreBytes(bytes)
  {
    Digits(node, 8)
  }

  lemma BeBytesAreInjective(a: nat, b: nat)
    requires a < WORD && b < WORD && BeBytes(a) == BeBytes(b)
    ensures a == b
  {
    assert Pow256(4) == 0x1_0000_0000;
    assert Pow256(8) == WORD;
    DigitsAreInjective(a, b, 8);
  }

  function Stream(typeName: seq<nat>, shardId: seq<nat>, node: nat): seq<nat> {
    typeName + [SEPARATOR] + shardId + [SEPARATOR] + BeBytes(node)
  }

  function Score(typeName: seq<nat>, shardId: seq<nat>, node: nat): nat {
    Hash(OFFSET, Stream(typeName, shardId, node))
  }

  /** The number these bytes spell, the first the most significant. */
  function Spells(bytes: seq<nat>): nat {
    if bytes == [] then 0 else 256 * Spells(bytes[..|bytes| - 1]) + bytes[|bytes| - 1]
  }

  lemma {:induction false} DigitsSpell(n: nat, count: nat)
    requires n < Pow256(count)
    ensures Spells(Digits(n, count)) == n
  {
    if count > 0 {
      DigitsSpell(n / 256, count - 1);
      assert Digits(n, count)[..count - 1] == Digits(n / 256, count - 1);
    }
  }

  /** The layout, by position: the type, a separator, the shard, a separator, and eight bytes that spell the node. */
  lemma TheLayout(typeName: seq<nat>, shardId: seq<nat>, node: nat)
    requires node < WORD
    ensures var stream := Stream(typeName, shardId, node);
            var t, s := |typeName|, |shardId|;
            && |stream| == t + 1 + s + 1 + 8
            && stream[..t] == typeName && stream[t] == 0xff
            && stream[t + 1..t + 1 + s] == shardId && stream[t + 1 + s] == 0xff
            && Spells(stream[t + 1 + s + 1..]) == node
  {
    var stream := Stream(typeName, shardId, node);
    assert stream[|typeName| + |shardId| + 2..] == BeBytes(node);
    assert Pow256(4) == 0x1_0000_0000;
    assert Pow256(8) == WORD;
    DigitsSpell(node, 8);
  }

  lemma SplitAtTheSeparator(a: seq<nat>, r: seq<nat>, b: seq<nat>, s: seq<nat>)
    requires SEPARATOR !in a && SEPARATOR !in b && a + [SEPARATOR] + r == b + [SEPARATOR] + s
    ensures a == b && r == s
  {
    var whole := a + [SEPARATOR] + r;
    assert whole[|a|] == SEPARATOR && (b + [SEPARATOR] + s)[|b|] == SEPARATOR;
    assert |a| == |b|;
    assert whole[..|a|] == a && whole[|a| + 1..] == r;
  }

  /** Two different (type, shard, node) triples are never the same bytes, as no text contains the separator. */
  lemma TheStreamIsInjective(t1: seq<nat>, s1: seq<nat>, n1: nat, t2: seq<nat>, s2: seq<nat>, n2: nat)
    requires SEPARATOR !in t1 && SEPARATOR !in s1 && SEPARATOR !in t2 && SEPARATOR !in s2
    requires n1 < WORD && n2 < WORD && Stream(t1, s1, n1) == Stream(t2, s2, n2)
    ensures t1 == t2 && s1 == s2 && n1 == n2
  {
    var r1, r2 := s1 + [SEPARATOR] + BeBytes(n1), s2 + [SEPARATOR] + BeBytes(n2);
    assert Stream(t1, s1, n1) == t1 + [SEPARATOR] + r1;
    assert Stream(t2, s2, n2) == t2 + [SEPARATOR] + r2;
    SplitAtTheSeparator(t1, r1, t2, r2);
    SplitAtTheSeparator(s1, BeBytes(n1), s2, BeBytes(n2));
    BeBytesAreInjective(n1, n2);
  }

  /** UTF-8 of one code point. */
  function Utf8(c: nat): seq<nat>
    requires c < 0x110000
  {
    if c < 0x80 then [c]
    else if c < 0x800 then [0xc0 + c / 64, 0x80 + c % 64]
    else if c < 0x10000 then [0xe0 + c / 4096, 0x80 + c / 64 % 64, 0x80 + c % 64]
    else [0xf0 + c / 262144, 0x80 + c / 4096 % 64, 0x80 + c / 64 % 64, 0x80 + c % 64]
  }

  /** Reading one code point back: the first byte says how many follow, each of which gives six bits. */
  function Utf8First(bytes: seq<nat>): Option<(nat, nat)> {
    if bytes == [] then None
    else if bytes[0] < 0x80 then Some((bytes[0], 1))
    else if 0xc0 <= bytes[0] < 0xe0 && |bytes| >= 2 then Some((bytes[0] % 0x20 * 64 + bytes[1] % 64, 2))
    else if 0xe0 <= bytes[0] < 0xf0 && |bytes| >= 3 then
      Some((bytes[0] % 0x10 * 4096 + bytes[1] % 64 * 64 + bytes[2] % 64, 3))
    else if 0xf0 <= bytes[0] < 0xf8 && |bytes| >= 4 then
      Some((bytes[0] % 8 * 262144 + bytes[1] % 64 * 4096 + bytes[2] % 64 * 64 + bytes[3] % 64, 4))
    else None
  }

  lemma Utf8Two(c: nat, bytes: seq<nat>)
    requires 0x80 <= c < 0x800 && Utf8(c) <= bytes
    ensures Utf8First(bytes) == Some((c, 2))
  {
    var hi, lo := c / 64, c % 64;
    assert bytes[0] == 0xc0 + hi && bytes[1] == 0x80 + lo;
    assert c == 64 * hi + lo && hi < 0x20;
  }

  lemma Utf8Three(c: nat, bytes: seq<nat>)
    requires 0x800 <= c < 0x10000 && Utf8(c) <= bytes
    ensures Utf8First(bytes) == Some((c, 3))
  {
    var a, mid, lo := c / 64, c / 64 % 64, c % 64;
    var hi := a / 64;
    assert c / 4096 == hi;
    assert bytes[0] == 0xe0 + hi && bytes[1] == 0x80 + mid && bytes[2] == 0x80 + lo;
    assert c == 64 * a + lo && a == 64 * hi + mid && hi < 0x10;
  }

  lemma Utf8Four(c: nat, bytes: seq<nat>)
    requires 0x10000 <= c < 0x110000 && Utf8(c) <= bytes
    ensures Utf8First(bytes) == Some((c, 4))
  {
    var a, lo := c / 64, c % 64;
    var b, mid := a / 64, a % 64;
    var hi, up := b / 64, b % 64;
    assert c / 4096 == b && c / 262144 == hi;
    assert bytes[0] == 0xf0 + hi && bytes[1] == 0x80 + up && bytes[2] == 0x80 + mid && bytes[3] == 0x80 + lo;
    assert c == 64 * a + lo && a == 64 * b + mid && b == 64 * hi + up && hi < 5;
  }

  /** UTF-8 reads back, whatever follows: the bytes determine the text. */
  lemma Utf8ReadsBack(c: nat, rest: seq<nat>)
    requires c < 0x110000
    ensures Utf8First(Utf8(c) + rest) == Some((c, |Utf8(c)|))
  {
    var bytes := Utf8(c) + rest;
    if c < 0x80 {
      assert bytes[0] == c;
    } else if c < 0x800 {
      Utf8Two(c, bytes);
    } else if c < 0x10000 {
      Utf8Three(c, bytes);
    } else {
      Utf8Four(c, bytes);
    }
  }

  function Utf8All(text: seq<nat>): seq<nat>
    requires forall i :: 0 <= i < |text| ==> text[i] < 0x110000
  {
    if text == [] then [] else Utf8All(text[..|text| - 1]) + Utf8(text[|text| - 1])
  }

  lemma NoSeparatorInOne(c: nat)
    requires c < 0x110000
    ensures AreBytes(Utf8(c)) && forall i :: 0 <= i < |Utf8(c)| ==> Utf8(c)[i] < 0xf8
  {
    assert c / 64 % 64 < 64 && c / 4096 % 64 < 64 && c % 64 < 64;
    assert c < 0x800 ==> c / 64 < 32;
    assert c < 0x10000 ==> c / 4096 < 16;
    assert c / 262144 < 5;
  }

  /** The separator is never a byte of UTF-8. */
  lemma {:induction false} NoSeparatorInUtf8(text: seq<nat>)
    requires forall i :: 0 <= i < |text| ==> text[i] < 0x110000
    ensures AreBytes(Utf8All(text)) && SEPARATOR !in Utf8All(text)
  {
    if text != [] {
      NoSeparatorInUtf8(text[..|text| - 1]);
      NoSeparatorInOne(text[|text| - 1]);
    }
  }

  /** A string as the bytes that are hashed. */
  function Bytes(text: string): seq<nat> {
    Utf8All(seq(|text|, i requires 0 <= i < |text| => text[i] as nat))
  }

  // ---- Ties ---------------------------------------------------------------------------------------------------

  /** Node ids that differ in exactly one byte never tie, for any shard. */
  lemma IdsOneByteApartNeverTie(typeName: seq<nat>, shardId: seq<nat>, n1: nat, n2: nat, k: nat)
    requires AreBytes(typeName) && AreBytes(shardId) && DifferOnlyAt(BeBytes(n1), BeBytes(n2), k)
    ensures Score(typeName, shardId, n1) != Score(typeName, shardId, n2)
  {
    var head := typeName + [SEPARATOR] + shardId + [SEPARATOR];
    assert Stream(typeName, shardId, n1) == head + BeBytes(n1) && Stream(typeName, shardId, n2) == head + BeBytes(n2);
    OneByteApartNeverCollides(OFFSET, head + BeBytes(n1), head + BeBytes(n2), |head| + k);
  }

  lemma LastDigit(n: nat, k: nat)
    ensures Digits(n, k + 1) == Digits(n / 256, k) + [n % 256]
  {
  }

  lemma SmallIdsDifferOnlyInTheLastByte(n1: nat, n2: nat)
    requires n1 < 256 && n2 < 256 && n1 != n2
    ensures DifferOnlyAt(BeBytes(n1), BeBytes(n2), 7)
  {
    LastDigit(n1, 7);
    LastDigit(n2, 7);
    assert n1 / 256 == n2 / 256 && n1 % 256 != n2 % 256;
  }

  // ---- The owner ----------------------------------------------------------------------------------------------

  /** How well each node suits one shard. */
  type Scoring = nat -> nat

  function ScoringOf(typeName: seq<nat>, shardId: seq<nat>): Scoring {
    node => Score(typeName, shardId, node)
  }

  /** The higher score, and the higher id when they tie. */
  predicate Beats(score: Scoring, a: nat, b: nat) {
    score(a) > score(b) || (score(a) == score(b) && a > b)
  }

  ghost predicate IsOwner(members: set<nat>, score: Scoring, node: nat) {
    node in members && forall other :: other in members ==> other == node || Beats(score, node, other)
  }

  /** Nobody owns anything when nobody is alive; otherwise one node does. */
  ghost predicate Places(members: set<nat>, score: Scoring, owner: Option<nat>) {
    match owner
    case None => members == {}
    case Some(node) => IsOwner(members, score, node)
  }

  lemma OneOwner(members: set<nat>, score: Scoring, a: Option<nat>, b: Option<nat>)
    requires Places(members, score, a) && Places(members, score, b)
    ensures a == b
  {
    if a.Some? && b.Some? {
      assert a.value != b.value ==> Beats(score, a.value, b.value);
    }
  }

  ghost function Owner(members: set<nat>, score: Scoring): (owner: Option<nat>)
    ensures Places(members, score, owner)
  {
    if members == {} then None
    else
      var node :| node in members;
      assert members == (members - {node}) + {node};
      var rest := Owner(members - {node}, score);
      if rest.None? || Beats(score, node, rest.value) then Some(node) else rest
  }

  /** The owner's score is the highest there is, and of those with that score it has the highest id. */
  lemma TheOwnerIsTheHighestOfTheBest(members: set<nat>, score: Scoring, owner: nat)
    requires owner in members
    ensures Places(members, score, Some(owner)) <==>
            && (forall n :: n in members ==> score(n) <= score(owner))
            && (forall n :: n in members && score(n) == score(owner) ==> n <= owner)
  {
    if Places(members, score, Some(owner)) {
      forall n | n in members
        ensures score(n) <= score(owner) && (score(n) == score(owner) ==> n <= owner)
      {
        assert n == owner || Beats(score, owner, n);
      }
    }
  }

  /** Two nodes told of the same members, in any order and with any repeats, agree on every shard. */
  lemma TheSameMembersAgree(a: seq<nat>, b: seq<nat>, score: Scoring, x: Option<nat>, y: Option<nat>)
    requires forall n :: n in a <==> n in b
    requires Places(Collected(a), score, x) && Places(Collected(b), score, y)
    ensures x == y
  {
    assert Collected(a) == Collected(b);
    OneOwner(Collected(a), score, x, y);
  }

  function Collected(ids: seq<nat>): set<nat> {
    set n | n in ids
  }

  /** Among fewer members, a shard whose owner is still there stays where it is. */
  lemma TheOwnerStaysIfItCan(fewer: set<nat>, more: set<nat>, score: Scoring, before: Option<nat>, after: Option<nat>)
    requires fewer <= more && Places(more, score, before) && Places(fewer, score, after)
    requires before.Some? ==> before.value in fewer
    ensures before == after
  {
    OneOwner(fewer, score, before, after);
  }

  /** Losing members moves exactly the shards that were on them. */
  lemma LosingMembersMovesOnlyTheirShards(members: set<nat>, lost: set<nat>, score: Scoring, before: Option<nat>,
                                          after: Option<nat>)
    requires Places(members, score, before) && Places(members - lost, score, after)
    ensures before != after <==> before.Some? && before.value in lost
  {
    if before.None? || before.value !in lost {
      TheOwnerStaysIfItCan(members - lost, members, score, before, after);
    }
  }

  /** Gaining members moves shards only onto the new ones. */
  lemma GainingMembersMovesShardsOnlyOntoThem(members: set<nat>, gained: set<nat>, score: Scoring,
                                              before: Option<nat>, after: Option<nat>)
    requires Places(members, score, before) && Places(members + gained, score, after)
    ensures before != after <==> after.Some? && after.value in gained - members
  {
    if after.None? || after.value in members {
      TheOwnerStaysIfItCan(members, members + gained, score, after, before);
    }
  }

  /** With ids below 256 there is never a tie to break: the owner scores strictly highest. */
  lemma SmallIdsHaveAUniqueMaximum(members: set<nat>, typeName: seq<nat>, shardId: seq<nat>, owner: nat, other: nat)
    requires AreBytes(typeName) && AreBytes(shardId) && forall n :: n in members ==> n < 256
    requires IsOwner(members, ScoringOf(typeName, shardId), owner) && other in members && other != owner
    ensures Score(typeName, shardId, other) < Score(typeName, shardId, owner)
  {
    SmallIdsDifferOnlyInTheLastByte(owner, other);
    IdsOneByteApartNeverTie(typeName, shardId, owner, other, 7);
    assert Beats(ScoringOf(typeName, shardId), owner, other);
  }

  method EatAll(start: nat, bytes: seq<nat>) returns (hash: nat)
    ensures hash == Hash(start, bytes)
  {
    hash := start;
    for k := 0 to |bytes|
      invariant hash == Hash(start, bytes[..k])
    {
      hash := Eat(hash, bytes[k]);
      assert bytes[..k + 1][..k] == bytes[..k];
    }
    assert bytes[..|bytes|] == bytes;
  }

  lemma HashOneMore(seed: nat, bytes: seq<nat>, byte: nat)
    ensures Hash(seed, bytes + [byte]) == Eat(Hash(seed, bytes), byte)
  {
    assert (bytes + [byte])[..|bytes|] == bytes;
  }

  /** The running hash over the three fields and the separators between them. */
  method ComputeScore(typeName: seq<nat>, shardId: seq<nat>, node: nat) returns (hash: nat)
    ensures hash == Score(typeName, shardId, node)
  {
    hash := EatAll(OFFSET, typeName);
    hash := Eat(hash, SEPARATOR);
    HashOneMore(OFFSET, typeName, SEPARATOR);
    hash := EatAll(hash, shardId);
    HashOfTwo(OFFSET, typeName + [SEPARATOR], shardId);
    hash := Eat(hash, SEPARATOR);
    HashOneMore(OFFSET, typeName + [SEPARATOR] + shardId, SEPARATOR);
    hash := EatAll(hash, BeBytes(node));
    HashOfTwo(OFFSET, typeName + [SEPARATOR] + shardId + [SEPARATOR], BeBytes(node));
  }

  class PlacementTable {
    var members: set<nat>

    constructor ()
      ensures members == {}
    {
      members := {};
    }

    /** The order the members arrive in, and repeats, make no difference. */
    method SetMembers(ids: seq<nat>)
      modifies this
      ensures members == Collected(ids)
    {
      members := set n | n in ids;
    }

    method OwnerOf(typeName: seq<nat>, shardId: seq<nat>) returns (owner: Option<nat>)
      ensures Places(members, ScoringOf(typeName, shardId), owner)
    {
      owner := MaxByKey(members, ScoringOf(typeName, shardId));
    }
  }

  /** Members are visited in ascending order, and a later one wins a tie. */
  method MaxByKey(members: set<nat>, score: Scoring) returns (owner: Option<nat>)
    ensures Places(members, score, owner)
  {
    owner := None;
    var rest := members;
    ghost var seen := {};
    while rest != {}
      invariant seen + rest == members && Places(seen, score, owner)
      invariant owner.Some? ==> forall later :: later in rest ==> owner.value < later
      decreases |rest|
    {
      NonEmptyHasLowest(rest);
      var node :| IsLowest(rest, node);
      NextMember(seen, score, owner, node);
      rest, seen := rest - {node}, seen + {node};
      if owner.None? || score(node) >= score(owner.value) {
        owner := Some(node);
      }
    }
  }

  /** One more member, with a higher id than the best so far. */
  lemma NextMember(members: set<nat>, score: Scoring, owner: Option<nat>, node: nat)
    requires Places(members, score, owner) && (owner.Some? ==> owner.value < node)
    ensures Places(members + {node}, score,
                   if owner.None? || score(node) >= score(owner.value) then Some(node) else owner)
  {
  }
}
