/** Names made from hashes (FNV-1a, 32 bits, section 2 of draft-eastlake-fnv) and from pairs of names. */
module Hash {
  /** Go hashes the bytes of a string; a character here stands for one byte. */
  type Byte = c: char | c as int < 256 witness 'a'

  const OFFSET_BASIS := 2166136261
  const PRIME := 16777619
  const TWO32 := 0x1_0000_0000

  /** PRIME * INVERSE is 1 modulo 2 to the 32. */
  const INVERSE := 899433627

  type Word = n: nat | n < TWO32

  // ---------- exclusive or ----------

  /** Bitwise exclusive or of two numbers of `bits` bits. */
  function Xor(a: nat, b: nat, bits: nat): nat {
    if bits == 0 then 0 else 2 * Xor(a / 2, b / 2, bits - 1) + (if a % 2 == b % 2 then 0 else 1)
  }

  function Pow2(k: nat): nat {
    if k == 0 then 1 else 2 * Pow2(k - 1)
  }

  lemma Halves(x: nat, low: nat)
    requires low < 2
    ensures (2 * x + low) / 2 == x && (2 * x + low) % 2 == low
  {
  }

  lemma {:induction false} XorCancels(a: nat, b: nat, bits: nat)
    requires a < Pow2(bits)
    ensures Xor(a, b, bits) < Pow2(bits)
    ensures Xor(Xor(a, b, bits), b, bits) == a
    ensures Xor(b, Xor(a, b, bits), bits) == a
  {
    if bits != 0 {
      XorCancels(a / 2, b / 2, bits - 1);
      var low := if a % 2 == b % 2 then 0 else 1;
      Halves(Xor(a / 2, b / 2, bits - 1), low);
      assert Xor(a, b, bits) == 2 * Xor(a / 2, b / 2, bits - 1) + low;
    }
  }

  /** The binary digit of weight 2 to the `k`. */
  function Bit(a: nat, k: nat): nat {
    if k == 0 then a % 2 else Bit(a / 2, k - 1)
  }

  /** Each bit of the result says whether the two bits differ. */
  lemma {:induction false} XorBits(a: nat, b: nat, bits: nat, k: nat)
    requires k < bits
    ensures Bit(Xor(a, b, bits), k) == if Bit(a, k) != Bit(b, k) then 1 else 0
  {
    Halves(Xor(a / 2, b / 2, bits - 1), if a % 2 == b % 2 then 0 else 1);
    if k > 0 {
      XorBits(a / 2, b / 2, bits - 1, k - 1);
    }
  }

  lemma XorByte(a: nat, b: nat)
    requires a < 256
    ensures Xor(a, b, 8) < 256 && Xor(Xor(a, b, 8), b, 8) == a && Xor(b, Xor(a, b, 8), 8) == a
  {
    assert Pow2(4) == 16;
    XorCancels(a, b, 8);
  }

  /** The state with another low byte. */
  function WithLow(h: Word, x: nat): (r: Word)
    requires x < 256
    ensures r / 256 == h / 256 && r % 256 == x
  {
    h / 256 * 256 + x
  }

  /** Only the low byte of the state meets the input. */
  function XorLow(h: Word, c: Byte): Word {
    XorByte(h % 256, c as int);
    WithLow(h, Xor(h % 256, c as int, 8))
  }

  lemma XorLowCancels(h: Word, c: Byte)
    ensures XorLow(XorLow(h, c), c) == h
  {
    XorByte(h % 256, c as int);
  }

  lemma XorLowDetermines(h: Word, c: Byte, d: Byte)
    requires XorLow(h, c) == XorLow(h, d)
    ensures c == d
  {
    XorByte(c as int, h % 256);
    XorByte(d as int, h % 256);
    XorCommutes(h % 256, c as int, 8);
    XorCommutes(h % 256, d as int, 8);
  }

  lemma {:induction false} XorCommutes(a: nat, b: nat, bits: nat)
    ensures Xor(a, b, bits) == Xor(b, a, bits)
  {
    if bits != 0 {
      XorCommutes(a / 2, b / 2, bits - 1);
    }
  }

  // ---------- the hash ----------

  function Step(h: Word, c: Byte): Word {
    XorLow(h, c) * PRIME % TWO32
  }

  /** The state before a step. */
  function Unstep(h: Word, c: Byte): Word {
    XorLow(h * INVERSE % TWO32, c)
  }

  lemma MulModCancels(x: Word, p: nat, q: nat, k: nat)
    requires p * q == 1 + k * TWO32
    ensures x * p % TWO32 * q % TWO32 == x
  {
    var d := x * p / TWO32;
    var r := x * p % TWO32;
    assert x * p == d * TWO32 + r;
    calc {
      r * q;
      (x * p - d * TWO32) * q;
      x * p * q - d * TWO32 * q;
      { assert x * p * q == x * (p * q); }
      x * (1 + k * TWO32) - d * TWO32 * q;
      x + (x * k - d * q) * TWO32;
    }
    ModOfSum(x, x * k - d * q, r * q);
  }

  lemma ModOfSum(x: Word, m: int, y: nat)
    requires y == x + m * TWO32
    ensures y % TWO32 == x
  {
  }

  /** For every input byte the step is a bijection on the states. */
  lemma StepIsBijection(h: Word, c: Byte)
    ensures Unstep(Step(h, c), c) == h && Step(Unstep(h, c), c) == h
  {
    MulModCancels(XorLow(h, c), PRIME, INVERSE, 3513497);
    XorLowCancels(h, c);
    MulModCancels(h, INVERSE, PRIME, 3513497);
    XorLowCancels(h * INVERSE % TWO32, c);
  }

  function Fold(h: Word, s: seq<Byte>): Word
    decreases |s|
  {
    if s == [] then h else Fold(Step(h, s[0]), s[1..])
  }

  function FnvHash(s: seq<Byte>): Word {
    Fold(OFFSET_BASIS, s)
  }

  lemma FoldOne(h: Word, c: Byte)
    ensures Fold(h, [c]) == Step(h, c)
  {
    assert [c][1..] == [];
  }

  lemma XorOfA()
    ensures Xor(0xC5, 0x61, 8) == 0xA4
  {
    assert Xor(3, 1, 2) == 2;
    assert Xor(6, 3, 3) == 5;
    assert Xor(12, 6, 4) == 10;
    assert Xor(24, 12, 5) == 20;
    assert Xor(49, 24, 6) == 41;
    assert Xor(98, 48, 7) == 82;
  }

  lemma LowByteOfA(h: Word, c: Byte)
    requires h == 0x811C9DC5 && c == 'a'
    ensures XorLow(h, c) == 0x811C9DA4
  {
    assert h % 256 == 0xC5 && h / 256 == 0x811C9D && c as int == 0x61;
    XorOfA();
  }

  lemma StepOfA(h: Word, c: Byte)
    requires h == 0x811C9DC5 && c == 'a'
    ensures Step(h, c) == 0xE40C292C
  {
    LowByteOfA(h, c);
  }

  /** Two values that are published for this hash: of no bytes, and of the letter a. */
  lemma KnownValues(s: seq<Byte>)
    ensures s == [] ==> FnvHash(s) == 0x811C9DC5
    ensures s == ['a'] ==> FnvHash(s) == 0xE40C292C
  {
    if s == ['a'] {
      FoldOne(OFFSET_BASIS, s[0]);
      StepOfA(OFFSET_BASIS, s[0]);
    }
  }

  method ComputeFnvHash(s: seq<Byte>) returns (h: Word)
    ensures h == FnvHash(s)
  {
    h := OFFSET_BASIS;
    for i := 0 to |s|
      invariant Fold(h, s[i..]) == FnvHash(s)
    {
      assert s[i..][1..] == s[i + 1..];
      h := XorLow(h, s[i]) * PRIME % TWO32;
    }
  }

  /** Runs the hash backwards over the same bytes. */
  function Unfold(h: Word, s: seq<Byte>): Word {
    if s == [] then h else Unstep(Unfold(h, s[1..]), s[0])
  }

  lemma {:induction false} UnfoldFold(h: Word, s: seq<Byte>)
    ensures Unfold(Fold(h, s), s) == h
    decreases |s|
  {
    if s != [] {
      UnfoldFold(Step(h, s[0]), s[1..]);
      StepIsBijection(h, s[0]);
    }
  }

  lemma {:induction false} FoldAppend(h: Word, s: seq<Byte>, t: seq<Byte>)
    ensures Fold(h, s + t) == Fold(Fold(h, s), t)
    decreases |s|
  {
    if s == [] {
      assert s + t == t;
    } else {
      assert (s + t)[1..] == s[1..] + t;
      FoldAppend(Step(h, s[0]), s[1..], t);
    }
  }

  lemma StepDetermines(h: Word, c: Byte, d: Byte)
    requires Step(h, c) == Step(h, d)
    ensures c == d
  {
    MulModCancels(XorLow(h, c), PRIME, INVERSE, 3513497);
    MulModCancels(XorLow(h, d), PRIME, INVERSE, 3513497);
    XorLowDetermines(h, c, d);
  }

  /** Two strings that differ in exactly one byte never have the same hash. */
  lemma OneByteMatters(pre: seq<Byte>, c: Byte, d: Byte, post: seq<Byte>)
    ensures FnvHash(pre + [c] + post) == FnvHash(pre + [d] + post) <==> c == d
  {
    var h := Fold(OFFSET_BASIS, pre);
    FoldAppend(OFFSET_BASIS, pre + [c], post);
    FoldAppend(OFFSET_BASIS, pre, [c]);
    FoldAppend(OFFSET_BASIS, pre + [d], post);
    FoldAppend(OFFSET_BASIS, pre, [d]);
    assert Fold(h, [c]) == Step(h, c) && Fold(h, [d]) == Step(h, d);
    UnfoldFold(Step(h, c), post);
    UnfoldFold(Step(h, d), post);
    if FnvHash(pre + [c] + post) == FnvHash(pre + [d] + post) {
      StepDetermines(h, c, d);
    }
  }

  // ---------- names ----------

  function Digit(n: nat): char
    requires n < 10
  {
    '0' + n as char
  }

  function Decimal(n: nat): (s: string)
    ensures s != []
  {
    if n < 10 then [Digit(n)] else Decimal(n / 10) + [Digit(n % 10)]
  }

  /** The number that a string of digits stands for. */
  function Value(s: string): int {
    if s == [] then 0 else 10 * Value(s[..|s| - 1]) + (s[|s| - 1] as int - '0' as int)
  }

  /** Decimal writes the number with digits, without leading zeros. */
  lemma {:induction false} DecimalIs(n: nat)
    ensures Value(Decimal(n)) == n && forall c <- Decimal(n) :: '0' <= c <= '9'
    ensures n > 0 ==> Decimal(n)[0] != '0'
  {
    if n < 10 {
      assert Decimal(n)[..0] == [];
    } else {
      DecimalIs(n / 10);
      assert Decimal(n)[..|Decimal(n)| - 1] == Decimal(n / 10);
    }
  }

  lemma {:induction false} DecimalDetermines(m: nat, n: nat)
    requires Decimal(m) == Decimal(n)
    ensures m == n
  {
    var s, t := Decimal(m), Decimal(n);
    assert s[|s| - 1] == Digit(m % 10) && t[|t| - 1] == Digit(n % 10);
    assert m % 10 == n % 10;
    if m >= 10 && n >= 10 {
      assert s[..|s| - 1] == Decimal(m / 10) && t[..|t| - 1] == Decimal(n / 10);
      DecimalDetermines(m / 10, n / 10);
    }
  }

  /** A fixed prefix and the hash of `s` in decimal. */
  function HashName(prefix: string, s: seq<Byte>): string {
    prefix + Decimal(FnvHash(s))
  }

  /** Names of one kind are as distinct as the hashes. */
  lemma HashNamesClash(prefix: string, s: seq<Byte>, t: seq<Byte>)
    ensures HashName(prefix, s) == HashName(prefix, t) <==> FnvHash(s) == FnvHash(t)
  {
    if HashName(prefix, s) == HashName(prefix, t) {
      assert HashName(prefix, s)[|prefix|..] == Decimal(FnvHash(s));
      assert HashName(prefix, t)[|prefix|..] == Decimal(FnvHash(t));
      DecimalDetermines(FnvHash(s), FnvHash(t));
    }
  }

  /** Scheduling intervals, policies or pools whose names differ in exactly one byte get different names. */
  lemma OneByteGivesOtherName(prefix: string, pre: seq<Byte>, c: Byte, d: Byte, post: seq<Byte>)
    requires c != d
    ensures HashName(prefix, pre + [c] + post) != HashName(prefix, pre + [d] + post)
  {
    OneByteMatters(pre, c, d, post);
    HashNamesClash(prefix, pre + [c] + post, pre + [d] + post);
  }

  function GetKey(cluster: string, client: string): string {
    cluster + "_" + client
  }

  /** Keys of clusters without an underscore in their names identify cluster and client. */
  lemma GetKeyDetermines(c: string, n: string, d: string, m: string)
    requires '_' !in c && '_' !in d
    ensures GetKey(c, n) == GetKey(d, m) <==> c == d && n == m
  {
    var k := GetKey(c, n);
    if k == GetKey(d, m) {
      assert k[|c|] == '_' && k[|d|] == '_';
      assert forall i :: 0 <= i < |c| ==> k[i] == c[i];
      assert forall i :: 0 <= i < |d| ==> k[i] == d[i];
      assert |c| == |d|;
      assert c == k[..|c|] && d == k[..|d|];
      assert n == k[|c| + 1..] && m == k[|d| + 1..];
    }
  }

  /** Otherwise they may not; but no ManagedCluster can have such a name. */
  lemma GetKeyMayClash()
    ensures GetKey("a_b", "c") == GetKey("a", "b_c")
  {
    assert GetKey("a_b", "c") == "a_b_c" && GetKey("a", "b_c") == "a_b_c";
  }
}
