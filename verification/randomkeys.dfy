/** Random access and secret keys: internal/operator/minio_access_key_reconciler.go, createRandomString. */
module RandomKeys {
  import opened Prelude

  type Byte = b: nat | b < 256

  type Bits = seq<bool>

  /** The symbols of the base32 alphabet in use, by value. */
  const CROCKFORD := "0123456789ABCDEFGHJKMNPQRSTVWXYZ"

  function Pow2(n: nat): (p: nat)
    ensures p > 0
  {
    if n == 0 then 1 else 2 * Pow2(n - 1)
  }

  /** The value of a string of bits, the first being the most significant. */
  function Value(bits: Bits): nat {
    if bits == [] then 0 else 2 * Value(bits[..|bits| - 1]) + (if bits[|bits| - 1] then 1 else 0)
  }

  /** The `width` low bits of `v`. */
  function BitsOf(v: nat, width: nat): (bits: Bits)
    ensures |bits| == width
  {
    if width == 0 then [] else BitsOf(v / 2, width - 1) + [v % 2 == 1]
  }

  lemma {:induction false} ValueBound(bits: Bits)
    ensures Value(bits) < Pow2(|bits|)
  {
    if bits != [] { ValueBound(bits[..|bits| - 1]); }
  }

  lemma {:induction false} ValueOfBits(v: nat, width: nat)
    requires v < Pow2(width)
    ensures Value(BitsOf(v, width)) == v
  {
    if width > 0 {
      ValueOfBits(v / 2, width - 1);
      assert BitsOf(v, width)[..width - 1] == BitsOf(v / 2, width - 1);
    }
  }

  lemma {:induction false} BitsOfValue(bits: Bits)
    ensures BitsOf(Value(bits), |bits|) == bits
  {
    if bits != [] {
      var n := |bits| - 1;
      BitsOfValue(bits[..n]);
      assert bits == bits[..n] + [bits[n]];
    }
  }

  /** All bits of a buffer, byte after byte. */
  function BufferBits(buf: seq<Byte>): (bits: Bits)
    ensures |bits| == 8 * |buf|
  {
    if buf == [] then [] else BitsOf(buf[0], 8) + BufferBits(buf[1..])
  }

  /** The symbol for five bits. */
  function Symbol(bits: Bits): char
    requires |bits| == 5
  {
    ValueBound(bits);
    assert Pow2(5) == 32;
    CROCKFORD[Value(bits)]
  }

  /** Base32 without padding (sections 3.2 and 6 of RFC 4648): five bits a symbol, zero bits filling up the last one. */
  function Encode(bits: Bits): string
    decreases |bits|
  {
    if bits == [] then ""
    else if |bits| < 5 then [Symbol(bits + seq(5 - |bits|, i => false))]
    else [Symbol(bits[..5])] + Encode(bits[5..])
  }

  /** Symbols in the encoding of `n` bytes. */
  function SymbolCount(n: nat): nat {
    (8 * n + 4) / 5
  }

  lemma {:induction false} EncodeLength(bits: Bits)
    ensures |Encode(bits)| == (|bits| + 4) / 5
    decreases |bits|
  {
    if |bits| >= 5 { EncodeLength(bits[5..]); }
  }

  /** Bytes that are read for a key of `length` symbols. */
  function NumBytes(length: nat): nat {
    (length * 5 + 7) / 8
  }

  /**
   That many bytes encode to enough symbols, so the slice is in range, and they are the fewest whose
   own bits fill every symbol of the key.
   */
  lemma NumBytesSuffice(length: nat, n: nat)
    ensures SymbolCount(NumBytes(length)) >= length
    ensures 8 * n >= 5 * length <==> n >= NumBytes(length)
  {
  }

  /**
   They are the fewest that encode to enough symbols only for some lengths: for the others a buffer
   one byte shorter encodes to as many symbols, the last of which has bits that are always zero.
   */
  lemma NumBytesLeastWhen(length: nat)
    ensures (forall n: nat :: SymbolCount(n) >= length ==> n >= NumBytes(length)) <==> length % 8 in {0, 1, 3, 6}
  {
    var m := NumBytes(length) - 1;
    if length % 8 in {0, 1, 3, 6} {
    } else {
      assert m >= 0 && SymbolCount(m) >= length;
    }
  }

  /** The two lengths in use: forty symbols take the fewest bytes possible, twenty take one more. */
  lemma KeyLengths()
    ensures NumBytes(20) == 13 && SymbolCount(12) == 20
    ensures NumBytes(40) == 25 && SymbolCount(24) < 40
  {
  }

  /** The key that a buffer of random bytes gives. */
  function RandomString(buf: seq<Byte>, length: nat): (key: string)
    requires |buf| == NumBytes(length)
    ensures |key| == length
  {
    EncodeLength(BufferBits(buf));
    NumBytesSuffice(length, |buf|);
    Encode(BufferBits(buf))[..length]
  }

  /** A source of randomness may fail. */
  method CreateRandomString(length: nat, entropy: Option<seq<Byte>>) returns (key: Option<string>)
    requires entropy.Some? ==> |entropy.value| == NumBytes(length)
    ensures key == if entropy.Some? then Some(RandomString(entropy.value, length)) else None
  {
    var numBytes := (length * 5 + 7) / 8;
    var buf := new Byte[numBytes](_ => 0);
    if entropy.None? { return None; }
    for i := 0 to numBytes
      invariant buf[..i] == entropy.value[..i]
    {
      buf[i] := entropy.value[i];
    }
    assert buf[..] == buf[..numBytes] == entropy.value[..numBytes] == entropy.value;
    EncodeLength(BufferBits(buf[..]));
    NumBytesSuffice(length, numBytes);
    var symbols := Encode(BufferBits(buf[..]));
    key := Some(symbols[..length]);
  }

  /** The key spelled by bits, five a symbol. */
  function Spell(bits: Bits, length: nat): (key: string)
    requires |bits| == 5 * length
    ensures |key| == length
  {
    if length == 0 then "" else [Symbol(bits[..5])] + Spell(bits[5..], length - 1)
  }

  lemma {:induction false} EncodeSpells(bits: Bits, length: nat)
    requires 5 * length <= |bits|
    ensures |Encode(bits)| >= length && Encode(bits)[..length] == Spell(bits[..5 * length], length)
    decreases |bits|
  {
    EncodeLength(bits);
    if length > 0 {
      EncodeSpells(bits[5..], length - 1);
      var front := bits[..5 * length];
      assert front[..5] == bits[..5] && front[5..] == bits[5..][..5 * (length - 1)];
      assert Encode(bits)[..length] == [Symbol(bits[..5])] + Encode(bits[5..])[..length - 1];
    }
  }

  lemma AlphabetStep(i: nat)
    requires i < 31
    ensures CROCKFORD[i] < CROCKFORD[i + 1]
  {
  }

  lemma {:induction false} AlphabetAscends(i: nat, j: nat)
    requires i < j < 32
    ensures CROCKFORD[i] < CROCKFORD[j]
    decreases j - i
  {
    hide CROCKFORD;
    AlphabetStep(i);
    if i + 1 < j { AlphabetAscends(i + 1, j); }
  }

  lemma SymbolInjective(a: Bits, b: Bits)
    requires |a| == |b| == 5 && Symbol(a) == Symbol(b)
    ensures a == b
  {
    ValueBound(a);
    ValueBound(b);
    assert Pow2(5) == 32;
    if Value(a) < Value(b) { AlphabetAscends(Value(a), Value(b)); }
    if Value(b) < Value(a) { AlphabetAscends(Value(b), Value(a)); }
    BitsOfValue(a);
    BitsOfValue(b);
  }

  lemma {:induction false} SpellInjective(a: Bits, b: Bits, length: nat)
    requires |a| == |b| == 5 * length && Spell(a, length) == Spell(b, length)
    ensures a == b
  {
    hide Symbol;
    if length > 0 {
      assert Spell(a, length)[0] == Symbol(a[..5]) && Spell(b, length)[0] == Symbol(b[..5]);
      assert Spell(a, length)[1..] == Spell(a[5..], length - 1) && Spell(b, length)[1..] == Spell(b[5..], length - 1);
      SymbolInjective(a[..5], b[..5]);
      SpellInjective(a[5..], b[5..], length - 1);
      assert a == a[..5] + a[5..] && b == b[..5] + b[5..];
    }
  }

  function IndexOf(c: char, s: string): (i: nat)
    requires c in s
    ensures i < |s| && s[i] == c
  {
    if s[0] == c then 0 else 1 + IndexOf(c, s[1..])
  }

  /** The bits that spell a string over the alphabet. */
  function BitsFor(key: string): (bits: Bits)
    requires forall c | c in key :: c in CROCKFORD
    ensures |bits| == 5 * |key|
  {
    if key == "" then [] else BitsOf(IndexOf(key[0], CROCKFORD), 5) + BitsFor(key[1..])
  }

  lemma {:induction false} BitsForSpell(key: string)
    requires forall c | c in key :: c in CROCKFORD
    ensures Spell(BitsFor(key), |key|) == key
  {
    if key != "" {
      var v := IndexOf(key[0], CROCKFORD);
      assert Pow2(5) == 32;
      ValueOfBits(v, 5);
      BitsForSpell(key[1..]);
      assert BitsFor(key)[..5] == BitsOf(v, 5) && BitsFor(key)[5..] == BitsFor(key[1..]);
    }
  }

  /** The buffer of `n` bytes with the given bits. */
  function Pack(bits: Bits, n: nat): (buf: seq<Byte>)
    requires |bits| == 8 * n
    ensures |buf| == n
  {
    if n == 0 then []
    else
      ValueBound(bits[..8]);
      assert Pow2(8) == 256;
      [Value(bits[..8]) as Byte] + Pack(bits[8..], n - 1)
  }

  lemma {:induction false} PackBits(bits: Bits, n: nat)
    requires |bits| == 8 * n
    ensures BufferBits(Pack(bits, n)) == bits
  {
    if n > 0 {
      BitsOfValue(bits[..8]);
      PackBits(bits[8..], n - 1);
      assert Pack(bits, n)[1..] == Pack(bits[8..], n - 1);
      assert bits == bits[..8] + bits[8..];
    }
  }

  lemma {:induction false} BitsPack(buf: seq<Byte>)
    ensures Pack(BufferBits(buf), |buf|) == buf
  {
    if buf != [] {
      assert Pow2(8) == 256;
      ValueOfBits(buf[0], 8);
      BitsPack(buf[1..]);
      var bits := BufferBits(buf);
      assert bits[..8] == BitsOf(buf[0], 8) && bits[8..] == BufferBits(buf[1..]);
    }
  }

  function Prefixed(b: bool, s: set<Bits>): set<Bits> {
    set t | t in s :: [b] + t
  }

  /** All strings of `n` bits. */
  function AllBits(n: nat): set<Bits> {
    if n == 0 then {[]} else Prefixed(false, AllBits(n - 1)) + Prefixed(true, AllBits(n - 1))
  }

  lemma {:induction false} AllBitsAre(n: nat, bits: Bits)
    ensures bits in AllBits(n) <==> |bits| == n
  {
    if n > 0 {
      var s := AllBits(n - 1);
      if |bits| == n {
        AllBitsAre(n - 1, bits[1..]);
        assert bits == [bits[0]] + bits[1..];
        assert bits in Prefixed(bits[0], s);
      }
      if b, t :| t in s && bits == [b] + t {
        AllBitsAre(n - 1, t);
      }
    }
  }

  function Image<A, B>(s: set<A>, f: A -> B): set<B> {
    set x | x in s :: f(x)
  }

  /** A map that keeps elements apart keeps their number. */
  lemma {:induction false} ImageSize<A, B>(s: set<A>, f: A -> B)
    requires forall x, y | x in s && y in s && f(x) == f(y) :: x == y
    ensures |Image(s, f)| == |s|
  {
    if s != {} {
      var a :| a in s;
      var rest := s - {a};
      ImageSize(rest, f);
      assert Image(s, f) == Image(rest, f) + {f(a)} && f(a) !in Image(rest, f);
    }
  }

  lemma PrefixedSize(b: bool, s: set<Bits>)
    ensures |Prefixed(b, s)| == |s|
  {
    var f := (t: Bits) => [b] + t;
    forall x, y | x in s && y in s && f(x) == f(y) ensures x == y {
      assert f(x)[1..] == x && f(y)[1..] == y;
    }
    ImageSize(s, f);
    assert forall t | t in s :: f(t) == [b] + t;
    assert Prefixed(b, s) == Image(s, f);
  }

  lemma {:induction false} AllBitsSize(n: nat)
    ensures |AllBits(n)| == Pow2(n)
  {
    if n > 0 {
      var s := AllBits(n - 1);
      AllBitsSize(n - 1);
      PrefixedSize(false, s);
      PrefixedSize(true, s);
      assert Prefixed(false, s) !! Prefixed(true, s) by {
        forall t | t in Prefixed(false, s) ensures t !in Prefixed(true, s) { assert !t[0]; }
      }
    }
  }

  /** Bits of the buffer that the key does not use. */
  function SpareBits(length: nat): (n: nat)
    ensures n < 8 && 5 * length + n == 8 * NumBytes(length)
  {
    8 * NumBytes(length) - 5 * length
  }

  /** The buffer that gives `key` and ends in the bits `t`. */
  function BufferFor(key: string, t: Bits): (buf: seq<Byte>)
    requires (forall c | c in key :: c in CROCKFORD) && |t| == SpareBits(|key|)
    ensures |buf| == NumBytes(|key|)
  {
    Pack(BitsFor(key) + t, NumBytes(|key|))
  }

  lemma BufferForBits(key: string, t: Bits)
    requires (forall c | c in key :: c in CROCKFORD) && |t| == SpareBits(|key|)
    ensures BufferBits(BufferFor(key, t)) == BitsFor(key) + t
  {
    hide BitsFor, BufferBits, Pack, NumBytes;
    PackBits(BitsFor(key) + t, NumBytes(|key|));
  }

  lemma EncodedString(buf: seq<Byte>, length: nat)
    requires |buf| == NumBytes(length)
    ensures |Encode(BufferBits(buf))| >= length && RandomString(buf, length) == Encode(BufferBits(buf))[..length]
  {
    hide Encode, BufferBits;
    EncodeLength(BufferBits(buf));
    NumBytesSuffice(length, |buf|);
  }

  lemma FrontSpells(bits: Bits, front: Bits, key: string)
    requires (forall c | c in key :: c in CROCKFORD) && front == BitsFor(key) && front <= bits
    ensures |Encode(bits)| >= |key| && Encode(bits)[..|key|] == key
  {
    hide Encode, BitsFor, Spell;
    EncodeSpells(bits, |key|);
    assert bits[..5 * |key|] == front;
    BitsForSpell(key);
  }

  lemma BufferForGives(key: string, t: Bits)
    requires (forall c | c in key :: c in CROCKFORD) && |t| == SpareBits(|key|)
    ensures RandomString(BufferFor(key, t), |key|) == key
  {
    hide Encode, BitsFor, BufferBits, BufferFor, SpareBits, NumBytes, RandomString;
    BufferForBits(key, t);
    FrontSpells(BitsFor(key) + t, BitsFor(key), key);
    EncodedString(BufferFor(key, t), |key|);
  }

  lemma GivenByBuffer(buf: seq<Byte>, key: string)
    requires (forall c | c in key :: c in CROCKFORD) && |buf| == NumBytes(|key|) && RandomString(buf, |key|) == key
    ensures buf == BufferFor(key, BufferBits(buf)[5 * |key|..])
  {
    hide Encode, BitsFor, Spell, BufferBits, Pack;
    var bits := BufferBits(buf);
    EncodeSpells(bits, |key|);
    BitsForSpell(key);
    SpellInjective(bits[..5 * |key|], BitsFor(key), |key|);
    assert bits == BitsFor(key) + bits[5 * |key|..];
    BitsPack(buf);
  }

  /** The buffers that give a key. */
  function BuffersFor(key: string): set<seq<Byte>>
    requires forall c | c in key :: c in CROCKFORD
  {
    set t | t in AllBits(SpareBits(|key|)) && |t| == SpareBits(|key|) :: BufferFor(key, t)
  }

  lemma BuffersForAre(key: string, buf: seq<Byte>)
    requires forall c | c in key :: c in CROCKFORD
    ensures buf in BuffersFor(key) <==> |buf| == NumBytes(|key|) && RandomString(buf, |key|) == key
  {
    hide BufferFor, RandomString, AllBits;
    if |buf| == NumBytes(|key|) && RandomString(buf, |key|) == key {
      GivenByBuffer(buf, key);
      AllBitsAre(SpareBits(|key|), BufferBits(buf)[5 * |key|..]);
    }
    if t :| t in AllBits(SpareBits(|key|)) && |t| == SpareBits(|key|) && buf == BufferFor(key, t) {
      BufferForGives(key, t);
    }
  }

  lemma BuffersForSize(key: string)
    requires forall c | c in key :: c in CROCKFORD
    ensures |BuffersFor(key)| == Pow2(SpareBits(|key|))
  {
    hide BufferFor, RandomString, AllBits, Pow2, BitsFor, BufferBits;
    var n := SpareBits(|key|);
    var f := (t: Bits) => if |t| == n then BufferFor(key, t) else [];
    forall t | t in AllBits(n) ensures |t| == n { AllBitsAre(n, t); }
    forall x, y | x in AllBits(n) && y in AllBits(n) && f(x) == f(y) ensures x == y {
      BufferForBits(key, x);
      BufferForBits(key, y);
      assert (BitsFor(key) + x)[5 * |key|..] == x && (BitsFor(key) + y)[5 * |key|..] == y;
    }
    ImageSize(AllBits(n), f);
    AllBitsSize(n);
    assert BuffersFor(key) == Image(AllBits(n), f);
  }

  /** Every string over the alphabet comes from the same number of buffers: cutting the key off adds no bias. */
  lemma Unbiased(key: string)
    requires forall c | c in key :: c in CROCKFORD
    ensures forall buf: seq<Byte> :: buf in BuffersFor(key) <==>
        |buf| == NumBytes(|key|) && RandomString(buf, |key|) == key
    ensures |BuffersFor(key)| == Pow2(8 * NumBytes(|key|) - 5 * |key|)
  {
    hide BufferFor, RandomString, AllBits, BuffersFor, Pow2;
    forall buf: seq<Byte> ensures buf in BuffersFor(key) <==>
        |buf| == NumBytes(|key|) && RandomString(buf, |key|) == key {
      BuffersForAre(key, buf);
    }
    BuffersForSize(key);
  }

  /** The `j`th bit of a buffer, the most significant bit of every byte coming first. */
  function Bit(buf: seq<Byte>, j: nat): nat
    requires j < 8 * |buf|
  {
    buf[j / 8] / [128, 64, 32, 16, 8, 4, 2, 1][j % 8] % 2
  }

  lemma BitStep(v: nat, width: nat, i: nat)
    requires i < width
    ensures BitsOf(v, width)[i] <==> if i == width - 1 then v % 2 == 1 else BitsOf(v / 2, width - 1)[i]
  {
  }

  lemma ByteBits(v: Byte, i: nat)
    requires i < 8
    ensures BitsOf(v, 8)[i] <==> v / [128, 64, 32, 16, 8, 4, 2, 1][i] % 2 == 1
  {
    hide BitsOf;
    assert v / 2 / 2 == v / 4 && v / 4 / 2 == v / 8 && v / 8 / 2 == v / 16 && v / 16 / 2 == v / 32;
    assert v / 32 / 2 == v / 64 && v / 64 / 2 == v / 128;
    BitStep(v, 8, i);
    if i < 7 { BitStep(v / 2, 7, i); }
    if i < 6 { BitStep(v / 4, 6, i); }
    if i < 5 { BitStep(v / 8, 5, i); }
    if i < 4 { BitStep(v / 16, 4, i); }
    if i < 3 { BitStep(v / 32, 3, i); }
    if i < 2 { BitStep(v / 64, 2, i); }
    if i < 1 { BitStep(v / 128, 1, i); }
  }

  lemma {:induction false} BufferBitsAre(buf: seq<Byte>, j: nat)
    requires j < 8 * |buf|
    ensures BufferBits(buf)[j] <==> Bit(buf, j) == 1
  {
    hide BitsOf;
    if j < 8 {
      ByteBits(buf[0], j);
    } else {
      BufferBitsAre(buf[1..], j - 8);
      assert BufferBits(buf)[j] == BufferBits(buf[1..])[j - 8];
    }
  }

  function One(b: bool): nat {
    if b then 1 else 0
  }

  lemma BitOne(buf: seq<Byte>, j: nat)
    requires j < 8 * |buf|
    ensures Bit(buf, j) == One(BufferBits(buf)[j])
  {
    hide BufferBits;
    BufferBitsAre(buf, j);
  }

  lemma {:induction false} SpellAt(bits: Bits, length: nat, i: nat)
    requires |bits| == 5 * length && i < length
    ensures Spell(bits, length)[i] == Symbol(bits[5 * i..5 * i + 5])
  {
    hide Symbol;
    if i > 0 {
      SpellAt(bits[5..], length - 1, i - 1);
      assert bits[5..][5 * (i - 1)..5 * (i - 1) + 5] == bits[5 * i..5 * i + 5];
    }
  }

  lemma ValueStep(bits: Bits, b: bool)
    ensures Value(bits + [b]) == 2 * Value(bits) + One(b) && Value([]) == 0
  {
    assert (bits + [b])[..|bits|] == bits;
  }

  lemma FiveBits(a: bool, b: bool, c: bool, d: bool, e: bool)
    ensures Value([a, b, c, d, e]) == 16 * One(a) + 8 * One(b) + 4 * One(c) + 2 * One(d) + One(e)
  {
    hide One, Value;
    ValueStep([], a);
    ValueStep([a], b);
    ValueStep([a, b], c);
    ValueStep([a, b, c], d);
    ValueStep([a, b, c, d], e);
    assert [] + [a] == [a] && [a] + [b] == [a, b] && [a, b] + [c] == [a, b, c];
    assert [a, b, c] + [d] == [a, b, c, d] && [a, b, c, d] + [e] == [a, b, c, d, e];
  }

  lemma SymbolIs(bits: Bits, v: nat)
    requires |bits| == 5 && Value(bits) == v
    ensures v < 32 && Symbol(bits) == "0123456789ABCDEFGHJKMNPQRSTVWXYZ"[v]
  {
    ValueBound(bits);
    assert Pow2(5) == 32;
  }

  /** The `i`th symbol of a key stands for the `i`th five bits of the buffer. */
  lemma SymbolAt(buf: seq<Byte>, length: nat, i: nat)
    requires |buf| == NumBytes(length) && i < length
    ensures
      var v := 16 * Bit(buf, 5 * i) + 8 * Bit(buf, 5 * i + 1) + 4 * Bit(buf, 5 * i + 2) + 2 * Bit(buf, 5 * i + 3)
          + Bit(buf, 5 * i + 4);
      v < 32 && RandomString(buf, length)[i] == "0123456789ABCDEFGHJKMNPQRSTVWXYZ"[v]
  {
    hide Encode, BufferBits, Bit, Spell, RandomString, Value, Symbol;
    var bits, j := BufferBits(buf), 5 * i;
    EncodedString(buf, length);
    EncodeSpells(bits, length);
    SpellAt(bits[..5 * length], length, i);
    assert bits[..5 * length][j..j + 5] == [bits[j], bits[j + 1], bits[j + 2], bits[j + 3], bits[j + 4]];
    var v := 16 * Bit(buf, j) + 8 * Bit(buf, j + 1) + 4 * Bit(buf, j + 2) + 2 * Bit(buf, j + 3) + Bit(buf, j + 4);
    assert Value(bits[..5 * length][j..j + 5]) == v by {
      FiveBits(bits[j], bits[j + 1], bits[j + 2], bits[j + 3], bits[j + 4]);
      BitOne(buf, j);
      BitOne(buf, j + 1);
      BitOne(buf, j + 2);
      BitOne(buf, j + 3);
      BitOne(buf, j + 4);
    }
    SymbolIs(bits[..5 * length][j..j + 5], v);
  }
}
