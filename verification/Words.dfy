/** Big-endian numbers and 32-byte ABI words. */
module Words {
  import opened Base

  function Pow256(k: nat): (p: nat)
    ensures p > 0
  {
    if k == 0 then 1 else 256 * Pow256(k - 1)
  }

  function BigEndian(n: nat, len: nat): (b: Bytes)
    ensures |b| == len
  {
    if len == 0 then [] else BigEndian(n / 256, len - 1) + [n % 256]
  }

  function Value(b: Bytes): nat {
    if |b| == 0 then 0 else 256 * Value(b[..|b| - 1]) + b[|b| - 1]
  }

  lemma {:induction false} ValueBound(b: Bytes)
    ensures Value(b) < Pow256(|b|)
  {
    if |b| > 0 {
      ValueBound(b[..|b| - 1]);
    }
  }

  // Decoding an encoded number gives it back when it fits.
  lemma {:induction false} ValueOfBigEndian(n: nat, len: nat)
    requires n < Pow256(len)
    ensures Value(BigEndian(n, len)) == n
  {
    if len > 0 {
      ValueOfBigEndian(n / 256, len - 1);
      assert BigEndian(n, len)[..len - 1] == BigEndian(n / 256, len - 1);
    }
  }

  // Encoding a decoded byte string gives it back.
  lemma {:induction false} BigEndianOfValue(b: Bytes)
    ensures BigEndian(Value(b), |b|) == b
  {
    if |b| > 0 {
      var (front, last) := (b[..|b| - 1], b[|b| - 1]);
      BigEndianOfValue(front);
      assert Value(b) / 256 == Value(front) && Value(b) % 256 == last;
      assert b == front + [last];
    }
  }

  // Widening a big-endian number only adds leading zero bytes.
  lemma {:induction false} BigEndianPads(n: nat, len: nat, pad: nat)
    requires n < Pow256(len)
    ensures BigEndian(n, pad + len) == Zeros(pad) + BigEndian(n, len)
  {
    if len > 0 {
      BigEndianPads(n / 256, len - 1, pad);
      assert BigEndian(n, pad + len) == (Zeros(pad) + BigEndian(n / 256, len - 1)) + [n % 256];
    } else {
      BigEndianOfZero(pad);
      assert Zeros(pad) + [] == Zeros(pad);
    }
  }

  lemma {:induction false} BigEndianOfZero(len: nat)
    ensures BigEndian(0, len) == Zeros(len)
  {
    if len > 0 {
      BigEndianOfZero(len - 1);
    }
  }

  lemma {:induction false} Pow256Add(a: nat, b: nat)
    ensures Pow256(a + b) == Pow256(a) * Pow256(b)
  {
    if a > 0 {
      Pow256Add(a - 1, b);
      calc {
        Pow256(a + b);
        256 * Pow256(a - 1 + b);
        256 * (Pow256(a - 1) * Pow256(b));
        Pow256(a) * Pow256(b);
      }
    }
  }

  lemma Pow256Values()
    ensures Pow256(8) == TWO_64 && Pow256(16) == TWO_128
    ensures Pow256(20) == TWO_160 && Pow256(32) == TWO_256
  {
    assert Pow256(1) == 256 && Pow256(2) == 0x1_0000;
    Pow256Add(2, 2);
    Pow256Add(4, 4);
    Pow256Add(8, 8);
    Pow256Add(16, 4);
    Pow256Add(16, 16);
  }

  // The number a 20-byte address is on chain.
  function AddressOf(b: Bytes20): Address {
    ValueBound(b);
    Pow256Values();
    Value(b)
  }

  // abi.encode of a value type narrower than 32 bytes.
  function UintWord(n: Uint256): Bytes32 {
    BigEndian(n, 32)
  }

  function Bytes4Word(b: Bytes4): Bytes32 {
    b + Zeros(28)
  }

  lemma UintWordInjective(m: Uint256, n: Uint256)
    requires UintWord(m) == UintWord(n)
    ensures m == n
  {
    Pow256Values();
    ValueOfBigEndian(m, 32);
    ValueOfBigEndian(n, 32);
  }

  lemma Bytes4WordInjective(a: Bytes4, b: Bytes4)
    requires Bytes4Word(a) == Bytes4Word(b)
    ensures a == b
  {
    assert a == Bytes4Word(a)[..4] && b == Bytes4Word(b)[..4];
  }

  // abi.encode of static values: their words one after another.
  function Encode(words: seq<Bytes32>): (b: Bytes)
    ensures |b| == 32 * |words|
  {
    if |words| == 0 then [] else Encode(words[..|words| - 1]) + words[|words| - 1]
  }

  lemma {:induction false} EncodeAppend(a: seq<Bytes32>, b: seq<Bytes32>)
    ensures Encode(a + b) == Encode(a) + Encode(b)
  {
    if |b| == 0 {
      assert a + b == a;
    } else {
      EncodeAppend(a, b[..|b| - 1]);
      assert (a + b)[..|a + b| - 1] == a + b[..|b| - 1];
    }
  }

  // The words can be read back from their concatenation.
  lemma {:induction false} EncodeInjective(a: seq<Bytes32>, b: seq<Bytes32>)
    requires Encode(a) == Encode(b)
    ensures a == b
  {
    assert 32 * |a| == 32 * |b|;
    if |a| > 0 {
      var front := 32 * (|a| - 1);
      assert Encode(a)[..front] == Encode(a[..|a| - 1]);
      assert Encode(b)[..front] == Encode(b[..|b| - 1]);
      assert Encode(a)[front..] == a[|a| - 1];
      assert Encode(b)[front..] == b[|b| - 1];
      EncodeInjective(a[..|a| - 1], b[..|b| - 1]);
      assert a == a[..|a| - 1] + [a[|a| - 1]];
    }
  }
}
