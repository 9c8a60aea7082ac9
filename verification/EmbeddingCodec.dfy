/** Vectors as they are stored: 32-bit float patterns in little-endian bytes, and the real numbers the
    finite patterns stand for. */
module EmbeddingCodec {
  import opened Prelude

  /** The bit pattern of a float32. */
  type Float32 = x: int | 0 <= x < 0x1_0000_0000

  function ByteOf(v: Float32, i: nat): Byte
    requires i < 4
  {
    match i
    case 0 => v % 256
    case 1 => v / 256 % 256
    case 2 => v / 256 / 256 % 256
    case _ => v / 256 / 256 / 256
  }

  function Word(b0: Byte, b1: Byte, b2: Byte, b3: Byte): Float32 {
    b0 + 256 * b1 + 65536 * b2 + 16777216 * b3
  }

  lemma WordOfBytes(v: Float32)
    ensures Word(ByteOf(v, 0), ByteOf(v, 1), ByteOf(v, 2), ByteOf(v, 3)) == v
  {
  }

  lemma BytesOfWord(b0: Byte, b1: Byte, b2: Byte, b3: Byte)
    ensures var v := Word(b0, b1, b2, b3);
            ByteOf(v, 0) == b0 && ByteOf(v, 1) == b1 && ByteOf(v, 2) == b2 && ByteOf(v, 3) == b3
  {
    var v := Word(b0, b1, b2, b3);
    assert v / 256 == b1 + 256 * b2 + 65536 * b3;
    assert v / 256 / 256 == b2 + 256 * b3;
  }

  /** The stored form: byte `k` is byte `k % 4` of element `k / 4`. */
  function Serialized(vec: seq<Float32>): (b: seq<Byte>)
    ensures |b| == 4 * |vec|
    ensures forall k | 0 <= k < |b| :: b[k] == ByteOf(vec[k / 4], k % 4)
  {
    seq(4 * |vec|, k requires 0 <= k < 4 * |vec| => ByteOf(vec[k / 4], k % 4))
  }

  function Deserialized(b: seq<Byte>): (vec: seq<Float32>)
    ensures |vec| == |b| / 4
    ensures forall i | 0 <= i < |vec| :: vec[i] == Word(b[4 * i], b[4 * i + 1], b[4 * i + 2], b[4 * i + 3])
  {
    seq(|b| / 4, i requires 0 <= i < |b| / 4 => Word(b[4 * i], b[4 * i + 1], b[4 * i + 2], b[4 * i + 3]))
  }

  lemma QuarterIndex(i: nat, j: nat)
    requires j < 4
    ensures (4 * i + j) / 4 == i && (4 * i + j) % 4 == j
  {
  }

  lemma LoadedAt(vec: seq<Float32>, i: nat)
    requires i < |vec|
    ensures Deserialized(Serialized(vec))[i] == vec[i]
  {
    hide ByteOf, Word;
    QuarterIndex(i, 0);
    QuarterIndex(i, 1);
    QuarterIndex(i, 2);
    QuarterIndex(i, 3);
    WordOfBytes(vec[i]);
  }

  /** Reading back what was stored gives the vector, bit for bit. */
  lemma StoreThenLoad(vec: seq<Float32>)
    ensures Deserialized(Serialized(vec)) == vec
  {
    forall i | 0 <= i < |vec| ensures Deserialized(Serialized(vec))[i] == vec[i] {
      LoadedAt(vec, i);
    }
  }

  /** Storing back what was read drops only an incomplete last element: nothing, exactly when the length is a multiple of four. */
  lemma LoadThenStore(b: seq<Byte>)
    ensures Serialized(Deserialized(b)) == b[..4 * (|b| / 4)]
    ensures Serialized(Deserialized(b)) == b <==> |b| % 4 == 0
  {
    var vec := Deserialized(b);
    forall k | 0 <= k < 4 * |vec| ensures Serialized(vec)[k] == b[k] {
      var i := k / 4;
      BytesOfWord(b[4 * i], b[4 * i + 1], b[4 * i + 2], b[4 * i + 3]);
      assert k == 4 * i + k % 4;
    }
  }

  method SerializeEmbedding(vec: seq<Float32>) returns (buf: array<Byte>)
    ensures fresh(buf) && buf[..] == Serialized(vec)
    // four bytes an element, the lowest first
    ensures buf.Length == 4 * |vec|
    ensures forall i | 0 <= i < |vec| ::
              vec[i] == buf[4 * i] as int + 256 * buf[4 * i + 1] as int + 65536 * buf[4 * i + 2] as int + 16777216 * buf[4 * i + 3] as int
  {
    buf := new Byte[4 * |vec|];
    for i := 0 to |vec|
      invariant forall k | 0 <= k < 4 * i :: buf[k] == ByteOf(vec[k / 4], k % 4)
    {
      var v := vec[i];
      buf[4 * i], buf[4 * i + 1], buf[4 * i + 2], buf[4 * i + 3] := ByteOf(v, 0), ByteOf(v, 1), ByteOf(v, 2), ByteOf(v, 3);
      QuarterIndex(i, 0);
      QuarterIndex(i, 1);
      QuarterIndex(i, 2);
      QuarterIndex(i, 3);
    }
    LowestFirst(vec, buf[..]);
  }

  lemma LowestFirst(vec: seq<Float32>, b: seq<Byte>)
    requires b == Serialized(vec)
    ensures forall i | 0 <= i < |vec| ::
              vec[i] == b[4 * i] as int + 256 * b[4 * i + 1] as int + 65536 * b[4 * i + 2] as int + 16777216 * b[4 * i + 3] as int
  {
    forall i | 0 <= i < |vec|
      ensures vec[i] == b[4 * i] as int + 256 * b[4 * i + 1] as int + 65536 * b[4 * i + 2] as int + 16777216 * b[4 * i + 3] as int
    {
      hide ByteOf;
      QuarterIndex(i, 0);
      QuarterIndex(i, 1);
      QuarterIndex(i, 2);
      QuarterIndex(i, 3);
      WordOfBytes(vec[i]);
    }
  }

  method DeserializeEmbedding(b: seq<Byte>) returns (vec: array<Float32>)
    ensures fresh(vec) && vec[..] == Deserialized(b)
    ensures vec.Length == |b| / 4
    ensures forall i | 0 <= i < vec.Length ::
              vec[i] == b[4 * i] as int + 256 * b[4 * i + 1] as int + 65536 * b[4 * i + 2] as int + 16777216 * b[4 * i + 3] as int
  {
    var n := |b| / 4;
    vec := new Float32[n];
    for i := 0 to n
      invariant forall k | 0 <= k < i :: vec[k] == Word(b[4 * k], b[4 * k + 1], b[4 * k + 2], b[4 * k + 3])
    {
      vec[i] := Word(b[4 * i], b[4 * i + 1], b[4 * i + 2], b[4 * i + 3]);
    }
  }

  // ----- the number a pattern stands for

  function Power2(k: int): real
    decreases if k < 0 then -k else k
  {
    if k == 0 then 1.0 else if k > 0 then 2.0 * Power2(k - 1) else Power2(k + 1) / 2.0
  }

  /** IEEE 754 binary32: sign, eight exponent bits, twenty-three fraction bits. Infinities and NaN have no value here. */
  function Value(v: Float32): real {
    var exponent, fraction := v / 8388608 % 256, v % 8388608;
    var magnitude :=
      if exponent == 255 then 0.0
      else if exponent == 0 then fraction as real * Power2(-149)
      else (8388608 + fraction) as real * Power2(exponent - 150);
    if v / 2147483648 == 1 then -magnitude else magnitude
  }

  function Values(vec: seq<Float32>): (r: seq<real>)
    ensures |r| == |vec|
  {
    seq(|vec|, i requires 0 <= i < |vec| => Value(vec[i]))
  }

  lemma Halves(k: int)
    ensures Power2(k) == 2.0 * Power2(k - 1)
  {
  }

  lemma PowersOfTwo()
    ensures Power2(-23) * 8388608.0 == 1.0
  {
    Eighth(-3);
    Eighth(-6);
    Eighth(-9);
    Eighth(-12);
    Eighth(-15);
    Eighth(-18);
    Eighth(-21);
    Halves(-21);
    Halves(-22);
    Eighth(0);
  }

  lemma Eighth(k: int)
    ensures Power2(k) == 8.0 * Power2(k - 3)
  {
    Halves(k);
    Halves(k - 1);
    Halves(k - 2);
  }

  /** The pattern of a sign, an exponent and a fraction. */
  function Pattern(negative: bool, exponent: int, fraction: int): Float32
    requires 0 <= exponent < 256 && 0 <= fraction < 8388608
  {
    (if negative then 2147483648 else 0) + 8388608 * exponent + fraction
  }

  lemma Fields(negative: bool, exponent: int, fraction: int)
    requires 0 <= exponent < 256 && 0 <= fraction < 8388608
    ensures var v := Pattern(negative, exponent, fraction);
            && v / 2147483648 == (if negative then 1 else 0)
            && v / 8388608 % 256 == exponent && v % 8388608 == fraction
  {
    var v := Pattern(negative, exponent, fraction);
    var high := (if negative then 256 else 0) + exponent;
    assert v == 8388608 * high + fraction;
    Divided(8388608, high, fraction);
  }

  lemma Divided(d: int, q: int, r: int)
    requires d > 0 && 0 <= r < d
    ensures (d * q + r) / d == q && (d * q + r) % d == r
  {
    var p := d * q + r;
    assert p == d * (p / d) + p % d;
    if p / d < q {
      Larger(d, p / d + 1, q);
    } else if p / d > q {
      Larger(d, q + 1, p / d);
    }
  }

  lemma Larger(d: int, a: int, b: int)
    requires d > 0 && a <= b
    ensures d * a <= d * b
  {
  }

  /** The number of each finite pattern: a fraction of the smallest steps below the normal numbers, a whole and a fraction of
      it above, with the sign; and a power of two is twice the one before it. */
  lemma ValueOfPattern(negative: bool, exponent: int, fraction: int)
    requires 0 <= exponent < 255 && 0 <= fraction < 8388608
    ensures var magnitude := if exponent == 0 then fraction as real * Power2(-149) else (8388608 + fraction) as real * Power2(exponent - 150);
            Value(Pattern(negative, exponent, fraction)) == if negative then -magnitude else magnitude
  {
    hide Power2, Pattern;
    Fields(negative, exponent, fraction);
  }

  lemma OneIsOne()
    ensures Value(Pattern(false, 127, 0)) == 1.0
  {
    PowersOfTwo();
    hide Power2, Pattern, Value;
    ValueOfPattern(false, 127, 0);
  }

  lemma PowerRules(k: int)
    ensures Power2(0) == 1.0 && Power2(k) == 2.0 * Power2(k - 1)
  {
    Halves(k);
  }
}
