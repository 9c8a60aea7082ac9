/** Cutting text to a number of bytes without splitting a character. Valid text is the grammar of section 4 of
    RFC 3629. */
module Utf8Trim {
  import opened Prelude

  predicate IsTail(b: Byte) {
    0x80 <= b <= 0xBF
  }

  /** What a first byte allows: how many bytes the character has (0 for none) and the range of its second byte. */
  function Length(b: Byte): nat {
    if b <= 0x7F then 1
    else if 0xC2 <= b <= 0xDF then 2
    else if 0xE0 <= b <= 0xEF then 3
    else if 0xF0 <= b <= 0xF4 then 4
    else 0
  }

  predicate SecondAllowed(first: Byte, second: Byte) {
    && IsTail(second)
    && (first == 0xE0 ==> 0xA0 <= second)
    && (first == 0xED ==> second <= 0x9F)
    && (first == 0xF0 ==> 0x90 <= second)
    && (first == 0xF4 ==> second <= 0x8F)
  }

  /** `s` starts with a character. */
  predicate StartsWithChar(s: seq<Byte>) {
    && s != []
    && 0 < Length(s[0]) <= |s|
    && (Length(s[0]) >= 2 ==> SecondAllowed(s[0], s[1]))
    && (Length(s[0]) >= 3 ==> IsTail(s[2]))
    && (Length(s[0]) >= 4 ==> IsTail(s[3]))
  }

  predicate Valid(s: seq<Byte>) {
    s != [] ==> StartsWithChar(s) && Valid(s[Length(s[0])..])
  }

  // ----- valid text is encoded text

  /** A code point that is no surrogate. */
  predicate IsScalar(c: int) {
    0 <= c <= 0x10FFFF && !(0xD800 <= c <= 0xDFFF)
  }

  /** The bytes of a code point: six bits to each byte after the first. */
  function Encode(c: int): (r: seq<Byte>)
    requires IsScalar(c)
    ensures 1 <= |r| <= 4
  {
    if c < 0x80 then [c]
    else if c < 0x800 then [0xC0 + c / 64, 0x80 + c % 64]
    else if c < 0x10000 then [0xE0 + c / 4096, 0x80 + c / 64 % 64, 0x80 + c % 64]
    else [0xF0 + c / 262144, 0x80 + c / 4096 % 64, 0x80 + c / 64 % 64, 0x80 + c % 64]
  }

  function EncodeAll(cs: seq<int>): seq<Byte>
    requires forall c | c in cs :: IsScalar(c)
  {
    if cs == [] then [] else Encode(cs[0]) + EncodeAll(cs[1..])
  }

  /** The code point a character stands for. */
  function Decoded(s: seq<Byte>): int
    requires StartsWithChar(s)
  {
    var b: seq<int> := s;
    match Length(s[0])
    case 1 => b[0]
    case 2 => 64 * (b[0] - 0xC0) + (b[1] - 0x80)
    case 3 => 64 * (64 * (b[0] - 0xE0) + (b[1] - 0x80)) + (b[2] - 0x80)
    case _ => 64 * (64 * (64 * (b[0] - 0xF0) + (b[1] - 0x80)) + (b[2] - 0x80)) + (b[3] - 0x80)
  }

  lemma SixBits(high: int, low: int)
    requires 0 <= low < 64
    ensures (64 * high + low) / 64 == high && (64 * high + low) % 64 == low
  {
  }

  lemma TwoBytes(s: seq<Byte>)
    requires StartsWithChar(s) && Length(s[0]) == 2
    ensures IsScalar(Decoded(s)) && Encode(Decoded(s)) == s[..2]
  {
    var b: seq<int> := s;
    SixBits(b[0] - 0xC0, b[1] - 0x80);
  }

  lemma ThreeBytes(s: seq<Byte>)
    requires StartsWithChar(s) && Length(s[0]) == 3
    ensures IsScalar(Decoded(s)) && Encode(Decoded(s)) == s[..3]
  {
    var b: seq<int> := s;
    var high := 64 * (b[0] - 0xE0) + (b[1] - 0x80);
    SixBits(b[0] - 0xE0, b[1] - 0x80);
    SixBits(high, b[2] - 0x80);
    Nested(Decoded(s));
  }

  lemma Nested(c: int)
    requires c >= 0
    ensures c / 4096 == c / 64 / 64 && c / 262144 == c / 64 / 64 / 64
  {
  }

  lemma FourBytes(s: seq<Byte>)
    requires StartsWithChar(s) && Length(s[0]) == 4
    ensures IsScalar(Decoded(s)) && Encode(Decoded(s)) == s[..4]
  {
    var b: seq<int> := s;
    var top := 64 * (b[0] - 0xF0) + (b[1] - 0x80);
    var high := 64 * top + (b[2] - 0x80);
    SixBits(b[0] - 0xF0, b[1] - 0x80);
    SixBits(top, b[2] - 0x80);
    SixBits(high, b[3] - 0x80);
    Nested(Decoded(s));
  }

  /** What starts with a character starts with the encoding of a code point. */
  lemma DecodeThenEncode(s: seq<Byte>)
    requires StartsWithChar(s)
    ensures IsScalar(Decoded(s)) && Encode(Decoded(s)) == s[..Length(s[0])]
  {
    if Length(s[0]) == 1 {
    } else {
      hide Decoded, Encode;
      if Length(s[0]) == 2 {
        TwoBytes(s);
      } else if Length(s[0]) == 3 {
        ThreeBytes(s);
      } else {
        FourBytes(s);
      }
    }
  }

  lemma EncodeThenDecode(c: int, rest: seq<Byte>)
    requires IsScalar(c)
    ensures StartsWithChar(Encode(c) + rest) && Length((Encode(c) + rest)[0]) == |Encode(c)|
  {
  }

  lemma {:induction false} EncodedIsValid(cs: seq<int>)
    requires forall c | c in cs :: IsScalar(c)
    ensures Valid(EncodeAll(cs))
  {
    if cs != [] {
      assert cs[0] in cs && forall c | c in cs[1..] :: c in cs;
      EncodeThenDecode(cs[0], EncodeAll(cs[1..]));
      EncodedIsValid(cs[1..]);
      hide Encode, StartsWithChar, Length;
      assert EncodeAll(cs)[|Encode(cs[0])|..] == EncodeAll(cs[1..]);
    }
  }

  lemma {:induction false} ValidIsEncoded(s: seq<Byte>) returns (cs: seq<int>)
    requires Valid(s)
    ensures (forall c | c in cs :: IsScalar(c)) && EncodeAll(cs) == s
    decreases |s|
  {
    hide Encode, Decoded, EncodeAll, SecondAllowed;
    if s == [] {
      cs := [];
      NothingEncoded();
    } else {
      var n := Length(s[0]);
      var rest := ValidIsEncoded(s[n..]);
      DecodeThenEncode(s);
      PrependEncoded(Decoded(s), rest);
      cs := [Decoded(s)] + rest;
      assert s == s[..n] + s[n..];
    }
  }

  lemma NothingEncoded()
    ensures EncodeAll([]) == []
  {
  }

  lemma PrependEncoded(c: int, cs: seq<int>)
    requires IsScalar(c) && forall d | d in cs :: IsScalar(d)
    ensures EncodeAll([c] + cs) == Encode(c) + EncodeAll(cs)
  {
    assert ([c] + cs)[1..] == cs;
  }

  // ----- where valid text may be cut

  /** In valid text, a prefix is valid exactly when it does not end before a tail byte. */
  lemma {:induction false} PrefixValid(s: seq<Byte>, i: nat)
    requires Valid(s) && i <= |s|
    ensures Valid(s[..i]) <==> i == |s| || !IsTail(s[i])
    decreases |s|
  {
    if s != [] && i > 0 {
      var n := Length(s[0]);
      if i >= n {
        PrefixValid(s[n..], i - n);
        assert s[..i][n..] == s[n..][..i - n];
      }
    } else if s == [] {
      assert s[..i] == [];
    }
  }

  /** At most three tail bytes follow one another. */
  lemma {:induction false} ShortTails(s: seq<Byte>, i: nat) returns (j: nat)
    requires Valid(s) && i < |s|
    ensures j <= i <= j + 3 && !IsTail(s[j])
    decreases |s|
  {
    var n := Length(s[0]);
    if i < n {
      j := 0;
    } else {
      var k := ShortTails(s[n..], i - n);
      j := n + k;
    }
  }

  /** The longest valid prefix of valid text that has at most `n` bytes, at most three bytes below that. */
  method TrimToRuneBoundary(s: seq<Byte>, n: nat) returns (r: seq<Byte>)
    ensures |r| <= n && r <= s
    ensures |s| <= n ==> r == s
    ensures Valid(s) ==> Valid(r)
    ensures Valid(s) ==> forall i | |r| < i <= n && i <= |s| :: !Valid(s[..i])
    ensures Valid(s) && |s| > n ==> n - |r| <= 3
    // whatever the bytes are: only bytes that cannot begin a character are given up
    ensures |s| > n ==> forall i | |r| < i <= n :: 0x80 <= s[i] <= 0xBF
    ensures |s| > n && r != [] ==> !(0x80 <= s[|r|] <= 0xBF)
  {
    if |s| <= n {
      return s;
    }
    var m := n;
    while m > 0 && IsTail(s[m])
      invariant 0 <= m <= n < |s|
      invariant forall i | m < i <= n :: IsTail(s[i])
    {
      m := m - 1;
    }
    r := s[..m];
    if Valid(s) {
      var j := ShortTails(s, n);
      PrefixValid(s, m);
      forall i | m < i <= n ensures !Valid(s[..i]) {
        PrefixValid(s, i);
      }
    }
  }
}
