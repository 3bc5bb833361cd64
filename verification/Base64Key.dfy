/** The header protection key as it is written: base64 by RFC 4648, section 4, and nothing of the key is lost. */
module Base64Key {
  import opened Text
  import opened Decoys
  import opened Generation
  import I = Imitation

  /** The place of a character in the alphabet, and 64 for any other. */
  function Sextet(c: char): (n: nat)
    ensures n <= 64
  {
    if 'A' <= c <= 'Z' then c as int - 'A' as int
    else if 'a' <= c <= 'z' then c as int - 'a' as int + 26
    else if '0' <= c <= '9' then c as int - '0' as int + 52
    else if c == '+' then 62 else if c == '/' then 63 else 64
  }

  /** Four characters are 24 bits, */
  function Bits(a: nat, b: nat, c: nat, d: nat): nat {
    ((a * 64 + b) * 64 + c) * 64 + d
  }

  /** and 24 bits are three bytes. */
  function Three(bits: nat): (b: seq<nat>)
    ensures |b| == 3
  {
    [bits / 65536, bits / 256 % 256, bits % 256]
  }

  /** An '=' at the end stands for no bits: with one there are two bytes, with two there is one. */
  function Decoded(s: string): seq<nat>
    decreases |s|
  {
    if |s| < 4 then []
    else if s[2] == '=' then Three(Bits(Sextet(s[0]), Sextet(s[1]), 0, 0))[..1]
    else if s[3] == '=' then Three(Bits(Sextet(s[0]), Sextet(s[1]), Sextet(s[2]), 0))[..2]
    else Three(Bits(Sextet(s[0]), Sextet(s[1]), Sextet(s[2]), Sextet(s[3]))) + Decoded(s[4..])
  }

  lemma CharDecodes(n: nat)
    requires n < 64
    ensures Sextet(Base64Char(n)) == n && Base64Char(n) != '='
  {
  }

  lemma BitsAre(x: nat, y: nat, z: nat, x0: nat, y0: nat, z0: nat)
    requires x0 == x / 4 && y0 == y / 16 && z0 == z / 64
    ensures Bits(x0, x % 4 * 16 + y0, y % 16 * 4 + z0, z % 64) == x * 65536 + y * 256 + z
  {
    assert x == x0 * 4 + x % 4;
    assert y == y0 * 16 + y % 16;
    assert z == z0 * 64 + z % 64;
  }

  lemma BytesOf(x: nat, y: nat, z: nat)
    requires x < 256 && y < 256 && z < 256
    ensures Three(x * 65536 + y * 256 + z) == [x, y, z]
  {
    var bits := x * 65536 + y * 256 + z;
    assert bits / 256 == x * 256 + y;
  }

  lemma ThreeBytes(x: nat, y: nat, z: nat)
    requires x < 256 && y < 256 && z < 256
    ensures Three(Bits(x / 4, x % 4 * 16 + y / 16, y % 16 * 4 + z / 64, z % 64)) == [x, y, z]
  {
    hide *;
    BitsAre(x, y, z, x / 4, y / 16, z / 64);
    BytesOf(x, y, z);
  }

  /** A whole group, and the two short ones at the end of a text. */
  lemma WholeGroup(a: nat, b: nat, c: nat, d: nat, rest: string)
    requires a < 64 && b < 64 && c < 64 && d < 64
    ensures Decoded([Base64Char(a), Base64Char(b), Base64Char(c), Base64Char(d)] + rest) == Three(Bits(a, b, c, d)) + Decoded(rest)
  {
    CharDecodes(a);
    CharDecodes(b);
    CharDecodes(c);
    CharDecodes(d);
    hide Base64Char, Sextet, Three, Bits;
    assert ([Base64Char(a), Base64Char(b), Base64Char(c), Base64Char(d)] + rest)[4..] == rest;
  }

  lemma PairGroup(a: nat, b: nat, c: nat)
    requires a < 64 && b < 64 && c < 64
    ensures Decoded([Base64Char(a), Base64Char(b), Base64Char(c), '=']) == Three(Bits(a, b, c, 0))[..2]
  {
    CharDecodes(a);
    CharDecodes(b);
    CharDecodes(c);
    hide Base64Char, Sextet, Three, Bits;
  }

  lemma SingleGroup(a: nat, b: nat)
    requires a < 64 && b < 64
    ensures Decoded([Base64Char(a), Base64Char(b), '=', '=']) == Three(Bits(a, b, 0, 0))[..1]
  {
    CharDecodes(a);
    CharDecodes(b);
    hide Base64Char, Sextet, Three, Bits;
  }

  /** Decoding what was written gives the bytes back. */
  lemma {:induction false} Decodes(b: Bytes)
    ensures Decoded(Base64(b)) == b
    decreases |b|
  {
    hide Base64Char, Sextet, Decoded, Three, Bits;
    if |b| == 0 {
      NothingDecoded();
    } else if |b| == 1 {
      ThreeBytes(b[0], 0, 0);
      SingleGroup(b[0] / 4, b[0] % 4 * 16);
    } else if |b| == 2 {
      ThreeBytes(b[0], b[1], 0);
      PairGroup(b[0] / 4, b[0] % 4 * 16 + b[1] / 16, b[1] % 16 * 4);
    } else {
      Decodes(b[3..]);
      ThreeBytes(b[0], b[1], b[2]);
      WholeGroup(b[0] / 4, b[0] % 4 * 16 + b[1] / 16, b[1] % 16 * 4 + b[2] / 64, b[2] % 64, Base64(b[3..]));
      assert b == [b[0], b[1], b[2]] + b[3..];
    }
  }

  lemma NothingDecoded()
    ensures Decoded("") == []
  {
  }
}
