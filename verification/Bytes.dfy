/** Bytes and big-endian numbers, as encoding/binary writes and reads them. */
module Bytes {

  newtype byte = b: int | 0 <= b < 256

  /** n in width bytes, most significant first; bits that do not fit are cut off. */
  function Put(n: nat, width: nat): (s: seq<byte>)
    ensures |s| == width
    decreases width, n
  {
    if width == 0 then [] else Put(n / 256, width - 1) + [(n % 256) as byte]
  }

  /** The last four bytes of a number. */
  function Word(n: nat): seq<byte> {
    [(n / 0x100_0000 % 256) as byte, (n / 0x1_0000 % 256) as byte, (n / 0x100 % 256) as byte, (n % 256) as byte]
  }

  lemma {:induction false} PutFour(n: nat, width: nat)
    ensures Put(n, width + 4) == Put(n / 0x1_0000_0000, width) + Word(n)
  {
    var a, b, c, d := n / 256, n / 0x1_0000, n / 0x100_0000, n / 0x1_0000_0000;
    assert a / 256 == b && b / 256 == c && c / 256 == d;
    assert Put(n, width + 4) == Put(a, width + 3) + [(n % 256) as byte];
    assert Put(a, width + 3) == Put(b, width + 2) + [(a % 256) as byte];
    assert Put(b, width + 2) == Put(c, width + 1) + [(b % 256) as byte];
    assert Put(c, width + 1) == Put(d, width) + [(c % 256) as byte];
  }

  /** Numbers of 4 and of 8 bytes, byte by byte. */
  lemma {:induction false} PutWords(n: nat)
    ensures Put(n, 4) == Word(n) && Put(n, 8) == Word(n / 0x1_0000_0000) + Word(n)
  {
    PutFour(n, 0);
    PutFour(n, 4);
    PutFour(n / 0x1_0000_0000, 0);
  }

  /** The number that bytes denote, most significant first. */
  function Get(s: seq<byte>): nat {
    if s == [] then 0 else 256 * Get(s[..|s| - 1]) + s[|s| - 1] as nat
  }

  /** One more than the largest number of the given width. */
  function Limit(width: nat): (m: nat)
    ensures m >= 1
  {
    if width == 0 then 1 else 256 * Limit(width - 1)
  }

  lemma Limits()
    ensures Limit(4) == 0x1_0000_0000 && Limit(8) == 0x1_0000_0000_0000_0000
  {
    assert Limit(1) == 256 * Limit(0) == 256;
    assert Limit(4) == 256 * 256 * 256 * Limit(1);
    assert Limit(8) == 256 * 256 * 256 * 256 * Limit(4);
  }

  lemma {:induction false} PutGet(n: nat, width: nat)
    requires n < Limit(width)
    ensures Get(Put(n, width)) == n
    decreases width
  {
    if width > 0 {
      PutGet(n / 256, width - 1);
      assert Put(n, width)[..width - 1] == Put(n / 256, width - 1);
    }
  }

  lemma {:induction false} GetPut(s: seq<byte>)
    ensures Get(s) < Limit(|s|) && Put(Get(s), |s|) == s
    decreases |s|
  {
    if s != [] {
      var init, last := s[..|s| - 1], s[|s| - 1];
      GetPut(init);
      assert Get(s) / 256 == Get(init) && Get(s) % 256 == last as nat;
      assert init + [last] == s;
    }
  }

  lemma PutU32(n: nat)
    requires n < 0x1_0000_0000
    ensures Get(Put(n, 4)) == n
  {
    Limits();
    PutGet(n, 4);
  }

  lemma PutU64(n: nat)
    requires n < 0x1_0000_0000_0000_0000
    ensures Get(Put(n, 8)) == n
  {
    Limits();
    PutGet(n, 8);
  }
}
