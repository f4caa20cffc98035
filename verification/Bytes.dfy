/** Bytes, fixed-width unsigned integers and their big-endian encoding (Go's encoding/binary). */
module Bytes {

  type byte = b: int | 0 <= b < 256

  type uint64 = n: int | 0 <= n < 0x1_0000_0000_0000_0000

  /** Sizes at or above this bound turn negative when Go converts them to int64. */
  const INT64_LIMIT: int := 0x8000_0000_0000_0000

  datatype Option<+T> = None | Some(value: T)

  function Min(a: int, b: int): (m: int) {
    if a <= b then a else b
  }

  function Pow256(k: nat): (p: nat)
    ensures p > 0
  {
    if k == 0 then 1 else 256 * Pow256(k - 1)
  }

  /** The k low-order bytes of n, most significant first. */
  function BigEndian(n: nat, k: nat): (s: seq<byte>)
    ensures |s| == k
  {
    if k == 0 then [] else BigEndian(n / 256, k - 1) + [n % 256]
  }

  /** The number that a big-endian byte string denotes. */
  function Value(s: seq<byte>): (n: nat) {
    if s == [] then 0 else 256 * Value(s[..|s| - 1]) + s[|s| - 1]
  }

  lemma {:induction false} ValueBound(s: seq<byte>)
    ensures Value(s) < Pow256(|s|)
  {
    if s != [] {
      ValueBound(s[..|s| - 1]);
    }
  }

  lemma {:induction false} ValueOfBigEndian(n: nat, k: nat)
    requires n < Pow256(k)
    ensures Value(BigEndian(n, k)) == n
  {
    if k > 0 {
      ValueOfBigEndian(n / 256, k - 1);
      assert BigEndian(n, k)[..k - 1] == BigEndian(n / 256, k - 1);
    }
  }

  lemma {:induction false} BigEndianOfValue(s: seq<byte>)
    ensures BigEndian(Value(s), |s|) == s
  {
    if s != [] {
      var front, last := s[..|s| - 1], s[|s| - 1];
      BigEndianOfValue(front);
      assert Value(s) / 256 == Value(front) && Value(s) % 256 == last;
      assert front + [last] == s;
    }
  }

  lemma Carry(a: nat, p: nat)
    ensures 256 * (a * p) == a * (256 * p)
  {
  }

  lemma {:induction false} ValueSplit(s: seq<byte>, k: nat)
    requires k <= |s|
    ensures Value(s) == Value(s[..k]) * Pow256(|s| - k) + Value(s[k..])
  {
    if k < |s| {
      var front := s[..|s| - 1];
      ValueSplit(front, k);
      assert front[..k] == s[..k] && s[k..][..|s| - k - 1] == front[k..];
      Carry(Value(s[..k]), Pow256(|s| - k - 1));
    } else {
      assert s[..k] == s;
    }
  }

  /** Two and eight bytes, written out: the most significant comes first. */
  lemma TwoValue(s: seq<byte>)
    requires |s| == 2
    ensures Value(s) == 256 * (s[0] as int) + s[1]
  {
    assert s[..1] == [s[0]] && [s[0]][..0] == [];
    assert Value([s[0]]) == s[0];
  }

  lemma FourValue(s: seq<byte>)
    requires |s| == 4
    ensures Value(s) == 0x100_0000 * (s[0] as int) + 0x1_0000 * (s[1] as int) + 0x100 * (s[2] as int) + s[3]
  {
    TwoValue(s[..2]);
    assert s[..3][..2] == s[..2] && Value(s[..3]) == 256 * Value(s[..2]) + s[2];
  }

  lemma EightValue(s: seq<byte>)
    requires |s| == 8
    ensures Value(s) ==
              0x100_0000_0000_0000 * (s[0] as int) + 0x1_0000_0000_0000 * (s[1] as int)
              + 0x100_0000_0000 * (s[2] as int) + 0x1_0000_0000 * (s[3] as int)
              + 0x100_0000 * (s[4] as int) + 0x1_0000 * (s[5] as int) + 0x100 * (s[6] as int) + s[7]
  {
    ValueSplit(s, 4);
    FourValue(s[..4]);
    FourValue(s[4..]);
    assert Pow256(4) == 0x1_0000_0000;
  }

  lemma Widths()
    ensures Pow256(2) == 65536
    ensures Pow256(8) == 0x1_0000_0000_0000_0000
  {
    assert Pow256(4) == 0x1_0000_0000;
  }
}
