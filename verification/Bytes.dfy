/** Big-endian byte strings. */
module Bytes {

  type byte = x: int | 0 <= x < 256

  /** The last `k` bytes of `n`, most significant first. */
  function BigEndian(n: nat, k: nat): (s: seq<byte>)
    ensures |s| == k
  {
    if k == 0 then [] else BigEndian(n / 256, k - 1) + [n % 256]
  }

  function FromBigEndian(s: seq<byte>): nat {
    if s == [] then 0 else FromBigEndian(s[..|s| - 1]) * 256 + s[|s| - 1]
  }

  function Power(k: nat): nat {
    if k == 0 then 1 else 256 * Power(k - 1)
  }

  lemma {:induction false} BigEndianDecodes(n: nat, k: nat)
    requires n < Power(k)
    ensures FromBigEndian(BigEndian(n, k)) == n
  {
    if k > 0 {
      BigEndianDecodes(n / 256, k - 1);
      assert BigEndian(n, k)[..k - 1] == BigEndian(n / 256, k - 1);
    }
  }

  lemma {:induction false} Bounded(s: seq<byte>)
    ensures FromBigEndian(s) < Power(|s|)
  {
    if s != [] {
      Bounded(s[..|s| - 1]);
    }
  }

  /** Reading a string as a number and writing the number back gives the string. */
  lemma {:induction false} BigEndianEncodes(s: seq<byte>)
    ensures BigEndian(FromBigEndian(s), |s|) == s
  {
    if s != [] {
      var n := |s| - 1;
      BigEndianEncodes(s[..n]);
      assert FromBigEndian(s) / 256 == FromBigEndian(s[..n]) && FromBigEndian(s) % 256 == s[n];
    }
  }
}
