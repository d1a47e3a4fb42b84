/** Bytes and big-endian unsigned integers, shared by the MessagePack and SSH wire formats. */
module BigEndian {

  type byte = x: int | 0 <= x < 256

  /** 256 to the power `w`: the number of values `w` bytes can hold. */
  function Pow256(w: nat): (p: nat)
    ensures p >= 1
  {
    if w == 0 then 1 else 256 * Pow256(w - 1)
  }

  /** `n` as exactly `w` bytes, most significant first. */
  function ToBE(n: nat, w: nat): (s: seq<byte>)
    requires n < Pow256(w)
    ensures |s| == w
  {
    if w == 0 then [] else ToBE(n / 256, w - 1) + [n % 256]
  }

  function FromBE(s: seq<byte>): (n: nat)
    ensures n < Pow256(|s|)
  {
    if s == [] then 0 else 256 * FromBE(s[..|s| - 1]) + s[|s| - 1]
  }

  lemma {:induction false} FromTo(n: nat, w: nat)
    requires n < Pow256(w)
    ensures FromBE(ToBE(n, w)) == n
  {
    if w > 0 {
      FromTo(n / 256, w - 1);
      assert ToBE(n, w)[..w - 1] == ToBE(n / 256, w - 1);
    }
  }

  lemma {:induction false} ToFrom(s: seq<byte>)
    ensures ToBE(FromBE(s), |s|) == s
  {
    if s != [] {
      var front := s[..|s| - 1];
      ToFrom(front);
      assert s == front + [s[|s| - 1]];
    }
  }

  lemma TwoBytes(n: byte)
    ensures n < Pow256(2) && ToBE(n, 2) == [0] + [n]
  {
    var s: seq<byte> := [0] + [n];
    assert s[..1] == [0] && [0][..0] == [];
    assert FromBE(s) == n;
    ToFrom(s);
  }
}
