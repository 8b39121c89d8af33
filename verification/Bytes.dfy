/** Big-endian numbers, and the outcome of reading bytes. */
module Bytes {
  import opened Protocol

  type byte = u8

  /** What reading a payload comes to: a value, an error returned to the caller, or a panic. */
  datatype Decoded<+T> = Good(value: T) | Invalid | Panic {
    predicate IsFailure() {
      !Good?
    }

    function PropagateFailure<U>(): Decoded<U>
      requires IsFailure()
    {
      if Invalid? then Invalid else Panic
    }

    function Extract(): T
      requires !IsFailure()
    {
      value
    }
  }

  function Pow256(n: nat): (p: nat)
    ensures p > 0
  {
    if n == 0 then 1 else 256 * Pow256(n - 1)
  }

  /** The low `width` bytes of `n`, the most significant first. */
  function ToBytes(n: nat, width: nat): (bs: seq<byte>)
    ensures |bs| == width
  {
    if width == 0 then [] else ToBytes(n / 256, width - 1) + [n % 256]
  }

  function FromBytes(bs: seq<byte>): nat {
    if bs == [] then 0 else 256 * FromBytes(bs[..|bs| - 1]) + bs[|bs| - 1]
  }

  lemma {:induction false} FromBytesBound(bs: seq<byte>)
    ensures FromBytes(bs) < Pow256(|bs|)
  {
    if bs != [] {
      FromBytesBound(bs[..|bs| - 1]);
    }
  }

  /** Reading back the bytes of a number that fits gives the number. */
  lemma {:induction false} ReadsBack(n: nat, width: nat)
    requires n < Pow256(width)
    ensures FromBytes(ToBytes(n, width)) == n
  {
    if width > 0 {
      ReadsBack(n / 256, width - 1);
      assert ToBytes(n, width)[..width - 1] == ToBytes(n / 256, width - 1);
    }
  }

  lemma Widths()
    ensures Pow256(2) == 0x1_0000 && Pow256(4) == 0x1_0000_0000 && Pow256(8) == 0x1_0000_0000_0000_0000
  {
    assert Pow256(1) == 256 && Pow256(2) == 0x1_0000 && Pow256(3) == 0x100_0000 && Pow256(4) == 0x1_0000_0000;
    assert Pow256(5) == 0x100_0000_0000 && Pow256(6) == 0x1_0000_0000_0000;
    assert Pow256(7) == 0x100_0000_0000_0000;
  }

  function ReadU16(bs: seq<byte>): u16
    requires |bs| >= 2
  {
    FromBytesBound(bs[..2]);
    Widths();
    FromBytes(bs[..2])
  }

  function ReadU32(bs: seq<byte>): u32
    requires |bs| >= 4
  {
    FromBytesBound(bs[..4]);
    Widths();
    FromBytes(bs[..4])
  }

  function ReadU64(bs: seq<byte>): u64
    requires |bs| >= 8
  {
    FromBytesBound(bs[..8]);
    Widths();
    FromBytes(bs[..8])
  }

  /** A number at the head of a buffer is read as it was written, whatever follows it. */
  lemma ReadsHead(n: nat, width: nat, rest: seq<byte>)
    requires n < Pow256(width)
    ensures FromBytes((ToBytes(n, width) + rest)[..width]) == n
  {
    ReadsBack(n, width);
    assert (ToBytes(n, width) + rest)[..width] == ToBytes(n, width);
  }
}
