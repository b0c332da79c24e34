/** Networks as `net.ParseCIDR` returns them and `IPNet.Contains` uses them. */
module Cidr {

  /** `x` without its last `n` bits. */
  function Shifted(x: nat, n: nat): nat {
    if n == 0 then x else Shifted(x / 2, n - 1)
  }

  /** `x` with its last `n` bits all 0, or all 1. */
  function Filled(x: nat, n: nat, bit: nat): nat {
    if n == 0 then x else 2 * Filled(x / 2, n - 1, bit) + bit
  }

  /** The address part and the prefix length of a parsed CIDR string, of 32 or of 128 bits. An IPv4
      address in IPv6 notation counts as the 32 bits it stands for. */
  datatype Network = Network(width: nat, address: nat, prefix: nat) {
    predicate Valid() {
      && prefix <= width
      && ((width == 32 && address < 0x1_0000_0000) || (width == 128 && address < 0x1_00000000_00000000_00000000_00000000))
    }

    /** The other address is of the same kind and agrees with the network in the bits under the mask. */
    predicate Contains(other: Network)
      requires Valid()
    {
      other.width == width && Shifted(other.address, width - prefix) == Shifted(address, width - prefix)
    }

    function First(): nat
      requires Valid()
    {
      Filled(address, width - prefix, 0)
    }

    function Last(): nat
      requires Valid()
    {
      Filled(address, width - prefix, 1)
    }
  }

  type Net = n: Network | n.Valid() witness Network(32, 0, 32)

  lemma {:induction false} ShiftedInterval(x: nat, y: nat, n: nat)
    ensures Shifted(x, n) == Shifted(y, n) <==> Filled(y, n, 0) <= x <= Filled(y, n, 1)
  {
    if n != 0 {
      ShiftedInterval(x / 2, y / 2, n - 1);
    }
  }

  /** The address of `other` is of the other kind, below the network's first or above its last one. */
  predicate Outside(other: Net, net: Net) {
    other.width != net.width || other.address < net.First() || net.Last() < other.address
  }

  /** Agreeing under the mask is lying between the network's first and last address. */
  lemma ContainsIsInterval(net: Net, other: Net)
    ensures net.Contains(other) <==> !Outside(other, net)
  {
    ShiftedInterval(other.address, net.address, net.width - net.prefix);
  }

  function TwoTo(n: nat): nat {
    if n == 0 then 1 else 2 * TwoTo(n - 1)
  }

  /** The addresses of a network are the block of that many bits that holds its own address: it starts
      at a multiple of its size. */
  lemma {:induction false} FilledIs(x: nat, n: nat)
    ensures Filled(x, n, 0) <= x <= Filled(x, n, 1)
    ensures Filled(x, n, 1) == Filled(x, n, 0) + TwoTo(n) - 1
    ensures Filled(x, n, 0) == TwoTo(n) * Shifted(x, n)
  {
    if n != 0 {
      FilledIs(x / 2, n - 1);
    }
  }

  lemma NetworkIs(net: Net)
    ensures net.First() <= net.address <= net.Last()
    ensures net.Last() == net.First() + TwoTo(net.width - net.prefix) - 1
    ensures net.First() == TwoTo(net.width - net.prefix) * Shifted(net.address, net.width - net.prefix)
  {
    FilledIs(net.address, net.width - net.prefix);
  }
}
