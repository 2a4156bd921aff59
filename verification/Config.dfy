/** The names, addresses and ports of `src/config.rs`. */
module Config {
  const VETH_HOST := "tort0"
  const VETH_NS := "tort-ns"
  const NFT_TABLE := "tort"

  const TRANS_PORT := 9140
  const DNS_PORT := 9153

  /** An IPv4 address as the number its four bytes spell. */
  type Addr = a: int | 0 <= a < 0x1_0000_0000

  function Quad(a: nat, b: nat, c: nat, d: nat): (r: Addr)
    requires a < 256 && b < 256 && c < 256 && d < 256
  {
    a * 0x100_0000 + b * 0x1_0000 + c * 0x100 + d
  }

  const HOST_ADDR: Addr := Quad(10, 66, 0, 1)
  const NS_ADDR: Addr := Quad(10, 66, 0, 2)

  /** An address block: the addresses that agree with `base` once their low bits, which
      number fewer than `size`, are dropped. `size` is a power of two. */
  datatype Block = Block(base: Addr, size: nat) {
    predicate Has(a: Addr) { size > 0 && a / size == base / size }
  }

  const SUBNET := Block(Quad(10, 66, 0, 0), 0x100)

  /** tor's VirtualAddrNetworkIPv4, 10.192.0.0/10. */
  const ONION_RANGE := Block(Quad(10, 192, 0, 0), 0x40_0000)
}
