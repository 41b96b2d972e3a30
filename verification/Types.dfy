/** Values shared by every component of the model. */
module Types {
  datatype Option<+T> = None | Some(value: T)

  type byte = x: int | 0 <= x < 256
  type Bytes = seq<byte>

  /** An Ed25519 endpoint id. The endpoint only ever compares it for equality. */
  type Peer = Bytes

  const U32_MAX: nat := 0xFFFF_FFFF

  /** `+= 1` on a `u32`, wrapping as a release build does. */
  function NextU32(x: nat): nat {
    if x == U32_MAX then 0 else x + 1
  }

  datatype SocketAddr =
    | V4(ip: nat, port: nat)
    | V6(s0: nat, s1: nat, s2: nat, s3: nat, s4: nat, s5: nat, hi: nat, lo: nat, port: nat)

  datatype Error =
    | Closed
    | ConnectFailed
    | Reset
    | Other

  /** `doc_prefix_addr`: both halves of `host` are truncated to 16 bits. */
  function DocPrefixAddr(space: nat, host: nat): SocketAddr {
    V6(0x2001, 0xdb8, space, 0, 0, 0, (host / 0x1_0000) % 0x1_0000, host % 0x1_0000, 4433)
  }

  /** The stand-in address with host number `host`. */
  function Standin(host: nat): SocketAddr {
    DocPrefixAddr(0x77, host)
  }

  /** The host number an address under the prefix spells. */
  function HostOf(a: SocketAddr): nat {
    match a
    case V4(_, _) => 0
    case V6(_, _, _, _, _, _, hi, lo, _) => hi * 0x1_0000 + lo
  }

  /** `2001:db8:77::/48`, the range no real peer address lies in. */
  predicate IsStandin(a: SocketAddr) {
    a.V6? && a.s0 == 0x2001 && a.s1 == 0xdb8 && a.s2 == 0x77
  }

  /** Distinct 32-bit hosts get distinct stand-ins: the host is read back from the address. */
  lemma StandinDecodes(host: nat)
    requires host <= U32_MAX
    ensures HostOf(Standin(host)) == host && IsStandin(Standin(host)) && Standin(host).port == 4433
  {
    assert host / 0x1_0000 < 0x1_0000;
  }
}
