/**
 * IP addresses and networks as the firewall manager sees them.  Addresses are
 * modelled exactly (family and numeric value); the operations of the IPNetwork2
 * library that the manager calls (FirstUsable, LastUsable, ToString, Supernet)
 * are not visible and are carried as an `IpLibrary` of uninterpreted functions.
 */
module Networks {

  const IPv4Space: nat := 0x1_0000_0000
  /** ::ffff:0.0.0.0, the first address of the IPv4-mapped block of IPv6. */
  const IPv4MappedBase: nat := 0xFFFF_0000_0000

  type IPv4Value = x: nat | x < 0x1_0000_0000
  type IPv6Value = x: nat | x < 0x1_0000_0000_0000_0000_0000_0000_0000_0000

  datatype Address = IPv4(v4: IPv4Value) | IPv6(v6: IPv6Value)

  /** IPAddress.IsIPv4MappedToIPv6: an IPv6 address of the form ::ffff:a.b.c.d. */
  predicate IsIPv4MappedToIPv6(a: Address) {
    a.IPv6? && IPv4MappedBase <= a.v6 < IPv4MappedBase + IPv4Space
  }

  /** IPAddress.MapToIPv4: an IPv4 address is itself, an IPv6 address keeps its low 32 bits. */
  function MapToIPv4(a: Address): Address {
    match a
    case IPv4(_) => a
    case IPv6(v) => IPv4(v % IPv4Space)
  }

  /** IPAddress.MapToIPv6: an IPv4 address moves into ::ffff:0:0/96, an IPv6 address is itself. */
  function MapToIPv6(a: Address): Address {
    match a
    case IPv4(v) => IPv6(IPv4MappedBase + v)
    case IPv6(_) => a
  }

  /** A CIDR block: a prefix address and a prefix length. */
  datatype Network = Network(address: Address, prefixLength: nat)

  /**
   * The host route a resolved address contributes: an IPv4-mapped IPv6 address
   * is taken as plain IPv4, and the prefix is /32 for IPv4 and /128 for IPv6.
   */
  function HostRoute(a: Address): (n: Network)
    ensures n.address.IPv4? <==> (a.IPv4? || IsIPv4MappedToIPv6(a))
    ensures n.prefixLength == (if n.address.IPv4? then 32 else 128)
    ensures !IsIPv4MappedToIPv6(n.address)
    ensures !IsIPv4MappedToIPv6(a) ==> n.address == a
    ensures IsIPv4MappedToIPv6(a) ==> MapToIPv6(n.address) == a
  {
    var addr := if IsIPv4MappedToIPv6(a) then MapToIPv4(a) else a;
    Network(addr, if addr.IPv4? then 32 else 128)
  }

  /** The host routes of a whole address list, in list order. */
  function HostRoutes(addresses: seq<Address>): seq<Network> {
    seq(|addresses|, i requires 0 <= i < |addresses| => HostRoute(addresses[i]))
  }

  /** An IPv4 address and its IPv4-mapped IPv6 twin give one and the same host route. */
  lemma MappedTwinSameRoute(v: IPv4Value)
    ensures IsIPv4MappedToIPv6(MapToIPv6(IPv4(v)))
    ensures HostRoute(MapToIPv6(IPv4(v))) == HostRoute(IPv4(v)) == Network(IPv4(v), 32)
  {
    assert (IPv4MappedBase + v) % IPv4Space == v;
  }

  /**
   * The IPNetwork2 operations the manager relies on, left uninterpreted:
   * the first and last usable address of a network, the text form of an
   * address, and the supernet reduction of a list of networks.
   */
  datatype IpLibrary = IpLibrary(
    firstUsable: Network -> Address,
    lastUsable: Network -> Address,
    format: Address -> string,
    supernet: seq<Network> -> seq<Network>)
}
