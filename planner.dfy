/** The host planner of traffic-runner: the address range, the run configuration
    (`LocalConfig`, `set_up_config`) and the names and CIDR string derived for
    each enumerated host. */
module Planner {
  import opened Wrappers
  import opened Format

  /** `ipnet::Ipv4AddrRange`: the addresses from `start` to `end`. */
  datatype Ipv4AddrRange = Ipv4AddrRange(start: Ipv4Addr, end: Ipv4Addr)

  /** What iterating an `Ipv4AddrRange` yields. This is the one place where the
      behaviour of the ipnet library is assumed: both ends are included, and the
      range is empty when `start > end`. Written as the iterator runs: yield
      `start`, then continue from `start + 1` unless `start` was the end. */
  function RangeAddresses(start: Ipv4Addr, end: Ipv4Addr): (addrs: seq<Ipv4Addr>)
    ensures addrs == [] <==> start > end
    ensures forall i :: 0 <= i < |addrs| ==> start <= addrs[i] <= end
    decreases end - start
  {
    if start > end then []
    else if start == end then [start]
    else [start] + RangeAddresses(start + 1, end)
  }

  /** The lower bound `Ipv4AddrRange::size_hint` reports: the number of
      addresses in the inclusive range, computed from its ends. */
  function SizeHint(r: Ipv4AddrRange): (n: nat)
    ensures n > 0 <==> r.start <= r.end
    ensures n > 0 ==> r.start + (n - 1) == r.end
    ensures n <= 0x1_0000_0000
  {
    if r.start <= r.end then r.end - r.start + 1 else 0
  }

  /** The iteration yields `SizeHint` addresses, the `i`-th being `start + i`. */
  lemma {:induction false} RangeAddressesAt(start: Ipv4Addr, end: Ipv4Addr)
    ensures |RangeAddresses(start, end)| == SizeHint(Ipv4AddrRange(start, end))
    ensures forall i :: 0 <= i < |RangeAddresses(start, end)| ==>
              RangeAddresses(start, end)[i] == start + i
    decreases end - start
  {
    if start < end {
      RangeAddressesAt(start + 1, end);
    }
  }

  /** `LocalConfig` of main.rs. */
  datatype LocalConfig = LocalConfig(
    hosts: Ipv4AddrRange,
    count: nat,
    interface: string,
    cidrSuffix: string,
    baseNamespace: string)

  /** `set_up_config`: builds the configuration; it never fails. The count is the
      range's size hint, which is the number of hosts every phase enumerates. */
  function SetUpConfig(baseAddress: Ipv4Addr, endAddress: Ipv4Addr, cidrSuffix: string,
                       interface: string, baseNamespace: string): (r: Result<LocalConfig, ()>)
    ensures r.Ok?
    ensures r.value.hosts == Ipv4AddrRange(baseAddress, endAddress)
    ensures r.value.count == |Hosts(r.value)|
    ensures r.value.interface == interface && r.value.cidrSuffix == cidrSuffix
    ensures r.value.baseNamespace == baseNamespace
  {
    var hosts := Ipv4AddrRange(baseAddress, endAddress);
    RangeAddressesAt(baseAddress, endAddress);
    Ok(LocalConfig(hosts, SizeHint(hosts), interface, cidrSuffix, baseNamespace))
  }

  /** A configuration as `set_up_config` builds it: the count agrees with the range. */
  predicate WellFormed(config: LocalConfig) {
    config.count == |Hosts(config)|
  }

  /** One item of `config.hosts.enumerate()`: the index and the address. */
  datatype Host = Host(index: nat, address: Ipv4Addr)

  /** `config.hosts.enumerate()`, as each of the three phases runs it. */
  function Hosts(config: LocalConfig): (hs: seq<Host>)
    ensures |hs| == SizeHint(config.hosts)
    ensures forall i :: 0 <= i < |hs| ==>
              hs[i].index == i && hs[i].address == config.hosts.start + i
  {
    var addrs := RangeAddresses(config.hosts.start, config.hosts.end);
    RangeAddressesAt(config.hosts.start, config.hosts.end);
    seq(|addrs|, i requires 0 <= i < |addrs| => Host(i, addrs[i]))
  }

  /** The addresses come in strictly increasing order. */
  lemma HostsAscending(config: LocalConfig, i: nat, j: nat)
    requires i < j < |Hosts(config)|
    ensures Hosts(config)[i].address < Hosts(config)[j].address
  {
  }

  /** A non-empty run goes from the base address to the end address, both included. */
  lemma HostsEndpoints(config: LocalConfig)
    requires |Hosts(config)| > 0
    ensures Hosts(config)[0].address == config.hosts.start
    ensures Hosts(config)[|Hosts(config)| - 1].address == config.hosts.end
  {
  }

  /** The range is empty exactly when the base address is above the end address. */
  lemma HostsEmpty(config: LocalConfig)
    ensures Hosts(config) == [] <==> config.hosts.start > config.hosts.end
  {
  }

  /** The namespace name of host `idx`: `format!("{}{}", base_namespace, idx)`. */
  function NamespaceName(baseNamespace: string, idx: nat): string {
    baseNamespace + Decimal(idx)
  }

  /** The macvlan interface name of host `idx`: `format!("macvlan{}", idx)`. */
  function InterfaceName(idx: nat): string {
    "macvlan" + Decimal(idx)
  }

  /** The address given to the interface: `addr.to_string() + "/" + cidr_suffix`.
      The suffix is not validated. */
  function Cidr(addr: Ipv4Addr, cidrSuffix: string): (cidr: string)
    ensures |cidr| > |Dotted(addr)| && cidr[..|Dotted(addr)|] == Dotted(addr) && cidr[|Dotted(addr)|] == '/'
    ensures forall i :: 0 <= i < |Dotted(addr)| ==> cidr[i] != '/'
    ensures cidr[|Dotted(addr)| + 1..] == cidrSuffix
  {
    Dotted(addr) + "/" + cidrSuffix
  }

  /** The length limit stated beside the interface name in main.rs. */
  const InterfaceNameLimit: nat := 16

  /** The namespace name is the base followed by digits only, and those digits
      read back as the index. */
  lemma NamespaceNameParses(baseNamespace: string, idx: nat)
    ensures var name := NamespaceName(baseNamespace, idx);
            && |name| > |baseNamespace| && name[..|baseNamespace|] == baseNamespace
            && (forall i :: |baseNamespace| <= i < |name| ==> IsDigit(name[i]))
            && ParseDecimal(name[|baseNamespace|..]) == idx
  {
    assert NamespaceName(baseNamespace, idx)[|baseNamespace|..] == Decimal(idx);
    DecimalRoundTrip(idx);
  }

  /** The interface name is `macvlan` followed by digits only, and those digits
      read back as the index. */
  lemma InterfaceNameParses(idx: nat)
    ensures var name := InterfaceName(idx);
            && |name| > 7 && name[..7] == "macvlan"
            && (forall i :: 7 <= i < |name| ==> IsDigit(name[i]))
            && ParseDecimal(name[7..]) == idx
  {
    assert InterfaceName(idx)[7..] == Decimal(idx);
    DecimalRoundTrip(idx);
  }

  lemma {:induction false} NamespaceNameInjective(baseNamespace: string, i: nat, j: nat)
    requires NamespaceName(baseNamespace, i) == NamespaceName(baseNamespace, j)
    ensures i == j
  {
    var n := |baseNamespace|;
    assert Decimal(i) == NamespaceName(baseNamespace, i)[n..];
    assert Decimal(j) == NamespaceName(baseNamespace, j)[n..];
    DecimalInjective(i, j);
  }

  lemma {:induction false} InterfaceNameInjective(i: nat, j: nat)
    requires InterfaceName(i) == InterfaceName(j)
    ensures i == j
  {
    assert Decimal(i) == InterfaceName(i)[7..];
    assert Decimal(j) == InterfaceName(j)[7..];
    DecimalInjective(i, j);
  }

  /** The interface name is `macvlan` followed by the digits of the index. */
  lemma InterfaceNameLength(idx: nat)
    ensures |InterfaceName(idx)| == 7 + DigitCount(idx)
  {
    DecimalLength(idx);
  }

  /** The interface name fits a limit of `limit` characters exactly when the index
      has at most `limit - 7` digits; nothing in main.rs checks this. */
  lemma InterfaceNameFits(idx: nat, limit: nat)
    requires limit > 7
    ensures |InterfaceName(idx)| <= limit <==> idx < Pow10(limit - 7)
  {
    InterfaceNameLength(idx);
    DigitCountBound(idx, limit - 7);
  }

  /** With the stated limit of 16, the names fit for the first 10^9 indices only. */
  lemma InterfaceNameWithinLimit(idx: nat)
    ensures |InterfaceName(idx)| <= InterfaceNameLimit <==> idx < 1_000_000_000
  {
    InterfaceNameFits(idx, InterfaceNameLimit);
    assert Pow10(9) == 1_000_000_000;
  }

  /** Distinct addresses get distinct CIDR strings. */
  lemma CidrInjective(a: Ipv4Addr, b: Ipv4Addr, cidrSuffix: string)
    requires Cidr(a, cidrSuffix) == Cidr(b, cidrSuffix)
    ensures a == b
  {
    assert '/' !in Dotted(a) && '/' !in Dotted(b);
    SplitAtSeparator(Dotted(a), cidrSuffix, Dotted(b), cidrSuffix, '/');
    DottedInjective(a, b);
  }

  lemma ExampleAddresses()
    ensures Dotted(0x0A00_0101) == "10.0.1.1" && Dotted(0x0A00_0104) == "10.0.1.4"
  {
    assert Decimal(10) == "10";
    assert Octets(0x0A00_0101) == [10, 0, 1, 1];
    assert Octets(0x0A00_0104) == [10, 0, 1, 4];
  }

  /** Base 10.0.1.1 and end 10.0.1.4 give four hosts, the end address included;
      host 0 is `ns0` / `macvlan0` with `10.0.1.1/24`, host 3 gets `10.0.1.4/24`. */
  lemma ExampleRun()
    ensures var config := SetUpConfig(0x0A00_0101, 0x0A00_0104, "24", "eth0", "ns").value;
            && config.count == 4
            && Hosts(config)[0] == Host(0, 0x0A00_0101)
            && NamespaceName(config.baseNamespace, 0) == "ns0"
            && InterfaceName(0) == "macvlan0"
            && Cidr(Hosts(config)[0].address, config.cidrSuffix) == "10.0.1.1/24"
            && Cidr(Hosts(config)[3].address, config.cidrSuffix) == "10.0.1.4/24"
  {
    ExampleAddresses();
  }
}
