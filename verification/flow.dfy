/** Flow-map keys and values shared by the dataplane and the agent. */
module Flow {
  import opened Words

  const INGRESS: U8 := 0
  const EGRESS: U8 := 1

  type Address = a: Bytes | |a| == 16 witness [0, 0, 0, 0, 0, 0, 0, 0, 0, 0, 0, 0, 0, 0, 0, 0]

  datatype FlowKey = FlowKey(
    ifindex: U32,
    direction: U8,
    family: U8,
    protocol: U8,
    src: Address,
    dst: Address,
    sport: U16,
    dport: U16,
    icmpType: U8,
    icmpCode: U8)

  datatype FlowValue = FlowValue(
    packets: U64,
    bytes: U64,
    firstSeen: U64,
    lastSeen: U64,
    tcpFlags: U16,
    vlanId: U16,
    tos: U8)

  datatype Delta = Delta(packets: U64, bytes: U64)

  /** Which of a flow's two cumulative counters a statement is about. */
  datatype Counter = PacketCount | ByteCount

  const MAPPED_PREFIX: Bytes := [0, 0, 0, 0, 0, 0, 0, 0, 0, 0, 0xff, 0xff]

  /** `::ffff:a.b.c.d` for the four octets of an IPv4 address. */
  function Mapped(ip4: Bytes): Address
    requires |ip4| == 4
  {
    MAPPED_PREFIX + ip4
  }

  predicate IsMapped(a: Address) {
    a[..12] == MAPPED_PREFIX
  }

  /** Keys of the shape the dataplane writes: a known family, IPv4 addresses in
      mapped form, and a direction that names one of the two hooks. */
  predicate Canonical(k: FlowKey) {
    && (k.family == 6 || (k.family == 4 && IsMapped(k.src) && IsMapped(k.dst)))
    && (k.direction == INGRESS || k.direction == EGRESS)
  }
}
