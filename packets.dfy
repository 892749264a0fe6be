/** Packets as the priority queue sees them: a stack of protocol headers over a
    payload. The outermost header is first. Only the header fields the classifier
    reads are kept; the byte layout of each header is abstracted to its size. */
module Packets {

  type uint8 = x: int | 0 <= x < 0x100
  type uint16 = x: int | 0 <= x < 0x1_0000

  /** IP protocol numbers the classifier recognises. */
  const UdpProtocol: uint8 := 17
  const TcpProtocol: uint8 := 6

  datatype Header =
    | Ppp                                 // point-to-point link-layer header
    | Ipv4(protocol: uint8)               // network-layer header
    | Udp(destinationPort: uint16)        // transport-layer header

  /** Serialised size in bytes of each header kind (PPP 2, IPv4 without options 20, UDP 8). */
  function HeaderSize(h: Header): (n: nat)
    ensures n > 0
  {
    match h
    case Ppp => 2
    case Ipv4(_) => 20
    case Udp(_) => 8
  }

  datatype Packet = Packet(headers: seq<Header>, payloadSize: nat)

  function HeadersSize(hs: seq<Header>): nat
  {
    if hs == [] then 0 else HeaderSize(hs[0]) + HeadersSize(hs[1..])
  }

  /** Total size in bytes, headers included (what a packet reports as its size). */
  function Size(p: Packet): nat
  {
    HeadersSize(p.headers) + p.payloadSize
  }

  /** A packet whose envelope the classifier can walk: PPP, then IPv4, then a UDP
      header whenever the IPv4 protocol field says UDP. */
  predicate WellFormed(p: Packet)
  {
    |p.headers| >= 2 && p.headers[0].Ppp? && p.headers[1].Ipv4? &&
    (p.headers[1].protocol == UdpProtocol ==> |p.headers| >= 3 && p.headers[2].Udp?)
  }

  /** The network-layer protocol number carried by a well-formed packet. */
  function Protocol(p: Packet): uint8
    requires WellFormed(p)
  {
    p.headers[1].protocol
  }

  /** The UDP destination port carried by a well-formed UDP packet. */
  function DestinationPort(p: Packet): uint16
    requires WellFormed(p) && Protocol(p) == UdpProtocol
  {
    p.headers[2].destinationPort
  }

  /** Strips the outermost header, returning it and the rest of the packet. */
  function RemoveHeader(p: Packet): (r: (Header, Packet))
    requires |p.headers| > 0
    ensures r.1.payloadSize == p.payloadSize
    ensures [r.0] + r.1.headers == p.headers
    ensures Size(r.1) + HeaderSize(r.0) == Size(p)
  {
    (p.headers[0], Packet(p.headers[1..], p.payloadSize))
  }

  /** Pushes a header in front of the packet's outermost one. */
  function AddHeader(h: Header, p: Packet): (r: Packet)
    ensures |r.headers| > 0 && r.headers[0] == h && r.headers[1..] == p.headers
    ensures r.payloadSize == p.payloadSize
    ensures Size(r) == Size(p) + HeaderSize(h)
  {
    var hs := [h] + p.headers;
    assert hs[1..] == p.headers;
    Packet(hs, p.payloadSize)
  }

  /** Removing a header and adding it back gives the packet one started with. */
  lemma RemoveThenAdd(p: Packet)
    requires |p.headers| > 0
    ensures AddHeader(RemoveHeader(p).0, RemoveHeader(p).1) == p
  {
  }

  /** Adding a header and removing it again gives back that header and packet. */
  lemma AddThenRemove(h: Header, p: Packet)
    ensures RemoveHeader(AddHeader(h, p)) == (h, p)
  {
  }
}
