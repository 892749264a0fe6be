/** The classifier of the priority queue: reads the IPv4 protocol number and, for
    UDP, the destination port, and maps them to a priority code. The headers are
    stripped to be read and then pushed back, so the packet leaves as it came. */
module Classifier {
  import opened Packets

  /** UDP destination ports that select a class explicitly. */
  const HighPriorityPort: uint16 := 3000
  const LowPriorityPort: uint16 := 2000

  /** The three outcomes of classification. The queue itself stores only High and Low. */
  datatype Priority = Low | High | Tcp {
    /** The numeric priority code the classifier returns. */
    function Code(): (c: uint16)
      ensures c <= 2
    {
      match this
      case Low => 0
      case High => 1
      case Tcp => 2
    }
  }

  /** The priority decided and the packet as it stands after its headers were put back. */
  datatype Classification = Classification(priority: Priority, packet: Packet)

  /** Walks the header stack the way the queue does: remove PPP, remove IPv4, and for
      UDP remove the UDP header; decide; then add the headers back innermost first. */
  function Classify(p: Packet): (r: Classification)
    requires WellFormed(p)
    ensures r.packet == p
    ensures r.priority == High <==> Protocol(p) == UdpProtocol && DestinationPort(p) == HighPriorityPort
    ensures r.priority == Tcp <==> Protocol(p) == TcpProtocol
    ensures r.priority == Low <==>
              (Protocol(p) == UdpProtocol && DestinationPort(p) != HighPriorityPort) ||
              (Protocol(p) != UdpProtocol && Protocol(p) != TcpProtocol)
  {
    var (ppp, afterPpp) := RemoveHeader(p);
    var (ip, afterIp) := RemoveHeader(afterPpp);
    assert ip == p.headers[1] && afterIp.headers == p.headers[2..];
    var protocol := ip.protocol;
    if protocol == UdpProtocol then
      var (udp, afterUdp) := RemoveHeader(afterIp);
      var priority :=
        if udp.destinationPort == HighPriorityPort then High
        else if udp.destinationPort == LowPriorityPort then Low
        else Low;
      var restored := AddHeader(ppp, AddHeader(ip, AddHeader(udp, afterUdp)));
      assert restored.headers == p.headers;
      Classification(priority, restored)
    else
      var priority := if protocol == TcpProtocol then Tcp else Low;
      var restored := AddHeader(ppp, AddHeader(ip, afterIp));
      assert restored.headers == p.headers;
      Classification(priority, restored)
  }

  /** Classification preserves the packet's size, which the queue reads afterwards. */
  lemma ClassifyKeepsSize(p: Packet)
    requires WellFormed(p)
    ensures Size(Classify(p).packet) == Size(p)
  {
  }

  /** The classification table as priority codes: UDP to port 3000 gives 1, UDP to
      port 2000 or to any other port gives 0, TCP gives 2, any other protocol 0. */
  lemma ClassificationTable(p: Packet)
    requires WellFormed(p)
    ensures Protocol(p) == UdpProtocol && DestinationPort(p) == HighPriorityPort ==> Classify(p).priority.Code() == 1
    ensures Protocol(p) == UdpProtocol && DestinationPort(p) == LowPriorityPort ==> Classify(p).priority.Code() == 0
    ensures Protocol(p) == UdpProtocol && DestinationPort(p) != HighPriorityPort ==> Classify(p).priority.Code() == 0
    ensures Protocol(p) == TcpProtocol ==> Classify(p).priority.Code() == 2
    ensures Protocol(p) != UdpProtocol && Protocol(p) != TcpProtocol ==> Classify(p).priority.Code() == 0
  {
  }
}
