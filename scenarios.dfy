/** Clients of the priority queue that rely on its contracts alone: the admission
    boundaries in both modes, strict priority across buckets, FIFO order inside a
    bucket, and draining. */
module Scenarios {
  import opened Packets
  import opened Classifier
  import opened PriorityQueues

  /** A UDP packet to the given port carrying payload bytes after its 30 header bytes. */
  function UdpPacket(port: uint16, payload: nat): (p: Packet)
    ensures WellFormed(p) && Protocol(p) == UdpProtocol && DestinationPort(p) == port
    ensures Size(p) == 30 + payload
  {
    AddHeader(Ppp, AddHeader(Ipv4(UdpProtocol), AddHeader(Udp(port), Packet([], payload))))
  }

  /** A TCP packet; the TCP header is payload as far as the classifier is concerned. */
  function TcpPacket(payload: nat): (p: Packet)
    ensures WellFormed(p) && Protocol(p) == TcpProtocol
    ensures Size(p) == 22 + payload
  {
    AddHeader(Ppp, AddHeader(Ipv4(TcpProtocol), Packet([], payload)))
  }

  /** Packet mode with a limit of 2: two packets are admitted to a bucket, the third
      is dropped and the bucket still holds two. */
  method PacketLimitScenario()
  {
    var q := new PriorityQueue(QueueModePackets, 2, DefaultMaxBytes);
    var a, b, c := UdpPacket(LowPriorityPort, 10), UdpPacket(LowPriorityPort, 20), UdpPacket(9999, 30);
    var ok1 := q.DoEnqueue(a);
    var ok2 := q.DoEnqueue(b);
    var ok3 := q.DoEnqueue(c);
    assert ok1 && ok2 && !ok3;
    assert q.lowPackets == [a, b] && q.drops == [c];
  }

  /** Byte mode with a limit of 1000: a bucket holding 950 bytes refuses a 51-byte
      packet (950 + 51 >= 1000) and admits a 49-byte one (950 + 49 < 1000). */
  method ByteLimitScenario()
  {
    var q := new PriorityQueue(QueueModeBytes, DefaultMaxPackets, 1000);
    var big := UdpPacket(HighPriorityPort, 920);
    var ok := q.DoEnqueue(big);
    assert ok && q.bytesInHighQueue == 950;
    var over, under := UdpPacket(HighPriorityPort, 21), UdpPacket(HighPriorityPort, 19);
    var ok1 := q.DoEnqueue(over);
    assert !ok1 && q.drops == [over] && q.bytesInHighQueue == 950;
    var ok2 := q.DoEnqueue(under);
    assert ok2 && q.bytesInHighQueue == 999 && q.highPackets == [big, under];
  }

  /** A TCP packet is refused without a drop, even into an empty queue. */
  method TcpScenario()
  {
    var q := new PriorityQueue.Default();
    var ok := q.DoEnqueue(TcpPacket(40));
    assert !ok && q.highPackets == [] && q.lowPackets == [] && q.drops == [];
  }

  /** A high packet that arrives after two low ones is served first; the low ones
      then come out in arrival order; peeking repeatedly changes nothing. */
  method PriorityScenario()
  {
    var q := new PriorityQueue.Default();
    var low1, low2, high := UdpPacket(LowPriorityPort, 1), UdpPacket(7, 2), UdpPacket(HighPriorityPort, 3);
    var ok1 := q.DoEnqueue(low1);
    var ok2 := q.DoEnqueue(low2);
    var ok3 := q.DoEnqueue(high);
    assert ok1 && ok2 && ok3;
    assert q.DoPeek() == Some(high);
    var r1 := q.DoDequeue();
    var r2 := q.DoDequeue();
    var r3 := q.DoDequeue();
    var r4 := q.DoDequeue();
    assert r1 == Some(high) && r2 == Some(low1) && r3 == Some(low2) && r4 == None;
    assert q.bytesInHighQueue == 0 && q.bytesInLowQueue == 0;
  }

  /** Dequeuing until empty hands out every stored packet, high bucket first and each
      bucket in FIFO order, and leaves both buckets and byte counters at zero. */
  method Drain(q: PriorityQueue) returns (served: seq<Packet>)
    requires q.Valid()
    modifies q
    ensures q.Valid()
    ensures served == old(q.highPackets) + old(q.lowPackets)
    ensures |served| == old(|q.highPackets| + |q.lowPackets|)
    ensures q.highPackets == [] && q.lowPackets == []
    ensures q.bytesInHighQueue == 0 && q.bytesInLowQueue == 0
    ensures q.drops == old(q.drops)
    ensures q.mode == old(q.mode) && q.maxPackets == old(q.maxPackets) && q.maxBytes == old(q.maxBytes)
  {
    served := [];
    var r := q.DoDequeue();
    while r.Some?
      invariant q.Valid()
      invariant r.Some? ==> served + [r.value] + q.ServiceOrder() == old(q.ServiceOrder())
      invariant r.None? ==> served == old(q.ServiceOrder()) && q.ServiceOrder() == []
      invariant q.drops == old(q.drops)
      invariant q.mode == old(q.mode) && q.maxPackets == old(q.maxPackets) && q.maxBytes == old(q.maxBytes)
      decreases |q.ServiceOrder()| + if r.Some? then 1 else 0
    {
      served := served + [r.value];
      r := q.DoDequeue();
    }
  }
}
