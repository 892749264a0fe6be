/** The two-class strict-priority queue: a high and a low FIFO bucket, each with a
    running byte count, drop-tail admission against a packet or a byte limit, and
    dequeue and peek that serve the high bucket first. */
module PriorityQueues {
  import opened Packets
  import opened Classifier

  datatype Option<T> = None | Some(value: T)

  /** Which limit admission control checks: maxPackets or maxBytes. */
  datatype QueueMode = QueueModePackets | QueueModeBytes

  /** Defaults of the queue's configuration attributes. */
  const DefaultMode: QueueMode := QueueModePackets
  const DefaultMaxPackets: nat := 100
  const DefaultMaxBytes: nat := 100 * 65535

  /** Sum of the sizes of the packets in a bucket. */
  function TotalSize(q: seq<Packet>): nat
  {
    if q == [] then 0 else Size(q[0]) + TotalSize(q[1..])
  }

  /** Appending a packet adds its size to the bucket's total. */
  lemma {:induction false} TotalSizeAppend(q: seq<Packet>, p: Packet)
    ensures TotalSize(q + [p]) == TotalSize(q) + Size(p)
  {
    if q == [] {
      assert [] + [p] == [p];
    } else {
      assert (q + [p])[1..] == q[1..] + [p];
      TotalSizeAppend(q[1..], p);
    }
  }

  /** Every packet of a bucket is counted in its total. */
  lemma {:induction false} TotalSizeBoundsMembers(q: seq<Packet>, i: nat)
    requires i < |q|
    ensures Size(q[i]) <= TotalSize(q)
  {
    if i > 0 {
      TotalSizeBoundsMembers(q[1..], i - 1);
    }
  }

  class PriorityQueue {
    var highPackets: seq<Packet>
    var lowPackets: seq<Packet>
    var bytesInHighQueue: nat
    var bytesInLowQueue: nat
    var mode: QueueMode
    var maxPackets: nat
    var maxBytes: nat
    /** Every packet handed to Drop, in order. */
    ghost var drops: seq<Packet>

    /** Each byte counter equals the total size of the packets in its bucket. */
    ghost predicate Valid()
      reads this
    {
      bytesInHighQueue == TotalSize(highPackets) && bytesInLowQueue == TotalSize(lowPackets)
    }

    /** The order in which successive dequeues hand packets out. */
    ghost function ServiceOrder(): seq<Packet>
      reads this
    {
      highPackets + lowPackets
    }

    /** Whether a bucket holding count packets and bytes bytes can admit a packet of
        the given size: strictly below the active limit once it would be added. */
    predicate Admits(count: nat, bytes: nat, size: nat)
      reads this
    {
      match mode
      case QueueModePackets => count < maxPackets
      case QueueModeBytes => bytes + size < maxBytes
    }

    constructor (mode: QueueMode, maxPackets: nat, maxBytes: nat)
      ensures Valid()
      ensures this.mode == mode && this.maxPackets == maxPackets && this.maxBytes == maxBytes
      ensures highPackets == [] && lowPackets == [] && drops == []
    {
      highPackets, lowPackets := [], [];
      bytesInHighQueue, bytesInLowQueue := 0, 0;
      this.mode, this.maxPackets, this.maxBytes := mode, maxPackets, maxBytes;
      drops := [];
    }

    /** A queue with the default configuration. */
    constructor Default()
      ensures Valid()
      ensures mode == DefaultMode && maxPackets == DefaultMaxPackets && maxBytes == DefaultMaxBytes
      ensures highPackets == [] && lowPackets == [] && drops == []
    {
      highPackets, lowPackets := [], [];
      bytesInHighQueue, bytesInLowQueue := 0, 0;
      mode, maxPackets, maxBytes := DefaultMode, DefaultMaxPackets, DefaultMaxBytes;
      drops := [];
    }

    method SetMode(mode: QueueMode)
      modifies this`mode
      ensures this.mode == mode
    {
      this.mode := mode;
    }

    method GetMode() returns (m: QueueMode)
      ensures m == mode
    {
      m := mode;
    }

    /** Records a rejected packet as a loss. */
    method Drop(p: Packet)
      modifies this`drops
      ensures drops == old(drops) + [p]
    {
      drops := drops + [p];
    }

    /** Classifies the packet and attempts to admit it into the matching bucket. A
        rejected packet is dropped; a TCP packet (code 2) has no bucket and is
        refused without a drop. */
    method DoEnqueue(p: Packet) returns (ok: bool)
      requires Valid() && WellFormed(p)
      modifies this
      ensures Valid()
      ensures mode == old(mode) && maxPackets == old(maxPackets) && maxBytes == old(maxBytes)
      ensures Classify(p).priority == Tcp ==>
                !ok && highPackets == old(highPackets) && lowPackets == old(lowPackets) &&
                bytesInHighQueue == old(bytesInHighQueue) && bytesInLowQueue == old(bytesInLowQueue) &&
                drops == old(drops)
      ensures Classify(p).priority == High ==>
                ok == old(Admits(|highPackets|, bytesInHighQueue, Size(p))) &&
                lowPackets == old(lowPackets) && bytesInLowQueue == old(bytesInLowQueue) &&
                if ok then
                  highPackets == old(highPackets) + [p] &&
                  bytesInHighQueue == old(bytesInHighQueue) + Size(p) && drops == old(drops)
                else
                  highPackets == old(highPackets) && bytesInHighQueue == old(bytesInHighQueue) &&
                  drops == old(drops) + [p]
      ensures Classify(p).priority == Low ==>
                ok == old(Admits(|lowPackets|, bytesInLowQueue, Size(p))) &&
                highPackets == old(highPackets) && bytesInHighQueue == old(bytesInHighQueue) &&
                if ok then
                  lowPackets == old(lowPackets) + [p] &&
                  bytesInLowQueue == old(bytesInLowQueue) + Size(p) && drops == old(drops)
                else
                  lowPackets == old(lowPackets) && bytesInLowQueue == old(bytesInLowQueue) &&
                  drops == old(drops) + [p]
    {
      var c := Classify(p);
      var q := c.packet;
      ClassifyKeepsSize(p);
      if c.priority.Code() == 1 {
        if mode == QueueModePackets && |highPackets| >= maxPackets {
          Drop(q);
          return false;
        }
        if mode == QueueModeBytes && bytesInHighQueue + Size(q) >= maxBytes {
          Drop(q);
          return false;
        }
        TotalSizeAppend(highPackets, q);
        bytesInHighQueue := bytesInHighQueue + Size(q);
        highPackets := highPackets + [q];
        return true;
      } else if c.priority.Code() == 0 {
        if mode == QueueModePackets && |lowPackets| >= maxPackets {
          Drop(q);
          return false;
        }
        if mode == QueueModeBytes && bytesInLowQueue + Size(q) >= maxBytes {
          Drop(q);
          return false;
        }
        TotalSizeAppend(lowPackets, q);
        bytesInLowQueue := bytesInLowQueue + Size(q);
        lowPackets := lowPackets + [q];
        return true;
      } else {
        return false;
      }
    }

    /** Removes and returns the head of the high bucket, or else of the low bucket,
        or returns None when both are empty. */
    method DoDequeue() returns (r: Option<Packet>)
      requires Valid()
      modifies this
      ensures Valid()
      ensures r == old(DoPeek())
      ensures mode == old(mode) && maxPackets == old(maxPackets) && maxBytes == old(maxBytes)
      ensures drops == old(drops)
      ensures old(ServiceOrder()) == [] ==> r == None && ServiceOrder() == []
      ensures old(ServiceOrder()) != [] ==>
                r == Some(old(ServiceOrder())[0]) && ServiceOrder() == old(ServiceOrder())[1..]
      ensures old(highPackets) != [] ==>
                highPackets == old(highPackets)[1..] &&
                bytesInHighQueue == old(bytesInHighQueue) - Size(r.value) &&
                lowPackets == old(lowPackets) && bytesInLowQueue == old(bytesInLowQueue)
      ensures old(highPackets) == [] ==>
                highPackets == [] && bytesInHighQueue == old(bytesInHighQueue) &&
                (old(lowPackets) != [] ==>
                   lowPackets == old(lowPackets)[1..] &&
                   bytesInLowQueue == old(bytesInLowQueue) - Size(r.value)) &&
                (old(lowPackets) == [] ==>
                   lowPackets == [] && bytesInLowQueue == old(bytesInLowQueue))
    {
      if highPackets != [] {
        var p := highPackets[0];
        assert highPackets + lowPackets == [p] + (highPackets[1..] + lowPackets);
        highPackets := highPackets[1..];
        TotalSizeBoundsMembers(old(highPackets), 0);
        bytesInHighQueue := bytesInHighQueue - Size(p);
        return Some(p);
      } else if lowPackets != [] {
        var p := lowPackets[0];
        assert highPackets + lowPackets == lowPackets;
        lowPackets := lowPackets[1..];
        TotalSizeBoundsMembers(old(lowPackets), 0);
        bytesInLowQueue := bytesInLowQueue - Size(p);
        return Some(p);
      } else {
        return None;
      }
    }

    /** The packet the next dequeue would return, without removing it. */
    function DoPeek(): (r: Option<Packet>)
      reads this
      ensures highPackets != [] ==> r == Some(highPackets[0])
      ensures highPackets == [] && lowPackets != [] ==> r == Some(lowPackets[0])
      ensures r == None <==> highPackets == [] && lowPackets == []
    {
      if highPackets != [] then Some(highPackets[0])
      else if lowPackets != [] then Some(lowPackets[0])
      else None
    }
  }
}
