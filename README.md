# Strict-priority packet queue (ns-3 `PriorityQueue`), modelled in Dafny

This project models the two-class priority queue of a modified ns-3 simulator.
It has two parts:

- **The classifier.** It strips a packet's PPP and IPv4 headers, and also the UDP header when the IPv4 protocol is 17. It picks a priority code:
  - 1 (high) for UDP to port 3000;
  - 0 (low) for UDP to any other port, port 2000 included;
  - 2 for TCP (protocol 6);
  - 0 for any other protocol.

  It then pushes the headers back innermost first, so the packet is the same afterwards.
- **The dual-queue store.** There is a high FIFO bucket and a low FIFO bucket, each with its own byte counter.
  - Admission is drop-tail: a packet is refused when the bucket already holds `maxPackets` packets (packet mode), or when its bytes plus the packet's size would reach `maxBytes` (byte mode).
  - A refused packet goes to `Drop`.
  - Dequeue and peek serve the head of the high bucket while it is non-empty, and only then the head of the low bucket.

Files:
- `packets.dfy` (module `Packets`): a packet is a header stack (`Ppp`, `Ipv4(protocol)`, `Udp(destinationPort)`) over a payload. It provides header removal and addition, sizes, and the well-formedness the classifier relies on.
- `classifier.dfy` (module `Classifier`): `Classify` is a function. It follows the same remove, decide, re-add walk as the C++ and is proved to return the packet unchanged.
- `priority_queue.dfy` (module `PriorityQueues`): class `PriorityQueue` has fields `highPackets`, `lowPackets` (`seq<Packet>`), `bytesInHighQueue`, `bytesInLowQueue`, `mode`, `maxPackets`, `maxBytes`, and a ghost log `drops` that `Drop` appends to.
  - `Valid()` is the representation invariant: each counter equals the total size of its bucket.
  - `DoEnqueue` and `DoDequeue` are methods that keep this invariant.
  - `DoPeek` is a function, so it cannot change anything.
  - `DoDequeue` returns what `DoPeek` returned in the state before the call.
- `scenarios.dfy` (module `Scenarios`): client methods proved from the contracts alone:
  - the packet-limit boundary (limit 2);
  - the byte-limit boundary (950 + 51 refused, 950 + 49 admitted, limit 1000);
  - TCP refused without a drop;
  - strict priority with FIFO order inside a bucket;
  - `Drain`, showing that dequeuing until empty returns exactly the high bucket followed by the low bucket.

A TCP packet is not stored in the low bucket. `Classify` returns 2 for it, and `DoEnqueue` has no branch for 2. So it is not queued, not passed to `Drop`, and the call returns false (`priority-queue.cc:115-119,188-191`). `DoEnqueue`'s contract states exactly that.

## Model

| member | source | states |
|---|---|---|
| `Packets.RemoveHeader` | modified-ns3-v2/src/priority-queue/model/priority-queue.cc:83-86 | the removed header followed by the rest of the stack is the original stack; the sizes of the two add up to the packet's size |
| `Packets.AddHeader` | modified-ns3-v2/src/priority-queue/model/priority-queue.cc:126-127 | the new header becomes outermost over the unchanged stack, and the size grows by the header's size |
| `Packets.RemoveThenAdd` | modified-ns3-v2/src/priority-queue/model/priority-queue.cc:83-86 | adding back a header just removed restores the packet |
| `Packets.AddThenRemove` | modified-ns3-v2/src/priority-queue/model/priority-queue.cc:113 | removing a header just added returns that header and the earlier packet |
| `Classifier.Classify` | modified-ns3-v2/src/priority-queue/model/priority-queue.cc:79-130 | the packet's headers are put back to exactly the original packet; the priority is High iff UDP to port 3000, Tcp iff protocol 6, Low otherwise (UDP to another port, or another protocol) |
| `Classifier.ClassificationTable` | modified-ns3-v2/src/priority-queue/model/priority-queue.cc:90-124 | the codes: UDP/3000 gives 1, UDP/2000 gives 0, UDP/other port gives 0, TCP gives 2, other protocol gives 0 |
| `Classifier.ClassifyKeepsSize` | modified-ns3-v2/src/priority-queue/model/priority-queue.cc:137-154 | the packet size read after classification equals the size before it; `DoEnqueue` uses it for the size it adds to the counter and checks against `maxBytes` |
| `PriorityQueues.TotalSizeAppend` | modified-ns3-v2/src/priority-queue/model/priority-queue.cc:154-155 | appending a packet to a bucket adds its size to the bucket's total |
| `PriorityQueues.TotalSizeBoundsMembers` | modified-ns3-v2/src/priority-queue/model/priority-queue.cc:203-220 | no packet in a bucket is larger than the bucket's total, so the counter subtraction on dequeue never goes below zero; `DoDequeue` uses it before each subtraction |
| `PriorityQueues.PriorityQueue.constructor` | modified-ns3-v2/src/priority-queue/model/priority-queue.cc:50-58 | both buckets and the drop log start empty, the counters are consistent, and the configuration is as given |
| `PriorityQueues.PriorityQueue.Default` | modified-ns3-v2/src/priority-queue/model/priority-queue.cc:29-44 | an empty queue in packet mode with limits 100 packets and 100 * 65535 bytes |
| `PriorityQueues.PriorityQueue.SetMode` | modified-ns3-v2/src/priority-queue/model/priority-queue.cc:65-70 | the mode becomes the given one, and nothing else changes |
| `PriorityQueues.PriorityQueue.GetMode` | modified-ns3-v2/src/priority-queue/model/priority-queue.cc:72-77 | returns the current mode without changing anything |
| `PriorityQueues.PriorityQueue.Drop` | modified-ns3-v2/src/priority-queue/model/priority-queue.cc:142-144 | exactly one drop event carrying the packet is appended to the log; nothing else changes |
| `PriorityQueues.PriorityQueue.DoEnqueue` | modified-ns3-v2/src/priority-queue/model/priority-queue.cc:132-192 | for High and Low: the result is whether the bucket admits the packet (packet mode: fewer than `maxPackets` packets; byte mode: bytes + size strictly below `maxBytes`). On success the packet is appended to that bucket's tail, and that counter grows by its size. On refusal exactly one drop of the packet is logged, and neither bucket changes. The other bucket never changes. For Tcp: the result is false, with no change and no drop. The byte-counter invariant is kept |
| `PriorityQueues.PriorityQueue.DoDequeue` | modified-ns3-v2/src/priority-queue/model/priority-queue.cc:194-235 | returns what peek returned before the call. If the high bucket is non-empty, it removes the high head and lowers the high counter by that packet's size. Otherwise it does the same with the low head. Otherwise it returns None and changes nothing. The service order (high then low) loses exactly its first packet, and the byte-counter invariant is kept |
| `PriorityQueues.PriorityQueue.DoPeek` | modified-ns3-v2/src/priority-queue/model/priority-queue.cc:237-270 | the high head if there is one, else the low head, else None (None exactly when both buckets are empty); it changes nothing |
| `Scenarios.Drain` | modified-ns3-v2/src/priority-queue/model/priority-queue.cc:199-233 | dequeuing until None returns the high bucket then the low bucket, in order: exactly high count + low count packets. It leaves both buckets empty with zero counters, logs no drop, and keeps the mode and both limits |

## Left out

- The type and attribute registration (`GetTypeId`, `NS_OBJECT_ENSURE_REGISTERED`) is not modelled. The configuration is passed to the constructor instead, and `Default` uses the registered defaults.
- Logging (`NS_LOG_*`) is not modelled; it does not affect behaviour.
- `Ptr<>` reference counting and packet identity are not modelled: packets are values. Two equal packets cannot be told apart, which the queue never needs.
- The byte serialisation of `PppHeader`, `Ipv4Header` and `UdpHeader` belongs to the ns-3 library and is not part of this model.
  - A header is kept as its kind and the one field the classifier reads.
  - Its size is a constant: 2, 20 and 8 bytes.
- The base class `Queue` is not part of this model. That covers its public `Enqueue`/`Dequeue`/`Peek` wrappers, statistics and drop trace. `Drop` is modelled only as an append to the ghost `drops` log.
- The destructor has no behaviour and is not modelled.
- PriorityQueues.PriorityQueue.DoEnqueue: `uint32_t` wrap-around is not modelled. Packet sizes, byte counters and limits are unbounded naturals, so `m_bytesInHighQueue + p->GetSize ()` never wraps.
- Classifier.Classify: malformed or truncated packets are excluded by a precondition. The code does not check this case, for example protocol 17 with no UDP header. `WellFormed` requires PPP, then IPv4, then UDP when the protocol is 17.
- Concurrency is not modelled. The queue is called from one thread only.
