/** The player's packet queue: a singly linked list with end pointers and running totals. */
module PlayerPackets {

  datatype Packet = Packet(id: int, size: nat)

  /** What one look for a packet comes to: a return with or without one, or sleep on the condition until the next look. */
  datatype Taken = Aborted | Empty | Got(packet: Packet) | Asleep

  /** Whether there is memory for a copy of a packet's data and for its list node. */
  datatype Memory = Memory(data: bool, node: bool)

  /** The bytes counted for the packets, each with its list node. */
  function Total(packets: seq<Packet>, nodeSize: nat): nat {
    if packets == [] then 0 else packets[0].size + nodeSize + Total(packets[1..], nodeSize)
  }

  lemma {:induction false} TotalAppend(packets: seq<Packet>, p: Packet, nodeSize: nat)
    ensures Total(packets + [p], nodeSize) == Total(packets, nodeSize) + p.size + nodeSize
  {
    if packets == [] {
      assert packets + [p] == [p];
    } else {
      TotalAppend(packets[1..], p, nodeSize);
      assert (packets + [p])[1..] == packets[1..] + [p];
    }
  }

  class PacketList {
    var pkt: Packet
    var next: PacketList?

    constructor (pkt: Packet)
      ensures this.pkt == pkt && next == null
    {
      this.pkt, next := pkt, null;
    }
  }

  class PacketQueue {
    const nodeSize: nat
    var first: PacketList?
    var last: PacketList?
    var nbPackets: nat
    var size: nat
    var abort: bool
    ghost var nodes: seq<PacketList>
    ghost var contents: seq<Packet>

    /** The list, its end pointers and its totals all describe the same packets. */
    ghost predicate Valid()
      reads this, nodes
    {
      && |nodes| == |contents| == nbPackets && size == Total(contents, nodeSize)
      && (forall i | 0 <= i < |nodes| :: nodes[i].pkt == contents[i])
      && (forall i | 0 <= i < |nodes| - 1 :: nodes[i].next == nodes[i + 1])
      && (forall i, j | 0 <= i < j < |nodes| :: nodes[i] != nodes[j])
      && first == (if nodes == [] then null else nodes[0])
      && last == (if nodes == [] then null else nodes[|nodes| - 1])
      && (nodes != [] ==> nodes[|nodes| - 1].next == null)
    }

    /** A new queue holds the flush packet, if there is memory for its node. */
    constructor (flush: Packet, nodeSize: nat, m: Memory)
      ensures Valid() && contents == (if m.node then [flush] else []) && !abort && fresh(nodes)
    {
      this.nodeSize := nodeSize;
      first, last, nbPackets, size, abort := null, null, 0, 0, false;
      nodes, contents := [], [];
      new;
      var ok, wakes := Put(flush, true, m);
    }

    /** Appends a packet, unless memory runs out; the flush packet, marked by its place, is not copied. */
    method Put(pkt: Packet, isFlush: bool, m: Memory) returns (ok: bool, wakes: bool)
      requires Valid()
      modifies this, nodes
      ensures Valid() && abort == old(abort)
      ensures ok == wakes == ((isFlush || m.data) && m.node)
      ensures contents == if ok then old(contents) + [pkt] else old(contents)
      ensures fresh(set n | n in nodes && n !in old(nodes))
    {
      if !isFlush && !m.data {
        return false, false;
      }
      if !m.node {
        return false, false;
      }
      var node := new PacketList(pkt);
      TotalAppend(contents, pkt, nodeSize);
      if last == null {
        first := node;
      } else {
        last.next := node;
      }
      last := node;
      nbPackets := nbPackets + 1;
      size := size + (pkt.size + nodeSize);
      nodes, contents := nodes + [node], contents + [pkt];
      ok, wakes := true, true;
    }

    /** One look for the oldest packet: none is taken when the queue is aborted or empty, and then a blocking caller sleeps. */
    method Get(block: bool) returns (r: Taken)
      requires Valid()
      modifies this
      ensures Valid() && abort == old(abort)
      ensures r == if abort then Aborted
                   else if old(contents) != [] then Got(old(contents)[0])
                   else if block then Asleep else Empty
      ensures contents == if r.Got? then old(contents)[1..] else old(contents)
      ensures forall n | n in nodes :: n in old(nodes)
    {
      if abort {
        return Aborted;
      }
      var node := first;
      if node == null {
        return if block then Asleep else Empty;
      }
      first := node.next;
      if first == null {
        last := null;
      }
      nbPackets := nbPackets - 1;
      size := size - (node.pkt.size + nodeSize);
      nodes, contents := nodes[1..], contents[1..];
      return Got(node.pkt);
    }

    /** Drops every packet. */
    method Flush()
      requires Valid()
      modifies this
      ensures Valid() && contents == [] && abort == old(abort)
    {
      last, first, nbPackets, size := null, null, 0, 0;
      nodes, contents := [], [];
    }

    /** Aborts, keeping the packets. */
    method Abort()
      requires Valid()
      modifies this
      ensures Valid() && contents == old(contents) && abort
    {
      abort := true;
    }

    /** The reader's seek: after it the queue is the flush marker alone, or empty when there is no memory for its node. */
    method Seek(flush: Packet, m: Memory)
      requires Valid()
      modifies this, nodes
      ensures Valid() && contents == (if m.node then [flush] else []) && abort == old(abort)
    {
      Flush();
      var ok, wakes := Put(flush, true, m);
    }
  }
}
