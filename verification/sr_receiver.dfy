/** The receiving side of Selective Repeat: an eight-slot reorder ring, of which the first
    `w` slots are in use, and its meaning as an unbounded set of received sequence numbers. */
module SrReceiver {
  import opened Packets
  import opened EventLists
  import opened Networks

  const SLOTS := 8

  datatype Receiver = Receiver(expected: nat, slots: seq<Packet>, marked: seq<bool>)
  {
    predicate Shaped(w: nat) {
      1 <= w <= SLOTS && |slots| == SLOTS && |marked| == SLOTS
    }
  }

  datatype Receipt = Receipt(rcv: Receiver, acks: seq<Packet>, delivered: seq<Payload>)

  ghost predicate IsInitial(r: Receiver) {
    r.expected == 0 && |r.slots| == SLOTS && r.marked == seq(SLOTS, _ => false)
  }

  /** The packet numbered `n` sits in its slot. */
  predicate Holds(w: nat, r: Receiver, n: int)
    requires r.Shaped(w)
  {
    ModBelow(n, w);
    r.marked[n % w] && r.slots[n % w].seqnum == n
  }

  lemma ModBelow(n: int, w: nat)
    requires 1 <= w
    ensures 0 <= n % w < w
  {
  }

  predicate InRange(w: nat, r: Receiver, n: int) {
    (r.expected <= n < r.expected + w) || (n < r.expected && r.expected - w <= n)
  }

  function Store(w: nat, r: Receiver, p: Packet): (r': Receiver)
    requires r.Shaped(w)
    ensures r'.Shaped(w)
  {
    ModBelow(p.seqnum, w);
    r.(slots := r.slots[p.seqnum % w := p], marked := r.marked[p.seqnum % w := true])
  }

  function PassUp(w: nat, r: Receiver): (r': Receiver)
    requires r.Shaped(w)
    ensures r'.Shaped(w)
  {
    ModBelow(r.expected, w);
    r.(expected := r.expected + 1, marked := r.marked[r.expected % w := false])
  }

  function MarkCount(marked: seq<bool>): nat {
    if marked == [] then 0 else MarkCount(marked[1..]) + if marked[0] then 1 else 0
  }

  lemma {:induction false} UnmarkCount(marked: seq<bool>, k: nat)
    requires k < |marked| && marked[k]
    ensures MarkCount(marked[k := false]) == MarkCount(marked) - 1
  {
    if k == 0 {
      assert marked[0 := false][1..] == marked[1..];
    } else {
      assert marked[k := false][1..] == marked[1..][k - 1 := false];
      UnmarkCount(marked[1..], k - 1);
    }
  }

  /** Hands packets to layer 5 while the next expected one is in its slot. */
  function Drain(w: nat, r: Receiver): (d: Receipt)
    requires r.Shaped(w)
    ensures d.rcv.Shaped(w) && d.acks == []
    decreases MarkCount(r.marked)
  {
    if Holds(w, r, r.expected) then
      ModBelow(r.expected, w);
      var k := r.expected % w;
      UnmarkCount(r.marked, k);
      var rest := Drain(w, PassUp(w, r));
      Receipt(rest.rcv, [], [r.slots[k].payload] + rest.delivered)
    else Receipt(r, [], [])
  }

  /** A packet that passes the checksum and lies in the window has a slot: the remainder of its number, which keeps the
      sign, is not negative.  Of the negative numbers in a window that is so for -w only, with slot 0. */
  predicate Addressable(w: nat, r: Receiver, p: Packet) {
    Accepts(p) && InRange(w, r, p.seqnum) ==> 0 <= p.seqnum || p.seqnum + w == 0
  }

  function OnData(w: nat, r: Receiver, p: Packet): (d: Receipt)
    requires r.Shaped(w) && Addressable(w, r, p)
    ensures d.rcv.Shaped(w)
  {
    if !Accepts(p) then Receipt(r, [], [])
    else if InRange(w, r, p.seqnum) then
      if Holds(w, r, p.seqnum) then Drain(w, r)
      else
        var d := Drain(w, Store(w, r, p));
        d.(acks := [AckPacket(p.seqnum)])
    else Receipt(r, [AckPacket(p.seqnum)], [])
  }

  ghost predicate Unmarked(r: Receiver) {
    forall i :: 0 <= i < |r.marked| ==> !r.marked[i]
  }

  /** With nothing buffered, the expected packet is acknowledged and handed up at once. */
  lemma InOrderReceipt(w: nat, r: Receiver, p: Packet)
    requires r.Shaped(w) && Unmarked(r) && Accepts(p) && p.seqnum == r.expected
    ensures var d := OnData(w, r, p);
            d.acks == [AckPacket(p.seqnum)] && d.delivered == [p.payload]
            && d.rcv.expected == r.expected + 1 && Unmarked(d.rcv)
  {
    ModBelow(p.seqnum, w);
    ModBelow(p.seqnum + 1, w);
    var r1 := Store(w, r, p);
    assert Holds(w, r1, p.seqnum);
    var r2 := PassUp(w, r1);
    assert Unmarked(r2);
    assert Drain(w, r2) == Receipt(r2, [], []);
    assert Drain(w, r1).rcv == r2;
  }

  /** With nothing buffered, a copy of the packet delivered last is stored again and acknowledged again. */
  lemma RepeatedReceipt(w: nat, r: Receiver, p: Packet)
    requires r.Shaped(w) && Unmarked(r) && Accepts(p) && 0 <= p.seqnum == r.expected - 1
    ensures OnData(w, r, p) == Receipt(Store(w, r, p), [AckPacket(p.seqnum)], [])
    ensures Holds(w, Store(w, r, p), p.seqnum)
  {
    ModBelow(p.seqnum, w);
    ModBelow(r.expected, w);
    assert !Holds(w, Store(w, r, p), r.expected);
  }

  function Acknowledge(acks: seq<Packet>, origin: int): seq<Action> {
    seq(|acks|, i requires 0 <= i < |acks| => Send(acks[i], origin))
  }

  class ReceiverNode {
    const windowSize: nat
    var expectedSeq: nat
    const recvWindow: array<Packet>
    const recvMarked: array<bool>
    var packetReceived: nat

    ghost predicate Valid()
      reads this
    {
      1 <= windowSize <= SLOTS && recvWindow.Length == SLOTS && recvMarked.Length == SLOTS
    }

    ghost function State(): Receiver
      reads this, recvWindow, recvMarked
    {
      Receiver(expectedSeq, recvWindow[..], recvMarked[..])
    }

    ghost predicate Apart(net: Network)
      reads net
    {
      this !in net.Repr && recvWindow !in net.Repr && recvMarked !in net.Repr
    }

    constructor (windowSize: nat)
      requires 1 <= windowSize <= SLOTS
      ensures Valid() && this.windowSize == windowSize && IsInitial(State()) && packetReceived == 0
      ensures fresh(recvWindow) && fresh(recvMarked)
    {
      this.windowSize := windowSize;
      expectedSeq, packetReceived := 0, 0;
      recvWindow := new Packet[SLOTS](_ => Packet(0, 0, 0, ZeroPayload));
      recvMarked := new bool[SLOTS](_ => false);
    }

    /** A packet from layer 3.  The result lists what was handed to layer 5, in order. */
    method BInput(net: Network, packet: Packet, origin: int) returns (delivered: seq<Payload>)
      requires Valid() && net.Valid() && Apart(net) && Addressable(windowSize, State(), packet)
      modifies this, recvWindow, recvMarked, net.Repr
      ensures Valid() && net.Valid() && fresh(net.Repr - old(net.Repr))
      ensures var d := OnData(windowSize, old(State()), packet);
              State() == d.rcv && delivered == d.delivered
      ensures var d := OnData(windowSize, old(State()), packet);
              net.State() == PerformAll(old(net.State()), net.pattern, SideB, Acknowledge(d.acks, origin))
      ensures packetReceived == old(packetReceived) + |delivered|
    {
      hide Drain, Store, Accepts, AckPacket, MarkCount;
      delivered := [];
      var corrupted := CheckCorrupted(packet);
      if corrupted {
        return;
      }
      if (expectedSeq <= packet.seqnum && packet.seqnum < expectedSeq + windowSize)
         || (packet.seqnum < expectedSeq && packet.seqnum >= expectedSeq - windowSize) {
        ModBelow(packet.seqnum, windowSize);
        var slot := packet.seqnum % windowSize;
        ghost var n := net.State();
        if !recvMarked[slot] || recvWindow[slot].seqnum != packet.seqnum {
          StoreAndAck(net, packet, slot, origin);
          n := net.State();
        }
        delivered := DrainWindow();
        assert net.State() == n;
      } else {
        SendAck(net, packet.seqnum, origin);
      }
    }

    method SendAck(net: Network, seqnum: int, origin: int)
      requires Valid() && net.Valid() && Apart(net)
      modifies net.Repr
      ensures Valid() && net.Valid() && Apart(net) && fresh(net.Repr - old(net.Repr))
      ensures State() == old(State())
      ensures net.State()
           == PerformAll(old(net.State()), net.pattern, SideB, Acknowledge([AckPacket(seqnum)], origin))
    {
      var ackPkt := ComputeChecksum(Packet(NOTUSED, seqnum, 0, ZeroPayload));
      assert Acknowledge([ackPkt], origin) == [Send(ackPkt, origin)];
      PerformOne(net.State(), net.pattern, SideB, Send(ackPkt, origin));
      net.ToLayer3(SideB, ackPkt, origin);
    }

    method StoreAndAck(net: Network, packet: Packet, slot: nat, origin: int)
      requires Valid() && net.Valid() && Apart(net)
      requires slot == packet.seqnum % windowSize && slot < SLOTS
      modifies recvWindow, recvMarked, net.Repr
      ensures Valid() && net.Valid() && Apart(net) && fresh(net.Repr - old(net.Repr))
      ensures State() == Store(windowSize, old(State()), packet)
      ensures net.State()
           == PerformAll(old(net.State()), net.pattern, SideB, Acknowledge([AckPacket(packet.seqnum)], origin))
    {
      ghost var n := net.State();
      recvWindow[slot] := packet;
      recvMarked[slot] := true;
      assert State() == Store(windowSize, old(State()), packet);
      assert net.State() == n;
      SendAck(net, packet.seqnum, origin);
    }

    method DrainWindow() returns (delivered: seq<Payload>)
      requires Valid()
      modifies this, recvMarked
      ensures Valid()
      ensures var d := Drain(windowSize, old(State()));
              State() == d.rcv && delivered == d.delivered
      ensures packetReceived == old(packetReceived) + |delivered|
    {
      hide Store, MarkCount;
      delivered := [];
      ModBelow(expectedSeq, windowSize);
      while recvMarked[expectedSeq % windowSize] && recvWindow[expectedSeq % windowSize].seqnum == expectedSeq
        invariant Valid() && 0 <= expectedSeq % windowSize < SLOTS
        invariant Drain(windowSize, State()).rcv == Drain(windowSize, old(State())).rcv
        invariant delivered + Drain(windowSize, State()).delivered == Drain(windowSize, old(State())).delivered
        invariant packetReceived == old(packetReceived) + |delivered|
        decreases MarkCount(recvMarked[..])
      {
        var payload := DeliverExpected();
        delivered := delivered + [payload];
        ModBelow(expectedSeq, windowSize);
      }
    }

    method DeliverExpected() returns (payload: Payload)
      requires Valid() && Holds(windowSize, State(), expectedSeq)
      modifies this, recvMarked
      ensures Valid() && MarkCount(recvMarked[..]) < old(MarkCount(recvMarked[..]))
      ensures Drain(windowSize, old(State())).rcv == Drain(windowSize, State()).rcv
      ensures Drain(windowSize, old(State())).delivered == [payload] + Drain(windowSize, State()).delivered
      ensures packetReceived == old(packetReceived) + 1
    {
      UnmarkCount(recvMarked[..], expectedSeq % windowSize);
      var slot := expectedSeq % windowSize;
      payload := recvWindow[slot].payload;
      recvMarked[slot] := false;
      packetReceived := packetReceived + 1;
      expectedSeq := expectedSeq + 1;
      assert State() == PassUp(windowSize, old(State()));
    }
  }
}
