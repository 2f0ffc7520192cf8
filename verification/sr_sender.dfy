/** The sending side of Selective Repeat: what each handler does to the window and the overflow
    queue, and the ring buffers and counters that implement it. */
module SrSender {
  import opened Rings
  import opened Packets
  import opened EventLists
  import opened Networks

  const MAXBUFSIZE := 5000

  // ---------- the handlers on sequences ----------

  /** `window` holds the packets base..next-1.  A packet's acknum field doubles as its acked flag. */
  datatype Sender = Sender(
    base: nat, next: nat, window: seq<Packet>, queue: seq<Payload>,
    sent: nat, resent: nat, timeouts: nat)

  datatype Effect = Effect(snd: Sender, acts: seq<Action>)

  const InitialSender := Sender(0, 0, [], [], 0, 0, 0)

  function TransmitNew(s: Sender, m: Payload): Effect {
    var p := DataPacket(s.next, m);
    Effect(s.(next := s.next + 1, window := s.window + [p], sent := s.sent + 1),
           [Send(p, s.next), StartTimer(s.next)])
  }

  /** True when a submission finds the window and the overflow queue full; the source then exits. */
  predicate Overflows(w: nat, s: Sender) {
    s.base + w <= s.next && MAXBUFSIZE - 1 <= |s.queue|
  }

  function OnSubmit(w: nat, s: Sender, m: Payload): Effect {
    if s.next < s.base + w then TransmitNew(s, m)
    else if Overflows(w, s) then Effect(s, [])
    else Effect(s.(queue := s.queue + [m]), [])
  }

  /** The window position of the unacknowledged packet `n`, or the window's length. */
  function FindUnacked(window: seq<Packet>, n: int): (k: nat)
    ensures k <= |window|
    ensures forall i :: 0 <= i < k ==> !(window[i].seqnum == n && window[i].acknum == 0)
    ensures k < |window| ==> window[k].seqnum == n && window[k].acknum == 0
  {
    if window == [] || (window[0].seqnum == n && window[0].acknum == 0) then 0
    else 1 + FindUnacked(window[1..], n)
  }

  lemma {:induction false} FindUnackedUnique(window: seq<Packet>, n: int, k: nat)
    requires k <= |window|
    requires forall i :: 0 <= i < k ==> !(window[i].seqnum == n && window[i].acknum == 0)
    requires k < |window| ==> window[k].seqnum == n && window[k].acknum == 0
    ensures k == FindUnacked(window, n)
  {
    if k > 0 {
      assert !(window[0].seqnum == n && window[0].acknum == 0);
      FindUnackedUnique(window[1..], n, k - 1);
    }
  }

  /** Drops the acknowledged packets at the front of the window. */
  function Slide(s: Sender): Sender
    decreases |s.window|
  {
    if s.window != [] && s.window[0].acknum == 1 && s.window[0].seqnum == s.base
    then Slide(s.(base := s.base + 1, window := s.window[1..]))
    else s
  }

  /** Sends queued messages while the window has room. */
  function Refill(w: nat, s: Sender): Effect
    decreases |s.queue|
  {
    if s.queue != [] && s.next < s.base + w then
      var first := TransmitNew(s.(queue := s.queue[1..]), s.queue[0]);
      var rest := Refill(w, first.snd);
      Effect(rest.snd, first.acts + rest.acts)
    else Effect(s, [])
  }

  function MarkAcked(s: Sender, k: nat): Sender
    requires k < |s.window|
  {
    s.(window := s.window[k := s.window[k].(acknum := 1)])
  }

  function OnAck(w: nat, s: Sender, p: Packet): Effect {
    if !Accepts(p) || p.acknum < s.base || s.next <= p.acknum then Effect(s, [])
    else
      var k := FindUnacked(s.window, p.acknum);
      if k == |s.window| then Effect(s, [])
      else
        var r := Refill(w, Slide(MarkAcked(s, k)));
        Effect(r.snd, [StopTimer(p.acknum)] + r.acts)
  }

  function OnTimeOut(s: Sender, n: int): Effect {
    var t := s.(timeouts := s.timeouts + 1);
    var k := FindUnacked(s.window, n);
    if k == |s.window| then Effect(t, [])
    else Effect(t.(sent := t.sent + 1, resent := t.resent + 1), [Send(s.window[k], n), StartTimer(n)])
  }

  // ---------- the ring buffers ----------

  class SenderNode {
    const windowSize: nat
    var base: nat
    var nextseqnum: nat
    const winbuf: array<Packet>
    var winfront: nat
    var winrear: nat
    var pktnum: nat
    const buffer: array<Payload>
    var buffront: nat
    var bufrear: nat
    var msgNum: nat
    var packetSent: nat
    var packetResent: nat
    var packetTimeOut: nat

    ghost predicate Valid()
      reads this
    {
      RingsValid() && nextseqnum == base + pktnum
    }

    ghost predicate RingsValid()
      reads this
    {
      && 0 < windowSize && winbuf.Length == windowSize && buffer.Length == MAXBUFSIZE
      && winfront < windowSize && pktnum <= windowSize && winrear == Wrap(winfront + pktnum, windowSize)
      && buffront < MAXBUFSIZE && msgNum < MAXBUFSIZE && bufrear == Wrap(buffront + msgNum, MAXBUFSIZE)
    }

    ghost function State(): Sender
      requires RingsValid()
      reads this, winbuf, buffer
    {
      Sender(base, nextseqnum, Segment(winbuf[..], winfront, pktnum), Segment(buffer[..], buffront, msgNum),
             packetSent, packetResent, packetTimeOut)
    }

    /** The network's objects are not the sender's. */
    ghost predicate Apart(net: Network)
      reads net
    {
      this !in net.Repr && winbuf !in net.Repr && buffer !in net.Repr
    }

    constructor (windowSize: nat)
      requires 0 < windowSize
      ensures Valid() && this.windowSize == windowSize && State() == InitialSender
      ensures fresh(winbuf) && fresh(buffer)
    {
      this.windowSize := windowSize;
      winbuf := new Packet[windowSize](_ => Packet(0, 0, 0, ZeroPayload));
      buffer := new Payload[MAXBUFSIZE](_ => ZeroPayload);
      base, nextseqnum := 0, 0;
      winfront, winrear, pktnum := 0, 0, 0;
      buffront, bufrear, msgNum := 0, 0, 0;
      packetSent, packetResent, packetTimeOut := 0, 0, 0;
    }

    /** Stores a packet behind the window, with its acked flag cleared. */
    method SaveToWindow(packet: Packet)
      requires RingsValid() && pktnum < windowSize
      modifies this`winrear, this`pktnum, winbuf
      ensures RingsValid() && State() == old(State()).(window := old(State()).window + [packet.(acknum := 0)])
      ensures pktnum == old(pktnum) + 1
    {
      SegmentPush(winbuf[..], winfront, pktnum, packet.(acknum := 0));
      winbuf[winrear] := packet;
      winbuf[winrear] := winbuf[winrear].(acknum := 0);
      ModIsWrap(winrear + 1, windowSize);
      winrear := (winrear + 1) % windowSize;
      pktnum := pktnum + 1;
    }

    method SaveToBuffer(message: Payload)
      requires RingsValid() && msgNum < MAXBUFSIZE - 1
      modifies this`bufrear, this`msgNum, buffer
      ensures RingsValid() && State() == old(State()).(queue := old(State()).queue + [message])
    {
      SegmentPush(buffer[..], buffront, msgNum, message);
      buffer[bufrear] := message;
      bufrear := (bufrear + 1) % MAXBUFSIZE;
      msgNum := msgNum + 1;
    }

    method TakeFromBuffer() returns (message: Payload)
      requires RingsValid() && msgNum > 0
      modifies this`buffront, this`msgNum
      ensures RingsValid() && msgNum == old(msgNum) - 1
      ensures message == old(State()).queue[0]
      ensures State() == old(State()).(queue := old(State()).queue[1..])
    {
      SegmentPop(buffer[..], buffront, msgNum);
      message := buffer[buffront];
      buffront := (buffront + 1) % MAXBUFSIZE;
      msgNum := msgNum - 1;
    }

    method SendFirst(net: Network, packet: Packet)
      requires Valid() && net.Valid() && Apart(net)
      modifies this`packetSent, net.Repr
      ensures Valid() && net.Valid() && fresh(net.Repr - old(net.Repr)) && Apart(net)
      ensures State() == old(State()).(sent := old(State()).sent + 1)
      ensures net.State() == Perform(old(net.State()), net.pattern, SideA, Send(packet, nextseqnum))
    {
      net.ToLayer3(SideA, packet, nextseqnum);
      packetSent := packetSent + 1;
    }

    /** Builds, sends, stores and times the packet for a message; both A_output and A_input do this. */
    method SendNew(net: Network, message: Payload)
      requires Valid() && net.Valid() && Apart(net) && pktnum < windowSize
      modifies this`winrear, this`pktnum, this`packetSent, this`nextseqnum, winbuf, net.Repr
      ensures Valid() && net.Valid() && fresh(net.Repr - old(net.Repr))
      ensures State() == TransmitNew(old(State()), message).snd
      ensures net.State()
           == PerformAll(old(net.State()), net.pattern, SideA, TransmitNew(old(State()), message).acts)
    {
      hide Perform, PerformAll, Segment;
      var packet := ComputeChecksum(Packet(nextseqnum, NOTUSED, 0, message));
      assert packet == DataPacket(nextseqnum, message) && packet.acknum == 0;
      PerformTwo(net.State(), net.pattern, SideA, Send(packet, nextseqnum), StartTimer(nextseqnum));
      SendFirst(net, packet);
      SaveToWindow(packet);
      TimeLast(net);
    }

    method TimeLast(net: Network)
      requires RingsValid() && net.Valid() && Apart(net)
      modifies this`nextseqnum, net.Repr
      ensures RingsValid() && net.Valid() && fresh(net.Repr - old(net.Repr))
      ensures State() == old(State()).(next := old(State()).next + 1)
      ensures net.State() == Perform(old(net.State()), net.pattern, SideA, StartTimer(old(nextseqnum)))
    {
      net.StartTimerR(SideA, nextseqnum);
      nextseqnum := nextseqnum + 1;
    }

    /** A message from layer 5; false where the source reports a full buffer and exits. */
    method AOutput(net: Network, message: Payload) returns (ok: bool)
      requires Valid() && net.Valid() && Apart(net)
      modifies this, winbuf, buffer, net.Repr
      ensures Valid() && net.Valid() && fresh(net.Repr - old(net.Repr))
      ensures ok == !Overflows(windowSize, old(State()))
      ensures State() == OnSubmit(windowSize, old(State()), message).snd
      ensures net.State()
           == PerformAll(old(net.State()), net.pattern, SideA, OnSubmit(windowSize, old(State()), message).acts)
    {
      ok := true;
      if nextseqnum < base + windowSize {
        SendNew(net, message);
      } else if msgNum < MAXBUFSIZE - 1 {
        SaveToBuffer(message);
      } else {
        ok := false;
      }
    }

    /** A packet from layer 3: a selective acknowledgment. */
    method AInput(net: Network, packet: Packet)
      requires Valid() && net.Valid() && Apart(net)
      modifies this, winbuf, buffer, net.Repr
      ensures Valid() && net.Valid() && fresh(net.Repr - old(net.Repr))
      ensures State() == OnAck(windowSize, old(State()), packet).snd
      ensures net.State()
           == PerformAll(old(net.State()), net.pattern, SideA, OnAck(windowSize, old(State()), packet).acts)
    {
      hide Accepts, Refill, Slide, Segment, AckPacket;
      var corrupted := CheckCorrupted(packet);
      if corrupted {
        return;
      }
      var acknum := packet.acknum;
      if acknum < base || nextseqnum <= acknum {
        return;
      }
      var foundIndex := FindSlot(acknum);
      if foundIndex < 0 {
        return;
      }
      ghost var k := FindUnacked(State().window, acknum);
      AcceptAck(net, acknum, foundIndex, k);
    }

    /** The accepting part of A_input: cancel the timer, flag the slot, slide, refill. */
    method AcceptAck(net: Network, acknum: int, foundIndex: nat, ghost k: nat)
      requires Valid() && net.Valid() && Apart(net)
      requires k < pktnum && foundIndex == Wrap(winfront + k, windowSize)
      modifies this, winbuf, net.Repr
      ensures Valid() && net.Valid() && fresh(net.Repr - old(net.Repr))
      ensures State() == Refill(windowSize, Slide(MarkAcked(old(State()), k))).snd
      ensures net.State()
           == PerformAll(old(net.State()), net.pattern, SideA,
                         [StopTimer(acknum)] + Refill(windowSize, Slide(MarkAcked(old(State()), k))).acts)
    {
      ghost var n := net.State();
      ghost var acts := Refill(windowSize, Slide(MarkAcked(State(), k))).acts;
      PerformAppend(n, net.pattern, SideA, [StopTimer(acknum)], acts);
      PerformOne(n, net.pattern, SideA, StopTimer(acknum));
      CancelTimer(net, acknum);
      Mark(foundIndex, k);
      SlideWindow();
      assert net.State() == Perform(n, net.pattern, SideA, StopTimer(acknum));
      SendQueued(net);
    }

    method CancelTimer(net: Network, acknum: int)
      requires Valid() && net.Valid() && Apart(net)
      modifies net.Repr
      ensures Valid() && net.Valid() && fresh(net.Repr - old(net.Repr)) && Apart(net)
      ensures State() == old(State())
      ensures net.State() == Perform(old(net.State()), net.pattern, SideA, StopTimer(acknum))
    {
      var _ := net.StopTimerR(SideA, acknum);
    }

    method Mark(foundIndex: nat, ghost k: nat)
      requires Valid() && k < pktnum && foundIndex == Wrap(winfront + k, windowSize)
      modifies winbuf
      ensures Valid() && State() == MarkAcked(old(State()), k)
    {
      SegmentSet(winbuf[..], winfront, pktnum, k, State().window[k].(acknum := 1));
      winbuf[foundIndex] := winbuf[foundIndex].(acknum := 1);
    }

    /** The two handlers' scan of the window; -1 when no unacknowledged packet has that number. */
    method FindSlot(seqno: int) returns (foundIndex: int)
      requires Valid()
      ensures var k := FindUnacked(State().window, seqno);
              foundIndex == if k == pktnum then -1 else Wrap(winfront + k, windowSize)
    {
      var i := 0;
      while i < pktnum
        invariant 0 <= i <= pktnum
        invariant forall j :: 0 <= j < i ==> !(State().window[j].seqnum == seqno && State().window[j].acknum == 0)
      {
        ModIsWrap(winfront + i, windowSize);
        var idx := (winfront + i) % windowSize;
        assert winbuf[idx] == State().window[i];
        if winbuf[idx].seqnum == seqno && winbuf[idx].acknum == 0 {
          FindUnackedUnique(State().window, seqno, i);
          return idx;
        }
        i := i + 1;
      }
      FindUnackedUnique(State().window, seqno, pktnum);
      return -1;
    }

    method SlideWindow()
      requires Valid()
      modifies this
      ensures Valid() && State() == Slide(old(State()))
    {
      while pktnum > 0 && winbuf[winfront].acknum == 1 && winbuf[winfront].seqnum == base
        invariant Valid()
        invariant Slide(State()) == Slide(old(State()))
        decreases pktnum
      {
        SlideOne();
      }
      assert pktnum > 0 ==> State().window[0] == winbuf[winfront];
    }

    method SlideOne()
      requires Valid() && pktnum > 0 && winbuf[winfront].acknum == 1 && winbuf[winfront].seqnum == base
      modifies this
      ensures Valid() && pktnum == old(pktnum) - 1
      ensures Slide(State()) == Slide(old(State()))
    {
      ghost var s := State();
      SegmentPop(winbuf[..], winfront, pktnum);
      ModIsWrap(winfront + 1, windowSize);
      base := base + 1;
      winfront := (winfront + 1) % windowSize;
      pktnum := pktnum - 1;
      assert State() == s.(base := s.base + 1, window := s.window[1..]);
    }

    method SendQueued(net: Network)
      requires Valid() && net.Valid() && Apart(net)
      modifies this, winbuf, net.Repr
      ensures Valid() && net.Valid() && fresh(net.Repr - old(net.Repr))
      ensures State() == Refill(windowSize, old(State())).snd
      ensures net.State()
           == PerformAll(old(net.State()), net.pattern, SideA, Refill(windowSize, old(State())).acts)
    {
      ghost var all := Refill(windowSize, State());
      while msgNum > 0 && nextseqnum < base + windowSize
        invariant Valid() && net.Valid() && Apart(net) && fresh(net.Repr - old(net.Repr))
        invariant Refill(windowSize, State()).snd == all.snd
        invariant PerformAll(net.State(), net.pattern, SideA, Refill(windowSize, State()).acts)
               == PerformAll(old(net.State()), net.pattern, SideA, all.acts)
        decreases msgNum
      {
        SendFirstQueued(net);
      }
    }

    /** One round of the refill loop. */
    method SendFirstQueued(net: Network)
      requires Valid() && net.Valid() && Apart(net)
      requires msgNum > 0 && nextseqnum < base + windowSize
      modifies this, winbuf, net.Repr
      ensures Valid() && net.Valid() && fresh(net.Repr - old(net.Repr)) && Apart(net)
      ensures msgNum == old(msgNum) - 1
      ensures var s := old(State());
              var rest := Refill(windowSize, State());
              Refill(windowSize, s).snd == rest.snd
              && PerformAll(net.State(), net.pattern, SideA, rest.acts)
              == PerformAll(old(net.State()), net.pattern, SideA, Refill(windowSize, s).acts)
    {
      ghost var s, n := State(), net.State();
      ghost var first := TransmitNew(s.(queue := s.queue[1..]), s.queue[0]);
      PerformAppend(n, net.pattern, SideA, first.acts, Refill(windowSize, first.snd).acts);
      var message := TakeFromBuffer();
      assert net.State() == n;
      SendNew(net, message);
      assert State() == first.snd;
    }

    /** A packet's timer went off. */
    method APacketTimeInterrupt(net: Network, pktSeq: int)
      requires Valid() && net.Valid() && Apart(net)
      modifies this, net.Repr
      ensures Valid() && net.Valid() && fresh(net.Repr - old(net.Repr))
      ensures State() == OnTimeOut(old(State()), pktSeq).snd
      ensures net.State()
           == PerformAll(old(net.State()), net.pattern, SideA, OnTimeOut(old(State()), pktSeq).acts)
    {
      hide Perform, Insert, Accepts;
      ghost var r, n0 := OnTimeOut(State(), pktSeq), net.State();
      packetTimeOut := packetTimeOut + 1;
      assert State() == old(State()).(timeouts := old(State()).timeouts + 1);
      assert net.State() == n0;
      var idx := FindSlot(pktSeq);
      if idx >= 0 {
        var packet := winbuf[idx];
        assert r.acts == [Send(packet, pktSeq), StartTimer(pktSeq)];
        Resend(net, packet, pktSeq);
      }
    }

    method Resend(net: Network, packet: Packet, pktSeq: int)
      requires Valid() && net.Valid() && Apart(net)
      modifies this`packetSent, this`packetResent, net.Repr
      ensures Valid() && net.Valid() && fresh(net.Repr - old(net.Repr))
      ensures State() == old(State()).(sent := old(State()).sent + 1, resent := old(State()).resent + 1)
      ensures net.State()
           == PerformAll(old(net.State()), net.pattern, SideA, [Send(packet, pktSeq), StartTimer(pktSeq)])
    {
      PerformTwo(net.State(), net.pattern, SideA, Send(packet, pktSeq), StartTimer(pktSeq));
      net.ToLayer3(SideA, packet, pktSeq);
      packetSent := packetSent + 1;
      packetResent := packetResent + 1;
      net.StartTimerR(SideA, pktSeq);
    }
  }
}
