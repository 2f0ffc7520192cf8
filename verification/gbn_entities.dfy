/** The two entities of Go-Back-N: what each handler does, and the ring buffers that implement the sender.
    The window ring is kept in the specification too, because its front pointer does not always follow the
    window. */
module GbnEntities {
  import opened Rings
  import opened Packets
  import opened EventLists
  import opened Networks

  const MAXBUFSIZE := 5000

  datatype Sender = Sender(
    base: nat, next: nat, winbuf: seq<Packet>, winfront: nat, winrear: nat, pktnum: int,
    queue: seq<Payload>, sent: nat, resent: nat, timeouts: nat)
  {
    predicate Shaped() {
      winbuf != [] && winfront < |winbuf| && winrear < |winbuf| && base <= next
    }
  }

  datatype Effect = Effect(snd: Sender, acts: seq<Action>)

  /** The timer test comes before `next` is advanced, so a timer starts with the second packet of a window, not
      with the first. */
  function SendActs(s: Sender, p: Packet): seq<Action> {
    if s.base == s.next - 1 then [Send(p, s.next), StartTimer(s.base)] else [Send(p, s.next)]
  }

  /** Sends a message as packet `next`. */
  function Transmit(s: Sender, m: Payload): Effect
    requires s.Shaped()
  {
    var p := DataPacket(s.next, m);
    Effect(s.(next := s.next + 1, winbuf := s.winbuf[s.winrear := p], winrear := Wrap(s.winrear + 1, |s.winbuf|),
              pktnum := s.pktnum + 1, sent := s.sent + 1),
           SendActs(s, p))
  }

  /** The overflow buffer is written without a check: with all its slots in use, a message also replaces the one
      that waits in the same slot. */
  function Enqueue(queue: seq<Payload>, m: Payload): (q: seq<Payload>)
    ensures |q| == |queue| + 1
  {
    if |queue| < MAXBUFSIZE then queue + [m]
    else
      seq(|queue| + 1, i requires 0 <= i <= |queue| =>
        if i == |queue| || (|queue| - i) % MAXBUFSIZE == 0 then m else queue[i])
  }

  function OnSubmit(s: Sender, m: Payload): Effect
    requires s.Shaped()
  {
    if s.next < s.base + |s.winbuf| then Transmit(s, m) else Effect(s.(queue := Enqueue(s.queue, m)), [])
  }

  /** The ring distance from front to rear; a full ring looks empty. */
  function Span(s: Sender): nat
    requires s.Shaped()
  {
    if s.winfront <= s.winrear then s.winrear - s.winfront else s.winrear + |s.winbuf| - s.winfront
  }

  /** Advances the front past packets below `base`, as far as the rear pointer. */
  function PopAcked(s: Sender): (t: Sender)
    requires s.Shaped()
    ensures t == s.(winfront := t.winfront, pktnum := t.pktnum) && t.Shaped()
    decreases Span(s)
  {
    if s.winfront != s.winrear && s.winbuf[s.winfront].seqnum < s.base
    then PopAcked(s.(winfront := Wrap(s.winfront + 1, |s.winbuf|), pktnum := s.pktnum - 1))
    else s
  }

  function Refill(s: Sender): Effect
    requires s.Shaped()
    decreases |s.queue|
  {
    if s.queue != [] && s.next < s.base + |s.winbuf| then
      var first := Transmit(s.(queue := s.queue[1..]), s.queue[0]);
      var rest := Refill(first.snd);
      Effect(rest.snd, first.acts + rest.acts)
    else Effect(s, [])
  }

  /** The timer of the old base is stopped; the new base gets one when packets remain in flight. */
  function Restart(base: nat, t: Sender): seq<Action> {
    if t.base < t.next then [StopTimer(base), StartTimer(t.base)] else [StopTimer(base)]
  }

  function Accepted(s: Sender, acknum: nat): seq<Action>
    requires s.Shaped() && acknum < s.next
  {
    var t := PopAcked(s.(base := acknum + 1));
    Restart(s.base, t) + Refill(t).acts
  }

  /** A cumulative acknowledgment.  The number 0 doubles as NOTUSED, so an ACK of packet 0 is dropped. */
  function OnAck(s: Sender, p: Packet): Effect
    requires s.Shaped()
  {
    if !Accepts(p) || p.acknum == NOTUSED || p.acknum < s.base || s.next <= p.acknum then Effect(s, [])
    else
      var t := PopAcked(s.(base := p.acknum + 1));
      var r := Refill(t);
      Effect(r.snd, Accepted(s, p.acknum))
  }

  /** The packet that the i-th round of the timeout loop resends. */
  function Resent(s: Sender, i: nat): Packet
    requires s.Shaped()
  {
    assert 0 <= (s.winfront + i) % |s.winbuf| < |s.winbuf|;
    s.winbuf[(s.winfront + i) % |s.winbuf|]
  }

  function ResendActs(s: Sender, k: nat): (acts: seq<Action>)
    requires s.Shaped()
    ensures |acts| == k
  {
    if k == 0 then [] else ResendActs(s, k - 1) + [Send(Resent(s, k - 1), Resent(s, k - 1).seqnum)]
  }

  function OnTimeOut(s: Sender, n: int): Effect
    requires s.Shaped()
  {
    if n != s.base then Effect(s, [])
    else
      var k := s.next - s.base;
      Effect(s.(sent := s.sent + k, resent := s.resent + k, timeouts := s.timeouts + 1),
             ResendActs(s, k) + [StartTimer(s.base)])
  }

  /** The packets that a handler sends, in order. */
  function PacketsSent(acts: seq<Action>): seq<Packet> {
    if acts == [] then []
    else (if acts[0].Send? then [acts[0].pkt] else []) + PacketsSent(acts[1..])
  }

  lemma {:induction false} ResendAt(s: Sender, k: nat, i: nat)
    requires s.Shaped() && i < k
    ensures ResendActs(s, k)[i] == Send(s.winbuf[(s.winfront + i) % |s.winbuf|], s.winbuf[(s.winfront + i) % |s.winbuf|].seqnum)
  {
    if i < k - 1 {
      ResendAt(s, k - 1, i);
    }
  }

  /** What a timer makes A do: nothing, unless it is for `base`.  Then as many packets go out as are in flight, the i-th
      from the i-th slot behind the front pointer, and the timer of `base` starts anew behind them. */
  lemma TimeOutActs(s: Sender, n: int, i: nat)
    requires s.Shaped()
    ensures n != s.base ==> OnTimeOut(s, n) == Effect(s, [])
    ensures n == s.base ==>
              var acts, k := OnTimeOut(s, n).acts, s.next - s.base;
              && OnTimeOut(s, n).snd == s.(sent := s.sent + k, resent := s.resent + k, timeouts := s.timeouts + 1)
              && |acts| == k + 1 && acts[k] == StartTimer(s.base)
              && (i < k ==> var p := s.winbuf[(s.winfront + i) % |s.winbuf|]; acts[i] == Send(p, p.seqnum))
  {
    if n == s.base && i < s.next - s.base {
      ResendAt(s, s.next - s.base, i);
    }
  }

  lemma {:induction false} SentAll(acts: seq<Action>, k: nat, i: nat)
    requires |acts| == k + 1 && acts[k].StartTimer? && forall j :: 0 <= j < k ==> acts[j].Send?
    ensures |PacketsSent(acts)| == k && (i < k ==> PacketsSent(acts)[i] == acts[i].pkt)
    decreases k
  {
    if k == 0 {
      assert acts[1..] == [];
    } else {
      SentAll(acts[1..], k - 1, if i == 0 then 0 else i - 1);
    }
  }

  /** The packets that a timeout of `base` sends. */
  lemma TimeOutSends(s: Sender, i: nat)
    requires s.Shaped()
    ensures var sent := PacketsSent(OnTimeOut(s, s.base).acts);
            |sent| == s.next - s.base && (i < |sent| ==> sent[i] == s.winbuf[(s.winfront + i) % |s.winbuf|])
  {
    var acts, k := OnTimeOut(s, s.base).acts, s.next - s.base;
    forall j | 0 <= j < k ensures acts[j].Send? {
      TimeOutActs(s, s.base, j);
    }
    TimeOutActs(s, s.base, i);
    SentAll(acts, k, i);
  }

  datatype Receipt = Receipt(expected: nat, delivered: seq<Payload>, acks: seq<Packet>)

  function OnData(expected: nat, p: Packet): Receipt {
    if !Accepts(p) then Receipt(expected, [], [])
    else if p.seqnum == expected then Receipt(expected + 1, [p.payload], [AckPacket(expected)])
    else Receipt(expected, [], [AckPacket(expected - 1)])
  }

  function AckActs(acks: seq<Packet>): seq<Action> {
    seq(|acks|, i requires 0 <= i < |acks| => Send(acks[i], acks[i].acknum))
  }

  lemma EnqueueCycle(buffer: seq<Payload>, front: nat, n: nat, m: Payload)
    requires |buffer| == MAXBUFSIZE
    ensures Cycle(buffer[Slot(front + n, MAXBUFSIZE) := m], front, n + 1) == Enqueue(Cycle(buffer, front, n), m)
  {
    var s, t := Cycle(buffer[Slot(front + n, MAXBUFSIZE) := m], front, n + 1), Enqueue(Cycle(buffer, front, n), m);
    forall i | 0 <= i <= n ensures s[i] == t[i] {
      CyclePush(buffer, front, n, m, i);
    }
  }

  // ---------- the program's variables ----------

  class SenderNode {
    var base: nat
    var nextseqnum: nat
    const winbuf: array<Packet>
    var winfront: nat
    var winrear: nat
    var pktnum: int
    const buffer: array<Payload>
    var buffront: nat
    var bufrear: nat
    var msgNum: nat
    var packetSent: nat
    var packetResent: nat
    var packetTimeOut: nat

    ghost predicate Valid()
      reads this
    {
      && 0 < winbuf.Length && buffer.Length == MAXBUFSIZE
      && winfront < winbuf.Length && winrear < winbuf.Length && base <= nextseqnum
      && buffront < MAXBUFSIZE && bufrear == Slot(buffront + msgNum, MAXBUFSIZE)
    }

    ghost function State(): (s: Sender)
      requires Valid()
      reads this, winbuf, buffer
      ensures s.Shaped()
    {
      Sender(base, nextseqnum, winbuf[..], winfront, winrear, pktnum, Cycle(buffer[..], buffront, msgNum),
             packetSent, packetResent, packetTimeOut)
    }

    ghost predicate Apart(net: Network)
      reads net
    {
      this !in net.Repr && winbuf !in net.Repr && buffer !in net.Repr
    }

    constructor (windowSize: nat)
      requires 0 < windowSize
      ensures Valid() && fresh(winbuf) && fresh(buffer) && winbuf.Length == windowSize
      ensures State() == Sender(0, 0, winbuf[..], 0, 0, 0, [], 0, 0, 0)
    {
      winbuf := new Packet[windowSize](_ => Packet(0, 0, 0, ZeroPayload));
      buffer := new Payload[MAXBUFSIZE](_ => ZeroPayload);
      base, nextseqnum := 0, 0;
      winfront, winrear, pktnum := 0, 0, 0;
      buffront, bufrear, msgNum := 0, 0, 0;
      packetSent, packetResent, packetTimeOut := 0, 0, 0;
    }

    /** Saves a packet in the window ring and counts it. */
    method SaveToWindow(packet: Packet)
      requires Valid()
      modifies this`winrear, this`pktnum, winbuf
      ensures Valid() && State() == old(State()).(winbuf := old(State()).winbuf[old(winrear) := packet],
                                                 winrear := Wrap(old(winrear) + 1, winbuf.Length), pktnum := old(pktnum) + 1)
    {
      winbuf[winrear] := packet;
      ModIsWrap(winrear + 1, winbuf.Length);
      winrear := (winrear + 1) % winbuf.Length;
      pktnum := pktnum + 1;
    }

    method SaveToBuffer(message: Payload)
      requires Valid()
      modifies this`bufrear, this`msgNum, buffer
      ensures Valid() && State() == old(State()).(queue := Enqueue(old(State()).queue, message))
    {
      EnqueueCycle(buffer[..], buffront, msgNum, message);
      buffer[bufrear] := message;
      ModAbsorb(buffront + msgNum, 1, MAXBUFSIZE);
      bufrear := (bufrear + 1) % MAXBUFSIZE;
      msgNum := msgNum + 1;
    }

    method TakeFromBuffer() returns (message: Payload)
      requires Valid() && msgNum > 0
      modifies this`buffront, this`msgNum
      ensures Valid() && msgNum == old(msgNum) - 1 && message == old(State()).queue[0]
      ensures State() == old(State()).(queue := old(State()).queue[1..])
    {
      CyclePop(buffer[..], buffront, msgNum);
      message := buffer[buffront];
      ModAbsorb(buffront + 1, msgNum - 1, MAXBUFSIZE);
      buffront := (buffront + 1) % MAXBUFSIZE;
      msgNum := msgNum - 1;
    }

    method SendAndCount(net: Network, packet: Packet)
      requires Valid() && net.Valid() && Apart(net)
      modifies this`packetSent, net.Repr
      ensures Valid() && net.Valid() && Apart(net) && fresh(net.Repr - old(net.Repr))
      ensures State() == old(State()).(sent := old(State()).sent + 1)
      ensures net.State() == Perform(old(net.State()), net.pattern, SideA, Send(packet, packet.seqnum))
    {
      net.ToLayer3(SideA, packet, packet.seqnum);
      packetSent := packetSent + 1;
    }

    method StartBaseTimer(net: Network)
      requires Valid() && net.Valid() && Apart(net)
      modifies net.Repr
      ensures Valid() && net.Valid() && Apart(net) && fresh(net.Repr - old(net.Repr))
      ensures State() == old(State())
      ensures net.State() == Perform(old(net.State()), net.pattern, SideA, StartTimer(base))
    {
      net.StartTimerR(SideA, base);
    }

    /** Saves, sends and perhaps times the packet for a message, while the window has room. */
    method SendNew(net: Network, message: Payload)
      requires Valid() && net.Valid() && Apart(net)
      modifies this`winrear, this`pktnum, this`packetSent, this`nextseqnum, winbuf, net.Repr
      ensures Valid() && net.Valid() && Apart(net) && fresh(net.Repr - old(net.Repr))
      ensures State() == Transmit(old(State()), message).snd
      ensures net.State() == PerformAll(old(net.State()), net.pattern, SideA, Transmit(old(State()), message).acts)
    {
      ghost var n := net.State();
      var packet := ComputeChecksum(Packet(nextseqnum, NOTUSED, 0, message));
      assert packet == DataPacket(nextseqnum, message);
      SaveToWindow(packet);
      assert net.State() == n;
      SendAndTime(net, packet);
      AdvanceNext(net);
    }

    method SendAndTime(net: Network, packet: Packet)
      requires Valid() && net.Valid() && Apart(net) && packet.seqnum == nextseqnum
      modifies this`packetSent, net.Repr
      ensures Valid() && net.Valid() && Apart(net) && fresh(net.Repr - old(net.Repr))
      ensures State() == old(State()).(sent := old(State()).sent + 1)
      ensures net.State() == PerformAll(old(net.State()), net.pattern, SideA, SendActs(old(State()), packet))
    {
      ghost var n := net.State();
      PerformOne(n, net.pattern, SideA, Send(packet, nextseqnum));
      PerformTwo(n, net.pattern, SideA, Send(packet, nextseqnum), StartTimer(base));
      SendAndCount(net, packet);
      if base == nextseqnum - 1 {
        StartBaseTimer(net);
      }
    }

    method AdvanceNext(net: Network)
      requires Valid() && net.Valid() && Apart(net)
      modifies this`nextseqnum
      ensures Valid() && net.Valid() && Apart(net) && net.State() == old(net.State())
      ensures State() == old(State()).(next := old(State()).next + 1)
    {
      nextseqnum := nextseqnum + 1;
    }

    /** A message from layer 5. */
    method AOutput(net: Network, message: Payload)
      requires Valid() && net.Valid() && Apart(net)
      modifies this, winbuf, buffer, net.Repr
      ensures Valid() && net.Valid() && Apart(net) && fresh(net.Repr - old(net.Repr))
      ensures State() == OnSubmit(old(State()), message).snd
      ensures net.State() == PerformAll(old(net.State()), net.pattern, SideA, OnSubmit(old(State()), message).acts)
    {
      if nextseqnum < base + winbuf.Length {
        SendNew(net, message);
      } else {
        ghost var n := net.State();
        SaveToBuffer(message);
        assert net.State() == n;
      }
    }

    /** A packet from layer 3: a cumulative acknowledgment. */
    method AInput(net: Network, packet: Packet)
      requires Valid() && net.Valid() && Apart(net)
      modifies this, winbuf, buffer, net.Repr
      ensures Valid() && net.Valid() && Apart(net) && fresh(net.Repr - old(net.Repr))
      ensures State() == OnAck(old(State()), packet).snd
      ensures net.State() == PerformAll(old(net.State()), net.pattern, SideA, OnAck(old(State()), packet).acts)
    {
      ghost var s, n := State(), net.State();
      ghost var r := OnAck(s, packet);
      assert PerformAll(n, net.pattern, SideA, []) == n;
      var corrupted := CheckCorrupted(packet);
      if corrupted {
        assert r == Effect(s, []);
        return;
      }
      var acknum := packet.acknum;
      if acknum == NOTUSED {
        assert r == Effect(s, []);
        return;
      }
      if acknum >= base && acknum < nextseqnum {
        assert r == Effect(Refill(PopAcked(s.(base := acknum + 1))).snd, Accepted(s, acknum));
        AcceptAck(net, acknum);
      } else {
        assert r == Effect(s, []);
      }
    }

    method AcceptAck(net: Network, acknum: nat)
      requires Valid() && net.Valid() && Apart(net) && base <= acknum < nextseqnum
      modifies this, winbuf, buffer, net.Repr
      ensures Valid() && net.Valid() && Apart(net) && fresh(net.Repr - old(net.Repr))
      ensures State() == Refill(PopAcked(old(State()).(base := acknum + 1))).snd
      ensures net.State() == PerformAll(old(net.State()), net.pattern, SideA, Accepted(old(State()), acknum))
    {
      ghost var s, n := State(), net.State();
      MoveWindow(net, acknum);
      ghost var t := State();
      PerformAppend(n, net.pattern, SideA, Restart(s.base, t), Refill(t).acts);
      SendQueued(net);
    }

    method MoveWindow(net: Network, acknum: nat)
      requires Valid() && net.Valid() && Apart(net) && base <= acknum < nextseqnum
      modifies this`base, this`winfront, this`pktnum, net.Repr
      ensures Valid() && net.Valid() && Apart(net) && fresh(net.Repr - old(net.Repr))
      ensures State() == PopAcked(old(State()).(base := acknum + 1))
      ensures net.State() == PerformAll(old(net.State()), net.pattern, SideA, Restart(old(base), State()))
    {
      ghost var s, n := State(), net.State();
      ghost var t := PopAcked(s.(base := acknum + 1));
      PerformOne(n, net.pattern, SideA, StopTimer(s.base));
      PerformTwo(n, net.pattern, SideA, StopTimer(s.base), StartTimer(t.base));
      StopBaseTimer(net);
      AdvanceBase(net, acknum);
      assert State() == t;
      if base < nextseqnum {
        StartBaseTimer(net);
      }
    }

    method AdvanceBase(net: Network, acknum: nat)
      requires Valid() && net.Valid() && Apart(net) && base <= acknum < nextseqnum
      modifies this`base, this`winfront, this`pktnum
      ensures Valid() && net.Valid() && Apart(net) && net.State() == old(net.State())
      ensures State() == PopAcked(old(State()).(base := acknum + 1))
    {
      base := acknum + 1;
      PopWindow();
    }

    method StopBaseTimer(net: Network)
      requires Valid() && net.Valid() && Apart(net)
      modifies net.Repr
      ensures Valid() && net.Valid() && Apart(net) && fresh(net.Repr - old(net.Repr))
      ensures State() == old(State())
      ensures net.State() == Perform(old(net.State()), net.pattern, SideA, StopTimer(base))
    {
      var _ := net.StopTimerR(SideA, base);
    }

    method PopWindow()
      requires Valid()
      modifies this`winfront, this`pktnum
      ensures Valid() && State() == PopAcked(old(State()))
    {
      while winfront != winrear && winbuf[winfront].seqnum < base
        invariant Valid() && PopAcked(State()) == PopAcked(old(State()))
        decreases Span(State())
      {
        ModIsWrap(winfront + 1, winbuf.Length);
        winfront := (winfront + 1) % winbuf.Length;
        pktnum := pktnum - 1;
      }
    }

    method SendQueued(net: Network)
      requires Valid() && net.Valid() && Apart(net)
      modifies this, winbuf, buffer, net.Repr
      ensures Valid() && net.Valid() && Apart(net) && fresh(net.Repr - old(net.Repr))
      ensures State() == Refill(old(State())).snd
      ensures net.State() == PerformAll(old(net.State()), net.pattern, SideA, Refill(old(State())).acts)
    {
      ghost var all := Refill(State());
      while msgNum > 0 && nextseqnum < base + winbuf.Length
        invariant Valid() && net.Valid() && Apart(net) && fresh(net.Repr - old(net.Repr))
        invariant Refill(State()).snd == all.snd
        invariant PerformAll(net.State(), net.pattern, SideA, Refill(State()).acts)
               == PerformAll(old(net.State()), net.pattern, SideA, all.acts)
        decreases msgNum
      {
        SendFirstQueued(net);
      }
    }

    method SendFirstQueued(net: Network)
      requires Valid() && net.Valid() && Apart(net) && msgNum > 0 && nextseqnum < base + winbuf.Length
      modifies this, winbuf, buffer, net.Repr
      ensures Valid() && net.Valid() && Apart(net) && fresh(net.Repr - old(net.Repr)) && msgNum == old(msgNum) - 1
      ensures var s := old(State());
              var rest := Refill(State());
              Refill(s).snd == rest.snd
              && PerformAll(net.State(), net.pattern, SideA, rest.acts)
              == PerformAll(old(net.State()), net.pattern, SideA, Refill(s).acts)
    {
      ghost var s, n := State(), net.State();
      ghost var first := Transmit(s.(queue := s.queue[1..]), s.queue[0]);
      PerformAppend(n, net.pattern, SideA, first.acts, Refill(first.snd).acts);
      var message := TakeFromBuffer();
      assert net.State() == n;
      AOutput(net, message);
      assert State() == first.snd;
    }

    /** The timer went off: resend the window, or what the front pointer takes for it. */
    method APacketTimeInterrupt(net: Network, pktSeq: int)
      requires Valid() && net.Valid() && Apart(net)
      modifies this, net.Repr
      ensures Valid() && net.Valid() && Apart(net) && fresh(net.Repr - old(net.Repr))
      ensures State() == OnTimeOut(old(State()), pktSeq).snd
      ensures net.State() == PerformAll(old(net.State()), net.pattern, SideA, OnTimeOut(old(State()), pktSeq).acts)
    {
      if pktSeq != base {
        return;
      }
      ResendAndRestart(net);
      ghost var n := net.State();
      packetTimeOut := packetTimeOut + 1;
      assert net.State() == n;
    }

    method ResendAndRestart(net: Network)
      requires Valid() && net.Valid() && Apart(net)
      modifies this`packetSent, this`packetResent, net.Repr
      ensures Valid() && net.Valid() && Apart(net) && fresh(net.Repr - old(net.Repr))
      ensures var s, k := old(State()), old(nextseqnum - base);
              State() == s.(sent := s.sent + k, resent := s.resent + k)
              && net.State() == PerformAll(old(net.State()), net.pattern, SideA, ResendActs(s, k) + [StartTimer(s.base)])
    {
      ghost var s, n := State(), net.State();
      PerformAppend(n, net.pattern, SideA, ResendActs(s, nextseqnum - base), [StartTimer(base)]);
      ResendWindow(net);
      PerformOne(net.State(), net.pattern, SideA, StartTimer(base));
      StartBaseTimer(net);
    }

    method ResendWindow(net: Network)
      requires Valid() && net.Valid() && Apart(net)
      modifies this`packetSent, this`packetResent, net.Repr
      ensures Valid() && net.Valid() && Apart(net) && fresh(net.Repr - old(net.Repr))
      ensures var s, k := old(State()), old(nextseqnum - base);
              State() == s.(sent := s.sent + k, resent := s.resent + k)
              && net.State() == PerformAll(old(net.State()), net.pattern, SideA, ResendActs(s, k))
    {
      ghost var s, n := State(), net.State();
      var i := 0;
      while i < nextseqnum - base
        invariant 0 <= i <= nextseqnum - base
        invariant Valid() && net.Valid() && Apart(net) && fresh(net.Repr - old(net.Repr))
        invariant State() == s.(sent := s.sent + i, resent := s.resent + i)
        invariant net.State() == PerformAll(n, net.pattern, SideA, ResendActs(s, i))
      {
        ResendOne(net, s, n, i);
        i := i + 1;
      }
    }

    method ResendOne(net: Network, ghost s: Sender, ghost n: Net, i: nat)
      requires Valid() && net.Valid() && Apart(net) && s.Shaped()
      requires State() == s.(sent := s.sent + i, resent := s.resent + i)
      requires net.State() == PerformAll(n, net.pattern, SideA, ResendActs(s, i))
      modifies this`packetSent, this`packetResent, net.Repr
      ensures Valid() && net.Valid() && Apart(net) && fresh(net.Repr - old(net.Repr))
      ensures State() == s.(sent := s.sent + i + 1, resent := s.resent + i + 1)
      ensures net.State() == PerformAll(n, net.pattern, SideA, ResendActs(s, i + 1))
    {
      hide Perform, Insert, Tamper;
      assert 0 <= (winfront + i) % winbuf.Length < winbuf.Length;
      var idx := (winfront + i) % winbuf.Length;
      var packet := winbuf[idx];
      assert packet == Resent(s, i);
      PerformAppend(n, net.pattern, SideA, ResendActs(s, i), [Send(packet, packet.seqnum)]);
      PerformOne(net.State(), net.pattern, SideA, Send(packet, packet.seqnum));
      SendAndCount(net, packet);
      ghost var n' := net.State();
      packetResent := packetResent + 1;
      assert net.State() == n';
    }
  }

  class ReceiverNode {
    var expectedSeqnum: nat
    var packetReceived: nat

    constructor ()
      ensures expectedSeqnum == 0 && packetReceived == 0
    {
      expectedSeqnum, packetReceived := 0, 0;
    }

    /** A packet from layer 3.  The result lists what was handed to layer 5. */
    method BInput(net: Network, packet: Packet) returns (delivered: seq<Payload>)
      requires net.Valid() && this !in net.Repr
      modifies this, net.Repr
      ensures net.Valid() && this !in net.Repr && fresh(net.Repr - old(net.Repr))
      ensures var d := OnData(old(expectedSeqnum), packet);
              && expectedSeqnum == d.expected && delivered == d.delivered
              && net.State() == PerformAll(old(net.State()), net.pattern, SideB, AckActs(d.acks))
      ensures packetReceived == old(packetReceived) + |delivered|
    {
      delivered := [];
      var corrupted := CheckCorrupted(packet);
      if corrupted {
        return;
      }
      ghost var n := net.State();
      if packet.seqnum == expectedSeqnum {
        delivered := [packet.payload];
        packetReceived := packetReceived + 1;
        expectedSeqnum := expectedSeqnum + 1;
      }
      var ackPacket := ComputeChecksum(Packet(NOTUSED, expectedSeqnum - 1, 0, ZeroPayload));
      assert net.State() == n;
      PerformOne(n, net.pattern, SideB, Send(ackPacket, ackPacket.acknum));
      ghost var d := OnData(old(expectedSeqnum), packet);
      assert AckActs(d.acks) == [Send(ackPacket, ackPacket.acknum)];
      net.ToLayer3(SideB, ackPacket, ackPacket.acknum);
    }
  }
}
