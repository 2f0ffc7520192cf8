/** What Go-Back-N resends when a timer goes off, and exactly when that is the window. */
module GbnFacts {
  import opened Rings
  import opened Packets
  import opened Networks
  import opened GbnEntities
  import opened GbnProtocol

  // ---------- the drifting front pointer ----------

  /** What A sends when the timer of `base` goes off. */
  function Resends(s: Sender): seq<Packet>
    requires s.Shaped()
  {
    PacketsSent(OnTimeOut(s, s.base).acts)
  }

  /** That is each packet of the window, once and in order. */
  ghost predicate ResendsWindow(s: Sender, submitted: seq<Payload>)
    requires s.Shaped() && s.next <= |submitted|
  {
    Resends(s) == seq(s.next - s.base, i requires 0 <= i < s.next - s.base => DataPacket(s.base + i, submitted[s.base + i]))
  }

  /** The timeout loop reads one slot after another, from the front pointer on. */
  lemma ResendsSlots(s: Sender)
    requires s.Shaped()
    ensures |Resends(s)| == s.next - s.base
    ensures forall i: nat | i < s.next - s.base :: Resends(s)[i] == s.winbuf[(s.winfront + i) % |s.winbuf|] == Resent(s, i)
  {
    TimeOutSends(s, 0);
    forall i: nat | i < s.next - s.base ensures Resends(s)[i] == s.winbuf[(s.winfront + i) % |s.winbuf|] == Resent(s, i) {
      TimeOutSends(s, i);
    }
  }

  lemma ResentAt(w: nat, s: Sender, submitted: seq<Payload>, i: nat)
    requires SenderMid(w, s, submitted) && i < s.next - s.base && Tracks(s)
    ensures Resent(s, i) == DataPacket(s.base + i, submitted[s.base + i])
  {
    ModAdd(s.base, i, w);
    ModIsWrap(s.winfront + i, w);
    assert (s.base + i) % w == (s.winfront + i) % w;
  }

  /** What a timeout resends from a sender that is in order. */
  lemma ResendFrom(w: nat, s: Sender, submitted: seq<Payload>)
    requires SenderMid(w, s, submitted)
    ensures |Resends(s)| == s.next - s.base
    ensures forall p <- Resends(s) :: Genuine(p, submitted, s.next) && s.next - w <= p.seqnum
    ensures ResendsWindow(s, submitted) <==> s.base == s.next || Tracks(s)
  {
    hide Resends, OnTimeOut, PacketsSent;
    ResendsSlots(s);
    forall i: nat | i < s.next - s.base
      ensures Genuine(Resent(s, i), submitted, s.next) && s.next - w <= Resent(s, i).seqnum
    {
      ResentGenuine(w, s, submitted, i);
    }
    if s.base < s.next {
      if Tracks(s) {
        forall i: nat | i < s.next - s.base
          ensures Resent(s, i) == DataPacket(s.base + i, submitted[s.base + i])
        {
          ResentAt(w, s, submitted, i);
        }
      } else {
        ResentGenuine(w, s, submitted, 0);
        SmallMod(s.winfront, w);
        assert Resends(s)[0] != DataPacket(s.base + 0, submitted[s.base + 0]);
      }
    }
  }

  /** In every run, when the timer of `base` goes off, A sends as many packets as are in flight, the i-th from the i-th slot
      behind the front pointer, each one of the last `w` that were sent, unchanged, and then starts the timer again.  They
      are the window, each packet once and in order, exactly when nothing is in flight or the front pointer still marks the
      slot of `base`.  Any other timer does nothing. */
  lemma ResendExact(w: nat, states: seq<Gbn>, steps: seq<Step>, k: nat, n: int, i: nat)
    requires Run(w, states, steps) && k < |states| && Detectable(w, states[k].submitted)
    ensures var g := states[k];
            && g.snd.Shaped() && |g.snd.winbuf| == w && g.snd.next <= |g.submitted|
            && (n != g.snd.base ==> OnTimeOut(g.snd, n) == Effect(g.snd, []))
    ensures var s, acts := states[k].snd, OnTimeOut(states[k].snd, states[k].snd.base).acts;
            && |acts| == s.next - s.base + 1 && acts[s.next - s.base] == StartTimer(s.base)
            && OnTimeOut(s, s.base).snd == s.(sent := s.sent + (s.next - s.base), resent := s.resent + (s.next - s.base),
                                              timeouts := s.timeouts + 1)
            && (i < s.next - s.base ==>
                  var p := s.winbuf[(s.winfront + i) % w];
                  acts[i] == Send(p, p.seqnum) && Genuine(p, states[k].submitted, s.next) && s.next - w <= p.seqnum)
    ensures var g := states[k];
            ResendsWindow(g.snd, g.submitted) <==> g.snd.base == g.snd.next || g.snd.winfront == g.snd.base % w
  {
    hide OnTimeOut, Resends, ResendsWindow, Genuine, DataPacket, Run, Detectable;
    RunInv(w, states, steps, k);
    var s, submitted := states[k].snd, states[k].submitted;
    ResendFrom(w, s, submitted);
    TimeOutActs(s, n, i);
    TimeOutActs(s, s.base, i);
    if i < s.next - s.base {
      ResentGenuine(w, s, submitted, i);
    }
  }

  /** The oldest unacknowledged packet is among the resent ones exactly when its slot lies fewer places after the
      front pointer than there are packets in flight. */
  lemma OldestResent(w: nat, s: Sender, submitted: seq<Payload>)
    requires SenderOk(w, s, submitted) && s.base < s.next
    ensures DataPacket(s.base, submitted[s.base]) in Resends(s)
       <==> Wrap(s.base % w + w - s.winfront, w) < s.next - s.base
  {
    hide Resends;
    ResendsSlots(s);
    var d := Wrap(s.base % w + w - s.winfront, w);
    assert d < w;
    ModIsWrap(s.winfront + d, w);
    if d < s.next - s.base {
      assert Resent(s, d) == DataPacket(s.base, submitted[s.base]);
    }
    forall i: nat | i < s.next - s.base && Resent(s, i) == DataPacket(s.base, submitted[s.base])
      ensures i == d
    {
      ResentGenuine(w, s, submitted, i);
      ModIsWrap(s.winfront + i, w);
    }
  }

  /** After an accepted acknowledgment the front pointer marks `base` exactly when the ring was not read as empty
      and its first packet was not beyond the new base, or everything in flight was acknowledged.  A full ring
      is read as empty. */
  lemma TracksAfterAck(w: nat, s: Sender, submitted: seq<Payload>, p: Packet)
    requires SenderOk(w, s, submitted)
    requires Accepts(p) && p.acknum != NOTUSED && s.base <= p.acknum < s.next
    ensures OnAck(s, p).snd.Shaped()
    ensures Tracks(OnAck(s, p).snd) <==>
              if s.winfront == s.winrear then p.acknum + 1 == s.next else s.winbuf[s.winfront].seqnum <= p.acknum + 1
  {
    hide Accepts, Accepted, RingHolds, PopAcked, Refill, Genuine;
    OkShaped(w, s, submitted);
    AcceptedOk(w, s, submitted, p.acknum);
    PopTracks(w, s, submitted, p.acknum);
    OkShaped(w, OnAck(s, p).snd, submitted);
  }

  lemma PopTracks(w: nat, s: Sender, submitted: seq<Payload>, acknum: nat)
    requires SenderOk(w, s, submitted) && s.base <= acknum < s.next
    ensures PopAcked(s.(base := acknum + 1)).winfront == (acknum + 1) % w <==>
              if s.winfront == s.winrear then acknum + 1 == s.next else s.winbuf[s.winfront].seqnum <= acknum + 1
  {
    var s1 := s.(base := acknum + 1);
    if s.winfront == s.winrear {
      if s1.base < s.next {
        DistinctSlots(s1.base, s.next, w);
      }
    } else {
      PopFront(w, s, submitted, acknum);
      var f := s.winbuf[s.winfront].seqnum;
      if s1.base < f {
        DistinctSlots(s1.base, f, w);
      }
    }
  }

  /** When the ring does not look empty, its front slot holds one of the last `w - 1` packets. */
  lemma FrontNumber(w: nat, s: Sender, submitted: seq<Payload>)
    requires SenderOk(w, s, submitted) && s.winfront != s.winrear
    ensures s.next - w < s.winbuf[s.winfront].seqnum < s.next && 0 <= s.winbuf[s.winfront].seqnum
    ensures s.winbuf[s.winfront].seqnum % w == s.winfront
  {
    if s.next < w {
      SmallMod(s.next, w);
    }
    SlotGenuine(w, s, submitted, s.winfront);
    if s.winbuf[s.winfront].seqnum == s.next - w {
      ModStep(s.next - w, w);
    }
  }

  /** Where popping starts and stops when the ring does not look empty. */
  lemma PopFront(w: nat, s: Sender, submitted: seq<Payload>, acknum: nat)
    requires SenderOk(w, s, submitted) && s.base <= acknum < s.next && s.winfront != s.winrear
    ensures s.Shaped()
    ensures var f, base, t := s.winbuf[s.winfront].seqnum, acknum + 1, PopAcked(s.(base := acknum + 1));
            && 0 <= f && s.next - w < f < s.next && f % w == s.winfront
            && t.winfront == (if f < base then base else f) % w
            && t.pktnum == s.pktnum - if f < base then base - f else 0
  {
    FrontNumber(w, s, submitted);
    PopTo(w, s.(base := acknum + 1), submitted, s.winbuf[s.winfront].seqnum);
  }

  lemma AckAtFullRing(g: Gbn, a: nat)
    requires g.snd.Shaped() && g.snd.winfront == g.snd.winrear && g.snd.queue == []
    requires 0 < a && g.snd.base <= a < g.snd.next
    ensures Apply(g, AckArrives(AckPacket(a))) == g.(
              snd := g.snd.(base := a + 1),
              timers := g.timers - multiset{g.snd.base} + if a + 1 < g.snd.next then multiset{a + 1} else multiset{})
  {
    var s := g.snd;
    TimedOne(g.timers, StopTimer(s.base));
    TimedTwo(g.timers, StopTimer(s.base), StartTimer(a + 1));
    assert Restart(s.base, s.(base := a + 1)) + [] == Restart(s.base, s.(base := a + 1));
    OwnChecksumAccepted(Packet(NOTUSED, a, 0, ZeroPayload));
    assert Sends(OnAck(g.snd, AckPacket(a)).acts) == {};
  }

  /** A ring of three after three submissions: full, with its front and rear pointers in the same slot. */
  function FullOfThree(winbuf: seq<Packet>, a: Payload, b: Payload, c: Payload): Sender
    requires |winbuf| == 3
  {
    Sender(0, 3, winbuf[0 := DataPacket(0, a)][1 := DataPacket(1, b)][2 := DataPacket(2, c)], 0, 0, 3, [], 3, 0, 0)
  }

  lemma ThreeSubmitted(winbuf: seq<Packet>, a: Payload, b: Payload, c: Payload) returns (states: seq<Gbn>, steps: seq<Step>)
    requires |winbuf| == 3
    ensures Run(3, states, steps) && |states| == |steps| + 1 == 4
    ensures states[3] == Gbn(FullOfThree(winbuf, a, b, c), 0, {DataPacket(0, a), DataPacket(1, b), DataPacket(2, c)}, {},
                             multiset{0}, [a, b, c], [])
  {
    hide Apply, DataPacket, OnSubmit, Run;
    var d0, d1, d2 := DataPacket(0, a), DataPacket(1, b), DataPacket(2, c);
    var g0 := Gbn(Sender(0, 0, winbuf, 0, 0, 0, [], 0, 0, 0), 0, {}, {}, multiset{}, [], []);
    var g1 := Gbn(Sender(0, 1, winbuf[0 := d0], 0, 1, 1, [], 1, 0, 0), 0, {d0}, {}, multiset{}, [a], []);
    var g2 := Gbn(Sender(0, 2, winbuf[0 := d0][1 := d1], 0, 2, 2, [], 2, 0, 0), 0, {d0, d1}, {}, multiset{0}, [a, b], []);
    var g3 := Gbn(FullOfThree(winbuf, a, b, c), 0, {d0, d1, d2}, {}, multiset{0}, [a, b, c], []);
    SubmitWithRoom(g0, a);
    assert Apply(g0, Submit(a)) == g1;
    SubmitWithRoom(g1, b);
    assert Apply(g1, Submit(b)) == g2;
    SubmitWithRoom(g2, c);
    assert Apply(g2, Submit(c)) == g3;
    RunStart(3, g0);
    RunExtend(3, [g0], [], Submit(a));
    RunExtend(3, [g0] + [g1], [] + [Submit(a)], Submit(b));
    RunExtend(3, [g0] + [g1] + [g2], [] + [Submit(a)] + [Submit(b)], Submit(c));
    states, steps := [g0] + [g1] + [g2] + [g3], [] + [Submit(a)] + [Submit(b)] + [Submit(c)];
  }

  /** The pointer does drift: with a window of three, three messages, and the second acknowledged while the third
      is in flight, the timeout loop resends packet 0 in place of packet 2. */
  lemma DriftReachable(winbuf: seq<Packet>, a: Payload, b: Payload, c: Payload)
    returns (states: seq<Gbn>, steps: seq<Step>)
    requires |winbuf| == 3
    ensures Run(3, states, steps) && |steps| == 6
    ensures var s := states[6].snd;
            s.Shaped() && s.base == 2 && s.next == 3 && !Tracks(s) && Resends(s) == [DataPacket(0, a)]
  {
    hide Apply, DataPacket, AckPacket, Accepts, Tamper, OnData, OnAck, Run, Resends;
    states, steps := ThreeSubmitted(winbuf, a, b, c);
    var g3, d0, d1, ack := states[3], DataPacket(0, a), DataPacket(1, b), AckPacket(1);
    var g4 := g3.(expected := 1, delivered := [a], ackNet := {AckPacket(0)});
    var g5 := g4.(expected := 2, delivered := [a, b], ackNet := {AckPacket(0), ack});
    var g6 := g5.(snd := g3.snd.(base := 2), timers := multiset{2});
    ExpectedArrives(g3, a);
    assert Apply(g3, DataArrives(d0)) == g4;
    ExpectedArrives(g4, b);
    assert Apply(g4, DataArrives(d1)) == g5;
    AckAtFullRing(g5, 1);
    assert Apply(g5, AckArrives(ack)) == g6;
    RunExtend(3, states, steps, DataArrives(d0));
    states, steps := states + [g4], steps + [DataArrives(d0)];
    RunExtend(3, states, steps, DataArrives(d1));
    states, steps := states + [g5], steps + [DataArrives(d1)];
    RunExtend(3, states, steps, AckArrives(ack));
    states, steps := states + [g6], steps + [AckArrives(ack)];
    ResendsSlots(g6.snd);
  }

  // ---------- the packet count ----------

  /** `pktnum` lags behind the packets sent by the number of pops, which is where the front pointer is. */
  ghost predicate CountOk(w: nat, s: Sender) {
    0 < w && 0 <= s.next - s.pktnum <= s.base && s.winfront == (s.next - s.pktnum) % w
  }

  lemma {:induction false} RefillCount(w: nat, s: Sender)
    requires s.Shaped() && CountOk(w, s)
    ensures CountOk(w, Refill(s).snd)
    decreases |s.queue|
  {
    if s.queue != [] && s.next < s.base + |s.winbuf| {
      RefillCount(w, Transmit(s.(queue := s.queue[1..]), s.queue[0]).snd);
    }
  }

  lemma PopsAdvance(f: nat, pops: nat, base: nat, base': nat, w: nat)
    requires 0 < w && pops <= base < base' && f % w == pops % w && base' - w < f < base'
    ensures pops + (base' - f) <= base' && (pops + (base' - f)) % w == base' % w
  {
    if f < pops {
      DistinctSlots(f, pops, w);
    }
    ModDifference(pops, f, w);
    ModDifference(pops + (base' - f), base', w);
  }

  lemma PopCount(w: nat, s: Sender, submitted: seq<Payload>, acknum: nat)
    requires SenderOk(w, s, submitted) && s.base <= acknum < s.next && CountOk(w, s)
    ensures CountOk(w, PopAcked(s.(base := acknum + 1)))
  {
    hide RingHolds, PopAcked;
    OkShaped(w, s, submitted);
    var s1 := s.(base := acknum + 1);
    if s.winfront != s.winrear {
      PopFront(w, s, submitted, acknum);
      var f := s.winbuf[s.winfront].seqnum;
      if f < s1.base {
        PopsAdvance(f, s.next - s.pktnum, s.base, s1.base, w);
      }
    } else {
      PopNothing(s1);
    }
  }

  lemma PopNothing(s: Sender)
    requires s.Shaped() && s.winfront == s.winrear
    ensures PopAcked(s) == s
  {
  }

  lemma AckCount(w: nat, s: Sender, submitted: seq<Payload>, p: Packet)
    requires SenderOk(w, s, submitted) && CountOk(w, s)
    ensures CountOk(w, OnAck(s, p).snd)
  {
    hide CountOk, Accepts, SenderMid;
    if Accepts(p) && p.acknum != NOTUSED && s.base <= p.acknum < s.next {
      PopCount(w, s, submitted, p.acknum);
      OkShaped(w, s, submitted);
      RefillCount(w, PopAcked(s.(base := p.acknum + 1)));
    }
  }

  lemma OkShaped(w: nat, s: Sender, submitted: seq<Payload>)
    requires SenderOk(w, s, submitted)
    ensures s.Shaped() && |s.winbuf| == w
  {
  }

  /** In every run `pktnum` is at least the number of packets in flight; it is that number only while the front
      pointer marks `base`, and then the difference is always a number of whole turns. */
  lemma PacketCount(w: nat, states: seq<Gbn>, steps: seq<Step>, k: nat)
    requires Run(w, states, steps) && k < |states| && Detectable(w, states[k].submitted)
    ensures var s := states[k].snd;
            && s.Shaped() && 0 < w && s.next - s.base <= s.pktnum
            && (Tracks(s) <==> (s.pktnum - (s.next - s.base)) % w == 0)
  {
    hide Run, Genuine, Detectable, DataPacket;
    CountRun(w, states, steps, k);
    RunInv(w, states, steps, k);
    var s := states[k].snd;
    ModDifference(s.next - s.pktnum, s.base, w);
  }

  lemma {:induction false} CountRun(w: nat, states: seq<Gbn>, steps: seq<Step>, k: nat)
    requires Run(w, states, steps) && k < |states| && Detectable(w, states[k].submitted)
    ensures CountOk(w, states[k].snd)
  {
    hide Apply, Inv, CountOk, Enabled, Initial, Detectable;
    if k == 0 {
      CountStart(w, states[0]);
    } else {
      DetectableBefore(w, states[k - 1], steps[k - 1]);
      CountRun(w, states, steps, k - 1);
      RunInv(w, states, steps, k - 1);
      CountStep(w, states[k - 1], steps[k - 1]);
    }
  }

  lemma CountStart(w: nat, g: Gbn)
    requires Initial(w, g)
    ensures CountOk(w, g.snd)
  {
    SmallMod(0, w);
  }

  lemma CountStep(w: nat, g: Gbn, step: Step)
    requires Inv(w, g) && CountOk(w, g.snd)
    ensures CountOk(w, Apply(g, step).snd)
  {
    hide OnAck, CountOk, OnSubmit, OnTimeOut, Timed, Sends, SenderMid, MayArrive, Genuine;
    OkShaped(w, g.snd, g.submitted);
    match step
    case AckArrives(p) => AckCount(w, g.snd, g.submitted, p);
    case Submit(m) => SubmitCount(w, g.snd, m);
    case TimerFires(n) => TimeOutCount(w, g.snd, n);
    case DataArrives(_) =>
  }

  lemma SubmitCount(w: nat, s: Sender, m: Payload)
    requires s.Shaped() && CountOk(w, s)
    ensures CountOk(w, OnSubmit(s, m).snd)
  {
  }

  lemma TimeOutCount(w: nat, s: Sender, n: int)
    requires s.Shaped() && CountOk(w, s)
    ensures CountOk(w, OnTimeOut(s, n).snd)
  {
  }
}
