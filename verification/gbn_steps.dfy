/** What each handler of Go-Back-N does, on the messages and numbers themselves; and how a lost acknowledgment is made good
    over a channel that never replays one. */
module GbnSteps {
  import opened Packets
  import opened Networks
  import opened GbnEntities
  import opened GbnProtocol
  import GbnCleanRun

  // ---------- the sender ----------

  /** The packets of messages `from` to `to - 1`. */
  function DataPackets(submitted: seq<Payload>, from: nat, to: nat): seq<Packet>
    requires from <= to <= |submitted|
  {
    seq(to - from, i requires 0 <= i < to - from => DataPacket(from + i, submitted[from + i]))
  }

  lemma {:induction false} SentPacket(acts: seq<Action>, i: nat)
    ensures |PacketsSent(acts)| == |GbnCleanRun.Sent(acts)|
    ensures i < |PacketsSent(acts)| ==> PacketsSent(acts)[i] == GbnCleanRun.Sent(acts)[i].pkt
    decreases |acts|
  {
    if acts != [] {
      SentPacket(acts[1..], if acts[0].Send? && i > 0 then i - 1 else i);
    }
  }

  /** Sends that are packets of messages, in order. */
  lemma SentData(acts: seq<Action>, submitted: seq<Payload>, from: nat, to: nat)
    requires from <= to <= |submitted| && GbnCleanRun.Sent(acts) == GbnCleanRun.DataFlights(submitted, from, to)
    ensures PacketsSent(acts) == DataPackets(submitted, from, to)
  {
    hide PacketsSent, GbnCleanRun.Sent, DataPacket;
    SentPacket(acts, 0);
    forall i | 0 <= i < to - from ensures PacketsSent(acts)[i] == DataPackets(submitted, from, to)[i] {
      SentPacket(acts, i);
    }
  }

  /** A message goes out at once, as packet `next`, when fewer than `w` packets are in flight, and otherwise waits behind
      the others.  It starts the timer of `base` exactly when it is the second packet in flight. */
  lemma SubmitExact(w: nat, s: Sender, submitted: seq<Payload>, m: Payload)
    requires SenderOk(w, s, submitted) && |s.queue| < 5000
    ensures s.Shaped()
    ensures var e := OnSubmit(s, m);
            && e.snd.base == s.base && e.snd.next + |e.snd.queue| == |submitted| + 1
            && (if s.next - s.base < w
                then e.snd.next == s.next + 1 && e.snd.queue == [] && e.snd.sent == s.sent + 1
                     && (e.acts == [Send(DataPacket(s.next, m), s.next)]
                         || e.acts == [Send(DataPacket(s.next, m), s.next), StartTimer(s.base)])
                else e.snd == s.(queue := s.queue + [m]) && e.acts == [])
            && ((exists n :: StartTimer(n) in e.acts) <==> s.next - s.base == 1 < w)
  {
    hide RingHolds, DataPacket;
    MidNumbers(w, s, submitted);
    if s.next - s.base < w {
      var send, start := Send(DataPacket(s.next, m), s.next), StartTimer(s.base);
      assert Transmit(s, m).acts == if s.next - s.base == 1 then [send, start] else [send];
      assert start in [send, start];
    }
  }

  lemma MidNumbers(w: nat, s: Sender, submitted: seq<Payload>)
    requires SenderMid(w, s, submitted)
    ensures s.Shaped() && 0 < w == |s.winbuf| && s.next <= |submitted| && s.queue == submitted[s.next..]
    ensures s.next <= s.base + w
  {
  }

  /** Whether A heeds an acknowledgment: it passes the checksum, its number is not 0 and belongs to a packet in flight. */
  predicate Heeded(s: Sender, p: Packet) {
    Accepts(p) && p.acknum != 0 && s.base <= p.acknum < s.next
  }

  /** An acknowledgment that A heeds moves the window behind its number; the timer of the old base is cancelled, one for
      the new base started if packets stay in flight, and as many waiting messages go out, in order, as the window now has
      room for.  When one of those becomes the second packet in flight, it starts that timer once more.  Any other
      acknowledgment changes nothing. */
  lemma AckExact(w: nat, s: Sender, submitted: seq<Payload>, p: Packet)
    requires SenderOk(w, s, submitted)
    ensures s.Shaped()
    ensures !Heeded(s, p) ==> OnAck(s, p) == Effect(s, [])
    ensures Heeded(s, p) ==>
              var e := OnAck(s, p);
              var room := p.acknum + 1 + w;
              && e.snd.base == p.acknum + 1
              && e.snd.next == (if room <= |submitted| then room else |submitted|)
              && e.snd.queue == submitted[e.snd.next..]
              && s.next <= e.snd.next && PacketsSent(e.acts) == DataPackets(submitted, s.next, e.snd.next)
              && e.acts != [] && e.acts[0] == StopTimer(s.base)
              && (p.acknum + 1 < s.next ==> |e.acts| > 1 && e.acts[1] == StartTimer(p.acknum + 1))
              && (forall n :: StartTimer(n) in e.acts ==> n == p.acknum + 1)
              && GbnCleanRun.Starts(e.acts) == (if p.acknum + 1 < s.next then 1 else 0)
                                               + (if s.next <= p.acknum + 2 < e.snd.next then 1 else 0)
  {
    hide SenderMid, PopAcked, Refill, DataPacket, Accepts;
    MidNumbers(w, s, submitted);
    if Heeded(s, p) {
      var t := PopAcked(s.(base := p.acknum + 1));
      PopMid(w, s, submitted, p.acknum);
      MidNumbers(w, t, submitted);
      RefillFills(w, t, submitted);
      RefillTimes(w, t, submitted);
      RestartTimes(s.base, t);
      GbnCleanRun.StartsAppend(Restart(s.base, t), Refill(t).acts);
      GbnCleanRun.RefillSends(w, t, submitted);
      GbnCleanRun.RestartStarts(s.base, t);
      GbnCleanRun.SentAppend(Restart(s.base, t), Refill(t).acts);
      assert [] + GbnCleanRun.Sent(Refill(t).acts) == GbnCleanRun.Sent(Refill(t).acts);
      SentData(OnAck(s, p).acts, submitted, s.next, Refill(t).snd.next);
    }
  }

  /** Of the messages that go out, the one that becomes the second packet in flight starts the timer of the base. */
  lemma {:induction false} RefillTimes(w: nat, s: Sender, submitted: seq<Payload>)
    requires SenderMid(w, s, submitted)
    ensures s.Shaped()
    ensures GbnCleanRun.Starts(Refill(s).acts) == if s.next <= s.base + 1 < Refill(s).snd.next then 1 else 0
    ensures forall n :: StartTimer(n) in Refill(s).acts ==> n == s.base
    decreases |s.queue|
  {
    hide SenderMid, DataPacket;
    MidNumbers(w, s, submitted);
    if s.queue != [] && s.next < s.base + w {
      hide Refill;
      RefillOnce(w, s, submitted);
      var first := Transmit(s.(queue := s.queue[1..]), s.queue[0]);
      TransmitTimes(s.(queue := s.queue[1..]), s.queue[0]);
      RefillTimes(w, first.snd, submitted);
      GbnCleanRun.StartsAppend(first.acts, Refill(first.snd).acts);
    }
  }

  lemma RefillOnce(w: nat, s: Sender, submitted: seq<Payload>)
    requires SenderMid(w, s, submitted) && s.queue != [] && s.next < s.base + w
    ensures s.Shaped()
    ensures var first := Transmit(s.(queue := s.queue[1..]), s.queue[0]);
            && SenderMid(w, first.snd, submitted) && first.snd.Shaped() && s.next < Refill(first.snd).snd.next
            && Refill(s) == Effect(Refill(first.snd).snd, first.acts + Refill(first.snd).acts)
  {
    hide DataPacket;
    var s1 := s.(queue := s.queue[1..]);
    assert s1.(queue := submitted[s.next..]) == s;
    assert s.queue[0] == submitted[s.next];
    TransmitMid(w, s1, submitted);
    GbnCleanRun.RefillSends(w, Transmit(s1, s.queue[0]).snd, submitted);
  }

  lemma TransmitTimes(s: Sender, m: Payload)
    requires s.Shaped()
    ensures GbnCleanRun.Starts(Transmit(s, m).acts) == if s.next == s.base + 1 then 1 else 0
    ensures forall n :: StartTimer(n) in Transmit(s, m).acts ==> n == s.base
  {
    var a, b := Send(DataPacket(s.next, m), s.next), StartTimer(s.base);
    GbnCleanRun.SentOne(a);
    GbnCleanRun.SentOne(b);
    GbnCleanRun.SentTwo(a, b);
    assert Transmit(s, m).acts == if s.base == s.next - 1 then [a, b] else [a];
  }

  lemma RestartTimes(base: nat, t: Sender)
    ensures GbnCleanRun.Starts(Restart(base, t)) == if t.base < t.next then 1 else 0
    ensures forall n :: StartTimer(n) in Restart(base, t) ==> n == t.base
  {
    var a, b := StopTimer(base), StartTimer(t.base);
    GbnCleanRun.SentOne(a);
    GbnCleanRun.SentOne(b);
    GbnCleanRun.SentTwo(a, b);
  }

  lemma RefillFills(w: nat, s: Sender, submitted: seq<Payload>)
    requires SenderMid(w, s, submitted) && |s.queue| <= MAXBUFSIZE
    ensures s.Shaped()
    ensures var t := Refill(s).snd;
            && t.base == s.base && t.next <= |submitted| && t.queue == submitted[t.next..] && t.next <= t.base + w
            && (t.next < |submitted| ==> t.next == t.base + w)
  {
    RefillOk(w, s, submitted);
    MidNumbers(w, Refill(s).snd, submitted);
  }

  // ---------- the receiver ----------

  /** In every run, whatever arrives: a packet that passes the checksum is answered by exactly one acknowledgment, of the
      last message that has then been delivered, and is itself delivered exactly when it carries the expected number; one
      that does not pass is ignored. */
  lemma CumulativeAck(w: nat, states: seq<Gbn>, steps: seq<Step>, k: nat, p: Packet)
    requires Run(w, states, steps) && k < |states| && Detectable(w, states[k].submitted)
    ensures states[k].snd.Shaped()
    ensures var g, t := states[k], Apply(states[k], DataArrives(p));
            var acks := AckActs(OnData(g.expected, p).acks);
            && (Accepts(p) ==>
                  && acks == [Send(AckPacket(|t.delivered| - 1), |t.delivered| - 1)]
                  && t.ackNet == g.ackNet + {AckPacket(|t.delivered| - 1)}
                  && t.delivered == g.delivered + (if p.seqnum == |g.delivered| then [p.payload] else []))
            && (!Accepts(p) ==> acks == [] && t == g)
  {
    hide Accepts, RingHolds;
    RunInv(w, states, steps, k);
    RunShaped(w, states[k]);
    BuiltPackets(states[k].expected, p.payload);
    BuiltPackets(states[k].expected - 1, p.payload);
  }

  lemma RunShaped(w: nat, g: Gbn)
    requires Inv(w, g)
    ensures g.snd.Shaped() && |g.delivered| == g.expected <= g.snd.next <= |g.submitted|
  {
  }

  // ---------- a channel without replays ----------

  /** What can happen over a channel that loses packets, and delivers each copy at most once: an arriving packet is taken
      out of the network, and any packets may get lost. */
  datatype Move = Take(step: Step) | Lose

  ghost predicate OnceMove(g: Gbn, move: Move, t: Gbn) {
    && g.snd.Shaped()
    && match move
       case Take(DataArrives(p)) => p in g.dataNet && t == Apply(g.(dataNet := g.dataNet - {p}), DataArrives(p))
       case Take(AckArrives(p)) => p in g.ackNet && t == Apply(g.(ackNet := g.ackNet - {p}), AckArrives(p))
       case Take(step) => Enabled(g, step) && t == Apply(g, step)
       case Lose => t == g.(dataNet := t.dataNet, ackNet := t.ackNet) && t.dataNet <= g.dataNet && t.ackNet <= g.ackNet
  }

  ghost predicate OnceRun(w: nat, states: seq<Gbn>, moves: seq<Move>) {
    && |states| == |moves| + 1 && Initial(w, states[0])
    && forall i | 0 <= i < |moves| :: OnceMove(states[i], moves[i], states[i + 1])
  }

  /** The same state but for packets that the networks no longer hold. */
  lemma FewerPackets(w: nat, g: Gbn, t: Gbn)
    requires Inv(w, g) && t == g.(dataNet := t.dataNet, ackNet := t.ackNet) && t.dataNet <= g.dataNet && t.ackNet <= g.ackNet
    ensures Inv(w, t)
  {
  }

  lemma OnceInv(w: nat, g: Gbn, move: Move, t: Gbn)
    requires Inv(w, g) && OnceMove(g, move, t) && Detectable(w, g.submitted)
    ensures Inv(w, t)
  {
    hide Inv, Detectable, OnData, OnAck;
    match move
    case Take(step) =>
      StepInv(w, g, step);
      FewerPackets(w, Apply(g, step), t);
    case Lose => FewerPackets(w, g, t);
  }

  lemma {:induction false} OnceRunInv(w: nat, states: seq<Gbn>, moves: seq<Move>, k: nat)
    requires OnceRun(w, states, moves) && k < |states| && |states[k].submitted| < TAMPERED
    ensures Inv(w, states[k])
  {
    hide Inv, Apply, Enabled, Initial;
    if k == 0 {
      InitialInv(w, states[0]);
    } else {
      OnceSubmitted(states[k - 1], moves[k - 1], states[k]);
      OnceRunInv(w, states, moves, k - 1);
      OnceInv(w, states[k - 1], moves[k - 1], states[k]);
    }
  }

  lemma OnceSubmitted(g: Gbn, move: Move, t: Gbn)
    requires OnceMove(g, move, t)
    ensures |g.submitted| <= |t.submitted|
  {
  }

  /** B has delivered all that A has sent, A does not know of the last packet and more, and every packet and every
      acknowledgment under way has been lost; but a timer is running. */
  ghost predicate AllAcksLost(g: Gbn) {
    && g.snd.base < g.snd.next == g.expected && 1 < g.snd.next && g.snd.base in g.timers
    && g.dataNet == {} && g.ackNet == {}
  }

  /** From every such state the timer brings A up to date again: it resends, the first packet to arrive is one that B has
      delivered already, B acknowledges all the same, and that acknowledgment moves the window behind everything sent. */
  lemma LostAcksRecovered(w: nat, states: seq<Gbn>, moves: seq<Move>) returns (states': seq<Gbn>, moves': seq<Move>)
    requires OnceRun(w, states, moves) && |states[|moves|].submitted| < TAMPERED && AllAcksLost(states[|moves|])
    ensures OnceRun(w, states', moves') && |moves'| == |moves| + 3 && states'[..|states|] == states
    ensures var g, t := states[|moves|], states'[|moves'|];
            t.snd.base == g.snd.next && t.delivered == g.delivered && t.submitted == g.submitted
  {
    hide Apply, Inv;
    var g := states[|moves|];
    OnceRunInv(w, states, moves, |moves|);
    var p, g1 := Resend(w, g);
    var g2, g3 := g1.(dataNet := g1.dataNet - {p}, ackNet := {AckPacket(g.snd.next - 1)}), Apply(g1, TimerFires(0));
    g3 := Reacknowledge(w, g, g1, p, g2);
    states' := states + [g1, g2, g3];
    moves' := moves + [Take(TimerFires(g.snd.base)), Take(DataArrives(p)), Take(AckArrives(AckPacket(g.snd.next - 1)))];
    OnceAppend(w, states, moves, states', moves');
  }

  lemma OnceAppend(w: nat, states: seq<Gbn>, moves: seq<Move>, states': seq<Gbn>, moves': seq<Move>)
    requires OnceRun(w, states, moves) && states <= states' && moves <= moves' && |states'| == |moves'| + 1
    requires forall i | |moves| <= i < |moves'| :: OnceMove(states'[i], moves'[i], states'[i + 1])
    ensures OnceRun(w, states', moves')
  {
    hide OnceMove, Initial;
    forall i | 0 <= i < |moves'| ensures OnceMove(states'[i], moves'[i], states'[i + 1]) {
      if i < |moves| {
        assert states'[i] == states[i] && moves'[i] == moves[i] && states'[i + 1] == states[i + 1];
      }
    }
  }

  /** The timer goes off; `p` is what the first slot read holds. */
  lemma Resend(w: nat, g: Gbn) returns (p: Packet, t: Gbn)
    requires Inv(w, g) && AllAcksLost(g)
    ensures OnceMove(g, Take(TimerFires(g.snd.base)), t) && p in t.dataNet && Genuine(p, g.submitted, g.snd.next)
    ensures t.snd.Shaped() && t.snd.base == g.snd.base && t.snd.next == g.snd.next && t.expected == g.expected
    ensures t.ackNet == {} && t.delivered == g.delivered && t.submitted == g.submitted
    ensures SenderOk(w, t.snd, t.submitted)
  {
    hide SenderMid, Genuine;
    RunShaped(w, g);
    t := Apply(g, TimerFires(g.snd.base));
    TimeOutOk(w, g.snd, g.submitted, g.snd.base);
    TimeOutActs(g.snd, g.snd.base, 0);
    ResentGenuine(w, g.snd, g.submitted, 0);
    p := Resent(g.snd, 0);
    assert OnTimeOut(g.snd, g.snd.base).acts[0] == Send(p, p.seqnum);
  }

  /** It arrives although it was delivered before, and is acknowledged; so is everything. */
  lemma Reacknowledge(w: nat, g: Gbn, g1: Gbn, p: Packet, g2: Gbn) returns (g3: Gbn)
    requires AllAcksLost(g) && Genuine(p, g.submitted, g.snd.next) && p in g1.dataNet && SenderOk(w, g1.snd, g1.submitted)
    requires g1.snd.base == g.snd.base && g1.snd.next == g.snd.next && g1.expected == g.expected && g1.ackNet == {}
    requires g1.submitted == g.submitted
    requires g2 == g1.(dataNet := g1.dataNet - {p}, ackNet := {AckPacket(g.snd.next - 1)})
    ensures OnceMove(g1, Take(DataArrives(p)), g2) && OnceMove(g2, Take(AckArrives(AckPacket(g.snd.next - 1))), g3)
    ensures g3.snd.base == g.snd.next && g3.delivered == g1.delivered && g3.submitted == g1.submitted
  {
    hide SenderMid, Accepts, DataPacket, AckPacket, OnAck;
    var n := g.snd.next - 1;
    MidNumbers(w, g1.snd, g1.submitted);
    BuiltPackets(p.seqnum, g.submitted[p.seqnum]);
    BuiltPackets(n, ZeroPayload);
    assert OnData(g1.expected, p) == Receipt(g1.expected, [], [AckPacket(n)]);
    g3 := Apply(g2.(ackNet := {}), AckArrives(AckPacket(n)));
    AckExact(w, g2.snd, g2.submitted, AckPacket(n));
    assert g2.ackNet - {AckPacket(n)} == {};
  }

  /** Two messages have gone out over the fresh channel. */
  lemma BothSent(w: nat, a: Payload, b: Payload) returns (states: seq<Gbn>, moves: seq<Move>)
    requires 2 <= w
    ensures OnceRun(w, states, moves) && |moves| == 2
    ensures var g := states[2];
            && g.snd.Shaped() && g.snd.base == 0 && g.snd.next == 2 && g.expected == 0 && g.timers == multiset{0}
            && g.dataNet == {DataPacket(0, a), DataPacket(1, b)} && g.ackNet == {}
            && g.submitted == [a, b] && g.delivered == []
  {
    hide DataPacket, OnSubmit;
    var winbuf := seq(w, _ => Packet(0, 0, 0, ZeroPayload));
    var g0 := Gbn(Sender(0, 0, winbuf, 0, 0, 0, [], 0, 0, 0), 0, {}, {}, multiset{}, [], []);
    SubmitWithRoom(g0, a);
    var g1 := Apply(g0, Submit(a));
    SubmitWithRoom(g1, b);
    var g2 := Apply(g1, Submit(b));
    states, moves := [g0, g1, g2], [Take(Submit(a)), Take(Submit(b))];
  }

  /** The expected packet arrives and is taken out of the network. */
  lemma TakeExpected(g: Gbn, m: Payload) returns (t: Gbn)
    requires g.snd.Shaped() && DataPacket(g.expected, m) in g.dataNet
    ensures OnceMove(g, Take(DataArrives(DataPacket(g.expected, m))), t)
    ensures t == g.(expected := g.expected + 1, delivered := g.delivered + [m], ackNet := t.ackNet,
                    dataNet := g.dataNet - {DataPacket(g.expected, m)})
  {
    hide DataPacket, OnData;
    var p := DataPacket(g.expected, m);
    ExpectedArrives(g.(dataNet := g.dataNet - {p}), m);
    t := Apply(g.(dataNet := g.dataNet - {p}), DataArrives(p));
  }

  /** Two messages are delivered, both acknowledgments get lost. */
  lemma BothAcksLost(w: nat, a: Payload, b: Payload) returns (states: seq<Gbn>, moves: seq<Move>)
    requires 2 <= w
    ensures OnceRun(w, states, moves) && |moves| == 5 && AllAcksLost(states[5]) && states[5].snd.base == 0
    ensures states[5].submitted == [a, b] == states[5].delivered && states[5].snd.next == 2
  {
    hide DataPacket, Initial;
    var before, first := BothSent(w, a, b);
    ArrivalDiffers(a, b);
    var g3 := TakeExpected(before[2], a);
    var g4 := TakeExpected(g3, b);
    var g5 := g4.(dataNet := {}, ackNet := {});
    assert OnceMove(g4, Lose, g5);
    states := before + [g3, g4, g5];
    moves := first + [Take(DataArrives(DataPacket(0, a))), Take(DataArrives(DataPacket(1, b))), Lose];
    OnceAppend(w, before, first, states, moves);
  }

  lemma ArrivalDiffers(a: Payload, b: Payload)
    ensures DataPacket(0, a) != DataPacket(1, b)
  {
  }

  /** A run in which every acknowledgment gets lost at first, and a packet that B delivered before brings the one that moves
      the window behind everything sent. */
  lemma RecoveryRun(w: nat, a: Payload, b: Payload) returns (states: seq<Gbn>, moves: seq<Move>)
    requires 2 <= w
    ensures OnceRun(w, states, moves) && |moves| == 8 && states[5].ackNet == {} && states[5].snd.base == 0
    ensures var t := states[8];
            t.snd.base == t.snd.next == 2 && t.submitted == t.delivered == states[5].delivered == [a, b]
  {
    hide OnceMove, Initial;
    var before, first := BothAcksLost(w, a, b);
    states, moves := LostAcksRecovered(w, before, first);
    assert states[5] == states[..6][5] == before[5];
    OnceRunInv(w, states, moves, 8);
  }
}
