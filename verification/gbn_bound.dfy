/** Go-Back-N where it goes wrong: from which window on a timeout can resend the wrong packets, and exactly which message
    lists let corruption be mistaken for the packet that B expects. */
module GbnBound {
  import opened Rings
  import opened Packets
  import opened GbnEntities
  import opened GbnProtocol
  import opened GbnFacts
  import opened GbnProgress

  // ---------- a window that is not what is resent ----------

  /** A timeout would now resend something other than the packets in flight. */
  ghost predicate Drifted(g: Gbn) {
    g.snd.Shaped() && g.snd.next <= |g.submitted| && !ResendsWindow(g.snd, g.submitted)
  }

  /** The front pointer marks the base, from which `k - base` packets are in flight. */
  ghost predicate Aligned(w: nat, g: Gbn, ms: seq<Payload>, base: nat, d: nat, k: nat) {
    Underway(w, g, ms, base, d, k) && g.snd.winfront == base % w
  }

  lemma AlignedAck(w: nat, g: Gbn, ms: seq<Payload>)
    requires 2 <= w && 2 <= |ms| && Underway(w, g, ms, 0, 2, 2)
    ensures g.snd.Shaped() && Enabled(g, AckArrives(AckPacket(1)))
    ensures Aligned(w, Apply(g, AckArrives(AckPacket(1))), ms, 2, 2, 2)
  {
    hide Apply, Accepts;
    AcknowledgeAll(w, g, ms, 0, 2);
    OwnChecksumAccepted(Packet(NOTUSED, 1, 0, ZeroPayload));
    TracksAfterAck(w, g.snd, g.submitted, AckPacket(1));
    if g.snd.winfront != g.snd.winrear {
      FrontNumber(w, g.snd, g.submitted);
    }
    SenderAfterAck(g, AckPacket(1));
  }

  lemma SenderAfterAck(g: Gbn, p: Packet)
    requires g.snd.Shaped()
    ensures Apply(g, AckArrives(p)).snd == OnAck(g.snd, p).snd && Apply(g, AckArrives(p)).submitted == g.submitted
  {
  }

  lemma AlignedSubmit(w: nat, g: Gbn, ms: seq<Payload>, base: nat, d: nat, k: nat)
    requires Aligned(w, g, ms, base, d, k) && k < |ms| && k < base + w
    ensures g.snd.Shaped() && Enabled(g, Submit(ms[k])) && Aligned(w, Apply(g, Submit(ms[k])), ms, base, d, k + 1)
  {
    hide Underway;
    SubmitNext(w, g, ms, base, d, k);
  }

  /** The first two messages acknowledged together, and the window filled up behind them. */
  lemma {:induction false} AlignedFilling(w: nat, ms: seq<Payload>, k: nat) returns (states: seq<Gbn>, steps: seq<Step>)
    requires 2 <= w && 2 <= k <= |ms| && k <= w + 2
    ensures Run(w, states, steps) && Aligned(w, states[|steps|], ms, 2, 2, k)
  {
    hide Aligned, Apply, Enabled, Underway;
    if k == 2 {
      states, steps := FirstTwo(w, ms);
      var g, step := states[|steps|], AckArrives(AckPacket(1));
      AlignedAck(w, g, ms);
      RunExtend(w, states, steps, step);
      states, steps := states + [Apply(g, step)], steps + [step];
    } else {
      states, steps := AlignedFilling(w, ms, k - 1);
      var g, step := states[|steps|], Submit(ms[k - 1]);
      AlignedSubmit(w, g, ms, 2, 2, k - 1);
      RunExtend(w, states, steps, step);
      states, steps := states + [Apply(g, step)], steps + [step];
    }
  }

  /** The first packet of a full window is acknowledged alone: the full ring looks empty, and nothing is popped. */
  lemma FullRingDrifts(w: nat, g: Gbn, ms: seq<Payload>)
    requires 2 <= w && Underway(w, g, ms, 2, 3, w + 2) && g.snd.winfront == 2 % w
    ensures g.snd.Shaped() && Enabled(g, AckArrives(AckPacket(2))) && Drifted(Apply(g, AckArrives(AckPacket(2))))
  {
    hide Apply, Accepts, RingHolds, ResendsWindow, Tracks;
    var s, p := g.snd, AckPacket(2);
    OwnChecksumAccepted(Packet(NOTUSED, 2, 0, ZeroPayload));
    FullRing(w, s, g.submitted);
    TracksAfterAck(w, s, g.submitted, p);
    AcceptedOk(w, s, g.submitted, 2);
    SenderAfterAck(g, p);
    ResendFrom(w, OnAck(s, p).snd, g.submitted);
  }

  lemma FullRing(w: nat, s: Sender, submitted: seq<Payload>)
    requires RingHolds(w, s, submitted) && s.next == w + 2 && s.winfront == 2 % w
    ensures s.winfront == s.winrear
  {
    ModStep(2, w);
  }

  lemma DriftRun(w: nat, ms: seq<Payload>) returns (states: seq<Gbn>, steps: seq<Step>)
    requires 2 <= w && |ms| == w + 2
    ensures Run(w, states, steps) && Drifted(states[|steps|])
  {
    hide Apply, Enabled, Underway, Drifted;
    states, steps := AlignedFilling(w, ms, w + 2);
    var g, arrival, ack := states[|steps|], DataArrives(DataPacket(2, ms[2])), AckArrives(AckPacket(2));
    DeliverNext(w, g, ms, 2, 2, w + 2);
    RunExtend(w, states, steps, arrival);
    SenderAfterData(g, DataPacket(2, ms[2]));
    states, steps := states + [Apply(g, arrival)], steps + [arrival];
    FullRingDrifts(w, states[|steps|], ms);
    RunExtend(w, states, steps, ack);
    states, steps := states + [Apply(states[|steps|], ack)], steps + [ack];
  }

  lemma SenderAfterData(g: Gbn, p: Packet)
    requires g.snd.Shaped()
    ensures Apply(g, DataArrives(p)).snd == g.snd
  {
  }

  /** A run after which a timeout resends something other than the packets in flight exists exactly when the window has at
      least two places. */
  lemma DriftExact(w: nat)
    requires 0 < w
    ensures (exists states: seq<Gbn>, steps: seq<Step> :: Run(w, states, steps) && Drifted(states[|steps|])) <==> 2 <= w
  {
    forall states: seq<Gbn>, steps: seq<Step> | Run(w, states, steps) && Drifted(states[|steps|])
      ensures 2 <= w
    {
      if w == 1 {
        NoDriftAlone(states, steps);
      }
    }
    if 2 <= w {
      var states, steps := DriftRun(w, seq(w + 2, _ => ZeroPayload));
    }
  }

  lemma NoDriftAlone(states: seq<Gbn>, steps: seq<Step>)
    requires Run(1, states, steps)
    ensures !Drifted(states[|steps|])
  {
    RunInv(1, states, steps, |steps|);
    ResendExact(1, states, steps, |steps|, 0, 0);
  }

  // ---------- corruption that is mistaken ----------

  /** Delivering the corrupted message `n` in place of message 999999 is noticed: that one has not been submitted when
      `n` comes before it, or it is a different one. */
  predicate Differs(ms: seq<Payload>, n: nat)
    requires n < |ms|
  {
    n < 999999 || ms[n][0 := 90] != ms[999999]
  }

  /** Some message can be in flight, up to the end of the window behind number 999999, whose corruption escapes the
      checksum and then differs from message 999999. */
  ghost predicate Confusable(w: nat, ms: seq<Payload>) {
    && 2 <= w && 999999 <= |ms|
    && exists n: nat | n < |ms| && n < 1000000 + w :: Slips(n, ms[n]) && Differs(ms, n)
  }

  /** What holds as long as B has delivered a prefix: also when a corrupted acknowledgment has moved A's window to
      1000000 ahead of B. */
  ghost predicate PrefixInv(w: nat, ms: seq<Payload>, g: Gbn) {
    && SenderOk(w, g.snd, g.submitted) && g.submitted <= ms && (w == 1 ==> g.snd.base == 0)
    && g.expected <= g.snd.next && g.delivered == g.submitted[..g.expected]
    && (forall p <- g.dataNet :: Genuine(p, g.submitted, g.snd.next))
    && (forall p <- g.ackNet :: -1 <= p.acknum < g.expected && p == AckPacket(p.acknum))
    && (g.snd.base <= g.expected || (g.snd.base == TAMPERED + 1 && g.expected <= TAMPERED))
  }

  lemma PrefixSubmit(w: nat, ms: seq<Payload>, g: Gbn, m: Payload)
    requires PrefixInv(w, ms, g) && Enabled(g, Submit(m)) && g.submitted + [m] <= ms
    ensures PrefixInv(w, ms, Apply(g, Submit(m)))
  {
    hide Slips;
    var t := Apply(g, Submit(m));
    SubmitOk(w, g.snd, g.submitted, m);
    assert t.submitted[..g.expected] == g.submitted[..g.expected];
    forall p | p in g.dataNet ensures Genuine(p, t.submitted, t.snd.next) {
      GenuineGrows(p, g.submitted, g.snd.next, [m], t.snd.next);
    }
  }

  lemma NextSubmitted(w: nat, s: Sender, submitted: seq<Payload>)
    requires SenderOk(w, s, submitted)
    ensures s.Shaped() && s.next <= |submitted| && s.next <= s.base + w && |s.winbuf| == w
  {
  }

  /** A slipped message that is not confusable comes behind message 999999 and then looks like it. */
  lemma NotConfused(w: nat, ms: seq<Payload>, submitted: seq<Payload>, next: nat, n: nat)
    requires !Confusable(w, ms) && 2 <= w && submitted <= ms && n < next <= |submitted| && TAMPERED <= next <= TAMPERED + 1 + w
    requires Slips(n, submitted[n])
    ensures TAMPERED < next && submitted[n][0 := LETTER_Z] == submitted[TAMPERED]
  {
    hide Slips;
    assert ms[n] == submitted[n] && !Differs(ms, n);
  }

  /** Unless the list is confusable, whatever B takes for the packet it expects brings that message. */
  lemma PrefixArrival(w: nat, ms: seq<Payload>, g: Gbn, p: Packet)
    requires PrefixInv(w, ms, g) && !Confusable(w, ms) && Int32(|ms|)
    requires MayArrive(g.dataNet, p) && Accepts(p) && p.seqnum == g.expected
    ensures g.expected < g.snd.next <= |g.submitted| && p.payload == g.submitted[g.expected]
  {
    hide SenderMid, Slips, Accepts, Confusable, MayArrive;
    NextSubmitted(w, g.snd, g.submitted);
    if p in g.dataNet {
      assert Genuine(p, g.submitted, g.snd.next);
    } else {
      var n := SlippedArrival(g, p);
      NotConfused(w, ms, g.submitted, g.snd.next, n);
    }
  }

  lemma PrefixData(w: nat, ms: seq<Payload>, g: Gbn, p: Packet)
    requires PrefixInv(w, ms, g) && !Confusable(w, ms) && Int32(|ms|) && Enabled(g, DataArrives(p))
    ensures PrefixInv(w, ms, Apply(g, DataArrives(p)))
  {
    hide SenderMid, Genuine, Slips, Confusable, Accepts;
    NextSubmitted(w, g.snd, g.submitted);
    if Accepts(p) && p.seqnum == g.expected {
      PrefixArrival(w, ms, g, p);
      assert g.submitted[..g.expected] + [p.payload] == g.submitted[..g.expected + 1];
    }
  }

  /** Where an arriving acknowledgment may move the window to. */
  lemma PrefixBase(w: nat, ms: seq<Payload>, g: Gbn, p: Packet)
    requires PrefixInv(w, ms, g) && MayArrive(g.ackNet, p) && Accepts(p) && g.snd.base <= p.acknum < g.snd.next
    requires p.acknum != NOTUSED
    ensures p.acknum < g.expected || p.acknum == TAMPERED
    ensures w != 1
  {
    hide Accepts, RingHolds;
  }

  lemma PrefixAck(w: nat, ms: seq<Payload>, g: Gbn, p: Packet)
    requires PrefixInv(w, ms, g) && Enabled(g, AckArrives(p))
    ensures PrefixInv(w, ms, Apply(g, AckArrives(p)))
  {
    hide SenderMid, Slips, Accepts, Genuine, OnAck, MayArrive;
    NextSubmitted(w, g.snd, g.submitted);
    var t := Apply(g, AckArrives(p));
    AckOk(w, g.snd, g.submitted, p);
    NextSubmitted(w, t.snd, g.submitted);
    if t.snd.base != g.snd.base {
      PrefixBase(w, ms, g, p);
    }
    forall q | q in g.dataNet ensures Genuine(q, t.submitted, t.snd.next) {
      GenuineGrows(q, g.submitted, g.snd.next, [], t.snd.next);
      assert g.submitted + [] == g.submitted;
    }
  }

  lemma PrefixTimer(w: nat, ms: seq<Payload>, g: Gbn, n: int)
    requires PrefixInv(w, ms, g)
    ensures g.snd.Shaped() && PrefixInv(w, ms, Apply(g, TimerFires(n)))
  {
    hide RingHolds;
    NextSubmitted(w, g.snd, g.submitted);
    TimeOutOk(w, g.snd, g.submitted, n);
  }

  lemma PrefixStep(w: nat, ms: seq<Payload>, g: Gbn, step: Step)
    requires PrefixInv(w, ms, g) && !Confusable(w, ms) && Int32(|ms|)
    requires Enabled(g, step) && Apply(g, step).submitted <= ms
    ensures PrefixInv(w, ms, Apply(g, step))
  {
    hide PrefixInv, Confusable, Enabled;
    match step
    case Submit(m) => PrefixSubmit(w, ms, g, m);
    case DataArrives(p) => PrefixData(w, ms, g, p);
    case AckArrives(p) => PrefixAck(w, ms, g, p);
    case TimerFires(n) => PrefixTimer(w, ms, g, n);
  }

  lemma {:induction false} PrefixRun(w: nat, ms: seq<Payload>, states: seq<Gbn>, steps: seq<Step>, k: nat)
    requires Run(w, states, steps) && k < |states| && states[k].submitted <= ms && !Confusable(w, ms) && Int32(|ms|)
    ensures PrefixInv(w, ms, states[k])
  {
    hide PrefixInv, Confusable, Apply, Enabled, Initial;
    if k == 0 {
      PrefixInitial(w, ms, states[0]);
    } else {
      SubmittedGrows(states[k - 1], steps[k - 1]);
      PrefixRun(w, ms, states, steps, k - 1);
      PrefixStep(w, ms, states[k - 1], steps[k - 1]);
    }
  }

  lemma PrefixInitial(w: nat, ms: seq<Payload>, g: Gbn)
    requires Initial(w, g)
    ensures PrefixInv(w, ms, g)
  {
    SmallMod(0, w);
  }

  lemma SubmittedGrows(g: Gbn, step: Step)
    requires g.snd.Shaped()
    ensures g.submitted <= Apply(g, step).submitted
  {
  }

  // ---------- the runs that go wrong ----------

  lemma {:induction false} SubmitUpTo(w: nat, ms: seq<Payload>, base: nat, d: nat, k: nat, k': nat,
                                      states: seq<Gbn>, steps: seq<Step>)
    returns (states': seq<Gbn>, steps': seq<Step>)
    requires Run(w, states, steps) && Underway(w, states[|steps|], ms, base, d, k) && k <= k' <= |ms| && k' <= base + w
    ensures Run(w, states', steps') && Underway(w, states'[|steps'|], ms, base, d, k')
    decreases k' - k
  {
    hide Underway;
    states', steps' := states, steps;
    if k < k' {
      states', steps' := SubmitOne(w, ms, base, d, k, states, steps);
      states', steps' := SubmitUpTo(w, ms, base, d, k + 1, k', states', steps');
    }
  }

  /** The corruption of ACK 34038 escapes the checksum and passes for an acknowledgment of packet 999999. */
  lemma FalseAck(w: nat, g: Gbn, ms: seq<Payload>)
    requires Underway(w, g, ms, TAMPERED, TAMPERED, TAMPERED + 1)
    ensures var step := AckArrives(Tamper(AckPacket(34038)));
            && g.snd.Shaped() && Enabled(g, step)
            && Underway(w, Apply(g, step), ms, TAMPERED + 1, TAMPERED, TAMPERED + 1)
  {
    hide SenderMid, Sends;
    var s, p := g.snd, Tamper(AckPacket(34038));
    TamperedAckAccepted(34038);
    assert AckPacket(34038) in g.ackNet;
    OkEmpty(w, s, ms[..TAMPERED + 1]);
    AcceptedOk(w, s, ms[..TAMPERED + 1], TAMPERED);
    RefillNothing(PopAcked(s.(base := TAMPERED + 1)));
  }

  /** B expects number 999999 while message `n` is in flight. */
  lemma AtTheBound(w: nat, ms: seq<Payload>, n: nat) returns (base: nat, k: nat, states: seq<Gbn>, steps: seq<Step>)
    requires 2 <= w && n < |ms| && n < TAMPERED + 1 + w && TAMPERED <= |ms|
    ensures n < k && TAMPERED <= k && (n < TAMPERED ==> k == TAMPERED)
    ensures Run(w, states, steps) && Underway(w, states[|steps|], ms, base, TAMPERED, k)
  {
    hide Underway, Apply, Enabled;
    base := TAMPERED;
    k := if n < TAMPERED then TAMPERED else n + 1;
    states, steps := Complete(w, ms, TAMPERED);
    if k <= TAMPERED + w {
      states, steps := SubmitUpTo(w, ms, base, TAMPERED, TAMPERED, k, states, steps);
    } else {
      states, steps := SubmitOne(w, ms, base, TAMPERED, TAMPERED, states, steps);
      var g, step := states[|steps|], AckArrives(Tamper(AckPacket(34038)));
      FalseAck(w, g, ms);
      RunExtend(w, states, steps, step);
      states, steps, base := states + [Apply(g, step)], steps + [step], TAMPERED + 1;
      states, steps := SubmitUpTo(w, ms, base, TAMPERED, TAMPERED + 1, k, states, steps);
    }
  }

  lemma ConfusedArrival(w: nat, g: Gbn, ms: seq<Payload>, base: nat, k: nat, n: nat)
    requires Underway(w, g, ms, base, TAMPERED, k) && n < k && (n < TAMPERED ==> k == TAMPERED)
    requires Slips(n, ms[n]) && Differs(ms, n) && Int32(n)
    ensures var step := DataArrives(Tamper(DataPacket(n, ms[n])));
            && g.snd.Shaped() && Enabled(g, step)
            && k <= |ms| && Apply(g, step).submitted == ms[..k] && !(Apply(g, step).delivered <= ms[..k])
  {
    TamperedDataAccepted(n, ms[n]);
    assert DataPacket(n, ms[n]) in g.dataNet;
    var t := Apply(g, DataArrives(Tamper(DataPacket(n, ms[n]))));
    assert t.delivered == ms[..TAMPERED] + [ms[n][0 := LETTER_Z]];
    assert t.delivered[TAMPERED] == ms[n][0 := LETTER_Z];
  }

  /** For any list of messages, a run that submits them in order and in which B delivers something other than a prefix of
      what was submitted exists exactly when the list is confusable. */
  lemma PrefixExact(w: nat, ms: seq<Payload>)
    requires 0 < w && Int32(|ms|)
    ensures (exists states: seq<Gbn>, steps: seq<Step> ::
               && Run(w, states, steps) && states[|steps|].submitted <= ms
               && !(states[|steps|].delivered <= states[|steps|].submitted))
       <==> Confusable(w, ms)
  {
    hide Underway, Apply, Enabled, Initial, Slips, Differs;
    forall states: seq<Gbn>, steps: seq<Step>
      | Run(w, states, steps) && states[|steps|].submitted <= ms && !Confusable(w, ms)
      ensures states[|steps|].delivered <= states[|steps|].submitted
    {
      PrefixRun(w, ms, states, steps, |steps|);
    }
    if Confusable(w, ms) {
      var n: nat :| n < |ms| && n < TAMPERED + 1 + w && Slips(n, ms[n]) && Differs(ms, n);
      var base, k, states, steps := AtTheBound(w, ms, n);
      var g, step := states[|steps|], DataArrives(Tamper(DataPacket(n, ms[n])));
      ConfusedArrival(w, g, ms, base, k, n);
      RunExtend(w, states, steps, step);
      var states', steps' := states + [Apply(g, step)], steps + [step];
      assert states'[|steps'|] == Apply(g, step);
    }
  }
}
