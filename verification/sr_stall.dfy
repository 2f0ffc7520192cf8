/** The one promise of a reliable protocol that Selective Repeat does not keep: exactly when a packet can never be
    acknowledged any more, and a run of the program that gets there. */
module SrStall {
  import opened Rings
  import opened Packets
  import opened EventLists
  import opened Networks
  import opened SrSender
  import opened SrReceiver
  import opened SrProtocol
  import opened SrSimulator

  /** B has delivered `n` and keeps an old copy of it in its ring, while A never learned of it and no ACK
      that could tell it is on its way. */
  ghost predicate Stalled(w: nat, s: Sr, n: nat) {
    && Inv(w, s) && InWindowUnacked(s.snd, n)
    && n < s.rcv.expected && Holds(w, s.rcv, n)
    && NoAckFor(s.ch.acks, n)
  }

  ghost predicate NoAckFor(acks: seq<Flight>, n: nat) {
    forall j :: 0 <= j < |acks| ==> acks[j].pkt != AckPacket(n)
  }

  lemma {:induction false} SenderActsKeepAcks(c: Channel, fate: Oracle, acts: seq<Action>)
    ensures CarryAll(c, fate, SideA, acts).acks == c.acks
    decreases |acts|
  {
    if acts != [] {
      SenderActsKeepAcks(Carry(c, fate, SideA, acts[0]), fate, acts[1..]);
    }
  }

  lemma {:induction false} SlideKeepsUnacked(s: Sender, n: nat)
    requires InWindowUnacked(s, n)
    ensures InWindowUnacked(Slide(s), n)
    decreases |s.window|
  {
    if s.window[0].acknum == 1 && s.window[0].seqnum == s.base {
      SlideKeepsUnacked(s.(base := s.base + 1, window := s.window[1..]), n);
    }
  }

  lemma {:induction false} RefillKeepsUnacked(w: nat, s: Sender, n: nat)
    requires InWindowUnacked(s, n)
    ensures InWindowUnacked(Refill(w, s).snd, n)
    decreases |s.queue|
  {
    if s.queue != [] && s.next < s.base + w {
      RefillKeepsUnacked(w, TransmitNew(s.(queue := s.queue[1..]), s.queue[0]).snd, n);
    }
  }

  lemma AckKeepsStall(w: nat, fate: Oracle, s: Sr, n: nat)
    requires Stalled(w, s, n) && s.ch.acks != []
    ensures Stalled(w, Apply(w, fate, s, AckArrives), n)
  {
    hide Holds, Tamper;
    hide CarryAll, Refill, Slide, FindUnacked;
    AckInv(w, fate, s);
    AckSound(w, s);
    var f := s.ch.acks[0];
    var m := f.pkt.acknum;
    FindInWindow(w, s.snd, s.submitted, m);
    SenderActsKeepAcks(s.ch.(acks := s.ch.acks[1..]), fate, OnAck(w, s.snd, f.pkt).acts);
    if OnAck(w, s.snd, f.pkt).acts != [] {
      var marked := MarkAcked(s.snd, m - s.snd.base);
      assert m != n;
      SlideKeepsUnacked(marked, n);
      RefillKeepsUnacked(w, Slide(marked), n);
    }
  }

  lemma {:induction false} DrainKeepsOld(w: nat, r: Receiver, n: nat)
    requires r.Shaped(w) && Holds(w, r, n) && n < r.expected
    ensures Holds(w, Drain(w, r).rcv, n) && r.expected <= Drain(w, r).rcv.expected
    decreases MarkCount(r.marked)
  {
    ModBelow(r.expected, w);
    ModBelow(n, w);
    if Holds(w, r, r.expected) {
      UnmarkCount(r.marked, r.expected % w);
      DrainKeepsOld(w, PassUp(w, r), n);
    }
  }

  /** No packet that can arrive shares the slot of a stalled one. */
  lemma StalledSlotSafe(w: nat, s: Sr, n: nat)
    requires Stalled(w, s, n) && s.ch.data != []
    ensures s.ch.data[0].origin % w == n % w ==> s.ch.data[0].origin == n
    ensures !(Slips(s.submitted, s.ch.data[0].origin) && n == TAMPERED)
  {
    hide Mid, Holds;
    var o := s.ch.data[0].origin;
    FirstDataInRange(w, s);
    BelowExpected(w, s);
    NoSlipNearTampered(o, s.submitted[o][0]);
    if o != n {
      if o < n {
        DistinctSlots(o, n, w);
      } else {
        DistinctSlots(n, o, w);
      }
    }
  }

  lemma BelowExpected(w: nat, s: Sr)
    requires Inv(w, s) && s.ch.data != []
    ensures s.snd.base <= s.rcv.expected <= s.snd.next <= s.snd.base + w && 1 <= w <= SLOTS
    ensures 0 <= s.ch.data[0].origin < s.snd.next <= |s.submitted| <= MAXSEQ
  {
    BaseBelowExpected(w, s);
    assert DataFlightOk(s.ch.data[0], s.submitted, s.snd.next);
  }

  lemma NoAckAfter(c: Channel, fate: Oracle, p: Packet, o: int, n: nat)
    requires NoAckFor(c.acks, n) && p != AckPacket(n)
    ensures NoAckFor(CarryAll(c, fate, SideB, Acknowledge([p], o)).acks, n)
  {
    assert Acknowledge([p], o) == [Send(p, o)];
    CarryOne(c, fate, SideB, Send(p, o));
    assert Tamper(p).payload[0] == LETTER_Z && AckPacket(n).payload[0] == 0;
  }

  lemma IntactKeepsStall(w: nat, fate: Oracle, s: Sr, n: nat)
    requires Stalled(w, s, n) && s.ch.data != [] && s.ch.data[0].pkt == Original(s.submitted, s.ch.data[0].origin)
    ensures Enabled(w, s, DataArrives)
    ensures var t := Apply(w, fate, s, DataArrives);
            t.rcv.Shaped(w) && n < t.rcv.expected && Holds(w, t.rcv, n) && NoAckFor(t.ch.acks, n)
  {
    hide Mid, Settled, InWindowUnacked, CarryAll, Drain, Holds, NoAckFor;
    var f := s.ch.data[0];
    var c := s.ch.(data := s.ch.data[1..]);
    BelowExpected(w, s);
    var o: nat := f.origin;
    StalledSlotSafe(w, s, n);
    OwnChecksumAccepted(Packet(o, NOTUSED, 0, s.submitted[o]));
    FirstDataInRange(w, s);
    RcvShaped(w, s);
    if Holds(w, s.rcv, o) {
      DrainKeepsOld(w, s.rcv, n);
      NothingSent(c, fate, o);
    } else {
      StoreKeepsOld(w, s.rcv, f.pkt, n);
      DrainKeepsOld(w, Store(w, s.rcv, f.pkt), n);
      OtherAck(o, n);
      NoAckAfter(c, fate, AckPacket(o), o, n);
    }
  }

  lemma OtherAck(o: int, n: int)
    requires o != n
    ensures AckPacket(o) != AckPacket(n)
  {
  }

  lemma StoreKeepsOld(w: nat, r: Receiver, p: Packet, n: nat)
    requires r.Shaped(w) && Holds(w, r, n) && 0 <= p.seqnum && !Holds(w, r, p.seqnum)
    requires p.seqnum % w == n % w ==> p.seqnum == n
    ensures Holds(w, Store(w, r, p), n) && Store(w, r, p).expected == r.expected && p.seqnum != n
  {
    ModBelow(n, w);
    ModBelow(p.seqnum, w);
  }

  lemma DamagedKeepsStall(w: nat, fate: Oracle, s: Sr, n: nat)
    requires Stalled(w, s, n) && s.ch.data != [] && s.ch.data[0].pkt == Tamper(Original(s.submitted, s.ch.data[0].origin))
    ensures Enabled(w, s, DataArrives)
    ensures var t := Apply(w, fate, s, DataArrives);
            t.rcv == s.rcv && NoAckFor(t.ch.acks, n)
  {
    hide Mid, Settled, InWindowUnacked, CarryAll, Holds, NoAckFor;
    var f := s.ch.data[0];
    var c := s.ch.(data := s.ch.data[1..]);
    BelowExpected(w, s);
    StalledSlotSafe(w, s, n);
    TamperedDataInv(w, fate, s);
    TamperedDataAccepted(f.origin, s.submitted[f.origin]);
    NothingSent(c, fate, f.origin);
    if Accepts(f.pkt) {
      SlippedDataOutOfRange(w, s);
      OtherAck(TAMPERED, n);
      NoAckAfter(c, fate, AckPacket(TAMPERED), f.origin, n);
    }
  }

  lemma DataKeepsStall(w: nat, fate: Oracle, s: Sr, n: nat)
    requires Stalled(w, s, n) && s.ch.data != []
    ensures Enabled(w, s, DataArrives) && Stalled(w, Apply(w, fate, s, DataArrives), n)
  {
    hide Mid, Settled, CarryAll, Holds, NoAckFor, OnData;
    DataInv(w, fate, s);
    FirstFlight(w, s);
    if s.ch.data[0].pkt == Original(s.submitted, s.ch.data[0].origin) {
      IntactKeepsStall(w, fate, s, n);
    } else {
      DamagedKeepsStall(w, fate, s, n);
    }
  }

  lemma FirstFlight(w: nat, s: Sr)
    requires Inv(w, s) && s.ch.data != []
    ensures DataFlightOk(s.ch.data[0], s.submitted, s.snd.next)
  {
  }

  lemma RcvShaped(w: nat, s: Sr)
    requires Inv(w, s)
    ensures s.rcv.Shaped(w)
  {
  }

  lemma NothingSent(c: Channel, fate: Oracle, o: int)
    ensures CarryAll(c, fate, SideB, Acknowledge([], o)) == c
  {
    assert Acknowledge([], o) == [];
  }

  /** A stalled sender stays stalled whatever happens: the ring has no room for a second ACK. */
  lemma StallIsPermanent(w: nat, fate: Oracle, s: Sr, step: Step, n: nat)
    requires Stalled(w, s, n) && Enabled(w, s, step)
    ensures Stalled(w, Apply(w, fate, s, step), n)
  {
    hide Mid, CarryAll, Holds, Settled, AckPacket, OnData, OnAck;
    match step
    case Submit(m) =>
      SubmitInv(w, fate, s, m);
      SenderActsKeepAcks(s.ch, fate, OnSubmit(w, s.snd, m).acts);
    case DataArrives => DataKeepsStall(w, fate, s, n);
    case AckArrives => AckKeepsStall(w, fate, s, n);
    case Expire(k) =>
      ExpireInv(w, fate, s, k);
      ExpireResends(w, s, k);
      SenderActsKeepAcks(s.ch.(timers := s.ch.timers - multiset{k}), fate, OnTimeOut(s.snd, k).acts);
  }

  lemma StalledBound(w: nat, s: Sr, n: nat)
    requires Stalled(w, s, n)
    ensures |s.delivered| <= n + w
  {
    BaseBelowExpected(w, s);
  }

  /** From a stalled state on, no run ever delivers a message beyond number n + w. */
  lemma {:induction false} StalledRunDeliversNoMore(w: nat, fate: Oracle, states: seq<Sr>, steps: seq<Step>, i: nat, j: nat, n: nat)
    requires Run(w, fate, states, steps) && i <= j < |states| && Stalled(w, states[i], n)
    ensures Stalled(w, states[j], n) && |states[j].delivered| <= n + w
  {
    hide Stalled, Apply, Initial;
    if i < j {
      StalledRunDeliversNoMore(w, fate, states, steps, i, j - 1, n);
      StallIsPermanent(w, fate, states[j - 1], steps[j - 1], n);
    }
    StalledBound(w, states[j], n);
  }

  /** The only copy in flight reaches B and the channel loses the ACK. */
  lemma ArrivesAckLost(w: nat, fate: Oracle, s: Sr, m: Payload)
    requires Inv(w, s) && s.submitted == [m] && s.ch.data == [Flight(DataPacket(0, m), 0)] && s.ch.acks == []
    requires fate(s.ch.transmissions) == Lost && Unmarked(s.rcv) && s.rcv.expected <= 1
    ensures Enabled(w, s, DataArrives)
    ensures var t := Apply(w, fate, s, DataArrives);
            && t.snd == s.snd && t.submitted == s.submitted && t.rcv.expected == 1
            && t.ch == Channel([], [], s.ch.timers, s.ch.transmissions + 1)
            && if s.rcv.expected == 0 then Unmarked(t.rcv) else Holds(w, t.rcv, 0)
  {
    var p := DataPacket(0, m);
    OwnChecksumAccepted(Packet(0, NOTUSED, 0, m));
    if s.rcv.expected == 0 {
      InOrderReceipt(w, s.rcv, p);
    } else {
      RepeatedReceipt(w, s.rcv, p);
    }
    var c := s.ch.(data := []);
    assert s.ch.data[1..] == [];
    assert Acknowledge([AckPacket(0)], 0) == [Send(AckPacket(0), 0)];
    CarryOne(c, fate, SideB, Send(AckPacket(0), 0));
  }

  /** The timer of the only packet goes off while nothing is under way. */
  lemma ResendAlone(w: nat, fate: Oracle, s: Sr, m: Payload)
    requires Inv(w, s) && Enabled(w, s, Expire(0)) && s.submitted == [m] && InWindowUnacked(s.snd, 0)
    requires s.ch.data == [] && s.ch.acks == [] && fate(s.ch.transmissions) == Delivered
    ensures var t := Apply(w, fate, s, Expire(0));
            && t.ch.data == [Flight(DataPacket(0, m), 0)] && t.ch.acks == [] && t.ch.transmissions == s.ch.transmissions + 1
            && t.rcv == s.rcv && t.submitted == s.submitted && InWindowUnacked(t.snd, 0)
  {
    ExpireResends(w, s, 0);
    CarryTwo(s.ch.(timers := s.ch.timers - multiset{0}), fate, SideA, Send(DataPacket(0, m), 0), StartTimer(0));
  }

  /** Losing both ACKs that B sends for a packet is enough to stall the sender for good. */
  lemma TwoLostAcksStall(w: nat, m: Payload, r: Receiver, fate: Oracle) returns (states: seq<Sr>)
    requires 1 <= w <= SLOTS && IsInitial(r)
    requires fate(0) == Delivered && fate(1) == Lost && fate(2) == Delivered && fate(3) == Lost
    ensures Run(w, fate, states, [Submit(m), DataArrives, Expire(0), DataArrives])
    ensures Stalled(w, states[4], 0)
  {
    hide Mid, Settled, OnData, OnTimeOut, CarryAll, Holds;
    var steps := [Submit(m), DataArrives, Expire(0), DataArrives];
    var p := DataPacket(0, m);
    var s0 := Sr(InitialSender, r, Channel([], [], multiset{}, 0), [], []);
    InitialInv(w, s0);
    var s1 := Apply(w, fate, s0, steps[0]);
    StepInv(w, fate, s0, steps[0]);
    CarryTwo(s0.ch, fate, SideA, Send(p, 0), StartTimer(0));
    assert s1.ch == Channel([Flight(p, 0)], [], multiset{0}, 1);
    ArrivesAckLost(w, fate, s1, m);
    var s2 := Apply(w, fate, s1, steps[1]);
    StepInv(w, fate, s1, steps[1]);
    var s3 := Apply(w, fate, s2, steps[2]);
    StepInv(w, fate, s2, steps[2]);
    ResendAlone(w, fate, s2, m);
    ArrivesAckLost(w, fate, s3, m);
    var s4 := Apply(w, fate, s3, steps[3]);
    StepInv(w, fate, s3, steps[3]);
    states := [s0, s1, s2, s3, s4];
    assert states[0] == s0 && states[1] == s1 && states[2] == s2 && states[3] == s3 && states[4] == s4;
  }

  // ---------- exactly when a packet can still be acknowledged ----------

  /** The steps lead from `s` to `t`. */
  ghost predicate Path(w: nat, fate: Oracle, s: Sr, steps: seq<Step>, t: Sr)
    decreases |steps|
  {
    if steps == [] then t == s
    else Enabled(w, s, steps[0]) && Path(w, fate, Apply(w, fate, s, steps[0]), steps[1..], t)
  }

  /** Some continuation gets packet `n` acknowledged. */
  ghost predicate CanBeAcked(w: nat, fate: Oracle, s: Sr, n: nat) {
    exists steps: seq<Step>, t: Sr :: Path(w, fate, s, steps, t) && Acked(t.snd, n)
  }

  /** From the i-th transmission on, nothing is lost or damaged. */
  ghost predicate CleanFrom(fate: Oracle, i: nat) {
    forall j: nat | i <= j :: fate(j) == Delivered
  }

  lemma AckedNow(w: nat, fate: Oracle, s: Sr, n: nat)
    requires Acked(s.snd, n)
    ensures CanBeAcked(w, fate, s, n)
  {
    assert Path(w, fate, s, [], s);
  }

  lemma AckedLater(w: nat, fate: Oracle, s: Sr, step: Step, n: nat)
    requires Enabled(w, s, step) && CanBeAcked(w, fate, Apply(w, fate, s, step), n)
    ensures CanBeAcked(w, fate, s, n)
  {
    hide Acked, Apply, Enabled;
    var steps, t :| Path(w, fate, Apply(w, fate, s, step), steps, t) && Acked(t.snd, n);
    assert ([step] + steps)[1..] == steps;
    assert Path(w, fate, s, [step] + steps, t);
  }

  /** A stalled packet is never acknowledged. */
  lemma {:induction false} StalledPath(w: nat, fate: Oracle, s: Sr, steps: seq<Step>, t: Sr, n: nat)
    requires Stalled(w, s, n) && Path(w, fate, s, steps, t)
    ensures !Acked(t.snd, n)
    decreases |steps|
  {
    hide Apply, Enabled, Inv;
    if steps != [] {
      StallIsPermanent(w, fate, s, steps[0], n);
      StalledPath(w, fate, Apply(w, fate, s, steps[0]), steps[1..], t, n);
    }
  }

  // ---------- an acknowledgment under way arrives ----------

  lemma {:induction false} SlideKeepsAcked(s: Sender, n: nat)
    requires Acked(s, n)
    ensures Acked(Slide(s), n)
    decreases |s.window|
  {
    if s.window != [] && s.window[0].acknum == 1 && s.window[0].seqnum == s.base {
      SlideKeepsAcked(s.(base := s.base + 1, window := s.window[1..]), n);
    }
  }

  lemma {:induction false} RefillKeepsAcked(w: nat, s: Sender, n: nat)
    requires Acked(s, n)
    ensures Acked(Refill(w, s).snd, n)
    decreases |s.queue|
  {
    if s.queue != [] && s.next < s.base + w {
      RefillKeepsAcked(w, TransmitNew(s.(queue := s.queue[1..]), s.queue[0]).snd, n);
    }
  }

  /** The acknowledgment at the head of the channel is accepted. */
  lemma AckAccepted(w: nat, fate: Oracle, s: Sr, n: nat)
    requires Inv(w, s) && InWindowUnacked(s.snd, n) && s.ch.acks != [] && s.ch.acks[0].pkt == AckPacket(n)
    ensures Acked(Apply(w, fate, s, AckArrives).snd, n)
  {
    hide CarryAll, Slide, Refill, FindUnacked;
    OwnChecksumAccepted(Packet(NOTUSED, n, 0, ZeroPayload));
    FindInWindow(w, s.snd, s.submitted, n);
    var marked := MarkAcked(s.snd, n - s.snd.base);
    SlideKeepsAcked(marked, n);
    RefillKeepsAcked(w, Slide(marked), n);
  }

  /** A packet in flight stays unacknowledged in the window or becomes acknowledged. */
  lemma AckKeepsPacket(w: nat, fate: Oracle, s: Sr, n: nat)
    requires Inv(w, s) && InWindowUnacked(s.snd, n) && s.ch.acks != []
    ensures var t := Apply(w, fate, s, AckArrives);
            && Inv(w, t) && t.ch.acks == s.ch.acks[1..]
            && (InWindowUnacked(t.snd, n) || Acked(t.snd, n))
  {
    hide CarryAll, Slide, Refill, FindUnacked;
    AckInv(w, fate, s);
    var f := s.ch.acks[0];
    var m := f.pkt.acknum;
    FindInWindow(w, s.snd, s.submitted, m);
    SenderActsKeepAcks(s.ch.(acks := s.ch.acks[1..]), fate, OnAck(w, s.snd, f.pkt).acts);
    if OnAck(w, s.snd, f.pkt).acts != [] {
      var marked := MarkAcked(s.snd, m - s.snd.base);
      if m == n {
        SlideKeepsAcked(marked, n);
        RefillKeepsAcked(w, Slide(marked), n);
      } else {
        SlideKeepsUnacked(marked, n);
        RefillKeepsUnacked(w, Slide(marked), n);
      }
    }
  }

  lemma {:induction false} AckComes(w: nat, fate: Oracle, s: Sr, n: nat, j: nat)
    requires Inv(w, s) && InWindowUnacked(s.snd, n) && j < |s.ch.acks| && s.ch.acks[j].pkt == AckPacket(n)
    ensures CanBeAcked(w, fate, s, n)
    decreases j
  {
    hide Inv, Apply, CanBeAcked, Acked, InWindowUnacked;
    var t := Apply(w, fate, s, AckArrives);
    AckKeepsPacket(w, fate, s, n);
    if j == 0 {
      AckAccepted(w, fate, s, n);
    }
    if Acked(t.snd, n) {
      AckedNow(w, fate, t, n);
    } else {
      AckComes(w, fate, t, n, j - 1);
    }
    AckedLater(w, fate, s, AckArrives, n);
  }

  // ---------- otherwise a copy is received and acknowledged again ----------

  /** B would store and acknowledge a copy of `n`, now or once everything before it has been handed up. */
  ghost predicate NotKept(w: nat, r: Receiver, n: nat)
    requires r.Shaped(w)
  {
    n < r.expected ==> !Holds(w, r, n)
  }

  lemma {:induction false} DrainNotKept(w: nat, r: Receiver, n: nat)
    requires r.Shaped(w) && NotKept(w, r, n)
    ensures NotKept(w, Drain(w, r).rcv, n) && r.expected <= Drain(w, r).rcv.expected
    decreases MarkCount(r.marked)
  {
    ModBelow(r.expected, w);
    ModBelow(n, w);
    if Holds(w, r, r.expected) {
      UnmarkCount(r.marked, r.expected % w);
      DrainNotKept(w, PassUp(w, r), n);
    }
  }

  lemma StoreNotKept(w: nat, r: Receiver, p: Packet, n: nat)
    requires r.Shaped(w) && NotKept(w, r, n) && 0 <= p.seqnum && p.seqnum != n
    ensures NotKept(w, Store(w, r, p), n)
  {
    ModBelow(p.seqnum, w);
    ModBelow(n, w);
  }

  ghost predicate AckUnderWay(acks: seq<Flight>, n: nat) {
    exists j :: 0 <= j < |acks| && acks[j].pkt == AckPacket(n)
  }

  lemma AckSent(c: Channel, fate: Oracle, n: nat)
    requires CleanFrom(fate, c.transmissions)
    ensures var c' := CarryAll(c, fate, SideB, Acknowledge([AckPacket(n)], n));
            && c'.data == c.data && c'.timers == c.timers && c'.transmissions == c.transmissions + 1
            && c'.acks == c.acks + [Flight(AckPacket(n), n)] && AckUnderWay(c'.acks, n)
  {
    assert Acknowledge([AckPacket(n)], n) == [Send(AckPacket(n), n)];
    CarryOne(c, fate, SideB, Send(AckPacket(n), n));
    var acks := c.acks + [Flight(AckPacket(n), n)];
    assert acks[|c.acks|].pkt == AckPacket(n);
  }

  /** An intact packet over a clean channel: already held, it changes nothing; otherwise it is acknowledged. */
  lemma IntactEffect(w: nat, fate: Oracle, s: Sr)
    requires Inv(w, s) && s.ch.data != [] && CleanFrom(fate, s.ch.transmissions)
    requires s.ch.data[0].pkt == Original(s.submitted, s.ch.data[0].origin)
    ensures var o, c := s.ch.data[0].origin, s.ch.(data := s.ch.data[1..]);
            && 0 <= o && Enabled(w, s, DataArrives)
            && var t := Apply(w, fate, s, DataArrives);
               if Holds(w, s.rcv, o) then t.rcv == s.rcv && t.ch == c
               else t.rcv == Drain(w, Store(w, s.rcv, s.ch.data[0].pkt)).rcv
                    && t.ch == CarryAll(c, fate, SideB, Acknowledge([AckPacket(o)], o))
  {
    var f := s.ch.data[0];
    assert DataFlightOk(f, s.submitted, s.snd.next);
    OwnChecksumAccepted(Packet(f.origin, NOTUSED, 0, s.submitted[f.origin]));
    FirstDataInRange(w, s);
    NothingSent(s.ch.(data := s.ch.data[1..]), fate, f.origin);
  }

  /** Emptying the data channel by one packet. */
  lemma DrainData(w: nat, fate: Oracle, s: Sr, n: nat)
    requires Inv(w, s) && NotKept(w, s.rcv, n) && s.ch.data != [] && CleanFrom(fate, s.ch.transmissions)
    ensures Enabled(w, s, DataArrives)
    ensures var t := Apply(w, fate, s, DataArrives);
            && Inv(w, t) && t.snd == s.snd && t.ch.data == s.ch.data[1..] && s.rcv.expected <= t.rcv.expected
            && CleanFrom(fate, t.ch.transmissions)
            && (NotKept(w, t.rcv, n) || AckUnderWay(t.ch.acks, n))
  {
    DataInv(w, fate, s);
    var f := s.ch.data[0];
    var c := s.ch.(data := s.ch.data[1..]);
    assert DataFlightOk(f, s.submitted, s.snd.next);
    if f.pkt == Original(s.submitted, f.origin) {
      IntactDrains(w, fate, s, n);
    } else {
      DamagedDrains(w, fate, s);
    }
  }

  lemma IntactDrains(w: nat, fate: Oracle, s: Sr, n: nat)
    requires Inv(w, s) && NotKept(w, s.rcv, n) && s.ch.data != [] && CleanFrom(fate, s.ch.transmissions)
    requires s.ch.data[0].pkt == Original(s.submitted, s.ch.data[0].origin)
    ensures Enabled(w, s, DataArrives)
    ensures var t := Apply(w, fate, s, DataArrives);
            && t.ch.data == s.ch.data[1..] && s.rcv.expected <= t.rcv.expected && CleanFrom(fate, t.ch.transmissions)
            && t.rcv.Shaped(w) && (NotKept(w, t.rcv, n) || AckUnderWay(t.ch.acks, n))
  {
    hide Apply, Inv, Drain, Store, Holds, CarryAll, AckUnderWay, NotKept;
    var p, o := s.ch.data[0].pkt, s.ch.data[0].origin;
    RcvShaped(w, s);
    IntactEffect(w, fate, s);
    if !Holds(w, s.rcv, o) {
      AckSent(s.ch.(data := s.ch.data[1..]), fate, o);
      StoreExpected(w, s.rcv, p);
      if o != n {
        StoreNotKept(w, s.rcv, p, n);
        DrainNotKept(w, Store(w, s.rcv, p), n);
      } else {
        DrainGrows(w, Store(w, s.rcv, p));
      }
    }
  }

  lemma StoreExpected(w: nat, r: Receiver, p: Packet)
    requires r.Shaped(w) && 0 <= p.seqnum
    ensures Store(w, r, p).expected == r.expected && Holds(w, Store(w, r, p), p.seqnum)
  {
    ModBelow(p.seqnum, w);
  }

  lemma {:induction false} DrainGrows(w: nat, r: Receiver)
    requires r.Shaped(w)
    ensures r.expected <= Drain(w, r).rcv.expected
    ensures Holds(w, r, r.expected) ==> r.expected < Drain(w, r).rcv.expected
    decreases MarkCount(r.marked)
  {
    ModBelow(r.expected, w);
    if Holds(w, r, r.expected) {
      UnmarkCount(r.marked, r.expected % w);
      DrainGrows(w, PassUp(w, r));
    }
  }

  lemma DamagedDrains(w: nat, fate: Oracle, s: Sr)
    requires Inv(w, s) && s.ch.data != [] && CleanFrom(fate, s.ch.transmissions)
    requires s.ch.data[0].pkt == Tamper(Original(s.submitted, s.ch.data[0].origin))
    ensures Enabled(w, s, DataArrives)
    ensures var t := Apply(w, fate, s, DataArrives);
            t.rcv == s.rcv && t.ch.data == s.ch.data[1..] && CleanFrom(fate, t.ch.transmissions)
  {
    var f := s.ch.data[0];
    var c := s.ch.(data := s.ch.data[1..]);
    TamperedDataInv(w, fate, s);
    TamperedDataAccepted(f.origin, s.submitted[f.origin]);
    NothingSent(c, fate, f.origin);
    if Accepts(f.pkt) {
      SlippedDataOutOfRange(w, s);
      assert Acknowledge([AckPacket(TAMPERED)], f.origin) == [Send(AckPacket(TAMPERED), f.origin)];
      CarryOne(c, fate, SideB, Send(AckPacket(TAMPERED), f.origin));
    }
  }

  /** With an empty data channel, the timer of a packet of the window puts one intact copy of it under way. */
  lemma Resend(w: nat, fate: Oracle, s: Sr, m: nat)
    requires Inv(w, s) && s.ch.data == [] && InWindowUnacked(s.snd, m) && CleanFrom(fate, s.ch.transmissions)
    ensures Enabled(w, s, Expire(m))
    ensures var t := Apply(w, fate, s, Expire(m));
            && Inv(w, t) && t.rcv == s.rcv && t.submitted == s.submitted && t.snd.base == s.snd.base && t.snd.window == s.snd.window
            && m < |s.submitted| && t.ch.data == [Flight(Original(s.submitted, m), m)] && CleanFrom(fate, t.ch.transmissions)
  {
    hide CarryAll;
    assert s.ch.timers[m] == 1;
    ExpireInv(w, fate, s, m);
    ExpireResends(w, s, m);
    var c := s.ch.(timers := s.ch.timers - multiset{m as int});
    CarryTwo(c, fate, SideA, Send(Original(s.submitted, m), m), StartTimer(m));
  }

  /** The packet that B needs next, or `n` when that is behind it. */
  function Needed(s: Sr, n: nat): nat {
    if n < s.rcv.expected then n else s.rcv.expected
  }

  lemma NeededInWindow(w: nat, s: Sr, n: nat)
    requires Inv(w, s) && InWindowUnacked(s.snd, n) && NotKept(w, s.rcv, n)
    ensures InWindowUnacked(s.snd, Needed(s, n)) && !Holds(w, s.rcv, Needed(s, n))
  {
    BaseBelowExpected(w, s);
    var m := Needed(s, n);
    if m != n {
      assert !Acked(s.snd, m);
      assert WindowSlotOk(s.snd, m - s.snd.base, s.submitted);
    }
  }

  /** Resending the packet that B needs: it is acknowledged, and B moves on when it was the expected one. */
  lemma ResendNeeded(w: nat, fate: Oracle, s: Sr, n: nat)
    requires Inv(w, s) && InWindowUnacked(s.snd, n) && NotKept(w, s.rcv, n)
    requires s.ch.data == [] && CleanFrom(fate, s.ch.transmissions)
    ensures var m := Needed(s, n);
            && Enabled(w, s, Expire(m))
            && var t := Apply(w, fate, s, Expire(m));
               && Enabled(w, t, DataArrives)
               && var u := Apply(w, fate, t, DataArrives);
                  && Inv(w, u) && InWindowUnacked(u.snd, n) && CleanFrom(fate, u.ch.transmissions) && u.ch.data == []
                  && AckUnderWay(u.ch.acks, m)
                  && (m == s.rcv.expected ==> s.rcv.expected < u.rcv.expected)
                  && (NotKept(w, u.rcv, n) || AckUnderWay(u.ch.acks, n))
  {
    hide Apply, Drain, Store, Holds, CarryAll, AckUnderWay, NotKept, Mid, CleanFrom;
    var m := Needed(s, n);
    RcvShaped(w, s);
    NeededInWindow(w, s, n);
    Resend(w, fate, s, m);
    var t := Apply(w, fate, s, Expire(m));
    IntactEffect(w, fate, t);
    AckSent(t.ch.(data := t.ch.data[1..]), fate, m);
    DrainData(w, fate, t, n);
    StoreExpected(w, t.rcv, t.ch.data[0].pkt);
    DrainGrows(w, Store(w, t.rcv, t.ch.data[0].pkt));
  }

  /** How far B is from having handed up `n`. */
  function Behind(s: Sr, n: nat): nat {
    if n < s.rcv.expected then 0 else n + 1 - s.rcv.expected
  }

  lemma UnderWayComes(w: nat, fate: Oracle, s: Sr, n: nat)
    requires Inv(w, s) && InWindowUnacked(s.snd, n) && AckUnderWay(s.ch.acks, n)
    ensures CanBeAcked(w, fate, s, n)
  {
    hide Inv, CanBeAcked, InWindowUnacked;
    var j :| 0 <= j < |s.ch.acks| && s.ch.acks[j].pkt == AckPacket(n);
    AckComes(w, fate, s, n, j);
  }

  lemma {:induction false} NotKeptComes(w: nat, fate: Oracle, s: Sr, n: nat)
    requires Inv(w, s) && InWindowUnacked(s.snd, n) && NotKept(w, s.rcv, n) && CleanFrom(fate, s.ch.transmissions)
    ensures CanBeAcked(w, fate, s, n)
    decreases Behind(s, n), |s.ch.data|
  {
    hide Inv, Apply, CanBeAcked, Acked, InWindowUnacked, NotKept, CleanFrom, Enabled, Holds;
    RcvShaped(w, s);
    if AckUnderWay(s.ch.acks, n) {
      UnderWayComes(w, fate, s, n);
    } else if s.ch.data != [] {
      DrainData(w, fate, s, n);
      var t := Apply(w, fate, s, DataArrives);
      RcvShaped(w, t);
      if AckUnderWay(t.ch.acks, n) {
        UnderWayComes(w, fate, t, n);
      } else {
        NotKeptComes(w, fate, t, n);
      }
      AckedLater(w, fate, s, DataArrives, n);
    } else {
      var m := Needed(s, n);
      ResendNeeded(w, fate, s, n);
      var t := Apply(w, fate, s, Expire(m));
      var u := Apply(w, fate, t, DataArrives);
      RcvShaped(w, u);
      if AckUnderWay(u.ch.acks, n) {
        UnderWayComes(w, fate, u, n);
      } else {
        NotKeptComes(w, fate, u, n);
      }
      AckedLater(w, fate, t, DataArrives, n);
      AckedLater(w, fate, s, Expire(m), n);
    }
  }

  /** Exactly when a packet can never be acknowledged any more, even over a channel that is clean from now on: B has
      delivered it and keeps an old copy in its ring, and no ACK for it is under way. */
  lemma StallExact(w: nat, fate: Oracle, s: Sr, n: nat)
    requires Inv(w, s) && InWindowUnacked(s.snd, n) && CleanFrom(fate, s.ch.transmissions)
    ensures Stalled(w, s, n) <==> !CanBeAcked(w, fate, s, n)
  {
    if Stalled(w, s, n) {
      forall steps: seq<Step>, t: Sr | Path(w, fate, s, steps, t) ensures !Acked(t.snd, n) {
        StalledPath(w, fate, s, steps, t, n);
      }
    } else if NoAckFor(s.ch.acks, n) {
      NotKeptComes(w, fate, s, n);
    } else {
      UnderWayComes(w, fate, s, n);
    }
  }

  // ---------- a run of the program that stalls ----------

  /** The first message's packet is under way to B, with its timer running. */
  ghost predicate CopyUnderWay(cfg: Config, t: Sim, m: Payload, received: bool) {
    && cfg.Usable() && !t.exited && t.snd.base == 0 && t.snd.next == 1 && t.snd.window == [DataPacket(0, m)] && t.snd.queue == []
    && t.rcv.Shaped(cfg.w) && Unmarked(t.rcv) && t.rcv.expected == (if received then 1 else 0)
    && exists x: real, y: real ::
         t.net.events == [FromLayer3(x, SideB, DataPacket(0, m), 0), TimeOut(y, SideA, 0)]
  }

  /** B has it, the ACK is lost, and only the timer is pending. */
  ghost predicate OnlyTimer(cfg: Config, t: Sim, m: Payload, received: bool) {
    && cfg.Usable() && !t.exited && t.snd.base == 0 && t.snd.next == 1 && t.snd.window == [DataPacket(0, m)] && t.snd.queue == []
    && t.rcv.Shaped(cfg.w) && t.rcv.expected == 1
    && (if received then Holds(cfg.w, t.rcv, 0) else Unmarked(t.rcv))
    && exists y: real :: t.net.events == [TimeOut(y, SideA, 0)]
  }

  lemma CopyArrives(cfg: Config, t: Sim, m: Payload, received: bool)
    requires CopyUnderWay(cfg, t, m, received) && FateOf(cfg.pattern, t.net.transmissions) == Lost
    ensures CanStep(cfg, t) && OnlyTimer(cfg, SimStep(cfg, t), m, received)
    ensures SimStep(cfg, t).net.transmissions == t.net.transmissions + 1
  {
    hide FateOf, Drain, Tamper;
    var p := DataPacket(0, m);
    OwnChecksumAccepted(Packet(0, NOTUSED, 0, m));
    if received {
      RepeatedReceipt(cfg.w, t.rcv, p);
    } else {
      InOrderReceipt(cfg.w, t.rcv, p);
    }
    assert Acknowledge([AckPacket(0)], 0) == [Send(AckPacket(0), 0)];
    var net := t.net.(time := t.net.events[0].time, events := t.net.events[1..]);
    PerformOne(net, cfg.pattern, SideB, Send(AckPacket(0), 0));
    assert SimStep(cfg, t).net.events == net.events == [TimeOut(t.net.events[1].time, SideA, 0)];
  }

  lemma InsertBoth(e: Event, late: Event)
    requires e.time < late.time
    ensures Insert(Insert([], e), late) == [e, late]
  {
    assert [e][1..] == [];
  }

  lemma TimerResends(cfg: Config, t: Sim, m: Payload)
    requires OnlyTimer(cfg, t, m, false) && FateOf(cfg.pattern, t.net.transmissions) == Delivered
    ensures CanStep(cfg, t) && CopyUnderWay(cfg, SimStep(cfg, t), m, true)
    ensures SimStep(cfg, t).net.transmissions == t.net.transmissions + 1
  {
    hide FateOf, Insert;
    var p := DataPacket(0, m);
    var y := t.net.events[0].time;
    var net := t.net.(time := y, events := t.net.events[1..]);
    assert t.net.events[1..] == [];
    PerformTwo(net, cfg.pattern, SideA, Send(p, 0), StartTimer(0));
    var e, late := FromLayer3(y + CHANNEL_DELAY, SideB, p, 0), TimeOut(y + RTT, SideA, 0);
    InsertBoth(e, late);
    assert SimStep(cfg, t).net.events == [e, late];
  }

  lemma FirstArrival(cfg: Config, s: Sim)
    requires cfg.Usable() && Started(cfg, s) && cfg.nsimmax == 1 && FateOf(cfg.pattern, 0) == Delivered
    ensures CanStep(cfg, s) && CopyUnderWay(cfg, SimStep(cfg, s), Letters(1), false)
    ensures SimStep(cfg, s).net.transmissions == 1
  {
    hide FateOf, Insert, Letters;
    var p := DataPacket(0, Letters(1));
    var y := cfg.lambda;
    var net := Net(y, [], 0);
    assert s.net.events[1..] == [];
    PerformTwo(net, cfg.pattern, SideA, Send(p, 0), StartTimer(0));
    var e, late := FromLayer3(y + CHANNEL_DELAY, SideB, p, 0), TimeOut(y + RTT, SideA, 0);
    InsertBoth(e, late);
    assert SimStep(cfg, s).net.events == [e, late];
  }

  /** The program sends one message over a channel that delivers every first transmission and loses every second: after
      four rounds it has stalled. */
  lemma StallsAfterFour(cfg: Config, s: Sim)
    requires cfg.Usable() && Started(cfg, s) && cfg.nsimmax == 1 && cfg.pattern == "oxox"
    ensures var t := SimRun(cfg, s, 4);
            SimInv(cfg, t) && !t.exited && Stalled(cfg.w, Abs(t), 0) && |t.submitted| == 1
  {
    hide SimStep, CanStep, SimRun, CopyUnderWay, OnlyTimer, FateOf, SimInv;
    PatternFates();
    var m := Letters(1);
    FirstArrival(cfg, s);
    var t1 := SimStep(cfg, s);
    CopyArrives(cfg, t1, m, false);
    var t2 := SimStep(cfg, t1);
    TimerResends(cfg, t2, m);
    var t3 := SimStep(cfg, t2);
    CopyArrives(cfg, t3, m, true);
    var t4 := SimStep(cfg, t3);
    RunOne(cfg, s, 4);
    RunOne(cfg, t1, 3);
    RunOne(cfg, t2, 2);
    RunOne(cfg, t3, 1);
    RunNone(cfg, t4);
    StartedInv(cfg, s);
    SimRunInv(cfg, s, 4);
    OnlyTimerStalls(cfg, t4, m);
  }

  lemma PatternFates()
    ensures FateOf("oxox", 0) == Delivered && FateOf("oxox", 1) == Lost
    ensures FateOf("oxox", 2) == Delivered && FateOf("oxox", 3) == Lost
  {
  }

  lemma RunOne(cfg: Config, s: Sim, rounds: nat)
    requires CanStep(cfg, s) && 0 < rounds
    ensures SimRun(cfg, s, rounds) == SimRun(cfg, SimStep(cfg, s), rounds - 1)
  {
  }

  lemma RunNone(cfg: Config, s: Sim)
    ensures SimRun(cfg, s, 0) == s
  {
  }

  lemma OnlyTimerStalls(cfg: Config, t: Sim, m: Payload)
    requires OnlyTimer(cfg, t, m, true) && SimInv(cfg, t)
    ensures !t.exited && Stalled(cfg.w, Abs(t), 0) && |t.submitted| == 1
  {
    assert t.net.events == [t.net.events[0]];
    SingleView(t.net.events[0], SideA);
    assert DataPacket(0, m).acknum == 0;
  }

  /** A stalled program whose messages have all been submitted goes on and stays stalled. */
  lemma StalledRound(cfg: Config, t: Sim, n: nat)
    requires SimInv(cfg, t) && !t.exited && Stalled(cfg.w, Abs(t), n) && |t.submitted| == cfg.nsimmax
    ensures t.net.events != [] && CanStep(cfg, t)
    ensures var u := SimStep(cfg, t);
            SimInv(cfg, u) && !u.exited && Stalled(cfg.w, Abs(u), n) && u.submitted == t.submitted
  {
    hide Inv, SimStep, Apply, Holds, Stalled;
    TimerPending(cfg, t, n);
    SimStepRefines(cfg, t);
    NoArrival(cfg, t);
    StallIsPermanent(cfg.w, OracleOf(cfg.pattern), Abs(t), StepOf(cfg, t), n);
    NotSubmitted(cfg.w, OracleOf(cfg.pattern), Abs(t), StepOf(cfg, t));
  }

  lemma TimerPending(cfg: Config, t: Sim, n: nat)
    requires Stalled(cfg.w, Abs(t), n)
    ensures t.net.events != []
  {
    assert Abs(t).ch.timers[n] == 1;
  }

  lemma NoArrival(cfg: Config, t: Sim)
    requires Bookkept(cfg, t) && !t.exited && |t.submitted| == cfg.nsimmax && t.net.events != []
    ensures !t.net.events[0].FromLayer5?
  {
  }

  lemma NotSubmitted(w: nat, fate: Oracle, s: Sr, step: Step)
    requires Enabled(w, s, step) && !step.Submit?
    ensures Apply(w, fate, s, step).submitted == s.submitted
  {
  }

  /** A run of the program that never ends: one message, a pattern that loses every second transmission.  From the
      fourth round on it is stalled, a timer is always pending, and A never learns that the message has arrived. */
  lemma {:induction false} ProgramStallsForever(cfg: Config, s: Sim, rounds: nat)
    requires cfg.Usable() && Started(cfg, s) && cfg.nsimmax == 1 && cfg.pattern == "oxox" && 4 <= rounds
    ensures var t := SimRun(cfg, s, rounds);
            && SimInv(cfg, t) && !t.exited && t.net.events != []
            && Stalled(cfg.w, Abs(t), 0) && !Acked(t.snd, 0) && |t.submitted| == 1
    decreases rounds
  {
    hide SimInv, SimStep, CanStep, SimRun, Stalled, Started;
    if rounds == 4 {
      StallsAfterFour(cfg, s);
    } else {
      ProgramStallsForever(cfg, s, rounds - 1);
      StalledRound(cfg, SimRun(cfg, s, rounds - 1), 0);
      SimRunExtend(cfg, s, rounds - 1);
    }
    StalledRound(cfg, SimRun(cfg, s, rounds), 0);
    StalledNotAcked(cfg.w, Abs(SimRun(cfg, s, rounds)), 0);
  }

  lemma StalledNotAcked(w: nat, s: Sr, n: nat)
    requires Stalled(w, s, n)
    ensures !Acked(s.snd, n)
  {
  }
}
