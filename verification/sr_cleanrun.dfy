/** Selective Repeat on a clean channel: with a pattern that neither loses nor corrupts, the simulator stops
    after exactly three rounds per message, with nothing resent and everything delivered. */
module SrCleanRun {
  import opened Packets
  import opened EventLists
  import opened Networks
  import opened SrSender
  import opened SrReceiver
  import opened SrProtocol
  import opened SrSimulator

  predicate CleanPattern(pattern: seq<char>) {
    pattern != [] && forall i :: 0 <= i < |pattern| ==> pattern[i] != 'x' && pattern[i] != '-'
  }

  ghost predicate CleanOracle(fate: Oracle) {
    forall i: nat :: fate(i) == Delivered
  }

  lemma CleanFate(pattern: seq<char>, i: nat)
    requires CleanPattern(pattern)
    ensures FateOf(pattern, i) == Delivered
  {
  }

  lemma CleanFates(pattern: seq<char>)
    requires CleanPattern(pattern)
    ensures CleanOracle(OracleOf(pattern))
  {
  }

  // ---------- the protocol, without time ----------

  /** In flight are exactly one copy of each packet B still expects and one ACK for each packet it has
      delivered but A does not know about, both in order. */
  ghost predicate CleanSr(w: nat, s: Sr) {
    Inv(w, s) && Clean(s)
  }

  ghost predicate Clean(s: Sr) {
    && s.snd.base <= s.rcv.expected <= s.snd.next <= |s.submitted| && s.snd.resent == 0
    && |s.rcv.marked| == SLOTS && Unmarked(s.rcv)
    && |s.ch.data| == s.snd.next - s.rcv.expected && |s.ch.acks| == s.rcv.expected - s.snd.base
    && (forall i :: 0 <= i < |s.ch.data| ==>
          s.ch.data[i] == Flight(Original(s.submitted, s.rcv.expected + i), s.rcv.expected + i))
    && (forall i :: 0 <= i < |s.ch.acks| ==> s.ch.acks[i] == Flight(AckPacket(s.snd.base + i), s.snd.base + i))
    && (forall i :: 0 <= i < |s.snd.window| ==> s.snd.window[i].acknum == 0)
  }

  /** Carrying the two requests for a new packet over a clean channel. */
  lemma CleanCarry(c: Channel, fate: Oracle, p: Packet, n: int)
    requires CleanOracle(fate)
    ensures CarryAll(c, fate, SideA, [Send(p, n), StartTimer(n)])
         == Channel(c.data + [Flight(p, n)], c.acks, c.timers + multiset{n}, c.transmissions + 1)
  {
    CarryTwo(c, fate, SideA, Send(p, n), StartTimer(n));
  }

  lemma CleanSubmit(w: nat, fate: Oracle, s: Sr, m: Payload)
    requires CleanSr(w, s) && CleanOracle(fate) && Enabled(w, s, Submit(m))
    ensures var t := Apply(w, fate, s, Submit(m));
            CleanSr(w, t) && t.rcv == s.rcv && t.snd.base == s.snd.base && |t.submitted| == |s.submitted| + 1
  {
    SubmitInv(w, fate, s, m);
    CleanSubmitShape(w, fate, s, m);
  }

  lemma CleanSubmitShape(w: nat, fate: Oracle, s: Sr, m: Payload)
    requires CleanSr(w, s) && CleanOracle(fate) && Enabled(w, s, Submit(m))
    ensures Clean(Apply(w, fate, s, Submit(m)))
  {
    var t := Apply(w, fate, s, Submit(m));
    BaseBelowExpected(w, s);
    if s.snd.next < s.snd.base + w {
      var n := s.snd.next;
      assert s.snd.queue == [] && n == |s.submitted|;
      CleanCarry(s.ch, fate, DataPacket(n, m), n);
      CleanSent(s, t, n, m);
    } else {
      assert CarryAll(s.ch, fate, SideA, []) == s.ch;
    }
  }

  /** Submitting into a window with room. */
  lemma CleanSent(s: Sr, t: Sr, n: nat, m: Payload)
    requires Clean(s) && n == s.snd.next == |s.submitted| && t.rcv == s.rcv && t.submitted == s.submitted + [m]
    requires t.snd == TransmitNew(s.snd, m).snd
    requires t.ch.data == s.ch.data + [Flight(DataPacket(n, m), n)] && t.ch.acks == s.ch.acks
    ensures Clean(t)
  {
  }

  /** B gets the packet it expects, hands it up at once and acknowledges it. */
  lemma CleanReceipt(w: nat, s: Sr)
    requires CleanSr(w, s) && s.ch.data != []
    ensures var p := s.ch.data[0].pkt;
            var d := OnData(w, s.rcv, p);
            p == Original(s.submitted, s.rcv.expected) && Addressable(w, s.rcv, p)
            && d.acks == [AckPacket(s.rcv.expected)] && |d.delivered| == 1
            && d.rcv.expected == s.rcv.expected + 1 && Unmarked(d.rcv)
  {
    var n := s.rcv.expected;
    var p := s.ch.data[0].pkt;
    OwnChecksumAccepted(Packet(n, NOTUSED, 0, s.submitted[n]));
    InOrderReceipt(w, s.rcv, p);
  }

  lemma CleanData(w: nat, fate: Oracle, s: Sr)
    requires CleanSr(w, s) && CleanOracle(fate) && s.ch.data != []
    ensures Enabled(w, s, DataArrives)
    ensures var t := Apply(w, fate, s, DataArrives);
            CleanSr(w, t) && t.snd == s.snd && t.submitted == s.submitted && t.rcv.expected == s.rcv.expected + 1
            && OnData(w, s.rcv, s.ch.data[0].pkt).acks == [AckPacket(s.rcv.expected)]
  {
    CleanReceipt(w, s);
    DataInv(w, fate, s);
    var n := s.rcv.expected;
    var t := Apply(w, fate, s, DataArrives);
    var c := s.ch.(data := s.ch.data[1..]);
    assert Acknowledge([AckPacket(n)], n) == [Send(AckPacket(n), n)];
    CarryOne(c, fate, SideB, Send(AckPacket(n), n));
    CleanReceived(s, t, n);
  }

  lemma CleanReceived(s: Sr, t: Sr, n: nat)
    requires Clean(s) && n == s.rcv.expected && s.ch.data != [] && t.snd == s.snd && t.submitted == s.submitted
    requires t.rcv.expected == n + 1 && |t.rcv.marked| == SLOTS && Unmarked(t.rcv)
    requires t.ch.data == s.ch.data[1..] && t.ch.acks == s.ch.acks + [Flight(AckPacket(n), n)]
    ensures Clean(t)
  {
  }

  /** A gets the ACK of the first packet in its window: the window slides by one and one queued message,
      if any, is sent. */
  lemma CleanAckEffect(w: nat, s: Sr)
    requires CleanSr(w, s) && s.ch.acks != []
    ensures var n := s.snd.base;
            var r := OnAck(w, s.snd, s.ch.acks[0].pkt);
            s.ch.acks[0] == Flight(AckPacket(n), n) && s.snd.window != []
            && var slid := s.snd.(base := n + 1, window := s.snd.window[1..]);
               if s.snd.queue == [] then r == Effect(slid, [StopTimer(n)])
               else
                 var e := TransmitNew(slid.(queue := slid.queue[1..]), slid.queue[0]);
                 r == Effect(e.snd, [StopTimer(n)] + e.acts)
  {
    var n := s.snd.base;
    BaseBelowExpected(w, s);
    OwnChecksumAccepted(Packet(NOTUSED, n, 0, ZeroPayload));
    assert InWindowUnacked(s.snd, n);
    FindInWindow(w, s.snd, s.submitted, n);
    assert WindowSlotOk(s.snd, 0, s.submitted);
    var marked := MarkAcked(s.snd, 0);
    var slid := s.snd.(base := n + 1, window := s.snd.window[1..]);
    assert marked.window[1..] == s.snd.window[1..];
    assert marked.(base := n + 1, window := marked.window[1..]) == slid;
    assert Slide(slid) == slid;
    assert Slide(marked) == slid;
    if s.snd.queue != [] {
      var e := TransmitNew(slid.(queue := slid.queue[1..]), slid.queue[0]);
      assert Refill(w, e.snd) == Effect(e.snd, []);
      assert e.acts + [] == e.acts;
    }
  }

  lemma CleanAck(w: nat, fate: Oracle, s: Sr)
    requires CleanSr(w, s) && CleanOracle(fate) && s.ch.acks != []
    ensures var t := Apply(w, fate, s, AckArrives);
            CleanSr(w, t) && t.rcv == s.rcv && t.submitted == s.submitted && t.snd.base == s.snd.base + 1
  {
    AckInv(w, fate, s);
    CleanAckEffect(w, s);
    BaseBelowExpected(w, s);
    var n := s.snd.base;
    var t := Apply(w, fate, s, AckArrives);
    var c := s.ch.(acks := s.ch.acks[1..]);
    var c1 := Carry(c, fate, SideA, StopTimer(n));
    CarryOne(c, fate, SideA, StopTimer(n));
    var slid := s.(snd := s.snd.(base := n + 1, window := s.snd.window[1..]), ch := c1);
    CleanSlid(s, slid);
    if s.snd.queue != [] {
      var k, m := s.snd.next, s.snd.queue[0];
      assert m == s.submitted[k];
      CarryAppend(c, fate, SideA, [StopTimer(n)], [Send(DataPacket(k, m), k), StartTimer(k)]);
      CleanCarry(c1, fate, DataPacket(k, m), k);
      CleanRefilled(slid, t, k, m);
    }
  }

  lemma CleanSlid(s: Sr, t: Sr)
    requires Clean(s) && s.ch.acks != [] && s.snd.window != []
    requires t.snd == s.snd.(base := s.snd.base + 1, window := s.snd.window[1..])
    requires t.rcv == s.rcv && t.submitted == s.submitted && t.ch.data == s.ch.data && t.ch.acks == s.ch.acks[1..]
    ensures Clean(t)
  {
  }

  /** Sending a message that was submitted earlier. */
  lemma CleanRefilled(s: Sr, t: Sr, n: nat, m: Payload)
    requires Clean(s) && n == s.snd.next < |s.submitted| && m == s.submitted[n]
    requires t.rcv == s.rcv && t.submitted == s.submitted
    requires t.snd == TransmitNew(s.snd.(queue := t.snd.queue), m).snd
    requires t.ch.data == s.ch.data + [Flight(DataPacket(n, m), n)] && t.ch.acks == s.ch.acks
    ensures Clean(t)
  {
  }

  lemma CleanInitial(w: nat, s: Sr)
    requires Initial(w, s)
    ensures CleanSr(w, s)
  {
    InitialInv(w, s);
  }

  // ---------- time ----------

  /** How long before a timer the copy that will cancel it arrives. */
  function Lead(to: Side): real {
    if to.SideB? then RTT - CHANNEL_DELAY else RTT - 2.0 * CHANNEL_DELAY
  }

  /** Event `e` is the copy, or the ACK, that keeps timer `x` from going off. */
  ghost predicate Guards(e: Event, x: Event)
  {
    x.TimeOut? && e.FromLayer3? && e.origin == x.seqno && x.time == e.time + Lead(e.entity)
  }

  /** Every timer whose number is not in `skip` has a guard pending. */
  ghost predicate Guarded(evs: seq<Event>, skip: set<int>) {
    forall x :: x in evs && x.TimeOut? && x.seqno !in skip ==> HasGuard(evs, x)
  }

  ghost predicate HasGuard(evs: seq<Event>, x: Event) {
    exists e :: e in evs && Guards(e, x)
  }

  /** The simulator on a clean channel: nothing in flight is missing, every timer is guarded by an earlier
      arrival, and an arrival is pending as long as messages remain. */
  ghost predicate CleanSim(cfg: Config, s: Sim) {
    && SimInv(cfg, s) && !s.exited && CleanPattern(cfg.pattern) && 0 <= cfg.nsimmax < 5000
    && Clean(Abs(s)) && Guarded(s.net.events, {})
    && (s.nsim < cfg.nsimmax ==> ArrivalCount(s.net.events) > 0)
  }

  /** A guarded timer is never the next event: 6.5 + 6.5 time units are less than 15. */
  lemma NoTimeOut(cfg: Config, s: Sim)
    requires CleanSim(cfg, s) && s.net.events != []
    ensures !s.net.events[0].TimeOut?
  {
    var x := s.net.events[0];
    forall e | e in s.net.events ensures !Guards(e, x) {
      var i :| 0 <= i < |s.net.events| && s.net.events[i] == e;
      assert x.time <= e.time;
    }
    assert !HasGuard(s.net.events, x);
  }

  lemma InsertHas(evs: seq<Event>, e: Event, x: Event)
    requires x == e || x in evs
    ensures x in Insert(evs, e)
  {
    var k := InsertPosition(evs, e.time);
    assert evs == evs[..k] + evs[k..];
  }

  lemma RemoveHas(evs: seq<Event>, n: int, x: Event)
    requires x in evs && !x.TimeOut?
    ensures x in RemoveTimer(evs, SideA, n)
  {
    var k := TimerPosition(evs, SideA, n);
    if k < |evs| {
      assert evs == evs[..k] + [evs[k]] + evs[k + 1..];
    }
  }

  /** Adding an event keeps every guard; a new timer needs one of its own. */
  lemma InsertGuarded(evs: seq<Event>, e: Event, skip: set<int>)
    requires Guarded(evs, skip) && (e.TimeOut? ==> HasGuard(evs, e))
    ensures Guarded(Insert(evs, e), skip)
  {
    var evs' := Insert(evs, e);
    forall x | x in evs' && x.TimeOut? && x.seqno !in skip ensures HasGuard(evs', x) {
      InsertMembers(evs, e, x);
      var g :| g in evs && Guards(g, x);
      InsertHas(evs, e, g);
    }
  }

  lemma RemoveGuarded(evs: seq<Event>, n: int, skip: set<int>)
    requires Guarded(evs, skip)
    ensures Guarded(RemoveTimer(evs, SideA, n), skip)
  {
    var evs' := RemoveTimer(evs, SideA, n);
    forall x | x in evs' && x.TimeOut? && x.seqno !in skip ensures HasGuard(evs', x) {
      RemoveMembers(evs, n, x);
      var g :| g in evs && Guards(g, x);
      RemoveHas(evs, n, g);
    }
  }

  /** Sending a packet starts its timer together with the copy that guards it. */
  lemma SendGuarded(net: Net, pattern: seq<char>, p: Packet, n: int, skip: set<int>)
    requires CleanPattern(pattern) && Guarded(net.events, skip)
    ensures Guarded(PerformAll(net, pattern, SideA, [Send(p, n), StartTimer(n)]).events, skip)
  {
    PerformTwo(net, pattern, SideA, Send(p, n), StartTimer(n));
    CleanFate(pattern, net.transmissions);
    var e, x := FromLayer3(net.time + CHANNEL_DELAY, SideB, p, n), TimeOut(net.time + RTT, SideA, n);
    var net1 := Perform(net, pattern, SideA, Send(p, n));
    assert net1 == net.(transmissions := net.transmissions + 1, events := Insert(net.events, e));
    assert Perform(net1, pattern, SideA, StartTimer(n)).events == Insert(net1.events, x);
    PairGuarded(net.events, e, x, skip);
  }

  lemma PairGuarded(evs: seq<Event>, e: Event, x: Event, skip: set<int>)
    requires Guarded(evs, skip) && e.FromLayer3? && Guards(e, x)
    ensures Guarded(Insert(Insert(evs, e), x), skip)
  {
    InsertGuarded(evs, e, skip);
    InsertHas(evs, e, e);
    InsertGuarded(Insert(evs, e), x, skip);
  }

  /** B's ACK takes over the guard of the data packet it answers. */
  lemma AckTakesOver(net: Net, pattern: seq<char>, ack: Packet)
    requires CleanPattern(pattern) && Guarded(net.events, {}) && net.events != []
    requires net.events[0].FromLayer3? && net.events[0].entity.SideB?
    ensures var e := net.events[0];
            var net1 := net.(time := e.time, events := net.events[1..]);
            Guarded(PerformAll(net1, pattern, SideB, [Send(ack, e.origin)]).events, {})
  {
    var e := net.events[0];
    var net1 := net.(time := e.time, events := net.events[1..]);
    PerformOne(net1, pattern, SideB, Send(ack, e.origin));
    CleanFate(pattern, net1.transmissions);
    var a := FromLayer3(e.time + CHANNEL_DELAY, SideA, ack, e.origin);
    assert Perform(net1, pattern, SideB, Send(ack, e.origin)).events == Insert(net1.events, a);
    GuardTaken(net.events, a);
  }

  lemma GuardTaken(evs: seq<Event>, a: Event)
    requires Guarded(evs, {}) && evs != [] && evs[0].FromLayer3? && evs[0].entity.SideB?
    requires a.FromLayer3? && a.entity.SideA? && a.origin == evs[0].origin && a.time == evs[0].time + CHANNEL_DELAY
    ensures Guarded(Insert(evs[1..], a), {})
  {
    var evs' := Insert(evs[1..], a);
    forall x | x in evs' && x.TimeOut? ensures HasGuard(evs', x) {
      InsertMembers(evs[1..], a, x);
      var g :| g in evs && Guards(g, x);
      if g == evs[0] {
        InsertHas(evs[1..], a, a);
        assert Guards(a, x);
      } else {
        InsertHas(evs[1..], a, g);
      }
    }
  }

  /** Popping an event removes the guards of at most its own number. */
  lemma PopGuarded(evs: seq<Event>)
    requires Guarded(evs, {}) && evs != []
    ensures Guarded(evs[1..], if evs[0].FromLayer3? then {evs[0].origin} else {})
  {
    forall x | x in evs[1..] && x.TimeOut? && (evs[0].FromLayer3? ==> x.seqno != evs[0].origin)
      ensures HasGuard(evs[1..], x)
    {
      var g :| g in evs && Guards(g, x);
      assert g in evs[1..];
    }
  }

  lemma {:induction false} InTimerBag(evs: seq<Event>, x: Event)
    requires x in evs && x.TimeOut?
    ensures x.seqno in TimerBag(evs)
  {
    if x != evs[0] {
      InTimerBag(evs[1..], x);
    }
  }

  /** A number without a timer needs no guard. */
  lemma NothingSkipped(evs: seq<Event>, n: int)
    requires Guarded(evs, {n}) && n !in TimerBag(evs)
    ensures Guarded(evs, {})
  {
    forall x | x in evs && x.TimeOut? ensures HasGuard(evs, x) {
      InTimerBag(evs, x);
    }
  }

  // ---------- the rounds ----------

  lemma NextArrivalGuarded(cfg: Config, s: Sim)
    requires Guarded(s.net.events, {})
    ensures Guarded(NextArrival(cfg, s).net.events, {})
  {
    InsertGuarded(s.net.events, FromLayer5(s.net.time + cfg.lambda), {});
  }

  lemma CleanArrivalRound(cfg: Config, s: Sim)
    requires CleanSim(cfg, s) && s.net.events != [] && s.net.events[0].FromLayer5?
    ensures CanStep(cfg, s) && CleanSim(cfg, SimStep(cfg, s)) && Progress(SimStep(cfg, s)) == Progress(s) + 1
  {
    SimStepRefines(cfg, s);
    PopView(s.net);
    PopNetOk(s.net);
    PopGuarded(s.net.events);
    CleanFates(cfg.pattern);
    var s1 := s.(net := s.net.(time := s.net.events[0].time, events := s.net.events[1..]));
    var s2 := NextArrival(cfg, s1);
    ArrivalView(cfg, s1);
    NextArrivalGuarded(cfg, s1);
    var m := Letters(s2.nsim);
    assert |s.snd.queue| == |s.submitted| - s.snd.next && |s.submitted| < s.nsim;
    assert !Overflows(cfg.w, s2.snd);
    CleanSubmit(cfg.w, OracleOf(cfg.pattern), Abs(s), m);
    var r := OnSubmit(cfg.w, s2.snd, m);
    if s2.snd.next < s2.snd.base + cfg.w {
      SendGuarded(s2.net, cfg.pattern, DataPacket(s2.snd.next, m), s2.snd.next, {});
    }
    PerformAllView(s2.net, cfg.pattern, SideA, r.acts);
  }

  /** The number of rounds done: every round submits, delivers or acknowledges exactly one message. */
  function Progress(s: Sim): nat {
    |s.submitted| + s.rcv.expected + s.snd.base
  }

  lemma CleanDataRound(cfg: Config, s: Sim)
    requires CleanSim(cfg, s) && s.net.events != []
    requires s.net.events[0].FromLayer3? && s.net.events[0].entity.SideB?
    ensures CanStep(cfg, s) && CleanSim(cfg, SimStep(cfg, s)) && Progress(SimStep(cfg, s)) == Progress(s) + 1
  {
    SimStepRefines(cfg, s);
    PopView(s.net);
    CleanFates(cfg.pattern);
    CleanData(cfg.w, OracleOf(cfg.pattern), Abs(s));
    var e := s.net.events[0];
    var ack := AckPacket(s.rcv.expected);
    assert Acknowledge([ack], e.origin) == [Send(ack, e.origin)];
    AckTakesOver(s.net, cfg.pattern, ack);
    PopNetOk(s.net);
    var net1 := s.net.(time := e.time, events := s.net.events[1..]);
    PerformAllView(net1, cfg.pattern, SideB, [Send(ack, e.origin)]);
  }

  lemma CleanAckRound(cfg: Config, s: Sim)
    requires CleanSim(cfg, s) && s.net.events != []
    requires s.net.events[0].FromLayer3? && s.net.events[0].entity.SideA?
    ensures CanStep(cfg, s) && CleanSim(cfg, SimStep(cfg, s)) && Progress(SimStep(cfg, s)) == Progress(s) + 1
  {
    hide PerformAll, Slide, Refill, CarryAll, Guarded, Flights, FindUnacked, NetOk;
    SimStepRefines(cfg, s);
    PopView(s.net);
    PopNetOk(s.net);
    PopGuarded(s.net.events);
    CleanFates(cfg.pattern);
    CleanAck(cfg.w, OracleOf(cfg.pattern), Abs(s));
    CleanAckEffect(cfg.w, Abs(s));
    var n := s.snd.base;
    var net1 := s.net.(time := s.net.events[0].time, events := s.net.events[1..]);
    var r := OnAck(cfg.w, s.snd, s.net.events[0].pkt);
    AckActsGuarded(net1, cfg.pattern, n, r.acts);
    PerformAllView(net1, cfg.pattern, SideA, r.acts);
    var t := SimStep(cfg, s);
    assert !InWindowUnacked(t.snd, n);
    assert t.net.events == PerformAll(net1, cfg.pattern, SideA, r.acts).events;
    assert n !in TimerBag(t.net.events);
    NothingSkipped(t.net.events, n);
  }

  lemma AckActsGuarded(net: Net, pattern: seq<char>, n: int, acts: seq<Action>)
    requires CleanPattern(pattern) && Guarded(net.events, {n})
    requires acts == [StopTimer(n)] || exists p, k :: acts == [StopTimer(n)] + [Send(p, k), StartTimer(k)]
    ensures Guarded(PerformAll(net, pattern, SideA, acts).events, {n})
  {
    PerformOne(net, pattern, SideA, StopTimer(n));
    RemoveGuarded(net.events, n, {n});
    if acts != [StopTimer(n)] {
      var p, k :| acts == [StopTimer(n)] + [Send(p, k), StartTimer(k)];
      PerformAppend(net, pattern, SideA, [StopTimer(n)], [Send(p, k), StartTimer(k)]);
      SendGuarded(Perform(net, pattern, SideA, StopTimer(n)), pattern, p, k, {n});
    }
  }

  lemma CleanRound(cfg: Config, s: Sim)
    requires CleanSim(cfg, s) && s.net.events != []
    ensures CanStep(cfg, s) && CleanSim(cfg, SimStep(cfg, s)) && Progress(SimStep(cfg, s)) == Progress(s) + 1
  {
    NoTimeOut(cfg, s);
    match s.net.events[0]
    case FromLayer5(_) => CleanArrivalRound(cfg, s);
    case FromLayer3(_, SideA, _, _) => CleanAckRound(cfg, s);
    case FromLayer3(_, SideB, _, _) => CleanDataRound(cfg, s);
  }

  // ---------- the whole run ----------

  lemma {:induction false} EveryEventCounted(evs: seq<Event>)
    ensures |evs| == |Flights(evs, SideA)| + |Flights(evs, SideB)| + |TimerBag(evs)| + ArrivalCount(evs)
  {
    if evs != [] {
      EveryEventCounted(evs[1..]);
    }
  }

  /** The list runs empty exactly when every message has been submitted, delivered and acknowledged. */
  lemma EmptyWhenDone(cfg: Config, s: Sim)
    requires CleanSim(cfg, s)
    ensures Progress(s) <= 3 * cfg.nsimmax
    ensures s.net.events == [] <==> Progress(s) == 3 * cfg.nsimmax
  {
    var evs := s.net.events;
    EveryEventCounted(evs);
    assert |s.snd.queue| == |s.submitted| - s.snd.next;
    if Progress(s) == 3 * cfg.nsimmax {
      assert s.snd.window == [];
      forall n: int ensures TimerBag(evs)[n] == 0 {
        assert Abs(s).ch.timers[n] == if InWindowUnacked(s.snd, n) then 1 else 0;
      }
      assert TimerBag(evs) == multiset{};
    }
  }

  lemma {:induction false} CleanRounds(cfg: Config, s: Sim, rounds: nat)
    requires CleanSim(cfg, s) && Progress(s) + rounds <= 3 * cfg.nsimmax
    ensures CleanSim(cfg, SimRun(cfg, s, rounds)) && Progress(SimRun(cfg, s, rounds)) == Progress(s) + rounds
    decreases rounds
  {
    hide SimStep, CleanSim, Progress, CanStep;
    if rounds > 0 {
      EmptyWhenDone(cfg, s);
      CleanRound(cfg, s);
      CleanRounds(cfg, SimStep(cfg, s), rounds - 1);
    }
  }

  lemma StartedClean(cfg: Config, s: Sim)
    requires cfg.Usable() && CleanPattern(cfg.pattern) && 0 <= cfg.nsimmax < 5000 && Started(cfg, s)
    ensures CleanSim(cfg, s) && Progress(s) == 0
  {
    StartedInv(cfg, s);
    CleanInitial(cfg.w, Abs(s));
    if cfg.nsimmax > 0 {
      SingleView(FromLayer5(cfg.lambda), SideA);
    }
  }

  /** A whole run over a clean channel, seen after any number of rounds.  The loop goes round exactly three
      times per message and then finds its list empty; by then every message has been sent once, none resent,
      all delivered, and no timer ever fired. */
  lemma CleanRun(cfg: Config, s: Sim, k: nat)
    requires cfg.Usable() && CleanPattern(cfg.pattern) && 0 <= cfg.nsimmax < 5000 && Started(cfg, s)
    requires k <= 3 * cfg.nsimmax
    ensures var t := SimRun(cfg, s, k);
            && !t.exited && t.snd.resent == 0 && t.snd.timeouts == 0
            && (t.net.events == [] <==> k == 3 * cfg.nsimmax)
            && (t.net.events == [] ==>
                  t.snd.sent == |t.submitted| == |t.delivered| == cfg.nsimmax && t.delivered == t.submitted)
  {
    StartedClean(cfg, s);
    CleanRounds(cfg, s, k);
    var t := SimRun(cfg, s, k);
    EmptyWhenDone(cfg, t);
    assert t.submitted[..|t.submitted|] == t.submitted;
  }

  lemma CleanGoesOn(cfg: Config, s: Sim, k: nat)
    requires cfg.Usable() && CleanPattern(cfg.pattern) && 0 <= cfg.nsimmax < 5000 && Started(cfg, s)
    requires k < 3 * cfg.nsimmax
    ensures SimRun(cfg, s, k).net.events != [] && !SimRun(cfg, s, k).exited
    ensures SimRun(cfg, s, k + 1).net.events == [] <==> k + 1 == 3 * cfg.nsimmax
  {
    hide SimRun;
    CleanRun(cfg, s, k);
    CleanRun(cfg, s, k + 1);
  }
}
