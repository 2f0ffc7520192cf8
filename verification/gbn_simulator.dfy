/** The event-driven simulator that runs Go-Back-N, and the proof that every round of its main loop is a step of
    the protocol over an arbitrary network. */
module GbnSimulator {
  import opened Rings
  import opened Packets
  import opened EventLists
  import opened Networks
  import opened GbnEntities
  import opened GbnProtocol
  import Shared = SrSimulator

  type Config = Shared.Config

  /** Any interval, window, message count and pattern. */
  predicate Runnable(cfg: Config) {
    1 <= cfg.w && cfg.pattern != []
  }

  /** Nothing in the program checks the overflow buffer, so the messages must fit into window and buffer; and they
      must be fewer than the number that corruption writes. */
  predicate Usable(cfg: Config) {
    Runnable(cfg) && cfg.nsimmax <= 5000 + cfg.w && cfg.nsimmax < 999999
  }

  datatype Sim = Sim(net: Net, snd: Sender, expected: nat, nsim: nat, submitted: seq<Payload>, delivered: seq<Payload>)

  function NextArrival(cfg: Config, s: Sim): Sim {
    if s.nsim >= cfg.nsimmax then s
    else
      var e := FromLayer5(s.net.time + cfg.lambda);
      s.(net := s.net.(events := Insert(s.net.events, e)), nsim := s.nsim + 1)
  }

  predicate CanStep(cfg: Config, s: Sim) {
    s.net.events != [] && cfg.pattern != [] && s.snd.Shaped()
  }

  /** One round of the main loop. */
  function SimStep(cfg: Config, s: Sim): Sim
    requires CanStep(cfg, s)
  {
    var e := s.net.events[0];
    var s1 := s.(net := s.net.(time := e.time, events := s.net.events[1..]));
    match e
    case FromLayer5(_) =>
      var s2 := NextArrival(cfg, s1);
      var m := Shared.Letters(s2.nsim);
      var r := OnSubmit(s2.snd, m);
      s2.(snd := r.snd, net := PerformAll(s2.net, cfg.pattern, SideA, r.acts), submitted := s2.submitted + [m])
    case FromLayer3(_, SideA, pkt, _) =>
      var r := OnAck(s1.snd, pkt);
      s1.(snd := r.snd, net := PerformAll(s1.net, cfg.pattern, SideA, r.acts))
    case FromLayer3(_, SideB, pkt, _) =>
      var d := OnData(s1.expected, pkt);
      s1.(expected := d.expected, delivered := s1.delivered + d.delivered,
          net := PerformAll(s1.net, cfg.pattern, SideB, AckActs(d.acks)))
    case TimeOut(_, SideA, n) =>
      var r := OnTimeOut(s1.snd, n);
      s1.(snd := r.snd, net := PerformAll(s1.net, cfg.pattern, SideA, r.acts))
    case TimeOut(_, SideB, _) => s1
  }

  ghost predicate Started(cfg: Config, s: Sim) {
    && |s.snd.winbuf| == cfg.w && s.snd == Sender(0, 0, s.snd.winbuf, 0, 0, 0, [], 0, 0, 0)
    && s.expected == 0 && s.submitted == [] && s.delivered == []
    && s.nsim == (if cfg.nsimmax > 0 then 1 else 0)
    && s.net == Net(0.0, if cfg.nsimmax > 0 then [FromLayer5(cfg.lambda)] else [], 0)
  }

  // ---------- refinement ----------

  /** Every packet under way is one that the abstract network may deliver. */
  ghost predicate Covered(evs: seq<Event>, dataNet: set<Packet>, ackNet: set<Packet>) {
    forall e <- evs :: e.FromLayer3? ==> MayArrive(if e.entity.SideB? then dataNet else ackNet, e.pkt)
  }

  ghost predicate TimersAtA(evs: seq<Event>) {
    forall e <- evs :: e.TimeOut? ==> e.entity.SideA?
  }

  /** `g` is the protocol state behind the simulator state. */
  ghost predicate Shadows(cfg: Config, s: Sim, g: Gbn) {
    && Usable(cfg) && Inv(cfg.w, g)
    && s.snd == g.snd && s.expected == g.expected && s.submitted == g.submitted && s.delivered == g.delivered
    && Covered(s.net.events, g.dataNet, g.ackNet) && TimersAtA(s.net.events)
    && Shared.TimerBag(s.net.events) == g.timers
    && |s.submitted| + Shared.ArrivalCount(s.net.events) == s.nsim
    && s.nsim <= MAXBUFSIZE + cfg.w && s.nsim < TAMPERED
  }

  /** The protocol step that a round takes. */
  function StepOf(cfg: Config, s: Sim): Step
    requires s.net.events != []
  {
    match s.net.events[0]
    case FromLayer5(_) =>
      Submit(Shared.Letters(if s.nsim >= cfg.nsimmax then s.nsim else s.nsim + 1))
    case FromLayer3(_, SideA, pkt, _) => AckArrives(pkt)
    case FromLayer3(_, SideB, pkt, _) => DataArrives(pkt)
    case TimeOut(_, _, n) => TimerFires(n)
  }

  lemma InsertCovered(evs: seq<Event>, e: Event, dataNet: set<Packet>, ackNet: set<Packet>)
    requires Covered(evs, dataNet, ackNet) && TimersAtA(evs) && (e.TimeOut? ==> e.entity.SideA?)
    requires e.FromLayer3? ==> MayArrive(if e.entity.SideB? then dataNet else ackNet, e.pkt)
    ensures Covered(Insert(evs, e), dataNet, ackNet) && TimersAtA(Insert(evs, e))
    ensures Shared.TimerBag(Insert(evs, e)) == Shared.TimerBag(evs) + if e.TimeOut? then multiset{e.seqno} else multiset{}
    ensures Shared.ArrivalCount(Insert(evs, e)) == Shared.ArrivalCount(evs) + if e.FromLayer5? then 1 else 0
  {
    hide MayArrive, Shared.TimerBag, Shared.ArrivalCount, InsertPosition;
    Shared.InsertCounts(evs, e);
    forall x | x in Insert(evs, e) ensures x == e || x in evs {
      Shared.InsertMembers(evs, e, x);
    }
  }

  lemma RemoveCovered(evs: seq<Event>, n: int, dataNet: set<Packet>, ackNet: set<Packet>)
    requires Covered(evs, dataNet, ackNet) && TimersAtA(evs)
    ensures Covered(RemoveTimer(evs, SideA, n), dataNet, ackNet) && TimersAtA(RemoveTimer(evs, SideA, n))
    ensures Shared.TimerBag(RemoveTimer(evs, SideA, n)) == Shared.TimerBag(evs) - multiset{n}
    ensures Shared.ArrivalCount(RemoveTimer(evs, SideA, n)) == Shared.ArrivalCount(evs)
  {
    hide MayArrive, Shared.TimerBag, Shared.ArrivalCount, Shared.Flights, TimerPosition;
    assert forall i | 0 <= i < |evs| :: evs[i] in evs;
    Shared.RemoveView(evs, n, SideA);
    forall x | x in RemoveTimer(evs, SideA, n) ensures x in evs {
      Shared.RemoveMembers(evs, n, x);
    }
  }

  /** What a handler asks for puts only its own packets under way, makes no arrival, and starts and cancels the
      timers it names. */
  lemma PerformCovered(net: Net, pattern: seq<char>, from: Side, a: Action, dataNet: set<Packet>, ackNet: set<Packet>)
    requires pattern != [] && Covered(net.events, dataNet, ackNet) && TimersAtA(net.events)
    requires a.Send? ==> a.pkt in if from.SideA? then dataNet else ackNet
    requires from.SideA? || a.Send?
    ensures var t := Perform(net, pattern, from, a);
            && Covered(t.events, dataNet, ackNet) && TimersAtA(t.events)
            && Shared.TimerBag(t.events) == TimedOnce(Shared.TimerBag(net.events), a)
            && Shared.ArrivalCount(t.events) == Shared.ArrivalCount(net.events)
  {
    hide Covered, TimersAtA, Shared.ArrivalCount, Shared.TimerBag, Insert, RemoveTimer, Tamper;
    match a
    case Send(pkt, origin) =>
      var arriving := Arriving(pkt, FateOf(pattern, net.transmissions));
      InsertCovered(net.events, FromLayer3(net.time + CHANNEL_DELAY, OtherSide(from), arriving, origin), dataNet, ackNet);
    case StartTimer(n) => InsertCovered(net.events, TimeOut(net.time + RTT, from, n), dataNet, ackNet);
    case StopTimer(n) => RemoveCovered(net.events, n, dataNet, ackNet);
  }

  lemma {:induction false} PerformAllCovered(
    net: Net, pattern: seq<char>, from: Side, acts: seq<Action>, dataNet: set<Packet>, ackNet: set<Packet>)
    requires pattern != [] && Covered(net.events, dataNet, ackNet) && TimersAtA(net.events)
    requires Sends(acts) <= if from.SideA? then dataNet else ackNet
    requires from.SideA? || forall a <- acts :: a.Send?
    ensures var t := PerformAll(net, pattern, from, acts);
            && Covered(t.events, dataNet, ackNet) && TimersAtA(t.events)
            && Shared.TimerBag(t.events) == Timed(Shared.TimerBag(net.events), acts)
            && Shared.ArrivalCount(t.events) == Shared.ArrivalCount(net.events)
    decreases |acts|
  {
    hide Covered, TimersAtA, Shared.ArrivalCount, Shared.TimerBag;
    if acts != [] {
      assert acts[0].Send? ==> acts[0].pkt in Sends(acts);
      PerformCovered(net, pattern, from, acts[0], dataNet, ackNet);
      assert Sends(acts[1..]) <= Sends(acts);
      PerformAllCovered(Perform(net, pattern, from, acts[0]), pattern, from, acts[1..], dataNet, ackNet);
    }
  }

  lemma CoveredGrows(evs: seq<Event>, dataNet: set<Packet>, ackNet: set<Packet>, dataNet': set<Packet>, ackNet': set<Packet>)
    requires Covered(evs, dataNet, ackNet) && dataNet <= dataNet' && ackNet <= ackNet'
    ensures Covered(evs, dataNet', ackNet')
  {
  }

  /** Taking the next event off the list. */
  lemma PopCovered(evs: seq<Event>, dataNet: set<Packet>, ackNet: set<Packet>)
    requires Covered(evs, dataNet, ackNet) && TimersAtA(evs) && evs != []
    ensures Covered(evs[1..], dataNet, ackNet) && TimersAtA(evs[1..])
    ensures evs[0].FromLayer3? ==> MayArrive(if evs[0].entity.SideB? then dataNet else ackNet, evs[0].pkt)
    ensures Shared.ArrivalCount(evs) == Shared.ArrivalCount(evs[1..]) + if evs[0].FromLayer5? then 1 else 0
    ensures if evs[0].TimeOut?
            then evs[0].entity.SideA? && evs[0].seqno in Shared.TimerBag(evs)
                 && Shared.TimerBag(evs[1..]) == Shared.TimerBag(evs) - multiset{evs[0].seqno}
            else Shared.TimerBag(evs[1..]) == Shared.TimerBag(evs)
  {
    assert evs[0] in evs;
  }

  lemma ArrivalEnabled(cfg: Config, s: Sim, g: Gbn)
    requires Shadows(cfg, s, g) && s.net.events != [] && s.net.events[0].FromLayer5?
    ensures g.snd.Shaped() && Enabled(g, StepOf(cfg, s)) && |s.submitted| < s.nsim && Detectable(cfg.w, g.submitted)
  {
  }

  lemma ArrivalRound(cfg: Config, s: Sim, g: Gbn)
    requires Shadows(cfg, s, g) && s.net.events != [] && s.net.events[0].FromLayer5?
    ensures CanStep(cfg, s) && Enabled(g, StepOf(cfg, s)) && Shadows(cfg, SimStep(cfg, s), Apply(g, StepOf(cfg, s)))
  {
    hide SenderOk, Covered, TimersAtA, OnSubmit, Insert, MayArrive, PerformAll, Enabled, Timed, Sends,
         Shared.ArrivalCount, Shared.TimerBag;
    var evs := s.net.events[1..];
    var s2 := NextArrival(cfg, s.(net := s.net.(time := s.net.events[0].time, events := evs)));
    PopCovered(s.net.events, g.dataNet, g.ackNet);
    InsertCovered(evs, FromLayer5(s2.net.time + cfg.lambda), g.dataNet, g.ackNet);
    ArrivalEnabled(cfg, s, g);
    var step := StepOf(cfg, s);
    StepInv(cfg.w, g, step);
    var t := Apply(g, step);
    CoveredGrows(s2.net.events, g.dataNet, g.ackNet, t.dataNet, t.ackNet);
    PerformAllCovered(s2.net, cfg.pattern, SideA, OnSubmit(s.snd, step.message).acts, t.dataNet, t.ackNet);
    assert Shared.TimerBag(s2.net.events) == g.timers;
  }

  lemma AckRound(cfg: Config, s: Sim, g: Gbn)
    requires Shadows(cfg, s, g) && s.net.events != [] && s.net.events[0].FromLayer3? && s.net.events[0].entity.SideA?
    ensures CanStep(cfg, s) && Enabled(g, StepOf(cfg, s)) && Shadows(cfg, SimStep(cfg, s), Apply(g, StepOf(cfg, s)))
  {
    hide RingHolds, Covered, TimersAtA, OnAck, MayArrive, PerformAll, Timed, Sends, Shared.ArrivalCount, Shared.TimerBag;
    var e := s.net.events[0];
    var net := s.net.(time := e.time, events := s.net.events[1..]);
    PopCovered(s.net.events, g.dataNet, g.ackNet);
    ShadowShaped(cfg, s, g);
    StepInv(cfg.w, g, AckArrives(e.pkt));
    var t := Apply(g, AckArrives(e.pkt));
    CoveredGrows(net.events, g.dataNet, g.ackNet, t.dataNet, t.ackNet);
    PerformAllCovered(net, cfg.pattern, SideA, OnAck(s.snd, e.pkt).acts, t.dataNet, t.ackNet);
  }

  lemma TimerRound(cfg: Config, s: Sim, g: Gbn)
    requires Shadows(cfg, s, g) && s.net.events != [] && s.net.events[0].TimeOut?
    ensures CanStep(cfg, s) && Enabled(g, StepOf(cfg, s)) && Shadows(cfg, SimStep(cfg, s), Apply(g, StepOf(cfg, s)))
  {
    hide RingHolds, Covered, TimersAtA, OnTimeOut, PerformAll, Timed, Sends, Shared.ArrivalCount, Shared.TimerBag;
    var e := s.net.events[0];
    var net := s.net.(time := e.time, events := s.net.events[1..]);
    PopCovered(s.net.events, g.dataNet, g.ackNet);
    ShadowShaped(cfg, s, g);
    StepInv(cfg.w, g, TimerFires(e.seqno));
    var t := Apply(g, TimerFires(e.seqno));
    CoveredGrows(net.events, g.dataNet, g.ackNet, t.dataNet, t.ackNet);
    PerformAllCovered(net, cfg.pattern, SideA, OnTimeOut(s.snd, e.seqno).acts, t.dataNet, t.ackNet);
  }

  lemma ReceiverRound(cfg: Config, s: Sim, g: Gbn)
    requires Shadows(cfg, s, g) && s.net.events != [] && s.net.events[0].FromLayer3? && s.net.events[0].entity.SideB?
    ensures CanStep(cfg, s) && Enabled(g, StepOf(cfg, s)) && Shadows(cfg, SimStep(cfg, s), Apply(g, StepOf(cfg, s)))
  {
    hide RingHolds, Covered, TimersAtA, OnData, MayArrive, PerformAll, Timed, Shared.ArrivalCount, Shared.TimerBag;
    var e := s.net.events[0];
    var net := s.net.(time := e.time, events := s.net.events[1..]);
    PopCovered(s.net.events, g.dataNet, g.ackNet);
    ShadowShaped(cfg, s, g);
    StepInv(cfg.w, g, DataArrives(e.pkt));
    var t := Apply(g, DataArrives(e.pkt));
    CoveredGrows(net.events, g.dataNet, g.ackNet, t.dataNet, t.ackNet);
    var acks := OnData(s.expected, e.pkt).acks;
    assert Sends(AckActs(acks)) <= t.ackNet;
    PerformAllCovered(net, cfg.pattern, SideB, AckActs(acks), t.dataNet, t.ackNet);
    SendsOnly(Shared.TimerBag(net.events), AckActs(acks));
  }

  lemma ShadowShaped(cfg: Config, s: Sim, g: Gbn)
    requires Shadows(cfg, s, g)
    ensures g.snd.Shaped() && s.snd.Shaped() && Detectable(cfg.w, g.submitted)
  {
  }

  lemma {:induction false} SendsOnly(timers: multiset<int>, acts: seq<Action>)
    requires forall a <- acts :: a.Send?
    ensures Timed(timers, acts) == timers
    decreases |acts|
  {
    if acts != [] {
      assert acts[0] in acts;
      SendsOnly(timers, acts[1..]);
    }
  }

  /** Every round of the main loop is one protocol step. */
  lemma RoundRefines(cfg: Config, s: Sim, g: Gbn)
    requires Shadows(cfg, s, g) && s.net.events != []
    ensures CanStep(cfg, s) && Enabled(g, StepOf(cfg, s)) && Shadows(cfg, SimStep(cfg, s), Apply(g, StepOf(cfg, s)))
  {
    var e := s.net.events[0];
    if e.FromLayer5? {
      ArrivalRound(cfg, s, g);
    } else if e.TimeOut? {
      TimerRound(cfg, s, g);
    } else if e.entity.SideA? {
      AckRound(cfg, s, g);
    } else {
      ReceiverRound(cfg, s, g);
    }
  }

  function SimRun(cfg: Config, s: Sim, rounds: nat): Sim
    decreases rounds
  {
    if rounds == 0 || !CanStep(cfg, s) then s else SimRun(cfg, SimStep(cfg, s), rounds - 1)
  }

  lemma SimRunNone(cfg: Config, s: Sim)
    ensures SimRun(cfg, s, 0) == s
  {
  }

  lemma {:induction false} SimRunExtend(cfg: Config, s: Sim, k: nat)
    ensures var t := SimRun(cfg, s, k);
            SimRun(cfg, s, k + 1) == if CanStep(cfg, t) then SimStep(cfg, t) else t
    decreases k
  {
    if k > 0 && CanStep(cfg, s) {
      SimRunExtend(cfg, SimStep(cfg, s), k - 1);
    }
  }

  lemma {:induction false} StopsForGood(cfg: Config, s: Sim, i: nat, rounds: nat)
    requires i <= rounds && !CanStep(cfg, SimRun(cfg, s, i))
    ensures SimRun(cfg, s, rounds) == SimRun(cfg, s, i)
    decreases rounds - i
  {
    hide SimRun, SimStep, CanStep;
    if i < rounds {
      SimRunExtend(cfg, s, i);
      StopsForGood(cfg, s, i + 1, rounds);
    }
  }

  lemma {:induction false} SimRunShadowed(cfg: Config, s: Sim, g: Gbn, rounds: nat) returns (g': Gbn)
    requires Shadows(cfg, s, g)
    ensures Shadows(cfg, SimRun(cfg, s, rounds), g')
    decreases rounds
  {
    hide Shadows, SimStep, Apply, Enabled, StepOf;
    g' := g;
    if rounds > 0 && CanStep(cfg, s) {
      ShadowShaped(cfg, s, g);
      RoundRefines(cfg, s, g);
      g' := SimRunShadowed(cfg, SimStep(cfg, s), Apply(g, StepOf(cfg, s)), rounds - 1);
    }
  }

  lemma StartedShadowed(cfg: Config, s: Sim)
    requires Usable(cfg) && Started(cfg, s)
    ensures Shadows(cfg, s, Gbn(s.snd, 0, {}, {}, multiset{}, [], []))
  {
    SmallMod(0, cfg.w);
    Shared.SingleView(FromLayer5(cfg.lambda), SideA);
  }

  /** Every run of the program, for any interval, pattern and window, delivers a prefix of what was submitted; the
      loop can always go on while an event is pending. */
  lemma SimulatorSafety(cfg: Config, s: Sim, rounds: nat)
    requires Usable(cfg) && Started(cfg, s)
    ensures var t := SimRun(cfg, s, rounds);
            && t.expected <= |t.submitted| && t.delivered == t.submitted[..t.expected]
            && t.snd.base <= t.expected <= t.snd.next <= t.snd.base + cfg.w && t.snd.next <= |t.submitted|
            && t.snd.queue == t.submitted[t.snd.next..] && |t.snd.queue| <= 5000
            && t.snd.sent == t.snd.next + t.snd.resent
            && (CanStep(cfg, t) <==> t.net.events != [])
  {
    StartedShadowed(cfg, s);
    var g := SimRunShadowed(cfg, s, Gbn(s.snd, 0, {}, {}, multiset{}, [], []), rounds);
  }
}
