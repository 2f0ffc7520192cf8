/** The Go-Back-N program: its globals as one object, and the main loop. */
module GbnProgram {
  import opened Packets
  import opened EventLists
  import opened Networks
  import opened GbnEntities
  import opened GbnSimulator
  import Clean = SrCleanRun
  import GbnCleanRun

  class Program {
    const cfg: Config
    const net: Network
    const sender: SenderNode
    const receiver: ReceiverNode
    var nsim: nat
    ghost var submitted: seq<Payload>
    ghost var delivered: seq<Payload>

    ghost const entities: set<object> := {sender, sender.winbuf, sender.buffer, receiver}

    ghost predicate Valid()
      reads this, net, net.Repr, sender, receiver
    {
      && Runnable(cfg) && net.Valid() && net.pattern == cfg.pattern
      && sender.Valid() && sender.winbuf.Length == cfg.w
      && sender.Apart(net) && receiver !in net.Repr && this !in net.Repr
      && receiver.packetReceived == |delivered|
    }

    ghost function State(): Sim
      requires Valid()
      reads this, net, net.Repr, entities
    {
      Sim(net.State(), sender.State(), receiver.expectedSeqnum, nsim, submitted, delivered)
    }

    constructor (cfg: Config)
      requires Runnable(cfg)
      ensures Valid() && this.cfg == cfg && Started(cfg, State())
      ensures fresh(net.Repr) && fresh(entities)
    {
      this.cfg := cfg;
      net := new Network(cfg.pattern);
      sender := new SenderNode(cfg.w);
      receiver := new ReceiverNode();
      nsim := 0;
      submitted, delivered := [], [];
      new;
      assert State() == Sim(Net(0.0, [], 0), sender.State(), 0, 0, [], []);
      GenerateNextArrival();
    }

    method GenerateNextArrival()
      requires Valid()
      modifies this`nsim, net.Repr
      ensures Valid() && fresh(net.Repr - old(net.Repr))
      ensures State() == NextArrival(cfg, old(State()))
    {
      if nsim >= cfg.nsimmax {
        return;
      }
      net.InsertNew(FromLayer5(net.time + cfg.lambda));
      nsim := nsim + 1;
    }

    /** Layer 5 hands A a message. */
    method Deliver5(message: Payload)
      requires Valid()
      modifies this`submitted, entities, net.Repr
      ensures Valid() && fresh(net.Repr - old(net.Repr))
      ensures var s := old(State());
              var r := OnSubmit(s.snd, message);
              State() == s.(snd := r.snd, net := PerformAll(s.net, cfg.pattern, SideA, r.acts),
                            submitted := s.submitted + [message])
    {
      sender.AOutput(net, message);
      submitted := submitted + [message];
    }

    method AckArrivesAtA(packet: Packet)
      requires Valid()
      modifies entities, net.Repr
      ensures Valid() && fresh(net.Repr - old(net.Repr))
      ensures var s := old(State());
              var r := OnAck(s.snd, packet);
              State() == s.(snd := r.snd, net := PerformAll(s.net, cfg.pattern, SideA, r.acts))
    {
      sender.AInput(net, packet);
    }

    method DataArrivesAtB(packet: Packet)
      requires Valid()
      modifies this`delivered, entities, net.Repr
      ensures Valid() && fresh(net.Repr - old(net.Repr))
      ensures var s := old(State());
              var d := OnData(s.expected, packet);
              State() == s.(expected := d.expected, delivered := s.delivered + d.delivered,
                            net := PerformAll(s.net, cfg.pattern, SideB, AckActs(d.acks)))
    {
      var given := receiver.BInput(net, packet);
      delivered := delivered + given;
    }

    method TimerGoesOff(seqno: int)
      requires Valid()
      modifies entities, net.Repr
      ensures Valid() && fresh(net.Repr - old(net.Repr))
      ensures var s := old(State());
              var r := OnTimeOut(s.snd, seqno);
              State() == s.(snd := r.snd, net := PerformAll(s.net, cfg.pattern, SideA, r.acts))
    {
      sender.APacketTimeInterrupt(net, seqno);
    }

    /** The next arrival is scheduled, and a message is made up and submitted. */
    method MessageArrives()
      requires Valid()
      modifies this`nsim, this`submitted, entities, net.Repr
      ensures Valid() && fresh(net.Repr - old(net.Repr))
      ensures var s2 := NextArrival(cfg, old(State()));
              var m := Shared.Letters(s2.nsim);
              var r := OnSubmit(s2.snd, m);
              State() == s2.(snd := r.snd, net := PerformAll(s2.net, cfg.pattern, SideA, r.acts),
                             submitted := s2.submitted + [m])
    {
      hide OnSubmit, PerformAll, Insert;
      GenerateNextArrival();
      var c: Byte := 97 + nsim % 26;
      Deliver5([c, c, c, c, c, c, c, c, c, c, c, c, c, c, c, c, c, c, c, c]);
    }

    /** One round of the main loop. */
    method Round()
      requires Valid() && State().net.events != []
      modifies this, entities, net.Repr
      ensures Valid() && fresh(net.Repr - old(net.Repr))
      ensures CanStep(cfg, old(State())) && State() == SimStep(cfg, old(State()))
    {
      hide OnSubmit, OnAck, OnData, OnTimeOut, PerformAll, Insert;
      var eventptr := net.NextEvent();
      match eventptr.ev
      case FromLayer5(_) =>
        MessageArrives();
      case FromLayer3(_, SideA, pkt, _) =>
        AckArrivesAtA(pkt);
      case FromLayer3(_, SideB, pkt, _) =>
        DataArrivesAtB(pkt);
      case TimeOut(_, SideA, n) =>
        TimerGoesOff(n);
      case TimeOut(_, SideB, _) =>
    }

    /** The main loop, cut off after `rounds` rounds: Go-Back-N as written need not end by itself. */
    method Run(rounds: nat)
      requires Valid() && Started(cfg, State())
      modifies this, entities, net.Repr
      ensures Valid() && State() == SimRun(cfg, old(State()), rounds)
      ensures Usable(cfg) ==>
                receiver.expectedSeqnum <= |submitted| && delivered == submitted[..receiver.expectedSeqnum]
    {
      hide SimRun, SimStep;
      ghost var s := State();
      var i := 0;
      SimRunNone(cfg, s);
      var finished := false;
      while i < rounds && !finished
        invariant i <= rounds && Valid() && fresh(net.Repr - old(net.Repr))
        invariant State() == SimRun(cfg, s, i)
        invariant finished ==> State() == SimRun(cfg, s, rounds)
        decreases rounds - i, !finished
      {
        finished := RoundOrStop(s, i, rounds);
        i := if finished then i else i + 1;
      }
      if Usable(cfg) {
        SimulatorSafety(cfg, s, rounds);
      }
    }

    /** The main loop as written, on a clean channel, where it does end. */
    method RunClean()
      requires Valid() && Started(cfg, State()) && Usable(cfg)
      requires cfg.lambda > 0.0 && Clean.CleanPattern(cfg.pattern) && 0 <= cfg.nsimmax
      modifies this, entities, net.Repr
      ensures Valid() && State().net.events == []
      ensures State().snd.resent == 0 && State().snd.timeouts == 0
      ensures |submitted| == cfg.nsimmax && State().snd.sent == |delivered|
      ensures delivered == submitted <==> 2 <= cfg.w || cfg.nsimmax <= 1
    {
      hide SimRun, SimStep, CanStep, Started, Usable;
      ghost var s := State();
      ghost var i := 0;
      SimRunNone(cfg, s);
      var finished := false;
      while !finished
        invariant i <= 5 * cfg.nsimmax && Valid() && fresh(net.Repr - old(net.Repr))
        invariant State() == SimRun(cfg, s, i)
        invariant finished ==> State() == SimRun(cfg, s, 5 * cfg.nsimmax + 1)
        decreases 5 * cfg.nsimmax - i, !finished
      {
        GbnCleanRun.CleanRun(cfg, s, i);
        finished := RoundOrStop(s, i, 5 * cfg.nsimmax + 1);
        i := if finished then i else i + 1;
      }
      GbnCleanRun.CleanRun(cfg, s, 5 * cfg.nsimmax + 1);
    }

    method RoundOrStop(ghost s: Sim, ghost i: nat, ghost rounds: nat) returns (finished: bool)
      requires Valid() && i < rounds && State() == SimRun(cfg, s, i)
      modifies this, entities, net.Repr
      ensures Valid() && fresh(net.Repr - old(net.Repr))
      ensures finished <==> old(State()).net.events == []
      ensures if finished then State() == SimRun(cfg, s, i) == SimRun(cfg, s, rounds) else State() == SimRun(cfg, s, i + 1)
    {
      hide SimRun, SimStep;
      SimRunExtend(cfg, s, i);
      finished := net.evlist.evlist == null;
      if finished {
        StopsForGood(cfg, s, i, rounds);
      } else {
        Round();
      }
    }
  }
}
