/** The Selective Repeat program: its globals as one object, and the main loop. */
module SrProgram {
  import opened Packets
  import opened EventLists
  import opened Networks
  import opened SrSender
  import opened SrReceiver
  import opened SrSimulator
  import opened SrCleanRun

  class Program {
    const cfg: Config
    const net: Network
    const sender: SenderNode
    const receiver: ReceiverNode
    var nsim: nat
    var exited: bool
    ghost var submitted: seq<Payload>
    ghost var delivered: seq<Payload>

    /** The objects and arrays that make up the two protocol entities. */
    ghost const entities: set<object> := {sender, sender.winbuf, sender.buffer, receiver, receiver.recvWindow, receiver.recvMarked}

    ghost predicate Valid()
      reads this, net, net.Repr, sender, receiver
    {
      && cfg.Usable() && net.Valid() && net.pattern == cfg.pattern
      && sender.Valid() && sender.windowSize == cfg.w && receiver.Valid() && receiver.windowSize == cfg.w
      && sender.Apart(net) && receiver.Apart(net) && this !in net.Repr
      && sender.winbuf != receiver.recvWindow
      && receiver.packetReceived == |delivered|
    }

    ghost function State(): Sim
      requires Valid()
      reads this, net, net.Repr, entities
    {
      Sim(net.State(), sender.State(), receiver.State(), nsim, submitted, delivered, exited)
    }

    constructor (cfg: Config)
      requires cfg.Usable()
      ensures Valid() && this.cfg == cfg && Started(cfg, State())
      ensures fresh(net.Repr) && fresh(entities)
    {
      hide Overflows;
      this.cfg := cfg;
      net := new Network(cfg.pattern);
      sender := new SenderNode(cfg.w);
      receiver := new ReceiverNode(cfg.w);
      nsim, exited := 0, false;
      submitted, delivered := [], [];
      new;
      assert State() == Sim(Net(0.0, [], 0), InitialSender, receiver.State(), 0, [], [], false);
      GenerateNextArrival();
    }

    method GenerateNextArrival()
      requires Valid()
      modifies this`nsim, net.Repr
      ensures Valid() && fresh(net.Repr - old(net.Repr))
      ensures State() == NextArrival(cfg, old(State()))
    {
      if nsim >= cfg.nsimmax {
        return;
      }
      net.InsertNew(FromLayer5(net.time + cfg.lambda));
      nsim := nsim + 1;
    }

    /** Layer 5 hands A a message. */
    method Deliver5(message: Payload)
      requires Valid() && !exited
      modifies this`exited, this`submitted, entities, net.Repr
      ensures Valid() && fresh(net.Repr - old(net.Repr))
      ensures var s := old(State());
              State() == if Overflows(cfg.w, s.snd) then s.(exited := true)
                         else
                           var r := OnSubmit(cfg.w, s.snd, message);
                           s.(snd := r.snd, net := PerformAll(s.net, cfg.pattern, SideA, r.acts),
                              submitted := s.submitted + [message])
    {
      var ok := sender.AOutput(net, message);
      if ok {
        submitted := submitted + [message];
      } else {
        exited := true;
      }
    }

    method AckArrivesAtA(packet: Packet)
      requires Valid()
      modifies entities, net.Repr
      ensures Valid() && fresh(net.Repr - old(net.Repr))
      ensures var s := old(State());
              var r := OnAck(cfg.w, s.snd, packet);
              State() == s.(snd := r.snd, net := PerformAll(s.net, cfg.pattern, SideA, r.acts))
    {
      sender.AInput(net, packet);
    }

    method DataArrivesAtB(packet: Packet, origin: int)
      requires Valid() && Addressable(cfg.w, receiver.State(), packet)
      modifies this`delivered, entities, net.Repr
      ensures Valid() && fresh(net.Repr - old(net.Repr))
      ensures var s := old(State());
              var d := OnData(cfg.w, s.rcv, packet);
              State() == s.(rcv := d.rcv, delivered := s.delivered + d.delivered,
                            net := PerformAll(s.net, cfg.pattern, SideB, Acknowledge(d.acks, origin)))
    {
      var given := receiver.BInput(net, packet, origin);
      delivered := delivered + given;
    }

    method TimerGoesOff(seqno: int)
      requires Valid()
      modifies entities, net.Repr
      ensures Valid() && fresh(net.Repr - old(net.Repr))
      ensures var s := old(State());
              var r := OnTimeOut(s.snd, seqno);
              State() == s.(snd := r.snd, net := PerformAll(s.net, cfg.pattern, SideA, r.acts))
    {
      sender.APacketTimeInterrupt(net, seqno);
    }

    /** One round of the main loop. */
    method Round()
      requires Valid() && CanStep(cfg, State())
      modifies this, entities, net.Repr
      ensures Valid() && fresh(net.Repr - old(net.Repr))
      ensures State() == SimStep(cfg, old(State()))
    {
      var eventptr := net.NextEvent();
      match eventptr.ev
      case FromLayer5(_) =>
        GenerateNextArrival();
        var c: Byte := 97 + nsim % 26;
        Deliver5([c, c, c, c, c, c, c, c, c, c, c, c, c, c, c, c, c, c, c, c]);
      case FromLayer3(_, SideA, pkt, _) =>
        AckArrivesAtA(pkt);
      case FromLayer3(_, SideB, pkt, origin) =>
        DataArrivesAtB(pkt, origin);
      case TimeOut(_, SideA, n) =>
        TimerGoesOff(n);
      case TimeOut(_, SideB, _) =>
    }

    /** The program has done `k` rounds since it was in state `s`, a freshly started one. */
    ghost predicate At(s: Sim, k: nat)
      reads this, net, net.Repr, sender, receiver, entities
    {
      Valid() && Started(cfg, s) && State() == SimRun(cfg, s, k)
    }

    lemma AtStart()
      requires Valid() && Started(cfg, State())
      ensures At(State(), 0)
    {
    }

    /** The loop's exit test: true when no event is pending. */
    method Finished(ghost s: Sim, ghost k: nat) returns (finished: bool)
      requires At(s, k)
      ensures finished <==> SimRun(cfg, s, k).net.events == []
    {
      finished := net.evlist.evlist == null;
    }

    /** Another round of a run. */
    method RunRound(ghost s: Sim, ghost k: nat)
      requires At(s, k) && SimRun(cfg, s, k).net.events != [] && !SimRun(cfg, s, k).exited
      modifies this, entities, net.Repr
      ensures At(s, k + 1) && fresh(net.Repr - old(net.Repr))
    {
      hide SimRun, SimStep;
      RunGoesOn(cfg, s, k);
      Round();
    }

    /** The main loop, cut off after `rounds` rounds: under loss it need not end by itself. */
    method Run(rounds: nat)
      requires Valid() && Started(cfg, State())
      modifies this, entities, net.Repr
      ensures Valid() && State() == SimRun(cfg, old(State()), rounds)
      ensures receiver.expectedSeq <= |submitted| && delivered == submitted[..receiver.expectedSeq]
    {
      hide SimRun;
      ghost var s := State();
      var i := 0;
      AtStart();
      var finished := Finished(s, 0);
      while i < rounds && !finished && !exited
        invariant i <= rounds && At(s, i) && fresh(net.Repr - old(net.Repr))
        invariant finished <==> SimRun(cfg, s, i).net.events == []
        decreases rounds - i
      {
        RunRound(s, i);
        i := i + 1;
        finished := Finished(s, i);
      }
      StoppedForGood(cfg, s, i, rounds);
      SimulatorSafety(cfg, s, rounds);
    }

    method CleanRoundTaken(ghost s: Sim, ghost i: nat) returns (finished: bool)
      requires At(s, i) && CleanPattern(cfg.pattern) && 0 <= cfg.nsimmax < 5000 && i < 3 * cfg.nsimmax
      modifies this, entities, net.Repr
      ensures At(s, i + 1) && fresh(net.Repr - old(net.Repr))
      ensures finished <==> i + 1 == 3 * cfg.nsimmax
    {
      hide SimRun;
      CleanGoesOn(cfg, s, i);
      RunRound(s, i);
      finished := Finished(s, i + 1);
    }

    /** The whole program over a clean channel, until the event list is empty. */
    method RunClean()
      requires Valid() && Started(cfg, State())
      requires CleanPattern(cfg.pattern) && 0 <= cfg.nsimmax < 5000
      modifies this, entities, net.Repr
      ensures Valid() && !exited && State().net.events == []
      ensures State().snd.sent == receiver.packetReceived == |submitted| == cfg.nsimmax
      ensures State().snd.resent == 0 && State().snd.timeouts == 0
      ensures delivered == submitted
    {
      hide SimRun;
      ghost var s := State();
      ghost var i := 0;
      AtStart();
      CleanRun(cfg, s, 0);
      var finished := Finished(s, 0);
      while !finished
        invariant i <= 3 * cfg.nsimmax && At(s, i) && fresh(net.Repr - old(net.Repr))
        invariant finished <==> i == 3 * cfg.nsimmax
        decreases 3 * cfg.nsimmax - i
      {
        finished := CleanRoundTaken(s, i);
        i := i + 1;
      }
      CleanRun(cfg, s, i);
    }
  }

  lemma {:induction false} StoppedForGood(cfg: Config, s: Sim, i: nat, rounds: nat)
    requires cfg.Usable() && Started(cfg, s) && i <= rounds
    requires i == rounds || SimRun(cfg, s, i).net.events == [] || SimRun(cfg, s, i).exited
    ensures SimRun(cfg, s, rounds) == SimRun(cfg, s, i)
    decreases rounds - i
  {
    if i < rounds {
      hide SimRun, SimStep;
      RunGoesOn(cfg, s, i);
      StoppedForGood(cfg, s, i + 1, rounds);
    }
  }
}
