/** Limits of the Go-Back-N program: a single message that is lost stays lost, and how many messages fit. */
module GbnLimits {
  import opened Packets
  import opened EventLists
  import opened Networks
  import opened GbnEntities
  import opened GbnProtocol
  import opened GbnSimulator

  // ---------- a single message ----------

  lemma InsertAlone(e: Event)
    ensures Insert([], e) == [e]
  {
  }

  /** What is pending when a packet is all that has been sent. */
  function Sent(time: real, to: Side, p: Packet, origin: int, fate: Fate): seq<Event> {
    if fate.Lost? then [] else [FromLayer3(time + CHANNEL_DELAY, to, Arriving(p, fate), origin)]
  }

  lemma SendAlone(net: Net, pattern: seq<char>, from: Side, p: Packet, origin: int)
    requires pattern != [] && net.events == []
    ensures PerformAll(net, pattern, from, [Send(p, origin)])
         == Net(net.time, Sent(net.time, OtherSide(from), p, origin, FateOf(pattern, net.transmissions)), net.transmissions + 1)
  {
    PerformOne(net, pattern, from, Send(p, origin));
    InsertAlone(FromLayer3(net.time + CHANNEL_DELAY, OtherSide(from), Arriving(p, FateOf(pattern, net.transmissions)), origin));
  }

  /** After the only arrival: packet 0 is under way or lost, and no timer runs. */
  ghost predicate OnlySent(cfg: Config, t: Sim) {
    var m := Shared.Letters(1);
    && Runnable(cfg) && t.snd.Shaped() && t.snd.base == 0 && t.snd.next == 1 && t.snd.resent == 0
    && t.expected == 0 && t.submitted == [m] && t.delivered == [] && t.net.transmissions == 1
    && t.net.events == Sent(t.net.time, SideB, DataPacket(0, m), 0, FateOf(cfg.pattern, 0))
  }

  lemma FirstRound(cfg: Config, s: Sim)
    requires Runnable(cfg) && Started(cfg, s) && cfg.nsimmax == 1
    ensures CanStep(cfg, s) && OnlySent(cfg, SimStep(cfg, s))
  {
    var net := Net(cfg.lambda, [], 0);
    assert s.net.events[1..] == [];
    SendAlone(net, cfg.pattern, SideA, DataPacket(0, Shared.Letters(1)), 0);
  }

  /** After the second round: delivered exactly when the channel delivered, and nothing at A has changed. */
  ghost predicate OnlyArrived(cfg: Config, t: Sim) {
    var m := Shared.Letters(1);
    && Runnable(cfg) && t.snd.Shaped() && t.snd.base == 0 && t.snd.next == 1 && t.snd.resent == 0 && t.submitted == [m]
    && (t.delivered == [m] <==> FateOf(cfg.pattern, 0).Delivered?)
    && (t.net.events == []
        || t.net.events == Sent(t.net.time, SideA, AckPacket(0), 0, Delivered)
        || t.net.events == Sent(t.net.time, SideA, AckPacket(0), 0, Corrupted))
  }

  lemma FirstPacketArrives(m: Payload)
    ensures OnData(0, DataPacket(0, m)) == Receipt(1, [m], [AckPacket(0)])
    ensures AckActs([AckPacket(0)]) == [Send(AckPacket(0), 0)] && AckActs([]) == []
  {
    OwnChecksumAccepted(Packet(0, NOTUSED, 0, m));
  }

  lemma FirstPacketRejected()
    ensures OnData(0, Tamper(DataPacket(0, Shared.Letters(1)))) == Receipt(0, [], [])
  {
    hide DataPacket, Tamper, Accepts;
    TamperedDataAccepted(0, Shared.Letters(1));
  }

  lemma SecondRound(cfg: Config, t: Sim)
    requires OnlySent(cfg, t)
    ensures t.net.events == [] ==> FateOf(cfg.pattern, 0).Lost? && OnlyArrived(cfg, t)
    ensures t.net.events != [] ==> CanStep(cfg, t) && OnlyArrived(cfg, SimStep(cfg, t))
  {
    hide OnData, Tamper, DataPacket, AckPacket, Accepts, PerformAll, Shared.Letters, AckActs, FateOf;
    if t.net.events != [] {
      var net := t.net.(time := t.net.events[0].time, events := t.net.events[1..]);
      assert net.events == [];
      FirstPacketArrives(Shared.Letters(1));
      FirstPacketRejected();
      SendAlone(net, cfg.pattern, SideB, AckPacket(0), 0);
      PerformNone(net, cfg.pattern, SideB);
    }
  }

  lemma PerformNone(net: Net, pattern: seq<char>, from: Side)
    requires pattern != []
    ensures PerformAll(net, pattern, from, []) == net
  {
  }

  /** ACK 0 is discarded, intact or not, and nothing is pending any more. */
  lemma ThirdRound(cfg: Config, t: Sim)
    requires OnlyArrived(cfg, t) && t.net.events != []
    ensures CanStep(cfg, t) && OnlyArrived(cfg, SimStep(cfg, t)) && SimStep(cfg, t).net.events == []
  {
    TamperedAckAccepted(0);
    assert t.net.events[1..] == [];
  }

  lemma RunStep(cfg: Config, s: Sim, rounds: nat)
    requires CanStep(cfg, s) && 0 < rounds
    ensures SimRun(cfg, s, rounds) == SimRun(cfg, SimStep(cfg, s), rounds - 1)
  {
  }

  lemma RunStops(cfg: Config, s: Sim, rounds: nat)
    requires rounds == 0 || s.net.events == []
    ensures SimRun(cfg, s, rounds) == s
  {
  }

  /** The run from the second round on. */
  lemma AfterSent(cfg: Config, t1: Sim, rounds: nat)
    requires OnlySent(cfg, t1) && 0 < rounds
    ensures var t := SimRun(cfg, t1, rounds);
            OnlyArrived(cfg, t) && (1 < rounds ==> t.net.events == [])
  {
    hide SimRun, SimStep, OnlySent, OnlyArrived, CanStep;
    SecondRound(cfg, t1);
    if t1.net.events == [] {
      RunStops(cfg, t1, rounds);
    } else {
      var t2 := SimStep(cfg, t1);
      RunStep(cfg, t1, rounds);
      if rounds == 1 || t2.net.events == [] {
        RunStops(cfg, t2, rounds - 1);
      } else {
        ThirdRound(cfg, t2);
        RunStep(cfg, t2, rounds - 1);
        RunStops(cfg, SimStep(cfg, t2), rounds - 2);
      }
    }
  }

  /** What is pending after the first round. */
  lemma FirstPending(cfg: Config, s: Sim, t: Sim)
    requires OnlySent(cfg, t) && CanStep(cfg, s) && t == SimStep(cfg, s) && Started(cfg, s) && cfg.nsimmax == 1
    ensures var c := cfg.pattern[0];
            && |t.submitted| == 1
            && (c == 'x' ==> t.net.events == [])
            && (c != 'x' ==> exists q :: CarriedAs(c, DataPacket(0, t.submitted[0]), q)
                                         && t.net.events == [FromLayer3(cfg.lambda + 6.5, SideB, q, 0)])
  {
    hide Damaged, Tamper, DataPacket, PerformAll;
    var c, p := cfg.pattern[0], DataPacket(0, t.submitted[0]);
    assert FateOf(cfg.pattern, 0) == if c == 'x' then Lost else if c == '-' then Corrupted else Delivered;
    FirstTime(cfg, s);
    if c != 'x' {
      var q := if c == '-' then Tamper(p) else p;
      TamperDamages(p);
      assert CarriedAs(c, p, q);
    }
  }

  lemma FirstTime(cfg: Config, s: Sim)
    requires CanStep(cfg, s) && Started(cfg, s) && cfg.nsimmax == 1
    ensures SimStep(cfg, s).net.time == cfg.lambda
  {
    hide Perform;
    var net := Net(cfg.lambda, [], 0);
    assert s.net.events[1..] == [];
    PerformTimeKept(net, cfg.pattern, SideA, OnSubmit(s.snd, Shared.Letters(1)).acts);
  }

  lemma {:induction false} PerformTimeKept(net: Net, pattern: seq<char>, from: Side, acts: seq<Action>)
    requires pattern != []
    ensures PerformAll(net, pattern, from, acts).time == net.time
    decreases |acts|
  {
    if acts != [] {
      PerformTimeKept(Perform(net, pattern, from, acts[0]), pattern, from, acts[1..]);
    }
  }

  /** A program that sends one message delivers it exactly when the channel neither loses nor damages the first
      transmission: the packet has no timer, so it is never resent.  After three rounds nothing is pending, whatever
      the pattern, and A never learns that the message arrived. */
  lemma SingleMessageExact(cfg: Config, s: Sim, rounds: nat)
    requires Runnable(cfg) && Started(cfg, s) && cfg.nsimmax == 1 && 2 <= rounds
    ensures var t, c := SimRun(cfg, s, 1), cfg.pattern[0];
            && |t.submitted| == 1
            && (c == 'x' ==> t.net.events == [])
            && (c != 'x' ==> exists q :: CarriedAs(c, DataPacket(0, t.submitted[0]), q)
                                         && t.net.events == [FromLayer3(cfg.lambda + 6.5, SideB, q, 0)])
    ensures var t := SimRun(cfg, s, rounds);
            && (t.delivered == t.submitted <==> cfg.pattern[0] != 'x' && cfg.pattern[0] != '-')
            && (3 <= rounds ==> t.net.events == [])
            && t.snd.base == 0 && t.snd.next == 1 && t.snd.resent == 0
  {
    hide SimRun, SimStep, CanStep, OnlySent, CarriedAs;
    FirstRound(cfg, s);
    RunStep(cfg, s, 1);
    RunStops(cfg, SimStep(cfg, s), 0);
    FirstPending(cfg, s, SimStep(cfg, s));
    RunStep(cfg, s, rounds);
    AfterSent(cfg, SimStep(cfg, s), rounds - 1);
  }

  // ---------- the overflow buffer ----------

  /** The next arrival finds the window and the overflow buffer full, and overwrites a message that waits. */
  ghost predicate Overwrites(cfg: Config, t: Sim) {
    && t.net.events != [] && t.net.events[0].FromLayer5?
    && t.snd.base + cfg.w <= t.snd.next && 5000 <= |t.snd.queue|
  }

  /** A channel that loses everything, and an interval so short that all messages arrive before the first timeout. */
  ghost predicate Flooding(cfg: Config) {
    && 1 <= cfg.w && cfg.pattern == "x" && MAXBUFSIZE + cfg.w < cfg.nsimmax
    && 0.0 < cfg.lambda && (MAXBUFSIZE + cfg.w) as real * cfg.lambda < RTT
  }

  function Min(a: nat, b: nat): nat {
    if a < b then a else b
  }

  /** The time of the j-th arrival. */
  function Clock(cfg: Config, j: nat): real {
    j as real * cfg.lambda
  }

  lemma ClockSteps(cfg: Config, j: nat)
    requires Flooding(cfg)
    ensures Clock(cfg, 0) == 0.0 && Clock(cfg, 1) == cfg.lambda && Clock(cfg, j + 1) == Clock(cfg, j) + cfg.lambda
    ensures 0.0 <= Clock(cfg, j)
  {
  }

  lemma ClockBelow(cfg: Config, j: nat)
    requires Flooding(cfg) && j <= MAXBUFSIZE + cfg.w
    ensures Clock(cfg, j) < RTT
  {
    var rest := MAXBUFSIZE + cfg.w - j;
    assert rest as real * cfg.lambda >= 0.0;
    assert (MAXBUFSIZE + cfg.w) as real * cfg.lambda == j as real * cfg.lambda + rest as real * cfg.lambda;
  }

  /** After `j` arrivals: the window is filled first, then the buffer; only the first packet has a timer. */
  ghost predicate Filling(cfg: Config, t: Sim, j: nat) {
    && t.net.time == Clock(cfg, j) && t.nsim == j + 1
    && t.snd.Shaped() && |t.snd.winbuf| == cfg.w && t.snd.base == 0 && t.snd.next == Min(j, cfg.w)
    && |t.snd.queue| == j - Min(j, cfg.w)
    && t.net.events == [FromLayer5(Clock(cfg, j + 1))] + FirstTimer(cfg, j)
  }

  /** The timer of packet 0, started by the second packet. */
  function FirstTimer(cfg: Config, j: nat): seq<Event> {
    if 2 <= j && 2 <= cfg.w then [TimeOut(Clock(cfg, 2) + RTT, SideA, 0)] else []
  }

  lemma InsertBefore(e: Event, late: Event)
    requires e.time < late.time
    ensures Insert([late], e) == [e, late] && Insert([e], late) == [e, late]
  {
    assert [e][1..] == [];
  }

  /** A submission while nothing has been acknowledged. */
  lemma FillSubmit(w: nat, s: Sender, m: Payload)
    requires s.Shaped() && |s.winbuf| == w && s.base == 0 && s.next <= w
    ensures var e := OnSubmit(s, m);
            && e.snd.Shaped() && |e.snd.winbuf| == w && e.snd.base == 0 && e.snd.next == Min(s.next + 1, w)
            && |e.snd.queue| == |s.queue| + (if s.next < w then 0 else 1)
            && e.acts == if s.next == w then []
                         else if s.next == 1 then [Send(DataPacket(1, m), 1), StartTimer(0)]
                         else [Send(DataPacket(s.next, m), s.next)]
  {
  }

  /** What the submission leaves on a channel that loses everything. */
  lemma LostSend(net: Net, p: Packet, origin: int)
    ensures PerformAll(net, "x", SideA, [Send(p, origin)]) == net.(transmissions := net.transmissions + 1)
  {
    hide FateOf, Insert, Tamper, PerformAll;
    AllLost(net.transmissions);
    PerformOne(net, "x", SideA, Send(p, origin));
  }

  lemma LostSendTimed(net: Net, p: Packet, origin: int)
    ensures PerformAll(net, "x", SideA, [Send(p, origin), StartTimer(0)])
         == net.(transmissions := net.transmissions + 1, events := Insert(net.events, TimeOut(net.time + RTT, SideA, 0)))
  {
    hide FateOf, Insert, Tamper, PerformAll;
    AllLost(net.transmissions);
    PerformTwo(net, "x", SideA, Send(p, origin), StartTimer(0));
  }

  lemma AllLost(i: nat)
    ensures FateOf("x", i) == Lost
  {
    assert i % 1 == 0;
  }

  /** The next arrival goes in front of the only timer there can be. */
  lemma FillArrival(cfg: Config, t: Sim, j: nat)
    requires Flooding(cfg) && Filling(cfg, t, j) && j < MAXBUFSIZE + cfg.w
    ensures t.net.events[1..] == FirstTimer(cfg, j)
    ensures Insert(FirstTimer(cfg, j), FromLayer5(Clock(cfg, j + 1) + cfg.lambda))
         == [FromLayer5(Clock(cfg, j + 2))] + FirstTimer(cfg, j)
    ensures Insert([FromLayer5(Clock(cfg, j + 2))], TimeOut(Clock(cfg, 2) + RTT, SideA, 0))
         == [FromLayer5(Clock(cfg, j + 2)), TimeOut(Clock(cfg, 2) + RTT, SideA, 0)]
  {
    hide Clock, Insert;
    ClockSteps(cfg, 1);
    ClockSteps(cfg, j + 1);
    ClockBelow(cfg, j + 1);
    var e := FromLayer5(Clock(cfg, j + 2));
    assert e == FromLayer5(Clock(cfg, j + 1) + cfg.lambda);
    InsertAlone(e);
    InsertBefore(e, TimeOut(Clock(cfg, 2) + RTT, SideA, 0));
  }

  lemma FillPerform(w: nat, net: Net, s: Sender, m: Payload)
    requires s.Shaped() && |s.winbuf| == w && s.base == 0 && s.next <= w
    ensures var u := PerformAll(net, "x", SideA, OnSubmit(s, m).acts);
            && u.time == net.time
            && u.events == if s.next == 1 && 2 <= w then Insert(net.events, TimeOut(net.time + RTT, SideA, 0)) else net.events
  {
    hide OnSubmit, PerformAll, Insert, DataPacket;
    FillSubmit(w, s, m);
    PerformNone(net, "x", SideA);
    LostSend(net, DataPacket(s.next, m), s.next);
    LostSendTimed(net, DataPacket(s.next, m), s.next);
  }

  lemma FillStep(cfg: Config, t: Sim, j: nat)
    requires Flooding(cfg) && Filling(cfg, t, j) && j < MAXBUFSIZE + cfg.w
    ensures CanStep(cfg, t) && Filling(cfg, SimStep(cfg, t), j + 1)
  {
    hide OnSubmit, PerformAll, Insert, Shared.Letters, Clock;
    FillArrival(cfg, t, j);
    var m := Shared.Letters(t.nsim + 1);
    var net := Net(Clock(cfg, j + 1), [FromLayer5(Clock(cfg, j + 2))] + FirstTimer(cfg, j), t.net.transmissions);
    FillSubmit(cfg.w, t.snd, m);
    FillPerform(cfg.w, net, t.snd, m);
    assert j == 1 ==> net.events == [FromLayer5(Clock(cfg, j + 2))];
    FillingAt(cfg, SimStep(cfg, t), j + 1);
  }

  lemma FillingAt(cfg: Config, t: Sim, j: nat)
    requires t.net.time == Clock(cfg, j) && t.nsim == j + 1
    requires t.snd.Shaped() && |t.snd.winbuf| == cfg.w && t.snd.base == 0 && t.snd.next == Min(j, cfg.w)
    requires |t.snd.queue| == j - Min(j, cfg.w)
    requires t.net.events == [FromLayer5(Clock(cfg, j + 1))] + FirstTimer(cfg, j)
    ensures Filling(cfg, t, j)
  {
  }

  lemma {:induction false} Fills(cfg: Config, s: Sim, j: nat)
    requires Flooding(cfg) && Started(cfg, s) && j <= MAXBUFSIZE + cfg.w
    ensures Filling(cfg, SimRun(cfg, s, j), j)
  {
    hide Filling, SimStep, CanStep, SimRun, Started;
    if j == 0 {
      FillStart(cfg, s);
      SimRunNone(cfg, s);
    } else {
      Fills(cfg, s, j - 1);
      FillStep(cfg, SimRun(cfg, s, j - 1), j - 1);
      SimRunExtend(cfg, s, j - 1);
    }
  }

  lemma FillStart(cfg: Config, s: Sim)
    requires Flooding(cfg) && Started(cfg, s)
    ensures Filling(cfg, s, 0)
  {
    ClockSteps(cfg, 0);
  }

  lemma ShortInterval(w: nat) returns (interval: real)
    ensures 0.0 < interval && (MAXBUFSIZE + w) as real * interval < RTT
  {
    interval := 1.0 / (MAXBUFSIZE + w) as real;
    assert (MAXBUFSIZE + w) as real * interval == 1.0;
  }

  /** A run of the program in which a waiting message is overwritten exists exactly when there are more messages
      than window and buffer hold together. */
  lemma BufferExact(w: nat, nsimmax: int)
    requires 1 <= w && nsimmax < 999999
    ensures (exists cfg: Config, s: Sim, k: nat ::
               && cfg.w == w && cfg.nsimmax == nsimmax && Runnable(cfg) && Started(cfg, s)
               && Overwrites(cfg, SimRun(cfg, s, k)))
       <==> 5000 + w < nsimmax
  {
    forall cfg: Config, s: Sim, k: nat
      | cfg.w == w && cfg.nsimmax == nsimmax && Runnable(cfg) && Started(cfg, s) && Overwrites(cfg, SimRun(cfg, s, k))
      ensures MAXBUFSIZE + w < nsimmax
    {
      if nsimmax <= MAXBUFSIZE + w {
        NeverOverwrites(cfg, s, k);
      }
    }
    if MAXBUFSIZE + w < nsimmax {
      var interval := ShortInterval(w);
      var cfg := Shared.Config(w, interval, nsimmax, "x");
      var winbuf := seq(w, _ => Packet(0, 0, 0, ZeroPayload));
      var s := Sim(Net(0.0, [FromLayer5(interval)], 0), Sender(0, 0, winbuf, 0, 0, 0, [], 0, 0, 0), 0, 1, [], []);
      Fills(cfg, s, MAXBUFSIZE + w);
      assert Overwrites(cfg, SimRun(cfg, s, MAXBUFSIZE + w));
    }
  }

  lemma NeverOverwrites(cfg: Config, s: Sim, k: nat)
    requires Usable(cfg) && Started(cfg, s)
    ensures !Overwrites(cfg, SimRun(cfg, s, k))
  {
    StartedShadowed(cfg, s);
    var g := SimRunShadowed(cfg, s, Gbn(s.snd, 0, {}, {}, multiset{}, [], []), k);
    var t := SimRun(cfg, s, k);
    if t.net.events != [] && t.net.events[0].FromLayer5? {
      ArrivalEnabled(cfg, t, g);
    }
  }
}
