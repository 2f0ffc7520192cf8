/** Go-Back-N on a clean channel: with a pattern that neither loses nor corrupts, nothing is ever resent, the program
    stops, and exactly when it has delivered everything. */
module GbnCleanRun {
  import opened Packets
  import opened EventLists
  import opened Networks
  import opened GbnEntities
  import opened GbnProtocol
  import opened GbnTimers
  import opened GbnSimulator
  import Channels = SrProtocol
  import Shared = SrSimulator
  import Clean = SrCleanRun

  type Flight = Channels.Flight

  // ---------- what is in flight ----------

  /** Packets `from` to `to - 1`, in order. */
  function DataFlights(submitted: seq<Payload>, from: nat, to: nat): seq<Flight>
    requires from <= to <= |submitted|
  {
    seq(to - from, i requires 0 <= i < to - from =>
      Channels.Flight(DataPacket(from + i, submitted[from + i]), from + i))
  }

  function AckFlights(from: nat, to: nat): seq<Flight>
    requires from <= to
  {
    seq(to - from, i requires 0 <= i < to - from => Channels.Flight(AckPacket(from + i), from + i))
  }

  /** The packets that a handler sends, in order. */
  function Sent(acts: seq<Action>): seq<Flight> {
    if acts == [] then []
    else (if acts[0].Send? then [Channels.Flight(acts[0].pkt, acts[0].origin)] else []) + Sent(acts[1..])
  }

  lemma {:induction false} SentAppend(xs: seq<Action>, ys: seq<Action>)
    ensures Sent(xs + ys) == Sent(xs) + Sent(ys)
  {
    if xs == [] {
      assert xs + ys == ys;
    } else {
      assert (xs + ys)[0] == xs[0] && (xs + ys)[1..] == xs[1..] + ys;
      SentAppend(xs[1..], ys);
    }
  }

  /** How many timers it starts. */
  function Starts(acts: seq<Action>): nat {
    if acts == [] then 0 else (if acts[0].StartTimer? then 1 else 0) + Starts(acts[1..])
  }

  lemma {:induction false} StartsAppend(xs: seq<Action>, ys: seq<Action>)
    ensures Starts(xs + ys) == Starts(xs) + Starts(ys)
  {
    if xs == [] {
      assert xs + ys == ys;
    } else {
      assert (xs + ys)[0] == xs[0] && (xs + ys)[1..] == xs[1..] + ys;
      StartsAppend(xs[1..], ys);
    }
  }

  lemma SentOne(a: Action)
    ensures Sent([a]) == (if a.Send? then [Channels.Flight(a.pkt, a.origin)] else [])
    ensures Starts([a]) == if a.StartTimer? then 1 else 0
  {
    assert [a][1..] == [];
  }

  lemma SentTwo(a: Action, b: Action)
    ensures Sent([a, b]) == Sent([a]) + Sent([b]) && Starts([a, b]) == Starts([a]) + Starts([b])
  {
    assert [a, b] == [a] + [b];
    SentAppend([a], [b]);
    StartsAppend([a], [b]);
  }

  lemma CleanCarryOne(c: Channels.Channel, fate: Channels.Oracle, from: Side, a: Action)
    requires Clean.CleanOracle(fate)
    ensures var c', sent := Channels.Carry(c, fate, from, a), Sent([a]);
            && |c'.timers| <= |c.timers| + Starts([a])
            && if from.SideA? then c'.data == c.data + sent && c'.acks == c.acks
               else c'.acks == c.acks + sent && c'.data == c.data
  {
    hide Tamper;
    SentOne(a);
    if a.StopTimer? && a.seqno in c.timers {
      assert c.timers == c.timers - multiset{a.seqno} + multiset{a.seqno};
    }
    assert fate(c.transmissions) == Delivered;
    assert c.data + [] == c.data && c.acks + [] == c.acks;
  }

  /** A clean channel carries every packet, unchanged and in order. */
  lemma {:induction false} CleanCarry(c: Channels.Channel, fate: Channels.Oracle, from: Side, acts: seq<Action>)
    requires Clean.CleanOracle(fate)
    ensures var c' := Channels.CarryAll(c, fate, from, acts);
            && |c'.timers| <= |c.timers| + Starts(acts)
            && if from.SideA? then c'.data == c.data + Sent(acts) && c'.acks == c.acks
               else c'.acks == c.acks + Sent(acts) && c'.data == c.data
    decreases |acts|
  {
    hide Channels.Carry;
    if acts == [] {
      assert c.data + [] == c.data && c.acks + [] == c.acks;
    } else {
      var c1, first := Channels.Carry(c, fate, from, acts[0]), Sent([acts[0]]);
      CleanCarryOne(c, fate, from, acts[0]);
      SentOne(acts[0]);
      CleanCarry(c1, fate, from, acts[1..]);
      assert Sent(acts) == first + Sent(acts[1..]);
      if from.SideA? {
        assert (c.data + first) + Sent(acts[1..]) == c.data + (first + Sent(acts[1..]));
      } else {
        assert (c.acks + first) + Sent(acts[1..]) == c.acks + (first + Sent(acts[1..]));
      }
    }
  }

  lemma TransmitSends(s: Sender, m: Payload)
    requires s.Shaped()
    ensures Sent(Transmit(s, m).acts) == [Channels.Flight(DataPacket(s.next, m), s.next)]
  {
    var a, b := Send(DataPacket(s.next, m), s.next), StartTimer(s.base);
    SentOne(a);
    SentOne(b);
    SentTwo(a, b);
  }

  lemma FlightsJoin(submitted: seq<Payload>, from: nat, mid: nat, to: nat)
    requires from <= mid <= to <= |submitted|
    ensures DataFlights(submitted, from, mid) + DataFlights(submitted, mid, to) == DataFlights(submitted, from, to)
  {
  }

  /** The first message that waits goes out, the rest after it. */
  lemma RefillFirst(w: nat, s: Sender, submitted: seq<Payload>) returns (t: Sender)
    requires SenderMid(w, s, submitted) && s.queue != [] && s.next < s.base + w
    ensures s.Shaped() && s.next < |submitted| && SenderMid(w, t, submitted) && t.Shaped()
    ensures t.next == s.next + 1 && t.base == s.base && t.queue == s.queue[1..]
    ensures t.resent == s.resent && t.timeouts == s.timeouts && Refill(s).snd == Refill(t).snd
    ensures Sent(Refill(s).acts) == DataFlights(submitted, s.next, s.next + 1) + Sent(Refill(t).acts)
    ensures Starts(Refill(s).acts) <= 1 + Starts(Refill(t).acts)
  {
    hide DataPacket;
    var s1 := s.(queue := s.queue[1..]);
    assert s1.(queue := submitted[s.next..]) == s;
    assert s.queue[0] == submitted[s.next];
    TransmitMid(w, s1, submitted);
    var first := Transmit(s1, s.queue[0]);
    t := first.snd;
    TransmitSends(s1, s.queue[0]);
    TransmitStarts(s1, s.queue[0]);
    SentAppend(first.acts, Refill(t).acts);
    StartsAppend(first.acts, Refill(t).acts);
    assert DataFlights(submitted, s.next, s.next + 1) == [Channels.Flight(DataPacket(s.next, submitted[s.next]), s.next)];
  }

  lemma {:induction false} RefillSends(w: nat, s: Sender, submitted: seq<Payload>)
    requires SenderMid(w, s, submitted)
    ensures s.Shaped() && s.next <= Refill(s).snd.next <= |submitted|
    ensures Sent(Refill(s).acts) == DataFlights(submitted, s.next, Refill(s).snd.next)
    ensures Starts(Refill(s).acts) <= Refill(s).snd.next - s.next == |s.queue| - |Refill(s).snd.queue|
    ensures Refill(s).snd.base == s.base && Refill(s).snd.resent == s.resent && Refill(s).snd.timeouts == s.timeouts
    decreases |s.queue|
  {
    hide SenderMid, DataPacket;
    MidShaped(w, s, submitted);
    if s.queue != [] && s.next < s.base + w {
      hide Refill, DataFlights;
      var t := RefillFirst(w, s, submitted);
      RefillSends(w, t, submitted);
      FlightsJoin(submitted, s.next, s.next + 1, Refill(t).snd.next);
    } else {
      assert Refill(s) == Effect(s, []);
    }
  }

  lemma MidShaped(w: nat, s: Sender, submitted: seq<Payload>)
    requires SenderMid(w, s, submitted)
    ensures s.Shaped() && |s.winbuf| == w && s.next <= |submitted| && s.queue == submitted[s.next..]
  {
  }

  /** In flight are one copy of each packet that B still expects and one ACK of each that it has got but A does not
      know about, both in order; A may have discarded ACK 0. */
  ghost predicate FlightsOk(s: Sender, expected: nat, submitted: seq<Payload>, data: seq<Flight>, acks: seq<Flight>) {
    && s.base <= expected <= s.next <= |submitted| && |acks| <= expected
    && data == DataFlights(submitted, expected, s.next)
    && acks == AckFlights(expected - |acks|, expected)
    && (expected - |acks| == s.base || (expected - |acks| == 1 && s.base == 0))
  }

  // ---------- timers and what keeps them from mattering ----------

  /** The packet whose ACK ends the need for a timer: ACK 0 never counts, so packet 0 waits for ACK 1. */
  function Needs(n: int): int {
    if n == 0 then 1 else n
  }

  /** The copy, or the ACK, that arrives early enough. */
  ghost predicate Guards(e: Event, x: Event) {
    x.TimeOut? && e.FromLayer3? && e.origin == Needs(x.seqno) && e.time + Clean.Lead(e.entity) <= x.time
  }

  ghost predicate HasGuard(evs: seq<Event>, x: Event) {
    exists e :: e in evs && Guards(e, x)
  }

  /** Every timer that would still be heeded has a guard pending. */
  ghost predicate Guarded(evs: seq<Event>, base: nat) {
    forall x :: x in evs && x.TimeOut? && base <= x.seqno ==> HasGuard(evs, x)
  }

  /** A copy or an ACK of packet `m` is under way. */
  ghost predicate Pending(evs: seq<Event>, m: int) {
    exists e :: e in evs && e.FromLayer3? && e.origin == m
  }

  /** Whatever is under way arrives early enough for a timer that starts now. */
  lemma FreshGuard(net: Net, x: Event)
    requires Shared.NetOk(net) && x.TimeOut? && x.time == net.time + RTT && Pending(net.events, Needs(x.seqno))
    ensures HasGuard(net.events, x)
  {
    var e :| e in net.events && e.FromLayer3? && e.origin == Needs(x.seqno);
    assert Shared.EventOk(net.time, e);
    assert Guards(e, x);
  }

  lemma {:induction false} FlightPending(evs: seq<Event>, to: Side, i: nat)
    requires i < |Shared.Flights(evs, to)|
    ensures Pending(evs, Shared.Flights(evs, to)[i].origin)
  {
    if evs[0].FromLayer3? && evs[0].entity == to && i == 0 {
      assert evs[0] in evs;
    } else {
      FlightPending(evs[1..], to, if evs[0].FromLayer3? && evs[0].entity == to then i - 1 else i);
    }
  }

  /** Every number from the oldest ACK under way on is under way, as a copy or as an ACK. */
  lemma NumberPending(t: Sim, m: nat)
    requires FlightsOk(t.snd, t.expected, t.submitted,
                       Shared.Flights(t.net.events, SideB), Shared.Flights(t.net.events, SideA))
    requires t.snd.base <= m < t.snd.next && (t.snd.base == 0 ==> m == 1)
    ensures Pending(t.net.events, m)
  {
    if t.expected <= m {
      FlightPending(t.net.events, SideB, m - t.expected);
    } else {
      FlightPending(t.net.events, SideA, m - (t.expected - |Shared.Flights(t.net.events, SideA)|));
    }
  }

  /** What a handler asks for leaves every packet under way, and starts timers for one timeout from now. */
  lemma PerformMembers(net: Net, pattern: seq<char>, from: Side, a: Action, x: Event)
    requires pattern != [] && (a.StopTimer? ==> from.SideA?)
    ensures x in net.events && !x.TimeOut? ==> x in Perform(net, pattern, from, a).events
    ensures x in Perform(net, pattern, from, a).events && x.TimeOut? ==>
              x in net.events || (x.time == net.time + RTT && a == StartTimer(x.seqno))
  {
    hide Insert, RemoveTimer;
    var t := Perform(net, pattern, from, a);
    match a
    case Send(pkt, origin) =>
      if !FateOf(pattern, net.transmissions).Lost? {
        var e := FromLayer3(net.time + CHANNEL_DELAY, OtherSide(from), Arriving(pkt, FateOf(pattern, net.transmissions)), origin);
        InsertBoth(net.events, e, x);
      }
    case StartTimer(n) => InsertBoth(net.events, TimeOut(net.time + RTT, from, n), x);
    case StopTimer(n) => RemoveBoth(net.events, n, x);
  }

  lemma InsertBoth(evs: seq<Event>, e: Event, x: Event)
    ensures x in Insert(evs, e) <==> x == e || x in evs
  {
    if x == e || x in evs {
      Clean.InsertHas(evs, e, x);
    }
    if x in Insert(evs, e) {
      Shared.InsertMembers(evs, e, x);
    }
  }

  lemma RemoveBoth(evs: seq<Event>, n: int, x: Event)
    ensures x in RemoveTimer(evs, SideA, n) ==> x in evs
    ensures x in evs && !x.TimeOut? ==> x in RemoveTimer(evs, SideA, n)
  {
    if x in RemoveTimer(evs, SideA, n) {
      Shared.RemoveMembers(evs, n, x);
    }
    if x in evs && !x.TimeOut? {
      Clean.RemoveHas(evs, n, x);
    }
  }

  lemma {:induction false} PerformAllMembers(net: Net, pattern: seq<char>, acts: seq<Action>, x: Event)
    requires pattern != []
    ensures x in net.events && !x.TimeOut? ==> x in PerformAll(net, pattern, SideA, acts).events
    ensures x in PerformAll(net, pattern, SideA, acts).events && x.TimeOut? ==>
              x in net.events || (x.time == net.time + RTT && StartTimer(x.seqno) in acts)
    decreases |acts|
  {
    hide Perform;
    if acts != [] {
      var net1 := Perform(net, pattern, SideA, acts[0]);
      PerformMembers(net, pattern, SideA, acts[0], x);
      PerformTime(net, pattern, SideA, acts[0]);
      PerformAllMembers(net1, pattern, acts[1..], x);
    }
  }

  lemma PerformTime(net: Net, pattern: seq<char>, from: Side, a: Action)
    requires pattern != []
    ensures Perform(net, pattern, from, a).time == net.time
  {
  }

  // ---------- the simulator on a clean channel ----------

  ghost predicate CleanSim(cfg: Config, s: Sim, g: Gbn) {
    && Shadows(cfg, s, g) && TimersOk(s.snd, g.timers) && Shared.NetOk(s.net)
    && cfg.lambda > 0.0 && Clean.CleanPattern(cfg.pattern)
    && (s.nsim <= cfg.nsimmax || s.nsim == 0) && (s.nsim < cfg.nsimmax ==> Shared.ArrivalCount(s.net.events) > 0)
    && s.snd.resent == 0 && s.snd.timeouts == 0
    && FlightsOk(s.snd, s.expected, s.submitted, Shared.Flights(s.net.events, SideB), Shared.Flights(s.net.events, SideA))
    && Guarded(s.net.events, s.snd.base)
  }

  /** A timer that goes off is for a packet that has been acknowledged. */
  lemma OnlyStaleTimers(cfg: Config, s: Sim, g: Gbn)
    requires CleanSim(cfg, s, g) && s.net.events != [] && s.net.events[0].TimeOut?
    ensures s.net.events[0].seqno < s.snd.base
  {
    var x := s.net.events[0];
    forall e | e in s.net.events ensures !Guards(e, x) {
      var i :| 0 <= i < |s.net.events| && s.net.events[i] == e;
      assert x.time <= e.time;
    }
    assert !HasGuard(s.net.events, x);
    assert x in s.net.events;
  }

  /** How much is left to do: every round takes some of it away. */
  function Work(cfg: Config, s: Sim): int {
    5 * (cfg.nsimmax - |s.submitted|) + 4 * |s.snd.queue| + 3 * |Shared.Flights(s.net.events, SideB)|
    + 2 * |Shared.Flights(s.net.events, SideA)| + |Shared.TimerBag(s.net.events)|
  }

  lemma TransmitStarts(s: Sender, m: Payload)
    requires s.Shaped()
    ensures Starts(Transmit(s, m).acts) <= 1
    ensures forall n :: StartTimer(n) in Transmit(s, m).acts ==> n == s.base && s.next == s.base + 1
  {
    var a, b := Send(DataPacket(s.next, m), s.next), StartTimer(s.base);
    SentOne(a);
    SentOne(b);
    SentTwo(a, b);
    assert Transmit(s, m).acts == if s.base == s.next - 1 then [a, b] else [a];
  }

  lemma RestartStarts(base: nat, t: Sender)
    ensures Starts(Restart(base, t)) <= 1 && Sent(Restart(base, t)) == []
  {
    var a, b := StopTimer(base), StartTimer(t.base);
    SentOne(a);
    SentOne(b);
    SentTwo(a, b);
  }

  lemma SubmitStarts(s: Sender, m: Payload)
    requires s.Shaped()
    ensures Starts(OnSubmit(s, m).acts) <= OnSubmit(s, m).snd.next - s.next
  {
    if s.next < s.base + |s.winbuf| {
      TransmitStarts(s, m);
    }
  }

  // ---------- what the handlers do to what is in flight ----------

  lemma FlightsSubmit(w: nat, s: Sender, expected: nat, submitted: seq<Payload>, data: seq<Flight>, acks: seq<Flight>,
                      m: Payload)
    requires SenderOk(w, s, submitted) && FlightsOk(s, expected, submitted, data, acks)
    ensures s.Shaped()
    ensures var e := OnSubmit(s, m);
            && FlightsOk(e.snd, expected, submitted + [m], data + Sent(e.acts), acks)
            && e.snd.base == s.base && e.snd.resent == s.resent && e.snd.timeouts == s.timeouts
            && |Sent(e.acts)| == e.snd.next - s.next == 1 - (|e.snd.queue| - |s.queue|) <= 1
  {
    hide RingHolds, DataPacket, AckPacket;
    MidShaped(w, s, submitted);
    if s.next < s.base + w {
      TransmitSends(s, m);
      assert DataFlights(submitted + [m], expected, s.next + 1)
          == DataFlights(submitted, expected, s.next) + [Channels.Flight(DataPacket(s.next, m), s.next)];
    } else {
      assert DataFlights(submitted + [m], expected, s.next) == DataFlights(submitted, expected, s.next);
      assert data + [] == data;
    }
  }

  lemma FlightsReceive(s: Sender, expected: nat, submitted: seq<Payload>, data: seq<Flight>, acks: seq<Flight>)
    requires FlightsOk(s, expected, submitted, data, acks) && data != []
    ensures expected < s.next && data[0] == Channels.Flight(DataPacket(expected, submitted[expected]), expected)
    ensures OnData(expected, data[0].pkt) == Receipt(expected + 1, [submitted[expected]], [AckPacket(expected)])
    ensures FlightsOk(s, expected + 1, submitted, data[1..], acks + [Channels.Flight(AckPacket(expected), expected)])
  {
    hide DataFlights, AckFlights;
    DataHead(submitted, expected, s.next);
    AckTail(expected - |acks|, expected);
    OwnChecksumAccepted(Packet(expected, NOTUSED, 0, submitted[expected]));
  }

  lemma DataHead(submitted: seq<Payload>, from: nat, to: nat)
    requires from <= to <= |submitted|
    ensures |DataFlights(submitted, from, to)| == to - from
    ensures from < to ==>
              DataFlights(submitted, from, to) ==
              [Channels.Flight(DataPacket(from, submitted[from]), from)] + DataFlights(submitted, from + 1, to)
  {
    hide DataPacket;
  }

  lemma AckTail(from: nat, to: nat)
    requires from <= to
    ensures AckFlights(from, to + 1) == AckFlights(from, to) + [Channels.Flight(AckPacket(to), to)]
  {
    hide AckPacket;
  }

  lemma AckHead(from: nat, to: nat)
    requires from <= to
    ensures |AckFlights(from, to)| == to - from
    ensures from < to ==> AckFlights(from, to) == [Channels.Flight(AckPacket(from), from)] + AckFlights(from + 1, to)
  {
    hide AckPacket;
  }

  /** ACK 0 is discarded. */
  lemma FlightsDiscard(s: Sender, expected: nat, submitted: seq<Payload>, data: seq<Flight>, acks: seq<Flight>)
    requires FlightsOk(s, expected, submitted, data, acks) && 0 < |acks| == expected
    ensures s.base == 0 && acks[0] == Channels.Flight(AckPacket(0), 0)
    ensures s.Shaped() ==> OnAck(s, acks[0].pkt) == Effect(s, [])
    ensures FlightsOk(s, expected, submitted, data, acks[1..])
  {
    hide DataFlights, AckFlights;
    AckHead(0, expected);
  }

  /** Any other ACK moves the window, which sends messages that wait. */
  lemma FlightsAck(w: nat, s: Sender, expected: nat, submitted: seq<Payload>, data: seq<Flight>, acks: seq<Flight>)
    requires SenderOk(w, s, submitted) && FlightsOk(s, expected, submitted, data, acks) && 0 < |acks| < expected
    ensures s.Shaped()
    ensures var e := OnAck(s, acks[0].pkt);
            && acks[0].origin == expected - |acks|
            && FlightsOk(e.snd, expected, submitted, data + Sent(e.acts), acks[1..])
            && 1 < e.snd.base && s.base < e.snd.base && e.snd.resent == s.resent && e.snd.timeouts == s.timeouts
            && |Sent(e.acts)| == e.snd.next - s.next == |s.queue| - |e.snd.queue|
            && Starts(e.acts) <= 1 + |Sent(e.acts)|
  {
    hide DataFlights, AckFlights, SenderMid, PopAcked, Refill;
    MidShaped(w, s, submitted);
    var a := expected - |acks|;
    AckHead(a, expected);
    OwnChecksumAccepted(Packet(NOTUSED, a, 0, ZeroPayload));
    PopMid(w, s, submitted, a);
    var t := PopAcked(s.(base := a + 1));
    MidShaped(w, t, submitted);
    RefillSends(w, t, submitted);
    RestartStarts(s.base, t);
    SentAppend(Restart(s.base, t), Refill(t).acts);
    StartsAppend(Restart(s.base, t), Refill(t).acts);
    DataHead(submitted, s.next, Refill(t).snd.next);
    FlightsJoin(submitted, expected, s.next, Refill(t).snd.next);
    assert [] + Sent(Refill(t).acts) == Sent(Refill(t).acts);
  }

  /** A clean network does what it is asked. */
  lemma Emit(net: Net, pattern: seq<char>, from: Side, acts: seq<Action>)
    requires Shared.NetOk(net) && Clean.CleanPattern(pattern)
    requires from.SideA? || forall i :: 0 <= i < |acts| ==> acts[i].Send?
    ensures var net' := PerformAll(net, pattern, from, acts);
            && Shared.NetOk(net') && net'.time == net.time
            && Shared.ArrivalCount(net'.events) == Shared.ArrivalCount(net.events)
            && Shared.Flights(net'.events, OtherSide(from)) == Shared.Flights(net.events, OtherSide(from)) + Sent(acts)
            && Shared.Flights(net'.events, from) == Shared.Flights(net.events, from)
            && |Shared.TimerBag(net'.events)| <= |Shared.TimerBag(net.events)| + Starts(acts)
  {
    hide PerformAll, Shared.Flights, Shared.TimerBag, Shared.ArrivalCount, Shared.NetOk, Channels.CarryAll;
    Clean.CleanFates(pattern);
    Shared.PerformAllView(net, pattern, from, acts);
    CleanCarry(Shared.View(net), Shared.OracleOf(pattern), from, acts);
  }

  // ---------- the rounds ----------

  /** The list without its first event, and the clock moved to it. */
  function Popped(net: Net): Net
    requires net.events != []
  {
    net.(time := net.events[0].time, events := net.events[1..])
  }

  /** The ACK of a packet takes over the guard of its copy. */
  lemma GuardPassesOn(evs: seq<Event>, a: Event, base: nat)
    requires Guarded(evs, base) && evs != [] && evs[0].FromLayer3? && evs[0].entity.SideB?
    requires a.FromLayer3? && a.entity.SideA? && a.origin == evs[0].origin && a.time == evs[0].time + CHANNEL_DELAY
    ensures Guarded(Insert(evs[1..], a), base)
  {
    var evs' := Insert(evs[1..], a);
    forall x | x in evs' && x.TimeOut? && base <= x.seqno ensures HasGuard(evs', x) {
      InsertBoth(evs[1..], a, x);
      var e :| e in evs && Guards(e, x);
      if e == evs[0] {
        InsertBoth(evs[1..], a, a);
        assert Guards(a, x);
      } else {
        InsertBoth(evs[1..], a, e);
      }
    }
  }

  /** Nothing that guards a timer is taken off with an event of any other kind. */
  lemma GuardsStay(evs: seq<Event>, base: nat)
    requires Guarded(evs, base) && evs != [] && (evs[0].FromLayer3? ==> evs[0].origin == 0)
    ensures Guarded(evs[1..], base)
  {
    forall x | x in evs[1..] && x.TimeOut? && base <= x.seqno ensures HasGuard(evs[1..], x) {
      var e :| e in evs && Guards(e, x);
      assert e in evs[1..];
    }
  }

  /** Old timers keep their guards, new ones find theirs under way. */
  lemma GuardsGrow(net: Net, pattern: seq<char>, acts: seq<Action>, base: nat)
    requires pattern != [] && Guarded(net.events, base)
    requires var t := PerformAll(net, pattern, SideA, acts);
             && Shared.NetOk(t) && t.time == net.time
             && forall n :: StartTimer(n) in acts && base <= n ==> Pending(t.events, Needs(n))
    ensures Guarded(PerformAll(net, pattern, SideA, acts).events, base)
  {
    hide PerformAll, Shared.NetOk;
    var t := PerformAll(net, pattern, SideA, acts);
    forall x | x in t.events && x.TimeOut? && base <= x.seqno ensures HasGuard(t.events, x) {
      PerformAllMembers(net, pattern, acts, x);
      if x in net.events {
        var e :| e in net.events && Guards(e, x);
        PerformAllMembers(net, pattern, acts, e);
      } else {
        FreshGuard(t, x);
      }
    }
  }

  lemma PopShadowed(cfg: Config, s: Sim, g: Gbn)
    requires CleanSim(cfg, s, g) && s.net.events != []
    ensures CanStep(cfg, s) && g.snd.Shaped() && Enabled(g, StepOf(cfg, s))
    ensures var t, h := SimStep(cfg, s), Apply(g, StepOf(cfg, s));
            Shadows(cfg, t, h) && TimersOk(t.snd, h.timers) && Shared.NetOk(Popped(s.net))
  {
    hide SimStep, Apply, CanStep, Enabled, TimersOk, FlightsOk, Guarded, Shared.NetOk, Shared.Flights, Inv;
    RoundRefines(cfg, s, g);
    ShadowShaped(cfg, s, g);
    TimersStep(g, StepOf(cfg, s));
    Shared.PopNetOk(s.net);
  }

  /** A copy arrives at B: it is the next expected packet. */
  lemma CleanDataRound(cfg: Config, s: Sim, g: Gbn)
    requires CleanSim(cfg, s, g) && s.net.events != [] && s.net.events[0].FromLayer3? && s.net.events[0].entity.SideB?
    ensures CanStep(cfg, s) && g.snd.Shaped() && Enabled(g, StepOf(cfg, s))
    ensures CleanSim(cfg, SimStep(cfg, s), Apply(g, StepOf(cfg, s))) && Work(cfg, SimStep(cfg, s)) < Work(cfg, s)
  {
    hide Inv, Enabled, TimersOk, FlightsOk, Guarded, Shared.NetOk, Shared.Flights, Shared.TimerBag, Shared.ArrivalCount,
         PerformAll, DataPacket, AckPacket, OnData, Apply, Covered, TimersAtA;
    PopShadowed(cfg, s, g);
    Shared.PopView(s.net);
    var e := s.net.events[0];
    FlightsReceive(s.snd, s.expected, s.submitted, Shared.Flights(s.net.events, SideB), Shared.Flights(s.net.events, SideA));
    var send := Send(AckPacket(s.expected), s.expected);
    AckNumber(s.expected);
    assert AckActs([AckPacket(s.expected)]) == [send];
    SentOne(send);
    Emit(Popped(s.net), cfg.pattern, SideB, [send]);
    AckGuarded(s.net, cfg.pattern, AckPacket(s.expected), s.snd.base);
  }

  lemma AckGuarded(net: Net, pattern: seq<char>, ack: Packet, base: nat)
    requires Clean.CleanPattern(pattern) && Guarded(net.events, base) && net.events != []
    requires net.events[0].FromLayer3? && net.events[0].entity.SideB?
    ensures Guarded(PerformAll(Popped(net), pattern, SideB, [Send(ack, net.events[0].origin)]).events, base)
  {
    hide PerformAll, Guarded, Insert, Tamper;
    var e := net.events[0];
    var send := Send(ack, e.origin);
    PerformOne(Popped(net), pattern, SideB, send);
    Clean.CleanFate(pattern, net.transmissions);
    var a := FromLayer3(e.time + CHANNEL_DELAY, SideA, ack, e.origin);
    assert Perform(Popped(net), pattern, SideB, send).events == Insert(net.events[1..], a);
    GuardPassesOn(net.events, a, base);
  }

  lemma AckNumber(n: nat)
    ensures AckPacket(n).acknum == n
  {
  }

  /** ACK 0 arrives at A, which discards it. */
  lemma CleanDiscardRound(cfg: Config, s: Sim, g: Gbn)
    requires CleanSim(cfg, s, g) && s.net.events != [] && s.net.events[0].FromLayer3? && s.net.events[0].entity.SideA?
    requires |Shared.Flights(s.net.events, SideA)| == s.expected
    ensures CanStep(cfg, s) && g.snd.Shaped() && Enabled(g, StepOf(cfg, s))
    ensures CleanSim(cfg, SimStep(cfg, s), Apply(g, StepOf(cfg, s))) && Work(cfg, SimStep(cfg, s)) < Work(cfg, s)
  {
    hide Inv, Enabled, TimersOk, FlightsOk, Guarded, Shared.NetOk, Shared.Flights, Shared.TimerBag, Shared.ArrivalCount,
         DataPacket, AckPacket, OnAck, Apply, Covered, TimersAtA;
    PopShadowed(cfg, s, g);
    Shared.PopView(s.net);
    ShadowShaped(cfg, s, g);
    FlightsDiscard(s.snd, s.expected, s.submitted, Shared.Flights(s.net.events, SideB), Shared.Flights(s.net.events, SideA));
    GuardsStay(s.net.events, s.snd.base);
  }

  /** Any other ACK arrives. */
  lemma CleanAckRound(cfg: Config, s: Sim, g: Gbn)
    requires CleanSim(cfg, s, g) && s.net.events != [] && s.net.events[0].FromLayer3? && s.net.events[0].entity.SideA?
    requires |Shared.Flights(s.net.events, SideA)| < s.expected
    ensures CanStep(cfg, s) && g.snd.Shaped() && Enabled(g, StepOf(cfg, s))
    ensures CleanSim(cfg, SimStep(cfg, s), Apply(g, StepOf(cfg, s))) && Work(cfg, SimStep(cfg, s)) < Work(cfg, s)
  {
    hide Inv, Enabled, TimersOk, FlightsOk, Guarded, Shared.NetOk, Shared.Flights, Shared.TimerBag, Shared.ArrivalCount,
         PerformAll, DataPacket, AckPacket, OnAck, Apply, Covered, TimersAtA;
    PopShadowed(cfg, s, g);
    Shared.PopView(s.net);
    ShadowSender(cfg, s, g);
    FlightsAck(cfg.w, s.snd, s.expected, s.submitted, Shared.Flights(s.net.events, SideB), Shared.Flights(s.net.events, SideA));
    var acts := OnAck(s.snd, s.net.events[0].pkt).acts;
    Emit(Popped(s.net), cfg.pattern, SideA, acts);
    AckGuards(cfg, s, g, SimStep(cfg, s), Apply(g, StepOf(cfg, s)), acts);
  }

  lemma ShadowSender(cfg: Config, s: Sim, g: Gbn)
    requires Shadows(cfg, s, g)
    ensures SenderOk(cfg.w, s.snd, s.submitted) && g.snd == s.snd
  {
  }

  lemma TimersUpTo(s: Sender, timers: multiset<int>, n: int)
    requires TimersOk(s, timers) && n in timers
    ensures 0 <= n <= s.base && (n == s.base ==> s.base < s.next || s.next < s.base)
  {
  }

  /** No old timer is for the new base, and the new one has it under way. */
  lemma AckGuards(cfg: Config, s: Sim, g: Gbn, t: Sim, h: Gbn, acts: seq<Action>)
    requires CleanSim(cfg, s, g) && s.net.events != [] && Shadows(cfg, t, h) && TimersOk(t.snd, h.timers)
    requires Shared.NetOk(t.net) && t.net == PerformAll(Popped(s.net), cfg.pattern, SideA, acts)
    requires t.net.time == s.net.events[0].time && s.snd.base < t.snd.base && 1 < t.snd.base
    requires FlightsOk(t.snd, t.expected, t.submitted,
                       Shared.Flights(t.net.events, SideB), Shared.Flights(t.net.events, SideA))
    ensures Guarded(t.net.events, t.snd.base)
  {
    hide Inv, TimersOk, Shared.NetOk, Shared.Flights, Shared.TimerBag, Shared.ArrivalCount, PerformAll, Covered, TimersAtA,
         HasGuard;
    forall x | x in t.net.events && x.TimeOut? && t.snd.base <= x.seqno ensures HasGuard(t.net.events, x) {
      Clean.InTimerBag(t.net.events, x);
      TimersUpTo(t.snd, h.timers, x.seqno);
      PerformAllMembers(Popped(s.net), cfg.pattern, acts, x);
      if x in s.net.events {
        Clean.InTimerBag(s.net.events, x);
        TimersUpTo(s.snd, g.timers, x.seqno);
      } else {
        NumberPending(t, t.snd.base);
        FreshGuard(t.net, x);
      }
    }
  }

  /** A message comes from layer 5. */
  lemma CleanArrivalRound(cfg: Config, s: Sim, g: Gbn)
    requires CleanSim(cfg, s, g) && s.net.events != [] && s.net.events[0].FromLayer5?
    ensures CanStep(cfg, s) && g.snd.Shaped() && Enabled(g, StepOf(cfg, s))
    ensures CleanSim(cfg, SimStep(cfg, s), Apply(g, StepOf(cfg, s))) && Work(cfg, SimStep(cfg, s)) < Work(cfg, s)
  {
    hide Inv, Enabled, TimersOk, FlightsOk, Guarded, Shared.NetOk, Shared.Flights, Shared.TimerBag, Shared.ArrivalCount,
         PerformAll, DataPacket, AckPacket, OnSubmit, Apply, Covered, TimersAtA, Shared.Letters, Insert;
    PopShadowed(cfg, s, g);
    Shared.PopView(s.net);
    ShadowSender(cfg, s, g);
    var s2 := NextArrival(cfg, s.(net := Popped(s.net)));
    NextArrivalClean(cfg, s);
    var m := Shared.Letters(s2.nsim);
    FlightsSubmit(cfg.w, s.snd, s.expected, s.submitted, Shared.Flights(s.net.events, SideB),
                  Shared.Flights(s.net.events, SideA), m);
    var acts := OnSubmit(s.snd, m).acts;
    Emit(s2.net, cfg.pattern, SideA, acts);
    SubmitStarts(s.snd, m);
    var t := SimStep(cfg, s);
    SubmitGuards(cfg, s.snd, m, t);
    GuardsGrow(s2.net, cfg.pattern, acts, s.snd.base);
  }

  /** Scheduling the next arrival. */
  lemma NextArrivalClean(cfg: Config, s: Sim)
    requires s.net.events != [] && Shared.NetOk(Popped(s.net)) && cfg.lambda > 0.0 && s.net.events[0].FromLayer5?
    ensures var s1 := s.(net := Popped(s.net));
            var t := NextArrival(cfg, s1);
            && Shared.NetOk(t.net) && t == s1.(net := s1.net.(events := t.net.events), nsim := t.nsim)
            && Shared.View(t.net) == Shared.View(s1.net)
            && t.nsim == s.nsim + (if s.nsim < cfg.nsimmax then 1 else 0)
            && Shared.ArrivalCount(t.net.events)
               == Shared.ArrivalCount(s1.net.events) + (if s.nsim < cfg.nsimmax then 1 else 0)
    ensures forall base: nat :: Guarded(s.net.events, base) ==>
              Guarded(NextArrival(cfg, s.(net := Popped(s.net))).net.events, base)
  {
    hide Shared.Flights, Shared.TimerBag, Shared.ArrivalCount, Shared.NetOk, Insert;
    var net := Popped(s.net);
    var e := FromLayer5(net.time + cfg.lambda);
    Shared.InsertNetView(net, e);
    forall base: nat | Guarded(s.net.events, base)
      ensures Guarded(NextArrival(cfg, s.(net := net)).net.events, base)
    {
      GuardsStay(s.net.events, base);
      if s.nsim < cfg.nsimmax {
        forall x | x in Insert(net.events, e) && x.TimeOut? && base <= x.seqno ensures HasGuard(Insert(net.events, e), x) {
          InsertBoth(net.events, e, x);
          var y :| y in net.events && Guards(y, x);
          InsertBoth(net.events, e, y);
        }
      }
    }
  }

  /** A timer that starts with a new packet is for the packet before it; packet 0 waits for the ACK of the new one. */
  lemma SubmitGuards(cfg: Config, s: Sender, m: Payload, t: Sim)
    requires s.Shaped() && t.snd == OnSubmit(s, m).snd
    requires FlightsOk(t.snd, t.expected, t.submitted,
                       Shared.Flights(t.net.events, SideB), Shared.Flights(t.net.events, SideA))
    ensures forall n :: StartTimer(n) in OnSubmit(s, m).acts ==> Pending(t.net.events, Needs(n))
  {
    hide FlightsOk, DataPacket;
    forall n | StartTimer(n) in OnSubmit(s, m).acts ensures Pending(t.net.events, Needs(n)) {
      TransmitStarts(s, m);
      NumberPending(t, Needs(s.base));
    }
  }

  /** A timer goes off for a packet that has been acknowledged: nothing happens. */
  lemma CleanTimerRound(cfg: Config, s: Sim, g: Gbn)
    requires CleanSim(cfg, s, g) && s.net.events != [] && s.net.events[0].TimeOut?
    ensures CanStep(cfg, s) && g.snd.Shaped() && Enabled(g, StepOf(cfg, s))
    ensures CleanSim(cfg, SimStep(cfg, s), Apply(g, StepOf(cfg, s))) && Work(cfg, SimStep(cfg, s)) < Work(cfg, s)
  {
    hide Inv, Enabled, TimersOk, FlightsOk, Guarded, Shared.NetOk, Shared.Flights, Shared.TimerBag, Shared.ArrivalCount,
         Apply, Covered, TimersAtA;
    PopShadowed(cfg, s, g);
    OnlyStaleTimers(cfg, s, g);
    Shared.PopView(s.net);
    GuardsStay(s.net.events, s.snd.base);
    var n := s.net.events[0].seqno;
    var bag := Shared.TimerBag(s.net.events);
    assert bag == bag - multiset{n} + multiset{n};
  }

  lemma CleanRound(cfg: Config, s: Sim, g: Gbn)
    requires CleanSim(cfg, s, g) && s.net.events != []
    ensures CanStep(cfg, s) && g.snd.Shaped() && Enabled(g, StepOf(cfg, s))
    ensures CleanSim(cfg, SimStep(cfg, s), Apply(g, StepOf(cfg, s))) && Work(cfg, SimStep(cfg, s)) < Work(cfg, s)
  {
    hide CleanSim, SimStep, CanStep, Apply, Enabled, Work, StepOf;
    match s.net.events[0]
    case FromLayer5(_) => CleanArrivalRound(cfg, s, g);
    case TimeOut(_, _, _) => CleanTimerRound(cfg, s, g);
    case FromLayer3(_, SideB, _, _) => CleanDataRound(cfg, s, g);
    case FromLayer3(_, SideA, _, _) =>
      AcksWithin(cfg, s, g);
      if |Shared.Flights(s.net.events, SideA)| == s.expected {
        CleanDiscardRound(cfg, s, g);
      } else {
        CleanAckRound(cfg, s, g);
      }
  }

  lemma AcksWithin(cfg: Config, s: Sim, g: Gbn)
    requires CleanSim(cfg, s, g)
    ensures |Shared.Flights(s.net.events, SideA)| <= s.expected
    ensures 0 <= cfg.nsimmax ==> 0 <= Work(cfg, s)
  {
    hide Inv, Shared.Flights, Shared.TimerBag, Shared.NetOk, Guarded;
  }

  // ---------- the whole run ----------

  lemma StartedClean(cfg: Config, s: Sim, g: Gbn)
    requires Usable(cfg) && Started(cfg, s) && cfg.lambda > 0.0 && Clean.CleanPattern(cfg.pattern) && 0 <= cfg.nsimmax
    requires g == Gbn(s.snd, 0, {}, {}, multiset{}, [], [])
    ensures CleanSim(cfg, s, g) && Work(cfg, s) == 5 * cfg.nsimmax
  {
    StartedShadowed(cfg, s);
    if cfg.nsimmax > 0 {
      Shared.SingleView(FromLayer5(cfg.lambda), SideA);
      Shared.SingleView(FromLayer5(cfg.lambda), SideB);
    }
  }

  /** As long as an event is pending, every round takes something off the work. */
  lemma {:induction false} CleanRounds(cfg: Config, s: Sim, g: Gbn, k: nat) returns (h: Gbn)
    requires CleanSim(cfg, s, g)
    ensures var t := SimRun(cfg, s, k);
            CleanSim(cfg, t, h) && (t.net.events != [] ==> Work(cfg, t) + k <= Work(cfg, s))
    decreases k
  {
    hide CleanSim, SimStep, SimRun, CanStep, Apply, Enabled, Work, StepOf;
    h := g;
    if k == 0 {
      SimRunNone(cfg, s);
    } else {
      h := CleanRounds(cfg, s, g, k - 1);
      var t := SimRun(cfg, s, k - 1);
      SimRunExtend(cfg, s, k - 1);
      if t.net.events != [] {
        CleanRound(cfg, t, h);
        h := Apply(h, StepOf(cfg, t));
      } else {
        NothingToDo(cfg, t);
      }
    }
  }

  lemma NothingToDo(cfg: Config, t: Sim)
    requires t.net.events == []
    ensures !CanStep(cfg, t)
  {
  }

  /** What it means that nothing is pending: with a window of one only the first message has gone, and ACK 0 has been
      discarded; otherwise everything has been delivered, and acknowledged unless it was packet 0 alone. */
  lemma CleanEnd(cfg: Config, t: Sim, h: Gbn)
    requires CleanSim(cfg, t, h) && t.net.events == [] && 0 <= cfg.nsimmax
    ensures |t.submitted| == cfg.nsimmax && t.delivered == t.submitted[..t.expected]
    ensures t.expected == t.snd.next == t.snd.sent == if cfg.w == 1 && 1 < cfg.nsimmax then 1 else cfg.nsimmax
    ensures t.snd.base == if t.snd.next == 1 then 0 else t.snd.next
  {
    hide RingHolds, DataPacket, AckPacket, Shared.NetOk, Guarded, TimersOk;
    DataHead(t.submitted, t.expected, t.snd.next);
  }

  /** A whole run over a clean channel: nothing is ever resent and no timer that goes off is heeded; after at most five
      rounds per message nothing is pending, and everything has been delivered exactly when the window has two places or
      there is at most one message. */
  lemma CleanRun(cfg: Config, s: Sim, k: nat)
    requires Usable(cfg) && Started(cfg, s) && cfg.lambda > 0.0 && Clean.CleanPattern(cfg.pattern) && 0 <= cfg.nsimmax
    ensures var t := SimRun(cfg, s, k);
            && t.snd.resent == 0 && t.snd.timeouts == 0
            && (5 * cfg.nsimmax <= k ==>
                  && t.net.events == [] && |t.submitted| == cfg.nsimmax && t.snd.sent == t.expected == |t.delivered|
                  && (t.delivered == t.submitted <==> 2 <= cfg.w || cfg.nsimmax <= 1)
                  && (t.snd.base == |t.submitted| <==> cfg.nsimmax == 0 || (2 <= cfg.w && 2 <= cfg.nsimmax)))
  {
    hide SimRun, SimStep, CanStep, Work, Inv, Started, Shared.Flights, Shared.TimerBag;
    var g := Gbn(s.snd, 0, {}, {}, multiset{}, [], []);
    StartedClean(cfg, s, g);
    var h := CleanRounds(cfg, s, g, k);
    var t := SimRun(cfg, s, k);
    if 5 * cfg.nsimmax <= k {
      if t.net.events != [] {
        CleanRound(cfg, t, h);
        AcksWithin(cfg, SimStep(cfg, t), Apply(h, StepOf(cfg, t)));
        assert false;
      }
      CleanEnd(cfg, t, h);
      assert t.submitted[..|t.submitted|] == t.submitted;
    }
  }
}
