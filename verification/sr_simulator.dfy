/** The event-driven simulator that runs Selective Repeat, and the proof that every one of its steps is a
    step of the protocol over FIFO channels. */
module SrSimulator {
  import opened Packets
  import opened EventLists
  import opened Networks
  import opened SrSender
  import opened SrReceiver
  import opened SrProtocol

  datatype Config = Config(w: nat, lambda: real, nsimmax: int, pattern: seq<char>)
  {
    /** What the user is asked to enter: a positive interval, a channel pattern, a window of at most
        eight slots and a message count that leaves sequence numbers inside 32 bits. */
    predicate Usable() {
      1 <= w <= 8 && lambda > 0.0 && nsimmax <= MAXSEQ && pattern != []
    }
  }

  datatype Sim = Sim(net: Net, snd: Sender, rcv: Receiver, nsim: nat,
                     submitted: seq<Payload>, delivered: seq<Payload>, exited: bool)

  /** The message that the main loop makes up: one letter, twenty times. */
  function Letters(nsim: nat): Payload {
    var c: Byte := 97 + nsim % 26;
    [c, c, c, c, c, c, c, c, c, c, c, c, c, c, c, c, c, c, c, c]
  }

  function NextArrival(cfg: Config, s: Sim): Sim {
    if s.nsim >= cfg.nsimmax then s
    else
      var e := FromLayer5(s.net.time + cfg.lambda);
      s.(net := s.net.(events := Insert(s.net.events, e)), nsim := s.nsim + 1)
  }

  predicate CanStep(cfg: Config, s: Sim) {
    && s.net.events != [] && !s.exited && cfg.pattern != [] && s.rcv.Shaped(cfg.w)
    && var e := s.net.events[0];
       e.FromLayer3? && e.entity.SideB? ==> Addressable(cfg.w, s.rcv, e.pkt)
  }

  /** One round of the main loop. */
  function SimStep(cfg: Config, s: Sim): Sim
    requires CanStep(cfg, s)
  {
    var e := s.net.events[0];
    var s1 := s.(net := s.net.(time := e.time, events := s.net.events[1..]));
    match e
    case FromLayer5(_) =>
      var s2 := NextArrival(cfg, s1);
      var m := Letters(s2.nsim);
      if Overflows(cfg.w, s2.snd) then s2.(exited := true)
      else
        var r := OnSubmit(cfg.w, s2.snd, m);
        s2.(snd := r.snd, net := PerformAll(s2.net, cfg.pattern, SideA, r.acts), submitted := s2.submitted + [m])
    case FromLayer3(_, SideA, pkt, _) =>
      var r := OnAck(cfg.w, s1.snd, pkt);
      s1.(snd := r.snd, net := PerformAll(s1.net, cfg.pattern, SideA, r.acts))
    case FromLayer3(_, SideB, pkt, origin) =>
      var d := OnData(cfg.w, s1.rcv, pkt);
      s1.(rcv := d.rcv, delivered := s1.delivered + d.delivered,
          net := PerformAll(s1.net, cfg.pattern, SideB, Acknowledge(d.acks, origin)))
    case TimeOut(_, SideA, n) =>
      var r := OnTimeOut(s1.snd, n);
      s1.(snd := r.snd, net := PerformAll(s1.net, cfg.pattern, SideA, r.acts))
    case TimeOut(_, SideB, _) => s1
  }

  /** The state that initialisation leaves: the first arrival is pending, if there is to be one. */
  ghost predicate Started(cfg: Config, s: Sim) {
    && s.snd == InitialSender && IsInitial(s.rcv) && s.submitted == [] && s.delivered == [] && !s.exited
    && s.nsim == (if cfg.nsimmax > 0 then 1 else 0)
    && s.net == Net(0.0, if cfg.nsimmax > 0 then [FromLayer5(cfg.lambda)] else [], 0)
  }

  // ---------- the event list as two channels and a set of timers ----------

  function Flights(evs: seq<Event>, to: Side): seq<Flight> {
    if evs == [] then []
    else if evs[0].FromLayer3? && evs[0].entity == to
    then [Flight(evs[0].pkt, evs[0].origin)] + Flights(evs[1..], to)
    else Flights(evs[1..], to)
  }

  function TimerBag(evs: seq<Event>): multiset<int> {
    if evs == [] then multiset{}
    else if evs[0].TimeOut? then multiset{evs[0].seqno} + TimerBag(evs[1..])
    else TimerBag(evs[1..])
  }

  function ArrivalCount(evs: seq<Event>): nat {
    if evs == [] then 0 else ArrivalCount(evs[1..]) + if evs[0].FromLayer5? then 1 else 0
  }

  function View(net: Net): Channel {
    Channel(Flights(net.events, SideB), Flights(net.events, SideA), TimerBag(net.events), net.transmissions)
  }

  function Abs(s: Sim): Sr {
    Sr(s.snd, s.rcv, View(s.net), s.submitted, s.delivered)
  }

  lemma {:induction false} FlightsAppend(xs: seq<Event>, ys: seq<Event>, to: Side)
    ensures Flights(xs + ys, to) == Flights(xs, to) + Flights(ys, to)
  {
    if xs == [] {
      assert xs + ys == ys;
    } else {
      assert (xs + ys)[0] == xs[0] && (xs + ys)[1..] == xs[1..] + ys;
      FlightsAppend(xs[1..], ys, to);
    }
  }

  lemma {:induction false} CountsAppend(xs: seq<Event>, ys: seq<Event>)
    ensures TimerBag(xs + ys) == TimerBag(xs) + TimerBag(ys)
    ensures ArrivalCount(xs + ys) == ArrivalCount(xs) + ArrivalCount(ys)
  {
    if xs == [] {
      assert xs + ys == ys;
    } else {
      assert (xs + ys)[0] == xs[0] && (xs + ys)[1..] == xs[1..] + ys;
      CountsAppend(xs[1..], ys);
    }
  }

  lemma ViewAppend(xs: seq<Event>, ys: seq<Event>, to: Side)
    ensures Flights(xs + ys, to) == Flights(xs, to) + Flights(ys, to)
    ensures TimerBag(xs + ys) == TimerBag(xs) + TimerBag(ys)
    ensures ArrivalCount(xs + ys) == ArrivalCount(xs) + ArrivalCount(ys)
  {
    FlightsAppend(xs, ys, to);
    CountsAppend(xs, ys);
  }

  /** No packet toward `to` among these events. */
  lemma {:induction false} NoFlights(evs: seq<Event>, to: Side)
    requires forall i :: 0 <= i < |evs| ==> !(evs[i].FromLayer3? && evs[i].entity == to)
    ensures Flights(evs, to) == []
  {
    if evs != [] {
      NoFlights(evs[1..], to);
    }
  }

  lemma SingleView(e: Event, to: Side)
    ensures Flights([e], to) == if e.FromLayer3? && e.entity == to then [Flight(e.pkt, e.origin)] else []
    ensures TimerBag([e]) == if e.TimeOut? then multiset{e.seqno} else multiset{}
    ensures ArrivalCount([e]) == if e.FromLayer5? then 1 else 0
  {
    assert [e][1..] == [];
  }

  /** Behind the insertion point every event is later, so none of them is a packet. */
  lemma LaterEvents(evs: seq<Event>, t: real, k: nat)
    requires k == InsertPosition(evs, t) && Sorted(evs)
    requires forall i :: 0 <= i < |evs| && evs[i].FromLayer3? ==> evs[i].time <= t
    ensures forall i :: k <= i < |evs| ==> !evs[i].FromLayer3?
  {
  }

  lemma SplitView(xs: seq<Event>, e: Event, ys: seq<Event>, to: Side)
    ensures Flights(xs + [e] + ys, to)
         == Flights(xs, to) + (if e.FromLayer3? && e.entity == to then [Flight(e.pkt, e.origin)] else []) + Flights(ys, to)
    ensures TimerBag(xs + [e] + ys)
         == TimerBag(xs) + (if e.TimeOut? then multiset{e.seqno} else multiset{}) + TimerBag(ys)
    ensures ArrivalCount(xs + [e] + ys)
         == ArrivalCount(xs) + (if e.FromLayer5? then 1 else 0) + ArrivalCount(ys)
  {
    ViewAppend(xs + [e], ys, to);
    ViewAppend(xs, [e], to);
    SingleView(e, to);
  }

  lemma InsertCounts(evs: seq<Event>, e: Event)
    ensures TimerBag(Insert(evs, e)) == TimerBag(evs) + if e.TimeOut? then multiset{e.seqno} else multiset{}
    ensures ArrivalCount(Insert(evs, e)) == ArrivalCount(evs) + if e.FromLayer5? then 1 else 0
  {
    var k := InsertPosition(evs, e.time);
    var xs, ys := evs[..k], evs[k..];
    SplitView(xs, e, ys, SideA);
    assert evs == xs + ys;
    ViewAppend(xs, ys, SideA);
  }

  /** Inserting an event that is not earlier than any packet under way appends it to its channel;
      any other event leaves the channels alone. */
  lemma InsertFlights(evs: seq<Event>, e: Event, to: Side)
    requires Sorted(evs)
    requires e.FromLayer3? ==> forall i :: 0 <= i < |evs| && evs[i].FromLayer3? ==> evs[i].time <= e.time
    ensures Flights(Insert(evs, e), to)
         == Flights(evs, to) + if e.FromLayer3? && e.entity == to then [Flight(e.pkt, e.origin)] else []
  {
    var k := InsertPosition(evs, e.time);
    var xs, ys := evs[..k], evs[k..];
    assert e.FromLayer3? ==> Flights(ys, to) == [] by {
      if e.FromLayer3? {
        LaterEvents(evs, e.time, k);
        assert forall i :: 0 <= i < |ys| ==> ys[i] == evs[k + i];
        NoFlights(ys, to);
      }
    }
    FlightsOfInsert(xs, e, ys, to);
    assert evs == xs + ys;
  }

  lemma FlightsOfInsert(xs: seq<Event>, e: Event, ys: seq<Event>, to: Side)
    requires e.FromLayer3? ==> Flights(ys, to) == []
    ensures Flights(xs + [e] + ys, to)
         == Flights(xs + ys, to) + if e.FromLayer3? && e.entity == to then [Flight(e.pkt, e.origin)] else []
  {
    SplitView(xs, e, ys, to);
    ViewAppend(xs, ys, to);
  }

  lemma InsertSorted(evs: seq<Event>, e: Event)
    requires Sorted(evs)
    ensures Sorted(Insert(evs, e)) && |Insert(evs, e)| == |evs| + 1
  {
    var k := InsertPosition(evs, e.time);
    var zs := Insert(evs, e);
    forall i, j | 0 <= i < j < |zs| ensures zs[i].time <= zs[j].time {
      assert zs[i] == if i < k then evs[i] else if i == k then e else evs[i - 1];
      assert zs[j] == if j < k then evs[j] else if j == k then e else evs[j - 1];
      assert k < j ==> evs[k].time <= evs[j - 1].time;
    }
  }

  lemma InsertMembers(evs: seq<Event>, e: Event, x: Event)
    requires x in Insert(evs, e)
    ensures x == e || x in evs
  {
  }

  lemma RemoveSorted(evs: seq<Event>, n: int)
    requires Sorted(evs)
    ensures Sorted(RemoveTimer(evs, SideA, n))
  {
  }

  lemma RemoveMembers(evs: seq<Event>, n: int, x: Event)
    requires x in RemoveTimer(evs, SideA, n)
    ensures x in evs
  {
  }

  lemma {:induction false} UnsplitView(xs: seq<Event>, e: Event, ys: seq<Event>, to: Side)
    requires e.TimeOut?
    ensures Flights(xs + [e] + ys, to) == Flights(xs + ys, to)
    ensures TimerBag(xs + [e] + ys) == TimerBag(xs + ys) + multiset{e.seqno}
    ensures ArrivalCount(xs + [e] + ys) == ArrivalCount(xs + ys)
  {
    var zs := xs + [e] + ys;
    if xs == [] {
      assert zs[0] == e && zs[1..] == ys && xs + ys == ys;
    } else {
      assert zs[0] == xs[0] && zs[1..] == xs[1..] + [e] + ys;
      assert (xs + ys)[0] == xs[0] && (xs + ys)[1..] == xs[1..] + ys;
      UnsplitView(xs[1..], e, ys, to);
    }
  }

  /** Cancelling a timer takes one occurrence out of the timers and leaves every other event in its order. */
  lemma RemoveView(evs: seq<Event>, n: int, to: Side)
    requires forall i :: 0 <= i < |evs| && evs[i].TimeOut? ==> evs[i].entity.SideA?
    ensures Flights(RemoveTimer(evs, SideA, n), to) == Flights(evs, to)
    ensures TimerBag(RemoveTimer(evs, SideA, n)) == TimerBag(evs) - multiset{n}
    ensures ArrivalCount(RemoveTimer(evs, SideA, n)) == ArrivalCount(evs)
  {
    var k := TimerPosition(evs, SideA, n);
    if k < |evs| {
      UnsplitView(evs[..k], evs[k], evs[k + 1..], to);
      assert evs == evs[..k] + [evs[k]] + evs[k + 1..];
      var rest := TimerBag(RemoveTimer(evs, SideA, n));
      assert rest + multiset{n} - multiset{n} == rest;
    } else {
      NotInTimerBag(evs, n);
    }
  }

  lemma {:induction false} NotInTimerBag(evs: seq<Event>, n: int)
    requires forall i :: 0 <= i < |evs| ==> !(evs[i].TimeOut? && evs[i].seqno == n)
    ensures n !in TimerBag(evs)
  {
    if evs != [] {
      NotInTimerBag(evs[1..], n);
    }
  }

  // ---------- the clock and the channels ----------

  /** Between events: sorted by time, nothing overdue, no packet further away than the channel delay,
      timers only at A. */
  ghost predicate NetOk(net: Net) {
    && Sorted(net.events)
    && forall e :: e in net.events ==> EventOk(net.time, e)
  }

  ghost predicate EventOk(now: real, e: Event) {
    && now <= e.time
    && (e.FromLayer3? ==> e.time <= now + CHANNEL_DELAY)
    && (e.TimeOut? ==> e.entity.SideA? && e.time <= now + RTT)
  }

  function OracleOf(pattern: seq<char>): Oracle
    requires pattern != []
  {
    (i: nat) => FateOf(pattern, i)
  }

  lemma InsertNetOk(net: Net, e: Event)
    requires NetOk(net) && EventOk(net.time, e)
    ensures NetOk(net.(events := Insert(net.events, e)))
  {
    InsertSorted(net.events, e);
    forall x | x in Insert(net.events, e) ensures EventOk(net.time, x) {
      InsertMembers(net.events, e, x);
    }
  }

  lemma RemoveNetOk(net: Net, n: int)
    requires NetOk(net)
    ensures NetOk(net.(events := RemoveTimer(net.events, SideA, n)))
  {
    RemoveSorted(net.events, n);
    forall x | x in RemoveTimer(net.events, SideA, n) ensures EventOk(net.time, x) {
      RemoveMembers(net.events, n, x);
    }
  }

  lemma EachEventOk(net: Net)
    requires NetOk(net)
    ensures forall i :: 0 <= i < |net.events| ==> EventOk(net.time, net.events[i])
  {
    forall i | 0 <= i < |net.events| ensures EventOk(net.time, net.events[i]) {
      assert net.events[i] in net.events;
    }
  }

  /** The channel after one more event is pending. */
  function Joined(c: Channel, e: Event): Channel {
    match e
    case FromLayer5(_) => c
    case FromLayer3(_, SideA, pkt, o) => c.(acks := c.acks + [Flight(pkt, o)])
    case FromLayer3(_, SideB, pkt, o) => c.(data := c.data + [Flight(pkt, o)])
    case TimeOut(_, _, n) => c.(timers := c.timers + multiset{n})
  }

  /** The network moves to a good state that shows `c`, at the same time and with `extra` more arrivals pending. */
  ghost predicate Simulates(net: Net, net': Net, c: Channel, extra: nat) {
    && NetOk(net') && net'.time == net.time && ArrivalCount(net'.events) == ArrivalCount(net.events) + extra
    && View(net') == c
  }

  lemma JoinedView(net: Net, e: Event)
    requires NetOk(net) && EventOk(net.time, e) && (e.FromLayer3? ==> e.time == net.time + CHANNEL_DELAY)
    ensures View(net.(events := Insert(net.events, e))) == Joined(View(net), e)
  {
    EachEventOk(net);
    InsertCounts(net.events, e);
    InsertFlights(net.events, e, SideA);
    InsertFlights(net.events, e, SideB);
    var c := View(net);
    assert c.data + [] == c.data && c.acks + [] == c.acks && c.timers + multiset{} == c.timers;
  }

  /** Inserting an event into the network's list, seen from the protocol. */
  lemma InsertNetView(net: Net, e: Event)
    requires NetOk(net) && EventOk(net.time, e) && (e.FromLayer3? ==> e.time == net.time + CHANNEL_DELAY)
    ensures Simulates(net, net.(events := Insert(net.events, e)), Joined(View(net), e), if e.FromLayer5? then 1 else 0)
  {
    InsertNetOk(net, e);
    InsertCounts(net.events, e);
    JoinedView(net, e);
  }

  lemma SendView(net: Net, pattern: seq<char>, from: Side, pkt: Packet, origin: int)
    requires NetOk(net) && pattern != []
    ensures Simulates(net, Perform(net, pattern, from, Send(pkt, origin)),
                      Carry(View(net), OracleOf(pattern), from, Send(pkt, origin)), 0)
  {
    var f := FateOf(pattern, net.transmissions);
    var net1 := net.(transmissions := net.transmissions + 1);
    var net' := Perform(net, pattern, from, Send(pkt, origin));
    if f.Lost? {
      assert net' == net1;
    } else {
      var e := FromLayer3(net.time + CHANNEL_DELAY, OtherSide(from), Arriving(pkt, f), origin);
      assert net' == net1.(events := Insert(net1.events, e));
      assert Joined(View(net1), e) == Carry(View(net), OracleOf(pattern), from, Send(pkt, origin));
      InsertNetView(net1, e);
    }
  }

  lemma StartView(net: Net, pattern: seq<char>, n: int)
    requires NetOk(net) && pattern != []
    ensures Simulates(net, Perform(net, pattern, SideA, StartTimer(n)),
                      Carry(View(net), OracleOf(pattern), SideA, StartTimer(n)), 0)
  {
    InsertNetView(net, TimeOut(net.time + RTT, SideA, n));
  }

  lemma StopView(net: Net, pattern: seq<char>, n: int)
    requires NetOk(net) && pattern != []
    ensures Simulates(net, Perform(net, pattern, SideA, StopTimer(n)),
                      Carry(View(net), OracleOf(pattern), SideA, StopTimer(n)), 0)
  {
    EachEventOk(net);
    RemoveNetOk(net, n);
    RemoveView(net.events, n, SideA);
    RemoveView(net.events, n, SideB);
  }

  /** One call into the network layer is one step of the abstract channel. */
  lemma PerformView(net: Net, pattern: seq<char>, from: Side, a: Action)
    requires NetOk(net) && pattern != [] && (a.Send? || from.SideA?)
    ensures Simulates(net, Perform(net, pattern, from, a), Carry(View(net), OracleOf(pattern), from, a), 0)
  {
    match a
    case Send(pkt, origin) => SendView(net, pattern, from, pkt, origin);
    case StartTimer(n) => StartView(net, pattern, n);
    case StopTimer(n) => StopView(net, pattern, n);
  }

  lemma {:induction false} PerformAllView(net: Net, pattern: seq<char>, from: Side, acts: seq<Action>)
    requires NetOk(net) && pattern != []
    requires from.SideA? || forall i :: 0 <= i < |acts| ==> acts[i].Send?
    ensures Simulates(net, PerformAll(net, pattern, from, acts), CarryAll(View(net), OracleOf(pattern), from, acts), 0)
    decreases |acts|
  {
    if acts != [] {
      PerformView(net, pattern, from, acts[0]);
      PerformAllView(Perform(net, pattern, from, acts[0]), pattern, from, acts[1..]);
    }
  }

  /** Popping the first event advances the clock monotonically and leaves the list in order. */
  lemma PopNetOk(net: Net)
    requires NetOk(net) && net.events != []
    ensures NetOk(net.(time := net.events[0].time, events := net.events[1..]))
    ensures net.time <= net.events[0].time
  {
    var e := net.events[0];
    assert EventOk(net.time, e);
    forall x | x in net.events[1..] ensures EventOk(e.time, x) {
      var i :| 1 <= i < |net.events| && net.events[i] == x;
      assert EventOk(net.time, x);
    }
  }

  // ---------- every simulator run ----------

  ghost predicate SimInv(cfg: Config, s: Sim) {
    cfg.Usable() && Bookkept(cfg, s) && Inv(cfg.w, Abs(s))
  }

  /** The list is in order, and every generated arrival is pending or submitted. */
  ghost predicate Bookkept(cfg: Config, s: Sim) {
    && NetOk(s.net)
    && (!s.exited ==> |s.submitted| + ArrivalCount(s.net.events) == s.nsim)
    && (s.nsim <= cfg.nsimmax || s.nsim == 0)
  }

  function StepOf(cfg: Config, s: Sim): Step
    requires s.net.events != []
  {
    match s.net.events[0]
    case FromLayer5(_) => Submit(Letters(NextArrival(cfg, s).nsim))
    case FromLayer3(_, SideA, _, _) => AckArrives
    case FromLayer3(_, SideB, _, _) => DataArrives
    case TimeOut(_, _, n) => Expire(n)
  }

  /** Scheduling the next arrival is invisible to the protocol. */
  lemma ArrivalView(cfg: Config, s: Sim)
    requires NetOk(s.net) && cfg.lambda > 0.0
    ensures var t := NextArrival(cfg, s);
            && Simulates(s.net, t.net, View(s.net), if s.nsim < cfg.nsimmax then 1 else 0)
            && t == s.(net := s.net.(events := t.net.events), nsim := t.nsim)
            && t.nsim == s.nsim + if s.nsim < cfg.nsimmax then 1 else 0
  {
    hide Flights, TimerBag, ArrivalCount, NetOk, Insert;
    if s.nsim < cfg.nsimmax {
      InsertNetView(s.net, FromLayer5(s.net.time + cfg.lambda));
    }
  }

  /** The events of each kind at the head of the list, seen from the protocol. */
  lemma PopView(net: Net)
    requires net.events != []
    ensures var e := net.events[0];
            var c, c' := View(net), View(net.(time := e.time, events := net.events[1..]));
            match e
            case FromLayer5(_) => c' == c && ArrivalCount(net.events) == ArrivalCount(net.events[1..]) + 1
            case FromLayer3(_, SideA, pkt, o) => c.acks != [] && c.acks[0] == Flight(pkt, o) && c' == c.(acks := c.acks[1..])
            case FromLayer3(_, SideB, pkt, o) => c.data != [] && c.data[0] == Flight(pkt, o) && c' == c.(data := c.data[1..])
            case TimeOut(_, _, n) => n in c.timers && c' == c.(timers := c.timers - multiset{n})
    ensures !net.events[0].FromLayer5? ==> ArrivalCount(net.events) == ArrivalCount(net.events[1..])
  {
  }

  /** `t` follows from `s` by one protocol step over FIFO channels, or by the exit on a full buffer, which
      the protocol does not see; the clock has not been turned back. */
  ghost predicate Refines(cfg: Config, s: Sim, t: Sim)
    requires s.net.events != [] && cfg.pattern != []
  {
    && s.net.time <= t.net.time
    && Bookkept(cfg, t)
    && if t.exited
       then Abs(t) == Abs(s) && StepOf(cfg, s).Submit? && Overflows(cfg.w, s.snd)
       else Enabled(cfg.w, Abs(s), StepOf(cfg, s))
            && Abs(t) == Apply(cfg.w, OracleOf(cfg.pattern), Abs(s), StepOf(cfg, s))
  }

  lemma ArrivalStep(cfg: Config, s: Sim)
    requires SimInv(cfg, s) && s.net.events != [] && !s.exited && s.net.events[0].FromLayer5?
    ensures CanStep(cfg, s) && Refines(cfg, s, SimStep(cfg, s))
  {
    var s1 := s.(net := s.net.(time := s.net.events[0].time, events := s.net.events[1..]));
    PopNetOk(s.net);
    PopView(s.net);
    var s2 := NextArrival(cfg, s1);
    ArrivalView(cfg, s1);
    assert View(s2.net) == View(s.net);
    if Overflows(cfg.w, s2.snd) {
      assert Abs(SimStep(cfg, s)) == Abs(s);
    } else {
      ArrivalSubmits(cfg, s, s2);
    }
  }

  lemma ArrivalSubmits(cfg: Config, s: Sim, s2: Sim)
    requires SimInv(cfg, s) && s.net.events != [] && !s.exited && s.net.events[0].FromLayer5?
    requires s2 == NextArrival(cfg, s.(net := s.net.(time := s.net.events[0].time, events := s.net.events[1..])))
    requires s2 == s.(net := s2.net, nsim := s2.nsim) && (s2.nsim <= cfg.nsimmax || s2.nsim == 0)
    requires NetOk(s2.net) && View(s2.net) == View(s.net) && s.net.time <= s2.net.time
    requires |s.submitted| + 1 + ArrivalCount(s2.net.events) == s2.nsim
    requires !Overflows(cfg.w, s.snd)
    ensures CanStep(cfg, s) && Refines(cfg, s, SimStep(cfg, s))
  {
    hide Letters, PerformAll, Flights, TimerBag, ArrivalCount, CarryAll, NetOk, OnSubmit;
    var m := Letters(s2.nsim);
    var r := OnSubmit(cfg.w, s2.snd, m);
    PerformAllView(s2.net, cfg.pattern, SideA, r.acts);
    var t := s2.(snd := r.snd, net := PerformAll(s2.net, cfg.pattern, SideA, r.acts), submitted := s2.submitted + [m]);
    assert SimStep(cfg, s) == t && StepOf(cfg, s) == Submit(m);
    assert Abs(t) == Apply(cfg.w, OracleOf(cfg.pattern), Abs(s), Submit(m));
  }

  lemma AckStep(cfg: Config, s: Sim)
    requires SimInv(cfg, s) && s.net.events != [] && !s.exited
    requires s.net.events[0].FromLayer3? && s.net.events[0].entity.SideA?
    ensures CanStep(cfg, s) && Refines(cfg, s, SimStep(cfg, s))
  {
    hide PerformAll, Flights, TimerBag, ArrivalCount, CarryAll, OnAck, NetOk;
    var s1 := s.(net := s.net.(time := s.net.events[0].time, events := s.net.events[1..]));
    PopNetOk(s.net);
    PopView(s.net);
    PerformAllView(s1.net, cfg.pattern, SideA, OnAck(cfg.w, s1.snd, s.net.events[0].pkt).acts);
  }

  lemma DataStep(cfg: Config, s: Sim)
    requires SimInv(cfg, s) && s.net.events != [] && !s.exited
    requires s.net.events[0].FromLayer3? && s.net.events[0].entity.SideB?
    ensures CanStep(cfg, s) && Refines(cfg, s, SimStep(cfg, s))
  {
    hide Letters, PerformAll, Flights, TimerBag, ArrivalCount, CarryAll, OnData, NetOk, Accepts;
    var e := s.net.events[0];
    var s1 := s.(net := s.net.(time := e.time, events := s.net.events[1..]));
    PopNetOk(s.net);
    PopView(s.net);
    DataInv(cfg.w, OracleOf(cfg.pattern), Abs(s));
    PerformAllView(s1.net, cfg.pattern, SideB, Acknowledge(OnData(cfg.w, s1.rcv, e.pkt).acks, e.origin));
  }

  lemma TimeOutStep(cfg: Config, s: Sim)
    requires SimInv(cfg, s) && s.net.events != [] && !s.exited && s.net.events[0].TimeOut?
    ensures CanStep(cfg, s) && Refines(cfg, s, SimStep(cfg, s))
  {
    var e := s.net.events[0];
    var s1 := s.(net := s.net.(time := e.time, events := s.net.events[1..]));
    PopNetOk(s.net);
    PopView(s.net);
    EachEventOk(s.net);
    PerformAllView(s1.net, cfg.pattern, SideA, OnTimeOut(s1.snd, e.seqno).acts);
  }

  /** Every round of the main loop from a good state keeps it good and is one protocol step. */
  lemma SimStepRefines(cfg: Config, s: Sim)
    requires SimInv(cfg, s) && s.net.events != [] && !s.exited
    ensures CanStep(cfg, s) && Refines(cfg, s, SimStep(cfg, s)) && SimInv(cfg, SimStep(cfg, s))
  {
    match s.net.events[0] {
      case FromLayer5(_) => ArrivalStep(cfg, s);
      case FromLayer3(_, SideA, _, _) => AckStep(cfg, s);
      case FromLayer3(_, SideB, _, _) => DataStep(cfg, s);
      case TimeOut(_, _, _) => TimeOutStep(cfg, s);
    }
    if !SimStep(cfg, s).exited {
      StepInv(cfg.w, OracleOf(cfg.pattern), Abs(s), StepOf(cfg, s));
    }
  }

  lemma StartedInv(cfg: Config, s: Sim)
    requires cfg.Usable() && Started(cfg, s)
    ensures SimInv(cfg, s) && Initial(cfg.w, Abs(s))
  {
    if cfg.nsimmax > 0 {
      SingleView(FromLayer5(cfg.lambda), SideA);
      SingleView(FromLayer5(cfg.lambda), SideB);
    }
    assert View(s.net) == Channel([], [], multiset{}, 0);
    InitialInv(cfg.w, Abs(s));
  }

  /** The state after at most `rounds` rounds of the main loop. */
  function SimRun(cfg: Config, s: Sim, rounds: nat): Sim
    decreases rounds
  {
    if rounds == 0 || !CanStep(cfg, s) then s else SimRun(cfg, SimStep(cfg, s), rounds - 1)
  }

  lemma {:induction false} SimRunInv(cfg: Config, s: Sim, rounds: nat)
    requires SimInv(cfg, s)
    ensures SimInv(cfg, SimRun(cfg, s, rounds)) && s.net.time <= SimRun(cfg, s, rounds).net.time
    decreases rounds
  {
    hide SimInv, SimStep, Apply, Enabled, StepOf, Overflows;
    if rounds > 0 && CanStep(cfg, s) {
      SimStepRefines(cfg, s);
      SimRunInv(cfg, SimStep(cfg, s), rounds - 1);
    }
  }

  lemma {:induction false} SimRunExtend(cfg: Config, s: Sim, k: nat)
    ensures var t := SimRun(cfg, s, k);
            SimRun(cfg, s, k + 1) == if CanStep(cfg, t) then SimStep(cfg, t) else t
    decreases k
  {
    if k > 0 && CanStep(cfg, s) {
      SimRunExtend(cfg, SimStep(cfg, s), k - 1);
    }
  }

  /** The loop goes on exactly as long as an event is pending and the program has not exited. */
  lemma RunGoesOn(cfg: Config, s: Sim, k: nat)
    requires cfg.Usable() && Started(cfg, s)
    ensures var t := SimRun(cfg, s, k);
            if t.net.events != [] && !t.exited
            then CanStep(cfg, t) && SimRun(cfg, s, k + 1) == SimStep(cfg, t)
            else SimRun(cfg, s, k + 1) == t
  {
    StartedInv(cfg, s);
    SimRunInv(cfg, s, k);
    SimRunExtend(cfg, s, k);
    var t := SimRun(cfg, s, k);
    if t.net.events != [] && !t.exited {
      SimStepRefines(cfg, t);
    }
  }

  /** Every run of the program, for any interval, pattern and window: layer 5 at B has received exactly the
      first messages submitted at A, in order, and the loop only ever stops because the list is empty or
      the overflow buffer was full. */
  lemma SimulatorSafety(cfg: Config, s: Sim, rounds: nat)
    requires cfg.Usable() && Started(cfg, s)
    ensures var t := SimRun(cfg, s, rounds);
            && t.rcv.expected <= |t.submitted| && t.delivered == t.submitted[..t.rcv.expected]
            && t.snd.base <= t.rcv.expected <= t.snd.next <= t.snd.base + cfg.w
            && t.snd.timeouts == t.snd.resent && t.snd.sent == t.snd.next + t.snd.resent
            && (CanStep(cfg, t) <==> t.net.events != [] && !t.exited)
  {
    StartedInv(cfg, s);
    SimRunInv(cfg, s, rounds);
    var t := SimRun(cfg, s, rounds);
    BaseBelowExpected(cfg.w, Abs(t));
    if t.net.events != [] && !t.exited {
      SimStepRefines(cfg, t);
    }
  }
}
