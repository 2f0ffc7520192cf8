/** The messages that the two programs make up, and when: the one regular arrival that is ever pending. */
module Arrivals {
  import opened Packets
  import opened EventLists
  import opened Networks
  import SrSender
  import SrReceiver
  import GbnEntities
  import Sr = SrSimulator
  import Gbn = GbnSimulator

  // ---------- arrivals in the event list ----------

  /** The times at which messages from layer 5 are pending. */
  function Times(evs: seq<Event>): seq<real> {
    if evs == [] then [] else (if evs[0].FromLayer5? then [evs[0].time] else []) + Times(evs[1..])
  }

  lemma {:induction false} TimesAppend(xs: seq<Event>, ys: seq<Event>)
    ensures Times(xs + ys) == Times(xs) + Times(ys)
  {
    if xs == [] {
      assert xs + ys == ys;
    } else {
      assert (xs + ys)[0] == xs[0] && (xs + ys)[1..] == xs[1..] + ys;
      TimesAppend(xs[1..], ys);
    }
  }

  lemma TimesMiddle(xs: seq<Event>, e: Event, ys: seq<Event>)
    ensures Times(xs + [e] + ys) == Times(xs) + (if e.FromLayer5? then [e.time] else []) + Times(ys)
  {
    assert [e][1..] == [];
    TimesAppend(xs + [e], ys);
    TimesAppend(xs, [e]);
  }

  lemma InsertTimes(evs: seq<Event>, e: Event)
    ensures !e.FromLayer5? ==> Times(Insert(evs, e)) == Times(evs)
    ensures e.FromLayer5? && Times(evs) == [] ==> Times(Insert(evs, e)) == [e.time]
  {
    var k := InsertPosition(evs, e.time);
    TimesMiddle(evs[..k], e, evs[k..]);
    TimesAppend(evs[..k], evs[k..]);
    assert evs == evs[..k] + evs[k..];
    assert Times(evs[..k]) + [] == Times(evs[..k]);
  }

  lemma RemoveTimes(evs: seq<Event>, entity: Side, n: int)
    ensures Times(RemoveTimer(evs, entity, n)) == Times(evs)
  {
    var k := TimerPosition(evs, entity, n);
    if k < |evs| {
      TimesMiddle(evs[..k], evs[k], evs[k + 1..]);
      TimesAppend(evs[..k], evs[k + 1..]);
      assert evs == evs[..k] + [evs[k]] + evs[k + 1..];
      assert Times(evs[..k]) + [] == Times(evs[..k]);
    }
  }

  lemma PerformTimes(net: Net, pattern: seq<char>, from: Side, a: Action)
    requires pattern != []
    ensures Times(Perform(net, pattern, from, a).events) == Times(net.events)
  {
    hide Insert, RemoveTimer, Times;
    match a
    case Send(pkt, origin) =>
      InsertTimes(net.events, FromLayer3(net.time + CHANNEL_DELAY, OtherSide(from),
                                         Arriving(pkt, FateOf(pattern, net.transmissions)), origin));
    case StartTimer(n) => InsertTimes(net.events, TimeOut(net.time + RTT, from, n));
    case StopTimer(n) => RemoveTimes(net.events, from, n);
  }

  /** Nothing that a handler asks for touches the arrivals. */
  lemma {:induction false} PerformAllTimes(net: Net, pattern: seq<char>, from: Side, acts: seq<Action>)
    requires pattern != []
    ensures Times(PerformAll(net, pattern, from, acts).events) == Times(net.events)
    decreases |acts|
  {
    hide Perform, Times;
    if acts != [] {
      PerformTimes(net, pattern, from, acts[0]);
      PerformAllTimes(Perform(net, pattern, from, acts[0]), pattern, from, acts[1..]);
    }
  }

  // ---------- what is made up ----------

  /** The i-th message, counted from 0, is one letter twenty times; the source takes the letter after it has counted the
      arrival that follows, if any does. */
  ghost predicate IsMessage(m: Payload, i: nat, nsimmax: int) {
    forall j :: 0 <= j < 20 ==> m[j] == 97 + (if i + 2 <= nsimmax then i + 2 else nsimmax) % 26
  }

  /** The time after `k` intervals. */
  function Due(k: nat, interval: real): real {
    k as real * interval
  }

  /** What has been submitted so far, and the arrival that is pending: the i-th comes after i + 1 intervals, and there are as
      many as the user asked for. */
  ghost predicate Regular(interval: real, nsimmax: int, events: seq<Event>, nsim: nat, submitted: seq<Payload>) {
    && (forall i: nat | i < |submitted| :: IsMessage(submitted[i], i, nsimmax))
    && Times(events) == (if |submitted| < nsimmax then [Due(|submitted| + 1, interval)] else [])
    && nsim == (if |submitted| < nsimmax then |submitted| + 1 else if nsimmax < 0 then 0 else nsimmax)
    && (|submitted| <= nsimmax || submitted == [])
  }

  /** A message arrives: the clock shows its time, the next arrival is scheduled, and the message is the next one. */
  lemma NextRegular(interval: real, nsimmax: int, events: seq<Event>, nsim: nat, submitted: seq<Payload>)
    requires Regular(interval, nsimmax, events, nsim, submitted) && events != [] && events[0].FromLayer5?
    ensures events[0].time == Due(|submitted| + 1, interval) && Times(events[1..]) == []
    ensures nsim <= nsimmax
    ensures var nsim' := if nsim < nsimmax then nsim + 1 else nsim;
            var evs := if nsim < nsimmax then Insert(events[1..], FromLayer5(events[0].time + interval)) else events[1..];
            Regular(interval, nsimmax, evs, nsim', submitted + [Sr.Letters(nsim')])
  {
    hide Insert, IsMessage, Due;
    var k := |submitted|;
    FirstTime(events, if k < nsimmax then [Due(k + 1, interval)] else []);
    InsertTimes(events[1..], FromLayer5(events[0].time + interval));
    DueNext(k + 1, interval);
    var nsim' := if nsim < nsimmax then nsim + 1 else nsim;
    LettersMessage(k, nsimmax, nsim');
    var all := submitted + [Sr.Letters(nsim')];
    assert |all| == k + 1 && all[k] == Sr.Letters(nsim');
    assert forall i: nat | i < k :: all[i] == submitted[i];
  }

  lemma FirstTime(events: seq<Event>, times: seq<real>)
    requires events != [] && events[0].FromLayer5? && Times(events) == times && |times| <= 1
    ensures times == [events[0].time] && Times(events[1..]) == []
  {
    var rest := Times(events[1..]);
    assert times == [events[0].time] + rest;
    assert |times| == 1 + |rest| && times[0] == events[0].time;
  }

  lemma DueNext(k: nat, interval: real)
    ensures Due(0, interval) == 0.0 && Due(k + 1, interval) == Due(k, interval) + interval
  {
  }

  lemma LettersMessage(i: nat, nsimmax: int, nsim: nat)
    requires nsim == if i + 2 <= nsimmax then i + 2 else nsimmax
    ensures IsMessage(Sr.Letters(nsim), i, nsimmax)
  {
  }

  lemma OtherRegular(interval: real, nsimmax: int, events: seq<Event>, nsim: nat, submitted: seq<Payload>, after: seq<Event>)
    requires Regular(interval, nsimmax, events, nsim, submitted) && events != [] && !events[0].FromLayer5?
    requires Times(after) == Times(events[1..])
    ensures Regular(interval, nsimmax, after, nsim, submitted)
  {
  }

  lemma SameTimes(interval: real, nsimmax: int, events: seq<Event>, nsim: nat, submitted: seq<Payload>, after: seq<Event>)
    requires Regular(interval, nsimmax, events, nsim, submitted) && Times(after) == Times(events)
    ensures Regular(interval, nsimmax, after, nsim, submitted)
  {
  }

  lemma StartRegular(interval: real, nsimmax: int)
    ensures Regular(interval, nsimmax, if nsimmax > 0 then [FromLayer5(interval)] else [], if nsimmax > 0 then 1 else 0, [])
  {
    assert [FromLayer5(interval)][1..] == [] && Times([FromLayer5(interval)]) == [interval];
    DueNext(0, interval);
  }

  lemma InsertLast(evs: seq<Event>, e: Event)
    requires forall i :: 0 <= i < |evs| ==> evs[i].time <= e.time
    ensures Insert(evs, e) == evs + [e]
  {
    InsertPositionUnique(evs, e.time, |evs|);
    assert evs[..|evs|] == evs && evs[|evs|..] == [];
  }

  lemma FirstFate(pattern: seq<char>)
    requires pattern != [] && pattern[0] == 'o'
    ensures FateOf(pattern, 0) == Delivered
  {
  }

  // ---------- Selective Repeat ----------

  lemma SrStep(cfg: Sr.Config, s: Sr.Sim)
    requires Sr.CanStep(cfg, s)
    requires Regular(cfg.lambda, cfg.nsimmax, s.net.events, s.nsim, s.submitted)
    ensures var t := Sr.SimStep(cfg, s);
            !t.exited ==> Regular(cfg.lambda, cfg.nsimmax, t.net.events, t.nsim, t.submitted)
  {
    hide PerformAll, Insert, Sr.Letters, Regular, Times, SrSender.OnSubmit, SrSender.OnAck, SrReceiver.OnData, SrSender.OnTimeOut;
    var e, t := s.net.events[0], Sr.SimStep(cfg, s);
    var net := s.net.(time := e.time, events := s.net.events[1..]);
    match e
    case FromLayer5(_) =>
      NextRegular(cfg.lambda, cfg.nsimmax, s.net.events, s.nsim, s.submitted);
      var s2 := Sr.NextArrival(cfg, s.(net := net));
      if !t.exited {
        PerformAllTimes(s2.net, cfg.pattern, SideA, SrSender.OnSubmit(cfg.w, s.snd, Sr.Letters(s2.nsim)).acts);
        SameTimes(cfg.lambda, cfg.nsimmax, s2.net.events, s2.nsim, t.submitted, t.net.events);
      }
    case FromLayer3(_, SideA, pkt, _) =>
      PerformAllTimes(net, cfg.pattern, SideA, SrSender.OnAck(cfg.w, s.snd, pkt).acts);
      OtherRegular(cfg.lambda, cfg.nsimmax, s.net.events, s.nsim, s.submitted, t.net.events);
    case FromLayer3(_, SideB, pkt, o) =>
      PerformAllTimes(net, cfg.pattern, SideB, SrReceiver.Acknowledge(SrReceiver.OnData(cfg.w, s.rcv, pkt).acks, o));
      OtherRegular(cfg.lambda, cfg.nsimmax, s.net.events, s.nsim, s.submitted, t.net.events);
    case TimeOut(_, SideA, n) =>
      PerformAllTimes(net, cfg.pattern, SideA, SrSender.OnTimeOut(s.snd, n).acts);
      OtherRegular(cfg.lambda, cfg.nsimmax, s.net.events, s.nsim, s.submitted, t.net.events);
    case TimeOut(_, SideB, _) =>
      OtherRegular(cfg.lambda, cfg.nsimmax, s.net.events, s.nsim, s.submitted, t.net.events);
  }

  /** In every run of the Selective Repeat program that has not ended with a full buffer: every message is the one the source
      makes up for its place, an arrival is pending as long as messages remain, and the i-th comes i + 1 intervals after the
      start. */
  lemma {:induction false} SrMessages(cfg: Sr.Config, s: Sr.Sim, rounds: nat)
    requires Sr.Started(cfg, s)
    ensures var t := Sr.SimRun(cfg, s, rounds);
            !t.exited ==> Regular(cfg.lambda, cfg.nsimmax, t.net.events, t.nsim, t.submitted)
  {
    hide Sr.SimRun, Sr.SimStep, Sr.CanStep, Regular;
    if rounds == 0 {
      StartRegular(cfg.lambda, cfg.nsimmax);
      SrRunNone(cfg, s);
    } else {
      SrMessages(cfg, s, rounds - 1);
      Sr.SimRunExtend(cfg, s, rounds - 1);
      var t := Sr.SimRun(cfg, s, rounds - 1);
      if Sr.CanStep(cfg, t) {
        SrRunning(cfg, t);
        SrStep(cfg, t);
      }
    }
  }

  lemma SrRunning(cfg: Sr.Config, s: Sr.Sim)
    requires Sr.CanStep(cfg, s)
    ensures !s.exited
  {
  }

  lemma SrRunNone(cfg: Sr.Config, s: Sr.Sim)
    ensures Sr.SimRun(cfg, s, 0) == s
  {
  }

  /** The first round, when more than one message is to come: the next arrival is scheduled before the packet goes out, so that
      it comes first even when both are due at the same time. */
  lemma SrFirstRound(cfg: Sr.Config, s: Sr.Sim)
    requires cfg.Usable() && Sr.Started(cfg, s) && 2 <= cfg.nsimmax && cfg.pattern[0] == 'o' && cfg.lambda <= 6.5
    ensures Sr.CanStep(cfg, s)
    ensures var t := Sr.SimStep(cfg, s);
            && t.net.time == cfg.lambda && t.net.transmissions == 1 && |t.submitted| == 1
            && t.net.events == [FromLayer5(cfg.lambda + cfg.lambda),
                                FromLayer3(cfg.lambda + 6.5, SideB, DataPacket(0, t.submitted[0]), 0),
                                TimeOut(cfg.lambda + 15.0, SideA, 0)]
  {
    hide DataPacket, Sr.Letters, PerformAll, Insert;
    var a, p := FromLayer5(cfg.lambda + cfg.lambda), DataPacket(0, Sr.Letters(2));
    var d, x := FromLayer3(cfg.lambda + 6.5, SideB, p, 0), TimeOut(cfg.lambda + 15.0, SideA, 0);
    assert s.net.events[1..] == [];
    InsertLast([], a);
    InsertLast([a], d);
    InsertLast([a, d], x);
    assert [] + [a] == [a] && [a] + [d] == [a, d] && [a, d] + [x] == [a, d, x];
    var net := Net(cfg.lambda, [a], 0);
    PerformTwo(net, cfg.pattern, SideA, Send(p, 0), StartTimer(0));
    FirstFate(cfg.pattern);
    assert Perform(net, cfg.pattern, SideA, Send(p, 0)) == Net(cfg.lambda, [a, d], 1);
    assert SrSender.OnSubmit(cfg.w, s.snd, Sr.Letters(2)).acts == [Send(p, 0), StartTimer(0)];
    assert Sr.NextArrival(cfg, s.(net := Net(cfg.lambda, [], 0))) == s.(net := net, nsim := 2);
  }

  // ---------- Go-Back-N ----------

  lemma GbnStep(cfg: Gbn.Config, s: Gbn.Sim)
    requires Gbn.CanStep(cfg, s)
    requires Regular(cfg.lambda, cfg.nsimmax, s.net.events, s.nsim, s.submitted)
    ensures var t := Gbn.SimStep(cfg, s);
            Regular(cfg.lambda, cfg.nsimmax, t.net.events, t.nsim, t.submitted)
  {
    hide PerformAll, Insert, Sr.Letters, Regular, Times, GbnEntities.OnSubmit, GbnEntities.OnAck, GbnEntities.OnData, GbnEntities.OnTimeOut;
    var e, t := s.net.events[0], Gbn.SimStep(cfg, s);
    var net := s.net.(time := e.time, events := s.net.events[1..]);
    match e
    case FromLayer5(_) =>
      NextRegular(cfg.lambda, cfg.nsimmax, s.net.events, s.nsim, s.submitted);
      var s2 := Gbn.NextArrival(cfg, s.(net := net));
      PerformAllTimes(s2.net, cfg.pattern, SideA, GbnEntities.OnSubmit(s.snd, Sr.Letters(s2.nsim)).acts);
      SameTimes(cfg.lambda, cfg.nsimmax, s2.net.events, s2.nsim, t.submitted, t.net.events);
    case FromLayer3(_, SideA, pkt, _) =>
      PerformAllTimes(net, cfg.pattern, SideA, GbnEntities.OnAck(s.snd, pkt).acts);
      OtherRegular(cfg.lambda, cfg.nsimmax, s.net.events, s.nsim, s.submitted, t.net.events);
    case FromLayer3(_, SideB, pkt, _) =>
      PerformAllTimes(net, cfg.pattern, SideB, GbnEntities.AckActs(GbnEntities.OnData(s.expected, pkt).acks));
      OtherRegular(cfg.lambda, cfg.nsimmax, s.net.events, s.nsim, s.submitted, t.net.events);
    case TimeOut(_, SideA, n) =>
      PerformAllTimes(net, cfg.pattern, SideA, GbnEntities.OnTimeOut(s.snd, n).acts);
      OtherRegular(cfg.lambda, cfg.nsimmax, s.net.events, s.nsim, s.submitted, t.net.events);
    case TimeOut(_, SideB, _) =>
      OtherRegular(cfg.lambda, cfg.nsimmax, s.net.events, s.nsim, s.submitted, t.net.events);
  }

  /** The same in every run of the Go-Back-N program. */
  lemma {:induction false} GbnMessages(cfg: Gbn.Config, s: Gbn.Sim, rounds: nat)
    requires Gbn.Started(cfg, s)
    ensures var t := Gbn.SimRun(cfg, s, rounds);
            Regular(cfg.lambda, cfg.nsimmax, t.net.events, t.nsim, t.submitted)
  {
    hide Gbn.SimRun, Gbn.SimStep, Gbn.CanStep, Regular;
    if rounds == 0 {
      StartRegular(cfg.lambda, cfg.nsimmax);
      Gbn.SimRunNone(cfg, s);
    } else {
      GbnMessages(cfg, s, rounds - 1);
      Gbn.SimRunExtend(cfg, s, rounds - 1);
      var t := Gbn.SimRun(cfg, s, rounds - 1);
      if Gbn.CanStep(cfg, t) {
        GbnStep(cfg, t);
      }
    }
  }

  lemma GbnFirstRound(cfg: Gbn.Config, s: Gbn.Sim)
    requires Gbn.Runnable(cfg) && Gbn.Started(cfg, s) && 2 <= cfg.nsimmax && cfg.pattern[0] == 'o' && cfg.lambda <= 6.5
    ensures Gbn.CanStep(cfg, s)
    ensures var t := Gbn.SimStep(cfg, s);
            && t.net.time == cfg.lambda && t.net.transmissions == 1 && |t.submitted| == 1
            && t.net.events == [FromLayer5(cfg.lambda + cfg.lambda),
                                FromLayer3(cfg.lambda + 6.5, SideB, DataPacket(0, t.submitted[0]), 0)]
  {
    hide DataPacket, Sr.Letters, PerformAll, Insert;
    var a, p := FromLayer5(cfg.lambda + cfg.lambda), DataPacket(0, Sr.Letters(2));
    var d := FromLayer3(cfg.lambda + 6.5, SideB, p, 0);
    assert s.net.events[1..] == [];
    InsertLast([], a);
    InsertLast([a], d);
    assert [] + [a] == [a] && [a] + [d] == [a, d];
    var net := Net(cfg.lambda, [a], 0);
    PerformOne(net, cfg.pattern, SideA, Send(p, 0));
    FirstFate(cfg.pattern);
    assert Perform(net, cfg.pattern, SideA, Send(p, 0)) == Net(cfg.lambda, [a, d], 1);
    assert GbnEntities.OnSubmit(s.snd, Sr.Letters(2)).acts == [Send(p, 0)];
    assert Gbn.NextArrival(cfg, s.(net := Net(cfg.lambda, [], 0))) == s.(net := net, nsim := 2);
  }
}
