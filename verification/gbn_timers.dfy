/** Which timers Go-Back-N has running: exactly when the oldest packet in flight has one. */
module GbnTimers {
  import opened Packets
  import opened Networks
  import opened GbnEntities
  import opened GbnProtocol

  /** Timers run for `base` or for numbers below it.  One runs for `base` when two packets or more are in flight,
      and none when no packet is. */
  ghost predicate TimersOk(s: Sender, timers: multiset<int>) {
    && (forall n <- timers :: 0 <= n <= s.base)
    && (s.base + 1 < s.next ==> s.base in timers)
    && (s.base == s.next ==> s.base !in timers)
  }

  lemma TransmitTimers(s: Sender, m: Payload, timers: multiset<int>)
    requires s.Shaped() && TimersOk(s, timers)
    ensures TimersOk(Transmit(s, m).snd, Timed(timers, Transmit(s, m).acts))
    ensures s.base == s.next ==> Timed(timers, Transmit(s, m).acts) == timers
  {
    var p := DataPacket(s.next, m);
    TimedOne(timers, Send(p, s.next));
    TimedTwo(timers, Send(p, s.next), StartTimer(s.base));
  }

  lemma {:induction false} RefillTimers(s: Sender, timers: multiset<int>)
    requires s.Shaped() && TimersOk(s, timers)
    ensures TimersOk(Refill(s).snd, Timed(timers, Refill(s).acts))
    decreases |s.queue|
  {
    if s.queue != [] && s.next < s.base + |s.winbuf| {
      var s1 := s.(queue := s.queue[1..]);
      var first := Transmit(s1, s.queue[0]);
      TransmitTimers(s1, s.queue[0], timers);
      RefillTimers(first.snd, Timed(timers, first.acts));
      TimedAppend(timers, first.acts, Refill(first.snd).acts);
    }
  }

  lemma RestartTimers(base: nat, t: Sender, timers: multiset<int>)
    requires base < t.base && forall n <- timers :: 0 <= n <= base
    ensures TimersOk(t, Timed(timers, Restart(base, t)))
    ensures t.base in Timed(timers, Restart(base, t)) <==> t.base < t.next
  {
    TimedOne(timers, StopTimer(base));
    TimedTwo(timers, StopTimer(base), StartTimer(t.base));
  }

  lemma AckTimers(s: Sender, p: Packet, timers: multiset<int>)
    requires s.Shaped() && TimersOk(s, timers)
    ensures TimersOk(OnAck(s, p).snd, Timed(timers, OnAck(s, p).acts))
  {
    hide Accepts, Timed;
    if Accepts(p) && p.acknum != NOTUSED && s.base <= p.acknum < s.next {
      var t := PopAcked(s.(base := p.acknum + 1));
      RestartTimers(s.base, t, timers);
      RefillTimers(t, Timed(timers, Restart(s.base, t)));
      TimedAppend(timers, Restart(s.base, t), Refill(t).acts);
    } else {
      TimedNone(timers);
    }
  }

  lemma {:induction false} ResendTimers(s: Sender, k: nat, timers: multiset<int>)
    requires s.Shaped()
    ensures Timed(timers, ResendActs(s, k)) == timers
  {
    if k > 0 {
      var last := Send(Resent(s, k - 1), Resent(s, k - 1).seqnum);
      ResendTimers(s, k - 1, timers);
      TimedAppend(timers, ResendActs(s, k - 1), [last]);
      TimedOne(timers, last);
    }
  }

  lemma TimeOutTimers(s: Sender, n: int, timers: multiset<int>)
    requires s.Shaped() && TimersOk(s, timers) && n in timers
    ensures TimersOk(OnTimeOut(s, n).snd, Timed(timers - multiset{n}, OnTimeOut(s, n).acts))
    ensures s.base in Timed(timers - multiset{n}, OnTimeOut(s, n).acts) <==> s.base in timers
  {
    if n == s.base {
      var k := s.next - s.base;
      ResendTimers(s, k, timers - multiset{n});
      TimedAppend(timers - multiset{n}, ResendActs(s, k), [StartTimer(s.base)]);
      TimedOne(timers - multiset{n}, StartTimer(s.base));
    }
  }

  lemma SubmitTimers(s: Sender, m: Payload, timers: multiset<int>)
    requires s.Shaped() && TimersOk(s, timers)
    ensures TimersOk(OnSubmit(s, m).snd, Timed(timers, OnSubmit(s, m).acts))
    ensures s.base == s.next || OnSubmit(s, m).snd.next == s.next ==> Timed(timers, OnSubmit(s, m).acts) == timers
  {
    if s.next < s.base + |s.winbuf| {
      TransmitTimers(s, m, timers);
    }
  }

  lemma TimersStep(g: Gbn, step: Step)
    requires g.snd.Shaped() && Enabled(g, step) && TimersOk(g.snd, g.timers)
    ensures TimersOk(Apply(g, step).snd, Apply(g, step).timers)
  {
    hide OnAck, OnTimeOut, OnSubmit, TimersOk, Timed, Sends, MayArrive;
    match step
    case Submit(m) => SubmitTimers(g.snd, m, g.timers);
    case AckArrives(p) => AckTimers(g.snd, p, g.timers);
    case TimerFires(n) => TimeOutTimers(g.snd, n, g.timers);
    case DataArrives(_) =>
  }

  /** In every run timers run only for `base` and below; `base` has one whenever two packets or more are in flight,
      and none when no packet is. */
  lemma {:induction false} TimersCover(w: nat, states: seq<Gbn>, steps: seq<Step>, k: nat)
    requires Run(w, states, steps) && k < |states|
    ensures TimersOk(states[k].snd, states[k].timers)
  {
    if k > 0 {
      hide Apply, Enabled, TimersOk;
      TimersCover(w, states, steps, k - 1);
      TimersStep(states[k - 1], steps[k - 1]);
    }
  }

  /** In every run, a message submitted while nothing is in flight leaves with no timer running for it. */
  lemma FirstPacketUntimed(w: nat, states: seq<Gbn>, steps: seq<Step>, k: nat)
    requires Run(w, states, steps) && k < |steps| && steps[k].Submit? && states[k].snd.base == states[k].snd.next
    ensures var t := states[k + 1];
            t.snd.next == t.snd.base + 1 == states[k].snd.next + 1 && t.snd.base !in t.timers
  {
    TimersCover(w, states, steps, k);
    SubmitTimers(states[k].snd, steps[k].message, states[k].timers);
  }

  // ---------- a lone packet ----------

  lemma {:induction false} RefillGrows(s: Sender)
    requires s.Shaped()
    ensures Refill(s).snd.base == s.base && s.next <= Refill(s).snd.next
    ensures Refill(s).snd.next == s.next ==> Refill(s).acts == []
    decreases |s.queue|
  {
    if s.queue != [] && s.next < s.base + |s.winbuf| {
      RefillGrows(Transmit(s.(queue := s.queue[1..]), s.queue[0]).snd);
    }
  }

  /** When at most one packet is in flight afterwards, refilling has started no timer. */
  lemma RefillLone(s: Sender, timers: multiset<int>)
    requires s.Shaped() && TimersOk(s, timers) && Refill(s).snd.next == Refill(s).snd.base + 1
    ensures Timed(timers, Refill(s).acts) == timers
  {
    RefillGrows(s);
    if s.queue != [] && s.next < s.base + |s.winbuf| {
      var s1 := s.(queue := s.queue[1..]);
      var first := Transmit(s1, s.queue[0]);
      RefillGrows(first.snd);
      TransmitTimers(s1, s.queue[0], timers);
      assert first.acts + [] == first.acts;
    }
  }

  /** After an ACK that leaves one packet in flight, that packet has a timer exactly when it was in flight before. */
  lemma AckLone(s: Sender, p: Packet, timers: multiset<int>)
    requires s.Shaped() && TimersOk(s, timers)
    ensures var r, acts := OnAck(s, p).snd, OnAck(s, p).acts;
            && s.base <= r.base && s.next <= r.next
            && (r.base == s.base ==> r.next == s.next && Timed(timers, acts) == timers)
            && (r.base != s.base && r.next == r.base + 1 ==> (r.base in Timed(timers, acts) <==> r.next == s.next))
  {
    hide Accepts, Timed, TimersOk;
    if Accepts(p) && p.acknum != NOTUSED && s.base <= p.acknum < s.next {
      var t := PopAcked(s.(base := p.acknum + 1));
      TimersBelow(s, timers);
      RestartTimers(s.base, t, timers);
      RefillGrows(t);
      TimedAppend(timers, Restart(s.base, t), Refill(t).acts);
      if Refill(t).snd.next == Refill(t).snd.base + 1 {
        RefillLone(t, Timed(timers, Restart(s.base, t)));
      }
    } else {
      TimedNone(timers);
    }
  }

  lemma TimersBelow(s: Sender, timers: multiset<int>)
    requires TimersOk(s, timers)
    ensures forall n <- timers :: 0 <= n <= s.base
  {
  }

  lemma LoneStep(g: Gbn, step: Step)
    requires g.snd.Shaped() && Enabled(g, step) && TimersOk(g.snd, g.timers)
    ensures var t := Apply(g, step);
            && g.snd.base <= t.snd.base && g.snd.next <= t.snd.next
            && (t.snd.next == t.snd.base + 1 ==>
                  if t.snd.base == g.snd.base && t.snd.next == g.snd.next
                  then t.snd.base in t.timers <==> t.snd.base in g.timers
                  else t.snd.base in t.timers <==> t.snd.next == g.snd.next)
  {
    hide OnAck, OnTimeOut, TimersOk, Timed, Sends, MayArrive;
    match step
    case Submit(m) =>
      SubmitTimers(g.snd, m, g.timers);
      EmptyUntimed(g.snd, g.timers);
    case AckArrives(p) => AckLone(g.snd, p, g.timers);
    case TimerFires(n) =>
      TimeOutTimers(g.snd, n, g.timers);
      TimeOutKeeps(g.snd, n);
    case DataArrives(_) =>
  }

  lemma EmptyUntimed(s: Sender, timers: multiset<int>)
    requires TimersOk(s, timers)
    ensures s.base == s.next ==> s.base !in timers
  {
  }

  lemma TimeOutKeeps(s: Sender, n: int)
    requires s.Shaped()
    ensures OnTimeOut(s, n).snd.base == s.base && OnTimeOut(s, n).snd.next == s.next
  {
  }

  lemma {:induction false} WindowMoves(w: nat, states: seq<Gbn>, steps: seq<Step>, i: nat, k: nat)
    requires Run(w, states, steps) && i <= k < |states|
    ensures states[i].snd.next <= states[k].snd.next
  {
    hide Apply, Enabled, Initial;
    if i < k {
      WindowMoves(w, states, steps, i, k - 1);
      TimersCover(w, states, steps, k - 1);
      LoneStep(states[k - 1], steps[k - 1]);
    }
  }

  /** The newest packet was in flight together with an older one. */
  ghost predicate SentBehindAnother(states: seq<Gbn>, k: nat)
    requires k < |states|
  {
    exists i :: 0 <= i < k && states[i].snd.next == states[k].snd.next && states[i].snd.base < states[k].snd.base
  }

  /** In every run, a packet that is alone in flight has a timer exactly when an older packet was in flight with it
      before.  A packet that was sent into an empty window has none. */
  lemma {:induction false} LonePacketTimed(w: nat, states: seq<Gbn>, steps: seq<Step>, k: nat)
    requires Run(w, states, steps) && k < |states| && states[k].snd.next == states[k].snd.base + 1
    ensures states[k].snd.base in states[k].timers <==> SentBehindAnother(states, k)
  {
    hide Apply, Enabled, TimersOk;
    if k > 0 {
      var g, t := states[k - 1], states[k];
      TimersCover(w, states, steps, k - 1);
      LoneStep(g, steps[k - 1]);
      if t.snd.base == g.snd.base && t.snd.next == g.snd.next {
        LonePacketTimed(w, states, steps, k - 1);
      } else if t.snd.next != g.snd.next {
        forall i | 0 <= i < k ensures states[i].snd.next < t.snd.next {
          WindowMoves(w, states, steps, i, k - 1);
        }
      } else {
        assert g.snd.base < t.snd.base;
      }
    }
  }
}
