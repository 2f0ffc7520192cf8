/** Go-Back-N over a network that may lose, duplicate, reorder and corrupt packets: the protocol is safe there,
    although the sender's ring does not always follow its window. */
module GbnProtocol {
  import opened Rings
  import opened Packets
  import opened Networks
  import opened GbnEntities

  /** The networks only grow.  A packet that was ever sent may arrive never, once or many times, in any order,
      and also in the corrupted form that the emulated channel gives it. */
  datatype Gbn = Gbn(
    snd: Sender, expected: nat, dataNet: set<Packet>, ackNet: set<Packet>,
    timers: multiset<int>, submitted: seq<Payload>, delivered: seq<Payload>)

  datatype Step = Submit(message: Payload) | DataArrives(data: Packet) | AckArrives(ack: Packet) | TimerFires(seqno: int)

  /** Anything whose checksum is wrong may arrive as well. */
  ghost predicate MayArrive(net: set<Packet>, p: Packet) {
    p in net || !Accepts(p) || exists q <- net :: p == Tamper(q)
  }

  ghost predicate Enabled(g: Gbn, step: Step)
    requires g.snd.Shaped()
  {
    match step
    case Submit(_) => g.snd.next < g.snd.base + |g.snd.winbuf| || |g.snd.queue| < MAXBUFSIZE
    case DataArrives(p) => MayArrive(g.dataNet, p)
    case AckArrives(p) => MayArrive(g.ackNet, p)
    case TimerFires(n) => n in g.timers
  }

  function Sends(acts: seq<Action>): set<Packet> {
    set a <- acts | a.Send? :: a.pkt
  }

  /** The pending timers after an action; cancelling a timer that is not pending does nothing. */
  function TimedOnce(timers: multiset<int>, a: Action): multiset<int> {
    match a
    case Send(_, _) => timers
    case StartTimer(n) => timers + multiset{n}
    case StopTimer(n) => timers - multiset{n}
  }

  function Timed(timers: multiset<int>, acts: seq<Action>): multiset<int>
    decreases |acts|
  {
    if acts == [] then timers else Timed(TimedOnce(timers, acts[0]), acts[1..])
  }

  lemma TimedOne(timers: multiset<int>, a: Action)
    ensures Timed(timers, [a]) == TimedOnce(timers, a)
  {
    assert [a][1..] == [];
  }

  lemma TimedTwo(timers: multiset<int>, a: Action, b: Action)
    ensures Timed(timers, [a, b]) == TimedOnce(TimedOnce(timers, a), b)
  {
    assert [a, b] == [a] + [b];
    TimedAppend(timers, [a], [b]);
    TimedOne(timers, a);
    TimedOne(TimedOnce(timers, a), b);
  }

  lemma {:induction false} TimedAppend(timers: multiset<int>, xs: seq<Action>, ys: seq<Action>)
    ensures Timed(timers, xs + ys) == Timed(Timed(timers, xs), ys)
    decreases |xs|
  {
    if xs == [] {
      assert xs + ys == ys;
    } else {
      assert (xs + ys)[0] == xs[0] && (xs + ys)[1..] == xs[1..] + ys;
      TimedAppend(TimedOnce(timers, xs[0]), xs[1..], ys);
    }
  }

  lemma TimedNone(timers: multiset<int>)
    ensures Timed(timers, []) == timers
  {
  }

  function Apply(g: Gbn, step: Step): Gbn
    requires g.snd.Shaped()
  {
    match step
    case Submit(m) =>
      var e := OnSubmit(g.snd, m);
      g.(snd := e.snd, dataNet := g.dataNet + Sends(e.acts), timers := Timed(g.timers, e.acts),
         submitted := g.submitted + [m])
    case DataArrives(p) =>
      var r := OnData(g.expected, p);
      g.(expected := r.expected, delivered := g.delivered + r.delivered, ackNet := g.ackNet + set a <- r.acks)
    case AckArrives(p) =>
      var e := OnAck(g.snd, p);
      g.(snd := e.snd, dataNet := g.dataNet + Sends(e.acts), timers := Timed(g.timers, e.acts))
    case TimerFires(n) =>
      var e := OnTimeOut(g.snd, n);
      g.(snd := e.snd, dataNet := g.dataNet + Sends(e.acts), timers := Timed(g.timers - multiset{n}, e.acts))
  }

  /** The state after both init routines; what the window array holds then is unknown. */
  ghost predicate Initial(w: nat, g: Gbn) {
    && 0 < w && |g.snd.winbuf| == w
    && g == Gbn(Sender(0, 0, g.snd.winbuf, 0, 0, 0, [], 0, 0, 0), 0, {}, {}, multiset{}, [], [])
  }

  // ---------- the invariant ----------

  /** `p` is the packet of one of the first `n` messages, checksum included. */
  predicate Genuine(p: Packet, submitted: seq<Payload>, n: nat) {
    n <= |submitted| && 0 <= p.seqnum < n && p == DataPacket(p.seqnum, submitted[p.seqnum])
  }

  /** The last `w` packets, or as many as there are, are in the ring. */
  ghost predicate RingHolds(w: nat, s: Sender, submitted: seq<Payload>) {
    && 0 < w == |s.winbuf| && s.Shaped() && s.next <= |submitted|
    && s.winrear == s.next % w
    && forall k: nat {:trigger k % w} | s.next - w <= k < s.next :: s.winbuf[k % w] == DataPacket(k, submitted[k])
  }

  ghost predicate SenderMid(w: nat, s: Sender, submitted: seq<Payload>) {
    && RingHolds(w, s, submitted)
    && s.next <= s.base + w
    && s.queue == submitted[s.next..]
    && s.sent == s.next + s.resent
    && (s.next < w ==> s.winfront == s.base)
  }

  ghost predicate SenderOk(w: nat, s: Sender, submitted: seq<Payload>) {
    SenderMid(w, s, submitted) && (s.queue != [] ==> s.next == s.base + w) && |s.queue| <= MAXBUFSIZE
  }

  /** ACK 0 never counts, so the first ACK that moves the base moves it past packet 1; a window of one has none. */
  ghost predicate BaseOk(w: nat, base: nat) {
    base != 1 && (w == 1 ==> base == 0)
  }

  /** The corruption of message `n`, sent as packet `n`, escapes the checksum. */
  predicate Slips(n: nat, m: Payload) {
    (n + m[0]) % 65535 == 34038
  }

  /** No corrupted packet can pass for the one that B expects: the number that corruption writes is not reached, or
      only at the very end and after messages whose corruption is detected. */
  ghost predicate Detectable(w: nat, submitted: seq<Payload>) {
    || w == 1 || |submitted| < 999999
    || (|submitted| == 999999 && forall n: nat | n < |submitted| :: !Slips(n, submitted[n]))
  }

  ghost predicate Inv(w: nat, g: Gbn) {
    && SenderOk(w, g.snd, g.submitted) && BaseOk(w, g.snd.base)
    && g.snd.base <= g.expected <= g.snd.next
    && g.delivered == g.submitted[..g.expected]
    && (forall p <- g.dataNet :: Genuine(p, g.submitted, g.snd.next))
    && (forall p <- g.ackNet :: -1 <= p.acknum < g.expected && p == AckPacket(p.acknum))
  }

  // ---------- what the ring holds ----------

  /** The number in `lo..lo+w` that belongs to slot `j`. */
  lemma SlotNumber(w: nat, lo: nat, j: nat) returns (k: nat)
    requires j < w
    ensures lo <= k < lo + w && k % w == j
  {
    var q, r := lo / w, lo % w;
    assert lo == q * w + r;
    if r <= j {
      k := lo - r + j;
      ModOfQuotient(k, w, q, j);
    } else {
      k := lo - r + w + j;
      ModOfQuotient(k, w, q + 1, j);
    }
  }

  /** Every slot that has ever been written holds one of the last `w` packets, in its own slot. */
  lemma SlotGenuine(w: nat, s: Sender, submitted: seq<Payload>, j: nat)
    requires RingHolds(w, s, submitted) && j < w && (w <= s.next || j < s.next)
    ensures Genuine(s.winbuf[j], submitted, s.next)
    ensures s.next - w <= s.winbuf[j].seqnum && s.winbuf[j].seqnum % w == j
  {
    if s.next < w {
      SmallMod(j, w);
    } else {
      var k := SlotNumber(w, s.next - w, j);
    }
  }

  /** The front pointer marks the oldest packet that the sender still has to keep. */
  ghost predicate Tracks(s: Sender)
    requires s.Shaped()
  {
    s.winfront == s.base % |s.winbuf|
  }

  /** Popping from the slot of `f`, which is not a full turn behind, stops at `base` or where it started, and
      counts what it pops. */
  lemma {:induction false} PopTo(w: nat, s: Sender, submitted: seq<Payload>, f: nat)
    requires RingHolds(w, s, submitted) && s.next - w < f <= s.next && s.winfront == f % w && s.base <= s.next
    ensures PopAcked(s).winfront == (if f < s.base then s.base else f) % w
    ensures PopAcked(s).pktnum == s.pktnum - if f < s.base then s.base - f else 0
    decreases s.next - f
  {
    if f == s.next {
    } else {
      DistinctSlots(f, s.next, w);
      if f < s.base {
        ModStep(f, w);
        ModIsWrap(f % w + 1, w);
        PopTo(w, s.(winfront := Wrap(s.winfront + 1, w), pktnum := s.pktnum - 1), submitted, f + 1);
      }
    }
  }

  // ---------- the handlers keep the invariant ----------

  lemma TransmitMid(w: nat, s: Sender, submitted: seq<Payload>)
    requires s.next < |submitted| && s.next < s.base + w && s.queue == submitted[s.next + 1..]
    requires SenderMid(w, s.(queue := submitted[s.next..]), submitted)
    ensures SenderMid(w, Transmit(s, submitted[s.next]).snd, submitted)
    ensures forall p <- Sends(Transmit(s, submitted[s.next]).acts) :: Genuine(p, submitted, s.next + 1)
  {
    var t := Transmit(s, submitted[s.next]).snd;
    ModStep(s.next, w);
    ModIsWrap(s.next % w + 1, w);
    forall k: nat {:trigger k % w} | t.next - w <= k < t.next
      ensures t.winbuf[k % w] == DataPacket(k, submitted[k])
    {
      if k < s.next {
        DistinctSlots(k, s.next, w);
      }
    }
    if s.next + 1 < w {
      SmallMod(s.next + 1, w);
    }
  }

  lemma SendsAppend(xs: seq<Action>, ys: seq<Action>)
    ensures Sends(xs + ys) == Sends(xs) + Sends(ys)
  {
  }

  lemma {:induction false} RefillOk(w: nat, s: Sender, submitted: seq<Payload>)
    requires SenderMid(w, s, submitted) && |s.queue| <= MAXBUFSIZE
    ensures SenderOk(w, Refill(s).snd, submitted)
    ensures Refill(s).snd.base == s.base && Refill(s).snd.winfront == s.winfront && s.next <= Refill(s).snd.next
    ensures forall p <- Sends(Refill(s).acts) :: Genuine(p, submitted, Refill(s).snd.next)
    decreases |s.queue|
  {
    if s.queue != [] && s.next < s.base + w {
      var s1 := s.(queue := s.queue[1..]);
      assert s1.(queue := submitted[s.next..]) == s;
      assert s.queue[0] == submitted[s.next];
      TransmitMid(w, s1, submitted);
      var first := Transmit(s1, s.queue[0]);
      RefillOk(w, first.snd, submitted);
      SendsAppend(first.acts, Refill(first.snd).acts);
    }
  }

  lemma GrowSubmitted(w: nat, s: Sender, submitted: seq<Payload>, m: Payload)
    requires SenderMid(w, s, submitted)
    ensures RingHolds(w, s, submitted + [m]) && (submitted + [m])[s.next..] == s.queue + [m]
  {
    forall k: nat {:trigger k % w} | s.next - w <= k < s.next
      ensures s.winbuf[k % w] == DataPacket(k, (submitted + [m])[k])
    {
      assert (submitted + [m])[k] == submitted[k];
    }
  }

  lemma SubmitOk(w: nat, s: Sender, submitted: seq<Payload>, m: Payload)
    requires SenderOk(w, s, submitted) && (s.next < s.base + w || |s.queue| < MAXBUFSIZE)
    ensures SenderOk(w, OnSubmit(s, m).snd, submitted + [m])
    ensures OnSubmit(s, m).snd.base == s.base && OnSubmit(s, m).snd.winfront == s.winfront
    ensures s.next <= OnSubmit(s, m).snd.next
    ensures forall p <- Sends(OnSubmit(s, m).acts) :: Genuine(p, submitted + [m], OnSubmit(s, m).snd.next)
  {
    GrowSubmitted(w, s, submitted, m);
    if s.next < s.base + w {
      assert s.queue == [];
      TransmitMid(w, s, submitted + [m]);
    }
  }

  /** Popping keeps the front pointer on `base` as long as the ring has never been full. */
  lemma PopMid(w: nat, s: Sender, submitted: seq<Payload>, acknum: nat)
    requires SenderMid(w, s, submitted) && s.base <= acknum < s.next
    ensures SenderMid(w, PopAcked(s.(base := acknum + 1)), submitted)
  {
    var s1 := s.(base := acknum + 1);
    if s.next < w {
      SmallMod(s.base, w);
      SmallMod(s1.base, w);
      PopTo(w, s1, submitted, s.base);
    }
  }

  /** What an accepted acknowledgment leaves. */
  lemma AcceptedOk(w: nat, s: Sender, submitted: seq<Payload>, acknum: nat)
    requires SenderOk(w, s, submitted) && s.base <= acknum < s.next
    ensures var t := PopAcked(s.(base := acknum + 1));
            var r := Refill(t).snd;
            SenderOk(w, r, submitted) && r.base == acknum + 1 && r.winfront == t.winfront && s.next <= r.next
            && forall q <- Sends(Accepted(s, acknum)) :: Genuine(q, submitted, r.next)
  {
    hide Genuine;
    PopMid(w, s, submitted, acknum);
    var t := PopAcked(s.(base := acknum + 1));
    RefillOk(w, t, submitted);
    SendsAppend(Restart(s.base, t), Refill(t).acts);
    assert Sends(Restart(s.base, t)) == {};
  }

  lemma AckOk(w: nat, s: Sender, submitted: seq<Payload>, p: Packet)
    requires SenderOk(w, s, submitted)
    ensures SenderOk(w, OnAck(s, p).snd, submitted)
    ensures s.next <= OnAck(s, p).snd.next
    ensures OnAck(s, p).snd.base == s.base
         || (Accepts(p) && NOTUSED != p.acknum < s.next && s.base < OnAck(s, p).snd.base == p.acknum + 1)
    ensures forall q <- Sends(OnAck(s, p).acts) :: Genuine(q, submitted, OnAck(s, p).snd.next)
  {
    hide Genuine, Accepts, Accepted, RingHolds;
    if Accepts(p) && p.acknum != NOTUSED && s.base <= p.acknum < s.next {
      AcceptedOk(w, s, submitted, p.acknum);
    }
  }

  /** Every slot that the timeout loop reads has been written, and holds a genuine packet of the last turn. */
  lemma ResentGenuine(w: nat, s: Sender, submitted: seq<Payload>, i: nat)
    requires SenderMid(w, s, submitted) && i < s.next - s.base
    ensures Genuine(Resent(s, i), submitted, s.next) && s.next - w <= Resent(s, i).seqnum
    ensures Resent(s, i).seqnum % w == (s.winfront + i) % w
  {
    ModIsWrap(s.winfront + i, w);
    SlotGenuine(w, s, submitted, (s.winfront + i) % w);
  }

  lemma {:induction false} ResendGenuine(w: nat, s: Sender, submitted: seq<Payload>, k: nat)
    requires SenderMid(w, s, submitted) && k <= s.next - s.base
    ensures forall p <- Sends(ResendActs(s, k)) :: Genuine(p, submitted, s.next)
  {
    if k > 0 {
      ResendGenuine(w, s, submitted, k - 1);
      ResentGenuine(w, s, submitted, k - 1);
      SendsAppend(ResendActs(s, k - 1), [Send(Resent(s, k - 1), Resent(s, k - 1).seqnum)]);
    }
  }

  lemma TimeOutOk(w: nat, s: Sender, submitted: seq<Payload>, n: int)
    requires SenderOk(w, s, submitted)
    ensures SenderOk(w, OnTimeOut(s, n).snd, submitted)
    ensures forall p <- Sends(OnTimeOut(s, n).acts) :: Genuine(p, submitted, s.next)
  {
    if n == s.base {
      ResendGenuine(w, s, submitted, s.next - s.base);
      SendsAppend(ResendActs(s, s.next - s.base), [StartTimer(s.base)]);
    }
  }

  lemma NextInRange(w: nat, g: Gbn)
    requires Inv(w, g) && Detectable(w, g.submitted)
    ensures g.snd.next <= TAMPERED && g.snd.next <= |g.submitted|
    ensures g.snd.next == TAMPERED ==> forall n: nat | n < |g.submitted| :: !Slips(n, g.submitted[n])
  {
  }

  /** What arrives in corrupted form and passes the checksum. */
  lemma SlippedArrival(g: Gbn, p: Packet) returns (n: nat)
    requires MayArrive(g.dataNet, p) && Accepts(p) && p !in g.dataNet && Int32(g.snd.next)
    requires forall q <- g.dataNet :: Genuine(q, g.submitted, g.snd.next)
    ensures n < g.snd.next <= |g.submitted| && Slips(n, g.submitted[n])
    ensures p.seqnum == TAMPERED && p.payload == g.submitted[n][0 := LETTER_Z]
  {
    hide Accepts;
    var q :| q in g.dataNet && p == Tamper(q);
    assert Genuine(q, g.submitted, g.snd.next);
    n := q.seqnum;
    TamperedDataAccepted(n, g.submitted[n]);
  }

  /** Whatever the network hands to B, only the packet that B expects is delivered. */
  lemma ArrivingData(w: nat, g: Gbn, p: Packet)
    requires Inv(w, g) && MayArrive(g.dataNet, p) && Accepts(p) && p.seqnum == g.expected
    requires Detectable(w, g.submitted)
    ensures g.expected < g.snd.next && p.payload == g.submitted[g.expected]
  {
    hide Accepts, SenderMid, Slips, MayArrive;
    NextInRange(w, g);
    if p in g.dataNet {
      assert Genuine(p, g.submitted, g.snd.next);
    } else {
      var n := SlippedArrival(g, p);
      assert false;
    }
  }

  /** Whatever the network hands to A, an acknowledgment in the window confirms only delivered packets. */
  lemma ArrivingAck(w: nat, g: Gbn, p: Packet)
    requires Inv(w, g) && MayArrive(g.ackNet, p) && Accepts(p) && p.acknum < g.snd.next
    requires Detectable(w, g.submitted)
    ensures p.acknum < g.expected
  {
    NextInRange(w, g);
    assert p in g.ackNet;
  }

  lemma GenuineGrows(p: Packet, submitted: seq<Payload>, n: nat, more: seq<Payload>, n': nat)
    requires Genuine(p, submitted, n) && n <= n' <= |submitted + more|
    ensures Genuine(p, submitted + more, n')
  {
    assert (submitted + more)[p.seqnum] == submitted[p.seqnum];
  }

  lemma SubmitInv(w: nat, g: Gbn, m: Payload)
    requires Inv(w, g) && Enabled(g, Submit(m))
    ensures Inv(w, Apply(g, Submit(m)))
  {
    var t := Apply(g, Submit(m));
    SubmitOk(w, g.snd, g.submitted, m);
    assert t.submitted[..g.expected] == g.submitted[..g.expected];
    forall p | p in g.dataNet ensures Genuine(p, t.submitted, t.snd.next) {
      GenuineGrows(p, g.submitted, g.snd.next, [m], t.snd.next);
    }
  }

  lemma DataInv(w: nat, g: Gbn, p: Packet)
    requires Inv(w, g) && Enabled(g, DataArrives(p)) && Detectable(w, g.submitted)
    ensures Inv(w, Apply(g, DataArrives(p)))
  {
    hide SenderMid, Genuine, Slips;
    NextInRange(w, g);
    if Accepts(p) && p.seqnum == g.expected {
      ArrivingData(w, g, p);
      assert g.submitted[..g.expected] + [p.payload] == g.submitted[..g.expected + 1];
    }
  }

  lemma AckInv(w: nat, g: Gbn, p: Packet)
    requires Inv(w, g) && Enabled(g, AckArrives(p)) && Detectable(w, g.submitted)
    ensures Inv(w, Apply(g, AckArrives(p)))
  {
    var t := Apply(g, AckArrives(p));
    AckOk(w, g.snd, g.submitted, p);
    if t.snd.base != g.snd.base {
      ArrivingAck(w, g, p);
    }
    forall q | q in g.dataNet ensures Genuine(q, t.submitted, t.snd.next) {
      assert Genuine(q, g.submitted, g.snd.next);
    }
  }

  lemma TimerInv(w: nat, g: Gbn, n: int)
    requires Inv(w, g)
    ensures g.snd.Shaped() && Inv(w, Apply(g, TimerFires(n)))
  {
    hide RingHolds;
    InvShaped(w, g);
    TimeOutOk(w, g.snd, g.submitted, n);
  }

  lemma InvShaped(w: nat, g: Gbn)
    requires Inv(w, g)
    ensures g.snd.Shaped()
  {
  }

  lemma StepInv(w: nat, g: Gbn, step: Step)
    requires Inv(w, g) && Enabled(g, step) && Detectable(w, g.submitted)
    ensures Inv(w, Apply(g, step))
  {
    hide Inv, Enabled, Detectable;
    match step
    case Submit(m) => SubmitInv(w, g, m);
    case DataArrives(p) => DataInv(w, g, p);
    case AckArrives(p) => AckInv(w, g, p);
    case TimerFires(n) => TimerInv(w, g, n);
  }

  // ---------- two steps that go well ----------

  lemma SubmitWithRoom(g: Gbn, m: Payload)
    requires g.snd.Shaped() && g.snd.next < g.snd.base + |g.snd.winbuf|
    ensures var s, p := g.snd, DataPacket(g.snd.next, m);
            Apply(g, Submit(m)) == g.(
              snd := s.(next := s.next + 1, winbuf := s.winbuf[s.winrear := p],
                        winrear := Wrap(s.winrear + 1, |s.winbuf|), pktnum := s.pktnum + 1, sent := s.sent + 1),
              dataNet := g.dataNet + {p}, timers := g.timers + if s.base == s.next - 1 then multiset{s.base} else multiset{},
              submitted := g.submitted + [m])
  {
    var s, p := g.snd, DataPacket(g.snd.next, m);
    TimedOne(g.timers, Send(p, s.next));
    TimedTwo(g.timers, Send(p, s.next), StartTimer(s.base));
    assert SendActs(s, p)[0] == Send(p, s.next);
    assert Sends(SendActs(s, p)) == {p};
  }

  lemma ExpectedArrives(g: Gbn, m: Payload)
    requires g.snd.Shaped()
    ensures Apply(g, DataArrives(DataPacket(g.expected, m)))
         == g.(expected := g.expected + 1, delivered := g.delivered + [m], ackNet := g.ackNet + {AckPacket(g.expected)})
  {
    OwnChecksumAccepted(Packet(g.expected, NOTUSED, 0, m));
  }

  // ---------- whole runs ----------

  ghost predicate Run(w: nat, states: seq<Gbn>, steps: seq<Step>) {
    && |states| == |steps| + 1 && Initial(w, states[0])
    && forall i | 0 <= i < |steps| ::
         states[i].snd.Shaped() && Enabled(states[i], steps[i]) && states[i + 1] == Apply(states[i], steps[i])
  }

  lemma RunStart(w: nat, g: Gbn)
    requires Initial(w, g)
    ensures Run(w, [g], [])
  {
  }

  lemma RunExtend(w: nat, states: seq<Gbn>, steps: seq<Step>, step: Step)
    requires Run(w, states, steps) && states[|steps|].snd.Shaped() && Enabled(states[|steps|], step)
    ensures Run(w, states + [Apply(states[|steps|], step)], steps + [step])
  {
    hide Apply, Enabled, Initial;
    var states', steps' := states + [Apply(states[|steps|], step)], steps + [step];
    forall i | 0 <= i < |steps'|
      ensures states'[i].snd.Shaped() && Enabled(states'[i], steps'[i]) && states'[i + 1] == Apply(states'[i], steps'[i])
    {
      assert states'[i] == states[i];
      assert i < |steps| ==> states'[i + 1] == states[i + 1] && steps'[i] == steps[i];
    }
  }

  lemma DetectableBefore(w: nat, g: Gbn, step: Step)
    requires g.snd.Shaped() && Detectable(w, Apply(g, step).submitted)
    ensures Detectable(w, g.submitted)
  {
  }

  lemma {:induction false} RunInv(w: nat, states: seq<Gbn>, steps: seq<Step>, k: nat)
    requires Run(w, states, steps) && k < |states| && Detectable(w, states[k].submitted)
    ensures Inv(w, states[k])
  {
    hide Inv, Detectable, Apply, Enabled, Initial;
    if k == 0 {
      InitialInv(w, states[0]);
    } else {
      DetectableBefore(w, states[k - 1], steps[k - 1]);
      RunInv(w, states, steps, k - 1);
      StepInv(w, states[k - 1], steps[k - 1]);
    }
  }

  lemma InitialInv(w: nat, g: Gbn)
    requires Initial(w, g)
    ensures Inv(w, g)
  {
    SmallMod(0, w);
  }

  /** Safety on every run in which corruption is detectable: B has delivered a prefix of what was submitted, the
      windows agree, messages are neither lost nor reordered between submission and transmission, and the overflow
      buffer holds. */
  lemma Safety(w: nat, states: seq<Gbn>, steps: seq<Step>, k: nat)
    requires Run(w, states, steps) && k < |states| && Detectable(w, states[k].submitted)
    ensures var g := states[k];
            && g.expected <= |g.submitted| && g.delivered == g.submitted[..g.expected]
            && g.snd.base <= g.expected <= g.snd.next <= g.snd.base + w
            && g.snd.next <= |g.submitted| && g.snd.queue == g.submitted[g.snd.next..]
            && (g.snd.queue != [] ==> g.snd.next == g.snd.base + w)
            && |g.snd.queue| <= 5000
            && g.snd.sent == g.snd.next + g.snd.resent
  {
    RunInv(w, states, steps, k);
  }
}
