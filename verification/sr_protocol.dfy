/** Selective Repeat as a state machine: the two entities, a lossy corrupting FIFO channel each way and
    the set of running timers.  Losses and corruption follow an arbitrary oracle over transmissions. */
module SrProtocol {
  import opened Rings
  import opened Packets
  import opened EventLists
  import opened Networks
  import opened SrSender
  import opened SrReceiver

  /** A copy in the channel.  `origin` is the number of the data packet it stems from. */
  datatype Flight = Flight(pkt: Packet, origin: int)

  datatype Channel = Channel(data: seq<Flight>, acks: seq<Flight>, timers: multiset<int>, transmissions: nat)

  type Oracle = nat -> Fate

  datatype Sr = Sr(snd: Sender, rcv: Receiver, ch: Channel, submitted: seq<Payload>, delivered: seq<Payload>)

  /** Sequence numbers stay below the signed 32-bit limit, with room for base + WINDOWSIZE. */
  const MAXSEQ := 0x7FFF_FF00

  function Carry(c: Channel, fate: Oracle, from: Side, a: Action): Channel {
    match a
    case Send(pkt, origin) =>
      var f := fate(c.transmissions);
      var c1 := c.(transmissions := c.transmissions + 1);
      if f.Lost? then c1
      else if from.SideA? then c1.(data := c.data + [Flight(Arriving(pkt, f), origin)])
      else c1.(acks := c.acks + [Flight(Arriving(pkt, f), origin)])
    case StartTimer(n) => c.(timers := c.timers + multiset{n})
    case StopTimer(n) => c.(timers := c.timers - multiset{n})
  }

  function CarryAll(c: Channel, fate: Oracle, from: Side, acts: seq<Action>): Channel
    decreases |acts|
  {
    if acts == [] then c else CarryAll(Carry(c, fate, from, acts[0]), fate, from, acts[1..])
  }

  lemma {:induction false} CarryAppend(c: Channel, fate: Oracle, from: Side, xs: seq<Action>, ys: seq<Action>)
    ensures CarryAll(c, fate, from, xs + ys) == CarryAll(CarryAll(c, fate, from, xs), fate, from, ys)
    decreases |xs|
  {
    if xs == [] {
      assert xs + ys == ys;
    } else {
      assert (xs + ys)[0] == xs[0] && (xs + ys)[1..] == xs[1..] + ys;
      CarryAppend(Carry(c, fate, from, xs[0]), fate, from, xs[1..], ys);
    }
  }

  lemma CarryOne(c: Channel, fate: Oracle, from: Side, a: Action)
    ensures CarryAll(c, fate, from, [a]) == Carry(c, fate, from, a)
  {
    assert [a][1..] == [];
    assert CarryAll(Carry(c, fate, from, a), fate, from, []) == Carry(c, fate, from, a);
  }

  lemma CarryTwo(c: Channel, fate: Oracle, from: Side, a: Action, b: Action)
    ensures CarryAll(c, fate, from, [a, b]) == Carry(Carry(c, fate, from, a), fate, from, b)
  {
    assert [a, b] == [a] + [b];
    CarryAppend(c, fate, from, [a], [b]);
    CarryOne(c, fate, from, a);
    CarryOne(Carry(c, fate, from, a), fate, from, b);
  }

  // ---------- steps ----------

  datatype Step = Submit(message: Payload) | DataArrives | AckArrives | Expire(seqno: int)

  predicate Enabled(w: nat, s: Sr, step: Step) {
    match step
    case Submit(_) => !Overflows(w, s.snd) && |s.submitted| < MAXSEQ
    case DataArrives => s.ch.data != [] && s.rcv.Shaped(w) && Addressable(w, s.rcv, s.ch.data[0].pkt)
    case AckArrives => s.ch.acks != []
    case Expire(n) => n in s.ch.timers
  }

  function Apply(w: nat, fate: Oracle, s: Sr, step: Step): Sr
    requires Enabled(w, s, step)
  {
    match step
    case Submit(m) =>
      var r := OnSubmit(w, s.snd, m);
      s.(snd := r.snd, ch := CarryAll(s.ch, fate, SideA, r.acts), submitted := s.submitted + [m])
    case DataArrives =>
      var f := s.ch.data[0];
      var d := OnData(w, s.rcv, f.pkt);
      s.(rcv := d.rcv, delivered := s.delivered + d.delivered,
         ch := CarryAll(s.ch.(data := s.ch.data[1..]), fate, SideB, Acknowledge(d.acks, f.origin)))
    case AckArrives =>
      var r := OnAck(w, s.snd, s.ch.acks[0].pkt);
      s.(snd := r.snd, ch := CarryAll(s.ch.(acks := s.ch.acks[1..]), fate, SideA, r.acts))
    case Expire(n) =>
      var r := OnTimeOut(s.snd, n);
      s.(snd := r.snd, ch := CarryAll(s.ch.(timers := s.ch.timers - multiset{n}), fate, SideA, r.acts))
  }

  ghost predicate Initial(w: nat, s: Sr) {
    && 1 <= w <= 8
    && s.snd == InitialSender && IsInitial(s.rcv)
    && s.ch == Channel([], [], multiset{}, 0) && s.submitted == [] && s.delivered == []
  }

  // ---------- what the state means ----------

  ghost predicate Received(w: nat, r: Receiver, n: nat)
    requires r.Shaped(w)
  {
    n < r.expected || Holds(w, r, n)
  }

  ghost predicate Acked(s: Sender, n: nat) {
    n < s.base || (n - s.base < |s.window| && s.window[n - s.base].acknum == 1)
  }

  ghost predicate InWindowUnacked(s: Sender, n: int) {
    s.base <= n < s.base + |s.window| && s.window[n - s.base].acknum == 0
  }

  ghost function Original(submitted: seq<Payload>, n: int): Packet
    requires 0 <= n < |submitted|
  {
    DataPacket(n, submitted[n])
  }

  /** The corruption of data packet `n` escapes the checksum. */
  ghost predicate Slips(submitted: seq<Payload>, n: int)
    requires 0 <= n < |submitted|
  {
    (n + submitted[n][0]) % 65535 == 34038
  }

  // ---------- the invariant ----------

  ghost predicate SenderOk(w: nat, s: Sender, submitted: seq<Payload>) {
    && s.base <= s.next <= s.base + w && s.next <= |submitted| <= MAXSEQ
    && |s.window| == s.next - s.base
    && (forall i :: 0 <= i < |s.window| ==> WindowSlotOk(s, i, submitted))
    && s.queue == submitted[s.next..]
    && s.sent == s.next + s.resent && s.timeouts == s.resent
  }

  /** A window slot is the original packet, apart from the acked flag kept in its acknum field. */
  ghost predicate WindowSlotOk(s: Sender, i: nat, submitted: seq<Payload>)
    requires i < |s.window|
  {
    && s.base + i < |submitted|
    && (s.window[i] == Original(submitted, s.base + i)
        || s.window[i] == Original(submitted, s.base + i).(acknum := 1))
  }

  /** Between steps the window starts with an unacknowledged packet, and messages wait only when it is full. */
  ghost predicate Settled(w: nat, s: Sender) {
    && (s.window != [] ==> s.window[0].acknum != 1)
    && (s.queue != [] ==> s.base + w <= s.next)
  }

  ghost predicate SlotOk(w: nat, r: Receiver, i: nat, submitted: seq<Payload>, next: nat)
    requires r.Shaped(w) && i < SLOTS && 1 <= w
  {
    var n := r.slots[i].seqnum;
    0 <= n < next && n < |submitted| && n % w == i && r.slots[i] == Original(submitted, n)
  }

  ghost predicate ReceiverOk(w: nat, r: Receiver, submitted: seq<Payload>, next: nat) {
    && r.Shaped(w) && r.expected <= next <= |submitted|
    && (forall i :: 0 <= i < SLOTS && r.marked[i] ==> SlotOk(w, r, i, submitted, next))
  }

  ghost predicate DataFlightOk(f: Flight, submitted: seq<Payload>, next: nat) {
    && 0 <= f.origin < next && f.origin < |submitted|
    && (f.pkt == Original(submitted, f.origin) || f.pkt == Tamper(Original(submitted, f.origin)))
  }

  ghost predicate AckFlightOk(w: nat, r: Receiver, f: Flight, submitted: seq<Payload>, next: nat)
    requires r.Shaped(w)
  {
    && 0 <= f.origin < next && f.origin < |submitted|
    && ((Received(w, r, f.origin) && (f.pkt == AckPacket(f.origin) || f.pkt == Tamper(AckPacket(f.origin))))
        || (Slips(submitted, f.origin) && (f.pkt == AckPacket(TAMPERED) || f.pkt == Tamper(AckPacket(TAMPERED)))))
  }

  ghost predicate AckedBelow(s: Sender, lim: int) {
    s.base <= lim && forall i :: 0 <= i < |s.window| && s.window[i].acknum == 1 ==> s.base + i < lim
  }

  ghost predicate StoredBelow(w: nat, r: Receiver, lim: int)
    requires r.Shaped(w)
  {
    r.expected <= lim && forall i :: 0 <= i < SLOTS && r.marked[i] ==> r.slots[i].seqnum < lim
  }

  ghost predicate OriginsBelow(ch: seq<Flight>, lim: int) {
    forall i :: 0 <= i < |ch| ==> ch[i].origin < lim
  }

  /** FIFO order, for the copy at position `j`: whatever overtook a copy of `t`, and whatever either entity
      did on account of such a packet, concerns numbers below t + w. */
  ghost predicate DataOrder(w: nat, s: Sr, j: nat)
    requires j < |s.ch.data| && s.rcv.Shaped(w)
  {
    var lim := s.ch.data[j].origin + w;
    AckedBelow(s.snd, lim) && StoredBelow(w, s.rcv, lim)
    && OriginsBelow(s.ch.acks, lim) && OriginsBelow(s.ch.data[..j], lim)
  }

  ghost predicate AckOrder(w: nat, s: Sr, j: nat)
    requires j < |s.ch.acks|
  {
    var lim := s.ch.acks[j].origin + w;
    AckedBelow(s.snd, lim) && OriginsBelow(s.ch.acks[..j], lim)
  }

  ghost predicate TimersOk(s: Sr) {
    forall n: int :: s.ch.timers[n] == if InWindowUnacked(s.snd, n) then 1 else 0
  }

  /** Everything but `Settled`: what holds in the middle of a handler too. */
  ghost predicate Mid(w: nat, s: Sr) {
    && 1 <= w <= SLOTS
    && SenderOk(w, s.snd, s.submitted)
    && ReceiverOk(w, s.rcv, s.submitted, s.snd.next)
    && s.delivered == s.submitted[..s.rcv.expected]
    && (forall n: nat :: Acked(s.snd, n) ==> Received(w, s.rcv, n))
    && (forall j :: 0 <= j < |s.ch.data| ==> DataFlightOk(s.ch.data[j], s.submitted, s.snd.next))
    && (forall j :: 0 <= j < |s.ch.acks| ==> AckFlightOk(w, s.rcv, s.ch.acks[j], s.submitted, s.snd.next))
    && (forall j :: 0 <= j < |s.ch.data| ==> DataOrder(w, s, j))
    && (forall j :: 0 <= j < |s.ch.acks| ==> AckOrder(w, s, j))
    && TimersOk(s)
  }

  ghost predicate Inv(w: nat, s: Sr) {
    Mid(w, s) && Settled(w, s.snd) && !Holds(w, s.rcv, s.rcv.expected)
  }

  lemma InitialInv(w: nat, s: Sr)
    requires Initial(w, s)
    ensures Inv(w, s)
  {
    ModBelow(0, w);
  }

  // ---------- the sender side ----------

  /** A new message joins the overflow queue; only the record of submissions grows. */
  lemma EnqueueMid(w: nat, s: Sr, m: Payload)
    requires Mid(w, s) && |s.submitted| < MAXSEQ
    ensures Mid(w, s.(submitted := s.submitted + [m], snd := s.snd.(queue := s.snd.queue + [m])))
  {
    var t := s.(submitted := s.submitted + [m], snd := s.snd.(queue := s.snd.queue + [m]));
    assert t.snd.queue == t.submitted[t.snd.next..];
    forall i | 0 <= i < |t.snd.window| ensures WindowSlotOk(t.snd, i, t.submitted) {
      assert WindowSlotOk(s.snd, i, s.submitted);
    }
    forall i | 0 <= i < SLOTS && t.rcv.marked[i] ensures SlotOk(w, t.rcv, i, t.submitted, t.snd.next) {
      assert SlotOk(w, s.rcv, i, s.submitted, s.snd.next);
    }
    forall j | 0 <= j < |t.ch.data| ensures DataFlightOk(t.ch.data[j], t.submitted, t.snd.next) && DataOrder(w, t, j) {
      assert DataFlightOk(s.ch.data[j], s.submitted, s.snd.next) && DataOrder(w, s, j);
    }
    forall j | 0 <= j < |t.ch.acks|
      ensures AckFlightOk(w, t.rcv, t.ch.acks[j], t.submitted, t.snd.next) && AckOrder(w, t, j)
    {
      assert AckFlightOk(w, s.rcv, s.ch.acks[j], s.submitted, s.snd.next) && AckOrder(w, s, j);
    }
    forall n: nat | Acked(t.snd, n) ensures Received(w, t.rcv, n) {
      assert Acked(s.snd, n);
    }
    forall n: int ensures t.ch.timers[n] == if InWindowUnacked(t.snd, n) then 1 else 0 {
      assert InWindowUnacked(t.snd, n) == InWindowUnacked(s.snd, n);
    }
  }

  /** Sending a copy of any packet that is still in the window keeps the invariant, whatever its fate. */
  lemma SendCopyMid(w: nat, fate: Oracle, s: Sr, n: nat)
    requires Mid(w, s) && s.snd.base <= n < s.snd.next
    ensures Mid(w, s.(ch := Carry(s.ch, fate, SideA, Send(Original(s.submitted, n), n))))
  {
    var c := Carry(s.ch, fate, SideA, Send(Original(s.submitted, n), n));
    var t := s.(ch := c);
    forall j | 0 <= j < |c.data| ensures DataFlightOk(c.data[j], t.submitted, t.snd.next) && DataOrder(w, t, j) {
      if j < |s.ch.data| {
        assert DataFlightOk(s.ch.data[j], s.submitted, s.snd.next) && DataOrder(w, s, j);
        assert c.data[..j] == s.ch.data[..j];
      } else {
        assert c.data[..j] == s.ch.data;
        assert c.data[j].origin == n;
        NewestOrder(w, s, n + w);
      }
    }
    forall j | 0 <= j < |c.acks| ensures AckFlightOk(w, t.rcv, c.acks[j], t.submitted, t.snd.next) && AckOrder(w, t, j) {
      assert AckFlightOk(w, s.rcv, s.ch.acks[j], s.submitted, s.snd.next) && AckOrder(w, s, j);
    }
    forall k: int ensures t.ch.timers[k] == if InWindowUnacked(t.snd, k) then 1 else 0 {
    }
  }

  /** Every number in use is below the end of the window. */
  lemma NewestOrder(w: nat, s: Sr, lim: int)
    requires Mid(w, s) && s.snd.base + w <= lim
    ensures AckedBelow(s.snd, lim) && StoredBelow(w, s.rcv, lim)
    ensures OriginsBelow(s.ch.acks, lim) && OriginsBelow(s.ch.data, lim)
  {
    forall i | 0 <= i < SLOTS && s.rcv.marked[i] ensures s.rcv.slots[i].seqnum < lim {
      assert SlotOk(w, s.rcv, i, s.submitted, s.snd.next);
    }
    forall i | 0 <= i < |s.ch.acks| ensures s.ch.acks[i].origin < lim {
      assert AckFlightOk(w, s.rcv, s.ch.acks[i], s.submitted, s.snd.next);
    }
    forall i | 0 <= i < |s.ch.data| ensures s.ch.data[i].origin < lim {
      assert DataFlightOk(s.ch.data[i], s.submitted, s.snd.next);
    }
  }

  /** The first queued message enters the window and its timer starts. */
  lemma GrowWindowMid(w: nat, s: Sr)
    requires Mid(w, s) && s.snd.queue != [] && s.snd.next < s.snd.base + w
    ensures s.snd.next < |s.submitted| && s.snd.queue[0] == s.submitted[s.snd.next]
    ensures Mid(w, s.(snd := TransmitNew(s.snd.(queue := s.snd.queue[1..]), s.snd.queue[0]).snd,
                      ch := s.ch.(timers := s.ch.timers + multiset{s.snd.next})))
  {
    var n := s.snd.next;
    var t := s.(snd := TransmitNew(s.snd.(queue := s.snd.queue[1..]), s.snd.queue[0]).snd,
                ch := s.ch.(timers := s.ch.timers + multiset{n}));
    assert s.snd.queue[0] == s.submitted[n];
    assert t.snd.queue == t.submitted[t.snd.next..];
    forall i | 0 <= i < |t.snd.window| ensures WindowSlotOk(t.snd, i, t.submitted) {
      if i < |s.snd.window| {
        assert WindowSlotOk(s.snd, i, s.submitted);
      }
    }
    forall i | 0 <= i < SLOTS && t.rcv.marked[i] ensures SlotOk(w, t.rcv, i, t.submitted, t.snd.next) {
      assert SlotOk(w, s.rcv, i, s.submitted, s.snd.next);
    }
    forall k: nat | Acked(t.snd, k) ensures Received(w, t.rcv, k) {
      assert Acked(s.snd, k);
    }
    forall j | 0 <= j < |t.ch.data| ensures DataFlightOk(t.ch.data[j], t.submitted, t.snd.next) && DataOrder(w, t, j) {
      assert DataFlightOk(s.ch.data[j], s.submitted, s.snd.next) && DataOrder(w, s, j);
      GrownAckedBelow(s.snd, t.snd, s.ch.data[j].origin + w);
    }
    forall j | 0 <= j < |t.ch.acks|
      ensures AckFlightOk(w, t.rcv, t.ch.acks[j], t.submitted, t.snd.next) && AckOrder(w, t, j)
    {
      assert AckFlightOk(w, s.rcv, s.ch.acks[j], s.submitted, s.snd.next) && AckOrder(w, s, j);
      GrownAckedBelow(s.snd, t.snd, s.ch.acks[j].origin + w);
    }
    forall k: int ensures t.ch.timers[k] == if InWindowUnacked(t.snd, k) then 1 else 0 {
      assert InWindowUnacked(t.snd, k) <==> InWindowUnacked(s.snd, k) || k == n;
    }
  }

  lemma GrownAckedBelow(s: Sender, t: Sender, lim: int)
    requires AckedBelow(s, lim) && t.base == s.base && |t.window| == |s.window| + 1
    requires t.window[..|s.window|] == s.window && t.window[|s.window|].acknum == 0
    ensures AckedBelow(t, lim)
  {
    forall i | 0 <= i < |t.window| && t.window[i].acknum == 1 ensures t.base + i < lim {
      assert t.window[i] == s.window[i];
    }
  }

  /** Sending the first queued message, as one round of the refill loop does. */
  lemma SendNextMid(w: nat, fate: Oracle, s: Sr)
    requires Mid(w, s) && s.snd.queue != [] && s.snd.next < s.snd.base + w
    ensures var r := TransmitNew(s.snd.(queue := s.snd.queue[1..]), s.snd.queue[0]);
            Mid(w, s.(snd := r.snd, ch := CarryAll(s.ch, fate, SideA, r.acts)))
  {
    var n := s.snd.next;
    var r := TransmitNew(s.snd.(queue := s.snd.queue[1..]), s.snd.queue[0]);
    GrowWindowMid(w, s);
    var t := s.(snd := r.snd, ch := s.ch.(timers := s.ch.timers + multiset{n}));
    SendCopyMid(w, fate, t, n);
    CarryTwo(s.ch, fate, SideA, Send(Original(s.submitted, n), n), StartTimer(n));
    assert s.(snd := r.snd, ch := CarryAll(s.ch, fate, SideA, r.acts))
        == t.(ch := Carry(t.ch, fate, SideA, Send(Original(s.submitted, n), n)));
  }

  /** The refill loop keeps the invariant and leaves messages waiting only behind a full window. */
  lemma {:induction false} RefillMid(w: nat, fate: Oracle, s: Sr)
    requires Mid(w, s)
    ensures var r := Refill(w, s.snd);
            Mid(w, s.(snd := r.snd, ch := CarryAll(s.ch, fate, SideA, r.acts)))
            && (r.snd.queue != [] ==> r.snd.base + w <= r.snd.next)
            && r.snd.base == s.snd.base && r.snd.window[..|s.snd.window|] == s.snd.window
    decreases |s.snd.queue|
  {
    var r := Refill(w, s.snd);
    if s.snd.queue != [] && s.snd.next < s.snd.base + w {
      var first := TransmitNew(s.snd.(queue := s.snd.queue[1..]), s.snd.queue[0]);
      var t := s.(snd := first.snd, ch := CarryAll(s.ch, fate, SideA, first.acts));
      SendNextMid(w, fate, s);
      RefillMid(w, fate, t);
      var rest := Refill(w, first.snd);
      CarryAppend(s.ch, fate, SideA, first.acts, rest.acts);
      assert rest.snd.window[..|s.snd.window|] == rest.snd.window[..|first.snd.window|][..|s.snd.window|];
    } else {
      assert CarryAll(s.ch, fate, SideA, []) == s.ch;
      assert s.(snd := s.snd, ch := s.ch) == s;
    }
  }

  lemma SubmitInv(w: nat, fate: Oracle, s: Sr, m: Payload)
    requires Inv(w, s) && Enabled(w, s, Submit(m))
    ensures Inv(w, Apply(w, fate, s, Submit(m)))
  {
    EnqueueMid(w, s, m);
    var t := s.(submitted := s.submitted + [m], snd := s.snd.(queue := s.snd.queue + [m]));
    if s.snd.next < s.snd.base + w {
      assert s.snd.queue == [] && t.snd.queue == [m] && t.snd.(queue := t.snd.queue[1..]) == s.snd;
      SendNextMid(w, fate, t);
    } else {
      assert CarryAll(s.ch, fate, SideA, []) == s.ch;
    }
  }

  /** An unacknowledged packet of the window is found at its own position, and nothing else is found. */
  lemma FindInWindow(w: nat, s: Sender, submitted: seq<Payload>, n: int)
    requires SenderOk(w, s, submitted)
    ensures InWindowUnacked(s, n) ==> FindUnacked(s.window, n) == n - s.base
    ensures !InWindowUnacked(s, n) ==> FindUnacked(s.window, n) == |s.window|
  {
    forall i | 0 <= i < |s.window| ensures s.window[i].seqnum == s.base + i {
      assert WindowSlotOk(s, i, submitted);
    }
    if InWindowUnacked(s, n) {
      FindUnackedUnique(s.window, n, n - s.base);
    } else {
      FindUnackedUnique(s.window, n, |s.window|);
    }
  }

  /** A timer that goes off always belongs to a packet that is resent, and the copy sent is the original. */
  lemma ExpireResends(w: nat, s: Sr, n: int)
    requires Mid(w, s) && n in s.ch.timers
    ensures s.snd.base <= n < s.snd.next
    ensures OnTimeOut(s.snd, n).acts == [Send(Original(s.submitted, n), n), StartTimer(n)]
    ensures OnTimeOut(s.snd, n).snd
         == s.snd.(timeouts := s.snd.timeouts + 1, sent := s.snd.sent + 1, resent := s.snd.resent + 1)
  {
    assert s.ch.timers[n] != 0;
    assert InWindowUnacked(s.snd, n);
    FindInWindow(w, s.snd, s.submitted, n);
    assert WindowSlotOk(s.snd, n - s.snd.base, s.submitted);
  }

  /** Counters and a cancelled-then-restarted timer do not matter to the invariant. */
  lemma RecountMid(w: nat, s: Sr, t: Sr)
    requires Mid(w, s)
    requires t == s.(snd := s.snd.(timeouts := s.snd.timeouts + 1, sent := s.snd.sent + 1, resent := s.snd.resent + 1))
    ensures Mid(w, t)
  {
    forall i | 0 <= i < |t.snd.window| ensures WindowSlotOk(t.snd, i, t.submitted) {
      assert WindowSlotOk(s.snd, i, s.submitted);
    }
    forall j | 0 <= j < |t.ch.data| ensures DataOrder(w, t, j) {
      assert DataOrder(w, s, j);
    }
    forall j | 0 <= j < |t.ch.acks| ensures AckOrder(w, t, j) {
      assert AckOrder(w, s, j);
    }
    forall n: nat | Acked(t.snd, n) ensures Received(w, t.rcv, n) {
      assert Acked(s.snd, n);
    }
    forall n: int ensures t.ch.timers[n] == if InWindowUnacked(t.snd, n) then 1 else 0 {
      assert InWindowUnacked(t.snd, n) == InWindowUnacked(s.snd, n);
    }
  }

  lemma ExpireInv(w: nat, fate: Oracle, s: Sr, n: int)
    requires Inv(w, s) && Enabled(w, s, Expire(n))
    ensures Inv(w, Apply(w, fate, s, Expire(n)))
  {
    ExpireResends(w, s, n);
    var r := OnTimeOut(s.snd, n);
    var t := s.(snd := r.snd);
    RecountMid(w, s, t);
    SendCopyMid(w, fate, t, n);
    var c := s.ch.(timers := s.ch.timers - multiset{n});
    CarryTwo(c, fate, SideA, Send(Original(s.submitted, n), n), StartTimer(n));
    assert s.ch.timers - multiset{n} + multiset{n} == s.ch.timers;
    assert CarryAll(c, fate, SideA, r.acts) == Carry(t.ch, fate, SideA, Send(Original(s.submitted, n), n));
  }

  // ---------- acknowledgments ----------

  /** Taking the first ACK off the channel. */
  lemma PopAckMid(w: nat, s: Sr)
    requires Mid(w, s) && s.ch.acks != []
    ensures Mid(w, s.(ch := s.ch.(acks := s.ch.acks[1..])))
  {
    var t := s.(ch := s.ch.(acks := s.ch.acks[1..]));
    forall j | 0 <= j < |t.ch.data| ensures DataFlightOk(t.ch.data[j], t.submitted, t.snd.next) && DataOrder(w, t, j) {
      assert DataFlightOk(s.ch.data[j], s.submitted, s.snd.next) && DataOrder(w, s, j);
    }
    forall j | 0 <= j < |t.ch.acks|
      ensures AckFlightOk(w, t.rcv, t.ch.acks[j], t.submitted, t.snd.next) && AckOrder(w, t, j)
    {
      assert AckFlightOk(w, s.rcv, s.ch.acks[j + 1], s.submitted, s.snd.next) && AckOrder(w, s, j + 1);
      assert forall i :: 0 <= i < j ==> t.ch.acks[..j][i] == s.ch.acks[..j + 1][i + 1];
    }
    forall n: int ensures t.ch.timers[n] == if InWindowUnacked(t.snd, n) then 1 else 0 {
    }
  }

  /** Only the ACK of a received packet ever passes A's checks: a damaged one, or one that B sent for a
      damaged packet, is either rejected by the checksum or lies outside the window. */
  lemma AckSound(w: nat, s: Sr)
    requires Mid(w, s) && s.ch.acks != []
    ensures var f := s.ch.acks[0];
            Accepts(f.pkt) && s.snd.base <= f.pkt.acknum < s.snd.next
            ==> f.pkt == AckPacket(f.origin) && Received(w, s.rcv, f.origin)
  {
    hide DataPacket, Settled, TimersOk;
    var f := s.ch.acks[0];
    var n := f.origin;
    assert AckFlightOk(w, s.rcv, f, s.submitted, s.snd.next) && AckOrder(w, s, 0);
    assert s.snd.base <= n + w && n < s.snd.next;
    TamperedAckAccepted(n);
    TamperedAckAccepted(TAMPERED);
    NoSlipNearTampered(TAMPERED, 0);
    NoSlipNearTampered(n, s.submitted[n][0]);
  }

  /** Flagging the packet of a sound ACK and cancelling its timer. */
  lemma MarkMid(w: nat, s: Sr, n: nat)
    requires Mid(w, s) && InWindowUnacked(s.snd, n) && Received(w, s.rcv, n)
    requires OriginsAbove(s.ch, n - w)
    ensures Mid(w, s.(snd := MarkAcked(s.snd, n - s.snd.base),
                      ch := s.ch.(timers := s.ch.timers - multiset{n})))
  {
    hide AckFlightOk, DataFlightOk, Tamper, DataPacket, AckPacket, Received;
    var t := s.(snd := MarkAcked(s.snd, n - s.snd.base), ch := s.ch.(timers := s.ch.timers - multiset{n}));
    forall i | 0 <= i < |t.snd.window| ensures WindowSlotOk(t.snd, i, t.submitted) {
      assert WindowSlotOk(s.snd, i, s.submitted);
    }
    forall j | 0 <= j < |t.ch.data| ensures DataFlightOk(t.ch.data[j], t.submitted, t.snd.next) && DataOrder(w, t, j) {
      assert DataFlightOk(s.ch.data[j], s.submitted, s.snd.next) && DataOrder(w, s, j);
    }
    forall j | 0 <= j < |t.ch.acks|
      ensures AckFlightOk(w, t.rcv, t.ch.acks[j], t.submitted, t.snd.next) && AckOrder(w, t, j)
    {
      assert AckFlightOk(w, s.rcv, s.ch.acks[j], s.submitted, s.snd.next) && AckOrder(w, s, j);
    }
    forall k: nat | Acked(t.snd, k) ensures Received(w, t.rcv, k) {
      assert Acked(s.snd, k) || k == n;
    }
    forall k: int ensures t.ch.timers[k] == if InWindowUnacked(t.snd, k) then 1 else 0 {
      assert s.ch.timers[k] == if InWindowUnacked(s.snd, k) then 1 else 0;
      assert InWindowUnacked(t.snd, k) <==> InWindowUnacked(s.snd, k) && k != n;
    }
  }

  ghost predicate OriginsAbove(c: Channel, lim: int) {
    (forall j :: 0 <= j < |c.data| ==> lim < c.data[j].origin) && (forall j :: 0 <= j < |c.acks| ==> lim < c.acks[j].origin)
  }

  /** Sliding past an acknowledged packet changes the window's edges and nothing else. */
  lemma SlideOneMid(w: nat, s: Sr)
    requires Mid(w, s) && s.snd.window != [] && s.snd.window[0].acknum == 1
    ensures Mid(w, s.(snd := s.snd.(base := s.snd.base + 1, window := s.snd.window[1..])))
  {
    var t := s.(snd := s.snd.(base := s.snd.base + 1, window := s.snd.window[1..]));
    forall i | 0 <= i < |t.snd.window| ensures WindowSlotOk(t.snd, i, t.submitted) {
      assert WindowSlotOk(s.snd, i + 1, s.submitted);
    }
    forall k: nat | Acked(t.snd, k) ensures Received(w, t.rcv, k) {
      assert Acked(s.snd, k);
    }
    forall j | 0 <= j < |t.ch.data| ensures DataFlightOk(t.ch.data[j], t.submitted, t.snd.next) && DataOrder(w, t, j) {
      assert DataFlightOk(s.ch.data[j], s.submitted, s.snd.next) && DataOrder(w, s, j);
      SlidAckedBelow(s.snd, s.ch.data[j].origin + w);
    }
    forall j | 0 <= j < |t.ch.acks|
      ensures AckFlightOk(w, t.rcv, t.ch.acks[j], t.submitted, t.snd.next) && AckOrder(w, t, j)
    {
      assert AckFlightOk(w, s.rcv, s.ch.acks[j], s.submitted, s.snd.next) && AckOrder(w, s, j);
      SlidAckedBelow(s.snd, s.ch.acks[j].origin + w);
    }
    forall k: int ensures t.ch.timers[k] == if InWindowUnacked(t.snd, k) then 1 else 0 {
      assert s.ch.timers[k] == if InWindowUnacked(s.snd, k) then 1 else 0;
      assert InWindowUnacked(t.snd, k) == InWindowUnacked(s.snd, k);
    }
  }

  lemma SlidAckedBelow(s: Sender, lim: int)
    requires AckedBelow(s, lim) && s.window != [] && s.window[0].acknum == 1
    ensures AckedBelow(s.(base := s.base + 1, window := s.window[1..]), lim)
  {
    assert s.base + 0 < lim;
    forall i | 0 <= i < |s.window[1..]| && s.window[1..][i].acknum == 1 ensures s.base + 1 + i < lim {
      assert s.window[i + 1].acknum == 1;
    }
  }

  lemma {:induction false} SlideMid(w: nat, s: Sr)
    requires Mid(w, s)
    ensures Mid(w, s.(snd := Slide(s.snd)))
    ensures Slide(s.snd).window != [] ==> Slide(s.snd).window[0].acknum != 1
    decreases |s.snd.window|
  {
    if s.snd.window != [] {
      assert WindowSlotOk(s.snd, 0, s.submitted);
      if s.snd.window[0].acknum == 1 {
        var t := s.(snd := s.snd.(base := s.snd.base + 1, window := s.snd.window[1..]));
        SlideOneMid(w, s);
        SlideMid(w, t);
        assert s.(snd := Slide(s.snd)) == t.(snd := Slide(t.snd));
      } else {
        assert s.(snd := Slide(s.snd)) == s;
      }
    } else {
      assert s.(snd := Slide(s.snd)) == s;
    }
  }

  /** The accepting path of A_input: cancel, flag, slide, refill. */
  lemma AcceptAckInv(w: nat, fate: Oracle, t: Sr, n: nat)
    requires Mid(w, t) && InWindowUnacked(t.snd, n) && Received(w, t.rcv, n)
    requires OriginsAbove(t.ch, n - w) && !Holds(w, t.rcv, t.rcv.expected)
    ensures var r := Refill(w, Slide(MarkAcked(t.snd, n - t.snd.base)));
            Inv(w, t.(snd := r.snd, ch := CarryAll(t.ch, fate, SideA, [StopTimer(n)] + r.acts)))
  {
    MarkMid(w, t, n);
    var c := t.ch.(timers := t.ch.timers - multiset{n});
    var u := t.(snd := MarkAcked(t.snd, n - t.snd.base), ch := c);
    SlideMid(w, u);
    var v := u.(snd := Slide(u.snd));
    RefillMid(w, fate, v);
    var r := Refill(w, v.snd);
    CarryAppend(t.ch, fate, SideA, [StopTimer(n)], r.acts);
    CarryOne(t.ch, fate, SideA, StopTimer(n));
    assert CarryAll(t.ch, fate, SideA, [StopTimer(n)] + r.acts) == CarryAll(c, fate, SideA, r.acts);
    SettledAfterRefill(w, v.snd);
  }

  /** Everything still in flight behind the first ACK stems from packets that ACK cannot have overtaken by w. */
  lemma BehindFirstAck(w: nat, s: Sr)
    requires Mid(w, s) && s.ch.acks != []
    ensures OriginsAbove(s.ch.(acks := s.ch.acks[1..]), s.ch.acks[0].origin - w)
  {
    var f := s.ch.acks[0];
    forall j | 0 <= j < |s.ch.data| ensures f.origin - w < s.ch.data[j].origin {
      assert DataOrder(w, s, j);
    }
    forall j | 0 <= j < |s.ch.acks[1..]| ensures f.origin - w < s.ch.acks[1..][j].origin {
      assert AckOrder(w, s, j + 1);
      assert s.ch.acks[..j + 1][0] == f;
    }
  }

  lemma AckInv(w: nat, fate: Oracle, s: Sr)
    requires Inv(w, s) && Enabled(w, s, AckArrives)
    ensures Inv(w, Apply(w, fate, s, AckArrives))
  {
    hide Slide, Refill, Tamper, DataPacket, Received, SenderOk, FindUnacked;
    var f := s.ch.acks[0];
    var t := s.(ch := s.ch.(acks := s.ch.acks[1..]));
    PopAckMid(w, s);
    AckSound(w, s);
    var n := f.pkt.acknum;
    FindInWindow(w, s.snd, s.submitted, n);
    if Accepts(f.pkt) && s.snd.base <= n < s.snd.next && InWindowUnacked(s.snd, n) {
      BehindFirstAck(w, s);
      AcceptAckInv(w, fate, t, n);
    } else {
      assert OnAck(w, s.snd, f.pkt) == Effect(s.snd, []);
      assert CarryAll(t.ch, fate, SideA, []) == t.ch;
    }
  }

  /** A window whose first packet is unacknowledged still has one after the refill. */
  lemma {:induction false} SettledAfterRefill(w: nat, s: Sender)
    requires s.window != [] ==> s.window[0].acknum != 1
    ensures Settled(w, Refill(w, s).snd)
    decreases |s.queue|
  {
    if s.queue != [] && s.next < s.base + w {
      SettledAfterRefill(w, TransmitNew(s.(queue := s.queue[1..]), s.queue[0]).snd);
    }
  }

  // ---------- data packets ----------

  lemma BaseBelowExpected(w: nat, s: Sr)
    requires Mid(w, s) && !Holds(w, s.rcv, s.rcv.expected)
    ensures s.snd.base <= s.rcv.expected <= s.snd.next <= s.snd.base + w
  {
    assert Acked(s.snd, s.rcv.expected) ==> Received(w, s.rcv, s.rcv.expected);
  }

  /** The number behind the first data packet is within a window of what B expects, so an intact copy
      never reaches the out-of-range branch. */
  lemma FirstDataInRange(w: nat, s: Sr)
    requires Inv(w, s) && s.ch.data != []
    ensures InRange(w, s.rcv, s.ch.data[0].origin)
  {
    BaseBelowExpected(w, s);
    assert DataFlightOk(s.ch.data[0], s.submitted, s.snd.next) && DataOrder(w, s, 0);
  }

  lemma PopDataMid(w: nat, s: Sr)
    requires Mid(w, s) && s.ch.data != []
    ensures Mid(w, s.(ch := s.ch.(data := s.ch.data[1..])))
    ensures OriginsAbove(s.ch.(data := s.ch.data[1..], acks := []), s.ch.data[0].origin - w)
    ensures AckedBelow(s.snd, s.ch.data[0].origin + w) && OriginsBelow(s.ch.acks, s.ch.data[0].origin + w)
  {
    var t := s.(ch := s.ch.(data := s.ch.data[1..]));
    assert DataOrder(w, s, 0);
    forall j | 0 <= j < |t.ch.data|
      ensures DataFlightOk(t.ch.data[j], t.submitted, t.snd.next) && DataOrder(w, t, j)
      ensures s.ch.data[0].origin - w < t.ch.data[j].origin
    {
      assert DataFlightOk(s.ch.data[j + 1], s.submitted, s.snd.next) && DataOrder(w, s, j + 1);
      assert s.ch.data[..j + 1][0] == s.ch.data[0];
      assert forall i :: 0 <= i < j ==> t.ch.data[..j][i] == s.ch.data[..j + 1][i + 1];
    }
    forall j | 0 <= j < |t.ch.acks|
      ensures AckFlightOk(w, t.rcv, t.ch.acks[j], t.submitted, t.snd.next) && AckOrder(w, t, j)
    {
      assert AckFlightOk(w, s.rcv, s.ch.acks[j], s.submitted, s.snd.next) && AckOrder(w, s, j);
    }
    forall n: int ensures t.ch.timers[n] == if InWindowUnacked(t.snd, n) then 1 else 0 {
    }
  }

  /** What the overwritten slot held was delivered long ago: an old copy of `n` never destroys an
      undelivered `n + w`, nor the other way round. */
  lemma StoreReceives(w: nat, r: Receiver, p: Packet, k: nat)
    requires r.Shaped(w) && 0 <= p.seqnum && p.seqnum < r.expected + w
    requires StoredBelow(w, r, p.seqnum + w)
    requires forall i :: 0 <= i < SLOTS && r.marked[i] ==> r.slots[i].seqnum >= 0
    ensures Received(w, Store(w, r, p), k) <==> Received(w, r, k) || k == p.seqnum
  {
    var n := p.seqnum;
    ModBelow(n, w);
    ModBelow(k, w);
    if k % w == n % w && k < n + w && n < k + w {
      SameSlot(n, k, w);
    }
  }

  lemma StoreMid(w: nat, s: Sr, n: nat)
    requires Mid(w, s) && n < s.snd.next && n < s.rcv.expected + w
    requires StoredBelow(w, s.rcv, n + w) && OriginsAbove(s.ch.(acks := []), n - w)
    ensures Mid(w, s.(rcv := Store(w, s.rcv, Original(s.submitted, n))))
    ensures forall k: nat :: Received(w, Store(w, s.rcv, Original(s.submitted, n)), k) <==> Received(w, s.rcv, k) || k == n
  {
    var p := Original(s.submitted, n);
    var t := s.(rcv := Store(w, s.rcv, p));
    ModBelow(n, w);
    forall i | 0 <= i < SLOTS && s.rcv.marked[i] ensures SlotOk(w, s.rcv, i, s.submitted, s.snd.next) {
    }
    forall k: nat ensures Received(w, t.rcv, k) <==> Received(w, s.rcv, k) || k == n {
      StoreReceives(w, s.rcv, p, k);
    }
    forall i | 0 <= i < SLOTS && t.rcv.marked[i] ensures SlotOk(w, t.rcv, i, t.submitted, t.snd.next) {
      assert i != n % w ==> SlotOk(w, s.rcv, i, s.submitted, s.snd.next);
    }
    ReceiverChanged(w, s, t);
  }

  /** A change of the receiver that loses nothing keeps the invariant, as long as the new contents respect
      the order of the data channel. */
  lemma ReceiverChanged(w: nat, s: Sr, t: Sr)
    requires Mid(w, s) && t == s.(rcv := t.rcv, delivered := t.delivered)
    requires ReceiverOk(w, t.rcv, t.submitted, t.snd.next) && t.delivered == t.submitted[..t.rcv.expected]
    requires forall k: nat :: Received(w, s.rcv, k) ==> Received(w, t.rcv, k)
    requires forall j :: 0 <= j < |s.ch.data| && StoredBelow(w, s.rcv, s.ch.data[j].origin + w) ==>
               StoredBelow(w, t.rcv, s.ch.data[j].origin + w)
    ensures Mid(w, t)
  {
    forall j | 0 <= j < |t.ch.data| ensures DataFlightOk(t.ch.data[j], t.submitted, t.snd.next) && DataOrder(w, t, j) {
      assert DataFlightOk(s.ch.data[j], s.submitted, s.snd.next) && DataOrder(w, s, j);
    }
    forall j | 0 <= j < |t.ch.acks|
      ensures AckFlightOk(w, t.rcv, t.ch.acks[j], t.submitted, t.snd.next) && AckOrder(w, t, j)
    {
      assert AckFlightOk(w, s.rcv, s.ch.acks[j], s.submitted, s.snd.next) && AckOrder(w, s, j);
    }
    forall k: nat | Acked(t.snd, k) ensures Received(w, t.rcv, k) {
      assert Received(w, s.rcv, k);
    }
    forall n: int ensures t.ch.timers[n] == if InWindowUnacked(t.snd, n) then 1 else 0 {
      assert s.ch.timers[n] == if InWindowUnacked(s.snd, n) then 1 else 0;
    }
  }

  lemma PassUpReceives(w: nat, r: Receiver, k: nat)
    requires r.Shaped(w) && Holds(w, r, r.expected)
    ensures Received(w, PassUp(w, r), k) <==> Received(w, r, k)
  {
    ModBelow(k, w);
    ModBelow(r.expected, w);
  }

  /** Handing the expected packet to layer 5 delivers the next submitted message and forgets nothing. */
  lemma PassUpMid(w: nat, s: Sr)
    requires Mid(w, s) && Holds(w, s.rcv, s.rcv.expected)
    ensures var e := s.rcv.expected;
            Mid(w, s.(rcv := PassUp(w, s.rcv), delivered := s.delivered + [s.rcv.slots[e % w].payload]))
    ensures forall k: nat :: Received(w, PassUp(w, s.rcv), k) <==> Received(w, s.rcv, k)
  {
    var e := s.rcv.expected;
    ModBelow(e, w);
    var t := s.(rcv := PassUp(w, s.rcv), delivered := s.delivered + [s.rcv.slots[e % w].payload]);
    assert SlotOk(w, s.rcv, e % w, s.submitted, s.snd.next);
    assert s.submitted[..e] + [s.submitted[e]] == s.submitted[..e + 1];
    forall k: nat ensures Received(w, t.rcv, k) <==> Received(w, s.rcv, k) {
      PassUpReceives(w, s.rcv, k);
    }
    forall i | 0 <= i < SLOTS && t.rcv.marked[i] ensures SlotOk(w, t.rcv, i, t.submitted, t.snd.next) {
      assert SlotOk(w, s.rcv, i, s.submitted, s.snd.next);
    }
    ReceiverChanged(w, s, t);
  }

  lemma MidShaped(w: nat, s: Sr)
    requires Mid(w, s)
    ensures s.rcv.Shaped(w)
  {
  }

  lemma {:induction false} DrainMid(w: nat, s: Sr)
    requires Mid(w, s)
    ensures s.rcv.Shaped(w)
    ensures var d := Drain(w, s.rcv);
            Mid(w, s.(rcv := d.rcv, delivered := s.delivered + d.delivered))
            && !Holds(w, d.rcv, d.rcv.expected)
            && forall k: nat :: Received(w, d.rcv, k) <==> Received(w, s.rcv, k)
    decreases MarkCount(s.rcv.marked)
  {
    hide Mid, Received;
    MidShaped(w, s);
    var d := Drain(w, s.rcv);
    var e := s.rcv.expected;
    if Holds(w, s.rcv, e) {
      ModBelow(e, w);
      UnmarkCount(s.rcv.marked, e % w);
      var t := s.(rcv := PassUp(w, s.rcv), delivered := s.delivered + [s.rcv.slots[e % w].payload]);
      PassUpMid(w, s);
      DrainMid(w, t);
      var rest := Drain(w, t.rcv);
      assert s.delivered + d.delivered == t.delivered + rest.delivered;
      assert s.(rcv := d.rcv, delivered := s.delivered + d.delivered)
          == t.(rcv := rest.rcv, delivered := t.delivered + rest.delivered);
    } else {
      assert s.delivered + [] == s.delivered;
      assert s.(rcv := d.rcv, delivered := s.delivered + d.delivered) == s;
    }
  }

  /** Sending an acknowledgment keeps the invariant, whatever its fate. */
  lemma AckCopyMid(w: nat, fate: Oracle, s: Sr, p: Packet, n: int)
    requires Mid(w, s)
    requires AckFlightOk(w, s.rcv, Flight(p, n), s.submitted, s.snd.next)
    requires AckFlightOk(w, s.rcv, Flight(Tamper(p), n), s.submitted, s.snd.next)
    requires AckedBelow(s.snd, n + w) && OriginsBelow(s.ch.acks, n + w) && OriginsAbove(s.ch.(acks := []), n - w)
    ensures Mid(w, s.(ch := CarryAll(s.ch, fate, SideB, Acknowledge([p], n))))
  {
    hide SenderOk, AckFlightOk, DataFlightOk, Tamper, AckPacket, CarryAll, Received;
    assert Acknowledge([p], n) == [Send(p, n)];
    CarryOne(s.ch, fate, SideB, Send(p, n));
    var c := Carry(s.ch, fate, SideB, Send(p, n));
    var t := s.(ch := c);
    forall j | 0 <= j < |c.data| ensures DataFlightOk(c.data[j], t.submitted, t.snd.next) && DataOrder(w, t, j) {
      assert DataFlightOk(s.ch.data[j], s.submitted, s.snd.next) && DataOrder(w, s, j);
    }
    forall j | 0 <= j < |c.acks| ensures AckFlightOk(w, t.rcv, c.acks[j], t.submitted, t.snd.next) && AckOrder(w, t, j) {
      if j < |s.ch.acks| {
        assert AckFlightOk(w, s.rcv, s.ch.acks[j], s.submitted, s.snd.next) && AckOrder(w, s, j);
        assert c.acks[..j] == s.ch.acks[..j];
      } else {
        assert c.acks[..j] == s.ch.acks;
      }
    }
    forall k: int ensures t.ch.timers[k] == if InWindowUnacked(t.snd, k) then 1 else 0 {
      assert s.ch.timers[k] == if InWindowUnacked(s.snd, k) then 1 else 0;
    }
  }

  /** An intact packet: stored unless already held, then everything in sequence is handed up. */
  lemma IntactDataInv(w: nat, fate: Oracle, s: Sr)
    requires Inv(w, s) && s.ch.data != []
    requires s.ch.data[0].pkt == Original(s.submitted, s.ch.data[0].origin)
    ensures Addressable(w, s.rcv, s.ch.data[0].pkt) && Inv(w, Apply(w, fate, s, DataArrives))
    ensures forall k: nat :: Received(w, Apply(w, fate, s, DataArrives).rcv, k)
                             <==> Received(w, s.rcv, k) || k == s.ch.data[0].origin
  {
    hide SenderOk, TimersOk, Tamper, AckPacket, Drain, AckOrder;
    var f := s.ch.data[0];
    var n: nat := f.origin;
    var t := s.(ch := s.ch.(data := s.ch.data[1..]));
    OwnChecksumAccepted(Packet(n, NOTUSED, 0, s.submitted[n]));
    FirstDataInRange(w, s);
    assert DataOrder(w, s, 0);
    PopDataMid(w, s);
    if Holds(w, s.rcv, n) {
      DrainMid(w, t);
      assert CarryAll(t.ch, fate, SideB, Acknowledge([], n)) == t.ch;
    } else {
      var u := t.(rcv := Store(w, t.rcv, f.pkt));
      StoreMid(w, t, n);
      DrainMid(w, u);
      var d := Drain(w, u.rcv);
      var v := u.(rcv := d.rcv, delivered := u.delivered + d.delivered);
      assert Received(w, v.rcv, n);
      AckCopyMid(w, fate, v, AckPacket(n), n);
      assert Apply(w, fate, s, DataArrives) == v.(ch := CarryAll(v.ch, fate, SideB, Acknowledge([AckPacket(n)], n)));
    }
  }

  /** A packet whose corruption escapes the checksum is always out of range, so it is only acknowledged. */
  lemma SlippedDataOutOfRange(w: nat, s: Sr)
    requires Inv(w, s) && s.ch.data != []
    requires Slips(s.submitted, s.ch.data[0].origin)
    ensures !InRange(w, s.rcv, TAMPERED)
  {
    FirstDataInRange(w, s);
    BaseBelowExpected(w, s);
    NoSlipNearTampered(s.ch.data[0].origin, s.submitted[s.ch.data[0].origin][0]);
  }

  /** Packets numbered close to the channel's replacement number never slip through. */
  lemma NoSlipNearTampered(n: int, b: Byte)
    ensures TAMPERED - 2 * SLOTS <= n <= TAMPERED + 2 * SLOTS ==>
              (n + b) % 65535 != 34038 && n % 65535 != 34038
  {
    if TAMPERED - 2 * SLOTS <= n <= TAMPERED + 2 * SLOTS {
      assert 983025 == 15 * 65535 && 0 <= n + b - 983025 < 34038;
    }
  }

  lemma TamperedDataInv(w: nat, fate: Oracle, s: Sr)
    requires Inv(w, s) && s.ch.data != []
    requires s.ch.data[0].pkt == Tamper(Original(s.submitted, s.ch.data[0].origin))
    ensures Addressable(w, s.rcv, s.ch.data[0].pkt) && Inv(w, Apply(w, fate, s, DataArrives))
    ensures Apply(w, fate, s, DataArrives).rcv == s.rcv
  {
    hide TimersOk, DataPacket, AckPacket, CarryAll, Accepts, DataOrder, AckOrder;
    var f := s.ch.data[0];
    var n: nat := f.origin;
    var t := s.(ch := s.ch.(data := s.ch.data[1..]));
    PopDataMid(w, s);
    TamperedDataAccepted(n, s.submitted[n]);
    if Accepts(f.pkt) {
      SlippedDataOutOfRange(w, s);
    }
    TamperedEffect(w, fate, s, t);
    if Accepts(f.pkt) {
      AckCopyMid(w, fate, t, AckPacket(TAMPERED), n);
    }
  }

  /** What B does with a damaged packet: nothing, or an ACK for the replacement number. */
  lemma TamperedEffect(w: nat, fate: Oracle, s: Sr, t: Sr)
    requires s.ch.data != [] && s.rcv.Shaped(w) && t == s.(ch := s.ch.(data := s.ch.data[1..]))
    requires s.ch.data[0].pkt.seqnum == TAMPERED
    requires Accepts(s.ch.data[0].pkt) ==> !InRange(w, s.rcv, TAMPERED)
    ensures Addressable(w, s.rcv, s.ch.data[0].pkt)
    ensures Apply(w, fate, s, DataArrives)
         == if Accepts(s.ch.data[0].pkt)
            then t.(ch := CarryAll(t.ch, fate, SideB, Acknowledge([AckPacket(TAMPERED)], s.ch.data[0].origin)))
            else t
  {
    assert s.delivered + [] == s.delivered;
    assert Acknowledge([], s.ch.data[0].origin) == [];
    assert CarryAll(t.ch, fate, SideB, []) == t.ch;
  }

  lemma DataInv(w: nat, fate: Oracle, s: Sr)
    requires Inv(w, s) && s.ch.data != []
    ensures Enabled(w, s, DataArrives) && Inv(w, Apply(w, fate, s, DataArrives))
  {
    assert DataFlightOk(s.ch.data[0], s.submitted, s.snd.next);
    if s.ch.data[0].pkt == Original(s.submitted, s.ch.data[0].origin) {
      IntactDataInv(w, fate, s);
    } else {
      TamperedDataInv(w, fate, s);
    }
  }

  // ---------- every run ----------

  lemma StepInv(w: nat, fate: Oracle, s: Sr, step: Step)
    requires Inv(w, s) && Enabled(w, s, step)
    ensures Inv(w, Apply(w, fate, s, step))
  {
    match step
    case Submit(m) => SubmitInv(w, fate, s, m);
    case DataArrives => DataInv(w, fate, s);
    case AckArrives => AckInv(w, fate, s);
    case Expire(n) => ExpireInv(w, fate, s, n);
  }

  ghost predicate Run(w: nat, fate: Oracle, states: seq<Sr>, steps: seq<Step>) {
    && |states| == |steps| + 1 && Initial(w, states[0])
    && forall i :: 0 <= i < |steps| ==> Enabled(w, states[i], steps[i]) && states[i + 1] == Apply(w, fate, states[i], steps[i])
  }

  lemma {:induction false} RunInv(w: nat, fate: Oracle, states: seq<Sr>, steps: seq<Step>, k: nat)
    requires Run(w, fate, states, steps) && k < |states|
    ensures Inv(w, states[k])
  {
    if k == 0 {
      InitialInv(w, states[0]);
    } else {
      RunInv(w, fate, states, steps, k - 1);
      StepInv(w, fate, states[k - 1], steps[k - 1]);
    }
  }

  /** End-to-end safety: in every state of every run, layer 5 at B has been given exactly the first
      `expected` submitted messages, each once and in order, and the two windows agree. */
  lemma Safety(w: nat, fate: Oracle, states: seq<Sr>, steps: seq<Step>, k: nat)
    requires Run(w, fate, states, steps) && k < |states|
    ensures var s := states[k];
            && s.rcv.expected <= |s.submitted| && s.delivered == s.submitted[..s.rcv.expected]
            && s.snd.base <= s.rcv.expected <= s.snd.next <= s.snd.base + w
  {
    RunInv(w, fate, states, steps, k);
    BaseBelowExpected(w, states[k]);
  }
}
