/** What each handler of Selective Repeat does, on the messages and numbers themselves. */
module SrSteps {
  import opened Packets
  import opened Networks
  import opened SrSender
  import opened SrReceiver
  import opened SrProtocol

  // ---------- the sender ----------

  /** Sending messages `from` to `to - 1` for the first time: each packet and its own timer, in order. */
  function NewActs(submitted: seq<Payload>, from: nat, to: nat): seq<Action>
    requires from <= to <= |submitted|
    decreases |submitted| - from
  {
    if from == to then []
    else [Send(DataPacket(from, submitted[from]), from), StartTimer(from)] + NewActs(submitted, from + 1, to)
  }

  /** A message goes out at once, with a timer, while fewer than `w` packets are in flight; otherwise it waits as long as
      fewer than 4999 do, and with 4999 the source gives up. */
  lemma SubmitExact(w: nat, s: Sender, submitted: seq<Payload>, m: Payload)
    requires SenderOk(w, s, submitted) && Settled(w, s)
    ensures var e := OnSubmit(w, s, m);
            && (s.next - s.base < w ==>
                  && e.snd == s.(next := s.next + 1, window := s.window + [DataPacket(s.next, m)], sent := s.sent + 1)
                  && e.acts == NewActs(submitted + [m], s.next, s.next + 1) && s.queue == [] && s.next == |submitted|)
            && (s.next - s.base == w && |s.queue| < 4999 ==> e == Effect(s.(queue := s.queue + [m]), []))
            && (s.next - s.base == w && |s.queue| >= 4999 ==> e == Effect(s, []))
    ensures Overflows(w, s) <==> s.next - s.base == w && |s.queue| >= 4999
  {
    hide DataPacket;
    assert NewActs(submitted + [m], |submitted|, |submitted| + 1)
        == [Send(DataPacket(|submitted|, m), |submitted|), StartTimer(|submitted|)] + [];
  }

  lemma MarkSender(w: nat, s: Sender, submitted: seq<Payload>, n: nat, k: nat)
    requires SenderOk(w, s, submitted) && InWindowUnacked(s, n)
    ensures var t := MarkAcked(s, n - s.base);
            && SenderOk(w, t, submitted) && t == s.(window := t.window)
            && (Acked(t, k) <==> Acked(s, k) || k == n)
  {
    var t := MarkAcked(s, n - s.base);
    forall i | 0 <= i < |t.window| ensures WindowSlotOk(t, i, submitted) {
      assert WindowSlotOk(s, i, submitted);
    }
  }

  lemma {:induction false} SlideSender(w: nat, s: Sender, submitted: seq<Payload>, k: nat)
    requires SenderOk(w, s, submitted)
    ensures var t := Slide(s);
            && SenderOk(w, t, submitted) && s.base <= t.base && t == s.(base := t.base, window := t.window)
            && (Acked(t, k) <==> Acked(s, k)) && !Acked(t, t.base)
    decreases |s.window|
  {
    if s.window != [] {
      assert WindowSlotOk(s, 0, submitted);
      if s.window[0].acknum == 1 {
        var t := s.(base := s.base + 1, window := s.window[1..]);
        forall i | 0 <= i < |t.window| ensures WindowSlotOk(t, i, submitted) {
          assert WindowSlotOk(s, i + 1, submitted);
        }
        SlideSender(w, t, submitted, k);
      }
    }
  }

  lemma GrowSender(w: nat, s: Sender, submitted: seq<Payload>, k: nat)
    requires SenderOk(w, s, submitted) && s.queue != [] && s.next < s.base + w
    ensures var t := TransmitNew(s.(queue := s.queue[1..]), s.queue[0]).snd;
            && SenderOk(w, t, submitted) && t.base == s.base && t.next == s.next + 1
            && s.queue[0] == submitted[s.next] && (Acked(t, k) <==> Acked(s, k))
  {
    hide DataPacket;
    var t := TransmitNew(s.(queue := s.queue[1..]), s.queue[0]).snd;
    BuiltPackets(s.next, s.queue[0]);
    forall i | 0 <= i < |t.window| ensures WindowSlotOk(t, i, submitted) {
      assert i < |s.window| ==> WindowSlotOk(s, i, submitted);
    }
  }

  lemma {:induction false} RefillSender(w: nat, s: Sender, submitted: seq<Payload>, k: nat)
    requires SenderOk(w, s, submitted)
    ensures var e := Refill(w, s);
            && e.snd.base == s.base && s.next <= e.snd.next <= |submitted| && e.snd.queue == submitted[e.snd.next..]
            && e.snd.next == (if s.base + w <= |submitted| then s.base + w else |submitted|)
            && e.acts == NewActs(submitted, s.next, e.snd.next)
            && (Acked(e.snd, k) <==> Acked(s, k))
    decreases |s.queue|
  {
    hide SenderOk, DataPacket;
    SenderNumbers(w, s, submitted);
    if s.queue != [] && s.next < s.base + w {
      var first := TransmitNew(s.(queue := s.queue[1..]), s.queue[0]);
      GrowSender(w, s, submitted, k);
      RefillSender(w, first.snd, submitted, k);
    }
  }

  lemma SenderNumbers(w: nat, s: Sender, submitted: seq<Payload>)
    requires SenderOk(w, s, submitted)
    ensures s.base <= s.next <= s.base + w && s.next <= |submitted| && s.queue == submitted[s.next..]
    ensures |s.window| == s.next - s.base
  {
  }

  /** An acknowledgment that passes the checksum, for a packet in flight that has not been acknowledged, acknowledges that
      packet and no other; its timer is cancelled; the window moves on to the first packet that is not acknowledged, and as
      many waiting messages go out as it now has room for.  Any other acknowledgment changes nothing. */
  lemma AckExact(w: nat, s: Sender, submitted: seq<Payload>, p: Packet, k: nat)
    requires SenderOk(w, s, submitted)
    ensures !(Accepts(p) && InWindowUnacked(s, p.acknum)) ==> OnAck(w, s, p) == Effect(s, [])
    ensures Accepts(p) && InWindowUnacked(s, p.acknum) ==>
              var e := OnAck(w, s, p);
              && (Acked(e.snd, k) <==> Acked(s, k) || k == p.acknum)
              && s.base <= e.snd.base && !Acked(e.snd, e.snd.base)
              && e.snd.next == (if e.snd.base + w <= |submitted| then e.snd.base + w else |submitted|)
              && s.next <= e.snd.next && e.snd.queue == submitted[e.snd.next..]
              && e.acts == [StopTimer(p.acknum)] + NewActs(submitted, s.next, e.snd.next)
  {
    hide SenderOk, Accepts, Slide, Refill, NewActs, MarkAcked, Acked, InWindowUnacked;
    SenderNumbers(w, s, submitted);
    FindInWindow(w, s, submitted, p.acknum);
    InWindow(s, p.acknum);
    if Accepts(p) && InWindowUnacked(s, p.acknum) {
      var t := MarkAcked(s, p.acknum - s.base);
      var u := Slide(t);
      MarkSender(w, s, submitted, p.acknum, k);
      SlideSender(w, t, submitted, k);
      RefillSender(w, u, submitted, k);
      RefillSender(w, u, submitted, u.base);
    }
  }

  lemma InWindow(s: Sender, n: int)
    ensures InWindowUnacked(s, n) ==> s.base <= n < s.base + |s.window|
  {
  }

  /** A timer that goes off for a packet in flight that has not been acknowledged sends that packet again, as it was, and
      starts its timer anew; for any other number only the counter moves. */
  lemma TimeOutExact(w: nat, s: Sender, submitted: seq<Payload>, n: int)
    requires SenderOk(w, s, submitted)
    ensures InWindowUnacked(s, n) ==>
              && 0 <= n < |submitted|
              && OnTimeOut(s, n) == Effect(s.(timeouts := s.timeouts + 1, sent := s.sent + 1, resent := s.resent + 1),
                                           [Send(DataPacket(n, submitted[n]), n), StartTimer(n)])
    ensures !InWindowUnacked(s, n) ==> OnTimeOut(s, n) == Effect(s.(timeouts := s.timeouts + 1), [])
  {
    FindInWindow(w, s, submitted, n);
    if InWindowUnacked(s, n) {
      assert WindowSlotOk(s, n - s.base, submitted);
    }
  }

  // ---------- the receiver ----------

  /** In which case B answers a packet: one that passes the checksum is acknowledged by its own number, whether it is near
      the window or far from it, and only one that B still holds gets no answer.  One far from the window changes nothing
      else, and one that does not pass the checksum nothing at all. */
  lemma ReceiptExact(w: nat, r: Receiver, p: Packet)
    requires r.Shaped(w) && Addressable(w, r, p)
    ensures 0 <= p.seqnum % w < 8
    ensures var d := OnData(w, r, p);
            var near := r.expected - w <= p.seqnum < r.expected + w;
            var held := r.marked[p.seqnum % w] && r.slots[p.seqnum % w].seqnum == p.seqnum;
            && (!Accepts(p) ==> d == Receipt(r, [], []))
            && (Accepts(p) ==> d.acks == if near && held then [] else [AckPacket(p.seqnum)])
            && (!near ==> d.rcv == r && d.delivered == [])
  {
    hide Accepts, AckPacket;
    ModBelow(p.seqnum, w);
  }

  /** What is handed up is the packets that were waiting in their slots from `expected` on, up to the first that is not
      there; their slots are free again, and all others are as they were. */
  lemma {:induction false} DrainExact(w: nat, r: Receiver, i: nat)
    requires r.Shaped(w)
    ensures var d := Drain(w, r);
            && d.rcv.expected == r.expected + |d.delivered| && d.rcv.slots == r.slots
            && !Holds(w, d.rcv, d.rcv.expected)
            && 0 <= (r.expected + i) % w < 8
            && (i < |d.delivered| ==>
                  && r.slots[(r.expected + i) % w].seqnum == r.expected + i
                  && d.delivered[i] == r.slots[(r.expected + i) % w].payload)
    decreases MarkCount(r.marked)
  {
    ModBelow(r.expected + i, w);
    ModBelow(r.expected, w);
    if Holds(w, r, r.expected) {
      UnmarkCount(r.marked, r.expected % w);
      DrainExact(w, PassUp(w, r), if i == 0 then 0 else i - 1);
    }
  }
}
