/** What the Selective Repeat invariant says about timers, acknowledgments and the rings of both sides. */
module SrFacts {
  import opened Rings
  import opened Packets
  import opened Networks
  import opened SrSender
  import opened SrReceiver
  import opened SrProtocol

  /** In every state of every run a timer is running exactly for the unacknowledged packets of the window,
      one for each, and every timer that ever went off caused one resend. */
  lemma TimersExact(w: nat, fate: Oracle, states: seq<Sr>, steps: seq<Step>, k: nat, n: int)
    requires Run(w, fate, states, steps) && k < |states|
    ensures states[k].ch.timers[n] == if InWindowUnacked(states[k].snd, n) then 1 else 0
    ensures states[k].snd.timeouts == states[k].snd.resent
    ensures states[k].snd.sent == states[k].snd.next + states[k].snd.resent
  {
    RunInv(w, fate, states, steps, k);
  }

  /** Whenever A cancels a timer, it is running: the simulator's warning is unreachable. */
  lemma CancelledTimerRuns(w: nat, s: Sr)
    requires Inv(w, s) && s.ch.acks != []
    requires OnAck(w, s.snd, s.ch.acks[0].pkt).acts != []
    ensures s.ch.acks[0].pkt.acknum in s.ch.timers
  {
    var n := s.ch.acks[0].pkt.acknum;
    FindInWindow(w, s.snd, s.submitted, n);
    assert s.ch.timers[n] == if InWindowUnacked(s.snd, n) then 1 else 0;
  }

  /** The ring is a faithful picture of an unbounded set: what B has received is what it had received before
      plus the packet that just arrived intact, what it expects is the least number it has not received, and
      a number at or above that is received exactly when its slot says so. */
  lemma RingRefinesSet(w: nat, fate: Oracle, s: Sr, k: nat)
    requires Inv(w, s) && s.ch.data != []
    requires s.ch.data[0].pkt == Original(s.submitted, s.ch.data[0].origin)
    ensures Enabled(w, s, DataArrives)
    ensures var t := Apply(w, fate, s, DataArrives);
            && (Received(w, t.rcv, k) <==> Received(w, s.rcv, k) || k == s.ch.data[0].origin)
            && !Received(w, t.rcv, t.rcv.expected) && (k < t.rcv.expected ==> Received(w, t.rcv, k))
            && (Received(w, t.rcv, k) ==> k < t.rcv.expected + w)
  {
    IntactDataInv(w, fate, s);
    var t := Apply(w, fate, s, DataArrives);
    BaseBelowExpected(w, t);
    ModBelow(k, w);
    if Holds(w, t.rcv, k) {
      assert SlotOk(w, t.rcv, k % w, t.submitted, t.snd.next);
    }
  }

  /** A damaged packet, detected or not, changes nothing at B. */
  lemma DamagedChangesNothing(w: nat, fate: Oracle, s: Sr)
    requires Inv(w, s) && Enabled(w, s, DataArrives)
    requires s.ch.data[0].pkt == Tamper(Original(s.submitted, s.ch.data[0].origin))
    ensures Apply(w, fate, s, DataArrives).rcv == s.rcv
  {
    var f := s.ch.data[0];
    assert DataFlightOk(f, s.submitted, s.snd.next);
    TamperedDataAccepted(f.origin, s.submitted[f.origin]);
    if Accepts(f.pkt) {
      SlippedDataOutOfRange(w, s);
    }
  }

  /** By step `k` of a run an undamaged copy of packet `n` has arrived at B. */
  ghost predicate ArrivedIntact(states: seq<Sr>, steps: seq<Step>, k: nat, n: nat)
    requires k <= |steps| < |states|
  {
    exists i :: 0 <= i < k && IntactArrival(states[i], steps[i], n)
  }

  ghost predicate IntactArrival(s: Sr, step: Step, n: nat) {
    step.DataArrives? && s.ch.data != [] && n < |s.submitted| && s.ch.data[0].pkt == Original(s.submitted, n)
  }

  lemma ArrivedStep(states: seq<Sr>, steps: seq<Step>, k: nat, n: nat)
    requires 0 < k <= |steps| < |states|
    ensures ArrivedIntact(states, steps, k, n)
       <==> ArrivedIntact(states, steps, k - 1, n) || IntactArrival(states[k - 1], steps[k - 1], n)
  {
  }

  lemma StepReceives(w: nat, fate: Oracle, s: Sr, step: Step, n: nat)
    requires Inv(w, s) && Enabled(w, s, step)
    ensures var t := Apply(w, fate, s, step);
            t.rcv.Shaped(w) && (Received(w, t.rcv, n) <==> Received(w, s.rcv, n) || IntactArrival(s, step, n))
  {
    if step.DataArrives? {
      var f := s.ch.data[0];
      assert DataFlightOk(f, s.submitted, s.snd.next);
      if f.pkt == Original(s.submitted, f.origin) {
        RingRefinesSet(w, fate, s, n);
        assert IntactArrival(s, step, n) <==> n == f.origin;
      } else {
        DamagedChangesNothing(w, fate, s);
      }
    }
  }

  /** In every run the ring stands for the set of all numbers that ever arrived undamaged: B counts a number as
      received exactly when it is in that set, and `expected` is the least number that is not. */
  lemma {:induction false} ReceivedIsHistory(w: nat, fate: Oracle, states: seq<Sr>, steps: seq<Step>, k: nat, n: nat)
    requires Run(w, fate, states, steps) && k < |states|
    ensures states[k].rcv.Shaped(w)
    ensures Received(w, states[k].rcv, n) <==> ArrivedIntact(states, steps, k, n)
    ensures n < states[k].rcv.expected ==> ArrivedIntact(states, steps, k, n)
    ensures n == states[k].rcv.expected ==> !ArrivedIntact(states, steps, k, n)
  {
    hide Apply, ArrivedIntact, Enabled, Mid;
    RunInv(w, fate, states, steps, k);
    if k == 0 {
      NothingArrived(w, states, steps, n);
    } else {
      RunInv(w, fate, states, steps, k - 1);
      ReceivedIsHistory(w, fate, states, steps, k - 1, n);
      StepReceives(w, fate, states[k - 1], steps[k - 1], n);
      ArrivedStep(states, steps, k, n);
    }
  }

  lemma NothingArrived(w: nat, states: seq<Sr>, steps: seq<Step>, n: nat)
    requires |steps| < |states| && Initial(w, states[0])
    ensures !ArrivedIntact(states, steps, 0, n) && states[0].rcv.Shaped(w) && !Received(w, states[0].rcv, n)
  {
    ModBelow(n, w);
  }

  /** The sender's rings: the window holds the packets base..next-1, each the original up to the acked flag that
      reuses its acknum field; the submitted messages are those sent followed by the overflow queue; and messages
      wait only behind a full window. */
  ghost predicate RingsFaithful(w: nat, s: Sender, submitted: seq<Payload>) {
    && s.base <= s.next <= |submitted| && |s.window| == s.next - s.base <= w
    && (forall i :: 0 <= i < |s.window| ==>
          s.window[i] == Original(submitted, s.base + i)
          || s.window[i] == Original(submitted, s.base + i).(acknum := 1))
    && submitted == submitted[..s.next] + s.queue
    && (s.queue != [] ==> s.next == s.base + w)
  }

  lemma SettledRings(w: nat, s: Sender, submitted: seq<Payload>)
    requires SenderOk(w, s, submitted) && Settled(w, s)
    ensures RingsFaithful(w, s, submitted)
  {
    forall i | 0 <= i < |s.window|
      ensures s.window[i] == Original(submitted, s.base + i)
           || s.window[i] == Original(submitted, s.base + i).(acknum := 1)
    {
      assert WindowSlotOk(s, i, submitted);
    }
  }

  /** In every reachable state the rings are faithful, and whatever timer goes off, what is resent is the original
      packet, although its copy in the window is the one that carries the flag. */
  lemma SenderRings(w: nat, fate: Oracle, states: seq<Sr>, steps: seq<Step>, k: nat, n: int)
    requires Run(w, fate, states, steps) && k < |states|
    ensures RingsFaithful(w, states[k].snd, states[k].submitted)
    ensures n in states[k].ch.timers ==>
              && states[k].snd.base <= n < states[k].snd.next
              && OnTimeOut(states[k].snd, n).acts == [Send(Original(states[k].submitted, n), n), StartTimer(n)]
  {
    hide RingsFaithful;
    RunInv(w, fate, states, steps, k);
    SettledRings(w, states[k].snd, states[k].submitted);
    if n in states[k].ch.timers {
      ExpireResends(w, states[k], n);
    }
  }

  /** What A takes for acknowledged, B has received; and an ACK in flight that is not damaged, for a packet of the
      window, is for a packet that B has received. */
  lemma AcknowledgedIsReceived(w: nat, fate: Oracle, states: seq<Sr>, steps: seq<Step>, k: nat, n: nat, j: nat)
    requires Run(w, fate, states, steps) && k < |states|
    ensures var s := states[k];
            && s.rcv.Shaped(w) && (Acked(s.snd, n) ==> Received(w, s.rcv, n))
            && (j < |s.ch.acks| && s.ch.acks[j].pkt == AckPacket(n) && n < s.snd.next ==> Received(w, s.rcv, n))
  {
    RunInv(w, fate, states, steps, k);
    var s := states[k];
    assert Acked(s.snd, n) ==> Received(w, s.rcv, n);
    if j < |s.ch.acks| && s.snd.base <= n < s.snd.next && s.ch.acks[j].pkt == AckPacket(n) {
      var o := s.ch.acks[j].origin;
      assert AckFlightOk(w, s.rcv, s.ch.acks[j], s.submitted, s.snd.next) && AckOrder(w, s, j);
      NoSlipNearTampered(o, s.submitted[o][0]);
      assert s.ch.acks[j].pkt.payload[0] == 0 && s.ch.acks[j].pkt.acknum == n;
    }
  }

  /** Storing an intact packet at B never loses a buffered one: it lies within a window of what B expects, either
      way, so the out-of-range branch is not reached; and its slot holds either an already delivered packet or
      this very one. */
  lemma StoringLosesNothing(w: nat, fate: Oracle, states: seq<Sr>, steps: seq<Step>, k: nat, t: nat)
    requires Run(w, fate, states, steps) && k < |states| && states[k].ch.data != [] && t < |states[k].submitted|
    requires states[k].ch.data[0].pkt == Original(states[k].submitted, t)
    ensures var r := states[k].rcv;
            && r.Shaped(w) && r.expected - w <= t < r.expected + w
            && 0 <= t % w < 8
            && (r.marked[t % w] && r.slots[t % w].seqnum >= r.expected ==> r.slots[t % w].seqnum == t)
  {
    RunInv(w, fate, states, steps, k);
    var s := states[k];
    var f := s.ch.data[0];
    assert DataFlightOk(f, s.submitted, s.snd.next) && DataOrder(w, s, 0);
    assert f.pkt.acknum == NOTUSED && f.pkt.seqnum == t;
    FirstDataInRange(w, s);
    ModBelow(t, w);
    if s.rcv.marked[t % w] && s.rcv.slots[t % w].seqnum >= s.rcv.expected {
      assert SlotOk(w, s.rcv, t % w, s.submitted, s.snd.next);
      SameSlot(s.rcv.slots[t % w].seqnum, t, w);
    }
  }
}
